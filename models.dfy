/**
 * The dependency-file record of the `models` package: one snapshot of a
 * manifest or lockfile, identified by its path and a content checksum.
 */
module Models {

  /** One byte of file content (Go's `byte`). */
  newtype byte = x: int | 0 <= x < 256

  /** A dependency file snapshot. `sha` is an opaque checksum that plugins set. */
  datatype DependencyFile = DependencyFile(path: string, sha: string, content: seq<byte>)

  /** The package a version update is about. */
  datatype Package = Package(name: string, slug: string, ecosystem: string)

  predicate IsAscii(s: string) {
    forall i :: 0 <= i < |s| ==> s[i] < 128 as char
  }

  /**
   * Go's conversion `[]byte(s)` of a string literal. The conversion is UTF-8
   * encoding; on ASCII text it keeps each character's code as one byte.
   */
  function Ascii(s: string): (b: seq<byte>)
    requires IsAscii(s)
  {
    seq(|s|, i requires 0 <= i < |s| => s[i] as int as byte)
  }
}
