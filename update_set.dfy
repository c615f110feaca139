/**
 * The update set fetched from the update feed, and the pair of file
 * collections ("original" and "updated" snapshots) that applying it yields.
 */
module UpdateSets {
  import opened Models

  /** A patch to apply to one manifest file. The patch text is opaque here. */
  datatype RequirementUpdate = RequirementUpdate(file: DependencyFile, patch: string)

  /** A requested version change of one package. */
  datatype VersionUpdate = VersionUpdate(package: Package, oldVersion: string, targetVersion: string)

  /** Requirement and version updates, each grouped by ecosystem name. */
  datatype UpdateSet = UpdateSet(
    id: int,
    requirementUpdates: map<string, seq<RequirementUpdate>>,
    versionUpdates: map<string, seq<VersionUpdate>>)

  /**
   * The two parallel collections that installers and updaters append to:
   * `originals[i]` and `updated[i]` are the before and after snapshots of one file.
   */
  datatype FilePairs = FilePairs(originals: seq<DependencyFile>, updated: seq<DependencyFile>) {

    /** These entries followed by those of `next`, collection by collection. */
    function Then(next: FilePairs): (r: FilePairs) {
      FilePairs(originals + next.originals, updated + next.updated)
    }

    /** The pairing invariant: equal lengths and the same path at every index. */
    predicate Paired() {
      |originals| == |updated| &&
      forall i :: 0 <= i < |originals| ==> originals[i].path == updated[i].path
    }
  }

  const NoFiles := FilePairs([], [])

  /** Appending in two steps is appending the joined entries. */
  lemma ThenAssociative(a: FilePairs, b: FilePairs, c: FilePairs)
    ensures a.Then(b).Then(c) == a.Then(b.Then(c))
  {
  }

  /** Appending paired entries to paired collections keeps them paired. */
  lemma ThenPaired(a: FilePairs, b: FilePairs)
    requires a.Paired() && b.Paired()
    ensures a.Then(b).Paired()
  {
  }
}
