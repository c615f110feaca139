/**
 * The installer and updater plugins of the test package: functions that append
 * "original" and "updated" dependency-file snapshots to two slices owned by
 * their caller and passed by pointer.
 */
module Plugins {
  import opened Wrappers
  import opened Models
  import opened UpdateSets

  /** The two caller-owned slices that a plugin call appends to. */
  class Accumulator {
    var originals: seq<DependencyFile>
    var updated: seq<DependencyFile>

    constructor ()
      ensures originals == [] && updated == []
    {
      originals, updated := [], [];
    }

    function Files(): (r: FilePairs)
      reads this
    {
      FilePairs(originals, updated)
    }
  }

  /**
   * A registered installer: the test package's `fakeInstaller`, or an
   * ecosystem's own installer, known here only by the pairs it appends for a
   * list of requirement updates.
   */
  datatype InstallerFn = FakeInstallerFn | EcosystemInstaller(appended: seq<RequirementUpdate> -> FilePairs)

  /**
   * A registered updater: the test package's `fakeUpdater`, or an ecosystem's
   * own updater, known here only by the pairs it appends for a list of
   * version updates.
   */
  datatype UpdaterFn = FakeUpdaterFn | EcosystemUpdater(appended: seq<VersionUpdate> -> FilePairs)

  const OriginalContent: seq<byte> := Ascii("original content")
  const NewContent: seq<byte> := Ascii("New content")
  const UpdatedContent: seq<byte> := Ascii("updated content")
  const LockPath := "Gemfile.lock"
  const LockOriginalSha := "09c2f8647e14e49e922b955c194102070597c2d1"
  const LockUpdatedSha := "141162477fd3bf27aed3bbea4fe3d17c71d6c7be"

  /** The snapshot fakeInstaller records before patching: the update's file with placeholder content. */
  function OriginalOf(ru: RequirementUpdate): (f: DependencyFile) {
    ru.file.(content := OriginalContent)
  }

  /** The snapshot fakeInstaller records after patching. */
  function UpdatedOf(ru: RequirementUpdate): (f: DependencyFile) {
    ru.file.(content := NewContent)
  }

  /** What fakeInstaller appends for `reqUpdates`, one pair per update, in input order. */
  function FakeInstalled(reqUpdates: seq<RequirementUpdate>): (r: FilePairs)
    decreases |reqUpdates|
  {
    if reqUpdates == [] then NoFiles
    else
      var last := reqUpdates[|reqUpdates| - 1];
      FakeInstalled(reqUpdates[..|reqUpdates| - 1]).Then(FilePairs([OriginalOf(last)], [UpdatedOf(last)]))
  }

  /** What fakeUpdater appends: one lockfile pair, whatever the version updates are. */
  function FakeUpdated(versionUpdates: seq<VersionUpdate>): (r: FilePairs) {
    FilePairs([DependencyFile(LockPath, LockOriginalSha, OriginalContent)],
              [DependencyFile(LockPath, LockUpdatedSha, UpdatedContent)])
  }

  /** What a registered installer appends for `reqUpdates`. */
  function Installs(fn: InstallerFn, reqUpdates: seq<RequirementUpdate>): (r: FilePairs) {
    match fn
    case FakeInstallerFn => FakeInstalled(reqUpdates)
    case EcosystemInstaller(appended) => appended(reqUpdates)
  }

  /** What a registered updater appends for `versionUpdates`. */
  function Updates(fn: UpdaterFn, versionUpdates: seq<VersionUpdate>): (r: FilePairs) {
    match fn
    case FakeUpdaterFn => FakeUpdated(versionUpdates)
    case EcosystemUpdater(appended) => appended(versionUpdates)
  }

  /** The obligation every installer has towards the engine: each call appends paired snapshots. */
  ghost predicate InstallerPairs(fn: InstallerFn) {
    forall reqUpdates :: Installs(fn, reqUpdates).Paired()
  }

  /** The obligation every updater has towards the engine: each call appends paired snapshots. */
  ghost predicate UpdaterPairs(fn: UpdaterFn) {
    forall versionUpdates :: Updates(fn, versionUpdates).Paired()
  }

  /** An installer that appends exactly one pair per requirement update it is given. */
  ghost predicate OnePairPerUpdate(fn: InstallerFn) {
    forall reqUpdates ::
      |Installs(fn, reqUpdates).originals| == |reqUpdates| && |Installs(fn, reqUpdates).updated| == |reqUpdates|
  }

  /**
   * fakeInstaller appends exactly one pair per requirement update, in input
   * order; both entries keep the update's path and SHA and differ only in content.
   */
  lemma {:induction false} FakeInstalledEntries(reqUpdates: seq<RequirementUpdate>)
    ensures |FakeInstalled(reqUpdates).originals| == |reqUpdates|
    ensures |FakeInstalled(reqUpdates).updated| == |reqUpdates|
    ensures forall i :: 0 <= i < |reqUpdates| ==>
      FakeInstalled(reqUpdates).originals[i] ==
        DependencyFile(reqUpdates[i].file.path, reqUpdates[i].file.sha, OriginalContent)
    ensures forall i :: 0 <= i < |reqUpdates| ==>
      FakeInstalled(reqUpdates).updated[i] ==
        DependencyFile(reqUpdates[i].file.path, reqUpdates[i].file.sha, NewContent)
    decreases |reqUpdates|
  {
    if reqUpdates != [] {
      var init := reqUpdates[..|reqUpdates| - 1];
      FakeInstalledEntries(init);
      forall i | 0 <= i < |init|
        ensures init[i] == reqUpdates[i]
      {
      }
    }
  }

  /** fakeUpdater appends exactly one pair, for the lockfile, whatever it is given. */
  lemma FakeUpdatedEntries(versionUpdates: seq<VersionUpdate>)
    ensures |FakeUpdated(versionUpdates).originals| == 1
    ensures |FakeUpdated(versionUpdates).updated| == 1
    ensures FakeUpdated(versionUpdates).originals[0] ==
      DependencyFile("Gemfile.lock", "09c2f8647e14e49e922b955c194102070597c2d1", Ascii("original content"))
    ensures FakeUpdated(versionUpdates).updated[0] ==
      DependencyFile("Gemfile.lock", "141162477fd3bf27aed3bbea4fe3d17c71d6c7be", Ascii("updated content"))
    ensures forall other: seq<VersionUpdate> :: FakeUpdated(other) == FakeUpdated(versionUpdates)
  {
  }

  /** fakeInstaller meets the installer obligation: whatever it is given, it appends paired snapshots. */
  lemma FakeInstallerPairs()
    ensures InstallerPairs(FakeInstallerFn)
  {
    forall reqUpdates: seq<RequirementUpdate>
      ensures Installs(FakeInstallerFn, reqUpdates).Paired()
    {
      FakeInstalledEntries(reqUpdates);
    }
  }

  /** fakeInstaller appends one pair per requirement update. */
  lemma FakeInstallerOnePairPerUpdate()
    ensures OnePairPerUpdate(FakeInstallerFn)
  {
    forall reqUpdates: seq<RequirementUpdate>
      ensures |Installs(FakeInstallerFn, reqUpdates).originals| == |reqUpdates|
      ensures |Installs(FakeInstallerFn, reqUpdates).updated| == |reqUpdates|
    {
      FakeInstalledEntries(reqUpdates);
    }
  }

  /** fakeUpdater meets the updater obligation: whatever it is given, it appends paired snapshots. */
  lemma FakeUpdaterPairs()
    ensures UpdaterPairs(FakeUpdaterFn)
  {
  }

  /** An installer call keeps paired accumulators paired, whatever they held before. */
  lemma InstallerKeepsPairing(files: FilePairs, fn: InstallerFn, reqUpdates: seq<RequirementUpdate>)
    requires files.Paired() && InstallerPairs(fn)
    ensures files.Then(Installs(fn, reqUpdates)).Paired()
  {
    ThenPaired(files, Installs(fn, reqUpdates));
  }

  /** An updater call keeps paired accumulators paired, whatever they held before. */
  lemma UpdaterKeepsPairing(files: FilePairs, fn: UpdaterFn, versionUpdates: seq<VersionUpdate>)
    requires files.Paired() && UpdaterPairs(fn)
    ensures files.Then(Updates(fn, versionUpdates)).Paired()
  {
    ThenPaired(files, Updates(fn, versionUpdates));
  }

  /**
   * fakeInstaller: for each requirement update, append its file with the
   * original content to `acc.originals`, then with the new content to
   * `acc.updated`. Earlier entries are kept; the error result is nil.
   */
  method FakeInstaller(reqUpdates: seq<RequirementUpdate>, acc: Accumulator) returns (err: Option<string>)
    modifies acc
    ensures acc.Files() == old(acc.Files()).Then(FakeInstalled(reqUpdates))
    ensures old(acc.Files()).Paired() ==> acc.Files().Paired()
    ensures err == None
  {
    ghost var start := acc.Files();
    for i := 0 to |reqUpdates|
      invariant acc.Files() == start.Then(FakeInstalled(reqUpdates[..i]))
    {
      var f := reqUpdates[i].file;
      f := f.(content := OriginalContent);
      acc.originals := acc.originals + [f];
      f := f.(content := NewContent);
      acc.updated := acc.updated + [f];
      assert reqUpdates[..i + 1][..i] == reqUpdates[..i];
    }
    assert reqUpdates[..|reqUpdates|] == reqUpdates;
    if start.Paired() {
      FakeInstallerPairs();
      InstallerKeepsPairing(start, FakeInstallerFn, reqUpdates);
    }
    err := None;
  }

  /**
   * fakeUpdater: append one lockfile snapshot to `acc.originals`, then the same
   * path with a new SHA and content to `acc.updated`. The error result is nil.
   */
  method FakeUpdater(versionUpdates: seq<VersionUpdate>, acc: Accumulator) returns (err: Option<string>)
    modifies acc
    ensures acc.Files() == old(acc.Files()).Then(FakeUpdated(versionUpdates))
    ensures old(acc.Files()).Paired() ==> acc.Files().Paired()
    ensures err == None
  {
    ghost var start := acc.Files();
    var f := DependencyFile(LockPath, LockOriginalSha, OriginalContent);
    acc.originals := acc.originals + [f];
    f := f.(content := UpdatedContent);
    f := f.(sha := LockUpdatedSha);
    acc.updated := acc.updated + [f];
    if start.Paired() {
      FakeUpdaterPairs();
      UpdaterKeepsPairing(start, FakeUpdaterFn, versionUpdates);
    }
    err := None;
  }

  /**
   * Calling a registered installer function. An ecosystem installer's
   * appended pairs go at the end of the two slices.
   */
  method RunInstaller(fn: InstallerFn, reqUpdates: seq<RequirementUpdate>, acc: Accumulator) returns (err: Option<string>)
    modifies acc
    ensures acc.Files() == old(acc.Files()).Then(Installs(fn, reqUpdates))
    ensures err == None
  {
    match fn
    case FakeInstallerFn =>
      err := FakeInstaller(reqUpdates, acc);
    case EcosystemInstaller(appended) =>
      var batch := appended(reqUpdates);
      acc.originals := acc.originals + batch.originals;
      acc.updated := acc.updated + batch.updated;
      err := None;
  }

  /**
   * Calling a registered updater function. An ecosystem updater's appended
   * pairs go at the end of the two slices.
   */
  method RunUpdater(fn: UpdaterFn, versionUpdates: seq<VersionUpdate>, acc: Accumulator) returns (err: Option<string>)
    modifies acc
    ensures acc.Files() == old(acc.Files()).Then(Updates(fn, versionUpdates))
    ensures err == None
  {
    match fn
    case FakeUpdaterFn =>
      err := FakeUpdater(versionUpdates, acc);
    case EcosystemUpdater(appended) =>
      var batch := appended(versionUpdates);
      acc.originals := acc.originals + batch.originals;
      acc.updated := acc.updated + batch.updated;
      err := None;
  }
}
