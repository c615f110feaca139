/**
 * TestApplyUpdateSet as a client of the engine: the fake installer and updater
 * are registered under "fakePackage" and an update set with one requirement
 * update (the Gemfile) and one version update (aGem 1.2.3 to 1.2.5) is applied.
 */
module Scenario {
  import opened Wrappers
  import opened Models
  import opened UpdateSets
  import opened Plugins
  import opened Registry
  import opened Engine

  const FakeEcosystem := "fakePackage"
  const GemfileSha := "dc6bdc865c85a4f5c6ef0f4ba8909d8652fd8cd0"
  const GemfilePatch := "--- Gemfile\n+++ Gemfile\n@@ -5 +5 @@\n-gem \"warden\", \"0.10.3\"\n+gem \"warden\", '~> 1.2.3'\n@@ -4 +4 @@\n-gem \"rails\", \"3.0.0.beta3\"\n+gem \"rails\", '~> 4.0.3'\n@@ -7 +7 @@\n-gem \"webrat\", \"0.7\"\n+gem \"webrat\", '~> 0.7.3'\n"

  /** The update set the test applies. The requirement update's file carries no content. */
  function TestUpdateSet(): (u: UpdateSet) {
    UpdateSet(
      1,
      map[FakeEcosystem := [RequirementUpdate(DependencyFile("Gemfile", GemfileSha, []), GemfilePatch)]],
      map[FakeEcosystem := [VersionUpdate(Package("aGem", "aGem", FakeEcosystem), "1.2.3", "1.2.5")]])
  }

  /** expOrgDepFiles of the test. */
  function ExpectedOriginals(): (files: seq<DependencyFile>) {
    [DependencyFile("Gemfile", "dc6bdc865c85a4f5c6ef0f4ba8909d8652fd8cd0", Ascii("original content")),
     DependencyFile("Gemfile.lock", "09c2f8647e14e49e922b955c194102070597c2d1", Ascii("original content"))]
  }

  /** expUptDepFiles of the test. */
  function ExpectedUpdated(): (files: seq<DependencyFile>) {
    [DependencyFile("Gemfile", "dc6bdc865c85a4f5c6ef0f4ba8909d8652fd8cd0", Ascii("New content")),
     DependencyFile("Gemfile.lock", "141162477fd3bf27aed3bbea4fe3d17c71d6c7be", Ascii("updated content"))]
  }

  /** A map with the single key `k` has exactly one iteration order. */
  lemma SingleKeyEnumeration(order: seq<string>, k: string)
    requires IsEnumeration(order, {k})
    ensures order == [k]
  {
  }

  /**
   * One ecosystem served by the fake plugins, with one requirement update and
   * any version updates: the result is the requirement update's pair followed
   * by the lockfile pair, whichever iteration order was taken.
   */
  lemma SingleEcosystemResult(installers: map<string, InstallerFn>, updaters: map<string, UpdaterFn>,
                              eco: string, ru: RequirementUpdate, versionUpdates: seq<VersionUpdate>,
                              reqOrder: seq<string>, verOrder: seq<string>)
    requires eco in installers && installers[eco] == FakeInstallerFn
    requires eco in updaters && updaters[eco] == FakeUpdaterFn
    requires IsEnumeration(reqOrder, {eco}) && IsEnumeration(verOrder, {eco})
    ensures InstallAll(installers, map[eco := [ru]], reqOrder).Then(UpdateAll(updaters, map[eco := versionUpdates], verOrder))
      == FilePairs([OriginalOf(ru), FakeUpdated(versionUpdates).originals[0]],
                   [UpdatedOf(ru), FakeUpdated(versionUpdates).updated[0]])
  {
    SingleKeyEnumeration(reqOrder, eco);
    SingleKeyEnumeration(verOrder, eco);
    InstallAllSingle(installers, map[eco := [ru]], eco);
    UpdateAllSingle(updaters, map[eco := versionUpdates], eco);
    FakeInstalledEntries([ru]);
  }

  /**
   * Whatever plugins were registered before, once the fakes are registered
   * under "fakePackage", applying the test's update set returns a nil error
   * and exactly the expected two-element collections: the Gemfile pair from
   * the installer first, then the Gemfile.lock pair from the updater.
   */
  method ApplyTestUpdateSet(builtinInstallers: map<string, InstallerFn>, builtinUpdaters: map<string, UpdaterFn>)
    returns (orgDepFiles: seq<DependencyFile>, uptDepFiles: seq<DependencyFile>, err: Option<string>)
    ensures err == None
    ensures orgDepFiles == ExpectedOriginals()
    ensures uptDepFiles == ExpectedUpdated()
  {
    var reg := new PluginRegistry(builtinInstallers, builtinUpdaters);
    reg.RegisterInstaller(FakeEcosystem, FakeInstallerFn);
    reg.RegisterUpdater(FakeEcosystem, FakeUpdaterFn);
    var updateSet := TestUpdateSet();
    ghost var reqOrder, verOrder;
    orgDepFiles, uptDepFiles, err, reqOrder, verOrder := ApplyUpdateSet(reg, updateSet);
    SingleEcosystemResult(reg.installers, reg.updaters, FakeEcosystem,
      updateSet.requirementUpdates[FakeEcosystem][0], updateSet.versionUpdates[FakeEcosystem], reqOrder, verOrder);
  }
}
