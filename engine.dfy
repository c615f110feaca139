/**
 * The update-application engine, `applyUpdateSet`: it calls the registered
 * installer of every ecosystem that has requirement updates, then the
 * registered updater of every ecosystem that has version updates, all
 * appending to one pair of accumulators, and returns the two collections.
 */
module Engine {
  import opened Wrappers
  import opened Models
  import opened UpdateSets
  import opened Plugins
  import opened Registry

  /**
   * `order` lists every key of `keys` exactly once (an iteration order of a Go
   * map): it holds exactly those keys and is no longer than their number.
   */
  ghost predicate IsEnumeration(order: seq<string>, keys: set<string>) {
    |order| == |keys| && forall k :: k in order <==> k in keys
  }

  /** What the installers append when the ecosystems are visited in `order`. */
  function InstallAll(installers: map<string, InstallerFn>, reqUpdates: map<string, seq<RequirementUpdate>>,
                      order: seq<string>): (r: FilePairs)
    requires forall k :: k in order ==> k in installers && k in reqUpdates
    decreases |order|
  {
    if order == [] then NoFiles
    else
      var eco := order[|order| - 1];
      InstallAll(installers, reqUpdates, order[..|order| - 1]).Then(Installs(installers[eco], reqUpdates[eco]))
  }

  /** What the updaters append when the ecosystems are visited in `order`. */
  function UpdateAll(updaters: map<string, UpdaterFn>, versionUpdates: map<string, seq<VersionUpdate>>,
                     order: seq<string>): (r: FilePairs)
    requires forall k :: k in order ==> k in updaters && k in versionUpdates
    decreases |order|
  {
    if order == [] then NoFiles
    else
      var eco := order[|order| - 1];
      UpdateAll(updaters, versionUpdates, order[..|order| - 1]).Then(Updates(updaters[eco], versionUpdates[eco]))
  }

  /** The number of requirement updates of the ecosystems in `order`. */
  function RequirementCount(reqUpdates: map<string, seq<RequirementUpdate>>, order: seq<string>): (n: nat)
    requires forall k :: k in order ==> k in reqUpdates
    decreases |order|
  {
    if order == [] then 0
    else RequirementCount(reqUpdates, order[..|order| - 1]) + |reqUpdates[order[|order| - 1]]|
  }

  /**
   * If every visited ecosystem's installer meets the installer obligation, the
   * whole run of installers leaves the two collections paired.
   */
  lemma {:induction false} InstallAllPaired(installers: map<string, InstallerFn>,
                                            reqUpdates: map<string, seq<RequirementUpdate>>, order: seq<string>)
    requires forall k :: k in order ==> k in installers && k in reqUpdates
    requires forall k :: k in order ==> InstallerPairs(installers[k])
    ensures InstallAll(installers, reqUpdates, order).Paired()
    decreases |order|
  {
    if order != [] {
      var eco := order[|order| - 1];
      InstallAllPaired(installers, reqUpdates, order[..|order| - 1]);
      ThenPaired(InstallAll(installers, reqUpdates, order[..|order| - 1]), Installs(installers[eco], reqUpdates[eco]));
    }
  }

  /**
   * If every visited ecosystem's updater meets the updater obligation, the
   * whole run of updaters leaves the two collections paired.
   */
  lemma {:induction false} UpdateAllPaired(updaters: map<string, UpdaterFn>,
                                           versionUpdates: map<string, seq<VersionUpdate>>, order: seq<string>)
    requires forall k :: k in order ==> k in updaters && k in versionUpdates
    requires forall k :: k in order ==> UpdaterPairs(updaters[k])
    ensures UpdateAll(updaters, versionUpdates, order).Paired()
    decreases |order|
  {
    if order != [] {
      var eco := order[|order| - 1];
      UpdateAllPaired(updaters, versionUpdates, order[..|order| - 1]);
      ThenPaired(UpdateAll(updaters, versionUpdates, order[..|order| - 1]), Updates(updaters[eco], versionUpdates[eco]));
    }
  }

  /**
   * If every visited ecosystem's installer appends one pair per requirement
   * update, as fakeInstaller does, the installers contribute exactly as many
   * pairs as there are requirement updates.
   */
  lemma {:induction false} InstallAllCount(installers: map<string, InstallerFn>,
                                           reqUpdates: map<string, seq<RequirementUpdate>>, order: seq<string>)
    requires forall k :: k in order ==> k in installers && k in reqUpdates
    requires forall k :: k in order ==> OnePairPerUpdate(installers[k])
    ensures |InstallAll(installers, reqUpdates, order).originals| == RequirementCount(reqUpdates, order)
    ensures |InstallAll(installers, reqUpdates, order).updated| == RequirementCount(reqUpdates, order)
    decreases |order|
  {
    if order != [] {
      var eco := order[|order| - 1];
      InstallAllCount(installers, reqUpdates, order[..|order| - 1]);
    }
  }

  /**
   * If every visited ecosystem's updater is fakeUpdater, the updaters contribute
   * exactly one pair per ecosystem, however many version updates it has.
   */
  lemma {:induction false} UpdateAllCount(updaters: map<string, UpdaterFn>,
                                          versionUpdates: map<string, seq<VersionUpdate>>, order: seq<string>)
    requires forall k :: k in order ==> k in updaters && k in versionUpdates
    requires forall k :: k in order ==> updaters[k] == FakeUpdaterFn
    ensures |UpdateAll(updaters, versionUpdates, order).originals| == |order|
    ensures |UpdateAll(updaters, versionUpdates, order).updated| == |order|
    decreases |order|
  {
    if order != [] {
      UpdateAllCount(updaters, versionUpdates, order[..|order| - 1]);
    }
  }

  /** Visiting one more ecosystem appends its installer's pairs. */
  lemma InstallAllSnoc(installers: map<string, InstallerFn>, reqUpdates: map<string, seq<RequirementUpdate>>,
                       order: seq<string>, eco: string)
    requires forall k :: k in order ==> k in installers && k in reqUpdates
    requires eco in installers && eco in reqUpdates
    ensures InstallAll(installers, reqUpdates, order + [eco]) ==
      InstallAll(installers, reqUpdates, order).Then(Installs(installers[eco], reqUpdates[eco]))
  {
  }

  /** Visiting one more ecosystem appends its updater's pairs. */
  lemma UpdateAllSnoc(updaters: map<string, UpdaterFn>, versionUpdates: map<string, seq<VersionUpdate>>,
                      order: seq<string>, eco: string)
    requires forall k :: k in order ==> k in updaters && k in versionUpdates
    requires eco in updaters && eco in versionUpdates
    ensures UpdateAll(updaters, versionUpdates, order + [eco]) ==
      UpdateAll(updaters, versionUpdates, order).Then(Updates(updaters[eco], versionUpdates[eco]))
  {
  }

  /** With a single ecosystem, the installers' run is that ecosystem's installer call. */
  lemma InstallAllSingle(installers: map<string, InstallerFn>, reqUpdates: map<string, seq<RequirementUpdate>>,
                         eco: string)
    requires eco in installers && eco in reqUpdates
    ensures InstallAll(installers, reqUpdates, [eco]) == Installs(installers[eco], reqUpdates[eco])
  {
  }

  /** With a single ecosystem, the updaters' run is that ecosystem's updater call. */
  lemma UpdateAllSingle(updaters: map<string, UpdaterFn>, versionUpdates: map<string, seq<VersionUpdate>>,
                        eco: string)
    requires eco in updaters && eco in versionUpdates
    ensures UpdateAll(updaters, versionUpdates, [eco]) == Updates(updaters[eco], versionUpdates[eco])
  {
  }

  /**
   * Every plugin that `updateSet` reaches meets its obligation to append paired
   * snapshots.
   */
  ghost predicate ReachedPluginsPair(reg: PluginRegistry, updateSet: UpdateSet)
    reads reg
    requires updateSet.requirementUpdates.Keys <= reg.installers.Keys
    requires updateSet.versionUpdates.Keys <= reg.updaters.Keys
  {
    (forall k :: k in updateSet.requirementUpdates ==> InstallerPairs(reg.installers[k])) &&
    (forall k :: k in updateSet.versionUpdates ==> UpdaterPairs(reg.updaters[k]))
  }

  /**
   * The first loop of applyUpdateSet: each ecosystem's requirement updates are
   * handed to its registered installer, appending to `acc`.
   */
  method InstallEach(reg: PluginRegistry, reqUpdates: map<string, seq<RequirementUpdate>>, acc: Accumulator)
    returns (err: Option<string>, ghost order: seq<string>)
    requires reqUpdates.Keys <= reg.installers.Keys
    modifies acc
    ensures IsEnumeration(order, reqUpdates.Keys)
    ensures acc.Files() == old(acc.Files()).Then(InstallAll(reg.installers, reqUpdates, order))
    ensures err == None
  {
    ghost var start := acc.Files();
    err := None;
    var pending := reqUpdates.Keys;
    order := [];
    while pending != {}
      invariant forall k :: k in order ==> k in reqUpdates && k !in pending
      invariant forall k :: k in reqUpdates ==> k in order || k in pending
      invariant pending <= reqUpdates.Keys
      invariant |order| + |pending| == |reqUpdates.Keys|
      invariant acc.Files() == start.Then(InstallAll(reg.installers, reqUpdates, order))
      invariant err == None
      decreases pending
    {
      var eco :| eco in pending;
      err := RunInstaller(reg.installers[eco], reqUpdates[eco], acc);
      ghost var visited := order;
      order := order + [eco];
      InstallAllSnoc(reg.installers, reqUpdates, visited, eco);
      ThenAssociative(start, InstallAll(reg.installers, reqUpdates, visited), Installs(reg.installers[eco], reqUpdates[eco]));
      pending := pending - {eco};
    }
  }

  /**
   * The second loop of applyUpdateSet: each ecosystem's version updates are
   * handed to its registered updater, appending to `acc`.
   */
  method UpdateEach(reg: PluginRegistry, versionUpdates: map<string, seq<VersionUpdate>>, acc: Accumulator)
    returns (err: Option<string>, ghost order: seq<string>)
    requires versionUpdates.Keys <= reg.updaters.Keys
    modifies acc
    ensures IsEnumeration(order, versionUpdates.Keys)
    ensures acc.Files() == old(acc.Files()).Then(UpdateAll(reg.updaters, versionUpdates, order))
    ensures err == None
  {
    ghost var start := acc.Files();
    err := None;
    var pending := versionUpdates.Keys;
    order := [];
    while pending != {}
      invariant forall k :: k in order ==> k in versionUpdates && k !in pending
      invariant forall k :: k in versionUpdates ==> k in order || k in pending
      invariant pending <= versionUpdates.Keys
      invariant |order| + |pending| == |versionUpdates.Keys|
      invariant acc.Files() == start.Then(UpdateAll(reg.updaters, versionUpdates, order))
      invariant err == None
      decreases pending
    {
      var eco :| eco in pending;
      err := RunUpdater(reg.updaters[eco], versionUpdates[eco], acc);
      ghost var visited := order;
      order := order + [eco];
      UpdateAllSnoc(reg.updaters, versionUpdates, visited, eco);
      ThenAssociative(start, UpdateAll(reg.updaters, versionUpdates, visited), Updates(reg.updaters[eco], versionUpdates[eco]));
      pending := pending - {eco};
    }
  }

  /**
   * applyUpdateSet: the requirement updates of every ecosystem are handed to
   * its installer, then the version updates of every ecosystem to its updater,
   * all appending to one fresh pair of accumulators. Go visits map keys in an
   * unspecified order; the ghost results record the order taken. The error is
   * nil, and the result is paired when every plugin reached keeps the pairing.
   */
  method ApplyUpdateSet(reg: PluginRegistry, updateSet: UpdateSet)
    returns (orgDepFiles: seq<DependencyFile>, uptDepFiles: seq<DependencyFile>, err: Option<string>,
             ghost reqOrder: seq<string>, ghost verOrder: seq<string>)
    requires updateSet.requirementUpdates.Keys <= reg.installers.Keys
    requires updateSet.versionUpdates.Keys <= reg.updaters.Keys
    ensures err == None
    ensures IsEnumeration(reqOrder, updateSet.requirementUpdates.Keys)
    ensures IsEnumeration(verOrder, updateSet.versionUpdates.Keys)
    ensures FilePairs(orgDepFiles, uptDepFiles) ==
      InstallAll(reg.installers, updateSet.requirementUpdates, reqOrder)
        .Then(UpdateAll(reg.updaters, updateSet.versionUpdates, verOrder))
    ensures ReachedPluginsPair(reg, updateSet) ==> FilePairs(orgDepFiles, uptDepFiles).Paired()
  {
    var acc := new Accumulator();
    err, reqOrder := InstallEach(reg, updateSet.requirementUpdates, acc);
    ghost var installed := acc.Files();
    err, verOrder := UpdateEach(reg, updateSet.versionUpdates, acc);
    orgDepFiles, uptDepFiles := acc.originals, acc.updated;
    assert NoFiles.Then(InstallAll(reg.installers, updateSet.requirementUpdates, reqOrder)) ==
      InstallAll(reg.installers, updateSet.requirementUpdates, reqOrder);
    if ReachedPluginsPair(reg, updateSet) {
      InstallAllPaired(reg.installers, updateSet.requirementUpdates, reqOrder);
      UpdateAllPaired(reg.updaters, updateSet.versionUpdates, verOrder);
      ThenPaired(installed, UpdateAll(reg.updaters, updateSet.versionUpdates, verOrder));
    }
  }
}
