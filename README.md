# Update application in the toolbelt auto-update client

This project models the update-application part of the `autoupdate` package of
the toolbelt dependency-update client, as the package's own test file fixes it:

- **Dependency files** (`Models`): a `DependencyFile` is a snapshot with a path,
  a SHA checksum and its content bytes.
- **Update sets** (`UpdateSets`): requirement updates (a file plus an opaque
  patch) and version updates (a package with old and target versions), each
  grouped by ecosystem name. `FilePairs` holds the two parallel collections of
  "original" and "updated" snapshots. `Paired()` is their invariant: equal
  lengths, and the same path at every index.
- **Plugins** (`Plugins`): `fakeInstaller` and `fakeUpdater`. They append
  snapshots to two caller-owned slices passed by pointer. Here the two slices
  are the two `seq` fields of an `Accumulator` object, and the plugin methods
  have `modifies acc`. Each method is proved against a specification
  function: `FakeInstalled` for the installer, `FakeUpdated` for the updater.
  Lemmas state what those functions append and that they keep the pairing.
  A registered value can also be an ecosystem's own installer or updater,
  whose code is outside the test package. It is known only by the function
  from its input list to the pairs it appends. Nothing forces such a plugin to
  pair its output. `InstallerPairs` and `UpdaterPairs` state that obligation,
  and the fakes are proved to meet it.
- **Registry** (`Registry`): the package-level `installers` and `updaters` maps.
  They are the two map fields of a `PluginRegistry` object, filled by map
  assignment.
- **Engine** (`Engine`): `applyUpdateSet`, whose body is not part of this model.
  The model assumes a body with two loops. The first hands every ecosystem's
  requirement updates to that ecosystem's registered installer. The second then
  hands every ecosystem's version updates to its registered updater. All calls
  append to one fresh accumulator, and the method returns the two slices and a
  nil error. This assumed body agrees with `TestApplyUpdateSet`, which has one
  ecosystem key in each map: there, one installer pair comes first and one
  updater pair after it. Go's map
  iteration order is unspecified. The model picks each next key
  nondeterministically and returns the order it took as ghost results. The
  result equals `InstallAll(...)` followed by `UpdateAll(...)` for those orders.
  It is paired whenever every plugin the update set reaches meets its pairing
  obligation.
- **Scenario** (`Scenario`): `TestApplyUpdateSet` as a verified client. The
  registry may start with any plugins under any keys, ecosystem plugins
  included. After the fakes are registered under `fakePackage`, applying the
  test's update set returns exactly the expected two-element collections:
  Gemfile first, then Gemfile.lock.

The body of `applyUpdateSet` is in `autoupdate/auto_update.go`, and that file is
not part of this model. `Engine.ApplyUpdateSet` therefore models an assumed body,
not one read from the source. It covers update sets with any number of
ecosystems: each key of each map is visited once, all installer output comes
before all updater output, one accumulator is shared, and the error is nil.
The test `TestApplyUpdateSet` in `autoupdate/auto_update_test.go` checks only
the case of one key in each map, and for that case the assumed body agrees
with it (`Scenario.ApplyTestUpdateSet`). `TestApplyUpdateSet` never uses an
unregistered ecosystem, so the model requires every key to be registered (see
"Left out").

Go's `[]byte("...")` of a string literal is UTF-8 encoding. All literals here
are ASCII, so `Models.Ascii` turns each character into one byte.

## Model

| member | source | states |
|---|---|---|
| UpdateSets.ThenPaired | autoupdate/auto_update_test.go:78-97 | appending paired entries to paired collections leaves them paired (equal lengths, same path at every index) |
| Plugins.FakeInstalledEntries | autoupdate/auto_update_test.go:78-88 | fakeInstaller appends exactly one original and one updated entry per requirement update, in input order; entry i carries update i's path and SHA, with content "original content" or "New content" |
| Plugins.FakeUpdatedEntries | autoupdate/auto_update_test.go:90-97 | fakeUpdater appends exactly one pair, Gemfile.lock with SHA 09c2f864… and "original content", then SHA 14116247… and "updated content", whatever the version updates are |
| Plugins.FakeInstallerPairs | autoupdate/auto_update_test.go:78-88 | fakeInstaller meets the installer obligation: whatever it is given, what it appends is paired |
| Plugins.FakeInstallerOnePairPerUpdate | autoupdate/auto_update_test.go:78-88 | fakeInstaller appends exactly one pair per requirement update, for every input list |
| Plugins.FakeUpdaterPairs | autoupdate/auto_update_test.go:90-97 | fakeUpdater meets the updater obligation: whatever it is given, what it appends is paired |
| Plugins.InstallerKeepsPairing | autoupdate/auto_update_test.go:78-88 | if the accumulators were paired before a call to an installer that meets the obligation, they are paired after it |
| Plugins.UpdaterKeepsPairing | autoupdate/auto_update_test.go:90-97 | if the accumulators were paired before a call to an updater that meets the obligation, they are paired after it |
| Plugins.FakeInstaller | autoupdate/auto_update_test.go:78-88 | the loop leaves the earlier entries of both slices unchanged, appends FakeInstalled(reqUpdates) at the end, keeps the pairing and returns a nil error |
| Plugins.FakeUpdater | autoupdate/auto_update_test.go:90-97 | the earlier entries are unchanged, the lockfile pair is appended at the end, the pairing is kept and the error is nil |
| Plugins.RunInstaller | autoupdate/auto_update_test.go:78 | calling a registered installer, the fake or an ecosystem's own, keeps the earlier entries, appends at the end what `Installs` says it appends, and returns nil |
| Plugins.RunUpdater | autoupdate/auto_update_test.go:90 | calling a registered updater, the fake or an ecosystem's own, keeps the earlier entries, appends at the end what `Updates` says it appends, and returns nil |
| Registry.Register | autoupdate/auto_update_test.go:101-102 | after `m[key] = v`, looking up key gives v; the keys are the old keys plus key; every other key keeps its old value |
| Registry.PluginRegistry.RegisterInstaller | autoupdate/auto_update_test.go:101 | `installers[ecosystem] = fn` updates the installers map as Register says and leaves the updaters map alone |
| Registry.PluginRegistry.RegisterUpdater | autoupdate/auto_update_test.go:102 | `updaters[ecosystem] = fn` updates the updaters map as Register says and leaves the installers map alone |
| Engine.InstallAllPaired | autoupdate/auto_update_test.go:78-88 | for every ecosystem order, if each visited installer meets the pairing obligation, the installers' combined output is paired |
| Engine.UpdateAllPaired | autoupdate/auto_update_test.go:90-97 | for every ecosystem order, if each visited updater meets the pairing obligation, the updaters' combined output is paired |
| Engine.InstallAllCount | autoupdate/auto_update_test.go:78-88 | if each visited installer appends one pair per requirement update, as fakeInstaller does, the installers contribute exactly as many pairs as there are requirement updates across the visited ecosystems |
| Engine.UpdateAllCount | autoupdate/auto_update_test.go:90-97 | if every visited ecosystem uses fakeUpdater, the updaters contribute exactly one pair per visited ecosystem, however many version updates each one has; this is a fact about fakeUpdater, not about updaters in general |
| Engine.InstallEach | autoupdate/auto_update_test.go:127 | every key with requirement updates is visited exactly once; the installers' pairs are appended after the earlier entries, in visiting order; the error is nil |
| Engine.UpdateEach | autoupdate/auto_update_test.go:127 | every key with version updates is visited exactly once; the updaters' pairs are appended after the earlier entries, in visiting order; the error is nil |
| Engine.ApplyUpdateSet | autoupdate/auto_update_test.go:127-145 | nil error; the result is all installer output, then all updater output, for an order that visits each key once; the two returned slices are paired when every plugin reached meets its pairing obligation |
| Scenario.SingleEcosystemResult | autoupdate/auto_update_test.go:104-126 | if one ecosystem is served by the fakes and has one requirement update, the result is that update's pair followed by the lockfile pair |
| Scenario.ApplyTestUpdateSet | autoupdate/auto_update_test.go:99-145 | whatever plugins were registered earlier, under whatever keys, registering the fakes under "fakePackage" and applying the test's update set gives a nil error, orgDepFiles equal to expOrgDepFiles and uptDepFiles equal to expUptDepFiles |

## Left out

- `fetchUpdateSet` and its test: an HTTP request and JSON decoding, which are library I/O.
- `restoreDepFiles` and its tests: filesystem writes, reads and removal. The failure on an empty path comes from the operating system.
- `config.go`: `NewConfig` wraps a YAML library and ignores its error. `LoadConfigFile` is file I/O. The two defaults alone are not worth a model.
- Console output from `fmt.Println`. It has no effect on the results.
- Patch text: patches are opaque strings, and nothing in the modelled code parses or applies them.
- Engine.ApplyUpdateSet: the loops over several ecosystems are an assumed body, not read from the source. They visit each key once, in an unspecified order, with all requirement updates before all version updates. The source's only evidence is `TestApplyUpdateSet`, which uses one key in each map.
- Engine.ApplyUpdateSet: requires every requirement and version ecosystem key to be registered. The "unknown ecosystem" error branch belongs to `applyUpdateSet` in `autoupdate/auto_update.go`, which is not part of this model, and `TestApplyUpdateSet` never reaches it.
- Engine.ApplyUpdateSet: does not model propagating a plugin error. Neither fake plugin returns an error, and an ecosystem's own plugin is modelled as never failing, so the error result is always nil.
- Ecosystem plugins: the real installers and updaters are not part of this model. An ecosystem's own plugin is modelled only by the pairs it appends, as a function of its input list. It cannot depend on what the slices already hold, and it cannot fail.
- Plugins.FakeInstaller: the two slice pointers are modelled as the two fields of one object. The model therefore does not cover passing the same slice for both pointers, or Go slices sharing a backing array.
- Models.Ascii: covers only ASCII text, where UTF-8 uses one byte per character. Multi-byte UTF-8 encoding is not modelled.
- Process-wide state: the `installers`/`updaters` package variables are fields of a `PluginRegistry` object that is passed explicitly.
