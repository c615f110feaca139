/**
 * The plugin registry: the package-level `installers` and `updaters` maps,
 * from ecosystem name to plugin function. Entries are added or overwritten by
 * map assignment; nothing is ever removed.
 */
module Registry {
  import opened Plugins

  /** `m` after the assignment `m[key] = v`. */
  function Register<V>(m: map<string, V>, key: string, v: V): (r: map<string, V>)
    ensures key in r && r[key] == v
    ensures r.Keys == m.Keys + {key}
    ensures forall k :: k in m && k != key ==> r[k] == m[k]
  {
    m[key := v]
  }

  class PluginRegistry {
    var installers: map<string, InstallerFn>
    var updaters: map<string, UpdaterFn>

    /** The registry as the built-in ecosystem plugins leave it at start-up. */
    constructor (builtinInstallers: map<string, InstallerFn>, builtinUpdaters: map<string, UpdaterFn>)
      ensures installers == builtinInstallers && updaters == builtinUpdaters
    {
      installers, updaters := builtinInstallers, builtinUpdaters;
    }

    /** `installers[ecosystem] = fn`. */
    method RegisterInstaller(ecosystem: string, fn: InstallerFn)
      modifies this
      ensures installers == Register(old(installers), ecosystem, fn)
      ensures updaters == old(updaters)
    {
      installers := Register(installers, ecosystem, fn);
    }

    /** `updaters[ecosystem] = fn`. */
    method RegisterUpdater(ecosystem: string, fn: UpdaterFn)
      modifies this
      ensures updaters == Register(old(updaters), ecosystem, fn)
      ensures installers == old(installers)
    {
      updaters := Register(updaters, ecosystem, fn);
    }
  }
}
