# haraka-test-fixtures: plugin loader and mock connection

This project models the core of `haraka-test-fixtures`, the test harness used
to load Haraka mail-server plugins outside the server, in Dafny.

`lib/plugin.js` builds a plugin instance. The model covers these steps:

- The harness locates the plugin's file from its own module directory
  (`__dirname`). When the harness is installed as a dependency, that directory
  is first moved three levels up. One of four layouts (`lib`, `plugins`, a
  Haraka checkout with a `plugins` directory, an npm-installed plugin) then
  fixes the two or three candidate paths.
- The first candidate that exists is used.
- The plugin is classified as a package when that path ends in `/package.json`
  or its directory holds a `package.json`.
- The classification decides which directories `module_config` receives and
  which text is evaluated: the package's `index.js`, or the flat file behind
  `"use strict";`.
- `load_plugin` refuses a missing path and only names an unnamed instance.
- `inherits` loads a parent onto the instance and copies members where the
  instance's are falsy.

`lib/connection.js` is the mock connection. `createConnection` fills in
defaults, `respond` and `reset_transaction` are modelled, and
`reset_transaction` is a two-branch state machine.

The modules are:

- `Paths` (`paths.dfy`): paths as segment sequences, `basename` and `dirname`.
  It also holds the file system as a value: the existing directories, plus
  every existing file with its contents. `fileExists`, `dirExists` and "`statSync`
  succeeds" are predicates over it.
- `PluginLoader` (`plugin.dfy`):
  - pure functions for rebasing, layouts, candidates, the first-match search,
    package classification, configuration directories and code selection;
  - the inheritance merge over two member maps, with the loop that performs it;
  - the class `Plugin`, whose methods update the instance as `lib/plugin.js`
    does;
  - the class `ModuleScope`, which holds the module-level `__dirname` that
    `_get_plugin_path` reassigns. The rebasing therefore persists across calls
    and across instances.
- `MockConnection` (`connection.dfy`): the `Connection` and `Transaction`
  classes and `createConnection`.
- `Js` (`js.dfy`): JavaScript values and truthiness.
- `Wrappers` (`wrappers.dfy`): `Option`, `Result` and `Outcome`.

Several behaviours of the code are easy to misread; the model follows the code:

- A package plugin's code always comes from `index.js` in the manifest's
  directory. `_get_code` reads the manifest with `fs.readFileSync`, which
  returns a Buffer, and a Buffer has no `main` property. `js.main ||
  'index.js'` is therefore always `'index.js'`.
  `PackageCodeIgnoresManifest` states this.
- `inherits` does not load a separate parent object. `load_plugin` returns
  `this`, so the parent's code is evaluated onto the child itself. The copy
  loop then compares the instance with itself and changes nothing
  (`CopyMissingSelf`). Members the parent's code assigns overwrite the child's
  during evaluation. The value merge `CopyMissing` / `CopyMembers` states what
  the loop does for two distinct maps.
- `inherits` resolves the parent with `_get_plugin_path`, which resets
  `hasPackageJson` to the parent's classification.
- When no parent candidate exists, `inherits` does not fail with "could not
  find path to plugin". `load_plugin` falls back to the instance's own
  `plugin_path` and evaluates the instance's own file again, under the
  parent's (false) classification.
- Nothing guards against cycles, and the model adds no guard.

## Model

| member | source | states |
|---|---|---|
| `PluginLoader.Rebase` | lib/plugin.js:79-87 | a directory ending in `node_modules/haraka-test-fixtures/lib` becomes that directory with those three segments removed; any other directory is unchanged |
| `PluginLoader.CandidatesShape` | lib/plugin.js:89-122 | every layout gives 2 or 3 pairwise distinct candidates, each `<name>.js` or a `package.json`; only the installed layout tries a manifest first |
| `PluginLoader.EmptyNameFindsManifest` | lib/plugin.js:89-95 | with an empty name in the `lib` layout, `path.resolve` drops the empty segment, so when `<repo>/.js` is absent and `<repo>/package.json` exists, resolution returns that manifest and classifies the plugin as a package |
| `PluginLoader.FirstExistingIndex` | lib/plugin.js:125-134 | the index found is the first candidate that exists, and no earlier candidate exists; `|paths|` means none exists |
| `PluginLoader.SearchStopsAtMatch` | lib/plugin.js:125-134 | the search short-circuits: what exists after the first match cannot change the result, which is that match |
| `PluginLoader.SearchFailsOnlyWhenNothingExists` | lib/plugin.js:125-135 | the result is `undefined` exactly when no candidate exists; otherwise it is an existing candidate |
| `PluginLoader.InstalledResolvesEveryName` | lib/plugin.js:112-121 | in the installed layout with a host `package.json`, every name resolves, and what it resolves to is classified as a package (a `<name>.js` beside the manifest included) |
| `PluginLoader.ConfigDirs` | lib/plugin.js:137-149 | the two `module_config` argument choices: a package gets its path's directory plus `$HARAKA || __dirname` as overrides; a flat file gets `__dirname` alone (what that directory holds is `PackageConfigHoldsManifest`) |
| `PluginLoader.PackageConfigHoldsManifest` | lib/plugin.js:137-145 | for a resolved package plugin, the defaults directory passed to `module_config` holds a `package.json`: the plugin's own manifest directory, or the host's directory for a `<name>.js` beside the host manifest |
| `PluginLoader.GetCode` | lib/plugin.js:151-171 | flat file: the text is `"use strict";` followed by exactly the file, and a read failure is wrapped with the plugin name; package: the text is the manifest directory's `index.js`, and read failures pass through unwrapped |
| `PluginLoader.PackageCodeIgnoresManifest` | lib/plugin.js:154-163 | a package's code does not depend on its manifest's contents |
| `PluginLoader.CopyMembers` | lib/plugin.js:214-218 | the member loop over a parent's keys yields `CopyMissing(target, parent)` |
| `PluginLoader.CopyMissingSpec` | lib/plugin.js:214-218 | after the copy, truthy target members are unchanged, falsy or absent ones hold the parent's value, and members only the target has are kept |
| `PluginLoader.CopyMissingSelf` | lib/plugin.js:208-218 | when parent and target are the same map, as in `inherits`, the copy changes nothing |
| `PluginLoader.Plugin.constructor` | lib/plugin.js:17-31 | the new instance has its name, an empty `base`, the resolved path, the classification of that path, the configuration directories chosen from them, an empty `last_err` and the default `server` |
| `PluginLoader.Plugin.HasPackageJson` | lib/plugin.js:58-70 | sets `hasPackageJson` for a package path and never clears it |
| `PluginLoader.Plugin.GetPluginPath` | lib/plugin.js:72-135 | rebases `__dirname`, returns the first existing candidate for `name` (or the instance's name when `name` is empty), and sets `hasPackageJson` to the classification of that result, false when nothing is found |
| `PluginLoader.Plugin.LoadPlugin` | lib/plugin.js:173-209 | names only an unnamed instance; throws "could not find path to plugin" when neither `pp` nor `plugin_path` is set; otherwise the outcome and members are those of getting and evaluating the code |
| `PluginLoader.Plugin.Inherits` | lib/plugin.js:211-220 | re-resolves with the parent's name, loads the parent onto the instance itself (falling back to the instance's own path), applies the self-copy and records `base[parentName]` as the instance itself, only when loading did not throw |
| `PluginLoader.NewPlugin` | lib/plugin.js:17-38 | constructing a plugin whose name has no existing candidate throws "could not find path to plugin"; otherwise the outcome is that of loading from the resolved path |
| `MockConnection.Connection.constructor` | lib/connection.js:8-15 | stores exactly the given client and server, with `relaying` false, empty `notes` and no transaction |
| `MockConnection.CreateConnection` | lib/connection.js:17-26 | an `undefined` client or server becomes `{}`; every other value, `null` included, is kept |
| `MockConnection.Connection.Respond` | lib/connection.js:28 | returns whatever `func()` returns, whatever the code and message |
| `MockConnection.Connection.ResetTransaction` | lib/connection.js:30-38 | a transaction whose `resetting` is exactly `false` is kept with `resetting` true; in every other case the transaction becomes `null` and the dropped transaction object keeps its `resetting`; a truthy `done` is then called exactly once and sees the new state; nothing else changes |

## Left out

- Evaluating plugin code (`vm.runInNewContext`) is an `Evaluator` parameter. It returns the instance's new members and the value thrown, if any. Its only sandbox bindings are `__filename`, `__dirname` and `server`. The rest of the whitelist (`require`, timers, `process`, `Buffer`, `Math`, `console`) and the constants that `constants.import` adds are foreign code.
- Plugin code can write any property of the instance. The model lets it write only the member map, not `name`, `base` or the other fields.
- The instance's own fields and its prototype methods are also enumerated by `for…in`. The model's member map holds only the members plugin code assigns. Because the parent is the instance itself, the loop leaves those other properties alone too.
- `haraka-config`'s `module_config` is not part of this model. Only the directories passed to it are modelled, and the configuration object it returns is not.
- `logger.add_log_methods`, the `register_hook` stub, `constants.import(global)`, `ResultStore` and the empty `auth_results` stub are not part of this model.
- The file system is "exists or not" plus file contents. Other `fs.statSync` and `fs.readFileSync` failures (permissions, I/O errors) are not modelled. A read error is identified by its path, not by the text of Node's message.
- A plugin name is one path segment. Names containing `/`, or equal to `.` or `..`, are not normalised the way `path.resolve` would normalise them. An empty name is dropped from the directory candidates, as `path.resolve` drops it.
- An `undefined` plugin name makes `path.resolve` throw a `TypeError`. The model has no `undefined` name: a missing name is the empty string, which resolves as described above.
- `MockConnection.Connection.Respond`: `func` is a pure, total function. A `func` that throws (the exception propagates out of `respond`), that changes state, or that is not a function (a `TypeError`) is not modelled.
- `process.env.HARAKA` is an optional path. An empty `HARAKA`, which is falsy, is modelled as unset.
- JavaScript numbers are integers in the model. The truthiness of `NaN` and of fractions is not modelled.
- `PluginLoader.Plugin.HasPackageJson`: its return value (`undefined`, `true` or `false`) is not modelled because no caller reads it; only the flag it sets is.
- `MockConnection.Connection.ResetTransaction`: a truthy `done` that is not a function would throw a `TypeError`. The model records the call instead.
- Nothing detects cycles of `inherits` calls, and the model adds no guard either.
