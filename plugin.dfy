/**
 * The plugin loader of the test harness (lib/plugin.js): where a plugin's
 * file is looked for, whether it is a package or a flat file, which
 * directories its configuration comes from, which text is evaluated, and the
 * member copy done by `inherits`.
 *
 * The file system is a value (`Paths.FileSystem`); evaluating plugin code in
 * the sandbox is an `Evaluator` supplied by the caller.
 */
module PluginLoader {
  import opened Wrappers
  import opened Js
  import opened Paths

  // ---------------------------------------------------------------------
  // Path resolution
  // ---------------------------------------------------------------------

  /** The directory ends in `node_modules/haraka-test-fixtures/lib`. */
  predicate EndsNested(dir: Path)
  {
    && |dir| >= 3
    && dir[|dir| - 3] == "node_modules"
    && dir[|dir| - 2] == "haraka-test-fixtures"
    && dir[|dir| - 1] == "lib"
  }

  /**
   * The directory the candidates are built from: a `__dirname` ending in
   * `node_modules/haraka-test-fixtures/lib` is resolved three levels up.
   */
  function Rebase(dir: Path): (r: Path)
    ensures EndsNested(dir) ==> r == dir[..|dir| - 3]
    ensures !EndsNested(dir) ==> r == dir
  {
    if Basename(dir) == "lib" && Basename(Dirname(dir)) == "haraka-test-fixtures"
       && Basename(Dirname(Dirname(dir))) == "node_modules"
    then Dirname(Dirname(Dirname(dir)))
    else dir
  }

  /** The four installation layouts the resolver tells apart. */
  datatype Layout =
    | FixtureLib   // the harness's own tests: `__dirname` is `.../lib`
    | PluginsDir   // `inherits` from Haraka's tests: `__dirname` is `.../plugins`
    | InTree       // a Haraka checkout: `__dirname` has a `plugins` sub-directory
    | Installed    // an npm-packaged plugin

  function LayoutOf(dir: Path, fs: FileSystem): Layout
  {
    if Basename(dir) == "lib" then FixtureLib
    else if Basename(dir) == "plugins" then PluginsDir
    else if fs.IsDir(dir + ["plugins"]) then InTree
    else Installed
  }

  /** `name` as a directory argument of `path.resolve`, which drops an empty segment. */
  function NameDir(name: string): Path
  {
    if name == "" then [] else [name]
  }

  /** The candidate paths for plugin `name`, in the order they are tried. */
  function Candidates(dir: Path, name: string, fs: FileSystem): seq<Path>
  {
    match LayoutOf(dir, fs)
    case FixtureLib =>
      [Dirname(dir) + [name + ".js"], Dirname(dir) + NameDir(name) + ["package.json"]]
    case PluginsDir =>
      [dir + [name + ".js"], dir + NameDir(name) + ["package.json"]]
    case InTree =>
      [dir + ["plugins", name + ".js"],
       dir + ["plugins"] + NameDir(name) + ["package.json"],
       dir + ["node_modules"] + NameDir(name) + ["package.json"]]
    case Installed =>
      [dir + ["node_modules"] + NameDir(name) + ["package.json"],
       dir + [name + ".js"],
       dir + ["package.json"]]
  }

  /** The index of the first candidate that exists, or `|paths|` when none does. */
  function FirstExistingIndex(paths: seq<Path>, fs: FileSystem): (k: nat)
    ensures k <= |paths|
    ensures forall j :: 0 <= j < k ==> !fs.Exists(paths[j])
    ensures k < |paths| ==> fs.Exists(paths[k])
  {
    if paths == [] then 0
    else if fs.Exists(paths[0]) then 0
    else 1 + FirstExistingIndex(paths[1..], fs)
  }

  /** The first candidate that exists; `None` is the `undefined` that `_get_plugin_path` returns. */
  function FirstExisting(paths: seq<Path>, fs: FileSystem): Option<Path>
  {
    var k := FirstExistingIndex(paths, fs);
    if k < |paths| then Some(paths[k]) else None
  }


  /**
   * Every layout offers two or three distinct candidates, each a `<name>.js`
   * file or a `package.json` manifest, and only the installed layout tries a
   * manifest first.
   */
  lemma CandidatesShape(dir: Path, name: string, fs: FileSystem)
    ensures var c := Candidates(dir, name, fs);
      && 2 <= |c| <= 3
      && (forall i :: 0 <= i < |c| ==> Basename(c[i]) == name + ".js" || Basename(c[i]) == "package.json")
      && (forall i, j :: 0 <= i < j < |c| ==> c[i] != c[j])
      && (LayoutOf(dir, fs) == Installed <==> Basename(c[0]) == "package.json")
  {
    var c := Candidates(dir, name, fs);
    JsIsNotManifest(name);
    match LayoutOf(dir, fs)
    case FixtureLib =>
      assert Basename(c[0]) != Basename(c[1]);
    case PluginsDir =>
      assert Basename(c[0]) != Basename(c[1]);
    case InTree =>
      assert Basename(c[0]) != Basename(c[1]) && Basename(c[0]) != Basename(c[2]);
      assert c[1][|dir|] != c[2][|dir|];
    case Installed =>
      assert Basename(c[0]) != Basename(c[1]) && |c[0]| != |c[2]|;
      assert Basename(c[1]) != Basename(c[2]);
  }

  /** An empty name leaves no directory segment: in the `lib` layout the repository's own manifest is a candidate. */
  lemma EmptyNameCandidates(dir: Path, fs: FileSystem)
    requires LayoutOf(dir, fs) == FixtureLib
    ensures Candidates(dir, "", fs) == [Dirname(dir) + [".js"], Dirname(dir) + ["package.json"]]
  {
    assert Dirname(dir) + NameDir("") == Dirname(dir);
    assert "" + ".js" == ".js";
  }

  /**
   * `new Plugin('')` in the `lib` layout, with no `<repo>/.js`, resolves to
   * the repository's own `package.json` and is classified as a package.
   */
  lemma EmptyNameFindsManifest(dir: Path, fs: FileSystem)
    requires LayoutOf(dir, fs) == FixtureLib
    requires !fs.Exists(Dirname(dir) + [".js"]) && fs.IsFile(Dirname(dir) + ["package.json"])
    ensures FirstExisting(Candidates(dir, "", fs), fs) == Some(Dirname(dir) + ["package.json"])
    ensures IsPackagePath(Dirname(dir) + ["package.json"], fs)
  {
    EmptyNameCandidates(dir, fs);
    assert FirstExistingIndex(Candidates(dir, "", fs), fs) == 1;
  }

  /** A flat-file candidate never looks like a manifest. */
  lemma JsIsNotManifest(name: string)
    ensures name + ".js" != "package.json"
  {
    var js := name + ".js";
    assert js[|js| - 1] == 's';
    assert "package.json"[11] == 'n';
  }

  /** The search returns the first existing candidate and nothing after it matters: changing what exists later cannot change the result. */
  lemma SearchStopsAtMatch(paths: seq<Path>, fs: FileSystem, fs': FileSystem)
    requires FirstExistingIndex(paths, fs) < |paths|
    requires forall j :: 0 <= j <= FirstExistingIndex(paths, fs) ==> (fs.Exists(paths[j]) <==> fs'.Exists(paths[j]))
    ensures FirstExistingIndex(paths, fs') == FirstExistingIndex(paths, fs)
    ensures FirstExisting(paths, fs') == FirstExisting(paths, fs) == Some(paths[FirstExistingIndex(paths, fs)])
  {
  }

  /** The search fails exactly when no candidate exists. */
  lemma SearchFailsOnlyWhenNothingExists(paths: seq<Path>, fs: FileSystem)
    ensures FirstExisting(paths, fs).None? <==> forall j :: 0 <= j < |paths| ==> !fs.Exists(paths[j])
    ensures FirstExisting(paths, fs).Some? ==> FirstExisting(paths, fs).value in paths && fs.Exists(FirstExisting(paths, fs).value)
  {
  }

  /** `_has_package_json`: the path ends in `/package.json`, or its directory holds a `package.json` file. */
  predicate IsPackagePath(p: Path, fs: FileSystem)
  {
    Basename(p) == "package.json" || fs.IsFile(Dirname(p) + ["package.json"])
  }

  /**
   * In the installed-package layout the host's own `package.json` is the last
   * candidate for every name: when it exists, resolution never fails, and
   * whatever is found is classified as a package, `<name>.js` included.
   */
  lemma InstalledResolvesEveryName(dir: Path, name: string, fs: FileSystem)
    requires LayoutOf(dir, fs) == Installed && fs.IsFile(dir + ["package.json"])
    ensures FirstExisting(Candidates(dir, name, fs), fs).Some?
    ensures IsPackagePath(FirstExisting(Candidates(dir, name, fs), fs).value, fs)
  {
    var c := Candidates(dir, name, fs);
    assert fs.Exists(c[2]);
    assert Dirname(c[1]) == dir;
  }

  // ---------------------------------------------------------------------
  // Configuration and code
  // ---------------------------------------------------------------------

  /** The arguments given to `config.module_config`: a defaults directory and, for packages, an overrides directory. */
  datatype ConfigRequest = ModuleConfig(defaultsDir: Path, overridesDir: Option<Path>)

  /**
   * `_get_config`: a package plugin reads defaults from its own directory and
   * overrides from `$HARAKA`, or from the module directory when that is unset;
   * a flat-file plugin reads from the module directory only.
   */
  function ConfigDirs(hasPackageJson: bool, pluginPath: Option<Path>, dirname: Path, haraka: Option<Path>): (r: ConfigRequest)
    requires hasPackageJson ==> pluginPath.Some?
    ensures hasPackageJson ==> r.defaultsDir == if pluginPath.value == [] then [] else pluginPath.value[..|pluginPath.value| - 1]
    ensures hasPackageJson ==> r.overridesDir == Some(if haraka.Some? then haraka.value else dirname)
    ensures !hasPackageJson ==> r.defaultsDir == dirname && r.overridesDir.None?
  {
    if hasPackageJson then
      ModuleConfig(Dirname(pluginPath.value), Some(if haraka.Some? then haraka.value else dirname))
    else
      ModuleConfig(dirname, None)
  }

  /**
   * A package plugin's configuration defaults come from the directory that
   * holds a `package.json`: its own manifest's directory, or, for a
   * `<name>.js` beside a manifest, that manifest's (the host's) directory.
   */
  lemma PackageConfigHoldsManifest(p: Path, dirname: Path, haraka: Option<Path>, fs: FileSystem)
    requires fs.Exists(p) && IsPackagePath(p, fs) && p != []
    ensures fs.Exists(ConfigDirs(true, Some(p), dirname, haraka).defaultsDir + ["package.json"])
  {
    if Basename(p) == "package.json" {
      assert Dirname(p) + ["package.json"] == p;
    }
  }

  /** Why loading a plugin failed: the value `load_plugin` throws. */
  datatype Error =
    | CouldNotFindPath                         // 'could not find path to plugin'
    | ReadFailed(path: Path)                   // an `fs.readFileSync` error, passed on unwrapped
    | LoadingFailed(plugin: string, path: Path) // 'Loading plugin <name> failed: <error>'
    | EvaluationError(thrown: Value)           // whatever the plugin's own code threw

  /** The directive put in front of a flat-file plugin's text. */
  const UseStrict: string := "\"use strict\";"

  /** The entry file of a package plugin whose manifest is at `manifest`. */
  function EntryPath(manifest: Path): Path
  {
    Dirname(manifest) + ["index.js"]
  }

  /**
   * `_get_code`: the text evaluated for the plugin at `piPath`. A package's
   * manifest is read (a Buffer, whose `main` is always undefined) and its
   * `index.js` is returned; a flat file is returned behind `"use strict";`.
   */
  function GetCode(hasPackageJson: bool, piPath: Path, pluginName: string, fs: FileSystem): (r: Result<string, Error>)
    ensures !hasPackageJson ==> (r.Ok? <==> fs.IsFile(piPath))
    ensures !hasPackageJson && r.Ok? ==>
      |r.value| >= |UseStrict| && r.value[..|UseStrict|] == UseStrict && r.value[|UseStrict|..] == fs.files[piPath]
    ensures !hasPackageJson && r.Err? ==> r.error == LoadingFailed(pluginName, piPath)
    ensures hasPackageJson ==> (r.Ok? <==> fs.IsFile(piPath) && fs.IsFile(EntryPath(piPath)))
    ensures hasPackageJson && r.Ok? ==> r.value == fs.files[EntryPath(piPath)]
    ensures hasPackageJson && r.Err? ==>
      r.error == ReadFailed(if fs.IsFile(piPath) then EntryPath(piPath) else piPath)
  {
    if hasPackageJson then
      if !fs.IsFile(piPath) then Err(ReadFailed(piPath))
      else
        var entry := EntryPath(piPath);
        if !fs.IsFile(entry) then Err(ReadFailed(entry)) else Ok(fs.files[entry])
    else if fs.IsFile(piPath) then Ok(UseStrict + fs.files[piPath])
    else Err(LoadingFailed(pluginName, piPath))
  }

  /** A package's code does not depend on what its manifest says: `main` is never consulted. */
  lemma PackageCodeIgnoresManifest(piPath: Path, pluginName: string, fs: FileSystem, manifest: string)
    requires fs.IsFile(piPath) && piPath != EntryPath(piPath)
    ensures GetCode(true, piPath, pluginName, fs) ==
            GetCode(true, piPath, pluginName, FileSystem(fs.files[piPath := manifest], fs.dirs))
  {
  }

  // ---------------------------------------------------------------------
  // Sandbox evaluation
  // ---------------------------------------------------------------------

  /** The enumerable members a plugin instance carries. */
  type Members = map<string, Value>

  /** The sandbox bindings that depend on the instance: `__filename`, `__dirname` and `server`. */
  datatype Sandbox = Sandbox(filename: Path, dirname: Path, server: Value)

  /** What `vm.runInNewContext` leaves behind: the instance's members, and the value thrown, if any. */
  datatype Evaluation = Evaluation(members: Members, thrown: Option<Value>)

  /** Evaluation of plugin code against the instance's members (`exports` is the instance). */
  type Evaluator = (string, Sandbox, Members) -> Evaluation

  /** What one `load_plugin` call produces: the outcome and the members afterwards. */
  datatype Load = Load(outcome: Outcome<Error>, members: Members)

  /** The effect of `load_plugin` once the path `pp || this.plugin_path` has been chosen. */
  function LoadFrom(hasPackageJson: bool, path: Option<Path>, pluginName: string, server: Value,
                    members: Members, fs: FileSystem, eval: Evaluator): Load
  {
    match path
    case None => Load(Fail(CouldNotFindPath), members)
    case Some(p) =>
      match GetCode(hasPackageJson, p, pluginName, fs)
      case Err(e) => Load(Fail(e), members)
      case Ok(code) =>
        var ev := eval(code, Sandbox(p, Dirname(p), server), members);
        Load(if ev.thrown.Some? then Fail(EvaluationError(ev.thrown.value)) else Pass, ev.members)
  }

  // ---------------------------------------------------------------------
  // The inheritance merge
  // ---------------------------------------------------------------------

  /** The members of `target` after every member of `parent` is copied where `target`'s is falsy or absent. */
  function CopyMissing(target: Members, parent: Members): Members
  {
    map k | k in target.Keys + parent.Keys ::
      if k in parent && !(k in target && Truthy(target[k])) then parent[k] else target[k]
  }

  /** The `for (var method in parent_plugin)` loop of `inherits`, on a parent distinct from the target. */
  method CopyMembers(target: Members, parent: Members) returns (r: Members)
    ensures r == CopyMissing(target, parent)
  {
    r := target;
    var todo := parent.Keys;
    while todo != {}
      invariant todo <= parent.Keys
      invariant r.Keys == target.Keys + (parent.Keys - todo)
      invariant forall k :: k in r && k !in parent.Keys - todo ==> r[k] == target[k]
      invariant forall k :: k in parent.Keys - todo ==> r[k] == CopyMissing(target, parent)[k]
      decreases todo
    {
      var key :| key in todo;
      if !(key in r && Truthy(r[key])) {
        r := r[key := parent[key]];
      }
      todo := todo - {key};
    }
  }

  /** Copying lets every truthy member of the target stand, and gives every other member the parent's value. */
  lemma CopyMissingSpec(target: Members, parent: Members)
    ensures CopyMissing(target, parent).Keys == target.Keys + parent.Keys
    ensures forall k :: k in target && Truthy(target[k]) ==> CopyMissing(target, parent)[k] == target[k]
    ensures forall k :: k in parent && !(k in target && Truthy(target[k])) ==> CopyMissing(target, parent)[k] == parent[k]
    ensures forall k :: k in target && k !in parent ==> CopyMissing(target, parent)[k] == target[k]
  {
  }

  /** When the parent is the target itself, as it is in `inherits`, the copy changes nothing. */
  lemma CopyMissingSelf(m: Members)
    ensures CopyMissing(m, m) == m
  {
  }

  // ---------------------------------------------------------------------
  // The plugin instance
  // ---------------------------------------------------------------------

  /** Node's module-level `__dirname` of lib/plugin.js, which `_get_plugin_path` reassigns. */
  class ModuleScope {
    var dirname: Path

    constructor (dirname: Path)
      ensures this.dirname == dirname
    {
      this.dirname := dirname;
    }
  }

  /** The `server` every new instance starts with: `{ notes: {} }`. */
  const InitialServer: Value := Obj(map["notes" := EmptyObject])

  class Plugin {
    var name: string
    var base: map<string, Plugin>
    var pluginPath: Option<Path>
    var hasPackageJson: bool
    var config: ConfigRequest
    var lastErr: string
    var server: Value
    var members: Members
    const scope: ModuleScope

    /**
     * The body of `Plugin(name)` up to its final `load_plugin` call: the
     * fields are set and the plugin's path and configuration resolved.
     */
    constructor (name: string, scope: ModuleScope, fs: FileSystem, haraka: Option<Path>)
      modifies scope
      ensures this.scope == scope && this.name == name && base == map[] && members == map[]
      ensures scope.dirname == Rebase(old(scope.dirname))
      ensures pluginPath == FirstExisting(Candidates(scope.dirname, name, fs), fs)
      ensures hasPackageJson == (pluginPath.Some? && IsPackagePath(pluginPath.value, fs))
      ensures config == ConfigDirs(hasPackageJson, pluginPath, scope.dirname, haraka)
      ensures lastErr == "" && server == InitialServer
    {
      this.name := name;
      this.base := map[];
      this.scope := scope;
      this.members := map[];
      this.hasPackageJson := false;
      this.pluginPath := None;
      this.config := ModuleConfig([], None);
      this.lastErr := "";
      this.server := InitialServer;
      new;
      pluginPath := GetPluginPath(name, fs);
      config := ConfigDirs(hasPackageJson, pluginPath, scope.dirname, haraka);
      lastErr := "";
      server := InitialServer;
    }

    /** `_has_package_json`: sets the flag for a package path and never clears it. */
    method HasPackageJson(p: Path, fs: FileSystem)
      modifies this
      ensures hasPackageJson == (old(hasPackageJson) || IsPackagePath(p, fs))
      ensures name == old(name) && base == old(base) && pluginPath == old(pluginPath)
      ensures config == old(config) && lastErr == old(lastErr) && server == old(server) && members == old(members)
    {
      if Basename(p) == "package.json" {
        hasPackageJson := true;
        return;
      }
      var enclosingDir := Dirname(p);
      if fs.IsFile(enclosingDir + ["package.json"]) {
        hasPackageJson := true;
      }
    }

    /**
     * `_get_plugin_path`: rebases the module directory, tries the candidates
     * in order and returns the first that exists, setting `hasPackageJson`
     * afresh. An empty `name` stands for the instance's own.
     */
    method GetPluginPath(name: string, fs: FileSystem) returns (found: Option<Path>)
      modifies this, scope
      ensures scope.dirname == Rebase(old(scope.dirname))
      ensures found == FirstExisting(Candidates(scope.dirname, if name == "" then this.name else name, fs), fs)
      ensures hasPackageJson == (found.Some? && IsPackagePath(found.value, fs))
      ensures this.name == old(this.name) && base == old(base) && pluginPath == old(pluginPath)
      ensures config == old(config) && lastErr == old(lastErr) && server == old(server) && members == old(members)
    {
      hasPackageJson := false;
      var n := if name == "" then this.name else name;
      scope.dirname := Rebase(scope.dirname);
      var paths := Candidates(scope.dirname, n, fs);
      var i := 0;
      while i < |paths| && !fs.Exists(paths[i])
        invariant 0 <= i <= |paths|
        invariant forall j :: 0 <= j < i ==> !fs.Exists(paths[j])
      {
        i := i + 1;
      }
      if i == |paths| {
        return None;
      }
      HasPackageJson(paths[i], fs);
      return Some(paths[i]);
    }

    /**
     * `load_plugin`: names an unnamed instance, takes `pp` or else the stored
     * path, throws when there is none, and evaluates the plugin's code onto
     * the instance. `Pass` is the normal return of `this`.
     */
    method LoadPlugin(name: string, pp: Option<Path>, fs: FileSystem, eval: Evaluator) returns (r: Outcome<Error>)
      modifies this
      ensures this.name == (if old(this.name) == "" then name else old(this.name))
      ensures Load(r, members) ==
        LoadFrom(hasPackageJson, if pp.Some? then pp else pluginPath, this.name, server, old(members), fs, eval)
      ensures pp.None? && pluginPath.None? ==> r == Fail(CouldNotFindPath)
      ensures base == old(base) && pluginPath == old(pluginPath) && hasPackageJson == old(hasPackageJson)
      ensures config == old(config) && lastErr == old(lastErr) && server == old(server)
    {
      if this.name == "" {
        this.name := name;
      }
      var path := pp;
      if path.None? {
        path := pluginPath;
      }
      if path.None? {
        return Fail(CouldNotFindPath);
      }
      var code := GetCode(hasPackageJson, path.value, this.name, fs);
      if code.Err? {
        return Fail(code.error);
      }
      var ev := eval(code.value, Sandbox(path.value, Dirname(path.value), server), members);
      members := ev.members;
      if ev.thrown.Some? {
        return Fail(EvaluationError(ev.thrown.value));
      }
      return Pass;
    }

    /**
     * `inherits`: resolves and loads `parentName` onto this very instance
     * (`load_plugin` returns `this`), copies the parent's members where this
     * instance's are falsy, and records the parent under `base[parentName]`.
     * When the parent is not found, `load_plugin` falls back to this
     * instance's own path.
     */
    method Inherits(parentName: string, fs: FileSystem, eval: Evaluator) returns (r: Outcome<Error>)
      modifies this, scope
      ensures scope.dirname == Rebase(old(scope.dirname))
      ensures var parentPath := FirstExisting(Candidates(scope.dirname, if parentName == "" then old(name) else parentName, fs), fs);
        && hasPackageJson == (parentPath.Some? && IsPackagePath(parentPath.value, fs))
        && name == (if old(name) == "" then parentName else old(name))
        && var loaded := LoadFrom(hasPackageJson, if parentPath.Some? then parentPath else old(pluginPath),
                                  name, old(server), old(members), fs, eval);
           && r == loaded.outcome
           && members == (if r.Pass? then CopyMissing(loaded.members, loaded.members) else loaded.members)
      ensures base == (if r.Pass? then old(base)[parentName := this] else old(base))
      ensures pluginPath == old(pluginPath) && config == old(config) && lastErr == old(lastErr) && server == old(server)
    {
      var parentPath := GetPluginPath(parentName, fs);
      r := LoadPlugin(parentName, parentPath, fs, eval);
      if r.Fail? {
        return;
      }
      // `parent_plugin` is `this`: every read of a parent member sees the live instance.
      var live := members;
      var todo := live.Keys;
      while todo != {}
        invariant todo <= live.Keys
        invariant live == members
        decreases todo
      {
        var key :| key in todo;
        if !Truthy(live[key]) {
          live := live[key := live[key]];
        }
        todo := todo - {key};
      }
      ghost var loaded := members;
      members := live;
      CopyMissingSelf(loaded);
      base := base[parentName := this];
    }
  }

  /**
   * `new Plugin(name)`: builds the instance and loads it. When `r` is a
   * `Fail`, the constructor throws `r.error` and `p` never reaches the caller.
   */
  method NewPlugin(name: string, scope: ModuleScope, fs: FileSystem, haraka: Option<Path>, eval: Evaluator)
    returns (p: Plugin, r: Outcome<Error>)
    modifies scope
    ensures fresh(p) && p.scope == scope && p.name == name && p.base == map[]
    ensures scope.dirname == Rebase(old(scope.dirname))
    ensures p.pluginPath == FirstExisting(Candidates(scope.dirname, name, fs), fs)
    ensures p.hasPackageJson == (p.pluginPath.Some? && IsPackagePath(p.pluginPath.value, fs))
    ensures p.config == ConfigDirs(p.hasPackageJson, p.pluginPath, scope.dirname, haraka)
    ensures Load(r, p.members) == LoadFrom(p.hasPackageJson, p.pluginPath, name, InitialServer, map[], fs, eval)
    ensures p.pluginPath.None? ==> r == Fail(CouldNotFindPath)
    ensures p.lastErr == "" && p.server == InitialServer
  {
    p := new Plugin(name, scope, fs, haraka);
    r := p.LoadPlugin(name, None, fs, eval);
  }
}
