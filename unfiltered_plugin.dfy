/**
 * `WP_CLI\Fetchers\UnfilteredPlugin`: resolves a plugin name given on the
 * command line to an installed plugin file, searching the inventory that
 * `get_plugins()` reports (in its order) without the `all_plugins` filter.
 */
module UnfilteredPlugin {
  import opened Wrappers
  import opened PhpStrings

  /** The object `get` returns: the name as requested and the plugin file it resolved to. */
  datatype PluginRef = PluginRef(name: string, file: string)

  /**
   * The three ways an inventory file answers to `name`: it is `name.php`; it
   * is `name` itself, when `name` is truthy; or its directory is `name`,
   * unless `name` is ".".
   */
  predicate MatchesName(file: string, name: string)
    ensures MatchesName(file, name) ==> name <= file
  {
    || file == name + ".php"
    || (!Empty(name) && file == name)
    || (Dirname(file) == name && name != ".")
  }

  /** `files[i]` is the first file in the inventory that answers to `name`. */
  predicate IsFirstMatch(files: seq<string>, name: string, i: int) {
    && 0 <= i < |files|
    && MatchesName(files[i], name)
    && forall j | 0 <= j < i :: !MatchesName(files[j], name)
  }

  /** The loop over `get_plugins()`: the index of the first match at or after `from`. */
  function FirstMatch(files: seq<string>, name: string, from: nat): (r: Option<nat>)
    requires from <= |files|
    requires forall j | 0 <= j < from :: !MatchesName(files[j], name)
    ensures r.Some? ==> IsFirstMatch(files, name, r.value)
    ensures r.None? ==> forall j | 0 <= j < |files| :: !MatchesName(files[j], name)
    decreases |files| - from
  {
    if from == |files| then None
    else if MatchesName(files[from], name) then Some(from)
    else FirstMatch(files, name, from + 1)
  }

  /** The file `get` makes up for a directory without an inventory entry. */
  function ConventionalFile(name: string): string {
    name + "/" + name + ".php"
  }

  /**
   * `UnfilteredPlugin::get($name)`: the first inventory file that answers to
   * `name`; failing that, `name/name.php` when the directory
   * `WP_PLUGIN_DIR/name` exists; otherwise `false` (here `None`).
   */
  function Get(files: seq<string>, name: string, pluginDir: string, dirs: set<string>): (r: Option<PluginRef>)
    ensures r.Some? ==> r.value.name == name
    ensures forall i | IsFirstMatch(files, name, i) :: r == Some(PluginRef(name, files[i]))
    ensures (forall j | 0 <= j < |files| :: !MatchesName(files[j], name)) ==>
      r == (if pluginDir + "/" + name in dirs then Some(PluginRef(name, ConventionalFile(name))) else None)
    ensures (exists j | 0 <= j < |files| :: MatchesName(files[j], name)) ==> r.Some?
  {
    match FirstMatch(files, name, 0)
    case Some(i) =>
      assert forall k | IsFirstMatch(files, name, k) :: k == i;
      Some(PluginRef(name, files[i]))
    case None =>
      if pluginDir + "/" + name in dirs then Some(PluginRef(name, ConventionalFile(name))) else None
  }

  /**
   * A root-level file (no slash) answers to `name` only as `name.php`, or as
   * `name` itself when `name` is truthy: never through its directory ".".
   */
  lemma RootFileMatches(file: string, name: string)
    requires file != "" && '/' !in file
    ensures MatchesName(file, name) <==> file == name + ".php" || (!Empty(name) && file == name)
  {
    DirnameOfSlashFree(file);
  }

  /**
   * A file `d/g` one level below the plugin directory answers to its
   * directory `d`, and otherwise only as `name.php` or as the truthy `name`.
   */
  lemma NestedFileMatches(d: string, g: string, name: string)
    requires d != "" && d != "." && d[|d| - 1] != '/'
    requires g != "" && '/' !in g
    ensures MatchesName(d + "/" + g, name) <==>
      name == d || d + "/" + g == name + ".php" || (!Empty(name) && d + "/" + g == name)
  {
    DirnameOfJoin(d, g);
  }

  /**
   * `Fetchers\Base::get_many`: `get` for each name in order, the names that
   * resolve to nothing dropped.
   */
  function GetMany(files: seq<string>, names: seq<string>, pluginDir: string, dirs: set<string>): (r: seq<PluginRef>)
    ensures |r| <= |names|
    ensures forall k | 0 <= k < |r| :: r[k].name in names
    decreases |names|
  {
    if names == [] then []
    else
      var rest := GetMany(files, names[1..], pluginDir, dirs);
      match Get(files, names[0], pluginDir, dirs)
      case Some(p) => [p] + rest
      case None => rest
  }

  /** When every name resolves, `get_many` returns one plugin per name, in order. */
  lemma {:induction false} GetManyResolvesEach(files: seq<string>, names: seq<string>, pluginDir: string, dirs: set<string>)
    requires forall k | 0 <= k < |names| :: Get(files, names[k], pluginDir, dirs).Some?
    ensures |GetMany(files, names, pluginDir, dirs)| == |names|
    ensures forall k | 0 <= k < |names| :: GetMany(files, names, pluginDir, dirs)[k] == Get(files, names[k], pluginDir, dirs).value
    decreases |names|
  {
    if names != [] {
      GetManyResolvesEach(files, names[1..], pluginDir, dirs);
      assert forall k | 1 <= k < |names| :: names[k] == names[1..][k - 1];
    }
  }

  /**
   * `get_many` maps `get` and drops the failures: a plugin is in the result
   * exactly when some requested name resolves to it, so every name that
   * resolves contributes its plugin whether or not other names fail.
   */
  lemma {:induction false} GetManyExactly(files: seq<string>, names: seq<string>, pluginDir: string, dirs: set<string>, p: PluginRef)
    ensures p in GetMany(files, names, pluginDir, dirs) <==>
      exists k | 0 <= k < |names| :: Get(files, names[k], pluginDir, dirs) == Some(p)
    decreases |names|
  {
    if names != [] {
      GetManyExactly(files, names[1..], pluginDir, dirs, p);
      assert forall k | 1 <= k < |names| :: names[k] == names[1..][k - 1];
      if exists k | 0 <= k < |names| :: Get(files, names[k], pluginDir, dirs) == Some(p) {
        var k :| 0 <= k < |names| && Get(files, names[k], pluginDir, dirs) == Some(p);
        if k > 0 {
          assert Get(files, names[1..][k - 1], pluginDir, dirs) == Some(p);
        }
      }
    }
  }
}
