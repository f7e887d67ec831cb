/**
 * The batch half of `Checksum_Plugin_Command`, as a specification over
 * values: what one plugin or must-use plugin contributes (skip, errors or a
 * fatal abort), how `__invoke` folds those contributions in order, and the
 * summary it reports.
 */
module Batch {
  import opened Wrappers
  import opened PhpStrings
  import opened UnfilteredPlugin
  import opened Checksums

  /** An entry of `get_plugins()` or `get_mu_plugins()`: the plugin file and its `Version` header. */
  datatype InstalledPlugin = InstalledPlugin(file: string, version: string)

  /**
   * Everything the command reads from WordPress, the file system and
   * WordPress.org, fixed for one run.
   */
  datatype Site = Site(
    pluginDir: string,                                 // WP_PLUGIN_DIR
    muPluginDir: string,                               // WPMU_PLUGIN_DIR
    plugins: seq<InstalledPlugin>,                     // get_plugins(), in its order
    muPlugins: seq<InstalledPlugin>,                   // get_mu_plugins(), in its order
    directories: set<string>,                          // the absolute paths is_dir() accepts
    listings: map<string, seq<string>>,                // get_files($folder), by folder
    pluginChecksums: map<(string, string), Manifest>,  // get_plugin_checksums($name, $version); absent = false
    coreChecksums: Option<map<string, string>>,        // get_core_checksums(), en_US; None = false or an exception
    digests: Digests)                                  // hash_file() by absolute path

  /** The positional arguments and flags of `wp plugin verify-checksums` that the logic reads. */
  datatype Request = Request(args: seq<string>, all: bool, strict: bool, exclude: string, excludeMu: bool, versionArg: string)

  /** `explode(',', $exclude)`: with no `--exclude` this is `[""]`. */
  function ExcludeList(req: Request): seq<string> {
    Explode(req.exclude, ',')
  }

  /** The file names `get_plugins()` reports, in order. */
  function Files(plugins: seq<InstalledPlugin>): (r: seq<string>)
    ensures |r| == |plugins| && forall k | 0 <= k < |r| :: r[k] == plugins[k].file
  {
    seq(|plugins|, k requires 0 <= k < |plugins| => plugins[k].file)
  }

  /** `get_plugin_version($path)` on the inventory: the `Version` header, or `false` when the file is not installed. */
  function InstalledVersion(plugins: seq<InstalledPlugin>, path: string): (r: Option<string>)
    ensures r.None? <==> forall k | 0 <= k < |plugins| :: plugins[k].file != path
    ensures r.Some? ==> exists k | 0 <= k < |plugins| :: plugins[k].file == path && plugins[k].version == r.value
    decreases |plugins|
  {
    if plugins == [] then None
    else if plugins[0].file == path then Some(plugins[0].version)
    else
      var r := InstalledVersion(plugins[1..], path);
      assert forall k | 1 <= k < |plugins| :: plugins[k] == plugins[1..][k - 1];
      r
  }

  /**
   * `get_plugin_version_for_verification`: a non-empty `--version` wins, then
   * a non-empty `Version` header; otherwise `false`. `"0"` counts as empty.
   */
  function VersionForVerification(versionArg: string, header: string): (r: Option<string>)
    ensures r.Some? <==> !Empty(versionArg) || !Empty(header)
    ensures r.Some? ==> !Empty(r.value) && (r.value == versionArg || r.value == header)
    ensures !Empty(versionArg) ==> r == Some(versionArg)
  {
    if !Empty(versionArg) then Some(versionArg)
    else if !Empty(header) then Some(header)
    else None
  }

  /**
   * `get_plugin_slug_from_path`: the directory for a file in a
   * sub-directory, else the file name without its `.php`.
   */
  function PluginSlug(file: string): (r: string)
    ensures '/' !in file ==> '/' !in r
    ensures '/' in file ==> r == "." || r <= file
  {
    if '/' in file then Dirname(file) else Basename(file, ".php")
  }

  /** A plugin file one level down takes its directory's name. */
  lemma SlugOfNestedFile(d: string, g: string)
    requires d != "" && d[|d| - 1] != '/'
    requires g != "" && '/' !in g
    ensures PluginSlug(d + "/" + g) == d
  {
    assert (d + "/" + g)[|d|] == '/';
    DirnameOfJoin(d, g);
  }

  /** A root-level `name.php` takes the name `name`. */
  lemma SlugOfRootFile(n: string)
    requires n != "" && '/' !in n
    ensures PluginSlug(n + ".php") == n
  {
    var p := n + ".php";
    assert '/' !in p by {
      forall i | 0 <= i < |p| ensures p[i] != '/' {
        if i < |n| { assert p[i] == n[i]; }
      }
    }
    BasenameStripsSuffix(n, ".php");
  }

  /**
   * Installed files whose slug `UnfilteredPlugin::get` finds again: a file in
   * a sub-directory other than ".", or a root-level file that is not empty in
   * PHP's sense.
   */
  predicate Resolvable(file: string) {
    if '/' in file then Dirname(file) != "." else !Empty(file)
  }

  /** The slug of an installed, resolvable file resolves to a plugin again. */
  lemma SlugResolves(files: seq<string>, i: nat, pluginDir: string, dirs: set<string>)
    requires i < |files| && Resolvable(files[i])
    ensures Get(files, PluginSlug(files[i]), pluginDir, dirs).Some?
  {
    var f := files[i];
    var slug := PluginSlug(f);
    if '/' !in f {
      BasenameOfSlashFreeCases(f, ".php");
    }
    assert MatchesName(f, slug);
  }

  /**
   * Under `--all` every installed plugin with a resolvable file is looked up
   * and found: `get_many` returns one plugin per installed plugin, in order.
   */
  lemma AllNamesResolve(plugins: seq<InstalledPlugin>, pluginDir: string, dirs: set<string>)
    requires forall k | 0 <= k < |plugins| :: Resolvable(plugins[k].file)
    ensures |GetMany(Files(plugins), AllPluginNames(plugins), pluginDir, dirs)| == |plugins|
    ensures forall k | 0 <= k < |plugins| ::
      Get(Files(plugins), PluginSlug(plugins[k].file), pluginDir, dirs) ==
      Some(GetMany(Files(plugins), AllPluginNames(plugins), pluginDir, dirs)[k])
  {
    var files, names := Files(plugins), AllPluginNames(plugins);
    forall k | 0 <= k < |names| ensures Get(files, names[k], pluginDir, dirs).Some? {
      SlugResolves(files, k, pluginDir, dirs);
    }
    GetManyResolvesEach(files, names, pluginDir, dirs);
  }

  /** The file `UnfilteredPlugin::get` makes up for a bare directory maps back to the requested name. */
  lemma ConventionalFileSlug(name: string)
    requires name != "" && '/' !in name
    ensures PluginSlug(ConventionalFile(name)) == name
  {
    var g := name + ".php";
    assert '/' !in g by {
      forall i | 0 <= i < |g| ensures g[i] != '/' {
        if i < |name| { assert g[i] == name[i]; }
      }
    }
    assert ConventionalFile(name) == name + "/" + g;
    SlugOfNestedFile(name, g);
  }

  /** `get_all_plugin_names`: one name per installed plugin, in inventory order. */
  function AllPluginNames(plugins: seq<InstalledPlugin>): (r: seq<string>)
    ensures |r| == |plugins| && forall k | 0 <= k < |r| :: r[k] == PluginSlug(plugins[k].file)
  {
    seq(|plugins|, k requires 0 <= k < |plugins| => PluginSlug(plugins[k].file))
  }

  /** `trailingslashit`: trailing slashes and backslashes replaced by one slash. */
  function TrailingSlashIt(s: string): (r: string)
    ensures |r| >= 1 && r[|r| - 1] == '/'
    ensures r[..|r| - 1] <= s && forall i | |r| - 1 <= i < |s| :: s[i] in {'/', '\\'}
    ensures |r| == 1 || r[|r| - 2] !in {'/', '\\'}
  {
    TrimEnd(s, {'/', '\\'}) + "/"
  }

  /** `get_files($folder)`; a folder the listing does not know yields no files. */
  function Listing(site: Site, folder: string): seq<string> {
    if folder in site.listings then site.listings[folder] else []
  }

  /**
   * `get_plugin_files($path)`: the file alone when it sits directly in
   * `WP_PLUGIN_DIR`, else the listing of its folder.
   */
  function PluginFiles(site: Site, path: string): seq<string> {
    var folder := Dirname(AbsolutePath(site.pluginDir, path));
    if folder == site.pluginDir then [path] else Listing(site, TrailingSlashIt(folder))
  }

  /** A root-level plugin file is checked alone, without a directory walk. */
  lemma SingleFilePluginFiles(site: Site, path: string)
    requires site.pluginDir != "" && site.pluginDir[|site.pluginDir| - 1] != '/'
    requires path != "" && '/' !in path
    ensures PluginFiles(site, path) == [path]
  {
    DirnameOfJoin(site.pluginDir, path);
  }

  /** A plugin file in a sub-directory `d` is checked against the listing of `d`. */
  lemma NestedPluginFiles(site: Site, d: string, g: string)
    requires d != "" && d[|d| - 1] != '/'
    requires g != "" && '/' !in g
    ensures PluginFiles(site, d + "/" + g) == Listing(site, TrailingSlashIt(AbsolutePath(site.pluginDir, d)))
  {
    DirnameOfNestedPath(site.pluginDir, d, g);
  }

  /**
   * `get_mu_plugin_files($mu_file)`: a root-level must-use file is checked
   * alone; otherwise its folder under `WPMU_PLUGIN_DIR` is listed.
   */
  function MuPluginFiles(site: Site, muFile: string): (r: seq<string>)
    ensures '/' !in muFile ==> r == [muFile]
  {
    if '/' !in muFile then
      BasenameOfSlashFree(muFile);
      [Basename(muFile, "")]
    else Listing(site, TrailingSlashIt(AbsolutePath(site.muPluginDir, Dirname(muFile))))
  }

  /** Why a plugin was counted as skipped (each comes with its own warning). */
  datatype SkipReason = Excluded | NoVersion | NoChecksums | LoaderPlugin

  /** What one plugin contributes to the run. */
  datatype Step = Skipped(reason: SkipReason) | Checked(errors: seq<VerificationError>) | Fatal

  const HelloFile := "hello.php"
  const HelloCoreKey := "wp-content/plugins/hello.php"

  /**
   * `verify_hello_dolly_from_core`: Hello Dolly is checked against the core
   * checksums by MD5; missing core checksums abort the whole command.
   */
  function HelloStep(site: Site): (r: Step)
    ensures r.Fatal? <==> site.coreChecksums.None? || HelloCoreKey !in site.coreChecksums.value
    ensures !r.Skipped?
    ensures r.Checked? ==>
      var md5 := Lookup(site.digests.md5, AbsolutePath(site.pluginDir, "/") + HelloFile);
      r.errors == if md5 == Some(site.coreChecksums.value[HelloCoreKey]) then []
                  else [VerificationError("hello", HelloFile, ChecksumMismatch)]
  {
    match site.coreChecksums
    case None => Fatal
    case Some(cs) =>
      if HelloCoreKey !in cs then Fatal
      else if Lookup(site.digests.md5, AbsolutePath(site.pluginDir, "/") + HelloFile) == Some(cs[HelloCoreKey]) then Checked([])
      else Checked([VerificationError("hello", HelloFile, ChecksumMismatch)])
  }

  /** The version `__invoke` uses: `--version` unless empty, else the installed one. */
  function StandardVersion(site: Site, req: Request, p: PluginRef): (r: Option<string>)
    ensures !Empty(req.versionArg) ==> r == Some(req.versionArg)
    ensures r.None? <==> Empty(req.versionArg) && forall k | 0 <= k < |site.plugins| :: site.plugins[k].file != p.file
  {
    if Empty(req.versionArg) then InstalledVersion(site.plugins, p.file) else Some(req.versionArg)
  }

  /** The per-file scope `__invoke` checks a plugin's files in. */
  function StandardScope(site: Site, req: Request, p: PluginRef, manifest: Manifest): Scope {
    Scope(p.name, manifest, req.strict, Dirname(p.file) + "/", site.pluginDir)
  }

  /**
   * One pass of the plugin loop of `__invoke`: exclusion first (even for
   * Hello Dolly), then Hello Dolly, then a missing version or missing
   * checksums skip; otherwise every local file is checked.
   */
  function StandardStep(site: Site, req: Request, p: PluginRef): (r: Step)
    ensures p.name in ExcludeList(req) ==> r == Skipped(Excluded)
    ensures p.name !in ExcludeList(req) && p.name == "hello" ==> r == HelloStep(site)
    ensures r.Fatal? ==> p.name == "hello"
    ensures r.Checked? ==> forall e | e in r.errors :: e.pluginName == p.name
    ensures r.Skipped? ==> r.reason != LoaderPlugin
    ensures p.name !in ExcludeList(req) && p.name != "hello" ==>
      (r == Skipped(NoVersion) <==> StandardVersion(site, req, p).None?)
    ensures p.name !in ExcludeList(req) && p.name != "hello" && StandardVersion(site, req, p).Some? ==>
      var key := (p.name, StandardVersion(site, req, p).value);
      && (key !in site.pluginChecksums ==> r == Skipped(NoChecksums))
      && (key in site.pluginChecksums ==>
            r == Checked(FileErrors(StandardScope(site, req, p, site.pluginChecksums[key]), PluginFiles(site, p.file), site.digests)))
  {
    var version := StandardVersion(site, req, p);
    if p.name in ExcludeList(req) then Skipped(Excluded)
    else if p.name == "hello" then HelloStep(site)
    else if version.None? then Skipped(NoVersion)
    else if (p.name, version.value) !in site.pluginChecksums then Skipped(NoChecksums)
    else
      var manifest := site.pluginChecksums[(p.name, version.value)];
      Checked(FileErrors(StandardScope(site, req, p, manifest), PluginFiles(site, p.file), site.digests))
  }

  /** The per-file scope `verify_mu_plugin` checks a must-use plugin's files in. */
  function MuScope(site: Site, mu: InstalledPlugin, name: string, manifest: Manifest, strict: bool): Scope {
    var prefix := if '/' !in mu.file then "" else Dirname(mu.file) + "/";
    Scope(name, manifest, strict, prefix, site.muPluginDir)
  }

  /**
   * `verify_mu_plugin`: a missing version or missing checksums skip; a
   * root-level file whose checksums are missing is reported as a loader
   * plugin. It never aborts.
   */
  function MuVerify(site: Site, mu: InstalledPlugin, name: string, versionArg: string, strict: bool): (r: Step)
    ensures !r.Fatal?
    ensures r.Checked? ==> forall e | e in r.errors :: e.pluginName == name
    ensures r == Skipped(NoVersion) <==> VersionForVerification(versionArg, mu.version).None?
    ensures r == Skipped(LoaderPlugin) <==>
      '/' !in mu.file && VersionForVerification(versionArg, mu.version).Some? &&
      (name, VersionForVerification(versionArg, mu.version).value) !in site.pluginChecksums
    ensures r == Skipped(NoChecksums) <==>
      '/' in mu.file && VersionForVerification(versionArg, mu.version).Some? &&
      (name, VersionForVerification(versionArg, mu.version).value) !in site.pluginChecksums
    ensures VersionForVerification(versionArg, mu.version).Some? ==>
      var key := (name, VersionForVerification(versionArg, mu.version).value);
      key in site.pluginChecksums ==>
        r == Checked(FileErrors(MuScope(site, mu, name, site.pluginChecksums[key], strict), MuPluginFiles(site, mu.file), site.digests))
  {
    match VersionForVerification(versionArg, mu.version)
    case None => Skipped(NoVersion)
    case Some(v) =>
      if (name, v) !in site.pluginChecksums then Skipped(if '/' !in mu.file then LoaderPlugin else NoChecksums)
      else Checked(FileErrors(MuScope(site, mu, name, site.pluginChecksums[(name, v)], strict), MuPluginFiles(site, mu.file), site.digests))
  }

  /** One pass of the must-use loop of `__invoke`: the slug is checked against the exclusions first. */
  function MuStep(site: Site, req: Request, mu: InstalledPlugin): (r: Step)
    ensures PluginSlug(mu.file) in ExcludeList(req) ==> r == Skipped(Excluded)
    ensures PluginSlug(mu.file) !in ExcludeList(req) ==> r == MuVerify(site, mu, PluginSlug(mu.file), req.versionArg, req.strict)
    ensures !r.Fatal?
    ensures r.Checked? ==> forall e | e in r.errors :: e.pluginName == PluginSlug(mu.file)
  {
    var name := PluginSlug(mu.file);
    if name in ExcludeList(req) then Skipped(Excluded)
    else MuVerify(site, mu, name, req.versionArg, req.strict)
  }

  /** The loop state of `__invoke`: the errors so far and `$skips`, or aborted. */
  datatype Tally = Halted | Running(errors: seq<VerificationError>, skips: nat)

  function Then(t: Tally, s: Step): (r: Tally)
    ensures r.Halted? <==> t.Halted? || s.Fatal?
    ensures r.Running? ==> t.errors <= r.errors && t.skips <= r.skips <= t.skips + 1
  {
    match t
    case Halted => Halted
    case Running(errors, skips) =>
      match s
      case Fatal => Halted
      case Skipped(_) => Running(errors, skips + 1)
      case Checked(es) => Running(errors + es, skips)
  }

  /** The plugin loop of `__invoke` over `plugins`, in order. */
  function RunPlugins(site: Site, req: Request, plugins: seq<PluginRef>): Tally
    decreases |plugins|
  {
    if plugins == [] then Running([], 0)
    else Then(RunPlugins(site, req, plugins[..|plugins| - 1]), StandardStep(site, req, plugins[|plugins| - 1]))
  }

  /**
   * The plugin loop counts at most one skip per plugin, and every error it
   * collects names one of the plugins it visited.
   */
  lemma {:induction false} RunPluginsShape(site: Site, req: Request, plugins: seq<PluginRef>)
    ensures RunPlugins(site, req, plugins).Running? ==>
      && RunPlugins(site, req, plugins).skips <= |plugins|
      && forall e | e in RunPlugins(site, req, plugins).errors ::
           exists k | 0 <= k < |plugins| :: e.pluginName == plugins[k].name
    decreases |plugins|
  {
    if plugins != [] {
      var init := plugins[..|plugins| - 1];
      RunPluginsShape(site, req, init);
      assert forall k | 0 <= k < |init| :: init[k] == plugins[k];
    }
  }

  /** The plugin loop's state after one more plugin. */
  lemma RunPluginsNext(site: Site, req: Request, plugins: seq<PluginRef>, i: nat)
    requires i < |plugins|
    ensures RunPlugins(site, req, plugins[..i + 1]) == Then(RunPlugins(site, req, plugins[..i]), StandardStep(site, req, plugins[i]))
  {
    assert plugins[..i + 1][..i] == plugins[..i];
  }

  /** The must-use loop of `__invoke`, continuing from `start`. */
  function RunMu(site: Site, req: Request, start: Tally, mus: seq<InstalledPlugin>): Tally
    decreases |mus|
  {
    if mus == [] then start
    else Then(RunMu(site, req, start, mus[..|mus| - 1]), MuStep(site, req, mus[|mus| - 1]))
  }

  /**
   * The must-use loop continues from its start: it keeps the errors found
   * before it and adds at most one skip per must-use plugin.
   */
  lemma {:induction false} RunMuKeeps(site: Site, req: Request, start: Tally, mus: seq<InstalledPlugin>)
    ensures RunMu(site, req, start, mus).Running? ==>
      && start.Running?
      && start.errors <= RunMu(site, req, start, mus).errors
      && RunMu(site, req, start, mus).skips <= start.skips + |mus|
    decreases |mus|
  {
    if mus != [] {
      RunMuKeeps(site, req, start, mus[..|mus| - 1]);
    }
  }

  /** The must-use loop's state after one more must-use plugin. */
  lemma RunMuNext(site: Site, req: Request, start: Tally, mus: seq<InstalledPlugin>, j: nat)
    requires j < |mus|
    ensures RunMu(site, req, start, mus[..j + 1]) == Then(RunMu(site, req, start, mus[..j]), MuStep(site, req, mus[j]))
  {
    assert mus[..j + 1][..j] == mus[..j];
  }

  /** A skipped plugin adds one to `$skips` and no error. */
  lemma SkippedPluginCountsOnce(site: Site, req: Request, plugins: seq<PluginRef>, p: PluginRef)
    requires RunPlugins(site, req, plugins).Running?
    requires StandardStep(site, req, p).Skipped?
    ensures var t := RunPlugins(site, req, plugins);
      RunPlugins(site, req, plugins + [p]) == Running(t.errors, t.skips + 1)
  {
    assert (plugins + [p])[..|plugins|] == plugins;
  }

  /** A skipped must-use plugin adds one to `$skips` and no error. */
  lemma SkippedMuPluginCountsOnce(site: Site, req: Request, start: Tally, mus: seq<InstalledPlugin>, mu: InstalledPlugin)
    requires RunMu(site, req, start, mus).Running?
    requires MuStep(site, req, mu).Skipped?
    ensures var t := RunMu(site, req, start, mus);
      RunMu(site, req, start, mus + [mu]) == Running(t.errors, t.skips + 1)
  {
    assert (mus + [mu])[..|mus|] == mus;
  }

  /** The numbers handed to `report_batch_operation_results`. */
  datatype Summary = Summary(total: int, successes: int, failures: int, skips: int)

  /** What the command ends with: a fatal error, or the error list and the summary. */
  datatype Outcome = Aborted | Reported(errors: seq<VerificationError>, summary: Summary)

  /** The plugin names that occur in an error list. */
  function Names(errors: seq<VerificationError>): set<string> {
    set e | e in errors :: e.pluginName
  }

  /** `array_column($errors, 'plugin_name')`. */
  function Column(errors: seq<VerificationError>): (r: seq<string>)
    ensures |r| == |errors| && forall k | 0 <= k < |r| :: r[k] == errors[k].pluginName
  {
    seq(|errors|, k requires 0 <= k < |errors| => errors[k].pluginName)
  }

  /** The `plugin_name` column holds exactly the names of the plugins with an error. */
  lemma ColumnNames(errors: seq<VerificationError>)
    ensures (set x | x in Column(errors)) == Names(errors)
  {
    var r := Column(errors);
    forall x | x in Names(errors) ensures x in r {
      var e :| e in errors && e.pluginName == x;
      var k :| 0 <= k < |errors| && errors[k] == e;
      assert r[k] == x;
    }
  }

  predicate NoDuplicates(s: seq<string>) {
    forall i, j | 0 <= i < j < |s| :: s[i] != s[j]
  }

  /** `array_unique`: the first occurrence of each value, in order. */
  function Unique(s: seq<string>): (r: seq<string>)
    ensures forall x :: x in r <==> x in s
    ensures NoDuplicates(r)
    decreases |s|
  {
    if s == [] then []
    else
      var u := Unique(s[..|s| - 1]);
      var last := s[|s| - 1];
      assert forall x :: x in s <==> x in s[..|s| - 1] || x == last;
      if last in u then u else u + [last]
  }

  /** A sequence without duplicates has as many elements as its set. */
  lemma {:induction false} NoDuplicatesCard(s: seq<string>)
    requires NoDuplicates(s)
    ensures |set x | x in s| == |s|
    decreases |s|
  {
    if s != [] {
      var init, last := s[..|s| - 1], s[|s| - 1];
      NoDuplicatesCard(init);
      assert (set x | x in s) == (set x | x in init) + {last};
      assert last !in init;
    }
  }

  /** `count(array_unique(array_column($errors, 'plugin_name')))` counts the distinct plugin names. */
  lemma DistinctNames(errors: seq<VerificationError>)
    ensures |Unique(Column(errors))| == |Names(errors)|
  {
    var u := Unique(Column(errors));
    NoDuplicatesCard(u);
    assert (set x | x in u) == Names(errors) by {
      forall x | x in Names(errors) ensures x in u {
        var e :| e in errors && e.pluginName == x;
        var k :| 0 <= k < |errors| && errors[k] == e;
        assert Column(errors)[k] == x;
      }
    }
  }

  /**
   * The summary arithmetic: failures are the distinct plugin names with an
   * error, successes whatever is neither failed nor skipped.
   */
  function Summarize(total: int, errors: seq<VerificationError>, skips: int): (s: Summary)
    ensures s.total == total && s.skips == skips
    ensures s.failures == |Names(errors)|
    ensures s.total == s.successes + s.failures + s.skips
  {
    DistinctNames(errors);
    var failures := |Unique(Column(errors))|;
    Summary(total, total - failures - skips, failures, skips)
  }

  /**
   * `__invoke`: resolve the requested (or all) plugins, abort when nothing
   * was named without `--all`, run the plugin loop and then, unless
   * excluded, the must-use loop, and summarise.
   */
  function Run(site: Site, req: Request): Outcome {
    var names := RequestedNames(site, req);
    var plugins := GetMany(Files(site.plugins), names, site.pluginDir, site.directories);
    if plugins == [] && !req.all then Aborted
    else
      var mus := MuPlugins(site, req);
      match RunMu(site, req, RunPlugins(site, req, plugins), mus)
      case Halted => Aborted
      case Running(errors, skips) => Reported(errors, Summarize(|plugins| + |mus|, errors, skips))
  }

  /** The names `__invoke` resolves: every installed plugin's slug under `--all`, else the arguments. */
  function RequestedNames(site: Site, req: Request): seq<string> {
    if req.all then AllPluginNames(site.plugins) else req.args
  }

  /** The must-use plugins `__invoke` visits: none under `--exclude-mu`. */
  function MuPlugins(site: Site, req: Request): seq<InstalledPlugin> {
    if req.excludeMu then [] else site.muPlugins
  }

  /** How `Run` ends once the plugins are resolved and both loops have run to completion. */
  lemma RunReports(site: Site, req: Request, plugins: seq<PluginRef>, errors: seq<VerificationError>, skips: nat)
    requires plugins == GetMany(Files(site.plugins), RequestedNames(site, req), site.pluginDir, site.directories)
    requires plugins != [] || req.all
    requires RunMu(site, req, RunPlugins(site, req, plugins), MuPlugins(site, req)) == Running(errors, skips)
    ensures Run(site, req) == Reported(errors, Summarize(|plugins| + |MuPlugins(site, req)|, errors, skips))
  {
  }

  /** `Run` aborts when nothing was named without `--all`, or when the plugin loop aborts. */
  lemma RunAborts(site: Site, req: Request, plugins: seq<PluginRef>)
    requires plugins == GetMany(Files(site.plugins), RequestedNames(site, req), site.pluginDir, site.directories)
    requires (plugins == [] && !req.all) || RunPlugins(site, req, plugins).Halted?
    ensures Run(site, req) == Aborted
  {
    MuHaltedSticks(site, req, MuPlugins(site, req));
  }

  /** Once aborted, the plugin loop stays aborted. */
  lemma {:induction false} PluginsHaltedSticks(site: Site, req: Request, plugins: seq<PluginRef>, i: nat)
    requires i <= |plugins| && RunPlugins(site, req, plugins[..i]) == Halted
    ensures RunPlugins(site, req, plugins) == Halted
    decreases |plugins| - i
  {
    if i < |plugins| {
      assert plugins[..i + 1][..i] == plugins[..i];
      PluginsHaltedSticks(site, req, plugins, i + 1);
    } else {
      assert plugins[..i] == plugins;
    }
  }

  /** An aborted run stays aborted through the must-use loop. */
  lemma {:induction false} MuHaltedSticks(site: Site, req: Request, mus: seq<InstalledPlugin>)
    ensures RunMu(site, req, Halted, mus) == Halted
    decreases |mus|
  {
    if mus != [] {
      MuHaltedSticks(site, req, mus[..|mus| - 1]);
    }
  }

  /** No more distinct failing names plus skips than plugins processed. */
  predicate Bounded(t: Tally, n: int) {
    t.Running? ==> |Names(t.errors)| + t.skips <= n
  }

  lemma ThenBounded(t: Tally, s: Step, name: string, n: int)
    requires Bounded(t, n)
    requires s.Checked? ==> forall e | e in s.errors :: e.pluginName == name
    ensures Bounded(Then(t, s), n + 1)
  {
    if t.Running? && s.Checked? {
      var before, after := Names(t.errors), Names(t.errors + s.errors);
      assert after <= before + {name};
      assert |before + {name}| <= |before| + 1;
      SubsetCard(after, before + {name});
    }
  }

  lemma SubsetCard<T>(a: set<T>, b: set<T>)
    requires a <= b
    ensures |a| <= |b|
  {
    assert b == a + (b - a);
  }

  lemma {:induction false} RunPluginsBounded(site: Site, req: Request, plugins: seq<PluginRef>)
    ensures Bounded(RunPlugins(site, req, plugins), |plugins|)
    decreases |plugins|
  {
    if plugins != [] {
      var last := plugins[|plugins| - 1];
      RunPluginsBounded(site, req, plugins[..|plugins| - 1]);
      ThenBounded(RunPlugins(site, req, plugins[..|plugins| - 1]), StandardStep(site, req, last), last.name, |plugins| - 1);
    }
  }

  lemma {:induction false} RunMuBounded(site: Site, req: Request, start: Tally, mus: seq<InstalledPlugin>, n: int)
    requires Bounded(start, n)
    ensures Bounded(RunMu(site, req, start, mus), n + |mus|)
    decreases |mus|
  {
    if mus != [] {
      var last := mus[|mus| - 1];
      RunMuBounded(site, req, start, mus[..|mus| - 1], n);
      ThenBounded(RunMu(site, req, start, mus[..|mus| - 1]), MuStep(site, req, last), PluginSlug(last.file), n + |mus| - 1);
    }
  }

  /**
   * The reported summary balances: total = successes + failures + skips,
   * failures count the distinct plugin names with an error, and successes
   * never go negative.
   */
  lemma RunSummaryBalances(site: Site, req: Request)
    requires Run(site, req).Reported?
    ensures var s := Run(site, req).summary;
      && s.total == s.successes + s.failures + s.skips
      && s.failures == |Names(Run(site, req).errors)|
      && s.successes >= 0
  {
    var names := RequestedNames(site, req);
    var plugins := GetMany(Files(site.plugins), names, site.pluginDir, site.directories);
    var mus := MuPlugins(site, req);
    RunPluginsBounded(site, req, plugins);
    RunMuBounded(site, req, RunPlugins(site, req, plugins), mus, |plugins|);
  }

  /** The errors so far name no plugin called `n`. */
  predicate Avoids(t: Tally, n: string) {
    t.Running? ==> forall e | e in t.errors :: e.pluginName != n
  }

  lemma {:induction false} RunPluginsAvoids(site: Site, req: Request, plugins: seq<PluginRef>, n: string)
    requires n in ExcludeList(req)
    ensures Avoids(RunPlugins(site, req, plugins), n)
    decreases |plugins|
  {
    if plugins != [] {
      RunPluginsAvoids(site, req, plugins[..|plugins| - 1], n);
    }
  }

  lemma {:induction false} RunMuAvoids(site: Site, req: Request, start: Tally, mus: seq<InstalledPlugin>, n: string)
    requires n in ExcludeList(req) && Avoids(start, n)
    ensures Avoids(RunMu(site, req, start, mus), n)
    decreases |mus|
  {
    if mus != [] {
      RunMuAvoids(site, req, start, mus[..|mus| - 1], n);
    }
  }

  /** An excluded name never appears in the reported errors. */
  lemma ExcludedNeverReported(site: Site, req: Request, n: string)
    requires n in ExcludeList(req)
    requires Run(site, req).Reported?
    ensures forall e | e in Run(site, req).errors :: e.pluginName != n
  {
    var names := RequestedNames(site, req);
    var plugins := GetMany(Files(site.plugins), names, site.pluginDir, site.directories);
    var mus := MuPlugins(site, req);
    RunPluginsAvoids(site, req, plugins, n);
    RunMuAvoids(site, req, RunPlugins(site, req, plugins), mus, n);
  }

  /** `--all` over an empty installation (must-use plugins excluded or absent) reports all zeros. */
  lemma EmptyInstallation(site: Site, req: Request)
    requires req.all && site.plugins == [] && (req.excludeMu || site.muPlugins == [])
    ensures Run(site, req) == Reported([], Summary(0, 0, 0, 0))
  {
    assert AllPluginNames(site.plugins) == [];
  }
}
