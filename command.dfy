/**
 * `Checksum_Plugin_Command` as the object it is: the `$errors` list that
 * `add_error` appends to and the lazily filled `$plugins_data` cache are
 * fields, and each loop of the command is proved to do what the functions
 * of `Batch` and `Checksums` specify.
 */
module PluginCommand {
  import opened Wrappers
  import opened PhpStrings
  import opened UnfilteredPlugin
  import opened Checksums
  import opened Batch

  class ChecksumPluginCommand {
    /** What WordPress, the file system and WordPress.org report during this run. */
    const site: Site
    /** `$plugins_data`: `get_plugins()`, fetched on first use. */
    var pluginsData: Option<seq<InstalledPlugin>>
    /** `$errors`: every error found so far, in the order found. */
    var errors: seq<VerificationError>

    /** The cache, once filled, holds the installed inventory. */
    ghost predicate Valid()
      reads this
    {
      pluginsData.Some? ==> pluginsData.value == site.plugins
    }

    constructor (site: Site)
      ensures Valid()
      ensures this.site == site && pluginsData == None && errors == []
    {
      this.site := site;
      pluginsData := None;
      errors := [];
    }

    /** `add_error`: appends one error and keeps the earlier ones. */
    method AddError(pluginName: string, file: string, message: string)
      modifies this`errors
      ensures errors == old(errors) + [VerificationError(pluginName, file, message)]
    {
      errors := errors + [VerificationError(pluginName, file, message)];
    }

    /** `get_plugin_version`: fills the cache on first use, then looks the file up in it. */
    method GetPluginVersion(path: string) returns (version: Option<string>)
      requires Valid()
      modifies this`pluginsData
      ensures Valid() && pluginsData == Some(site.plugins)
      ensures version == InstalledVersion(site.plugins, path)
    {
      if pluginsData.None? {
        pluginsData := Some(site.plugins);
      }
      version := InstalledVersion(pluginsData.value, path);
    }

    /**
     * One pass of the per-file loop: a file missing from the manifest is
     * reported as added, a soft-change file is passed over outside strict
     * mode, and any other file is reported unless its digest matches.
     */
    method VerifyFile(sc: Scope, file: string)
      modifies this`errors
      ensures errors == old(errors) + OptionToSeq(FileError(sc, file, site.digests))
    {
      if file !in sc.manifest {
        AddError(sc.pluginName, file, FileAdded);
      } else if !sc.strict && IsSoftChangeFile(file) {
        // A soft change outside strict mode is not checked.
      } else {
        var result := CheckFileChecksum(sc.pathPrefix + file, sc.manifest[file], sc.baseDir, site.digests);
        if result != Match {
          AddError(sc.pluginName, file, MessageFor(result));
        }
      }
    }

    /**
     * The per-file loop shared by `__invoke` and `verify_mu_plugin`: each
     * local file adds at most one error, in file-list order.
     */
    method VerifyFiles(sc: Scope, files: seq<string>)
      modifies this`errors
      ensures errors == old(errors) + FileErrors(sc, files, site.digests)
    {
      for i := 0 to |files|
        invariant errors == old(errors) + FileErrors(sc, files[..i], site.digests)
      {
        VerifyFile(sc, files[i]);
        FileErrorsNext(sc, files, i, site.digests);
      }
      assert files[..|files|] == files;
    }

    /** `verify_hello_dolly_from_core`; `fatal` stands for the `WP_CLI::error` that ends the command. */
    method VerifyHelloDollyFromCore() returns (fatal: bool)
      modifies this`errors
      ensures fatal <==> HelloStep(site).Fatal?
      ensures errors == old(errors) + (if fatal then [] else HelloStep(site).errors)
    {
      var checksums := site.coreChecksums;
      if checksums.None? || HelloCoreKey !in checksums.value {
        return true;
      }
      var md5File := Lookup(site.digests.md5, AbsolutePath(site.pluginDir, "/") + HelloFile);
      if md5File != Some(checksums.value[HelloCoreKey]) {
        AddError("hello", HelloFile, ChecksumMismatch);
      }
      return false;
    }

    /**
     * `verify_mu_plugin`, with the by-reference `$skips` passed in and
     * returned; `skipped` names the warning given when it skips.
     */
    method VerifyMuPlugin(mu: InstalledPlugin, pluginName: string, versionArg: string, strict: bool, skips: nat)
      returns (newSkips: nat, skipped: Option<SkipReason>)
      modifies this`errors
      ensures var step := MuVerify(site, mu, pluginName, versionArg, strict);
        && skipped == (if step.Skipped? then Some(step.reason) else None)
        && newSkips == (if step.Skipped? then skips + 1 else skips)
        && errors == old(errors) + (if step.Checked? then step.errors else [])
    {
      var isSingleFile := '/' !in mu.file;
      var version := VersionForVerification(versionArg, mu.version);
      if version.None? {
        return skips + 1, Some(NoVersion);
      }
      if (pluginName, version.value) !in site.pluginChecksums {
        return skips + 1, Some(if isSingleFile then LoaderPlugin else NoChecksums);
      }
      var checksums := site.pluginChecksums[(pluginName, version.value)];
      var files := MuPluginFiles(site, mu.file);
      VerifyFiles(MuScope(site, mu, pluginName, checksums, strict), files);
      return skips, None;
    }

    /**
     * One pass of the plugin loop of `__invoke`: exclusion, Hello Dolly,
     * version and checksum skips, then the plugin's files; the pass
     * ends the way `StandardStep` says.
     */
    method VerifyPlugin(req: Request, excludeList: seq<string>, plugin: PluginRef) returns (skipped: bool, fatal: bool)
      requires Valid() && excludeList == ExcludeList(req)
      modifies this
      ensures Valid()
      ensures var step := StandardStep(site, req, plugin);
        && (fatal <==> step.Fatal?)
        && (skipped <==> step.Skipped?)
        && errors == old(errors) + (if step.Checked? then step.errors else [])
    {
      ghost var step := StandardStep(site, req, plugin);
      var version: Option<string>;
      if Empty(req.versionArg) {
        version := GetPluginVersion(plugin.file);
      } else {
        version := Some(req.versionArg);
      }
      assert version == StandardVersion(site, req, plugin);
      if plugin.name in excludeList {
        assert step == Skipped(Excluded);
        return true, false;
      }
      if plugin.name == "hello" {
        assert step == HelloStep(site);
        fatal := VerifyHelloDollyFromCore();
        return false, fatal;
      }
      if version.None? {
        assert step == Skipped(NoVersion);
        return true, false;
      }
      if (plugin.name, version.value) !in site.pluginChecksums {
        assert step == Skipped(NoChecksums);
        return true, false;
      }
      var checksums := site.pluginChecksums[(plugin.name, version.value)];
      var files := PluginFiles(site, plugin.file);
      assert step == Checked(FileErrors(StandardScope(site, req, plugin, checksums), files, site.digests));
      VerifyFiles(StandardScope(site, req, plugin, checksums), files);
      return false, false;
    }

    /** The plugin loop of `__invoke` (`foreach ( $plugins as $plugin )`), in order. */
    method VerifyPlugins(req: Request, plugins: seq<PluginRef>) returns (skips: nat, fatal: bool)
      requires Valid() && errors == []
      modifies this
      ensures Valid()
      ensures fatal <==> RunPlugins(site, req, plugins).Halted?
      ensures !fatal ==> RunPlugins(site, req, plugins) == Running(errors, skips)
    {
      var excludeList := Explode(req.exclude, ',');
      skips := 0;
      for i := 0 to |plugins|
        invariant Valid()
        invariant RunPlugins(site, req, plugins[..i]) == Running(errors, skips)
      {
        RunPluginsNext(site, req, plugins, i);
        var skipped;
        skipped, fatal := VerifyPlugin(req, excludeList, plugins[i]);
        if fatal {
          PluginsHaltedSticks(site, req, plugins, i + 1);
          return;
        }
        if skipped {
          skips := skips + 1;
        }
      }
      assert plugins[..|plugins|] == plugins;
      fatal := false;
    }

    /** One pass of the must-use loop of `__invoke`: the exclusion test, then `verify_mu_plugin`. */
    method VerifyMuStep(req: Request, excludeList: seq<string>, mu: InstalledPlugin, skips: nat) returns (newSkips: nat)
      requires excludeList == ExcludeList(req)
      modifies this`errors
      ensures Then(Running(old(errors), skips), MuStep(site, req, mu)) == Running(errors, newSkips)
    {
      var pluginName := PluginSlug(mu.file);
      if pluginName in excludeList {
        newSkips := skips + 1;
      } else {
        var skipped;
        newSkips, skipped := VerifyMuPlugin(mu, pluginName, req.versionArg, req.strict, skips);
      }
    }

    /**
     * The must-use loop of `__invoke` (`foreach ( get_mu_plugins() ... )`),
     * continuing from the plugin loop's `start`.
     */
    method VerifyMuPlugins(req: Request, ghost start: Tally, skips0: nat) returns (skips: nat)
      requires start == Running(errors, skips0)
      modifies this`errors
      ensures RunMu(site, req, start, site.muPlugins) == Running(errors, skips)
    {
      var excludeList := Explode(req.exclude, ',');
      var muPlugins := site.muPlugins;
      skips := skips0;
      for j := 0 to |muPlugins|
        invariant RunMu(site, req, start, muPlugins[..j]) == Running(errors, skips)
      {
        RunMuNext(site, req, start, muPlugins, j);
        skips := VerifyMuStep(req, excludeList, muPlugins[j], skips);
      }
      assert muPlugins[..|muPlugins|] == muPlugins;
    }

    /**
     * `__invoke`: resolve the plugins, abort when none was named without
     * `--all`, run the plugin loop, then the must-use loop unless excluded,
     * and summarise; it ends exactly as `Run` specifies, with `$errors` as
     * the reported error list.
     */
    method Invoke(req: Request) returns (outcome: Outcome)
      requires Valid() && errors == []
      modifies this
      ensures outcome == Run(site, req)
      ensures outcome.Reported? ==> errors == outcome.errors
    {
      var names := if req.all then AllPluginNames(site.plugins) else req.args;
      var plugins := GetMany(Files(site.plugins), names, site.pluginDir, site.directories);
      assert names == RequestedNames(site, req);
      if plugins == [] && !req.all {
        RunAborts(site, req, plugins);
        return Aborted;
      }
      var skips, fatal := VerifyPlugins(req, plugins);
      if fatal {
        RunAborts(site, req, plugins);
        return Aborted;
      }
      ghost var start := RunPlugins(site, req, plugins);
      var muPlugins := MuPlugins(site, req);
      if !req.excludeMu {
        skips := VerifyMuPlugins(req, start, skips);
      }
      RunReports(site, req, plugins, errors, skips);
      outcome := Reported(errors, Summarize(|plugins| + |muPlugins|, errors, skips));
    }
  }
}
