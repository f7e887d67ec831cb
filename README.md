# Plugin checksum verification, modelled in Dafny

This project models `wp plugin verify-checksums` from wp-cli's checksum
command. The command finds the requested plugins, or every installed one
under `--all`, and then works through them in order:

- It fetches each plugin's published checksum manifest for its version.
- It compares every local file of the plugin against that manifest.
- It does the same for the must-use plugins.
- It ends with a list of errors (plugin, file, message) and a summary:
  total, successes, failures and skips.

The model is built in layers, following the program's structure:

- `wrappers.dfy`: `Option` and a map lookup that returns one.
- `php_strings.dfy`: the PHP string built-ins whose edge cases decide
  outcomes. These are `empty()` (`"0"` is empty), `dirname`, `basename`
  with a suffix, ASCII `strtolower` and `explode`.
- `unfiltered_plugin.dfy`: `UnfilteredPlugin::get`, which resolves a plugin
  name to its main file by a first-match search over the inventory, with
  the directory fallback.
- `checksums.dfy`: the matcher (`check_file_checksum`), the soft-change
  rule and the per-file loop. The loop is specified by the function
  `FileErrors`: the errors that checking a list of local files appends, in
  order.
- `batch.dfy`: the plugin-level specification.
  - One pass of each loop of `__invoke` is a `Step` (skipped with a
    reason, checked with errors, or fatal).
  - The loops fold those steps into a `Tally`.
  - `Run` is the whole command as a function of its inputs.
  - The summary arithmetic and the properties of the whole run are proved
    here.
- `command.dfy`: the class `ChecksumPluginCommand`.
  - It holds the two fields the PHP object updates: `$errors` and the lazy
    `$plugins_data` cache.
  - Every loop is a method with invariants, proved to end in the state the
    `batch.dfy` and `checksums.dfy` functions specify.
  - `Invoke` returns exactly `Run(site, req)`.

The world the command consults is one value, `Site`:

- `WP_PLUGIN_DIR` and `WPMU_PLUGIN_DIR`;
- `get_plugins()` and `get_mu_plugins()`, in order;
- the directories `is_dir` accepts;
- the `get_files` listings;
- the WordPress.org plugin checksums by (name, version), and the core
  checksums;
- the digests `hash_file` would compute.

A digest is a map from absolute path to hash string. A path missing from the
map stands for `hash_file` returning `false`, which never matches.

Only local files are visited. A file that the manifest lists but that is
missing on disk therefore produces no error, and "File was added" means
present locally but absent from the manifest. The model follows the code
here; `Checksums.OnlyLocalFilesAreReported` exhibits a concrete case.

## Model

| member | source | states |
|---|---|---|
| PhpStrings.Empty | src/Checksum_Plugin_Command.php:420-424 | PHP's `empty()` holds exactly for strings of at most one character, all of them `0`: `""` and `"0"`, nothing else |
| PhpStrings.TrimEnd | src/Checksum_Plugin_Command.php:282 | the result is a prefix of the input, does not end in a trimmed character, and everything dropped was a trimmed character (`rtrim`, used by `trailingslashit`) |
| PhpStrings.DropName | src/Checksum_Plugin_Command.php:404 | the result is a prefix ending in `/` (or empty), and everything dropped is slash-free (the last path component `dirname` removes) |
| PhpStrings.Dirname | src/Checksum_Plugin_Command.php:404 | `dirname` is empty exactly when its argument is, and it is either `.` or a prefix of its argument |
| PhpStrings.DirnameOfSlashFree | src/WP_CLI/Fetchers/UnfilteredPlugin.php:32 | a non-empty path without `/` has `dirname` `"."` |
| PhpStrings.DirnameOfJoin | src/Checksum_Plugin_Command.php:404 | `dirname(d + "/" + f) == d` for a slash-free file name `f` and a directory `d` not ending in `/` |
| PhpStrings.Basename | src/Checksum_Plugin_Command.php:408 | `basename` never contains `/` |
| PhpStrings.BasenameOfSlashFree | src/Checksum_Plugin_Command.php:507 | `basename` of a slash-free name is that name |
| PhpStrings.BasenameOfSlashFreeCases | src/Checksum_Plugin_Command.php:407-408 | `basename` of a slash-free name with a suffix is either the name itself or the name with that suffix removed |
| PhpStrings.BasenameStripsSuffix | src/Checksum_Plugin_Command.php:408 | `basename(n + ".php", ".php") == n` for a non-empty slash-free `n` |
| PhpStrings.ToLower | src/Checksum_Plugin_Command.php:388 | `strtolower` keeps the length and lowers each ASCII letter, leaving every other character as is |
| PhpStrings.ToLowerIdempotent | src/Checksum_Plugin_Command.php:388 | lowering twice is lowering once |
| PhpStrings.ToLowerKeepsSlashes | src/Checksum_Plugin_Command.php:388 | lowering neither adds nor removes a `/` |
| PhpStrings.IndexOf | src/Checksum_Plugin_Command.php:97 | the index of the first occurrence of the separator |
| PhpStrings.Explode | src/Checksum_Plugin_Command.php:97 | `explode` yields at least one part (so `explode(',', '')` is `[""]`), and no part contains the separator |
| PhpStrings.ImplodeExplode | src/Checksum_Plugin_Command.php:97 | joining the parts of `explode` with the separator gives back the input |
| PhpStrings.IndexOfAfter | src/Checksum_Plugin_Command.php:97 | in `head + sep + tail` with a separator-free head, the first separator is right after the head |
| PhpStrings.ExplodeImplode | src/Checksum_Plugin_Command.php:97 | splitting a join of separator-free parts gives back those parts, so the exclusion list is exactly the comma-separated names |
| UnfilteredPlugin.MatchesName | src/WP_CLI/Fetchers/UnfilteredPlugin.php:30-32 | a name only ever answers to a file path that begins with it |
| UnfilteredPlugin.FirstMatch | src/WP_CLI/Fetchers/UnfilteredPlugin.php:29-35 | the result is the first inventory index answering to the name, or none when no file does |
| UnfilteredPlugin.Get | src/WP_CLI/Fetchers/UnfilteredPlugin.php:27-48 | the result carries the requested name unchanged; the first file matching `name.php`, the exact (truthy) name, or a directory name other than `.` wins, so whenever some file matches a plugin is found; without a match, `name/name.php` when `WP_PLUGIN_DIR/name` is a directory, otherwise `false` |
| UnfilteredPlugin.RootFileMatches | src/WP_CLI/Fetchers/UnfilteredPlugin.php:30-32 | a root-level file answers to a name exactly as `name.php` or as the name itself when the name is truthy; its directory `.` never selects it |
| UnfilteredPlugin.NestedFileMatches | src/WP_CLI/Fetchers/UnfilteredPlugin.php:30-32 | a file `d/g` answers to a name exactly when the name is `d/g` (truthy), `d/g` is `name.php`, or the name is its directory `d` |
| UnfilteredPlugin.GetMany | src/Checksum_Plugin_Command.php:85 | resolving a list of names yields at most one plugin per name, each carrying one of the requested names |
| UnfilteredPlugin.GetManyResolvesEach | src/Checksum_Plugin_Command.php:85 | when every name resolves, the plugins are exactly the resolutions, one per name, in order |
| UnfilteredPlugin.GetManyExactly | src/Checksum_Plugin_Command.php:85 | a plugin is in the resolved list exactly when some requested name resolves to it, so a failing name never hides the others |
| Checksums.DirnameOfRootPath | src/Checksum_Plugin_Command.php:274-278 | the absolute path of a root-level file lies directly in the base directory, which is how a single-file plugin is recognised |
| Checksums.DirnameOfNestedPath | src/Checksum_Plugin_Command.php:274-282 | the absolute path of `d/g` lies in the absolute path of `d`, never in the base directory itself |
| Checksums.CheckFileChecksum | src/Checksum_Plugin_Command.php:296-311 | with a `sha256` entry the file matches iff its SHA-256 is listed; otherwise, with an `md5` entry, iff its MD5 is listed; with neither the result is the no-algorithm outcome, and only then |
| Checksums.Sha256Precedence | src/Checksum_Plugin_Command.php:297-302 | with a `sha256` entry the MD5 digests play no part: a matching MD5 cannot rescue a SHA-256 miss |
| Checksums.ScalarHashIsOneElementList | src/Checksum_Plugin_Command.php:301 | a scalar hash is treated as a one-element list (the `(array)` cast), and an unreadable file (`false`) matches no list |
| Checksums.UnreadableNeverMatches | src/Checksum_Plugin_Command.php:300-310 | a file neither digest can be computed for never matches |
| Checksums.MessageFor | src/Checksum_Plugin_Command.php:150-151 | the error message is "No matching checksum algorithm found" exactly for the no-algorithm outcome, and a plain mismatch gets "Checksum does not match" |
| Checksums.SoftChangeIgnoresCase | src/Checksum_Plugin_Command.php:387-389 | the soft-change test is case-insensitive: a path and its lower-case form are classified alike |
| Checksums.SoftChangeIsTopLevel | src/Checksum_Plugin_Command.php:369-376 | only the whole path `readme.txt` / `readme.md` (in any case) is a soft change, so nothing in a sub-directory is |
| Checksums.FileError | src/Checksum_Plugin_Command.php:140-153 | the at most one error a local file yields names the plugin and that file |
| Checksums.FileErrorCases | src/Checksum_Plugin_Command.php:141-152 | a file missing from the manifest always yields "File was added"; a listed soft-change file outside strict mode yields nothing; any other listed file yields an error iff its checksum does not match, with the matcher's message |
| Checksums.FileErrors | src/Checksum_Plugin_Command.php:140-153 | checking a file list adds at most one error per file, each naming the plugin and a file of the list |
| Checksums.FileErrorsExactly | src/Checksum_Plugin_Command.php:140-153 | an error is reported iff its file is in the local list and that file's pass yields exactly that error |
| Checksums.FileErrorsSnoc | src/Checksum_Plugin_Command.php:140-153 | one more file appends that file's error (if any) after the earlier ones |
| Checksums.FileErrorsNext | src/Checksum_Plugin_Command.php:140-153 | the same, stated for the loop index |
| Checksums.FileErrorsAppend | src/Checksum_Plugin_Command.php:140-153 | the errors of a concatenated list are those of each part, in order |
| Checksums.UnlistedFileReported | src/Checksum_Plugin_Command.php:141-143 | every local file missing from the manifest is reported as added |
| Checksums.MismatchReported | src/Checksum_Plugin_Command.php:146-152 | every listed, checked file whose checksum does not match is reported with the matcher's message |
| Checksums.SoftChangeNotReported | src/Checksum_Plugin_Command.php:146-147 | outside strict mode no error is reported about a listed soft-change file |
| Checksums.AllMatchingNoErrors | src/Checksum_Plugin_Command.php:140-153 | when every local file is listed and matches, no error is reported |
| Checksums.OnlyLocalFilesAreReported | src/Checksum_Plugin_Command.php:140-153 | a worked case: a manifest file missing locally is not reported, and a local file outside the manifest is reported as added |
| Checksums.StrictOnlyAddsSoftChanges | src/Checksum_Plugin_Command.php:146-147 | the non-strict errors are exactly the strict errors minus those about soft-change files listed in the manifest |
| Checksums.KeepAppend | src/Checksum_Plugin_Command.php:146-147 | dropping soft-change errors distributes over appending |
| Batch.InstalledVersion | src/Checksum_Plugin_Command.php:245-249 | no version iff no installed plugin has that file; otherwise the version of such a plugin |
| Batch.VersionForVerification | src/Checksum_Plugin_Command.php:419-429 | a version exists iff the argument or the header is non-empty in PHP's sense (`"0"` is empty); the argument wins; the result is never empty |
| Batch.PluginSlug | src/Checksum_Plugin_Command.php:401-408 | the slug of a root-level file is slash-free, and the slug of a nested file is its directory (`.` or a prefix of the path) |
| Batch.SlugOfNestedFile | src/Checksum_Plugin_Command.php:401-405 | the slug of `d/f` is its directory `d` |
| Batch.SlugOfRootFile | src/Checksum_Plugin_Command.php:407-408 | the slug of a root-level `n.php` is `n` |
| Batch.ConventionalFileSlug | src/WP_CLI/Fetchers/UnfilteredPlugin.php:43 | the conventional file `name/name.php` has slug `name` |
| Batch.SlugResolves | src/Checksum_Plugin_Command.php:257-264 | the slug `--all` derives from an installed file resolves to a plugin again through `get` |
| Batch.AllNamesResolve | src/Checksum_Plugin_Command.php:85 | under `--all`, every installed plugin with a resolvable file yields exactly one resolved plugin, in inventory order, the one its slug resolves to |
| Batch.TrailingSlashIt | src/Checksum_Plugin_Command.php:282 | `trailingslashit` ends in exactly one `/`, after a prefix of the input that does not end in a slash or backslash, having dropped only slashes and backslashes |
| Batch.SingleFilePluginFiles | src/Checksum_Plugin_Command.php:273-280 | a root-level single-file plugin's file list is just that file |
| Batch.NestedPluginFiles | src/Checksum_Plugin_Command.php:274-282 | a plugin file in a sub-directory `d` is checked against the listing of `WP_PLUGIN_DIR/d/` |
| Batch.MuPluginFiles | src/Checksum_Plugin_Command.php:504-508 | a root-level must-use file's list is that file alone |
| Batch.HelloStep | src/Checksum_Plugin_Command.php:195-216 | Hello Dolly aborts iff the core checksums or its entry are missing; otherwise exactly one error when its MD5 differs, none when it matches |
| Batch.StandardVersion | src/Checksum_Plugin_Command.php:102 | a non-empty `--version` is used as given; there is no version iff the argument is empty and the file is not installed |
| Batch.StandardStep | src/Checksum_Plugin_Command.php:101-153 | excluded names are skipped before the `hello` case; only `hello` can abort; errors name the plugin; a missing version (only) gives the no-version skip; missing checksums give the no-checksums skip; otherwise the errors are exactly `FileErrors` of the plugin's files against its manifest; no loader-plugin skip here |
| Batch.MuVerify | src/Checksum_Plugin_Command.php:442-495 | never aborts; errors name the plugin; a no-version skip iff no version; the loader-plugin warning iff a root-level file whose checksums are missing, the no-checksums skip iff the same in a sub-directory; with checksums the errors are exactly `FileErrors` of the must-use files |
| Batch.MuStep | src/Checksum_Plugin_Command.php:160-168 | an excluded slug is skipped; any other must-use plugin is verified by `verify_mu_plugin` under its slug; never aborts; errors name the slug |
| Batch.Then | src/Checksum_Plugin_Command.php:104-136 | one step aborts the loop iff it is fatal (or the loop already aborted); otherwise it only appends errors and adds at most one skip |
| Batch.RunPluginsShape | src/Checksum_Plugin_Command.php:101-154 | the plugin loop counts at most one skip per plugin, and every error it collects names one of the plugins visited |
| Batch.RunMuKeeps | src/Checksum_Plugin_Command.php:161-169 | the must-use loop continues the plugin loop's state: it keeps the earlier errors and adds at most one skip per must-use plugin |
| Batch.RunPluginsNext | src/Checksum_Plugin_Command.php:101 | the plugin loop's state after one more plugin is that plugin's step applied to the state before |
| Batch.RunMuNext | src/Checksum_Plugin_Command.php:160 | the same for the must-use loop |
| Batch.SkippedPluginCountsOnce | src/Checksum_Plugin_Command.php:104-136 | a skipped plugin adds one to the skips and leaves the errors unchanged |
| Batch.SkippedMuPluginCountsOnce | src/Checksum_Plugin_Command.php:163-166 | a skipped must-use plugin adds one to the skips and leaves the errors unchanged |
| Batch.ColumnNames | src/Checksum_Plugin_Command.php:182 | `array_column(errors, 'plugin_name')` holds exactly the names of the failing plugins (one entry per error, in order, by `Column`'s own contract) |
| Batch.Unique | src/Checksum_Plugin_Command.php:182 | `array_unique` keeps exactly the same elements, without duplicates |
| Batch.NoDuplicatesCard | src/Checksum_Plugin_Command.php:182 | a duplicate-free list is as long as its set of elements |
| Batch.DistinctNames | src/Checksum_Plugin_Command.php:182 | the failure count is the number of distinct plugin names with an error |
| Batch.Summarize | src/Checksum_Plugin_Command.php:181-183 | total and skips as given; failures are the distinct failing names; total = successes + failures + skips |
| Batch.RunReports | src/Checksum_Plugin_Command.php:99-192 | once both loops finish, the command reports their errors with the summary over all plugins and must-use plugins visited |
| Batch.RunAborts | src/Checksum_Plugin_Command.php:93-95 | the command aborts when nothing was named without `--all`, or when the plugin loop aborts |
| Batch.PluginsHaltedSticks | src/Checksum_Plugin_Command.php:205-209 | once aborted, the plugin loop stays aborted |
| Batch.MuHaltedSticks | src/Checksum_Plugin_Command.php:205-209 | an aborted run stays aborted through the must-use loop |
| Batch.ThenBounded | src/Checksum_Plugin_Command.php:181-183 | one step adds at most one distinct failing name or one skip |
| Batch.SubsetCard | src/Checksum_Plugin_Command.php:182 | a subset is no larger than its superset |
| Batch.RunPluginsBounded | src/Checksum_Plugin_Command.php:101-154 | after the plugin loop, distinct failing names plus skips are at most the plugins visited |
| Batch.RunMuBounded | src/Checksum_Plugin_Command.php:160-168 | the must-use loop keeps that bound, counting its plugins |
| Batch.RunSummaryBalances | src/Checksum_Plugin_Command.php:181-183 | in every report, total = successes + failures + skips, failures are the distinct failing names, and successes are never negative |
| Batch.RunPluginsAvoids | src/Checksum_Plugin_Command.php:104-107 | the plugin loop reports no error for an excluded name |
| Batch.RunMuAvoids | src/Checksum_Plugin_Command.php:163-166 | nor does the must-use loop |
| Batch.ExcludedNeverReported | src/Checksum_Plugin_Command.php:97-107 | no reported error names an excluded plugin |
| Batch.EmptyInstallation | src/Checksum_Plugin_Command.php:93-192 | `--all` with nothing installed reports no error and an all-zero summary |
| PluginCommand.ChecksumPluginCommand.constructor | src/Checksum_Plugin_Command.php:20-27 | a new command has no errors and an empty cache |
| PluginCommand.ChecksumPluginCommand.AddError | src/Checksum_Plugin_Command.php:225-230 | appends exactly one error and keeps the earlier ones |
| PluginCommand.ChecksumPluginCommand.GetPluginVersion | src/Checksum_Plugin_Command.php:240-250 | fills the cache with the inventory on first use, then returns the installed version of the file |
| PluginCommand.ChecksumPluginCommand.VerifyFile | src/Checksum_Plugin_Command.php:140-153 | one file's pass appends exactly that file's error, if any |
| PluginCommand.ChecksumPluginCommand.VerifyFiles | src/Checksum_Plugin_Command.php:140-153 | the loop appends exactly `FileErrors` of the local files, in order |
| PluginCommand.ChecksumPluginCommand.VerifyHelloDollyFromCore | src/Checksum_Plugin_Command.php:195-216 | aborts exactly as `HelloStep` does and otherwise appends its errors |
| PluginCommand.ChecksumPluginCommand.VerifyMuPlugin | src/Checksum_Plugin_Command.php:442-495 | skips (adding one to the count, with the reason) or appends the errors exactly as `MuVerify` says |
| PluginCommand.ChecksumPluginCommand.VerifyPlugin | src/Checksum_Plugin_Command.php:102-153 | one pass of the plugin loop ends as `StandardStep` says |
| PluginCommand.ChecksumPluginCommand.VerifyPlugins | src/Checksum_Plugin_Command.php:99-154 | the plugin loop aborts iff `RunPlugins` does, and otherwise leaves exactly its errors and skips |
| PluginCommand.ChecksumPluginCommand.VerifyMuStep | src/Checksum_Plugin_Command.php:162-169 | one pass of the must-use loop changes the errors and skips as `MuStep` says |
| PluginCommand.ChecksumPluginCommand.VerifyMuPlugins | src/Checksum_Plugin_Command.php:156-169 | the must-use loop continues from the plugin loop and leaves exactly the errors and skips `RunMu` gives |
| PluginCommand.ChecksumPluginCommand.Invoke | src/Checksum_Plugin_Command.php:78-193 | the command ends exactly as `Run` specifies, and the reported errors are the object's `$errors` |

## Left out

- Network access is an input. `WpOrgApi::get_plugin_checksums` and
  `get_core_checksums` become the `Site` maps, and their failures (an
  exception or `false`) become a missing key. The `--insecure` TLS retry is
  not modelled, and neither is the HTTP fetch in `Checksum_Base_Command`.
- SHA-256 and MD5 are not computed. `hash_file` is a map from absolute path
  to digest, with a missing key for `false`.
- WordPress and file-system lookups are inputs: `get_plugins`,
  `get_mu_plugins`, `get_files`, `is_dir`, `get_bloginfo`, `WP_PLUGIN_DIR`
  and `WPMU_PLUGIN_DIR`. Core checksums are taken as already fetched for the
  running WordPress version and the `en_US` locale.
- Paths are exact strings. No `realpath` or `./` normalisation happens
  between a listing and the digest map.
- Output is not modelled: the table printed by `Formatter::display_items`,
  the text of `WP_CLI::warning` and `report_batch_operation_results`. The
  warnings that matter appear as a `SkipReason`, and `WP_CLI::error` as the
  `Aborted` outcome.
- `Utils\get_plugin_name` is not part of this model. `--all` names each
  installed plugin by the slug rule of `get_plugin_slug_from_path`.
- `Fetchers\Base::get_many` is not part of this model. It resolves each
  name with `get` and drops the ones that fail, and its warning for an
  unknown name is not modelled.
- `supports_sha256` always returns true, so it is left out.
- PluginCommand.ChecksumPluginCommand.VerifyMuPlugin: `$skips` is passed by
  reference in the source. Here the method takes the count and returns the
  new one.
- PluginCommand.ChecksumPluginCommand.Invoke: requires a command object
  with an empty `$errors` list. A fresh object per invocation is how the
  command is used.
- PhpStrings.ToLower: ASCII only, as `strtolower` is in PHP 8.2 and later.
  Locale-dependent lowering in older PHP is not modelled.
