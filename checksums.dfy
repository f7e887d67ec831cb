/**
 * The per-file half of `Checksum_Plugin_Command`: choosing the checksum
 * algorithm, matching a file's digest against the published hashes,
 * exempting soft-change files, and classifying every local file of one
 * plugin against its manifest.
 */
module Checksums {
  import opened Wrappers
  import opened PhpStrings

  /** One algorithm's published value: a single hash, or a list of acceptable hashes. */
  datatype HashValue = One(hash: string) | Many(hashes: seq<string>)

  /** The hashes `(array) $value` yields: a scalar becomes a one-element list. */
  function Acceptable(v: HashValue): seq<string> {
    match v
    case One(h) => [h]
    case Many(hs) => hs
  }

  /** The manifest entry for one file: algorithm name ("sha256", "md5", ...) to its value. */
  type ChecksumSet = map<string, HashValue>

  /** The checksums published for one plugin version: relative file path to its entry. */
  type Manifest = map<string, ChecksumSet>

  /**
   * What `hash_file` returns for each absolute path, per algorithm. A path
   * absent from a map stands for `false` (an unreadable or missing file).
   */
  datatype Digests = Digests(sha256: map<string, string>, md5: map<string, string>)

  /** `true`, `false`, or the distinguished string of `check_file_checksum`. */
  datatype MatchResult = Match | Mismatch | NoMatchingAlgorithm

  const FileAdded := "File was added"
  const ChecksumMismatch := "Checksum does not match"
  const NoAlgorithm := "No matching checksum algorithm found"

  /** A row of `$this->errors`, as `add_error` builds it. */
  datatype VerificationError = VerificationError(pluginName: string, file: string, message: string)

  /** `get_absolute_path($path, $base_dir)`: the base directory, a slash, the relative path. */
  function AbsolutePath(baseDir: string, path: string): (r: string)
    ensures |r| == |baseDir| + 1 + |path|
    ensures r[..|baseDir|] == baseDir && r[|baseDir|] == '/' && r[|baseDir| + 1..] == path
  {
    baseDir + "/" + path
  }

  /** A file directly in the base directory has that directory as its `dirname`. */
  lemma DirnameOfRootPath(baseDir: string, path: string)
    requires baseDir != "" && baseDir[|baseDir| - 1] != '/'
    requires path != "" && '/' !in path
    ensures Dirname(AbsolutePath(baseDir, path)) == baseDir
  {
    DirnameOfJoin(baseDir, path);
  }

  /**
   * A file one directory `d` further down has the absolute path of `d` as its
   * `dirname`, which is never the base directory itself.
   */
  lemma DirnameOfNestedPath(baseDir: string, d: string, g: string)
    requires d != "" && d[|d| - 1] != '/'
    requires g != "" && '/' !in g
    ensures Dirname(AbsolutePath(baseDir, d + "/" + g)) == AbsolutePath(baseDir, d)
    ensures Dirname(AbsolutePath(baseDir, d + "/" + g)) != baseDir
  {
    var dir := AbsolutePath(baseDir, d);
    assert AbsolutePath(baseDir, d + "/" + g) == dir + "/" + g;
    assert dir[|dir| - 1] == d[|d| - 1];
    DirnameOfJoin(dir, g);
  }

  /** The digest matches when `hash_file` succeeded and its value is one of the acceptable hashes. */
  predicate DigestIn(digest: Option<string>, v: HashValue) {
    digest.Some? && digest.value in Acceptable(v)
  }

  /**
   * `check_file_checksum`: SHA-256 when the entry lists it (with no fall-back
   * to MD5 after a miss), else MD5, else the "no matching algorithm" result.
   */
  function CheckFileChecksum(path: string, entry: ChecksumSet, baseDir: string, digests: Digests): (r: MatchResult)
    ensures "sha256" in entry ==>
      (r == Match <==> DigestIn(Lookup(digests.sha256, AbsolutePath(baseDir, path)), entry["sha256"]))
    ensures "sha256" !in entry && "md5" in entry ==>
      (r == Match <==> DigestIn(Lookup(digests.md5, AbsolutePath(baseDir, path)), entry["md5"]))
    ensures r == NoMatchingAlgorithm <==> "sha256" !in entry && "md5" !in entry
  {
    var abs := AbsolutePath(baseDir, path);
    if "sha256" in entry then
      if DigestIn(Lookup(digests.sha256, abs), entry["sha256"]) then Match else Mismatch
    else if "md5" !in entry then NoMatchingAlgorithm
    else if DigestIn(Lookup(digests.md5, abs), entry["md5"]) then Match else Mismatch
  }

  /**
   * SHA-256 takes precedence: when the entry lists it, the MD5 digests play
   * no part, so a matching MD5 cannot rescue a SHA-256 miss.
   */
  lemma Sha256Precedence(path: string, entry: ChecksumSet, baseDir: string, d1: Digests, d2: Digests)
    requires "sha256" in entry
    requires d1.sha256 == d2.sha256
    ensures CheckFileChecksum(path, entry, baseDir, d1) == CheckFileChecksum(path, entry, baseDir, d2)
    ensures CheckFileChecksum(path, entry, baseDir, d1) != NoMatchingAlgorithm
  {
  }

  /**
   * The `(array)` cast: a single published hash is matched like a list of
   * one, and a failed `hash_file` matches nothing.
   */
  lemma ScalarHashIsOneElementList(digest: Option<string>, h: string, v: HashValue)
    ensures DigestIn(digest, One(h)) <==> DigestIn(digest, Many([h]))
    ensures DigestIn(digest, One(h)) <==> digest == Some(h)
    ensures digest.None? ==> !DigestIn(digest, v)
  {
  }

  /** An unreadable file (`hash_file` gives `false`) never matches. */
  lemma UnreadableNeverMatches(path: string, entry: ChecksumSet, baseDir: string, digests: Digests)
    requires AbsolutePath(baseDir, path) !in digests.sha256 && AbsolutePath(baseDir, path) !in digests.md5
    ensures CheckFileChecksum(path, entry, baseDir, digests) != Match
  {
  }

  /** The message `__invoke` and `verify_mu_plugin` record for a result other than `true`. */
  function MessageFor(r: MatchResult): (m: string)
    requires r != Match
    ensures m == NoAlgorithm <==> r == NoMatchingAlgorithm
    ensures r == Mismatch ==> m == ChecksumMismatch
  {
    if r == NoMatchingAlgorithm then NoAlgorithm else ChecksumMismatch
  }

  /** `get_soft_change_files()`. */
  const SoftChangeFiles: seq<string> := ["readme.txt", "readme.md"]

  /** `is_soft_change_file`: the whole relative path, lower-cased, is one of the soft-change names. */
  predicate IsSoftChangeFile(file: string) {
    ToLower(file) in SoftChangeFiles
  }

  /** The soft-change test ignores case. */
  lemma SoftChangeIgnoresCase(file: string)
    ensures IsSoftChangeFile(ToLower(file)) <==> IsSoftChangeFile(file)
  {
    ToLowerIdempotent(file);
  }

  /**
   * Only a top-level readme is a soft change: the test compares the whole
   * path, so a readme inside a sub-directory never qualifies.
   */
  lemma SoftChangeIsTopLevel(file: string)
    ensures IsSoftChangeFile(file) ==> '/' !in file && (|file| == 10 || |file| == 9)
  {
    ToLowerKeepsSlashes(file);
  }

  /** What one pass of the per-file loop does with one local file. */
  datatype Scope = Scope(pluginName: string, manifest: Manifest, strict: bool, pathPrefix: string, baseDir: string)

  /**
   * The error, if any, one local file adds: absent from the manifest gives
   * "File was added" (before any exemption); a soft-change file outside
   * strict mode is skipped; otherwise the matcher decides.
   */
  function FileError(sc: Scope, file: string, digests: Digests): (r: Option<VerificationError>)
    ensures r.Some? ==> r.value.pluginName == sc.pluginName && r.value.file == file
  {
    if file !in sc.manifest then Some(VerificationError(sc.pluginName, file, FileAdded))
    else if !sc.strict && IsSoftChangeFile(file) then None
    else
      var m := CheckFileChecksum(sc.pathPrefix + file, sc.manifest[file], sc.baseDir, digests);
      if m == Match then None else Some(VerificationError(sc.pluginName, file, MessageFor(m)))
  }

  /**
   * Each outcome of one file's pass: a file missing from the manifest is
   * always reported as added; a listed soft change outside strict mode never
   * is; any other listed file is reported iff it does not match, with the
   * matcher's message.
   */
  lemma FileErrorCases(sc: Scope, file: string, digests: Digests)
    ensures file !in sc.manifest ==> FileError(sc, file, digests) == Some(VerificationError(sc.pluginName, file, FileAdded))
    ensures file in sc.manifest && !sc.strict && IsSoftChangeFile(file) ==> FileError(sc, file, digests).None?
    ensures file in sc.manifest && (sc.strict || !IsSoftChangeFile(file)) ==>
      var m := CheckFileChecksum(sc.pathPrefix + file, sc.manifest[file], sc.baseDir, digests);
      && (FileError(sc, file, digests).None? <==> m == Match)
      && (FileError(sc, file, digests).Some? ==> FileError(sc, file, digests).value.message == MessageFor(m))
  {
  }

  function OptionToSeq<T>(o: Option<T>): seq<T> {
    match o
    case Some(x) => [x]
    case None => []
  }

  /** The errors the per-file loop appends, in file-list order. */
  function FileErrors(sc: Scope, files: seq<string>, digests: Digests): (r: seq<VerificationError>)
    ensures |r| <= |files|
    ensures forall e | e in r :: e.pluginName == sc.pluginName && e.file in files
    decreases |files|
  {
    if files == [] then []
    else FileErrors(sc, files[..|files| - 1], digests) + OptionToSeq(FileError(sc, files[|files| - 1], digests))
  }

  /**
   * An error is recorded exactly for the local files whose pass yields one,
   * and it is that pass's error. In particular a manifest file that is not
   * present locally is never reported.
   */
  lemma {:induction false} FileErrorsExactly(sc: Scope, files: seq<string>, digests: Digests, e: VerificationError)
    ensures e in FileErrors(sc, files, digests) <==> e.file in files && FileError(sc, e.file, digests) == Some(e)
    decreases |files|
  {
    if files != [] {
      var init, last := files[..|files| - 1], files[|files| - 1];
      FileErrorsExactly(sc, init, digests, e);
      assert files == init + [last];
    }
  }

  /** One more file appends that file's error, if any. */
  lemma FileErrorsSnoc(sc: Scope, files: seq<string>, f: string, digests: Digests)
    ensures FileErrors(sc, files + [f], digests) == FileErrors(sc, files, digests) + OptionToSeq(FileError(sc, f, digests))
  {
    assert (files + [f])[..|files|] == files;
  }

  /** The per-file loop's errors after one more file of the list. */
  lemma FileErrorsNext(sc: Scope, files: seq<string>, i: nat, digests: Digests)
    requires i < |files|
    ensures FileErrors(sc, files[..i + 1], digests) == FileErrors(sc, files[..i], digests) + OptionToSeq(FileError(sc, files[i], digests))
  {
    assert files[..i + 1][..i] == files[..i];
  }

  /** The loop over a concatenated file list appends the errors of each part in turn. */
  lemma {:induction false} FileErrorsAppend(sc: Scope, xs: seq<string>, ys: seq<string>, digests: Digests)
    ensures FileErrors(sc, xs + ys, digests) == FileErrors(sc, xs, digests) + FileErrors(sc, ys, digests)
    decreases |ys|
  {
    if ys == [] {
      assert xs + ys == xs;
    } else {
      var init, y := ys[..|ys| - 1], ys[|ys| - 1];
      var tail := OptionToSeq(FileError(sc, y, digests));
      assert ys == init + [y];
      assert xs + ys == (xs + init) + [y];
      calc {
        FileErrors(sc, xs + ys, digests);
        { FileErrorsSnoc(sc, xs + init, y, digests); }
        FileErrors(sc, xs + init, digests) + tail;
        { FileErrorsAppend(sc, xs, init, digests); }
        (FileErrors(sc, xs, digests) + FileErrors(sc, init, digests)) + tail;
        FileErrors(sc, xs, digests) + (FileErrors(sc, init, digests) + tail);
        { FileErrorsSnoc(sc, init, y, digests); }
        FileErrors(sc, xs, digests) + FileErrors(sc, ys, digests);
      }
    }
  }

  /** A local file the manifest does not list is always reported as added, strict or not. */
  lemma UnlistedFileReported(sc: Scope, files: seq<string>, digests: Digests, f: string)
    requires f in files && f !in sc.manifest
    ensures VerificationError(sc.pluginName, f, FileAdded) in FileErrors(sc, files, digests)
  {
    FileErrorCases(sc, f, digests);
    FileErrorsExactly(sc, files, digests, VerificationError(sc.pluginName, f, FileAdded));
  }

  /**
   * A listed local file that is checked and does not match is reported, with
   * the matcher's message.
   */
  lemma MismatchReported(sc: Scope, files: seq<string>, digests: Digests, f: string)
    requires f in files && f in sc.manifest && (sc.strict || !IsSoftChangeFile(f))
    requires CheckFileChecksum(sc.pathPrefix + f, sc.manifest[f], sc.baseDir, digests) != Match
    ensures var m := CheckFileChecksum(sc.pathPrefix + f, sc.manifest[f], sc.baseDir, digests);
      VerificationError(sc.pluginName, f, MessageFor(m)) in FileErrors(sc, files, digests)
  {
    var m := CheckFileChecksum(sc.pathPrefix + f, sc.manifest[f], sc.baseDir, digests);
    FileErrorCases(sc, f, digests);
    FileErrorsExactly(sc, files, digests, VerificationError(sc.pluginName, f, MessageFor(m)));
  }

  /** Outside strict mode a listed soft-change file is never reported, whatever its digest. */
  lemma SoftChangeNotReported(sc: Scope, files: seq<string>, digests: Digests, e: VerificationError)
    requires !sc.strict && e.file in sc.manifest && IsSoftChangeFile(e.file)
    ensures e !in FileErrors(sc, files, digests)
  {
    FileErrorCases(sc, e.file, digests);
    FileErrorsExactly(sc, files, digests, e);
  }

  /** When every local file is listed and matches, nothing is reported. */
  lemma AllMatchingNoErrors(sc: Scope, files: seq<string>, digests: Digests)
    requires forall f | f in files ::
      f in sc.manifest && CheckFileChecksum(sc.pathPrefix + f, sc.manifest[f], sc.baseDir, digests) == Match
    ensures FileErrors(sc, files, digests) == []
  {
    if FileErrors(sc, files, digests) != [] {
      var e := FileErrors(sc, files, digests)[0];
      FileErrorsExactly(sc, files, digests, e);
    }
  }

  /**
   * A worked case: with `a.php` matching and `b.php` listed but absent,
   * only the unlisted local file `c.php` is reported.
   */
  lemma OnlyLocalFilesAreReported()
    ensures
      var manifest := map["a.php" := map["sha256" := Many(["H1"])], "b.php" := map["sha256" := Many(["H2"])]];
      var sc := Scope("demo-plugin", manifest, false, "demo-plugin/", "/wp/plugins");
      var digests := Digests(map["/wp/plugins/demo-plugin/a.php" := "H1"], map[]);
      FileErrors(sc, ["a.php", "c.php"], digests) == [VerificationError("demo-plugin", "c.php", FileAdded)]
  {
    var manifest := map["a.php" := map["sha256" := Many(["H1"])], "b.php" := map["sha256" := Many(["H2"])]];
    var sc := Scope("demo-plugin", manifest, false, "demo-plugin/", "/wp/plugins");
    var digests := Digests(map["/wp/plugins/demo-plugin/a.php" := "H1"], map[]);
    assert AbsolutePath(sc.baseDir, sc.pathPrefix + "a.php") == "/wp/plugins/demo-plugin/a.php";
    assert !IsSoftChangeFile("a.php");
    assert FileError(sc, "a.php", digests) == None;
    assert ["a.php", "c.php"][..1] == ["a.php"];
    assert ["a.php"][..0] == [];
  }

  /** Whether an error survives outside strict mode: it does unless it is a listed soft-change file. */
  predicate KeptOutsideStrict(sc: Scope, e: VerificationError) {
    !(e.file in sc.manifest && IsSoftChangeFile(e.file))
  }

  function KeepOutsideStrict(sc: Scope, es: seq<VerificationError>): seq<VerificationError>
    decreases |es|
  {
    if es == [] then []
    else KeepOutsideStrict(sc, es[..|es| - 1]) + (if KeptOutsideStrict(sc, es[|es| - 1]) then [es[|es| - 1]] else [])
  }

  /**
   * Strict mode only adds soft-change errors: without it, the errors are
   * exactly the strict-mode errors less those on listed soft-change files.
   */
  lemma {:induction false} StrictOnlyAddsSoftChanges(sc: Scope, files: seq<string>, digests: Digests)
    ensures FileErrors(sc.(strict := false), files, digests) ==
            KeepOutsideStrict(sc, FileErrors(sc.(strict := true), files, digests))
    decreases |files|
  {
    if files != [] {
      var init, last := files[..|files| - 1], files[|files| - 1];
      var lax, strict := sc.(strict := false), sc.(strict := true);
      StrictOnlyAddsSoftChanges(sc, init, digests);
      var es := FileErrors(strict, init, digests);
      var tail := OptionToSeq(FileError(strict, last, digests));
      KeepAppend(sc, es, tail);
      assert KeepOutsideStrict(sc, tail) == OptionToSeq(FileError(lax, last, digests));
    }
  }

  /** Dropping the soft-change errors distributes over appending error lists. */
  lemma {:induction false} KeepAppend(sc: Scope, xs: seq<VerificationError>, ys: seq<VerificationError>)
    ensures KeepOutsideStrict(sc, xs + ys) == KeepOutsideStrict(sc, xs) + KeepOutsideStrict(sc, ys)
    decreases |ys|
  {
    if ys == [] {
      assert xs + ys == xs;
    } else {
      var init, last := ys[..|ys| - 1], ys[|ys| - 1];
      var keep := if KeptOutsideStrict(sc, last) then [last] else [];
      assert (xs + ys)[..|xs + ys| - 1] == xs + init;
      assert (xs + ys)[|xs + ys| - 1] == last;
      KeepAppend(sc, xs, init);
      calc {
        KeepOutsideStrict(sc, xs + ys);
        KeepOutsideStrict(sc, xs + init) + keep;
        KeepOutsideStrict(sc, xs) + KeepOutsideStrict(sc, init) + keep;
        KeepOutsideStrict(sc, xs) + (KeepOutsideStrict(sc, init) + keep);
        KeepOutsideStrict(sc, xs) + KeepOutsideStrict(sc, ys);
      }
    }
  }
}
