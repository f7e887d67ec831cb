/**
 * The PHP string builtins the checksum command depends on, modelled on
 * `string` (a sequence of characters): `empty()`, `rtrim`, `dirname`,
 * `basename`, `strtolower` and `explode`.
 */
module PhpStrings {

  /** PHP's `empty()` on a string: both `""` and `"0"` are empty. */
  predicate Empty(s: string)
    ensures Empty(s) <==> |s| <= 1 && forall i | 0 <= i < |s| :: s[i] == '0'
  {
    s == "" || s == "0"
  }

  /** `rtrim($s, $cs)`: `s` without its trailing characters drawn from `cs`. */
  function TrimEnd(s: string, cs: set<char>): (r: string)
    ensures r <= s
    ensures r == "" || r[|r| - 1] !in cs
    ensures forall i | |r| <= i < |s| :: s[i] in cs
    decreases |s|
  {
    if s != "" && s[|s| - 1] in cs then TrimEnd(s[..|s| - 1], cs) else s
  }

  /** `s` without its last path component: everything after the last `/` goes. */
  function DropName(s: string): (r: string)
    ensures r <= s
    ensures r == "" || r[|r| - 1] == '/'
    ensures forall i | |r| <= i < |s| :: s[i] != '/'
    decreases |s|
  {
    if s != "" && s[|s| - 1] != '/' then DropName(s[..|s| - 1]) else s
  }

  /**
   * PHP `dirname($p)` on POSIX: trailing slashes are ignored, the last
   * component and the slashes before it are removed; a path without a slash
   * gives ".", a path of slashes gives "/", and "" stays "".
   */
  function Dirname(p: string): (r: string)
    ensures r == "" <==> p == ""
    ensures r == "." || r <= p
  {
    if p == "" then ""
    else
      var a := TrimEnd(p, {'/'});
      if a == "" then "/"
      else
        var b := DropName(a);
        if b == "" then "."
        else
          var c := TrimEnd(b, {'/'});
          if c == "" then "/" else c
  }

  /** A non-empty path without any slash lies in the directory ".". */
  lemma DirnameOfSlashFree(p: string)
    requires p != "" && '/' !in p
    ensures Dirname(p) == "."
  {
    assert TrimEnd(p, {'/'}) == p;
  }

  /** The directory of `d/f` is `d`, when `f` is one component and `d` has no trailing slash. */
  lemma DirnameOfJoin(d: string, f: string)
    requires d != "" && d[|d| - 1] != '/'
    requires f != "" && '/' !in f
    ensures Dirname(d + "/" + f) == d
  {
    var p := d + "/" + f;
    assert p[|p| - 1] == f[|f| - 1];
    assert TrimEnd(p, {'/'}) == p;
    var b := DropName(p);
    assert p[|d|] == '/';
    assert b == d + "/";
    var c := TrimEnd(b, {'/'});
    assert c == d;
  }

  /**
   * PHP `basename($p, $suffix)`: the last component of `p`, trailing slashes
   * ignored, with `suffix` removed when the component ends with it and is
   * longer than it.
   */
  function Basename(p: string, suffix: string): (r: string)
    ensures '/' !in r
  {
    var t := TrimEnd(p, {'/'});
    var name := t[|DropName(t)|..];
    assert forall i | 0 <= i < |name| :: name[i] == t[|DropName(t)| + i];
    if |suffix| < |name| && name[|name| - |suffix|..] == suffix
    then name[..|name| - |suffix|]
    else name
  }

  /** A path without a slash is its own basename. */
  lemma BasenameOfSlashFree(p: string)
    requires '/' !in p
    ensures Basename(p, "") == p
  {
    if p != "" {
      assert TrimEnd(p, {'/'}) == p;
    }
  }

  /** `basename("n.php", ".php")` is `n` for a non-empty, slash-free `n`. */
  lemma BasenameStripsSuffix(n: string, suffix: string)
    requires n != "" && '/' !in n && '/' !in suffix
    ensures Basename(n + suffix, suffix) == n
  {
    var p := n + suffix;
    assert '/' !in p by {
      forall i | 0 <= i < |p| ensures p[i] != '/' {
        if i < |n| { assert p[i] == n[i]; } else { assert p[i] == suffix[i - |n|]; }
      }
    }
    BasenameOfSlashFree(p);
    assert p[|p| - |suffix|..] == suffix;
    assert p[..|p| - |suffix|] == n;
  }

  /** On a slash-free path, `basename` either strips the suffix or returns the path itself. */
  lemma BasenameOfSlashFreeCases(p: string, suffix: string)
    requires '/' !in p
    ensures Basename(p, suffix) == p || Basename(p, suffix) + suffix == p
  {
    assert TrimEnd(p, {'/'}) == p;
    assert DropName(p) == "";
    var r := Basename(p, suffix);
    if r != p {
      assert p[|p| - |suffix|..] == suffix;
      assert r == p[..|p| - |suffix|];
      assert r + suffix == p;
    }
  }

  /** `strtolower` on one character: only the ASCII capitals change. */
  function LowerChar(c: char): char {
    if 'A' <= c <= 'Z' then (c as int + 32) as char else c
  }

  /** PHP `strtolower`, which since PHP 8.2 folds ASCII letters only. */
  function ToLower(s: string): (r: string)
    ensures |r| == |s|
    ensures forall i | 0 <= i < |s| :: r[i] == LowerChar(s[i])
    decreases |s|
  {
    if s == "" then "" else ToLower(s[..|s| - 1]) + [LowerChar(s[|s| - 1])]
  }

  /** Lower-casing twice is lower-casing once. */
  lemma ToLowerIdempotent(s: string)
    ensures ToLower(ToLower(s)) == ToLower(s)
  {
    var t := ToLower(s);
    assert forall i | 0 <= i < |t| :: ToLower(t)[i] == t[i];
  }

  /** Lower-casing neither adds nor removes a slash. */
  lemma ToLowerKeepsSlashes(s: string)
    ensures '/' in ToLower(s) <==> '/' in s
  {
    var t := ToLower(s);
    if '/' in t {
      var i :| 0 <= i < |t| && t[i] == '/';
      assert s[i] == '/';
    }
    if '/' in s {
      var i :| 0 <= i < |s| && s[i] == '/';
      assert t[i] == '/';
    }
  }

  /** Index of the first `c` in `s`. */
  function IndexOf(s: string, c: char): (i: nat)
    requires c in s
    ensures i < |s| && s[i] == c && c !in s[..i]
  {
    if s[0] == c then 0
    else
      var j := IndexOf(s[1..], c);
      assert s[1..][..j] == s[1..j + 1];
      1 + j
  }

  /** PHP `explode($sep, $s)` for a one-character separator: never empty. */
  function Explode(s: string, sep: char): (parts: seq<string>)
    ensures |parts| >= 1
    ensures forall k | 0 <= k < |parts| :: sep !in parts[k]
    decreases |s|
  {
    if sep !in s then [s]
    else
      var i := IndexOf(s, sep);
      [s[..i]] + Explode(s[i + 1..], sep)
  }

  /** PHP `implode($sep, $parts)`, the inverse of `Explode`. */
  function Implode(parts: seq<string>, sep: char): string
    decreases |parts|
  {
    if parts == [] then ""
    else if |parts| == 1 then parts[0]
    else parts[0] + [sep] + Implode(parts[1..], sep)
  }

  /** Joining the pieces of an explode gives the original string back. */
  lemma {:induction false} ImplodeExplode(s: string, sep: char)
    ensures Implode(Explode(s, sep), sep) == s
    decreases |s|
  {
    if sep in s {
      var i := IndexOf(s, sep);
      var rest := Explode(s[i + 1..], sep);
      ImplodeExplode(s[i + 1..], sep);
      assert Explode(s, sep) == [s[..i]] + rest;
      assert ([s[..i]] + rest)[1..] == rest;
      assert s == s[..i] + [sep] + s[i + 1..];
    }
  }

  /** The first separator in `head + [sep] + tail` is the one after `head`, when `head` has none. */
  lemma IndexOfAfter(head: string, sep: char, tail: string)
    requires sep !in head
    ensures IndexOf(head + [sep] + tail, sep) == |head|
  {
    var s := head + [sep] + tail;
    assert s[|head|] == sep;
    assert s[..|head|] == head;
  }

  /** Exploding a join of separator-free pieces gives the pieces back. */
  lemma {:induction false} ExplodeImplode(parts: seq<string>, sep: char)
    requires |parts| >= 1
    requires forall k | 0 <= k < |parts| :: sep !in parts[k]
    ensures Explode(Implode(parts, sep), sep) == parts
    decreases |parts|
  {
    if |parts| > 1 {
      var head, tail := parts[0], Implode(parts[1..], sep);
      var s := head + [sep] + tail;
      assert Implode(parts, sep) == s;
      assert s[|head|] == sep;
      IndexOfAfter(head, sep, tail);
      assert s[..|head|] == head;
      assert s[|head| + 1..] == tail;
      assert Explode(s, sep) == [head] + Explode(tail, sep);
      ExplodeImplode(parts[1..], sep);
      assert parts == [head] + parts[1..];
    }
  }
}
