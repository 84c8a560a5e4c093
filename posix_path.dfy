/**
 * The three functions of Python's `posixpath` module that the deployment
 * script uses to derive remote paths: `basename`, `dirname` and `splitext`,
 * on paths whose only separator is '/' and whose extension separator is '.'.
 * Each function is defined as Python computes it; the lemmas below state
 * what it returns.
 */
module PosixPath {

  /** Index of the last `c` in `p`, or -1 when there is none (Python's `str.rfind`). */
  function RFind(p: string, c: char): (i: int)
    ensures -1 <= i < |p|
  {
    if p == [] then -1
    else if p[|p| - 1] == c then |p| - 1
    else RFind(p[..|p| - 1], c)
  }

  /** `basename`: everything after the last '/'. */
  function Basename(p: string): string
  {
    p[RFind(p, '/') + 1..]
  }

  predicate AllSlashes(s: string)
  {
    forall i :: 0 <= i < |s| ==> s[i] == '/'
  }

  /** `s.rstrip('/')`. */
  function RStripSlashes(s: string): (r: string)
    ensures |r| <= |s|
  {
    if s != [] && s[|s| - 1] == '/' then RStripSlashes(s[..|s| - 1]) else s
  }

  /**
   * `dirname`: everything up to the last '/', with the trailing slashes
   * removed unless that would leave nothing but slashes.
   */
  function Dirname(p: string): string
  {
    var head := p[..RFind(p, '/') + 1];
    if head != [] && !AllSlashes(head) then RStripSlashes(head) else head
  }

  /**
   * `splitext`: splits at the last '.' of the last path component, unless
   * every character of the component before that dot is itself a dot
   * (a leading-dot name such as ".bashrc" has no extension).
   */
  function Splitext(p: string): (string, string)
  {
    var sep := RFind(p, '/');
    var dot := RFind(p, '.');
    if sep < dot && exists j :: sep < j < dot && p[j] != '.' then
      (p[..dot], p[dot..])
    else
      (p, [])
  }

  // ---------------------------------------------------------------------
  // What each function returns

  /** `RFind` finds the last occurrence, and reports -1 only when there is none. */
  lemma {:induction false} RFindLast(p: string, c: char)
    ensures RFind(p, c) >= 0 ==> p[RFind(p, c)] == c
    ensures forall j :: RFind(p, c) < j < |p| ==> p[j] != c
    decreases |p|
  {
    if p != [] && p[|p| - 1] != c {
      RFindLast(p[..|p| - 1], c);
    }
  }

  /** The base name is the longest suffix without a '/'. */
  lemma {:induction false} BasenameIsLastComponent(p: string)
    ensures var r := Basename(p);
      && '/' !in r
      && |r| <= |p| && p == p[..|p| - |r|] + r
      && (|r| < |p| ==> p[|p| - |r| - 1] == '/')
  {
    RFindLast(p, '/');
    var k := RFind(p, '/') + 1;
    assert Basename(p) == p[k..];
    SuffixWithout(p, k, '/');
    assert p == p[..k] + p[k..];
  }

  /** A suffix in which no position holds `c` does not contain `c`. */
  lemma {:induction false} SuffixWithout(p: string, k: nat, c: char)
    requires k <= |p| && forall j :: k <= j < |p| ==> p[j] != c
    ensures c !in p[k..]
  {
    forall i | 0 <= i < |p| - k ensures p[k..][i] != c {
      assert p[k..][i] == p[k + i];
    }
  }

  /** Stripping keeps a prefix ending in something other than '/', and removes only slashes. */
  lemma {:induction false} RStripSlashesSpec(s: string)
    ensures var r := RStripSlashes(s);
      && r == s[..|r|]
      && (r == [] || r[|r| - 1] != '/')
      && (forall i :: |r| <= i < |s| ==> s[i] == '/')
    decreases |s|
  {
    if s != [] && s[|s| - 1] == '/' {
      RStripSlashesSpec(s[..|s| - 1]);
    }
  }

  /**
   * The directory part is a prefix of the path that stops before the base
   * name; only slashes lie between the two; it is empty exactly when the
   * path has no '/'; it ends in a '/' only when it is all slashes; and when
   * everything before the base name is slashes, all of them are kept.
   */
  lemma {:induction false} DirnameSpec(p: string)
    ensures var r := Dirname(p);
      && |r| <= |p| - |Basename(p)| && r == p[..|r|]
      && (r == [] <==> '/' !in p)
      && (forall i :: |r| <= i < |p| - |Basename(p)| ==> p[i] == '/')
      && (AllSlashes(r) || r[|r| - 1] != '/')
      && (AllSlashes(p[..|p| - |Basename(p)|]) ==> r == p[..|p| - |Basename(p)|])
  {
    RFindLast(p, '/');
    var k := RFind(p, '/') + 1;
    assert |Basename(p)| == |p| - k;
    var head := p[..k];
    if head != [] && !AllSlashes(head) {
      RStripSlashesSpec(head);
      var r := RStripSlashes(head);
      assert r != [] by {
        var i :| 0 <= i < |head| && head[i] != '/';
        assert i < |r|;
      }
    } else {
      assert head == [] ==> '/' !in p;
    }
  }

  /**
   * The two parts concatenate to the path; a non-empty extension is one
   * '.' followed by neither '.' nor '/', and some character of the last
   * component before it is not a dot; and whenever the last '.' of the
   * path lies in its last component after some non-dot character, the
   * split happens at that '.'.
   */
  lemma {:induction false} SplitextSpec(p: string)
    ensures var r := Splitext(p);
      && r.0 + r.1 == p
      && (r.1 == [] || (r.1[0] == '.' && '.' !in r.1[1..] && '/' !in r.1))
      && (r.1 != [] ==> exists j :: RFind(p, '/') < j < |r.0| && p[j] != '.')
      && (RFind(p, '/') < RFind(p, '.') && (exists j :: RFind(p, '/') < j < RFind(p, '.') && p[j] != '.') ==>
            r == (p[..RFind(p, '.')], p[RFind(p, '.')..]))
  {
    RFindLast(p, '/');
    RFindLast(p, '.');
    var dot := RFind(p, '.');
    if Splitext(p).1 != [] {
      var e := p[dot..];
      assert '.' !in e[1..] by {
        forall i | 0 <= i < |e| - 1 ensures e[1..][i] != '.' {
          assert e[1..][i] == p[dot + 1 + i];
        }
      }
      assert '/' !in e by {
        forall i | 0 <= i < |e| ensures e[i] != '/' {
          assert e[i] == p[dot + i];
        }
      }
    }
  }

  // ---------------------------------------------------------------------
  // Joined paths

  /** The last '/' of `d + "/" + f` is the one that was joined, when `f` has none. */
  lemma {:induction false} RFindOfJoin(d: string, f: string)
    requires '/' !in f
    ensures RFind(d + "/" + f, '/') == |d|
  {
    var p := d + "/" + f;
    RFindLast(p, '/');
    assert p[|d|] == '/';
  }

  lemma {:induction false} BasenameOfJoin(d: string, f: string)
    requires '/' !in f
    ensures Basename(d + "/" + f) == f
  {
    RFindOfJoin(d, f);
    assert (d + "/" + f)[|d| + 1..] == f;
  }

  /** Joining a file name onto a directory that does not end in '/' and taking `dirname` gives the directory back. */
  lemma {:induction false} DirnameOfJoin(d: string, f: string)
    requires '/' !in f
    requires d != [] && d[|d| - 1] != '/'
    ensures Dirname(d + "/" + f) == d
  {
    var p := d + "/" + f;
    RFindOfJoin(d, f);
    var head := p[..|d| + 1];
    assert head == d + "/";
    assert !AllSlashes(head) by { assert head[|d| - 1] != '/'; }
    assert head[..|head| - 1] == d;
    assert RStripSlashes(head) == RStripSlashes(d);
  }

  /** A path without '/' is its own base name and has an empty directory. */
  lemma {:induction false} NoSlash(p: string)
    requires '/' !in p
    ensures Basename(p) == p && Dirname(p) == []
  {
    assert RFind(p, '/') == -1 by {
      RFindLast(p, '/');
    }
    assert p[0..] == p && p[..0] == [];
  }

  /** A leading-dot-free name with one final extension splits at that extension. */
  lemma {:induction false} SplitextOfName(stem: string, e: string)
    requires '/' !in stem && '/' !in e && '.' !in e
    requires stem != [] && stem[0] != '.'
    ensures Splitext(stem + "." + e) == (stem, "." + e)
  {
    var p := stem + "." + e;
    RFindLast(p, '/');
    RFindLast(p, '.');
    assert '/' !in p;
    var dot := RFind(p, '.');
    assert p[|stem|] == '.';
    assert dot == |stem|;
    assert p[0] == stem[0];
    assert p[..dot] == stem && p[dot..] == "." + e;
  }
}
