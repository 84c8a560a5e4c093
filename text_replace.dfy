/**
 * Python's `str.find`, `str.count` and `str.replace` (with and without a
 * count of 1), as the deployment script uses them to rename the theme in
 * the text it uploads. `replace` and `count` scan left to right and never
 * let two matches overlap.
 */
module TextReplace {
  import opened Options

  /** `pat` occurs in `s` starting at index `i`. */
  predicate OccursAt(s: string, pat: string, i: int)
  {
    0 <= i && i + |pat| <= |s| && s[i..i + |pat|] == pat
  }

  predicate Contains(s: string, pat: string)
  {
    exists i | 0 <= i <= |s| :: OccursAt(s, pat, i)
  }

  /** The first character of `b` occurs nowhere else in `b`. */
  predicate HeadUnique(b: string)
  {
    b != [] && forall i :: 0 < i < |b| ==> b[i] != b[0]
  }

  /** `s.find(pat)`: the leftmost occurrence, if any (see `FindLeftmost`). */
  function Find(s: string, pat: string): (r: Option<nat>)
    ensures r.Some? ==> r.value + |pat| <= |s|
    decreases |s|
  {
    if |s| < |pat| then None
    else if s[..|pat|] == pat then Some(0)
    else
      match Find(s[1..], pat)
      case None => None
      case Some(i) => Some(i + 1)
  }

  /** `s.count(pat)`: the number of matches of a left-to-right, non-overlapping scan. */
  function Count(s: string, pat: string): nat
    requires pat != []
    decreases |s|
  {
    if |s| < |pat| then 0
    else if s[..|pat|] == pat then 1 + Count(s[|pat|..], pat)
    else Count(s[1..], pat)
  }

  /** `s.replace(pat, rep)`: every match of the same scan as `Count` is replaced. */
  function ReplaceAll(s: string, pat: string, rep: string): string
    requires pat != []
    decreases |s|
  {
    if |s| < |pat| then s
    else if s[..|pat|] == pat then rep + ReplaceAll(s[|pat|..], pat, rep)
    else [s[0]] + ReplaceAll(s[1..], pat, rep)
  }

  /** `s.replace(pat, rep, 1)`: only the leftmost occurrence is replaced. */
  function ReplaceFirst(s: string, pat: string, rep: string): string
  {
    match Find(s, pat)
    case None => s
    case Some(m) => s[..m] + rep + s[m + |pat|..]
  }

  // ---------------------------------------------------------------------
  // Occurrences

  /** Occurrences in `s[1..]` are the occurrences in `s` past index 0, shifted by one. */
  lemma {:induction false} OccursShift(s: string, pat: string)
    requires s != []
    ensures forall i :: 1 <= i ==> (OccursAt(s, pat, i) <==> OccursAt(s[1..], pat, i - 1))
  {
    forall i | 1 <= i
      ensures OccursAt(s, pat, i) <==> OccursAt(s[1..], pat, i - 1)
    {
      if i + |pat| <= |s| {
        assert s[1..][i - 1..i - 1 + |pat|] == s[i..i + |pat|];
      }
    }
  }

  /** Without a match at index 0, `s` and `s[1..]` contain the same patterns. */
  lemma {:induction false} ContainsShift(s: string, pat: string)
    requires s != [] && !OccursAt(s, pat, 0)
    ensures Contains(s, pat) <==> Contains(s[1..], pat)
  {
    OccursShift(s, pat);
    if Contains(s, pat) {
      var i :| 0 <= i <= |s| && OccursAt(s, pat, i);
      assert OccursAt(s[1..], pat, i - 1);
    }
    if Contains(s[1..], pat) {
      var i :| 0 <= i <= |s[1..]| && OccursAt(s[1..], pat, i);
      assert OccursAt(s, pat, i + 1);
    }
  }

  /** An occurrence in a suffix is an occurrence in the whole text. */
  lemma {:induction false} ContainsOfSuffix(s: string, pat: string, k: nat)
    requires k <= |s|
    ensures Contains(s[k..], pat) ==> Contains(s, pat)
  {
    if Contains(s[k..], pat) {
      var i :| 0 <= i <= |s[k..]| && OccursAt(s[k..], pat, i);
      assert s[k..][i..i + |pat|] == s[i + k..i + k + |pat|];
      assert OccursAt(s, pat, i + k);
    }
  }

  /** A text shorter than the pattern does not contain it. */
  lemma {:induction false} ShortNotContains(s: string, pat: string)
    requires |s| < |pat|
    ensures !Contains(s, pat)
  {
  }

  /** `Find` reports the leftmost occurrence, and reports none exactly when there is none. */
  lemma {:induction false} FindLeftmost(s: string, pat: string)
    ensures Find(s, pat).Some? ==> OccursAt(s, pat, Find(s, pat).value)
    ensures Find(s, pat).Some? ==> forall j :: 0 <= j < Find(s, pat).value ==> !OccursAt(s, pat, j)
    ensures Find(s, pat).None? <==> !Contains(s, pat)
    decreases |s|
  {
    if |s| < |pat| {
      ShortNotContains(s, pat);
    } else if s[..|pat|] == pat {
      assert OccursAt(s, pat, 0);
    } else {
      FindLeftmost(s[1..], pat);
      OccursShift(s, pat);
      ContainsShift(s, pat);
    }
  }

  /** The scan counts at least one match exactly when the pattern occurs. */
  lemma {:induction false} CountPositive(s: string, pat: string)
    requires pat != []
    ensures Count(s, pat) > 0 <==> Contains(s, pat)
    decreases |s|
  {
    if |s| < |pat| {
      ShortNotContains(s, pat);
    } else if s[..|pat|] == pat {
      assert OccursAt(s, pat, 0);
    } else {
      CountPositive(s[1..], pat);
      ContainsShift(s, pat);
    }
  }

  // ---------------------------------------------------------------------
  // One step of the scan

  /** Without a match at the front, the scan copies the first character. */
  lemma {:induction false} ReplaceAllCons(y: string, pat: string, rep: string)
    requires pat != [] && y != [] && !OccursAt(y, pat, 0)
    ensures ReplaceAll(y, pat, rep) == [y[0]] + ReplaceAll(y[1..], pat, rep)
  {
    if |y| < |pat| {
      assert [y[0]] + y[1..] == y;
    }
  }

  /** A match at the front is replaced and the scan resumes after it. */
  lemma {:induction false} ReplaceAllAtMatch(pat: string, x: string, rep: string)
    requires pat != []
    ensures ReplaceAll(pat + x, pat, rep) == rep + ReplaceAll(x, pat, rep)
  {
    assert (pat + x)[..|pat|] == pat && (pat + x)[|pat|..] == x;
  }

  lemma {:induction false} CountCons(y: string, pat: string)
    requires pat != [] && y != [] && !OccursAt(y, pat, 0)
    ensures Count(y, pat) == Count(y[1..], pat)
  {
  }

  lemma {:induction false} CountAtMatch(pat: string, x: string)
    requires pat != []
    ensures Count(pat + x, pat) == 1 + Count(x, pat)
  {
    assert (pat + x)[..|pat|] == pat && (pat + x)[|pat|..] == x;
  }

  lemma {:induction false} ConsPrefix(s: string, m: nat)
    requires m < |s|
    ensures [s[0]] + s[1..][..m] == s[..m + 1]
  {
  }

  lemma {:induction false} ConsAssoc(x: char, a: string, r: string, z: string)
    ensures [x] + (a + r + z) == ([x] + a) + r + z
  {
  }

  // ---------------------------------------------------------------------
  // Replace-all as repeated replace-first

  /** With no match, replace-all changes nothing. */
  lemma {:induction false} ReplaceAllNoMatch(s: string, pat: string, rep: string)
    requires pat != [] && Find(s, pat).None?
    ensures ReplaceAll(s, pat, rep) == s
    decreases |s|
  {
    if |s| >= |pat| {
      ReplaceAllNoMatch(s[1..], pat, rep);
      assert [s[0]] + s[1..] == s;
    }
  }

  /** The scan's first match is the leftmost occurrence; everything before it is copied unchanged. */
  lemma {:induction false} ReplaceAllAtFirst(s: string, pat: string, rep: string, m: nat)
    requires pat != [] && Find(s, pat) == Some(m)
    ensures ReplaceAll(s, pat, rep) == s[..m] + rep + ReplaceAll(s[m + |pat|..], pat, rep)
    decreases |s|
  {
    if s[..|pat|] == pat {
      assert s[..0] == [];
      return;
    }
    var t := s[1..];
    var tail := ReplaceAll(s[m + |pat|..], pat, rep);
    assert ReplaceAll(s, pat, rep) == [s[0]] + ReplaceAll(t, pat, rep) by {
      ReplaceAllCons(s, pat, rep);
    }
    assert ReplaceAll(t, pat, rep) == t[..m - 1] + rep + tail by {
      assert Find(t, pat) == Some(m - 1);
      ReplaceAllAtFirst(t, pat, rep, m - 1);
      assert t[m - 1 + |pat|..] == s[m + |pat|..];
    }
    ConsAssoc(s[0], t[..m - 1], rep, tail);
    ConsPrefix(s, m - 1);
  }

  /** A text without the pattern is left unchanged by replace-all. */
  lemma {:induction false} ReplaceAllAbsent(s: string, pat: string, rep: string)
    requires pat != [] && !Contains(s, pat)
    ensures ReplaceAll(s, pat, rep) == s
  {
    FindLeftmost(s, pat);
    ReplaceAllNoMatch(s, pat, rep);
  }

  lemma {:induction false} CountAtFirst(s: string, pat: string, m: nat)
    requires pat != [] && Find(s, pat) == Some(m)
    ensures Count(s, pat) == 1 + Count(s[m + |pat|..], pat)
    decreases |s|
  {
    if s[..|pat|] != pat {
      var t := s[1..];
      assert Count(s, pat) == Count(t, pat) by {
        CountCons(s, pat);
      }
      assert Count(t, pat) == 1 + Count(s[m + |pat|..], pat) by {
        assert Find(t, pat) == Some(m - 1);
        CountAtFirst(t, pat, m - 1);
        assert t[m - 1 + |pat|..] == s[m + |pat|..];
      }
    }
  }

  /** With at most one match, replacing the first occurrence and replacing all of them agree. */
  lemma {:induction false} ReplaceFirstAgreesWithAll(s: string, pat: string, rep: string)
    requires pat != [] && Count(s, pat) <= 1
    ensures ReplaceFirst(s, pat, rep) == ReplaceAll(s, pat, rep)
  {
    match Find(s, pat)
    case None =>
      ReplaceAllNoMatch(s, pat, rep);
    case Some(m) =>
      var rest := s[m + |pat|..];
      assert ReplaceAll(rest, pat, rep) == rest by {
        CountAtFirst(s, pat, m);
        CountPositive(rest, pat);
        ReplaceAllAbsent(rest, pat, rep);
      }
      ReplaceFirstAgreesAt(s, pat, rep, m);
  }

  /** When nothing after the first match is rewritten, replace-first and replace-all agree. */
  lemma {:induction false} ReplaceFirstAgreesAt(s: string, pat: string, rep: string, m: nat)
    requires pat != [] && Find(s, pat) == Some(m)
    requires ReplaceAll(s[m + |pat|..], pat, rep) == s[m + |pat|..]
    ensures ReplaceFirst(s, pat, rep) == ReplaceAll(s, pat, rep)
  {
    ReplaceAllAtFirst(s, pat, rep, m);
  }

  /** Replace-first rewrites exactly the leftmost occurrence and keeps the text around it; without one it changes nothing. */
  lemma {:induction false} ReplaceFirstAtLeftmost(s: string, pat: string, rep: string)
    ensures !Contains(s, pat) ==> ReplaceFirst(s, pat, rep) == s
    ensures Contains(s, pat) ==> exists m :: (OccursAt(s, pat, m)
      && (forall j :: 0 <= j < m ==> !OccursAt(s, pat, j))
      && ReplaceFirst(s, pat, rep) == s[..m] + rep + s[m + |pat|..])
  {
    FindLeftmost(s, pat);
    if Contains(s, pat) {
      var m := Find(s, pat).value;
      assert OccursAt(s, pat, m);
    }
  }

  /** Replace-first changes the length by `|rep| - |pat|` when the pattern occurs. */
  lemma {:induction false} ReplaceFirstLength(s: string, pat: string, rep: string)
    ensures |ReplaceFirst(s, pat, rep)| == if Contains(s, pat) then |s| + |rep| - |pat| else |s|
  {
    FindLeftmost(s, pat);
  }

  /** Distributes one product; kept apart so that the nonlinear step is proved without the context of its caller. */
  lemma {:induction false} MulStep(c: int, d: int)
    ensures (1 + c) * d == d + c * d
  {
  }

  /** Each match changes the length by `|rep| - |pat|`. */
  lemma {:induction false} ReplaceAllLength(s: string, pat: string, rep: string)
    requires pat != []
    ensures |ReplaceAll(s, pat, rep)| == |s| + Count(s, pat) * (|rep| - |pat|)
    decreases |s|
  {
    if |s| < |pat| {
    } else if s[..|pat|] == pat {
      ReplaceAllLength(s[|pat|..], pat, rep);
      MulStep(Count(s[|pat|..], pat), |rep| - |pat|);
    } else {
      ReplaceAllLength(s[1..], pat, rep);
    }
  }

  // ---------------------------------------------------------------------
  // Renaming back and forth

  /**
   * When `b` starts with a character found nowhere else in `b` and the text
   * holds no `b`, a text character followed by the rewritten rest never
   * starts a fresh `b`.
   */
  lemma {:induction false} NoMatchAcrossBoundary(c: string, a: string, b: string)
    requires a != [] && HeadUnique(b) && !Contains(c, b) && c != []
    ensures !OccursAt([c[0]] + ReplaceAll(c[1..], a, b), b, 0)
  {
    var c' := c[1..];
    var y := [c[0]] + ReplaceAll(c', a, b);
    assert !OccursAt(c, b, 0);
    match Find(c', a)
    case None =>
      ReplaceAllNoMatch(c', a, b);
      assert y == c;
    case Some(m) =>
      var z := ReplaceAll(c'[m + |a|..], a, b);
      ReplaceAllAtFirst(c', a, b, m);
      ConsAssoc(c[0], c'[..m], b, z);
      ConsPrefix(c, m);
      assert y == c[..m + 1] + b + z;
      NoMatchBeforeInsert(c, m + 1, b, z);
  }

  /**
   * A `b` inserted after a non-empty prefix of a text that does not start
   * with `b` does not make the result start with `b`, when `b`'s first
   * character is unique in it.
   */
  lemma {:induction false} NoMatchBeforeInsert(c: string, k: nat, b: string, z: string)
    requires 0 < k <= |c| && HeadUnique(b) && !OccursAt(c, b, 0)
    ensures !OccursAt(c[..k] + b + z, b, 0)
  {
    var y := c[..k] + b + z;
    if |b| <= |y| {
      if k >= |b| {
        assert y[..|b|] == c[..|b|];
      } else {
        assert y[k] == b[0];
      }
    }
  }

  /** Renaming `a` to `b` and then `b` back to `a` restores a text that held no `b`. */
  lemma {:induction false} ReplaceAllRoundTrip(c: string, a: string, b: string)
    requires a != [] && HeadUnique(b) && !Contains(c, b)
    ensures ReplaceAll(ReplaceAll(c, a, b), b, a) == c
    decreases |c|
  {
    if |c| < |a| {
      ReplaceAllAbsent(c, b, a);
    } else if c[..|a|] == a {
      var x := ReplaceAll(c[|a|..], a, b);
      ContainsOfSuffix(c, b, |a|);
      ReplaceAllRoundTrip(c[|a|..], a, b);
      ReplaceAllAtMatch(b, x, a);
      assert a + c[|a|..] == c;
    } else {
      var x := ReplaceAll(c[1..], a, b);
      ContainsOfSuffix(c, b, 1);
      ReplaceAllRoundTrip(c[1..], a, b);
      NoMatchAcrossBoundary(c, a, b);
      var y := [c[0]] + x;
      ReplaceAllCons(y, b, a);
      assert y[1..] == x;
      assert [c[0]] + c[1..] == c;
    }
  }

  /** Renaming `a` to `b` in a text without `b` yields exactly as many `b`s as there were `a`s. */
  lemma {:induction false} ReplaceAllCountsRenamed(c: string, a: string, b: string)
    requires a != [] && HeadUnique(b) && !Contains(c, b)
    ensures Count(ReplaceAll(c, a, b), b) == Count(c, a)
    decreases |c|
  {
    if |c| < |a| {
      ShortNotContains(c, a);
      CountPositive(c, b);
    } else if c[..|a|] == a {
      var x := ReplaceAll(c[|a|..], a, b);
      ContainsOfSuffix(c, b, |a|);
      ReplaceAllCountsRenamed(c[|a|..], a, b);
      CountAtMatch(b, x);
    } else {
      var x := ReplaceAll(c[1..], a, b);
      ContainsOfSuffix(c, b, 1);
      ReplaceAllCountsRenamed(c[1..], a, b);
      NoMatchAcrossBoundary(c, a, b);
      var y := [c[0]] + x;
      CountCons(y, b);
      assert y[1..] == x;
    }
  }

  /** A prefix of the middle part of a concatenation occurs where that part starts. */
  lemma {:induction false} OccursInJoin(p: string, b: string, z: string, a: string)
    requires |a| <= |b| && b[..|a|] == a
    ensures OccursAt(p + b + z, a, |p|)
  {
    assert (p + b + z)[|p|..|p| + |a|] == b[..|a|];
  }

  /** The sign of a product; kept apart so that the nonlinear step is proved without the context of its caller. */
  lemma {:induction false} ProductPositive(k: int, d: int)
    requires k > 0 && d > 0
    ensures k * d > 0
  {
  }

  /** Replacing occurrences with a longer text makes a text that holds one longer. */
  lemma {:induction false} ReplaceAllGrows(t: string, a: string, b: string)
    requires a != [] && |a| < |b| && Contains(t, a)
    ensures |ReplaceAll(t, a, b)| > |t|
  {
    CountPositive(t, a);
    ReplaceAllLength(t, a, b);
    ProductPositive(Count(t, a), |b| - |a|);
  }

  /** When `b` starts with `a`, every text rewritten from one holding `a` still holds `a`. */
  lemma {:induction false} ReplaceAllKeepsPrefix(s: string, a: string, b: string)
    requires a != [] && |a| <= |b| && b[..|a|] == a
    requires Contains(s, a)
    ensures Contains(ReplaceAll(s, a, b), a)
  {
    FindLeftmost(s, a);
    var m := Find(s, a).value;
    ReplaceAllAtFirst(s, a, b, m);
    OccursInJoin(s[..m], b, ReplaceAll(s[m + |a|..], a, b), a);
  }

  /**
   * When `a` is a proper prefix of `b`, renaming `a` to `b` is not idempotent:
   * every inserted `b` holds a fresh `a`, so a second pass grows the text again.
   */
  lemma {:induction false} ReplaceAllNotIdempotent(s: string, a: string, b: string)
    requires a != [] && |a| < |b| && b[..|a|] == a
    requires Contains(s, a)
    ensures ReplaceAll(ReplaceAll(s, a, b), a, b) != ReplaceAll(s, a, b)
    ensures |ReplaceAll(ReplaceAll(s, a, b), a, b)| > |ReplaceAll(s, a, b)|
  {
    ReplaceAllKeepsPrefix(s, a, b);
    ReplaceAllGrows(ReplaceAll(s, a, b), a, b);
  }
}
