/** Optional values: `None` stands for a Java `null`. */
module Wrappers {
  datatype Option<T> = None | Some(value: T)
}

/**
 * String operations shared by the Java classes and the Python scripts:
 * substring search (Java `String.contains`, Python `in`), Python
 * `str.replace`, Java `lastIndexOf`/`indexOf` on a character and the decimal
 * rendering of an integer used by Java string concatenation.
 */
module Text {

  /** A decimal digit, the class `[0-9]` of a regular expression. */
  predicate IsDigit(c: char) {
    '0' <= c <= '9'
  }

  /** `p` occurs in `s` starting at index `i`. */
  predicate OccursAt(s: string, p: string, i: int) {
    0 <= i && i + |p| <= |s| && s[i..i + |p|] == p
  }

  /** `p` occurs somewhere in `s`. */
  ghost predicate Occurs(s: string, p: string) {
    exists i :: OccursAt(s, p, i)
  }

  /**
   * Java `s.contains(p)` and Python `p in s`: a left-to-right scan comparing
   * `p` with `s` at every start position.
   */
  predicate Contains(s: string, p: string) {
    ScanFrom(s, p, 0)
  }

  predicate MatchFrom(s: string, p: string, i: int, j: int)
    requires 0 <= i && 0 <= j
    decreases |p| - j
  {
    if j >= |p| then true
    else if i + j >= |s| then false
    else if s[i + j] != p[j] then false
    else MatchFrom(s, p, i, j + 1)
  }

  predicate ScanFrom(s: string, p: string, i: int)
    requires 0 <= i
    decreases |s| + 1 - i
  {
    if i > |s| then false
    else if MatchFrom(s, p, i, 0) then true
    else ScanFrom(s, p, i + 1)
  }

  lemma {:induction false} MatchFromMeans(s: string, p: string, i: int, j: int)
    requires 0 <= i && 0 <= j <= |p|
    ensures MatchFrom(s, p, i, j) <==>
              (j == |p| || i + |p| <= |s|) && forall k :: j <= k < |p| ==> s[i + k] == p[k]
    decreases |p| - j
  {
    if j < |p| {
      MatchFromMeans(s, p, i, j + 1);
    }
  }

  lemma MatchAtStart(s: string, p: string, i: int)
    requires 0 <= i <= |s|
    ensures MatchFrom(s, p, i, 0) <==> OccursAt(s, p, i)
  {
    MatchFromMeans(s, p, i, 0);
    if MatchFrom(s, p, i, 0) {
      assert s[i..i + |p|] == p;
    }
  }

  lemma {:induction false} ScanFromMeans(s: string, p: string, i: int)
    requires 0 <= i
    ensures ScanFrom(s, p, i) <==> exists j :: i <= j && OccursAt(s, p, j)
    decreases |s| + 1 - i
  {
    if i > |s| {
      assert forall j :: i <= j ==> !OccursAt(s, p, j);
    } else {
      MatchAtStart(s, p, i);
      ScanFromMeans(s, p, i + 1);
      if !OccursAt(s, p, i) {
        assert forall j :: i <= j && OccursAt(s, p, j) ==> i + 1 <= j;
      }
    }
  }

  /** The scan finds `p` exactly when it occurs. */
  lemma ContainsMeans(s: string, p: string)
    ensures Contains(s, p) <==> Occurs(s, p)
  {
    ScanFromMeans(s, p, 0);
  }

  /** A pattern holding a character the text lacks does not occur in it. */
  lemma MissingCharNotContained(s: string, p: string, k: int)
    requires 0 <= k < |p| && p[k] !in s
    ensures !Contains(s, p)
  {
    ContainsMeans(s, p);
    forall i
      ensures !OccursAt(s, p, i)
    {
      if 0 <= i && i + |p| <= |s| {
        assert s[i + k] in s;
        assert s[i..i + |p|][k] != p[k];
      }
    }
  }

  lemma ContainsSelf(s: string, p: string)
    requires s == p
    ensures Contains(s, p)
  {
    ContainsMeans(s, p);
    assert OccursAt(s, p, 0);
  }

  lemma ContainsInMiddle(a: string, p: string, b: string)
    ensures Contains(a + p + b, p)
  {
    ContainsMeans(a + p + b, p);
    assert (a + p + b)[|a|..|a| + |p|] == p;
    assert OccursAt(a + p + b, p, |a|);
  }

  /**
   * When `a` ends with `'_'` and the only `'_'` the pattern may hold is its
   * last character, no occurrence of the pattern straddles the end of `a`.
   */
  lemma ContainsAcrossUnderscore(a: string, b: string, p: string, q: string)
    requires |a| > 0 && a[|a| - 1] == '_'
    requires p == q + "_" || p == q
    requires '_' !in q
    ensures Contains(a + b, p) <==> Contains(a, p) || Contains(b, p)
  {
    var s := a + b;
    ContainsMeans(s, p);
    ContainsMeans(a, p);
    ContainsMeans(b, p);
    if Occurs(s, p) {
      var i :| OccursAt(s, p, i);
      assert forall j :: i <= j < i + |p| - 1 ==> s[j] != '_' by {
        forall j | i <= j < i + |p| - 1
          ensures s[j] != '_'
        {
          assert s[j] == s[i..i + |p|][j - i] == p[j - i] == q[j - i];
        }
      }
      assert s[|a| - 1] == '_';
      assert |a| - 1 < i || |a| - 1 >= i + |p| - 1;
      if i + |p| <= |a| {
        assert s[i..i + |p|] == a[i..i + |p|];
        assert OccursAt(a, p, i);
      } else {
        assert s[i..i + |p|] == b[i - |a|..i - |a| + |p|];
        assert OccursAt(b, p, i - |a|);
      }
    }
    if Occurs(a, p) {
      var i :| OccursAt(a, p, i);
      assert s[i..i + |p|] == a[i..i + |p|];
      assert OccursAt(s, p, i);
    }
    if Occurs(b, p) {
      var i :| OccursAt(b, p, i);
      assert s[|a| + i..|a| + i + |p|] == b[i..i + |p|];
      assert OccursAt(s, p, |a| + i);
    }
  }

  /** Java `s.lastIndexOf(c)`: the last index holding `c`, or -1. */
  function LastIndexOf(s: string, c: char): (r: int)
    ensures -1 <= r < |s|
    ensures r >= 0 ==> s[r] == c
    ensures forall k :: r < k < |s| ==> s[k] != c
  {
    if |s| == 0 then -1
    else if s[|s| - 1] == c then |s| - 1
    else LastIndexOf(s[..|s| - 1], c)
  }

  /** Java `s.indexOf(c)`: the first index holding `c`, or -1. */
  function IndexOf(s: string, c: char): (r: int)
    ensures -1 <= r < |s|
    ensures r >= 0 ==> s[r] == c
    ensures forall k :: 0 <= k < |s| && (r < 0 || k < r) ==> s[k] != c
  {
    if |s| == 0 then -1
    else if s[0] == c then 0
    else
      var r := IndexOf(s[1..], c);
      if r < 0 then -1 else r + 1
  }

  /**
   * Python `s.replace(pat, rep)`: every non-overlapping occurrence of `pat`,
   * scanning left to right, is replaced by `rep`.
   */
  function ReplaceAll(s: string, pat: string, rep: string): string
    requires |pat| > 0
    decreases |s|
  {
    if |s| < |pat| then s
    else if s[..|pat|] == pat then rep + ReplaceAll(s[|pat|..], pat, rep)
    else [s[0]] + ReplaceAll(s[1..], pat, rep)
  }

  /** Nothing is replaced in a text where `pat` cannot start. */
  lemma {:induction false} ReplaceAllSkips(x: string, y: string, pat: string, rep: string)
    requires |pat| > 0 && pat[0] !in x
    ensures ReplaceAll(x + y, pat, rep) == x + ReplaceAll(y, pat, rep)
    decreases |x|
  {
    if |x| > 0 {
      var s := x + y;
      ReplaceAllSkipsFirst(s, pat, rep);
      assert s[0] == x[0] && s[1..] == x[1..] + y;
      ReplaceAllSkips(x[1..], y, pat, rep);
      assert [x[0]] + (x[1..] + ReplaceAll(y, pat, rep)) == x + ReplaceAll(y, pat, rep);
    } else {
      assert x + y == y;
    }
  }

  /** A first character that cannot start `pat` is kept, and the scan goes on after it. */
  lemma ReplaceAllSkipsFirst(s: string, pat: string, rep: string)
    requires |pat| > 0 && |s| > 0 && s[0] != pat[0]
    ensures ReplaceAll(s, pat, rep) == [s[0]] + ReplaceAll(s[1..], pat, rep)
  {
    if |s| >= |pat| {
      assert s[..|pat|][0] == s[0];
    } else {
      assert [s[0]] + s[1..] == s;
    }
  }

  lemma ReplaceAllAbsent(x: string, pat: string, rep: string)
    requires |pat| > 0 && pat[0] !in x
    ensures ReplaceAll(x, pat, rep) == x
  {
    ReplaceAllSkips(x, "", pat, rep);
    assert x + "" == x;
  }

  /** An occurrence at the front is replaced and the scan resumes after it. */
  lemma ReplaceAllAtFront(y: string, pat: string, rep: string)
    requires |pat| > 0
    ensures ReplaceAll(pat + y, pat, rep) == rep + ReplaceAll(y, pat, rep)
  {
    assert (pat + y)[..|pat|] == pat;
    assert (pat + y)[|pat|..] == y;
  }

  /** The strings of `xs` with one `sep` between consecutive ones. */
  function Join(xs: seq<string>, sep: char): (r: string)
    ensures |xs| > 0 && |xs[0]| > 0 ==> |r| > 0 && r[0] == xs[0][0]
    ensures |xs| > 0 && |xs[|xs| - 1]| > 0 ==> |r| > 0 && r[|r| - 1] == xs[|xs| - 1][|xs[|xs| - 1]| - 1]
  {
    if |xs| == 0 then ""
    else if |xs| == 1 then xs[0]
    else xs[0] + [sep] + Join(xs[1..], sep)
  }

  /** The pieces of `s` between its `sep` characters, empty ones included. */
  function SplitOn(s: string, sep: char): (r: seq<string>)
    ensures |r| > 0
    decreases |s|
  {
    var k := IndexOf(s, sep);
    if k < 0 then [s] else [s[..k]] + SplitOn(s[k + 1..], sep)
  }

  lemma JoinCons(x: string, xs: seq<string>, sep: char)
    ensures Join([x] + xs, sep) == if xs == [] then x else x + [sep] + Join(xs, sep)
  {
    if xs != [] {
      assert ([x] + xs)[1..] == xs;
    }
  }

  lemma SnocAssoc(a: string, sep: char, j: string, x: string)
    ensures a + [sep] + (j + [sep] + x) == (a + [sep] + j) + [sep] + x
  {
  }

  /** Appending one more piece adds a separator and the piece. */
  lemma {:induction false} JoinSnoc(xs: seq<string>, x: string, sep: char)
    requires |xs| > 0
    ensures Join(xs + [x], sep) == Join(xs, sep) + [sep] + x
    decreases |xs|
  {
    if |xs| == 1 {
      assert xs + [x] == [xs[0]] + [x];
      JoinCons(xs[0], [x], sep);
    } else {
      var rest := xs[1..];
      JoinSnoc(rest, x, sep);
      assert xs + [x] == [xs[0]] + (rest + [x]);
      JoinCons(xs[0], rest + [x], sep);
      JoinCons(xs[0], rest, sep);
      SnocAssoc(xs[0], sep, Join(rest, sep), x);
    }
  }

  lemma IndexAfterWord(w: string, sep: char, t: string)
    requires sep !in w
    ensures IndexOf(w + [sep] + t, sep) == |w|
  {
    var s := w + [sep] + t;
    assert s[|w|] == sep;
    assert forall j :: 0 <= j < |w| ==> s[j] == w[j];
  }

  /** Splitting joined pieces that hold no separator gives the pieces back. */
  lemma {:induction false} SplitOnJoin(xs: seq<string>, sep: char)
    requires |xs| > 0 && forall i :: 0 <= i < |xs| ==> sep !in xs[i]
    ensures SplitOn(Join(xs, sep), sep) == xs
    decreases |xs|
  {
    if |xs| == 1 {
      assert IndexOf(xs[0], sep) < 0;
    } else {
      var t := Join(xs[1..], sep);
      var s := xs[0] + [sep] + t;
      IndexAfterWord(xs[0], sep, t);
      assert s[..|xs[0]|] == xs[0];
      assert s[|xs[0]| + 1..] == t;
      SplitOnJoin(xs[1..], sep);
      assert [xs[0]] + xs[1..] == xs;
    }
  }

  /** The decimal digits of a natural number, most significant first. */
  function NatToString(n: nat): (r: string)
    ensures |r| > 0
    ensures forall k :: 0 <= k < |r| ==> IsDigit(r[k])
    decreases n
  {
    if n < 10 then [DigitChar(n)]
    else NatToString(n / 10) + [DigitChar(n % 10)]
  }

  function DigitChar(d: nat): (c: char)
    requires d < 10
    ensures IsDigit(c)
  {
    ['0', '1', '2', '3', '4', '5', '6', '7', '8', '9'][d]
  }

  /** Java's decimal rendering of an `int` in string concatenation. */
  function IntToString(i: int): (r: string)
    ensures i >= 0 ==> r == NatToString(i)
    ensures i < 0 ==> r == "-" + NatToString(-i)
  {
    if i < 0 then "-" + NatToString(-i) else NatToString(i)
  }
}
