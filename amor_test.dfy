/**
 * The naming helpers of the aMOR benchmark driver: the results name built
 * from a university and a department id, the parser that recovers the ids
 * from an ontology file name (a regular-expression replacement, a trim and a
 * split) and the path of the CSV file a run writes.
 */
module AmorTest {
  import opened Wrappers
  import opened Text

  /** Largest Java `int`. */
  const INT_MAX: int := 0x7fff_ffff

  predicate AllDigits(s: string) {
    forall i :: 0 <= i < |s| ==> IsDigit(s[i])
  }

  /** `getResultsFileNameFromIds`: `uni<u>-dep<d>`, each id in Java decimal. */
  function ResultsFileName(uniId: int, depId: int): (r: string)
    ensures uniId >= 0 && depId >= 0 ==> IdsFromFileName(r) == [NatToString(uniId), NatToString(depId)]
  {
    var r := "uni" + IntToString(uniId) + "-dep" + IntToString(depId);
    if uniId >= 0 && depId >= 0 then ResultsNameParses(uniId, depId); r else r
  }

  // ---------------------------------------------------------------------
  // The reference reading: the maximal runs of decimal digits.
  // ---------------------------------------------------------------------

  /** The longest prefix of `s` made of digits. */
  function TakeDigits(s: string): (r: string)
    ensures |r| <= |s| && r == s[..|r|] && AllDigits(r)
    ensures |r| < |s| ==> !IsDigit(s[|r|])
  {
    if |s| > 0 && IsDigit(s[0]) then [s[0]] + TakeDigits(s[1..]) else []
  }

  /** `s` without its leading non-digits. */
  function DropNonDigits(s: string): (r: string)
    ensures |r| <= |s| && r == s[|s| - |r|..]
    ensures r == [] || IsDigit(r[0])
  {
    if |s| > 0 && !IsDigit(s[0]) then DropNonDigits(s[1..]) else s
  }

  /** The maximal runs of digits of `s`, left to right. */
  function DigitRuns(s: string): (r: seq<string>)
    ensures forall i :: 0 <= i < |r| ==> |r[i]| > 0 && AllDigits(r[i])
    decreases |s|
  {
    if |s| == 0 then []
    else if !IsDigit(s[0]) then DigitRuns(s[1..])
    else
      var d := TakeDigits(s);
      [d] + DigitRuns(s[|d|..])
  }

  /** The concatenation of a list of strings. */
  function Concat(xs: seq<string>): (r: string)
  {
    if |xs| == 0 then "" else xs[0] + Concat(xs[1..])
  }

  /** The digits of `s`, in order. */
  function Digits(s: string): (r: string)
    ensures AllDigits(r) && |r| <= |s|
  {
    if |s| == 0 then ""
    else if IsDigit(s[0]) then [s[0]] + Digits(s[1..])
    else Digits(s[1..])
  }

  lemma {:induction false} DigitsOfDigits(s: string, t: string)
    requires AllDigits(s)
    ensures Digits(s + t) == s + Digits(t)
  {
    if |s| > 0 {
      assert (s + t)[1..] == s[1..] + t;
      DigitsOfDigits(s[1..], t);
      assert [s[0]] + s[1..] == s;
    } else {
      assert s + t == t;
    }
  }

  /** The runs hold every digit of `s`, and nothing else, in order. */
  lemma {:induction false} DigitRunsKeepDigits(s: string)
    ensures Concat(DigitRuns(s)) == Digits(s)
    decreases |s|
  {
    if |s| > 0 {
      if !IsDigit(s[0]) {
        DigitRunsKeepDigits(s[1..]);
      } else {
        var d := TakeDigits(s);
        var rest := s[|d|..];
        DigitRunsKeepDigits(rest);
        assert s == d + rest;
        DigitsOfDigits(d, rest);
        assert ([d] + DigitRuns(rest))[1..] == DigitRuns(rest);
      }
    }
  }

  /** No run exactly when there is no digit. */
  lemma {:induction false} NoRunsNoDigits(s: string)
    ensures DigitRuns(s) == [] <==> NoDigits(s)
    decreases |s|
  {
    if |s| > 0 {
      if !IsDigit(s[0]) {
        NoRunsNoDigits(s[1..]);
        if DigitRuns(s) == [] {
          forall i | 0 <= i < |s|
            ensures !IsDigit(s[i])
          {
            if i > 0 {
              assert s[i] == s[1..][i - 1];
            }
          }
        }
      }
    }
  }

  /** Leading non-digits never start a run. */
  lemma {:induction false} DigitRunsSkip(s: string)
    ensures DigitRuns(DropNonDigits(s)) == DigitRuns(s)
    decreases |s|
  {
    if |s| > 0 && !IsDigit(s[0]) {
      DigitRunsSkip(s[1..]);
    }
  }

  // ---------------------------------------------------------------------
  // The parser as written: replaceAll("[^0-9]+", " "), trim(), split(" ").
  // ---------------------------------------------------------------------

  /** `s.replaceAll("[^0-9]+", " ")`: every maximal run of non-digits becomes one space. */
  function Collapse(s: string): (r: string)
    decreases |s|
  {
    if |s| == 0 then ""
    else if IsDigit(s[0]) then
      var d := TakeDigits(s);
      d + Collapse(s[|d|..])
    else " " + Collapse(DropNonDigits(s[1..]))
  }

  /** Java `trim`: no leading or trailing character at or below the space. */
  function TrimStart(s: string): (r: string)
    ensures |r| <= |s|
  {
    if |s| > 0 && s[0] <= ' ' then TrimStart(s[1..]) else s
  }

  function TrimEnd(s: string): (r: string)
    ensures |r| <= |s|
  {
    if |s| > 0 && s[|s| - 1] <= ' ' then TrimEnd(s[..|s| - 1]) else s
  }

  function Trim(s: string): (r: string)
  {
    TrimEnd(TrimStart(s))
  }

  function DropTrailingEmpty(xs: seq<string>): (r: seq<string>)
  {
    if |xs| > 0 && xs[|xs| - 1] == "" then DropTrailingEmpty(xs[..|xs| - 1]) else xs
  }

  /**
   * Java `s.split(" ")`: the input itself when there is no space, otherwise
   * the pieces without the trailing empty ones.
   */
  function Split(s: string): (r: seq<string>)
  {
    if IndexOf(s, ' ') < 0 then [s] else DropTrailingEmpty(SplitOn(s, ' '))
  }

  /** `getIdsFromFileName`. */
  function IdsFromFileName(fileName: string): (r: seq<string>)
  {
    Split(Trim(Collapse(fileName)))
  }

  function Lead(s: string): string {
    if |s| > 0 && !IsDigit(s[0]) then " " else ""
  }

  function Tail(s: string): string {
    if |s| > 0 && DigitRuns(s) != [] && !IsDigit(s[|s| - 1]) then " " else ""
  }

  /** Regrouping a concatenation, stated apart so the step lemmas below stay within the solver's budget. */
  lemma Glue(x: string, d: string, j: string, t: string)
    requires x == d + (" " + j + t)
    ensures x == "" + (d + " " + j) + t
  {
  }

  /** Regrouping a concatenation with an empty front. */
  lemma GlueEnd(x: string, d: string, t: string)
    requires x == d + t
    ensures x == "" + d + t
  {
  }

  /** A non-empty suffix ends with the text's last character. */
  lemma LastOfSuffix(s: string, r: string)
    requires 0 < |r| <= |s| && r == s[|s| - |r|..]
    ensures r[|r| - 1] == s[|s| - 1]
  {
  }

  /** Regrouping a concatenation behind a leading space. */
  lemma GlueSpace(x: string, j: string, t: string)
    requires x == " " + ("" + j + t)
    ensures x == " " + j + t
  {
  }

  /** One unfolding of the replacement and of the runs on a text starting with a digit. */
  lemma DigitUnfold(s: string, d: string, rest: string)
    requires |s| > 0 && IsDigit(s[0]) && d == TakeDigits(s) && rest == s[|d|..]
    ensures Collapse(s) == d + Collapse(rest)
    ensures DigitRuns(s) == [d] + DigitRuns(rest)
    ensures Lead(s) == ""
  {
  }

  lemma DigitTail(s: string, d: string, rest: string)
    requires |s| > 0 && IsDigit(s[0]) && d == TakeDigits(s) && rest == s[|d|..]
    ensures rest == [] ==> Tail(s) == ""
    ensures rest != [] && DigitRuns(rest) == [] ==> Tail(s) == " " && Tail(rest) == ""
    ensures DigitRuns(rest) != [] ==> Tail(s) == Tail(rest)
    ensures rest != [] ==> Lead(rest) == " "
  {
    DigitUnfold(s, d, rest);
    if rest == [] {
      assert s == d;
    } else {
      LastOfSuffix(s, rest);
      if DigitRuns(rest) == [] {
        NoRunsNoDigits(rest);
      }
    }
  }

  /** The replacement of a text that starts with a run of digits `d`. */
  lemma CollapseDigitStep(s: string, d: string, rest: string)
    requires |s| > 0 && IsDigit(s[0]) && d == TakeDigits(s) && rest == s[|d|..]
    requires Collapse(rest) == Lead(rest) + Join(DigitRuns(rest), ' ') + Tail(rest)
    ensures Collapse(s) == Lead(s) + Join(DigitRuns(s), ' ') + Tail(s)
  {
    var runs := DigitRuns(rest);
    DigitUnfold(s, d, rest);
    DigitTail(s, d, rest);
    JoinCons(d, runs, ' ');
    if rest == [] {
      assert Collapse(rest) == "" && runs == [];
      GlueEnd(Collapse(s), d, "");
    } else if runs == [] {
      assert Collapse(rest) == " " + "" + "";
      GlueEnd(Collapse(s), d, " ");
    } else {
      Glue(Collapse(s), d, Join(runs, ' '), Tail(rest));
    }
  }

  /** One unfolding of the replacement and of the runs on a text starting with a non-digit. */
  lemma SpaceFacts(s: string, rest: string)
    requires |s| > 0 && !IsDigit(s[0]) && rest == DropNonDigits(s[1..])
    ensures Collapse(s) == " " + Collapse(rest)
    ensures Lead(s) == " " && Lead(rest) == ""
    ensures DigitRuns(s) == DigitRuns(rest)
  {
    DigitRunsSkip(s[1..]);
  }

  /** Texts with the same runs and the same last character get the same trailing space. */
  lemma TailSameEnd(s: string, r: string)
    requires |s| > 0 && DigitRuns(s) == DigitRuns(r)
    requires r == [] || r[|r| - 1] == s[|s| - 1]
    ensures Tail(s) == Tail(r)
  {
  }

  lemma LastOfDropped(s: string, rest: string)
    requires |s| > 0 && rest == DropNonDigits(s[1..]) && rest != []
    ensures rest[|rest| - 1] == s[|s| - 1]
  {
    LastOfSuffix(s[1..], rest);
  }

  lemma SpaceTail(s: string, rest: string)
    requires |s| > 0 && rest == DropNonDigits(s[1..]) && DigitRuns(s) == DigitRuns(rest)
    ensures Tail(s) == Tail(rest)
  {
    if rest != [] {
      LastOfDropped(s, rest);
    }
    TailSameEnd(s, rest);
  }

  /** The replacement of a text that starts with a non-digit. */
  lemma CollapseSpaceStep(s: string, rest: string)
    requires |s| > 0 && !IsDigit(s[0]) && rest == DropNonDigits(s[1..])
    requires Collapse(rest) == Lead(rest) + Join(DigitRuns(rest), ' ') + Tail(rest)
    ensures Collapse(s) == Lead(s) + Join(DigitRuns(s), ' ') + Tail(s)
  {
    SpaceFacts(s, rest);
    SpaceTail(s, rest);
    GlueSpace(Collapse(s), Join(DigitRuns(rest), ' '), Tail(rest));
  }

  /** After the replacement: an optional space, the runs spaced by one blank, an optional space. */
  lemma {:induction false} CollapseShape(s: string)
    ensures Collapse(s) == Lead(s) + Join(DigitRuns(s), ' ') + Tail(s)
    decreases |s|
  {
    if |s| > 0 {
      if IsDigit(s[0]) {
        var d := TakeDigits(s);
        CollapseShape(s[|d|..]);
        CollapseDigitStep(s, d, s[|d|..]);
      } else {
        var rest := DropNonDigits(s[1..]);
        CollapseShape(rest);
        CollapseSpaceStep(s, rest);
      }
    }
  }

  predicate Blank(s: string) {
    forall i :: 0 <= i < |s| ==> s[i] <= ' '
  }

  lemma {:induction false} TrimStartBlank(a: string, m: string)
    requires Blank(a) && (m == [] || m[0] > ' ')
    ensures TrimStart(a + m) == m
    decreases |a|
  {
    if |a| > 0 {
      assert (a + m)[1..] == a[1..] + m;
      TrimStartBlank(a[1..], m);
    } else {
      assert a + m == m;
    }
  }

  lemma {:induction false} TrimEndBlank(m: string, b: string)
    requires Blank(b) && (m == [] || m[|m| - 1] > ' ')
    ensures TrimEnd(m + b) == m
    decreases |b|
  {
    if |b| > 0 {
      assert (m + b)[..|m + b| - 1] == m + b[..|b| - 1];
      TrimEndBlank(m, b[..|b| - 1]);
    } else {
      assert m + b == m;
    }
  }

  lemma {:induction false} TrimAllBlank(s: string)
    requires Blank(s)
    ensures TrimStart(s) == ""
    decreases |s|
  {
    if |s| > 0 {
      TrimAllBlank(s[1..]);
    }
  }

  /** Blanks around a text that starts and ends with a visible character are trimmed away. */
  lemma TrimFramed(a: string, m: string, b: string)
    requires Blank(a) && Blank(b)
    requires m != [] ==> m[0] > ' ' && m[|m| - 1] > ' '
    ensures Trim(a + m + b) == m
  {
    assert a + m + b == a + (m + b);
    if m == [] {
      assert Blank(a + (m + b));
      TrimAllBlank(a + (m + b));
    } else {
      assert (m + b)[0] == m[0];
      TrimStartBlank(a, m + b);
      TrimEndBlank(m, b);
    }
  }

  /** Spaced runs of digits start and end with a digit. */
  lemma SpacedRunsEnds(runs: seq<string>)
    requires forall i :: 0 <= i < |runs| ==> |runs[i]| > 0 && AllDigits(runs[i])
    ensures var m := Join(runs, ' ');
            m != [] ==> IsDigit(m[0]) && IsDigit(m[|m| - 1])
  {
    if runs != [] {
      var last := runs[|runs| - 1];
      assert IsDigit(runs[0][0]) && IsDigit(last[|last| - 1]);
    }
  }

  lemma FramesBlank(s: string)
    ensures Blank(Lead(s)) && Blank(Tail(s))
  {
  }

  /** The trimmed replacement is exactly the runs spaced by one blank. */
  lemma TrimmedCollapse(s: string)
    ensures Trim(Collapse(s)) == Join(DigitRuns(s), ' ')
  {
    CollapseShape(s);
    FramesBlank(s);
    SpacedRunsEnds(DigitRuns(s));
    TrimFramed(Lead(s), Join(DigitRuns(s), ' '), Tail(s));
  }

  lemma DigitsHaveNoSpace(r: string)
    requires AllDigits(r)
    ensures ' ' !in r
  {
    forall k | 0 <= k < |r|
      ensures r[k] != ' '
    {
      assert IsDigit(r[k]);
    }
  }

  /** `getIdsFromFileName` returns the maximal digit runs, or `[""]` when there is none. */
  lemma IdsAreDigitRuns(fileName: string)
    ensures IdsFromFileName(fileName) == if DigitRuns(fileName) == [] then [""] else DigitRuns(fileName)
  {
    TrimmedCollapse(fileName);
    var runs := DigitRuns(fileName);
    if runs == [] {
      assert IndexOf("", ' ') < 0;
    } else {
      forall i | 0 <= i < |runs|
        ensures ' ' !in runs[i]
      {
        DigitsHaveNoSpace(runs[i]);
      }
      SplitOnJoin(runs, ' ');
      if |runs| > 1 {
        IndexAfterWord(runs[0], ' ', Join(runs[1..], ' '));
      } else {
        assert IndexOf(runs[0], ' ') < 0;
      }
      assert runs[|runs| - 1] != "";
    }
  }

  /** A name without digits yields the one empty id. */
  lemma NoDigitsNoIds(fileName: string)
    requires NoDigits(fileName)
    ensures IdsFromFileName(fileName) == [""]
  {
    NoRunsNoDigits(fileName);
    IdsAreDigitRuns(fileName);
  }

  // ---------------------------------------------------------------------
  // Round trips.
  // ---------------------------------------------------------------------

  lemma {:induction false} RunsAfterNonDigits(p: string, x: string)
    requires NoDigits(p)
    ensures DigitRuns(p + x) == DigitRuns(x)
    decreases |p|
  {
    if |p| > 0 {
      assert (p + x)[0] == p[0];
      assert (p + x)[1..] == p[1..] + x;
      RunsAfterNonDigits(p[1..], x);
    } else {
      assert p + x == x;
    }
  }

  lemma {:induction false} TakeAllDigits(d: string, x: string)
    requires |d| > 0 && AllDigits(d) && (x == [] || !IsDigit(x[0]))
    ensures TakeDigits(d + x) == d
    decreases |d|
  {
    assert (d + x)[0] == d[0];
    assert (d + x)[1..] == d[1..] + x;
    if |d| > 1 {
      TakeAllDigits(d[1..], x);
      assert [d[0]] + d[1..] == d;
    } else {
      assert d[1..] + x == x;
    }
  }

  /** A run followed by a non-digit is one id, and parsing resumes after it. */
  lemma RunThenRest(d: string, x: string)
    requires |d| > 0 && AllDigits(d) && (x == [] || !IsDigit(x[0]))
    ensures DigitRuns(d + x) == [d] + DigitRuns(x)
  {
    TakeAllDigits(d, x);
    assert (d + x)[|d|..] == x;
  }

  /** Two runs with a digit-free separator parse back to those two runs. */
  lemma TwoRuns(a: string, sep: string, b: string)
    requires |a| > 0 && AllDigits(a) && |b| > 0 && AllDigits(b)
    requires |sep| > 0 && NoDigits(sep)
    ensures DigitRuns(a + sep + b) == [a, b]
  {
    assert a + sep + b == a + (sep + b);
    RunThenRest(a, sep + b);
    RunsAfterNonDigits(sep, b);
    RunThenRest(b, "");
    assert b + "" == b;
  }

  predicate NoDigits(s: string) {
    forall i :: 0 <= i < |s| ==> !IsDigit(s[i])
  }

  /** A digit-free prefix, a run, a digit-free separator and a run parse to the two runs. */
  lemma TwoIds(p: string, a: string, sep: string, b: string)
    requires NoDigits(p) && |a| > 0 && AllDigits(a) && |b| > 0 && AllDigits(b)
    requires |sep| > 0 && NoDigits(sep)
    ensures IdsFromFileName(p + a + sep + b) == [a, b]
  {
    var name := p + a + sep + b;
    assert name == p + (a + sep + b);
    RunsAfterNonDigits(p, a + sep + b);
    TwoRuns(a, sep, b);
    IdsAreDigitRuns(name);
  }

  /** `getIdsFromFileName(getResultsFileNameFromIds(u, d))` gives back both ids. */
  lemma ResultsNameParses(uniId: nat, depId: nat)
    ensures IdsFromFileName("uni" + NatToString(uniId) + "-dep" + NatToString(depId))
         == [NatToString(uniId), NatToString(depId)]
  {
    assert NoDigits("uni") && NoDigits("-dep");
    TwoIds("uni", NatToString(uniId), "-dep", NatToString(depId));
  }

  /** The reference name `ids[0] + "_" + ids[1]` re-parses to the same first two ids. */
  lemma ReferenceNameParses(fileName: string)
    requires |IdsFromFileName(fileName)| >= 2
    ensures var ids := IdsFromFileName(fileName);
            IdsFromFileName(ids[0] + "_" + ids[1]) == ids[..2]
  {
    IdsAreDigitRuns(fileName);
    var ids := IdsFromFileName(fileName);
    assert ids == DigitRuns(fileName);
    TwoRuns(ids[0], "_", ids[1]);
    IdsAreDigitRuns(ids[0] + "_" + ids[1]);
  }

  // ---------------------------------------------------------------------
  // The CSV file of one ontology.
  // ---------------------------------------------------------------------

  function DigitValue(c: char): int {
    c as int - '0' as int
  }

  /** The value of a decimal numeral, most significant digit first. */
  function DecimalValue(s: string): (v: nat)
    requires AllDigits(s)
  {
    if |s| == 0 then 0 else DecimalValue(s[..|s| - 1]) * 10 + DigitValue(s[|s| - 1])
  }

  /**
   * `Integer.parseInt` on an id: `None` for the `NumberFormatException`
   * raised by an empty text or a value beyond `INT_MAX`.
   */
  function ParseId(s: string): (r: Option<int>)
    ensures r.Some? ==> 0 <= r.value <= INT_MAX && AllDigits(s) && |s| > 0
  {
    if |s| == 0 || !AllDigits(s) then None
    else
      var v := DecimalValue(s);
      if v > INT_MAX then None else Some(v)
  }

  lemma {:induction false} DecimalOfNat(n: nat)
    ensures DecimalValue(NatToString(n)) == n
    decreases n
  {
    var s := NatToString(n);
    if n < 10 {
      assert DigitValue(DigitChar(n)) == n;
    } else {
      DecimalOfNat(n / 10);
      assert s[..|s| - 1] == NatToString(n / 10);
      assert DigitValue(DigitChar(n % 10)) == n % 10;
    }
  }

  lemma ParseNat(n: nat)
    requires n <= INT_MAX
    ensures ParseId(NatToString(n)) == Some(n)
  {
    DecimalOfNat(n);
  }

  /**
   * The CSV path a run writes for an ontology whose parsed ids are `ids`:
   * `resultsDir/R/aMOR-R` with `R` the results name of the two parsed ids;
   * `None` when the ids cannot be read and the file is skipped.
   */
  function ResultsCsvPath(resultsDir: string, ids: seq<string>): (r: Option<string>)
    ensures r.Some? <==> |ids| >= 2 && ParseId(ids[0]).Some? && ParseId(ids[1]).Some?
  {
    if |ids| < 2 then None
    else match (ParseId(ids[0]), ParseId(ids[1]))
      case (Some(u), Some(d)) =>
        var name := ResultsFileName(u, d);
        Some(resultsDir + "/" + name + "/aMOR-" + name)
      case _ => None
  }

  /** An ontology named after its ids writes its results under that same name. */
  lemma ResultsPathOfNamedOntology(resultsDir: string, uniId: nat, depId: nat)
    requires uniId <= INT_MAX && depId <= INT_MAX
    ensures var name := ResultsFileName(uniId, depId);
            ResultsCsvPath(resultsDir, IdsFromFileName(name)) == Some(resultsDir + "/" + name + "/aMOR-" + name)
  {
    ResultsNameParses(uniId, depId);
    ParseNat(uniId);
    ParseNat(depId);
  }
}
