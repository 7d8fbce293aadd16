/**
 * The CSV lines of the LUBM benchmark. A line is composed from one query run,
 * in the aMOR or in the OWL-API version, plain (one execution) or extended
 * (ten executions and their average). The whole CSV file of an ontology is
 * one header followed by one line per query.
 *
 * The measured durations, the wall-clock timestamp, the axiom count and the
 * query results are inputs: each execution is a `Trial`. How a result list
 * is rendered by `toString` is the parameter `render`.
 */
module LubmTest {
  import opened Wrappers
  import opened Text
  import AmorTest
  import FileManagement

  const DELIMITER: char := ';'
  const NEW_LINE_SEPARATOR: string := "\n"

  /** Executions of one query in the extended version. */
  const TRIALS: nat := 10

  const PLAIN_COLUMNS: seq<string> := ["timestamp[ms]", "uniID", "depID", "queryID",
    "time[ns]", "Complexity", "resultSize", "resultMapToString"]

  const EXTENDED_COLUMNS: seq<string> := ["timestamp[ms]", "uniID", "depID", "queryID",
    "time1[ns]", "time2[ns]", "time3[ns]", "time4[ns]", "time5[ns]",
    "time6[ns]", "time7[ns]", "time8[ns]", "time9[ns]", "time10[ns]",
    "average[ns]", "Complexity", "resultSize", "resultMapToString"]

  /** `CSV_FILE_HEADER`: the plain columns separated by `;`. */
  const CSV_FILE_HEADER: string := Join(PLAIN_COLUMNS, DELIMITER)

  /** `CSV_FILE_HEADER_EXTENDED`: the extended columns separated by `;`. */
  const CSV_FILE_HEADER_EXTENDED: string := Join(EXTENDED_COLUMNS, DELIMITER)

  /** The plain header reads back as its 8 columns. */
  lemma PlainHeaderColumns()
    ensures SplitOn(CSV_FILE_HEADER, DELIMITER) == PLAIN_COLUMNS && |PLAIN_COLUMNS| == 8
  {
    SplitOnJoin(PLAIN_COLUMNS, DELIMITER);
  }

  /** The extended header reads back as its 18 columns, the ten times in order. */
  lemma ExtendedHeaderColumns()
    ensures SplitOn(CSV_FILE_HEADER_EXTENDED, DELIMITER) == EXTENDED_COLUMNS && |EXTENDED_COLUMNS| == 18
  {
    SplitOnJoin(EXTENDED_COLUMNS, DELIMITER);
  }

  /** The extended header names the ten duration columns `time1[ns]` to `time10[ns]`, in order. */
  lemma TimeColumnNames()
    ensures forall k :: 1 <= k <= TRIALS ==> EXTENDED_COLUMNS[3 + k] == "time" + NatToString(k) + "[ns]"
  {
    forall k | 1 <= k <= TRIALS
      ensures EXTENDED_COLUMNS[3 + k] == "time" + NatToString(k) + "[ns]"
    {
      if k < 10 {
        TimeColumnName(k);
      } else {
        assert NatToString(10) == NatToString(1) + [DigitChar(0)];
      }
    }
  }

  lemma TimeColumnName(k: nat)
    requires 1 <= k < 10
    ensures EXTENDED_COLUMNS[3 + k] == "time" + [DigitChar(k)] + "[ns]"
  {
  }

  function Header(extended: bool): string {
    if extended then CSV_FILE_HEADER_EXTENDED else CSV_FILE_HEADER
  }

  // ---------------------------------------------------------------------
  // Java long arithmetic.
  // ---------------------------------------------------------------------

  const TWO_63: int := 0x8000_0000_0000_0000
  const TWO_64: int := 0x1_0000_0000_0000_0000

  /** The `long` an exact integer wraps around to. */
  function WrapLong(x: int): (r: int)
    ensures -TWO_63 <= r < TWO_63
    ensures -TWO_63 <= x < TWO_63 ==> r == x
  {
    (x + TWO_63) % TWO_64 - TWO_63
  }

  lemma ModShift(a: int, q: int)
    ensures (a + q * TWO_64) % TWO_64 == a % TWO_64
  {
  }

  /** Adding to a wrapped sum wraps the exact sum. */
  lemma WrapAdd(x: int, t: int)
    ensures WrapLong(WrapLong(x) + t) == WrapLong(x + t)
  {
    var q := (x + TWO_63) / TWO_64;
    assert WrapLong(x) == x - q * TWO_64;
    ModShift(x + t + TWO_63, -q);
  }

  /** Java `/` on longs: the quotient truncated toward zero. */
  function JavaDiv(a: int, b: int): (r: int)
    requires b > 0
  {
    if a >= 0 then a / b else -((-a) / b)
  }

  // ---------------------------------------------------------------------
  // Query runs.
  // ---------------------------------------------------------------------

  /** One row of a SPARQL result: variable name to value text. */
  type Solution = map<string, string>

  /** One execution of a query: its measured duration in ns and the rows it returned. */
  datatype Trial = Trial(time: int, solutions: seq<Solution>)

  /**
   * The measurements of one query: its id, the timestamp taken when its line
   * is built, the name of the ontology reference it ran on, its executions and
   * the axiom count of the ontology.
   */
  datatype QueryRun = QueryRun(queryId: int, now: int, referenceName: string, trials: seq<Trial>, axiomCount: int)

  /** The plain version runs a query once, the extended one `TRIALS` times. */
  predicate WellFormed(run: QueryRun, extended: bool) {
    |run.trials| == if extended then TRIALS else 1
  }

  function Times(trials: seq<Trial>): (r: seq<string>)
    ensures |r| == |trials|
    ensures forall i :: 0 <= i < |trials| ==> r[i] == IntToString(trials[i].time)
  {
    if |trials| == 0 then [] else Times(trials[..|trials| - 1]) + [IntToString(trials[|trials| - 1].time)]
  }

  function SumTimes(trials: seq<Trial>): int {
    if |trials| == 0 then 0 else SumTimes(trials[..|trials| - 1]) + trials[|trials| - 1].time
  }

  /** Every row of every execution, in execution order. */
  function AllSolutions(trials: seq<Trial>): seq<Solution> {
    if |trials| == 0 then [] else AllSolutions(trials[..|trials| - 1]) + trials[|trials| - 1].solutions
  }

  /** `timeSum / 10`, where `timeSum` is the `long` sum of the durations. */
  function Average(trials: seq<Trial>): int {
    JavaDiv(WrapLong(SumTimes(trials)), TRIALS)
  }

  /** When nothing overflows, the average is the sum divided by ten, rounded down. */
  lemma AverageBounds(trials: seq<Trial>)
    requires 0 <= SumTimes(trials) < TWO_63
    ensures TRIALS * Average(trials) <= SumTimes(trials) < TRIALS * Average(trials) + TRIALS
  {
  }

  /** The result-size column of the extended OWL-API line counts the rows of all executions. */
  lemma {:induction false} AllSolutionsSize(trials: seq<Trial>)
    ensures |AllSolutions(trials)| == SumSizes(trials)
  {
    if |trials| > 0 {
      AllSolutionsSize(trials[..|trials| - 1]);
    }
  }

  function SumSizes(trials: seq<Trial>): nat {
    if |trials| == 0 then 0 else SumSizes(trials[..|trials| - 1]) + |trials[|trials| - 1].solutions|
  }

  // ---------------------------------------------------------------------
  // The columns of a line.
  // ---------------------------------------------------------------------

  /** The columns of an aMOR line, from the ids parsed out of the reference name. */
  function AmorColumns(extended: bool, run: QueryRun, ids: seq<string>, render: seq<Solution> -> string): (r: seq<string>)
    requires WellFormed(run, extended) && |ids| >= 2
    ensures |r| == if extended then |EXTENDED_COLUMNS| else |PLAIN_COLUMNS|
  {
    var last := run.trials[|run.trials| - 1];
    if !extended then
      [IntToString(run.now), ids[0], ids[1], IntToString(run.queryId), IntToString(last.time),
       IntToString(run.axiomCount), IntToString(|last.solutions|), render(last.solutions)]
    else
      [IntToString(run.now), ids[1], ids[0], IntToString(run.queryId)] + Times(run.trials)
      + [IntToString(Average(run.trials)), IntToString(run.axiomCount), IntToString(|last.solutions|), render(last.solutions)]
  }

  /**
   * `getCsvLineFromQuery(aMORQuery)`: `None` stands for the
   * `IndexOutOfBoundsException` of a reference name with fewer than two ids.
   */
  function AmorLine(extended: bool, run: QueryRun, render: seq<Solution> -> string): (r: Option<string>)
    requires WellFormed(run, extended)
    ensures r.Some? <==> |AmorTest.IdsFromFileName(run.referenceName)| >= 2
  {
    var ids := AmorTest.IdsFromFileName(run.referenceName);
    if |ids| < 2 then None else Some(Join(AmorColumns(extended, run, ids, render), DELIMITER))
  }

  /** The path without its trailing separators, as `java.io.File` normalises it. */
  function TrimTrailingSlashes(path: string): (r: string)
    ensures |r| <= |path| && r == path[..|r|]
    ensures |r| == 0 || r[|r| - 1] != '/'
    ensures forall k :: |r| <= k < |path| ==> path[k] == '/'
  {
    if |path| > 0 && path[|path| - 1] == '/' then TrimTrailingSlashes(path[..|path| - 1]) else path
  }

  /**
   * `new File(path).getName()`: the last component of the path once its
   * trailing separators are dropped, so `a/b/` names `b`.
   */
  function FileName(path: string): (r: string)
    ensures '/' !in r
  {
    var t := TrimTrailingSlashes(path);
    var k := LastIndexOf(t, '/');
    t[k + 1..]
  }

  /** The file name is the trimmed path's last component: a `/`-free suffix preceded by `/` unless it is all of it. */
  lemma FileNameIsLastComponent(path: string)
    ensures var t, r := TrimTrailingSlashes(path), FileName(path);
      |r| <= |t| && r == t[|t| - |r|..] && (|r| < |t| ==> t[|t| - |r| - 1] == '/')
  {
  }

  /** A separator-free name under a directory is that path's file name, however many separators follow. */
  lemma FileNameOfChild(dir: string, name: string, slashes: string)
    requires |name| > 0 && '/' !in name && forall k :: 0 <= k < |slashes| ==> slashes[k] == '/'
    ensures FileName(dir + "/" + name + slashes) == name
  {
    var p := dir + "/" + name + slashes;
    var t := TrimTrailingSlashes(p);
    assert t == dir + "/" + name by {
      TrimSlashesUpTo(p, |dir| + 1 + |name|);
    }
    assert t[|dir|] == '/';
    assert t[|dir| + 1..] == name;
  }

  /** Trimming stops at the last non-separator, wherever it stands. */
  lemma {:induction false} TrimSlashesUpTo(p: string, n: nat)
    requires 0 < n <= |p| && p[n - 1] != '/' && forall k :: n <= k < |p| ==> p[k] == '/'
    ensures TrimTrailingSlashes(p) == p[..n]
    decreases |p|
  {
    if |p| > n {
      TrimSlashesUpTo(p[..|p| - 1], n);
      assert p[..|p| - 1][..n] == p[..n];
    }
  }

  /** The columns of an OWL-API line; its extended result list gathers the rows of all executions. */
  function OwlApiColumns(extended: bool, run: QueryRun, ids: seq<string>, render: seq<Solution> -> string): (r: seq<string>)
    requires WellFormed(run, extended) && |ids| >= 2
    ensures |r| == if extended then |EXTENDED_COLUMNS| else |PLAIN_COLUMNS|
  {
    var last := run.trials[|run.trials| - 1];
    if !extended then
      [IntToString(run.now), ids[0], ids[1], IntToString(run.queryId), IntToString(last.time),
       IntToString(run.axiomCount), IntToString(|last.solutions|), render(last.solutions)]
    else
      var all := AllSolutions(run.trials);
      [IntToString(run.now), ids[0], ids[1], IntToString(run.queryId)] + Times(run.trials)
      + [IntToString(Average(run.trials)), IntToString(run.axiomCount), IntToString(|all|), render(all)]
  }

  /** `getCsvLineFromQuery(Query, csvFilePath)`: the ids come from the CSV file name. */
  function OwlApiLine(extended: bool, run: QueryRun, csvFilePath: string, render: seq<Solution> -> string): (r: Option<string>)
    requires WellFormed(run, extended)
    ensures r.Some? <==> |AmorTest.IdsFromFileName(FileName(csvFilePath))| >= 2
  {
    var ids := AmorTest.IdsFromFileName(FileName(csvFilePath));
    if |ids| < 2 then None else Some(Join(OwlApiColumns(extended, run, ids, render), DELIMITER))
  }

  // ---------------------------------------------------------------------
  // Properties of the lines.
  // ---------------------------------------------------------------------

  lemma DigitsHaveNoDelimiter(s: string)
    requires AmorTest.AllDigits(s)
    ensures DELIMITER !in s
  {
    forall k | 0 <= k < |s|
      ensures s[k] != DELIMITER
    {
      assert IsDigit(s[k]);
    }
  }

  lemma NumberHasNoDelimiter(i: int)
    ensures DELIMITER !in IntToString(i)
  {
    var n := NatToString(if i < 0 then -i else i);
    DigitsHaveNoDelimiter(n);
    if i < 0 {
      assert IntToString(i) == "-" + n;
    }
  }

  /** Ids parsed from a name are digit runs, or the one empty id. */
  lemma IdsHaveNoDelimiter(name: string)
    ensures forall i :: 0 <= i < |AmorTest.IdsFromFileName(name)| ==> DELIMITER !in AmorTest.IdsFromFileName(name)[i]
  {
    AmorTest.IdsAreDigitRuns(name);
    var runs := AmorTest.DigitRuns(name);
    forall i | 0 <= i < |runs|
      ensures DELIMITER !in runs[i]
    {
      DigitsHaveNoDelimiter(runs[i]);
    }
  }

  lemma TimesHaveNoDelimiter(trials: seq<Trial>)
    ensures forall i :: 0 <= i < |Times(trials)| ==> DELIMITER !in Times(trials)[i]
  {
    forall i | 0 <= i < |trials|
      ensures DELIMITER !in Times(trials)[i]
    {
      NumberHasNoDelimiter(trials[i].time);
    }
  }

  /** Only the rendered result may hold a `;`. */
  lemma AmorColumnsClean(extended: bool, run: QueryRun, ids: seq<string>, render: seq<Solution> -> string)
    requires WellFormed(run, extended) && |ids| >= 2 && DELIMITER !in ids[0] && DELIMITER !in ids[1]
    ensures var cols := AmorColumns(extended, run, ids, render);
            forall i :: 0 <= i < |cols| - 1 ==> DELIMITER !in cols[i]
  {
    var last := run.trials[|run.trials| - 1];
    NumberHasNoDelimiter(run.now);
    NumberHasNoDelimiter(run.queryId);
    NumberHasNoDelimiter(run.axiomCount);
    NumberHasNoDelimiter(|last.solutions|);
    if extended {
      var head := [IntToString(run.now), ids[1], ids[0], IntToString(run.queryId)];
      var times := Times(run.trials);
      TimesHaveNoDelimiter(run.trials);
      NumberHasNoDelimiter(Average(run.trials));
      var tail := [IntToString(Average(run.trials)), IntToString(run.axiomCount), IntToString(|last.solutions|)];
      CleanThree(head, times, tail, render(last.solutions));
      assert AmorColumns(extended, run, ids, render) == head + times + tail + [render(last.solutions)];
    } else {
      NumberHasNoDelimiter(last.time);
    }
  }

  /** Pieces free of `;`, then one last piece that may hold it. */
  lemma CleanThree(a: seq<string>, b: seq<string>, c: seq<string>, x: string)
    requires forall i :: 0 <= i < |a| ==> DELIMITER !in a[i]
    requires forall i :: 0 <= i < |b| ==> DELIMITER !in b[i]
    requires forall i :: 0 <= i < |c| ==> DELIMITER !in c[i]
    ensures var cols := a + b + c + [x];
            forall i :: 0 <= i < |cols| - 1 ==> DELIMITER !in cols[i]
  {
    var cols := a + b + c + [x];
    forall i | 0 <= i < |cols| - 1
      ensures DELIMITER !in cols[i]
    {
      if i < |a| {
        assert cols[i] == a[i];
      } else if i < |a| + |b| {
        assert cols[i] == b[i - |a|];
      } else {
        assert cols[i] == c[i - |a| - |b|];
      }
    }
  }

  /** The columns of the header in use. */
  function Columns(extended: bool): seq<string> {
    if extended then EXTENDED_COLUMNS else PLAIN_COLUMNS
  }

  /** The header in use reads back as its columns. */
  lemma HeaderColumns(extended: bool)
    ensures SplitOn(Header(extended), DELIMITER) == Columns(extended)
  {
    if extended {
      ExtendedHeaderColumns();
    } else {
      PlainHeaderColumns();
    }
  }

  /**
   * An aMOR line read back at its `;` gives exactly one value per header
   * column, provided the rendered result holds no `;`.
   */
  lemma AmorLineMatchesHeader(extended: bool, run: QueryRun, render: seq<Solution> -> string)
    requires WellFormed(run, extended) && AmorLine(extended, run, render).Some?
    ensures var cols := AmorColumns(extended, run, AmorTest.IdsFromFileName(run.referenceName), render);
            |cols| == |SplitOn(Header(extended), DELIMITER)|
            && (DELIMITER !in cols[|cols| - 1] ==> SplitOn(AmorLine(extended, run, render).value, DELIMITER) == cols)
  {
    HeaderColumns(extended);
    var ids := AmorTest.IdsFromFileName(run.referenceName);
    IdsHaveNoDelimiter(run.referenceName);
    var cols := AmorColumns(extended, run, ids, render);
    AmorColumnsClean(extended, run, ids, render);
    if DELIMITER !in cols[|cols| - 1] {
      SplitClean(cols);
    }
  }

  /** Columns free of `;` are read back from their joined line. */
  lemma SplitClean(cols: seq<string>)
    requires |cols| > 0 && forall i :: 0 <= i < |cols| - 1 ==> DELIMITER !in cols[i]
    requires DELIMITER !in cols[|cols| - 1]
    ensures SplitOn(Join(cols, DELIMITER), DELIMITER) == cols
  {
    SplitOnJoin(cols, DELIMITER);
  }

  lemma EmptyPrefix(s: string)
    ensures "" + s == s
  {
  }

  /** Where the two ids go among the columns of an aMOR line. */
  lemma AmorColumnsIds(extended: bool, run: QueryRun, ids: seq<string>, render: seq<Solution> -> string)
    requires WellFormed(run, extended) && |ids| >= 2
    ensures var cols := AmorColumns(extended, run, ids, render);
            if extended then cols[1] == ids[1] && cols[2] == ids[0] else cols[1] == ids[0] && cols[2] == ids[1]
  {
  }

  /**
   * For an ontology referenced as `uni_dep`, the plain aMOR line puts the
   * university id under `uniID`, while the extended one puts the department
   * id there and the university id under `depID`.
   */
  lemma AmorLineIdOrder(extended: bool, run: QueryRun, uniId: nat, depId: nat, render: seq<Solution> -> string)
    requires WellFormed(run, extended)
    requires run.referenceName == NatToString(uniId) + "_" + NatToString(depId)
    ensures AmorTest.IdsFromFileName(run.referenceName) == [NatToString(uniId), NatToString(depId)]
    ensures var cols := AmorColumns(extended, run, AmorTest.IdsFromFileName(run.referenceName), render);
            if extended then cols[1] == NatToString(depId) && cols[2] == NatToString(uniId)
            else cols[1] == NatToString(uniId) && cols[2] == NatToString(depId)
  {
    var u, d := NatToString(uniId), NatToString(depId);
    assert AmorTest.NoDigits("_");
    EmptyPrefix(u);
    AmorTest.TwoIds("", u, "_", d);
    AmorColumnsIds(extended, run, [u, d], render);
  }

  /** The OWL-API lines keep the ids in file-name order. */
  lemma OwlApiLineIdOrder(extended: bool, run: QueryRun, csvFilePath: string, render: seq<Solution> -> string)
    requires WellFormed(run, extended) && OwlApiLine(extended, run, csvFilePath, render).Some?
    ensures var ids := AmorTest.IdsFromFileName(FileName(csvFilePath));
            var cols := OwlApiColumns(extended, run, ids, render);
            cols[1] == ids[0] && cols[2] == ids[1]
  {
  }

  /** The extended OWL-API result size adds up the rows of the ten executions. */
  lemma OwlApiExtendedSize(run: QueryRun, csvFilePath: string, render: seq<Solution> -> string)
    requires WellFormed(run, true) && OwlApiLine(true, run, csvFilePath, render).Some?
    ensures var cols := OwlApiColumns(true, run, AmorTest.IdsFromFileName(FileName(csvFilePath)), render);
            cols[16] == IntToString(SumSizes(run.trials))
  {
    AllSolutionsSize(run.trials);
  }

  // ---------------------------------------------------------------------
  // The composing methods.
  // ---------------------------------------------------------------------

  /**
   * The ten-execution loop: each duration is appended after a `;` and added
   * to the `long` sum; the rows of every execution are gathered.
   */
  method RunTrials(line: string, trials: seq<Trial>, ghost prefix: seq<string>)
    returns (out: string, timeSum: int, all: seq<Solution>)
    requires |prefix| > 0 && line == Join(prefix, DELIMITER)
    ensures out == Join(prefix + Times(trials), DELIMITER)
    ensures timeSum == WrapLong(SumTimes(trials))
    ensures all == AllSolutions(trials)
  {
    out, timeSum, all := line, 0, [];
    var i := 0;
    assert prefix + Times(trials[..0]) == prefix;
    while i < |trials|
      invariant 0 <= i <= |trials| && Measured(trials[..i], prefix, out, timeSum, all)
    {
      PrefixSnoc(trials, i);
      out, timeSum, all := AddTrial(trials[..i], trials[i], prefix, out, timeSum, all);
      i := i + 1;
    }
    assert trials[..i] == trials;
  }

  /** The line, the `long` sum and the rows after the executions `done`. */
  ghost predicate Measured(done: seq<Trial>, prefix: seq<string>, line: string, timeSum: int, all: seq<Solution>) {
    && |prefix| > 0
    && line == Join(prefix + Times(done), DELIMITER)
    && timeSum == WrapLong(SumTimes(done))
    && all == AllSolutions(done)
  }

  /** One turn of the loop: append `;` and the duration, add it to the sum, gather the rows. */
  method AddTrial(done: seq<Trial>, t: Trial, ghost prefix: seq<string>, line: string, timeSum: int, all: seq<Solution>)
    returns (line': string, timeSum': int, all': seq<Solution>)
    requires Measured(done, prefix, line, timeSum, all)
    ensures Measured(done + [t], prefix, line', timeSum', all')
  {
    timeSum' := WrapLong(timeSum + t.time);
    SumAfter(done, t, timeSum);
    line' := line + [DELIMITER] + IntToString(t.time);
    LineAfter(done, t, prefix, line);
    all' := all + t.solutions;
    SolutionsAfter(done, t);
  }

  lemma SnocPrefix<T>(s: seq<T>, x: T)
    ensures (s + [x])[..|s|] == s && (s + [x])[|s|] == x
  {
  }

  lemma PrefixSnoc<T>(s: seq<T>, i: nat)
    requires i < |s|
    ensures s[..i + 1] == s[..i] + [s[i]]
  {
  }

  /** One more duration in the `long` sum. */
  lemma SumAfter(done: seq<Trial>, t: Trial, timeSum: int)
    requires timeSum == WrapLong(SumTimes(done))
    ensures WrapLong(timeSum + t.time) == WrapLong(SumTimes(done + [t]))
  {
    SnocPrefix(done, t);
    assert SumTimes(done + [t]) == SumTimes(done) + t.time;
    WrapAdd(SumTimes(done), t.time);
  }

  /** One more duration column on the line. */
  lemma LineAfter(done: seq<Trial>, t: Trial, prefix: seq<string>, line: string)
    requires |prefix| > 0 && line == Join(prefix + Times(done), DELIMITER)
    ensures line + [DELIMITER] + IntToString(t.time) == Join(prefix + Times(done + [t]), DELIMITER)
  {
    SnocPrefix(done, t);
    assert Times(done + [t]) == Times(done) + [IntToString(t.time)];
    JoinStep(line, prefix, Times(done), IntToString(t.time));
  }

  /** The rows of one more execution. */
  lemma SolutionsAfter(done: seq<Trial>, t: Trial)
    ensures AllSolutions(done + [t]) == AllSolutions(done) + t.solutions
  {
    SnocPrefix(done, t);
  }

  /** Appending `;` and a column to a joined line joins one more column. */
  lemma JoinStep(line: string, prefix: seq<string>, cols: seq<string>, x: string)
    requires |prefix| > 0 && line == Join(prefix + cols, DELIMITER)
    ensures line + [DELIMITER] + x == Join(prefix + (cols + [x]), DELIMITER)
  {
    JoinSnoc(prefix + cols, x, DELIMITER);
    assert prefix + (cols + [x]) == prefix + cols + [x];
  }

  /** Appends the four closing columns of an extended line. */
  method CloseLine(line: string, cols: seq<string>, ghost prefix: seq<string>) returns (out: string)
    requires |prefix| > 0 && line == Join(prefix, DELIMITER) && |cols| == 4
    ensures out == Join(prefix + cols, DELIMITER)
  {
    out := line;
    var i := 0;
    assert prefix + cols[..0] == prefix;
    while i < 4
      invariant 0 <= i <= 4 && out == Join(prefix + cols[..i], DELIMITER)
    {
      JoinStep(out, prefix, cols[..i], cols[i]);
      assert cols[..i + 1] == cols[..i] + [cols[i]];
      out := out + [DELIMITER] + cols[i];
      i := i + 1;
    }
    assert cols[..4] == cols;
  }

  /** The line of one prefix of four columns, built by concatenation. */
  method JoinPrefix(cols: seq<string>) returns (line: string)
    requires |cols| == 4
    ensures line == Join(cols, DELIMITER)
  {
    line := cols[0] + [DELIMITER] + cols[1] + [DELIMITER] + cols[2] + [DELIMITER] + cols[3];
    JoinCons(cols[2], [cols[3]], DELIMITER);
    assert cols[2..] == [cols[2]] + [cols[3]];
    JoinCons(cols[1], cols[2..], DELIMITER);
    assert cols[1..] == [cols[1]] + cols[2..];
    JoinCons(cols[0], cols[1..], DELIMITER);
    assert cols == [cols[0]] + cols[1..];
  }

  /** `getCsvLineFromQuery(aMORQuery)`. */
  method AmorCsvLine(extended: bool, run: QueryRun, render: seq<Solution> -> string) returns (line: Option<string>)
    requires WellFormed(run, extended)
    ensures line == AmorLine(extended, run, render)
  {
    var ids := AmorTest.IdsFromFileName(run.referenceName);
    if |ids| < 2 {
      return None;
    }
    var last := run.trials[|run.trials| - 1];
    if !extended {
      line := Some(Join(AmorColumns(false, run, ids, render), DELIMITER));
    } else {
      var prefix := [IntToString(run.now), ids[1], ids[0], IntToString(run.queryId)];
      var csvLine := JoinPrefix(prefix);
      var timed, timeSum, _ := RunTrials(csvLine, run.trials, prefix);
      csvLine := CloseLine(timed, [IntToString(JavaDiv(timeSum, TRIALS)), IntToString(run.axiomCount),
        IntToString(|last.solutions|), render(last.solutions)], prefix + Times(run.trials));
      line := Some(csvLine);
    }
  }

  /** `getCsvLineFromQuery(Query, csvFilePath)`. */
  method OwlApiCsvLine(extended: bool, run: QueryRun, csvFilePath: string, render: seq<Solution> -> string)
    returns (line: Option<string>)
    requires WellFormed(run, extended)
    ensures line == OwlApiLine(extended, run, csvFilePath, render)
  {
    var ids := AmorTest.IdsFromFileName(FileName(csvFilePath));
    if |ids| < 2 {
      return None;
    }
    var last := run.trials[|run.trials| - 1];
    if !extended {
      line := Some(Join(OwlApiColumns(false, run, ids, render), DELIMITER));
    } else {
      var prefix := [IntToString(run.now), ids[0], ids[1], IntToString(run.queryId)];
      var csvLine := JoinPrefix(prefix);
      var timed, timeSum, solutions := RunTrials(csvLine, run.trials, prefix);
      csvLine := CloseLine(timed, [IntToString(JavaDiv(timeSum, TRIALS)), IntToString(run.axiomCount),
        IntToString(|solutions|), render(solutions)], prefix + Times(run.trials));
      line := Some(csvLine);
    }
  }

  // ---------------------------------------------------------------------
  // The CSV file.
  // ---------------------------------------------------------------------

  /**
   * The lines written before the first one that cannot be composed: the
   * exception it raises ends the writing.
   */
  function UpToFailure(lines: seq<Option<string>>): (r: seq<string>)
    ensures |r| <= |lines|
    ensures forall i :: 0 <= i < |r| ==> lines[i] == Some(r[i])
    ensures |r| < |lines| ==> lines[|r|].None?
  {
    if |lines| == 0 then []
    else match lines[0]
      case None => []
      case Some(l) => [l] + UpToFailure(lines[1..])
  }

  /** What is written is determined by the composed lines: the first failure and all before it. */
  lemma {:induction false} UpToFailureUnique(lines: seq<Option<string>>, w: seq<string>)
    requires |w| <= |lines| && forall i :: 0 <= i < |w| ==> lines[i] == Some(w[i])
    requires |w| < |lines| ==> lines[|w|].None?
    ensures UpToFailure(lines) == w
  {
    if |w| > 0 {
      UpToFailureUnique(lines[1..], w[1..]);
      assert w == [w[0]] + w[1..];
    }
  }

  /** The aMOR line of each query, in list order. */
  function AmorLines(extended: bool, runs: seq<QueryRun>, render: seq<Solution> -> string): (r: seq<Option<string>>)
    requires forall i :: 0 <= i < |runs| ==> WellFormed(runs[i], extended)
    ensures |r| == |runs| && forall i :: 0 <= i < |runs| ==> r[i] == AmorLine(extended, runs[i], render)
  {
    seq(|runs|, i requires 0 <= i < |runs| => AmorLine(extended, runs[i], render))
  }

  /** The OWL-API line of each query, in list order. */
  function OwlApiLines(extended: bool, runs: seq<QueryRun>, csvFilePath: string, render: seq<Solution> -> string)
    : (r: seq<Option<string>>)
    requires forall i :: 0 <= i < |runs| ==> WellFormed(runs[i], extended)
    ensures |r| == |runs| && forall i :: 0 <= i < |runs| ==> r[i] == OwlApiLine(extended, runs[i], csvFilePath, render)
  {
    seq(|runs|, i requires 0 <= i < |runs| => OwlApiLine(extended, runs[i], csvFilePath, render))
  }

  lemma NextLine(lines: seq<Option<string>>, composed: seq<Option<string>>, i: int, line: Option<string>)
    requires 0 <= i < |composed| && lines == composed[..i] && line == composed[i]
    ensures lines + [line] == composed[..i + 1]
  {
  }

  /** The text of a CSV file that holds `lines`: each one ends with the line separator. */
  function CsvText(lines: seq<string>): string {
    FileManagement.TxtFormat(lines)
  }

  lemma CsvTextOne(line: string)
    ensures CsvText([line]) == "" + line + NEW_LINE_SEPARATOR
  {
    FileManagement.TxtFormatCons(line, []);
    assert [line] + [] == [line];
  }

  /** An output file: its path and the text written to it so far. */
  class CsvFile {
    const path: string
    var text: string

    constructor (path: string)
      ensures this.path == path && text == ""
    {
      this.path := path;
      text := "";
    }

    /** `writeCSVLine`: the line and then the line separator. */
    method WriteCsvLine(line: string)
      modifies this`text
      ensures text == old(text) + line + NEW_LINE_SEPARATOR
    {
      text := text + line + NEW_LINE_SEPARATOR;
    }

    /** Writes the header of the version in use. */
    method WriteHeader(extended: bool)
      modifies this`text
      requires text == ""
      ensures text == CsvText([Header(extended)])
    {
      WriteCsvLine(Header(extended));
      CsvTextOne(Header(extended));
    }
  }

  /** The ontology saved after all lines are written: the CSV path without `aMOR-`, then `-enquired.owl`. */
  function EnquiredOntologyPath(csvFilePath: string): string {
    ReplaceAll(csvFilePath, "aMOR-", "") + "-enquired.owl"
  }

  /**
   * Writes the lines of `lines` after the header, up to the first one that
   * cannot be composed; `complete` tells whether none failed.
   */
  method WriteLines(file: CsvFile, header: string, lines: seq<Option<string>>) returns (complete: bool)
    modifies file`text
    requires file.text == CsvText([header])
    ensures file.text == CsvText([header] + UpToFailure(lines))
    ensures complete <==> |UpToFailure(lines)| == |lines|
  {
    ghost var written: seq<string> := [];
    var i := 0;
    complete := true;
    while i < |lines| && complete
      invariant 0 <= i <= |lines|
      invariant file.text == CsvText([header] + written)
      invariant |written| <= i && forall j :: 0 <= j < |written| ==> lines[j] == Some(written[j])
      invariant complete ==> |written| == i
      invariant !complete ==> |written| < |lines| && lines[|written|].None?
      decreases |lines| - i, if complete then 1 else 0
    {
      var line := lines[i];
      if line.None? {
        complete := false;
      } else {
        FileManagement.TxtFormatAppend([header] + written, [line.value]);
        assert [header] + (written + [line.value]) == [header] + written + [line.value];
        file.WriteCsvLine(line.value);
        written := written + [line.value];
        i := i + 1;
      }
    }
    UpToFailureUnique(lines, written);
  }

  /**
   * `csvFileManager`: the header, then the aMOR line of each query in list
   * order. A query whose line cannot be composed ends the writing, and the
   * ontology is then not saved; it is saved when every line was written and
   * the list is not empty.
   */
  method CsvFileManager(extended: bool, runs: seq<QueryRun>, csvFilePath: string, render: seq<Solution> -> string)
    returns (file: CsvFile, saved: Option<string>)
    requires forall i :: 0 <= i < |runs| ==> WellFormed(runs[i], extended)
    ensures fresh(file) && file.path == csvFilePath + ".csv"
    ensures file.text == CsvText([Header(extended)] + UpToFailure(AmorLines(extended, runs, render)))
    ensures saved == if |runs| > 0 && |UpToFailure(AmorLines(extended, runs, render))| == |runs|
                     then Some(EnquiredOntologyPath(csvFilePath)) else None
  {
    ghost var composed := AmorLines(extended, runs, render);
    var lines: seq<Option<string>> := [];
    var i := 0;
    while i < |runs|
      invariant 0 <= i <= |runs| && lines == composed[..i]
    {
      var line := AmorCsvLine(extended, runs[i], render);
      NextLine(lines, composed, i, line);
      lines := lines + [line];
      i := i + 1;
    }
    assert composed[..i] == composed;
    file := new CsvFile(csvFilePath + ".csv");
    file.WriteHeader(extended);
    var complete := WriteLines(file, Header(extended), lines);
    saved := if complete && |runs| > 0 then Some(EnquiredOntologyPath(csvFilePath)) else None;
  }

  /** `OWLAPICsvFileManager`: the header, then the OWL-API line of each query in list order. */
  method OwlApiCsvFileManager(extended: bool, runs: seq<QueryRun>, csvFilePath: string, render: seq<Solution> -> string)
    returns (file: CsvFile)
    requires forall i :: 0 <= i < |runs| ==> WellFormed(runs[i], extended)
    ensures fresh(file) && file.path == csvFilePath + ".csv"
    ensures file.text == CsvText([Header(extended)] + UpToFailure(OwlApiLines(extended, runs, csvFilePath, render)))
  {
    ghost var composed := OwlApiLines(extended, runs, csvFilePath, render);
    var lines: seq<Option<string>> := [];
    var i := 0;
    while i < |runs|
      invariant 0 <= i <= |runs| && lines == composed[..i]
    {
      var line := OwlApiCsvLine(extended, runs[i], csvFilePath, render);
      NextLine(lines, composed, i, line);
      lines := lines + [line];
      i := i + 1;
    }
    assert composed[..i] == composed;
    file := new CsvFile(csvFilePath + ".csv");
    file.WriteHeader(extended);
    var _ := WriteLines(file, Header(extended), lines);
  }

  /**
   * All OWL-API lines take their ids from the same file name, so the file
   * holds either the line of every query or none at all.
   */
  lemma OwlApiAllOrNothing(extended: bool, runs: seq<QueryRun>, csvFilePath: string, render: seq<Solution> -> string)
    requires forall i :: 0 <= i < |runs| ==> WellFormed(runs[i], extended)
    ensures var written := UpToFailure(OwlApiLines(extended, runs, csvFilePath, render));
            written == [] || |written| == |runs|
  {
    var lines := OwlApiLines(extended, runs, csvFilePath, render);
    var written := UpToFailure(lines);
  }

  /**
   * Read back at its line separators, a CSV file is exactly its header and
   * then its lines, provided no line holds a line separator.
   */
  lemma CsvFileLines(extended: bool, lines: seq<string>)
    requires forall i :: 0 <= i < |lines| ==> '\n' !in lines[i]
    ensures FileManagement.SplitLines(CsvText([Header(extended)] + lines)) == [Header(extended)] + lines
  {
    HeaderHasNoNewLine(extended);
    HeaderThenLines(Header(extended), lines);
  }

  lemma HeaderThenLines(header: string, lines: seq<string>)
    requires '\n' !in header && forall i :: 0 <= i < |lines| ==> '\n' !in lines[i]
    ensures FileManagement.SplitLines(CsvText([header] + lines)) == [header] + lines
  {
    FileManagement.SplitTxtFormat([header] + lines);
  }

  lemma HeaderHasNoNewLine(extended: bool)
    ensures '\n' !in Header(extended)
  {
    JoinAvoids(Columns(extended), DELIMITER, '\n');
  }

  /** A joined text holds a character only if the separator or a piece does. */
  lemma {:induction false} JoinAvoids(xs: seq<string>, sep: char, c: char)
    requires c != sep && forall i :: 0 <= i < |xs| ==> c !in xs[i]
    ensures c !in Join(xs, sep)
    decreases |xs|
  {
    if |xs| > 1 {
      JoinAvoids(xs[1..], sep, c);
    }
  }
}
