/**
 * The chart script that compares, query by query, the average execution
 * time of aMOR with that of the OWL API on one ontology.
 *
 * The script walks a results directory, collects the CSV files of the two
 * engines, takes them two by two in walk order, reads the `average[ns]`
 * column of both files of a pair and plots one grouped bar chart per pair.
 *
 * The directory walk is given as the sequence of the file names it yields;
 * the working directory, against which those bare names are resolved, is a
 * parameter. Reading a CSV file is the parameter `read`: the rows of the
 * file at a path, each a map from column name to the raw text of the cell.
 * Plotting is reduced to the chart it is asked to draw.
 */
module QueriesChart {
  import opened Wrappers
  import opened Text

  /** The column holding the time of one query. */
  const TIME_CSV_ID: string := "average[ns]"

  /** The labels of the 14 bars of each series. */
  const QUERY: seq<string> := ["1", "2", "3", "4", "5", "6", "7", "8", "9", "10", "11", "12", "13", "14"]

  /** The labels are the query numbers 1 to 14, in order. */
  lemma QueryLabels()
    ensures |QUERY| == 14 && forall k :: 0 <= k < 14 ==> QUERY[k] == NatToString(k + 1)
  {
    forall k | 0 <= k < 14
      ensures QUERY[k] == NatToString(k + 1)
    {
      if k + 1 >= 10 {
        assert NatToString(k + 1) == NatToString(1) + [DigitChar(k + 1 - 10)];
      }
    }
  }

  /** A data row of a CSV file: column name to cell text. */
  type Row = map<string, string>

  // ---------------------------------------------------------------------
  // Collecting the result files.
  // ---------------------------------------------------------------------

  /** `os.path.realpath` of a bare name: the name resolved against the working directory. */
  function RealPath(cwd: string, name: string): string {
    cwd + "/" + name
  }

  /** How many times a walked name is collected: once per tag its resolved path holds. */
  function Weight(cwd: string, name: string): nat {
    (if Contains(RealPath(cwd, name), "aMOR-") then 1 else 0)
    + (if Contains(RealPath(cwd, name), "OWLAPI") then 1 else 0)
  }

  /** What one walked name adds to the list. */
  function Tagged(cwd: string, name: string): (r: seq<string>)
    ensures |r| == Weight(cwd, name) && forall k :: 0 <= k < |r| ==> r[k] == name
  {
    (if Contains(RealPath(cwd, name), "aMOR-") then [name] else [])
    + (if Contains(RealPath(cwd, name), "OWLAPI") then [name] else [])
  }

  /** The list of elements collected from the walked names, in walk order. */
  function Collected(cwd: string, walked: seq<string>): seq<string> {
    if |walked| == 0 then []
    else Collected(cwd, walked[..|walked| - 1]) + Tagged(cwd, walked[|walked| - 1])
  }

  /** The collecting loop over the walked names. */
  method CollectElements(cwd: string, walked: seq<string>) returns (list: seq<string>)
    ensures list == Collected(cwd, walked)
  {
    list := [];
    var n := 0;
    while n < |walked|
      invariant 0 <= n <= |walked| && list == Collected(cwd, walked[..n])
    {
      var file := walked[n];
      assert walked[..n + 1][..n] == walked[..n];
      if Contains(RealPath(cwd, file), "aMOR-") {
        list := list + [file];
      }
      if Contains(RealPath(cwd, file), "OWLAPI") {
        list := list + [file];
      }
      n := n + 1;
    }
    assert walked[..n] == walked;
  }

  /**
   * A name is collected as many times as it is walked, times its weight: a
   * name whose path holds both tags is collected twice per walk, a name
   * holding neither is never collected.
   */
  lemma {:induction false} CollectedCount(cwd: string, walked: seq<string>, name: string)
    ensures multiset(Collected(cwd, walked))[name] == multiset(walked)[name] * Weight(cwd, name)
  {
    if |walked| > 0 {
      var init, last := walked[..|walked| - 1], walked[|walked| - 1];
      var w := Weight(cwd, name);
      CollectedCount(cwd, init, name);
      SnocParts(walked);
      CountAppend(Collected(cwd, init), Tagged(cwd, last), name);
      CountAppend(init, [last], name);
      TaggedCount(cwd, last, name);
      CountOne(last, name);
      Distribute(multiset(init)[name], multiset([last])[name], w);
    }
  }

  lemma CountOne<T>(x: T, y: T)
    ensures multiset([x])[y] == if x == y then 1 else 0
  {
  }

  lemma SnocParts<T>(s: seq<T>)
    requires |s| > 0
    ensures s == s[..|s| - 1] + [s[|s| - 1]]
  {
  }

  lemma CountAppend<T>(a: seq<T>, b: seq<T>, x: T)
    ensures multiset(a + b)[x] == multiset(a)[x] + multiset(b)[x]
  {
  }

  lemma Distribute(m: nat, n: nat, w: nat)
    requires n <= 1
    ensures (m + n) * w == m * w + (if n == 1 then w else 0)
  {
  }

  lemma TaggedCount(cwd: string, last: string, name: string)
    ensures multiset(Tagged(cwd, last))[name] == if last == name then Weight(cwd, name) else 0
  {
    var t := Tagged(cwd, last);
    if |t| == 2 {
      assert t == [last, last];
    } else if |t| == 1 {
      assert t == [last];
    } else {
      assert t == [];
    }
  }

  /** A name is in the list exactly when it was walked and its path holds a tag. */
  lemma CollectedMember(cwd: string, walked: seq<string>, name: string)
    ensures name in Collected(cwd, walked) <==> name in walked && Weight(cwd, name) > 0
  {
    var list := Collected(cwd, walked);
    CollectedCount(cwd, walked, name);
    PositiveProduct(multiset(walked)[name], Weight(cwd, name));
    assert name in list <==> name in multiset(list);
    assert name in walked <==> name in multiset(walked);
  }

  lemma PositiveProduct(m: nat, w: nat)
    ensures m * w > 0 <==> m > 0 && w > 0
  {
    if m > 0 && w > 0 {
      assert m * w >= w by {
        assert m * w == (m - 1) * w + w;
      }
    }
  }

  // ---------------------------------------------------------------------
  // The roles and locations of a pair.
  // ---------------------------------------------------------------------

  /** The aMOR name of a pair, the file to read as aMOR and the file to read as the OWL API. */
  datatype Roles = Roles(amorName: string, amorFile: string, owlapiFile: string)

  /** The file of a result name: in the directory named after it without its prefix and `.csv`. */
  function CsvLocation(results: string, name: string, prefix: string): string
    requires |prefix| > 0
  {
    results + "/" + ReplaceAll(ReplaceAll(name, prefix, ""), ".csv", "") + "/" + name
  }

  /**
   * The roles of the pair `(first, second)`, decided by the tags of `first`
   * alone: with `OWLAPI` the partner is read as aMOR, with `aMOR-` (and no
   * `OWLAPI`) as the OWL API. With neither tag the roles of the previous
   * pair stay, and on the first pair there are none.
   */
  function ChooseRoles(results: string, first: string, second: string, prev: Option<Roles>): Option<Roles> {
    if Contains(first, "OWLAPI") then
      Some(Roles(second, CsvLocation(results, second, "aMOR-"), CsvLocation(results, first, "OWLAPI-")))
    else if Contains(first, "aMOR-") then
      Some(Roles(first, CsvLocation(results, first, "aMOR-"), CsvLocation(results, second, "OWLAPI-")))
    else prev
  }

  /** The charts directory of a pair: its first name without either prefix and `.csv`. */
  function ChartsDir(results: string, first: string): string {
    results + "/" + ReplaceAll(ReplaceAll(ReplaceAll(first, "aMOR-", ""), "OWLAPI-", ""), ".csv", "") + "/Charts"
  }

  /** The name a chart is saved under: the aMOR name without `aMOR-`, `.csv`, `uni` and `dep`. */
  function ShortName(amorName: string): string {
    ReplaceAll(ReplaceAll(ReplaceAll(ReplaceAll(amorName, "aMOR-", ""), ".csv", ""), "uni", ""), "dep", "")
  }

  function ChartPath(chartsDir: string, amorName: string): string {
    chartsDir + "/average-time-Chart-" + ShortName(amorName) + ".html"
  }

  // ---------------------------------------------------------------------
  // Properties of the locations.
  // ---------------------------------------------------------------------

  /** A run name free of the characters the tags and `.csv` start with or hold. */
  predicate PlainRunName(r: string) {
    'a' !in r && 'O' !in r && 'W' !in r && '.' !in r
  }

  /** Removing the prefix and `.csv` from `prefix + r + ".csv"` leaves `r`. */
  lemma StripName(prefix: string, r: string)
    requires |prefix| > 0 && prefix[0] !in r && prefix[0] !in ".csv" && '.' !in r
    ensures ReplaceAll(ReplaceAll(prefix + r + ".csv", prefix, ""), ".csv", "") == r
  {
    StripAround(prefix, r, ".csv");
  }

  lemma StripAround(prefix: string, r: string, ext: string)
    requires |prefix| > 0 && |ext| > 0 && prefix[0] !in r && prefix[0] !in ext && ext[0] !in r
    ensures ReplaceAll(ReplaceAll(prefix + r + ext, prefix, ""), ext, "") == r
  {
    StripFront(prefix, r + ext);
    assert prefix + r + ext == prefix + (r + ext);
    NotInEither(prefix[0], r, ext);
    ReplaceAllAbsent(r + ext, prefix, "");
    StripBack(r, ext);
  }

  /** Removing a pattern from its own front. */
  lemma StripFront(pat: string, y: string)
    requires |pat| > 0 && pat[0] !in y
    ensures ReplaceAll(pat + y, pat, "") == y
  {
    ReplaceAllAtFront(y, pat, "");
    ReplaceAllAbsent(y, pat, "");
    EmptyThen(y);
  }

  /** Removing a pattern from the back of a text it cannot start in. */
  lemma StripBack(x: string, pat: string)
    requires |pat| > 0 && pat[0] !in x
    ensures ReplaceAll(x + pat, pat, "") == x
  {
    ReplaceAllSkips(x, pat, pat, "");
    StripFront(pat, "");
    assert pat + "" == pat;
    assert x + "" == x;
  }

  lemma EmptyThen(y: string)
    ensures "" + y == y
  {
  }

  lemma NotInEither(c: char, x: string, y: string)
    requires c !in x && c !in y
    ensures c !in x + y
  {
  }

  /** A text holds the pattern it starts with. */
  lemma ContainsAtFront(p: string, y: string)
    ensures Contains(p + y, p)
  {
    ContainsInMiddle("", p, y);
    EmptyThen(p);
  }

  /** Regrouping a literal prefix: `pq + y` is `p + (q + y)` when `pq` is `p + q`. */
  lemma Regroup(pq: string, p: string, q: string, y: string)
    requires pq == p + q
    ensures pq + y == p + (q + y)
  {
  }

  lemma TagFacts(r: string)
    requires PlainRunName(r)
    ensures Contains("OWLAPI-" + r + ".csv", "OWLAPI")
    ensures !Contains("aMOR-" + r + ".csv", "OWLAPI") && Contains("aMOR-" + r + ".csv", "aMOR-")
  {
    Regroup("OWLAPI-" + r, "OWLAPI", "-" + r, ".csv");
    Regroup("OWLAPI-", "OWLAPI", "-", r);
    ContainsAtFront("OWLAPI", "-" + r + ".csv");
    Regroup("aMOR-" + r, "aMOR-", r, ".csv");
    ContainsAtFront("aMOR-", r + ".csv");
    NotInEither('W', "aMOR-", r);
    NotInEither('W', "aMOR-" + r, ".csv");
    MissingCharNotContained("aMOR-" + r + ".csv", "OWLAPI", 1);
  }

  /**
   * An aMOR file first: it is the aMOR file of the pair, read from the
   * directory of its run, and whatever follows is read as the OWL API.
   */
  lemma AmorFirstRoles(results: string, r: string, second: string, prev: Option<Roles>)
    requires PlainRunName(r)
    ensures var a := "aMOR-" + r + ".csv";
            ChooseRoles(results, a, second, prev)
            == Some(Roles(a, results + "/" + r + "/" + a, CsvLocation(results, second, "OWLAPI-")))
  {
    TagFacts(r);
    StripName("aMOR-", r);
  }

  /**
   * An OWL API file first: it is the OWL API file of the pair, read from the
   * directory of its run, and whatever follows is read as aMOR.
   */
  lemma OwlApiFirstRoles(results: string, r: string, second: string, prev: Option<Roles>)
    requires PlainRunName(r)
    ensures var o := "OWLAPI-" + r + ".csv";
            ChooseRoles(results, o, second, prev)
            == Some(Roles(second, CsvLocation(results, second, "aMOR-"), results + "/" + r + "/" + o))
  {
    TagFacts(r);
    StripName("OWLAPI-", r);
  }

  /** Both prefixes lead to the same charts directory, the one of the run. */
  lemma ChartsDirOfRun(results: string, r: string)
    requires PlainRunName(r)
    ensures ChartsDir(results, "aMOR-" + r + ".csv") == results + "/" + r + "/Charts"
    ensures ChartsDir(results, "OWLAPI-" + r + ".csv") == results + "/" + r + "/Charts"
  {
    StripThree("aMOR-", "OWLAPI-", r, ".csv");
    StripThreeSecond("aMOR-", "OWLAPI-", r, ".csv");
  }

  /** The first of two removed prefixes, at the front. */
  lemma StripThree(p: string, q: string, r: string, ext: string)
    requires |p| > 0 && |q| > 0 && |ext| > 0
    requires p[0] !in r && p[0] !in ext && q[0] !in r && q[0] !in ext && ext[0] !in r
    ensures ReplaceAll(ReplaceAll(ReplaceAll(p + r + ext, p, ""), q, ""), ext, "") == r
  {
    StripFront(p, r + ext);
    assert p + r + ext == p + (r + ext);
    NotInEither(p[0], r, ext);
    ReplaceAllAbsent(r + ext, p, "");
    NotInEither(q[0], r, ext);
    ReplaceAllAbsent(r + ext, q, "");
    StripBack(r, ext);
  }

  /** The second of two removed prefixes, at the front. */
  lemma StripThreeSecond(p: string, q: string, r: string, ext: string)
    requires |p| > 0 && |q| > 0 && |ext| > 0
    requires p[0] !in q && p[0] !in r && p[0] !in ext && q[0] !in r && q[0] !in ext && ext[0] !in r
    ensures ReplaceAll(ReplaceAll(ReplaceAll(q + r + ext, p, ""), q, ""), ext, "") == r
  {
    NotInEither(p[0], q, r);
    NotInEither(p[0], q + r, ext);
    ReplaceAllAbsent(q + r + ext, p, "");
    StripAround(q, r, ext);
  }

  /** The chart of run `uni<u>-dep<d>` is saved as `<u>-<d>`. */
  lemma ShortNameOfRun(u: string, d: string)
    requires |u| > 0 && |d| > 0
    requires forall k :: 0 <= k < |u| ==> IsDigit(u[k])
    requires forall k :: 0 <= k < |d| ==> IsDigit(d[k])
    ensures ShortName("aMOR-" + ("uni" + u + "-dep" + d) + ".csv") == u + "-" + d
  {
    DigitsAvoid(u);
    DigitsAvoid(d);
    Regroup("-dep", "-", "dep", d);
    ShortOfParts("aMOR-" + ("uni" + u + "-dep" + d) + ".csv", "aMOR-", "uni", u, "-", "dep", d, ".csv");
  }

  /**
   * The four removals on `p + a + u + m + b + d + ext`: the prefix and the
   * extension go, then `a` at the front, then `b` after `u + m`.
   */
  lemma ShortOfParts(x: string, p: string, a: string, u: string, m: string, b: string, d: string, ext: string)
    requires x == p + (a + u + m + b + d) + ext
    requires |p| > 0 && |ext| > 0 && |a| > 0 && |b| > 0
    requires p[0] !in a + u + m + b + d && p[0] !in ext && ext[0] !in a + u + m + b + d
    requires a[0] !in u + m + b + d && b[0] !in u + m && b[0] !in d
    ensures ReplaceAll(ReplaceAll(ReplaceAll(ReplaceAll(x, p, ""), ext, ""), a, ""), b, "") == u + m + d
  {
    var y := a + u + m + b + d;
    StripAround(p, y, ext);
    var z := u + m + b + d;
    Assoc4(a, u, m, b, d);
    StripFront(a, z);
    StripInner(u + m, b, d);
  }

  lemma Assoc4(a: string, u: string, m: string, b: string, d: string)
    ensures a + u + m + b + d == a + (u + m + b + d)
    ensures u + m + b + d == (u + m) + (b + d)
  {
  }

  /** Removing `b` from `w + b + d` where `b` cannot start in `w` nor in `d`. */
  lemma StripInner(w: string, b: string, d: string)
    requires |b| > 0 && b[0] !in w && b[0] !in d
    ensures ReplaceAll(w + (b + d), b, "") == w + d
  {
    ReplaceAllSkips(w, b + d, b, "");
    StripFront(b, d);
  }

  /** Digits are none of the letters and marks a name is edited at. */
  lemma DigitsAvoid(s: string)
    requires forall k :: 0 <= k < |s| ==> IsDigit(s[k])
    ensures 'a' !in s && '.' !in s && 'u' !in s && 'd' !in s && 'O' !in s && 'W' !in s
  {
    forall c | c in s
      ensures '0' <= c <= '9'
    {
      var k :| 0 <= k < |s| && s[k] == c;
      assert IsDigit(s[k]);
    }
  }

  // ---------------------------------------------------------------------
  // Reading a column and drawing the charts.
  // ---------------------------------------------------------------------

  /**
   * The cells of column `key`, one per row in row order, as raw text; `None`
   * stands for the `KeyError` of a row without that column.
   */
  function Column(rows: seq<Row>, key: string): (r: Option<seq<string>>)
    ensures r.Some? <==> forall j :: 0 <= j < |rows| ==> key in rows[j]
    ensures r.Some? ==> |r.value| == |rows| && forall j :: 0 <= j < |rows| ==> r.value[j] == rows[j][key]
  {
    if |rows| == 0 then Some([])
    else
      var last := rows[|rows| - 1];
      match Column(rows[..|rows| - 1], key)
      case None => None
      case Some(init) => if key in last then Some(init + [last[key]]) else None
  }

  /**
   * One grouped bar chart: the first name of the pair it is drawn for, the
   * aMOR name of the pair, the bar labels and the aMOR and OWL API series.
   */
  datatype AverageChart = AverageChart(first: string, amorName: string, x: seq<string>, amor: seq<string>, owlapi: seq<string>)

  /** The HTML file a chart is saved to, in the charts directory of its pair. */
  function SavedAt(results: string, chart: AverageChart): string {
    ChartPath(ChartsDir(results, chart.first), chart.amorName)
  }

  /** The charts drawn, and whether the script stopped on an error before the end. */
  datatype Outcome = Outcome(charts: seq<AverageChart>, crashed: bool)

  /** Whether `first` carries a tag, so that the files of its pair are opened anew. */
  predicate Reopens(first: string) {
    Contains(first, "OWLAPI") || Contains(first, "aMOR-")
  }

  /**
   * The rows a new `csv.DictReader` yields over a file of the pair: all of
   * them when the file was just opened, none when it is still the file of
   * the previous pair, which that pair read to its end.
   */
  function RowsRead(read: string -> seq<Row>, path: string, reopened: bool): seq<Row> {
    if reopened then read(path) else []
  }

  /** A tagged first name always sets the roles; an untagged one keeps the previous roles. */
  lemma RolesStay(results: string, first: string, second: string, prev: Option<Roles>)
    ensures Reopens(first) ==> ChooseRoles(results, first, second, prev).Some?
    ensures !Reopens(first) ==> ChooseRoles(results, first, second, prev) == prev
  {
  }

  /**
   * One turn of the pairing loop: the roles of `first` and `second` and the
   * chart drawn from their files, or `None` when the script stops there
   * (`NameError` without roles, `KeyError` without the time column).
   */
  function DrawPair(results: string, first: string, second: string, read: string -> seq<Row>, prev: Option<Roles>)
    : Option<(Roles, AverageChart)>
  {
    match ChooseRoles(results, first, second, prev)
    case None => None
    case Some(roles) =>
      var reopened := Reopens(first);
      match (Column(RowsRead(read, roles.owlapiFile, reopened), TIME_CSV_ID),
             Column(RowsRead(read, roles.amorFile, reopened), TIME_CSV_ID))
      case (Some(owlapi), Some(amor)) => Some((roles, AverageChart(first, roles.amorName, QUERY, amor, owlapi)))
      case _ => None
  }

  /**
   * A turn draws a chart exactly when the pair has roles and both files have
   * the time column; the chart carries the aMOR name of the roles and the
   * time cells of both files.
   */
  lemma DrawPairMeans(results: string, first: string, second: string, read: string -> seq<Row>, prev: Option<Roles>)
    ensures var r := DrawPair(results, first, second, read, prev);
            && (r.Some? ==> ChooseRoles(results, first, second, prev) == Some(r.value.0))
            && (r.Some? ==> r.value.1.first == first && r.value.1.amorName == r.value.0.amorName && r.value.1.x == QUERY)
            && (r.Some? ==> Some(r.value.1.amor) == Column(RowsRead(read, r.value.0.amorFile, Reopens(first)), TIME_CSV_ID))
            && (r.Some? ==> Some(r.value.1.owlapi) == Column(RowsRead(read, r.value.0.owlapiFile, Reopens(first)), TIME_CSV_ID))
            && (r.None? <==> match ChooseRoles(results, first, second, prev)
                             case None => true
                             case Some(roles) => Column(RowsRead(read, roles.amorFile, Reopens(first)), TIME_CSV_ID).None?
                                                 || Column(RowsRead(read, roles.owlapiFile, Reopens(first)), TIME_CSV_ID).None?)
  {
  }

  /**
   * The pairs from position `i` on, with `prev` the roles left by the pair
   * before; a pair on which the script stops ends the outcome as crashed.
   */
  function ChartsFrom(results: string, list: seq<string>, read: string -> seq<Row>, i: nat, prev: Option<Roles>)
    : (r: Outcome)
    requires i <= |list|
    ensures r.crashed ==> |r.charts| < (|list| - i) / 2
    ensures !r.crashed ==> |r.charts| == (|list| - i) / 2
    decreases |list| - i
  {
    if i >= |list| - 1 then Outcome([], false)
    else
      match DrawPair(results, list[i], list[i + 1], read, prev)
      case None => Outcome([], true)
      case Some((roles, chart)) =>
        var rest := ChartsFrom(results, list, read, i + 2, Some(roles));
        Outcome([chart] + rest.charts, rest.crashed)
  }

  /** The whole script on the collected list. */
  function Charts(results: string, list: seq<string>, read: string -> seq<Row>): Outcome {
    ChartsFrom(results, list, read, 0, None)
  }

  /** The reading loop over the rows of one file: the cell of `key` of each row. */
  method ReadColumn(rows: seq<Row>, key: string) returns (column: Option<seq<string>>)
    ensures column == Column(rows, key)
  {
    var cells: seq<string> := [];
    var j := 0;
    while j < |rows|
      invariant 0 <= j <= |rows| && Column(rows[..j], key) == Some(cells)
    {
      var line := rows[j];
      assert rows[..j + 1][..j] == rows[..j];
      if key !in line {
        assert Column(rows[..j + 1], key).None?;
        ColumnStops(rows, key, j + 1);
        return None;
      }
      cells := cells + [line[key]];
      j := j + 1;
    }
    assert rows[..j] == rows;
    return Some(cells);
  }

  /** Once a row lacks the column, so does every longer prefix of the file. */
  lemma ColumnStops(rows: seq<Row>, key: string, n: int)
    requires 0 <= n <= |rows| && Column(rows[..n], key).None?
    ensures Column(rows, key).None?
  {
    var j :| 0 <= j < n && key !in rows[..n][j];
    assert rows[j] == rows[..n][j];
  }

  /** The body of the pairing loop: choose the roles, then read both files. */
  method DrawOne(results: string, first: string, second: string, read: string -> seq<Row>, prev: Option<Roles>)
    returns (drawn: Option<(Roles, AverageChart)>)
    ensures drawn == DrawPair(results, first, second, read, prev)
  {
    var roles := ChooseRoles(results, first, second, prev);
    if roles.None? {
      return None;
    }
    var reopened := Contains(first, "OWLAPI") || Contains(first, "aMOR-");
    var owlapiTime := ReadColumn(RowsRead(read, roles.value.owlapiFile, reopened), TIME_CSV_ID);
    var amorTime := ReadColumn(RowsRead(read, roles.value.amorFile, reopened), TIME_CSV_ID);
    if owlapiTime.None? || amorTime.None? {
      return None;
    }
    return Some((roles.value, AverageChart(first, roles.value.amorName, QUERY, amorTime.value, owlapiTime.value)));
  }

  lemma AppendThen<T>(a: seq<T>, x: T, b: seq<T>)
    ensures a + ([x] + b) == (a + [x]) + b
  {
  }

  lemma AppendNothing<T>(a: seq<T>)
    ensures a + [] == a
  {
  }

  /** The pairing loop: the cursor steps by two while a partner follows it. */
  method DrawCharts(results: string, list: seq<string>, read: string -> seq<Row>)
    returns (charts: seq<AverageChart>, crashed: bool)
    ensures Outcome(charts, crashed) == Charts(results, list, read)
  {
    charts, crashed := [], false;
    var i := 0;
    var roles: Option<Roles> := None;
    DrawnStart(results, list, read);
    while i < |list| - 1
      invariant 0 <= i <= |list| && Drawn(results, list, read, i, roles, charts)
      decreases |list| - i
    {
      var stop;
      charts, roles, stop := DrawStep(results, list, read, i, roles, charts);
      if stop {
        return charts, true;
      }
      i := i + 2;
    }
    DrawnEnd(results, list, read, i, roles, charts);
  }

  /** Before the loop nothing is drawn and every pair is still ahead. */
  lemma DrawnStart(results: string, list: seq<string>, read: string -> seq<Row>)
    ensures Drawn(results, list, read, 0, None, [])
  {
    var rest := ChartsFrom(results, list, read, 0, None);
    assert [] + rest.charts == rest.charts;
  }

  /** Once no partner follows the cursor, the charts drawn are the whole outcome. */
  lemma DrawnEnd(results: string, list: seq<string>, read: string -> seq<Row>, i: nat, roles: Option<Roles>,
                 charts: seq<AverageChart>)
    requires |list| - 1 <= i <= |list| && Drawn(results, list, read, i, roles, charts)
    ensures Charts(results, list, read) == Outcome(charts, false)
  {
    assert ChartsFrom(results, list, read, i, roles) == Outcome([], false);
    AppendNothing(charts);
  }

  /** The charts drawn so far followed by those of the pairs from `i` on make the whole outcome. */
  ghost predicate Drawn(results: string, list: seq<string>, read: string -> seq<Row>, i: nat, roles: Option<Roles>,
                        charts: seq<AverageChart>)
    requires i <= |list|
  {
    var rest := ChartsFrom(results, list, read, i, roles);
    Charts(results, list, read) == Outcome(charts + rest.charts, rest.crashed)
  }

  /** One turn of the pairing loop: a chart more, or the stop of the script. */
  method DrawStep(results: string, list: seq<string>, read: string -> seq<Row>, i: nat, roles: Option<Roles>,
                  charts: seq<AverageChart>)
    returns (charts': seq<AverageChart>, roles': Option<Roles>, stop: bool)
    requires i + 1 < |list| && Drawn(results, list, read, i, roles, charts)
    ensures stop ==> Charts(results, list, read) == Outcome(charts', true)
    ensures !stop ==> Drawn(results, list, read, i + 2, roles', charts')
  {
    var drawn := DrawOne(results, list[i], list[i + 1], read, roles);
    if drawn.None? {
      AppendNothing(charts);
      return charts, roles, true;
    }
    var chart := drawn.value.1;
    roles' := Some(drawn.value.0);
    AppendThen(charts, chart, ChartsFrom(results, list, read, i + 2, roles').charts);
    charts' := charts + [chart];
    stop := false;
  }

  /**
   * Each series holds the time cell of every row its reader yields, in row
   * order: every data row of a file opened for this pair, none of a file
   * kept from the previous pair.
   */
  lemma SeriesAreColumns(results: string, list: seq<string>, read: string -> seq<Row>, i: nat, prev: Option<Roles>)
    requires i + 1 < |list| && ChooseRoles(results, list[i], list[i + 1], prev).Some?
    requires |ChartsFrom(results, list, read, i, prev).charts| > 0
    ensures var roles := ChooseRoles(results, list[i], list[i + 1], prev).value;
            var amorRows := RowsRead(read, roles.amorFile, Reopens(list[i]));
            var owlapiRows := RowsRead(read, roles.owlapiFile, Reopens(list[i]));
            var chart := ChartsFrom(results, list, read, i, prev).charts[0];
            && |chart.amor| == |amorRows| && |chart.owlapi| == |owlapiRows|
            && (forall j :: 0 <= j < |chart.amor| ==> chart.amor[j] == amorRows[j][TIME_CSV_ID])
            && (forall j :: 0 <= j < |chart.owlapi| ==> chart.owlapi[j] == owlapiRows[j][TIME_CSV_ID])
            && chart.x == QUERY && chart.amorName == roles.amorName
  {
    DrawPairMeans(results, list[i], list[i + 1], read, prev);
  }

  /**
   * A pair whose first name has no tag draws, under the previous aMOR name,
   * a chart with both series empty.
   */
  lemma StaleRolesDrawEmpty(results: string, list: seq<string>, read: string -> seq<Row>, i: nat, prev: Option<Roles>)
    requires i + 1 < |list| && !Reopens(list[i]) && prev.Some?
    ensures var outcome := ChartsFrom(results, list, read, i, prev);
            |outcome.charts| > 0 && outcome.charts[0] == AverageChart(list[i], prev.value.amorName, QUERY, [], [])
  {
    RolesStay(results, list[i], list[i + 1], prev);
    DrawPairMeans(results, list[i], list[i + 1], read, prev);
  }

  /** A last element without a partner is never read: appending one changes nothing. */
  lemma {:induction false} TrailingIgnored(results: string, list: seq<string>, x: string, read: string -> seq<Row>,
                                           i: nat, prev: Option<Roles>)
    requires i <= |list| && (|list| - i) % 2 == 0
    ensures ChartsFrom(results, list + [x], read, i, prev) == ChartsFrom(results, list, read, i, prev)
    decreases |list| - i
  {
    if i < |list| {
      assert (list + [x])[i] == list[i] && (list + [x])[i + 1] == list[i + 1];
      var drawn := DrawPair(results, list[i], list[i + 1], read, prev);
      if drawn.Some? {
        TrailingIgnored(results, list, x, read, i + 2, Some(drawn.value.0));
      }
    }
  }

  /**
   * A pair of the same run in either order gives the aMOR file as the aMOR
   * name and reads the aMOR and the OWL API files from the directory of the
   * run.
   */
  lemma MatchedPair(results: string, u: string, d: string, amorFirst: bool, prev: Option<Roles>)
    requires |u| > 0 && |d| > 0
    requires forall k :: 0 <= k < |u| ==> IsDigit(u[k])
    requires forall k :: 0 <= k < |d| ==> IsDigit(d[k])
    ensures var r := "uni" + u + "-dep" + d;
            var a, o := "aMOR-" + r + ".csv", "OWLAPI-" + r + ".csv";
            var first, second := if amorFirst then a else o, if amorFirst then o else a;
            ChooseRoles(results, first, second, prev)
            == Some(Roles(a, results + "/" + r + "/" + a, results + "/" + r + "/" + o))
  {
    var r := "uni" + u + "-dep" + d;
    assert PlainRunName(r) by {
      DigitsAvoid(u);
      DigitsAvoid(d);
    }
    var a, o := "aMOR-" + r + ".csv", "OWLAPI-" + r + ".csv";
    if amorFirst {
      AmorFirstRoles(results, r, o, prev);
      StripName("OWLAPI-", r);
    } else {
      OwlApiFirstRoles(results, r, a, prev);
      StripName("aMOR-", r);
    }
  }

  /**
   * The chart of a pair of the same run, whichever file comes first, is saved
   * in the charts directory of that run under the name `<u>-<d>`.
   */
  lemma MatchedChartPath(results: string, u: string, d: string, amorFirst: bool)
    requires |u| > 0 && |d| > 0
    requires forall k :: 0 <= k < |u| ==> IsDigit(u[k])
    requires forall k :: 0 <= k < |d| ==> IsDigit(d[k])
    ensures var r := "uni" + u + "-dep" + d;
            var a, o := "aMOR-" + r + ".csv", "OWLAPI-" + r + ".csv";
            ChartPath(ChartsDir(results, if amorFirst then a else o), a)
            == results + "/" + r + "/Charts" + "/average-time-Chart-" + u + "-" + d + ".html"
  {
    var r := "uni" + u + "-dep" + d;
    var a, o := "aMOR-" + r + ".csv", "OWLAPI-" + r + ".csv";
    var dir := results + "/" + r;
    assert PlainRunName(r) by {
      DigitsAvoid(u);
      DigitsAvoid(d);
    }
    assert ChartsDir(results, if amorFirst then a else o) == dir + "/Charts" by {
      ChartsDirOfRun(results, r);
    }
    assert ShortName(a) == u + "-" + d by {
      ShortNameOfRun(u, d);
    }
    ChartPathOf(dir + "/Charts", a, u, d);
  }

  /** A chart path with a known short name. */
  lemma ChartPathOf(dir: string, amorName: string, u: string, d: string)
    requires ShortName(amorName) == u + "-" + d
    ensures ChartPath(dir, amorName) == dir + "/average-time-Chart-" + u + "-" + d + ".html"
  {
    Glue(dir + "/average-time-Chart-", u, "-", d, ".html");
  }

  lemma Glue(x: string, u: string, m: string, d: string, e: string)
    ensures x + (u + m + d) + e == x + u + m + d + e
  {
  }
}
