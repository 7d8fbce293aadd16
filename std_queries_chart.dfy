/**
 * The chart script that shows the spread of the ten measured execution
 * times of every query, for aMOR against the OWL API on one ontology.
 *
 * The script collects the CSV files of the two engines exactly as the
 * average-time script does (`QueriesChart.CollectElements`) and takes them
 * two by two in walk order. For each pair it reads, row by row, the cells
 * `time1[ns]` to `time10[ns]` of both files into 14 sample lists, one per
 * query, and draws 15 box charts: one per query with the aMOR and the OWL
 * API box side by side, and one with all 28 boxes.
 *
 * As in `QueriesChart`, reading a CSV file is the parameter `read` and
 * plotting is reduced to the chart it is asked to draw.
 */
module StdQueriesChart {
  import opened Wrappers
  import opened Text
  import QueriesChart
  import LubmTest

  type Row = QueriesChart.Row

  /** The number of queries, and of sample lists per file. */
  const QUERIES_NUMBER: nat := 14

  /** The number of times each query was executed, and of samples per list. */
  const TEST_NUMBER: nat := 10

  /** The column of the `k`-th execution time. */
  function TimeKey(k: nat): string {
    "time" + NatToString(k) + "[ns]"
  }

  /** The columns read are the ten duration columns of the extended benchmark CSV. */
  lemma TimeKeysAreWritten()
    ensures TEST_NUMBER == LubmTest.TRIALS
    ensures forall k :: 1 <= k <= TEST_NUMBER ==> TimeKey(k) == LubmTest.EXTENDED_COLUMNS[3 + k]
  {
    LubmTest.TimeColumnNames();
  }

  // ---------------------------------------------------------------------
  // Reading the samples of one file.
  // ---------------------------------------------------------------------

  /**
   * The cells `time1[ns]` to `time<n>[ns]` of a row, in order, or `None`
   * (a `KeyError`) when the row lacks one of them.
   */
  function TrialsUpTo(row: Row, n: nat): (r: Option<seq<string>>)
    ensures r.Some? <==> forall k :: 1 <= k <= n ==> TimeKey(k) in row
    ensures r.Some? ==> |r.value| == n && forall k :: 1 <= k <= n ==> r.value[k - 1] == row[TimeKey(k)]
  {
    if n == 0 then Some([])
    else
      match TrialsUpTo(row, n - 1)
      case None => None
      case Some(init) => if TimeKey(n) in row then Some(init + [row[TimeKey(n)]]) else None
  }

  /** The inner loop over `k`: the ten execution times of one row. */
  method ReadTrials(row: Row) returns (values: Option<seq<string>>)
    ensures values == TrialsUpTo(row, TEST_NUMBER)
  {
    var cells: seq<string> := [];
    var k := 1;
    while k <= TEST_NUMBER
      invariant 1 <= k <= TEST_NUMBER + 1 && TrialsUpTo(row, k - 1) == Some(cells)
    {
      var key := TimeKey(k);
      if key !in row {
        return None;
      }
      cells := cells + [row[key]];
      k := k + 1;
    }
    return Some(cells);
  }

  /**
   * The 14 sample lists of one file: list `q` holds the execution times of
   * row `q`, and a query without a row keeps its empty list. `None` when a
   * 15th row is read (`IndexError`) or a row lacks a time column
   * (`KeyError`).
   */
  function Samples(rows: seq<Row>): (r: Option<seq<seq<string>>>)
    ensures r.Some? ==> |r.value| == QUERIES_NUMBER
  {
    if |rows| <= QUERIES_NUMBER && forall j :: 0 <= j < |rows| ==> TrialsUpTo(rows[j], TEST_NUMBER).Some? then
      Some(seq(QUERIES_NUMBER, q => RowTimes(rows, q)))
    else None
  }

  /** The times of row `q`, empty for a query without a (complete) row. */
  function RowTimes(rows: seq<Row>, q: int): seq<string> {
    if 0 <= q < |rows| && TrialsUpTo(rows[q], TEST_NUMBER).Some? then TrialsUpTo(rows[q], TEST_NUMBER).value else []
  }

  /** The reading loop over the rows of one file, filling the 14 lists in place. */
  method FillSamples(rows: seq<Row>) returns (samples: Option<seq<seq<string>>>)
    ensures samples == Samples(rows)
  {
    var times := new seq<string>[QUERIES_NUMBER](_ => []);
    var j := 0;
    while j < |rows|
      invariant 0 <= j <= |rows| && j <= QUERIES_NUMBER && Filled(rows, times[..], j)
    {
      if j >= QUERIES_NUMBER {
        return None;
      }
      var values := ReadTrials(rows[j]);
      if values.None? {
        return None;
      }
      FillStep(rows, times[..], j);
      times[j] := times[j] + values.value;
      j := j + 1;
    }
    SamplesOfLists(rows, times[..]);
    samples := Some(times[..]);
  }

  /** The 14 lists after the first `done` rows: each of those rows' times in its own list, the rest empty. */
  ghost predicate Filled(rows: seq<Row>, lists: seq<seq<string>>, done: nat) {
    && done <= |rows| && |lists| == QUERIES_NUMBER
    && (forall q :: 0 <= q < done ==> TrialsUpTo(rows[q], TEST_NUMBER).Some?)
    && forall q :: 0 <= q < QUERIES_NUMBER ==> lists[q] == if q < done then RowTimes(rows, q) else []
  }

  /** Appending the times of the next complete row to its empty list fills one row more. */
  lemma FillStep(rows: seq<Row>, lists: seq<seq<string>>, j: nat)
    requires Filled(rows, lists, j) && j < |rows| && j < QUERIES_NUMBER && TrialsUpTo(rows[j], TEST_NUMBER).Some?
    ensures Filled(rows, lists[j := lists[j] + TrialsUpTo(rows[j], TEST_NUMBER).value], j + 1)
  {
  }

  /** Lists filled row by row, each row's times in its own list, are the samples of the file. */
  lemma SamplesOfLists(rows: seq<Row>, lists: seq<seq<string>>)
    requires |rows| <= QUERIES_NUMBER && |lists| == QUERIES_NUMBER
    requires Filled(rows, lists, |rows|)
    ensures Samples(rows) == Some(lists)
  {
    var all := Samples(rows);
    assert all.Some?;
    assert all.value == lists;
  }

  /**
   * A file yields its samples exactly when it has at most 14 rows, each with
   * all ten time columns; list `q` then holds the ten cells of row `q` in
   * column order, and the lists of queries without a row are empty.
   */
  lemma SamplesMeans(rows: seq<Row>)
    ensures Samples(rows).Some? <==>
              |rows| <= QUERIES_NUMBER
              && forall j, k :: 0 <= j < |rows| && 1 <= k <= TEST_NUMBER ==> TimeKey(k) in rows[j]
    ensures Samples(rows).Some? ==>
              && (forall q :: 0 <= q < |rows| ==> |Samples(rows).value[q]| == TEST_NUMBER)
              && (forall q, k :: 0 <= q < |rows| && 1 <= k <= TEST_NUMBER ==>
                                 Samples(rows).value[q][k - 1] == rows[q][TimeKey(k)])
              && (forall q :: |rows| <= q < QUERIES_NUMBER ==> Samples(rows).value[q] == [])
  {
    if |rows| <= QUERIES_NUMBER && forall j, k :: 0 <= j < |rows| && 1 <= k <= TEST_NUMBER ==> TimeKey(k) in rows[j] {
      forall j | 0 <= j < |rows|
        ensures TrialsUpTo(rows[j], TEST_NUMBER).Some?
      {
      }
    } else if |rows| <= QUERIES_NUMBER {
      var j, k :| 0 <= j < |rows| && 1 <= k <= TEST_NUMBER && TimeKey(k) !in rows[j];
      assert TrialsUpTo(rows[j], TEST_NUMBER).None?;
    }
  }

  // ---------------------------------------------------------------------
  // The charts of one pair.
  // ---------------------------------------------------------------------

  datatype Engine = Amor | OwlApi

  /** One box of a chart: the engine and the query it belongs to, and its samples. */
  datatype Box = Box(engine: Engine, query: nat, y: seq<string>)

  /** The legend label of a box: `aMOR query-<k>` or `OWL API query-<k>`. */
  function BoxName(box: Box): string {
    (if box.engine == Amor then "aMOR query-" else "OWL API query-") + NatToString(box.query)
  }

  /** A chart of one query, or the chart of all queries. */
  datatype Scope = SingleQuery(query: nat) | AllQueries

  /** One box chart: the charts directory and the aMOR name of its pair, its scope and its boxes. */
  datatype StdChart = StdChart(chartsDir: string, amorName: string, scope: Scope, boxes: seq<Box>)

  /** The HTML file a chart is saved to. */
  function SavedAt(chart: StdChart): string {
    match chart.scope
    case SingleQuery(k) =>
      chart.chartsDir + "/single-query-stddev" + "/query-" + NatToString(k) + "-Chart-"
      + QueriesChart.ShortName(chart.amorName) + ".html"
    case AllQueries =>
      chart.chartsDir + "/total-stddev-Chart-" + QueriesChart.ShortName(chart.amorName) + ".html"
  }

  /** The boxes of query `q + 1`: aMOR first, then the OWL API. */
  function QueryBoxes(amor: seq<seq<string>>, owlapi: seq<seq<string>>, q: nat): seq<Box>
    requires q < |amor| && q < |owlapi|
  {
    [Box(Amor, q + 1, amor[q]), Box(OwlApi, q + 1, owlapi[q])]
  }

  /** The 28 boxes of the total chart, alternating aMOR and the OWL API query by query. */
  function AllBoxes(amor: seq<seq<string>>, owlapi: seq<seq<string>>): seq<Box>
    requires |amor| == QUERIES_NUMBER && |owlapi| == QUERIES_NUMBER
  {
    seq(2 * QUERIES_NUMBER, t requires 0 <= t < 2 * QUERIES_NUMBER =>
      if t % 2 == 0 then Box(Amor, t / 2 + 1, amor[t / 2]) else Box(OwlApi, t / 2 + 1, owlapi[t / 2]))
  }

  /** The 15 charts of a pair: the 14 single-query charts in query order, then the total chart. */
  function PairCharts(dir: string, amorName: string, amor: seq<seq<string>>, owlapi: seq<seq<string>>): seq<StdChart>
    requires |amor| == QUERIES_NUMBER && |owlapi| == QUERIES_NUMBER
  {
    seq(QUERIES_NUMBER, q requires 0 <= q < QUERIES_NUMBER =>
      StdChart(dir, amorName, SingleQuery(q + 1), QueryBoxes(amor, owlapi, q)))
    + [StdChart(dir, amorName, AllQueries, AllBoxes(amor, owlapi))]
  }

  /**
   * The single-query charts cut the total chart into consecutive pairs of
   * boxes: chart `q` shows boxes `2q` and `2q + 1` of the total, labelled
   * with query `q + 1`.
   */
  lemma SinglesInTotal(dir: string, amorName: string, amor: seq<seq<string>>, owlapi: seq<seq<string>>)
    requires |amor| == QUERIES_NUMBER && |owlapi| == QUERIES_NUMBER
    ensures var charts := PairCharts(dir, amorName, amor, owlapi);
            && |charts| == QUERIES_NUMBER + 1 && charts[QUERIES_NUMBER].scope == AllQueries
            && |charts[QUERIES_NUMBER].boxes| == 2 * QUERIES_NUMBER
            && forall q :: 0 <= q < QUERIES_NUMBER ==>
                 && charts[q].scope == SingleQuery(q + 1)
                 && charts[q].boxes == charts[QUERIES_NUMBER].boxes[2 * q..2 * q + 2]
                 && BoxName(charts[q].boxes[0]) == "aMOR query-" + NatToString(q + 1)
                 && BoxName(charts[q].boxes[1]) == "OWL API query-" + NatToString(q + 1)
  {
    var charts := PairCharts(dir, amorName, amor, owlapi);
    var total := AllBoxes(amor, owlapi);
    forall q | 0 <= q < QUERIES_NUMBER
      ensures charts[q].boxes == total[2 * q..2 * q + 2]
    {
      assert total[2 * q] == Box(Amor, q + 1, amor[q]);
      assert total[2 * q + 1] == Box(OwlApi, q + 1, owlapi[q]);
    }
  }

  // ---------------------------------------------------------------------
  // The charts directory and one turn of the pairing loop.
  // ---------------------------------------------------------------------

  /**
   * The charts directory after the two tests on `first`: set from `aMOR-`,
   * then overridden from `OWLAPI-` (with the dash); with neither, the
   * directory of the previous pair stays, and on the first pair there is
   * none (`NameError`).
   */
  function StdChartsDir(results: string, first: string, prev: Option<string>): Option<string> {
    if Contains(first, "OWLAPI-") then
      Some(results + "/" + ReplaceAll(ReplaceAll(first, "OWLAPI-", ""), ".csv", "") + "/Charts")
    else if Contains(first, "aMOR-") then
      Some(results + "/" + ReplaceAll(ReplaceAll(first, "aMOR-", ""), ".csv", "") + "/Charts")
    else prev
  }

  /** What a turn leaves for the next one and the charts it draws. */
  datatype Turn = Turn(dir: string, roles: QueriesChart.Roles, charts: seq<StdChart>)

  /**
   * One turn of the pairing loop: the charts directory, the roles, the
   * samples of the aMOR file and then of the OWL API file, and the 15
   * charts; `None` when the script stops there.
   */
  function StdPair(results: string, first: string, second: string, read: string -> seq<Row>,
                   prevDir: Option<string>, prevRoles: Option<QueriesChart.Roles>): Option<Turn>
  {
    match StdChartsDir(results, first, prevDir)
    case None => None
    case Some(dir) =>
      match QueriesChart.ChooseRoles(results, first, second, prevRoles)
      case None => None
      case Some(roles) =>
        var reopened := QueriesChart.Reopens(first);
        match (Samples(QueriesChart.RowsRead(read, roles.amorFile, reopened)),
               Samples(QueriesChart.RowsRead(read, roles.owlapiFile, reopened)))
        case (Some(amor), Some(owlapi)) => Some(Turn(dir, roles, PairCharts(dir, roles.amorName, amor, owlapi)))
        case _ => None
  }

  /**
   * A turn draws exactly when the pair has a charts directory and roles and
   * both files yield their samples; it then draws the 15 charts of those
   * samples under the aMOR name of the roles.
   */
  lemma StdPairMeans(results: string, first: string, second: string, read: string -> seq<Row>,
                     prevDir: Option<string>, prevRoles: Option<QueriesChart.Roles>)
    ensures var r := StdPair(results, first, second, read, prevDir, prevRoles);
            var roles := QueriesChart.ChooseRoles(results, first, second, prevRoles);
            && (r.Some? ==> StdChartsDir(results, first, prevDir) == Some(r.value.dir) && roles == Some(r.value.roles))
            && (r.Some? ==> |r.value.charts| == QUERIES_NUMBER + 1)
            && (r.None? <==> StdChartsDir(results, first, prevDir).None? || roles.None?
                             || Samples(QueriesChart.RowsRead(read, roles.value.amorFile, QueriesChart.Reopens(first))).None?
                             || Samples(QueriesChart.RowsRead(read, roles.value.owlapiFile, QueriesChart.Reopens(first))).None?)
  {
  }

  /** The charts drawn, and whether the script stopped on an error before the end. */
  datatype StdOutcome = StdOutcome(charts: seq<StdChart>, crashed: bool)

  /** The pairs from position `i` on, with the directory and roles left by the pair before. */
  function StdChartsFrom(results: string, list: seq<string>, read: string -> seq<Row>, i: nat,
                         prevDir: Option<string>, prevRoles: Option<QueriesChart.Roles>): (r: StdOutcome)
    requires i <= |list|
    ensures r.crashed ==> |r.charts| < (QUERIES_NUMBER + 1) * ((|list| - i) / 2)
    ensures !r.crashed ==> |r.charts| == (QUERIES_NUMBER + 1) * ((|list| - i) / 2)
    decreases |list| - i
  {
    if i >= |list| - 1 then StdOutcome([], false)
    else
      match StdPair(results, list[i], list[i + 1], read, prevDir, prevRoles)
      case None => StdOutcome([], true)
      case Some(turn) =>
        var rest := StdChartsFrom(results, list, read, i + 2, Some(turn.dir), Some(turn.roles));
        StdOutcome(turn.charts + rest.charts, rest.crashed)
  }

  /** The whole script on the collected list. */
  function StdCharts(results: string, list: seq<string>, read: string -> seq<Row>): StdOutcome {
    StdChartsFrom(results, list, read, 0, None, None)
  }

  // ---------------------------------------------------------------------
  // The script as a loop.
  // ---------------------------------------------------------------------

  /** The body of the pairing loop. */
  method DrawTurn(results: string, first: string, second: string, read: string -> seq<Row>,
                  prevDir: Option<string>, prevRoles: Option<QueriesChart.Roles>)
    returns (turn: Option<Turn>)
    ensures turn == StdPair(results, first, second, read, prevDir, prevRoles)
  {
    var dir := StdChartsDir(results, first, prevDir);
    if dir.None? {
      return None;
    }
    var roles := QueriesChart.ChooseRoles(results, first, second, prevRoles);
    if roles.None? {
      return None;
    }
    var reopened := Contains(first, "OWLAPI") || Contains(first, "aMOR-");
    var amorTime := FillSamples(QueriesChart.RowsRead(read, roles.value.amorFile, reopened));
    if amorTime.None? {
      return None;
    }
    var owlapiTime := FillSamples(QueriesChart.RowsRead(read, roles.value.owlapiFile, reopened));
    if owlapiTime.None? {
      return None;
    }
    return Some(Turn(dir.value, roles.value, PairCharts(dir.value, roles.value.amorName, amorTime.value, owlapiTime.value)));
  }

  /** The pairing loop: the cursor steps by two while a partner follows it. */
  method DrawStdCharts(results: string, list: seq<string>, read: string -> seq<Row>)
    returns (charts: seq<StdChart>, crashed: bool)
    ensures StdOutcome(charts, crashed) == StdCharts(results, list, read)
  {
    charts, crashed := [], false;
    var i := 0;
    var dir: Option<string> := None;
    var roles: Option<QueriesChart.Roles> := None;
    DrawnStart(results, list, read);
    while i < |list| - 1
      invariant 0 <= i <= |list| && StdDrawn(results, list, read, i, dir, roles, charts)
      decreases |list| - i
    {
      var stop;
      charts, dir, roles, stop := StdStep(results, list, read, i, dir, roles, charts);
      if stop {
        return charts, true;
      }
      i := i + 2;
    }
    DrawnEnd(results, list, read, i, dir, roles, charts);
  }

  /** Before the loop nothing is drawn and every pair is still ahead. */
  lemma DrawnStart(results: string, list: seq<string>, read: string -> seq<Row>)
    ensures StdDrawn(results, list, read, 0, None, None, [])
  {
    var rest := StdChartsFrom(results, list, read, 0, None, None);
    assert [] + rest.charts == rest.charts;
  }

  /** Once no partner follows the cursor, the charts drawn are the whole outcome. */
  lemma DrawnEnd(results: string, list: seq<string>, read: string -> seq<Row>, i: nat,
                 dir: Option<string>, roles: Option<QueriesChart.Roles>, charts: seq<StdChart>)
    requires |list| - 1 <= i <= |list| && StdDrawn(results, list, read, i, dir, roles, charts)
    ensures StdCharts(results, list, read) == StdOutcome(charts, false)
  {
    assert StdChartsFrom(results, list, read, i, dir, roles) == StdOutcome([], false);
    QueriesChart.AppendNothing(charts);
  }

  /** The charts drawn so far followed by those of the pairs from `i` on make the whole outcome. */
  ghost predicate StdDrawn(results: string, list: seq<string>, read: string -> seq<Row>, i: nat,
                           dir: Option<string>, roles: Option<QueriesChart.Roles>, charts: seq<StdChart>)
    requires i <= |list|
  {
    var rest := StdChartsFrom(results, list, read, i, dir, roles);
    StdCharts(results, list, read) == StdOutcome(charts + rest.charts, rest.crashed)
  }

  /** One turn of the pairing loop: 15 charts more, or the stop of the script. */
  method StdStep(results: string, list: seq<string>, read: string -> seq<Row>, i: nat,
                 dir: Option<string>, roles: Option<QueriesChart.Roles>, charts: seq<StdChart>)
    returns (charts': seq<StdChart>, dir': Option<string>, roles': Option<QueriesChart.Roles>, stop: bool)
    requires i + 1 < |list| && StdDrawn(results, list, read, i, dir, roles, charts)
    ensures stop ==> StdCharts(results, list, read) == StdOutcome(charts', true)
    ensures !stop ==> StdDrawn(results, list, read, i + 2, dir', roles', charts')
  {
    var turn := DrawTurn(results, list[i], list[i + 1], read, dir, roles);
    if turn.None? {
      QueriesChart.AppendNothing(charts);
      return charts, dir, roles, true;
    }
    dir', roles' := Some(turn.value.dir), Some(turn.value.roles);
    var rest := StdChartsFrom(results, list, read, i + 2, dir', roles').charts;
    assert charts + (turn.value.charts + rest) == (charts + turn.value.charts) + rest;
    charts' := charts + turn.value.charts;
    stop := false;
  }

  // ---------------------------------------------------------------------
  // Properties of the script.
  // ---------------------------------------------------------------------

  /** A file of the pair with more than 14 rows stops the script at that pair. */
  lemma TooManyRowsStop(results: string, list: seq<string>, read: string -> seq<Row>, i: nat,
                        prevDir: Option<string>, prevRoles: Option<QueriesChart.Roles>)
    requires i + 1 < |list| && QueriesChart.Reopens(list[i])
    requires var roles := QueriesChart.ChooseRoles(results, list[i], list[i + 1], prevRoles);
             roles.Some? && (|read(roles.value.amorFile)| > QUERIES_NUMBER || |read(roles.value.owlapiFile)| > QUERIES_NUMBER)
    ensures StdChartsFrom(results, list, read, i, prevDir, prevRoles) == StdOutcome([], true)
  {
    StdPairMeans(results, list[i], list[i + 1], read, prevDir, prevRoles);
  }

  /**
   * A pair whose first name has no tag draws its 15 charts into the previous
   * charts directory, under the previous aMOR name, with every box empty.
   */
  lemma StaleTurnDrawsEmpty(results: string, list: seq<string>, read: string -> seq<Row>, i: nat,
                            prevDir: Option<string>, prevRoles: Option<QueriesChart.Roles>)
    requires i + 1 < |list| && !QueriesChart.Reopens(list[i]) && prevDir.Some? && prevRoles.Some?
    ensures var charts := StdChartsFrom(results, list, read, i, prevDir, prevRoles).charts;
            && |charts| >= QUERIES_NUMBER + 1
            && forall c :: 0 <= c <= QUERIES_NUMBER ==>
                 && charts[c].chartsDir == prevDir.value && charts[c].amorName == prevRoles.value.amorName
                 && forall b :: 0 <= b < |charts[c].boxes| ==> charts[c].boxes[b].y == []
  {
    var first := list[i];
    assert !Contains(first, "OWLAPI-") by {
      if Contains(first, "OWLAPI-") {
        assert "OWLAPI" + "-" == "OWLAPI-";
        ContainsLonger(first, "OWLAPI", "-");
      }
    }
    assert StdChartsDir(results, first, prevDir) == prevDir;
    QueriesChart.RolesStay(results, first, list[i + 1], prevRoles);
    var roles := prevRoles.value;
    assert QueriesChart.RowsRead(read, roles.amorFile, false) == [];
    assert QueriesChart.RowsRead(read, roles.owlapiFile, false) == [];
    NoRowsNoSamples();
    var empty := Samples([]).value;
    var turn := Turn(prevDir.value, roles, PairCharts(prevDir.value, roles.amorName, empty, empty));
    assert StdPair(results, first, list[i + 1], read, prevDir, prevRoles) == Some(turn);
    EmptyCharts(prevDir.value, roles.amorName, empty);
  }

  /** A file without rows yields 14 empty sample lists. */
  lemma NoRowsNoSamples()
    ensures Samples([]).Some? && forall q :: 0 <= q < QUERIES_NUMBER ==> Samples([]).value[q] == []
  {
  }

  /** The charts of empty sample lists: every box of all 15 is empty. */
  lemma EmptyCharts(dir: string, amorName: string, empty: seq<seq<string>>)
    requires |empty| == QUERIES_NUMBER && forall q :: 0 <= q < QUERIES_NUMBER ==> empty[q] == []
    ensures var charts := PairCharts(dir, amorName, empty, empty);
            && |charts| == QUERIES_NUMBER + 1
            && forall c :: 0 <= c <= QUERIES_NUMBER ==>
                 && charts[c].chartsDir == dir && charts[c].amorName == amorName
                 && forall b :: 0 <= b < |charts[c].boxes| ==> charts[c].boxes[b].y == []
  {
  }

  /** A text holding `p + x` holds `p`. */
  lemma ContainsLonger(s: string, p: string, x: string)
    requires Contains(s, p + x)
    ensures Contains(s, p)
  {
    ContainsMeans(s, p + x);
    var i :| OccursAt(s, p + x, i);
    assert s[i..i + |p|] == (p + x)[..|p|] == p;
    assert OccursAt(s, p, i);
    ContainsMeans(s, p);
  }

  /**
   * A first name tagged `OWLAPI` without the dash (and without `aMOR-`)
   * sets the roles, as in the average-time script, but not the charts
   * directory: on the first pair this script stops before drawing.
   */
  lemma DashlessTagStops(results: string, list: seq<string>, read: string -> seq<Row>)
    requires |list| >= 2
    requires Contains(list[0], "OWLAPI") && !Contains(list[0], "OWLAPI-") && !Contains(list[0], "aMOR-")
    ensures QueriesChart.ChooseRoles(results, list[0], list[1], None).Some?
    ensures StdCharts(results, list, read) == StdOutcome([], true)
  {
  }

  /**
   * For the files of a run, the charts directory is the one the average-time
   * script uses: the directory of the run, whichever prefix comes first.
   */
  lemma StdChartsDirOfRun(results: string, r: string, prev: Option<string>)
    requires QueriesChart.PlainRunName(r)
    ensures StdChartsDir(results, "aMOR-" + r + ".csv", prev)
            == Some(QueriesChart.ChartsDir(results, "aMOR-" + r + ".csv")) == Some(results + "/" + r + "/Charts")
    ensures StdChartsDir(results, "OWLAPI-" + r + ".csv", prev)
            == Some(QueriesChart.ChartsDir(results, "OWLAPI-" + r + ".csv")) == Some(results + "/" + r + "/Charts")
  {
    QueriesChart.ChartsDirOfRun(results, r);
    QueriesChart.TagFacts(r);
    var a := "aMOR-" + r + ".csv";
    var o := "OWLAPI-" + r + ".csv";
    assert !Contains(a, "OWLAPI-") by {
      QueriesChart.NotInEither('W', "aMOR-", r);
      QueriesChart.NotInEither('W', "aMOR-" + r, ".csv");
      MissingCharNotContained(a, "OWLAPI-", 1);
    }
    assert Contains(o, "OWLAPI-") by {
      QueriesChart.Regroup("OWLAPI-" + r, "OWLAPI-", r, ".csv");
      QueriesChart.ContainsAtFront("OWLAPI-", r + ".csv");
    }
    QueriesChart.StripName("aMOR-", r);
    QueriesChart.StripName("OWLAPI-", r);
  }

  /**
   * The charts of a pair of the same run `uni<u>-dep<d>` are saved in the
   * charts directory of the run: query `k` under
   * `single-query-stddev/query-<k>-Chart-<u>-<d>.html`, the total chart as
   * `total-stddev-Chart-<u>-<d>.html`.
   */
  lemma MatchedStdPaths(results: string, u: string, d: string, k: nat, boxes: seq<Box>)
    requires |u| > 0 && |d| > 0
    requires forall j :: 0 <= j < |u| ==> IsDigit(u[j])
    requires forall j :: 0 <= j < |d| ==> IsDigit(d[j])
    ensures var r := "uni" + u + "-dep" + d;
            var dir := results + "/" + r + "/Charts";
            var a := "aMOR-" + r + ".csv";
            && SavedAt(StdChart(dir, a, SingleQuery(k), boxes))
               == dir + "/single-query-stddev" + "/query-" + NatToString(k) + "-Chart-" + u + "-" + d + ".html"
            && SavedAt(StdChart(dir, a, AllQueries, boxes)) == dir + "/total-stddev-Chart-" + u + "-" + d + ".html"
  {
    var r := "uni" + u + "-dep" + d;
    var dir := results + "/" + r + "/Charts";
    assert QueriesChart.ShortName("aMOR-" + r + ".csv") == u + "-" + d by {
      QueriesChart.ShortNameOfRun(u, d);
    }
    QueriesChart.Glue(dir + "/single-query-stddev" + "/query-" + NatToString(k) + "-Chart-", u, "-", d, ".html");
    QueriesChart.Glue(dir + "/total-stddev-Chart-", u, "-", d, ".html");
  }
}
