/**
 * The debugging logger of aMOR. Every `Logger` follows one object and keeps
 * its own buffer of log items; the static part of the Java class (the map of
 * all loggers, the shared log counter, the printing rate and the printing
 * switches) is the `LogSystem` object. After `orderPrintingRate` followed
 * logs, the buffers of all followed loggers are drained, sorted by time and
 * printed.
 *
 * The wall clock is a parameter: a `Timestamp` is the formatted time string
 * a log carries together with the instant it denotes, which is what the
 * ordering of log items compares. `HashMap` iteration order is a parameter
 * too: a sequence listing every registered name once.
 */
module Logging {
  import opened Wrappers
  import opened Text

  const ERROR_STRING: string := "[[ !!! ERROR !!! ]]"

  datatype Timestamp = Timestamp(instant: int, formatted: string)

  datatype DebugItem = DebugItem(time: Timestamp, text: string, className: string, isError: bool)

  /** One row of the log table: time, class name, text. */
  datatype LogRow = LogRow(time: string, className: string, text: string)

  // ---------------------------------------------------------------------
  // Naming a followed object
  // ---------------------------------------------------------------------

  /**
   * The instance name of the followed object, from its `toString`: the
   * suffix starting at the first `'@'` when there is one, otherwise a blank
   * followed by the text after the last `'.'`; the empty string for no
   * object.
   */
  function GetNamedInstance(followed: Option<string>): (r: string)
    ensures r == "" <==> followed.None?
    ensures followed.Some? && '@' in followed.value ==>
              var s := followed.value;
              0 < |r| <= |s| && r[0] == '@' && s[|s| - |r|..] == r && '@' !in s[..|s| - |r|]
    ensures followed.Some? && '@' !in followed.value ==>
              var s := followed.value;
              0 < |r| <= |s| + 1 && r[0] == ' ' && s[|s| - (|r| - 1)..] == r[1..] && '.' !in r[1..] &&
              (|r| - 1 == |s| || s[|s| - |r|] == '.')
  {
    match followed
    case None => ""
    case Some(s) =>
      if '@' in s then
        var i := IndexOf(s, '@');
        assert '@' !in s[..i] by {
          forall k | 0 <= k < i
            ensures s[..i][k] != '@'
          {
          }
        }
        s[i..]
      else
        var i := LastIndexOf(s, '.');
        var r := " " + s[i + 1..];
        assert r[1..] == s[i + 1..];
        r
  }

  // ---------------------------------------------------------------------
  // Ordering log items by time
  // ---------------------------------------------------------------------

  predicate SortedByTime(s: seq<DebugItem>) {
    forall i, j :: 0 <= i < j < |s| ==> s[i].time.instant <= s[j].time.instant
  }

  /** Places `x` before the first item that is not earlier than it. */
  function InsertByTime(x: DebugItem, s: seq<DebugItem>): (r: seq<DebugItem>)
    ensures multiset(r) == multiset(s) + multiset{x}
    ensures |r| == |s| + 1
    decreases |s|
  {
    if |s| == 0 || x.time.instant <= s[0].time.instant then
      [x] + s
    else
      assert s == [s[0]] + s[1..];
      [s[0]] + InsertByTime(x, s[1..])
  }

  /** Inserting an item no earlier than `b` among such items keeps them so. */
  lemma {:induction false} InsertByTimeBound(x: DebugItem, s: seq<DebugItem>, b: int)
    requires b <= x.time.instant
    requires forall k :: 0 <= k < |s| ==> b <= s[k].time.instant
    ensures forall k :: 0 <= k < |s| + 1 ==> b <= InsertByTime(x, s)[k].time.instant
    decreases |s|
  {
    if |s| > 0 && x.time.instant > s[0].time.instant {
      InsertByTimeBound(x, s[1..], b);
    }
  }

  /** Inserting into a sorted sequence keeps it sorted. */
  lemma {:induction false} InsertByTimeSorted(x: DebugItem, s: seq<DebugItem>)
    requires SortedByTime(s)
    ensures SortedByTime(InsertByTime(x, s))
    decreases |s|
  {
    if |s| > 0 && x.time.instant > s[0].time.instant {
      InsertByTimeSorted(x, s[1..]);
      InsertByTimeBound(x, s[1..], s[0].time.instant);
    }
  }

  /**
   * `Collections.sort` on the log items: a stable sort on the instant each
   * item was logged.
   */
  function SortByTime(s: seq<DebugItem>): (r: seq<DebugItem>)
    ensures multiset(r) == multiset(s)
    ensures |r| == |s|
    decreases |s|
  {
    if |s| == 0 then []
    else
      assert s == [s[0]] + s[1..];
      InsertByTime(s[0], SortByTime(s[1..]))
  }

  /** The drained items come out in time order. */
  lemma {:induction false} SortByTimeSorted(s: seq<DebugItem>)
    ensures SortedByTime(SortByTime(s))
    decreases |s|
  {
    if |s| > 0 {
      SortByTimeSorted(s[1..]);
      InsertByTimeSorted(s[0], SortByTime(s[1..]));
    }
  }

  /** The items logged at instant `t`, in sequence order. */
  function AtInstant(s: seq<DebugItem>, t: int): (r: seq<DebugItem>)
    ensures |r| <= |s|
    ensures forall k :: 0 <= k < |r| ==> r[k].time.instant == t
  {
    if |s| == 0 then []
    else if s[0].time.instant == t then [s[0]] + AtInstant(s[1..], t)
    else AtInstant(s[1..], t)
  }

  /** Insertion puts `x` after every earlier item, so it heads the items of its instant. */
  lemma {:induction false} InsertByTimeStable(x: DebugItem, s: seq<DebugItem>, t: int)
    ensures AtInstant(InsertByTime(x, s), t)
      == if x.time.instant == t then [x] + AtInstant(s, t) else AtInstant(s, t)
    decreases |s|
  {
    if |s| == 0 || x.time.instant <= s[0].time.instant {
      assert ([x] + s)[1..] == s;
    } else {
      InsertByTimeStable(x, s[1..], t);
      var r := InsertByTime(x, s[1..]);
      assert ([s[0]] + r)[1..] == r;
    }
  }

  /** The sort is stable: items logged at the same instant keep their buffer order. */
  lemma {:induction false} SortByTimeStable(s: seq<DebugItem>, t: int)
    ensures AtInstant(SortByTime(s), t) == AtInstant(s, t)
    decreases |s|
  {
    if |s| > 0 {
      SortByTimeStable(s[1..], t);
      InsertByTimeStable(s[0], SortByTime(s[1..]), t);
    }
  }

  function RowOf(d: DebugItem): LogRow {
    LogRow(d.time.formatted, d.className, d.text)
  }

  /** The table `getLogInfo` builds: one row per item, in item order. */
  function RowsOf(s: seq<DebugItem>): seq<LogRow> {
    seq(|s|, i requires 0 <= i < |s| => RowOf(s[i]))
  }

  /** The line `parseLog` prints for one row. */
  function LineOf(row: LogRow): string {
    " " + row.time + " -> " + row.className + " : " + row.text
  }

  /** What `printLogOnConsole` prints for a table: one line per row, in row order. */
  function LinesOf(rows: seq<LogRow>): seq<string> {
    seq(|rows|, i requires 0 <= i < |rows| => LineOf(rows[i]))
  }

  /** What the drain sees of one logger: its follow flag and its buffer. */
  datatype Buffer = Buffer(followed: bool, items: seq<DebugItem>)

  /**
   * The items the drain collects from the first `n` names, in key order:
   * the buffers of the followed loggers.
   */
  function Drain(keys: seq<string>, n: nat, snap: map<string, Buffer>): (r: seq<DebugItem>)
    requires n <= |keys|
    requires forall i :: 0 <= i < |keys| ==> keys[i] in snap
  {
    if n == 0 then []
    else
      var b := snap[keys[n - 1]];
      Drain(keys, n - 1, snap) + (if b.followed then b.items else [])
  }

  /** The registry after a drain: followed buffers are empty, the others untouched. */
  function Cleared(snap: map<string, Buffer>): (r: map<string, Buffer>)
    ensures r.Keys == snap.Keys
    ensures forall k :: k in snap ==> r[k].followed == snap[k].followed
    ensures forall k :: k in snap && !snap[k].followed ==> r[k] == snap[k]
  {
    map k | k in snap :: if snap[k].followed then Buffer(true, []) else snap[k]
  }

  /** Every item of a followed buffer is collected, and nothing else. */
  lemma {:induction false} DrainMembers(keys: seq<string>, n: nat, snap: map<string, Buffer>, d: DebugItem)
    requires n <= |keys|
    requires forall i :: 0 <= i < |keys| ==> keys[i] in snap
    ensures d in Drain(keys, n, snap) <==>
              exists i :: 0 <= i < n && snap[keys[i]].followed && d in snap[keys[i]].items
  {
    if n > 0 {
      DrainMembers(keys, n - 1, snap, d);
      if d in Drain(keys, n, snap) && d !in Drain(keys, n - 1, snap) {
        assert snap[keys[n - 1]].followed && d in snap[keys[n - 1]].items;
      }
    }
  }

  /** A second drain right after the first collects nothing. */
  lemma {:induction false} DrainCleared(keys: seq<string>, n: nat, snap: map<string, Buffer>)
    requires n <= |keys|
    requires forall i :: 0 <= i < |keys| ==> keys[i] in snap
    ensures Drain(keys, n, Cleared(snap)) == []
  {
    if n > 0 {
      DrainCleared(keys, n - 1, snap);
    }
  }

  /** The items collected from a sequence of buffers, in order: those of the followed ones. */
  function Taken(bs: seq<Buffer>): seq<DebugItem> {
    if |bs| == 0 then []
    else
      var b := bs[|bs| - 1];
      Taken(bs[..|bs| - 1]) + (if b.followed then b.items else [])
  }

  /** Draining the first `n` names takes the buffers of their loggers in key order. */
  lemma {:induction false} DrainIsTaken(keys: seq<string>, n: nat, snap: map<string, Buffer>, bs: seq<Buffer>)
    requires n <= |keys| == |bs|
    requires forall i :: 0 <= i < |keys| ==> keys[i] in snap && bs[i] == snap[keys[i]]
    ensures Drain(keys, n, snap) == Taken(bs[..n])
  {
    if n > 0 {
      DrainIsTaken(keys, n - 1, snap, bs);
      assert bs[..n][..n - 1] == bs[..n - 1];
    }
  }

  /** The loggers of the enumerated names, in name order. */
  function LoggersOf(keys: seq<string>, instances: map<string, Logger>): (r: seq<Logger>)
    requires forall j :: 0 <= j < |keys| ==> keys[j] in instances
    ensures |r| == |keys| && forall j :: 0 <= j < |keys| ==> r[j] == instances[keys[j]]
  {
    seq(|keys|, j requires 0 <= j < |keys| => instances[keys[j]])
  }

  /** Distinct names registered to loggers that know their names give distinct loggers. */
  lemma LoggersDistinct(keys: seq<string>, instances: map<string, Logger>, nameOf: map<Logger, string>,
                        loggers: seq<Logger>)
    requires forall i, j :: 0 <= i < j < |keys| ==> keys[i] != keys[j]
    requires |loggers| == |keys| && forall j :: 0 <= j < |keys| ==> keys[j] in instances && loggers[j] == instances[keys[j]]
    requires forall k :: k in instances ==> instances[k] in nameOf && nameOf[instances[k]] == k
    ensures forall i, j :: 0 <= i < j < |loggers| ==> loggers[i] != loggers[j]
  {
  }

  /** Every registered logger is the logger of one of the enumerated names. */
  lemma LoggersCover(keys: seq<string>, instances: map<string, Logger>, nameOf: map<Logger, string>,
                     registered: set<Logger>, loggers: seq<Logger>)
    requires |loggers| == |keys| && forall j :: 0 <= j < |keys| ==> keys[j] in instances && loggers[j] == instances[keys[j]]
    requires forall k :: k in instances ==> k in keys
    requires forall l :: l in registered ==> l in nameOf && nameOf[l] in instances && instances[nameOf[l]] == l
    ensures forall l :: l in registered ==> l in loggers
  {
    forall l | l in registered
      ensures l in loggers
    {
      var j :| 0 <= j < |keys| && keys[j] == nameOf[l];
      assert loggers[j] == l;
    }
  }

  /** What the drain sees of a sequence of loggers. */
  function BuffersOf(loggers: seq<Logger>): (r: seq<Buffer>)
    reads set l | l in loggers
    ensures |r| == |loggers|
  {
    seq(|loggers|, j requires 0 <= j < |loggers| reads set l | l in loggers => Buffer(loggers[j].toFollow, loggers[j].debugText))
  }

  /**
   * The drain over distinct loggers: each followed one hands over its buffer
   * and is emptied, the others are left as they are.
   */
  method DrainLoggers(loggers: seq<Logger>) returns (all: seq<DebugItem>)
    requires forall i, j :: 0 <= i < j < |loggers| ==> loggers[i] != loggers[j]
    modifies loggers`debugText
    ensures all == Taken(old(BuffersOf(loggers)))
    ensures forall l :: l in loggers ==> l.debugText == if l.toFollow then [] else old(l.debugText)
  {
    ghost var bs := BuffersOf(loggers);
    all := [];
    var i := 0;
    while i < |loggers|
      invariant 0 <= i <= |loggers| && all == Taken(bs[..i]) && Drained(loggers, bs, i)
    {
      all := DrainStep(loggers, bs, i, all);
      i := i + 1;
    }
    assert bs[..i] == bs;
  }

  /**
   * The loggers after the turns of the first `done` of them: flags as
   * before, the buffers of the followed ones among the first `done` empty,
   * every other buffer as before.
   */
  ghost predicate Drained(loggers: seq<Logger>, bs: seq<Buffer>, done: nat)
    reads set l | l in loggers
  {
    && |bs| == |loggers|
    && (forall j :: 0 <= j < |loggers| ==> loggers[j].toFollow == bs[j].followed)
    && (forall j :: 0 <= j < |loggers| ==>
          loggers[j].debugText == if j < done && bs[j].followed then [] else bs[j].items)
  }

  /** One turn of the drain over distinct loggers. */
  method DrainStep(loggers: seq<Logger>, ghost bs: seq<Buffer>, i: nat, all: seq<DebugItem>) returns (all': seq<DebugItem>)
    requires forall i, j :: 0 <= i < j < |loggers| ==> loggers[i] != loggers[j]
    requires i < |loggers| && Drained(loggers, bs, i) && all == Taken(bs[..i])
    modifies loggers`debugText
    ensures all' == Taken(bs[..i + 1]) && Drained(loggers, bs, i + 1)
  {
    assert bs[..i + 1][..i] == bs[..i];
    var items := loggers[i].TakeIfFollowed();
    all' := all + items;
  }

  /** The loop of `getLogInfo` turning the sorted items into table rows. */
  method BuildRows(items: seq<DebugItem>) returns (rows: seq<LogRow>)
    ensures rows == RowsOf(items)
  {
    rows := [];
    var m := 0;
    while m < |items|
      invariant 0 <= m <= |items|
      invariant |rows| == m
      invariant forall j :: 0 <= j < m ==> rows[j] == RowOf(items[j])
    {
      rows := rows + [RowOf(items[m])];
      m := m + 1;
    }
  }

  /** A sequence of items listing every name of a set exactly once. */
  predicate EnumeratesKeys(keys: seq<string>, names: set<string>) {
    (forall i :: 0 <= i < |keys| ==> keys[i] in names) &&
    (forall k :: k in names ==> k in keys) &&
    (forall i, j :: 0 <= i < j < |keys| ==> keys[i] != keys[j])
  }

  // ---------------------------------------------------------------------
  // The static state: the registry of loggers and the shared counter
  // ---------------------------------------------------------------------

  class LogSystem {
    var allInstances: map<string, Logger>
    var logCounter: int
    var orderPrintingRate: int
    var printOnConsole: bool
    var printOnFileFlag: bool
    /** The lines printed on the console so far. */
    var console: seq<string>
    /** The name each logger was registered under when it was created. */
    ghost var nameOf: map<Logger, string>
    /** The loggers the map holds. */
    ghost var Repr: set<Logger>

    /**
     * Every logger is registered under one name at most: a logger is put in
     * the map once, when it is created, and a later logger with the same
     * name replaces it.
     */
    ghost predicate Valid()
      reads this`allInstances, this`nameOf, this`Repr
    {
      (forall k :: k in allInstances ==> allInstances[k] in Repr && allInstances[k] in nameOf && nameOf[allInstances[k]] == k) &&
      (forall l :: l in Repr ==> l in nameOf && nameOf[l] in allInstances && allInstances[nameOf[l]] == l)
    }

    /**
     * The registration done by `initialize`: `l` becomes the logger of
     * `name`, replacing the one registered there before.
     */
    method Register(name: string, l: Logger)
      requires Valid() && l !in Repr
      modifies this`allInstances, this`nameOf, this`Repr
      ensures allInstances == old(allInstances)[name := l]
      ensures Valid() && l in Repr
    {
      var gone := if name in allInstances then {allInstances[name]} else {};
      allInstances := allInstances[name := l];
      nameOf := nameOf[l := name];
      Repr := Repr - gone + {l};
    }

    predicate Enumerates(keys: seq<string>)
      reads this`allInstances
    {
      EnumeratesKeys(keys, allInstances.Keys)
    }

    constructor ()
      ensures Valid()
      ensures allInstances == map[] && logCounter == 0 && orderPrintingRate == 1
      ensures printOnConsole && !printOnFileFlag && console == []
    {
      allInstances := map[];
      logCounter := 0;
      orderPrintingRate := 1;
      printOnConsole := true;
      printOnFileFlag := false;
      console := [];
      nameOf := map[];
      Repr := {};
    }

    /** The flag and buffer of every registered logger. */
    function Snapshot(): (r: map<string, Buffer>)
      requires Valid()
      reads this`allInstances, this`nameOf, this`Repr, Repr
      ensures r.Keys == allInstances.Keys
    {
      map k | k in allInstances :: Buffer(allInstances[k].toFollow, allInstances[k].debugText)
    }

    /** The snapshot seen through the enumerated names is what the drain sees of their loggers. */
    lemma SnapshotOfLoggers(keys: seq<string>, loggers: seq<Logger>)
      requires Valid() && Enumerates(keys) && loggers == LoggersOf(keys, allInstances)
      ensures |BuffersOf(loggers)| == |keys|
      ensures forall j :: 0 <= j < |keys| ==> keys[j] in Snapshot() && BuffersOf(loggers)[j] == Snapshot()[keys[j]]
    {
    }

    /** The loggers of the enumerated names are distinct and cover the registry. */
    lemma LoggersOfRegistry(keys: seq<string>, loggers: seq<Logger>)
      requires Valid() && Enumerates(keys) && loggers == LoggersOf(keys, allInstances)
      ensures forall i, j :: 0 <= i < j < |loggers| ==> loggers[i] != loggers[j]
      ensures forall l :: l in Repr ==> l in loggers
    {
      LoggersDistinct(keys, allInstances, nameOf, loggers);
      LoggersCover(keys, allInstances, nameOf, Repr, loggers);
    }

    /** Draining the loggers of the enumerated names takes what the drain of the names specifies. */
    lemma DrainPlan(keys: seq<string>, loggers: seq<Logger>)
      requires Valid() && Enumerates(keys) && loggers == LoggersOf(keys, allInstances)
      ensures Drain(keys, |keys|, Snapshot()) == Taken(BuffersOf(loggers))
    {
      var bs := BuffersOf(loggers);
      SnapshotOfLoggers(keys, loggers);
      DrainIsTaken(keys, |keys|, Snapshot(), bs);
      assert bs[..|keys|] == bs;
    }

    /** The same, with the buffer of `me` taken as extended by `extra`. */
    function SnapshotWith(me: Logger, extra: seq<DebugItem>): (r: map<string, Buffer>)
      requires Valid()
      reads this`allInstances, this`nameOf, this`Repr, Repr
      ensures r.Keys == allInstances.Keys
    {
      map k | k in allInstances ::
        Buffer(allInstances[k].toFollow,
               if allInstances[k] == me then allInstances[k].debugText + extra else allInstances[k].debugText)
    }

    /**
     * `getLogInfo`: takes the buffers of the followed loggers, in key order,
     * empties them, and returns the items as rows sorted by time. The
     * buffers of loggers that are not followed are left as they are.
     */
    method GetLogInfo(keys: seq<string>) returns (rows: seq<LogRow>)
      requires Valid() && Enumerates(keys)
      modifies Repr`debugText
      ensures rows == RowsOf(SortByTime(Drain(keys, |keys|, old(Snapshot()))))
      ensures DrainedAll(Repr)
    {
      var all := TakeFollowedBuffers(keys);
      rows := BuildRows(SortByTime(all));
    }

    /**
     * After a drain: every registered logger keeps its follow flag, and the
     * buffer of a followed one is empty while the others are untouched.
     */
    twostate predicate DrainedAll(loggers: set<Logger>)
      reads loggers
    {
      forall l :: l in loggers ==>
        l.toFollow == old(l.toFollow) && l.debugText == (if l.toFollow then [] else old(l.debugText))
    }

    /**
     * The loop of `getLogInfo` over the registered names: the buffer of
     * every followed logger is appended to the result and emptied.
     */
    method TakeFollowedBuffers(keys: seq<string>) returns (all: seq<DebugItem>)
      requires Valid() && Enumerates(keys)
      modifies Repr`debugText
      ensures all == Drain(keys, |keys|, old(Snapshot()))
      ensures DrainedAll(Repr)
    {
      var loggers := LoggersOf(keys, allInstances);
      LoggersOfRegistry(keys, loggers);
      DrainPlan(keys, loggers);
      all := DrainLoggers(loggers);
      forall l | l in Repr
        ensures l.toFollow == old(l.toFollow) && l.debugText == (if l.toFollow then [] else old(l.debugText))
      {
        assert l in loggers;
      }
    }

    /** `printLogOnConsole`: one line per row, in row order. */
    method PrintLogOnConsole(rows: seq<LogRow>)
      modifies this`console
      ensures console == old(console) + LinesOf(rows)
    {
      var i := 0;
      while i < |rows|
        invariant 0 <= i <= |rows|
        invariant |console| == |old(console)| + i
        invariant console[..|old(console)|] == old(console)
        invariant forall j :: 0 <= j < i ==> console[|old(console)| + j] == LineOf(rows[j])
      {
        console := console + [LineOf(rows[i])];
        i := i + 1;
      }
      assert console == old(console) + LinesOf(rows);
    }

    /** `flush`: drains and prints the logs, then resets the counter. */
    method Flush(keys: seq<string>)
      requires Valid() && Enumerates(keys)
      modifies this`logCounter, this`console, Repr`debugText
      ensures logCounter == 0
      ensures console == old(console) +
                (if old(printOnConsole) then LinesOf(RowsOf(SortByTime(Drain(keys, |keys|, old(Snapshot()))))) else [])
      ensures DrainedAll(Repr)
    {
      var rows := GetLogInfo(keys);
      if printOnConsole {
        PrintLogOnConsole(rows);
      }
      logCounter := 0;
    }

    method SetOrderPrintingRate(rate: int)
      modifies this`orderPrintingRate
      ensures orderPrintingRate == rate
    {
      orderPrintingRate := rate;
    }

    method SetPrintOnConsole(flag: bool)
      modifies this`printOnConsole
      ensures printOnConsole == flag
    {
      printOnConsole := flag;
    }
  }

  // ---------------------------------------------------------------------
  // One logger
  // ---------------------------------------------------------------------

  class Logger {
    /** The `toString` of the followed object, if any. */
    const classToFollow: Option<string>
    /** `getClass().getSimpleName()` of the followed object. */
    const simpleClassName: string
    var debugText: seq<DebugItem>
    var toFollow: bool

    /** One turn of the loop of `getLogInfo`: a followed logger hands over its buffer and empties it. */
    method TakeIfFollowed() returns (items: seq<DebugItem>)
      modifies this`debugText
      ensures items == (if toFollow then old(debugText) else [])
      ensures debugText == (if toFollow then [] else old(debugText))
    {
      items := [];
      if toFollow {
        items := debugText;
        debugText := [];
      }
    }

    function NamedInstance(): string
      reads this
    {
      GetNamedInstance(classToFollow)
    }

    function NamedClass(): (r: string)
      reads this
      ensures classToFollow.None? ==> r == " null"
      ensures classToFollow.Some? ==> r == simpleClassName
    {
      if classToFollow.None? then " null" else simpleClassName
    }

    /** The item `addDebugString` records: error texts carry the error marker in front. */
    function ItemFor(text: string, isError: bool, now: Timestamp): (d: DebugItem)
      reads this
      ensures d.text == (if isError then ERROR_STRING + text else text)
      ensures d.time == now && d.isError == isError
      ensures d.className == NamedClass() + NamedInstance()
    {
      DebugItem(now, if isError then ERROR_STRING + text else text, NamedClass() + NamedInstance(), isError)
    }

    /**
     * A logger following `followed`, with an empty buffer, registered under
     * its instance name (`initialize` then `setFlagToFollow`).
     */
    constructor (sys: LogSystem, followed: Option<string>, className: string, flag: bool)
      requires sys.Valid()
      modifies sys`allInstances, sys`nameOf, sys`Repr
      ensures classToFollow == followed && simpleClassName == className
      ensures debugText == [] && toFollow == flag
      ensures sys.allInstances == old(sys.allInstances)[GetNamedInstance(followed) := this]
      ensures sys.Valid() && this in sys.Repr
    {
      classToFollow := followed;
      simpleClassName := className;
      debugText := [];
      toFollow := flag;
      new;
      sys.Register(GetNamedInstance(followed), this);
    }

    /**
     * The constructors that also take a first log: the logger is registered
     * with flag `flag` and then `addDebugString` records `text`.
     */
    constructor WithFirstLog(sys: LogSystem, followed: Option<string>, className: string, flag: bool,
                             keys: seq<string>, text: string, now: Timestamp)
      requires sys.Valid()
      requires EnumeratesKeys(keys, sys.allInstances.Keys + {GetNamedInstance(followed)})
      modifies sys`allInstances, sys`nameOf, sys`Repr, sys`logCounter, sys`console, sys.Repr`debugText
      ensures classToFollow == followed && simpleClassName == className && toFollow == flag
      ensures sys.allInstances == old(sys.allInstances)[GetNamedInstance(followed) := this]
      ensures sys.Valid() && this in sys.Repr
      ensures !flag ==> debugText == [] && sys.logCounter == old(sys.logCounter) && sys.console == old(sys.console)
      ensures flag && old(sys.logCounter) + 1 != sys.orderPrintingRate ==>
                debugText == [ItemFor(text, false, now)] && sys.logCounter == old(sys.logCounter) + 1 &&
                sys.console == old(sys.console)
      ensures flag && old(sys.logCounter) + 1 == sys.orderPrintingRate ==>
                debugText == [] && sys.logCounter == 0
    {
      classToFollow := followed;
      simpleClassName := className;
      debugText := [];
      toFollow := flag;
      new;
      sys.Register(GetNamedInstance(followed), this);
      FirstLog(sys, keys, text, now);
    }

    /** The first log of a logger just registered, with an empty buffer. */
    method FirstLog(sys: LogSystem, keys: seq<string>, text: string, now: Timestamp)
      requires sys.Valid() && sys.Enumerates(keys) && this in sys.Repr && debugText == []
      modifies this`debugText, sys`logCounter, sys`console, sys.Repr`debugText
      ensures sys.Valid()
      ensures FirstLogged(sys, text, now)
    {
      AddDebugString(sys, keys, text, false, now);
    }

    /**
     * What the first log leaves behind, starting from an empty buffer: nothing
     * when the logger is not followed; the one item, counted, when the rate is
     * not reached; an empty buffer and a reset counter when it is.
     */
    twostate predicate FirstLogged(sys: LogSystem, text: string, now: Timestamp)
      reads this, sys
    {
      (!toFollow ==> debugText == [] && sys.logCounter == old(sys.logCounter) && sys.console == old(sys.console)) &&
      (toFollow && old(sys.logCounter) + 1 != sys.orderPrintingRate ==>
         debugText == [ItemFor(text, false, now)] && sys.logCounter == old(sys.logCounter) + 1 &&
         sys.console == old(sys.console)) &&
      (toFollow && old(sys.logCounter) + 1 == sys.orderPrintingRate ==>
         debugText == [] && sys.logCounter == 0)
    }

    method SetFlagToFollow(flag: bool)
      modifies this
      ensures toFollow == flag && debugText == old(debugText)
    {
      toFollow := flag;
    }

    /** `cleanDebugText`: a fresh empty buffer. */
    method CleanDebugText()
      modifies this
      ensures debugText == [] && toFollow == old(toFollow)
    {
      debugText := [];
    }

    /**
     * `addDebugString`: nothing happens for a logger that is not followed.
     * Otherwise one item is appended and the shared counter grows by one;
     * when it reaches the printing rate, every followed buffer is drained,
     * the sorted rows are printed and the counter is reset.
     */
    method AddDebugString(sys: LogSystem, keys: seq<string>, text: string, isError: bool, now: Timestamp)
      requires sys.Valid() && sys.Enumerates(keys)
      modifies this`debugText, sys`logCounter, sys`console, sys.Repr`debugText
      ensures sys.Valid()
      ensures !old(toFollow) ==> debugText == old(debugText) && unchanged(sys) && unchanged(sys.Repr)
      ensures old(toFollow) && old(sys.logCounter) + 1 != old(sys.orderPrintingRate) ==>
                debugText == old(debugText) + [old(ItemFor(text, isError, now))] &&
                sys.logCounter == old(sys.logCounter) + 1 && sys.console == old(sys.console) &&
                forall l :: l in sys.Repr && l != this ==> l.debugText == old(l.debugText)
      ensures old(toFollow) && old(sys.logCounter) + 1 == old(sys.orderPrintingRate) ==>
                var drained := SortByTime(Drain(keys, |keys|, old(sys.SnapshotWith(this, [ItemFor(text, isError, now)]))));
                sys.logCounter == 0 &&
                (this !in sys.Repr ==> debugText == old(debugText) + [old(ItemFor(text, isError, now))]) &&
                sys.DrainedAll(sys.Repr) &&
                sys.console == old(sys.console) + (if old(sys.printOnConsole) then LinesOf(RowsOf(drained)) else [])
    {
      if toFollow {
        var item := ItemFor(text, isError, now);
        Record(sys, item);
        if sys.logCounter == sys.orderPrintingRate {
          label appended:
          sys.Flush(keys);
          assert forall l :: l in sys.Repr && l != this ==> old@appended(l.debugText) == old(l.debugText);
        }
      }
    }

    /** The followed branch of `addDebugString` up to the rate check: append and count. */
    method Record(sys: LogSystem, item: DebugItem)
      requires sys.Valid()
      modifies this`debugText, sys`logCounter
      ensures debugText == old(debugText) + [item]
      ensures sys.logCounter == old(sys.logCounter) + 1
      ensures sys.Valid() && sys.Snapshot() == old(sys.SnapshotWith(this, [item]))
    {
      debugText := debugText + [item];
      sys.logCounter := sys.logCounter + 1;
    }

    /** `finalize`: the entry holding this logger leaves the registry. */
    method RemoveDebug(sys: LogSystem)
      requires sys.Valid()
      modifies sys
      ensures sys.allInstances == map k | k in old(sys.allInstances) && old(sys.allInstances)[k] != this :: old(sys.allInstances)[k]
      ensures this !in sys.Repr && sys.Valid()
      ensures sys.logCounter == old(sys.logCounter) && sys.console == old(sys.console)
      ensures sys.orderPrintingRate == old(sys.orderPrintingRate)
      ensures sys.printOnConsole == old(sys.printOnConsole) && sys.printOnFileFlag == old(sys.printOnFileFlag)
    {
      sys.allInstances := map k | k in sys.allInstances && sys.allInstances[k] != this :: sys.allInstances[k];
      sys.Repr := sys.Repr - {this};
    }
  }

  // ---------------------------------------------------------------------
  // The logging switches of the library's classes
  // ---------------------------------------------------------------------

  /** `LoggerFlag`: one switch per logging class of the library, all on at start. */
  class LoggerFlags {
    var referencesContainer: bool
    var referencesInterface: bool
    var owlLibrary: bool
    var reasonerMonitor: bool
    var reasonerExplanation: bool
    var owlManipulator: bool
    var ontologyReference: bool
    var owlEnquirer: bool
    var ontologyExporter: bool

    /** Every one of the nine switches has value `v`. */
    predicate AllEqual(v: bool)
      reads this
    {
      referencesContainer == v && referencesInterface == v && owlLibrary == v &&
      reasonerMonitor == v && reasonerExplanation == v && owlManipulator == v &&
      ontologyReference == v && owlEnquirer == v && ontologyExporter == v
    }

    constructor ()
      ensures AllEqual(true)
    {
      referencesContainer := true;
      referencesInterface := true;
      owlLibrary := true;
      reasonerMonitor := true;
      reasonerExplanation := true;
      owlManipulator := true;
      ontologyReference := true;
      owlEnquirer := true;
      ontologyExporter := true;
    }

    method SetAllLoggingFlags()
      modifies this
      ensures AllEqual(true)
    {
      referencesContainer := true;
      referencesInterface := true;
      owlLibrary := true;
      reasonerMonitor := true;
      reasonerExplanation := true;
      owlManipulator := true;
      ontologyReference := true;
      owlEnquirer := true;
      ontologyExporter := true;
    }

    method ResetAllLoggingFlags()
      modifies this
      ensures AllEqual(false)
    {
      referencesContainer := false;
      referencesInterface := false;
      owlLibrary := false;
      reasonerMonitor := false;
      reasonerExplanation := false;
      owlManipulator := false;
      ontologyReference := false;
      owlEnquirer := false;
      ontologyExporter := false;
    }
  }
}
