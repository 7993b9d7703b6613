/**
 * The bounded, most-recent-first SQL query log of the web application
 * (webapp/database/query_logger.go).  The mutex is left out: every method
 * below runs as one atomic step.  `time.Duration`, `int64` row counts and
 * `time.Now()` become plain integers passed in by the caller, and an `error`
 * becomes the `Option` of its message.
 */
module QueryLogging {
  import opened Wrappers

  datatype QueryLog = QueryLog(
    id: int,
    sql: string,
    duration: int,
    rows: int,
    error: string,
    timestamp: int)

  /** The entry `LogQuery` builds: the error text is the message of a non-nil error, else empty. */
  function NewEntry(id: int, sql: string, duration: int, rows: int, err: Option<string>, now: int): (e: QueryLog)
    ensures e.id == id && e.sql == sql && e.duration == duration && e.rows == rows && e.timestamp == now
    ensures err.None? ==> e.error == ""
    ensures err.Some? ==> e.error == err.value
  {
    QueryLog(id, sql, duration, rows, if err.Some? then err.value else "", now)
  }

  /** A nil error leaves no text; a non-nil error with a non-empty message is always recorded. */
  lemma ErrorRecorded(id: int, sql: string, duration: int, rows: int, err: Option<string>, now: int)
    ensures NewEntry(id, sql, duration, rows, err, now).error != "" <==> (err.Some? && err.value != "")
  {
  }

  function Min(a: int, b: int): int {
    if a <= b then a else b
  }

  /** The list after putting `e` in front of `qs` and keeping at most `cap` entries. */
  function Prepended(qs: seq<QueryLog>, e: QueryLog, cap: int): (r: seq<QueryLog>)
    requires cap >= 0
    ensures |r| == Min(|qs| + 1, cap)
    ensures |r| > 0 ==> r[0] == e
    ensures forall i :: 1 <= i < |r| ==> r[i] == qs[i - 1]
  {
    var all := [e] + qs;
    if |all| > cap then all[..cap] else all
  }

  /** Only the oldest entry is dropped, and only when the list was already full. */
  lemma PrependedDropsOnlyOldest(qs: seq<QueryLog>, e: QueryLog, cap: int)
    requires cap > 0
    ensures |qs| < cap ==> Prepended(qs, e, cap) == [e] + qs
    ensures |qs| >= cap ==> Prepended(qs, e, cap) == [e] + qs[..cap - 1]
  {
    if |qs| >= cap {
      assert Prepended(qs, e, cap) == [e] + qs[..cap - 1];
    }
  }

  /** A capacity of zero keeps nothing at all. */
  lemma PrependedZeroCapacity(qs: seq<QueryLog>, e: QueryLog)
    ensures Prepended(qs, e, 0) == []
  {
  }

  /** IDs strictly decrease from the front (newest) to the back (oldest). */
  predicate NewestFirst(qs: seq<QueryLog>) {
    forall i, j :: 0 <= i < j < |qs| ==> qs[i].id > qs[j].id
  }

  /** Every stored ID was handed out by the counter: it lies in `1..counter`. */
  predicate IssuedBy(qs: seq<QueryLog>, counter: int) {
    forall i :: 0 <= i < |qs| ==> 1 <= qs[i].id <= counter
  }

  /** The invariant of the log: bounded, ordered newest first, IDs issued by the counter. */
  predicate LogInvariant(qs: seq<QueryLog>, cap: int, counter: int) {
    0 <= cap && |qs| <= cap && 0 <= counter && NewestFirst(qs) && IssuedBy(qs, counter)
  }

  /** Logging with the next counter value keeps the invariant. */
  lemma PrependedKeepsInvariant(qs: seq<QueryLog>, e: QueryLog, cap: int, counter: int)
    requires LogInvariant(qs, cap, counter)
    requires e.id == counter + 1
    ensures LogInvariant(Prepended(qs, e, cap), cap, counter + 1)
  {
    var r := Prepended(qs, e, cap);
    forall i, j | 0 <= i < j < |r|
      ensures r[i].id > r[j].id
    {
      if i == 0 {
        assert r[j] == qs[j - 1];
      } else {
        assert r[i] == qs[i - 1] && r[j] == qs[j - 1];
      }
    }
  }

  /** The first `min(n, len)` entries, as `GetRecentQueries` returns them. */
  function Recent(qs: seq<QueryLog>, n: int): (r: seq<QueryLog>)
    requires n >= 0
    ensures |r| == Min(n, |qs|)
    ensures forall i :: 0 <= i < |r| ==> r[i] == qs[i]
  {
    if n > |qs| then qs else qs[..n]
  }

  /** Asking for at least as many entries as are stored returns the whole list. */
  lemma RecentAll(qs: seq<QueryLog>, n: int)
    requires n >= |qs|
    ensures Recent(qs, n) == qs
  {
  }

  /** The recent entries are themselves ordered newest first and are the newest ones. */
  lemma RecentNewest(qs: seq<QueryLog>, n: int)
    requires n >= 0 && NewestFirst(qs)
    ensures NewestFirst(Recent(qs, n))
    ensures forall i, j :: 0 <= i < |Recent(qs, n)| && |Recent(qs, n)| <= j < |qs| ==> Recent(qs, n)[i].id > qs[j].id
  {
  }

  // ---------------------------------------------------------------------
  // A sequence of calls made on one logger, replayed as values

  datatype Call =
    | Log(sql: string, duration: int, rows: int, err: Option<string>, now: int)
    | ClearCall

  datatype LogState = LogState(queries: seq<QueryLog>, counter: int)

  /** The state after `NewQueryLogger(cap)` followed by `calls`. */
  function Replay(cap: int, calls: seq<Call>): (s: LogState)
    requires cap >= 0
    ensures LogInvariant(s.queries, cap, s.counter)
  {
    if |calls| == 0 then LogState([], 0)
    else
      var prev := Replay(cap, calls[..|calls| - 1]);
      match calls[|calls| - 1]
      case ClearCall => LogState([], prev.counter)
      case Log(sql, d, rows, err, now) =>
        var e := NewEntry(prev.counter + 1, sql, d, rows, err, now);
        PrependedKeepsInvariant(prev.queries, e, cap, prev.counter);
        LogState(Prepended(prev.queries, e, cap), prev.counter + 1)
  }

  function LogCalls(calls: seq<Call>): (n: nat)
    ensures n <= |calls|
  {
    if |calls| == 0 then 0 else LogCalls(calls[..|calls| - 1]) + (if calls[|calls| - 1].Log? then 1 else 0)
  }

  /** The counter counts every `LogQuery` ever made; `Clear` never resets it. */
  lemma {:induction false} ReplayCounter(cap: int, calls: seq<Call>)
    requires cap >= 0
    ensures Replay(cap, calls).counter == LogCalls(calls)
  {
    if |calls| > 0 {
      ReplayCounter(cap, calls[..|calls| - 1]);
    }
  }

  /**
   * After a `Clear`, the next logged query still gets an ID larger than the
   * ID of every query logged before the `Clear`.
   */
  lemma {:induction false} IdsKeepIncreasingAfterClear(cap: int, calls: seq<Call>, q: Call)
    requires cap > 0 && q.Log?
    ensures var before := Replay(cap, calls);
            var after := Replay(cap, calls + [ClearCall, q]);
            |after.queries| == 1 && after.queries[0].id == before.counter + 1
            && forall i :: 0 <= i < |before.queries| ==> before.queries[i].id < after.queries[0].id
  {
    var c := calls + [ClearCall];
    assert (c + [q])[..|c|] == c;
    assert (calls + [ClearCall, q]) == c + [q];
    assert c[..|calls|] == calls;
  }

  // ---------------------------------------------------------------------
  // The logger object

  class QueryLogger {
    var queries: seq<QueryLog>
    var maxLogs: int
    var counter: int

    ghost predicate Valid()
      reads this
    {
      LogInvariant(queries, maxLogs, counter)
    }

    /** `NewQueryLogger`: a negative capacity makes Go's `make` panic, so it is required away. */
    constructor (maxLogs: int)
      requires maxLogs >= 0
      ensures Valid()
      ensures queries == [] && counter == 0 && this.maxLogs == maxLogs
    {
      queries := [];
      this.maxLogs := maxLogs;
      counter := 0;
    }

    method LogQuery(sql: string, duration: int, rows: int, err: Option<string>, now: int)
      requires Valid()
      modifies this
      ensures Valid()
      ensures counter == old(counter) + 1 && maxLogs == old(maxLogs)
      ensures queries == Prepended(old(queries), NewEntry(counter, sql, duration, rows, err, now), maxLogs)
    {
      counter := counter + 1;
      var log := NewEntry(counter, sql, duration, rows, err, now);
      PrependedKeepsInvariant(queries, log, maxLogs, counter - 1);
      queries := [log] + queries;
      if |queries| > maxLogs {
        queries := queries[..maxLogs];
      }
    }

    /** A copy of the list, made element by element as Go's `copy` does. */
    method GetQueries() returns (r: seq<QueryLog>)
      ensures r == queries
    {
      r := [];
      var i := 0;
      while i < |queries|
        invariant 0 <= i <= |queries|
        invariant r == queries[..i]
      {
        r := r + [queries[i]];
        i := i + 1;
      }
    }

    method Clear()
      requires Valid()
      modifies this
      ensures Valid()
      ensures queries == [] && counter == old(counter) && maxLogs == old(maxLogs)
    {
      queries := queries[..0];
    }

    /** A negative `n` makes Go's `make` panic, so it is required away. */
    method GetRecentQueries(n: int) returns (r: seq<QueryLog>)
      requires n >= 0
      ensures r == Recent(queries, n)
    {
      var m := n;
      if m > |queries| {
        m := |queries|;
      }
      r := [];
      var i := 0;
      while i < m
        invariant 0 <= i <= m
        invariant r == queries[..i]
      {
        r := r + [queries[i]];
        i := i + 1;
      }
    }
  }
}
