/** Reconciliation of a minute bucket: its rows are read page by page, enriched in
    batches of 50 that carry over from page to page, and acted on by status. */
module Reconcile {
  import opened Schedules
  import opened Enrichment
  import opened Paging

  const BATCH_SIZE := 50

  /** One requested status selects a schedule: the four run-time statuses by
      equality, any other value without looking. */
  predicate Selects(wanted: Status, s: Schedule) {
    wanted in {Success, Failure, Miss, Scheduled} ==> wanted == s.status
  }

  predicate Selected(statuses: seq<Status>, s: Schedule) {
    exists i | 0 <= i < |statuses| :: Selects(statuses[i], s)
  }

  /** A schedule is selected by its own status, or by any status that is not a run-time one. */
  lemma SelectedIff(statuses: seq<Status>, s: Schedule)
    ensures Selected(statuses, s) <==>
      || (s.status in statuses && s.status in {Success, Failure, Miss, Scheduled})
      || exists w :: w in statuses && w != Success && w != Failure && w != Miss && w != Scheduled
  {
    if Selected(statuses, s) {
      var i :| 0 <= i < |statuses| && Selects(statuses[i], s);
      assert statuses[i] in statuses;
    }
    if w :| w in statuses && w != Success && w != Failure && w != Miss && w != Scheduled {
      var i :| 0 <= i < |statuses| && statuses[i] == w;
      assert Selects(statuses[i], s);
    }
    if s.status in statuses {
      var i :| 0 <= i < |statuses| && statuses[i] == s.status;
      assert Selects(statuses[i], s);
    }
  }

  function Selector(statuses: seq<Status>): Schedule -> bool {
    s => Selected(statuses, s)
  }

  method Contains(statuses: seq<Status>, s: Schedule) returns (b: bool)
    ensures b == Selected(statuses, s)
  {
    for i := 0 to |statuses|
      invariant forall j | 0 <= j < i :: !Selects(statuses[j], s)
    {
      match statuses[i]
      case Success | Failure | Miss | Scheduled =>
        if statuses[i] == s.status { return true; }
      case _ => return true;
    }
    return false;
  }

  /** What a whole bucket should lead to: its rows enriched one by one, and selected. */
  ghost function Due(rows: seq<Schedule>, table: StatusTable, c: Clock, statuses: seq<Status>): seq<Schedule>
    requires Readable(rows, table)
  {
    Filter(EnrichEach(rows, table, c), Selector(statuses))
  }

  method Select(list: seq<Schedule>, statuses: seq<Status>) returns (acted: seq<Schedule>)
    ensures acted == Filter(list, Selector(statuses))
  {
    acted := [];
    var i := 0;
    while i < |list|
      invariant 0 <= i <= |list|
      invariant acted + Filter(list[i..], Selector(statuses)) == Filter(list, Selector(statuses))
    {
      assert list[i..][1..] == list[i + 1..];
      assert Selector(statuses)(list[i]) == Selected(statuses, list[i]);
      var b := Contains(statuses, list[i]);
      if b {
        acted := acted + [list[i]];
      }
      i := i + 1;
    }
  }

  /** Enrich a batch and act on the schedules selected by status. */
  method ActionIfRequired(batch: seq<Schedule>, table: StatusTable, c: Clock, statuses: seq<Status>)
    returns (r: Result<seq<Schedule>>)
    requires OneBucket(batch)
    ensures r.Ok? <==> Readable(batch, table)
    ensures r.Ok? ==> multiset(r.value) == multiset(Due(batch, table, c, statuses))
  {
    if |batch| == 0 { return Ok([]); }
    var enriched := OptimizedEnrichSchedule(batch, table, c);
    if enriched.Err? { return Err; }
    var acted := Select(enriched.value, statuses);
    hide Filter, EnrichEach;
    FilterOfPermutation(enriched.value, EnrichEach(batch, table, c), Selector(statuses));
    return Ok(acted);
  }

  lemma {:induction false} EnrichAppend(a: seq<Schedule>, b: seq<Schedule>, table: StatusTable, c: Clock)
    requires Readable(a, table) && Readable(b, table)
    ensures Readable(a + b, table) && EnrichEach(a + b, table, c) == EnrichEach(a, table, c) + EnrichEach(b, table, c)
  {
  }

  lemma DueAppend(a: seq<Schedule>, b: seq<Schedule>, table: StatusTable, c: Clock, statuses: seq<Status>)
    requires Readable(a, table) && Readable(b, table)
    ensures Readable(a + b, table) &&
      Due(a + b, table, c, statuses) == Due(a, table, c, statuses) + Due(b, table, c, statuses)
  {
    EnrichAppend(a, b, table, c);
    FilterOfAppend(EnrichEach(a, table, c), EnrichEach(b, table, c), Selector(statuses));
  }

  lemma PartOfBucket(rows: seq<Schedule>, i: nat, j: nat)
    requires OneBucket(rows) && i <= j <= |rows|
    ensures OneBucket(rows[i..j])
  {
  }

  /** Rows up to `done` have been acted on and the next ones, up to `at`, are in the batch. */
  ghost predicate Carried(rows: seq<Schedule>, table: StatusTable, c: Clock, statuses: seq<Status>,
                          done: nat, at: nat, batch: seq<Schedule>, acted: seq<Schedule>)
  {
    && done <= at <= |rows| && batch == rows[done..at]
    && Readable(rows[..done], table) && multiset(acted) == multiset(Due(rows[..done], table, c, statuses))
  }

  /** Acting on the carried batch moves the mark. */
  method ActOnBatch(rows: seq<Schedule>, table: StatusTable, c: Clock, statuses: seq<Status>,
                    ghost done: nat, ghost at: nat, batch: seq<Schedule>, before: seq<Schedule>)
    returns (ok: bool, acted: seq<Schedule>)
    requires OneBucket(rows) && Carried(rows, table, c, statuses, done, at, batch, before)
    ensures ok ==> Carried(rows, table, c, statuses, at, at, [], acted)
    ensures !ok ==> !Readable(rows, table)
  {
    PartOfBucket(rows, done, at);
    var r := ActionIfRequired(batch, table, c, statuses);
    if r.Err? {
      assert forall s | s in batch :: s in rows;
      return false, before;
    }
    DueAppend(rows[..done], batch, table, c, statuses);
    assert rows[..at] == rows[..done] + batch;
    return true, before + r.value;
  }

  /** `BulkAction`: each row of the bucket whose enriched status is selected is acted on
      exactly once, however the pages and batches fall, with one status query for every 50. */
  method BulkAction(
      rows: seq<Schedule>, pager: Pager, empties: nat, pageSize: int, table: StatusTable, c: Clock,
      statuses: seq<Status>)
    returns (ok: bool, acted: seq<Schedule>, queries: nat)
    requires Fair(pager, |rows|) && OneBucket(rows)
    ensures ok <==> Readable(rows, table)
    ensures ok ==> multiset(acted) == multiset(Due(rows, table, c, statuses))
    ensures ok ==> queries == (|rows| + 49) / 50
  {
    hide Fair, Filter, OneBucket, Readable, EnrichEach, Due;
    acted, queries := [], 0;
    var batch, state := [], NoState;
    ghost var done, at := 0, 0;
    EmptyCarried(rows, table, c, statuses);
    while true
      invariant at == Offset(state) && |batch| < BATCH_SIZE && done == BATCH_SIZE * queries
      invariant Carried(rows, table, c, statuses, done, at, batch, acted)
      decreases |rows| - Offset(state), Stalls(state, empties)
    {
      var from := Offset(state);
      var page := pager(from, Stalls(state, empties), pageSize);
      PageIsFair(pager, |rows|, from, Stalls(state, empties), pageSize);
      var j := from;
      while j < from + page.count
        invariant from <= j == at <= from + page.count && |batch| < BATCH_SIZE && done == BATCH_SIZE * queries
        invariant Carried(rows, table, c, statuses, done, at, batch, acted)
      {
        assert rows[done..at + 1] == rows[done..at] + [rows[j]];
        batch := batch + [rows[j]];
        j, at := j + 1, at + 1;
        if |batch| == BATCH_SIZE {
          var fine, more := ActOnBatch(rows, table, c, statuses, done, at, batch, acted);
          if !fine { return false, acted, queries; }
          acted, batch, done, queries := more, [], at, queries + 1;
        }
      }
      state := page.next;
      if state.NoState? { break; }
    }
    assert at == |rows|;
    assert rows[..at] == rows;
    ok := true;
    if |batch| > 0 {
      ok, acted := ActOnBatch(rows, table, c, statuses, done, at, batch, acted);
      queries := queries + 1;
    }
  }

  lemma EmptyCarried(rows: seq<Schedule>, table: StatusTable, c: Clock, statuses: seq<Status>)
    ensures Carried(rows, table, c, statuses, 0, 0, [], [])
  {
  }

  // Crash reconciliation

  /** Only callback results are ever stored. */
  ghost predicate OnlyResults(table: StatusTable) {
    forall k | k in table :: table[k].status in {Success, Failure}
  }

  /** With only results stored, asking for SCHEDULED and MISS selects exactly the rows without a status. */
  lemma SelectedIffNoStatus(s: Schedule, table: StatusTable, c: Clock)
    requires OnlyResults(table) && (KeyOf(s) in table ==> !table[KeyOf(s)].history.Garbled?)
    ensures Selector([Scheduled, Miss])(EnrichOne(s, table, c).value) <==> KeyOf(s) !in table
  {
    var e := EnrichOne(s, table, c).value;
    assert Selected([Scheduled, Miss], e) <==> e.status == Scheduled || e.status == Miss by {
      assert [Scheduled, Miss][0] == Scheduled && [Scheduled, Miss][1] == Miss;
      if e.status == Scheduled { assert Selects([Scheduled, Miss][0], e); }
      if e.status == Miss { assert Selects([Scheduled, Miss][1], e); }
    }
  }

  function Lacks(table: StatusTable): Schedule -> bool { s => KeyOf(s) !in table }

  lemma DueCons(rows: seq<Schedule>, table: StatusTable, c: Clock, statuses: seq<Status>)
    requires rows != [] && Readable(rows, table)
    ensures Readable(rows[1..], table) && EnrichOne(rows[0], table, c).Ok?
    ensures var e := EnrichOne(rows[0], table, c).value;
            Due(rows, table, c, statuses) ==
              (if Selector(statuses)(e) then [e] else []) + Due(rows[1..], table, c, statuses)
  {
  }

  /** The due rows of a bucket are its rows without a status row, each once, marked as
      scheduled or missed. */
  lemma {:induction false} DueIsMissing(rows: seq<Schedule>, table: StatusTable, c: Clock)
    requires OnlyResults(table) && Readable(rows, table)
    ensures Ids(Due(rows, table, c, [Scheduled, Miss])) == Ids(Filter(rows, Lacks(table)))
    ensures forall s | s in Due(rows, table, c, [Scheduled, Miss]) :: s.status in {Scheduled, Miss}
  {
    if rows != [] {
      var s := rows[0];
      assert s in rows;
      DueCons(rows, table, c, [Scheduled, Miss]);
      SelectedIffNoStatus(s, table, c);
      var e := EnrichOne(s, table, c).value;
      assert e.id == s.id && (KeyOf(s) !in table ==> e.status in {Scheduled, Miss});
      var due, lacking := Due(rows[1..], table, c, [Scheduled, Miss]), Filter(rows[1..], Lacks(table));
      assert Filter(rows, Lacks(table)) == (if KeyOf(s) !in table then [s] else []) + lacking;
      DueIsMissing(rows[1..], table, c);
      hide Due, Readable, EnrichOne, Selector, Filter, OnlyResults;
      IdsCons(e, due);
      IdsCons(s, lacking);
      hide Ids;
    }
  }

  lemma IdsCons(s: Schedule, rest: seq<Schedule>)
    ensures Ids([s] + rest) == [s.id] + Ids(rest)
  {
  }

  /** The minute a time falls in. */
  function MinuteOf(now: int): int { now - now % 60 }

  /** The last `offset + 1` minute buckets, oldest first. */
  function LatestBuckets(now: int, offset: int): (r: seq<int>)
    ensures |r| == if offset < 0 then 0 else offset + 1
    ensures forall j | 0 <= j < |r| :: r[j] == MinuteOf(now) - 60 * (offset - j)
  {
    seq(if offset < 0 then 0 else offset + 1, j => MinuteOf(now) - 60 * (offset - j))
  }

  lemma {:induction false} IdsOfPermutation(a: seq<Schedule>, b: seq<Schedule>)
    requires multiset(a) == multiset(b)
    ensures multiset(Ids(a)) == multiset(Ids(b))
    decreases |a|
  {
    if a == [] {
      assert |multiset(b)| == 0;
    } else {
      assert a[0] in multiset(b);
      var i :| 0 <= i < |b| && b[i] == a[0];
      RestIsPermutation(a, b, i);
      IdsOfPermutation(a[1..], b[..i] + b[i + 1..]);
      assert Ids(a) == [a[0].id] + Ids(a[1..]);
      assert Ids(b) == Ids(b)[..i] + [b[i].id] + Ids(b)[i + 1..];
      assert Ids(b[..i] + b[i + 1..]) == Ids(b)[..i] + Ids(b)[i + 1..];
    }
  }

  /** The schedules of a bucket that have no status row, each once, marked as scheduled or missed. */
  ghost predicate Invoked(acted: seq<Schedule>, rows: seq<Schedule>, table: StatusTable, c: Clock)
    requires Readable(rows, table)
  {
    && multiset(Ids(acted)) == multiset(Ids(Filter(rows, Lacks(table))))
    && multiset(acted) == multiset(Due(rows, table, c, [Scheduled, Miss]))
    && forall s | s in acted :: s.status in {Scheduled, Miss}
  }

  lemma DueIsInvoked(acted: seq<Schedule>, rows: seq<Schedule>, table: StatusTable, c: Clock)
    requires OnlyResults(table) && Readable(rows, table)
    requires multiset(acted) == multiset(Due(rows, table, c, [Scheduled, Miss]))
    ensures Invoked(acted, rows, table, c)
  {
    DueIsMissing(rows, table, c);
    hide Due, Readable, Filter, Ids, OnlyResults;
    IdsOfPermutation(acted, Due(rows, table, c, [Scheduled, Miss]));
    assert forall s | s in acted :: s in multiset(acted);
  }

  /** The outcome of one bucket: what was invoked, or that its rows could not be enriched. */
  datatype BucketResult = BucketResult(minute: int, ok: bool, acted: seq<Schedule>)

  /** `fetchAndRetrySchedule`: every one of the latest buckets, in turn; a bucket that
      fails does not stop the rest. In each other bucket, exactly the schedules without
      a status row are invoked, once each. */
  method FetchAndRetry(
      bucket: int -> seq<Schedule>, pager: int -> Pager, empties: nat, pageSize: int, table: StatusTable, c: Clock,
      offset: int)
    returns (log: seq<BucketResult>)
    requires OnlyResults(table)
    requires forall t :: Fair(pager(t), |bucket(t)|) && OneBucket(bucket(t))
    ensures |log| == |LatestBuckets(c.now, offset)| == if offset < 0 then 0 else offset + 1
    ensures forall j | 0 <= j < |log| ::
              && log[j].minute == LatestBuckets(c.now, offset)[j] == c.now - c.now % 60 - 60 * (offset - j)
              && (log[j].ok <==> Readable(bucket(log[j].minute), table))
              && (log[j].ok ==> Invoked(log[j].acted, bucket(log[j].minute), table, c))
  {
    hide OneBucket, Readable, Invoked, Fair;
    log := [];
    var i := offset;
    while i >= 0
      invariant -1 <= i || i == offset
      invariant |log| == if offset < 0 then 0 else offset - i
      invariant forall j | 0 <= j < |log| ::
              && log[j].minute == MinuteOf(c.now) - 60 * (offset - j)
              && (log[j].ok <==> Readable(bucket(log[j].minute), table))
              && (log[j].ok ==> Invoked(log[j].acted, bucket(log[j].minute), table, c))
    {
      var t := MinuteOf(c.now) - 60 * i;
      var ok, acted, _ := BulkAction(bucket(t), pager(t), empties, pageSize, table, c, [Scheduled, Miss]);
      if ok { DueIsInvoked(acted, bucket(t), table, c); }
      log := log + [BucketResult(t, ok, acted)];
      i := i - 1;
    }
  }

  /** The buckets covered are exactly the minutes of the last `offset` minutes and the current one. */
  lemma LatestBucketsAre(now: int, offset: int, t: int)
    ensures t in LatestBuckets(now, offset) <==> t % 60 == 0 && now - 60 * (offset + 1) < t <= now
  {
    var r := LatestBuckets(now, offset);
    if t % 60 == 0 && now - 60 * (offset + 1) < t <= now {
      var j := offset - (MinuteOf(now) - t) / 60;
      assert r[j] == t;
    }
  }

  // Polling a bucket

  /** `GetSchedules` of the poller: every row of the pages it reads is invoked, in order;
      it stops early only after the query limit. */
  method GetSchedules(rows: seq<Schedule>, pager: Pager, empties: nat, pageSize: int, maxQueries: int)
    returns (invoked: seq<Schedule>, queries: nat)
    requires Fair(pager, |rows|)
    ensures invoked <= rows && queries >= 1
    ensures queries <= maxQueries ==> invoked == rows
    ensures maxQueries >= 0 ==> queries <= maxQueries + 1
  {
    hide Fair;
    invoked, queries := [], 0;
    var state := NoState;
    while true
      invariant Offset(state) <= |rows| && invoked == rows[..Offset(state)]
      invariant 0 <= queries && (queries == 0 || queries <= maxQueries)
      decreases |rows| - Offset(state), Stalls(state, empties)
    {
      var from := Offset(state);
      var page := pager(from, Stalls(state, empties), pageSize);
      PageIsFair(pager, |rows|, from, Stalls(state, empties), pageSize);
      for j := from to from + page.count
        invariant invoked == rows[..j]
      {
        invoked := invoked + [rows[j]];
      }
      state := page.next;
      queries := queries + 1;
      if state.NoState? || queries > maxQueries {
        return;
      }
    }
  }
}
