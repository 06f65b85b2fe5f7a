/** Giving one-time schedules their status: one row at a time, and in bulk. */
module Enrichment {
  import opened Schedules

  /** The stored reconciliation history: empty text, a list, or text that is no list. */
  datatype HistoryText = Blank | Attempts(list: seq<Attempt>) | Garbled

  datatype StatusRow = StatusRow(status: Status, error: string, history: HistoryText)

  datatype StatusKey = StatusKey(app: string, partition: nat, id: Uuid)

  type StatusTable = map<StatusKey, StatusRow>

  datatype Result<T> = Ok(value: T) | Err

  function KeyOf(s: Schedule): StatusKey { StatusKey(s.app, s.partition, s.id) }

  /** The clock reading and the flush period, in seconds. */
  datatype Clock = Clock(now: int, flushPeriod: int)

  /** The minute is past by more than a minute and a flush period. */
  predicate CheckUntriggered(s: Schedule, c: Clock) {
    s.group < c.now && c.now - s.group > 60 + c.flushPeriod
  }

  function SetUnknownStatus(s: Schedule, c: Clock): Schedule {
    if CheckUntriggered(s, c) then s.(status := Miss, error := "Failed to make a callback")
    else s.(status := Scheduled, error := "")
  }

  function SetStatus(s: Schedule, row: StatusRow): Result<Schedule> {
    match row.history
    case Blank => Ok(s.(status := row.status, error := row.error, history := []))
    case Attempts(list) => Ok(s.(status := row.status, error := row.error, history := list))
    case Garbled => Err
  }

  /** `setStatus`, the simple form: one schedule against the status table. */
  function EnrichOne(s: Schedule, table: StatusTable, c: Clock): Result<Schedule> {
    if KeyOf(s) in table then SetStatus(s, table[KeyOf(s)]) else Ok(SetUnknownStatus(s, c))
  }

  /** The status a schedule is given, by its fields: that of its row if there is one, with error
      and history; else MISS if its minute is past by more than a minute and the flush period,
      and SCHEDULED if not. */
  lemma EnrichedIs(s: Schedule, table: StatusTable, c: Clock)
    ensures var key, r := StatusKey(s.app, s.partition, s.id), EnrichOne(s, table, c);
      && (r.Err? <==> key in table && table[key].history.Garbled?)
      && (key in table && r.Ok? ==>
            && r.value.status == table[key].status && r.value.error == table[key].error
            && r.value.history == (if table[key].history.Blank? then [] else table[key].history.list))
      && (key !in table ==>
            && r.value.status == (if s.group < c.now && c.now > s.group + 60 + c.flushPeriod then Miss else Scheduled)
            && r.value.error == (if r.value.status == Miss then "Failed to make a callback" else "")
            && r.value.history == s.history)
      && (r.Ok? ==> r.value == s.(status := r.value.status, error := r.value.error, history := r.value.history))
  {
  }

  /** No schedule of the batch has an unreadable history. */
  ghost predicate Readable(batch: seq<Schedule>, table: StatusTable) {
    forall s | s in batch :: KeyOf(s) in table ==> !table[KeyOf(s)].history.Garbled?
  }

  function EnrichEach(batch: seq<Schedule>, table: StatusTable, c: Clock): (r: seq<Schedule>)
    requires Readable(batch, table)
    ensures |r| == |batch|
    ensures forall i | 0 <= i < |batch| :: r[i] == EnrichOne(batch[i], table, c).value
  {
    if batch == [] then []
    else
      assert batch[0] in batch && forall s | s in batch[1..] :: s in batch;
      [EnrichOne(batch[0], table, c).value] + EnrichEach(batch[1..], table, c)
  }

  /** A batch as the bulk query needs it: one app, one partition, distinct ids. */
  ghost predicate OneBucket(batch: seq<Schedule>) {
    && (forall i, j | 0 <= i < j < |batch| :: batch[i].id != batch[j].id)
    && (forall i | 0 <= i < |batch| :: batch[i].app == batch[0].app && batch[i].partition == batch[0].partition)
  }

  // Sequences that list the same things once

  ghost predicate NoRepeats<T(!new)>(s: seq<T>) { forall i, j | 0 <= i < j < |s| :: s[i] != s[j] }

  lemma NoRepeatsSnoc<T(!new)>(s: seq<T>, x: T)
    requires NoRepeats(s) && x !in s
    ensures NoRepeats(s + [x])
  {
  }

  lemma {:induction false} CountsOne(a: seq<Schedule>)
    requires NoRepeats(a)
    ensures forall x :: multiset(a)[x] == if x in a then 1 else 0
  {
    if a != [] {
      CountsOne(a[1..]);
      assert a == [a[0]] + a[1..];
      assert a[0] !in a[1..];
    }
  }

  lemma SameElements(a: seq<Schedule>, b: seq<Schedule>)
    requires NoRepeats(a) && NoRepeats(b) && forall x :: x in a <==> x in b
    ensures multiset(a) == multiset(b)
  {
    CountsOne(a);
    CountsOne(b);
  }

  // The bulk form

  function Ids(batch: seq<Schedule>): (r: seq<Uuid>)
    ensures |r| == |batch| && forall i | 0 <= i < |batch| :: r[i] == batch[i].id
  {
    seq(|batch|, i requires 0 <= i < |batch| => batch[i].id)
  }

  /** `getBulkStatus`: the status rows of a batch, in whatever order they come. */
  method GetBulkStatus(batch: seq<Schedule>, table: StatusTable) returns (rows: seq<Uuid>)
    requires batch != []
    ensures NoRepeats(rows)
    ensures forall x :: x in rows <==> x in Ids(batch) && StatusKey(batch[0].app, batch[0].partition, x) in table
  {
    rows := [];
    var left := set x | x in Ids(batch) && StatusKey(batch[0].app, batch[0].partition, x) in table;
    ghost var all := left;
    while left != {}
      invariant NoRepeats(rows) && left <= all && forall x :: x in rows <==> x in all - left
      decreases left
    {
      var x :| x in left;
      NoRepeatsSnoc(rows, x);
      rows := rows + [x];
      left := left - {x};
    }
  }

  /** `enriched[i]` is the schedule with id `done[i]`, enriched. */
  ghost predicate Progress(
      byId: map<Uuid, Schedule>, table: StatusTable, c: Clock, done: seq<Uuid>, enriched: seq<Schedule>) {
    && |done| == |enriched| && NoRepeats(done)
    && forall i | 0 <= i < |done| :: done[i] in byId && EnrichOne(byId[done[i]], table, c) == Ok(enriched[i])
  }

  lemma ProgressSnoc(
      byId: map<Uuid, Schedule>, table: StatusTable, c: Clock, done: seq<Uuid>, enriched: seq<Schedule>, x: Uuid,
      s: Schedule)
    requires Progress(byId, table, c, done, enriched) && x !in done && x in byId &&
      EnrichOne(byId[x], table, c) == Ok(s)
    ensures Progress(byId, table, c, done + [x], enriched + [s])
  {
  }

  lemma DoneIsReadable(
      batch: seq<Schedule>, byId: map<Uuid, Schedule>, table: StatusTable, c: Clock, done: seq<Uuid>,
      enriched: seq<Schedule>)
    requires Indexes(byId, batch) && Progress(byId, table, c, done, enriched)
    requires forall x :: x in done <==> x in byId
    ensures Readable(batch, table)
    ensures forall s | s in batch :: EnrichOne(s, table, c).value in enriched
  {
    forall s | s in batch ensures EnrichOne(s, table, c).Ok? && EnrichOne(s, table, c).value in enriched {
      assert s.id in done;
    }
  }

  lemma DoneFromBatch(
      batch: seq<Schedule>, byId: map<Uuid, Schedule>, table: StatusTable, c: Clock, done: seq<Uuid>,
      enriched: seq<Schedule>, i: nat)
    requires Readable(batch, table) && Indexes(byId, batch) && Progress(byId, table, c, done, enriched) &&
      i < |enriched|
    ensures enriched[i].id == done[i] && enriched[i] in EnrichEach(batch, table, c)
  {
  }

  /** When every id is done, the enriched list is a permutation of enriching one by one. */
  lemma ProgressIsPermutation(
      batch: seq<Schedule>, byId: map<Uuid, Schedule>, table: StatusTable, c: Clock, done: seq<Uuid>,
      enriched: seq<Schedule>)
    requires OneBucket(batch) && Indexes(byId, batch) && Progress(byId, table, c, done, enriched)
    requires forall x :: x in done <==> x in byId
    ensures Readable(batch, table) && multiset(enriched) == multiset(EnrichEach(batch, table, c))
  {
    DoneIsReadable(batch, byId, table, c, done, enriched);
    var each := EnrichEach(batch, table, c);
    forall i | 0 <= i < |enriched| ensures enriched[i].id == done[i] && enriched[i] in each {
      DoneFromBatch(batch, byId, table, c, done, enriched, i);
    }
    forall i | 0 <= i < |each| ensures each[i].id == batch[i].id && each[i] in enriched {
      assert batch[i] in batch;
    }
    hide EnrichEach, EnrichOne, Readable, Indexes;
    assert NoRepeats(enriched) && NoRepeats(each);
    SameElements(enriched, each);
  }

  /** `idToSchedule`: the schedules of a batch by id. */
  ghost predicate Indexes(byId: map<Uuid, Schedule>, batch: seq<Schedule>) {
    && (forall s | s in batch :: s.id in byId && byId[s.id] == s)
    && (forall x | x in byId :: byId[x] in batch && byId[x].id == x)
  }

  /** `OptimizedEnrichSchedule`: one bulk query, then the schedules it did not name.
      It returns the schedules that `setStatus` would give one by one, in another
      order, and fails exactly when one of those calls would. */
  method OptimizedEnrichSchedule(batch: seq<Schedule>, table: StatusTable, c: Clock) returns (r: Result<seq<Schedule>>)
    requires OneBucket(batch)
    ensures r.Ok? <==> Readable(batch, table)
    ensures r.Ok? ==> multiset(r.value) == multiset(EnrichEach(batch, table, c))
  {
    if |batch| == 0 { return Ok([]); }
    var byId := IndexById(batch);
    var enriched := [];
    var rows := GetBulkStatus(batch, table);
    var k := 0;
    while k < |rows|
      invariant 0 <= k <= |rows|
      invariant Progress(byId, table, c, rows[..k], enriched)
    {
      var x := rows[k];
      assert x in rows && x in Ids(batch);
      var row := table[StatusKey(batch[0].app, batch[0].partition, x)];
      assert KeyOf(byId[x]) == StatusKey(batch[0].app, batch[0].partition, x);
      var s := SetStatus(byId[x], row);
      if s.Err? {
        assert byId[x] in batch;
        return Err;
      }
      assert rows[..k + 1] == rows[..k] + [x] && x !in rows[..k];
      ProgressSnoc(byId, table, c, rows[..k], enriched, x, s.value);
      enriched := enriched + [s.value];
      k := k + 1;
    }
    assert rows[..k] == rows;
    enriched := EnrichUnknown(batch, byId, table, c, rows, enriched);
    return Ok(enriched);
  }

  method IndexById(batch: seq<Schedule>) returns (byId: map<Uuid, Schedule>)
    requires OneBucket(batch)
    ensures Indexes(byId, batch)
  {
    byId := map[];
    for i := 0 to |batch|
      invariant Indexes(byId, batch[..i])
    {
      assert batch[..i + 1] == batch[..i] + [batch[i]];
      byId := byId[batch[i].id := batch[i]];
    }
    assert batch[..|batch|] == batch;
  }

  /** The second loop: schedules without a status row, in map order. */
  method EnrichUnknown(
      batch: seq<Schedule>, byId: map<Uuid, Schedule>, table: StatusTable, c: Clock, rows: seq<Uuid>,
      first: seq<Schedule>)
    returns (enriched: seq<Schedule>)
    requires batch != [] && OneBucket(batch) && Indexes(byId, batch) && Progress(byId, table, c, rows, first)
    requires forall x :: x in rows <==> x in Ids(batch) && StatusKey(batch[0].app, batch[0].partition, x) in table
    ensures Readable(batch, table) && multiset(enriched) == multiset(EnrichEach(batch, table, c))
  {
    enriched := first;
    ghost var done := rows;
    var left := byId;
    while left != map[]
      invariant left.Keys <= byId.Keys && forall x | x in left :: left[x] == byId[x]
      invariant Progress(byId, table, c, done, enriched)
      invariant forall x :: x in done <==> x in rows || (x in byId && x !in left)
      decreases left.Keys
    {
      var x :| x in left;
      if x !in rows {
        assert byId[x] in batch;
        assert KeyOf(byId[x]) == StatusKey(batch[0].app, batch[0].partition, x);
        assert x in Ids(batch) by {
          var i :| 0 <= i < |batch| && batch[i] == byId[x];
          assert Ids(batch)[i] == x;
        }
        var s := SetUnknownStatus(left[x], c);
        ProgressSnoc(byId, table, c, done, enriched, x, s);
        enriched := enriched + [s];
        done := done + [x];
      }
      left := left - {x};
    }
    ProgressIsPermutation(batch, byId, table, c, done, enriched);
  }
}
