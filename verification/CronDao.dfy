/** The four cron tables as the database holds them, with the requests, the tick and the
    create task that write them, each proved against its specification. */
module CronDao {
  import opened CronSyntax
  import opened CronStore
  import opened CronRuns
  import opened CronExpansion
  import opened CronHistory
  import opened Paging
  import opened RunLookup

  function OnePage(total: nat): Pager {
    (offset: nat, stalls: nat, n: int) =>
      if n <= 0 || offset >= total || total - offset <= n
        then Page(if offset <= total then total - offset else 0, NoState)
      else Page(n, At(offset + n, stalls))
  }

  /** The driver, for results of any length. */
  type Driver = d: nat -> Pager | forall total: nat :: Fair(d(total), total) witness OnePage

  // What the lookup of runs to come means for the deletes built from it

  function SlotsOf(rows: seq<RunRow>, p: Uuid): set<SlotKey> { set r | r in rows :: SlotOf(RunKey(p, r.minute), r.run) }

  function KeysOf(rows: seq<RunRow>, p: Uuid): set<RunKey> { set r | r in rows :: RunKey(p, r.minute) }

  lemma DeletesAre(t: Tables, p: Uuid, now: nat)
    ensures SlotsOf(Reversed(First(Future(Rows(t, p), now), -1)), p) == FutureSlots(t, p, now)
    ensures KeysOf(Reversed(First(Future(Rows(t, p), now), -1)), p) == FutureKeys(t, p, now)
  {
    FutureRows(t, p, now);
    ReversedSame(Future(Rows(t, p), now));
    var found := Reversed(First(Future(Rows(t, p), now), -1));
    hide Future, Rows;
    forall k | k in FutureKeys(t, p, now) ensures RunRow(k.minute, t.runs[k]) in found {
    }
    assert forall r | r in found ::
      RunKey(p, r.minute) in FutureKeys(t, p, now) && t.runs[RunKey(p, r.minute)] == r.run;
    hide FutureKeys;
    forall k ensures k in KeysOf(found, p) <==> k in FutureKeys(t, p, now) {
      if k in FutureKeys(t, p, now) {
        assert RunRow(k.minute, t.runs[k]) in found;
        KeyParent(t, p, now, k);
      }
    }
    forall k ensures k in SlotsOf(found, p) <==> k in FutureSlots(t, p, now) {
      if k in FutureSlots(t, p, now) {
        var key :| key in FutureKeys(t, p, now) && SlotOf(key, t.runs[key]) == k;
        assert RunRow(key.minute, t.runs[key]) in found;
        KeyParent(t, p, now, key);
      }
    }
  }

  lemma KeyParent(t: Tables, p: Uuid, now: nat, k: RunKey)
    requires k in FutureKeys(t, p, now)
    ensures k.parent == p
  {
  }

  // Adding runs one at a time

  lemma AddOneSlot(t: Tables, p: Parent, k: Task, minutes: set<nat>, m: nat)
    ensures AddRuns(t, p, k, minutes + {m}).schedules ==
      AddRuns(t, p, k, minutes).schedules[NewSlot(p, k, m) := Slot(Some(p.id), p.payload, p.callback)]
  {
    AddedSlots(t, p, k, minutes);
    AddedSlots(t, p, k, minutes + {m});
    hide AddRuns;
    var a, b := AddRuns(t, p, k, minutes + {m}).schedules,
      AddRuns(t, p, k, minutes).schedules[NewSlot(p, k, m) := Slot(Some(p.id), p.payload, p.callback)];
    assert forall s :: s in a <==> s in b;
    assert forall s | s in a :: a[s] == b[s];
  }

  lemma AddOneRecord(t: Tables, p: Parent, k: Task, minutes: set<nat>, m: nat)
    ensures AddRuns(t, p, k, minutes + {m}).runs == AddRuns(t, p, k, minutes).runs[RunKey(p.id, m) := RunAt(p, k, m)]
  {
    AddedRecords(t, p, k, minutes);
    AddedRecords(t, p, k, minutes + {m});
    hide AddRuns;
    var a, b := AddRuns(t, p, k, minutes + {m}).runs, AddRuns(t, p, k, minutes).runs[RunKey(p.id, m) := RunAt(p, k, m)];
    assert forall r :: r in a <==> r in b;
    assert forall r | r in a :: a[r] == b[r];
  }

  lemma AddOneMore(t: Tables, p: Parent, k: Task, minutes: set<nat>, m: nat)
    ensures AddRuns(t, p, k, minutes + {m}) == WithRun(AddRuns(t, p, k, minutes), p, k, m)
  {
    AddOneSlot(t, p, k, minutes, m);
    AddOneRecord(t, p, k, minutes, m);
    AddRunsParents(t, p, k, minutes);
    AddRunsParents(t, p, k, minutes + {m});
    hide AddRuns;
  }

  /** `CreateRun`: the run and its record, in one batch. */
  function WithRun(t: Tables, p: Parent, k: Task, m: nat): Tables {
    t.(schedules := t.schedules[NewSlot(p, k, m) := Slot(Some(p.id), p.payload, p.callback)],
       runs := t.runs[RunKey(p.id, m) := RunAt(p, k, m)])
  }

  /** The wanted minutes of a task above a time on its grid, and what one step down adds. */
  function Above(s: set<nat>, time: nat): set<nat> { set m | m in s && m > time }

  lemma StepDown(p: Parent, k: Task, existing: set<nat>, lim: Limits, j: nat)
    requires 0 < j <= k.window && k.active && p.cron != ""
    ensures var s, time := WantedMinutes(p, k, lim) - existing, k.from + 60 * j;
      Above(s, time - 60) == if time !in existing && Wanted(p, k, time, lim)
        then Above(s, time) + {time} else Above(s, time)
  {
    hide Matches, CloneValid;
    var s, time := WantedMinutes(p, k, lim) - existing, k.from + 60 * j;
    forall m | m in s && time - 60 < m <= time ensures m == time {
      assert InWindow(k, m) && (m - k.from) % 60 == 0;
      assert m - k.from > 60 * (j - 1) && m - k.from <= 60 * j;
    }
    assert time in s <==> time !in existing && Wanted(p, k, time, lim);
  }

  /** The loop of the retriever: a task for each row that is scheduled. */
  method MakeOrders(rows: seq<Parent>, from: nat) returns (orders: seq<Order>)
    ensures orders == Orders(rows, from)
  {
    orders := [];
    for i := 0 to |rows|
      invariant orders + Orders(rows[i..], from) == Orders(rows, from)
    {
      assert rows[i..][0] == rows[i] && rows[i..][1..] == rows[i + 1..];
      if rows[i].life == Scheduled {
        orders := orders + [Order(rows[i], from)];
      }
    }
  }

  ghost predicate Differ(orders: seq<Order>) { forall i, j | 0 <= i < j < |orders| :: orders[i] != orders[j] }

  lemma DifferCons(o: Order, rest: seq<Order>)
    requires Differ(rest) && o !in rest
    ensures Differ([o] + rest)
  {
  }

  /** Rows that differ make orders that do. */
  lemma {:induction false} OrdersDiffer(rows: seq<Parent>, from: nat)
    requires forall i, j | 0 <= i < j < |rows| :: rows[i] != rows[j]
    ensures Differ(Orders(rows, from))
  {
    if rows != [] {
      var rest := Orders(rows[1..], from);
      OrdersDiffer(rows[1..], from);
      OrdersAre(rows[1..], from);
      assert rows[0] !in rows[1..];
      if rows[0].life == Scheduled {
        DifferCons(Order(rows[0], from), rest);
      } else {
        assert Orders(rows, from) == rest;
      }
    }
  }

  class CronTables {
    var byId: map<Uuid, Parent>
    var byPartition: map<PartitionKey, Parent>
    var schedules: map<SlotKey, Slot>
    var runs: map<RunKey, Run>
    const driver: Driver
    const empties: nat

    constructor (driver: Driver, empties: nat)
      ensures View() == Empty.tables && this.driver == driver
    {
      byId, byPartition, schedules, runs := map[], map[], map[], map[];
      this.driver, this.empties := driver, empties;
    }

    function View(): Tables reads this { Tables(byId, byPartition, schedules, runs) }

    // Reads

    method FutureRunsOf(p: Uuid, now: nat, size: int) returns (found: seq<RunRow>)
      ensures found == Reversed(First(Future(Rows(View(), p), now), size))
    {
      var rows := Rows(View(), p);
      found := GetFutureRuns(rows, driver(|rows|), empties, now, size);
    }

    /** The rows of one partition, in whatever order the table yields them. */
    method GetRecurringScheduleByPartition(partition: nat) returns (rows: seq<Parent>)
      requires forall k | k in byPartition :: KeyOf(byPartition[k]) == k
      ensures Reads(View(), partition, rows)
      ensures forall i, j | 0 <= i < j < |rows| :: rows[i] != rows[j]
    {
      var keys := set k | k in byPartition && k.partition == partition;
      ghost var done: set<PartitionKey> := {};
      rows := [];
      while keys != {}
        invariant keys !! done && keys + done == set k | k in byPartition && k.partition == partition
        invariant forall p :: p in rows <==> KeyOf(p) in done && byPartition[KeyOf(p)] == p
        invariant forall i, j | 0 <= i < j < |rows| :: rows[i] != rows[j]
        decreases keys
      {
        var k :| k in keys;
        rows := rows + [byPartition[k]];
        keys, done := keys - {k}, done + {k};
      }
    }

    /** `CronRetriever.GetSchedules`: one task for each row of the partition that is scheduled. */
    method GetSchedules(partition: nat, from: nat) returns (orders: seq<Order>)
      requires forall k | k in byPartition :: KeyOf(byPartition[k]) == k
      ensures exists rows :: Reads(View(), partition, rows) && orders == Orders(rows, from)
      ensures forall o :: o in orders <==>
        o.from == from && o.parent.life == Scheduled && o.parent.partition == partition
        && KeyOf(o.parent) in byPartition && byPartition[KeyOf(o.parent)] == o.parent
      ensures Differ(orders)
    {
      var schedules := GetRecurringScheduleByPartition(partition);
      orders := MakeOrders(schedules, from);
      OrdersAre(schedules, from);
      OrdersDiffer(schedules, from);
      hide Orders;
    }

    // Writes: each collects a batch and executes it at once

    method CreateRecurringSchedule(p: Parent)
      modifies this
      ensures View() == Put(old(View()), p.(life := Scheduled))
    {
      byId := byId[p.id := p.(life := Scheduled)];
      byPartition := byPartition[KeyOf(p) := p.(life := Scheduled)];
    }

    method CreateRun(p: Parent, k: Task, minute: nat)
      modifies this
      ensures View() == WithRun(old(View()), p, k, minute)
    {
      var id := k.mint(minute);
      schedules := schedules[SlotKey(p.app, k.place(id), minute, id) := Slot(Some(p.id), p.payload, p.callback)];
      runs := runs[RunKey(p.id, minute) := Run(id, p.app, k.place(id))];
    }

    method FutureBatch(p: Uuid, now: nat) returns (slots: set<SlotKey>, keys: set<RunKey>)
      ensures slots == FutureSlots(View(), p, now) && keys == FutureKeys(View(), p, now)
    {
      hide Future, Rows, FutureKeys, FutureSlots;
      var found := FutureRunsOf(p, now, -1);
      slots, keys := {}, {};
      for i := 0 to |found|
        invariant slots == SlotsOf(found[..i], p) && keys == KeysOf(found[..i], p)
      {
        assert found[..i + 1] == found[..i] + [found[i]];
        keys := keys + {RunKey(p, found[i].minute)};
        slots := slots + {SlotKey(found[i].run.app, found[i].run.partition, found[i].minute, found[i].run.id)};
      }
      assert found[..|found|] == found;
      DeletesAre(View(), p, now);
    }

    method DeleteRecurringSchedule(p: Parent, now: nat)
      requires p.id in byId && p == byId[p.id]
      modifies this
      ensures View() == DeleteParent(old(View()), p, now)
    {
      var slots, keys := FutureBatch(p.id, now);
      byId := byId[p.id := p.(life := Deleted)];
      byPartition := byPartition[KeyOf(p) := p.(life := Deleted)];
      schedules := schedules - slots;
    }

    method UpdateRecurringScheduleStatus(p: Parent, life: Life, now: nat)
      requires p.id in byId && p == byId[p.id]
      modifies this
      ensures View() == SetLife(old(View()), p, life, now)
    {
      hide FutureKeys, FutureSlots;
      var slots, keys := {}, {};
      if life == Paused {
        slots, keys := FutureBatch(p.id, now);
      }
      byId := byId[p.id := p.(life := life)];
      byPartition := byPartition[KeyOf(p) := p.(life := life)];
      schedules, runs := schedules - slots, runs - keys;
    }

    method UpdateRecurringSchedule(p: Parent, now: nat)
      modifies this
      ensures View() == Replace(old(View()), p, now)
    {
      hide FutureKeys, FutureSlots;
      var slots, keys := FutureBatch(p.id, now);
      byId := byId[p.id := p];
      byPartition := byPartition[KeyOf(p) := p];
      schedules, runs := schedules - slots, runs - keys;
    }

    // The create task

    /** `createSchedules` for one task: walk the window backwards, skipping minutes that
        the bounded lookup found. */
    method CreateSchedules(p: Parent, k: Task, lim: Limits)
      modifies this
      ensures View() ==
        Expand(old(View()), p, k, MinutesOf(First(Future(Rows(old(View()), p.id), k.now), k.window)), lim)
      ensures InBounds(old(View()), k.now, k.window) ==>
        View() == Expand(old(View()), p, k, FutureMinutes(old(View()), p.id, k.now), lim)
    {
      hide Matches, Future, Rows, FutureMinutes, InBounds, AddRuns, WantedMinutes;
      ghost var was := View();
      var expression := lim.parse(p.cron);
      if p.cron == "" || !expression.Cron? || !k.active {
        NothingWanted(was, p, k, lim);
        return;
      }
      var found := FutureRunsOf(p.id, k.now, k.window);
      var existing: set<nat> := {};
      for i := 0 to |found|
        invariant existing == MinutesOf(found[..i])
      {
        assert found[..i + 1] == found[..i] + [found[i]];
        existing := existing + {found[i].minute};
      }
      assert found[..|found|] == found;
      ExistingAre(was, p.id, k.now, k.window);
      ghost var minutes := WantedMinutes(p, k, lim) - existing;
      var j := k.window;
      AboveLast(p, k, existing, lim);
      AddNone(was, p, k);
      while j > 0
        invariant 0 <= j <= k.window
        invariant View() == AddRuns(was, p, k, Above(minutes, k.from + 60 * j))
      {
        var time := k.from + 60 * j;
        assert InWindow(k, time) by { assert time - k.from == 60 * j; }
        StepDown(p, k, existing, lim, j);
        if time !in existing && Matches(expression.expression, k.calendar(time)) && CloneValid(p, time, k.now, lim) {
          AddOneMore(was, p, k, Above(minutes, time), time);
          CreateRun(p, k, time);
        }
        j := j - 1;
      }
      AboveFirst(p, k, existing, lim);
    }
  }

  lemma NothingWanted(t: Tables, p: Parent, k: Task, lim: Limits)
    requires p.cron == "" || !lim.parse(p.cron).Cron? || !k.active
    ensures forall existing :: Expand(t, p, k, existing, lim) == t
  {
    hide Matches;
    assert WantedMinutes(p, k, lim) == {};
    AddNone(t, p, k);
    forall existing ensures Expand(t, p, k, existing, lim) == t {
      assert {} - existing == {};
    }
  }

  lemma ExistingAre(t: Tables, p: Uuid, now: nat, window: nat)
    ensures MinutesOf(Reversed(First(Future(Rows(t, p), now), window))) ==
      MinutesOf(First(Future(Rows(t, p), now), window))
    ensures InBounds(t, now, window) ==> MinutesOf(First(Future(Rows(t, p), now), window)) == FutureMinutes(t, p, now)
  {
    hide Future, Rows, FutureMinutes, InBounds;
    ReversedSame(First(Future(Rows(t, p), now), window));
    if InBounds(t, now, window) { LookupIsComplete(t, p, now, window, window); }
  }

  lemma AboveLast(p: Parent, k: Task, existing: set<nat>, lim: Limits)
    ensures Above(WantedMinutes(p, k, lim) - existing, k.from + 60 * k.window) == {}
  {
  }

  lemma AboveFirst(p: Parent, k: Task, existing: set<nat>, lim: Limits)
    ensures Above(WantedMinutes(p, k, lim) - existing, k.from) == WantedMinutes(p, k, lim) - existing
  {
  }

  /** The request handlers: guards on the stored schedule, then a write. */
  method PauseSchedule(tables: CronTables, id: Uuid, now: nat) returns (code: Code)
    modifies tables
    requires forall i | i in tables.byId :: tables.byId[i].id == i
    ensures code == PauseCode(old(tables.View()), id)
    ensures tables.View() == if code == Done
      then SetLife(old(tables.View()), old(tables.byId)[id], Paused, now) else old(tables.View())
  {
    if IsOneTime(tables.View(), id) { return NotRecurring; }
    if id !in tables.byId { return NotFound; }
    var schedule := tables.byId[id];
    if schedule.cron == "" { return NotRecurring; }
    if schedule.life == Paused { return AlreadyPaused; }
    if schedule.life != Scheduled { return NotScheduled; }
    tables.UpdateRecurringScheduleStatus(schedule, Paused, now);
    code := Done;
  }

  method ResumeSchedule(tables: CronTables, id: Uuid, now: nat) returns (code: Code)
    modifies tables
    requires forall i | i in tables.byId :: tables.byId[i].id == i
    ensures code == ResumeCode(old(tables.View()), id)
    ensures tables.View() == if code == Done
      then SetLife(old(tables.View()), old(tables.byId)[id], Scheduled, now) else old(tables.View())
  {
    if IsOneTime(tables.View(), id) { return NotRecurring; }
    if id !in tables.byId { return NotFound; }
    var schedule := tables.byId[id];
    if schedule.cron == "" { return NotRecurring; }
    if schedule.life != Paused { return NotPaused; }
    tables.UpdateRecurringScheduleStatus(schedule, Scheduled, now);
    code := Done;
  }

  method UpdateSchedule(tables: CronTables, id: Uuid, change: Change, lim: Limits, now: nat) returns (code: Code)
    modifies tables
    ensures code == UpdateCode(old(tables.View()), id, change, lim)
    ensures tables.View() == if code == Done
      then Replace(old(tables.View()), Merge(old(tables.byId)[id], change), now) else old(tables.View())
  {
    if IsOneTime(tables.View(), id) { return NotRecurring; }
    if id !in tables.byId { return NotFound; }
    var schedule := tables.byId[id];
    if schedule.cron == "" { return NotRecurring; }
    if schedule.life == Deleted { return Gone; }
    if change.app != "" && change.app != schedule.app { return Immutable; }
    if change.id.Some? && change.id.value != schedule.id { return Immutable; }
    if change.cron != "" { schedule := schedule.(cron := change.cron); }
    if change.payload != "" { schedule := schedule.(payload := change.payload); }
    if change.callback.Some? { schedule := schedule.(callback := change.callback.value); }
    assert schedule == Merge(tables.byId[id], change);
    if !ParentValid(schedule, lim) { return Invalid; }
    tables.UpdateRecurringSchedule(schedule, now);
    code := Done;
  }

  method DeleteById(tables: CronTables, id: Uuid, now: nat) returns (code: Code)
    modifies tables
    requires forall i | i in tables.byId :: tables.byId[i].id == i
    ensures code == DeleteCode(old(tables.View()), id)
    ensures tables.View() == DeleteSchedule(old(tables.View()), id, now)
  {
    if IsOneTime(tables.View(), id) {
      tables.schedules := tables.schedules - set k | k in tables.schedules && k.id == id;
      return Done;
    }
    if id !in tables.byId { return NotFound; }
    if tables.byId[id].cron != "" {
      tables.DeleteRecurringSchedule(tables.byId[id], now);
    }
    code := Done;
  }

  method CreateRecurring(tables: CronTables, p: Parent, lim: Limits) returns (code: Code)
    modifies tables
    ensures code == CreateCode(p, lim)
    ensures tables.View() == if code == Done then Put(old(tables.View()), p.(life := Scheduled)) else old(tables.View())
  {
    if !ParentValid(p, lim) { return Invalid; }
    tables.CreateRecurringSchedule(p);
    code := Done;
  }
}
