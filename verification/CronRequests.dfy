/** What requests and create tasks store, field by field. */
module CronRequests {
  import opened CronSyntax
  import opened CronStore
  import opened CronRuns
  import opened CronExpansion
  import opened CronHistory
  import CronMeaning

  // Which requests are accepted

  /** A new recurring schedule is accepted exactly if it names an app, has a payload within the
      limit and a well-formed callback, and its cron expression parses. */
  lemma CreateIff(p: Parent, lim: Limits)
    ensures CreateCode(p, lim) == Done <==>
      && p.app != "" && 1 <= |p.payload| <= lim.maxPayload && lim.callbackOk(p.callback)
      && p.cron != "" && lim.parse(p.cron).Cron?
  {
  }

  /** The field of a request if it is given, else the stored one. */
  function Given(request: string, stored: string): string { if |request| > 0 then request else stored }

  /** On reachable states an update is accepted exactly if there is such a recurring schedule, it
      is not deleted, the request names no other app or id, and the fields it leads to are valid. */
  lemma UpdateIff(t: Tables, pic: Picture, now: nat, window: nat, id: Uuid, c: Change, lim: Limits)
    requires Inv(t, pic, now, window)
    ensures UpdateCode(t, id, c, lim) == Done <==>
      && id in t.byId && t.byId[id].life != Deleted
      && (c.app == "" || c.app == t.byId[id].app) && (c.id == None || c.id == Some(id))
      && t.byId[id].app != "" && 1 <= |Given(c.payload, t.byId[id].payload)| <= lim.maxPayload
      && lim.callbackOk(if c.callback.Some? then c.callback.value else t.byId[id].callback)
      && lim.parse(Given(c.cron, t.byId[id].cron)).Cron?
    ensures UpdateCode(t, id, c, lim) == Gone <==> id in t.byId && t.byId[id].life == Deleted
    ensures UpdateCode(t, id, c, lim) == Immutable <==>
      && id in t.byId && t.byId[id].life != Deleted
      && !((c.app == "" || c.app == t.byId[id].app) && (c.id == None || c.id == Some(id)))
    ensures UpdateCode(t, id, c, lim) in {NotFound, NotRecurring} <==> id !in t.byId
    ensures id !in t.byId ==> UpdateCode(t, id, c, lim) == PauseCode(t, id)
  {
    GuardsAre(t, pic, now, window, id);
    hide Inv, IsOneTime;
  }

  // What they store

  /** The row of a parent after an update: each given field, and the rest as it was. */
  lemma UpdateStores(s: System, pic: Picture, id: Uuid, change: Change, now: nat, c: Config)
    requires Sound(s, pic, now, c) && UpdateCode(s.tables, id, change, c.lim) == Done
    ensures var old_, new_ := s.tables.byId, Next(s, Update(id, change), now, c).tables.byId;
      && id in old_ && new_.Keys == old_.Keys && (forall i | i in old_ && i != id :: new_[i] == old_[i])
      && new_[id].id == id && new_[id].app == old_[id].app && new_[id].partition == old_[id].partition
      && new_[id].cron == Given(change.cron, old_[id].cron)
      && new_[id].payload == Given(change.payload, old_[id].payload)
      && new_[id].callback == (if change.callback.Some? then change.callback.value else old_[id].callback)
      && new_[id].life == old_[id].life
  {
    hide Resting, Current, FieldsValid, IsOneTime;
    ParentFacts(s.tables, pic, now, c.window, id);
    hide Inv, FutureSlots, FutureKeys;
  }

  /** The row of a parent after the other requests: its status, and nothing else. */
  lemma StatusStores(s: System, pic: Picture, id: Uuid, now: nat, c: Config)
    requires Sound(s, pic, now, c) && id in s.tables.byId
    ensures var row := s.tables.byId[id];
      && (row.life == Scheduled ==>
            Next(s, Pause(id), now, c).tables.byId == s.tables.byId[id := row.(life := Paused)])
      && (row.life != Scheduled ==> Next(s, Pause(id), now, c).tables == s.tables)
      && (row.life == Paused ==>
            Next(s, Resume(id), now, c).tables.byId == s.tables.byId[id := row.(life := Scheduled)])
      && (row.life != Paused ==> Next(s, Resume(id), now, c).tables == s.tables)
      && Next(s, Delete(id), now, c).tables.byId == s.tables.byId[id := row.(life := Deleted)]
  {
    hide Resting, Current;
    GuardsAre(s.tables, pic, now, c.window, id);
    hide Inv, IsOneTime, FutureSlots, FutureKeys;
  }

  /** A new schedule is stored as it came, as scheduled; a one-time one with no parent. */
  lemma CreateStores(s: System, p: Parent, k: SlotKey, payload: string, callback: string, now: nat, c: Config)
    ensures CreateCode(p, c.lim) == Done ==>
      Next(s, Create(p), now, c).tables.byId ==
        s.tables.byId[p.id := Parent(p.id, p.app, p.partition, p.payload, p.callback, p.cron, Scheduled)]
    ensures CreateCode(p, c.lim) != Done ==> Next(s, Create(p), now, c).tables == s.tables
    ensures Next(s, CreateOnce(k, payload, callback), now, c).tables.schedules ==
      s.tables.schedules[k := Slot(None, payload, callback)]
  {
    hide FieldsValid;
  }

  // What they drop

  /** A request that stops a schedule's future removes its future records, but a delete removes
      none; every other record stays as it was. */
  lemma RecordsAfter(t: Tables, p: Parent, now: nat, r: RunKey)
    ensures r in Replace(t, p, now).runs <==> r in t.runs && !(r.parent == p.id && r.minute > now)
    ensures r in Replace(t, p, now).runs ==> Replace(t, p, now).runs[r] == t.runs[r]
    ensures DeleteParent(t, p, now).runs == t.runs
  {
  }

  /** Deleting a one-time schedule removes the rows with its id from `schedules`, and nothing else. */
  lemma DeleteOneTimeRemoves(t: Tables, id: Uuid, k: SlotKey)
    ensures var t' := DeleteOneTime(t, id);
      && (k in t'.schedules <==> k in t.schedules && k.id != id)
      && (k in t'.schedules ==> t'.schedules[k] == t.schedules[k])
      && t'.runs == t.runs && t'.byId == t.byId && t'.byPartition == t.byPartition
  {
  }

  // The queue

  /** A tick adds orders at the end; handling one takes that one off. */
  lemma QueueAfter(s: System, e: Event)
    ensures e.Tick? ==> NextQueue(s, e) == s.queue + Orders(e.rows, e.from)
    ensures e.Work? && e.i < |s.queue| ==> multiset(NextQueue(s, e)) + multiset{s.queue[e.i]} == multiset(s.queue)
    ensures !e.Tick? && !e.Work? ==> NextQueue(s, e) == s.queue
  {
    if e.Work? && e.i < |s.queue| {
      assert s.queue == s.queue[..e.i] + [s.queue[e.i]] + s.queue[e.i + 1..];
    }
  }

  // Runs

  /** The minute number `j` of a task's window. */
  predicate IsMinute(k: Task, j: int, m: nat) { 1 <= j <= k.window && m == k.from + 60 * j }

  /** The minutes a task wants: every minute after the tick up to the window's length that the
      expression matches, if the app is active and the clone is valid at that time. */
  lemma WantedMinutesAre(p: Parent, k: Task, lim: Limits, m: nat)
    ensures m in WantedMinutes(p, k, lim) <==>
      && k.active && p.cron != "" && lim.parse(p.cron).Cron?
      && (exists j :: IsMinute(k, j, m))
      && Matches(lim.parse(p.cron).expression, k.calendar(m))
      && p.app != "" && 1 <= |p.payload| <= lim.maxPayload && lim.callbackOk(p.callback)
      && k.now <= m <= k.now + lim.maxAhead
  {
    hide Matches;
    if InWindow(k, m) { assert IsMinute(k, (m - k.from) / 60, m); }
  }

  /** With the parser of `CronSyntax` and an expression that means what it denotes: those that
      the expression denotes. */
  lemma WantedIsDenoted(p: Parent, k: Task, lim: Limits, m: nat)
    requires p.cron != "" && lim.parse(p.cron) == ReadExpression(p.cron) && ReadExpression(p.cron).Cron?
    requires CronMeaning.RegularExpression(p.cron) || CronMeaning.BarrenExpression(p.cron)
    requires OnCalendar(k.calendar(m))
    ensures m in WantedMinutes(p, k, lim) <==>
      && k.active && (exists j :: IsMinute(k, j, m))
      && CronMeaning.ExpressionDenotes(p.cron, k.calendar(m))
      && p.app != "" && 1 <= |p.payload| <= lim.maxPayload && lim.callbackOk(p.callback)
      && k.now <= m <= k.now + lim.maxAhead
  {
    hide ReadExpression, Matches;
    hide CronMeaning.RegularExpression, CronMeaning.BarrenExpression, CronMeaning.ExpressionDenotes;
    WantedMinutesAre(p, k, lim, m);
    if CronMeaning.RegularExpression(p.cron) {
      CronMeaning.RegularAgrees(p.cron, k.calendar(m));
    } else {
      CronMeaning.BarrenAgrees(p.cron, k.calendar(m));
    }
  }

  /** A run that a task creates carries its parent's app, payload and callback, the id minted for
      its minute, and the partition that id is placed in; its record has the same id, app and
      partition. All other runs and records stay as they were. */
  lemma NewRunIs(t: Tables, p: Parent, k: Task, existing: set<nat>, lim: Limits, m: nat)
    requires Minted(t, k, WantedMinutes(p, k, lim)) && m in WantedMinutes(p, k, lim) && m !in existing
    ensures var t', id := Expand(t, p, k, existing, lim), k.mint(m);
      var slot := SlotKey(p.app, k.place(id), m, id);
      && slot in t'.schedules && t'.schedules[slot] == Slot(Some(p.id), p.payload, p.callback)
      && RunKey(p.id, m) in t'.runs && t'.runs[RunKey(p.id, m)] == Run(id, p.app, k.place(id))
  {
    hide WantedMinutes, Minted;
    AddedSlots(t, p, k, WantedMinutes(p, k, lim) - existing);
    AddedRecords(t, p, k, WantedMinutes(p, k, lim) - existing);
    hide AddRuns;
  }

  lemma OldRunsStay(t: Tables, p: Parent, k: Task, existing: set<nat>, lim: Limits, slot: SlotKey)
    requires Minted(t, k, WantedMinutes(p, k, lim)) && slot in t.schedules
    ensures var t' := Expand(t, p, k, existing, lim);
      slot in t'.schedules && t'.schedules[slot] == t.schedules[slot]
  {
    hide WantedMinutes;
    AddedSlots(t, p, k, WantedMinutes(p, k, lim) - existing);
    hide AddRuns;
  }

  /** For instance, a window of two minutes has both. */
  lemma TwoMinutes(p: Parent, k: Task, lim: Limits)
    requires k.from == 0 && k.window == 2 && k.now == 0 && k.active && lim.maxAhead >= 120
    requires p.cron != "" && p.app != "" && 1 <= |p.payload| <= lim.maxPayload && lim.callbackOk(p.callback)
    requires lim.parse(p.cron) == Cron(Expression([], [], [], [], []))
    ensures WantedMinutes(p, k, lim) == {60, 120}
  {
    forall m: nat ensures m in WantedMinutes(p, k, lim) <==> m in {60, 120} {
      WantedMinutesAre(p, k, lim, m);
      if m in {60, 120} { assert IsMinute(k, m / 60, m); }
      hide WantedMinutes;
    }
  }
}
