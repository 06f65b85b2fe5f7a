/** What the cron tables promise, over every history. */
module CronGuarantees {
  import opened CronSyntax
  import opened CronStore
  import opened CronRuns
  import opened CronExpansion
  import opened CronHistory

  /** Whatever requests, ticks and tasks have come: `schedules` holds exactly one run for
      each minute of the picture; a run to come is recorded under its parent and minute with
      its id, app and partition; both parent tables hold the same rows; every stored cron
      expression parses; ids are unique; records lie within the window, so that the create
      task's lookup is complete; and a paused or deleted schedule has no run to come. */
  lemma EveryHistoryIsPictured(run: seq<Timed>, c: Config)
    requires Legal(Empty, run, 0, c)
    ensures var t, pic, now := After(Empty, run, c).tables, Drawn(Empty, Blank, run, c), Finish(run, 0);
      && Pictured(t, pic) && Recorded(t, now) && Mirror(t) && CronsParse(t, c.lim) && IdsUnique(t) &&
        InBounds(t, now, c.window)
      && (forall k, p :: IsRun(t, k, p) && p in t.byId && t.byId[p].life != Scheduled ==> k.minute <= now)
  {
    hide InBounds, PointHome, Accounted, Recorded, Mirror, CronsSet, IdsUnique, Current, Legal, After, Drawn;
    EmptyIsKept(c);
    RunKeeps(Empty, Blank, run, 0, c);
    EveryRunParses(Empty, run, c);
  }

  /** Every stored cron expression parses. */
  ghost predicate CronsParse(t: Tables, lim: Limits) {
    forall id | id in t.byId :: lim.parse(t.byId[id].cron).Cron?
  }

  lemma StepParses(s: System, e: Event, now: nat, c: Config)
    requires CronsParse(s.tables, c.lim)
    ensures CronsParse(Next(s, e, now, c).tables, c.lim)
  {
    hide FieldsValid, IsOneTime, WantedMinutes, FutureMinutes, FutureKeys, FutureSlots;
  }

  lemma {:induction false} EveryRunParses(s: System, run: seq<Timed>, c: Config)
    requires CronsParse(s.tables, c.lim)
    ensures CronsParse(After(s, run, c).tables, c.lim)
    decreases |run|
  {
    hide Next, CronsParse;
    if run != [] {
      StepParses(s, run[0].event, run[0].now, c);
      EveryRunParses(Next(s, run[0].event, run[0].now, c), run[1..], c);
    }
  }

  // Identity and status

  /** Rows of parents keep their key, and a deleted one stays deleted. */
  ghost predicate Persists(t: Tables, t': Tables) {
    forall id | id in t.byId ::
      id in t'.byId && KeyOf(t'.byId[id]) == KeyOf(t.byId[id]) &&
      (t.byId[id].life == Deleted ==> t'.byId[id].life == Deleted)
  }

  lemma PutPersists(t: Tables, t': Tables, p: Parent)
    requires t'.byId == t.byId[p.id := p]
    requires p.id in t.byId ==> KeyOf(p) == KeyOf(t.byId[p.id]) && (t.byId[p.id].life == Deleted ==> p.life == Deleted)
    ensures Persists(t, t')
  {
  }

  /** What a step writes to the table of parents: nothing, or one row under its own key. */
  lemma StepPersists(s: System, pic: Picture, e: Event, now: nat, c: Config)
    requires Sound(s, pic, now, c) && Allowed(s, e, now, c)
    ensures Persists(s.tables, Next(s, e, now, c).tables)
  {
    hide Resting, FieldsValid, IsOneTime, Inv, WantedMinutes, FutureMinutes, Minted, FutureKeys, FutureSlots, AddRuns;
    hide Reads, Current;
    var t, t' := s.tables, Next(s, e, now, c).tables;
    if e.Work? {
      var p := s.queue[e.i].parent;
      AddRunsParents(t, p, e.task, WantedMinutes(p, e.task, c.lim) - FutureMinutes(t, p.id, now));
    } else if e.Create? {
      if t' != t {
        hide Persists;
        PutPersists(t, t', e.parent.(life := Scheduled));
      }
    } else if (e.Pause? || e.Resume? || e.Update? || e.Delete?) && e.id in t.byId {
      ParentFacts(t, pic, now, c.window, e.id);
      if t'.byId != t.byId {
        hide Persists;
        PutPersists(t, t', t'.byId[e.id]);
      }
    }
  }

  lemma {:induction false} EveryRunPersists(s: System, pic: Picture, run: seq<Timed>, now: nat, c: Config)
    requires Sound(s, pic, now, c) && Legal(s, run, now, c)
    ensures Persists(s.tables, After(s, run, c).tables)
    decreases |run|
  {
    hide Sound, Allowed, Next, NextPicture;
    if run != [] {
      var e, at := run[0].event, run[0].now;
      RestingLater(s, pic, now, at, c);
      StepKeeps(s, pic, e, at, c);
      StepPersists(s, pic, e, at, c);
      EveryRunPersists(Next(s, e, at, c), NextPicture(s, pic, e, at, c), run[1..], at, c);
    }
  }

  // Stopping and restarting

  /** A request that stops a schedule's future. */
  ghost predicate Stops(s: System, e: Event, id: Uuid, c: Config) {
    match e
    case Pause(x) => x == id && PauseCode(s.tables, id) == Done
    case Update(x, change) => x == id && UpdateCode(s.tables, id, change, c.lim) == Done
    case Delete(x) => x == id && id in s.tables.byId
    case _ => false
  }

  /** Pause, update and delete remove exactly the schedule's runs to come: its past runs
      and the runs of all others stay. */
  lemma StopIsExact(s: System, pic: Picture, e: Event, id: Uuid, now: nat, c: Config)
    requires Sound(s, pic, now, c) && Stops(s, e, id, c)
    ensures forall k, q :: IsRun(Next(s, e, now, c).tables, k, q) <==>
      IsRun(s.tables, k, q) && !(q == id && k.minute > now)
  {
    hide Resting, FieldsValid, IsOneTime, Inv, Replace, DeleteParent, Dropped, IsRun, Recorded, RecordsSound;
    var t := s.tables;
    ParentFacts(t, pic, now, c.window, id);
    GuardsAre(t, pic, now, c.window, id);
    var p :=
      if e.Pause? then t.byId[id].(life := Paused)
      else if e.Update? then Merge(t.byId[id], e.change)
      else t.byId[id];
    WritesAreRewrites(t, p, now);
    DroppedFrom(t, pic, now, c.window, p, true);
    DroppedFrom(t, pic, now, c.window, p.(life := Deleted), false);
  }

  lemma DroppedFrom(t: Tables, pic: Picture, now: nat, window: nat, p: Parent, records: bool)
    requires Inv(t, pic, now, window)
    ensures forall k, q :: IsRun(Dropped(Put(t, p), p.id, now, records), k, q) <==>
      IsRun(t, k, q) && !(q == p.id && k.minute > now)
  {
  }

  /** A task's own effect: afterwards exactly the earlier runs, and one for every wanted
      minute that was neither there nor cancelled. */
  lemma WorkIsExact(s: System, pic: Picture, i: nat, k: Task, now: nat, c: Config, m: nat)
    requires Sound(s, pic, now, c) && Allowed(s, Work(i, k), now, c)
    ensures HasRun(Next(s, Work(i, k), now, c).tables, s.queue[i].parent.id, m) <==>
      HasRun(s.tables, s.queue[i].parent.id, m)
      || (m in WantedMinutes(s.queue[i].parent, k, c.lim) && m !in Cancelled(pic, s.queue[i].parent.id))
  {
    var p := s.queue[i].parent;
    var s' := Next(s, Work(i, k), now, c);
    hide WantedMinutes, FutureMinutes, Minted, AddRuns, Inv, Next, HasRun, Resting;
    WorkKeeps(s, pic, i, k, now, c);
    assert p.id in s.tables.byId;
    ParentFacts(s.tables, pic, now, c.window, p.id);
    PictureTells(s.tables, pic, now, c.window, p.id, m);
    PictureTells(s'.tables, Expanded(pic, p, k, c.lim), now, c.window, p.id, m);
  }

  lemma PictureTells(t: Tables, pic: Picture, now: nat, window: nat, p: Uuid, m: nat)
    requires Inv(t, pic, now, window) && p in pic.at
    ensures HasRun(t, p, m) <==> m in pic.at[p]
  {
    hide Recorded, RecordsSound, Mirror, CronsSet, IdsUnique;
  }

  // Exactly the covered minutes

  /** Nobody creates, pauses, updates or deletes the schedule, or cancels a run of it. */
  ghost predicate Undisturbed(s: System, run: seq<Timed>, id: Uuid, c: Config)
    decreases |run|
  {
    run == [] ||
    (!Disturbs(s, run[0].event, id) && Undisturbed(Next(s, run[0].event, run[0].now, c), run[1..], id, c))
  }

  ghost predicate Disturbs(s: System, e: Event, id: Uuid) {
    match e
    case Create(p) => p.id == id
    case Pause(x) => x == id
    case Update(x, _) => x == id
    case Delete(x) => x == id || exists k: SlotKey :: k.id == x && IsRun(s.tables, k, id)
    case _ => false
  }

  /** Some task of the run, for this schedule, wants the minute. */
  ghost predicate Asked(s: System, run: seq<Timed>, id: Uuid, m: nat, c: Config)
    decreases |run|
  {
    run != [] &&
    (AskedNow(s, run[0].event, id, m, c) || Asked(Next(s, run[0].event, run[0].now, c), run[1..], id, m, c))
  }

  ghost predicate AskedNow(s: System, e: Event, id: Uuid, m: nat, c: Config) {
    && e.Work? && e.i < |s.queue| && s.queue[e.i].parent.id == id
    && m in WantedMinutes(s.queue[e.i].parent, e.task, c.lim)
  }

  lemma PictureStep(s: System, pic: Picture, e: Event, id: Uuid, now: nat, c: Config, m: nat)
    requires Sound(s, pic, now, c) && Allowed(s, e, now, c) && id in pic.at && !Disturbs(s, e, id)
    ensures var pic' := NextPicture(s, pic, e, now, c);
      id in pic'.at && Cancelled(pic', id) == Cancelled(pic, id)
      && (m in pic'.at[id] <==> m in pic.at[id] || (AskedNow(s, e, id, m, c) && m !in Cancelled(pic, id)))
  {
    hide Inv, Resting, WantedMinutes, Minted, FieldsValid, Unused, ParentValid;
    if e.Delete? && IsOneTime(s.tables, e.id) {
      var k :| k in s.tables.schedules && k.id == e.id && NextPicture(s, pic, e, now, c) == Without(pic, s.tables, k);
      assert !IsRun(s.tables, k, id);
    }
  }

  lemma StepTells(s: System, pic: Picture, e: Event, id: Uuid, now: nat, c: Config, m: nat)
    requires Sound(s, pic, now, c) && Allowed(s, e, now, c) && id in s.tables.byId && !Disturbs(s, e, id)
    ensures var s', pic' := Next(s, e, now, c), NextPicture(s, pic, e, now, c);
      id in s'.tables.byId && Cancelled(pic', id) == Cancelled(pic, id)
      && (HasRun(s'.tables, id, m) <==>
        HasRun(s.tables, id, m) || (AskedNow(s, e, id, m, c) && m !in Cancelled(pic, id)))
  {
    hide Inv, Next, NextPicture, Allowed, Disturbs, AskedNow, HasRun, Resting, Current, Cancelled;
    var s', pic' := Next(s, e, now, c), NextPicture(s, pic, e, now, c);
    ParentFacts(s.tables, pic, now, c.window, id);
    PictureStep(s, pic, e, id, now, c, m);
    StepKeeps(s, pic, e, now, c);
    PicturedKeys(s'.tables, pic', now, c.window);
    PictureTells(s.tables, pic, now, c.window, id, m);
    PictureTells(s'.tables, pic', now, c.window, id, m);
  }

  /** Over any history that leaves the schedule itself alone, whatever happens to others,
      and however ticks overlap or repeat: a minute has a run at the end exactly when it had
      one at the start, or some task wanted it and its run had not been cancelled. */
  lemma {:induction false} ExactlyTheCovered(
      s: System, pic: Picture, run: seq<Timed>, id: Uuid, now: nat, c: Config, m: nat)
    requires Sound(s, pic, now, c) && Legal(s, run, now, c) && id in s.tables.byId && Undisturbed(s, run, id, c)
    ensures HasRun(After(s, run, c).tables, id, m) <==>
      HasRun(s.tables, id, m) || (Asked(s, run, id, m, c) && m !in Cancelled(pic, id))
    decreases |run|
  {
    hide Sound, Allowed, Next, NextPicture, HasRun, AskedNow, Cancelled, Disturbs;
    if run != [] {
      var e, at := run[0].event, run[0].now;
      RestingLater(s, pic, now, at, c);
      StepTells(s, pic, e, id, at, c, m);
      StepKeeps(s, pic, e, at, c);
      ExactlyTheCovered(Next(s, e, at, c), NextPicture(s, pic, e, at, c), run[1..], id, at, c, m);
    }
  }

  /** Deleting one run strikes its minute out. */
  lemma CancelIsRecorded(s: System, pic: Picture, k: SlotKey, id: Uuid, now: nat, c: Config)
    requires Sound(s, pic, now, c) && IsRun(s.tables, k, id)
    ensures var s', pic' := Next(s, Delete(k.id), now, c), NextPicture(s, pic, Delete(k.id), now, c);
      !HasRun(s'.tables, id, k.minute) && k.minute in Cancelled(pic', id) && id in s'.tables.byId
  {
    hide Recorded, RecordsSound, Mirror, CronsSet, Resting, Current;
    var l :| l in s.tables.schedules && l.id == k.id &&
      NextPicture(s, pic, Delete(k.id), now, c) == Without(pic, s.tables, l);
    assert l == k;
    hide IdsUnique;
    assert Next(s, Delete(k.id), now, c).tables == DeleteOneTime(s.tables, k.id);
    assert RunKey(id, k.minute) in Without(pic, s.tables, k).off;
    assert forall j, q :: IsRun(DeleteOneTime(s.tables, k.id), j, q) ==> IsRun(s.tables, j, q) && j.id != k.id;
  }

  /** A cancelled run does not come back, however many tasks want its minute. */
  lemma CancelledStaysAway(s: System, pic: Picture, k: SlotKey, run: seq<Timed>, id: Uuid, now: nat, c: Config)
    requires Sound(s, pic, now, c) && IsRun(s.tables, k, id) && NoOrder(s.queue, k.id)
    requires var s' := Next(s, Delete(k.id), now, c); Legal(s', run, now, c) && Undisturbed(s', run, id, c)
    ensures !HasRun(After(Next(s, Delete(k.id), now, c), run, c).tables, id, k.minute)
  {
    hide Sound, Next, NextPicture, HasRun, Cancelled, IsRun, NoOrder, Legal, Undisturbed, After;
    CancelIsRecorded(s, pic, k, id, now, c);
    StepKeeps(s, pic, Delete(k.id), now, c);
    ExactlyTheCovered(Next(s, Delete(k.id), now, c), NextPicture(s, pic, Delete(k.id), now, c), run, id, now, c,
      k.minute);
  }

  // Restarting

  lemma ResumeDone(s: System, pic: Picture, id: Uuid, now: nat, c: Config)
    requires Sound(s, pic, now, c) && id in s.tables.byId && s.tables.byId[id].life == Paused
    ensures Next(s, Resume(id), now, c).tables == Put(s.tables, s.tables.byId[id].(life := Scheduled))
    ensures NextPicture(s, pic, Resume(id), now, c) == pic
  {
    hide Inv, IsOneTime, Resting;
    GuardsAre(s.tables, pic, now, c.window, id);
  }

  lemma NoneCancelled(s: System, pic: Picture, id: Uuid, now: nat, c: Config, m: nat)
    requires Sound(s, pic, now, c) && id in s.tables.byId && s.tables.byId[id].life != Scheduled &&
      m in Cancelled(pic, id)
    ensures m <= now
  {
    hide Inv;
  }

  /** Tasks ask for minutes that are still to come. */
  lemma {:induction false} AskedIsAhead(s: System, run: seq<Timed>, id: Uuid, now: nat, c: Config, m: nat)
    requires Legal(s, run, now, c) && Asked(s, run, id, m, c)
    ensures m > now
    decreases |run|
  {
    var e, at := run[0].event, run[0].now;
    if AskedNow(s, e, id, m, c) {
      WantedIsAhead(s.queue[e.i].parent, e.task, c.window, c.lim, m);
    } else {
      hide Allowed, AskedNow, Next;
      AskedIsAhead(Next(s, e, at, c), run[1..], id, at, c, m);
    }
  }

  /** After a resume, in whatever history follows that leaves the schedule itself alone, every
      minute that some task wants has a run again. */
  lemma ResumeRestores(s: System, pic: Picture, id: Uuid, run: seq<Timed>, now: nat, c: Config, m: nat)
    requires Sound(s, pic, now, c) && id in s.tables.byId && s.tables.byId[id].life == Paused
    requires var s' := Next(s, Resume(id), now, c);
      Legal(s', run, now, c) && Undisturbed(s', run, id, c) && Asked(s', run, id, m, c)
    ensures HasRun(After(Next(s, Resume(id), now, c), run, c).tables, id, m)
  {
    hide Sound, Next, NextPicture, HasRun, Legal, Undisturbed, After, Asked;
    var s' := Next(s, Resume(id), now, c);
    ResumeDone(s, pic, id, now, c);
    StepKeeps(s, pic, Resume(id), now, c);
    ExactlyTheCovered(s', pic, run, id, now, c, m);
    AskedIsAhead(s', run, id, now, c, m);
    if m in Cancelled(pic, id) { NoneCancelled(s, pic, id, now, c, m); }
  }

  /** A tick of the schedule's partition queues a task for it if it is scheduled. */
  lemma TickQueues(s: System, pic: Picture, id: Uuid, from: nat, rows: seq<Parent>, now: nat, c: Config)
    requires Sound(s, pic, now, c) && id in s.tables.byId && s.tables.byId[id].life == Scheduled
    requires Reads(s.tables, s.tables.byId[id].partition, rows)
    ensures Order(s.tables.byId[id], from) in Next(s, Tick(s.tables.byId[id].partition, from, rows), now, c).queue
  {
    hide Pictured, Recorded, RecordsSound, CronsSet, IdsUnique, Resting, Current;
    assert KeyOf(s.tables.byId[id]) in s.tables.byPartition;
    OrdersAre(rows, from);
  }

  /** The run handles the order with this task. */
  ghost predicate Handles(s: System, run: seq<Timed>, o: Order, k: Task, c: Config)
    decreases |run|
  {
    run != [] && (HandlesNow(s, run[0], o, k) || Handles(Next(s, run[0].event, run[0].now, c), run[1..], o, k, c))
  }

  ghost predicate HandlesNow(s: System, e: Timed, o: Order, k: Task) {
    e.event.Work? && e.event.i < |s.queue| && s.queue[e.event.i] == o && e.event.task == k && k.now == e.now
  }

  /** An order that was queued and no longer is has been handled. */
  lemma {:induction false} QueuedIsHandled(s: System, run: seq<Timed>, o: Order, now: nat, c: Config) returns (k: Task)
    requires Legal(s, run, now, c) && o in s.queue && o !in After(s, run, c).queue
    ensures Handles(s, run, o, k, c)
    decreases |run|
  {
    hide WantedMinutes, Minted, NextTables;
    var e, at := run[0].event, run[0].now;
    if e.Work? && s.queue[e.i] == o {
      k := e.task;
    } else {
      assert o in Next(s, e, at, c).queue;
      k := QueuedIsHandled(Next(s, e, at, c), run[1..], o, at, c);
    }
  }

  /** A task that is handled asks for the minutes it wants. */
  lemma {:induction false} HandledIsAsked(s: System, run: seq<Timed>, o: Order, k: Task, c: Config, m: nat)
    requires Handles(s, run, o, k, c) && m in WantedMinutes(o.parent, k, c.lim)
    ensures Asked(s, run, o.parent.id, m, c)
    decreases |run|
  {
    hide WantedMinutes, Next;
    if !HandlesNow(s, run[0], o, k) {
      HandledIsAsked(Next(s, run[0].event, run[0].now, c), run[1..], o, k, c, m);
    }
  }

  /** From a tick of its partition on, in whatever history that leaves the schedule itself alone:
      once the order is off the queue a task has handled it, and every minute that a task
      handling it wanted has a run, unless it was cancelled. */
  lemma TickRestores(
      s: System, pic: Picture, id: Uuid, from: nat, rows: seq<Parent>, run: seq<Timed>, now: nat, c: Config)
    requires Sound(s, pic, now, c) && id in s.tables.byId && s.tables.byId[id].life == Scheduled
    requires var tick := Tick(s.tables.byId[id].partition, from, rows);
      Allowed(s, tick, now, c) && var s' := Next(s, tick, now, c);
      Legal(s', run, now, c) && Undisturbed(s', run, id, c)
    ensures var s', o := Next(s, Tick(s.tables.byId[id].partition, from, rows), now, c), Order(s.tables.byId[id], from);
      && (o !in After(s', run, c).queue ==> exists k :: Handles(s', run, o, k, c))
      && (forall k, m | Handles(s', run, o, k, c) && m in WantedMinutes(o.parent, k, c.lim) &&
        m !in Cancelled(pic, id) ::
            HasRun(After(s', run, c).tables, id, m))
  {
    var p := s.tables.byId[id];
    var tick, o := Tick(p.partition, from, rows), Order(p, from);
    var s' := Next(s, tick, now, c);
    TickQueues(s, pic, id, from, rows, now, c);
    StepKeeps(s, pic, tick, now, c);
    assert p.id == id by { ParentFacts(s.tables, pic, now, c.window, id); }
    hide Sound, HasRun, Legal, Undisturbed, After, Asked, Cancelled, WantedMinutes, Handles;
    if o !in After(s', run, c).queue {
      var k := QueuedIsHandled(s', run, o, now, c);
    }
    forall k, m | Handles(s', run, o, k, c) && m in WantedMinutes(p, k, c.lim) && m !in Cancelled(pic, id)
      ensures HasRun(After(s', run, c).tables, id, m)
    {
      HandledIsAsked(s', run, o, k, c, m);
      ExactlyTheCovered(s', pic, run, id, now, c, m);
    }
  }

  // Why no task may be in flight

  /** A task that carries any earlier form of its parent, and any earlier finding of what exists,
      adds a run for exactly the minutes that form wants and that it did not find. */
  lemma StaleWorkIsExact(t: Tables, p: Parent, k: Task, existing: set<nat>, lim: Limits, m: nat)
    requires Minted(t, k, WantedMinutes(p, k, lim))
    ensures HasRun(Expand(t, p, k, existing, lim), p.id, m) <==>
      HasRun(t, p.id, m) || (m in WantedMinutes(p, k, lim) && m !in existing)
  {
    hide WantedMinutes, AddRuns;
    var minutes := WantedMinutes(p, k, lim) - existing;
    var t' := AddRuns(t, p, k, minutes);
    AddedRuns(t, p, k, minutes);
    hide Minted;
    if m in minutes { assert IsRun(t', NewSlot(p, k, m), p.id); }
    if HasRun(t, p.id, m) {
      var a :| IsRun(t, a, p.id) && a.minute == m;
      assert IsRun(t', a, p.id);
    }
    if HasRun(t', p.id, m) {
      var a :| IsRun(t', a, p.id) && a.minute == m;
      assert IsRun(t, a, p.id) || m in minutes;
    }
  }

  /** A task still in flight when its parent is paused, updated or deleted brings runs back, at
      exactly the minutes it wants and did not find when it looked, before the request or after. */
  lemma InFlightRevives(
      s: System, pic: Picture, e: Event, p: Parent, k: Task, existing: set<nat>, now: nat, c: Config, m: nat)
    requires Sound(s, pic, now, c) && Stops(s, e, p.id, c) && now < m
    requires Minted(Next(s, e, now, c).tables, k, WantedMinutes(p, k, c.lim))
    ensures HasRun(Expand(Next(s, e, now, c).tables, p, k, existing, c.lim), p.id, m) <==>
      m in WantedMinutes(p, k, c.lim) && m !in existing
  {
    var t := Next(s, e, now, c).tables;
    StopIsExact(s, pic, e, p.id, now, c);
    assert !HasRun(t, p.id, m);
    hide Sound, Stops, Next, Minted, HasRun, WantedMinutes, Expand;
    StaleWorkIsExact(t, p, k, existing, c.lim, m);
  }

  /** What such a task finds if it looks after the request: nothing, but after a delete, which
      leaves the records, all that was recorded. */
  lemma StoppedRecords(s: System, pic: Picture, e: Event, id: Uuid, now: nat, later: nat, c: Config, m: nat)
    requires Sound(s, pic, now, c) && Stops(s, e, id, c) && now <= later < m
    ensures m in FutureMinutes(Next(s, e, now, c).tables, id, later) <==> e.Delete? && RunKey(id, m) in s.tables.runs
  {
    hide Resting, FieldsValid, IsOneTime, Inv, FutureSlots;
    var t' := Next(s, e, now, c).tables;
    ParentFacts(s.tables, pic, now, c.window, id);
    GuardsAre(s.tables, pic, now, c.window, id);
    HasRecord(t', id, later, m);
    assert RunKey(id, m) in s.tables.runs ==> RunKey(id, m) in FutureKeys(s.tables, id, now);
  }

  // An example of each

  const Any := (text: string) => Cron(Expression([], [], [], [], []))

  const ExampleLimits := Limits(10, 100, (callback: string) => true, Any)

  const Every := Parent(1, "app", 0, "payload", "callback", "* * * * *", Scheduled)

  /** A task for the one minute after the epoch, which mints one id. */
  function OneMinute(now: nat, id: Uuid): Task {
    Task(0, 1, now, true, (t: nat) => Components(0, 0, 1, 1, 0), (m: nat) => id, (i: Uuid) => 0)
  }

  lemma OneMinuteWants(now: nat, id: Uuid)
    requires now <= 60
    ensures WantedMinutes(Every, OneMinute(now, id), ExampleLimits) == {60}
  {
    var k := OneMinute(now, id);
    assert Wanted(Every, k, 60, ExampleLimits);
    forall m | m in WantedMinutes(Every, k, ExampleLimits) ensures m == 60 { assert InWindow(k, m); }
  }

  /** A task handled at the second 60 gives the minute 60, which has a run, another. */
  lemma DuplicateExample()
    ensures var t := Expand(Put(Empty.tables, Every), Every, OneMinute(0, 2), {}, ExampleLimits);
      && HasRun(t, 1, 60) && !HasTwoRuns(t, 1)
      && HasTwoRuns(Expand(t, Every, OneMinute(60, 3), FutureMinutes(t, 1, 60), ExampleLimits), 1)
  {
    var t0, first, second := Put(Empty.tables, Every), OneMinute(0, 2), OneMinute(60, 3);
    OneMinuteWants(0, 2);
    OneMinuteWants(60, 3);
    var t := AddRuns(t0, Every, first, {60});
    assert {60} - {} == {60};
    FutureIsAhead(t, 1, 60);
    assert {60} - FutureMinutes(t, 1, 60) == {60};
    assert t0.schedules == map[] && t0.runs == map[];
    hide AddRuns, WantedMinutes, FutureMinutes, Put;
    TwoAdds(t0, Every, first, second, 60);
  }

  /** Adding a run at the same minute twice, with different ids. */
  lemma TwoAdds(t: Tables, p: Parent, first: Task, second: Task, m: nat)
    requires t.schedules == map[] && first.mint(m) != second.mint(m)
    ensures var t' := AddRuns(t, p, first, {m});
      HasRun(t', p.id, m) && !HasTwoRuns(t', p.id) && HasTwoRuns(AddRuns(t', p, second, {m}), p.id)
  {
    var t' := AddRuns(t, p, first, {m});
    var t'' := AddRuns(t', p, second, {m});
    AddedSlots(t, p, first, {m});
    AddedSlots(t', p, second, {m});
    hide AddRuns;
    var a, b := NewSlot(p, first, m), NewSlot(p, second, m);
    assert IsRun(t', a, p.id);
    assert IsRun(t'', a, p.id) && IsRun(t'', b, p.id) && a.id != b.id;
  }

  /** A task that looked before its parent was paused gives the paused parent a run to come. */
  lemma InFlightExample()
    ensures var t := Put(Empty.tables, Every);
      && PauseCode(t, 1) == Done
      && var paused := SetLife(t, Every, Paused, 0);
         !HasRun(paused, 1, 60) && HasRun(Expand(paused, Every, OneMinute(0, 2), {}, ExampleLimits), 1, 60)
  {
    var paused := SetLife(Put(Empty.tables, Every), Every, Paused, 0);
    OneMinuteWants(0, 2);
    assert paused.schedules == map[] && paused.runs == map[];
    assert Minted(paused, OneMinute(0, 2), {60});
    hide SetLife, WantedMinutes;
    StaleWorkIsExact(paused, Every, OneMinute(0, 2), {}, ExampleLimits, 60);
  }

  /** A short legal history: a schedule is created, its partition ticks, and its create task is handled. */
  lemma HistoryExample()
    ensures var c := Config(1, ExampleLimits);
      var run := [Timed(Create(Every), 0), Timed(Tick(0, 0, [Every]), 0), Timed(Work(0, OneMinute(0, 2)), 0)];
      Legal(Empty, run, 0, c) && HasRun(After(Empty, run, c).tables, 1, 60)
  {
    var c := Config(1, ExampleLimits);
    var k := OneMinute(0, 2);
    var run := [Timed(Create(Every), 0), Timed(Tick(0, 0, [Every]), 0), Timed(Work(0, k), 0)];
    assert run[1..] == [run[1], run[2]] && run[1..][1..] == [run[2]] && [run[2]][1..] == [];
    OneMinuteWants(0, 2);
    var t := Put(Empty.tables, Every);
    var s1, s2 := System(t, []), System(t, [Order(Every, 0)]);
    assert Every.(life := Scheduled) == Every;
    assert Next(Empty, run[0].event, 0, c) == s1;
    assert Reads(t, 0, [Every]);
    assert Orders([Every], 0) == [Order(Every, 0)] by { assert [Every][1..] == []; }
    assert Next(s1, run[1].event, 0, c) == s2;
    assert Allowed(s2, run[2].event, 0, c);
    FutureOfNone(t, 1, 0);
    var s3 := Next(s2, run[2].event, 0, c);
    StaleWorkIsExact(t, Every, k, {}, ExampleLimits, 60);
    assert s3.tables == Expand(t, Every, k, {}, ExampleLimits);
    hide Next, Allowed, WantedMinutes;
    assert Legal(s2, [run[2]], 0, c) && After(s2, [run[2]], c) == s3;
    assert Legal(s1, run[1..], 0, c) && After(s1, run[1..], c) == s3;
    assert Allowed(Empty, run[0].event, 0, c) by { FirstIsAllowed(c); }
  }

  lemma FirstIsAllowed(c: Config)
    ensures Allowed(Empty, Create(Every), 0, c)
  {
  }

  lemma FutureOfNone(t: Tables, p: Uuid, now: nat)
    requires t.runs == map[]
    ensures FutureMinutes(t, p, now) == {}
  {
  }
}
