/** The life of recurring schedules: requests, ticks and create tasks in any order, and
    what every such history keeps. */
module CronHistory {
  import opened CronSyntax
  import opened CronStore
  import opened CronRuns
  import opened CronExpansion

  /** A create task on the queue: the parent as the tick read it. */
  datatype Order = Order(parent: Parent, from: nat)

  datatype System = System(tables: Tables, queue: seq<Order>)

  datatype Event =
    | Create(parent: Parent)
    | CreateOnce(key: SlotKey, payload: string, callback: string)
    | Tick(partition: nat, from: nat, rows: seq<Parent>)
    | Work(i: nat, task: Task)
    | Pause(id: Uuid)
    | Resume(id: Uuid)
    | Update(id: Uuid, change: Change)
    | Delete(id: Uuid)

  datatype Config = Config(window: nat, lim: Limits)

  /** `CronRetriever.GetSchedules`: tasks for the rows that are scheduled. */
  function Orders(rows: seq<Parent>, from: nat): seq<Order> {
    if rows == [] then []
    else (if rows[0].life == Scheduled then [Order(rows[0], from)] else []) + Orders(rows[1..], from)
  }

  function NextTables(s: System, e: Event, now: nat, c: Config): Tables {
    var t := s.tables;
    match e
    case Create(p) => if CreateCode(p, c.lim) == Done then Put(t, p.(life := Scheduled)) else t
    case CreateOnce(k, payload, callback) => AddOneTime(t, k, payload, callback)
    case Tick(_, _, _) => t
    case Work(i, k) => if i < |s.queue|
      then Expand(t, s.queue[i].parent, k, FutureMinutes(t, s.queue[i].parent.id, now), c.lim) else t
    case Pause(id) => if PauseCode(t, id) == Done then SetLife(t, t.byId[id], Paused, now) else t
    case Resume(id) => if ResumeCode(t, id) == Done then SetLife(t, t.byId[id], Scheduled, now) else t
    case Update(id, change) => if UpdateCode(t, id, change, c.lim) == Done
      then Replace(t, Merge(t.byId[id], change), now) else t
    case Delete(id) => DeleteSchedule(t, id, now)
  }

  function NextQueue(s: System, e: Event): seq<Order> {
    match e
    case Tick(_, from, rows) => s.queue + Orders(rows, from)
    case Work(i, _) => if i < |s.queue| then s.queue[..i] + s.queue[i + 1..] else s.queue
    case _ => s.queue
  }

  function Next(s: System, e: Event, now: nat, c: Config): System {
    System(NextTables(s, e, now, c), NextQueue(s, e))
  }

  /** The rows read are those of the partition. */
  ghost predicate Reads(t: Tables, partition: nat, rows: seq<Parent>) {
    forall p :: p in rows <==> KeyOf(p) in t.byPartition && p.partition == partition && t.byPartition[KeyOf(p)] == p
  }

  predicate NoOrder(queue: seq<Order>, id: Uuid) { forall o | o in queue :: o.parent.id != id }

  /** New ids are new, ticks are on the minute, no task is handled at the very second of
      one of its window minutes, and none is in flight when its parent is paused, updated
      or deleted. */
  ghost predicate Allowed(s: System, e: Event, now: nat, c: Config) {
    match e
    case Create(p) => Unused(s.tables, p.id)
    case CreateOnce(k, _, _) => Unused(s.tables, k.id)
    case Tick(partition, from, rows) => Reads(s.tables, partition, rows) && from % 60 == 0
    case Work(i, k) => i < |s.queue| && k.from == s.queue[i].from && k.now == now && Prompt(k, c.window)
                       && Minted(s.tables, k, WantedMinutes(s.queue[i].parent, k, c.lim))
    case Resume(_) => true
    case Pause(id) => NoOrder(s.queue, id)
    case Update(id, _) => NoOrder(s.queue, id)
    case Delete(id) => NoOrder(s.queue, id)
  }

  /** The same history told of the picture. */
  ghost function NextPicture(s: System, pic: Picture, e: Event, now: nat, c: Config): Picture {
    var t := s.tables;
    match e
    case Create(p) => if CreateCode(p, c.lim) == Done then pic.(at := pic.at[p.id := {}]) else pic
    case Work(i, k) => if i < |s.queue| && s.queue[i].parent.id in pic.at
      then Expanded(pic, s.queue[i].parent, k, c.lim) else pic
    case Pause(id) => if PauseCode(t, id) == Done && id in pic.at then Cut(pic, id, now) else pic
    case Update(id, change) => if UpdateCode(t, id, change, c.lim) == Done && id in pic.at
      then Cut(pic, id, now) else pic
    case Delete(id) =>
      if IsOneTime(t, id) then (var k :| k in t.schedules && k.id == id; Without(pic, t, k))
      else if id in t.byId && id in pic.at then Cut(pic, id, now) else pic
    case _ => pic
  }

  // What every step keeps

  /** Tasks in flight are of parents as they are now. */
  ghost predicate Current(s: System) {
    forall o | o in s.queue ::
      o.parent.id in s.tables.byId && s.tables.byId[o.parent.id] == o.parent && o.parent.life == Scheduled
  }

  /** A paused or deleted schedule has no run to come, and none cancelled. */
  ghost predicate Resting(t: Tables, pic: Picture, now: nat) {
    && (forall p, m | p in pic.at && m in pic.at[p] :: p in t.byId && t.byId[p].life != Scheduled ==> m <= now)
    && (forall r | r in pic.off :: r.parent in t.byId && (t.byId[r.parent].life != Scheduled ==> r.minute <= now))
  }

  ghost predicate Sound(s: System, pic: Picture, now: nat, c: Config) {
    Inv(s.tables, pic, now, c.window) && Resting(s.tables, pic, now) && Current(s)
  }

  lemma {:induction false} OrdersAre(rows: seq<Parent>, from: nat)
    ensures forall o :: o in Orders(rows, from) <==> o.from == from && o.parent in rows && o.parent.life == Scheduled
  {
    if rows != [] { OrdersAre(rows[1..], from); }
  }

  lemma TickKeeps(s: System, pic: Picture, partition: nat, from: nat, rows: seq<Parent>, now: nat, c: Config)
    requires Sound(s, pic, now, c) && Reads(s.tables, partition, rows)
    ensures Sound(Next(s, Tick(partition, from, rows), now, c), pic, now, c)
  {
    OrdersAre(rows, from);
    hide Pictured, Recorded, RecordsSound, CronsSet, IdsUnique, Resting, Orders;
    forall p | p in rows ensures p.id in s.tables.byId && s.tables.byId[p.id] == p {
      assert KeyOf(p) in s.tables.byPartition;
    }
  }

  // The guards, on reachable states

  lemma NotOneTime(t: Tables, id: Uuid)
    requires IdsUnique(t) && id in t.byId
    ensures !IsOneTime(t, id)
  {
  }

  /** On reachable states the handlers' guards depend on the parent's status alone. */
  lemma GuardsAre(t: Tables, pic: Picture, now: nat, window: nat, id: Uuid)
    requires Inv(t, pic, now, window)
    ensures PauseCode(t, id) == Done <==> id in t.byId && t.byId[id].life == Scheduled
    ensures ResumeCode(t, id) == Done <==> id in t.byId && t.byId[id].life == Paused
    ensures PauseCode(t, id) == AlreadyPaused <==> id in t.byId && t.byId[id].life == Paused
    ensures PauseCode(t, id) == NotScheduled <==> id in t.byId && t.byId[id].life == Deleted
    ensures ResumeCode(t, id) == NotPaused <==> id in t.byId && t.byId[id].life != Paused
    ensures PauseCode(t, id) == NotFound <==> id !in t.byId && forall k | k in t.schedules :: k.id != id
    ensures PauseCode(t, id) == NotRecurring <==> id !in t.byId && exists k :: k in t.schedules && k.id == id
    ensures DeleteCode(t, id) == NotFound <==> PauseCode(t, id) == NotFound
    ensures id in t.byId ==> t.byId[id].id == id && t.byId[id].cron != "" && !IsOneTime(t, id)
  {
    if id in t.byId {
      hide Pictured, Recorded, RecordsSound;
      NotOneTime(t, id);
    }
  }

  // Pausing, updating and deleting

  /** A parent is rewritten and its future dropped. */
  lemma RewriteKeeps(t: Tables, pic: Picture, now: nat, window: nat, p: Parent, records: bool)
    requires Inv(t, pic, now, window) && p.id in t.byId && KeyOf(p) == KeyOf(t.byId[p.id]) && p.id in pic.at
    requires p.cron != "" && (t.byId[p.id].life == Deleted ==> p.life == Deleted)
    requires records || p.life == Deleted
    ensures Inv(Dropped(Put(t, p), p.id, now, records), Cut(pic, p.id, now), now, window)
  {
    hide Inv, Cut, Dropped;
    PutKeeps(t, pic, now, window, p);
    DropKeeps(Put(t, p), pic, now, window, p.id, records);
  }

  /** The handlers' writes are such rewrites. */
  lemma WritesAreRewrites(t: Tables, p: Parent, now: nat)
    ensures Replace(t, p, now) == Dropped(Put(t, p), p.id, now, true)
    ensures DeleteParent(t, p, now) == Dropped(Put(t, p.(life := Deleted)), p.id, now, false)
  {
  }

  lemma RestingRewrite(t: Tables, t': Tables, pic: Picture, now: nat, p: Parent)
    requires Resting(t, pic, now) && p.id in t.byId && p.id in pic.at && t'.byId == t.byId[p.id := p]
    ensures Resting(t', Cut(pic, p.id, now), now)
  {
  }

  lemma CurrentRewrite(s: System, t': Tables, p: Parent)
    requires Current(s) && NoOrder(s.queue, p.id) && t'.byId == s.tables.byId[p.id := p]
    ensures Current(System(t', s.queue))
  {
  }

  lemma RewriteStep(s: System, pic: Picture, now: nat, c: Config, p: Parent, records: bool)
    requires Sound(s, pic, now, c) && NoOrder(s.queue, p.id)
    requires p.id in s.tables.byId && p.id in pic.at && KeyOf(p) == KeyOf(s.tables.byId[p.id])
    requires p.cron != "" && (s.tables.byId[p.id].life == Deleted ==> p.life == Deleted)
    requires records || p.life == Deleted
    ensures Sound(System(Dropped(Put(s.tables, p), p.id, now, records), s.queue), Cut(pic, p.id, now), now, c)
  {
    hide Inv, Cut, Resting, Current, NoOrder;
    var t' := Dropped(Put(s.tables, p), p.id, now, records);
    RewriteKeeps(s.tables, pic, now, c.window, p, records);
    assert t'.byId == s.tables.byId[p.id := p];
    hide Dropped, Put;
    RestingRewrite(s.tables, t', pic, now, p);
    CurrentRewrite(s, t', p);
  }

  lemma ParentFacts(t: Tables, pic: Picture, now: nat, window: nat, id: Uuid)
    requires Inv(t, pic, now, window) && id in t.byId
    ensures id in pic.at && t.byId[id].id == id && t.byId[id].cron != ""
  {
    hide Recorded, RecordsSound, IdsUnique;
  }

  lemma PauseKeeps(s: System, pic: Picture, id: Uuid, now: nat, c: Config)
    requires Sound(s, pic, now, c) && Allowed(s, Pause(id), now, c)
    ensures Sound(Next(s, Pause(id), now, c), NextPicture(s, pic, Pause(id), now, c), now, c)
  {
    hide Inv, Cut, Resting, Current, NoOrder, IsOneTime, Replace, DeleteParent, Dropped;
    var t := s.tables;
    if PauseCode(t, id) == Done {
      ParentFacts(t, pic, now, c.window, id);
      var p := t.byId[id].(life := Paused);
      WritesAreRewrites(t, p, now);
      RewriteStep(s, pic, now, c, p, true);
    }
  }

  lemma UpdateKeeps(s: System, pic: Picture, id: Uuid, change: Change, now: nat, c: Config)
    requires Sound(s, pic, now, c) && Allowed(s, Update(id, change), now, c)
    ensures Sound(Next(s, Update(id, change), now, c), NextPicture(s, pic, Update(id, change), now, c), now, c)
  {
    hide Inv, Cut, Resting, Current, NoOrder, IsOneTime, Replace, DeleteParent, Dropped, FieldsValid;
    var t := s.tables;
    if UpdateCode(t, id, change, c.lim) == Done {
      ParentFacts(t, pic, now, c.window, id);
      var p := Merge(t.byId[id], change);
      WritesAreRewrites(t, p, now);
      RewriteStep(s, pic, now, c, p, true);
    }
  }

  lemma CancelRests(s: System, pic: Picture, now: nat, c: Config, k: SlotKey)
    requires Sound(s, pic, now, c) && k in s.tables.schedules
    ensures Resting(DeleteOneTime(s.tables, k.id), Without(pic, s.tables, k), now)
    ensures Current(System(DeleteOneTime(s.tables, k.id), s.queue))
  {
    hide Recorded, RecordsSound, Mirror, CronsSet, IdsUnique;
    var t := s.tables;
    assert t.schedules[k].parent.Some? ==> IsRun(t, k, t.schedules[k].parent.value);
  }

  lemma DeleteKeeps(s: System, pic: Picture, id: Uuid, now: nat, c: Config)
    requires Sound(s, pic, now, c) && Allowed(s, Delete(id), now, c)
    ensures Sound(Next(s, Delete(id), now, c), NextPicture(s, pic, Delete(id), now, c), now, c)
  {
    hide Inv, Cut, Resting, Current, NoOrder, Replace, DeleteParent, Dropped, Without, DeleteOneTime;
    var t := s.tables;
    if IsOneTime(t, id) {
      var k :| k in t.schedules && k.id == id && NextPicture(s, pic, Delete(id), now, c) == Without(pic, t, k);
      CancelKeeps(t, pic, now, c.window, k);
      CancelRests(s, pic, now, c, k);
    } else if id in t.byId {
      ParentFacts(t, pic, now, c.window, id);
      GuardsAre(t, pic, now, c.window, id);
      var p := t.byId[id].(life := Deleted);
      WritesAreRewrites(t, t.byId[id], now);
      RewriteStep(s, pic, now, c, p, false);
    }
  }

  // The other steps

  lemma CreateStep(s: System, pic: Picture, p: Parent, now: nat, c: Config)
    requires Sound(s, pic, now, c) && Allowed(s, Create(p), now, c)
    ensures Sound(Next(s, Create(p), now, c), NextPicture(s, pic, Create(p), now, c), now, c)
  {
    hide Inv, FieldsValid;
    var t, q := s.tables, p.(life := Scheduled);
    if CreateCode(p, c.lim) == Done {
      assert pic.at.Keys == t.byId.Keys by { PicturedKeys(t, pic, now, c.window); }
      CreateKeeps(t, pic, now, c.window, q);
      assert Put(t, q).byId == t.byId[p.id := q];
    }
  }

  lemma PicturedKeys(t: Tables, pic: Picture, now: nat, window: nat)
    requires Inv(t, pic, now, window)
    ensures pic.at.Keys == t.byId.Keys
  {
  }

  lemma ResumeKeeps(s: System, pic: Picture, id: Uuid, now: nat, c: Config)
    requires Sound(s, pic, now, c)
    ensures Sound(Next(s, Resume(id), now, c), pic, now, c)
  {
    hide Inv, IsOneTime;
    var t := s.tables;
    if ResumeCode(t, id) == Done {
      ParentFacts(t, pic, now, c.window, id);
      var p := t.byId[id].(life := Scheduled);
      PutKeeps(t, pic, now, c.window, p);
      assert Put(t, p).byId == t.byId[id := p];
    }
  }

  lemma WorkKeeps(s: System, pic: Picture, i: nat, k: Task, now: nat, c: Config)
    requires Sound(s, pic, now, c) && Allowed(s, Work(i, k), now, c)
    ensures Sound(Next(s, Work(i, k), now, c), NextPicture(s, pic, Work(i, k), now, c), now, c)
  {
    hide Inv, WantedMinutes, FutureMinutes, Minted, AddRuns;
    var t, p := s.tables, s.queue[i].parent;
    assert p.id in t.byId && t.byId[p.id] == p && p.life == Scheduled;
    ParentFacts(t, pic, now, c.window, p.id);
    ExpandKeeps(t, pic, c.window, p, k, c.lim);
    AddRunsParents(t, p, k, WantedMinutes(p, k, c.lim) - FutureMinutes(t, p.id, k.now));
  }

  lemma AddRunsParents(t: Tables, p: Parent, k: Task, minutes: set<nat>)
    ensures AddRuns(t, p, k, minutes).byId == t.byId && AddRuns(t, p, k, minutes).byPartition == t.byPartition
  {
  }

  lemma StepKeeps(s: System, pic: Picture, e: Event, now: nat, c: Config)
    requires Sound(s, pic, now, c) && Allowed(s, e, now, c)
    ensures Sound(Next(s, e, now, c), NextPicture(s, pic, e, now, c), now, c)
  {
    hide Inv, Resting, Current, NextTables, NextQueue, Unused;
    match e
    case Create(p) => CreateStep(s, pic, p, now, c);
    case CreateOnce(k, payload, callback) => OnceKeeps(s, pic, e, now, c);
    case Tick(partition, from, rows) => TickKeeps(s, pic, partition, from, rows, now, c);
    case Work(i, k) => WorkKeeps(s, pic, i, k, now, c);
    case Pause(id) => PauseKeeps(s, pic, id, now, c);
    case Resume(id) => ResumeKeeps(s, pic, id, now, c);
    case Update(id, change) => UpdateKeeps(s, pic, id, change, now, c);
    case Delete(id) => DeleteKeeps(s, pic, id, now, c);
  }

  lemma OnceKeeps(s: System, pic: Picture, e: Event, now: nat, c: Config)
    requires Sound(s, pic, now, c) && e.CreateOnce? && Allowed(s, e, now, c)
    ensures Sound(Next(s, e, now, c), pic, now, c)
  {
    hide Inv, Unused;
    AddOneTimeKeeps(s.tables, pic, now, c.window, e.key, e.payload, e.callback);
  }

  // Runs

  datatype Timed = Timed(event: Event, now: nat)

  ghost predicate Legal(s: System, run: seq<Timed>, now: nat, c: Config)
    decreases |run|
  {
    run == [] ||
    (now <= run[0].now && Allowed(s, run[0].event, run[0].now, c) &&
      Legal(Next(s, run[0].event, run[0].now, c), run[1..], run[0].now, c))
  }

  ghost function After(s: System, run: seq<Timed>, c: Config): System
    decreases |run|
  {
    if run == [] then s else After(Next(s, run[0].event, run[0].now, c), run[1..], c)
  }

  ghost function Drawn(s: System, pic: Picture, run: seq<Timed>, c: Config): Picture
    decreases |run|
  {
    if run == [] then pic
    else Drawn(Next(s, run[0].event, run[0].now, c), NextPicture(s, pic, run[0].event, run[0].now, c), run[1..], c)
  }

  function Finish(run: seq<Timed>, now: nat): nat { if run == [] then now else run[|run| - 1].now }

  lemma RestingLater(s: System, pic: Picture, now: nat, later: nat, c: Config)
    requires Sound(s, pic, now, c) && now <= later
    ensures Sound(s, pic, later, c)
  {
    hide Inv, Current;
    TimePasses(s.tables, pic, now, later, c.window);
  }

  lemma {:induction false} RunKeeps(s: System, pic: Picture, run: seq<Timed>, now: nat, c: Config)
    requires Sound(s, pic, now, c) && Legal(s, run, now, c)
    ensures Sound(After(s, run, c), Drawn(s, pic, run, c), Finish(run, now), c)
    decreases |run|
  {
    hide Sound, Allowed, Next, NextPicture;
    if run != [] {
      RestingLater(s, pic, now, run[0].now, c);
      StepKeeps(s, pic, run[0].event, run[0].now, c);
      RunKeeps(Next(s, run[0].event, run[0].now, c), NextPicture(s, pic, run[0].event, run[0].now, c), run[1..],
        run[0].now, c);
    }
  }

  const Empty := System(Tables(map[], map[], map[], map[]), [])

  const Blank := Picture(map[], {})

  lemma EmptyIsKept(c: Config)
    ensures Sound(Empty, Blank, 0, c)
  {
  }
}
