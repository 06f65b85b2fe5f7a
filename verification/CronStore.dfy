/** Recurring schedules and their one-time runs: the four tables, keyed as the
    database keys them, and what each operation writes. Times are Unix seconds. */
module CronStore {
  import opened CronSyntax

  type Uuid = nat

  datatype Option<T> = None | Some(value: T)

  datatype Life = Scheduled | Paused | Deleted

  /** A recurring schedule. */
  datatype Parent = Parent(id: Uuid, app: string, partition: nat, payload: string, callback: string, cron: string,
    life: Life)

  datatype PartitionKey = PartitionKey(partition: nat, id: Uuid, app: string)

  /** The key of a row of `schedules`. */
  datatype SlotKey = SlotKey(app: string, partition: nat, minute: nat, id: Uuid)

  datatype Slot = Slot(parent: Option<Uuid>, payload: string, callback: string)

  /** The key of a row of `recurring_schedule_runs`. */
  datatype RunKey = RunKey(parent: Uuid, minute: nat)

  datatype Run = Run(id: Uuid, app: string, partition: nat)

  datatype Tables = Tables(
    byId: map<Uuid, Parent>,
    byPartition: map<PartitionKey, Parent>,
    schedules: map<SlotKey, Slot>,
    runs: map<RunKey, Run>)

  function KeyOf(p: Parent): PartitionKey { PartitionKey(p.partition, p.id, p.app) }

  function SlotOf(k: RunKey, r: Run): SlotKey { SlotKey(r.app, r.partition, k.minute, r.id) }

  /** Write a parent to both of its tables. */
  function Put(t: Tables, p: Parent): Tables {
    t.(byId := t.byId[p.id := p], byPartition := t.byPartition[KeyOf(p) := p])
  }

  function FutureKeys(t: Tables, parent: Uuid, now: nat): set<RunKey> {
    set k | k in t.runs && k.parent == parent && k.minute > now
  }

  function FutureSlots(t: Tables, parent: Uuid, now: nat): set<SlotKey> {
    set k | k in FutureKeys(t, parent, now) :: SlotOf(k, t.runs[k])
  }

  /** `deleteRecurringSchedule`: the status, and the future rows of `schedules`. */
  function DeleteParent(t: Tables, p: Parent, now: nat): Tables {
    Put(t, p.(life := Deleted)).(schedules := t.schedules - FutureSlots(t, p.id, now))
  }

  /** A write of the parent that also drops its future runs from both run tables. */
  function Replace(t: Tables, p: Parent, now: nat): Tables {
    Put(t, p).(schedules := t.schedules - FutureSlots(t, p.id, now), runs := t.runs - FutureKeys(t, p.id, now))
  }

  /** `UpdateRecurringScheduleStatus`. */
  function SetLife(t: Tables, p: Parent, life: Life, now: nat): Tables {
    if life == Paused then Replace(t, p.(life := Paused), now) else Put(t, p.(life := life))
  }

  /** `createOneTimeSchedule`. */
  function AddOneTime(t: Tables, k: SlotKey, payload: string, callback: string): Tables {
    t.(schedules := t.schedules[k := Slot(None, payload, callback)])
  }

  /** `deleteOneTimeSchedule`: ids are unique, so this is at most one row. */
  function DeleteOneTime(t: Tables, id: Uuid): Tables {
    t.(schedules := t.schedules - set k | k in t.schedules && k.id == id)
  }

  // Request handlers: guards, then one of the writes above

  datatype Code = Done | NotFound | NotRecurring | AlreadyPaused | NotScheduled | NotPaused | Gone | Immutable | Invalid

  /** The lookup of a schedule by id finds one-time schedules first. */
  predicate IsOneTime(t: Tables, id: Uuid) { exists k | k in t.schedules :: k.id == id }

  function PauseCode(t: Tables, id: Uuid): Code {
    if IsOneTime(t, id) then NotRecurring
    else if id !in t.byId then NotFound
    else if t.byId[id].cron == "" then NotRecurring
    else if t.byId[id].life == Paused then AlreadyPaused
    else if t.byId[id].life != Scheduled then NotScheduled
    else Done
  }

  function DeleteCode(t: Tables, id: Uuid): Code {
    if IsOneTime(t, id) || id in t.byId then Done else NotFound
  }

  /** `DeleteSchedule`: one-time schedules lose their row, recurring ones are marked. */
  function DeleteSchedule(t: Tables, id: Uuid, now: nat): Tables {
    if IsOneTime(t, id) then DeleteOneTime(t, id)
    else if id in t.byId && t.byId[id].cron != "" then DeleteParent(t, t.byId[id], now)
    else t
  }

  function ResumeCode(t: Tables, id: Uuid): Code {
    if IsOneTime(t, id) then NotRecurring
    else if id !in t.byId then NotFound
    else if t.byId[id].cron == "" then NotRecurring
    else if t.byId[id].life != Paused then NotPaused
    else Done
  }

  /** What validation goes by: payload size, how far ahead a run may lie, which callbacks
      are well formed, and the cron parser. */
  datatype Limits = Limits(maxPayload: nat, maxAhead: nat, callbackOk: string -> bool, parse: string -> Parsed)

  /** The checks shared by all schedules. */
  predicate FieldsValid(app: string, payload: string, callback: string, lim: Limits) {
    app != "" && payload != "" && |payload| <= lim.maxPayload && lim.callbackOk(callback)
  }

  /** `ValidateSchedule` of a recurring schedule. */
  predicate ParentValid(p: Parent, lim: Limits) {
    FieldsValid(p.app, p.payload, p.callback, lim) && p.cron != "" && lim.parse(p.cron).Cron?
  }

  /** `ValidateSchedule` of a one-time clone at a minute. */
  predicate CloneValid(p: Parent, minute: nat, now: nat, lim: Limits) {
    FieldsValid(p.app, p.payload, p.callback, lim) && minute >= now && minute - now <= lim.maxAhead
  }

  function CreateCode(p: Parent, lim: Limits): Code { if ParentValid(p, lim) then Done else Invalid }

  /** An update request: a field left empty keeps the stored one. */
  datatype Change = Change(app: string, id: Option<Uuid>, cron: string, payload: string, callback: Option<string>)

  function Merge(p: Parent, c: Change): Parent {
    p.(cron := if c.cron != "" then c.cron else p.cron,
       payload := if c.payload != "" then c.payload else p.payload,
       callback := if c.callback.Some? then c.callback.value else p.callback)
  }

  predicate KeepsIdentity(p: Parent, c: Change) {
    (c.app == "" || c.app == p.app) && (c.id.None? || c.id.value == p.id)
  }

  function UpdateCode(t: Tables, id: Uuid, c: Change, lim: Limits): Code {
    if IsOneTime(t, id) then NotRecurring
    else if id !in t.byId then NotFound
    else if t.byId[id].cron == "" then NotRecurring
    else if t.byId[id].life == Deleted then Gone
    else if !KeepsIdentity(t.byId[id], c) then Immutable
    else if !ParentValid(Merge(t.byId[id], c), lim) then Invalid
    else Done
  }

  // Expansion of a cron expression into runs

  /** What a create task reads besides the tables: its tick, its window in minutes, the
      clock, the calendar, whether the app is active, the ids it will mint (one for each
      minute) and where ids are placed. */
  datatype Task = Task(from: nat, window: nat, now: nat, active: bool, calendar: nat -> Components, mint: nat -> Uuid,
    place: Uuid -> nat)

  predicate InWindow(k: Task, minute: nat) {
    k.from < minute <= k.from + 60 * k.window && (minute - k.from) % 60 == 0
  }

  /** The minutes of the window at which the parent should run. */
  predicate Wanted(p: Parent, k: Task, minute: nat, lim: Limits) {
    && InWindow(k, minute)
    && lim.parse(p.cron).Cron? && Matches(lim.parse(p.cron).expression, k.calendar(minute))
    && CloneValid(p, minute, k.now, lim)
  }

  function WantedMinutes(p: Parent, k: Task, lim: Limits): set<nat> {
    if !k.active || p.cron == "" then {}
    else set m: nat | m <= k.from + 60 * k.window && Wanted(p, k, m, lim)
  }

  function RunAt(p: Parent, k: Task, minute: nat): Run {
    Run(k.mint(minute), p.app, k.place(k.mint(minute)))
  }

  /** `CreateRun` for each of a set of minutes. */
  function AddRuns(t: Tables, p: Parent, k: Task, minutes: set<nat>): Tables {
    var slots := set m | m in minutes :: SlotOf(RunKey(p.id, m), RunAt(p, k, m));
    var keys := set m | m in minutes :: RunKey(p.id, m);
    t.(schedules := t.schedules + map s | s in slots :: Slot(Some(p.id), p.payload, p.callback),
       runs := t.runs + map r | r in keys :: RunAt(p, k, r.minute))
  }

  /** `createSchedules` for one task, given the minutes found to exist. */
  function Expand(t: Tables, p: Parent, k: Task, existing: set<nat>, lim: Limits): Tables {
    AddRuns(t, p, k, WantedMinutes(p, k, lim) - existing)
  }

  function FutureMinutes(t: Tables, parent: Uuid, now: nat): set<nat> {
    set k | k in FutureKeys(t, parent, now) :: k.minute
  }
}
