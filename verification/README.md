# goscheduler in Dafny

goscheduler is a clustered scheduler. Pollers, one for each (app, partition), are placed on
nodes by a consistent-hash ring; they read minute buckets from Cassandra, fire callbacks,
expand cron schedules into one-time runs, and record statuses in batches. This project
models that logic and proves what it promises. The database, the ring and the clock are
abstract state; `now` is an argument.

| Files | What they cover |
|---|---|
| Ring, Placement, PlacementSafety, PlacementConvergence, PlacementDepartures, PlacementLimits, PlacementRows, Supervisor | The placement protocol. A transition system with boot snapshots, per-entity boot steps, crashes, graceful stops, per-survivor offloads and app switches; its safety and convergence over all runs; where it fails, and exactly when; and the supervisors' methods, which change the maps and the table in place and are proved to take those transitions. |
| CronSyntax, StepArithmetic, CronMeaning, CronAccepts, CronParser | Cron strings: which of them parse; what each parse function returns, with int64 wrap-around of step counters; the denotation, and exactly when lists and denotation agree; the parser's loops. |
| CronStore, CronRuns, CronExpansion, CronHistory, CronRequests, CronGuarantees | The four cron tables, the requests, the tick and the create task. They are proved to refine a picture that says at which minutes each schedule has a run. |
| RunLookup, CronDao | The run lookup by pages, and the class that holds the tables, with the DAO's batches, the handlers and the backward window walk. |
| Paging, Listing | Resumable filtered reads, their windows and their client. |
| Schedules, Enrichment, Reconcile, StatusPipeline | Bulk status enrichment against one-by-one enrichment, crash reconciliation, and the path of a status from reply to table. |
| Aggregate | The aggregation worker. |
| AppCache | The cache of app records and the broadcasts that invalidate it. |
| Text, PollerId, EntityHistory | Strings, poller ids, and the entity history column. |

Where methods change state, each `ensures` equates the new state with a function of the old
one, and the lemmas are about that function.

## Where the code falls short

Each is a result about the code as it is: an exact condition for all inputs, beside a concrete
input or run where that helps.

- A node that leaves in the middle of its own boot can strand an entity on a node that does not
  own it (`PlacementLimits.CrashWhileBootingStrands`). `PlacementDepartures.DepartureSettlesIff`
  says exactly which departures, at any moment, the others' work settles.
- Switching an app is right, and activating it safe, exactly when its partitions run only on their
  owners (`PlacementLimits.DeactivateStopsAllIff`, `ActivatePlacesAllIff`, `ActivateIsSafeIff`).
  After such a stranding it is not (`SwitchingWhileStrandedIsUnsafe`).
- Registering an app again overwrites the rows of entities that are running. That is safe exactly
  when none runs, or the registering node sees the app as active (in its cache, if it is there)
  and they run on their owners (`PlacementLimits.RegisterAgainIsSafeIff`). It also overwrites the
  flag without a broadcast; caches stay coherent exactly if each copy holds the new flag or has a
  broadcast still to come (`AppCache.RegisterAgainIsCoherentIff`).
- Reading and caching an app record in two steps leaves a stale flag for good exactly when the flag
  was changed in between and no broadcast of it is still to come (`AppCache.LateKeepIsStaleIff`). A
  sender that departs leaves one exactly when every broadcast still to remove it was its own
  (`AppCache.LostBroadcastIsStaleIff`). No other step breaks coherence (`KeepsCoherentIff`).
- A day step above 30 matches every day, a step whose start overflows int64 wraps, and a step with a
  negative increment counts down and around the int64 range. `CronMeaning.CronMeaning` says exactly
  when matching agrees with the denotation, `CollapseIff` when a field becomes "any", and
  `InRangeIff` when a field keeps values that no calendar has.
- A create task gives a minute a second run exactly when it wants one that has a run and that its
  lookup did not find (`CronExpansion.DuplicatesIff`). Looked up and handled at once, that is at the
  very second of a wanted minute that has a run (`DuplicatesAtOnceIff`); with two workers on tasks
  of one parent it is every new minute that both want (`OverlappingWorkersIff`). The second run takes
  over the record of the first, which a pause then misses (`StaysRecordedIff`).
- `createSchedules` does not read its parent again: a task in flight when the parent is paused,
  updated or deleted brings runs back, at exactly the minutes it wants and its lookup did not find
  (`CronGuarantees.InFlightRevives`). A lookup after the request finds nothing, but after a delete
  all that was recorded (`StoppedRecords`).
- A limited `getFutureRuns` picks the latest runs, not the soonest; the two agree exactly when the
  limit is 0 or is not reached (`RunLookup.SoonestIff`). The create task's limit is never reached
  (`LookupIsComplete`).
- A listing reads a window again exactly after a full reply without a token
  (`Listing.FetchIsCompleteIff`). Every call is complete exactly if the driver hands out a token
  after every full page (`EveryCallCompleteIff`). A client that begins a window whose first page
  meets the demand and comes without a token gets that page in every later reply
  (`RepeatsForEver`).

## Premises

- Placement: one agreed ring, forwards delivered, and each entity's boot, offload or stop taken
  as one step. `Loose` runs let nodes crash and flags be stale, and activate an app only while
  none of its partitions runs off its owner, and register one again only while that overwrites no
  row it should not, which is when each is safe. `Strict` runs let a node
  depart only once its own boot and offload work is done, and switch apps only while no node has
  work; `PlacementDepartures` and `PlacementLimits` say what happens otherwise.
- Cron: in a history each request, tick and create task is one step, lookup and creates together, so
  that one worker at a time handles the tasks of a parent. New ids are new; ticks are on the minute;
  no task is handled at the very second of one of its window minutes; and none is in flight when its
  parent is paused, updated or deleted. `Allowed` states these. `DuplicatesIff`,
  `OverlappingWorkersIff` and `InFlightRevives` say what happens otherwise, for a lookup made at any
  time by any worker.
- Paging: a page has at most the requested rows and a token unless the result is exhausted;
  empty pages with a token come at most finitely often in a row; reads do not fail.
- Enrichment: the ids of a batch are distinct and share one app and partition; one clock reading.

## Model

| member | source | states |
|---|---|---|
| `Ring.OwnerAfterJoin` | cluster/supervisor.go:537-575 | A joining node takes over only entities it ranks best for. |
| `Ring.OwnerAfterLeave` | cluster/supervisor.go:610-641 | A leaving node moves only the entities it owned. |
| `Placement.StopRequest` | cluster/supervisor.go:337-382 | A stop request ends where the entity is hosted, or else on its ring owner, after at most one forward. |
| `Placement.StartRequest` | cluster/supervisor.go:296-332 | A start request ends on the ring owner, after one forward unless it began there. |
| `PlacementSafety.BootOneKeepsInv` | cluster/supervisor.go:537-603 | Booting one entity from a stale snapshot keeps the invariant: the snapshot still names any runner the owner must stop. |
| `PlacementSafety.OffloadOneKeepsInv` | cluster/supervisor.go:610-641 | Taking over one entity of a removed node is safe although offloads of several survivors and boots interleave. |
| `PlacementSafety.ShutdownKeepsInv` | cluster/supervisor.go:524-531 | A graceful stop keeps the invariant. |
| `PlacementSafety.RegisterKeepsInv` | service/app_registration.go:71-119 | Registering an app and booting its entities keeps the invariant. |
| `PlacementSafety.RegisterAgainKeepsInv` | service/app_registration.go:71-119 | So does registering it again, with any number of partitions and any flag, while that overwrites no row it should not. |
| `PlacementSafety.RunKeepsInv` | cluster/supervisor.go:515-641 | The invariant holds in every state of every loose run. |
| `PlacementSafety.EveryRunIsSafe` | cluster/supervisor.go:263-291 | Over every run from an empty cluster, with joins, boots, crashes, stops, offloads, switches and first or repeated registrations, an entity is in the map of at most one live node, and its row says that node runs it. |
| `PlacementConvergence.StopAppEffect` | cluster/supervisor.go:703-724 | Deactivation removes a partition from a node exactly when that node owns it. |
| `PlacementConvergence.StartAppEffect` | cluster/supervisor.go:729-751 | Activation adds exactly the partitions to their owners. |
| `PlacementConvergence.StrictRunKeeps` | cluster/supervisor.go:515-751 | Every strict run keeps safety, and keeps some node responsible for each entity of an active app. |
| `PlacementConvergence.EveryStrictRunConverges` | cluster/supervisor.go:515-641 | Once no node has work, each entity of an active app runs on its owner alone, and entities of inactive apps nowhere. |
| `PlacementConvergence.SettledIsUnique` | cluster/supervisor.go:610-641 | The final placement does not depend on the order of boots and offloads. |
| `PlacementRows.EveryStrictRunKeepsRows` | dao/cluster_dao_impl.go:370-387 | Over every strict run from an empty cluster whose inactive apps are stopped, rows of inactive apps read STOPPED throughout, and once no node has work a row reads RUNNING if and only if its app is active, and names the owner then. |
| `PlacementRows.StopAppWrites` | cluster/supervisor.go:703-724 | Deactivation leaves the row of each partition that ran on its owner as stopped there, and every other row as it was. |
| `PlacementRows.ShutdownWrites` | cluster/supervisor.go:524-531 | After a graceful stop the rows of all that the node held read STOPPED there, and every other row is as it was. |
| `PlacementRows.StopWrites` | cluster/supervisor.go:280-291 | A stop writes STOPPED at its node, for an entity that is there. |
| `PlacementLimits.DeactivateStopsAllIff` | cluster/supervisor.go:703-724 | Deactivation leaves no partition running if and only if each ran only on its owner. |
| `PlacementLimits.ActivatePlacesAllIff` | cluster/supervisor.go:729-751 | Activation leaves each partition on its owner alone if and only if no other node ran it. |
| `PlacementLimits.ActivateIsSafeIff` | cluster/supervisor.go:729-751 | Activation keeps safety if and only if no partition of the app runs off its owner. |
| `PlacementLimits.RegisterAgainIsSafeIff` | service/app_registration.go:71-119 | Registering an app a second time keeps safety if and only if none of its partitions runs, or the node sees the app as active, from its cache if it is there, and none runs off its owner. |
| `PlacementLimits.RegisterAgainExample` | service/app_registration.go:71-119 | One node and one running partition, registered again by a node that sees the app as inactive, is not safe. |
| `PlacementDepartures.LeavesGoodIff` | cluster/supervisor.go:610-641 | After a crash or graceful stop some node is responsible for every entity of an active app if and only if the departure was harmless: each entity of the leaver has a row that names it, or runs on its next owner, or is part of that owner's work. |
| `PlacementDepartures.WorkKeepsStranded` | cluster/supervisor.go:537-641 | Boots and offloads under way never take up an entity that nobody is responsible for. |
| `PlacementDepartures.DepartureSettlesIff` | cluster/supervisor.go:524-641 | A node leaves at any moment and the others finish their work, in any interleaving: the cluster is settled if and only if the departure was harmless. |
| `PlacementDepartures.FinishedIsHarmless` | cluster/supervisor.go:524-531 | A node without work of its own leaves harmlessly. |
| `PlacementLimits.CrashWhileBootingStrands` | cluster/supervisor.go:537-641 | A concrete run with a departure that is not harmless: all work is done and an entity is on the wrong node. |
| `PlacementLimits.SwitchingWhileStrandedIsUnsafe` | cluster/supervisor.go:703-751 | From there a deactivation and an activation make two nodes run one entity. |
| `Supervisor.Supervisors.StartEntity` | cluster/supervisor.go:263-275 | The map gains the entity and its row reads RUNNING here. |
| `Supervisor.Supervisors.StopEntity` | cluster/supervisor.go:280-291 | Where the entity is, the map loses it and its row reads STOPPED here; elsewhere nothing changes; and it says which. |
| `Supervisor.Supervisors.StartEntities` | cluster/supervisor.go:296-332 | Mutually recursive forwarding starts each id on its owner and reports its forwards, at most one for each id. |
| `Supervisor.Supervisors.StopEntities` | cluster/supervisor.go:337-382 | Mutually recursive forwarding stops each id here or on its owner and reports its forwards, at most one for each id. |
| `Supervisor.Supervisors.BootEntity` | cluster/supervisor.go:537-603 | The old runner is stopped before the owner starts the entity. |
| `Supervisor.Supervisors.ReadRows` | dao/cluster_dao_impl.go:203-226 | The boot snapshot is the whole table. |
| `Supervisor.Supervisors.BootNext` | cluster/supervisor.go:515-521 | One round of the boot loop is the transition of that name, and keeps safety and convergence. |
| `Supervisor.Supervisors.Boot` | cluster/supervisor.go:515-521 | A whole boot over a snapshot read once keeps both invariants and leaves the node no boot work. |
| `Supervisor.Supervisors.JoinAndBoot` | cluster/supervisor.go:515-521 | A join and its boot settle the cluster for the new ring. |
| `Supervisor.Supervisors.StopNode` | cluster/supervisor.go:524-531 | The map of the node is empty, the row of each entity it held reads STOPPED here, and every other row is as it was. |
| `Supervisor.Supervisors.ReadRemoved` | dao/cluster_dao_impl.go:178-198 | An offload starts from the rows that name the removed node. |
| `Supervisor.Supervisors.OffloadNext` | cluster/supervisor.go:610-641 | One round of an offload is the transition of that name. |
| `Supervisor.Supervisors.Offload` | cluster/supervisor.go:610-641 | A survivor's offload keeps both invariants and discharges its duty. |
| `Supervisor.Supervisors.Leave` | cluster/supervisor.go:659-671 | A removal event leaves every other member with an offload to do. |
| `Supervisor.Supervisors.LeaveAndOffload` | cluster/supervisor.go:524-531 | A crash or stop followed by every survivor's offload, in any order, settles the cluster for the new ring. |
| `Supervisor.Supervisors.DeactivateApp` | cluster/supervisor.go:703-724 | In a settled cluster no partition of the app runs afterwards, their rows read STOPPED, and other rows are as they were. |
| `Supervisor.Supervisors.ActivateApp` | cluster/supervisor.go:729-751 | In a settled cluster each partition runs on its owner alone afterwards. |
| `Supervisor.Supervisors.Switch` | service/app_registration.go:137-199 | The guards on the cached record, or else the stored one; when they pass the flag is written and the partitions of that record are switched; with a record that agrees with the table an idle cluster is settled afterwards. |
| `Supervisor.Supervisors.RegisterApp` | service/app_registration.go:71-119 | Inserting and booting the entities one by one, by the flag the node sees, is the first or the repeated registration step; for a new app it keeps both invariants. |
| `StepArithmetic.StepMembers` | cron/cron.go:30-38 | Counting up from a multiple, the list holds exactly the multiples below the end. |
| `StepArithmetic.WrapComesUp` | cron/cron.go:30-38 | Counting down from a multiple at 0 or below, the counter reaches a positive value if and only if the increment is that close to the least int64. |
| `StepArithmetic.QuarterSteps` | cron/cron.go:30-38 | Counting down from 0 by 2^62 ends after three values. |
| `StepArithmetic.WrapHasNegative` | cron/cron.go:30-38 | A list that counts down always holds a negative value. |
| `StepArithmetic.StartSign` | cron/cron.go:63-70 | The sign of the rounded start, overflow included, in terms of the numbers as written. |
| `CronSyntax.NeverEnds` | cron/cron.go:30-38 | With the least int64 as increment the counter goes back and forth for ever. |
| `CronMeaning.PartsMeaning` | cron/cron.go:148-172 | A comma list is the union of names, closed intervals and numbers, all in range, never empty. |
| `CronMeaning.SlashRejects` | cron/cron.go:91-114 | A slash inside a comma list is an error. |
| `CronMeaning.FieldMeaning` | cron/cron.go:130-418 | A field that parses means what it denotes if and only if its step counts up, does not overflow and, for days, is at most 30; or is one that matches and denotes nothing. |
| `CronMeaning.CollapseIff` | cron/cron.go:245-260 | A field other than `*` becomes "any" if and only if it is a day step above 30, or one that counts down and reaches no positive value. |
| `CronMeaning.CollapseExample` | cron/cron.go:245-260 | The day field `*/31` does. |
| `CronMeaning.InRangeIff` | cron/cron.go:51-84 | All values are in range, except exactly for minute and hour steps that count down or start below 0, as written. |
| `CronMeaning.FieldSatisfiable` | cron/cron.go:508-528 | Every field that parses matches some calendar value, unless it is barren. |
| `CronMeaning.BarrenStep` | cron/cron.go:508-528 | A barren field, one that counts down from below 0 and does not come up, matches and denotes no calendar value. |
| `CronMeaning.BarrenExample` | cron/cron.go:51-84 | The minute field `0/-10` parses and is barren. |
| `CronMeaning.CronMeaning` | cron/cron.go:464-528 | For every string that parses, matching agrees with the denotation at all calendar times if and only if its steps are regular, or one of them is barren. |
| `CronAccepts.FieldIff` | cron/cron.go:130-418 | A field parses if and only if it is `*`, an accepted step, or a comma list of names, intervals within bounds and numbers within bounds; and hangs if and only if it is a step by 0 or by the least int64. |
| `CronAccepts.StartBelowIff` | cron/cron.go:63-75 | A step's start is below the bound if and only if no multiple of the increment lies from the bound to the sum that is rounded. |
| `CronAccepts.ParsesIff` | cron/cron.go:464-504 | A string parses if and only if it has five accepted fields, with minutes 0 to 59, hours 0 to 23, days 1 to 31, months 1 to 12 and weekdays 0 to 6; and gives no result if and only if one of the first three hangs. |
| `CronAccepts.NameReads` | cron/cron.go:304-418 | A name, in any case, stands for its position counted from the least value. |
| `CronAccepts.MonthNames` | cron/cron.go:304-355 | The values of the first four month names. |
| `CronAccepts.MiddleMonthNames` | cron/cron.go:304-355 | Of the next four. |
| `CronAccepts.LastMonthNames` | cron/cron.go:304-355 | Of the last four. |
| `CronAccepts.WeekdayNames` | cron/cron.go:372-418 | The values of the weekday names. |
| `CronParser.Steps` | cron/cron.go:30-38 | The append loop over an int64 counter, upwards and downwards with wrap-around, ends with the step list. |
| `CronParser.ParseStep` | cron/cron.go:51-84 | The early returns, the rounding and the list, for every written start and increment; the only outcomes without a result are a division by 0 and the increments with which the loop never ends. |
| `CronParser.ParseRange` | cron/cron.go:91-114 | The range loop and its errors. |
| `CronParser.ParseField` | cron/cron.go:130-418 | The five field parsers. |
| `CronParser.Parse` | cron/cron.go:464-504 | Five fields, each parsed whatever the others gave. |
| `CronParser.Match` | cron/cron.go:508-528 | The conjunction of searches, where an empty list matches. |
| `CronRuns.FutureSlotsAre` | dao/schedule_dao_impl.go:320-353 | The rows named by a parent's future records are exactly its runs to come. |
| `CronRuns.CreateKeeps` | dao/schedule_dao_impl.go:85-125 | A new parent keeps the invariant with an empty set of minutes. |
| `CronRuns.PutKeeps` | dao/schedule_dao_impl.go:1180-1193 | A status write under the same key keeps the invariant and the picture. |
| `CronRuns.DropKeeps` | dao/schedule_dao_impl.go:1195-1224 | Dropping future runs through the records cuts the picture at `now` and touches nothing else. |
| `CronRuns.CancelKeeps` | dao/schedule_dao_impl.go:364-373 | Deleting one run strikes its minute out and leaves its record. |
| `CronExpansion.AddedRuns` | dao/schedule_dao_impl.go:608-651 | The runs after creating a set of runs are the old ones and one for each minute. |
| `CronExpansion.ExpandKeeps` | connectors/cron.go:35-92 | A create task does to the tables what adding the wanted, not cancelled minutes does to the picture. |
| `CronExpansion.ExpandTwice` | connectors/cron.go:59-90 | Handling a task again, at once or later, adds runs for exactly the minutes that had been too far ahead; none if runs may lie a whole window ahead. |
| `CronExpansion.DuplicatesIff` | connectors/cron.go:59-90 | Whatever its lookup found, a create task gives a minute a second run if and only if it wants one that has a run and was not found. |
| `CronExpansion.StaysRecordedIff` | dao/schedule_dao_impl.go:608-651 | The runs to come stay recorded if and only if none of them gets a second. |
| `CronExpansion.DuplicatesAtOnceIff` | connectors/cron.go:59-90 | With the lookup at the moment of creation, that is if and only if it is handled at the very second of a wanted minute that has a run. |
| `CronExpansion.OverlappingWorkersIff` | connectors/cron.go:94-101 | With two workers whose lookups precede both creations, the exact minutes that get two runs. |
| `CronHistory.GuardsAre` | service/pause.go:75-116 | On reachable states the answers to pausing, resuming and deleting depend on the parent's status, or on there being no such schedule or a one-time one, and no run shadows a parent's id. |
| `CronHistory.OrdersAre` | retrievers/cron_retriever.go:49-58 | A tick makes tasks for exactly the rows that are scheduled. |
| `CronHistory.PauseKeeps` | service/pause.go:39-143 | Pausing keeps the whole invariant and cuts the picture. |
| `CronHistory.ResumeKeeps` | service/resume.go:38-100 | Resuming keeps the whole invariant and the picture. |
| `CronHistory.UpdateKeeps` | service/update_recurring_schedule.go:133-215 | Updating keeps the whole invariant and cuts the picture. |
| `CronHistory.DeleteKeeps` | dao/schedule_dao_impl.go:379-388 | Deleting a recurring schedule or a single run keeps the whole invariant. |
| `CronHistory.WorkKeeps` | connectors/cron.go:35-92 | A create task keeps the whole invariant. |
| `CronHistory.RunKeeps` | connectors/cron.go:35-92 | Every legal history keeps tables, queue and picture in step. |
| `CronGuarantees.EveryHistoryIsPictured` | dao/schedule_dao_impl.go:608-651 | Over every history: exactly one run per pictured minute; every run to come recorded with its id, app and partition; both parent tables equal; stored expressions parse; ids unique; records within the window; no run to come of a paused or deleted schedule. |
| `CronGuarantees.EveryRunParses` | store/schedule.go:392-423 | Whatever the requests, every stored cron expression parses. |
| `CronGuarantees.EveryRunPersists` | service/update_recurring_schedule.go:41-96 | Id, app and partition never change, and a deleted schedule stays deleted. |
| `CronGuarantees.StopIsExact` | dao/schedule_dao_impl.go:1180-1302 | Pause, update and delete remove exactly the schedule's runs to come. |
| `CronGuarantees.WorkIsExact` | connectors/cron.go:72-90 | A task adds a run for exactly the wanted minutes neither there nor cancelled. |
| `CronGuarantees.ResumeRestores` | service/resume.go:74-92 | After a resume, in any history that leaves the schedule alone, every minute that some task wants has a run again. |
| `CronGuarantees.TickQueues` | retrievers/cron_retriever.go:39-62 | A tick of its partition queues a task for every scheduled parent. |
| `CronGuarantees.TickRestores` | connectors/cron.go:35-92 | From a tick of its partition on, in any such history: once the order is off the queue some task of the history has handled it, and every minute that a task handling it wanted has a run, unless cancelled. |
| `CronGuarantees.ExactlyTheCovered` | connectors/cron.go:59-90 | Over any sequence of overlapping or repeated ticks, a minute has a run exactly if it had one, or some task wanted it and its run was not cancelled. |
| `CronGuarantees.CancelledStaysAway` | dao/schedule_dao_impl.go:364-373 | A run deleted by its own id does not come back, however many tasks want its minute. |
| `CronGuarantees.StaleWorkIsExact` | connectors/cron.go:59-90 | A task that carries any earlier form of its parent and any earlier lookup adds a run for exactly the minutes that form wants and the lookup did not find. |
| `CronGuarantees.InFlightRevives` | connectors/cron.go:35-92 | A task in flight at a pause, update or delete brings back exactly the minutes it wants and its lookup, before or after the request, did not find. |
| `CronGuarantees.StoppedRecords` | dao/schedule_dao_impl.go:320-353 | What a lookup after the request finds: nothing, but after a delete all that was recorded. |
| `CronGuarantees.DuplicateExample` | connectors/cron.go:59-90 | A task handled at second 60 gives the minute 60, which has a run, another. |
| `CronGuarantees.InFlightExample` | connectors/cron.go:59-90 | A task that looked before a pause gives the paused schedule a run to come. |
| `CronRequests.WantedMinutesAre` | connectors/cron.go:70-82 | A task wants a minute if and only if it is one of the first to the last minute of its window, the expression matches it, the app is active, and the clone is valid at that time, condition by condition. |
| `CronRequests.WantedIsDenoted` | store/schedule.go:250-273 | With the modelled parser, the same with the denotation of the expression. |
| `CronRequests.TwoMinutes` | connectors/cron.go:70-82 | A window of two minutes from 0 has 60 and 120. |
| `CronRequests.NewRunIs` | store/schedule.go:250-273 | A run that a task creates has its parent's app, payload and callback, the id minted for it and the partition that id is placed in, and its record the same id, app and partition. |
| `CronRequests.OldRunsStay` | dao/schedule_dao_impl.go:608-651 | Runs that were there stay as they were. |
| `CronRequests.CreateIff` | store/schedule.go:392-423 | A new recurring schedule is accepted if and only if each of the checks holds. |
| `CronRequests.UpdateIff` | service/update_recurring_schedule.go:133-195 | On reachable states, the exact condition of an accepted update, and of each refusal but an invalid one. |
| `CronRequests.UpdateStores` | service/update_recurring_schedule.go:102-120 | An accepted update stores each given field and leaves the rest, and every other row, as it was. |
| `CronRequests.StatusStores` | dao/schedule_dao_impl.go:1180-1229 | Pause, resume and delete store their status when they apply, and nothing else in the row. |
| `CronRequests.CreateStores` | dao/schedule_dao_impl.go:85-155 | A new schedule is stored as it came, as scheduled; a one-time one with no parent. |
| `CronRequests.RecordsAfter` | dao/schedule_dao_impl.go:1195-1302 | Pause and update remove exactly the future records; a delete removes none. |
| `CronRequests.DeleteOneTimeRemoves` | dao/schedule_dao_impl.go:364-373 | Exactly the row with that id goes. |
| `CronRequests.QueueAfter` | retrievers/cron_retriever.go:49-58 | A tick adds its tasks at the end of the queue, and handling one takes that one off. |
| `CronGuarantees.HistoryExample` | connectors/cron.go:35-92 | A short legal history that ends with a run. |
| `RunLookup.GetFutureRuns` | dao/schedule_dao_impl.go:564-591 | The page loop and the reversal return the latest `size` runs to come, soonest first, for any paging. |
| `RunLookup.AtMostWindowAhead` | connectors/cron.go:60-64 | A parent never has more runs to come than the window has minutes. |
| `RunLookup.LookupIsComplete` | dao/schedule_dao_impl.go:564-591 | With the window as the limit, or none, the lookup finds every run to come once, in strictly increasing minutes. |
| `RunLookup.SoonestIff` | dao/schedule_dao_impl.go:564-591 | A limited lookup returns the latest runs to come, and the soonest ones if and only if the limit is 0 or not reached. |
| `CronDao.CronTables.CreateRecurringSchedule` | dao/schedule_dao_impl.go:85-125 | Both parent tables get the row, as scheduled. |
| `CronDao.CronTables.CreateRun` | dao/schedule_dao_impl.go:608-651 | The run and its record are written together. |
| `CronDao.CronTables.FutureBatch` | dao/schedule_dao_impl.go:340-347 | The batch built from the lookup deletes exactly the future rows of both tables. |
| `CronDao.CronTables.DeleteRecurringSchedule` | dao/schedule_dao_impl.go:320-353 | The status and the rows of `schedules` change; the records stay. |
| `CronDao.CronTables.UpdateRecurringScheduleStatus` | dao/schedule_dao_impl.go:1180-1229 | Only a pause also drops runs and records. |
| `CronDao.CronTables.UpdateRecurringSchedule` | dao/schedule_dao_impl.go:1233-1302 | Both parent rows are replaced, future runs and records dropped. |
| `CronDao.CronTables.CreateSchedules` | connectors/cron.go:35-92 | The backward walk with its bounded lookup equals adding the set of missing wanted minutes. |
| `CronDao.CronTables.GetRecurringScheduleByPartition` | dao/schedule_dao_impl.go:172-209 | Exactly the rows of the partition. |
| `CronDao.MakeOrders` | retrievers/cron_retriever.go:49-58 | The loop makes the orders of the rows, in order. |
| `CronDao.CronTables.GetSchedules` | retrievers/cron_retriever.go:39-62 | Exactly one task for each scheduled row of the partition. |
| `CronDao.PauseSchedule` | service/pause.go:55-126 | The guards in their order, and the write only when all pass. |
| `CronDao.ResumeSchedule` | service/resume.go:54-100 | The guards in their order, and the write only when all pass. |
| `CronDao.UpdateSchedule` | service/update_recurring_schedule.go:133-215 | The guards, the merge of the given fields, and the write only for a valid result. |
| `CronDao.DeleteById` | dao/schedule_dao_impl.go:379-388 | One-time schedules are looked up first. |
| `CronDao.CreateRecurring` | service/post.go:67-95 | Only a valid schedule is stored, as scheduled. |
| `Paging.ScanPage` | dao/schedule_dao_impl.go:480-494 | A page sized to the demand is always read to its last row. |
| `Paging.FetchRunsSpec` | dao/schedule_dao_impl.go:463-508 | A reply is exactly the filtered rows between its start and its token, and short only at the end. |
| `Paging.GetFilteredRuns` | dao/schedule_dao_impl.go:463-508 | The loop computes that reply, for every demand; a demand of 0 is met by the first query. |
| `Listing.MakeTimeStamps` | dao/schedule_dao_impl.go:825-833 | The times from the start to before the end that are whole minutes from the start, each once, in order. |
| `Listing.TimeStampsAre` | dao/schedule_dao_impl.go:827-833 | The specification's list is that list. |
| `Listing.WindowsTile` | dao/schedule_dao_impl.go:742-821 | The windows' buckets, joined, are the buckets of the range, also for a start past the end. |
| `Listing.FetchAccounts` | dao/schedule_dao_impl.go:733-822 | From any resumable position and for any fair pager, the reply and what it leaves unread are exactly the filtered rest; a short reply means nothing remains. |
| `Listing.FetchIsCompleteIff` | dao/schedule_dao_impl.go:733-822 | Going on from a reply leads to exactly what it left unread if and only if it is short or carries a token. |
| `Listing.EveryCallCompleteIff` | dao/schedule_dao_impl.go:733-822 | That holds of every call if and only if the driver hands out a token after every full page. |
| `Listing.RepeatsWindow` | dao/schedule_dao_impl.go:742-760 | After a full reply without a token the next call begins the same window again. |
| `Listing.RepeatsForEver` | dao/schedule_dao_impl.go:723-730 | If the first page of a window meets the demand, all accepted, and comes without a token, a client that begins the window gets that page in every reply. |
| `Listing.GetPaginatedSchedules` | dao/schedule_dao_impl.go:695-822 | The loop ends, on a lexicographic measure of windows and pages, with that reply. |
| `Listing.ListAll` | dao/schedule_dao_impl.go:723-730 | Calling again with the returned token and start time while replies are full gives the filtered listing, no skip and no repeat. |
| `Listing.ListingIsWholeRange` | dao/schedule_dao_impl.go:733-833 | That listing is a permutation of the accepted rows of the buckets of the range's minutes. |
| `Listing.EpochSafeIff` | dao/schedule_dao_impl.go:742-750 | Every window's start time leads back to it if and only if no later window starts at time 0, which reads as "none". |
| `Enrichment.GetBulkStatus` | dao/schedule_dao_impl.go:943-973 | The bulk query names each id that has a row, once. |
| `Enrichment.EnrichedIs` | store/schedule.go:277-322 | The status, error and history a schedule is given, by the stored row, or by its minute, the clock and the flush period. |
| `Enrichment.OptimizedEnrichSchedule` | dao/schedule_dao_impl.go:979-1027 | It returns a permutation of enriching each schedule alone, and fails exactly when one of those calls would. |
| `Reconcile.Contains` | retrievers/schedule_retriver.go:187-199 | The search selects by equality for the four run-time statuses and always for any other. |
| `Reconcile.SelectedIff` | retrievers/schedule_retriver.go:187-199 | The same, said of the list as a whole. |
| `Reconcile.ActionIfRequired` | retrievers/schedule_retriver.go:203-230 | The schedules acted on are the selected ones of a batch. |
| `Reconcile.BulkAction` | retrievers/schedule_retriver.go:116-182 | For every page split, with batches of 50 carried over, each selected row of a bucket is acted on exactly once, with one status query for every 50 rows. |
| `Reconcile.SelectedIffNoStatus` | store/schedule.go:277-322 | With only results stored, asking for SCHEDULED and MISS selects exactly the rows without a status row. |
| `Reconcile.DueIsMissing` | cluster/supervisor.go:754-773 | The rows of a bucket that are due are its rows without a status row, each once. |
| `Reconcile.LatestBucketsAre` | cluster/supervisor.go:754-773 | The buckets covered are exactly the latest `offset + 1` minutes. |
| `Reconcile.FetchAndRetry` | cluster/supervisor.go:754-773 | Every one of the latest buckets is handled, a failing one does not stop the rest, and in each other exactly the schedules without a status row are invoked, once each. |
| `Reconcile.GetSchedules` | retrievers/schedule_retriver.go:44-110 | A prefix of the bucket is invoked, in order, and all of it within the query limit. |
| `StatusPipeline.EveryRunWritesResults` | connectors/http.go:157-186 | However replies, aggregation, flushes and writes interleave, only SUCCESS and FAILURE reach the status table. |
| `StatusPipeline.WrittenIs` | dao/schedule_dao_impl.go:655-690 | After a batched write each key of the batch has the status, error and history of its last schedule. |
| `StatusPipeline.WrittenElsewhere` | dao/schedule_dao_impl.go:655-690 | Every other key has what it had. |
| `StatusPipeline.EveryWriteStores` | dao/schedule_dao_impl.go:655-690 | Over every run, once a dispatched batch is written each of its schedules has a row, from then on. |
| `StatusPipeline.EveryRunCarries` | connectors/http.go:157-186 | Over every run the outcomes of replies are, in order, what was taken off the queue and what is on it; and what was taken is, in order for each key, in the batches and buffers. |
| `StatusPipeline.WriteKeeps` | dao/schedule_dao_impl.go:655-690 | A batched write adds rows only for its schedules. |
| `Schedules.OutcomeIs` | connectors/http.go:157-186 | SUCCESS for codes 200 to 299 and FAILURE otherwise, with the trimmed error; a reconciliation appends both to the history, of which five entries stay. |
| `Schedules.HistoryIsLastFive` | store/schedule.go:327-340 | After any attempts the history is the last five of them. |
| `EntityHistory.HistoryIsLastBytes` | dao/cluster_dao_impl.go:370-387 | After any changes the history is a suffix of the uncut transition string, as long as the limit allows. |
| `EntityHistory.TransitionsAre` | dao/cluster_dao_impl.go:374-381 | The uncut string is the history and an arrow with node and status for each state that was left. |
| `EntityHistory.ArrowExample` | dao/cluster_dao_impl.go:374-381 | The text of a first transition, and of a second one that is cut. |
| `EntityHistory.EntityTable.UpdateEntityStatus` | dao/cluster_dao_impl.go:370-387 | The row after an update, for stored and missing rows. |
| `Aggregate.ReceiveBuffers` | connectors/aggregate.go:70-100 | A receive appends to the buffer of its key, and dispatches that buffer if and only if it has reached the batch size. |
| `Aggregate.ReceiveKeeps` | connectors/aggregate.go:70-100 | A receive step keeps order and content per key, and buffers below the batch size. |
| `Aggregate.FlushKeeps` | connectors/aggregate.go:37-68 | A flush dispatches every buffered schedule once. |
| `Aggregate.EveryRunConserves` | connectors/aggregate.go:33-101 | Over every interleaving, per key the batches followed by the buffer are what was received, in order; batches are non-empty, of one key and at most the batch size. |
| `Aggregate.Aggregator.OnSchedule` | connectors/aggregate.go:70-100 | The nested map after a receive. |
| `Aggregate.Aggregator.OnPeriod` | connectors/aggregate.go:37-68 | The nested loops of a flush dispatch every range once and empty the map. |
| `AppCache.KeepsCoherentIff` | cluster/supervisor.go:464-487 | A step makes some cached flag stale for good if and only if it stores an outdated read, loses the last broadcast to a stale copy, or registers over a cached flag. |
| `AppCache.CoherentThroughoutIff` | dao/cluster_dao_impl.go:315-366 | Over every run, caches are coherent in every state if and only if no step is one of those. |
| `AppCache.TableIsLastWritten` | dao/cluster_dao_impl.go:434-444 | Over every run the table holds the flag that was last switched or registered. |
| `AppCache.CachesAfter` | dao/cluster_dao_impl.go:315-366 | A load caches the stored flag unless there is one, a delivery drops it, and no other step but storing a read touches a cache. |
| `AppCache.EveryRunIsCoherent` | dao/cluster_dao_impl.go:315-366 | Over every run with records read and cached at once, apps registered once and senders that outlive their broadcasts, a stale flag is accounted for by an undelivered broadcast; with none left, all caches agree with the table. |
| `AppCache.EveryRunTraces` | dao/cluster_dao_impl.go:323-366 | Over every run, an outdated read in flight was followed by a write, and every write since is under way to its node, has reached it, or is lost. |
| `AppCache.LateKeepIsStaleIff` | dao/cluster_dao_impl.go:323-366 | Over every run, storing a read leaves a stale flag for good if and only if the flag was changed since, a write since has passed the node by, and none is still to reach it. |
| `AppCache.SplitLoadIsStale` | dao/cluster_dao_impl.go:323-349 | A concrete such run. |
| `AppCache.LostBroadcastIsStaleIff` | cluster/supervisor.go:464-487 | A departure leaves a copy stale for good if and only if it differs from the table and every broadcast still to reach it was sent by the leaver. |
| `AppCache.LostBroadcastExample` | cluster/supervisor.go:464-487 | A node switches a flag another has cached and departs. |
| `AppCache.RegisterAgainExample` | service/app_registration.go:71-93 | A node registers an app again with another flag than one cached elsewhere. |
| `AppCache.RegisterAgainIsCoherentIff` | service/app_registration.go:71-93 | A second registration keeps coherence if and only if every cached copy holds the new flag or has a broadcast still to come. |
| `AppCache.AppMap.GetApp` | dao/cluster_dao_impl.go:315-366 | The cached record, or the stored one, which is then cached. |
| `AppCache.AppMap.InvalidateSingleAppCache` | dao/cluster_dao_impl.go:447-454 | The record of one app is dropped. |
| `PollerId.RoundTrip` | cluster_entity/entity_info.go:36-45 | Decoding an id gives back its app and partition, for every app id. |
| `PollerId.Injective` | service/app_registration.go:95-119 | Different pairs have different ids. |
| `PollerId.IdExample` | service/app_registration.go:95-102 | The id of partition 12 of `app` is `app.12`. |
| `Text.ParseIntIs` | cluster_entity/entity_info.go:42-45 | Digits after at most one sign, with values beyond int64 held at its ends. |
| `Text.ParseIntRejects` | cluster_entity/entity_info.go:42-45 | Nothing else parses. |
| `PollerId.FactoryAgreesIff` | poller/poller_factory.go:42-63 | The factory's decoder agrees if and only if the app id has no dot. |

## Left out

- Foreign code: the ring, transport and database driver are a ranking of nodes, delivered forwards and a fair pager; retries are not modelled.
- Failing forwards, and the panics and recoveries around them: every forward is delivered and succeeds.
- Interleaving inside one entity's boot, offload or stop: each is one step, as are app switches and registrations.
- Supervisor.Supervisors.RegisterApp: a partition count of 0, which the service replaces by a configured default, is replaced before the call. Repeated registrations are no step of strict runs.
- The per-data-centre app lookup, which nothing else calls.
- The error paths of the paging loops: the code passes its writer by value and so drops those errors; the theorems are for reads that succeed.
- CronParser.Steps: memory is unbounded; a step that counts down by a small number ends only after up to 2^63 appends, and its list is modelled all the same. Messages of errors are not modelled.
- Text.ToUpper: upper-cases ASCII letters and the two other characters whose upper case is an ASCII letter, which is all that comparing with month and day names can see.
- CronDao.CronTables.CreateSchedules: ticks are on the minute; from any other tick the code files a run under the minute it falls in, and the model under its own time.
- CronStore.Limits: the store takes the cron parser as a parameter, so its theorems hold for every parser; `CronRequests.WantedIsDenoted` puts in the modelled one.
- CronStore.ParentValid: a cron expression on which the parser does not return, because a step increment is 0 or the least int64, is taken as invalid; such a request writes nothing.
- CronStore.CloneValid: one clock reading serves a whole create task, and limits are the same for all apps; the size of a payload is its length.
- A create request for an app that is not registered, and an update whose app cannot be read: they write nothing.
- Row expiry and time zones: rows stay, and the calendar is a function from times to components, with Unix seconds for times.
- Interleaving of the creates of one task with other steps: a task creates its runs at once, by what its lookup found.
- Batches of the database as partial writes: each batch is one step, as its logged form promises.
- Listing.ListAll: a range in which a later window starts at time 0 is excluded by `EpochSafe`, because that start time reads as "none" and leads back to the first window (`EpochSafeIff`); ranges from 1970 on are covered.
- Reconcile.BulkAction: the status table does not change during one pass; the kind of action, reconcile or delete, is not distinguished.
- Several aggregation workers: each has its own buffers, and one is modelled.
- The past-run and all-run lookups, which use the same loop with another filter.
- `ScheduleDaoImpl.BulkAction`, which reads a single page; the retriever's paged form is modelled.
- HTTP routing, JSON, callback sending and registry, monitoring, logging and configuration; goroutine scheduling and tickers.
