/** What the entity table says of status: over every strict run the row of an entity reads
    RUNNING exactly if its app is active, once no node has work left. */
module PlacementRows {
  import opened Ring
  import opened Placement
  import opened PlacementSafety
  import opened PlacementConvergence

  /** The rows of inactive apps read STOPPED. */
  ghost predicate InactiveStopped(s: System) {
    forall id {:trigger id in s.c.table} :: id in s.c.table && !IsActive(s, id) ==> s.c.table[id].status == Stopped
  }

  /** The row of a stopped entity, and every other row as it was. */
  lemma StopWrites(c: Cluster, n: Node, id: EntityId, i: EntityId)
    ensures var r := StopEntity(c, n, id);
      && (i in r.table <==> i in c.table || (i == id && id in Hosted(c, n)))
      && (i in r.table ==> r.table[i] == if i == id && id in Hosted(c, n) then Row(n, Stopped) else c.table[i])
  {
  }

  /** `StopApp` leaves the row of each partition that ran on its owner as stopped there, and
      every other row as it was. */
  lemma {:induction false} StopAppWrites(
      c: Cluster, rank: Ranking, app: string, p: nat, partitions: nat, i: EntityId)
    requires NoTies(rank) && c.members != {} && i in c.table
    ensures var r := StopApp(c, rank, app, p, partitions);
      var o := Owner(rank, i, c.members);
      && i in r.table
      && r.table[i] == if i.app == app && p <= i.partition < partitions && i in Hosted(c, o)
                       then Row(o, Stopped) else c.table[i]
    decreases partitions - p
  {
    hide NoTies, IsBest;
    if p < partitions {
      var id := EntityId(app, p);
      var o := Owner(rank, id, c.members);
      var c1 := StopEntity(c, o, id);
      StopWrites(c, o, id, i);
      assert i != id ==> forall k :: i in Hosted(c1, k) <==> i in Hosted(c, k);
      assert StopApp(c, rank, app, p, partitions) == StopApp(c1, rank, app, p + 1, partitions);
      hide StopApp, StopEntity;
      StopAppWrites(c1, rank, app, p + 1, partitions, i);
    }
  }

  /** After a graceful stop, the rows of all that the node held read STOPPED there. */
  lemma ShutdownWrites(s: System, rank: Ranking, n: Node, i: EntityId)
    requires NoTies(rank) && Enabled(s, Shutdown(n)) && Safe(s.c)
    ensures var t := Next(s, rank, Shutdown(n)).c.table;
      && (i in t <==> i in s.c.table)
      && (i in t ==> t[i] == if i in Hosted(s.c, n) then Row(n, Stopped) else s.c.table[i])
  {
    assert i in Hosted(s.c, n) ==> i in s.c.table;
  }

  lemma DeactivateStops(s: System, rank: Ranking, app: string)
    requires NoTies(rank) && Inv(s, rank) && Good(s, rank) && Allowed(s, rank, Deactivate(app), Strict)
    ensures var t := Next(s, rank, Deactivate(app)).c.table;
      forall i {:trigger i in s.c.table} :: i in s.c.table ==>
        && i in t
        && t[i] == if i.app == app then Row(Owner(rank, i, s.c.members), Stopped) else s.c.table[i]
  {
    IdleIsSettled(s, rank);
    var n := s.apps[app].partitions;
    forall i | i in s.c.table
      ensures i in Next(s, rank, Deactivate(app)).c.table
      ensures Next(s, rank, Deactivate(app)).c.table[i] ==
        if i.app == app then Row(Owner(rank, i, s.c.members), Stopped) else s.c.table[i]
    {
      assert i.app == app ==> i.partition < n && i in Hosted(s.c, Owner(rank, i, s.c.members));
      StopAppWrites(s.c, rank, app, 0, n, i);
    }
  }

  lemma DeactivateKeepsRows(s: System, rank: Ranking, app: string)
    requires NoTies(rank) && Inv(s, rank) && Good(s, rank) && Allowed(s, rank, Deactivate(app), Strict)
    requires InactiveStopped(s)
    ensures InactiveStopped(Next(s, rank, Deactivate(app)))
  {
    var s' := Next(s, rank, Deactivate(app));
    DeactivateStops(s, rank, app);
    forall i | i in s'.c.table ensures i in s.c.table {
      StopAppRows(s.c, rank, app, 0, s.apps[app].partitions, i);
    }
    hide Inv, Good, NoTies, IsBest, Idle;
  }

  lemma ActivateKeepsRows(s: System, rank: Ranking, app: string)
    requires NoTies(rank) && Enabled(s, Activate(app)) && InactiveStopped(s)
    ensures InactiveStopped(Next(s, rank, Activate(app)))
  {
    var s' := Next(s, rank, Activate(app));
    forall i | i in s'.c.table && !IsActive(s', i) ensures s'.c.table[i].status == Stopped {
      StartAppEffect(s.c, rank, app, 0, s.apps[app].partitions, i);
      assert i in s.c.table && !IsActive(s, i);
    }
  }

  lemma RegisterKeepsRows(s: System, rank: Ranking, at: Node, app: string, info: App)
    requires NoTies(rank) && Inv(s, rank) && Enabled(s, Register(at, app, info)) && InactiveStopped(s)
    ensures InactiveStopped(Next(s, rank, Register(at, app, info)))
  {
    var s' := Next(s, rank, Register(at, app, info));
    forall i | i in s'.c.table && !IsActive(s', i) ensures s'.c.table[i].status == Stopped {
      CreateEffect(s.c, rank, at, app, 0, info.partitions, info.active, i);
      if i in s.c.table { assert Listed(s, i) && i.app != app; }
    }
  }

  /** Boot and offload steps write rows of active apps alone. */
  lemma WorkKeepsRows(s: System, rank: Ranking, step: Step)
    requires NoTies(rank) && Allowed(s, rank, step, Strict) && (step.BootOne? || step.OffloadOne?)
    requires InactiveStopped(s)
    ensures InactiveStopped(Next(s, rank, step))
  {
    var s' := Next(s, rank, step);
    if step.BootOne? { BootEffect(s.c, rank, step.n, step.id, s.boots[step.n][step.id], step.seen); }
    if step.OffloadOne? { OffloadEffect(s.c, step.n, step.id); }
    forall i | i in s'.c.table && !IsActive(s', i) ensures s'.c.table[i].status == Stopped {
      assert i in s.c.table && s'.c.table[i] == s.c.table[i];
    }
  }

  lemma StepKeepsRows(s: System, rank: Ranking, step: Step)
    requires NoTies(rank) && Inv(s, rank) && Good(s, rank) && Allowed(s, rank, step, Strict) && InactiveStopped(s)
    ensures InactiveStopped(Next(s, rank, step))
  {
    match step
    case BootOne(_, _, _) => WorkKeepsRows(s, rank, step);
    case OffloadOne(_, _, _) => WorkKeepsRows(s, rank, step);
    case Shutdown(n) =>
      forall i | i in Next(s, rank, step).c.table ensures true { ShutdownWrites(s, rank, n, i); }
    case Register(n, app, info) => RegisterKeepsRows(s, rank, n, app, info);
    case Activate(app) => ActivateKeepsRows(s, rank, app);
    case Deactivate(app) => DeactivateKeepsRows(s, rank, app);
    case _ =>
  }

  lemma {:induction false} RunKeepsRows(s: System, rank: Ranking, steps: seq<Step>)
    requires NoTies(rank) && Inv(s, rank) && Good(s, rank) && Run(s, rank, steps, Strict) && InactiveStopped(s)
    ensures InactiveStopped(After(s, rank, steps, Strict))
    decreases |steps|
  {
    hide NoTies, Inv, Good, Next, InactiveStopped;
    if steps != [] {
      StepKeepsRows(s, rank, steps[0]);
      StrictStepKeeps(s, rank, steps[0]);
      RunKeepsRows(Next(s, rank, steps[0]), rank, steps[1..]);
    }
  }

  /** Over every strict run from an empty cluster whose inactive apps are stopped (an empty
      table, for one): rows of inactive apps read STOPPED throughout, and once no node has work
      a row reads RUNNING exactly if its app is active, and names the owner then. */
  lemma EveryStrictRunKeepsRows(s: System, rank: Ranking, steps: seq<Step>)
    requires NoTies(rank) && Init(s) && AllBounded(s) && InactiveStopped(s) && Run(s, rank, steps, Strict)
    ensures var s' := After(s, rank, steps, Strict);
      && (forall id | id in s'.c.table && !IsActive(s', id) :: s'.c.table[id].status == Stopped)
      && (Idle(s') && s'.c.members != {} ==> forall id | id in s'.c.table ::
            && (s'.c.table[id].status == Running <==> IsActive(s', id))
            && (IsActive(s', id) ==> s'.c.table[id].node == Owner(rank, id, s'.c.members)))
  {
    assert forall k :: Hosted(s.c, k) == {};
    StrictRunKeeps(s, rank, steps);
    RunKeepsRows(s, rank, steps);
    var s' := After(s, rank, steps, Strict);
    if Idle(s') && s'.c.members != {} {
      IdleIsSettled(s', rank);
      forall id | id in s'.c.table && IsActive(s', id)
        ensures s'.c.table[id] == Row(Owner(rank, id, s'.c.members), Running) {
        assert id in Hosted(s'.c, Owner(rank, id, s'.c.members));
      }
    }
  }

  lemma EmptyTableIsStopped(s: System)
    requires s.c.table == map[]
    ensures InactiveStopped(s) && AllBounded(s)
  {
  }
}
