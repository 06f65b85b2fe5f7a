/** Convergence of placement: in every strict run, once no node has work left,
    each entity of an active app runs on its owner and nowhere else, and entities
    of inactive apps run nowhere. */
module PlacementConvergence {
  import opened Ring
  import opened Placement
  import opened PlacementSafety

  /** Node `o` still has work that will make it start `id`. */
  ghost predicate Owed(s: System, o: Node, id: EntityId) {
    || o in s.joined
    || (o in s.boots && id in s.boots[o])
    || (o, id) in s.offloads
    || (id in s.c.table && (o, s.c.table[id].node) in s.removals)
  }

  ghost predicate Handled(s: System, rank: Ranking, id: EntityId)
    requires NoTies(rank)
  {
    s.c.members != {} ==>
      var o := Owner(rank, id, s.c.members);
      id in Hosted(s.c, o) || Owed(s, o, id)
  }

  ghost predicate Quiet(c: Cluster, id: EntityId) {
    forall k :: id !in Hosted(c, k)
  }

  ghost predicate Good(s: System, rank: Ranking)
    requires NoTies(rank)
  {
    && AllBounded(s)
    && forall id :: id in s.c.table ==> if IsActive(s, id) then Handled(s, rank, id) else Quiet(s.c, id)
  }

  /** Every entity in the table is a partition of its app as it is registered. */
  ghost predicate AllBounded(s: System) {
    forall id {:trigger id in s.c.table} ::
      id in s.c.table ==> id.app in s.apps && id.partition < s.apps[id.app].partitions
  }

  /** The goal: every entity runs exactly where it should. */
  ghost predicate Settled(s: System, rank: Ranking)
    requires NoTies(rank)
  {
    && s.c.members != {}
    && forall k, id :: id in s.c.table ==>
         (id in Hosted(s.c, k) <==> IsActive(s, id) && k == Owner(rank, id, s.c.members))
  }

  lemma IdleIsSettled(s: System, rank: Ranking)
    requires NoTies(rank) && Inv(s, rank) && Good(s, rank) && Idle(s) && s.c.members != {}
    ensures Settled(s, rank)
  {
    forall k, id | id in s.c.table
      ensures id in Hosted(s.c, k) <==> IsActive(s, id) && k == Owner(rank, id, s.c.members)
    {
      if IsActive(s, id) {
        var o := Owner(rank, id, s.c.members);
        assert Handled(s, rank, id);
        assert id in Hosted(s.c, o);
        if id in Hosted(s.c, k) {
          SafeMeansOneRunner(s.c, k, o, id);
        }
      } else {
        assert Quiet(s.c, id);
      }
    }
  }

  // Effects of the loops over an app's partitions

  /** `StopApp` stops a partition where it runs exactly when that node owns it. */
  lemma {:induction false} StopAppEffect(
      c: Cluster, rank: Ranking, app: string, p: nat, partitions: nat, k: Node, id: EntityId)
    requires NoTies(rank) && c.members != {}
    ensures var r := StopApp(c, rank, app, p, partitions);
            id in Hosted(r, k) <==>
              id in Hosted(c, k) &&
                !(id.app == app && p <= id.partition < partitions && k == Owner(rank, id, c.members))
    decreases partitions - p
  {
    if p < partitions {
      var i := EntityId(app, p);
      var c1 := StopEntity(c, Owner(rank, i, c.members), i);
      StopAppEffect(c1, rank, app, p + 1, partitions, k, id);
    }
  }

  lemma {:induction false} StopAppRows(c: Cluster, rank: Ranking, app: string, p: nat, partitions: nat, id: EntityId)
    requires NoTies(rank) && c.members != {}
    ensures var r := StopApp(c, rank, app, p, partitions);
            && (id in c.table ==> id in r.table)
            && (id.app != app && id in r.table ==> id in c.table && r.table[id] == c.table[id])
            && (Safe(c) && id in r.table ==> id in c.table)
    decreases partitions - p
  {
    if p < partitions {
      var i := EntityId(app, p);
      var c1 := StopEntity(c, Owner(rank, i, c.members), i);
      if Safe(c) {
        assert forall k :: Hosted(c1, k) <= Hosted(c, k);
        assert i in Hosted(c, Owner(rank, i, c.members)) ==> i in c.table;
        assert Safe(c1);
      }
      StopAppRows(c1, rank, app, p + 1, partitions, id);
    }
  }

  lemma StartOneEffect(c: Cluster, o: Node, i: EntityId, id: EntityId)
    ensures var r := StartEntity(c, o, i);
            && r.members == c.members
            && (forall k :: id in Hosted(r, k) <==> id in Hosted(c, k) || (id == i && k == o))
            && (id in r.table <==> id in c.table || id == i)
            && (id in r.table ==> r.table[id] == if id == i then Row(o, Running) else c.table[id])
            && (o in c.entities ==> r.entities.Keys == c.entities.Keys)
  {
  }

  lemma {:induction false} StartAppEffect(
      c: Cluster, rank: Ranking, app: string, p: nat, partitions: nat, id: EntityId)
    requires NoTies(rank) && c.members != {}
    ensures var r := StartApp(c, rank, app, p, partitions);
            var mine := id.app == app && p <= id.partition < partitions;
            && (forall k :: id in Hosted(r, k) <==> id in Hosted(c, k) || (mine && k == Owner(rank, id, c.members)))
            && (id in r.table <==> id in c.table || mine)
            && (mine ==> r.table[id] == Row(Owner(rank, id, c.members), Running))
            && (!mine && id in c.table ==> r.table[id] == c.table[id])
            && (c.members <= c.entities.Keys ==> r.entities.Keys == c.entities.Keys)
    decreases partitions - p
  {
    hide NoTies, Hosted, StartEntity;
    if p < partitions {
      var i := EntityId(app, p);
      var o := Owner(rank, i, c.members);
      var c1 := StartEntity(c, o, i);
      StartOneEffect(c, o, i, id);
      assert o in c.members;
      hide IsBest;
      assert StartApp(c, rank, app, p, partitions) == StartApp(c1, rank, app, p + 1, partitions);
      hide StartApp;
      StartAppEffect(c1, rank, app, p + 1, partitions, id);
    }
  }

  /** Registration leaves each of its partitions on its owner, and wherever it ran before. */
  lemma {:induction false} CreateEffect(
      c: Cluster, rank: Ranking, at: Node, app: string, p: nat, partitions: nat, seen: bool, id: EntityId)
    requires NoTies(rank) && at in c.members && c.members <= c.entities.Keys
    ensures var r := CreateEntities(c, rank, at, app, p, partitions, seen);
            var mine := id.app == app && p <= id.partition < partitions;
            && r.entities.Keys == c.entities.Keys
            && (forall k :: id in Hosted(r, k) <==>
                  id in Hosted(c, k) || (mine && seen && k == Owner(rank, id, c.members)))
            && (id in r.table <==> id in c.table || mine)
            && (mine ==> r.table[id] == if seen then Row(Owner(rank, id, c.members), Running) else Row(at, Stopped))
            && (!mine && id in c.table ==> r.table[id] == c.table[id])
    decreases partitions - p
  {
    if p < partitions {
      hide NoTies;
      var i := EntityId(app, p);
      var o := Owner(rank, i, c.members);
      var c1 := c.(table := c.table[i := Row(at, Stopped)]);
      assert forall k :: Hosted(c1, k) == Hosted(c, k);
      var c2 := BootEntity(c1, rank, at, i, Row(at, Stopped), seen, true);
      assert c2 == if seen then StartEntity(c1, o, i) else c1;
      assert forall k :: id in Hosted(c2, k) <==> id in Hosted(c, k) || (seen && id == i && k == o);
      assert CreateEntities(c, rank, at, app, p, partitions, seen) ==
        CreateEntities(c2, rank, at, app, p + 1, partitions, seen);
      hide IsBest, CreateEntities, BootEntity;
      CreateEffect(c2, rank, at, app, p + 1, partitions, seen, id);
    }
  }

  // Steps

  lemma JoinKeepsGood(s: System, rank: Ranking, n: Node)
    requires NoTies(rank) && Inv(s, rank) && Good(s, rank) && n !in s.c.members
    ensures Good(Next(s, rank, Join(n)), rank)
  {
    var s' := Next(s, rank, Join(n));
    assert forall k :: Hosted(s'.c, k) == Hosted(s.c, k);
    forall id | id in s'.c.table && IsActive(s', id) ensures Handled(s', rank, id) {
      assert Handled(s, rank, id);
      if s.c.members != {} {
        OwnerAfterJoin(rank, id, s.c.members, n);
      }
    }
    forall id | id in s'.c.table && !IsActive(s', id) ensures Quiet(s'.c, id) {
      assert Quiet(s.c, id);
    }
  }

  lemma ReadBootKeepsGood(s: System, rank: Ranking, n: Node)
    requires NoTies(rank) && Inv(s, rank) && Good(s, rank) && n in s.joined
    ensures Good(Next(s, rank, ReadBoot(n)), rank)
  {
    var s' := Next(s, rank, ReadBoot(n));
    forall id | id in s'.c.table && IsActive(s', id) ensures Handled(s', rank, id) {
      assert Handled(s, rank, id);
    }
  }

  lemma ReadOffloadKeepsGood(s: System, rank: Ranking, n: Node, d: Node)
    requires NoTies(rank) && Inv(s, rank) && Good(s, rank) && (n, d) in s.removals
    ensures Good(Next(s, rank, ReadOffload(n, d)), rank)
  {
    var s' := Next(s, rank, ReadOffload(n, d));
    forall id | id in s'.c.table && IsActive(s', id) ensures Handled(s', rank, id) {
      assert Handled(s, rank, id);
      assert s.c.table[id].node == d ==> (n, id) in s'.offloads;
    }
  }

  /** Nothing but the placement and the row of `id` differs. */
  ghost predicate SameButFor(c: Cluster, c': Cluster, id: EntityId) {
    && c'.members == c.members
    && (forall i, k | i != id :: i in Hosted(c', k) <==> i in Hosted(c, k))
    && (forall i | i != id :: i in c'.table <==> i in c.table)
    && (forall i | i != id && i in c.table :: c'.table[i] == c.table[i])
  }

  /** Boot and offload steps finish one item of work: if it was owed, it is now done. */
  lemma WorkKeepsGood(s: System, rank: Ranking, n: Node, id: EntityId, s': System)
    requires NoTies(rank) && Good(s, rank) && n in s.c.members && id in s.c.table
    requires s'.apps == s.apps && s'.joined == s.joined && s'.removals == s.removals
    requires forall m, i :: (m, i) != (n, id) && m in s.boots && i in s.boots[m] ==> m in s'.boots && i in s'.boots[m]
    requires forall m, i :: (m, i) != (n, id) && (m, i) in s.offloads ==> (m, i) in s'.offloads
    requires if IsActive(s, id) && Owner(rank, id, s.c.members) == n
             then SameButFor(s.c, s'.c, id) && id in Hosted(s'.c, n)
             else s'.c == s.c
    ensures Good(s', rank)
  {
    forall i | i in s'.c.table && IsActive(s', i) ensures Handled(s', rank, i) {
      if i != id || Owner(rank, id, s.c.members) != n {
        assert i in s.c.table && Handled(s, rank, i);
      }
    }
    forall i | i in s'.c.table && !IsActive(s', i) ensures Quiet(s'.c, i) {
      assert i in s.c.table && Quiet(s.c, i);
    }
  }

  lemma BootEffect(c: Cluster, rank: Ranking, n: Node, id: EntityId, row: Row, seen: bool)
    requires NoTies(rank) && n in c.members
    ensures var r := BootEntity(c, rank, n, id, row, seen, false);
            if seen && Owner(rank, id, c.members) == n
            then SameButFor(c, r, id) && id in Hosted(r, n)
            else r == c
  {
  }

  lemma BootOneKeepsGood(s: System, rank: Ranking, n: Node, id: EntityId, seen: bool)
    requires NoTies(rank) && Inv(s, rank) && Good(s, rank) && Allowed(s, rank, BootOne(n, id, seen), Strict)
    ensures Good(Next(s, rank, BootOne(n, id, seen)), rank)
  {
    var s' := Next(s, rank, BootOne(n, id, seen));
    BootEffect(s.c, rank, n, id, s.boots[n][id], seen);
    forall m, i | (m, i) != (n, id) && m in s.boots && i in s.boots[m] ensures m in s'.boots && i in s'.boots[m] {
      assert m == n ==> i != id;
    }
    WorkKeepsGood(s, rank, n, id, s');
  }

  lemma OffloadEffect(c: Cluster, n: Node, id: EntityId)
    ensures SameButFor(c, StartEntity(c, n, id), id) && id in Hosted(StartEntity(c, n, id), n)
  {
  }

  lemma OffloadOneKeepsGood(s: System, rank: Ranking, n: Node, id: EntityId, seen: bool)
    requires NoTies(rank) && Inv(s, rank) && Good(s, rank) && Allowed(s, rank, OffloadOne(n, id, seen), Strict)
    ensures Good(Next(s, rank, OffloadOne(n, id, seen)), rank)
  {
    var s' := Next(s, rank, OffloadOne(n, id, seen));
    assert (n, id) in s.offloads && id in s.c.table;
    hide Inv, NoTies, Good, IsBest;
    OffloadEffect(s.c, n, id);
    hide StartEntity, Hosted;
    WorkKeepsGood(s, rank, n, id, s');
  }

  /** A node with no work of its own leaves rows that name it, so its successor owes each entity it ran. */
  lemma RemovedKeepsGood(s: System, rank: Ranking, n: Node, stopped: Cluster)
    requires NoTies(rank) && Inv(s, rank) && Good(s, rank) && n in s.c.members && !Unfinished(s, n)
    requires stopped in {s.c, StopNode(s.c, n)}
    ensures Good(Removed(s.(c := stopped), n), rank)
  {
    var s' := Removed(s.(c := stopped), n);
    assert forall k :: Hosted(s'.c, k) == if k == n then {} else Hosted(s.c, k);
    assert forall i :: i in s'.c.table <==> i in s.c.table;
    forall i | i in s.c.table && IsActive(s, i) ensures Handled(s', rank, i) {
      RemovedKeepsHandled(s, rank, n, stopped, i);
    }
    hide NoTies, Handled, Inv;
    forall i | i in s'.c.table && !IsActive(s', i) ensures Quiet(s'.c, i) {
      assert Quiet(s.c, i);
    }
  }

  lemma RemovedKeepsHandled(s: System, rank: Ranking, n: Node, stopped: Cluster, i: EntityId)
    requires NoTies(rank) && Inv(s, rank) && Good(s, rank) && n in s.c.members && !Unfinished(s, n)
    requires stopped in {s.c, StopNode(s.c, n)} && i in s.c.table && IsActive(s, i)
    ensures Handled(Removed(s.(c := stopped), n), rank, i)
  {
    var s' := Removed(s.(c := stopped), n);
    assert Handled(s, rank, i);
    RemovedHosts(s, rank, n, stopped, i);
    hide Inv, Good, StopNode;
    if s'.c.members != {} {
      OwnerAfterLeave(rank, i, s.c.members, n);
      hide NoTies, IsBest, Hosted;
      var o := Owner(rank, i, s.c.members);
      if o == n {
        assert (Owner(rank, i, s'.c.members), n) in s'.removals;
      }
    }
  }

  lemma RemovedHosts(s: System, rank: Ranking, n: Node, stopped: Cluster, i: EntityId)
    requires Inv(s, rank) && stopped in {s.c, StopNode(s.c, n)} && i in s.c.table
    ensures var c' := Removed(s.(c := stopped), n).c;
      && c'.members == s.c.members - {n} && i in c'.table && c'.table[i].node == s.c.table[i].node
      && (i in Hosted(s.c, n) ==> s.c.table[i].node == n)
      && forall k :: Hosted(c', k) == if k == n then {} else Hosted(s.c, k)
  {
  }

  lemma RegisterKeepsGood(s: System, rank: Ranking, at: Node, app: string, info: App)
    requires NoTies(rank) && Inv(s, rank) && Good(s, rank) && Enabled(s, Register(at, app, info))
    ensures Good(Next(s, rank, Register(at, app, info)), rank)
  {
    var s' := Next(s, rank, Register(at, app, info));
    forall q | 0 <= q < info.partitions ensures Quiet(s.c, EntityId(app, q)) {
      assert EntityId(app, q) !in s.c.table;
    }
    forall i | i in s'.c.table
      ensures i.app in s'.apps && i.partition < s'.apps[i.app].partitions
      ensures if IsActive(s', i) then Handled(s', rank, i) else Quiet(s'.c, i)
    {
      CreateEffect(s.c, rank, at, app, 0, info.partitions, info.active, i);
      if i in s.c.table {
        assert i.app != app;
        assert if IsActive(s, i) then Handled(s, rank, i) else Quiet(s.c, i);
      } else {
        assert Quiet(s.c, i);
      }
    }
  }

  lemma ActivateKeeps(s: System, rank: Ranking, app: string)
    requires NoTies(rank) && Inv(s, rank) && Good(s, rank) && Allowed(s, rank, Activate(app), Strict)
    ensures Inv(Next(s, rank, Activate(app)), rank) && Good(Next(s, rank, Activate(app)), rank)
  {
    var n := s.apps[app].partitions;
    forall q | 0 <= q < n ensures Quiet(s.c, EntityId(app, q)) {
      var i := EntityId(app, q);
      if i in s.c.table { assert !IsActive(s, i); }
    }
    StartAppKeepsInv(s, rank, app, 0, n);
    AppKeepsInv(s.(c := StartApp(s.c, rank, app, 0, n)), rank, app, s.apps[app].(active := true));
    var s' := Next(s, rank, Activate(app));
    forall i | i in s'.c.table
      ensures i.app in s'.apps && i.partition < s'.apps[i.app].partitions
      ensures if IsActive(s', i) then Handled(s', rank, i) else Quiet(s'.c, i)
    {
      StartAppEffect(s.c, rank, app, 0, n, i);
      if i.app == app {
      } else {
        assert i in s.c.table;
        assert if IsActive(s, i) then Handled(s, rank, i) else Quiet(s.c, i);
      }
    }
  }

  lemma DeactivateKeepsGood(s: System, rank: Ranking, app: string)
    requires NoTies(rank) && Inv(s, rank) && Good(s, rank) && Allowed(s, rank, Deactivate(app), Strict)
    ensures Good(Next(s, rank, Deactivate(app)), rank)
  {
    IdleIsSettled(s, rank);
    var n := s.apps[app].partitions;
    var s' := Next(s, rank, Deactivate(app));
    forall i | i in s'.c.table
      ensures i.app in s'.apps && i.partition < s'.apps[i.app].partitions
      ensures if IsActive(s', i) then Handled(s', rank, i) else Quiet(s'.c, i)
    {
      StopAppRows(s.c, rank, app, 0, n, i);
      forall k ensures i in Hosted(s'.c, k) <==>
        i in Hosted(s.c, k) && !(i.app == app && k == Owner(rank, i, s.c.members)) {
        StopAppEffect(s.c, rank, app, 0, n, k, i);
      }
      assert if IsActive(s, i) then Handled(s, rank, i) else Quiet(s.c, i);
    }
  }

  // Whole runs

  lemma StrictStepKeeps(s: System, rank: Ranking, step: Step)
    requires NoTies(rank) && Inv(s, rank) && Good(s, rank) && Allowed(s, rank, step, Strict)
    ensures Inv(Next(s, rank, step), rank) && Good(Next(s, rank, step), rank)
  {
    if step.Activate? {
      ActivateKeeps(s, rank, step.app);
    } else {
      StepKeepsInv(s, rank, step);
      match step
      case Join(n) => JoinKeepsGood(s, rank, n);
      case ReadBoot(n) => ReadBootKeepsGood(s, rank, n);
      case BootOne(n, id, seen) => BootOneKeepsGood(s, rank, n, id, seen);
      case Depart(n) => RemovedKeepsGood(s, rank, n, s.c);
      case Shutdown(n) => RemovedKeepsGood(s, rank, n, StopNode(s.c, n));
      case ReadOffload(n, d) => ReadOffloadKeepsGood(s, rank, n, d);
      case OffloadOne(n, id, seen) => OffloadOneKeepsGood(s, rank, n, id, seen);
      case Register(n, app, info) => RegisterKeepsGood(s, rank, n, app, info);
      case Deactivate(app) => DeactivateKeepsGood(s, rank, app);
    }
  }

  lemma {:induction false} StrictRunKeeps(s: System, rank: Ranking, steps: seq<Step>)
    requires NoTies(rank) && Inv(s, rank) && Good(s, rank) && Run(s, rank, steps, Strict)
    ensures Inv(After(s, rank, steps, Strict), rank) && Good(After(s, rank, steps, Strict), rank)
    decreases |steps|
  {
    if steps != [] {
      StrictStepKeeps(s, rank, steps[0]);
      StrictRunKeeps(Next(s, rank, steps[0]), rank, steps[1..]);
    }
  }

  /** Every strict run from an empty cluster is safe throughout, and settled
      whenever its members have no work left. */
  lemma EveryStrictRunConverges(s: System, rank: Ranking, steps: seq<Step>)
    requires NoTies(rank) && Init(s) && AllBounded(s) && Run(s, rank, steps, Strict)
    ensures var s' := After(s, rank, steps, Strict);
            Safe(s'.c) && (Idle(s') && s'.c.members != {} ==> Settled(s', rank))
  {
    assert forall k :: Hosted(s.c, k) == {};
    StrictRunKeeps(s, rank, steps);
    var s' := After(s, rank, steps, Strict);
    if Idle(s') && s'.c.members != {} {
      IdleIsSettled(s', rank);
    }
  }

  /** A settled state is a function of the ring, the table's ids and the active apps,
      so the order in which boots and offloads ran leaves no trace in the placement. */
  lemma SettledIsUnique(a: System, b: System, rank: Ranking)
    requires NoTies(rank) && Safe(a.c) && Safe(b.c) && Settled(a, rank) && Settled(b, rank)
    requires a.c.members == b.c.members && a.c.table.Keys == b.c.table.Keys && a.apps == b.apps
    ensures a.c.entities == b.c.entities
    ensures forall id | id in a.c.table && IsActive(a, id) :: a.c.table[id] == b.c.table[id]
  {
    forall n | n in a.c.members ensures a.c.entities[n] == b.c.entities[n] {
      assert n in a.c.entities.Keys && n in b.c.entities.Keys;
      forall id ensures id in Hosted(a.c, n) <==> id in Hosted(b.c, n) {
        assert id in Hosted(a.c, n) ==> id in a.c.table.Keys;
        assert id in Hosted(b.c, n) ==> id in b.c.table.Keys;
      }
      assert Hosted(a.c, n) == Hosted(b.c, n);
    }
    forall id | id in a.c.table && IsActive(a, id) ensures a.c.table[id] == b.c.table[id] {
      var o := Owner(rank, id, a.c.members);
      assert id in b.c.table.Keys && id in Hosted(a.c, o) && id in Hosted(b.c, o);
    }
  }
}
