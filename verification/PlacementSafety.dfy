/** Safety of placement: over every loose run an entity is in the map of at most
    one live node, and its row names that node as running it. */
module PlacementSafety {
  import opened Ring
  import opened Placement

  /** The safety property. */
  ghost predicate Safe(c: Cluster) {
    && c.entities.Keys == c.members
    && (forall n, id :: id in Hosted(c, n) ==> id in c.table && c.table[id] == Row(n, Running))
  }

  lemma SafeMeansOneRunner(c: Cluster, a: Node, b: Node, id: EntityId)
    requires Safe(c) && id in Hosted(c, a) && id in Hosted(c, b)
    ensures a == b && a in c.members
  {
    assert c.table[id] == Row(a, Running) && c.table[id] == Row(b, Running);
    assert a in c.entities.Keys;
  }

  /** Every node but `n` that runs `id` ranks better than `n`, or is `except`. */
  ghost predicate Outranked(c: Cluster, rank: Ranking, id: EntityId, n: Node, except: Row) {
    forall k :: k != n && id in Hosted(c, k) ==> rank(id, k) < rank(id, n) || except == Row(k, Running)
  }

  /** A boot snapshot still names any runner its owner would have to stop. */
  ghost predicate BootsCover(s: System, rank: Ranking) {
    forall n, id :: n in s.boots && id in s.boots[n] ==>
      n in s.c.members && Outranked(s.c, rank, id, n, s.boots[n][id])
  }

  /** An offload read names only entities that no worse-ranked node runs. */
  ghost predicate OffloadsCover(s: System, rank: Ranking) {
    forall n, id :: (n, id) in s.offloads ==>
      n in s.c.members && Outranked(s.c, rank, id, n, Row(n, Stopped))
  }

  /** A removed node that came back runs only what it ranks better for than those still to offload it. */
  ghost predicate RemovalsCover(s: System, rank: Ranking) {
    forall m, d :: (m, d) in s.removals ==>
      m in s.c.members && m != d && forall id :: id in Hosted(s.c, d) ==> rank(id, d) < rank(id, m)
  }

  ghost predicate Listed(s: System, id: EntityId) { id.app in s.apps }

  /** Every id in the table belongs to a registered app, and every id in somebody's work
      is in the table. */
  ghost predicate AllListed(s: System) {
    && (forall id {:trigger id in s.c.table} :: id in s.c.table ==> Listed(s, id))
    && (forall n, id {:trigger id in s.boots[n]} :: n in s.boots && id in s.boots[n] ==> id in s.c.table)
    && (forall n, id {:trigger (n, id) in s.offloads} :: (n, id) in s.offloads ==> id in s.c.table)
  }

  ghost predicate Inv(s: System, rank: Ranking) {
    && Safe(s.c) && s.joined <= s.c.members
    && BootsCover(s, rank) && OffloadsCover(s, rank) && RemovalsCover(s, rank)
    && AllListed(s)
  }

  // Steps on the cluster alone

  lemma StopKeepsInv(s: System, rank: Ranking, n: Node, id: EntityId)
    requires Inv(s, rank)
    ensures Inv(s.(c := StopEntity(s.c, n, id)), rank)
  {
    var c' := StopEntity(s.c, n, id);
    assert forall k :: Hosted(c', k) <= Hosted(s.c, k);
    assert id in Hosted(s.c, n) ==> id in s.c.table;
  }

  /** Starting an entity on its owner is safe when no other node runs it. */
  lemma StartKeepsInv(s: System, rank: Ranking, id: EntityId)
    requires NoTies(rank) && s.c.members != {} && Inv(s, rank)
    requires Listed(s, id)
    requires forall k :: id in Hosted(s.c, k) ==> k == Owner(rank, id, s.c.members)
    ensures Inv(s.(c := StartEntity(s.c, Owner(rank, id, s.c.members), id)), rank)
  {
    var o := Owner(rank, id, s.c.members);
    var s' := s.(c := StartEntity(s.c, o, id));
    assert forall k, i :: i in Hosted(s'.c, k) <==> i in Hosted(s.c, k) || (k == o && i == id);
    assert forall n :: n in s.c.members && n != o ==> rank(id, o) < rank(id, n);
    assert BootsCover(s', rank);
    assert OffloadsCover(s', rank);
    assert RemovalsCover(s', rank);
  }

  // Steps on the pending work

  lemma JoinKeepsInv(s: System, rank: Ranking, n: Node)
    requires NoTies(rank) && Inv(s, rank) && n !in s.c.members
    ensures Inv(Next(s, rank, Join(n)), rank)
  {
    var s' := Next(s, rank, Join(n));
    assert forall k :: Hosted(s'.c, k) == Hosted(s.c, k);
    assert BootsCover(s', rank) && OffloadsCover(s', rank) && RemovalsCover(s', rank);
  }

  lemma ReadBootKeepsInv(s: System, rank: Ranking, n: Node)
    requires NoTies(rank) && Inv(s, rank) && n in s.joined
    ensures Inv(Next(s, rank, ReadBoot(n)), rank)
  {
  }

  lemma RemovedKeepsInv(s: System, rank: Ranking, n: Node)
    requires Inv(s, rank) && n in s.c.members
    ensures Inv(Removed(s, n), rank)
  {
    var s' := Removed(s, n);
    assert forall k :: Hosted(s'.c, k) == if k == n then {} else Hosted(s.c, k);
    assert BootsCover(s', rank);
    assert OffloadsCover(s', rank);
    assert RemovalsCover(s', rank);
  }

  lemma ReadOffloadKeepsInv(s: System, rank: Ranking, m: Node, d: Node)
    requires NoTies(rank) && Inv(s, rank) && (m, d) in s.removals
    ensures Inv(Next(s, rank, ReadOffload(m, d)), rank)
  {
    var s' := Next(s, rank, ReadOffload(m, d));
    forall n, id | (n, id) in s'.offloads
      ensures n in s.c.members && Outranked(s.c, rank, id, n, Row(n, Stopped))
    {
      if (n, id) !in s.offloads {
        assert n == m && id in s.c.table && s.c.table[id].node == d;
        assert forall k :: id in Hosted(s.c, k) ==> k == d;
      }
    }
  }

  /** The entity may run on the owner, and on the node that the snapshot names. */
  lemma BootEntityKeepsInv(s: System, rank: Ranking, n: Node, id: EntityId, row: Row)
    requires NoTies(rank) && Inv(s, rank) && n in s.c.members && Owner(rank, id, s.c.members) == n && Listed(s, id)
    requires forall k :: k != n && id in Hosted(s.c, k) ==> row == Row(k, Running)
    ensures Inv(s.(c := BootEntity(s.c, rank, n, id, row, true, false)), rank)
  {
    if row.status == Running && row.node in s.c.members && row.node != n {
      var at := if id in Hosted(s.c, row.node) then row.node else n;
      StopKeepsInv(s, rank, at, id);
      var q := s.(c := StopEntity(s.c, at, id));
      forall k | id in Hosted(q.c, k) ensures k == n { assert id in Hosted(s.c, k); }
      hide Inv, NoTies, IsBest;
      StartKeepsInv(q, rank, id);
    } else {
      assert forall k :: id in Hosted(s.c, k) ==> k in s.c.entities.Keys;
      assert forall k :: id in Hosted(s.c, k) ==> k == n;
      hide Inv, NoTies, IsBest;
      StartKeepsInv(s, rank, id);
    }
  }

  lemma BootsAreOutranked(s: System, rank: Ranking, n: Node, id: EntityId)
    requires NoTies(rank) && Inv(s, rank) && n in s.boots && id in s.boots[n] && n in s.c.members
    requires Owner(rank, id, s.c.members) == n
    ensures forall k :: k != n && id in Hosted(s.c, k) ==> s.boots[n][id] == Row(k, Running)
  {
    assert Outranked(s.c, rank, id, n, s.boots[n][id]);
    assert forall k :: id in Hosted(s.c, k) ==> k in s.c.entities.Keys;
  }

  /** Boot work that is done is struck out. */
  lemma BootDoneKeepsInv(s: System, rank: Ranking, n: Node, id: EntityId)
    requires Inv(s, rank) && n in s.boots
    ensures Inv(s.(boots := s.boots[n := s.boots[n] - {id}]), rank)
  {
    var s' := s.(boots := s.boots[n := s.boots[n] - {id}]);
    assert forall m, i :: m in s'.boots && i in s'.boots[m] ==>
      m in s.boots && i in s.boots[m] && s'.boots[m][i] == s.boots[m][i];
    assert BootsCover(s', rank);
  }

  /** Boot stops the runner its snapshot names; by then no other node can run the entity. */
  lemma BootOneKeepsInv(s: System, rank: Ranking, n: Node, id: EntityId, seen: bool)
    requires NoTies(rank) && Inv(s, rank) && Enabled(s, BootOne(n, id, seen))
    ensures Inv(Next(s, rank, BootOne(n, id, seen)), rank)
  {
    var row := s.boots[n][id];
    assert Listed(s, id) by { assert id in s.boots[n] && id in s.c.table; }
    hide Inv, NoTies, IsBest;
    if seen && Owner(rank, id, s.c.members) == n {
      BootsAreOutranked(s, rank, n, id);
      BootEntityKeepsInv(s, rank, n, id, row);
    }
    BootDoneKeepsInv(s.(c := BootEntity(s.c, rank, n, id, row, seen, false)), rank, n, id);
  }

  lemma OffloadOneKeepsInv(s: System, rank: Ranking, n: Node, id: EntityId, seen: bool)
    requires NoTies(rank) && Inv(s, rank) && Enabled(s, OffloadOne(n, id, seen))
    ensures Inv(Next(s, rank, OffloadOne(n, id, seen)), rank)
  {
    var mid := s;
    if seen && Owner(rank, id, s.c.members) == n {
      assert Outranked(s.c, rank, id, n, Row(n, Stopped));
      assert forall k :: id in Hosted(s.c, k) ==> k in s.c.members;
      StartKeepsInv(s, rank, id);
      mid := s.(c := StartEntity(s.c, n, id));
    }
    assert Next(s, rank, OffloadOne(n, id, seen)) == mid.(offloads := s.offloads - {(n, id)});
  }

  lemma ShutdownKeepsInv(s: System, rank: Ranking, n: Node)
    requires NoTies(rank) && Inv(s, rank) && n in s.c.members
    ensures Inv(Next(s, rank, Shutdown(n)), rank)
  {
    hide NoTies;
    StopNodeKeepsInv(s, rank, n);
    RemovedKeepsInv(s.(c := StopNode(s.c, n)), rank, n);
  }

  lemma StopNodeKeepsInv(s: System, rank: Ranking, n: Node)
    requires Inv(s, rank) && n in s.c.members
    ensures Inv(s.(c := StopNode(s.c, n)), rank)
  {
    var mid := s.(c := StopNode(s.c, n));
    assert forall k :: Hosted(mid.c, k) == if k == n then {} else Hosted(s.c, k);
    assert mid.c.table.Keys == s.c.table.Keys by {
      assert forall id | id in Hosted(s.c, n) :: id in s.c.table;
    }
    assert Safe(mid.c);
    assert BootsCover(mid, rank) && OffloadsCover(mid, rank) && RemovalsCover(mid, rank);
    assert AllListed(mid);
  }

  // Loops over the partitions of an app

  /** A new row for an entity that no node runs. */
  lemma NewRowKeepsInv(s: System, rank: Ranking, at: Node, id: EntityId)
    requires Inv(s, rank) && Listed(s, id) && forall k :: id !in Hosted(s.c, k)
    ensures Inv(s.(c := s.c.(table := s.c.table[id := Row(at, Stopped)])), rank)
  {
    var s' := s.(c := s.c.(table := s.c.table[id := Row(at, Stopped)]));
    assert forall k :: Hosted(s'.c, k) == Hosted(s.c, k);
    assert BootsCover(s', rank) && OffloadsCover(s', rank) && RemovalsCover(s', rank);
  }

  /** Creating and booting entities is safe when it overwrites no row it should not. */
  lemma {:induction false} CreateKeepsInv(
      s: System, rank: Ranking, at: Node, app: string, p: nat, partitions: nat, seen: bool)
    requires NoTies(rank) && Inv(s, rank) && at in s.c.members && app in s.apps
    requires Overwritable(s.c, rank, app, partitions, seen)
    ensures Inv(s.(c := CreateEntities(s.c, rank, at, app, p, partitions, seen)), rank)
    decreases partitions - p
  {
    if p < partitions {
      var id := EntityId(app, p);
      var s2 := s.(c := CreateOne(s.c, rank, at, id, seen));
      CreateOneKeepsInv(s, rank, at, id, seen);
      CreateOneHosts(s.c, rank, at, id, seen);
      hide Inv, NoTies, CreateOne;
      CreateKeepsInv(s2, rank, at, app, p + 1, partitions, seen);
    }
  }

  /** One round of the loop. */
  ghost function CreateOne(c: Cluster, rank: Ranking, at: Node, id: EntityId, seen: bool): Cluster
    requires NoTies(rank) && c.members != {}
  {
    BootEntity(c.(table := c.table[id := Row(at, Stopped)]), rank, at, id, Row(at, Stopped), seen, true)
  }

  lemma CreateOneHosts(c: Cluster, rank: Ranking, at: Node, id: EntityId, seen: bool)
    requires NoTies(rank) && at in c.members
    ensures var r := CreateOne(c, rank, at, id, seen);
      && r.members == c.members
      && forall k, i :: i in Hosted(r, k) ==> i in Hosted(c, k) || (seen && i == id && k == Owner(rank, id, c.members))
  {
  }

  lemma CreateOneKeepsInv(s: System, rank: Ranking, at: Node, id: EntityId, seen: bool)
    requires NoTies(rank) && Inv(s, rank) && at in s.c.members && Listed(s, id)
    requires forall k :: id in Hosted(s.c, k) ==> seen && k == Owner(rank, id, s.c.members)
    ensures Inv(s.(c := CreateOne(s.c, rank, at, id, seen)), rank)
  {
    if seen {
      StartKeepsInv(s, rank, id);
      assert CreateOne(s.c, rank, at, id, seen) == StartEntity(s.c, Owner(rank, id, s.c.members), id);
    } else {
      NewRowKeepsInv(s, rank, at, id);
    }
  }

  /** The record of an app plays no part in the invariant. */
  lemma AppKeepsInv(s: System, rank: Ranking, app: string, info: App)
    requires Inv(s, rank)
    ensures Inv(s.(apps := s.apps[app := info]), rank)
  {
  }

  lemma RegisterKeepsInv(s: System, rank: Ranking, at: Node, app: string, info: App)
    requires NoTies(rank) && Inv(s, rank) && Enabled(s, Register(at, app, info))
    ensures Inv(Next(s, rank, Register(at, app, info)), rank)
  {
    forall k, id: EntityId | id in Hosted(s.c, k) ensures id.app in s.apps {
      assert id in s.c.table && Listed(s, id);
    }
    hide NoTies;
    AppKeepsInv(s, rank, app, info);
    CreateKeepsInv(s.(apps := s.apps[app := info]), rank, at, app, 0, info.partitions, info.active);
  }

  lemma RegisterAgainKeepsInv(s: System, rank: Ranking, at: Node, app: string, info: App, seen: bool)
    requires NoTies(rank) && Inv(s, rank) && at in s.c.members
    requires app in s.apps && Overwritable(s.c, rank, app, info.partitions, seen)
    ensures Inv(Next(s, rank, RegisterAgain(at, app, info, seen)), rank)
  {
    hide NoTies, Inv;
    AppKeepsInv(s, rank, app, info);
    CreateKeepsInv(s.(apps := s.apps[app := info]), rank, at, app, 0, info.partitions, seen);
  }

  lemma {:induction false} StopAppKeepsInv(s: System, rank: Ranking, app: string, p: nat, partitions: nat)
    requires NoTies(rank) && Inv(s, rank) && s.c.members != {}
    ensures Inv(s.(c := StopApp(s.c, rank, app, p, partitions)), rank)
    decreases partitions - p
  {
    if p < partitions {
      var id := EntityId(app, p);
      var o := Owner(rank, id, s.c.members);
      StopKeepsInv(s, rank, o, id);
      StopAppKeepsInv(s.(c := StopEntity(s.c, o, id)), rank, app, p + 1, partitions);
    }
  }

  /** Starting partitions on their owners is safe when none runs anywhere else. */
  lemma {:induction false} StartAppKeepsInv(s: System, rank: Ranking, app: string, p: nat, partitions: nat)
    requires NoTies(rank) && Inv(s, rank) && s.c.members != {}
    requires app in s.apps && OnlyOnOwners(s.c, rank, app, partitions)
    ensures Inv(s.(c := StartApp(s.c, rank, app, p, partitions)), rank)
    decreases partitions - p
  {
    if p < partitions {
      hide NoTies, IsBest, Inv;
      var i := EntityId(app, p);
      var o := Owner(rank, i, s.c.members);
      StartKeepsInv(s, rank, i);
      var s1 := s.(c := StartEntity(s.c, o, i));
      assert forall k, j :: j in Hosted(s1.c, k) ==> j in Hosted(s.c, k) || (j == i && k == o);
      assert OnlyOnOwners(s1.c, rank, app, partitions);
      StartAppKeepsInv(s1, rank, app, p + 1, partitions);
    }
  }

  // Whole runs

  lemma StepKeepsInv(s: System, rank: Ranking, step: Step)
    requires NoTies(rank) && Inv(s, rank) && Allowed(s, rank, step, Loose)
    ensures Inv(Next(s, rank, step), rank)
  {
    match step
    case Join(n) => JoinKeepsInv(s, rank, n);
    case ReadBoot(n) => ReadBootKeepsInv(s, rank, n);
    case BootOne(n, id, seen) => BootOneKeepsInv(s, rank, n, id, seen);
    case Depart(n) => RemovedKeepsInv(s, rank, n);
    case StopOne(n, id) => StopKeepsInv(s, rank, n, id);
    case Shutdown(n) => ShutdownKeepsInv(s, rank, n);
    case ReadOffload(n, d) => ReadOffloadKeepsInv(s, rank, n, d);
    case OffloadOne(n, id, seen) => OffloadOneKeepsInv(s, rank, n, id, seen);
    case Register(n, app, info) => RegisterKeepsInv(s, rank, n, app, info);
    case RegisterAgain(n, app, info, seen) => RegisterAgainKeepsInv(s, rank, n, app, info, seen);
    case Activate(app) =>
      StartAppKeepsInv(s, rank, app, 0, s.apps[app].partitions);
      AppKeepsInv(s.(c := StartApp(s.c, rank, app, 0, s.apps[app].partitions)), rank, app,
        s.apps[app].(active := true));
    case Deactivate(app) =>
      StopAppKeepsInv(s, rank, app, 0, s.apps[app].partitions);
      AppKeepsInv(s.(c := StopApp(s.c, rank, app, 0, s.apps[app].partitions)), rank, app,
        s.apps[app].(active := false));
  }

  lemma {:induction false} RunKeepsInv(s: System, rank: Ranking, steps: seq<Step>)
    requires NoTies(rank) && Inv(s, rank) && Run(s, rank, steps, Loose)
    ensures Inv(After(s, rank, steps, Loose), rank)
    decreases |steps|
  {
    if steps != [] {
      StepKeepsInv(s, rank, steps[0]);
      RunKeepsInv(Next(s, rank, steps[0]), rank, steps[1..]);
    }
  }

  /** Nothing has started: no members, no work, and any table of registered entities. */
  ghost predicate Init(s: System) {
    && s.c.members == {} && s.c.entities == map[]
    && s.joined == {} && s.boots == map[] && s.removals == {} && s.offloads == {}
    && AllListed(s)
  }

  /** In every state of every loose run, no two live nodes run the same entity and
      a running entity's row says so. */
  lemma EveryRunIsSafe(s: System, rank: Ranking, steps: seq<Step>)
    requires NoTies(rank) && Init(s) && Run(s, rank, steps, Loose)
    ensures var c := After(s, rank, steps, Loose).c;
            && (forall a, b, id :: id in Hosted(c, a) && id in Hosted(c, b) ==> a == b && a in c.members)
            && (forall n, id :: id in Hosted(c, n) ==> id in c.table && c.table[id] == Row(n, Running))
  {
    RunKeepsInv(s, rank, steps);
    var c := After(s, rank, steps, Loose).c;
    forall a, b, id | id in Hosted(c, a) && id in Hosted(c, b) ensures a == b && a in c.members {
      SafeMeansOneRunner(c, a, b, id);
    }
  }
}
