/** What placement does not guarantee, and exactly when it does: switching an app,
    and nodes that leave before they have finished booting. */
module PlacementLimits {
  import opened Ring
  import opened Placement
  import opened PlacementSafety
  import opened PlacementConvergence

  /** `DeactivateApp` stops every partition exactly when each ran only on its owner. */
  lemma DeactivateStopsAllIff(c: Cluster, rank: Ranking, app: string, partitions: nat)
    requires NoTies(rank) && c.members != {}
    ensures (forall id: EntityId | id.app == app && id.partition < partitions ::
      Quiet(StopApp(c, rank, app, 0, partitions), id))
            <==> OnlyOnOwners(c, rank, app, partitions)
  {
    var r := StopApp(c, rank, app, 0, partitions);
    forall k, id ensures id in Hosted(r, k) <==>
      id in Hosted(c, k) && !(id.app == app && id.partition < partitions && k == Owner(rank, id, c.members))
    {
      StopAppEffect(c, rank, app, 0, partitions, k, id);
    }
  }

  /** Every partition of `app` runs on its owner and nowhere else. */
  ghost predicate PlacedOnOwners(c: Cluster, rank: Ranking, app: string, partitions: nat)
    requires NoTies(rank) && c.members != {}
  {
    forall k, id: EntityId :: id.app == app && id.partition < partitions ==>
      (id in Hosted(c, k) <==> k == Owner(rank, id, c.members))
  }

  /** `ActivateApp` leaves every partition on its owner alone exactly when no other node ran it. */
  lemma ActivatePlacesAllIff(c: Cluster, rank: Ranking, app: string, partitions: nat)
    requires NoTies(rank) && c.members != {}
    ensures PlacedOnOwners(StartApp(c, rank, app, 0, partitions), rank, app, partitions)
            <==> OnlyOnOwners(c, rank, app, partitions)
  {
    var r := StartApp(c, rank, app, 0, partitions);
    forall k, id: EntityId ensures id in Hosted(r, k) <==>
      id in Hosted(c, k) || (id.app == app && id.partition < partitions && k == Owner(rank, id, c.members))
    {
      StartAppEffect(c, rank, app, 0, partitions, id);
    }
  }

  /** `ActivateApp` is safe exactly under that condition too. */
  lemma ActivateIsSafeIff(c: Cluster, rank: Ranking, app: string, partitions: nat)
    requires NoTies(rank) && c.members != {} && Safe(c)
    ensures Safe(StartApp(c, rank, app, 0, partitions)) <==> OnlyOnOwners(c, rank, app, partitions)
  {
    hide StartApp, NoTies;
    var r := StartApp(c, rank, app, 0, partitions);
    StartAppEffect(c, rank, app, 0, partitions, EntityId(app, 0));
    if Safe(r) {
      forall k, id: EntityId | id.app == app && id.partition < partitions && id in Hosted(c, k)
        ensures k == Owner(rank, id, c.members)
      {
        StartAppEffect(c, rank, app, 0, partitions, id);
        SafeMeansOneRunner(r, k, Owner(rank, id, c.members), id);
      }
    } else {
      var k, id :| id in Hosted(r, k) && !(id in r.table && r.table[id] == Row(k, Running));
      StartAppEffect(c, rank, app, 0, partitions, id);
      assert id.app == app && id.partition < partitions && id in Hosted(c, k);
    }
  }

  /** Registering an app again overwrites the rows of its entities: that is safe exactly
      when the node sees the app as active, which is what its cache says if it has the
      app, and none of them runs off its owner, or when none of them runs. */
  lemma RegisterAgainIsSafeIff(c: Cluster, rank: Ranking, at: Node, app: string, partitions: nat, seen: bool)
    requires NoTies(rank) && at in c.members && Safe(c)
    ensures Safe(CreateEntities(c, rank, at, app, 0, partitions, seen)) <==>
      Overwritable(c, rank, app, partitions, seen)
  {
    hide CreateEntities, NoTies;
    var r := CreateEntities(c, rank, at, app, 0, partitions, seen);
    CreateEffect(c, rank, at, app, 0, partitions, seen, EntityId(app, 0));
    if Safe(r) {
      forall k, id: EntityId | id.app == app && id.partition < partitions && id in Hosted(c, k)
        ensures seen && k == Owner(rank, id, c.members)
      {
        CreateEffect(c, rank, at, app, 0, partitions, seen, id);
        assert r.table[id] == Row(k, Running);
      }
    } else {
      var k, id :| id in Hosted(r, k) && !(id in r.table && r.table[id] == Row(k, Running));
      CreateEffect(c, rank, at, app, 0, partitions, seen, id);
      assert id.app == app && id.partition < partitions && id in Hosted(c, k);
    }
  }

  /** For instance, a node that sees the app as inactive registers it while a partition runs. */
  lemma RegisterAgainExample(rank: Ranking, k: Node, app: string)
    requires NoTies(rank)
    ensures var c := Cluster({k}, map[k := {EntityId(app, 0)}], map[EntityId(app, 0) := Row(k, Running)]);
      Safe(c) && !Safe(CreateEntities(c, rank, k, app, 0, 1, false))
  {
    var id := EntityId(app, 0);
    var c := Cluster({k}, map[k := {id}], map[id := Row(k, Running)]);
    RegisterAgainIsSafeIff(c, rank, k, app, 1, false);
    assert id in Hosted(c, k);
  }

  /** One active app with one partition, running on node `k`, in various states of work. */
  function OnK(members: set<Node>, k: Node, app: string, joined: set<Node>,
               boots: map<Node, map<EntityId, Row>>, removals: set<(Node, Node)>): System
  {
    var id := EntityId(app, 0);
    System(
      Cluster(members, map m | m in members :: if m == k then {id} else {}, map[id := Row(k, Running)]),
      map[app := App(1, true)], joined, boots, removals, {})
  }

  lemma JoinOnK(rank: Ranking, app: string, k: Node, members: set<Node>, joined: set<Node>, m: Node)
    requires NoTies(rank) && k in members && m !in members
    ensures Next(OnK(members, k, app, joined, map[], {}), rank, Join(m)) ==
      OnK(members + {m}, k, app, joined + {m}, map[], {})
  {
  }

  lemma BootOnK(rank: Ranking, app: string, k: Node, n: Node, b: Node)
    requires NoTies(rank)
    requires var id := EntityId(app, 0); rank(id, b) < rank(id, n) < rank(id, k)
    ensures var row := map[EntityId(app, 0) := Row(k, Running)];
            && Next(OnK({k, n, b}, k, app, {n, b}, map[], {}), rank, ReadBoot(n)) ==
              OnK({k, n, b}, k, app, {b}, map[n := row], {})
            && Next(OnK({k, n, b}, k, app, {b}, map[n := row], {}), rank, BootOne(n, EntityId(app, 0), true))
               == OnK({k, n, b}, k, app, {b}, map[n := map[]], {})
  {
  }

  lemma CrashOnK(rank: Ranking, app: string, k: Node, n: Node, b: Node)
    requires NoTies(rank) && k != n && k != b && n != b
    ensures Next(OnK({k, n, b}, k, app, {b}, map[n := map[]], {}), rank, Depart(b))
            == OnK({k, n}, k, app, {}, map[n := map[]], {(n, b), (k, b)})
  {
    var s := OnK({k, n, b}, k, app, {b}, map[n := map[]], {});
    hide NoTies;
    assert s.c.members - {b} == {k, n} && s.joined - {b} == {};
    assert s.c.entities - {b} == OnK({k, n}, k, app, {}, map[n := map[]], {}).c.entities;
    assert s.boots - {b} == map[n := map[]];
    assert Removed(s, b).removals == {(n, b), (k, b)};
    assert Removed(s, b).offloads == {};
  }

  lemma OffloadOnK(rank: Ranking, app: string, k: Node, n: Node, b: Node)
    requires NoTies(rank) && k != n && k != b && n != b
    ensures Next(OnK({k, n}, k, app, {}, map[n := map[]], {(n, b), (k, b)}), rank, ReadOffload(n, b))
            == OnK({k, n}, k, app, {}, map[n := map[]], {(k, b)})
    ensures Next(OnK({k, n}, k, app, {}, map[n := map[]], {(k, b)}), rank, ReadOffload(k, b))
            == OnK({k, n}, k, app, {}, map[n := map[]], {})
  {
    hide NoTies;
    assert {(n, b), (k, b)} - {(n, b)} == {(k, b)} && {(k, b)} - {(k, b)} == {};
  }

  lemma CrashRunOnK(rank: Ranking, app: string, k: Node, n: Node, b: Node) returns (steps: seq<Step>)
    requires NoTies(rank) && k != n && k != b && n != b
    ensures var s4 := OnK({k, n, b}, k, app, {b}, map[n := map[]], {});
            && Run(s4, rank, steps, Loose)
            && After(s4, rank, steps, Loose) == OnK({k, n}, k, app, {}, map[n := map[]], {})
  {
    CrashOnK(rank, app, k, n, b);
    OffloadOnK(rank, app, k, n, b);
    var s5 := OnK({k, n}, k, app, {}, map[n := map[]], {(n, b), (k, b)});
    var s6 := OnK({k, n}, k, app, {}, map[n := map[]], {(k, b)});
    var s7 := OnK({k, n}, k, app, {}, map[n := map[]], {});
    steps := RunCons(s6, rank, ReadOffload(k, b), s7, []);
    steps := RunCons(s5, rank, ReadOffload(n, b), s6, steps);
    steps := RunCons(OnK({k, n, b}, k, app, {b}, map[n := map[]], {}), rank, Depart(b), s5, steps);
  }

  lemma BootRunOnK(rank: Ranking, app: string, k: Node, n: Node, b: Node) returns (steps: seq<Step>)
    requires NoTies(rank)
    requires var id := EntityId(app, 0); rank(id, b) < rank(id, n) < rank(id, k)
    ensures var s2 := OnK({k, n, b}, k, app, {n, b}, map[], {});
            && Run(s2, rank, steps, Loose)
            && After(s2, rank, steps, Loose) == OnK({k, n}, k, app, {}, map[n := map[]], {})
  {
    steps := CrashRunOnK(rank, app, k, n, b);
    BootOnK(rank, app, k, n, b);
    var id := EntityId(app, 0);
    var s3 := OnK({k, n, b}, k, app, {b}, map[n := map[id := Row(k, Running)]], {});
    steps := RunCons(s3, rank, BootOne(n, id, true), OnK({k, n, b}, k, app, {b}, map[n := map[]], {}), steps);
    steps := RunCons(OnK({k, n, b}, k, app, {n, b}, map[], {}), rank, ReadBoot(n), s3, steps);
  }

  lemma StrandedOnK(rank: Ranking, app: string, k: Node, n: Node)
    requires NoTies(rank) && rank(EntityId(app, 0), n) < rank(EntityId(app, 0), k)
    ensures Settled(OnK({k}, k, app, {}, map[], {}), rank)
    ensures var s := OnK({k, n}, k, app, {}, map[n := map[]], {}); Idle(s) && !Settled(s, rank)
  {
    var id := EntityId(app, 0);
    OwnerIs(rank, id, {k}, k);
    OwnerIs(rank, id, {k, n}, n);
    assert id in Hosted(OnK({k, n}, k, app, {}, map[n := map[]], {}).c, k);
  }

  /** Two nodes join, the better-ranked one crashes before it boots, and all work ends:
      the entity is stranded on a node that does not own it. */
  lemma CrashWhileBootingStrands(rank: Ranking, app: string, k: Node, n: Node, b: Node) returns (steps: seq<Step>)
    requires NoTies(rank)
    requires var id := EntityId(app, 0); rank(id, b) < rank(id, n) < rank(id, k)
    ensures var s0 := OnK({k}, k, app, {}, map[], {});
            && Settled(s0, rank) && Run(s0, rank, steps, Loose)
            && var s := After(s0, rank, steps, Loose);
               s == OnK({k, n}, k, app, {}, map[n := map[]], {}) && Idle(s) && !Settled(s, rank)
  {
    steps := BootRunOnK(rank, app, k, n, b);
    var s0 := OnK({k}, k, app, {}, map[], {});
    var s1 := OnK({k, n}, k, app, {n}, map[], {});
    var s2 := OnK({k, n, b}, k, app, {n, b}, map[], {});
    JoinOnK(rank, app, k, {k, n}, {n}, b);
    assert {k, n} + {b} == {k, n, b} && {n} + {b} == {n, b};
    steps := RunCons(s1, rank, Join(b), s2, steps);
    JoinOnK(rank, app, k, {k}, {}, n);
    assert {k} + {n} == {k, n} && {} + {n} == {n};
    steps := RunCons(s0, rank, Join(n), s1, steps);
    StrandedOnK(rank, app, k, n);
  }

  lemma RunCons(s: System, rank: Ranking, step: Step, s': System, rest: seq<Step>) returns (steps: seq<Step>)
    requires NoTies(rank) && Allowed(s, rank, step, Loose) && Next(s, rank, step) == s' && Run(s', rank, rest, Loose)
    ensures steps == [step] + rest && Run(s, rank, steps, Loose)
    ensures After(s, rank, steps, Loose) == After(s', rank, rest, Loose)
  {
    steps := [step] + rest;
    assert steps[1..] == rest;
  }

  /** From there, deactivating the app leaves it running, and activating it again
      makes two live nodes run the same entity. */
  lemma SwitchingWhileStrandedIsUnsafe(rank: Ranking, app: string, k: Node, n: Node, s: System)
    requires NoTies(rank) && rank(EntityId(app, 0), n) < rank(EntityId(app, 0), k)
    requires s == OnK({k, n}, k, app, {}, map[n := map[]], {})
    ensures Enabled(s, Deactivate(app))
    ensures var off := Next(s, rank, Deactivate(app));
            && EntityId(app, 0) in Hosted(off.c, k) && Enabled(off, Activate(app))
            && var on := Next(off, rank, Activate(app));
               EntityId(app, 0) in Hosted(on.c, k) && EntityId(app, 0) in Hosted(on.c, n) && !Safe(on.c)
  {
    var id := EntityId(app, 0);
    OwnerIs(rank, id, {k, n}, n);
    StopAppEffect(s.c, rank, app, 0, 1, k, id);
    var off := Next(s, rank, Deactivate(app));
    StartAppEffect(off.c, rank, app, 0, 1, id);
    var on := Next(off, rank, Activate(app));
    if Safe(on.c) {
      SafeMeansOneRunner(on.c, k, n, id);
    }
  }
}
