/** The supervisors of a cluster as running code: one object holds every node's
    `entities` map and the shared tables, and each method is what the supervisor
    on node `self` executes, forwards included. */
module Supervisor {
  import opened Ring
  import opened Placement
  import opened PlacementSafety
  import opened PlacementConvergence
  import opened PlacementRows

  datatype Code = Done | EmptyId | Unregistered | Already

  /** A node's cached record of an app. */
  datatype Cached = No | Yes(info: App)

  /** `GetApp`: the cached record first. */
  function Seen(cached: Cached, stored: App): App { if cached.Yes? then cached.info else stored }

  function SwitchCode(apps: map<string, App>, app: string, active: bool, cached: Cached): Code {
    if app == "" then EmptyId
    else if cached.No? && app !in apps then Unregistered
    else if (if cached.Yes? then cached.info else apps[app]).active == active then Already
    else Done
  }

  class Supervisors {
    const rank: Ranking
    var members: set<Node>
    var entities: map<Node, set<EntityId>>
    var table: map<EntityId, Row>
    var apps: map<string, App>

    // Work held in the local variables of loops that have not finished.
    ghost var joined: set<Node>
    ghost var boots: map<Node, map<EntityId, Row>>
    ghost var removals: set<(Node, Node)>
    ghost var offloads: set<(Node, EntityId)>

    ghost function Core(): Cluster reads this {
      Cluster(members, entities, table)
    }

    ghost function View(): System reads this {
      System(Core(), apps, joined, boots, removals, offloads)
    }

    ghost predicate Valid() reads this {
      NoTies(rank) && Inv(View(), rank) && Good(View(), rank)
    }

    /** An empty cluster over a table of registered entities. */
    constructor (rank: Ranking, table: map<EntityId, Row>, apps: map<string, App>)
      requires NoTies(rank)
      requires forall id {:trigger id in table} :: id in table ==>
        id.app in apps && id.partition < apps[id.app].partitions
      ensures Valid() && Idle(View()) && members == {} && this.table == table && this.apps == apps && this.rank == rank
    {
      this.rank, this.table, this.apps := rank, table, apps;
      members, entities := {}, map[];
      joined, boots, removals, offloads := {}, map[], {}, {};
      new;
      assert forall k :: Hosted(Core(), k) == {};
    }

    method StartEntity(self: Node, id: EntityId)
      modifies this`entities, this`table
      ensures Core() == Placement.StartEntity(old(Core()), self, id)
      ensures table == old(table)[id := Row(self, Running)] && self in entities && id in entities[self]
      ensures forall n, i | n in entities && i in entities[n] ::
        (n in old(entities) && i in old(entities)[n]) || (n == self && i == id)
    {
      var mine := if self in entities then entities[self] else {};
      if id !in mine {
        entities := entities[self := mine + {id}];
      } else {
        assert mine + {id} == mine && entities[self := mine] == entities;
      }
      table := table[id := Row(self, Running)];
    }

    method StopEntity(self: Node, id: EntityId) returns (exists_: bool)
      modifies this`entities, this`table
      ensures Core() == Placement.StopEntity(old(Core()), self, id)
      ensures exists_ == (self in old(entities) && id in old(entities)[self])
      ensures exists_ ==>
        && table == old(table)[id := Row(self, Stopped)]
        && entities == old(entities)[self := old(entities)[self] - {id}]
      ensures !exists_ ==> table == old(table) && entities == old(entities)
    {
      exists_ := self in entities && id in entities[self];
      if exists_ {
        entities := entities[self := entities[self] - {id}];
        table := table[id := Row(self, Stopped)];
      }
    }

    /** Start each requested id here, or forward it to its owner. */
    method StartEntities(self: Node, ids: seq<EntityId>) returns (forwards: nat)
      requires NoTies(rank) && members != {}
      modifies this`entities, this`table
      ensures Forwarded(Core(), forwards) == StartAll(old(Core()), rank, self, ids)
      decreases |ids|, if |ids| == 1 && self == Owner(rank, ids[0], members) then 0 else 1
    {
      hide NoTies, IsBest, StartAll, StopAll, Placement.StartEntity, Placement.StopEntity;
      NoneLeft(Core(), rank, self, ids);
      var i := 0;
      forwards := 0;
      while i < |ids|
        invariant 0 <= i <= |ids|
        invariant members == old(members)
        invariant StartAll(old(Core()), rank, self, ids) == Counting(forwards, StartAll(Core(), rank, self, ids[i..]))
      {
        var id := ids[i];
        var dest := Owner(rank, id, members);
        StartAllCons(Core(), rank, self, ids, i);
        if dest == self {
          StartEntity(self, id);
        } else {
          StartAllOne(Core(), rank, dest, id);
          var more := StartEntities(dest, [id]);
          forwards := forwards + 1 + more;
        }
        i := i + 1;
      }
      NoneLeft(Core(), rank, self, ids);
    }

    /** Stop each requested id here if it is here, or forward it to its owner. */
    method StopEntities(self: Node, ids: seq<EntityId>) returns (forwards: nat)
      requires NoTies(rank) && members != {}
      modifies this`entities, this`table
      ensures Forwarded(Core(), forwards) == StopAll(old(Core()), rank, self, ids)
      decreases |ids|, if |ids| == 1 && self == Owner(rank, ids[0], members) then 0 else 1
    {
      hide NoTies, IsBest, StartAll, StopAll, Placement.StartEntity;
      NoneLeft(Core(), rank, self, ids);
      var i := 0;
      forwards := 0;
      while i < |ids|
        invariant 0 <= i <= |ids|
        invariant members == old(members)
        invariant StopAll(old(Core()), rank, self, ids) == Counting(forwards, StopAll(Core(), rank, self, ids[i..]))
      {
        var id := ids[i];
        StopAllCons(Core(), rank, self, ids, i);
        var here := StopEntity(self, id);
        if !here {
          var dest := Owner(rank, id, members);
          if dest != self {
            StopAllOne(Core(), rank, dest, id);
            var more := StopEntities(dest, [id]);
            forwards := forwards + 1 + more;
          }
        }
        i := i + 1;
      }
      NoneLeft(Core(), rank, self, ids);
    }

    method BootEntity(self: Node, id: EntityId, row: Row, seen: bool, forward: bool)
      requires NoTies(rank) && members != {}
      modifies this`entities, this`table
      ensures Core() == Placement.BootEntity(old(Core()), rank, self, id, row, seen, forward)
    {
      if !seen { return; }
      var dest := Owner(rank, id, members);
      if dest == self {
        if row.status == Running && row.node in members && row.node != self {
          var _ := StopEntities(row.node, [id]);
        }
        StartEntity(self, id);
      } else if forward {
        var _ := StartEntities(row.node, [id]);
      }
    }

    method Join(n: Node)
      requires Valid() && n !in members
      modifies this
      ensures Valid() && View() == Next(old(View()), rank, Step.Join(n))
    {
      StrictStepKeeps(View(), rank, Step.Join(n));
      members, entities := members + {n}, entities[n := {}];
      joined := joined + {n};
    }

    /** `GetAllEntitiesInfo`, the read that `Boot` starts from. */
    method ReadRows(self: Node) returns (rows: map<EntityId, Row>)
      requires Valid() && self in joined
      modifies this`joined, this`boots
      ensures Valid() && View() == Next(old(View()), rank, ReadBoot(self))
      ensures self in members && rows == table
      ensures joined == old(joined) - {self} && boots == old(boots)[self := rows]
    {
      StrictStepKeeps(View(), rank, ReadBoot(self));
      rows := table;
      joined, boots := joined - {self}, boots[self := rows];
    }

    /** One round of the `Boot` loop. */
    method BootNext(self: Node, id: EntityId, row: Row)
      requires Valid() && self in members && self in boots && id in boots[self] && row == boots[self][id]
      modifies this`entities, this`table, this`boots
      ensures Valid() && View() == Next(old(View()), rank, BootOne(self, id, IsActive(old(View()), id)))
      ensures boots == old(boots)[self := old(boots)[self] - {id}]
    {
      assert id in boots[self] && Listed(View(), id);
      var seen := apps[id.app].active;
      StrictStepKeeps(View(), rank, BootOne(self, id, seen));
      BootEntity(self, id, row, seen, false);
      boots := boots[self := boots[self] - {id}];
    }

    /** The whole `Boot` of a node that has joined. Its rows are read once, so
        they are stale for all but the first entity. */
    method Boot(self: Node)
      requires Valid() && self in joined
      modifies this
      ensures Valid() && members == old(members) && apps == old(apps)
      ensures joined == old(joined) - {self} && boots == old(boots)[self := map[]]
      ensures removals == old(removals) && offloads == old(offloads)
    {
      hide Inv, Good, NoTies, Next, IsActive;
      var rows := ReadRows(self);
      while rows != map[]
        invariant Valid() && self in members && members == old(members) && apps == old(apps)
        invariant joined == old(joined) - {self} && boots == old(boots)[self := rows]
        invariant removals == old(removals) && offloads == old(offloads)
        decreases rows.Keys
      {
        var id :| id in rows;
        SameBoots(old(boots), self, rows, rows - {id});
        BootNext(self, id, rows[id]);
        rows := rows - {id};
      }
    }

    /** A node joins an idle cluster and boots: the cluster is settled for the new ring. */
    method JoinAndBoot(n: Node)
      requires Valid() && Idle(View()) && n !in members
      modifies this
      ensures Valid() && Idle(View()) && members == old(members) + {n} && apps == old(apps)
      ensures Settled(View(), rank)
    {
      Join(n);
      Boot(n);
      assert joined == {};
      IdleIsSettled(View(), rank);
    }

    /** The loop of `DeactivateApp`: stop each partition on its owner. */
    method StopPartitions(self: Node, app: string, n: nat)
      requires NoTies(rank) && members != {}
      modifies this`entities, this`table
      ensures Core() == StopApp(old(Core()), rank, app, 0, n)
    {
      var p := 0;
      while p < n
        invariant 0 <= p <= n
        invariant StopApp(Core(), rank, app, p, n) == StopApp(old(Core()), rank, app, 0, n)
      {
        var id := EntityId(app, p);
        var dest := Owner(rank, id, members);
        if dest != self {
          var _ := StopEntities(dest, [id]);
        } else {
          var _ := StopEntity(self, id);
        }
        p := p + 1;
      }
    }

    /** The loop of `ActivateApp`: start each partition on its owner. */
    method StartPartitions(self: Node, app: string, n: nat)
      requires NoTies(rank) && members != {}
      modifies this`entities, this`table
      ensures Core() == StartApp(old(Core()), rank, app, 0, n)
    {
      hide NoTies, IsBest;
      var p := 0;
      while p < n
        invariant 0 <= p <= n
        invariant StartApp(Core(), rank, app, p, n) == StartApp(old(Core()), rank, app, 0, n)
      {
        var id := EntityId(app, p);
        var dest := Owner(rank, id, members);
        if dest != self {
          StartAllOne(Core(), rank, dest, id);
          var _ := StartEntities(dest, [id]);
        } else {
          StartEntity(self, id);
        }
        p := p + 1;
      }
    }

    /** Clear the flag and stop the partitions: none runs anywhere. */
    method DeactivateApp(self: Node, app: string)
      requires Valid() && Idle(View()) && self in members && app in apps && apps[app].active
      modifies this`entities, this`table, this`apps
      ensures Valid() && Settled(View(), rank) && View() == Next(old(View()), rank, Step.Deactivate(app))
      ensures forall p | 0 <= p < apps[app].partitions :: Quiet(Core(), EntityId(app, p))
      ensures forall i {:trigger i in old(table)} :: i in old(table) ==>
        i in table && (if i.app == app then table[i].status == Stopped else table[i] == old(table)[i])
    {
      hide Inv, Good, NoTies;
      StrictStepKeeps(View(), rank, Step.Deactivate(app));
      StoppedEverywhere(View(), rank, app);
      DeactivateStops(View(), rank, app);
      var n := apps[app].partitions;
      apps := apps[app := apps[app].(active := false)];
      StopPartitions(self, app, n);
      assert View() == Next(old(View()), rank, Step.Deactivate(app));
      IdleIsSettled(View(), rank);
    }

    /** Set the flag and start the partitions: each runs on its owner alone. */
    method ActivateApp(self: Node, app: string)
      requires Valid() && Idle(View()) && self in members && app in apps && !apps[app].active
      modifies this`entities, this`table, this`apps
      ensures Valid() && Settled(View(), rank) && View() == Next(old(View()), rank, Step.Activate(app))
    {
      hide Inv, Good, NoTies;
      StrictStepKeeps(View(), rank, Step.Activate(app));
      var n := apps[app].partitions;
      apps := apps[app := apps[app].(active := true)];
      StartPartitions(self, app, n);
      assert View() == Next(old(View()), rank, Step.Activate(app));
      IdleIsSettled(View(), rank);
    }

    /** The service's request: guards on the record of the app, the cached one if the node has
        it; then the flag is written and the partitions of that record are switched. With a
        record that agrees with the table this is the step of that name. */
    method Switch(self: Node, app: string, active: bool, cached: Cached) returns (code: Code)
      requires NoTies(rank) && self in members && (cached.Yes? ==> app in apps)
      modifies this`entities, this`table, this`apps
      ensures code == SwitchCode(old(apps), app, active, cached)
      ensures code != Done ==> View() == old(View())
      ensures code == Done ==>
        && apps == old(apps)[app := old(apps)[app].(active := active)]
        && var n := Seen(cached, old(apps)[app]).partitions;
           Core() == if active then StartApp(old(Core()), rank, app, 0, n) else StopApp(old(Core()), rank, app, 0, n)
      ensures old(Valid() && Idle(View())) && (cached.Yes? ==> cached.info == old(apps)[app]) ==>
        Valid() && Settled(View(), rank)
    {
      hide Inv, Good, Settled, IsBest;
      ghost var orderly := Valid() && Idle(View()) && (cached.Yes? ==> cached.info == apps[app]);
      if orderly { IdleIsSettled(View(), rank); }
      if |app| == 0 { return EmptyId; }
      if cached.No? && app !in apps { return Unregistered; }
      var record := if cached.Yes? then cached.info else apps[app];
      if record.active == active { return Already; }
      if orderly { StrictStepKeeps(View(), rank, if active then Step.Activate(app) else Step.Deactivate(app)); }
      apps := apps[app := apps[app].(active := active)];
      if active {
        StartPartitions(self, app, record.partitions);
      } else {
        StopPartitions(self, app, record.partitions);
      }
      if orderly { IdleIsSettled(View(), rank); }
      code := Done;
    }

    /** `RegisterApp`: insert the app, then create and boot each partition's entity. The flag
        that boots go by is the node's cached one if it has the app, else the one inserted.
        For an app that is new, and so in no cache, this is the registration step. */
    method RegisterApp(self: Node, app: string, info: App, cached: Cached)
      requires NoTies(rank) && self in members
      modifies this`entities, this`table, this`apps
      ensures apps == old(apps)[app := info]
      ensures Core() == CreateEntities(old(Core()), rank, self, app, 0, info.partitions, Seen(cached, info).active)
      ensures app in old(apps) ==>
        View() == Next(old(View()), rank, RegisterAgain(self, app, info, Seen(cached, info).active))
      ensures old(Valid()) && app !in old(apps) && cached.No? ==>
        Valid() && View() == Next(old(View()), rank, Step.Register(self, app, info))
    {
      hide Inv, Good, NoTies;
      if Valid() && app !in apps {
        StrictStepKeeps(View(), rank, Step.Register(self, app, info));
      }
      apps := apps[app := info];
      CreateAll(self, app, info.partitions, Seen(cached, info).active);
    }

    /** `createEntities`. */
    method CreateAll(self: Node, app: string, partitions: nat, seen: bool)
      requires NoTies(rank) && self in members
      modifies this`entities, this`table
      ensures Core() == CreateEntities(old(Core()), rank, self, app, 0, partitions, seen)
    {
      hide NoTies, IsBest;
      var p := 0;
      while p < partitions
        invariant 0 <= p <= partitions
        invariant CreateEntities(Core(), rank, self, app, p, partitions, seen)
               == CreateEntities(old(Core()), rank, self, app, 0, partitions, seen)
      {
        var id := EntityId(app, p);
        table := table[id := Row(self, Stopped)];
        BootEntity(self, id, Row(self, Stopped), seen, true);
        p := p + 1;
      }
    }

    /** Stop every entity of a node before it is brought down. */
    method StopNode(self: Node)
      requires self in members && entities.Keys == members
      modifies this`entities, this`table
      ensures Core() == Placement.StopNode(old(Core()), self)
      ensures entities == old(entities)[self := {}]
      ensures forall id | id in old(entities)[self] :: id in table && table[id] == Row(self, Stopped)
      ensures forall id | id !in old(entities)[self] ::
        (id in table <==> id in old(table)) && (id in table ==> table[id] == old(table)[id])
    {
      var keys := entities[self];
      while keys != {}
        invariant self in entities && entities[self] == keys && members == old(members)
        invariant Placement.StopNode(Core(), self) == Placement.StopNode(old(Core()), self)
        decreases |keys|
      {
        var id :| id in keys;
        StopOneOfMany(Core(), self, id);
        var _ := StopEntity(self, id);
        keys := keys - {id};
      }
      assert Placement.StopNode(Core(), self).table == table;
      assert Placement.StopNode(Core(), self).entities == entities;
      StopNodeIs(old(Core()), self);
      hide Placement.StopNode;
    }

    /** A member leaves the ring, after `StopNode` if it leaves in good order. */
    method Leave(n: Node, graceful: bool)
      requires Valid() && n in members && !Unfinished(View(), n)
      modifies this
      ensures Valid() && View() == Next(old(View()), rank, if graceful then Shutdown(n) else Depart(n))
    {
      assert entities.Keys == members;
      StrictStepKeeps(View(), rank, if graceful then Shutdown(n) else Depart(n));
      hide Inv, Good, NoTies, Unfinished;
      if graceful {
        StopNode(n);
      }
      ghost var gone := Removed(View(), n);
      members, entities := members - {n}, entities - {n};
      joined, boots, removals, offloads := gone.joined, gone.boots, gone.removals, gone.offloads;
    }

    /** `GetAllEntitiesInfoOfNode`, the read that an offload starts from. */
    method ReadRemoved(self: Node, gone: Node) returns (ids: set<EntityId>)
      requires Valid() && (self, gone) in removals
      modifies this`removals, this`offloads
      ensures Valid() && self in members && View() == Next(old(View()), rank, ReadOffload(self, gone))
      ensures ids == set id | id in table && table[id].node == gone
      ensures removals == old(removals) - {(self, gone)} && offloads == old(offloads) + Chores(self, ids)
    {
      StrictStepKeeps(View(), rank, ReadOffload(self, gone));
      ids := set id | id in table && table[id].node == gone;
      removals, offloads := removals - {(self, gone)}, offloads + set id | id in ids :: (self, id);
      assert (set id | id in table && table[id].node == gone :: (self, id)) == set id | id in ids :: (self, id);
    }

    /** One round of the offload loop. */
    method OffloadNext(self: Node, id: EntityId)
      requires Valid() && self in members && (self, id) in offloads
      modifies this`entities, this`table, this`offloads
      ensures Valid() && View() == Next(old(View()), rank, OffloadOne(self, id, IsActive(old(View()), id)))
      ensures offloads == old(offloads) - {(self, id)}
    {
      assert (self, id) in offloads && Listed(View(), id);
      var seen := apps[id.app].active;
      StrictStepKeeps(View(), rank, OffloadOne(self, id, seen));
      if seen && Owner(rank, id, members) == self {
        StartEntity(self, id);
      }
      offloads := offloads - {(self, id)};
    }

    /** `OffloadOrPanic`: take over the entities of a removed node that this node now owns. */
    method Offload(self: Node, gone: Node)
      requires Valid() && (self, gone) in removals
      requires forall id :: (self, id) !in offloads
      modifies this
      ensures Valid() && members == old(members) && apps == old(apps)
      ensures removals == old(removals) - {(self, gone)} && offloads == old(offloads)
      ensures joined == old(joined) && boots == old(boots)
    {
      hide Inv, Good, NoTies, Next, IsActive;
      var ids := ReadRemoved(self, gone);
      while ids != {}
        invariant Valid() && self in members && members == old(members) && apps == old(apps)
        invariant joined == old(joined) && boots == old(boots) && removals == old(removals) - {(self, gone)}
        invariant offloads == old(offloads) + Chores(self, ids)
        decreases |ids|
      {
        var id :| id in ids;
        assert (self, id) in offloads && Chores(self, ids - {id}) == Chores(self, ids) - {(self, id)};
        OffloadNext(self, id);
        ids := ids - {id};
      }
    }

    /** A node leaves an otherwise idle cluster and every survivor offloads it, in
        whatever order: the cluster is settled again. */
    method LeaveAndOffload(n: Node, graceful: bool, survivors: seq<Node>)
      requires Valid() && Idle(View()) && n in members
      requires multiset(survivors) == multiset(members - {n}) && survivors != []
      modifies this
      ensures Valid() && Idle(View()) && members == old(members) - {n} && apps == old(apps)
      ensures Settled(View(), rank)
    {
      hide Inv, Good, NoTies;
      Leave(n, graceful);
      assert forall m :: m in multiset(survivors) <==> m in survivors;
      assert survivors[0..] == survivors;
      assert removals == Duties(survivors, n);
      hide Settled;
      var i := 0;
      while i < |survivors|
        invariant 0 <= i <= |survivors|
        invariant Valid() && members == old(members) - {n} && apps == old(apps)
        invariant joined == {} && offloads == {} && forall k | k in boots :: boots[k] == map[]
        invariant removals == Duties(survivors[i..], n)
      {
        var m := survivors[i];
        NextSurvivor(survivors, members, n, i);
        Offload(m, n);
        i := i + 1;
      }
      assert survivors[0] in multiset(survivors);
      IdleIsSettled(View(), rank);
    }
  }

  /** Where every partition ran only on its owner, stopping each there stops it everywhere. */
  lemma StoppedEverywhere(s: System, rank: Ranking, app: string)
    requires NoTies(rank) && Inv(s, rank) && Good(s, rank) && Idle(s) && s.c.members != {}
    requires app in s.apps && s.apps[app].active
    ensures forall p | 0 <= p < s.apps[app].partitions ::
              Quiet(StopApp(s.c, rank, app, 0, s.apps[app].partitions), EntityId(app, p))
  {
    IdleIsSettled(s, rank);
    var n := s.apps[app].partitions;
    forall p, k | 0 <= p < n ensures EntityId(app, p) !in Hosted(StopApp(s.c, rank, app, 0, n), k) {
      var id := EntityId(app, p);
      StopAppEffect(s.c, rank, app, 0, n, k, id);
      assert id in Hosted(s.c, k) ==> id in s.c.table;
    }
  }

  lemma StopNodeIs(c: Cluster, n: Node)
    requires n in c.entities
    ensures var r := Placement.StopNode(c, n);
      && r.entities == c.entities[n := {}]
      && (forall id | id in c.entities[n] :: id in r.table && r.table[id] == Row(n, Stopped))
      && (forall id | id !in c.entities[n] ::
            (id in r.table <==> id in c.table) && (id in r.table ==> r.table[id] == c.table[id]))
  {
  }

  lemma StopOneOfMany(c: Cluster, n: Node, id: EntityId)
    requires id in Hosted(c, n)
    ensures Placement.StopNode(Placement.StopEntity(c, n, id), n) == Placement.StopNode(c, n)
  {
  }

  ghost function Chores(self: Node, ids: set<EntityId>): set<(Node, EntityId)> { set id | id in ids :: (self, id) }

  lemma SameBoots(before: map<Node, map<EntityId, Row>>, self: Node, was: map<EntityId, Row>, rows: map<EntityId, Row>)
    ensures before[self := was][self := rows] == before[self := rows]
  {
  }

  /** The offloads of `n` that these nodes have still to do. */
  ghost function Duties(nodes: seq<Node>, n: Node): set<(Node, Node)> { set m | m in nodes :: (m, n) }

  lemma NextSurvivor(survivors: seq<Node>, all: set<Node>, n: Node, i: nat)
    requires multiset(survivors) == multiset(all) && i < |survivors|
    ensures (survivors[i], n) in Duties(survivors[i..], n)
    ensures Duties(survivors[i + 1..], n) == Duties(survivors[i..], n) - {(survivors[i], n)}
  {
    NoRepeats(survivors, all, i);
    assert survivors[i..] == [survivors[i]] + survivors[i + 1..];
  }

  /** A sequence that enumerates a set has its element at `i` only once. */
  lemma NoRepeats(s: seq<Node>, all: set<Node>, i: nat)
    requires multiset(s) == multiset(all) && i < |s|
    ensures s[i] !in s[i + 1..]
  {
    assert s == s[..i] + [s[i]] + s[i + 1..];
    assert multiset(s)[s[i]] <= 1;
  }

  ghost function Counting(hops: nat, r: Forwarded): Forwarded { Forwarded(r.c, hops + r.hops) }

  /** A request for several ids, and the forwards it causes: at most one for each. */
  ghost function StartAll(c: Cluster, rank: Ranking, at: Node, ids: seq<EntityId>): (r: Forwarded)
    requires NoTies(rank) && c.members != {}
    ensures r.c.members == c.members && r.hops <= |ids|
    decreases |ids|
  {
    if ids == [] then Forwarded(c, 0)
    else
      var first := StartRequest(c, rank, at, ids[0]);
      Counting(first.hops, StartAll(first.c, rank, at, ids[1..]))
  }

  ghost function StopAll(c: Cluster, rank: Ranking, at: Node, ids: seq<EntityId>): (r: Forwarded)
    requires NoTies(rank) && c.members != {}
    ensures r.c.members == c.members && r.hops <= |ids|
    decreases |ids|
  {
    if ids == [] then Forwarded(c, 0)
    else
      var first := StopRequest(c, rank, at, ids[0]);
      Counting(first.hops, StopAll(first.c, rank, at, ids[1..]))
  }

  lemma NoneLeft(c: Cluster, rank: Ranking, at: Node, ids: seq<EntityId>)
    requires NoTies(rank) && c.members != {}
    ensures ids[0..] == ids && ids[|ids|..] == []
    ensures StartAll(c, rank, at, []) == Forwarded(c, 0) && StopAll(c, rank, at, []) == Forwarded(c, 0)
  {
  }

  lemma StartAllCons(c: Cluster, rank: Ranking, at: Node, ids: seq<EntityId>, i: nat)
    requires NoTies(rank) && c.members != {} && i < |ids|
    ensures var first := StartRequest(c, rank, at, ids[i]);
      StartAll(c, rank, at, ids[i..]) == Counting(first.hops, StartAll(first.c, rank, at, ids[i + 1..]))
  {
    assert ids[i..][1..] == ids[i + 1..];
  }

  lemma StartAllOne(c: Cluster, rank: Ranking, at: Node, id: EntityId)
    requires NoTies(rank) && c.members != {}
    ensures StartAll(c, rank, at, [id]) == StartRequest(c, rank, at, id)
  {
    assert [id][1..] == [];
  }

  lemma StopAllCons(c: Cluster, rank: Ranking, at: Node, ids: seq<EntityId>, i: nat)
    requires NoTies(rank) && c.members != {} && i < |ids|
    ensures var first := StopRequest(c, rank, at, ids[i]);
      StopAll(c, rank, at, ids[i..]) == Counting(first.hops, StopAll(first.c, rank, at, ids[i + 1..]))
  {
    assert ids[i..][1..] == ids[i + 1..];
  }

  lemma StopAllOne(c: Cluster, rank: Ranking, at: Node, id: EntityId)
    requires NoTies(rank) && c.members != {}
    ensures StopAll(c, rank, at, [id]) == StopRequest(c, rank, at, id)
  {
    assert [id][1..] == [];
  }
}
