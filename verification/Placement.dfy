/** Poller placement as a transition system: what each supervisor does to its own
    `entities` map and to the shared entity table, and the work its loops still
    hold (boot snapshots, removal events, offload reads). */
module Placement {
  import opened Ring

  datatype Status = Stopped | Running

  /** A row of the entity table. */
  datatype Row = Row(node: Node, status: Status)

  datatype App = App(partitions: nat, active: bool)

  /** Live members, the `entities` map of every node, and the entity table. */
  datatype Cluster = Cluster(
    members: set<Node>,
    entities: map<Node, set<EntityId>>,
    table: map<EntityId, Row>)

  function Hosted(c: Cluster, n: Node): set<EntityId> {
    if n in c.entities then c.entities[n] else {}
  }

  function StartEntity(c: Cluster, n: Node, id: EntityId): Cluster {
    c.(entities := c.entities[n := Hosted(c, n) + {id}],
       table := c.table[id := Row(n, Running)])
  }

  function StopEntity(c: Cluster, n: Node, id: EntityId): Cluster {
    if id in Hosted(c, n) then
      c.(entities := c.entities[n := Hosted(c, n) - {id}],
         table := c.table[id := Row(n, Stopped)])
    else
      c
  }

  /** What a request for one id leads to: the cluster, and how often it was forwarded. */
  datatype Forwarded = Forwarded(c: Cluster, hops: nat)

  /** `StartEntities` for one id: start it here if this node owns it, else forward. */
  function StartRequest(c: Cluster, rank: Ranking, at: Node, id: EntityId): (r: Forwarded)
    requires NoTies(rank) && c.members != {}
    ensures r.c == StartEntity(c, Owner(rank, id, c.members), id)
    ensures r.hops == if at == Owner(rank, id, c.members) then 0 else 1
    decreases if at == Owner(rank, id, c.members) then 0 else 1
  {
    var dest := Owner(rank, id, c.members);
    if dest == at then Forwarded(StartEntity(c, at, id), 0)
    else
      var r := StartRequest(c, rank, dest, id);
      Forwarded(r.c, r.hops + 1)
  }

  function StartForwarded(c: Cluster, rank: Ranking, at: Node, id: EntityId): Cluster
    requires NoTies(rank) && c.members != {}
  {
    StartRequest(c, rank, at, id).c
  }

  /** `StopEntities` for one id: stop it here if it is here, else forward to the owner. */
  function StopRequest(c: Cluster, rank: Ranking, at: Node, id: EntityId): (r: Forwarded)
    requires NoTies(rank) && c.members != {}
    ensures r.c == StopEntity(c, if id in Hosted(c, at) then at else Owner(rank, id, c.members), id)
    ensures r.hops == if id in Hosted(c, at) || at == Owner(rank, id, c.members) then 0 else 1
    decreases if at == Owner(rank, id, c.members) then 0 else 1
  {
    var dest := Owner(rank, id, c.members);
    if id in Hosted(c, at) then Forwarded(StopEntity(c, at, id), 0)
    else if at == dest then Forwarded(c, 0)
    else
      var r := StopRequest(c, rank, dest, id);
      Forwarded(r.c, r.hops + 1)
  }

  function StopForwarded(c: Cluster, rank: Ranking, at: Node, id: EntityId): Cluster
    requires NoTies(rank) && c.members != {}
  {
    StopRequest(c, rank, at, id).c
  }

  /** `BootEntity`: `seen` is the active flag the node read for the app. */
  function BootEntity(
      c: Cluster, rank: Ranking, self: Node, id: EntityId, row: Row, seen: bool, forward: bool): (r: Cluster)
    requires NoTies(rank) && c.members != {}
    ensures r.members == c.members
  {
    if !seen then c
    else if Owner(rank, id, c.members) == self then
      var quiet := if row.status == Running && row.node in c.members && row.node != self
                   then StopForwarded(c, rank, row.node, id) else c;
      StartEntity(quiet, self, id)
    else if forward then StartForwarded(c, rank, row.node, id)
    else c
  }

  /** `StopNode`: every entity of the node is stopped. */
  function StopNode(c: Cluster, n: Node): Cluster {
    c.(entities := c.entities[n := {}],
       table := map id | id in c.table.Keys + Hosted(c, n) ::
         if id in Hosted(c, n) then Row(n, Stopped) else c.table[id])
  }

  /** `createEntities` from partition `p` on; `seen` is the active flag that the node's
      cache, or else the app table, holds for the app. */
  function CreateEntities(
      c: Cluster, rank: Ranking, at: Node, app: string, p: nat, partitions: nat, seen: bool): (r: Cluster)
    requires NoTies(rank) && c.members != {}
    ensures r.members == c.members
    decreases partitions - p
  {
    if p >= partitions then c
    else
      var id := EntityId(app, p);
      var c1 := c.(table := c.table[id := Row(at, Stopped)]);
      var c2 := BootEntity(c1, rank, at, id, Row(at, Stopped), seen, true);
      CreateEntities(c2, rank, at, app, p + 1, partitions, seen)
  }

  /** `ActivateApp` from partition `p` on: start each partition on its owner. */
  function StartApp(c: Cluster, rank: Ranking, app: string, p: nat, partitions: nat): (r: Cluster)
    requires NoTies(rank) && c.members != {}
    ensures r.members == c.members
    decreases partitions - p
  {
    if p >= partitions then c
    else
      var id := EntityId(app, p);
      StartApp(StartForwarded(c, rank, Owner(rank, id, c.members), id), rank, app, p + 1, partitions)
  }

  /** `DeactivateApp` from partition `p` on: stop each partition on its owner. */
  function StopApp(c: Cluster, rank: Ranking, app: string, p: nat, partitions: nat): (r: Cluster)
    requires NoTies(rank) && c.members != {}
    ensures r.members == c.members
    decreases partitions - p
  {
    if p >= partitions then c
    else
      var id := EntityId(app, p);
      StopApp(StopForwarded(c, rank, Owner(rank, id, c.members), id), rank, app, p + 1, partitions)
  }

  /** A cluster together with the work that its nodes have begun and not finished. */
  datatype System = System(
    c: Cluster,
    apps: map<string, App>,
    joined: set<Node>,                      // members that have not read the table yet
    boots: map<Node, map<EntityId, Row>>,   // rows each Boot loop has still to handle
    removals: set<(Node, Node)>,            // (m, d): m has still to offload d
    offloads: set<(Node, EntityId)>)        // ids each offload loop has still to handle

  datatype Step =
    | Join(n: Node)
    | ReadBoot(n: Node)
    | BootOne(n: Node, id: EntityId, seen: bool)
    | Depart(n: Node)
    | StopOne(n: Node, id: EntityId)
    | Shutdown(n: Node)
    | ReadOffload(n: Node, gone: Node)
    | OffloadOne(n: Node, id: EntityId, seen: bool)
    | Register(n: Node, app: string, info: App)
    | RegisterAgain(n: Node, app: string, info: App, seen: bool)
    | Activate(app: string)
    | Deactivate(app: string)

  /** No node still has boot or offload work. */
  ghost predicate Idle(s: System) {
    && s.joined == {} && s.removals == {} && s.offloads == {}
    && forall n | n in s.boots :: s.boots[n] == map[]
  }

  ghost predicate Unfinished(s: System, n: Node) {
    || n in s.joined
    || (n in s.boots && s.boots[n] != map[])
    || (exists d :: (n, d) in s.removals)
    || (exists id :: (n, id) in s.offloads)
  }

  ghost predicate Enabled(s: System, step: Step) {
    match step
    case Join(n) => n !in s.c.members
    case ReadBoot(n) => n in s.joined
    case BootOne(n, id, _) => n in s.c.members && n in s.boots && id in s.boots[n]
    case Depart(n) => n in s.c.members
    case StopOne(n, id) => n in s.c.members
    case Shutdown(n) => n in s.c.members
    case ReadOffload(n, d) => (n, d) in s.removals
    case OffloadOne(n, id, _) => n in s.c.members && (n, id) in s.offloads
    case Register(n, app, info) => n in s.c.members && app !in s.apps
    case RegisterAgain(n, app, info, _) => n in s.c.members && app in s.apps
    case Activate(app) => s.c.members != {} && app in s.apps && !s.apps[app].active
    case Deactivate(app) => s.c.members != {} && app in s.apps && s.apps[app].active
  }

  /** The member `n` leaves the ring; every other member will offload it. */
  function Removed(s: System, n: Node): System {
    System(
      Cluster(s.c.members - {n}, s.c.entities - {n}, s.c.table),
      s.apps,
      s.joined - {n},
      s.boots - {n},
      (set e | e in s.removals && e.0 != n) + (set m | m in s.c.members && m != n :: (m, n)),
      set e | e in s.offloads && e.0 != n)
  }

  ghost function Next(s: System, rank: Ranking, step: Step): System
    requires NoTies(rank) && Enabled(s, step)
  {
    match step
    case Join(n) =>
      s.(c := Cluster(s.c.members + {n}, s.c.entities[n := {}], s.c.table), joined := s.joined + {n})
    case ReadBoot(n) =>
      s.(joined := s.joined - {n}, boots := s.boots[n := s.c.table])
    case BootOne(n, id, seen) =>
      s.(c := BootEntity(s.c, rank, n, id, s.boots[n][id], seen, false), boots := s.boots[n := s.boots[n] - {id}])
    case Depart(n) => Removed(s, n)
    case StopOne(n, id) => s.(c := StopEntity(s.c, n, id))
    case Shutdown(n) => Removed(s.(c := StopNode(s.c, n)), n)
    case ReadOffload(n, d) =>
      s.(removals := s.removals - {(n, d)},
         offloads := s.offloads + set id | id in s.c.table && s.c.table[id].node == d :: (n, id))
    case OffloadOne(n, id, seen) =>
      s.(c := if seen && Owner(rank, id, s.c.members) == n then StartEntity(s.c, n, id) else s.c,
         offloads := s.offloads - {(n, id)})
    case Register(n, app, info) =>
      s.(c := CreateEntities(s.c, rank, n, app, 0, info.partitions, info.active), apps := s.apps[app := info])
    case RegisterAgain(n, app, info, seen) =>
      s.(c := CreateEntities(s.c, rank, n, app, 0, info.partitions, seen), apps := s.apps[app := info])
    case Activate(app) =>
      s.(c := StartApp(s.c, rank, app, 0, s.apps[app].partitions),
         apps := s.apps[app := s.apps[app].(active := true)])
    case Deactivate(app) =>
      s.(c := StopApp(s.c, rank, app, 0, s.apps[app].partitions),
         apps := s.apps[app := s.apps[app].(active := false)])
  }

  /** No live node runs a partition of `app` that it does not own. */
  ghost predicate OnlyOnOwners(c: Cluster, rank: Ranking, app: string, partitions: nat)
    requires NoTies(rank) && c.members != {}
  {
    forall k, id: EntityId ::
      id.app == app && id.partition < partitions && id in Hosted(c, k) ==> k == Owner(rank, id, c.members)
  }

  /** No live node runs one of these partitions, unless the registering node sees the app as
      active and they run only on their owners. */
  ghost predicate Overwritable(c: Cluster, rank: Ranking, app: string, partitions: nat, seen: bool)
    requires NoTies(rank) && c.members != {}
  {
    forall k, id: EntityId :: id.app == app && id.partition < partitions && id in Hosted(c, k) ==>
      seen && k == Owner(rank, id, c.members)
  }

  /** `Loose` runs let any node depart or stop entities at any time and let the
      active flag a node reads be stale; an app is activated only while none of its
      partitions runs off its owner, and registered again, with any number of partitions
      and any flag, only while that overwrites no row it should not. In `Strict`
      runs a node departs only after finishing its own boot and offload work, flags
      are read coherently, and apps are switched only while no node has work. */
  datatype Discipline = Loose | Strict

  ghost predicate Allowed(s: System, rank: Ranking, step: Step, d: Discipline)
    requires NoTies(rank)
  {
    && Enabled(s, step)
    && match d
       case Loose =>
         && (step.Activate? ==> OnlyOnOwners(s.c, rank, step.app, s.apps[step.app].partitions))
         && (step.RegisterAgain? ==> Overwritable(s.c, rank, step.app, step.info.partitions, step.seen))
       case Strict =>
         match step
         case Join(_) | ReadBoot(_) | ReadOffload(_, _) | Register(_, _, _) => true
         case BootOne(_, id, seen) => seen == IsActive(s, id)
         case OffloadOne(_, id, seen) => seen == IsActive(s, id)
         case Depart(n) => !Unfinished(s, n)
         case Shutdown(n) => !Unfinished(s, n)
         case StopOne(_, _) => false
         case RegisterAgain(_, _, _, _) => false
         case Activate(_) | Deactivate(_) => Idle(s)
  }

  predicate IsActive(s: System, id: EntityId) {
    id.app in s.apps && s.apps[id.app].active
  }

  ghost predicate Run(s: System, rank: Ranking, steps: seq<Step>, d: Discipline)
    requires NoTies(rank)
    decreases |steps|
  {
    steps == [] || (Allowed(s, rank, steps[0], d) && Run(Next(s, rank, steps[0]), rank, steps[1..], d))
  }

  ghost function After(s: System, rank: Ranking, steps: seq<Step>, d: Discipline): System
    requires NoTies(rank) && Run(s, rank, steps, d)
    decreases |steps|
  {
    if steps == [] then s else After(Next(s, rank, steps[0]), rank, steps[1..], d)
  }
}
