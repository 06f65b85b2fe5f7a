/** The consistent-hash ring, seen only through what placement relies on: every
    entity ranks the nodes, no two nodes tie, and the owner of an entity is its
    best-ranked current member. */
module Ring {
  type Node = string

  /** An entity (poller) id. `PollerId` proves that the string form of such an
      id determines the pair. */
  datatype EntityId = EntityId(app: string, partition: nat)

  type Ranking = (EntityId, Node) -> nat

  ghost predicate NoTies(rank: Ranking) {
    forall id, a, b :: rank(id, a) == rank(id, b) ==> a == b
  }

  ghost predicate IsBest(rank: Ranking, id: EntityId, members: set<Node>, o: Node) {
    o in members && forall k | k in members :: rank(id, o) <= rank(id, k)
  }

  lemma {:induction false} BestExists(rank: Ranking, id: EntityId, members: set<Node>)
    requires members != {}
    ensures exists o :: IsBest(rank, id, members, o)
    decreases |members|
  {
    var a :| a in members;
    if members == {a} {
      assert IsBest(rank, id, members, a);
    } else {
      var rest := members - {a};
      assert rest != {};
      BestExists(rank, id, rest);
      var b :| IsBest(rank, id, rest, b);
      var o := if rank(id, a) <= rank(id, b) then a else b;
      assert forall k | k in members :: k == a || k in rest;
      assert IsBest(rank, id, members, o);
    }
  }

  /** `ringpop.Lookup`: the member that owns an entity. */
  function Owner(rank: Ranking, id: EntityId, members: set<Node>): (o: Node)
    requires NoTies(rank) && members != {}
    ensures IsBest(rank, id, members, o)
  {
    BestExists(rank, id, members);
    var o :| o in members && forall k | k in members :: rank(id, o) <= rank(id, k);
    o
  }

  lemma OwnerIs(rank: Ranking, id: EntityId, members: set<Node>, o: Node)
    requires NoTies(rank) && IsBest(rank, id, members, o)
    ensures Owner(rank, id, members) == o
  {
  }

  /** A node that joins takes over the entities it ranks best for and moves no other. */
  lemma OwnerAfterJoin(rank: Ranking, id: EntityId, members: set<Node>, n: Node)
    requires NoTies(rank) && members != {}
    ensures Owner(rank, id, members + {n}) in {n, Owner(rank, id, members)}
  {
    var o := Owner(rank, id, members + {n});
    if o != n {
      assert IsBest(rank, id, members, o);
    }
  }

  /** A node that leaves moves only the entities it owned. */
  lemma OwnerAfterLeave(rank: Ranking, id: EntityId, members: set<Node>, n: Node)
    requires NoTies(rank) && members - {n} != {}
    ensures Owner(rank, id, members) != n ==> Owner(rank, id, members - {n}) == Owner(rank, id, members)
  {
    var o := Owner(rank, id, members);
    if o != n {
      OwnerIs(rank, id, members - {n}, o);
    }
  }
}
