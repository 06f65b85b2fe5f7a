/** When a node may leave: exactly which departures let the remaining work settle the
    cluster, whatever the node had begun itself. */
module PlacementDepartures {
  import opened Ring
  import opened Placement
  import opened PlacementSafety
  import opened PlacementConvergence

  /** Each entity of an active app that `n` owns has a row that names `n`, or already
      runs on its next owner, or is part of work that its next owner has begun. */
  ghost predicate Harmless(s: System, rank: Ranking, n: Node)
    requires NoTies(rank) && s.c.members - {n} != {}
  {
    forall id :: id in s.c.table && IsActive(s, id) && Owner(rank, id, s.c.members) == n ==>
      var heir := Owner(rank, id, s.c.members - {n});
      s.c.table[id].node == n || id in Hosted(s.c, heir) || Owed(s, heir, id)
  }

  ghost function Left(s: System, rank: Ranking, n: Node, graceful: bool): System
    requires NoTies(rank) && n in s.c.members
  {
    Next(s, rank, if graceful then Shutdown(n) else Depart(n))
  }

  /** What a departure changes: the node's map, and who has to offload it. */
  lemma LeftIs(s: System, rank: Ranking, n: Node, graceful: bool)
    requires NoTies(rank) && Inv(s, rank) && n in s.c.members
    ensures var s' := Left(s, rank, n, graceful);
            && s'.c.members == s.c.members - {n} && s'.apps == s.apps && s'.c.table.Keys == s.c.table.Keys
            && (forall k :: Hosted(s'.c, k) == if k == n then {} else Hosted(s.c, k))
            && (forall id | id in s.c.table :: s'.c.table[id].node == s.c.table[id].node)
            && (forall m, id | m in s'.c.members && id in s.c.table ::
                  Owed(s', m, id) <==> Owed(s, m, id) || s.c.table[id].node == n)
  {
    var s' := Left(s, rank, n, graceful);
    assert forall id | id in Hosted(s.c, n) :: id in s.c.table && s.c.table[id].node == n;
    assert forall k :: Hosted(s'.c, k) == if k == n then {} else Hosted(s.c, k);
    forall m, id | m in s'.c.members && id in s.c.table
      ensures Owed(s', m, id) <==> Owed(s, m, id) || s.c.table[id].node == n
    {
      var d := s.c.table[id].node;
      assert (m, d) in s'.removals <==> (m, d) in s.removals || d == n;
    }
  }

  /** After a departure some node is responsible for every entity exactly if it was harmless. */
  lemma LeavesGoodIff(s: System, rank: Ranking, n: Node, graceful: bool)
    requires NoTies(rank) && Inv(s, rank) && Good(s, rank) && n in s.c.members && s.c.members - {n} != {}
    ensures Good(Left(s, rank, n, graceful), rank) <==> Harmless(s, rank, n)
  {
    hide Inv;
    var s' := Left(s, rank, n, graceful);
    LeftIs(s, rank, n, graceful);
    hide Left, NoTies, Owed;
    forall id | id in s.c.table
      ensures !IsActive(s, id) ==> Quiet(s'.c, id)
      ensures IsActive(s, id) && Owner(rank, id, s.c.members) != n ==> Handled(s', rank, id)
      ensures IsActive(s, id) && Owner(rank, id, s.c.members) == n ==>
        var heir := Owner(rank, id, s.c.members - {n});
        (Handled(s', rank, id) <==> s.c.table[id].node == n || id in Hosted(s.c, heir) || Owed(s, heir, id))
    {
      assert if IsActive(s, id) then Handled(s, rank, id) else Quiet(s.c, id);
      OwnerAfterLeave(rank, id, s.c.members, n);
    }
    hide Handled, Quiet;
    if Good(s', rank) {
      assert Harmless(s, rank, n);
    }
    if Harmless(s, rank, n) {
      forall id | id in s'.c.table ensures if IsActive(s', id) then Handled(s', rank, id) else Quiet(s'.c, id) {
        assert id in s.c.table;
      }
    }
  }

  // Entities that nobody is responsible for

  ghost predicate Stranded(s: System, rank: Ranking, id: EntityId)
    requires NoTies(rank)
  {
    && s.c.members != {} && id in s.c.table && IsActive(s, id)
    && !Handled(s, rank, id)
  }

  /** The steps of boots and offloads under way. */
  predicate IsWork(step: Step) { step.ReadBoot? || step.BootOne? || step.ReadOffload? || step.OffloadOne? }

  /** Work under way never takes up an entity that nobody is responsible for. */
  lemma WorkKeepsStranded(s: System, rank: Ranking, step: Step, id: EntityId)
    requires NoTies(rank) && Enabled(s, step) && IsWork(step) && Stranded(s, rank, id)
    ensures Stranded(Next(s, rank, step), rank, id)
  {
    var o := Owner(rank, id, s.c.members);
    match step
    case BootOne(n, i, seen) =>
      BootEffect(s.c, rank, n, i, s.boots[n][i], seen);
      if i == id { assert n != o; }
      assert forall k :: id in Hosted(Next(s, rank, step).c, k) <==> id in Hosted(s.c, k);
    case OffloadOne(n, i, seen) =>
      if i == id { assert n != o; }
      assert forall k :: id in Hosted(Next(s, rank, step).c, k) <==> id in Hosted(s.c, k);
    case _ =>
  }

  lemma {:induction false} RunKeepsStranded(s: System, rank: Ranking, steps: seq<Step>, id: EntityId)
    requires NoTies(rank) && Run(s, rank, steps, Strict) && Stranded(s, rank, id)
    requires forall i | 0 <= i < |steps| :: IsWork(steps[i])
    ensures Stranded(After(s, rank, steps, Strict), rank, id)
    decreases |steps|
  {
    if steps != [] {
      assert IsWork(steps[0]);
      WorkKeepsStranded(s, rank, steps[0], id);
      RunKeepsStranded(Next(s, rank, steps[0]), rank, steps[1..], id);
    }
  }

  /** A node leaves at any moment, in the middle of its own boot or offload if it so
      happens, and the others finish all work: the cluster is settled exactly if the
      departure was harmless, however their steps interleaved. */
  lemma DepartureSettlesIff(s: System, rank: Ranking, n: Node, graceful: bool, steps: seq<Step>)
    requires NoTies(rank) && Inv(s, rank) && Good(s, rank) && n in s.c.members && s.c.members - {n} != {}
    requires Run(Left(s, rank, n, graceful), rank, steps, Strict)
    requires forall i | 0 <= i < |steps| :: IsWork(steps[i])
    requires Idle(After(Left(s, rank, n, graceful), rank, steps, Strict))
    ensures Settled(After(Left(s, rank, n, graceful), rank, steps, Strict), rank) <==> Harmless(s, rank, n)
  {
    hide *;
    var s1 := Left(s, rank, n, graceful);
    var s2 := After(s1, rank, steps, Strict);
    LeavesGoodIff(s, rank, n, graceful);
    LeftKeepsInv(s, rank, n, graceful);
    WorkKeepsMembers(s1, rank, steps);
    if Good(s1, rank) {
      StrictRunKeeps(s1, rank, steps);
      IdleIsSettled(s2, rank);
    } else {
      var id := BadStrands(s, rank, n, graceful);
      RunKeepsStranded(s1, rank, steps, id);
      StrandedIsUnsettled(s2, rank, id);
    }
  }

  lemma LeftKeepsInv(s: System, rank: Ranking, n: Node, graceful: bool)
    requires NoTies(rank) && Inv(s, rank) && n in s.c.members
    ensures Inv(Left(s, rank, n, graceful), rank) && Left(s, rank, n, graceful).c.members == s.c.members - {n}
  {
    hide Inv;
    StepKeepsInv(s, rank, if graceful then Shutdown(n) else Depart(n));
  }

  lemma StrandedIsUnsettled(s: System, rank: Ranking, id: EntityId)
    requires NoTies(rank) && Stranded(s, rank, id)
    ensures !Settled(s, rank)
  {
  }

  lemma BadStrands(s: System, rank: Ranking, n: Node, graceful: bool) returns (id: EntityId)
    requires NoTies(rank) && Inv(s, rank) && Good(s, rank) && n in s.c.members && s.c.members - {n} != {}
    requires !Good(Left(s, rank, n, graceful), rank)
    ensures Stranded(Left(s, rank, n, graceful), rank, id)
  {
    hide Inv;
    var s1 := Left(s, rank, n, graceful);
    LeftIs(s, rank, n, graceful);
    hide Left, NoTies, Owed;
    id :| id in s1.c.table && !(if IsActive(s1, id) then Handled(s1, rank, id) else Quiet(s1.c, id));
    if !IsActive(s1, id) { StillQuiet(s, rank, n, graceful, id); }
  }

  lemma StillQuiet(s: System, rank: Ranking, n: Node, graceful: bool, id: EntityId)
    requires NoTies(rank) && Inv(s, rank) && Good(s, rank) && n in s.c.members && id in s.c.table && !IsActive(s, id)
    ensures Quiet(Left(s, rank, n, graceful).c, id)
  {
    LeftIs(s, rank, n, graceful);
    assert Quiet(s.c, id);
  }

  lemma {:induction false} WorkKeepsMembers(s: System, rank: Ranking, steps: seq<Step>)
    requires NoTies(rank) && Run(s, rank, steps, Strict) && forall i | 0 <= i < |steps| :: IsWork(steps[i])
    ensures After(s, rank, steps, Strict).c.members == s.c.members
    decreases |steps|
  {
    if steps != [] {
      assert IsWork(steps[0]);
      WorkKeepsMembers(Next(s, rank, steps[0]), rank, steps[1..]);
    }
  }

  /** A node with no work of its own always leaves harmlessly. */
  lemma FinishedIsHarmless(s: System, rank: Ranking, n: Node)
    requires NoTies(rank) && Inv(s, rank) && Good(s, rank) && n in s.c.members && s.c.members - {n} != {}
    requires !Unfinished(s, n)
    ensures Harmless(s, rank, n)
  {
    forall id | id in s.c.table && IsActive(s, id) && Owner(rank, id, s.c.members) == n
      ensures s.c.table[id].node == n
    {
      assert Handled(s, rank, id);
      assert id in Hosted(s.c, n);
    }
  }
}
