/** The per-node cache of app records: read and stored on first use, dropped when an
    app-update broadcast arrives. A read and the storing of what it read are two steps. */
module AppCache {
  type Node = string

  datatype Option<T> = None | Some(value: T)

  /** A write of an app's flag and the broadcast that follows it: the nodes it has still
      to reach, those it has reached, and whether messages of it will never arrive. A
      registration is a write that is broadcast to nobody. */
  datatype Write = Write(from: Node, app: string, waiting: set<Node>, reached: set<Node>, lost: bool)

  /** A record read by `n` and not yet stored in its cache; `since` is the number of
      writes that preceded the read. */
  datatype Read = Read(n: Node, app: string, flag: bool, since: nat)

  /** The active flags in the app table, each member's cached copies, the reads in
      flight, and the writes so far. */
  datatype State = State(
    table: map<string, bool>,
    caches: map<Node, map<string, bool>>,
    inFlight: seq<Read>,
    writes: seq<Write>)

  datatype Step =
    | Join(n: Node)
    | Depart(n: Node)
    | Register(n: Node, app: string, active: bool)
    | Switch(n: Node, app: string, active: bool)
    | Deliver(i: nat, n: Node)
    | Load(n: Node, app: string)
    | Fetch(n: Node, app: string)
    | Keep(i: nat)

  /** `GetApp`: the cached record if there is one, else the stored one, which is then cached. */
  function AfterGet(m: map<string, bool>, table: map<string, bool>, app: string): map<string, bool> {
    if app in m || app !in table then m else m[app := table[app]]
  }

  ghost predicate Enabled(s: State, step: Step) {
    match step
    case Join(n) => n !in s.caches
    case Depart(n) => n in s.caches
    case Register(n, _, _) => n in s.caches
    case Switch(n, app, _) => n in s.caches && app in s.table
    case Deliver(i, n) => i < |s.writes| && n in s.writes[i].waiting && n in s.caches
    case Load(n, app) => n in s.caches && app in s.table
    case Fetch(n, app) => n in s.caches && app in s.table
    case Keep(i) => i < |s.inFlight|
  }

  /** A write as the departure of `n` leaves it: if `n` sent it, what is under way is lost. */
  function Orphaned(w: Write, n: Node): Write {
    if w.from == n then w.(waiting := {}, lost := w.lost || w.waiting - {n} != {}) else w.(waiting := w.waiting - {n})
  }

  function ReadsWithout(list: seq<Read>, n: Node): seq<Read> {
    if list == [] then []
    else (if list[0].n == n then [] else [list[0]]) + ReadsWithout(list[1..], n)
  }

  ghost function Next(s: State, step: Step): State
    requires Enabled(s, step)
  {
    match step
    case Join(n) => s.(caches := s.caches[n := map[]])
    case Depart(n) =>
      State(s.table, s.caches - {n}, ReadsWithout(s.inFlight, n),
            seq(|s.writes|, i requires 0 <= i < |s.writes| => Orphaned(s.writes[i], n)))
    case Register(n, app, active) =>
      s.(table := s.table[app := active], writes := s.writes + [Write(n, app, {}, {}, true)])
    case Switch(n, app, active) =>
      s.(table := s.table[app := active], writes := s.writes + [Write(n, app, s.caches.Keys, {}, false)])
    case Deliver(i, n) =>
      var w := s.writes[i];
      s.(caches := s.caches[n := s.caches[n] - {w.app}],
         writes := s.writes[i := w.(waiting := w.waiting - {n}, reached := w.reached + {n})])
    case Load(n, app) => s.(caches := s.caches[n := AfterGet(s.caches[n], s.table, app)])
    case Fetch(n, app) => s.(inFlight := s.inFlight + [Read(n, app, s.table[app], |s.writes|)])
    case Keep(i) =>
      var r := s.inFlight[i];
      s.(caches := if r.n in s.caches then s.caches[r.n := s.caches[r.n][r.app := r.flag]] else s.caches,
         inFlight := s.inFlight[..i] + s.inFlight[i + 1..])
  }

  // Coherence

  /** A broadcast for `app` has still to reach `n`. */
  ghost predicate Pending(s: State, n: Node, app: string) {
    exists i :: 0 <= i < |s.writes| && s.writes[i].app == app && n in s.writes[i].waiting
  }

  /** A cached flag that differs from the table with nothing under way to remove it. */
  ghost predicate StaleForGood(s: State, n: Node, app: string) {
    && n in s.caches && app in s.caches[n]
    && !(app in s.table && s.caches[n][app] == s.table[app]) && !Pending(s, n, app)
  }

  /** A cached flag differs from the table only while a broadcast has still to reach the node. */
  ghost predicate Coherent(s: State) { forall n, app :: !StaleForGood(s, n, app) }

  /** The steps that break coherence, told from the state before: storing a read that is
      outdated with nothing under way to remove it; the departure of a node that sent the
      only broadcast still to reach a stale copy; and a registration that overwrites the
      flag some node has cached. */
  ghost predicate Breaks(s: State, step: Step)
    requires Enabled(s, step)
  {
    match step
    case Keep(i) =>
      var r := s.inFlight[i];
      r.n in s.caches && !(r.app in s.table && r.flag == s.table[r.app]) && !Pending(s, r.n, r.app)
    case Depart(d) =>
      exists n, app :: n in s.caches && n != d && app in s.caches[n]
        && !(app in s.table && s.caches[n][app] == s.table[app]) && !PendingBut(s, n, app, d)
    case Register(_, app, active) =>
      exists n :: n in s.caches && app in s.caches[n] && s.caches[n][app] != active && !Pending(s, n, app)
    case _ => false
  }

  /** A broadcast for `app` that `d` did not send has still to reach `n`. */
  ghost predicate PendingBut(s: State, n: Node, app: string, d: Node) {
    exists i :: 0 <= i < |s.writes| && s.writes[i].app == app && n in s.writes[i].waiting && s.writes[i].from != d
  }

  lemma PendingAfter(s: State, step: Step, n: Node, app: string)
    requires Enabled(s, step) && n in s.caches && !(step.Depart? && step.n == n)
    ensures Pending(Next(s, step), n, app) <==>
      match step
      case Depart(d) => PendingBut(s, n, app, d)
      case Switch(_, a, _) => a == app || Pending(s, n, app)
      case Deliver(i, m) =>
        Pending(s.(writes := s.writes[i := s.writes[i].(waiting := s.writes[i].waiting - {m})]), n, app)
      case _ => Pending(s, n, app)
  {
    var s' := Next(s, step);
    match step
    case Switch(m, a, _) =>
      assert s'.writes[|s.writes|] == Write(m, a, s.caches.Keys, {}, false);
      if Pending(s, n, app) {
        var i :| 0 <= i < |s.writes| && s.writes[i].app == app && n in s.writes[i].waiting;
        assert s'.writes[i] == s.writes[i];
      }
    case Register(m, a, _) =>
      if Pending(s, n, app) {
        var i :| 0 <= i < |s.writes| && s.writes[i].app == app && n in s.writes[i].waiting;
        assert s'.writes[i] == s.writes[i];
      }
    case Depart(d) =>
      if PendingBut(s, n, app, d) {
        var i :| 0 <= i < |s.writes| && s.writes[i].app == app && n in s.writes[i].waiting && s.writes[i].from != d;
        assert n in s'.writes[i].waiting;
      }
    case Deliver(i, m) =>
      var mid := s.writes[i := s.writes[i].(waiting := s.writes[i].waiting - {m})];
      assert forall j | 0 <= j < |mid| :: s'.writes[j].app == mid[j].app && s'.writes[j].waiting == mid[j].waiting;
    case _ =>
  }

  /** From a coherent state, a step keeps coherence exactly if it is not one that breaks it. */
  lemma KeepsCoherentIff(s: State, step: Step)
    requires Coherent(s) && Enabled(s, step)
    ensures Coherent(Next(s, step)) <==> !Breaks(s, step)
  {
    var s' := Next(s, step);
    forall n, app | n in s.caches && !(step.Depart? && step.n == n)
      ensures StaleForGood(s', n, app) ==> Breaks(s, step)
    {
      assert !StaleForGood(s, n, app);
      PendingAfter(s, step, n, app);
      if step.Deliver? && Pending(s, n, app) && !(n == step.n && app == s.writes[step.i].app) {
        var i :| 0 <= i < |s.writes| && s.writes[i].app == app && n in s.writes[i].waiting;
        assert n in s'.writes[i].waiting;
      }
    }
    if Breaks(s, step) {
      match step
      case Keep(i) =>
        PendingAfter(s, step, s.inFlight[i].n, s.inFlight[i].app);
        assert StaleForGood(s', s.inFlight[i].n, s.inFlight[i].app);
      case Depart(d) =>
        var n, app :| n in s.caches && n != d && app in s.caches[n]
          && !(app in s.table && s.caches[n][app] == s.table[app]) && !PendingBut(s, n, app, d);
        PendingAfter(s, step, n, app);
        assert StaleForGood(s', n, app);
      case Register(_, app, active) =>
        var n :| n in s.caches && app in s.caches[n] && s.caches[n][app] != active && !Pending(s, n, app);
        PendingAfter(s, step, n, app);
        assert StaleForGood(s', n, app);
    }
  }

  /** A departure leaves a copy stale for good exactly if the copy differs from the table and
      every broadcast that was still to remove it was sent by the node that departs. */
  lemma LostBroadcastIsStaleIff(s: State, d: Node, n: Node, app: string)
    requires Coherent(s) && d in s.caches && n in s.caches && n != d && app in s.caches[n]
    ensures StaleForGood(Next(s, Depart(d)), n, app) <==>
      !(app in s.table && s.caches[n][app] == s.table[app])
      && forall i | 0 <= i < |s.writes| && s.writes[i].app == app && n in s.writes[i].waiting :: s.writes[i].from == d
  {
    PendingAfter(s, Depart(d), n, app);
  }

  /** For instance, a node switches the flag another has cached and departs. */
  lemma LostBroadcastExample(a: Node, b: Node, app: string)
    requires a != b
    ensures var s := State(map[app := true], map[a := map[], b := map[app := true]], [], []);
      var switched := Next(s, Switch(a, app, false));
      Coherent(s) && Coherent(switched) && StaleForGood(Next(switched, Depart(a)), b, app)
  {
    var s := State(map[app := true], map[a := map[], b := map[app := true]], [], []);
    KeepsCoherentIff(s, Switch(a, app, false));
    var switched := Next(s, Switch(a, app, false));
    LostBroadcastIsStaleIff(switched, a, b, app);
  }

  /** For instance, with the flag another node has cached. */
  lemma RegisterAgainExample(a: Node, b: Node, app: string)
    requires a != b
    ensures var s := State(map[app := true], map[a := map[], b := map[app := true]], [], []);
      Coherent(s) && !Coherent(Next(s, Register(a, app, false)))
  {
    var s := State(map[app := true], map[a := map[], b := map[app := true]], [], []);
    RegisterAgainIsCoherentIff(s, a, app, false);
    assert s.caches[b][app] != false && !Pending(s, b, app);
  }

  /** Registering an app again, which broadcasts nothing, keeps coherence exactly if every
      node that has the app cached holds the new flag or has a broadcast still to come. */
  lemma RegisterAgainIsCoherentIff(s: State, at: Node, app: string, active: bool)
    requires Coherent(s) && at in s.caches
    ensures Coherent(Next(s, Register(at, app, active))) <==>
      forall n | n in s.caches && app in s.caches[n] :: s.caches[n][app] == active || Pending(s, n, app)
  {
    KeepsCoherentIff(s, Register(at, app, active));
  }

  // Runs

  ghost predicate Run(s: State, steps: seq<Step>)
    decreases |steps|
  {
    steps == [] || (Enabled(s, steps[0]) && Run(Next(s, steps[0]), steps[1..]))
  }

  ghost function After(s: State, steps: seq<Step>): State
    requires Run(s, steps)
    decreases |steps|
  {
    if steps == [] then s else After(Next(s, steps[0]), steps[1..])
  }

  ghost predicate CoherentThroughout(s: State, steps: seq<Step>)
    requires Run(s, steps)
    decreases |steps|
  {
    Coherent(s) && (steps != [] ==> CoherentThroughout(Next(s, steps[0]), steps[1..]))
  }

  ghost predicate NeverBreaks(s: State, steps: seq<Step>)
    requires Run(s, steps)
    decreases |steps|
  {
    steps != [] ==> !Breaks(s, steps[0]) && NeverBreaks(Next(s, steps[0]), steps[1..])
  }

  /** Over every run, caches are coherent throughout exactly if no step breaks coherence. */
  lemma {:induction false} CoherentThroughoutIff(s: State, steps: seq<Step>)
    requires Coherent(s) && Run(s, steps)
    ensures CoherentThroughout(s, steps) <==> NeverBreaks(s, steps)
    decreases |steps|
  {
    hide Coherent, Breaks, Next, Enabled;
    if steps != [] {
      KeepsCoherentIff(s, steps[0]);
      if Coherent(Next(s, steps[0])) {
        CoherentThroughoutIff(Next(s, steps[0]), steps[1..]);
      } else {
        IncoherentStart(Next(s, steps[0]), steps[1..]);
      }
    }
  }

  lemma IncoherentStart(s: State, steps: seq<Step>)
    requires Run(s, steps) && !Coherent(s)
    ensures !CoherentThroughout(s, steps)
  {
  }

  /** A step of the design: records are read and stored at once, apps are registered once, and
      a node departs only after its broadcasts have arrived. */
  ghost predicate Orderly(s: State, step: Step) {
    match step
    case Fetch(_, _) => false
    case Keep(_) => false
    case Register(_, app, _) => app !in s.table
    case Depart(d) => forall i | 0 <= i < |s.writes| && s.writes[i].from == d :: s.writes[i].waiting == {}
    case _ => true
  }

  ghost predicate OrderlyRun(s: State, steps: seq<Step>)
    requires Run(s, steps)
    decreases |steps|
  {
    steps != [] ==> Orderly(s, steps[0]) && OrderlyRun(Next(s, steps[0]), steps[1..])
  }

  lemma OrderlyDoesNotBreak(s: State, step: Step)
    requires Coherent(s) && Enabled(s, step) && Orderly(s, step)
    ensures !Breaks(s, step)
  {
    match step
    case Depart(d) =>
      forall n, app | n in s.caches && app in s.caches[n] && !(app in s.table && s.caches[n][app] == s.table[app])
        ensures PendingBut(s, n, app, d)
      {
        assert !StaleForGood(s, n, app);
      }
    case Register(_, app, _) =>
      forall n | n in s.caches && app in s.caches[n] ensures Pending(s, n, app) {
        assert !StaleForGood(s, n, app);
      }
    case _ =>
  }

  /** Over every orderly run a stale copy is accounted for by a broadcast under way, and
      once every broadcast has arrived all caches agree with the table. */
  lemma {:induction false} EveryRunIsCoherent(s: State, steps: seq<Step>)
    requires Coherent(s) && Run(s, steps) && OrderlyRun(s, steps)
    ensures var s' := After(s, steps);
            && Coherent(s')
            && ((forall i | 0 <= i < |s'.writes| :: s'.writes[i].waiting == {}) ==>
                forall n, app :: n in s'.caches && app in s'.caches[n] ==>
                  app in s'.table && s'.caches[n][app] == s'.table[app])
    decreases |steps|
  {
    if steps == [] {
      forall n, app | n in s.caches && app in s.caches[n]
        ensures (app in s.table && s.caches[n][app] == s.table[app]) || Pending(s, n, app)
      {
        assert !StaleForGood(s, n, app);
      }
    } else {
      hide StaleForGood, Next, Breaks, Orderly, Enabled;
      OrderlyDoesNotBreak(s, steps[0]);
      KeepsCoherentIff(s, steps[0]);
      EveryRunIsCoherent(Next(s, steps[0]), steps[1..]);
    }
  }

  /** The flag that the last write of an app in a run sets. */
  function LastWritten(steps: seq<Step>, app: string, before: Option<bool>): Option<bool>
    decreases |steps|
  {
    if steps == [] then before
    else
      var now :=
        if (steps[0].Switch? || steps[0].Register?) && steps[0].app == app then Some(steps[0].active) else before;
      LastWritten(steps[1..], app, now)
  }

  function Stored(table: map<string, bool>, app: string): Option<bool> {
    if app in table then Some(table[app]) else None
  }

  /** Over every run the table holds the flag that was last switched or registered. */
  lemma {:induction false} TableIsLastWritten(s: State, steps: seq<Step>, app: string)
    requires Run(s, steps)
    ensures Stored(After(s, steps).table, app) == LastWritten(steps, app, Stored(s.table, app))
    decreases |steps|
  {
    if steps != [] { TableIsLastWritten(Next(s, steps[0]), steps[1..], app); }
  }

  /** A load caches the flag of the table unless there is one; a delivery drops it; no other
      step but storing a read touches a cache. */
  lemma CachesAfter(s: State, step: Step, n: Node, app: string)
    requires Enabled(s, step) && n in s.caches && n in Next(s, step).caches
    ensures Stored(Next(s, step).caches[n], app) ==
      match step
      case Load(m, a) => if (m, a) == (n, app) && app !in s.caches[n]
        then Some(s.table[app]) else Stored(s.caches[n], app)
      case Deliver(i, m) => if (m, s.writes[i].app) == (n, app) then None else Stored(s.caches[n], app)
      case Keep(i) =>
        if (s.inFlight[i].n, s.inFlight[i].app) == (n, app) then Some(s.inFlight[i].flag) else Stored(s.caches[n], app)
      case _ => Stored(s.caches[n], app)
  {
  }

  // Reads in flight

  /** A write of the app after the read was made has reached the reader, or never will. */
  ghost predicate PassedBy(s: State, r: Read) {
    exists i :: r.since <= i < |s.writes| && s.writes[i].app == r.app &&
      (r.n in s.writes[i].reached || s.writes[i].lost)
  }

  /** What is known of a read in flight: its node is a member; if its flag is outdated the
      app was written since; and every such write is under way to the node, has reached it,
      or is lost. */
  ghost predicate Traced(s: State, r: Read) {
    && r.n in s.caches && r.app in s.table && r.since <= |s.writes|
    && (r.flag != s.table[r.app] ==> exists i :: r.since <= i < |s.writes| && s.writes[i].app == r.app)
    && (forall i | r.since <= i < |s.writes| && s.writes[i].app == r.app ::
          r.n in s.writes[i].waiting || r.n in s.writes[i].reached || s.writes[i].lost)
  }

  ghost predicate AllTraced(s: State) { forall r | r in s.inFlight :: Traced(s, r) }

  lemma {:induction false} ReadsWithoutAre(list: seq<Read>, n: Node)
    ensures forall r :: r in ReadsWithout(list, n) <==> r in list && r.n != n
  {
    if list != [] {
      ReadsWithoutAre(list[1..], n);
      assert list == [list[0]] + list[1..];
    }
  }

  /** Every step keeps account of the reads in flight. */
  lemma StepKeepsTraced(s: State, step: Step)
    requires AllTraced(s) && Enabled(s, step)
    ensures AllTraced(Next(s, step))
  {
    var s' := Next(s, step);
    if step.Depart? { ReadsWithoutAre(s.inFlight, step.n); }
    forall r | r in s'.inFlight ensures Traced(s', r) {
      if r in s.inFlight {
        assert Traced(s, r);
        if r.flag != s'.table[r.app] {
          if r.flag != s.table[r.app] {
            var i :| r.since <= i < |s.writes| && s.writes[i].app == r.app;
            assert s'.writes[i].app == r.app;
          } else {
            assert s'.writes[|s.writes|].app == r.app;
          }
        }
      }
    }
  }

  lemma {:induction false} EveryRunTraces(s: State, steps: seq<Step>)
    requires AllTraced(s) && Run(s, steps)
    ensures AllTraced(After(s, steps))
    decreases |steps|
  {
    if steps != [] {
      StepKeepsTraced(s, steps[0]);
      hide AllTraced, Next, Enabled;
      EveryRunTraces(Next(s, steps[0]), steps[1..]);
    }
  }

  /** Over every run: storing a read late leaves the old flag for good exactly if the flag was
      changed since the read, a write since has already reached the node or is lost, and none
      has still to reach it. */
  lemma LateKeepIsStaleIff(s: State, steps: seq<Step>, k: nat)
    requires AllTraced(s) && Run(s, steps) && k < |After(s, steps).inFlight|
    ensures var s' := After(s, steps);
            var r := s'.inFlight[k];
            r.app in s'.table &&
            (StaleForGood(Next(s', Keep(k)), r.n, r.app) <==>
              r.flag != s'.table[r.app] && PassedBy(s', r) && !Pending(s', r.n, r.app))
  {
    EveryRunTraces(s, steps);
    var s' := After(s, steps);
    var r := s'.inFlight[k];
    assert r in s'.inFlight && Traced(s', r);
    PendingAfter(s', Keep(k), r.n, r.app);
    if r.flag != s'.table[r.app] && !Pending(s', r.n, r.app) {
      var i :| r.since <= i < |s'.writes| && s'.writes[i].app == r.app;
      assert r.n in s'.writes[i].waiting || r.n in s'.writes[i].reached || s'.writes[i].lost;
    }
  }

  /** A concrete such run: the switch and its delivery fall between the two halves. */
  lemma SplitLoadIsStale(s: State, n: Node, app: string)
    requires s == State(map[app := true], map[n := map[]], [], [])
    ensures var steps := [Fetch(n, app), Switch(n, app, false), Deliver(0, n), Keep(0)];
            Run(s, steps) && StaleForGood(After(s, steps), n, app)
  {
    var steps := [Fetch(n, app), Switch(n, app, false), Deliver(0, n), Keep(0)];
    var s1 := Next(s, steps[0]);
    assert s1.caches.Keys == {n};
    var s2 := Next(s1, steps[1]);
    assert s2.writes == [Write(n, app, {n}, {}, false)];
    var s3 := Next(s2, steps[2]);
    assert {n} - {n} == {} && {} + {n} == {n};
    assert s3.writes == [Write(n, app, {}, {n}, false)];
    var s4 := Next(s3, steps[3]);
    assert StaleForGood(s4, n, app);
    assert steps[1..][0] == steps[1] && steps[1..][1..] == steps[2..] && steps[2..][0] == steps[2];
    assert steps[2..][1..] == [Keep(0)] && [Keep(0)][1..] == [];
    assert Run(s3, [Keep(0)]) && After(s3, [Keep(0)]) == s4;
    assert Run(s2, steps[2..]) && After(s2, steps[2..]) == s4;
    assert Run(s1, steps[1..]) && After(s1, steps[1..]) == s4;
  }

  datatype Found = NotFound | Active(flag: bool)

  /** The cache of one node, changed in place under its lock. */
  class AppMap {
    var m: map<string, bool>

    constructor ()
      ensures m == map[]
    {
      m := map[];
    }

    method GetApp(table: map<string, bool>, app: string) returns (r: Found)
      modifies this
      ensures m == AfterGet(old(m), table, app)
      ensures r == if app in old(m) then Active(old(m)[app]) else if app in table then Active(table[app]) else NotFound
      ensures app in m <==> app in old(m) || app in table
      ensures app in m ==> r == Active(m[app])
      ensures forall a | a != app :: (a in m <==> a in old(m)) && (a in m ==> m[a] == old(m)[a])
    {
      if app in m {
        return Active(m[app]);
      }
      if app !in table {
        return NotFound;
      }
      m := m[app := table[app]];
      return Active(m[app]);
    }

    method InvalidateSingleAppCache(app: string)
      modifies this
      ensures m == old(m) - {app}
    {
      if app in m {
        m := map a | a in m && a != app :: m[a];
      }
      assert m == old(m) - {app};
    }
  }
}
