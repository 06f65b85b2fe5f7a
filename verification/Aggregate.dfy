/** Status aggregation: results are buffered per app and partition and handed on in
    batches, when a batch is full or when the flush period ends. */
module Aggregate {
  import opened Schedules

  datatype Key = Key(app: string, partition: nat)

  type Buffers = map<string, map<nat, seq<Schedule>>>

  datatype State = State(buffers: Buffers, tasks: seq<seq<Schedule>>)

  function KeyOf(x: Schedule): Key { Key(x.app, x.partition) }

  function Buffered(b: Buffers, k: Key): seq<Schedule> {
    if k.app in b && k.partition in b[k.app] then b[k.app][k.partition] else []
  }

  /** One result arrives. */
  function Receive(s: State, x: Schedule, batchSize: int): State {
    var mine := if x.app in s.buffers then s.buffers[x.app] else map[];
    var list := (if x.partition in mine then mine[x.partition] else []) + [x];
    if |list| == batchSize
    then State(s.buffers[x.app := mine - {x.partition}], s.tasks + [list])
    else State(s.buffers[x.app := mine[x.partition := list]], s.tasks)
  }

  /** The flush period ends; `order` is the order in which the maps were ranged over. */
  function Flush(s: State, order: seq<Key>): State {
    State(map[], s.tasks + Batches(s.buffers, order))
  }

  function Batches(b: Buffers, order: seq<Key>): seq<seq<Schedule>> {
    if order == [] then []
    else
      var first := Buffered(b, order[0]);
      (if first == [] then [] else [first]) + Batches(b, order[1..])
  }

  /** `order` visits every key of the nested map once. */
  ghost predicate Ranges(order: seq<Key>, b: Buffers) {
    && (forall k :: k in order <==> k.app in b && k.partition in b[k.app])
    && (forall i, j | 0 <= i < j < |order| :: order[i] != order[j])
  }

  // What was received, dispatched and is still held

  function Only(xs: seq<Schedule>, k: Key): seq<Schedule> {
    if xs == [] then []
    else (if KeyOf(xs[0]) == k then [xs[0]] else []) + Only(xs[1..], k)
  }

  function Flat(tasks: seq<seq<Schedule>>): seq<Schedule> {
    if tasks == [] then [] else tasks[0] + Flat(tasks[1..])
  }

  ghost predicate OneKey(xs: seq<Schedule>, k: Key) { forall x | x in xs :: KeyOf(x) == k }

  /** A batch is non-empty, of one app and partition, and within the batch size. */
  ghost predicate GoodBatch(xs: seq<Schedule>, batchSize: int) {
    xs != [] && OneKey(xs, KeyOf(xs[0])) && |xs| <= batchSize
  }

  ghost predicate Good(s: State, received: seq<Schedule>, batchSize: int) {
    && (forall k :: OneKey(Buffered(s.buffers, k), k) && |Buffered(s.buffers, k)| < batchSize)
    && (forall k :: Only(Flat(s.tasks), k) + Buffered(s.buffers, k) == Only(received, k))
    && (forall t | t in s.tasks :: GoodBatch(t, batchSize))
  }

  lemma {:induction false} OnlyOfAppend(xs: seq<Schedule>, ys: seq<Schedule>, k: Key)
    ensures Only(xs + ys, k) == Only(xs, k) + Only(ys, k)
  {
    if xs == [] {
      assert xs + ys == ys;
    } else {
      assert (xs + ys)[1..] == xs[1..] + ys;
      OnlyOfAppend(xs[1..], ys, k);
    }
  }

  lemma {:induction false} FlatOfAppend(a: seq<seq<Schedule>>, b: seq<seq<Schedule>>)
    ensures Flat(a + b) == Flat(a) + Flat(b)
  {
    if a == [] {
      assert a + b == b;
    } else {
      assert (a + b)[1..] == a[1..] + b;
      FlatOfAppend(a[1..], b);
    }
  }

  lemma {:induction false} OnlyOfOneKey(xs: seq<Schedule>, k: Key, j: Key)
    requires OneKey(xs, k)
    ensures Only(xs, j) == if j == k then xs else []
  {
    if xs != [] {
      OnlyOfOneKey(xs[1..], k, j);
      assert xs == [xs[0]] + xs[1..];
    }
  }

  lemma ReceiveBuffers(s: State, x: Schedule, batchSize: int, k: Key)
    ensures var list := Buffered(s.buffers, KeyOf(x)) + [x];
            Buffered(Receive(s, x, batchSize).buffers, k)
            == if k != KeyOf(x) then Buffered(s.buffers, k) else if |list| == batchSize then [] else list
    ensures var list := Buffered(s.buffers, KeyOf(x)) + [x];
            Receive(s, x, batchSize).tasks == if |list| == batchSize then s.tasks + [list] else s.tasks
  {
  }

  /** What the dispatched batches of one key become when a full batch of key `k0` joins them. */
  lemma DispatchedWith(tasks: seq<seq<Schedule>>, list: seq<Schedule>, k0: Key, k: Key)
    requires OneKey(list, k0)
    ensures Only(Flat(tasks + [list]), k) == Only(Flat(tasks), k) + if k == k0 then list else []
  {
    FlatOfAppend(tasks, [list]);
    assert Flat([list]) == list + Flat([list][1..]) == list;
    OnlyOfAppend(Flat(tasks), list, k);
    OnlyOfOneKey(list, k0, k);
  }

  lemma ReceiveConserves(s: State, received: seq<Schedule>, x: Schedule, batchSize: int, k: Key)
    requires OneKey(Buffered(s.buffers, KeyOf(x)), KeyOf(x))
    requires Only(Flat(s.tasks), k) + Buffered(s.buffers, k) == Only(received, k)
    ensures var s' := Receive(s, x, batchSize);
            Only(Flat(s'.tasks), k) + Buffered(s'.buffers, k) == Only(received + [x], k)
  {
    var list := Buffered(s.buffers, KeyOf(x)) + [x];
    assert OneKey(list, KeyOf(x)) && OneKey([x], KeyOf(x));
    hide *;
    ReceiveBuffers(s, x, batchSize, k);
    OnlyOfAppend(received, [x], k);
    OnlyOfOneKey([x], KeyOf(x), k);
    DispatchedWith(s.tasks, list, KeyOf(x), k);
    var a, b := Only(Flat(s.tasks), k), Buffered(s.buffers, k);
    if k != KeyOf(x) {
      assert a + [] == a && a + b + [] == a + b;
    } else {
      assert a + (b + [x]) == a + b + [x];
      assert a + (b + [x]) + [] == a + (b + [x]);
    }
  }

  lemma ReceiveKeeps(s: State, received: seq<Schedule>, x: Schedule, batchSize: int)
    requires Good(s, received, batchSize) && batchSize >= 1
    ensures Good(Receive(s, x, batchSize), received + [x], batchSize)
  {
    var s' := Receive(s, x, batchSize);
    var list := Buffered(s.buffers, KeyOf(x)) + [x];
    assert OneKey(list, KeyOf(x)) && list[0] in list;
    forall k ensures OneKey(Buffered(s'.buffers, k), k) && |Buffered(s'.buffers, k)| < batchSize {
      ReceiveBuffers(s, x, batchSize, k);
    }
    forall k ensures Only(Flat(s'.tasks), k) + Buffered(s'.buffers, k) == Only(received + [x], k) {
      ReceiveConserves(s, received, x, batchSize, k);
    }
  }

  /** A flush hands on each key's buffer once. */
  lemma {:induction false} BatchesOfKey(b: Buffers, order: seq<Key>, k: Key)
    requires forall i, j | 0 <= i < j < |order| :: order[i] != order[j]
    requires forall j | j in order :: OneKey(Buffered(b, j), j)
    ensures Only(Flat(Batches(b, order)), k) == if k in order then Buffered(b, k) else []
  {
    if order != [] {
      var first := Buffered(b, order[0]);
      var rest := Batches(b, order[1..]);
      BatchesOfKey(b, order[1..], k);
      OnlyOfAppend(first, Flat(rest), k);
      OnlyOfOneKey(first, order[0], k);
      if first == [] {
        assert [] + rest == rest;
      } else {
        assert ([first] + rest)[1..] == rest;
      }
      assert k in order <==> k == order[0] || k in order[1..];
      assert order[0] !in order[1..];
    }
  }

  lemma {:induction false} BatchesAreGood(b: Buffers, order: seq<Key>, batchSize: int)
    requires forall k :: OneKey(Buffered(b, k), k) && |Buffered(b, k)| < batchSize
    ensures forall t | t in Batches(b, order) :: GoodBatch(t, batchSize)
  {
    if order != [] {
      BatchesAreGood(b, order[1..], batchSize);
      var first := Buffered(b, order[0]);
      assert first != [] ==> first[0] in first;
    }
  }

  lemma FlushKeeps(s: State, received: seq<Schedule>, order: seq<Key>, batchSize: int)
    requires Good(s, received, batchSize) && batchSize >= 1 && Ranges(order, s.buffers)
    ensures Good(Flush(s, order), received, batchSize)
  {
    BatchesAreGood(s.buffers, order, batchSize);
    var b := Batches(s.buffers, order);
    forall k ensures Only(Flat(s.tasks + b), k) == Only(received, k) {
      FlatOfAppend(s.tasks, b);
      OnlyOfAppend(Flat(s.tasks), Flat(b), k);
      BatchesOfKey(s.buffers, order, k);
    }
  }

  // Interleavings

  datatype Step = Arrives(x: Schedule) | Period(order: seq<Key>)

  ghost predicate Run(s: State, steps: seq<Step>, batchSize: int)
    decreases |steps|
  {
    steps != [] ==>
      && (steps[0].Period? ==> Ranges(steps[0].order, s.buffers))
      && Run(Next(s, steps[0], batchSize), steps[1..], batchSize)
  }

  function Next(s: State, step: Step, batchSize: int): State {
    match step
    case Arrives(x) => Receive(s, x, batchSize)
    case Period(order) => Flush(s, order)
  }

  function After(s: State, steps: seq<Step>, batchSize: int): State
    decreases |steps|
  {
    if steps == [] then s else After(Next(s, steps[0], batchSize), steps[1..], batchSize)
  }

  function Arrived(steps: seq<Step>): seq<Schedule> {
    if steps == [] then []
    else (if steps[0].Arrives? then [steps[0].x] else []) + Arrived(steps[1..])
  }

  /** For every interleaving of arrivals and flushes: nothing is lost, duplicated or
      reordered within an app and partition, and every batch and buffer is in bounds. */
  lemma {:induction false} EveryRunConserves(s: State, received: seq<Schedule>, steps: seq<Step>, batchSize: int)
    requires Good(s, received, batchSize) && batchSize >= 1 && Run(s, steps, batchSize)
    ensures Good(After(s, steps, batchSize), received + Arrived(steps), batchSize)
    decreases |steps|
  {
    if steps == [] {
      assert received + Arrived(steps) == received;
    } else {
      var s' := Next(s, steps[0], batchSize);
      match steps[0]
      case Arrives(x) =>
        ReceiveKeeps(s, received, x, batchSize);
        EveryRunConserves(s', received + [x], steps[1..], batchSize);
        assert received + [x] + Arrived(steps[1..]) == received + Arrived(steps);
      case Period(order) =>
        FlushKeeps(s, received, order, batchSize);
        EveryRunConserves(s', received, steps[1..], batchSize);
        assert Arrived(steps) == Arrived(steps[1..]);
    }
  }

  lemma EmptyIsGood(batchSize: int)
    requires batchSize >= 1
    ensures Good(State(map[], []), [], batchSize)
  {
  }

  /** The aggregation worker: its map of slices, changed by the receive loop and the
      flush loop under one lock. */
  class Aggregator {
    const batchSize: int
    var schedules: Buffers
    var tasks: seq<seq<Schedule>>
    ghost var received: seq<Schedule>

    ghost function View(): State reads this { State(schedules, tasks) }

    ghost predicate Valid() reads this { batchSize >= 1 && Good(View(), received, batchSize) }

    constructor (batchSize: int)
      requires batchSize >= 1
      ensures Valid() && this.batchSize == batchSize && tasks == [] && received == []
    {
      this.batchSize := batchSize;
      schedules, tasks, received := map[], [], [];
      new;
      EmptyIsGood(batchSize);
    }

    method OnSchedule(result: Schedule)
      requires Valid()
      modifies this
      ensures Valid() && received == old(received) + [result]
      ensures View() == Receive(old(View()), result, batchSize)
    {
      hide Good;
      ReceiveKeeps(View(), received, result, batchSize);
      var mine: map<nat, seq<Schedule>> := map[];
      if result.app in schedules {
        mine := schedules[result.app];
      }
      var list := [];
      if result.partition in mine {
        list := mine[result.partition];
      }
      list := list + [result];
      if |list| == batchSize {
        tasks := tasks + [list];
        schedules := schedules[result.app := mine - {result.partition}];
      } else {
        schedules := schedules[result.app := mine[result.partition := list]];
      }
      received := received + [result];
    }

    method OnPeriod() returns (ghost order: seq<Key>)
      requires Valid()
      modifies this`schedules, this`tasks
      ensures Valid() && schedules == map[]
      ensures Ranges(order, old(schedules)) && View() == Flush(old(View()), order)
    {
      order := [];
      var apps := schedules.Keys;
      while apps != {}
        invariant schedules == old(schedules) && apps <= schedules.Keys
        invariant forall k :: k in order <==> k.app in schedules && k.app !in apps && k.partition in schedules[k.app]
        invariant forall i, j | 0 <= i < j < |order| :: order[i] != order[j]
        invariant tasks == old(tasks) + Batches(schedules, order)
        decreases apps
      {
        var app :| app in apps;
        order := FlushApp(app, order, old(tasks));
        apps := apps - {app};
      }
      FlushKeeps(old(View()), received, order, batchSize);
      schedules := map[];
    }

    /** The inner loop of a flush: one app's partitions. */
    method FlushApp(app: string, ghost before: seq<Key>, ghost first: seq<seq<Schedule>>)
      returns (ghost order: seq<Key>)
      requires app in schedules && forall k | k in before :: k.app != app
      requires forall i, j | 0 <= i < j < |before| :: before[i] != before[j]
      requires tasks == first + Batches(schedules, before)
      modifies this`tasks
      ensures tasks == first + Batches(schedules, order)
      ensures forall k :: k in order <==> k in before || (k.app == app && k.partition in schedules[app])
      ensures forall i, j | 0 <= i < j < |order| :: order[i] != order[j]
    {
      order := before;
      var rest := schedules[app];
      while rest != map[]
        invariant rest.Keys <= schedules[app].Keys
        invariant forall k :: k in order <==>
          k in before || (k.app == app && k.partition in schedules[app] && k.partition !in rest)
        invariant forall i, j | 0 <= i < j < |order| :: order[i] != order[j]
        invariant tasks == first + Batches(schedules, order)
        decreases rest.Keys
      {
        var partition :| partition in rest;
        if |schedules[app][partition]| > 0 {
          tasks := tasks + [schedules[app][partition]];
        }
        BatchesOfSnoc(schedules, order, Key(app, partition));
        order := order + [Key(app, partition)];
        rest := rest - {partition};
      }
    }
  }

  lemma {:induction false} BatchesOfSnoc(b: Buffers, order: seq<Key>, k: Key)
    ensures Batches(b, order + [k]) == Batches(b, order) + if Buffered(b, k) == [] then [] else [Buffered(b, k)]
  {
    if order == [] {
      assert order + [k] == [k];
      assert Batches(b, [k]) == (if Buffered(b, k) == [] then [] else [Buffered(b, k)]) + Batches(b, [k][1..]);
    } else {
      assert (order + [k])[1..] == order[1..] + [k];
      BatchesOfSnoc(b, order[1..], k);
    }
  }
}
