/** From a callback's reply to the status table: result, aggregation queue, batches,
    batched writes. */
module StatusPipeline {
  import opened Schedules
  import opened Enrichment
  import Aggregate
  import Reconcile

  /** The row `UpdateStatus` writes for a schedule. */
  function RowOf(s: Schedule): StatusRow { StatusRow(s.status, s.error, Attempts(s.history)) }

  /** `UpdateStatus`: one batch, in order. */
  function WriteBatch(table: StatusTable, batch: seq<Schedule>): StatusTable
    decreases |batch|
  {
    if batch == [] then table else WriteBatch(table[KeyOf(batch[0]) := RowOf(batch[0])], batch[1..])
  }

  /** The last schedule of a batch with a key. */
  ghost predicate LastWith(batch: seq<Schedule>, i: nat, app: string, partition: nat, id: Uuid) {
    && i < |batch| && batch[i].app == app && batch[i].partition == partition && batch[i].id == id
    && forall j | i < j < |batch| :: !(batch[j].app == app && batch[j].partition == partition && batch[j].id == id)
  }

  /** A key of no schedule of the batch keeps what it had. */
  lemma {:induction false} WrittenElsewhere(table: StatusTable, batch: seq<Schedule>, k: StatusKey)
    requires forall i | 0 <= i < |batch| :: StatusKey(batch[i].app, batch[i].partition, batch[i].id) != k
    ensures k in WriteBatch(table, batch) <==> k in table
    ensures k in table ==> WriteBatch(table, batch)[k] == table[k]
    decreases |batch|
  {
    if batch != [] {
      assert KeyOf(batch[0]) != k;
      assert forall j | 0 <= j < |batch[1..]| :: batch[1..][j] == batch[j + 1];
      WrittenElsewhere(table[KeyOf(batch[0]) := RowOf(batch[0])], batch[1..], k);
    }
  }

  /** After a write each key of the batch has the status, error and history of the last schedule
      with that key. */
  lemma {:induction false} WrittenIs(table: StatusTable, batch: seq<Schedule>, i: nat)
    requires i < |batch| && LastWith(batch, i, batch[i].app, batch[i].partition, batch[i].id)
    ensures var k := StatusKey(batch[i].app, batch[i].partition, batch[i].id);
      && k in WriteBatch(table, batch)
      && WriteBatch(table, batch)[k] == StatusRow(batch[i].status, batch[i].error, Attempts(batch[i].history))
    decreases |batch|
  {
    var first, rest := batch[0], batch[1..];
    var table' := table[KeyOf(first) := RowOf(first)];
    assert forall j | 0 <= j < |rest| :: rest[j] == batch[j + 1];
    if i > 0 {
      WrittenIs(table', rest, i - 1);
    } else {
      WrittenElsewhere(table', rest, KeyOf(first));
    }
  }

  lemma {:induction false} HasLast(batch: seq<Schedule>, i: nat) returns (j: nat)
    requires i < |batch|
    ensures i <= j && LastWith(batch, j, batch[i].app, batch[i].partition, batch[i].id)
    decreases |batch| - i
  {
    j := i;
    if k :| i < k < |batch| && KeyOf(batch[k]) == KeyOf(batch[i]) {
      j := HasLast(batch, k);
    }
  }

  /** Every schedule of a batch that is written has a row. */
  lemma WrittenHasRow(table: StatusTable, batch: seq<Schedule>, i: nat)
    requires i < |batch|
    ensures StatusKey(batch[i].app, batch[i].partition, batch[i].id) in WriteBatch(table, batch)
  {
    var j := HasLast(batch, i);
    WrittenIs(table, batch, j);
  }

  lemma WriteOnlyAdds(table: StatusTable, batch: seq<Schedule>, k: StatusKey)
    requires k in table
    ensures k in WriteBatch(table, batch)
  {
    if i :| 0 <= i < |batch| && KeyOf(batch[i]) == k {
      WrittenHasRow(table, batch, i);
    } else {
      WrittenElsewhere(table, batch, k);
    }
  }

  datatype Pipe = Pipe(queue: seq<Schedule>, agg: Aggregate.State, table: StatusTable)

  datatype Step =
    | Reply(s: Schedule, reply: Schedules.Reply, reconciliation: bool, on: string)
    | Take
    | Flush(order: seq<Aggregate.Key>)
    | Write(task: nat)

  ghost predicate Enabled(p: Pipe, step: Step) {
    match step
    case Reply(_, _, _, _) => true
    case Take => p.queue != []
    case Flush(order) => Aggregate.Ranges(order, p.agg.buffers)
    case Write(i) => i < |p.agg.tasks|
  }

  ghost function Next(p: Pipe, step: Step, batchSize: int): Pipe
    requires Enabled(p, step)
  {
    match step
    case Reply(s, reply, reconciliation, on) => p.(queue := p.queue + [Outcome(s, reply, reconciliation, on)])
    case Take => p.(queue := p.queue[1..], agg := Aggregate.Receive(p.agg, p.queue[0], batchSize))
    case Flush(order) => p.(agg := Aggregate.Flush(p.agg, order))
    case Write(i) => p.(table := WriteBatch(p.table, p.agg.tasks[i]))
  }

  predicate IsResult(s: Schedule) { s.status in {Success, Failure} }

  /** Every schedule on its way, and every row stored, is a callback's result. */
  ghost predicate OnlyResultsInside(p: Pipe) {
    && (forall s | s in p.queue :: IsResult(s))
    && (forall k, s | s in Aggregate.Buffered(p.agg.buffers, k) :: IsResult(s))
    && (forall t, s | t in p.agg.tasks && s in t :: IsResult(s))
    && Reconcile.OnlyResults(p.table)
  }

  lemma {:induction false} WriteKeeps(table: StatusTable, batch: seq<Schedule>)
    requires Reconcile.OnlyResults(table) && forall s | s in batch :: IsResult(s)
    ensures Reconcile.OnlyResults(WriteBatch(table, batch))
    ensures forall k | k in WriteBatch(table, batch) :: k in table || exists s :: s in batch && KeyOf(s) == k
    decreases |batch|
  {
    if batch != [] {
      assert batch[0] in batch;
      WriteKeeps(table[KeyOf(batch[0]) := RowOf(batch[0])], batch[1..]);
    }
  }

  lemma {:induction false} FlushedAreResults(b: Aggregate.Buffers, order: seq<Aggregate.Key>)
    requires forall k, s | s in Aggregate.Buffered(b, k) :: IsResult(s)
    ensures forall t, s | t in Aggregate.Batches(b, order) && s in t :: IsResult(s)
    decreases |order|
  {
    if order != [] {
      FlushedAreResults(b, order[1..]);
    }
  }

  lemma ReceivedAreResults(a: Aggregate.State, x: Schedule, batchSize: int)
    requires IsResult(x)
    requires forall k, s | s in Aggregate.Buffered(a.buffers, k) :: IsResult(s)
    requires forall t, s | t in a.tasks && s in t :: IsResult(s)
    ensures var r := Aggregate.Receive(a, x, batchSize);
            && (forall k, s | s in Aggregate.Buffered(r.buffers, k) :: IsResult(s))
            && (forall t, s | t in r.tasks && s in t :: IsResult(s))
  {
    var r := Aggregate.Receive(a, x, batchSize);
    forall k, s | s in Aggregate.Buffered(r.buffers, k) ensures IsResult(s) {
      Aggregate.ReceiveBuffers(a, x, batchSize, k);
    }
    forall t, s | t in r.tasks && s in t ensures IsResult(s) {
      Aggregate.ReceiveBuffers(a, x, batchSize, Aggregate.KeyOf(x));
    }
  }

  lemma StepKeeps(p: Pipe, step: Step, batchSize: int)
    requires OnlyResultsInside(p) && Enabled(p, step)
    ensures OnlyResultsInside(Next(p, step, batchSize))
  {
    match step
    case Reply(s, reply, reconciliation, on) =>
    case Take => ReceivedAreResults(p.agg, p.queue[0], batchSize);
    case Flush(order) => FlushedAreResults(p.agg.buffers, order);
    case Write(i) => WriteKeeps(p.table, p.agg.tasks[i]);
  }

  ghost predicate Run(p: Pipe, steps: seq<Step>, batchSize: int)
    decreases |steps|
  {
    steps == [] || (Enabled(p, steps[0]) && Run(Next(p, steps[0], batchSize), steps[1..], batchSize))
  }

  ghost function After(p: Pipe, steps: seq<Step>, batchSize: int): Pipe
    requires Run(p, steps, batchSize)
    decreases |steps|
  {
    if steps == [] then p else After(Next(p, steps[0], batchSize), steps[1..], batchSize)
  }

  /** Tasks are only ever added, and rows never go. */
  lemma StepAdds(p: Pipe, step: Step, batchSize: int)
    requires Enabled(p, step)
    ensures p.agg.tasks <= Next(p, step, batchSize).agg.tasks
    ensures forall k | k in p.table :: k in Next(p, step, batchSize).table
  {
    match step
    case Write(i) =>
      forall k | k in p.table ensures k in Next(p, step, batchSize).table {
        WriteOnlyAdds(p.table, p.agg.tasks[i], k);
      }
    case _ =>
  }

  ghost predicate Writes(p: Pipe, steps: seq<Step>, batchSize: int, i: nat)
    requires Run(p, steps, batchSize)
    decreases |steps|
  {
    steps != [] && (steps[0] == Write(i) || Writes(Next(p, steps[0], batchSize), steps[1..], batchSize, i))
  }

  lemma {:induction false} RowsStay(p: Pipe, steps: seq<Step>, batchSize: int, k: StatusKey)
    requires Run(p, steps, batchSize) && k in p.table
    ensures k in After(p, steps, batchSize).table
    decreases |steps|
  {
    hide Next, Enabled;
    if steps != [] {
      StepAdds(p, steps[0], batchSize);
      RowsStay(Next(p, steps[0], batchSize), steps[1..], batchSize, k);
    }
  }

  /** Over every run, once the batch that was dispatched as number `i` is written, each of its
      schedules has a row in the status table, from then on. */
  lemma {:induction false} EveryWriteStores(p: Pipe, steps: seq<Step>, batchSize: int, i: nat)
    requires Run(p, steps, batchSize) && Writes(p, steps, batchSize, i)
    ensures var p' := After(p, steps, batchSize);
      i < |p'.agg.tasks| && forall s | s in p'.agg.tasks[i] :: StatusKey(s.app, s.partition, s.id) in p'.table
    decreases |steps|
  {
    var p1 := Next(p, steps[0], batchSize);
    if steps[0] == Write(i) {
      var batch := p.agg.tasks[i];
      forall s | s in batch ensures StatusKey(s.app, s.partition, s.id) in After(p1, steps[1..], batchSize).table {
        var j :| 0 <= j < |batch| && batch[j] == s;
        WrittenHasRow(p.table, batch, j);
        RowsStay(p1, steps[1..], batchSize, StatusKey(s.app, s.partition, s.id));
      }
      TasksStay(p1, steps[1..], batchSize);
    } else {
      EveryWriteStores(p1, steps[1..], batchSize, i);
    }
  }

  lemma {:induction false} TasksStay(p: Pipe, steps: seq<Step>, batchSize: int)
    requires Run(p, steps, batchSize)
    ensures p.agg.tasks <= After(p, steps, batchSize).agg.tasks
    decreases |steps|
  {
    hide Next, Enabled;
    if steps != [] {
      StepAdds(p, steps[0], batchSize);
      TasksStay(Next(p, steps[0], batchSize), steps[1..], batchSize);
    }
  }

  /** The outcomes of the replies of a run, in order. */
  function Outcomes(steps: seq<Step>): seq<Schedule> {
    if steps == [] then []
    else
      var rest := Outcomes(steps[1..]);
      if steps[0].Reply?
      then [Outcome(steps[0].s, steps[0].reply, steps[0].reconciliation, steps[0].on)] + rest else rest
  }

  /** What a run takes off the queue, in order. */
  ghost function Taken(p: Pipe, steps: seq<Step>, batchSize: int): seq<Schedule>
    requires Run(p, steps, batchSize)
    decreases |steps|
  {
    if steps == [] then []
    else
      (if steps[0].Take? then [p.queue[0]] else []) + Taken(Next(p, steps[0], batchSize), steps[1..], batchSize)
  }

  lemma StepCarries(p: Pipe, received: seq<Schedule>, step: Step, batchSize: int)
    requires Enabled(p, step) && batchSize >= 1 && Aggregate.Good(p.agg, received, batchSize)
    ensures Aggregate.Good(Next(p, step, batchSize).agg,
                           received + (if step.Take? then [p.queue[0]] else []), batchSize)
  {
    assert received + [] == received;
    match step
    case Take => Aggregate.ReceiveKeeps(p.agg, received, p.queue[0], batchSize);
    case Flush(order) => Aggregate.FlushKeeps(p.agg, received, order, batchSize);
    case _ =>
  }

  /** What one step moves: a reply joins the queue at its end, a take leaves it at its front. */
  lemma StepMoves(p: Pipe, step: Step, batchSize: int)
    requires Enabled(p, step)
    ensures Next(p, step, batchSize).queue ==
      if step.Reply? then p.queue + [Outcome(step.s, step.reply, step.reconciliation, step.on)]
      else if step.Take? then p.queue[1..] else p.queue
  {
  }

  lemma Regroup<T>(
      queue: seq<T>, added: seq<T>, later: seq<T>, first: seq<T>, queue1: seq<T>, rest: seq<T>, end: seq<T>)
    requires queue + added == first + queue1 && queue1 + later == rest + end
    ensures queue + (added + later) == (first + rest) + end
  {
    assert queue + (added + later) == (queue + added) + later;
    assert (first + queue1) + later == first + (queue1 + later);
    assert first + (rest + end) == (first + rest) + end;
  }

  /** Over every run nothing is lost on the way: the outcomes of the replies are, in order, what
      was taken off the queue and what is still on it; and what was taken is, in order for each
      key, in the batches dispatched and the buffers. */
  lemma {:induction false} EveryRunCarries(p: Pipe, received: seq<Schedule>, steps: seq<Step>, batchSize: int)
    requires Run(p, steps, batchSize) && batchSize >= 1 && Aggregate.Good(p.agg, received, batchSize)
    ensures var p', taken := After(p, steps, batchSize), Taken(p, steps, batchSize);
      p.queue + Outcomes(steps) == taken + p'.queue && Aggregate.Good(p'.agg, received + taken, batchSize)
    decreases |steps|
  {
    hide Aggregate.Good, Next, Outcome;
    if steps == [] {
      assert received + [] == received && p.queue + [] == p.queue == [] + p.queue;
    } else {
      var step := steps[0];
      var p1 := Next(p, step, batchSize);
      var first := if step.Take? then [p.queue[0]] else [];
      var added := if step.Reply? then [Outcome(step.s, step.reply, step.reconciliation, step.on)] else [];
      StepMoves(p, step, batchSize);
      assert p.queue + added == first + p1.queue;
      assert Outcomes(steps) == added + Outcomes(steps[1..]);
      StepCarries(p, received, step, batchSize);
      EveryRunCarries(p1, received + first, steps[1..], batchSize);
      var rest, end := Taken(p1, steps[1..], batchSize), After(p1, steps[1..], batchSize).queue;
      assert Taken(p, steps, batchSize) == first + rest;
      Regroup(p.queue, added, Outcomes(steps[1..]), first, p1.queue, rest, end);
      assert received + first + rest == received + (first + rest);
    }
  }

  /** However replies, aggregation, flushes and writes interleave, only SUCCESS and
      FAILURE ever reach the status table. */
  lemma {:induction false} EveryRunWritesResults(p: Pipe, steps: seq<Step>, batchSize: int)
    requires OnlyResultsInside(p) && Run(p, steps, batchSize)
    ensures Reconcile.OnlyResults(After(p, steps, batchSize).table)
    decreases |steps|
  {
    if steps != [] {
      StepKeeps(p, steps[0], batchSize);
      EveryRunWritesResults(Next(p, steps[0], batchSize), steps[1..], batchSize);
    }
  }
}
