/** `mapWithConcurrency` of src/railgun/scanner.ts: workers that share a cursor, resumed in any order. */
module WorkerPool {
  import opened Results

  /** A worker is awaiting the operation on its input, or has left the loop. */
  datatype Worker = Busy(index: nat) | Finished

  /** `started` is the list of indices whose operation was called, in order. */
  datatype Pool<O> = Pool(cursor: nat, workers: seq<Worker>, outputs: seq<Option<O>>, started: seq<nat>)

  /** The index the loop stops at next: undefined inputs are skipped. */
  function NextDefined<I>(inputs: seq<Option<I>>, cursor: nat): (k: nat)
    requires cursor <= |inputs|
    ensures cursor <= k <= |inputs|
    ensures k < |inputs| ==> inputs[k].Some?
    ensures forall j | cursor <= j < k :: inputs[j].None?
    decreases |inputs| - cursor
  {
    if cursor == |inputs| || inputs[cursor].Some? then cursor else NextDefined(inputs, cursor + 1)
  }

  /** A worker runs from the head of its loop to the next await, or to the end. */
  function Advance<I, O>(inputs: seq<Option<I>>, p: Pool<O>, w: nat): Pool<O>
    requires p.cursor <= |inputs| && w < |p.workers|
  {
    var k := NextDefined(inputs, p.cursor);
    if k == |inputs| then p.(cursor := |inputs|, workers := p.workers[w := Finished])
    else p.(cursor := k + 1, workers := p.workers[w := Busy(k)], started := p.started + [k])
  }

  /** The workers are started one after another. */
  function Started<I, O>(inputs: seq<Option<I>>, workers: nat): (p: Pool<O>)
    ensures p.cursor <= |inputs| && |p.workers| == workers
  {
    if workers == 0 then Pool(0, [], seq(|inputs|, _ => None), [])
    else
      var p: Pool<O> := Started(inputs, workers - 1);
      Advance(inputs, p.(workers := p.workers + [Finished]), workers - 1)
  }

  /** The operation of worker `w` completes and the worker goes on. */
  function Complete<I, O>(inputs: seq<Option<I>>, op: I -> O, p: Pool<O>, w: nat): Pool<O>
    requires PoolOk(inputs, op, p)
  {
    if w < |p.workers| && p.workers[w].Busy? then
      var i := p.workers[w].index;
      Advance(inputs, p.(outputs := p.outputs[i := Some(op(inputs[i].value))]), w)
    else p
  }

  predicate Claimed<O>(p: Pool<O>, i: nat) { exists w | 0 <= w < |p.workers| :: p.workers[w] == Busy(i) }

  /** Each busy worker has its own input, which has no output yet. */
  predicate WorkersOk<I, O(==)>(inputs: seq<Option<I>>, p: Pool<O>) {
    && p.cursor <= |inputs| && |p.outputs| == |inputs|
    && (forall w | 0 <= w < |p.workers| && p.workers[w].Busy? ::
          p.workers[w].index < p.cursor && inputs[p.workers[w].index].Some? && p.outputs[p.workers[w].index].None?)
    && forall v, w | 0 <= v < w < |p.workers| && p.workers[v].Busy? :: p.workers[v] != p.workers[w]
  }

  /** An input before the cursor is being worked on or has its output; nothing beyond the cursor was touched. */
  predicate OutputsOk<I, O(==)>(inputs: seq<Option<I>>, op: I -> O, p: Pool<O>) {
    && p.cursor <= |inputs| && |p.outputs| == |inputs|
    && (forall i | 0 <= i < p.cursor && inputs[i].Some? :: Claimed(p, i) || p.outputs[i] == Some(op(inputs[i].value)))
    && (forall i | 0 <= i < |inputs| && (i >= p.cursor || inputs[i].None?) :: p.outputs[i].None?)
  }

  /** The operation was called for the defined inputs before the cursor, in order, once each. */
  predicate CallsOk<I, O>(inputs: seq<Option<I>>, p: Pool<O>) {
    && p.cursor <= |inputs|
    && (forall k | 0 <= k < |p.started| :: p.started[k] < p.cursor && inputs[p.started[k]].Some?)
    && (forall j, k | 0 <= j < k < |p.started| :: p.started[j] < p.started[k])
    && (forall i | 0 <= i < p.cursor && inputs[i].Some? :: i in p.started)
  }

  /** A worker leaves only when the inputs are used up; worker `but` has not yet looked. */
  predicate LeavesLast<I, O>(inputs: seq<Option<I>>, p: Pool<O>, but: int) {
    forall w | 0 <= w < |p.workers| && w != but && p.workers[w].Finished? :: p.cursor == |inputs|
  }

  predicate PoolOk<I, O(==)>(inputs: seq<Option<I>>, op: I -> O, p: Pool<O>) {
    WorkersOk(inputs, p) && OutputsOk(inputs, op, p) && CallsOk(inputs, p) && LeavesLast(inputs, p, -1)
  }

  lemma AdvanceKeepsOutputs<I, O>(inputs: seq<Option<I>>, op: I -> O, p: Pool<O>, w: nat)
    requires w < |p.workers| && p.workers[w].Finished? && OutputsOk(inputs, op, p)
    ensures OutputsOk(inputs, op, Advance(inputs, p, w))
  {
    var after := Advance(inputs, p, w);
    forall i | 0 <= i < p.cursor && Claimed(p, i) ensures Claimed(after, i) {
      var v :| 0 <= v < |p.workers| && p.workers[v] == Busy(i);
      assert after.workers[v] == Busy(i);
    }
    if NextDefined(inputs, p.cursor) < |inputs| { assert after.workers[w] == Busy(after.cursor - 1); }
  }

  lemma AdvanceKeeps<I, O>(inputs: seq<Option<I>>, op: I -> O, p: Pool<O>, w: nat)
    requires w < |p.workers| && p.workers[w].Finished?
    requires WorkersOk(inputs, p) && OutputsOk(inputs, op, p) && CallsOk(inputs, p) && LeavesLast(inputs, p, w)
    ensures PoolOk(inputs, op, Advance(inputs, p, w))
  {
    AdvanceKeepsOutputs(inputs, op, p, w);
    hide OutputsOk;
  }

  lemma JoinedOutputs<I, O>(inputs: seq<Option<I>>, op: I -> O, p: Pool<O>)
    requires OutputsOk(inputs, op, p)
    ensures OutputsOk(inputs, op, p.(workers := p.workers + [Finished]))
  {
    var q := p.(workers := p.workers + [Finished]);
    forall i | 0 <= i < p.cursor && Claimed(p, i) ensures Claimed(q, i) {
      var v :| 0 <= v < |p.workers| && p.workers[v] == Busy(i);
      assert q.workers[v] == Busy(i);
    }
  }

  lemma JoinedRest<I, O>(inputs: seq<Option<I>>, op: I -> O, p: Pool<O>)
    requires PoolOk(inputs, op, p)
    ensures var q := p.(workers := p.workers + [Finished]);
            WorkersOk(inputs, q) && CallsOk(inputs, q) && LeavesLast(inputs, q, |p.workers|)
  {
    hide OutputsOk;
    var q := p.(workers := p.workers + [Finished]);
    assert forall w | 0 <= w < |p.workers| :: q.workers[w] == p.workers[w];
  }

  lemma {:induction false} StartedOk<I, O>(inputs: seq<Option<I>>, op: I -> O, workers: nat)
    ensures PoolOk(inputs, op, Started<I, O>(inputs, workers))
  {
    if workers > 0 {
      StartedOk(inputs, op, workers - 1);
      var p: Pool<O> := Started(inputs, workers - 1);
      var q := p.(workers := p.workers + [Finished]);
      JoinedOutputs(inputs, op, p);
      JoinedRest(inputs, op, p);
      hide WorkersOk, OutputsOk, CallsOk, LeavesLast, PoolOk, Advance;
      AdvanceKeeps(inputs, op, q, workers - 1);
    }
  }

  lemma CompletedOutputs<I, O>(inputs: seq<Option<I>>, op: I -> O, p: Pool<O>, w: nat)
    requires PoolOk(inputs, op, p) && w < |p.workers| && p.workers[w].Busy?
    ensures var i := p.workers[w].index;
            OutputsOk(inputs, op,
              p.(outputs := p.outputs[i := Some(op(inputs[i].value))], workers := p.workers[w := Finished]))
  {
    hide CallsOk, LeavesLast;
    var i := p.workers[w].index;
    var q := p.(outputs := p.outputs[i := Some(op(inputs[i].value))], workers := p.workers[w := Finished]);
    forall j | 0 <= j < p.cursor && j != i && Claimed(p, j) ensures Claimed(q, j) {
      var v :| 0 <= v < |p.workers| && p.workers[v] == Busy(j);
      assert q.workers[v] == Busy(j);
    }
  }

  lemma CompletedWorkers<I, O>(inputs: seq<Option<I>>, op: I -> O, p: Pool<O>, w: nat)
    requires PoolOk(inputs, op, p) && w < |p.workers| && p.workers[w].Busy?
    ensures var i := p.workers[w].index;
            WorkersOk(inputs,
              p.(outputs := p.outputs[i := Some(op(inputs[i].value))], workers := p.workers[w := Finished]))
  {
    hide CallsOk, LeavesLast, OutputsOk;
  }

  lemma CompletedRest<I, O>(inputs: seq<Option<I>>, op: I -> O, p: Pool<O>, w: nat)
    requires PoolOk(inputs, op, p) && w < |p.workers| && p.workers[w].Busy?
    ensures var i := p.workers[w].index;
            var q := p.(outputs := p.outputs[i := Some(op(inputs[i].value))], workers := p.workers[w := Finished]);
            CallsOk(inputs, q) && LeavesLast(inputs, q, w)
  {
    hide WorkersOk, OutputsOk;
    assert p.cursor <= |inputs|;
  }

  /** To advance a worker it does not matter what it did before. */
  lemma AdvanceForgets<I, O>(inputs: seq<Option<I>>, p: Pool<O>, w: nat)
    requires p.cursor <= |inputs| && w < |p.workers|
    ensures Advance(inputs, p.(workers := p.workers[w := Finished]), w) == Advance(inputs, p, w)
  {
    assert p.workers[w := Finished][w := Finished] == p.workers[w := Finished];
    var k := NextDefined(inputs, p.cursor);
    assert p.workers[w := Finished][w := Busy(k)] == p.workers[w := Busy(k)];
  }

  lemma CompleteKeeps<I, O>(inputs: seq<Option<I>>, op: I -> O, p: Pool<O>, w: nat)
    requires PoolOk(inputs, op, p)
    ensures PoolOk(inputs, op, Complete(inputs, op, p, w))
  {
    if w < |p.workers| && p.workers[w].Busy? {
      CompletedOutputs(inputs, op, p, w);
      CompletedWorkers(inputs, op, p, w);
      CompletedRest(inputs, op, p, w);
      var i := p.workers[w].index;
      assert i < |p.outputs| && inputs[i].Some? && p.cursor <= |inputs| by { hide OutputsOk, CallsOk, LeavesLast; }
      hide PoolOk, WorkersOk, OutputsOk, CallsOk, LeavesLast, Advance;
      var done := p.(outputs := p.outputs[i := Some(op(inputs[i].value))]);
      AdvanceForgets(inputs, done, w);
      AdvanceKeeps(inputs, op, done.(workers := done.workers[w := Finished]), w);
    }
  }

  /** The pool after operations completed in the order `schedule` names their workers. */
  function Run<I, O>(inputs: seq<Option<I>>, op: I -> O, concurrency: nat, schedule: seq<nat>): (p: Pool<O>)
    ensures PoolOk(inputs, op, p)
    ensures |p.workers| == if concurrency < |inputs| then concurrency else |inputs|
    decreases |schedule|
  {
    if |schedule| == 0 then
      StartedOk(inputs, op, if concurrency < |inputs| then concurrency else |inputs|);
      Started(inputs, if concurrency < |inputs| then concurrency else |inputs|)
    else
      var last := |schedule| - 1;
      var before := Run(inputs, op, concurrency, schedule[..last]);
      CompleteKeeps(inputs, op, before, schedule[last]);
      Complete(inputs, op, before, schedule[last])
  }

  /** When the workers have finished, in whatever order their operations completed, every input was passed to the
      operation exactly once and its output stands in its place. */
  lemma PoolMapsInputs<I, O>(inputs: seq<Option<I>>, op: I -> O, concurrency: nat, schedule: seq<nat>)
    requires concurrency > 0
    requires forall worker <- Run(inputs, op, concurrency, schedule).workers :: worker.Finished?
    ensures var p := Run(inputs, op, concurrency, schedule);
            && |p.outputs| == |inputs|
            && (forall i | 0 <= i < |inputs| ::
                 p.outputs[i] == if inputs[i].Some? then Some(op(inputs[i].value)) else None)
            && (forall i | 0 <= i < |inputs| :: i in p.started <==> inputs[i].Some?)
            && (forall j, k | 0 <= j < k < |p.started| :: p.started[j] < p.started[k])
  {
    var p := Run(inputs, op, concurrency, schedule);
    if inputs != [] { assert p.workers[0] in p.workers; }
    forall i | 0 <= i < |inputs| ensures !Claimed(p, i) {
      forall w | 0 <= w < |p.workers| ensures p.workers[w] != Busy(i) { assert p.workers[w] in p.workers; }
    }
  }

  /** The inputs whose operation was called and has not completed. */
  ghost function Outstanding<O>(p: Pool<O>): set<nat> {
    set i | i in p.started && (i < |p.outputs| ==> p.outputs[i].None?)
  }

  lemma {:induction false} FewClaims(workers: seq<Worker>, claimed: set<nat>)
    requires forall i <- claimed :: Busy(i) in workers
    ensures |claimed| <= |workers|
  {
    if workers == [] {
      assert claimed == {};
    } else {
      var last := |workers| - 1;
      var rest := if workers[last].Busy? then claimed - {workers[last].index} else claimed;
      forall i <- rest ensures Busy(i) in workers[..last] {}
      FewClaims(workers[..last], rest);
    }
  }

  /** At every moment at most `concurrency` operations are outstanding. */
  lemma OutstandingIsBounded<I, O>(inputs: seq<Option<I>>, op: I -> O, concurrency: nat, schedule: seq<nat>)
    ensures |Outstanding(Run(inputs, op, concurrency, schedule))| <= concurrency
  {
    var p := Run(inputs, op, concurrency, schedule);
    hide Run;
    forall i <- Outstanding(p) ensures Busy(i) in p.workers {
      var k :| 0 <= k < |p.started| && p.started[k] == i;
      assert Claimed(p, i);
    }
    FewClaims(p.workers, Outstanding(p));
  }

  function BusyCount(workers: seq<Worker>): nat {
    if workers == [] then 0 else BusyCount(workers[..|workers| - 1]) + if workers[|workers| - 1].Busy? then 1 else 0
  }

  lemma {:induction false} BusyUpdate(workers: seq<Worker>, w: nat, x: Worker)
    requires w < |workers|
    ensures BusyCount(workers[w := x]) + (if workers[w].Busy? then 1 else 0)
         == BusyCount(workers) + if x.Busy? then 1 else 0
  {
    var last := |workers| - 1;
    if w == last {
      assert workers[w := x][..last] == workers[..last];
    } else {
      assert workers[w := x][..last] == workers[..last][w := x];
      BusyUpdate(workers[..last], w, x);
    }
  }

  /** Each completion brings the end nearer. */
  lemma CompletionIsProgress<I, O>(inputs: seq<Option<I>>, op: I -> O, p: Pool<O>, w: nat)
    requires PoolOk(inputs, op, p) && w < |p.workers| && p.workers[w].Busy?
    ensures var after := Complete(inputs, op, p, w);
            && after.cursor <= |inputs|
            && |inputs| - after.cursor + BusyCount(after.workers) < |inputs| - p.cursor + BusyCount(p.workers)
  {
    var after := Complete(inputs, op, p, w);
    BusyUpdate(p.workers, w, after.workers[w]);
  }
}
