/**
 * The worker pool of package `processor`, reduced to its sequential steps.
 * A processor owns one queue; `Start` launches the workers, and each tick of
 * a worker dequeues at most one item and hands it to the processing
 * callback.  Goroutines, the ticker, the stop channel, the wait group and
 * the mutex are not modelled: every operation runs as one atomic step.
 */
module Processor {
  import opened Wrappers
  import Q = Queue

  /** The IDs `Start` gives its workers, in launch order. */
  function WorkerIds(workers: int): seq<int>
    decreases workers
  {
    if workers <= 0 then [] else WorkerIds(workers - 1) + [workers]
  }

  /** Exactly `workers` workers, numbered 1..workers in increasing order; none when workers <= 0. */
  lemma {:induction false} WorkerIdsAreOneToN(workers: int)
    ensures |WorkerIds(workers)| == if workers > 0 then workers else 0
    ensures forall k :: 0 <= k < |WorkerIds(workers)| ==> WorkerIds(workers)[k] == k + 1
    ensures forall id :: id in WorkerIds(workers) <==> 1 <= id <= workers
    decreases workers
  {
    if workers > 0 {
      WorkerIdsAreOneToN(workers - 1);
    }
  }

  /** One call on a processor, as a sequential trace sees it. */
  datatype Step<T> = Submit(item: T) | Tick

  /** The items submitted by a trace, in submission order. */
  function Submitted<T>(steps: seq<Step<T>>): seq<T> {
    if steps == [] then []
    else (if steps[0].Submit? then [steps[0].item] else []) + Submitted(steps[1..])
  }

  /**
   * Runs a trace from queue contents `items`: the items handed to the
   * processing callback, in order, and the queue contents at the end.
   */
  function Run<T>(steps: seq<Step<T>>, items: seq<T>): (seq<T>, seq<T>) {
    if steps == [] then ([], items)
    else match steps[0]
      case Submit(x) => Run(steps[1..], items + [x])
      case Tick =>
        var (head, rest) := Q.Pop(items);
        var (handed, left) := Run(steps[1..], rest);
        ((if head.Some? then [head.value] else []) + handed, left)
  }

  /**
   * Nothing is lost, duplicated or reordered: what has been handed to the
   * callback followed by what is still queued is exactly what was queued
   * at the start followed by what was submitted.
   */
  lemma {:induction false} RunKeepsOrder<T>(steps: seq<Step<T>>, items: seq<T>)
    ensures Run(steps, items).0 + Run(steps, items).1 == items + Submitted(steps)
  {
    if steps != [] {
      match steps[0]
      case Submit(x) =>
        RunKeepsOrder(steps[1..], items + [x]);
        assert Submitted(steps) == [x] + Submitted(steps[1..]);
        assert items + [x] + Submitted(steps[1..]) == items + Submitted(steps);
      case Tick =>
        var (head, rest) := Q.Pop(items);
        RunKeepsOrder(steps[1..], rest);
        assert Submitted(steps) == Submitted(steps[1..]);
        if head.Some? {
          var (handed, left) := Run(steps[1..], rest);
          assert Run(steps, items) == ([head.value] + handed, left);
          assert [head.value] + handed + left == [head.value] + (handed + left);
        }
    }
  }

  /** From an empty queue, the callback sees a prefix of the submitted items, in submission order. */
  lemma HandedIsPrefixOfSubmitted<T>(steps: seq<Step<T>>)
    ensures Run(steps, []).0 <= Submitted(steps)
  {
    RunKeepsOrder(steps, []);
    var (handed, left) := Run(steps, []);
    assert handed + left == Submitted(steps);
    assert Submitted(steps)[..|handed|] == handed;
  }

  class Processor<T(0)> {
    const id: int
    const workers: int
    const queue: Q.Queue<T>
    /** The processing callback; `true` stands for a non-nil error. */
    const processFunc: T -> bool
    /** IDs of the workers launched so far, in launch order: one `wg.Add(1)` and one goroutine each. */
    var started: seq<int>

    /** `NewProcessor`: stores the ID, worker count and callback, with a fresh empty queue and no workers. */
    constructor (id: int, workers: int, processFunc: T -> bool)
      ensures this.id == id && this.workers == workers && this.processFunc == processFunc
      ensures fresh(queue) && queue.items == []
      ensures started == []
    {
      this.id := id;
      this.workers := workers;
      this.processFunc := processFunc;
      queue := new Q.Queue();
      started := [];
    }

    /** Adds a message at the tail of the owned queue; returns nothing. */
    method Enqueue(msg: T)
      modifies queue
      ensures queue.items == old(queue.items) + [msg]
      ensures |queue.items| == |old(queue.items)| + 1
      ensures Run([Submit(msg)], old(queue.items)) == ([], queue.items)
    {
      queue.Enqueue(msg);
    }

    method GetQueueSize() returns (n: int)
      ensures n == |queue.items|
    {
      n := queue.Size();
    }

    /** Launches one worker per iteration, with IDs 1..workers. */
    method Start()
      modifies this`started
      ensures started == old(started) + WorkerIds(workers)
    {
      var i := 0;
      while i < workers
        invariant 0 <= i <= if workers > 0 then workers else 0
        invariant started == old(started) + WorkerIds(i)
      {
        var workerId := i + 1;
        started := started + [workerId];
        i := i + 1;
      }
    }

    /**
     * The body of one ticker case of a worker: dequeue at most one item and,
     * if there was one, hand it to the callback.  The item is gone from the
     * queue whether or not the callback reports an error.
     */
    method Tick() returns (handed: Option<T>, failed: bool)
      modifies queue
      ensures (handed, queue.items) == Q.Pop(old(queue.items))
      ensures old(queue.items) == [] ==> handed == None && queue.items == old(queue.items)
      ensures old(queue.items) != [] ==> handed == Some(old(queue.items)[0]) && queue.items == old(queue.items)[1..]
      ensures failed <==> handed.Some? && processFunc(handed.value)
      ensures Run([Step.Tick], old(queue.items)) == (if handed.Some? then [handed.value] else [], queue.items)
    {
      var message, ok := queue.Dequeue();
      if ok {
        handed := Some(message);
        failed := processFunc(message);
      } else {
        handed, failed := None, false;
      }
      ghost var steps: seq<Step<T>> := [Step.Tick];
      assert steps[1..] == [];
      ghost var out := if handed.Some? then [handed.value] else [];
      assert Run(steps, old(queue.items)) == (out + [], queue.items);
      assert out + [] == out;
    }
  }
}
