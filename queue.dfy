/**
 * The generic FIFO queue of package `queue`: a slice of items that
 * `Enqueue` appends to and `Dequeue` re-slices from the front.  The mutex
 * that serialises the operations is not modelled; each method runs as one
 * atomic step.
 */
module Queue {
  import opened Wrappers

  /**
   * One dequeue on the abstract contents: the head (or `None` when there is
   * none) and what remains.
   */
  function Pop<T>(items: seq<T>): (r: (Option<T>, seq<T>))
    ensures r.0.None? <==> items == []
    ensures r.0.None? ==> r.1 == items
    ensures r.0.Some? ==> [r.0.value] + r.1 == items
  {
    if items == [] then (None, items) else (Some(items[0]), items[1..])
  }

  /** Enqueuing each of `xs` in turn, one `Enqueue` call per item. */
  function EnqueueAll<T>(items: seq<T>, xs: seq<T>): seq<T>
    decreases |xs|
  {
    if xs == [] then items else EnqueueAll(items + [xs[0]], xs[1..])
  }

  /** `n` successive dequeues: the items returned with ok = true, in order, and what is left. */
  function Drain<T>(items: seq<T>, n: nat): (seq<T>, seq<T>) {
    if n == 0 then ([], items)
    else
      var step := Pop(items);
      var next := Drain(step.1, n - 1);
      (if step.0.Some? then [step.0.value] + next.0 else next.0, next.1)
  }

  lemma {:induction false} EnqueueAllAppends<T>(items: seq<T>, xs: seq<T>)
    ensures EnqueueAll(items, xs) == items + xs
    decreases |xs|
  {
    if xs != [] {
      EnqueueAllAppends(items + [xs[0]], xs[1..]);
      assert items + [xs[0]] + xs[1..] == items + xs;
    }
  }

  /** Dequeuing an empty queue any number of times returns nothing and leaves it empty. */
  lemma {:induction false} DrainEmpty<T>(n: nat)
    ensures Drain<T>([], n) == ([], [])
  {
    if n > 0 {
      DrainEmpty<T>(n - 1);
    }
  }

  /** Dequeuing `n` times hands out the first `n` items in order (all of them when fewer). */
  lemma {:induction false} DrainTakesPrefix<T>(items: seq<T>, n: nat)
    ensures n <= |items| ==> Drain(items, n) == (items[..n], items[n..])
    ensures |items| <= n ==> Drain(items, n) == (items, [])
  {
    if n == 0 {
      assert items[..0] == [] && items[0..] == items;
    } else if items == [] {
      DrainEmpty<T>(n);
    } else {
      var rest := items[1..];
      DrainTakesPrefix(rest, n - 1);
      assert Pop(items) == (Some(items[0]), rest);
      if n <= |items| {
        assert [items[0]] + rest[..n - 1] == items[..n];
        assert rest[n - 1..] == items[n..];
      } else {
        assert [items[0]] + rest == items;
      }
    }
  }

  /**
   * Enqueuing x1..xn on an empty queue and then dequeuing n times yields
   * x1..xn in order and leaves the queue empty, so the next dequeue reports
   * ok = false.
   */
  lemma FifoRoundTrip<T>(xs: seq<T>)
    ensures Drain(EnqueueAll([], xs), |xs|) == (xs, [])
    ensures Pop(Drain(EnqueueAll([], xs), |xs|).1).0 == None
  {
    EnqueueAllAppends([], xs);
    assert EnqueueAll([], xs) == xs;
    DrainTakesPrefix(xs, |xs|);
    assert xs[..|xs|] == xs && xs[|xs|..] == [];
    assert Drain(xs, |xs|) == (xs, []);
  }

  class Queue<T(0)> {
    var items: seq<T>

    /** `NewQueue`: an empty queue. */
    constructor ()
      ensures items == []
    {
      items := [];
    }

    method Enqueue(item: T)
      modifies this
      ensures items == old(items) + [item]
      ensures |items| == |old(items)| + 1
    {
      items := items + [item];
    }

    /** Removes the head; on an empty queue reports ok = false and changes nothing. */
    method Dequeue() returns (item: T, ok: bool)
      modifies this
      ensures ok <==> old(items) != []
      ensures ok ==> item == old(items)[0] && items == old(items)[1..]
      ensures !ok ==> items == old(items)
      ensures Pop(old(items)) == (if ok then Some(item) else None, items)
    {
      if |items| == 0 {
        var zero: T := *;
        return zero, false;
      }
      item := items[0];
      items := items[1..];
      ok := true;
    }

    /** What `Dequeue` would return, without removing it. */
    method Peek() returns (item: T, ok: bool)
      ensures ok <==> items != []
      ensures ok ==> item == items[0]
      ensures Pop(items).0 == if ok then Some(item) else None
    {
      if |items| == 0 {
        var zero: T := *;
        return zero, false;
      }
      return items[0], true;
    }

    method Size() returns (n: int)
      ensures n == |items|
    {
      return |items|;
    }

    method IsEmpty() returns (empty: bool)
      ensures empty <==> |items| == 0
    {
      return |items| == 0;
    }

    /** Replaces the contents by a fresh empty slice; the result does not depend on the old contents. */
    method Clear()
      modifies this
      ensures items == []
    {
      items := [];
    }
  }
}
