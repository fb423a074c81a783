/** `ProducerConsumerQueue`, one critical section per method, and what any history of calls adds up to. */
module ProducerConsumer {
  // ---------------------------------------------------------------- whole histories

  datatype Op<T> = OpPush(item: T) | OpPop | OpPopAll

  /** The items handed out so far, in order, the items still queued, and all items ever pushed. */
  datatype Trace<T> = Trace(out: seq<T>, queue: seq<T>, pushed: seq<T>)

  function Perform<T>(t: Trace<T>, op: Op<T>): Trace<T> {
    match op
    case OpPush(item) => Trace(t.out, t.queue + [item], t.pushed + [item])
    case OpPop => if t.queue == [] then t else Trace(t.out + [t.queue[0]], t.queue[1..], t.pushed)
    case OpPopAll => Trace(t.out + t.queue, [], t.pushed)
  }

  function PerformAll<T>(ops: seq<Op<T>>): Trace<T> {
    if ops == [] then Trace([], [], []) else Perform(PerformAll(ops[..|ops| - 1]), ops[|ops| - 1])
  }

  /** However pushes, single pops and drains interleave, items come out in push order, each once. */
  lemma {:induction false} FirstInFirstOut<T>(ops: seq<Op<T>>)
    ensures var t := PerformAll(ops); t.out + t.queue == t.pushed
  {
    if ops != [] {
      FirstInFirstOut(ops[..|ops| - 1]);
      var t := PerformAll(ops[..|ops| - 1]);
      if t.queue != [] { assert (t.out + [t.queue[0]]) + t.queue[1..] == t.out + t.queue; }
    }
  }

  lemma OneMoreOp<T>(ops: seq<Op<T>>, op: Op<T>)
    ensures PerformAll(ops + [op]) == Perform(PerformAll(ops), op)
  {
    assert (ops + [op])[..|ops|] == ops;
  }

  // ---------------------------------------------------------------- the class

  class ProducerConsumerQueue<T(0)> {
    var queue: seq<T>
    var stopped: bool
    /** The operations so far: the queue is what they leave. */
    ghost var ops: seq<Op<T>>

    ghost predicate Valid()
      reads this
    {
      queue == PerformAll(ops).queue
    }

    constructor ()
      ensures Valid() && queue == [] && !stopped && ops == []
    {
      queue, stopped, ops := [], false, [];
    }

    method Push(item: T)
      requires Valid()
      modifies this`queue, this`ops
      ensures Valid() && ops == old(ops) + [OpPush(item)]
      ensures queue == old(queue) + [item]
    {
      OneMoreOp(ops, OpPush(item));
      ops := ops + [OpPush(item)];
      queue := queue + [item];
    }

    /** The wait is over when the queue is stopped or has an item; a stopped queue is still drained. */
    method WaitAndPop() returns (ok: bool, item: T)
      requires Valid() && (stopped || queue != [])
      modifies this`queue, this`ops
      ensures Valid() && ops == old(ops) + [OpPop]
      ensures ok <==> old(queue) != []
      ensures !ok ==> queue == [] && stopped
      ensures ok ==> old(queue) == [item] + queue && PerformAll(ops).out == PerformAll(old(ops)).out + [item]
    {
      OneMoreOp(ops, OpPop);
      ops := ops + [OpPop];
      if stopped && queue == [] {
        ok, item := false, *;
        return;
      }
      ok, item, queue := true, queue[0], queue[1..];
    }

    method TryPop() returns (ok: bool, item: T)
      requires Valid()
      modifies this`queue, this`ops
      ensures Valid() && ops == old(ops) + [OpPop]
      ensures ok <==> old(queue) != []
      ensures if ok then old(queue) == [item] + queue else queue == old(queue)
      ensures ok ==> PerformAll(ops).out == PerformAll(old(ops)).out + [item]
    {
      OneMoreOp(ops, OpPop);
      ops := ops + [OpPop];
      if queue == [] {
        ok, item := false, *;
        return;
      }
      ok, item, queue := true, queue[0], queue[1..];
    }

    /** The whole content is swapped out in one critical section. */
    method PopAll() returns (local: seq<T>)
      requires Valid()
      modifies this`queue, this`ops
      ensures Valid() && ops == old(ops) + [OpPopAll]
      ensures local == old(queue) && queue == []
      ensures PerformAll(ops).out == PerformAll(old(ops)).out + local
    {
      OneMoreOp(ops, OpPopAll);
      ops := ops + [OpPopAll];
      local := [];
      queue, local := local, queue;
    }

    /** After `stop`, `wait_and_pop` never waits again, and the queue can still be drained. */
    method Stop()
      requires Valid()
      modifies this`stopped
      ensures Valid() && stopped
    {
      stopped := true;
    }
  }
}
