/**
 * The queue-with-preemption scheduler shared by the toast provider
 * (globalFeedbackSnackbarProvider.js) and the dialog provider (dialogProvider.js):
 * a pending list, a single current slot, three producer operations and the
 * promotion effect that moves the head of the list into an empty slot.
 */
module ItemScheduler {
  import opened Wrappers

  /** The two state cells of a provider: the pending list and the current slot. */
  datatype State<T> = State(queue: seq<T>, current: Option<T>)

  function Empty<T>(): State<T> {
    State([], None)
  }

  /** The items the scheduler still holds: the current one (if any), then the pending ones in order. */
  function Items<T>(s: State<T>): seq<T> {
    (if s.current.Some? then [s.current.value] else []) + s.queue
  }

  /** What holds once the promotion effect has run: an empty slot means an empty queue. */
  predicate Settled<T>(s: State<T>) {
    s.current.None? ==> s.queue == []
  }

  /** enqueue: the new item goes behind everything already held; the slot is untouched. */
  function Append<T>(s: State<T>, x: T): (r: State<T>)
    ensures Items(r) == Items(s) + [x]
    ensures r.current == s.current
  {
    State(s.queue + [x], s.current)
  }

  /** close: the slot is emptied and the current item is dropped; the queue is untouched. */
  function Cleared<T>(s: State<T>): (r: State<T>)
    ensures Items(r) == s.queue
    ensures r.current == None
  {
    State(s.queue, None)
  }

  /** replaceAndEnqueue: the new item goes in front of the queue, then the slot is cleared. */
  function PrependAndClear<T>(s: State<T>, x: T): (r: State<T>)
    ensures Items(r) == [x] + s.queue
    ensures r.current == None
  {
    Cleared(State([x] + s.queue, s.current))
  }

  /** processQueue: a non-empty queue gives up its head to the slot; an empty queue changes nothing. */
  function Promote<T>(s: State<T>): (r: State<T>)
    ensures s.queue == [] ==> r == s
    ensures s.queue != [] ==> r.current == Some(s.queue[0]) && Items(r) == s.queue
    ensures s.current.None? ==> Items(r) == Items(s)
  {
    if |s.queue| > 0 then State(s.queue[1..], Some(s.queue[0])) else s
  }

  /** The promotion effect: it calls processQueue only when the slot is empty. */
  function Settle<T>(s: State<T>): (r: State<T>)
    ensures Settled(r)
    ensures Items(r) == Items(s)
    ensures s.current.Some? ==> r == s
  {
    if s.current.None? && |s.queue| > 0 then Promote(s) else s
  }

  /**
   * close is idempotent, and once the effect has settled, closing an empty slot changes
   * nothing: no item is dropped and none is promoted.
   */
  lemma CloseOnEmptySlot<T>(s: State<T>)
    ensures Cleared(Cleared(s)) == Cleared(s)
    ensures Settled(s) && s.current.None? ==> Settle(Cleared(s)) == s
  {
  }

  /** The item the promotion effect moves into the slot, if it moves one. */
  function Promoted<T>(s: State<T>): seq<T> {
    if s.current.None? && |s.queue| > 0 then [s.queue[0]] else []
  }

  /** A producer's call on the scheduler. */
  datatype Op<T> = Enqueue(item: T) | ReplaceAndEnqueue(item: T) | Close

  /** The state update an operation makes, before the promotion effect runs. */
  function Apply<T>(s: State<T>, op: Op<T>): State<T> {
    match op
    case Enqueue(x) => Append(s, x)
    case ReplaceAndEnqueue(x) => PrependAndClear(s, x)
    case Close => Cleared(s)
  }

  /** The final state of a run and the items that became current during it, in that order. */
  datatype Trace<T> = Trace(final: State<T>, shown: seq<T>)

  /** Runs the operations one after another, each followed by the promotion effect. */
  function Run<T>(s: State<T>, ops: seq<Op<T>>): Trace<T>
    decreases |ops|
  {
    if ops == [] then Trace(s, [])
    else
      var t := Apply(s, ops[0]);
      var rest := Run(Settle(t), ops[1..]);
      Trace(rest.final, Promoted(t) + rest.shown)
  }

  /** The items the operations pass to enqueue, in call order. */
  function Enqueued<T>(ops: seq<Op<T>>): seq<T> {
    if ops == [] then []
    else (if ops[0].Enqueue? then [ops[0].item] else []) + Enqueued(ops[1..])
  }

  /** The items the operations pass to enqueue or replaceAndEnqueue. */
  function Inserted<T>(ops: seq<Op<T>>): seq<T> {
    if ops == [] then []
    else (if ops[0].Close? then [] else [ops[0].item]) + Inserted(ops[1..])
  }

  predicate NoPreemption<T>(ops: seq<Op<T>>) {
    forall i :: 0 <= i < |ops| ==> !ops[i].ReplaceAndEnqueue?
  }

  /** Promotion takes the queue's head: what was promoted, followed by what is left, is what was queued. */
  lemma SettleSplitsQueue<T>(t: State<T>)
    ensures Promoted(t) + Settle(t).queue == t.queue
  {
    if t.current.None? && |t.queue| > 0 {
      assert t.queue == [t.queue[0]] + t.queue[1..];
    }
  }

  /**
   * FIFO: with enqueue and close only, the items that become current, followed by
   * the ones still pending, are exactly the ones that were pending at the start
   * followed by the enqueued ones, in call order.
   */
  lemma {:induction false} ShownInInsertionOrder<T>(s: State<T>, ops: seq<Op<T>>)
    requires NoPreemption(ops)
    ensures Run(s, ops).shown + Run(s, ops).final.queue == s.queue + Enqueued(ops)
    decreases |ops|
  {
    if ops != [] {
      var t := Apply(s, ops[0]);
      var rest := Run(Settle(t), ops[1..]);
      NoPreemptionTail(ops);
      ShownInInsertionOrder(Settle(t), ops[1..]);
      SettleSplitsQueue(t);
      EnqueueStepQueue(s, ops);
      Regroup(Promoted(t), rest.shown, rest.final.queue, Settle(t).queue, Enqueued(ops[1..]));
    }
  }

  /** Regrouping a concatenation, proved apart from the induction above to keep that proof small. */
  lemma Regroup<T>(a: seq<T>, b: seq<T>, c: seq<T>, d: seq<T>, e: seq<T>)
    requires b + c == d + e
    ensures (a + b) + c == (a + d) + e
  {
    calc {
      (a + b) + c;
      a + (b + c);
      a + (d + e);
      (a + d) + e;
    }
  }

  lemma NoPreemptionTail<T>(ops: seq<Op<T>>)
    requires ops != [] && NoPreemption(ops)
    ensures !ops[0].ReplaceAndEnqueue? && NoPreemption(ops[1..])
  {
    forall i | 0 <= i < |ops[1..]| ensures !ops[1..][i].ReplaceAndEnqueue? {
      assert ops[1..][i] == ops[i + 1];
    }
  }

  /** An enqueue or a close adds to the queue exactly what it contributes to Enqueued. */
  lemma EnqueueStepQueue<T>(s: State<T>, ops: seq<Op<T>>)
    requires ops != [] && !ops[0].ReplaceAndEnqueue?
    ensures Apply(s, ops[0]).queue + Enqueued(ops[1..]) == s.queue + Enqueued(ops)
  {
    var head := if ops[0].Enqueue? then [ops[0].item] else [];
    assert Enqueued(ops) == head + Enqueued(ops[1..]);
    assert Apply(s, ops[0]).queue == s.queue + head;
  }

  /**
   * Preemption discards: from a settled state whose slot holds `a`, replaceAndEnqueue(x)
   * followed by the promotion effect makes `x` current, leaves the queue as it was, and
   * `a` is held no more (one occurrence of it is gone).
   */
  lemma ReplaceDiscardsCurrent<T>(s: State<T>, x: T)
    requires s.current.Some?
    ensures Settle(PrependAndClear(s, x)) == State(s.queue, Some(x))
    ensures multiset(Items(Settle(PrependAndClear(s, x))))
         == multiset(Items(s)) - multiset{s.current.value} + multiset{x}
  {
    var t := PrependAndClear(s, x);
    assert t.queue == [x] + s.queue;
    assert t.queue[1..] == s.queue;
  }

  /**
   * A discarded item never comes back: every item that becomes current during a run
   * was pending at the start or was passed to enqueue or replaceAndEnqueue during it.
   * In particular the item current at the start is never shown again unless it was
   * also pending or produced anew.
   */
  lemma {:induction false} ShownWereQueuedOrInserted<T>(s: State<T>, ops: seq<Op<T>>, y: T)
    requires y in Run(s, ops).shown
    ensures y in s.queue || y in Inserted(ops)
    decreases |ops|
  {
    if ops != [] {
      var t := Apply(s, ops[0]);
      var rest := Run(Settle(t), ops[1..]);
      assert forall z :: z in t.queue ==> z in s.queue || z in Inserted(ops) by {
        forall z | z in t.queue ensures z in s.queue || z in Inserted(ops) {
          match ops[0]
          case Enqueue(x) =>
          case ReplaceAndEnqueue(x) =>
          case Close =>
        }
      }
      if y in Promoted(t) {
        assert y == t.queue[0];
      } else {
        assert y in rest.shown;
        ShownWereQueuedOrInserted(Settle(t), ops[1..], y);
        SettleSplitsQueue(t);
        if y in Settle(t).queue {
          assert y in t.queue;
        }
      }
    }
  }

  /** The scheduler's state cells, updated in place by the provider's operations. */
  class Scheduler<T> {
    var queue: seq<T>
    var current: Option<T>

    function Model(): State<T>
      reads this
    {
      State(queue, current)
    }

    constructor ()
      ensures Model() == Empty()
    {
      queue := [];
      current := None;
    }

    method Enqueue(x: T)
      modifies this
      ensures Model() == Append(old(Model()), x)
    {
      queue := queue + [x];
    }

    method CloseCurrent()
      modifies this
      ensures Model() == Cleared(old(Model()))
    {
      current := None;
    }

    method ReplaceAndEnqueue(x: T)
      modifies this
      ensures Model() == PrependAndClear(old(Model()), x)
    {
      queue := [x] + queue;
      CloseCurrent();
    }

    method ProcessQueue()
      modifies this
      ensures Model() == Promote(old(Model()))
    {
      if |queue| > 0 {
        current := Some(queue[0]);
        queue := queue[1..];
      }
    }

    /** The promotion effect, run after every change of the two cells. */
    method Dispatch()
      modifies this
      ensures Model() == Settle(old(Model()))
      ensures Settled(Model())
    {
      if current.None? && |queue| > 0 {
        ProcessQueue();
      }
    }
  }
}
