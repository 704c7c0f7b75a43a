/** The fiber semaphore: a count, and a queue of fibers that wait for it to be notified. */
module Semaphores {
  datatype Waiter = Waiter(scheduler: int, fiber: int)

  datatype Op =
    | TryWait(w: Waiter)
    | Wait(w: Waiter)
    | Notify
    | Reset

  /** count and waiting are the semaphore; the rest is its history: who was let through at once, who had to
      queue, and who was handed a permit from the queue, each in order, and all who got through. */
  datatype Sem = Sem(count: nat, waiting: seq<Waiter>,
                     granted: seq<Waiter>, queued: seq<Waiter>, handed: seq<Waiter>, passed: seq<Waiter>)

  function Start(initial: nat): Sem
  {
    Sem(initial, [], [], [], [], [])
  }

  function Grant(s: Sem, w: Waiter): Sem
    requires s.count > 0
  {
    s.(count := s.count - 1, granted := s.granted + [w], passed := s.passed + [w])
  }

  function Step(s: Sem, op: Op): Sem
  {
    match op
    case TryWait(w) => if s.count > 0 then Grant(s, w) else s
    case Wait(w) => if s.count > 0 then Grant(s, w) else s.(waiting := s.waiting + [w], queued := s.queued + [w])
    case Notify =>
      if s.waiting != [] then
        s.(waiting := s.waiting[1..], handed := s.handed + [s.waiting[0]], passed := s.passed + [s.waiting[0]])
      else s.(count := s.count + 1)
    case Reset => s.(count := 0)
  }

  function Run(initial: nat, ops: seq<Op>): Sem
  {
    if ops == [] then Start(initial) else Step(Run(initial, ops[..|ops| - 1]), ops[|ops| - 1])
  }

  // ---- what it should do, from the calls alone -----------------------------------------------------------

  function Notifies(ops: seq<Op>): nat
  {
    if ops == [] then 0 else Notifies(ops[..|ops| - 1]) + if ops[|ops| - 1] == Notify then 1 else 0
  }

  /** All who asked for a permit and meant it, in the order of their calls: every wait, and every tryWait
      made while permits outnumbered those who had asked. */
  function Claims(initial: nat, ops: seq<Op>): seq<Waiter>
  {
    if ops == [] then [] else
      var before, op := ops[..|ops| - 1], ops[|ops| - 1];
      match op
      case Wait(w) => Claims(initial, before) + [w]
      case TryWait(w) =>
        if |Claims(initial, before)| < initial + Notifies(before) then Claims(initial, before) + [w]
        else Claims(initial, before)
      case _ => Claims(initial, before)
  }

  function Min(a: nat, b: nat): nat { if a < b then a else b }

  /** Without reset, permits go to those who claimed one strictly in the order of their calls, as many as
      there are permits: whatever the interleaving, whoever was let through at once or queued. */
  lemma {:induction false} FirstComeFirstServed(initial: nat, ops: seq<Op>)
    requires Reset !in ops
    ensures var s, claims := Run(initial, ops), Claims(initial, ops); var n := Min(initial + Notifies(ops), |claims|);
      && s.passed == claims[..n] && s.waiting == claims[n..]
      && s.count == initial + Notifies(ops) - n
  {
    if ops != [] {
      var before := ops[..|ops| - 1];
      FirstComeFirstServed(initial, before);
      var s, claims := Run(initial, before), Claims(initial, before);
      var n := Min(initial + Notifies(before), |claims|);
      match ops[|ops| - 1]
      case TryWait(w) => assert (claims + [w])[..n] == claims[..n];
      case Wait(w) =>
        assert (claims + [w])[..n] == claims[..n];
        assert (claims + [w])[n..] == claims[n..] + [w];
      case Notify =>
        if s.waiting != [] { assert claims[..n + 1] == claims[..n] + [claims[n]]; }
    }
  }

  /** Permits are neither made nor lost, the count is positive only while nobody waits, and the k-th permit
      handed from the queue goes to the k-th fiber that queued. */
  lemma {:induction false} PermitsConserved(initial: nat, ops: seq<Op>)
    requires Reset !in ops
    ensures var s := Run(initial, ops);
      && initial + Notifies(ops) == s.count + |s.granted| + |s.handed|
      && (s.count > 0 ==> s.waiting == [])
      && s.queued == s.handed + s.waiting
  {
    if ops != [] {
      PermitsConserved(initial, ops[..|ops| - 1]);
      assert ops[|ops| - 1] in ops;
    }
  }

  /** With reset permits do get lost. */
  lemma ResetLosesPermits()
    ensures Run(1, [Reset]).count + |Run(1, [Reset]).granted| + |Run(1, [Reset]).handed| < 1 + Notifies([Reset])
  {
    assert [Reset][..0] == [];
  }

  // ---- the class -------------------------------------------------------------------------------------------

  class FiberSemaphore {
    var concurrency: nat
    var waiters: seq<Waiter>
    ghost var history: Sem

    ghost predicate Valid()
      reads this
    {
      history.count == concurrency && history.waiting == waiters
    }

    constructor (initial: nat)
      ensures Valid() && history == Start(initial)
    {
      concurrency, waiters, history := initial, [], Start(initial);
    }

    method TryWait(w: Waiter) returns (ok: bool)
      requires Valid()
      modifies this
      ensures Valid() && history == Step(old(history), Op.TryWait(w))
      ensures ok == (w in history.passed[|old(history).passed|..])
    {
      history := Step(history, Op.TryWait(w));
      if concurrency > 0 {
        concurrency := concurrency - 1;
        return true;
      }
      return false;
    }

    /** The answer says whether the caller must yield; it has queued then. */
    method Wait(w: Waiter) returns (parked: bool)
      requires Valid()
      modifies this
      ensures Valid() && history == Step(old(history), Op.Wait(w)) && parked == (|waiters| > |old(waiters)|)
    {
      history := Step(history, Op.Wait(w));
      if concurrency > 0 {
        concurrency := concurrency - 1;
        return false;
      }
      waiters := waiters + [w];
      return true;
    }

    /** Hands the permit to the first in the queue, which is scheduled on its scheduler, or keeps it. */
    method Notify() returns (scheduled: seq<Waiter>)
      requires Valid()
      modifies this
      ensures Valid() && history == Step(old(history), Op.Notify) && history.handed == old(history.handed) + scheduled
    {
      history := Step(history, Op.Notify);
      if waiters != [] {
        scheduled := [waiters[0]];
        waiters := waiters[1..];
      } else {
        scheduled := [];
        concurrency := concurrency + 1;
      }
    }

    method Reset()
      requires Valid()
      modifies this
      ensures Valid() && history == Step(old(history), Op.Reset)
    {
      history := Step(history, Op.Reset);
      concurrency := 0;
    }
  }
}
