/** The I/O manager's table of registered events: per descriptor which events are wanted and who waits
    for each, with the kernel's interest list kept in step. */
module EventTable {
  import opened Common

  /** Who waits: a fiber, or a callback; and the scheduler it will be handed to. */
  datatype Task = Fiber(id: int) | Call(id: int)
  datatype Waiter = Waiter(scheduler: int, task: Task)

  // ---- the ledger ------------------------------------------------------------------------------------

  /** Every waiter ever accepted, numbered in order, and what became of it: it still waits at a slot, it
      was sent to its scheduler (in this order), or it was dropped. */
  datatype Ledger = Ledger(accepted: seq<Waiter>, waiting: map<Slot, int>, sent: seq<int>, dropped: set<int>)

  ghost predicate Sorts(l: Ledger, n: int)
  {
    n in l.waiting.Values || n in l.sent || n in l.dropped
  }

  /** Each accepted waiter is in exactly one of the three places, once. */
  ghost predicate Balanced(l: Ledger)
  {
    && (forall n :: 0 <= n < |l.accepted| <==> Sorts(l, n))
    && (forall s, t :: s in l.waiting && t in l.waiting && l.waiting[s] == l.waiting[t] ==> s == t)
    && (forall i, j :: 0 <= i < j < |l.sent| ==> l.sent[i] != l.sent[j])
    && (forall s :: s in l.waiting ==> l.waiting[s] !in l.sent && l.waiting[s] !in l.dropped)
    && (forall n :: n in l.sent ==> n !in l.dropped)
  }

  function Accept(l: Ledger, slot: Slot, w: Waiter): Ledger
  {
    l.(accepted := l.accepted + [w], waiting := l.waiting[slot := |l.accepted|])
  }

  function Send(l: Ledger, slot: Slot): Ledger
    requires slot in l.waiting
  {
    l.(waiting := l.waiting - {slot}, sent := l.sent + [l.waiting[slot]])
  }

  function Drop(l: Ledger, slot: Slot): Ledger
    requires slot in l.waiting
  {
    l.(waiting := l.waiting - {slot}, dropped := l.dropped + {l.waiting[slot]})
  }

  lemma AcceptBalanced(l: Ledger, slot: Slot, w: Waiter)
    requires Balanced(l) && slot !in l.waiting
    ensures Balanced(Accept(l, slot, w)) && |Accept(l, slot, w).waiting| == |l.waiting| + 1
  {
    var l', k := Accept(l, slot, w), |l.accepted|;
    assert !Sorts(l, k);
    forall n
      ensures 0 <= n < |l'.accepted| <==> Sorts(l', n)
    {
      if n == k {
        assert l'.waiting[slot] == n;
      } else {
        assert 0 <= n < |l.accepted| <==> Sorts(l, n);
        Values(l.waiting, l'.waiting, slot, n);
      }
    }
    forall s | s in l.waiting
      ensures l.waiting[s] != k
    {
      assert l.waiting[s] in l.waiting.Values;
    }
  }

  /** A value other than the one at the key that changed is in both maps or in neither. */
  lemma Values(m: map<Slot, int>, m': map<Slot, int>, slot: Slot, n: int)
    requires forall s :: s != slot ==> (s in m <==> s in m') && (s in m ==> m[s] == m'[s])
    requires (slot in m ==> m[slot] != n) && (slot in m' ==> m'[slot] != n)
    ensures n in m.Values <==> n in m'.Values
  {
    if n in m.Values {
      var s :| s in m && m[s] == n;
      assert m'[s] == n;
    }
    if n in m'.Values {
      var s :| s in m' && m'[s] == n;
      assert m[s] == n;
    }
  }

  lemma LeaveBalanced(l: Ledger, slot: Slot)
    requires Balanced(l) && slot in l.waiting
    ensures Balanced(Send(l, slot)) && Balanced(Drop(l, slot))
    ensures |l.waiting - {slot}| == |l.waiting| - 1
  {
    var k, rest := l.waiting[slot], l.waiting - {slot};
    assert l.waiting == rest[slot := k];
    forall n
      ensures 0 <= n < |l.accepted| <==> Sorts(Send(l, slot), n)
      ensures 0 <= n < |l.accepted| <==> Sorts(Drop(l, slot), n)
    {
      assert 0 <= n < |l.accepted| <==> Sorts(l, n);
      if n == k {
        assert l.waiting[slot] in l.waiting.Values;
        assert Send(l, slot).sent[|l.sent|] == n;
      } else {
        Values(l.waiting, rest, slot, n);
      }
    }
  }

  ghost function Below(n: nat): (r: set<int>)
    ensures |r| == n && forall k :: k in r <==> 0 <= k < n
  {
    if n == 0 then {} else Below(n - 1) + {n - 1}
  }

  lemma {:induction false} DistinctSize(s: seq<int>)
    requires forall i, j :: 0 <= i < j < |s| ==> s[i] != s[j]
    ensures |set n | n in s| == |s|
  {
    if s != [] {
      var front, last := s[..|s| - 1], s[|s| - 1];
      DistinctSize(front);
      assert s == front + [last];
      assert (set n | n in s) == (set n | n in front) + {last};
    }
  }

  lemma {:induction false} InjectiveSize(m: map<Slot, int>)
    requires forall s, t :: s in m && t in m && m[s] == m[t] ==> s == t
    ensures |m.Values| == |m|
    decreases |m|
  {
    if m != map[] {
      var slot :| slot in m;
      var rest := m - {slot};
      assert m == rest[slot := m[slot]];
      InjectiveSize(rest);
      assert m.Values == rest.Values + {m[slot]};
    } else {
      assert m.Values == {};
    }
  }

  /** Accepted waiters are those delivered, those dropped and those still registered. */
  lemma WaitersConserved(l: Ledger)
    requires Balanced(l)
    ensures |l.accepted| == |l.sent| + |l.dropped| + |l.waiting|
  {
    var all, sent, waiting := Below(|l.accepted|), (set n | n in l.sent), l.waiting.Values;
    DistinctSize(l.sent);
    InjectiveSize(l.waiting);
    Apart(l);
    assert all == sent + l.dropped + waiting by { Together(l); }
    hide Balanced;
    DisjointSize(sent, l.dropped, waiting);
  }

  lemma Together(l: Ledger)
    requires Balanced(l)
    ensures Below(|l.accepted|) == (set n | n in l.sent) + l.dropped + l.waiting.Values
  {
    forall n
      ensures n in Below(|l.accepted|) <==> n in l.sent || n in l.dropped || n in l.waiting.Values
    {
      assert n in Below(|l.accepted|) <==> Sorts(l, n);
    }
  }

  lemma Apart(l: Ledger)
    requires Balanced(l)
    ensures (set n | n in l.sent) !! l.dropped && ((set n | n in l.sent) + l.dropped) !! l.waiting.Values
  {
    forall n | n in l.waiting.Values
      ensures n !in l.sent && n !in l.dropped
    {
      var slot :| slot in l.waiting && l.waiting[slot] == n;
    }
    var sent := set n | n in l.sent;
    assert forall n :: n in sent ==> n !in l.dropped;
    assert forall n :: n in sent + l.dropped ==> n !in l.waiting.Values;
  }

  lemma DisjointSize(a: set<int>, b: set<int>, c: set<int>)
    requires a !! b && (a + b) !! c
    ensures |a + b + c| == |a| + |b| + |c|
  {
    assert |a + b| == |a| + |b|;
  }

  // ---- contexts ----------------------------------------------------------------------------------------

  datatype EventContext = EventContext(scheduler: Option<int>, fiber: Option<int>, cb: Option<int>)

  const EMPTY := EventContext(None, None, None)

  function ContextOf(w: Waiter): EventContext
  {
    match w.task
    case Fiber(f) => EventContext(Some(w.scheduler), Some(f), None)
    case Call(c) => EventContext(Some(w.scheduler), None, Some(c))
  }

  class FdContext {
    const fd: int
    var events: set<Event>
    var read: EventContext
    var write: EventContext

    constructor (fd: int)
      ensures this.fd == fd && events == {} && read == EMPTY && write == EMPTY
    {
      this.fd, events, read, write := fd, {}, EMPTY, EMPTY;
    }

    function GetContext(e: Event): EventContext
      reads this
    {
      match e case READ => read case WRITE => write
    }

    method SetContext(e: Event, c: EventContext)
      modifies `read, `write
      ensures GetContext(e) == c && forall d :: d != e ==> GetContext(d) == old(GetContext(d))
    {
      match e
      case READ => read := c;
      case WRITE => write := c;
    }

    /** Sets or clears an event's bit along with its context. */
    method Mark(e: Event, on: bool, c: EventContext)
      modifies this
      ensures events == (if on then old(events) + {e} else old(events) - {e}) && GetContext(e) == c
      ensures forall d :: d != e ==> GetContext(d) == old(GetContext(d))
    {
      events := if on then events + {e} else events - {e};
      SetContext(e, c);
    }

    /** Clears the event and hands its waiter over. The event must be registered. */
    method TriggerEvent(e: Event, ghost w: Waiter) returns (r: Waiter)
      requires e in events && GetContext(e) == ContextOf(w)
      modifies this
      ensures r == w && events == old(events) - {e} && GetContext(e) == EMPTY
      ensures forall d :: d != e ==> GetContext(d) == old(GetContext(d))
    {
      events := events - {e};
      var ctx := GetContext(e);
      if ctx.cb.Some? {
        r := Waiter(ctx.scheduler.value, Call(ctx.cb.value));
      } else {
        r := Waiter(ctx.scheduler.value, Fiber(ctx.fiber.value));
      }
      SetContext(e, EMPTY);
    }
  }

  // ---- the manager -------------------------------------------------------------------------------------

  datatype Op = ADD | MOD | DEL
  datatype Added = Accepted | KernelError | AlreadyRegistered

  /** What epoll reports of a descriptor. */
  datatype Report = Report(fd: int, input: bool, output: bool, error: bool, hangup: bool)
  datatype Dispatched = Handled | NothingWanted | CtlFailed | AssertionFailed

  /** An error or hang-up counts as both events. */
  function RealEvents(r: Report): set<Event>
  {
    (if r.input || r.error || r.hangup then {READ} else {}) + (if r.output || r.error || r.hangup then {WRITE} else {})
  }

  /** The bits of every descriptor. */
  ghost function BitsOf(ctxs: seq<FdContext>): (bits: seq<set<Event>>)
    reads ctxs
    ensures |bits| == |ctxs| && forall i :: 0 <= i < |bits| ==> bits[i] == ctxs[i].events
  {
    seq(|ctxs|, i requires 0 <= i < |ctxs| reads ctxs => ctxs[i].events)
  }

  /** The kernel's interest list is exactly the bits that are set. */
  ghost predicate Interest(kernel: map<int, set<Event>>, bits: seq<set<Event>>)
  {
    && (forall i :: 0 <= i < |bits| ==> (i in kernel <==> bits[i] != {}) && (i in kernel ==> kernel[i] == bits[i]))
    && (forall i :: i in kernel ==> 0 <= i < |bits|)
  }

  class IOManager {
    var fdContexts: seq<FdContext>
    var pendingEventCount: int
    var scheduled: seq<Waiter>              // handed to their schedulers, in order
    ghost var kernel: map<int, set<Event>>  // the epoll interest list
    ghost var ledger: Ledger

    /** Slot i, e is registered exactly if its bit is set and then holds exactly the waiter accepted for
        it; otherwise it is empty. */
    ghost predicate SlotAgrees(i: int, e: Event)
      requires 0 <= i < |fdContexts|
      reads `fdContexts, `ledger, fdContexts
    {
      && fdContexts[i].fd == i
      && (e in fdContexts[i].events <==> Slot(i, e) in ledger.waiting)
      && (e in fdContexts[i].events ==>
            && 0 <= ledger.waiting[Slot(i, e)] < |ledger.accepted|
            && fdContexts[i].GetContext(e) == ContextOf(ledger.accepted[ledger.waiting[Slot(i, e)]]))
      && (e !in fdContexts[i].events ==> fdContexts[i].GetContext(e) == EMPTY)
    }

    ghost predicate Table()
      reads `fdContexts, `ledger, fdContexts
    {
      && |fdContexts| >= 32
      && (forall i, e :: 0 <= i < |fdContexts| ==> SlotAgrees(i, e))
      && (forall slot :: slot in ledger.waiting ==> 0 <= slot.fd < |fdContexts|)
    }

    ghost predicate Books()
      reads `ledger, `pendingEventCount, `scheduled
    {
      && Balanced(ledger)
      && pendingEventCount == |ledger.waiting|
      && |scheduled| == |ledger.sent|
      && (forall k :: 0 <= k < |scheduled| ==>
            0 <= ledger.sent[k] < |ledger.accepted| && scheduled[k] == ledger.accepted[ledger.sent[k]])
    }

    ghost predicate Valid()
      reads this, fdContexts
    {
      Table() && Books() && Interest(kernel, BitsOf(fdContexts))
    }

    /** epoll_ctl, which the kernel refuses unless ADD is for a new descriptor and MOD and DEL for one it
        knows; fault stands for any other failure. */
    method EpollCtl(op: Op, fd: int, events: set<Event>, fault: bool) returns (ok: bool)
      requires op == ADD <==> fd !in kernel
      modifies `kernel
      ensures ok == !fault
      ensures fault ==> kernel == old(kernel)
      ensures !fault ==> kernel == if op == DEL then old(kernel) - {fd} else old(kernel)[fd := events]
    {
      ok := !fault;
      if ok {
        kernel := if op == DEL then kernel - {fd} else kernel[fd := events];
      }
    }

    method ContextResize(size: nat)
      requires size >= |fdContexts|
      modifies `fdContexts
      ensures |fdContexts| == size && fdContexts[..|old(fdContexts)|] == old(fdContexts)
      ensures forall i :: |old(fdContexts)| <= i < size ==>
        && fresh(fdContexts[i]) && fdContexts[i].fd == i && fdContexts[i].events == {}
        && fdContexts[i].read == EMPTY && fdContexts[i].write == EMPTY
    {
      while |fdContexts| < size
        invariant |old(fdContexts)| <= |fdContexts| <= size && fdContexts[..|old(fdContexts)|] == old(fdContexts)
        invariant forall i :: |old(fdContexts)| <= i < |fdContexts| ==>
          && fresh(fdContexts[i]) && fdContexts[i].fd == i && fdContexts[i].events == {}
          && fdContexts[i].read == EMPTY && fdContexts[i].write == EMPTY
      {
        var ctx := new FdContext(|fdContexts|);
        fdContexts := fdContexts + [ctx];
      }
    }

    constructor ()
      ensures Valid() && ledger == Ledger([], map[], [], {}) && scheduled == []
      ensures forall i :: 0 <= i < |fdContexts| ==> fresh(fdContexts[i])
    {
      fdContexts, pendingEventCount, scheduled := [], 0, [];
      kernel, ledger := map[], Ledger([], map[], [], {});
      new;
      ContextResize(32);
    }

    /** Hands the waiter of a slot to its scheduler and counts it off. */
    method Schedule(slot: Slot, w: Waiter)
      requires Books() && slot in ledger.waiting && 0 <= ledger.waiting[slot] < |ledger.accepted|
      requires w == ledger.accepted[ledger.waiting[slot]]
      modifies `pendingEventCount, `scheduled, `ledger
      ensures Books() && ledger == Send(old(ledger), slot) && scheduled == old(scheduled) + [w]
    {
      LeaveBalanced(ledger, slot);
      hide Balanced;
      scheduled := scheduled + [w];
      ledger := Send(ledger, slot);
      pendingEventCount := pendingEventCount - 1;
    }

    /** Triggers a registered event and counts it off. */
    method Trigger(fd: int, e: Event)
      requires Table() && Books() && Slot(fd, e) in ledger.waiting
      modifies `pendingEventCount, `scheduled, `ledger, fdContexts[fd]
      ensures Table() && Books() && ledger == Send(old(ledger), Slot(fd, e))
      ensures BitsOf(fdContexts) == old(BitsOf(fdContexts))[fd := old(fdContexts[fd].events) - {e}]
    {
      var slot := Slot(fd, e);
      assert SlotAgrees(fd, e);
      Distinct(fd);
      hide Books, Balanced;
      var w := fdContexts[fd].TriggerEvent(e, ledger.accepted[ledger.waiting[slot]]);
      Schedule(slot, w);
      TableAfter(fd, e);
    }

    /** A change of one slot, in its context and in the ledger alike, leaves all others as they were. */
    twostate lemma TableAfter(new fd: int, new e: Event)
      requires old(Table()) && fdContexts == old(fdContexts) && 0 <= fd < |fdContexts| && SlotAgrees(fd, e)
      requires forall i :: 0 <= i < |fdContexts| && i != fd ==> unchanged(fdContexts[i])
      requires forall d :: d != e ==>
        && (d in fdContexts[fd].events <==> d in old(fdContexts[fd].events))
        && fdContexts[fd].GetContext(d) == old(fdContexts[fd].GetContext(d))
      requires old(ledger.accepted) <= ledger.accepted
      requires forall slot :: slot != Slot(fd, e) ==>
        && (slot in ledger.waiting <==> slot in old(ledger.waiting))
        && (slot in ledger.waiting ==> ledger.waiting[slot] == old(ledger.waiting)[slot])
      ensures Table()
    {
      forall i, d | 0 <= i < |fdContexts|
        ensures SlotAgrees(i, d)
      {
        assert old(SlotAgrees(i, d));
      }
    }

    lemma Distinct(fd: int)
      requires Table() && 0 <= fd < |fdContexts|
      ensures forall i :: 0 <= i < |fdContexts| && i != fd ==> fdContexts[i] != fdContexts[fd]
    {
      assert SlotAgrees(fd, READ);
      forall i | 0 <= i < |fdContexts|
        ensures fdContexts[i].fd == i
      {
        assert SlotAgrees(i, READ);
      }
    }

    // ---- what callers use ------------------------------------------------------------------------------

    /** Registers the callback, or the current fiber if there is none, for an event of fd. */
    method AddEvent(fd: nat, e: Event, cb: Option<int>, current: int, scheduler: int, fault: bool) returns (r: Added)
      requires Valid()
      modifies this, fdContexts
      ensures Valid() && scheduled == old(scheduled)
      ensures forall i :: 0 <= i < |fdContexts| ==> fdContexts[i] in old(fdContexts) || fresh(fdContexts[i])
      ensures r == AlreadyRegistered <==> Slot(fd, e) in old(ledger.waiting)
      ensures r == KernelError <==> fault && Slot(fd, e) !in old(ledger.waiting)
      ensures var w := Waiter(scheduler, match cb case Some(c) => Call(c) case None => Fiber(current));
        ledger == if r == Accepted then Accept(old(ledger), Slot(fd, e), w) else old(ledger)
    {
      if fd >= |fdContexts| {
        Grow(fd * 3 / 2);
      }
      var ctx := fdContexts[fd];
      assert SlotAgrees(fd, e);
      if e in ctx.events {
        return AlreadyRegistered;
      }
      r := Join(fd, e, Waiter(scheduler, match cb case Some(c) => Call(c) case None => Fiber(current)), fault);
    }

    /** Adds event e of a known descriptor: first in the kernel, then in its context. */
    method Join(fd: int, e: Event, w: Waiter, fault: bool) returns (r: Added)
      requires Valid() && 0 <= fd < |fdContexts| && Slot(fd, e) !in ledger.waiting
      modifies `kernel, `pendingEventCount, `ledger, fdContexts[fd]
      ensures Valid() && r == if fault then KernelError else Accepted
      ensures ledger == if fault then old(ledger) else Accept(old(ledger), Slot(fd, e), w)
    {
      var ctx := fdContexts[fd];
      var op := if ctx.events != {} then MOD else ADD;
      hide Table, Books;
      var ok := EpollCtl(op, fd, ctx.events + {e}, fault);
      if !ok {
        return KernelError;
      }
      assert Interest(kernel, BitsOf(fdContexts)[fd := ctx.events + {e}]);
      hide Interest, BitsOf;
      Register(fd, e, w);
      r := Accepted;
    }

    /** New contexts change nothing that is registered. */
    method Grow(size: nat)
      requires Valid() && size >= |fdContexts|
      modifies `fdContexts
      ensures Valid() && |fdContexts| == size
      ensures fdContexts[..|old(fdContexts)|] == old(fdContexts)
      ensures forall i :: |old(fdContexts)| <= i < size ==> fresh(fdContexts[i])
    {
      ContextResize(size);
      forall i, d | 0 <= i < |fdContexts|
        ensures SlotAgrees(i, d)
      {
        if i < |old(fdContexts)| { assert old(SlotAgrees(i, d)) && fdContexts[i] == old(fdContexts)[i]; }
      }
      assert forall i :: 0 <= i < |old(fdContexts)| ==> BitsOf(fdContexts)[i] == old(BitsOf(fdContexts))[i];
    }

    /** The kernel has the event already; the context follows. */
    method Register(fd: int, e: Event, w: Waiter)
      requires Table() && Books() && 0 <= fd < |fdContexts| && Slot(fd, e) !in ledger.waiting
      modifies `pendingEventCount, `ledger, fdContexts[fd]
      ensures Table() && Books() && ledger == Accept(old(ledger), Slot(fd, e), w)
      ensures BitsOf(fdContexts) == old(BitsOf(fdContexts))[fd := old(fdContexts[fd].events) + {e}]
    {
      hide Books, Balanced;
      assert fdContexts[fd].fd == fd by { assert SlotAgrees(fd, e); }
      Distinct(fd);
      Note(Slot(fd, e), w);
      fdContexts[fd].Mark(e, true, ContextOf(w));
      assert SlotAgrees(fd, e) by { hide Table; }
      TableAfter(fd, e);
    }

    method Note(slot: Slot, w: Waiter)
      requires Books() && slot !in ledger.waiting
      modifies `pendingEventCount, `ledger
      ensures Books() && ledger == Accept(old(ledger), slot, w)
    {
      AcceptBalanced(ledger, slot, w);
      hide Balanced;
      pendingEventCount := pendingEventCount + 1;
      ledger := Accept(ledger, slot, w);
    }

    /** Tells the kernel that of the registered events of fd only left are still wanted. */
    method Narrow(fd: int, left: set<Event>, fault: bool) returns (ok: bool)
      requires Interest(kernel, BitsOf(fdContexts)) && 0 <= fd < |fdContexts| && fdContexts[fd].events != {}
      modifies `kernel
      ensures ok == !fault
      ensures if ok then Interest(kernel, BitsOf(fdContexts)[fd := left]) else kernel == old(kernel)
    {
      ok := EpollCtl(if left != {} then MOD else DEL, fd, left, fault);
    }

    /** Whose bits are set at fd. */
    lemma BitsAreSlots(fd: int, e: Event)
      requires Table() && fd >= 0
      ensures Slot(fd, e) in ledger.waiting <==> fd < |fdContexts| && e in fdContexts[fd].events
    {
      if fd < |fdContexts| { assert SlotAgrees(fd, e); }
    }

    /** Delivers the waiter of an event before its time. */
    method CancelEvent(fd: nat, e: Event, fault: bool) returns (ok: bool)
      requires Valid()
      modifies this, fdContexts
      ensures Valid() && ok == (Slot(fd, e) in old(ledger.waiting) && !fault)
      ensures ledger == if ok then Send(old(ledger), Slot(fd, e)) else old(ledger)
    {
      BitsAreSlots(fd, e);
      if |fdContexts| <= fd {
        return false;
      }
      var ctx := fdContexts[fd];
      if e !in ctx.events {
        return false;
      }
      hide Table, Books, Interest;
      ok := Narrow(fd, ctx.events - {e}, fault);
      if ok {
        Trigger(fd, e);
      }
    }

    /** Counts off the waiter of a slot, which is not told. */
    method Strike(slot: Slot)
      requires Books() && slot in ledger.waiting
      modifies `pendingEventCount, `ledger
      ensures Books() && ledger == Drop(old(ledger), slot)
    {
      LeaveBalanced(ledger, slot);
      hide Balanced;
      pendingEventCount := pendingEventCount - 1;
      ledger := Drop(ledger, slot);
    }

    /** Clears a registered event, its waiter being told nothing. */
    method Discard(fd: int, e: Event)
      requires Table() && Books() && Slot(fd, e) in ledger.waiting
      modifies `pendingEventCount, `ledger, fdContexts[fd]
      ensures Table() && Books() && ledger == Drop(old(ledger), Slot(fd, e))
      ensures BitsOf(fdContexts) == old(BitsOf(fdContexts))[fd := old(fdContexts[fd].events) - {e}]
    {
      assert SlotAgrees(fd, e);
      Distinct(fd);
      hide Books, Balanced;
      fdContexts[fd].Mark(e, false, EMPTY);
      Strike(Slot(fd, e));
      TableAfter(fd, e);
    }

    /** Takes the event back; its waiter is dropped. */
    method DelEvent(fd: nat, e: Event, fault: bool) returns (ok: bool)
      requires Valid()
      modifies this, fdContexts
      ensures Valid() && scheduled == old(scheduled) && ok == (Slot(fd, e) in old(ledger.waiting) && !fault)
      ensures ledger == if ok then Drop(old(ledger), Slot(fd, e)) else old(ledger)
    {
      BitsAreSlots(fd, e);
      if |fdContexts| <= fd {
        return false;
      }
      var ctx := fdContexts[fd];
      if e !in ctx.events {
        return false;
      }
      hide Table, Books, Interest;
      ok := Narrow(fd, ctx.events - {e}, fault);
      if ok {
        Discard(fd, e);
      }
    }

    /** Triggers event e of fd if it is wanted; triggering fails when it is not registered. */
    method TriggerIf(fd: int, e: Event, wanted: bool) returns (ok: bool)
      requires Table() && Books() && 0 <= fd < |fdContexts|
      modifies `pendingEventCount, `scheduled, `ledger, fdContexts[fd]
      ensures ok == (wanted ==> e in old(fdContexts[fd].events))
      ensures ok ==> Table() && Books() && ledger == SendIf(old(ledger), Slot(fd, e), wanted)
      ensures var events := old(fdContexts[fd].events);
        ok ==> BitsOf(fdContexts) == old(BitsOf(fdContexts))[fd := if wanted then events - {e} else events]
    {
      BitsAreSlots(fd, e);
      hide Table, Books, Send;
      if wanted {
        if e !in fdContexts[fd].events {
          return false;
        }
        Trigger(fd, e);
      }
      ok := true;
    }

    /** Triggers the events of fd in wanted, the read first, and fails at one that is not registered. */
    method TriggerAll(fd: int, wanted: set<Event>) returns (ok: bool)
      requires Table() && Books() && 0 <= fd < |fdContexts|
      modifies `pendingEventCount, `scheduled, `ledger, fdContexts[fd]
      ensures ok == (wanted <= old(fdContexts[fd].events))
      ensures ok ==> Table() && Books() && ledger == SendAll(old(ledger), fd, wanted)
      ensures ok ==> BitsOf(fdContexts) == old(BitsOf(fdContexts))[fd := old(fdContexts[fd].events) - wanted]
    {
      hide Table, Books, SendIf;
      ghost var events := fdContexts[fd].events;
      SubsetByEvent(wanted, events);
      ok := TriggerIf(fd, READ, READ in wanted);
      if ok {
        ok := TriggerIf(fd, WRITE, WRITE in wanted);
      }
      if ok {
        EqualByEvent(fdContexts[fd].events, events - wanted);
      }
    }

    /** Delivers every waiter of fd. */
    method CancelAll(fd: nat, fault: bool) returns (ok: bool)
      requires Valid()
      modifies this, fdContexts
      ensures Valid() && ok == (AnyAt(old(ledger), fd) && !fault)
      ensures ledger == if ok then SendAll(old(ledger), fd, WantedOf(old(ledger), fd)) else old(ledger)
    {
      BitsAreSlots(fd, READ);
      BitsAreSlots(fd, WRITE);
      if |fdContexts| <= fd {
        return false;
      }
      var ctx := fdContexts[fd];
      if ctx.events == {} {
        return false;
      }
      WantedAt(ledger, fd, ctx.events);
      hide Table, Books, Interest, WantedOf;
      ok := Narrow(fd, {}, fault);
      if ok {
        ok := TriggerAll(fd, ctx.events);
      }
    }

    /** Serves one report of epoll_wait. It acts on everything reported, registered or not, so it fails
        exactly when some but not all of the reported events are registered. */
    method Dispatch(r: Report, fault: bool) returns (out: Dispatched)
      requires Valid() && 0 <= r.fd < |fdContexts|
      modifies this, fdContexts
      ensures out == Outcome(old(ledger), r, fault)
      ensures out == AssertionFailed || Served(old(ledger), r, fault, out, ledger)
      ensures out == AssertionFailed ==> Served(old(ledger), r, fault, out, old(ledger))
      ensures out != AssertionFailed ==> Valid() && fdContexts == old(fdContexts)
      ensures out == Handled ==> ledger == SendAll(old(ledger), r.fd, RealEvents(r))
      ensures out == NothingWanted || out == CtlFailed ==> ledger == old(ledger)
    {
      hide Served, SendAll;
      ServedOrFailed(ledger, r, fault);
      var ctx := fdContexts[r.fd];
      var reported := RealEvents(r);
      BitsAreSlots(r.fd, READ);
      BitsAreSlots(r.fd, WRITE);
      WantedAt(ledger, r.fd, ctx.events);
      if ctx.events * reported == {} {
        return NothingWanted;
      }
      hide Table, Books, Interest, RealEvents, WantedOf;
      var ok := Narrow(r.fd, ctx.events - reported, fault);
      if !ok {
        return CtlFailed;
      }
      var done := TriggerAll(r.fd, reported);
      return if done then Handled else AssertionFailed;
    }

    /** Serves all reports of one epoll_wait, until an assertion fails; faults says at which of them the
        kernel refuses. */
    method DispatchAll(reports: seq<Report>, faults: seq<bool>) returns (ok: bool)
      requires Valid() && forall r :: r in reports ==> 0 <= r.fd < |fdContexts|
      requires |faults| == |reports|
      modifies this, fdContexts
      ensures ok ==> Valid() && ledger == ServeAll(old(ledger), reports, faults)
      ensures ok == !FailsAt(old(ledger), reports, faults)
    {
      hide Table, Books, Interest, Outcome, SendAll, ServeAll, FailsAt, Served;
      var i := 0;
      ghost var was := ledger;
      assert reports[0..] == reports && faults[0..] == faults;
      while i < |reports|
        invariant 0 <= i <= |reports| && Valid() && fdContexts == old(fdContexts)
        invariant ServeAll(was, reports, faults) == ServeAll(ledger, reports[i..], faults[i..])
        invariant FailsAt(was, reports, faults) == FailsAt(ledger, reports[i..], faults[i..])
      {
        ServeFrom(ledger, reports, faults, i);
        var out := Dispatch(reports[i], faults[i]);
        if out == AssertionFailed {
          return false;
        }
        i := i + 1;
      }
      assert reports[i..] == [] && faults[i..] == [];
      ServeNone(ledger);
      return true;
    }
  }

  /** What serving one report, and what serving a list of them, makes of the ledger. */
  function Serve(l: Ledger, r: Report, fault: bool): Ledger
  {
    if Outcome(l, r, fault) == Handled then SendAll(l, r.fd, RealEvents(r)) else l
  }

  function ServeAll(l: Ledger, reports: seq<Report>, faults: seq<bool>): Ledger
    requires |faults| == |reports|
    decreases |reports|
  {
    if reports == [] then l else ServeAll(Serve(l, reports[0], faults[0]), reports[1..], faults[1..])
  }

  predicate FailsAt(l: Ledger, reports: seq<Report>, faults: seq<bool>)
    requires |faults| == |reports|
    decreases |reports|
  {
    reports != [] &&
    (Outcome(l, reports[0], faults[0]) == AssertionFailed ||
     FailsAt(Serve(l, reports[0], faults[0]), reports[1..], faults[1..]))
  }

  lemma ServeFrom(l: Ledger, reports: seq<Report>, faults: seq<bool>, i: nat)
    requires |faults| == |reports| && i < |reports|
    ensures ServeAll(l, reports[i..], faults[i..])
         == ServeAll(Serve(l, reports[i], faults[i]), reports[i + 1..], faults[i + 1..])
    ensures FailsAt(l, reports[i..], faults[i..]) <==>
      Outcome(l, reports[i], faults[i]) == AssertionFailed ||
      FailsAt(Serve(l, reports[i], faults[i]), reports[i + 1..], faults[i + 1..])
  {
    hide Outcome, SendAll;
    assert reports[i..][1..] == reports[i + 1..] && faults[i..][1..] == faults[i + 1..];
  }

  lemma ServeNone(l: Ledger)
    ensures ServeAll(l, [], []) == l && !FailsAt(l, [], [])
  {
  }

  /** What serving a report makes of ledger l, on the report's own fields: input, error and hang-up are for
      the reader, output, error and hang-up for the writer. Nothing happens unless one of those told waits, the
      kernel is only asked then, and the assertion fails if it agrees and another one told does not wait.
      Otherwise exactly those told are sent, the reader first, and whoever was not told still waits. */
  ghost predicate Served(l: Ledger, r: Report, fault: bool, out: Dispatched, l': Ledger)
  {
    var (rd, wr) := (Slot(r.fd, READ), Slot(r.fd, WRITE));
    var toldR, toldW := r.input || r.error || r.hangup, r.output || r.error || r.hangup;
    var wanted := (toldR && rd in l.waiting) || (toldW && wr in l.waiting);
    && (out == NothingWanted <==> !wanted)
    && (out == CtlFailed <==> wanted && fault)
    && (out == AssertionFailed <==>
          wanted && !fault && ((toldR && rd !in l.waiting) || (toldW && wr !in l.waiting)))
    && (out == NothingWanted || out == CtlFailed ==> l' == l)
    && (out == Handled ==>
          && (toldR ==> rd in l.waiting) && (toldW ==> wr in l.waiting)
          && l'.accepted == l.accepted && l'.dropped == l.dropped
          && l'.waiting == l.waiting - (if toldR then {rd} else {}) - (if toldW then {wr} else {})
          && l'.sent == l.sent + (if toldR then [l.waiting[rd]] else []) + (if toldW then [l.waiting[wr]] else []))
  }

  lemma ReportMeans(l: Ledger, r: Report, fault: bool)
    ensures Served(l, r, fault, Outcome(l, r, fault), Serve(l, r, fault))
  {
    var wanted, told := WantedOf(l, r.fd), RealEvents(r);
    SubsetByEvent(told, wanted);
    EqualByEventNone(wanted, told);
  }

  lemma ServedOrFailed(l: Ledger, r: Report, fault: bool)
    ensures var out := Outcome(l, r, fault);
      && (out == AssertionFailed || out == NothingWanted || out == CtlFailed ==> Served(l, r, fault, out, l))
      && (out == Handled ==> Served(l, r, fault, out, SendAll(l, r.fd, RealEvents(r))))
  {
    hide Served, SendAll, RealEvents, Outcome;
    ReportMeans(l, r, fault);
  }

  lemma EqualByEventNone(a: set<Event>, b: set<Event>)
    ensures a * b == {} <==> !(READ in a && READ in b) && !(WRITE in a && WRITE in b)
  {
    if READ in a && READ in b { assert READ in a * b; }
    if WRITE in a && WRITE in b { assert WRITE in a * b; }
    forall e | e in a * b
      ensures (READ in a && READ in b) || (WRITE in a && WRITE in b)
    {
      match e case READ => case WRITE =>
    }
  }

  /** The report names registered events only, or none that is registered. */
  predicate Harmless(l: Ledger, r: Report)
  {
    RealEvents(r) <= WantedOf(l, r.fd) || WantedOf(l, r.fd) * RealEvents(r) == {}
  }

  lemma ServeElsewhere(l: Ledger, r: Report, fault: bool, fd: int)
    requires fd != r.fd
    ensures WantedOf(Serve(l, r, fault), fd) == WantedOf(l, fd)
  {
  }

  /** Reports of distinct descriptors, each harmless by itself or refused by the kernel, are all served: no
      assertion fails. */
  lemma {:induction false} HarmlessReports(l: Ledger, reports: seq<Report>, faults: seq<bool>)
    requires |faults| == |reports|
    requires forall i, j :: 0 <= i < j < |reports| ==> reports[i].fd != reports[j].fd
    requires forall i :: 0 <= i < |reports| ==> faults[i] || Harmless(l, reports[i])
    ensures !FailsAt(l, reports, faults)
    decreases |reports|
  {
    if reports != [] {
      var l', rest, later := Serve(l, reports[0], faults[0]), reports[1..], faults[1..];
      forall i | 0 <= i < |rest|
        ensures later[i] || Harmless(l', rest[i])
      {
        assert faults[i + 1] || Harmless(l, reports[i + 1]);
        ServeElsewhere(l, reports[0], faults[0], reports[i + 1].fd);
      }
      assert faults[0] || Harmless(l, reports[0]);
      HarmlessReports(l', rest, later);
    }
  }

  /** And one that is neither does fail, whatever came before it for other descriptors. */
  lemma {:induction false} HarmfulReportFails(l: Ledger, reports: seq<Report>, faults: seq<bool>, k: nat)
    requires |faults| == |reports|
    requires forall i, j :: 0 <= i < j < |reports| ==> reports[i].fd != reports[j].fd
    requires k < |reports| && !faults[k] && !Harmless(l, reports[k])
    ensures FailsAt(l, reports, faults)
    decreases |reports|
  {
    if k > 0 {
      ServeElsewhere(l, reports[0], faults[0], reports[k].fd);
      HarmfulReportFails(Serve(l, reports[0], faults[0]), reports[1..], faults[1..], k - 1);
    }
  }

  /** Serving keeps every waiter accounted for. */
  lemma {:induction false} ServeBalanced(l: Ledger, reports: seq<Report>, faults: seq<bool>)
    requires Balanced(l) && |faults| == |reports|
    ensures Balanced(ServeAll(l, reports, faults)) && ServeAll(l, reports, faults).accepted == l.accepted
    ensures ServeAll(l, reports, faults).dropped == l.dropped
    decreases |reports|
  {
    if reports != [] {
      hide Balanced;
      SendAllBalanced(l, reports[0].fd, RealEvents(reports[0]));
      ServeBalanced(Serve(l, reports[0], faults[0]), reports[1..], faults[1..]);
    }
  }

  lemma SendAllBalanced(l: Ledger, fd: int, events: set<Event>)
    requires Balanced(l)
    ensures Balanced(SendAll(l, fd, events)) && SendAll(l, fd, events).accepted == l.accepted
    ensures SendAll(l, fd, events).dropped == l.dropped
  {
    hide Balanced;
    if READ in events && Slot(fd, READ) in l.waiting { LeaveBalanced(l, Slot(fd, READ)); }
    var l1 := SendIf(l, Slot(fd, READ), READ in events);
    if WRITE in events && Slot(fd, WRITE) in l1.waiting { LeaveBalanced(l1, Slot(fd, WRITE)); }
  }

  /** A hang-up on a descriptor whose reader alone is registered fails the assertion. */
  method HangUpFails(fd: nat, reader: int) returns (out: Dispatched)
    ensures out == AssertionFailed
  {
    var m := new IOManager();
    assert forall i :: 0 <= i < |m.fdContexts| ==> fresh(m.fdContexts[i]);
    var added := m.AddEvent(fd, READ, None, reader, 0, false);
    assert forall i :: 0 <= i < |m.fdContexts| ==> fresh(m.fdContexts[i]);
    m.BitsAreSlots(fd, READ);
    out := m.Dispatch(Report(fd, false, false, false, true), false);
  }

  lemma SubsetByEvent(a: set<Event>, b: set<Event>)
    ensures a <= b <==> (READ in a ==> READ in b) && (WRITE in a ==> WRITE in b)
  {
    if (READ in a ==> READ in b) && (WRITE in a ==> WRITE in b) {
      forall e | e in a
        ensures e in b
      {
        match e case READ => case WRITE =>
      }
    }
  }

  lemma EqualByEvent(a: set<Event>, b: set<Event>)
    requires (READ in a <==> READ in b) && (WRITE in a <==> WRITE in b)
    ensures a == b
  {
    SubsetByEvent(a, b);
    SubsetByEvent(b, a);
  }

  /** The events of fd somebody waits for. */
  function WantedOf(l: Ledger, fd: int): set<Event>
  {
    (if Slot(fd, READ) in l.waiting then {READ} else {}) + (if Slot(fd, WRITE) in l.waiting then {WRITE} else {})
  }

  lemma WantedAt(l: Ledger, fd: int, events: set<Event>)
    requires READ in events <==> Slot(fd, READ) in l.waiting
    requires WRITE in events <==> Slot(fd, WRITE) in l.waiting
    ensures WantedOf(l, fd) == events
  {
    EqualByEvent(WantedOf(l, fd), events);
  }

  predicate AnyAt(l: Ledger, fd: int) { WantedOf(l, fd) != {} }

  function SendIf(l: Ledger, slot: Slot, wanted: bool): Ledger
  {
    if wanted && slot in l.waiting then Send(l, slot) else l
  }

  /** The waiters of fd for the given events go to their schedulers, the reader first. */
  function SendAll(l: Ledger, fd: int, events: set<Event>): Ledger
  {
    SendIf(SendIf(l, Slot(fd, READ), READ in events), Slot(fd, WRITE), WRITE in events)
  }

  function Outcome(l: Ledger, r: Report, fault: bool): Dispatched
  {
    if WantedOf(l, r.fd) * RealEvents(r) == {} then NothingWanted
    else if fault then CtlFailed
    else if RealEvents(r) <= WantedOf(l, r.fd) then Handled
    else AssertionFailed
  }
}
