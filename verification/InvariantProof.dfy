/** Every step keeps the invariant. */
module InvariantProof {
  import opened Common
  import opened RunQueues
  import opened Protocol
  import opened Invariants

  /** The parts that only watch where wake-ups are: each survives a move between places it does not own. */
  lemma Frame(s: State, k: Key, p: Option<Place>)
    requires Inv(s)
    ensures var place := Moved(s.place, k, p); var o := Spot(s.place, k);
      && (o != Some(InQueue) && p != Some(InQueue) ==> QueueInv(s.queue, place, s.calls))
      && (!AtSlot(o) && !AtSlot(p) ==> SlotInv(s.waiters, place, s.calls))
      && (!AtTimer(o) && !AtTimer(p) ==> TimerInv(s.timers, place, s.calls))
      && (!AtSem(o) && !AtSem(p) ==> SemInv(s.sems, place))
      && (!AtWorker(o) && !AtWorker(p) ==> WorkerInv(s.workers, place, s.calls))
      && (k.OfFiber? || (o.Some? && p.Some?) ==> CallInv(s.calls, place, s.ended, s.nextId))
      && (k.OfCall? ==> FiberInv(s.fibers, s.leaving, s.dropped, place))
      && (k.OfFiber? && o.Some? && p.Some? && !p.value.Kept? && !AtSlot(p) ==>
            FiberInv(s.fibers, s.leaving, s.dropped, place))
      && (k.OfCall? || !AtSlot(p) ==> IoInv(s.io, s.fibers, place, s.timedOut, s.calls, s.ended))
  {
    hide QueueInv, SlotInv, TimerInv, SemInv, WorkerInv, HostInv, FiberInv, HandInv, CancelInv, Bags, CountInv,
      CallInv, IdInv, IoInv;
    hide Moved, Spot;
    var place, o := Moved(s.place, k, p), Spot(s.place, k);
    if o != Some(InQueue) && p != Some(InQueue) { QueueFrame(s.queue, s.place, s.calls, k, p); }
    if !AtSlot(o) && !AtSlot(p) { SlotFrame(s.waiters, s.place, s.calls, k, p); }
    if !AtTimer(o) && !AtTimer(p) { TimerFrame(s.timers, s.place, s.calls, k, p); }
    if !AtSem(o) && !AtSem(p) { SemFrame(s.sems, s.place, k, p); }
    if !AtWorker(o) && !AtWorker(p) { WorkerFrame(s.workers, s.place, s.calls, k, p); }
    if k.OfFiber? || (o.Some? && p.Some?) { CallFrame(s.calls, s.place, s.ended, s.nextId, k, p); }
    if k.OfCall? { FiberFrame(s.fibers, s.leaving, s.dropped, s.place, k.id, p); }
    if k.OfFiber? && o.Some? && p.Some? && !p.value.Kept? && !AtSlot(p) {
      FiberMove(s.fibers, s.leaving, s.dropped, s.place, k.fiber, p.value);
    }
    if k.OfCall? || !AtSlot(p) { IoFrame(s.io, s.fibers, s.place, s.timedOut, s.calls, s.ended, k, p); }
  }

  /** Worker w goes on to something else, with the same things in its bags. */
  lemma Switch(s: State, w: Thread, worker: Worker, place: Places)
    requires Inv(s) && w in s.workers && !InTimeout(s.workers[w].pc)
    requires WorkerCore(w, worker, place, s.calls) && SameBags(w, s.place, place)
    requires BatchOf(worker.pc) == BatchOf(s.workers[w].pc) && ReturnOf(worker.pc) == ReturnOf(s.workers[w].pc)
    requires forall k :: AtWorker(Spot(s.place, k)) && !Mine(Spot(s.place, k), w) ==> Spot(place, k) == Spot(s.place, k)
    requires forall k :: AtWorker(Spot(place, k)) && !Mine(Spot(place, k), w) ==> Spot(place, k) == Spot(s.place, k)
    ensures WorkerInv(s.workers[w := worker], place, s.calls)
    ensures CancelInv(s.workers[w := worker], s.cancelling, s.timedOut)
  {
    hide QueueInv, SlotInv, TimerInv, SemInv, WorkerInv, HostInv, FiberInv, HandInv, CancelInv, CallInv, CountInv,
      IdInv, IoInv;
    WorkerAt(s.workers, s.place, s.calls, w);
    hide WorkerCore, Bags, SameBags, Spot;
    BagsStay(w, s.workers[w].pc, worker.pc, s.place, s.calls, place);
    WorkerSet(s.workers, s.place, s.calls, w, worker, place);
    CancelSet(s.workers, s.cancelling, s.timedOut, w, worker);
  }

  lemma PickedWorker(s: State, w: Thread, i: nat, worker: Worker)
    requires Inv(s) && At(s, w, Scanning) && i < |s.queue| && Eligible(s.queue[i], w, s.fibers)
    requires worker == s.workers[w].(pc := Holding(s.queue[i]))
    ensures var place := Moved(s.place, KeyOf(s.queue[i].job), Some(InHand(w)));
      WorkerInv(s.workers[w := worker], place, s.calls) && CancelInv(s.workers[w := worker], s.cancelling, s.timedOut)
  {
    hide QueueInv, SlotInv, TimerInv, SemInv, WorkerInv, HostInv, FiberInv, HandInv, CancelInv, Bags, CallInv,
      CountInv, IdInv, IoInv;
    var k, p := KeyOf(s.queue[i].job), Some(InHand(w));
    WorkerAt(s.workers, s.place, s.calls, w);
    QueueAt(s.queue, s.place, s.calls, i);
    MovedSpots(s.place, k, p);
    hide Moved, Spot;
    Switch(s, w, worker, Moved(s.place, k, p));
  }

  lemma PickedHand(s: State, w: Thread, i: nat, worker: Worker)
    requires Inv(s) && i < |s.queue| && Eligible(s.queue[i], w, s.fibers)
    requires w in s.workers && worker == s.workers[w].(pc := Holding(s.queue[i]))
    ensures HandInv(s.workers[w := worker], s.fibers)
  {
    hide QueueInv, SlotInv, TimerInv, SemInv, WorkerInv, HostInv, FiberInv, HandInv, CancelInv, Bags, CallInv,
      CountInv, IdInv, IoInv;
    QueueAt(s.queue, s.place, s.calls, i);
    if s.queue[i].job.Resume? {
      FiberAt(s.fibers, s.leaving, s.dropped, s.place, s.queue[i].job.fiber);
    }
    HandSet(s.workers, s.fibers, w, worker);
  }

  lemma PickKeeps(s: State, w: Thread)
    requires Inv(s) && At(s, w, Scanning) && Choice(s, w).Some?
    ensures Inv(DoPick(s, w))
  {
    hide QueueInv, SlotInv, TimerInv, SemInv, WorkerInv, HostInv, FiberInv, HandInv, CancelInv, Bags, CallInv, IdInv,
      IoInv;
    hide Busy, Idle;
    var i := Choice(s, w).value;
    var e := s.queue[i];
    var k, p := KeyOf(e.job), Some(InHand(w));
    var worker := s.workers[w].(pc := Holding(e));
    QueueAt(s.queue, s.place, s.calls, i);
    Frame(s, k, p);
    QueuePop(s.queue, s.place, s.calls, i, p);
    PickedWorker(s, w, i, worker);
    PickedHand(s, w, i, worker);
    HostFrame(s.workers, s.fibers, s.host, w, worker);
    CountSet(s.workers, w, worker);
  }

  // ---- workers between tasks ---------------------------------------------------------------------

  /** A worker with nothing in hand moves between scanning, idling and having left. */
  lemma RestKeeps(s: State, w: Thread, worker: Worker, s': State)
    requires Inv(s) && w in s.workers && worker.kept == s.workers[w].kept
    requires s.workers[w].pc.Scanning? || s.workers[w].pc == Idling([])
    requires worker.pc.Scanning? || worker.pc == Idling([]) || worker.pc.Exited?
    requires s' == s.(workers := s.workers[w := worker], idle := s.idle - IsIdle(s.workers[w].pc) + IsIdle(worker.pc))
    ensures Inv(s')
  {
    hide QueueInv, SlotInv, TimerInv, SemInv, WorkerInv, HostInv, FiberInv, HandInv, CancelInv, Bags, CallInv, IdInv,
      IoInv;
    hide Busy, Idle;
    WorkerAt(s.workers, s.place, s.calls, w);
    Switch(s, w, worker, s.place);
    HostFrame(s.workers, s.fibers, s.host, w, worker);
    HandSet(s.workers, s.fibers, w, worker);
    CountSet(s.workers, w, worker);
  }

  // ---- switching to a task -------------------------------------------------------------------------

  /** What is known of a fiber a worker has taken to resume. */
  lemma HeldFiber(s: State, w: Thread)
    requires Inv(s) && HoldsFiber(s, w)
    ensures var f := s.workers[w].pc.entry.job.fiber;
      && f in s.fibers && s.fibers[f] != EXEC && f !in s.host
      && Spot(s.place, OfFiber(f)) == Some(InHand(w))
      && FiberOk(s.fibers[f], f in s.leaving, f in s.dropped, Spot(s.place, OfFiber(f)))
  {
    hide QueueInv, SlotInv, TimerInv, SemInv, WorkerInv, FiberInv, CountInv, CallInv, IdInv, IoInv;
    WorkerAt(s.workers, s.place, s.calls, w);
    FiberAt(s.fibers, s.leaving, s.dropped, s.place, s.workers[w].pc.entry.job.fiber);
  }

  lemma NotLeft(s: State, w: Thread)
    requires HoldsFiber(s, w) && !TakesLeft(s, SwapIn(w))
    ensures LeftOnlyBy(s.workers, s.workers[w].pc.entry.job.fiber, w)
  {
    forall v | v in s.workers && v != w && IsLeaving(s.workers[v].pc)
      ensures s.workers[v].pc.fiber != s.workers[w].pc.entry.job.fiber
    {
      if s.workers[v].pc.fiber == s.workers[w].pc.entry.job.fiber {
        assert Leaves(s, v, s.workers[w].pc.entry.job.fiber);
      }
    }
  }

  lemma SwapInKeeps(s: State, w: Thread)
    requires Inv(s) && HoldsFiber(s, w) && !Finished(s, s.workers[w].pc.entry.job.fiber)
    requires !TakesLeft(s, SwapIn(w))
    ensures Inv(DoSwapIn(s, w))
  {
    hide QueueInv, SlotInv, TimerInv, SemInv, WorkerInv, HostInv, FiberInv, HandInv, CancelInv, Bags, CallInv, IdInv,
      IoInv;
    hide Busy, Idle;
    var f := s.workers[w].pc.entry.job.fiber;
    var k := OfFiber(f);
    var worker := s.workers[w].(pc := Running(f, false, None));
    var place := Moved(s.place, k, None);
    HeldFiber(s, w);
    NotLeft(s, w);
    WorkerAt(s.workers, s.place, s.calls, w);
    MovedSpots(s.place, k, None);
    Frame(s, k, None);
    Switch(s, w, worker, place);
    HostIn(s.workers, s.fibers, s.host, w, f, worker);
    HandExec(s.workers, s.fibers, s.place, s.calls, w, worker, f);
    FiberSet(s.fibers, s.leaving, s.dropped, s.place, f, EXEC, s.leaving, s.dropped, place);
    IoState(s.io, s.fibers, place, s.timedOut, s.calls, s.ended, f, EXEC);
    CountSet(s.workers, w, worker);
  }

  lemma DropDeadKeeps(s: State, w: Thread)
    requires Inv(s) && HoldsFiber(s, w) && Finished(s, s.workers[w].pc.entry.job.fiber)
    ensures Inv(DoDropDead(s, w))
  {
    hide QueueInv, SlotInv, TimerInv, SemInv, WorkerInv, HostInv, FiberInv, HandInv, CancelInv, Bags, CallInv, IdInv,
      IoInv;
    hide Busy, Idle;
    var f := s.workers[w].pc.entry.job.fiber;
    var k := OfFiber(f);
    var worker := s.workers[w].(pc := Scanning);
    var place := Moved(s.place, k, None);
    WorkerAt(s.workers, s.place, s.calls, w);
    MovedSpots(s.place, k, None);
    Frame(s, k, None);
    Switch(s, w, worker, place);
    HostFrame(s.workers, s.fibers, s.host, w, worker);
    HandSet(s.workers, s.fibers, w, worker);
    FiberAt(s.fibers, s.leaving, s.dropped, s.place, f);
    FiberSet(s.fibers, s.leaving, s.dropped, s.place, f, s.fibers[f], s.leaving, s.dropped, place);
    assert s.fibers[f := s.fibers[f]] == s.fibers;
    CountSet(s.workers, w, worker);
  }

  /** Two keys leave or change places that only workers own. */
  lemma Frame2(s: State, k1: Key, p1: Option<Place>, k2: Key, p2: Option<Place>)
    requires Inv(s) && k1.OfFiber?
    requires (Spot(s.place, k1) == None || AtWorker(Spot(s.place, k1))) && (p1 == None || AtWorker(p1))
    requires AtWorker(Spot(s.place, k2)) && (p2 == None || AtWorker(p2)) && k1 != k2
    ensures var place := Moved(Moved(s.place, k1, p1), k2, p2);
      && QueueInv(s.queue, place, s.calls) && SlotInv(s.waiters, place, s.calls)
      && TimerInv(s.timers, place, s.calls) && SemInv(s.sems, place)
      && (k2.OfFiber? || p2.Some? ==> CallInv(s.calls, place, s.ended, s.nextId))
      && (k2.OfCall? && p2 == None ==> CallInv(s.calls, place, s.ended + {k2.id}, s.nextId))
      && IoInv(s.io, s.fibers, place, s.timedOut, s.calls, s.ended)
  {
    hide QueueInv, SlotInv, TimerInv, SemInv, WorkerInv, HostInv, FiberInv, HandInv, CancelInv, Bags, CallInv, IdInv,
      IoInv;
    hide Busy, Idle;
    hide Moved;
    var place1 := Moved(s.place, k1, p1);
    MovedSpots(s.place, k1, p1);
    Frame(s, k1, p1);
    QueueFrame(s.queue, place1, s.calls, k2, p2);
    SlotFrame(s.waiters, place1, s.calls, k2, p2);
    TimerFrame(s.timers, place1, s.calls, k2, p2);
    SemFrame(s.sems, place1, k2, p2);
    if k2.OfCall? && p2 == None {
      CallEnd(s.calls, place1, s.ended, s.nextId, k2.id);
    } else {
      CallFrame(s.calls, place1, s.ended, s.nextId, k2, p2);
    }
    IoFrame(s.io, s.fibers, place1, s.timedOut, s.calls, s.ended, k2, p2);
  }

  /** No do_io has a plain callback for its timer. */
  lemma PlainIsNoTimeout(s: State, id: int)
    requires Inv(s) && id in s.calls && s.calls[id].Plain?
    ensures forall f :: f in s.io ==> s.io[f].timer != Some(id)
  {
    forall f | f in s.io
      ensures s.io[f].timer != Some(id)
    {
      IoAt(s.io, s.fibers, s.place, s.timedOut, s.calls, s.ended, f);
    }
  }

  /** The fiber a callback starts on is new or kept, so it does not execute and waits nowhere. */
  lemma CallFiberIdle(s: State, w: Thread, c: Fiber)
    requires Inv(s) && HoldsCall(s, w)
    requires if s.workers[w].kept.Some? then c == s.workers[w].kept.value else c !in s.fibers
    ensures c !in s.host && c !in s.leaving && c !in s.dropped && c !in s.io
    ensures KeyOf(s.workers[w].pc.entry.job) != OfFiber(c)
    ensures Spot(s.place, OfFiber(c)) == None || Spot(s.place, OfFiber(c)) == Some(Kept(w))
    ensures LeftOnlyBy(s.workers, c, w)
  {
    WorkerAt(s.workers, s.place, s.calls, w);
    FiberAt(s.fibers, s.leaving, s.dropped, s.place, c);
    if c in s.io {
      IoAt(s.io, s.fibers, s.place, s.timedOut, s.calls, s.ended, c);
    }
    HandFree(s.workers, s.fibers, c, w);
  }

  lemma HeldCall(s: State, w: Thread)
    requires Inv(s) && HoldsCall(s, w)
    ensures var job := s.workers[w].pc.entry.job;
      Spot(s.place, KeyOf(job)) == Some(InHand(w)) && Known(job, s.calls)
  {
    hide QueueInv, SlotInv, TimerInv, SemInv, WorkerInv, HostInv, FiberInv, HandInv, CancelInv, Bags, CountInv,
      CallInv, IdInv, IoInv;
    WorkerAt(s.workers, s.place, s.calls, w);
  }

  /** The worker of a callback it has just started, when the callback's fiber and key have moved. */
  lemma StartedWorker(s: State, w: Thread, c: Fiber, worker: Worker, p: Option<Place>)
    requires Inv(s) && HoldsCall(s, w)
    requires if s.workers[w].kept.Some? then c == s.workers[w].kept.value else c !in s.fibers
    requires var job := s.workers[w].pc.entry.job;
      && p == (if job.Plain? then None else Some(InCall(w)))
      && worker == Worker(Running(c, true, if job.Plain? then None else Some(job)), None, s.workers[w].idleDone)
    ensures var place := Moved(Moved(s.place, OfFiber(c), None), KeyOf(s.workers[w].pc.entry.job), p);
      WorkerInv(s.workers[w := worker], place, s.calls) && CancelInv(s.workers[w := worker], s.cancelling, s.timedOut)
  {
    hide QueueInv, SlotInv, TimerInv, SemInv, WorkerInv, HostInv, FiberInv, HandInv, CancelInv, Bags, CallInv, IdInv,
      IoInv;
    hide CountInv;
    var k := KeyOf(s.workers[w].pc.entry.job);
    var place1 := Moved(s.place, OfFiber(c), None);
    var place := Moved(place1, k, p);
    CallFiberIdle(s, w, c);
    WorkerAt(s.workers, s.place, s.calls, w);
    MovedSpots(s.place, OfFiber(c), None);
    MovedSpots(place1, k, p);
    hide Moved, Spot;
    assert WorkerCore(w, worker, place, s.calls) && SameBags(w, s.place, place);
    hide WorkerCore, SameBags;
    assert Mine(Spot(s.place, k), w);
    Switch(s, w, worker, place);
  }

  lemma StartPlainKeeps(s: State, w: Thread, c: Fiber)
    requires Inv(s) && HoldsCall(s, w) && s.workers[w].pc.entry.job.Plain?
    requires if s.workers[w].kept.Some? then c == s.workers[w].kept.value else c !in s.fibers
    ensures Inv(DoStartCall(s, w, c))
  {
    hide QueueInv, SlotInv, TimerInv, SemInv, WorkerInv, HostInv, FiberInv, HandInv, CancelInv, Bags, CallInv, IdInv,
      IoInv;
    hide Busy, Idle;
    var id := s.workers[w].pc.entry.job.id;
    var worker := Worker(Running(c, true, None), None, s.workers[w].idleDone);
    var place := Moved(Moved(s.place, OfFiber(c), None), OfCall(id), None);
    HeldCall(s, w);
    CallFiberIdle(s, w, c);
    assert DoStartCall(s, w, c).place == place;
    hide Moved, Spot;
    StartedWorker(s, w, c, worker, None);
    Frame2(s, OfFiber(c), None, OfCall(id), None);
    HostIn(s.workers, s.fibers, s.host, w, c, worker);
    HandExec(s.workers, s.fibers, s.place, s.calls, w, worker, c);
    FiberTwo(s, c, OfCall(id), None);
    IoState(s.io, s.fibers, place, s.timedOut, s.calls, s.ended, c, EXEC);
    PlainIsNoTimeout(s, id);
    IoEnded(s.io, s.fibers[c := EXEC], place, s.timedOut, s.timedOut, s.calls, s.ended, id);
    CountSet(s.workers, w, worker);
  }

  lemma StartOwnKeeps(s: State, w: Thread, c: Fiber)
    requires Inv(s) && HoldsCall(s, w) && !s.workers[w].pc.entry.job.Plain?
    requires if s.workers[w].kept.Some? then c == s.workers[w].kept.value else c !in s.fibers
    ensures Inv(DoStartCall(s, w, c))
  {
    hide QueueInv, SlotInv, TimerInv, SemInv, WorkerInv, HostInv, FiberInv, HandInv, CancelInv, Bags, CallInv, IdInv,
      IoInv;
    hide Busy, Idle;
    var job := s.workers[w].pc.entry.job;
    var k, p := KeyOf(job), Some(InCall(w));
    var worker := Worker(Running(c, true, Some(job)), None, s.workers[w].idleDone);
    var place := Moved(Moved(s.place, OfFiber(c), None), k, p);
    HeldCall(s, w);
    CallFiberIdle(s, w, c);
    assert DoStartCall(s, w, c).place == place;
    hide Moved, Spot, KeyOf;
    StartedWorker(s, w, c, worker, p);
    Frame2(s, OfFiber(c), None, k, p);
    HostIn(s.workers, s.fibers, s.host, w, c, worker);
    HandExec(s.workers, s.fibers, s.place, s.calls, w, worker, c);
    FiberTwo(s, c, k, p);
    IoState(s.io, s.fibers, place, s.timedOut, s.calls, s.ended, c, EXEC);
    CountSet(s.workers, w, worker);
  }

  /** The callback fiber starts to execute while the callback's own key moves. */
  lemma FiberTwo(s: State, c: Fiber, k: Key, p: Option<Place>)
    requires Inv(s) && k != OfFiber(c) && c !in s.leaving && c !in s.dropped
    requires k.OfFiber? ==> Spot(s.place, k).Some? && p.Some? && p.value.InCall?
    ensures FiberInv(s.fibers[c := EXEC], s.leaving, s.dropped, Moved(Moved(s.place, OfFiber(c), None), k, p))
  {
    hide QueueInv, SlotInv, TimerInv, SemInv, WorkerInv, HostInv, HandInv, CancelInv, Bags, CallInv, IdInv, IoInv,
      CountInv, FiberInv;
    var place1 := Moved(s.place, k, p);
    MovedSpots(s.place, k, p);
    if k.OfFiber? {
      FiberMove(s.fibers, s.leaving, s.dropped, s.place, k.fiber, p.value);
    } else {
      FiberFrame(s.fibers, s.leaving, s.dropped, s.place, k.id, p);
    }
    MovedSpots(place1, OfFiber(c), None);
    FiberSet(s.fibers, s.leaving, s.dropped, place1, c, EXEC, s.leaving, s.dropped, Moved(place1, OfFiber(c), None));
    assert Moved(place1, OfFiber(c), None) == Moved(Moved(s.place, OfFiber(c), None), k, p);
  }

  // ---- framework callbacks ---------------------------------------------------------------------------

  /** The callback worker w runs acts and is done with. */
  lemma ActedWorker(s: State, w: Thread, p: Option<Place>)
    requires Inv(s) && HasTodo(s, w) && !AtWorker(p)
    ensures var job := s.workers[w].pc.todo.value; var worker := s.workers[w].(pc := s.workers[w].pc.(todo := None));
      && Spot(s.place, KeyOf(job)) == Some(InCall(w)) && Known(job, s.calls)
      && WorkerInv(s.workers[w := worker], Moved(s.place, KeyOf(job), p), s.calls)
      && HostInv(s.workers[w := worker], s.fibers, s.host) && HandInv(s.workers[w := worker], s.fibers)
      && CountInv(s.workers[w := worker], s.waiters, s.active, s.idle, s.pending)
      && CancelInv(s.workers[w := worker], s.cancelling - {w}, s.timedOut)
  {
    hide QueueInv, SlotInv, TimerInv, SemInv, WorkerInv, HostInv, FiberInv, HandInv, CancelInv, Bags, CallInv, IdInv,
      IoInv;
    hide Busy, Idle;
    var k := KeyOf(s.workers[w].pc.todo.value);
    var worker := s.workers[w].(pc := s.workers[w].pc.(todo := None));
    var place := Moved(s.place, k, p);
    WorkerAt(s.workers, s.place, s.calls, w);
    MovedSpots(s.place, k, p);
    hide Moved, Spot;
    BagsStay(w, s.workers[w].pc, worker.pc, s.place, s.calls, place);
    WorkerSet(s.workers, s.place, s.calls, w, worker, place);
    HostFrame(s.workers, s.fibers, s.host, w, worker);
    HandSet(s.workers, s.fibers, w, worker);
    CountSet(s.workers, w, worker);
    CancelDone(s.workers, s.cancelling, s.timedOut, w, worker);
  }

  lemma DoWakeKeeps(s: State, w: Thread)
    requires Inv(s) && HasTodo(s, w) && s.workers[w].pc.todo.value.Wake?
    ensures Inv(DoDoWake(s, w))
  {
    hide QueueInv, SlotInv, TimerInv, SemInv, WorkerInv, HostInv, FiberInv, HandInv, CancelInv, Bags, CallInv,
      CountInv, IdInv, IoInv;
    var e := Entry(Resume(s.workers[w].pc.todo.value.fiber), -1);
    ActedWorker(s, w, Some(InQueue));
    Frame(s, KeyOf(e.job), Some(InQueue));
    QueuePush(s.queue, s.place, s.calls, e);
    CancelSet(s.workers, s.cancelling, s.timedOut, w, s.workers[w].(pc := s.workers[w].pc.(todo := None)));
  }

  lemma DeliverKeeps(s: State, slot: Slot)
    requires Inv(s) && slot in s.waiters
    ensures Inv(Deliver(s, slot))
  {
    hide QueueInv, SlotInv, TimerInv, SemInv, WorkerInv, HostInv, FiberInv, HandInv, CancelInv, Bags, CallInv, IdInv,
      IoInv;
    hide Busy, Idle;
    var job := s.waiters[slot];
    SlotAt(s.waiters, s.place, s.calls, slot);
    Frame(s, KeyOf(job), Some(InQueue));
    SlotRemove(s.waiters, s.place, s.calls, slot, Some(InQueue));
    QueuePush(s.queue, s.place, s.calls, Entry(job, -1));
    CountSlots(s.waiters, slot, job);
  }

  /** The timeout callback on worker w and the do_io it belongs to. */
  lemma TimeoutJob(s: State, w: Thread)
    requires Inv(s) && HasTodo(s, w) && s.workers[w].pc.todo.value.Timeout?
    ensures var t := s.workers[w].pc.todo.value;
      && Known(t, s.calls) && (w in s.cancelling ==> t.info in s.timedOut)
      && forall f :: f in s.io && s.io[f].timer == Some(t.id) ==>
           s.io[f].info == t.info && s.io[f].slot == Slot(t.fd, t.event)
  {
    hide QueueInv, SlotInv, TimerInv, SemInv, WorkerInv, HostInv, FiberInv, HandInv, Bags, CallInv, CountInv, IdInv,
      IoInv;
    WorkerAt(s.workers, s.place, s.calls, w);
    forall f | f in s.io && s.io[f].timer == Some(s.workers[w].pc.todo.value.id)
      ensures s.io[f].info == s.workers[w].pc.todo.value.info
      ensures s.io[f].slot == Slot(s.workers[w].pc.todo.value.fd, s.workers[w].pc.todo.value.event)
    {
      IoAt(s.io, s.fibers, s.place, s.timedOut, s.calls, s.ended, f);
    }
  }

  /** A timeout callback may return once whoever waits on it is marked. */
  lemma CallOverKeeps(s: State, w: Thread)
    requires Inv(s) && HasTodo(s, w) && s.workers[w].pc.todo.value.Timeout?
    requires forall f :: f in s.io && s.io[f].timer == Some(s.workers[w].pc.todo.value.id) ==>
      s.io[f].info in s.timedOut
    ensures Inv(CallOver(s, w))
  {
    hide QueueInv, SlotInv, TimerInv, SemInv, WorkerInv, HostInv, FiberInv, HandInv, CancelInv, Bags, CallInv,
      CountInv, IdInv, IoInv;
    var t := s.workers[w].pc.todo.value;
    ActedWorker(s, w, None);
    Frame(s, OfCall(t.id), None);
    CallEnd(s.calls, s.place, s.ended, s.nextId, t.id);
    IoEnded(s.io, s.fibers, s.place, s.timedOut, s.timedOut, s.calls, s.ended, t.id);
    IoFrame(s.io, s.fibers, s.place, s.timedOut, s.calls, s.ended + {t.id}, OfCall(t.id), None);
  }

  lemma MarksKeeps(s: State, w: Thread)
    requires Inv(s) && HasTodo(s, w) && s.workers[w].pc.todo.value.Timeout?
    requires Live(s, s.workers[w].pc.todo.value.info) && s.workers[w].pc.todo.value.info !in s.timedOut
    ensures Inv(DoMark(s, w))
  {
    hide QueueInv, SlotInv, TimerInv, SemInv, WorkerInv, HostInv, FiberInv, HandInv, CancelInv, Bags, CallInv,
      CountInv, IoInv;
    var t := s.workers[w].pc.todo.value;
    CancelMark(s.workers, s.cancelling, s.timedOut, w);
    IoMark(s.io, s.fibers, s.place, s.timedOut, s.timedOut + {t.info}, s.calls, s.ended);
  }

  lemma MarkKeeps(s: State, w: Thread)
    requires Inv(s) && HasTodo(s, w) && s.workers[w].pc.todo.value.Timeout?
    ensures Inv(DoMark(s, w))
  {
    hide Inv, CallOver;
    var t := s.workers[w].pc.todo.value;
    if Live(s, t.info) && t.info !in s.timedOut {
      MarksKeeps(s, w);
    } else {
      TimeoutJob(s, w);
      CallOverKeeps(s, w);
    }
  }

  lemma CancelKeeps(s: State, w: Thread)
    requires Inv(s) && HasTodo(s, w) && s.workers[w].pc.todo.value.Timeout? && w in s.cancelling
    ensures Inv(DoCancel(s, w))
  {
    hide Inv, CallOver;
    var t := s.workers[w].pc.todo.value;
    if Slot(t.fd, t.event) in s.waiters {
      DeliverKeeps(s, Slot(t.fd, t.event));
    }
    var s1 := CancelSlot(s, Slot(t.fd, t.event));
    TimeoutJob(s1, w);
    CallOverKeeps(s1, w);
  }

  // ---- leaving the worker ------------------------------------------------------------------------------

  lemma RunningFiber(s: State, w: Thread)
    requires Inv(s) && w in s.workers && s.workers[w].pc.Running?
    ensures var f := s.workers[w].pc.fiber;
      && f in s.fibers && s.fibers[f] == EXEC && f in s.host && s.host[f] == w
      && FiberOk(EXEC, f in s.leaving, f in s.dropped, Spot(s.place, OfFiber(f)))
      && LeftOnlyBy(s.workers, f, w)
  {
    hide QueueInv, SlotInv, TimerInv, SemInv, WorkerInv, FiberInv, HandInv, CancelInv, Bags, CountInv, CallInv,
      IdInv, IoInv;
    FiberAt(s.fibers, s.leaving, s.dropped, s.place, s.workers[w].pc.fiber);
    HandFree(s.workers, s.fibers, s.workers[w].pc.fiber, w);
  }

  /** The parts that see a fiber stop executing on its worker. */
  lemma SwapOutParts(s: State, w: Thread, st: FiberState, worker: Worker, place: Places)
    requires Inv(s) && w in s.workers && s.workers[w].pc.Running? && s.workers[w].pc.todo == None
    requires worker.pc.Scanning? || (worker.pc.HalfOut? && worker.pc.fiber == s.workers[w].pc.fiber)
    requires worker.pc.HalfOut? ==> st == if worker.pc.ready then READY else HOLD
    requires st != EXEC && (s.workers[w].pc.fiber in s.io ==> st == HOLD)
    requires WorkerOk(w, worker, place, s.calls)
    requires forall k :: AtWorker(Spot(s.place, k)) && !Mine(Spot(s.place, k), w) ==> Spot(place, k) == Spot(s.place, k)
    requires forall k :: AtWorker(Spot(place, k)) && !Mine(Spot(place, k), w) ==> Spot(place, k) == Spot(s.place, k)
    ensures var f := s.workers[w].pc.fiber; var workers := s.workers[w := worker];
      && WorkerInv(workers, place, s.calls) && CancelInv(workers, s.cancelling, s.timedOut)
      && HostInv(workers, s.fibers[f := st], s.host - {f}) && HandInv(workers, s.fibers[f := st])
      && CountInv(workers, s.waiters, s.active - 1 + IsBusy(worker.pc), s.idle, s.pending)
      && IoInv(s.io, s.fibers[f := st], s.place, s.timedOut, s.calls, s.ended)
  {
    hide QueueInv, SlotInv, TimerInv, SemInv, WorkerInv, HostInv, FiberInv, HandInv, CancelInv, Bags, CallInv, IdInv,
      IoInv;
    hide Busy, Idle;
    hide Spot, WorkerOk;
    var f := s.workers[w].pc.fiber;
    RunningFiber(s, w);
    WorkerSet(s.workers, s.place, s.calls, w, worker, place);
    CancelSet(s.workers, s.cancelling, s.timedOut, w, worker);
    HostOut(s.workers, s.fibers, s.host, w, f, st, worker);
    HandOut(s.workers, s.fibers, f, st, w, worker);
    IoState(s.io, s.fibers, s.place, s.timedOut, s.calls, s.ended, f, st);
    CountSet(s.workers, w, worker);
  }

  /** A worker that ran its fiber and goes on without having put anything in its bags. */
  lemma LeftWorker(s: State, w: Thread, worker: Worker)
    requires Inv(s) && w in s.workers && s.workers[w].pc.Running? && s.workers[w].pc.todo == None
    requires worker.pc.Scanning? || (worker.pc.HalfOut? && !worker.pc.ready)
    requires worker.kept == s.workers[w].kept
    ensures WorkerOk(w, worker, s.place, s.calls)
  {
    hide QueueInv, SlotInv, TimerInv, SemInv, WorkerInv, HostInv, FiberInv, HandInv, CancelInv, Bags, CallInv,
      CountInv, IdInv, IoInv;
    WorkerAt(s.workers, s.place, s.calls, w);
    hide Spot;
    BagsStay(w, s.workers[w].pc, worker.pc, s.place, s.calls, s.place);
  }

  lemma YieldHoldKeeps(s: State, w: Thread)
    requires Inv(s) && WillYield(s, w)
    ensures Inv(DoYieldHold(s, w))
  {
    hide QueueInv, SlotInv, TimerInv, SemInv, WorkerInv, HostInv, FiberInv, HandInv, CancelInv, Bags, CallInv,
      CountInv, IdInv, IoInv;
    var f := s.workers[w].pc.fiber;
    var worker := s.workers[w].(pc := HalfOut(f, false));
    RunningFiber(s, w);
    LeftWorker(s, w, worker);
    SwapOutParts(s, w, HOLD, worker, s.place);
    FiberSet(s.fibers, s.leaving, s.dropped, s.place, f, HOLD, s.leaving - {f}, s.dropped, s.place);
  }

  lemma KeptNone(s: State, w: Thread)
    requires Inv(s) && w in s.workers && s.workers[w].pc.Running? && s.workers[w].pc.onCall
    ensures s.workers[w].kept == None
  {
    hide QueueInv, SlotInv, TimerInv, SemInv, WorkerInv, HostInv, FiberInv, HandInv, CancelInv, Bags, CallInv,
      CountInv, IdInv, IoInv;
    WorkerAt(s.workers, s.place, s.calls, w);
  }

  /** What a worker that ran its fiber has when the fiber's own key goes into its keeping. */
  lemma KeptWorker(s: State, w: Thread, worker: Worker, p: Place)
    requires Inv(s) && Executes(s, w)
    requires (p == Kept(w) && s.workers[w].kept == None
                && worker.pc.Scanning? && worker.kept == Some(s.workers[w].pc.fiber))
          || (p == InReturn(w) && worker.pc == HalfOut(s.workers[w].pc.fiber, true) && worker.kept == s.workers[w].kept)
    ensures var place := Moved(s.place, OfFiber(s.workers[w].pc.fiber), Some(p));
      && WorkerOk(w, worker, place, s.calls)
      && (forall k :: AtWorker(Spot(s.place, k)) && !Mine(Spot(s.place, k), w) ==> Spot(place, k) == Spot(s.place, k))
      && (forall k :: AtWorker(Spot(place, k)) && !Mine(Spot(place, k), w) ==> Spot(place, k) == Spot(s.place, k))
  {
    hide QueueInv, SlotInv, TimerInv, SemInv, WorkerInv, HostInv, FiberInv, HandInv, CancelInv, Bags, CallInv,
      CountInv, IdInv, IoInv;
    var k, old_ := OfFiber(s.workers[w].pc.fiber), s.workers[w];
    var place := Moved(s.place, k, Some(p));
    FreeFiber(s, w);
    WorkerAt(s.workers, s.place, s.calls, w);
    MovedSpots(s.place, k, Some(p));
    hide Moved, Spot;
    assert WorkerCore(w, worker, place, s.calls);
    assert SameButReturn(w, s.place, place) && BatchOf(worker.pc) == [] == BatchOf(old_.pc);
    NoReturn(w, old_.pc, s.place, s.calls);
    ReturnBag(w, old_.pc, worker.pc, s.place, s.calls, place);
  }

  lemma NoReturn(w: Thread, pc: Pc, place: Places, calls: Calls)
    requires Bags(w, pc, place, calls) && ReturnOf(pc) == None
    ensures forall k :: Spot(place, k) != Some(InReturn(w))
  {
    hide BatchOk, Spot;
  }

  ghost predicate SameButReturn(w: Thread, place: Places, place': Places)
  {
    forall k :: Spot(place, k) == Some(InBatch(w)) <==> Spot(place', k) == Some(InBatch(w))
  }

  lemma ReturnBag(w: Thread, pc: Pc, pc': Pc, place: Places, calls: Calls, place': Places)
    requires Bags(w, pc, place, calls) && BatchOf(pc') == BatchOf(pc) && SameButReturn(w, place, place')
    requires forall k ::
      Spot(place', k) == Some(InReturn(w)) <==> ReturnOf(pc').Some? && k == OfFiber(ReturnOf(pc').value)
    ensures Bags(w, pc', place', calls)
  {
    hide BatchOf, ReturnOf, Spot;
    BatchFrame(w, BatchOf(pc), place, calls, place');
    hide BatchOk;
  }

  lemma FinishCallKeeps(s: State, w: Thread, ok: bool)
    requires Inv(s) && Acts(s, w) && s.workers[w].pc.onCall
    ensures Inv(DoFinish(s, w, ok))
  {
    hide QueueInv, SlotInv, TimerInv, SemInv, WorkerInv, HostInv, FiberInv, HandInv, CancelInv, Bags, CallInv,
      CountInv, IdInv, IoInv;
    var f, p := s.workers[w].pc.fiber, Some(Kept(w));
    var place := Moved(s.place, OfFiber(f), p);
    var worker := Worker(Scanning, Some(f), s.workers[w].idleDone);
    RunningFiber(s, w);
    KeptNone(s, w);
    KeptWorker(s, w, worker, Kept(w));
    MovedSpots(s.place, OfFiber(f), p);
    Frame(s, OfFiber(f), p);
    SwapOutParts(s, w, INIT, worker, place);
    FiberSet(s.fibers, s.leaving, s.dropped, s.place, f, INIT, s.leaving, s.dropped, place);
    IoFrame(s.io, s.fibers[f := INIT], s.place, s.timedOut, s.calls, s.ended, OfFiber(f), p);
  }

  lemma EndedKeeps(s: State, w: Thread, st: FiberState)
    requires Inv(s) && Acts(s, w) && (st == TERM || st == EXCEPT)
    ensures Inv(SwapOut(s.(active := s.active - 1), w, s.workers[w].pc.fiber, st, s.workers[w].(pc := Scanning)))
  {
    hide QueueInv, SlotInv, TimerInv, SemInv, WorkerInv, HostInv, FiberInv, HandInv, CancelInv, Bags, CallInv,
      CountInv, IdInv, IoInv;
    var f, worker := s.workers[w].pc.fiber, s.workers[w].(pc := Scanning);
    RunningFiber(s, w);
    LeftWorker(s, w, worker);
    hide WorkerOk;
    SwapOutParts(s, w, st, worker, s.place);
    FiberSet(s.fibers, s.leaving, s.dropped, s.place, f, st, s.leaving, s.dropped, s.place);
  }

  lemma FinishFiberKeeps(s: State, w: Thread, ok: bool)
    requires Inv(s) && Acts(s, w) && !s.workers[w].pc.onCall
    ensures Inv(DoFinish(s, w, ok))
  {
    hide Inv, SwapOut;
    EndedKeeps(s, w, if ok then TERM else EXCEPT);
  }

  lemma YieldReadyKeeps(s: State, w: Thread)
    requires Inv(s) && Acts(s, w)
    ensures Inv(DoYieldReady(s, w))
  {
    hide QueueInv, SlotInv, TimerInv, SemInv, WorkerInv, HostInv, FiberInv, HandInv, CancelInv, Bags, CallInv,
      CountInv, IdInv, IoInv;
    var f, p := s.workers[w].pc.fiber, Some(InReturn(w));
    var place := Moved(s.place, OfFiber(f), p);
    var worker := s.workers[w].(pc := HalfOut(f, true));
    RunningFiber(s, w);
    KeptWorker(s, w, worker, InReturn(w));
    MovedSpots(s.place, OfFiber(f), p);
    Frame(s, OfFiber(f), p);
    SwapOutParts(s, w, READY, worker, place);
    FiberSet(s.fibers, s.leaving, s.dropped, s.place, f, READY, s.leaving, s.dropped, place);
    IoFrame(s.io, s.fibers[f := READY], s.place, s.timedOut, s.calls, s.ended, OfFiber(f), p);
  }

  /** A worker that leaves its fiber goes on with it, everything filed with it staying. */
  lemma DoneWorker(s: State, w: Thread, worker: Worker)
    requires Inv(s) && w in s.workers && IsLeaving(s.workers[w].pc) && worker.kept == s.workers[w].kept
    requires worker.pc.Scanning? || worker.pc.Back?
    requires ReturnOf(worker.pc) == ReturnOf(s.workers[w].pc)
    ensures WorkerInv(s.workers[w := worker], s.place, s.calls)
    ensures CancelInv(s.workers[w := worker], s.cancelling, s.timedOut)
  {
    hide QueueInv, SlotInv, TimerInv, SemInv, WorkerInv, HostInv, FiberInv, HandInv, CancelInv, Bags, CallInv,
      CountInv, IdInv, IoInv;
    WorkerAt(s.workers, s.place, s.calls, w);
    hide Spot, ReturnOf;
    Switch(s, w, worker, s.place);
  }

  lemma SwitchOutKeeps(s: State, w: Thread)
    requires Inv(s) && w in s.workers && s.workers[w].pc.HalfOut?
    ensures Inv(DoSwitchOut(s, w))
  {
    hide QueueInv, SlotInv, TimerInv, SemInv, WorkerInv, HostInv, FiberInv, HandInv, CancelInv, Bags, CallInv, IdInv,
      IoInv;
    hide Busy, Idle;
    var pc := s.workers[w].pc;
    var worker := s.workers[w].(pc := Back(pc.fiber, pc.ready));
    DoneWorker(s, w, worker);
    BackHand(s, w, worker);
    HostFrame(s.workers, s.fibers, s.host, w, worker);
    CountSet(s.workers, w, worker);
  }

  lemma BackHand(s: State, w: Thread, worker: Worker)
    requires Inv(s) && w in s.workers && s.workers[w].pc.HalfOut?
    requires worker.pc == Back(s.workers[w].pc.fiber, s.workers[w].pc.ready)
    ensures HandInv(s.workers[w := worker], s.fibers)
  {
    hide QueueInv, SlotInv, TimerInv, SemInv, WorkerInv, HostInv, FiberInv, HandInv, CancelInv, CallInv, CountInv,
      IdInv, IoInv;
    HandAt(s.workers, s.fibers, w);
    hide LeftOnlyBy;
    HandSet(s.workers, s.fibers, w, worker);
  }

  lemma SettleHoldKeeps(s: State, w: Thread)
    requires Inv(s) && IsBack(s, w) && !s.workers[w].pc.ready && s.workers[w].pc.fiber in s.fibers
    ensures Inv(DoSettle(s, w))
  {
    hide QueueInv, SlotInv, TimerInv, SemInv, WorkerInv, HostInv, FiberInv, HandInv, CancelInv, Bags, CallInv, IdInv,
      IoInv;
    hide Busy, Idle;
    var f, worker := s.workers[w].pc.fiber, s.workers[w].(pc := Scanning);
    HandAt(s.workers, s.fibers, w);
    DoneWorker(s, w, worker);
    hide LeftOnlyBy;
    HostFrame(s.workers, s.fibers, s.host, w, worker);
    HandSet(s.workers, s.fibers, w, worker);
    CountSet(s.workers, w, worker);
    assert s.fibers[f := HOLD] == s.fibers;
  }

  /** A worker's key leaves its bag for the task list. */
  lemma SettleReadyKeeps(s: State, w: Thread)
    requires Inv(s) && IsBack(s, w) && s.workers[w].pc.ready && s.workers[w].pc.fiber in s.fibers
    ensures Inv(DoSettle(s, w))
  {
    hide QueueInv, SlotInv, TimerInv, SemInv, WorkerInv, HostInv, FiberInv, HandInv, CancelInv, Bags, CallInv, IdInv,
      IoInv;
    hide Busy, Idle;
    var f, worker := s.workers[w].pc.fiber, s.workers[w].(pc := Scanning);
    HandAt(s.workers, s.fibers, w);
    SettledWorker(s, w, worker);
    Frame(s, OfFiber(f), Some(InQueue));
    QueuePush(s.queue, s.place, s.calls, Entry(Resume(f), -1));
    HostFrame(s.workers, s.fibers, s.host, w, worker);
    HandSet(s.workers, s.fibers, w, worker);
    CountSet(s.workers, w, worker);
    CancelSet(s.workers, s.cancelling, s.timedOut, w, worker);
  }

  lemma SettledWorker(s: State, w: Thread, worker: Worker)
    requires Inv(s) && IsBack(s, w) && s.workers[w].pc.ready && worker == s.workers[w].(pc := Scanning)
    ensures var k := OfFiber(s.workers[w].pc.fiber);
      && Spot(s.place, k) == Some(InReturn(w))
      && WorkerInv(s.workers[w := worker], Moved(s.place, k, Some(InQueue)), s.calls)
  {
    hide QueueInv, SlotInv, TimerInv, SemInv, WorkerInv, HostInv, FiberInv, HandInv, CancelInv, CallInv, CountInv,
      IdInv, IoInv;
    var k := OfFiber(s.workers[w].pc.fiber);
    var place := Moved(s.place, k, Some(InQueue));
    WorkerAt(s.workers, s.place, s.calls, w);
    MovedSpots(s.place, k, Some(InQueue));
    hide Moved, Spot, BatchOk;
    assert Spot(s.place, k) == Some(InReturn(w));
    assert SameButReturn(w, s.place, place);
    ReturnBag(w, s.workers[w].pc, worker.pc, s.place, s.calls, place);
    assert WorkerCore(w, worker, place, s.calls);
    hide Bags, WorkerCore;
    WorkerSet(s.workers, s.place, s.calls, w, worker, place);
  }

  lemma SettleKeeps(s: State, w: Thread)
    requires Inv(s) && IsBack(s, w) && s.workers[w].pc.fiber in s.fibers
    ensures Inv(DoSettle(s, w))
  {
    hide Inv, DoSettle;
    if s.workers[w].pc.ready { SettleReadyKeeps(s, w); } else { SettleHoldKeeps(s, w); }
  }

  // ---- parking -----------------------------------------------------------------------------------------

  /** The fiber on w, free to run its own code, has no wake-up anywhere. */
  lemma FreeFiber(s: State, w: Thread)
    requires Inv(s) && Executes(s, w)
    ensures var f := s.workers[w].pc.fiber;
      && f in s.fibers && s.fibers[f] == EXEC && f in s.host && f !in s.dropped
      && Spot(s.place, OfFiber(f)) == None
  {
    hide QueueInv, SlotInv, TimerInv, SemInv, WorkerInv, HostInv, FiberInv, HandInv, CancelInv, Bags, CallInv,
      CountInv, IdInv, IoInv;
    RunningFiber(s, w);
  }

  /** A fiber about to yield places its wake-up. */
  lemma ParkFiber(s: State, w: Thread, p: Place)
    requires Inv(s) && Executes(s, w) && !p.Kept?
    ensures var f := s.workers[w].pc.fiber;
      FiberInv(s.fibers, s.leaving + {f}, s.dropped, Moved(s.place, OfFiber(f), Some(p)))
  {
    hide QueueInv, SlotInv, TimerInv, SemInv, WorkerInv, HostInv, FiberInv, HandInv, CancelInv, Bags, CallInv,
      CountInv, IdInv, IoInv;
    var f := s.workers[w].pc.fiber;
    var place := Moved(s.place, OfFiber(f), Some(p));
    FreeFiber(s, w);
    MovedSpots(s.place, OfFiber(f), Some(p));
    FiberSet(s.fibers, s.leaving, s.dropped, s.place, f, EXEC, s.leaving + {f}, s.dropped, place);
    assert s.fibers[f := EXEC] == s.fibers;
  }

  lemma SleepKeeps(s: State, w: Thread)
    requires Inv(s) && Acts(s, w)
    ensures Inv(DoSleep(s, w))
  {
    hide QueueInv, SlotInv, TimerInv, SemInv, WorkerInv, HostInv, FiberInv, HandInv, CancelInv, Bags, CountInv, IoInv;
    var f, t := s.workers[w].pc.fiber, s.nextId;
    var p := InTimer(t);
    FreeFiber(s, w);
    Frame(s, OfFiber(f), Some(p));
    ParkFiber(s, w, p);
    TimerAdd(s.timers, s.place, s.calls, t, Wake(f));
    CallLater(s.calls, Moved(s.place, OfFiber(f), Some(p)), s.ended, s.nextId, s.nextId + 1);
  }

  lemma SwitchToKeeps(s: State, w: Thread, thread: int)
    requires Inv(s) && Acts(s, w)
    ensures Inv(DoSwitchTo(s, w, thread))
  {
    hide QueueInv, SlotInv, TimerInv, SemInv, WorkerInv, HostInv, FiberInv, HandInv, CancelInv, Bags, CallInv,
      CountInv, IdInv, IoInv;
    var f := s.workers[w].pc.fiber;
    FreeFiber(s, w);
    Frame(s, OfFiber(f), Some(InQueue));
    ParkFiber(s, w, InQueue);
    QueuePush(s.queue, s.place, s.calls, Entry(Resume(f), thread));
  }

  lemma SemWaitKeeps(s: State, w: Thread, q: int)
    requires Inv(s) && Acts(s, w) && q in s.sems
    ensures Inv(DoSemWait(s, w, q))
  {
    hide QueueInv, SlotInv, TimerInv, SemInv, WorkerInv, HostInv, FiberInv, HandInv, CancelInv, Bags, CallInv,
      CountInv, IdInv, IoInv;
    var f, sem := s.workers[w].pc.fiber, s.sems[q];
    SemAt(s.sems, s.place, q);
    if sem.count > 0 {
      SemCount(s.sems, s.place, q, sem.(count := sem.count - 1));
    } else {
      FreeFiber(s, w);
      Frame(s, OfFiber(f), Some(InSem(q)));
      ParkFiber(s, w, InSem(q));
      SemAdd(s.sems, s.place, q, f);
    }
  }

  lemma NotifyWakes(s: State, q: int)
    requires Inv(s) && q in s.sems && s.sems[q].waiting != []
    ensures Inv(DoNotify(s, q))
  {
    hide QueueInv, SlotInv, TimerInv, SemInv, WorkerInv, HostInv, FiberInv, HandInv, CancelInv, Bags, CallInv,
      CountInv, IdInv, IoInv;
    var f := s.sems[q].waiting[0];
    SemAt(s.sems, s.place, q);
    Frame(s, OfFiber(f), Some(InQueue));
    SemRemove(s.sems, s.place, q, Some(InQueue));
    QueuePush(s.queue, s.place, s.calls, Entry(Resume(f), -1));
  }

  lemma NotifyKeeps(s: State, q: int)
    requires Inv(s) && q in s.sems
    ensures Inv(DoNotify(s, q))
  {
    hide QueueInv, SlotInv, TimerInv, SemInv, WorkerInv, HostInv, FiberInv, HandInv, CancelInv, Bags, CallInv,
      CountInv, IdInv, IoInv;
    if s.sems[q].waiting == [] {
      SemAt(s.sems, s.place, q);
      SemCount(s.sems, s.place, q, s.sems[q].(count := s.sems[q].count + 1));
    } else {
      NotifyWakes(s, q);
    }
  }

  // ---- expired timers --------------------------------------------------------------------------------

  lemma CollectedWorker(s: State, w: Thread, t: int, worker: Worker)
    requires Inv(s) && w in s.workers && s.workers[w].pc.Idling? && t in s.timers
    requires worker == s.workers[w].(pc := Idling(s.workers[w].pc.batch + [s.timers[t]]))
    ensures WorkerInv(s.workers[w := worker], Moved(s.place, KeyOf(s.timers[t]), Some(InBatch(w))), s.calls)
  {
    hide QueueInv, SlotInv, TimerInv, SemInv, WorkerInv, HostInv, FiberInv, HandInv, CancelInv, CallInv, CountInv,
      IdInv, IoInv;
    var job := s.timers[t];
    var k, p := KeyOf(job), Some(InBatch(w));
    var place := Moved(s.place, k, p);
    TimerAt(s.timers, s.place, s.calls, t);
    WorkerAt(s.workers, s.place, s.calls, w);
    BatchPush(w, s.workers[w].pc.batch, s.place, s.calls, job);
    MovedSpots(s.place, k, p);
    hide Moved, Spot, BatchOk;
    assert WorkerCore(w, worker, place, s.calls);
    hide WorkerCore;
    WorkerSet(s.workers, s.place, s.calls, w, worker, place);
  }

  lemma CollectKeeps(s: State, w: Thread, t: int)
    requires Inv(s) && w in s.workers && s.workers[w].pc.Idling? && t in s.timers
    ensures Inv(DoCollect(s, w, t))
  {
    hide QueueInv, SlotInv, TimerInv, SemInv, WorkerInv, HostInv, FiberInv, HandInv, CancelInv, Bags, CallInv, IoInv;
    hide Busy, Idle;
    var worker := s.workers[w].(pc := Idling(s.workers[w].pc.batch + [s.timers[t]]));
    var k, p := KeyOf(s.timers[t]), Some(InBatch(w));
    TimerAt(s.timers, s.place, s.calls, t);
    Frame(s, k, p);
    TimerRemove(s.timers, s.place, s.calls, t, p);
    CollectedWorker(s, w, t, worker);
    HostFrame(s.workers, s.fibers, s.host, w, worker);
    HandSet(s.workers, s.fibers, w, worker);
    CountSet(s.workers, w, worker);
    CancelSet(s.workers, s.cancelling, s.timedOut, w, worker);
  }

  lemma UnloadedWorker(s: State, w: Thread, worker: Worker)
    requires Inv(s) && HasBatch(s, w) && worker == s.workers[w].(pc := Idling(s.workers[w].pc.batch[1..]))
    ensures var job := s.workers[w].pc.batch[0];
      && Spot(s.place, KeyOf(job)) == Some(InBatch(w)) && Known(job, s.calls)
      && WorkerInv(s.workers[w := worker], Moved(s.place, KeyOf(job), Some(InQueue)), s.calls)
  {
    hide QueueInv, SlotInv, TimerInv, SemInv, WorkerInv, HostInv, FiberInv, HandInv, CancelInv, CallInv, CountInv,
      IdInv, IoInv;
    var job := s.workers[w].pc.batch[0];
    var k, p := KeyOf(job), Some(InQueue);
    var place := Moved(s.place, k, p);
    WorkerAt(s.workers, s.place, s.calls, w);
    BatchPop(w, s.workers[w].pc.batch, s.place, s.calls, p);
    MovedSpots(s.place, k, p);
    assert Spot(s.place, k) == Some(InBatch(w)) && Known(job, s.calls);
    hide Moved, Spot, BatchOk;
    assert WorkerCore(w, worker, place, s.calls);
    hide WorkerCore;
    WorkerSet(s.workers, s.place, s.calls, w, worker, place);
  }

  lemma ScheduleFirstKeeps(s: State, w: Thread)
    requires Inv(s) && HasBatch(s, w)
    ensures Inv(ScheduleFirst(s, w))
  {
    hide QueueInv, SlotInv, TimerInv, SemInv, WorkerInv, HostInv, FiberInv, HandInv, CancelInv, Bags, CallInv, IdInv,
      IoInv;
    hide Busy, Idle;
    var job := s.workers[w].pc.batch[0];
    var worker := s.workers[w].(pc := Idling(s.workers[w].pc.batch[1..]));
    UnloadedWorker(s, w, worker);
    Frame(s, KeyOf(job), Some(InQueue));
    QueuePush(s.queue, s.place, s.calls, Entry(job, -1));
    HostFrame(s.workers, s.fibers, s.host, w, worker);
    HandSet(s.workers, s.fibers, w, worker);
    CountSet(s.workers, w, worker);
    CancelSet(s.workers, s.cancelling, s.timedOut, w, worker);
  }

  lemma {:induction false} ScheduleCollectedKeeps(s: State, w: Thread)
    requires Inv(s) && w in s.workers && s.workers[w].pc.Idling?
    ensures Inv(DoScheduleCollected(s, w))
    decreases |s.workers[w].pc.batch|
  {
    hide Inv;
    if HasBatch(s, w) {
      ScheduleFirstKeeps(s, w);
      ScheduleCollectedKeeps(ScheduleFirst(s, w), w);
    }
  }

  /** An armed callback leaves the set without running; no do_io may count on it. */
  lemma DisarmKeeps(s: State, t: int)
    requires Inv(s) && t in s.timers && KeyOf(s.timers[t]).OfCall?
    requires forall f :: f in s.io && Counts(s.io[f], Spot(s.place, OfFiber(f))) ==> s.io[f].timer != Some(t)
    ensures Inv(Disarm(s, t))
  {
    hide QueueInv, SlotInv, TimerInv, SemInv, WorkerInv, HostInv, FiberInv, HandInv, CancelInv, Bags, CallInv,
      CountInv, IoInv;
    var k := KeyOf(s.timers[t]);
    TimerAt(s.timers, s.place, s.calls, t);
    Frame(s, k, None);
    TimerRemove(s.timers, s.place, s.calls, t, None);
    CallEnd(s.calls, s.place, s.ended, s.nextId, k.id);
    IoEnded(s.io, s.fibers, s.place, s.timedOut, s.timedOut, s.calls, s.ended, k.id);
    IoFrame(s.io, s.fibers, s.place, s.timedOut, s.calls, s.ended + {k.id}, k, None);
  }

  lemma CancelTimerKeeps(s: State, t: int)
    requires Inv(s) && t in s.timers && s.timers[t].Plain?
    ensures Inv(Disarm(s, t))
  {
    hide QueueInv, SlotInv, TimerInv, SemInv, WorkerInv, HostInv, FiberInv, HandInv, CancelInv, Bags, CallInv,
      CountInv, IoInv;
    TimerAt(s.timers, s.place, s.calls, t);
    PlainIsNoTimeout(s, t);
    DisarmKeeps(s, t);
  }

  lemma ResumeIoKeeps(s: State, w: Thread)
    requires Inv(s) && InIo(s, w, true)
    ensures Inv(DoResumeIo(s, w))
  {
    hide QueueInv, SlotInv, TimerInv, SemInv, WorkerInv, HostInv, FiberInv, HandInv, CancelInv, Bags, CallInv,
      CountInv, IoInv;
    var f := s.workers[w].pc.fiber;
    var c := s.io[f];
    FreeFiber(s, w);
    IoAt(s.io, s.fibers, s.place, s.timedOut, s.calls, s.ended, f);
    var s1 := s;
    if c.timer.Some? && c.timer.value in s.timers && s.timers[c.timer.value].Timeout? {
      OwnTimer(s, f);
      DisarmKeeps(s, c.timer.value);
      s1 := Disarm(s, c.timer.value);
    }
    LeaveIo(s1, f, c.(timer := None, waiting := false));
  }

  /** Two do_io calls never share a timer. */
  lemma OwnTimer(s: State, f: Fiber)
    requires Inv(s) && f in s.io && s.io[f].timer.Some?
    ensures forall g :: g in s.io && g != f ==> s.io[g].timer != s.io[f].timer
  {
    hide QueueInv, SlotInv, TimerInv, SemInv, WorkerInv, HostInv, FiberInv, HandInv, CancelInv, Bags, CallInv,
      CountInv, IdInv;
  }

  /** A fiber that is registered nowhere goes back to its loop, or leaves do_io. */
  lemma LeaveIo(s: State, f: Fiber, call: IoCall)
    requires Inv(s) && f in s.io && call.info == s.io[f].info && call.slot == s.io[f].slot && call.timer == None
    requires Spot(s.place, OfFiber(f)) == None
    ensures Inv(s.(io := s.io - {f})) && Inv(s.(io := s.io[f := call]))
  {
    hide QueueInv, SlotInv, TimerInv, SemInv, WorkerInv, HostInv, FiberInv, HandInv, CancelInv, Bags, CallInv, CountInv;
    IoDrop(s.io, s.fibers, s.place, s.timedOut, s.calls, s.ended, f);
    IoAt(s.io, s.fibers, s.place, s.timedOut, s.calls, s.ended, f);
    IoSet(s.io, s.fibers, s.place, s.timedOut, s.calls, s.ended, f, call, s.place);
  }

  lemma EndIoKeeps(s: State, w: Thread)
    requires Inv(s) && InIo(s, w, false)
    ensures Inv(s.(io := s.io - {s.workers[w].pc.fiber}))
  {
    hide QueueInv, SlotInv, TimerInv, SemInv, WorkerInv, HostInv, FiberInv, HandInv, CancelInv, Bags, CallInv,
      CountInv, IoInv;
    IoDrop(s.io, s.fibers, s.place, s.timedOut, s.calls, s.ended, s.workers[w].pc.fiber);
  }

  // ---- accepting a callback --------------------------------------------------------------------------

  /** The next callback to accept; a timeout is for a do_io that waits where the callback will cancel. */
  ghost predicate Fresh(s: State, job: Job)
  {
    && (job.Timeout? || job.Plain?) && job.id == s.nextId
    && (job.Timeout? ==> job.info < s.nextId && forall f :: f in s.io ==> SameSlot(s.io[f], job))
  }

  /** A new callback, known to all and filed at p; the part that owns p adds it itself. */
  lemma AcceptParts(s: State, job: Job, p: Place)
    requires Inv(s) && Fresh(s, job) && !AtSem(Some(p)) && !AtWorker(Some(p))
    ensures var id := s.nextId; var calls := s.calls[id := job]; var place := Moved(s.place, OfCall(id), Some(p));
      && Known(job, calls) && Spot(s.place, OfCall(id)) == None && id !in s.timers
      && QueueInv(s.queue, s.place, calls) && (p != InQueue ==> QueueInv(s.queue, place, calls))
      && SlotInv(s.waiters, s.place, calls) && (!p.InSlot? ==> SlotInv(s.waiters, place, calls))
      && TimerInv(s.timers, s.place, calls) && (!p.InTimer? ==> TimerInv(s.timers, place, calls))
      && SemInv(s.sems, place) && WorkerInv(s.workers, place, calls)
      && FiberInv(s.fibers, s.leaving, s.dropped, place)
      && CallInv(calls, place, s.ended, id + 1) && IdInv(s.timers, calls, s.io, s.timedOut, id + 1)
      && IoInv(s.io, s.fibers, place, s.timedOut, calls, s.ended)
  {
    hide QueueInv, SlotInv, TimerInv, SemInv, WorkerInv, HostInv, FiberInv, HandInv, CancelInv, Bags, CallInv,
      CountInv, IoInv;
    hide Moved, Spot;
    var id := s.nextId;
    var calls, k := s.calls[id := job], OfCall(id);
    CallNew(s.calls, s.place, s.ended, id, job, p);
    QueueCalls(s.queue, s.place, s.calls, id, job);
    SlotCalls(s.waiters, s.place, s.calls, id, job);
    TimerCalls(s.timers, s.place, s.calls, id, job);
    WorkerCalls(s.workers, s.place, s.calls, id, job);
    IoCalls(s.io, s.fibers, s.place, s.timedOut, s.calls, s.ended, id, job);
    if p != InQueue { QueueFrame(s.queue, s.place, calls, k, Some(p)); }
    if !p.InSlot? { SlotFrame(s.waiters, s.place, calls, k, Some(p)); }
    if !p.InTimer? { TimerFrame(s.timers, s.place, calls, k, Some(p)); }
    SemFrame(s.sems, s.place, k, Some(p));
    WorkerFrame(s.workers, s.place, calls, k, Some(p));
    FiberFrame(s.fibers, s.leaving, s.dropped, s.place, id, Some(p));
    IoFrame(s.io, s.fibers, s.place, s.timedOut, calls, s.ended, k, Some(p));
  }

  lemma ScheduleCallKeeps(s: State, thread: int)
    requires Inv(s)
    ensures Inv(ApplyAct(s, ScheduleCall(thread)))
  {
    hide QueueInv, SlotInv, TimerInv, SemInv, WorkerInv, HostInv, FiberInv, HandInv, CancelInv, Bags, CallInv,
      CountInv, IdInv, IoInv;
    var job := Plain(s.nextId);
    AcceptParts(s, job, InQueue);
    QueuePush(s.queue, s.place, s.calls[s.nextId := job], Entry(job, thread));
  }

  /** A callback timer: the user's, or the one a timed wait arms. */
  lemma ArmKeeps(s: State, job: Job)
    requires Inv(s) && Fresh(s, job)
    ensures Inv(Accept(s, job).(timers := s.timers[job.id := job], place := s.place[OfCall(job.id) := InTimer(job.id)]))
  {
    hide QueueInv, SlotInv, TimerInv, SemInv, WorkerInv, HostInv, FiberInv, HandInv, CancelInv, Bags, CallInv,
      CountInv, IoInv;
    AcceptParts(s, job, InTimer(job.id));
    TimerAdd(s.timers, s.place, s.calls[job.id := job], job.id, job);
  }

  lemma AddEventKeeps(s: State, slot: Slot)
    requires Inv(s) && slot !in s.waiters
    ensures Inv(ApplyAct(s, AddEvent(slot)))
  {
    hide QueueInv, SlotInv, TimerInv, SemInv, WorkerInv, HostInv, FiberInv, HandInv, CancelInv, Bags, CallInv, IdInv,
      IoInv;
    hide Busy, Idle;
    var job := Plain(s.nextId);
    AcceptParts(s, job, InSlot(slot));
    SlotAdd(s.waiters, s.place, s.calls[job.id := job], slot, job);
    CountSlots(s.waiters, slot, job);
  }

  lemma DelCallKeeps(s: State, slot: Slot)
    requires Inv(s) && slot in s.waiters && s.waiters[slot].Plain?
    ensures Inv(DoDelEvent(s, slot))
  {
    hide QueueInv, SlotInv, TimerInv, SemInv, WorkerInv, HostInv, FiberInv, HandInv, CancelInv, Bags, CallInv, IdInv,
      IoInv;
    hide Busy, Idle;
    var job := s.waiters[slot];
    var k := OfCall(job.id);
    SlotAt(s.waiters, s.place, s.calls, slot);
    Frame(s, k, None);
    SlotRemove(s.waiters, s.place, s.calls, slot, None);
    CountSlots(s.waiters, slot, job);
    CallEnd(s.calls, s.place, s.ended, s.nextId, job.id);
    PlainIsNoTimeout(s, job.id);
    IoEnded(s.io, s.fibers, s.place, s.timedOut, s.timedOut, s.calls, s.ended, job.id);
    IoFrame(s.io, s.fibers, s.place, s.timedOut, s.calls, s.ended + {job.id}, k, None);
  }

  lemma DelFiberKeeps(s: State, slot: Slot)
    requires Inv(s) && slot in s.waiters && s.waiters[slot].Resume?
    ensures Inv(DoDelEvent(s, slot))
  {
    hide QueueInv, SlotInv, TimerInv, SemInv, WorkerInv, HostInv, FiberInv, HandInv, CancelInv, Bags, CallInv, IdInv,
      IoInv;
    hide Busy, Idle;
    var job := s.waiters[slot];
    var k, place := OfFiber(job.fiber), Moved(s.place, OfFiber(job.fiber), None);
    SlotAt(s.waiters, s.place, s.calls, slot);
    Frame(s, k, None);
    SlotRemove(s.waiters, s.place, s.calls, slot, None);
    CountSlots(s.waiters, slot, job);
    FiberAt(s.fibers, s.leaving, s.dropped, s.place, job.fiber);
    MovedSpots(s.place, k, None);
    FiberSet(s.fibers, s.leaving, s.dropped, s.place, job.fiber, s.fibers[job.fiber],
             s.leaving, s.dropped + {job.fiber}, place);
    assert s.fibers[job.fiber := s.fibers[job.fiber]] == s.fibers;
  }

  lemma DelEventKeeps(s: State, slot: Slot)
    requires Inv(s) && slot in s.waiters
    ensures Inv(DoDelEvent(s, slot))
  {
    hide QueueInv, SlotInv, TimerInv, SemInv, WorkerInv, HostInv, FiberInv, HandInv, CancelInv, Bags, CallInv,
      CountInv, IdInv, IoInv;
    SlotAt(s.waiters, s.place, s.calls, slot);
    if s.waiters[slot].Plain? { DelCallKeeps(s, slot); } else { DelFiberKeeps(s, slot); }
  }

  lemma ScheduleFiberKeeps(s: State, f: Fiber, thread: int)
    requires Inv(s) && ActEnabled(s, ScheduleFiber(f, thread))
    ensures Inv(ApplyAct(s, ScheduleFiber(f, thread)))
  {
    hide QueueInv, SlotInv, TimerInv, SemInv, WorkerInv, HostInv, FiberInv, HandInv, CancelInv, Bags, CallInv,
      CountInv, IdInv, IoInv;
    var st := if f in s.fibers then s.fibers[f] else INIT;
    var place := Moved(s.place, OfFiber(f), Some(InQueue));
    FiberAt(s.fibers, s.leaving, s.dropped, s.place, f);
    NewFiberParts(s, f);
    Frame(s, OfFiber(f), Some(InQueue));
    QueuePush(s.queue, s.place, s.calls, Entry(Resume(f), thread));
    MovedSpots(s.place, OfFiber(f), Some(InQueue));
    FiberSet(s.fibers, s.leaving, s.dropped, s.place, f, st, s.leaving, s.dropped, place);
    assert f in s.fibers ==> s.fibers[f := st] == s.fibers;
    IoFrame(s.io, s.fibers[f := st], s.place, s.timedOut, s.calls, s.ended, OfFiber(f), Some(InQueue));
  }

  lemma NewFiberParts(s: State, f: Fiber)
    requires Inv(s)
    ensures f !in s.fibers ==>
      && HostInv(s.workers, s.fibers[f := INIT], s.host) && HandInv(s.workers, s.fibers[f := INIT])
      && IoInv(s.io, s.fibers[f := INIT], s.place, s.timedOut, s.calls, s.ended)
  {
    hide QueueInv, SlotInv, TimerInv, SemInv, WorkerInv, FiberInv, CallInv, CountInv, IdInv, IoInv;
    if f !in s.fibers {
      if f in s.io { IoAt(s.io, s.fibers, s.place, s.timedOut, s.calls, s.ended, f); }
      IoState(s.io, s.fibers, s.place, s.timedOut, s.calls, s.ended, f, INIT);
    }
  }

  // ---- do_io parks -------------------------------------------------------------------------------------

  /** A new timer_info is nobody else's, and no callback is for it yet. */
  lemma BeginIoKeeps(s: State, w: Thread, slot: Slot)
    requires Inv(s) && Acts(s, w)
    ensures Inv(DoBeginIo(s, w, slot))
  {
    hide QueueInv, SlotInv, TimerInv, SemInv, WorkerInv, HostInv, FiberInv, HandInv, CancelInv, Bags, CallInv,
      CountInv, IoInv;
    var f, call := s.workers[w].pc.fiber, IoCall(s.nextId, slot, None, false);
    FreeFiber(s, w);
    CallLater(s.calls, s.place, s.ended, s.nextId, s.nextId + 1);
    IoSet(s.io, s.fibers, s.place, s.timedOut, s.calls, s.ended, f, call, s.place);
  }

  lemma NewIsLive(s: State, job: Job)
    requires Inv(s) && (job.Timeout? || job.Plain?) && job.id == s.nextId
    ensures job.id !in s.ended
  {
    hide QueueInv, SlotInv, TimerInv, SemInv, WorkerInv, HostInv, FiberInv, HandInv, CancelInv, Bags, CallInv,
      CountInv, IdInv, IoInv;
    CallNew(s.calls, s.place, s.ended, s.nextId, job, InQueue);
  }

  lemma ArmIoKeeps(s: State, w: Thread)
    requires Inv(s) && InIo(s, w, false)
    ensures Inv(DoArmIo(s, w))
  {
    hide Inv;
    var f := s.workers[w].pc.fiber;
    var job := Timeout(s.nextId, s.io[f].slot.fd, s.io[f].slot.event, s.io[f].info);
    OwnInfo(s, f, job);
    ArmKeeps(s, job);
    NewIsLive(s, job);
    TimerSet(Arm(s, s.io[f].slot, s.io[f].info), f, job);
  }

  /** A timeout callback cancels where its own do_io registers, and nobody else shares its timer_info. */
  lemma OwnInfo(s: State, f: Fiber, job: Job)
    requires Inv(s) && f in s.io && job == Timeout(s.nextId, s.io[f].slot.fd, s.io[f].slot.event, s.io[f].info)
    ensures Fresh(s, job)
  {
    hide QueueInv, SlotInv, TimerInv, SemInv, WorkerInv, HostInv, FiberInv, HandInv, CancelInv, Bags, CallInv,
      CountInv;
  }

  /** A do_io counts on a callback from now on that has been accepted and is not over. */
  lemma TimerSet(s: State, f: Fiber, job: Job)
    requires Inv(s) && f in s.io && job.Timeout? && job.info == s.io[f].info
    requires Slot(job.fd, job.event) == s.io[f].slot
    requires job.id in s.calls && s.calls[job.id] == job && job.id !in s.ended
    ensures Inv(s.(io := s.io[f := s.io[f].(timer := Some(job.id))]))
  {
    hide QueueInv, SlotInv, TimerInv, SemInv, WorkerInv, HostInv, FiberInv, HandInv, CancelInv, Bags, CallInv,
      CountInv;
    var call := s.io[f].(timer := Some(job.id));
    IoAt(s.io, s.fibers, s.place, s.timedOut, s.calls, s.ended, f);
    forall id | id in s.calls
      ensures SameSlot(call, s.calls[id])
    {
      assert SameSlot(s.io[f], s.calls[id]);
    }
    IoSet(s.io, s.fibers, s.place, s.timedOut, s.calls, s.ended, f, call, s.place);
  }

  lemma ParkIoKeeps(s: State, w: Thread)
    requires Inv(s) && InIo(s, w, false) && s.io[s.workers[w].pc.fiber].slot !in s.waiters
    ensures Inv(DoParkIo(s, w))
  {
    hide QueueInv, SlotInv, TimerInv, SemInv, WorkerInv, HostInv, FiberInv, HandInv, CancelInv, Bags, CallInv, IoInv;
    hide Busy, Idle;
    var f := s.workers[w].pc.fiber;
    var call := s.io[f].(waiting := true);
    var p := Some(InSlot(call.slot));
    var place := Moved(s.place, OfFiber(f), p);
    FreeFiber(s, w);
    Frame(s, OfFiber(f), p);
    ParkFiber(s, w, p.value);
    SlotAdd(s.waiters, s.place, s.calls, call.slot, Resume(f));
    CountSlots(s.waiters, call.slot, Resume(f));
    RegisteredIo(s, f);
  }

  lemma RegisteredIo(s: State, f: Fiber)
    requires Inv(s) && f in s.io && !s.io[f].waiting
    ensures var call := s.io[f].(waiting := true);
      IoInv(s.io[f := call], s.fibers, Moved(s.place, OfFiber(f), Some(InSlot(call.slot))),
            s.timedOut, s.calls, s.ended)
  {
    hide QueueInv, SlotInv, TimerInv, SemInv, WorkerInv, HostInv, FiberInv, HandInv, CancelInv, Bags, CallInv,
      CountInv, IdInv;
    var call := s.io[f].(waiting := true);
    var p := Some(InSlot(call.slot));
    IoAt(s.io, s.fibers, s.place, s.timedOut, s.calls, s.ended, f);
    forall id | id in s.calls
      ensures SameSlot(call, s.calls[id])
    {
      assert SameSlot(s.io[f], s.calls[id]);
    }
    MovedSpots(s.place, OfFiber(f), p);
    IoSet(s.io, s.fibers, s.place, s.timedOut, s.calls, s.ended, f, call, Moved(s.place, OfFiber(f), p));
  }

  // ---- all steps -------------------------------------------------------------------------------------------

  lemma ActKeeps(s: State, act: Act)
    requires Inv(s) && ActEnabled(s, act)
    ensures Inv(ApplyAct(s, act))
  {
    hide QueueInv, SlotInv, TimerInv, SemInv, WorkerInv, HostInv, FiberInv, HandInv, CancelInv, Bags, CallInv,
      CountInv, IdInv, IoInv;
    match act
    case ScheduleFiber(f, thread) => ScheduleFiberKeeps(s, f, thread);
    case ScheduleCall(thread) => ScheduleCallKeeps(s, thread);
    case AddTimer => ArmKeeps(s, Plain(s.nextId));
    case CancelTimer(t) => CancelTimerKeeps(s, t);
    case AddEvent(slot) => AddEventKeeps(s, slot);
    case DelEvent(slot) => DelEventKeeps(s, slot);
    case CancelEvent(slot) => DeliverKeeps(s, slot);
    case Notify(q) => NotifyKeeps(s, q);
    case MakeSem(q, count) => SemCount(s.sems, s.place, q, Sem(count, []));
    case Stop =>
  }

  /** The steps by which a fiber leaves its worker, and those by which it parks. */
  predicate LeaveStep(step: Step)
  {
    step.Finish? || step.YieldReady? || step.YieldHold? || step.SwitchOut? || step.Settle?
  }

  predicate WaitStep(step: Step)
  {
    step.ParkIo? || step.Sleep? || step.SemWait? || step.SwitchTo?
  }

  lemma LeaveStepKeeps(s: State, step: Step, s': State)
    requires Inv(s) && Next(s, step, s') && LeaveStep(step)
    ensures Inv(s')
  {
    hide Inv, DoPick, DoSwapIn, DoDropDead, DoStartCall, DoDoWake, DoMark, DoCancel, DoFinish, DoYieldReady,
      DoYieldHold;
    hide DoSwitchOut, DoSettle, DoCollect, DoScheduleCollected;
    hide DoBeginIo, DoArmIo, DoParkIo, DoResumeIo, DoSleep, DoSemWait, DoSwitchTo, Deliver, ApplyAct;
    hide Choice, Stopping, Finished, SetWorker;
    match step
    case Finish(w, ok) => FinishKeeps(s, w, ok);
    case YieldReady(w) => YieldReadyKeeps(s, w);
    case YieldHold(w) => YieldHoldKeeps(s, w);
    case SwitchOut(w) => SwitchOutKeeps(s, w);
    case Settle(w) => SettleKeeps(s, w);
  }

  /** The other steps of do_io. */
  predicate CallStep(step: Step)
  {
    step.BeginIo? || step.ArmIo? || step.ResumeIo? || step.EndIo?
  }

  lemma CallStepKeeps(s: State, step: Step, s': State)
    requires Inv(s) && Next(s, step, s') && CallStep(step)
    ensures Inv(s')
  {
    hide Inv, DoPick, DoSwapIn, DoDropDead, DoStartCall, DoDoWake, DoMark, DoCancel, DoFinish, DoYieldReady,
      DoYieldHold;
    hide DoSwitchOut, DoSettle, DoCollect, DoScheduleCollected;
    hide DoBeginIo, DoArmIo, DoParkIo, DoResumeIo, DoSleep, DoSemWait, DoSwitchTo, Deliver, ApplyAct;
    hide Choice, Stopping, Finished, SetWorker;
    match step
    case BeginIo(w, slot) => BeginIoKeeps(s, w, slot);
    case ArmIo(w) => ArmIoKeeps(s, w);
    case ResumeIo(w) => ResumeIoKeeps(s, w);
    case EndIo(w) => EndIoKeeps(s, w);
  }

  lemma WaitStepKeeps(s: State, step: Step, s': State)
    requires Inv(s) && Next(s, step, s') && WaitStep(step)
    ensures Inv(s')
  {
    hide Inv, DoPick, DoSwapIn, DoDropDead, DoStartCall, DoDoWake, DoMark, DoCancel, DoFinish, DoYieldReady,
      DoYieldHold;
    hide DoSwitchOut, DoSettle, DoCollect, DoScheduleCollected;
    hide DoBeginIo, DoArmIo, DoParkIo, DoResumeIo, DoSleep, DoSemWait, DoSwitchTo, Deliver, ApplyAct;
    hide Choice, Stopping, Finished, SetWorker;
    match step
    case ParkIo(w) => ParkIoKeeps(s, w);
    case Sleep(w) => SleepKeeps(s, w);
    case SemWait(w, q) => SemWaitKeeps(s, w, q);
    case SwitchTo(w, thread) => SwitchToKeeps(s, w, thread);
  }

  /** The steps by which a worker takes up a task. */
  predicate TaskStep(step: Step)
  {
    step.Pick? || step.SwapIn? || step.DropDead? || step.StartCall? || step.DoWake? || step.Mark? || step.Cancel?
  }

  lemma TaskStepKeeps(s: State, step: Step, s': State)
    requires Inv(s) && Next(s, step, s') && !TakesLeft(s, step) && TaskStep(step)
    ensures Inv(s')
  {
    hide Inv, DoPick, DoSwapIn, DoDropDead, DoStartCall, DoDoWake, DoMark, DoCancel, DoFinish, DoYieldReady,
      DoYieldHold;
    hide DoSwitchOut, DoSettle, DoCollect, DoScheduleCollected;
    hide DoBeginIo, DoArmIo, DoParkIo, DoResumeIo, DoSleep, DoSemWait, DoSwitchTo, Deliver, ApplyAct;
    hide TakesLeft;
    match step
    case Pick(w) => PickKeeps(s, w);
    case SwapIn(w) => SwapInKeeps(s, w);
    case DropDead(w) => DropDeadKeeps(s, w);
    case StartCall(w, c) => StartCallKeeps(s, w, c);
    case DoWake(w) => DoWakeKeeps(s, w);
    case Mark(w) => MarkKeeps(s, w);
    case Cancel(w) => CancelKeeps(s, w);
  }

  lemma OtherStepKeeps(s: State, step: Step, s': State)
    requires Inv(s) && Next(s, step, s') && !TaskStep(step) && !LeaveStep(step) && !WaitStep(step)
    requires !CallStep(step)
    ensures Inv(s')
  {
    hide Inv, DoPick, DoSwapIn, DoDropDead, DoStartCall, DoDoWake, DoMark, DoCancel, DoFinish, DoYieldReady,
      DoYieldHold;
    hide DoSwitchOut, DoSettle, DoCollect, DoScheduleCollected;
    hide DoBeginIo, DoArmIo, DoParkIo, DoResumeIo, DoSleep, DoSemWait, DoSwitchTo, Deliver, ApplyAct;
    match step
    case EnterIdle(w) => RestKeeps(s, w, s.workers[w].(pc := Idling([])), s');
    case ExitWorker(w) => RestKeeps(s, w, s.workers[w].(pc := Exited), s');
    case IdleYield(w) => RestKeeps(s, w, s.workers[w].(pc := Scanning), s');
    case IdleExit(w) => RestKeeps(s, w, s.workers[w].(pc := Scanning, idleDone := true), s');
    case Dispatch(w, slot) => DeliverKeeps(s, slot);
    case Collect(w, t) => CollectKeeps(s, w, t);
    case ScheduleCollected(w) => ScheduleCollectedKeeps(s, w);
    case Do(actor, act) => ActKeeps(s, act);
  }

  lemma NextKeeps(s: State, step: Step, s': State)
    requires Inv(s) && Next(s, step, s') && !TakesLeft(s, step)
    ensures Inv(s')
  {
    hide Inv, Next, TakesLeft;
    if LeaveStep(step) {
      LeaveStepKeeps(s, step, s');
    } else if WaitStep(step) {
      WaitStepKeeps(s, step, s');
    } else if CallStep(step) {
      CallStepKeeps(s, step, s');
    } else if TaskStep(step) {
      TaskStepKeeps(s, step, s');
    } else {
      OtherStepKeeps(s, step, s');
    }
  }

  lemma StartCallKeeps(s: State, w: Thread, c: Fiber)
    requires Inv(s) && HoldsCall(s, w)
    requires if s.workers[w].kept.Some? then c == s.workers[w].kept.value else c !in s.fibers
    ensures Inv(DoStartCall(s, w, c))
  {
    hide Inv, DoStartCall;
    if s.workers[w].pc.entry.job.Plain? { StartPlainKeeps(s, w, c); } else { StartOwnKeeps(s, w, c); }
  }

  lemma FinishKeeps(s: State, w: Thread, ok: bool)
    requires Inv(s) && Acts(s, w)
    ensures Inv(DoFinish(s, w, ok))
  {
    hide Inv, DoFinish;
    if s.workers[w].pc.onCall { FinishCallKeeps(s, w, ok); } else { FinishFiberKeeps(s, w, ok); }
  }

  lemma NoneBusy(workers: map<Thread, Worker>)
    requires forall w :: w in workers ==> workers[w].pc.Scanning?
    ensures |Busy(workers)| == 0 && |Idle(workers)| == 0
  {
    forall w
      ensures w !in Busy(workers) && w !in Idle(workers)
    {
    }
  }

  lemma InitWorkers(s: State)
    requires Init(s)
    ensures WorkerInv(s.workers, s.place, s.calls) && HostInv(s.workers, s.fibers, s.host)
    ensures HandInv(s.workers, s.fibers) && CancelInv(s.workers, s.cancelling, s.timedOut)
  {
  }

  lemma InitInv(s: State)
    requires Init(s)
    ensures Inv(s)
  {
    hide WorkerInv, HostInv, HandInv, CancelInv, Bags, Busy, Idle;
    InitWorkers(s);
    NoneBusy(s.workers);
  }

  /** As long as no worker switches to a fiber that another is still leaving, every state of a run satisfies
      the invariant. */
  lemma {:induction false} RunInv(states: seq<State>, steps: seq<Step>, i: nat)
    requires Run(states, steps) && i < |states|
    requires forall j :: 0 <= j < i ==> !TakesLeft(states[j], steps[j])
    ensures Inv(states[i])
  {
    hide Inv, Init, Next, TakesLeft;
    if i == 0 {
      InitInv(states[0]);
    } else {
      RunInv(states, steps, i - 1);
      NextKeeps(states[i - 1], steps[i - 1], states[i]);
    }
  }
}
