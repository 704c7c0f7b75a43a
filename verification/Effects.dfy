/** What each step does to one fiber's wake-up, and which steps leave waiting I/O alone. */
module Effects {
  import opened Common
  import opened RunQueues
  import opened Protocol
  import opened Invariants
  import opened InvariantProof

  predicate Runs(s: State, w: Thread, f: Fiber)
  {
    w in s.workers && s.workers[w].pc.Running? && s.workers[w].pc.fiber == f
  }

  predicate Took(s: State, w: Thread, f: Fiber)
  {
    HoldsFiber(s, w) && s.workers[w].pc.entry.job.fiber == f
  }

  predicate Waits(s: State, slot: Slot, f: Fiber)
  {
    slot in s.waiters && s.waiters[slot] == Resume(f)
  }

  /** The step gives fiber f a wake-up: it parks or yields, or somebody schedules it. */
  predicate Gives(s: State, step: Step, f: Fiber)
  {
    match step
    case YieldReady(w) => Runs(s, w, f)
    case ParkIo(w) => Runs(s, w, f)
    case Sleep(w) => Runs(s, w, f)
    case SwitchTo(w, _) => Runs(s, w, f)
    case SemWait(w, q) => Runs(s, w, f) && q in s.sems && s.sems[q].count <= 0
    case Do(_, act) => act.ScheduleFiber? && act.fiber == f
    case _ => false
  }

  /** The step throws fiber f's wake-up away. */
  predicate Drops(s: State, step: Step, f: Fiber)
  {
    step.Do? && step.act.DelEvent? && Waits(s, step.act.slot, f)
  }

  /** The step uses fiber f's wake-up up: f goes on, has finished anyway, or loses it. */
  predicate Takes(s: State, step: Step, f: Fiber)
  {
    match step
    case SwapIn(w) => Took(s, w, f)
    case DropDead(w) => Took(s, w, f)
    case _ => Drops(s, step, f)
  }

  function Bit(b: bool): int { if b then 1 else 0 }

  function Here(s: State, f: Fiber): int
  {
    Bit(OfFiber(f) in s.place && !s.place[OfFiber(f)].Kept?)
  }

  /** What a step does to fiber f: whether it places its wake-up, uses it up, or throws it away. */
  ghost predicate Effect(s: State, s': State, f: Fiber, placed: bool, taken: bool, drops: bool)
  {
    && Here(s', f) == Here(s, f) + Bit(placed) - Bit(taken)
    && (f in s'.dropped <==> f in s.dropped || drops)
  }

  /** Registrations are only removed and no do_io or timer_info changes. */
  ghost predicate Calm(s: State, s': State)
  {
    && (forall slot :: slot in s'.waiters && s'.waiters[slot].Resume? ==>
          slot in s.waiters && s.waiters[slot] == s'.waiters[slot])
    && s'.io == s.io && s'.timedOut == s.timedOut && s'.cancelling == s.cancelling
    && (forall w :: w in s.workers && InTimeout(s.workers[w].pc) ==> w in s'.workers && s'.workers[w] == s.workers[w])
  }

  /** The steps of do_io and its timeout, the only ones that are not calm. */
  predicate IoStep(step: Step)
  {
    step.ParkIo? || CallStep(step) || step.Mark? || step.Cancel?
  }

  lemma YieldReadyEffect(s: State, w: Thread, f: Fiber)
    requires Inv(s) && Acts(s, w)
    ensures Effect(s, DoYieldReady(s, w), f, Runs(s, w, f), false, false)
    ensures Calm(s, DoYieldReady(s, w))
  {
    hide QueueInv, SlotInv, TimerInv, SemInv, WorkerInv, HostInv, FiberInv, HandInv, CancelInv, Bags, CallInv,
      CountInv, IdInv, IoInv;
    FreeFiber(s, w);
  }

  lemma ParkIoEffect(s: State, w: Thread, f: Fiber)
    requires Inv(s) && InIo(s, w, false)
    ensures Effect(s, DoParkIo(s, w), f, Runs(s, w, f), false, false)
  {
    hide QueueInv, SlotInv, TimerInv, SemInv, WorkerInv, HostInv, FiberInv, HandInv, CancelInv, Bags, CallInv,
      CountInv, IdInv, IoInv;
    FreeFiber(s, w);
  }

  lemma BeginIoEffect(s: State, w: Thread, slot: Slot, f: Fiber)
    requires Acts(s, w)
    ensures Effect(s, DoBeginIo(s, w, slot), f, false, false, false)
  {
  }

  lemma ArmIoEffect(s: State, w: Thread, f: Fiber)
    requires InIo(s, w, false)
    ensures Effect(s, DoArmIo(s, w), f, false, false, false)
  {
  }

  lemma SleepEffect(s: State, w: Thread, f: Fiber)
    requires Inv(s) && Acts(s, w)
    ensures Effect(s, DoSleep(s, w), f, Runs(s, w, f), false, false)
    ensures Calm(s, DoSleep(s, w))
  {
    hide QueueInv, SlotInv, TimerInv, SemInv, WorkerInv, HostInv, FiberInv, HandInv, CancelInv, Bags, CallInv,
      CountInv, IdInv, IoInv;
    FreeFiber(s, w);
  }

  lemma SwitchToEffect(s: State, w: Thread, thread: int, f: Fiber)
    requires Inv(s) && Acts(s, w)
    ensures Effect(s, DoSwitchTo(s, w, thread), f, Runs(s, w, f), false, false)
    ensures Calm(s, DoSwitchTo(s, w, thread))
  {
    hide QueueInv, SlotInv, TimerInv, SemInv, WorkerInv, HostInv, FiberInv, HandInv, CancelInv, Bags, CallInv,
      CountInv, IdInv, IoInv;
    FreeFiber(s, w);
  }

  lemma SemTakeEffect(s: State, w: Thread, q: int, f: Fiber)
    requires Inv(s) && Acts(s, w) && q in s.sems && s.sems[q].count > 0
    ensures Effect(s, DoSemWait(s, w, q), f, false, false, false)
    ensures Calm(s, DoSemWait(s, w, q))
  {
    hide QueueInv, SlotInv, TimerInv, SemInv, WorkerInv, HostInv, FiberInv, HandInv, CancelInv, Bags, CallInv,
      CountInv, IdInv, IoInv;
  }

  lemma SemParkEffect(s: State, w: Thread, q: int, f: Fiber)
    requires Inv(s) && Acts(s, w) && q in s.sems && s.sems[q].count <= 0
    ensures Effect(s, DoSemWait(s, w, q), f, Runs(s, w, f), false, false)
    ensures Calm(s, DoSemWait(s, w, q))
  {
    hide QueueInv, SlotInv, TimerInv, SemInv, WorkerInv, HostInv, FiberInv, HandInv, CancelInv, Bags, CallInv,
      CountInv, IdInv, IoInv;
    FreeFiber(s, w);
  }

  lemma SemWaitEffect(s: State, w: Thread, q: int, f: Fiber)
    requires Inv(s) && Acts(s, w) && q in s.sems
    ensures Effect(s, DoSemWait(s, w, q), f, Runs(s, w, f) && s.sems[q].count <= 0, false, false)
    ensures Calm(s, DoSemWait(s, w, q))
  {
    hide Inv, Effect, Calm, DoSemWait;
    if s.sems[q].count > 0 { SemTakeEffect(s, w, q, f); } else { SemParkEffect(s, w, q, f); }
  }

  lemma SwapInEffect(s: State, w: Thread, f: Fiber)
    requires Inv(s) && HoldsFiber(s, w)
    ensures Effect(s, DoSwapIn(s, w), f, false, Took(s, w, f), false)
    ensures Calm(s, DoSwapIn(s, w))
  {
    hide QueueInv, SlotInv, TimerInv, SemInv, WorkerInv, HostInv, FiberInv, HandInv, CancelInv, Bags, CallInv,
      CountInv, IdInv, IoInv;
    HeldFiber(s, w);
  }

  lemma DropDeadEffect(s: State, w: Thread, f: Fiber)
    requires Inv(s) && HoldsFiber(s, w)
    ensures Effect(s, DoDropDead(s, w), f, false, Took(s, w, f), false)
    ensures Calm(s, DoDropDead(s, w))
  {
    hide QueueInv, SlotInv, TimerInv, SemInv, WorkerInv, HostInv, FiberInv, HandInv, CancelInv, Bags, CallInv,
      CountInv, IdInv, IoInv;
    HeldFiber(s, w);
  }

  lemma StartPlainEffect(s: State, w: Thread, c: Fiber, f: Fiber)
    requires Inv(s) && HoldsCall(s, w) && s.workers[w].pc.entry.job.Plain?
      && (if s.workers[w].kept.Some? then c == s.workers[w].kept.value else c !in s.fibers)
    ensures Effect(s, DoStartCall(s, w, c), f, false, false, false)
    ensures Calm(s, DoStartCall(s, w, c))
  {
    hide QueueInv, SlotInv, TimerInv, SemInv, WorkerInv, HostInv, FiberInv, HandInv, CancelInv, Bags, CallInv,
      CountInv, IdInv, IoInv;
    CallFiberIdle(s, w, c);
  }

  lemma StartOwnEffect(s: State, w: Thread, c: Fiber, f: Fiber)
    requires Inv(s) && HoldsCall(s, w) && !s.workers[w].pc.entry.job.Plain?
      && (if s.workers[w].kept.Some? then c == s.workers[w].kept.value else c !in s.fibers)
    ensures Effect(s, DoStartCall(s, w, c), f, false, false, false)
    ensures Calm(s, DoStartCall(s, w, c))
  {
    hide QueueInv, SlotInv, TimerInv, SemInv, WorkerInv, HostInv, FiberInv, HandInv, CancelInv, Bags, CallInv,
      CountInv, IdInv, IoInv;
    HeldCall(s, w);
    CallFiberIdle(s, w, c);
  }

  lemma StartEffect(s: State, w: Thread, c: Fiber, f: Fiber)
    requires Inv(s) && HoldsCall(s, w)
      && (if s.workers[w].kept.Some? then c == s.workers[w].kept.value else c !in s.fibers)
    ensures Effect(s, DoStartCall(s, w, c), f, false, false, false)
    ensures Calm(s, DoStartCall(s, w, c))
  {
    hide Inv, Effect, Calm, DoStartCall;
    if s.workers[w].pc.entry.job.Plain? { StartPlainEffect(s, w, c, f); } else { StartOwnEffect(s, w, c, f); }
  }

  lemma PickEffect(s: State, w: Thread, f: Fiber)
    requires Inv(s) && At(s, w, Scanning) && Choice(s, w).Some?
    ensures Effect(s, DoPick(s, w), f, false, false, false)
    ensures Calm(s, DoPick(s, w))
  {
    hide QueueInv, SlotInv, TimerInv, SemInv, WorkerInv, HostInv, FiberInv, HandInv, CancelInv, Bags, CallInv,
      CountInv, IdInv, IoInv;
    QueueAt(s.queue, s.place, s.calls, Choice(s, w).value);
  }

  lemma FinishCallEffect(s: State, w: Thread, ok: bool, f: Fiber)
    requires Inv(s) && Acts(s, w) && s.workers[w].pc.onCall
    ensures Effect(s, DoFinish(s, w, ok), f, false, false, false)
    ensures Calm(s, DoFinish(s, w, ok))
  {
    hide QueueInv, SlotInv, TimerInv, SemInv, WorkerInv, HostInv, FiberInv, HandInv, CancelInv, Bags, CallInv,
      CountInv, IdInv, IoInv;
    FreeFiber(s, w);
  }

  lemma FinishFiberEffect(s: State, w: Thread, ok: bool, f: Fiber)
    requires Inv(s) && Acts(s, w) && !s.workers[w].pc.onCall
    ensures Effect(s, DoFinish(s, w, ok), f, false, false, false)
    ensures Calm(s, DoFinish(s, w, ok))
  {
    hide QueueInv, SlotInv, TimerInv, SemInv, WorkerInv, HostInv, FiberInv, HandInv, CancelInv, Bags, CallInv,
      CountInv, IdInv, IoInv;
  }

  lemma FinishEffect(s: State, w: Thread, ok: bool, f: Fiber)
    requires Inv(s) && Acts(s, w)
    ensures Effect(s, DoFinish(s, w, ok), f, false, false, false)
    ensures Calm(s, DoFinish(s, w, ok))
  {
    hide Inv, Effect, Calm, DoFinish;
    if s.workers[w].pc.onCall { FinishCallEffect(s, w, ok, f); } else { FinishFiberEffect(s, w, ok, f); }
  }

  lemma WakeEffect(s: State, w: Thread, f: Fiber)
    requires Inv(s) && HasTodo(s, w) && s.workers[w].pc.todo.value.Wake?
    ensures Effect(s, DoDoWake(s, w), f, false, false, false)
    ensures Calm(s, DoDoWake(s, w))
  {
    hide QueueInv, SlotInv, TimerInv, SemInv, WorkerInv, HostInv, FiberInv, HandInv, CancelInv, Bags, CallInv,
      CountInv, IdInv, IoInv;
    WorkerAt(s.workers, s.place, s.calls, w);
  }

  lemma DeliverEffect(s: State, slot: Slot, f: Fiber)
    requires Inv(s) && slot in s.waiters
    ensures Effect(s, Deliver(s, slot), f, false, false, false)
    ensures Calm(s, Deliver(s, slot))
  {
    hide QueueInv, SlotInv, TimerInv, SemInv, WorkerInv, HostInv, FiberInv, HandInv, CancelInv, Bags, CallInv,
      CountInv, IdInv, IoInv;
    SlotAt(s.waiters, s.place, s.calls, slot);
  }

  lemma CallOverEffect(s: State, w: Thread, f: Fiber)
    requires HasTodo(s, w) && s.workers[w].pc.todo.value.Timeout?
    ensures Effect(s, CallOver(s, w), f, false, false, false)
  {
  }

  lemma MarkEffect(s: State, w: Thread, f: Fiber)
    requires HasTodo(s, w) && s.workers[w].pc.todo.value.Timeout?
    ensures Effect(s, DoMark(s, w), f, false, false, false)
  {
    hide CallOver;
    CallOverEffect(s, w, f);
  }

  lemma CancelEffect(s: State, w: Thread, f: Fiber)
    requires Inv(s) && HasTodo(s, w) && s.workers[w].pc.todo.value.Timeout?
    ensures Effect(s, DoCancel(s, w), f, false, false, false)
  {
    hide Inv, CallOver, Deliver;
    var slot := Slot(s.workers[w].pc.todo.value.fd, s.workers[w].pc.todo.value.event);
    if slot in s.waiters { DeliverEffect(s, slot, f); }
    DeliverKeepsWorkers(s, slot);
    CallOverEffect(CancelSlot(s, slot), w, f);
  }

  lemma DeliverKeepsWorkers(s: State, slot: Slot)
    ensures CancelSlot(s, slot).workers == s.workers
  {
    if slot in s.waiters {}
  }

  lemma SettleReadyEffect(s: State, w: Thread, f: Fiber)
    requires Inv(s) && IsBack(s, w) && s.workers[w].pc.fiber in s.fibers && s.fibers[s.workers[w].pc.fiber] == READY
    ensures Effect(s, DoSettle(s, w), f, false, false, false) && Calm(s, DoSettle(s, w))
  {
    hide QueueInv, SlotInv, TimerInv, SemInv, WorkerInv, HostInv, FiberInv, HandInv, CancelInv, Bags, CallInv,
      CountInv, IdInv, IoInv;
    HandAt(s.workers, s.fibers, w);
    SettledWorker(s, w, s.workers[w].(pc := Scanning));
  }

  lemma SettleHoldEffect(s: State, w: Thread, f: Fiber)
    requires Inv(s) && IsBack(s, w) && s.workers[w].pc.fiber in s.fibers && s.fibers[s.workers[w].pc.fiber] == HOLD
    ensures Effect(s, DoSettle(s, w), f, false, false, false) && Calm(s, DoSettle(s, w))
  {
    var worker := s.workers[w].(pc := Scanning);
    HoldingEffect(s, w, s.workers[w].pc.fiber, worker, f);
    hide SettleHold, Effect, Calm;
  }

  lemma HoldingEffect(s: State, w: Thread, g: Fiber, worker: Worker, f: Fiber)
    requires w in s.workers && s.workers[w].pc.Back?
    ensures Effect(s, SettleHold(s, w, g, worker), f, false, false, false) && Calm(s, SettleHold(s, w, g, worker))
  {
  }

  lemma SettleEffect(s: State, w: Thread, f: Fiber)
    requires Inv(s) && IsBack(s, w) && s.workers[w].pc.fiber in s.fibers
    ensures Effect(s, DoSettle(s, w), f, false, false, false) && Calm(s, DoSettle(s, w))
  {
    hide QueueInv, SlotInv, TimerInv, SemInv, WorkerInv, HostInv, FiberInv, HandInv, CancelInv, Bags, CallInv,
      CountInv, IdInv, IoInv;
    hide Effect, Calm, DoSettle;
    HandAt(s.workers, s.fibers, w);
    if s.fibers[s.workers[w].pc.fiber] == READY { SettleReadyEffect(s, w, f); } else { SettleHoldEffect(s, w, f); }
  }

  lemma CollectEffect(s: State, w: Thread, timer: int, f: Fiber)
    requires Inv(s) && w in s.workers && s.workers[w].pc.Idling? && timer in s.timers
    ensures Effect(s, DoCollect(s, w, timer), f, false, false, false) && Calm(s, DoCollect(s, w, timer))
  {
    hide QueueInv, SlotInv, TimerInv, SemInv, WorkerInv, HostInv, FiberInv, HandInv, CancelInv, Bags, CallInv,
      CountInv, IdInv, IoInv;
    TimerAt(s.timers, s.place, s.calls, timer);
  }

  lemma ScheduleFirstEffect(s: State, w: Thread, f: Fiber)
    requires Inv(s) && HasBatch(s, w)
    ensures Effect(s, ScheduleFirst(s, w), f, false, false, false) && Calm(s, ScheduleFirst(s, w))
  {
    hide QueueInv, SlotInv, TimerInv, SemInv, WorkerInv, HostInv, FiberInv, HandInv, CancelInv, Bags, CallInv,
      CountInv, IdInv, IoInv;
    UnloadedWorker(s, w, s.workers[w].(pc := Idling(s.workers[w].pc.batch[1..])));
  }

  lemma {:induction false} ScheduleCollectedEffect(s: State, w: Thread, f: Fiber)
    requires Inv(s) && w in s.workers && s.workers[w].pc.Idling?
    ensures Effect(s, DoScheduleCollected(s, w), f, false, false, false) && Calm(s, DoScheduleCollected(s, w))
    decreases |s.workers[w].pc.batch|
  {
    hide Inv, Here;
    if HasBatch(s, w) {
      var s1 := ScheduleFirst(s, w);
      ScheduleFirstKeeps(s, w);
      ScheduleFirstEffect(s, w, f);
      ScheduleCollectedEffect(s1, w, f);
      hide ScheduleFirst;
    }
  }

  /** The timer of this wait has not expired yet. */
  predicate StillArmed(s: State, c: IoCall)
  {
    c.timer.Some? && c.timer.value in s.timers && s.timers[c.timer.value].Timeout?
  }

  lemma DisarmingEffect(s: State, w: Thread, f: Fiber)
    requires Inv(s) && InIo(s, w, true)
    requires StillArmed(s, s.io[s.workers[w].pc.fiber])
    ensures Effect(s, DoResumeIo(s, w), f, false, false, false)
  {
    hide QueueInv, SlotInv, TimerInv, SemInv, WorkerInv, HostInv, FiberInv, HandInv, CancelInv, Bags, CallInv,
      CountInv, IdInv, IoInv;
  }

  lemma LateEffect(s: State, w: Thread, f: Fiber)
    requires Inv(s) && InIo(s, w, true)
    requires !StillArmed(s, s.io[s.workers[w].pc.fiber])
    ensures Effect(s, DoResumeIo(s, w), f, false, false, false)
  {
    hide QueueInv, SlotInv, TimerInv, SemInv, WorkerInv, HostInv, FiberInv, HandInv, CancelInv, Bags, CallInv,
      CountInv, IdInv, IoInv;
  }

  lemma ResumeIoEffect(s: State, w: Thread, f: Fiber)
    requires Inv(s) && InIo(s, w, true)
    ensures Effect(s, DoResumeIo(s, w), f, false, false, false)
  {
    hide Inv, Effect, DoResumeIo;
    if StillArmed(s, s.io[s.workers[w].pc.fiber]) {
      DisarmingEffect(s, w, f);
    } else {
      LateEffect(s, w, f);
    }
  }

  lemma ScheduleNewEffect(s: State, g: Fiber, thread: int, f: Fiber)
    requires Inv(s) && g !in s.fibers
    ensures Effect(s, ApplyAct(s, ScheduleFiber(g, thread)), f, g == f, false, false)
    ensures Calm(s, ApplyAct(s, ScheduleFiber(g, thread)))
  {
    hide QueueInv, SlotInv, TimerInv, SemInv, WorkerInv, HostInv, FiberInv, HandInv, CancelInv, Bags, CallInv,
      CountInv, IdInv, IoInv;
    FiberAt(s.fibers, s.leaving, s.dropped, s.place, g);
  }

  lemma ScheduleAgainEffect(s: State, g: Fiber, thread: int, f: Fiber)
    requires Inv(s) && g in s.fibers && ActEnabled(s, ScheduleFiber(g, thread))
    ensures Effect(s, ApplyAct(s, ScheduleFiber(g, thread)), f, g == f, false, false)
    ensures Calm(s, ApplyAct(s, ScheduleFiber(g, thread)))
  {
    hide QueueInv, SlotInv, TimerInv, SemInv, WorkerInv, HostInv, FiberInv, HandInv, CancelInv, Bags, CallInv,
      CountInv, IdInv, IoInv;
  }

  lemma DelCallEffect(s: State, slot: Slot, f: Fiber)
    requires Inv(s) && slot in s.waiters && s.waiters[slot].Plain?
    ensures Effect(s, DoDelEvent(s, slot), f, false, false, false)
    ensures Calm(s, DoDelEvent(s, slot))
  {
    hide QueueInv, SlotInv, TimerInv, SemInv, WorkerInv, HostInv, FiberInv, HandInv, CancelInv, Bags, CallInv,
      CountInv, IdInv, IoInv;
  }

  lemma DelFiberEffect(s: State, slot: Slot, f: Fiber)
    requires Inv(s) && slot in s.waiters && s.waiters[slot].Resume?
    ensures Effect(s, DoDelEvent(s, slot), f, false, Waits(s, slot, f), Waits(s, slot, f))
    ensures Calm(s, DoDelEvent(s, slot))
  {
    hide QueueInv, SlotInv, TimerInv, SemInv, WorkerInv, HostInv, FiberInv, HandInv, CancelInv, Bags, CallInv,
      CountInv, IdInv, IoInv;
    SlotAt(s.waiters, s.place, s.calls, slot);
  }

  lemma DelEffect(s: State, slot: Slot, f: Fiber)
    requires Inv(s) && slot in s.waiters
    ensures Effect(s, DoDelEvent(s, slot), f, false, Waits(s, slot, f), Waits(s, slot, f))
    ensures Calm(s, DoDelEvent(s, slot))
  {
    hide QueueInv, SlotInv, TimerInv, SemInv, WorkerInv, HostInv, FiberInv, HandInv, CancelInv, Bags, CallInv,
      CountInv, IdInv, IoInv;
    hide Effect, Calm, DoDelEvent;
    SlotAt(s.waiters, s.place, s.calls, slot);
    if s.waiters[slot].Plain? { DelCallEffect(s, slot, f); } else { DelFiberEffect(s, slot, f); }
  }

  lemma NotifyWakesEffect(s: State, q: int, f: Fiber)
    requires Inv(s) && q in s.sems && s.sems[q].waiting != []
    ensures Effect(s, DoNotify(s, q), f, false, false, false)
    ensures Calm(s, DoNotify(s, q))
  {
    hide QueueInv, SlotInv, TimerInv, SemInv, WorkerInv, HostInv, FiberInv, HandInv, CancelInv, Bags, CallInv,
      CountInv, IdInv, IoInv;
    SemAt(s.sems, s.place, q);
  }

  lemma NotifyCountsEffect(s: State, q: int, f: Fiber)
    requires Inv(s) && q in s.sems && s.sems[q].waiting == []
    ensures Effect(s, DoNotify(s, q), f, false, false, false)
    ensures Calm(s, DoNotify(s, q))
  {
    hide QueueInv, SlotInv, TimerInv, SemInv, WorkerInv, HostInv, FiberInv, HandInv, CancelInv, Bags, CallInv,
      CountInv, IdInv, IoInv;
  }

  lemma NotifyEffect(s: State, q: int, f: Fiber)
    requires Inv(s) && q in s.sems
    ensures Effect(s, DoNotify(s, q), f, false, false, false)
    ensures Calm(s, DoNotify(s, q))
  {
    hide Inv, Effect, Calm, DoNotify;
    if s.sems[q].waiting == [] { NotifyCountsEffect(s, q, f); } else { NotifyWakesEffect(s, q, f); }
  }

  /** The acts that touch no fiber. */
  lemma OtherActEffect(s: State, act: Act, f: Fiber)
    requires ActEnabled(s, act)
    requires act.ScheduleCall? || act.AddTimer? || act.CancelTimer? || act.AddEvent? || act.MakeSem? || act.Stop?
    ensures Effect(s, ApplyAct(s, act), f, false, false, false)
    ensures Calm(s, ApplyAct(s, act))
  {
  }

  lemma ActEffect(s: State, act: Act, f: Fiber)
    requires Inv(s) && ActEnabled(s, act)
    ensures var drops := act.DelEvent? && Waits(s, act.slot, f);
      Effect(s, ApplyAct(s, act), f, act.ScheduleFiber? && act.fiber == f, drops, drops)
    ensures Calm(s, ApplyAct(s, act))
  {
    hide Inv, Effect, Calm;
    match act
    case ScheduleFiber(g, thread) =>
      if g in s.fibers { ScheduleAgainEffect(s, g, thread, f); } else { ScheduleNewEffect(s, g, thread, f); }
    case DelEvent(slot) => DelEffect(s, slot, f);
    case CancelEvent(slot) => DeliverEffect(s, slot, f);
    case Notify(q) => NotifyEffect(s, q, f);
    case _ => OtherActEffect(s, act, f);
  }

  /** The steps that touch no fiber's wake-up. */
  lemma IdleEffect(s: State, step: Step, s': State, f: Fiber)
    requires Next(s, step, s') && (step.EnterIdle? || step.ExitWorker? || step.IdleYield? || step.IdleExit?)
    ensures Effect(s, s', f, false, false, false) && Calm(s, s')
  {
    hide DoPick, DoSwapIn, DoDropDead, DoStartCall, DoDoWake, DoMark, DoCancel, DoFinish, DoYieldReady, DoYieldHold;
    hide DoSwitchOut, DoSettle, DoCollect, DoScheduleCollected;
    hide DoBeginIo, DoArmIo, DoParkIo, DoResumeIo, DoSleep, DoSemWait, DoSwitchTo, Deliver, ApplyAct;
    assert s'.place == s.place && s'.dropped == s.dropped;
  }

  lemma EndIoEffect(s: State, w: Thread, f: Fiber)
    requires InIo(s, w, false)
    ensures Effect(s, s.(io := s.io - {s.workers[w].pc.fiber}), f, false, false, false)
  {
  }

  lemma YieldHoldEffect(s: State, w: Thread, f: Fiber)
    requires WillYield(s, w)
    ensures Effect(s, DoYieldHold(s, w), f, false, false, false) && Calm(s, DoYieldHold(s, w))
  {
  }

  lemma SwitchOutEffect(s: State, w: Thread, f: Fiber)
    requires w in s.workers && s.workers[w].pc.HalfOut?
    ensures Effect(s, DoSwitchOut(s, w), f, false, false, false) && Calm(s, DoSwitchOut(s, w))
  {
  }

  /** The steps by which a fiber parks or yields. */
  predicate ParkStep(step: Step)
  {
    step.YieldReady? || step.Sleep? || step.SwitchTo? || step.SemWait?
  }

  lemma ParkEffect(s: State, step: Step, s': State, f: Fiber)
    requires Inv(s) && Next(s, step, s') && ParkStep(step)
    ensures Effect(s, s', f, Gives(s, step, f), Takes(s, step, f), Drops(s, step, f))
    ensures !IoStep(step) ==> Calm(s, s')
  {
    hide Inv, Effect, Calm, DoPick, DoSwapIn, DoDropDead, DoStartCall, DoDoWake, DoMark, DoCancel, DoFinish,
      DoYieldReady;
    hide DoYieldHold, DoSwitchOut, DoSettle, DoCollect, DoScheduleCollected;
    hide DoBeginIo, DoArmIo, DoParkIo, DoResumeIo, DoSleep, DoSemWait, DoSwitchTo, Deliver, ApplyAct;
    hide Choice, Stopping, Finished, SetWorker;
    match step
    case YieldReady(w) => YieldReadyEffect(s, w, f);
    case Sleep(w) => SleepEffect(s, w, f);
    case SwitchTo(w, thread) => SwitchToEffect(s, w, thread, f);
    case SemWait(w, q) => SemWaitEffect(s, w, q, f);
  }

  lemma TaskEffect(s: State, step: Step, s': State, f: Fiber)
    requires Inv(s) && Next(s, step, s') && TaskStep(step)
    ensures Effect(s, s', f, Gives(s, step, f), Takes(s, step, f), Drops(s, step, f))
    ensures !IoStep(step) ==> Calm(s, s')
  {
    hide Inv, Effect, Calm, DoPick, DoSwapIn, DoDropDead, DoStartCall, DoDoWake, DoMark, DoCancel, DoFinish,
      DoYieldReady;
    hide DoYieldHold, DoSwitchOut, DoSettle, DoCollect, DoScheduleCollected;
    hide DoBeginIo, DoArmIo, DoParkIo, DoResumeIo, DoSleep, DoSemWait, DoSwitchTo, Deliver, ApplyAct;
    hide Choice, Stopping, Finished, SetWorker;
    match step
    case Pick(w) => PickEffect(s, w, f);
    case SwapIn(w) => SwapInEffect(s, w, f);
    case DropDead(w) => DropDeadEffect(s, w, f);
    case StartCall(w, c) => StartEffect(s, w, c, f);
    case DoWake(w) => WakeEffect(s, w, f);
    case Mark(w) => MarkEffect(s, w, f);
    case Cancel(w) => CancelEffect(s, w, f);
  }

  lemma OtherEffect(s: State, step: Step, s': State, f: Fiber)
    requires Inv(s) && Next(s, step, s') && !ParkStep(step) && !TaskStep(step)
    ensures Effect(s, s', f, Gives(s, step, f), Takes(s, step, f), Drops(s, step, f))
    ensures !IoStep(step) ==> Calm(s, s')
  {
    hide Inv, Effect, Calm, DoPick, DoSwapIn, DoDropDead, DoStartCall, DoDoWake, DoMark, DoCancel, DoFinish,
      DoYieldReady;
    hide DoYieldHold, DoSwitchOut, DoSettle, DoCollect, DoScheduleCollected;
    hide DoBeginIo, DoArmIo, DoParkIo, DoResumeIo, DoSleep, DoSemWait, DoSwitchTo, Deliver, ApplyAct;
    hide Choice, Stopping, Finished, SetWorker;
    match step
    case Finish(w, ok) => FinishEffect(s, w, ok, f);
    case YieldHold(w) => YieldHoldEffect(s, w, f);
    case SwitchOut(w) => SwitchOutEffect(s, w, f);
    case Settle(w) => SettleEffect(s, w, f);
    case BeginIo(w, slot) => BeginIoEffect(s, w, slot, f);
    case ArmIo(w) => ArmIoEffect(s, w, f);
    case ParkIo(w) => ParkIoEffect(s, w, f);
    case ResumeIo(w) => ResumeIoEffect(s, w, f);
    case EndIo(w) => EndIoEffect(s, w, f);
    case Dispatch(w, slot) => DeliverEffect(s, slot, f);
    case Collect(w, timer) => CollectEffect(s, w, timer, f);
    case ScheduleCollected(w) => ScheduleCollectedEffect(s, w, f);
    case Do(actor, act) => ActEffect(s, act, f);
    case _ => IdleEffect(s, step, s', f);
  }

  lemma StepEffect(s: State, step: Step, s': State, f: Fiber)
    requires Inv(s) && Next(s, step, s')
    ensures Effect(s, s', f, Gives(s, step, f), Takes(s, step, f), Drops(s, step, f))
    ensures !IoStep(step) ==> Calm(s, s')
  {
    hide Inv, Effect, Calm, Next, Gives, Takes, Drops;
    if ParkStep(step) {
      ParkEffect(s, step, s', f);
    } else if TaskStep(step) {
      TaskEffect(s, step, s', f);
    } else {
      OtherEffect(s, step, s', f);
    }
  }
}
