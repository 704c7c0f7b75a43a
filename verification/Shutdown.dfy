/** Who executes what, what the counters count, and what shutting down means, in every run. */
module Shutdown {
  import opened Common
  import opened RunQueues
  import opened Protocol
  import opened Invariants
  import opened InvariantProof
  import opened Effects
  import opened Safety

  /** The workers that have taken a task and not come back from it, and those inside their idle fiber. */
  ghost function Working(s: State): set<Thread>
  {
    set w | w in s.workers && (s.workers[w].pc.Holding? || s.workers[w].pc.Running? || s.workers[w].pc.HalfOut?)
  }

  ghost function InIdleFiber(s: State): set<Thread>
  {
    set w | w in s.workers && s.workers[w].pc.Idling?
  }

  lemma SameSets(s: State)
    ensures Working(s) == Busy(s.workers) && InIdleFiber(s) == Idle(s.workers)
  {
    assert forall w :: w in Working(s) <==> w in Busy(s.workers);
    assert forall w :: w in InIdleFiber(s) <==> w in Idle(s.workers);
  }

  /** The three counters are exact in every reachable state. */
  lemma CountersExact(s: State)
    requires Reachable(s)
    ensures s.active == |Working(s)| && s.idle == |InIdleFiber(s)| && s.pending == |s.waiters|
  {
    ReachableInv(s);
    hide QueueInv, SlotInv, TimerInv, SemInv, WorkerInv, HostInv, FiberInv, HandInv, CancelInv, Bags, CallInv, IdInv,
      IoInv;
    hide Working, InIdleFiber, Busy, Idle;
    SameSets(s);
  }

  /** As long as no worker has switched to a fiber that another was still leaving, a fiber is on one worker
      at most, is marked EXEC exactly while it executes, and swapIn never meets one that executes. */
  lemma OneWorkerPerFiber(s: State, w: Thread, v: Thread, f: Fiber)
    requires Reachable(s) && Occupies(s, w, f)
    ensures Occupies(s, v, f) ==> v == w
    ensures Runs(s, w, f) <==> Executing(s, f)
    ensures Took(s, v, f) ==> f in s.fibers && !Executing(s, f)
  {
    ReachableInv(s);
    if Occupies(s, v, f) { OneOccupant(s, w, v, f); }
    hide QueueInv, SlotInv, TimerInv, SemInv, WorkerInv, FiberInv, CancelInv, Bags, CallInv, CountInv, IdInv, IoInv;
    if Took(s, v, f) { HandAt(s.workers, s.fibers, v); }
    if Leaves(s, w, f) { HandAt(s.workers, s.fibers, w); }
  }

  lemma OneOccupant(s: State, w: Thread, v: Thread, f: Fiber)
    requires Inv(s) && Occupies(s, w, f) && Occupies(s, v, f)
    ensures v == w
  {
    hide Inv, Occupies;
    NeverShared(s);
  }

  /** A worker only ever takes entries meant for it or for anybody. */
  lemma TakesOwnEntries(s: State, w: Thread)
    requires Reachable(s) && w in s.workers && s.workers[w].pc.Holding?
    ensures s.workers[w].pc.entry.thread == -1 || s.workers[w].pc.entry.thread == w
  {
    ReachableInv(s);
    hide QueueInv, SlotInv, TimerInv, SemInv, WorkerInv, HostInv, FiberInv, HandInv, CancelInv, Bags, CallInv,
      CountInv, IdInv, IoInv;
    WorkerAt(s.workers, s.place, s.calls, w);
  }

  predicate Executing(s: State, f: Fiber)
  {
    f in s.fibers && s.fibers[f] == EXEC
  }

  /** And a fiber marked EXEC does execute, on some worker. */
  lemma ExecutingSomewhere(s: State, f: Fiber)
    requires Reachable(s) && Executing(s, f)
    ensures exists w :: Runs(s, w, f)
  {
    ReachableInv(s);
    hide QueueInv, SlotInv, TimerInv, SemInv, WorkerInv, FiberInv, CallInv, CountInv, IdInv, IoInv;
    assert Runs(s, s.host[f], f);
  }

  // ---- stopping ----------------------------------------------------------------------------------------

  /** Worker w counts as inactive and still has something to put on the task list: expired callbacks it has
      collected, or a READY fiber it has come back from. */
  predicate Carries(s: State, w: Thread)
  {
    HasBatch(s, w) || (IsBack(s, w) && s.workers[w].pc.ready)
  }

  lemma EmptySet(b: set<Thread>, w: Thread)
    requires w in b
    ensures |b| > 0
  {
    assert |b - {w}| == |b| - 1;
  }

  lemma NobodyWorks(s: State, w: Thread)
    requires Inv(s) && s.active == 0 && w in s.workers
    ensures IsBusy(s.workers[w].pc) == 0
  {
    hide QueueInv, SlotInv, TimerInv, SemInv, WorkerInv, HostInv, FiberInv, HandInv, CancelInv, Bags, CallInv, IdInv,
      IoInv;
    if w in Busy(s.workers) { EmptySet(Busy(s.workers), w); }
  }

  lemma NoWaiters(s: State)
    requires Inv(s) && s.pending == 0
    ensures s.waiters == map[]
  {
    hide QueueInv, SlotInv, TimerInv, SemInv, WorkerInv, HostInv, FiberInv, HandInv, CancelInv, Bags, CallInv, IdInv,
      IoInv;
  }

  /** A callback once accepted is in exactly one place until it has been started, cancelled or dropped. */
  lemma CallbackConserved(s: State, id: int)
    requires Reachable(s) && id in s.calls
    ensures HasToken(s, OfCall(id)) <==> id !in s.ended
    ensures forall t, t' :: Holds(s, t, OfCall(id)) && Holds(s, t', OfCall(id)) ==> t == t'
  {
    hide Inv, Reachable;
    ReachableInv(s);
    CallSpot(s, id);
    TokenIffPlaced(s, OfCall(id));
    forall t, t' | Holds(s, t, OfCall(id)) && Holds(s, t', OfCall(id))
      ensures t == t'
    {
      SamePlace(s, t, t', OfCall(id));
    }
  }

  lemma CallSpot(s: State, id: int)
    requires Inv(s) && id in s.calls
    ensures Spot(s.place, OfCall(id)).Some? <==> id !in s.ended
    ensures OfCall(id) in s.place ==> !s.place[OfCall(id)].Kept?
  {
    hide QueueInv, SlotInv, TimerInv, SemInv, HostInv, FiberInv, HandInv, CancelInv, Bags, CountInv, IdInv, IoInv;
    if OfCall(id) in s.place && s.place[OfCall(id)].Kept? {
      WorkerAt(s.workers, s.place, s.calls, s.place[OfCall(id)].worker);
    }
  }

  /** Nothing is left to be done: all wake-ups are semaphores', and every callback ever accepted is over. */
  ghost predicate Quiet(s: State)
  {
    && (forall t, k :: Holds(s, t, k) ==> t.OnSem?)
    && (forall id :: id in s.calls ==> id in s.ended)
  }

  lemma OnlySems(s: State, t: Token, k: Key)
    requires Inv(s) && Stopping(s) && Holds(s, t, k) && forall w :: !Carries(s, w)
    ensures t.OnSem?
  {
    hide Inv;
    NoWaiters(s);
    if t.Taken? || t.InProgress? || t.Returning? { NobodyWorks(s, t.worker); }
    if t.Batched? || t.Returning? { assert !Carries(s, t.worker); }
  }

  lemma CarriedIsWork(s: State, w: Thread)
    requires Carries(s, w)
    ensures exists t, k :: Holds(s, t, k) && !t.OnSem?
  {
    if HasBatch(s, w) {
      assert Holds(s, Batched(w, 0), KeyOf(s.workers[w].pc.batch[0]));
    } else {
      assert Holds(s, Returning(w), OfFiber(s.workers[w].pc.fiber));
    }
  }

  lemma NothingCarried(s: State)
    requires Reachable(s) && Stopping(s) && forall w :: !Carries(s, w)
    ensures Quiet(s)
  {
    ReachableInv(s);
    hide Inv, Holds, Reachable, Carries;
    forall t, k | Holds(s, t, k)
      ensures t.OnSem?
    {
      OnlySems(s, t, k);
    }
    forall id | id in s.calls
      ensures id in s.ended
    {
      CallbackConserved(s, id);
      if HasToken(s, OfCall(id)) {
        var t :| Holds(s, t, OfCall(id));
        SemHoldsFibers(s, t, OfCall(id));
      }
    }
  }

  /** When the snapshot says stopping, no worker has a task or executes a fiber, and nothing is queued, timed
      or registered. Nothing at all is left to be done exactly if no worker carries anything back. */
  lemma StoppingMeansQuiet(s: State)
    requires Reachable(s) && Stopping(s)
    ensures forall w :: w in s.workers ==> IsBusy(s.workers[w].pc) == 0
    ensures s.queue == [] && s.timers == map[] && s.waiters == map[]
    ensures forall f :: !Executing(s, f)
    ensures Quiet(s) <==> forall w :: !Carries(s, w)
  {
    ReachableInv(s);
    hide Inv, Holds, Reachable, Quiet, Carries;
    NoWaiters(s);
    forall w | w in s.workers
      ensures IsBusy(s.workers[w].pc) == 0
    {
      NobodyWorks(s, w);
    }
    forall f
      ensures !Executing(s, f)
    {
      if Executing(s, f) { ExecutingSomewhere(s, f); }
    }
    if forall w :: !Carries(s, w) {
      NothingCarried(s);
    } else {
      var w :| Carries(s, w);
      CarriedIsWork(s, w);
      NotQuiet(s);
    }
  }

  lemma NotQuiet(s: State)
    requires exists t, k :: Holds(s, t, k) && !t.OnSem?
    ensures !Quiet(s)
  {
  }

  lemma SemHoldsFibers(s: State, t: Token, k: Key)
    requires Holds(s, t, k) && t.OnSem?
    ensures k.OfFiber?
  {
  }

  /** The act brings in new work, or wakes somebody. */
  predicate Brings(s: State, act: Act)
  {
    match act
    case ScheduleFiber(_, _) => true
    case ScheduleCall(_) => true
    case AddTimer => true
    case AddEvent(_) => true
    case Notify(q) => q in s.sems && s.sems[q].waiting != []
    case _ => false
  }

  lemma QuietNotify(s: State, q: int)
    requires Stopping(s) && q in s.sems
    ensures Stopping(DoNotify(s, q)) <==> s.sems[q].waiting == []
    ensures DoNotify(s, q).workers == s.workers
  {
    if s.sems[q].waiting == [] { QuietCount(s, q); } else { LoudNotify(s, q); }
  }

  lemma QuietCount(s: State, q: int)
    requires Stopping(s) && q in s.sems && s.sems[q].waiting == []
    ensures Stopping(DoNotify(s, q)) && DoNotify(s, q).workers == s.workers
  {
  }

  lemma LoudNotify(s: State, q: int)
    requires q in s.sems && s.sems[q].waiting != []
    ensures !Stopping(DoNotify(s, q)) && DoNotify(s, q).workers == s.workers
  {
  }

  lemma QuietAct(s: State, act: Act)
    requires Stopping(s) && s.waiters == map[] && ActEnabled(s, act)
    ensures Stopping(ApplyAct(s, act)) <==> !Brings(s, act)
    ensures ApplyAct(s, act).workers == s.workers
  {
    hide Deliver, DoDelEvent, DoNotify;
    if act.Notify? {
      QuietNotify(s, act.sem);
    } else if act.AddTimer? {
      assert s.nextId in ApplyAct(s, act).timers;
    }
  }

  /** Once stopping, no fiber runs that could act: whatever is done comes from outside the scheduler. */
  lemma OnlyOutsiders(s: State, step: Step, s': State)
    requires Reachable(s) && Stopping(s) && Next(s, step, s') && step.Do?
    ensures step.actor == Outside
  {
    StoppingMeansQuiet(s);
    hide Inv, Reachable, Holds, Executing, ApplyAct, ActEnabled, Stopping;
  }

  /** The step puts on the list what its worker carries. */
  predicate Unloads(s: State, step: Step)
  {
    step.ScheduleCollected? || (step.Settle? && IsBack(s, step.w) && s.workers[step.w].pc.ready)
  }

  /** The steps of a worker that has nothing to do: it enters its idle fiber, leaves it, or ends. */
  predicate IdleStep(step: Step)
  {
    step.EnterIdle? || step.ExitWorker? || step.IdleYield? || step.IdleExit?
  }

  /** A worker without work has nothing to do but look, idle, leave, or put down what it carries. */
  lemma OnlyIdle(s: State, step: Step, s': State)
    requires Stopping(s) && s.waiters == map[] && Next(s, step, s') && !step.Do? && !Unloads(s, step)
    requires forall w :: w in s.workers ==> IsBusy(s.workers[w].pc) == 0
    ensures IdleStep(step) || step.Settle?
  {
    hide DoPick, DoSwapIn, DoDropDead, DoStartCall, DoDoWake, DoMark, DoCancel, DoFinish, Live;
    hide DoYieldReady, DoYieldHold, DoSwitchOut, DoSettle, DoCollect, DoScheduleCollected;
    hide DoBeginIo, DoArmIo, DoParkIo, DoResumeIo, DoSleep, DoSemWait, DoSwitchTo, Deliver, ApplyAct, Enqueue;
  }

  lemma QuietIdle(s: State, step: Step, s': State)
    requires Stopping(s) && Next(s, step, s') && IdleStep(step)
    ensures Stopping(s') && forall w :: Carries(s', w) ==> Carries(s, w)
  {
    hide DoPick, DoSwapIn, DoDropDead, DoStartCall, DoDoWake, DoMark, DoCancel, DoFinish, Live;
    hide DoYieldReady, DoYieldHold, DoSwitchOut, DoSettle, DoCollect, DoScheduleCollected;
    hide DoBeginIo, DoArmIo, DoParkIo, DoResumeIo, DoSleep, DoSemWait, DoSwitchTo, Deliver, ApplyAct, Enqueue;
  }

  lemma QuietOwn(s: State, step: Step, s': State)
    requires Stopping(s) && s.waiters == map[] && Next(s, step, s') && !step.Do? && !Unloads(s, step)
    requires forall w :: w in s.workers ==> IsBusy(s.workers[w].pc) == 0
    requires HandInv(s.workers, s.fibers)
    ensures Stopping(s') && forall w :: Carries(s', w) ==> Carries(s, w)
  {
    OnlyIdle(s, step, s');
    if step.Settle? {
      hide HandInv, DoSettle, Carries, Stopping;
      HandAt(s.workers, s.fibers, step.w);
      QuietSettle(s, step.w);
    } else {
      hide *;
      QuietIdle(s, step, s');
    }
  }

  lemma QuietSettle(s: State, w: Thread)
    requires Stopping(s) && IsBack(s, w) && s.workers[w].pc.fiber in s.fibers && s.fibers[s.workers[w].pc.fiber] == HOLD
    ensures var s' := DoSettle(s, w); Stopping(s') && forall v :: Carries(s', v) ==> Carries(s, v)
  {
  }

  lemma Unloading(s: State, step: Step, s': State)
    requires Inv(s) && Next(s, step, s') && Unloads(s, step)
    ensures s'.queue != []
  {
    hide Inv, HandInv;
    if step.Settle? {
      UnloadingReady(s, step.w);
    } else {
      UnloadingBatch(s, step.w);
    }
  }

  lemma UnloadingReady(s: State, w: Thread)
    requires Inv(s) && IsBack(s, w) && s.workers[w].pc.ready && s.workers[w].pc.fiber in s.fibers
    ensures DoSettle(s, w).queue != []
  {
    hide QueueInv, SlotInv, TimerInv, SemInv, WorkerInv, HostInv, FiberInv, HandInv, CancelInv, CallInv, CountInv,
      IdInv, IoInv;
    HandAt(s.workers, s.fibers, w);
  }

  lemma UnloadingBatch(s: State, w: Thread)
    requires HasBatch(s, w)
    ensures DoScheduleCollected(s, w).queue != []
  {
    QueueGrows(ScheduleFirst(s, w), w);
  }

  lemma {:induction false} QueueGrows(s: State, w: Thread)
    requires w in s.workers && s.workers[w].pc.Idling?
    ensures |DoScheduleCollected(s, w).queue| >= |s.queue|
    decreases |s.workers[w].pc.batch|
  {
    if HasBatch(s, w) { QueueGrows(ScheduleFirst(s, w), w); }
  }

  lemma QuietDo(s: State, step: Step, s': State)
    requires Stopping(s) && s.waiters == map[] && Next(s, step, s') && step.Do?
    ensures Stopping(s') <==> !Brings(s, step.act)
    ensures forall w :: Carries(s', w) <==> Carries(s, w)
  {
    hide ApplyAct, Brings, Stopping, ActEnabled;
    QuietAct(s, step.act);
  }

  /** Once stopping, a step ends it exactly if it brings new work from outside or puts down what a worker
      carried. */
  lemma QuietStep(s: State, step: Step, s': State)
    requires Reachable(s) && Stopping(s) && Next(s, step, s')
    ensures Stopping(s') <==> !(step.Do? && Brings(s, step.act)) && !Unloads(s, step)
    ensures (forall w :: !Carries(s, w)) && !(step.Do? && Brings(s, step.act)) ==> forall w :: !Carries(s', w)
  {
    StoppingMeansQuiet(s);
    ReachableInv(s);
    HandPart(s);
    if Unloads(s, step) {
      UnloadsCarried(s, step, s');
      Unloading(s, step, s');
      QueueEndsIt(s');
      hide *;
    } else {
      hide *;
      if step.Do? { QuietDo(s, step, s'); } else { QuietOwn(s, step, s'); }
    }
  }

  lemma QueueEndsIt(s: State)
    requires s.queue != []
    ensures !Stopping(s)
  {
  }

  lemma UnloadsCarried(s: State, step: Step, s': State)
    requires Next(s, step, s') && Unloads(s, step)
    ensures Carries(s, step.w)
  {
  }

  lemma HandPart(s: State)
    requires Inv(s)
    ensures HandInv(s.workers, s.fibers)
  {
    hide QueueInv, SlotInv, TimerInv, SemInv, WorkerInv, HostInv, FiberInv, HandInv, CancelInv, CallInv, CountInv,
      IdInv, IoInv;
  }

  /** So when nothing is carried, stopping lasts until somebody outside brings work. */
  lemma {:induction false} StoppingLasts(states: seq<State>, steps: seq<Step>, i: nat, j: nat)
    requires SoundRun(states, steps) && i <= j <= |steps| && Stopping(states[i]) && forall w :: !Carries(states[i], w)
    requires forall k :: i <= k < j ==> !(steps[k].Do? && Brings(states[k], steps[k].act))
    ensures Stopping(states[j]) && forall w :: !Carries(states[j], w)
  {
    hide Stopping, Next, Brings, Carries, TakesLeft;
    if i < j {
      StoppingLasts(states, steps, i, j - 1);
      RunPrefix(states, steps, j - 1);
      QuietStep(states[j - 1], steps[j - 1], states[j]);
      if Unloads(states[j - 1], steps[j - 1]) { UnloadsCarried(states[j - 1], steps[j - 1], states[j]); }
    }
  }

  lemma RunPrefix(states: seq<State>, steps: seq<Step>, n: nat)
    requires SoundRun(states, steps) && n <= |steps|
    ensures Reachable(states[n])
  {
    hide Init, Next, TakesLeft;
    assert SoundRun(states[..n + 1], steps[..n]);
  }
}
