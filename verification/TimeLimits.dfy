/** Time limits of do_io: when a waiting fiber is sure to be woken by its timeout, and when not. */
module TimeLimits {
  import opened Common
  import opened RunQueues
  import opened Protocol
  import opened Invariants
  import opened InvariantProof
  import opened Effects
  import opened Safety
  import opened Shutdown

  /** Fiber f is registered by its do_io. */
  ghost predicate WaitsInIo(s: State, f: Fiber)
  {
    f in s.io && Waits(s, s.io[f].slot, f)
  }

  /** Worker w runs a timeout callback that has marked this timer_info and cancels the event next. */
  ghost predicate Cancels(s: State, w: Thread, info: int)
  {
    w in s.cancelling && w in s.workers && InTimeout(s.workers[w].pc) && s.workers[w].pc.todo.value.info == info
  }

  ghost predicate CancelToCome(s: State, info: int)
  {
    exists w :: Cancels(s, w, info)
  }

  lemma WaitingFacts(s: State, f: Fiber)
    requires Inv(s) && WaitsInIo(s, f)
    ensures IoOk(f, s.io[f], s.fibers, Some(InSlot(s.io[f].slot)), s.timedOut, s.calls, s.ended)
  {
    hide QueueInv, SlotInv, TimerInv, SemInv, WorkerInv, HostInv, FiberInv, HandInv, CancelInv, Bags, CountInv,
      CallInv, IdInv, IoInv;
    SlotAt(s.waiters, s.place, s.calls, s.io[f].slot);
    IoAt(s.io, s.fibers, s.place, s.timedOut, s.calls, s.ended, f);
  }

  /** While a fiber waits with a time limit and its timer_info is unmarked, its timeout callback is still
      armed, collected, queued, held or running: the time limit cannot get lost. */
  lemma TimeLimitKept(s: State, f: Fiber)
    requires Reachable(s) && WaitsInIo(s, f) && s.io[f].timer.Some? && s.io[f].info !in s.timedOut
    ensures HasToken(s, OfCall(s.io[f].timer.value))
  {
    hide Inv, Reachable;
    ReachableInv(s);
    WaitingFacts(s, f);
    CallbackConserved(s, s.io[f].timer.value);
  }

  /** The timeout callback of fiber f's present wait is about to look at the timer_info. */
  ghost predicate RunsTimeoutOf(s: State, w: Thread, f: Fiber)
  {
    && HasTodo(s, w) && s.workers[w].pc.todo.value.Timeout? && w !in s.cancelling
    && f in s.io && s.io[f].timer == Some(s.workers[w].pc.todo.value.id)
  }

  lemma UnmarkedGoesOn(s: State, w: Thread, f: Fiber)
    requires Inv(s) && WaitsInIo(s, f) && RunsTimeoutOf(s, w, f) && s.io[f].info !in s.timedOut
    ensures var s' := DoMark(s, w);
      && Waits(s', s.io[f].slot, f) && s'.queue == s.queue && s'.place == s.place
      && Cancels(s', w, s.io[f].info) && s.io[f].info in s'.timedOut
  {
    OwnTimeout(s, w, f);
    assert Live(s, s.io[f].info);
    hide Inv, Live;
  }

  lemma MarkedIsOver(s: State, w: Thread, f: Fiber)
    requires Inv(s) && WaitsInIo(s, f) && RunsTimeoutOf(s, w, f) && s.io[f].info in s.timedOut
    ensures var s' := DoMark(s, w);
      && Waits(s', s.io[f].slot, f) && s'.queue == s.queue && s'.timedOut == s.timedOut
      && w !in s'.cancelling && OfCall(s.io[f].timer.value) !in s'.place
  {
    OwnTimeout(s, w, f);
    hide Inv, Live;
  }

  /** It goes on to cancel exactly when the timer_info is unmarked; otherwise it is over and the fiber, still
      waiting, has lost it. */
  lemma TimeoutMarksIffUnmarked(s: State, w: Thread, f: Fiber)
    requires Reachable(s) && WaitsInIo(s, f) && RunsTimeoutOf(s, w, f)
    ensures var s' := DoMark(s, w);
      && Waits(s', s.io[f].slot, f) && s'.queue == s.queue && s.io[f].info in s'.timedOut
      && (s.io[f].info !in s.timedOut <==> Cancels(s', w, s.io[f].info))
      && (s.io[f].info !in s.timedOut <==> OfCall(s.io[f].timer.value) in s'.place)
  {
    hide Inv, Reachable, DoMark, Waits;
    ReachableInv(s);
    OwnTimeout(s, w, f);
    if s.io[f].info !in s.timedOut { UnmarkedGoesOn(s, w, f); } else { MarkedIsOver(s, w, f); }
  }

  lemma OwnTimeout(s: State, w: Thread, f: Fiber)
    requires Inv(s) && WaitsInIo(s, f) && RunsTimeoutOf(s, w, f)
    ensures s.workers[w].pc.todo.value
         == Timeout(s.io[f].timer.value, s.io[f].slot.fd, s.io[f].slot.event, s.io[f].info)
    ensures Spot(s.place, OfCall(s.io[f].timer.value)) == Some(InCall(w))
  {
    WaitingFacts(s, f);
    hide QueueInv, SlotInv, TimerInv, SemInv, HostInv, FiberInv, HandInv, CancelInv, Bags, CountInv, CallInv, IdInv,
      IoInv;
    WorkerAt(s.workers, s.place, s.calls, w);
  }

  /** A cancel to come, of this wait's own timeout or of an earlier try's, takes a fiber it finds waiting off
      its registration and onto the task list; the mark makes do_io report the timeout. */
  lemma CancelWakes(s: State, w: Thread, f: Fiber)
    requires Reachable(s) && WaitsInIo(s, f) && Cancels(s, w, s.io[f].info)
    ensures var s' := DoCancel(s, w);
      && !Waits(s', s.io[f].slot, f) && s'.queue == s.queue + [Entry(Resume(f), -1)]
      && s.io[f].info in s'.timedOut && !CancelToCome(s', s.io[f].info)
  {
    ReachableInv(s);
    JobSlot(s, w, f);
    OneCancel(s, w);
    hide Inv, Reachable, WaitsInIo;
  }

  /** No two workers cancel for the same timer_info, which is marked. */
  lemma OneCancel(s: State, w: Thread)
    requires Inv(s) && w in s.cancelling
    ensures HasTodo(s, w) && s.workers[w].pc.todo.value.info in s.timedOut
    ensures forall v :: Cancels(s, v, s.workers[w].pc.todo.value.info) ==> v == w
  {
    hide QueueInv, SlotInv, TimerInv, SemInv, WorkerInv, HostInv, FiberInv, HandInv, Bags, CountInv, CallInv, IdInv,
      IoInv;
  }

  // ---- when a time limit is lost ---------------------------------------------------------------------------

  /** Fiber f waits, its timer_info is already marked, and no cancel is to come: no timeout will wake it. */
  ghost predicate LimitLost(s: State, f: Fiber)
  {
    WaitsInIo(s, f) && s.io[f].info in s.timedOut && !CancelToCome(s, s.io[f].info)
  }

  /** Fiber f registers although its timer_info has been marked and the event cancelled already: by this
      wait's own timeout, expired before the fiber got to register, or by that of an earlier try. */
  ghost predicate ParksMarked(s: State, step: Step, f: Fiber)
  {
    step.ParkIo? && Runs(s, step.w, f) && f in s.io && s.io[f].info in s.timedOut && !CancelToCome(s, s.io[f].info)
  }

  lemma CalmKeepsLimits(s: State, s': State, f: Fiber)
    requires Calm(s, s') && LimitLost(s', f)
    ensures LimitLost(s, f)
  {
    forall w | Cancels(s, w, s.io[f].info)
      ensures Cancels(s', w, s.io[f].info)
    {
    }
  }

  // The steps of do_io itself.

  /** A fiber that runs its own code is registered nowhere. */
  lemma NotRegistered(s: State, w: Thread)
    requires Inv(s) && Executes(s, w)
    ensures forall slot :: !Waits(s, slot, s.workers[w].pc.fiber)
  {
    hide Inv;
    FreeFiber(s, w);
    forall slot
      ensures !Waits(s, slot, s.workers[w].pc.fiber)
    {
      if Waits(s, slot, s.workers[w].pc.fiber) { HoldsPlace(s, Registered(slot), OfFiber(s.workers[w].pc.fiber)); }
    }
  }

  lemma SameCancels(s: State, s': State, info: int)
    requires s'.workers == s.workers && s'.cancelling == s.cancelling
    ensures CancelToCome(s', info) <==> CancelToCome(s, info)
  {
    assert forall w :: Cancels(s', w, info) <==> Cancels(s, w, info);
  }

  /** What registering changes. */
  ghost predicate Parked(s: State, s': State, g: Fiber)
  {
    && g in s.io && s'.waiters == s.waiters[s.io[g].slot := Resume(g)]
    && s'.io == s.io[g := s.io[g].(waiting := true)]
    && s'.timedOut == s.timedOut && s'.cancelling == s.cancelling && s'.workers == s.workers
  }

  lemma ParkFields(s: State, w: Thread)
    requires InIo(s, w, false)
    ensures Parked(s, DoParkIo(s, w), s.workers[w].pc.fiber)
  {
  }

  lemma ParkedLimits(s: State, s': State, g: Fiber, f: Fiber)
    requires Parked(s, s', g) && s.io[g].slot !in s.waiters && forall slot :: !Waits(s, slot, g)
    ensures LimitLost(s', f) <==>
      LimitLost(s, f) || (f == g && s.io[f].info in s.timedOut && !CancelToCome(s, s.io[f].info))
  {
    if f in s.io { SameCancels(s, s', s.io[f].info); }
    hide CancelToCome;
  }

  lemma ParkLimits(s: State, w: Thread, f: Fiber)
    requires Inv(s) && InIo(s, w, false) && s.io[s.workers[w].pc.fiber].slot !in s.waiters
    ensures LimitLost(DoParkIo(s, w), f) <==>
      LimitLost(s, f) || (Runs(s, w, f) && s.io[f].info in s.timedOut && !CancelToCome(s, s.io[f].info))
  {
    hide Inv, LimitLost, Parked, DoParkIo, Waits, CancelToCome;
    NotRegistered(s, w);
    ParkFields(s, w);
    ParkedLimits(s, DoParkIo(s, w), s.workers[w].pc.fiber, f);
  }

  /** The other steps of do_io change no call but the fiber's own, and no registration. */
  ghost predicate WentOn(s: State, s': State, g: Fiber)
  {
    && s'.waiters == s.waiters && (forall f :: f in s'.io && f != g ==> f in s.io && s'.io[f] == s.io[f])
    && s'.timedOut == s.timedOut && s'.cancelling == s.cancelling && s'.workers == s.workers
  }

  lemma BeginFields(s: State, w: Thread, slot: Slot)
    requires Acts(s, w)
    ensures WentOn(s, DoBeginIo(s, w, slot), s.workers[w].pc.fiber)
  {
  }

  lemma ArmFields(s: State, w: Thread)
    requires InIo(s, w, false)
    ensures WentOn(s, DoArmIo(s, w), s.workers[w].pc.fiber)
  {
  }

  lemma ResumeDisarming(s: State, w: Thread)
    requires InIo(s, w, true) && StillArmed(s, s.io[s.workers[w].pc.fiber])
    ensures WentOn(s, DoResumeIo(s, w), s.workers[w].pc.fiber)
  {
  }

  lemma ResumeLate(s: State, w: Thread)
    requires InIo(s, w, true) && !StillArmed(s, s.io[s.workers[w].pc.fiber])
    ensures WentOn(s, DoResumeIo(s, w), s.workers[w].pc.fiber)
  {
  }

  lemma ResumeFields(s: State, w: Thread)
    requires InIo(s, w, true)
    ensures WentOn(s, DoResumeIo(s, w), s.workers[w].pc.fiber)
  {
    hide DoResumeIo, WentOn, StillArmed;
    if StillArmed(s, s.io[s.workers[w].pc.fiber]) { ResumeDisarming(s, w); } else { ResumeLate(s, w); }
  }

  lemma EndFields(s: State, w: Thread)
    requires InIo(s, w, false)
    ensures WentOn(s, s.(io := s.io - {s.workers[w].pc.fiber}), s.workers[w].pc.fiber)
  {
  }

  lemma CallStepFields(s: State, step: Step, s': State)
    requires Next(s, step, s') && CallStep(step)
    ensures Executes(s, step.w) && WentOn(s, s', s.workers[step.w].pc.fiber)
  {
    hide DoBeginIo, DoArmIo, DoParkIo, DoResumeIo, DoMark, DoCancel, DoPick, DoSwapIn, DoDropDead, DoStartCall;
    hide Finished, HasTodo, DoDoWake, DoFinish, DoYieldReady, DoYieldHold, DoSwitchOut, DoSettle, DoCollect;
    hide DoScheduleCollected, DoSleep, DoSemWait, DoSwitchTo, Deliver, ApplyAct, SetWorker, Choice, Stopping, WentOn;
    match step
    case BeginIo(w, slot) => BeginFields(s, w, slot);
    case ArmIo(w) => ArmFields(s, w);
    case ResumeIo(w) => ResumeFields(s, w);
    case EndIo(w) => EndFields(s, w);
  }

  lemma WentOnLimits(s: State, s': State, g: Fiber, f: Fiber)
    requires WentOn(s, s', g) && LimitLost(s', f) && forall slot :: !Waits(s, slot, g)
    ensures LimitLost(s, f)
  {
    assert Waits(s, s'.io[f].slot, f);
    SameCancels(s, s', s'.io[f].info);
    hide CancelToCome;
  }

  // The steps of a timeout callback.

  lemma MarkingLimits(s: State, w: Thread, f: Fiber)
    requires HasTodo(s, w) && s.workers[w].pc.todo.value.Timeout?
    requires Live(s, s.workers[w].pc.todo.value.info) && s.workers[w].pc.todo.value.info !in s.timedOut
    requires LimitLost(DoMark(s, w), f)
    ensures LimitLost(s, f)
  {
    hide Live;
    var s', info := DoMark(s, w), s.workers[w].pc.todo.value.info;
    assert Cancels(s', w, info);
    forall v | Cancels(s, v, s.io[f].info)
      ensures Cancels(s', v, s.io[f].info)
    {
    }
  }

  /** The callback on w is over: nobody else's cancel is touched. */
  lemma OverCancels(s: State, w: Thread, info: int)
    requires HasTodo(s, w) && s.workers[w].pc.todo.value.Timeout? && CancelToCome(s, info)
    requires Cancels(s, w, info) ==> w !in s.cancelling
    ensures CancelToCome(CallOver(s, w), info)
  {
    var v :| Cancels(s, v, info);
    assert Cancels(CallOver(s, w), v, info);
  }

  lemma OverLimits(s: State, w: Thread, f: Fiber)
    requires HasTodo(s, w) && s.workers[w].pc.todo.value.Timeout?
    requires LimitLost(CallOver(s, w), f) && !Cancels(s, w, s.io[f].info)
    ensures LimitLost(s, f)
  {
    if CancelToCome(s, s.io[f].info) { OverCancels(s, w, s.io[f].info); }
    hide CancelToCome;
  }

  lemma MarkLimits(s: State, w: Thread, f: Fiber)
    requires Inv(s) && HasTodo(s, w) && s.workers[w].pc.todo.value.Timeout? && w !in s.cancelling
    requires LimitLost(DoMark(s, w), f)
    ensures LimitLost(s, f)
  {
    hide Inv, LimitLost, Live, CallOver;
    if Live(s, s.workers[w].pc.todo.value.info) && s.workers[w].pc.todo.value.info !in s.timedOut {
      MarkingLimits(s, w, f);
    } else {
      OverIo(s, w, f);
      OverLimits(s, w, f);
    }
  }

  lemma OverIo(s: State, w: Thread, f: Fiber)
    requires HasTodo(s, w) && s.workers[w].pc.todo.value.Timeout? && LimitLost(CallOver(s, w), f)
    ensures WaitsInIo(s, f)
  {
    hide CancelToCome;
  }

  /** Every timeout callback of a do_io cancels where that do_io registers. */
  lemma JobSlot(s: State, w: Thread, f: Fiber)
    requires Inv(s) && HasTodo(s, w) && s.workers[w].pc.todo.value.Timeout? && f in s.io
    ensures SameSlot(s.io[f], s.workers[w].pc.todo.value)
  {
    hide QueueInv, SlotInv, TimerInv, SemInv, HostInv, FiberInv, HandInv, CancelInv, Bags, CountInv, CallInv, IdInv,
      IoInv;
    WorkerAt(s.workers, s.place, s.calls, w);
    IoAt(s.io, s.fibers, s.place, s.timedOut, s.calls, s.ended, f);
  }

  lemma DeliverLimits(s: State, slot: Slot, f: Fiber)
    requires LimitLost(CancelSlot(s, slot), f)
    ensures LimitLost(s, f) && s.io[f].slot != slot
  {
    if slot in s.waiters { SameCancels(s, Deliver(s, slot), s.io[f].info); }
    hide CancelToCome;
  }

  lemma CancelLimits(s: State, w: Thread, f: Fiber)
    requires Inv(s) && HasTodo(s, w) && s.workers[w].pc.todo.value.Timeout? && LimitLost(DoCancel(s, w), f)
    ensures LimitLost(s, f)
  {
    hide Inv, LimitLost, CallOver, Deliver;
    var slot := Slot(s.workers[w].pc.todo.value.fd, s.workers[w].pc.todo.value.event);
    var s1 := CancelSlot(s, slot);
    DeliverKeepsWorkers(s, slot);
    OverIo(s1, w, f);
    CancelElsewhere(s, w, f);
    OverLimits(s1, w, f);
    DeliverLimits(s, slot, f);
  }

  /** Whoever still waits after the cancel waited on another timer_info. */
  lemma CancelElsewhere(s: State, w: Thread, f: Fiber)
    requires Inv(s) && HasTodo(s, w) && s.workers[w].pc.todo.value.Timeout?
    requires var t := s.workers[w].pc.todo.value; WaitsInIo(CancelSlot(s, Slot(t.fd, t.event)), f)
    ensures f in s.io && s.io[f].info != s.workers[w].pc.todo.value.info
    ensures var t := s.workers[w].pc.todo.value; CancelSlot(s, Slot(t.fd, t.event)).io == s.io
  {
    var t := s.workers[w].pc.todo.value;
    if Slot(t.fd, t.event) in s.waiters {}
    JobSlot(s, w, f);
    hide Inv;
  }

  /** A time limit gets lost in one way only: a timeout callback of the same do_io has marked its timer_info
      and cancelled while the fiber was between waits, and the fiber registers without looking. */
  lemma LostOnlyByParkingMarked(s: State, step: Step, s': State, f: Fiber)
    requires Reachable(s) && Next(s, step, s') && !LimitLost(s, f)
    ensures LimitLost(s', f) <==> ParksMarked(s, step, f)
  {
    hide Inv, Reachable, LimitLost, Next, CancelToCome;
    ReachableInv(s);
    if step.ParkIo? {
      LostByPark(s, step, s', f);
    } else if CallStep(step) {
      if LimitLost(s', f) { LostByCall(s, step, s', f); }
    } else if IoStep(step) {
      if LimitLost(s', f) { LostByTimeout(s, step, s', f); }
    } else {
      LostByNoOther(s, step, s', f);
    }
  }

  lemma LostByNoOther(s: State, step: Step, s': State, f: Fiber)
    requires Inv(s) && Next(s, step, s') && !LimitLost(s, f) && !IoStep(step)
    ensures !LimitLost(s', f)
  {
    hide Inv, LimitLost, Next, Effect, Calm;
    StepEffect(s, step, s', f);
    if LimitLost(s', f) { CalmKeepsLimits(s, s', f); }
  }

  lemma LostByPark(s: State, step: Step, s': State, f: Fiber)
    requires Inv(s) && Next(s, step, s') && !LimitLost(s, f) && step.ParkIo?
    ensures LimitLost(s', f) <==> ParksMarked(s, step, f)
  {
    hide Inv, LimitLost, CancelToCome, DoParkIo;
    ParkLimits(s, step.w, f);
  }

  lemma LostByCall(s: State, step: Step, s': State, f: Fiber)
    requires Inv(s) && Next(s, step, s') && LimitLost(s', f) && CallStep(step)
    ensures LimitLost(s, f)
  {
    hide Inv, LimitLost, Next, WentOn, Waits;
    CallStepFields(s, step, s');
    NotRegistered(s, step.w);
    WentOnLimits(s, s', s.workers[step.w].pc.fiber, f);
  }

  lemma LostByTimeout(s: State, step: Step, s': State, f: Fiber)
    requires Inv(s) && Next(s, step, s') && LimitLost(s', f) && (step.Mark? || step.Cancel?)
    ensures LimitLost(s, f)
  {
    hide Inv, LimitLost, Live, DoMark, DoCancel;
    if step.Mark? { MarkLimits(s, step.w, f); } else { CancelLimits(s, step.w, f); }
  }

  /** So over a run a waiting fiber's time limit works, its own callback or an earlier try's cancel still being
      to come, unless some try registered marked. */
  lemma {:induction false} LimitsKeptOverRuns(states: seq<State>, steps: seq<Step>, n: nat, f: Fiber)
    requires SoundRun(states, steps) && n <= |steps|
    requires forall j :: 0 <= j < n ==> !ParksMarked(states[j], steps[j], f)
    ensures !LimitLost(states[n], f)
    ensures WaitsInIo(states[n], f) && states[n].io[f].timer.Some? ==>
      HasToken(states[n], OfCall(states[n].io[f].timer.value)) || CancelToCome(states[n], states[n].io[f].info)
  {
    hide Inv, Reachable, Next, ParksMarked, TakesLeft, CancelToCome;
    RunPrefix(states, steps, n);
    if n == 0 {
      assert Init(states[0]);
    } else {
      LimitsKeptOverRuns(states, steps, n - 1, f);
      RunPrefix(states, steps, n - 1);
      LostOnlyByParkingMarked(states[n - 1], steps[n - 1], states[n], f);
    }
    if WaitsInIo(states[n], f) && states[n].io[f].timer.Some? && states[n].io[f].info !in states[n].timedOut {
      TimeLimitKept(states[n], f);
    }
  }
}
