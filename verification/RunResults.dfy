/** What the fields' step-by-step account gives over runs: where a fiber that moves itself goes on, how do_io comes
    back, what a worker leaves behind, what ends a callback, and in what order semaphores serve. */
module RunResults {
  import opened Common
  import opened RunQueues
  import opened Protocol
  import opened Invariants
  import opened InvariantProof
  import opened Effects
  import opened Safety
  import opened Progress
  import opened Shutdown
  import opened Steps
  import Semaphores

  // ---- where a fiber that moves itself goes on --------------------------------------------------------------

  /** Fiber f waits on the list for worker t, or t has taken it. */
  ghost predicate Bound(s: State, f: Fiber, t: Thread)
  {
    || Entry(Resume(f), t) in s.queue
    || (t in s.workers && s.workers[t].pc == Holding(Entry(Resume(f), t)))
  }

  lemma BoundByMove(s: State, w: Thread, t: Thread, s': State)
    requires Next(s, SwitchTo(w, t), s')
    ensures Bound(s', OnWorker(s, w), t)
  {
    hide Next, DoSwitchTo;
    StepObeys(s, SwitchTo(w, t), s');
    hide OnWorker;
    assert s'.queue[|s.queue|] == Entry(Resume(OnWorker(s, w)), t);
  }

  lemma BoundPick(s: State, w: Thread, s': State, f: Fiber, t: Thread)
    requires Next(s, Pick(w), s') && t != -1 && Entry(Resume(f), t) in s.queue
    ensures Bound(s', f, t)
  {
    hide Next;
    PicksFirst(s, w, s');
    var e := s'.workers[w].pc.entry;
    var i :| First(s.queue, i, e, s'.queue, w, s.fibers);
    var j :| 0 <= j < |s.queue| && s.queue[j] == Entry(Resume(f), t);
    if j < i {
      assert s'.queue[j] == s.queue[j];
    } else if i < j {
      assert s'.queue[j - 1] == s.queue[j];
    }
  }

  lemma BoundStays(s: State, step: Step, s': State, f: Fiber, t: Thread)
    requires Next(s, step, s') && t != -1 && Bound(s, f, t) && !Takes(s, step, f)
    ensures Bound(s', f, t)
  {
    StepObeys(s, step, s');
    if Entry(Resume(f), t) in s.queue {
      if step.Pick? {
        BoundPick(s, step.w, s', f, t);
      } else {
        hide *;
        assert s'.queue == s.queue + Appended(s, step) by { QueuePart(s, step, s'); }
      }
    } else {
      HandPart2(s, step, s');
      PutsOther(s, step, s', f, t);
      hide Next, Obeys;
    }
  }

  lemma QueuePart(s: State, step: Step, s': State)
    requires Obeys(s, step, s') && !step.Pick?
    ensures s'.queue == s.queue + Appended(s, step)
  {
    hide Appended, StatesAfter, SemsAfter, TimersAfter, CallsAfter, EndedNow, WorkersAfter, WaitersAfter;
    hide LeavingAfter, MarksAfter;
  }

  lemma HandPart2(s: State, step: Step, s': State)
    requires Obeys(s, step, s')
    ensures HandsStay(s, step, s')
  {
    hide Appended, StatesAfter, SemsAfter, TimersAfter, CallsAfter, EndedNow, WorkersAfter, WaitersAfter;
    hide LeavingAfter, MarksAfter;
  }

  lemma PutsOther(s: State, step: Step, s': State, f: Fiber, t: Thread)
    requires Next(s, step, s') && !Takes(s, step, f)
    requires t in s.workers && s.workers[t].pc == Holding(Entry(Resume(f), t))
    ensures !(PutsDown(step) && step.w == t)
  {
    hide DoSwapIn, DoDropDead, DoStartCall;
  }

  lemma {:induction false} BoundUntilTaken(states: seq<State>, steps: seq<Step>, i: nat, j: nat, f: Fiber, t: Thread)
    requires SoundRun(states, steps) && i <= j <= |steps| && t != -1 && Bound(states[i], f, t)
    requires forall k :: i <= k < j ==> !Takes(states[k], steps[k], f)
    ensures Bound(states[j], f, t)
  {
    hide Bound, Next, Takes, TakesLeft;
    if i < j {
      BoundUntilTaken(states, steps, i, j - 1, f, t);
      BoundStays(states[j - 1], steps[j - 1], states[j], f, t);
    }
  }

  lemma TakenIsNotQueued(s: State, f: Fiber, t: Thread, v: Thread)
    requires Inv(s) && Took(s, v, f)
    ensures Entry(Resume(f), t) !in s.queue
  {
    hide Inv;
    assert Holds(s, Taken(v), OfFiber(f));
    forall i | 0 <= i < |s.queue|
      ensures s.queue[i] != Entry(Resume(f), t)
    {
      if Holds(s, Queued(i), OfFiber(f)) { SamePlace(s, Taken(v), Queued(i), OfFiber(f)); }
    }
  }

  lemma BoundIsHeld(s: State, f: Fiber, t: Thread, v: Thread)
    requires Reachable(s) && Bound(s, f, t) && Took(s, v, f)
    ensures v == t
  {
    hide Inv, Reachable;
    ReachableInv(s);
    TakenIsNotQueued(s, f, t, v);
    assert Holds(s, Taken(v), OfFiber(f)) && Holds(s, Taken(t), OfFiber(f));
    SamePlace(s, Taken(v), Taken(t), OfFiber(f));
  }

  /** A fiber that calls switchTo(t) next goes on, if it does, on worker t. */
  lemma SwitchToArrives(states: seq<State>, steps: seq<Step>, i: nat, j: nat)
    requires SoundRun(states, steps) && i < j < |steps| && steps[i].SwitchTo? && steps[j].SwapIn?
    requires var f := OnWorker(states[i], steps[i].w);
      Took(states[j], steps[j].w, f) && forall k :: i < k < j ==> !Takes(states[k], steps[k], f)
    ensures steps[j].w == steps[i].thread
  {
    hide Bound, Next, Takes, Took, TakesLeft, OnWorker, Reachable;
    var f, t := OnWorker(states[i], steps[i].w), steps[i].thread;
    NoTag(states[i], steps[i], states[i + 1]);
    BoundByMove(states[i], steps[i].w, t, states[i + 1]);
    BoundUntilTaken(states, steps, i + 1, j, f, t);
    RunPrefix(states, steps, j);
    BoundIsHeld(states[j], f, t, steps[j].w);
  }

  lemma NoTag(s: State, step: Step, s': State)
    requires Next(s, step, s') && step.SwitchTo?
    ensures step.thread != -1
  {
    hide DoSwitchTo;
  }

  // ---- how do_io comes back ----------------------------------------------------------------------------------

  /** A timer armed for a do_io holds its timeout callback. */
  lemma OwnIsTimeout(s: State, f: Fiber)
    requires Inv(s) && f in s.io && s.io[f].timer.Some? && s.io[f].timer.value in s.timers
    ensures s.timers[s.io[f].timer.value].Timeout?
  {
    hide QueueInv, SlotInv, TimerInv, SemInv, WorkerInv, HostInv, FiberInv, HandInv, CancelInv, Bags, CallInv,
      CountInv, IoInv;
    IoAt(s.io, s.fibers, s.place, s.timedOut, s.calls, s.ended, f);
    TimerAt(s.timers, s.place, s.calls, s.io[f].timer.value);
  }

  /** Back from its wait, a fiber leaves do_io exactly if its timer_info is marked, and else is about to try
      again without a timer; either way the timer of the wait is not armed any more. Nobody else's is touched. */
  lemma ResumeReturns(s: State, w: Thread, s': State)
    requires Reachable(s) && Next(s, ResumeIo(w), s')
    ensures w in s.workers && s.workers[w].pc.Running? && s.workers[w].pc.fiber in s.io
    ensures var f := s.workers[w].pc.fiber; var c := s.io[f];
      && (f !in s'.io <==> c.info in s.timedOut)
      && (f in s'.io ==>
            !s'.io[f].waiting && s'.io[f].timer == None && s'.io[f].info == c.info && s'.io[f].slot == c.slot)
      && (c.timer.Some? ==> c.timer.value !in s'.timers && (c.timer.value in s.timers ==> c.timer.value in s'.ended))
      && (forall t :: t in s.timers && c.timer != Some(t) ==> t in s'.timers && s'.timers[t] == s.timers[t])
      && (forall g :: g != f ==> (g in s'.io <==> g in s.io) && (g in s.io ==> s'.io[g] == s.io[g]))
  {
    hide Inv, Reachable, Next, Obeys, DoResumeIo, InIo;
    ReachableInv(s);
    InItsWait(s, w, s');
    StepObeys(s, ResumeIo(w), s');
    ResumePart(s, w, s');
    ResumedCalls(s, w, s');
    ResumedTimers(s, w, s');
  }

  lemma ResumedCalls(s: State, w: Thread, s': State)
    requires w in s.workers && s.workers[w].pc.Running? && s.workers[w].pc.fiber in s.io
    requires s'.io == CallsAfter(s, ResumeIo(w))
    ensures var f := s.workers[w].pc.fiber; var c := s.io[f];
      && (f !in s'.io <==> c.info in s.timedOut)
      && (f in s'.io ==>
            !s'.io[f].waiting && s'.io[f].timer == None && s'.io[f].info == c.info && s'.io[f].slot == c.slot)
      && (forall g :: g != f ==> (g in s'.io <==> g in s.io) && (g in s.io ==> s'.io[g] == s.io[g]))
  {
  }

  lemma OwnIsArmed(s: State, w: Thread)
    requires Inv(s) && w in s.workers && s.workers[w].pc.Running? && s.workers[w].pc.fiber in s.io
    ensures var c := s.io[s.workers[w].pc.fiber];
      if c.timer.Some? && c.timer.value in s.timers
      then
        && OwnArmed(s, w) == {c.timer.value} && s.timers[c.timer.value].Timeout?
        && s.timers[c.timer.value].id == c.timer.value
      else OwnArmed(s, w) == {}
  {
    var f := s.workers[w].pc.fiber;
    if s.io[f].timer.Some? && s.io[f].timer.value in s.timers {
      OwnIsTimeout(s, f);
      OwnKey(s, f);
    }
    hide Inv;
  }

  lemma EndsOwn(s: State, w: Thread)
    requires forall t :: t in OwnArmed(s, w) ==> t in s.timers && s.timers[t].Timeout? && s.timers[t].id == t
    ensures EndedNow(s, ResumeIo(w)) == OwnArmed(s, w)
  {
    hide OwnArmed;
    forall t
      ensures t in EndedNow(s, ResumeIo(w)) <==> t in OwnArmed(s, w)
    {
      if t in OwnArmed(s, w) { assert s.timers[t].id == t; }
    }
  }

  lemma ResumedTimers(s: State, w: Thread, s': State)
    requires Inv(s) && w in s.workers && s.workers[w].pc.Running? && s.workers[w].pc.fiber in s.io
    requires s'.timers == s.timers - OwnArmed(s, w) && s'.ended == s.ended + EndedNow(s, ResumeIo(w))
    ensures var c := s.io[s.workers[w].pc.fiber];
      && (c.timer.Some? ==> c.timer.value !in s'.timers && (c.timer.value in s.timers ==> c.timer.value in s'.ended))
      && (forall t :: t in s.timers && c.timer != Some(t) ==> t in s'.timers && s'.timers[t] == s.timers[t])
  {
    hide Inv, OwnArmed, EndedNow;
    OwnIsArmed(s, w);
    EndsOwn(s, w);
  }

  lemma OwnKey(s: State, f: Fiber)
    requires Inv(s) && f in s.io && s.io[f].timer.Some? && s.io[f].timer.value in s.timers
    ensures var t := s.io[f].timer.value; KeyOf(s.timers[t]).OfCall? ==> KeyOf(s.timers[t]) == OfCall(t)
  {
    hide QueueInv, SlotInv, TimerInv, SemInv, WorkerInv, HostInv, FiberInv, HandInv, CancelInv, Bags, CallInv,
      CountInv, IoInv;
  }

  lemma InItsWait(s: State, w: Thread, s': State)
    requires Next(s, ResumeIo(w), s')
    ensures w in s.workers && s.workers[w].pc.Running? && s.workers[w].pc.fiber in s.io
  {
    hide DoResumeIo;
  }

  lemma ResumePart(s: State, w: Thread, s': State)
    requires Obeys(s, ResumeIo(w), s')
    ensures s'.timers == s.timers - OwnArmed(s, w) && s'.io == CallsAfter(s, ResumeIo(w))
    ensures s'.ended == s.ended + EndedNow(s, ResumeIo(w))
  {
    hide OwnArmed, HandsStay;
  }

  /** Every armed timeout is for a do_io that is still under way and counts on it. */
  ghost predicate Owned(s: State)
  {
    forall t :: t in s.timers && s.timers[t].Timeout? ==> exists f :: f in s.io && s.io[f].timer == Some(t)
  }

  /** Who begins a do_io is in none, and who arms a timer or ends it has none armed. */
  lemma Unarmed(s: State, step: Step, s': State)
    requires Next(s, step, s')
    ensures step.BeginIo? ==> OnWorker(s, step.w) !in s.io
    ensures step.ArmIo? || step.EndIo? ==> OnWorker(s, step.w) in s.io && s.io[OnWorker(s, step.w)].timer == None
  {
    hide DoBeginIo, DoArmIo;
  }

  lemma FieldsOf(s: State, step: Step, s': State)
    requires Obeys(s, step, s')
    ensures s'.timers == TimersAfter(s, step) && s'.io == CallsAfter(s, step)
  {
    hide Appended, StatesAfter, SemsAfter, TimersAfter, CallsAfter, EndedNow, HandsStay, WorkersAfter, WaitersAfter;
    hide LeavingAfter, MarksAfter;
  }

  lemma OwnedStays(s: State, step: Step, s': State)
    requires Next(s, step, s') && Owned(s)
    ensures Owned(s')
  {
    hide Next, Obeys;
    StepObeys(s, step, s');
    FieldsOf(s, step, s');
    Unarmed(s, step, s');
    forall t | t in s'.timers && s'.timers[t].Timeout?
      ensures exists f :: f in s'.io && s'.io[f].timer == Some(t)
    {
      if step.ArmIo? && t == s.nextId {
        assert s'.io[OnWorker(s, step.w)].timer == Some(t);
      } else {
        StillArmedTimer(s, step, t);
        var f :| f in s.io && s.io[f].timer == Some(t);
        StillOwned(s, step, t, f);
      }
    }
  }

  lemma StillArmedTimer(s: State, step: Step, t: int)
    requires t in TimersAfter(s, step) && TimersAfter(s, step)[t].Timeout? && !(step.ArmIo? && t == s.nextId)
    ensures t in s.timers && s.timers[t].Timeout?
  {
  }

  lemma StillOwned(s: State, step: Step, t: int, f: Fiber)
    requires t in s.timers && s.timers[t].Timeout? && f in s.io && s.io[f].timer == Some(t)
    requires t in TimersAfter(s, step)
    requires step.BeginIo? ==> OnWorker(s, step.w) !in s.io
    requires step.ArmIo? || step.EndIo? ==> OnWorker(s, step.w) in s.io && s.io[OnWorker(s, step.w)].timer == None
    ensures f in CallsAfter(s, step) && CallsAfter(s, step)[f].timer == Some(t)
  {
    hide OnWorker;
  }

  lemma {:induction false} OwnedInRun(states: seq<State>, steps: seq<Step>, n: nat)
    requires Run(states, steps) && n <= |steps|
    ensures Owned(states[n])
  {
    hide Owned, Next;
    if n == 0 {
      NoneArmed(states[0]);
    } else {
      OwnedInRun(states, steps, n - 1);
      OwnedStays(states[n - 1], steps[n - 1], states[n]);
    }
  }

  lemma NoneArmed(s: State)
    requires Init(s)
    ensures Owned(s)
  {
  }

  /** No timeout outlives the wait it was armed for: whatever is armed belongs to a do_io under way. */
  lemma TimeoutsBelong(s: State, t: int)
    requires Reachable(s) && t in s.timers && s.timers[t].Timeout?
    ensures exists f :: f in s.io && s.io[f].timer == Some(t)
  {
    hide Next, TakesLeft;
    var states, steps :| SoundRun(states, steps) && states[|steps|] == s;
    OwnedInRun(states, steps, |steps|);
  }

  // ---- coming back, and for whom ------------------------------------------------------------------------------

  /** A fiber whose function returned is TERM, one whose function threw is EXCEPT; a callback fiber is INIT again
      and kept for the worker's next callback. The worker goes back to its loop. */
  lemma FinishLeaves(s: State, w: Thread, ok: bool, s': State)
    requires Next(s, Finish(w, ok), s')
    ensures w in s.workers && s.workers[w].pc.Running? && w in s'.workers && s'.workers[w].pc == Scanning
    ensures var f, onCall := s.workers[w].pc.fiber, s.workers[w].pc.onCall;
      && f in s'.fibers
      && (onCall ==> s'.fibers[f] == INIT && s'.workers[w].kept == Some(f))
      && (!onCall && ok ==> s'.fibers[f] == TERM) && (!onCall && !ok ==> s'.fibers[f] == EXCEPT)
  {
    hide DoFinish;
    assert Acts(s, w);
    hide Next;
    StepObeys(s, Finish(w, ok), s');
    StatesPart(s, Finish(w, ok), s');
    WorkersPart(s, Finish(w, ok), s');
    hide Obeys;
  }

  /** So does a worker that has settled a fiber which yielded: a READY one is the last of the list, for any
      worker, and any other stays off it. */
  lemma SettleLeaves(s: State, w: Thread, s': State)
    requires Reachable(s) && Next(s, Settle(w), s')
    ensures w in s.workers && s.workers[w].pc.Back? && w in s'.workers && s'.workers[w].pc == Scanning
    ensures var f := s.workers[w].pc.fiber;
      && s'.fibers == s.fibers && f in s.fibers
      && s'.queue == if s.fibers[f] == READY then s.queue + [Entry(Resume(f), -1)] else s.queue
  {
    hide Inv, Reachable, DoSettle;
    ReachableInv(s);
    LeftIsSettled(s, w);
    hide Next;
    StepObeys(s, Settle(w), s');
    QueuePart(s, Settle(w), s');
    StatesPart(s, Settle(w), s');
    WorkersPart(s, Settle(w), s');
    hide Obeys;
  }

  lemma LeftIsSettled(s: State, w: Thread)
    requires Inv(s)
    ensures IsBack(s, w) ==>
      && s.workers[w].pc.fiber in s.fibers
      && (s.fibers[s.workers[w].pc.fiber] == READY || s.fibers[s.workers[w].pc.fiber] == HOLD)
  {
    hide QueueInv, SlotInv, TimerInv, SemInv, WorkerInv, HostInv, FiberInv, HandInv, CancelInv, Bags, CallInv, CountInv,
      IdInv, IoInv;
    if IsBack(s, w) { HandAt(s.workers, s.fibers, w); }
  }

  lemma WorkersPart(s: State, step: Step, s': State)
    requires Obeys(s, step, s') && !step.Pick?
    ensures s'.workers == WorkersAfter(s, step)
  {
    hide Appended, StatesAfter, SemsAfter, TimersAfter, CallsAfter, EndedNow, HandsStay, WorkersAfter, WaitersAfter;
    hide LeavingAfter, MarksAfter;
  }

  /** The thread an entry is for is the one it was scheduled for, which only schedule and switchTo choose. */
  lemma NewEntries(s: State, step: Step, s': State, i: nat)
    requires Next(s, step, s') && |s.queue| <= i < |s'.queue|
    ensures s'.queue[..|s.queue|] == s.queue
    ensures s'.queue[i].thread ==
      if step.SwitchTo? then step.thread
      else if step.Do? && (step.act.ScheduleFiber? || step.act.ScheduleCall?) then step.act.thread
      else -1
  {
    if step.Pick? { PickShortens(s, step.w, s'); }
    hide Next, Obeys;
    StepObeys(s, step, s');
    if !step.Pick? {
      QueuePart(s, step, s');
      hide OnWorker, TodoOf;
    }
  }

  lemma PickShortens(s: State, w: Thread, s': State)
    requires Next(s, Pick(w), s')
    ensures |s'.queue| < |s.queue|
  {
    PicksFirst(s, w, s');
    hide Next;
  }

  // ---- what ends a callback --------------------------------------------------------------------------------

  lemma EndedPart(s: State, step: Step, s': State)
    requires Obeys(s, step, s')
    ensures s'.ended == s.ended + EndedNow(s, step)
  {
    hide Appended, StatesAfter, SemsAfter, TimersAfter, CallsAfter, EndedNow, HandsStay, WorkersAfter, WaitersAfter;
    hide LeavingAfter, MarksAfter;
  }

  /** A callback is over exactly if some step ended it: it was started, or a timeout that returned, or its timer
      was cancelled, or delEvent threw it away. */
  lemma {:induction false} EndedBy(states: seq<State>, steps: seq<Step>, n: nat, id: int)
    requires Run(states, steps) && n <= |steps|
    ensures id in states[n].ended <==> exists j :: 0 <= j < n && id in EndedNow(states[j], steps[j])
  {
    hide Next, EndedNow, Obeys;
    if n == 0 {
      NoneEnded(states[0], id);
    } else {
      EndedBy(states, steps, n - 1, id);
      StepObeys(states[n - 1], steps[n - 1], states[n]);
      EndedPart(states[n - 1], steps[n - 1], states[n]);
    }
  }

  lemma NoneEnded(s: State, id: int)
    requires Init(s)
    ensures id !in s.ended
  {
  }

  // ---- finished fibers --------------------------------------------------------------------------------------

  lemma StatesPart(s: State, step: Step, s': State)
    requires Obeys(s, step, s')
    ensures s'.fibers == StatesAfter(s, step)
  {
    hide Appended, StatesAfter, SemsAfter, TimersAfter, CallsAfter, EndedNow, HandsStay, WorkersAfter, WaitersAfter;
    hide LeavingAfter, MarksAfter;
  }

  lemma RunsIsExec(s: State, w: Thread, f: Fiber)
    requires Inv(s) && Runs(s, w, f)
    ensures f in s.fibers && s.fibers[f] == EXEC
  {
    hide QueueInv, SlotInv, TimerInv, SemInv, WorkerInv, FiberInv, HandInv, CancelInv, Bags, CallInv, CountInv, IdInv,
      IoInv;
  }

  lemma KeptIsUnused(s: State, w: Thread, c: Fiber)
    requires Inv(s) && w in s.workers && s.workers[w].kept == Some(c)
    ensures !Finished(s, c)
  {
    hide QueueInv, SlotInv, TimerInv, SemInv, HostInv, HandInv, CancelInv, Bags, CallInv, CountInv, IdInv, IoInv;
    WorkerAt(s.workers, s.place, s.calls, w);
    if c in s.fibers { FiberAt(s.fibers, s.leaving, s.dropped, s.place, c); }
  }

  lemma StartLeaves(s: State, w: Thread, c: Fiber, s': State, f: Fiber)
    requires Inv(s) && Next(s, StartCall(w, c), s') && Finished(s, f)
    ensures c != f
  {
    hide DoStartCall, Inv;
    if s.workers[w].kept == Some(f) { KeptIsUnused(s, w, f); }
  }

  lemma RunnerLeaves(s: State, step: Step, s': State, f: Fiber)
    requires Inv(s) && Next(s, step, s') && Finished(s, f) && (step.Finish? || step.YieldReady? || step.YieldHold?)
    ensures OnWorker(s, step.w) != f
  {
    hide DoFinish, DoYieldReady, DoYieldHold, Inv;
    if Runs(s, step.w, f) { RunsIsExec(s, step.w, f); }
  }

  lemma SwitchLeaves(s: State, w: Thread, s': State, f: Fiber)
    requires Next(s, SwapIn(w), s') && Finished(s, f)
    ensures OnWorker(s, w) != f
  {
    hide DoSwapIn;
  }

  /** The step changes the state of a fiber that has not finished. */
  lemma FinishedIsLeft(s: State, step: Step, s': State, f: Fiber)
    requires Inv(s) && Next(s, step, s') && Finished(s, f)
    ensures step.SwapIn? ==> OnWorker(s, step.w) != f
    ensures step.StartCall? ==> step.callFiber != f
    ensures step.Finish? || step.YieldReady? || step.YieldHold? ==> OnWorker(s, step.w) != f
  {
    hide *;
    if step.SwapIn? {
      SwitchLeaves(s, step.w, s', f);
    } else if step.StartCall? {
      StartLeaves(s, step.w, step.callFiber, s', f);
    } else if step.Finish? || step.YieldReady? || step.YieldHold? {
      RunnerLeaves(s, step, s', f);
    }
  }

  /** A fiber that has finished stays as it is for good: nothing resumes it. */
  lemma {:induction false} FinishedForGood(states: seq<State>, steps: seq<Step>, i: nat, j: nat, f: Fiber)
    requires SoundRun(states, steps) && i <= j <= |steps| && Finished(states[i], f)
    ensures f in states[j].fibers && states[j].fibers[f] == states[i].fibers[f]
  {
    hide Next, TakesLeft, Inv, StatesAfter, Obeys;
    if i < j {
      FinishedForGood(states, steps, i, j - 1, f);
      RunInv(states, steps, j - 1);
      FinishedIsLeft(states[j - 1], steps[j - 1], states[j], f);
      StepObeys(states[j - 1], steps[j - 1], states[j]);
      StatesPart(states[j - 1], steps[j - 1], states[j]);
      FinishedKept(states[j - 1], steps[j - 1], f);
    }
  }

  lemma FinishedKept(s: State, step: Step, f: Fiber)
    requires Finished(s, f)
    requires step.SwapIn? ==> OnWorker(s, step.w) != f
    requires step.StartCall? ==> step.callFiber != f
    requires step.Finish? || step.YieldReady? || step.YieldHold? ==> OnWorker(s, step.w) != f
    ensures f in StatesAfter(s, step) && StatesAfter(s, step)[f] == s.fibers[f]
  {
    hide OnWorker;
  }

  // ---- in what order semaphores serve ----------------------------------------------------------------------

  /** The call on semaphore q that a step makes. */
  function OpOf(s: State, step: Step, q: int): seq<Semaphores.Op>
  {
    match step
    case SemWait(w, r) => if r == q then [Semaphores.Wait(Semaphores.Waiter(0, OnWorker(s, w)))] else []
    case Do(_, act) => if act == Notify(q) then [Semaphores.Notify] else []
    case _ => []
  }

  function OpsOn(states: seq<State>, steps: seq<Step>, n: nat, q: int): seq<Semaphores.Op>
    requires n <= |steps| < |states|
  {
    if n == 0 then [] else OpsOn(states, steps, n - 1, q) + OpOf(states[n - 1], steps[n - 1], q)
  }

  /** The count semaphore q was made with. */
  function Initially(steps: seq<Step>, n: nat, q: int): nat
    requires n <= |steps|
  {
    if n == 0 then 0
    else if steps[n - 1].Do? && steps[n - 1].act.MakeSem? && steps[n - 1].act.sem == q then steps[n - 1].act.count
    else Initially(steps, n - 1, q)
  }

  ghost predicate Like(sem: Sem, h: Semaphores.Sem)
  {
    && sem.count == h.count && |sem.waiting| == |h.waiting|
    && forall i :: 0 <= i < |h.waiting| ==> h.waiting[i] == Semaphores.Waiter(0, sem.waiting[i])
  }

  /** Semaphore q of s is what a history of calls on it makes; before it is made there are none. */
  ghost predicate Follows(s: State, q: int, initial: nat, ops: seq<Semaphores.Op>)
  {
    if q in s.sems then Like(s.sems[q], Semaphores.Run(initial, ops)) else ops == []
  }

  lemma RunSnoc(initial: nat, ops: seq<Semaphores.Op>, op: Semaphores.Op)
    ensures Semaphores.Run(initial, ops + [op]) == Semaphores.Step(Semaphores.Run(initial, ops), op)
  {
    assert (ops + [op])[..|ops|] == ops;
  }

  lemma SemPart(s: State, step: Step, s': State)
    requires Obeys(s, step, s')
    ensures s'.sems == SemsAfter(s, step)
  {
    hide Appended, StatesAfter, SemsAfter, TimersAfter, CallsAfter, EndedNow, HandsStay, WorkersAfter, WaitersAfter;
    hide LeavingAfter, MarksAfter;
  }

  /** Only a semaphore that exists is waited on or notified, and only one that does not is made. */
  lemma SemGuards(s: State, step: Step, s': State)
    requires Next(s, step, s')
    ensures step.SemWait? ==> step.sem in s.sems
    ensures step.Do? && step.act.Notify? ==> step.act.sem in s.sems
    ensures step.Do? && step.act.MakeSem? ==> step.act.sem !in s.sems
  {
    hide ApplyAct, DoSemWait;
  }

  lemma WaitFollows(sem: Sem, h: Semaphores.Sem, f: Fiber)
    requires Like(sem, h)
    ensures var w := Semaphores.Wait(Semaphores.Waiter(0, f));
      Like(if sem.count > 0 then Sem(sem.count - 1, sem.waiting) else Sem(sem.count, sem.waiting + [f]),
           Semaphores.Step(h, w))
  {
  }

  lemma NotifyFollows(sem: Sem, h: Semaphores.Sem)
    requires Like(sem, h)
    ensures
      Like(if sem.waiting != [] then Sem(sem.count, sem.waiting[1..]) else Sem(sem.count + 1, []),
           Semaphores.Step(h, Semaphores.Notify))
  {
  }

  lemma FollowsWait(s: State, w: Thread, s': State, q: int, initial: nat, ops: seq<Semaphores.Op>)
    requires s'.sems == SemsAfter(s, SemWait(w, q)) && q in s.sems && Follows(s, q, initial, ops)
    ensures Follows(s', q, initial, ops + OpOf(s, SemWait(w, q), q))
  {
    hide Semaphores.Run, Semaphores.Step, Like, OnWorker;
    RunSnoc(initial, ops, Semaphores.Wait(Semaphores.Waiter(0, OnWorker(s, w))));
    WaitFollows(s.sems[q], Semaphores.Run(initial, ops), OnWorker(s, w));
  }

  lemma FollowsNotify(s: State, actor: Actor, s': State, q: int, initial: nat, ops: seq<Semaphores.Op>)
    requires s'.sems == SemsAfter(s, Do(actor, Notify(q))) && q in s.sems && Follows(s, q, initial, ops)
    ensures Follows(s', q, initial, ops + [Semaphores.Notify])
  {
    hide Semaphores.Run, Semaphores.Step, Like;
    RunSnoc(initial, ops, Semaphores.Notify);
    NotifyFollows(s.sems[q], Semaphores.Run(initial, ops));
  }

  lemma FollowsMade(s: State, actor: Actor, count: nat, s': State, q: int)
    requires s'.sems == SemsAfter(s, Do(actor, MakeSem(q, count)))
    ensures Follows(s', q, count, [])
  {
    hide Semaphores.Run, Like;
    Made(q, count);
  }

  predicate Touches(step: Step, q: int)
  {
    || (step.SemWait? && step.sem == q)
    || (step.Do? && (step.act.Notify? || step.act.MakeSem?) && step.act.sem == q)
  }

  lemma FollowsOther(s: State, step: Step, s': State, q: int, initial: nat, ops: seq<Semaphores.Op>)
    requires s'.sems == SemsAfter(s, step) && Follows(s, q, initial, ops) && !Touches(step, q)
    ensures Follows(s', q, initial, ops) && OpOf(s, step, q) == []
  {
    hide Semaphores.Run, Like;
  }

  lemma FollowsStep(s: State, step: Step, s': State, q: int, initial: nat, ops: seq<Semaphores.Op>)
    requires Next(s, step, s') && Follows(s, q, initial, ops)
    ensures var made := step.Do? && step.act.MakeSem? && step.act.sem == q;
      Follows(s', q, if made then step.act.count else initial, ops + OpOf(s, step, q))
  {
    hide Next, Obeys, Follows, SemsAfter;
    StepObeys(s, step, s');
    SemPart(s, step, s');
    SemGuards(s, step, s');
    if !Touches(step, q) {
      FollowsOther(s, step, s', q, initial, ops);
      assert ops + [] == ops;
    } else if step.SemWait? {
      FollowsWait(s, step.w, s', q, initial, ops);
    } else if step.act.Notify? {
      FollowsNotify(s, step.actor, s', q, initial, ops);
    } else {
      NoneYet(s, q, initial, ops);
      FollowsMade(s, step.actor, step.act.count, s', q);
      assert ops + [] == ops;
    }
  }

  lemma NoneYet(s: State, q: int, initial: nat, ops: seq<Semaphores.Op>)
    requires q !in s.sems && Follows(s, q, initial, ops)
    ensures ops == []
  {
  }

  lemma Made(q: int, count: nat)
    ensures Like(Sem(count, []), Semaphores.Run(count, []))
  {
  }

  lemma {:induction false} FollowsInRun(states: seq<State>, steps: seq<Step>, n: nat, q: int)
    requires Run(states, steps) && n <= |steps|
    ensures Follows(states[n], q, Initially(steps, n, q), OpsOn(states, steps, n, q))
  {
    hide Next, Follows;
    if n == 0 {
      NoSems(states[0], q);
    } else {
      FollowsInRun(states, steps, n - 1, q);
      var initial, ops := Initially(steps, n - 1, q), OpsOn(states, steps, n - 1, q);
      FollowsStep(states[n - 1], steps[n - 1], states[n], q, initial, ops);
    }
  }

  lemma NoSems(s: State, q: int)
    requires Init(s)
    ensures Follows(s, q, 0, [])
  {
  }

  lemma {:induction false} NoReset(states: seq<State>, steps: seq<Step>, n: nat, q: int)
    requires n <= |steps| < |states|
    ensures Semaphores.Reset !in OpsOn(states, steps, n, q)
  {
    if n > 0 { NoReset(states, steps, n - 1, q); }
  }

  /** Over any run, whatever its interleaving, the fibers waiting on a semaphore are those who came last, in the
      order in which they called wait: permits have gone to all who came before, as many as there were. */
  lemma SemaphoresFirstCome(states: seq<State>, steps: seq<Step>, n: nat, q: int)
    requires Run(states, steps) && n <= |steps| && q in states[n].sems
    ensures var initial, ops := Initially(steps, n, q), OpsOn(states, steps, n, q);
      var permits, claims := initial + Semaphores.Notifies(ops), Semaphores.Claims(initial, ops);
      var served := if permits < |claims| then permits else |claims|;
      && states[n].sems[q].count == permits - served
      && |states[n].sems[q].waiting| == |claims| - served
      && forall i :: served <= i < |claims| ==> claims[i] == Semaphores.Waiter(0, states[n].sems[q].waiting[i - served])
  {
    hide Next;
    var initial, ops := Initially(steps, n, q), OpsOn(states, steps, n, q);
    FollowsInRun(states, steps, n, q);
    NoReset(states, steps, n, q);
    Semaphores.FirstComeFirstServed(initial, ops);
    hide Semaphores.Run, Semaphores.Claims, Semaphores.Notifies, OpsOn, Initially;
  }
}
