/** The single steps the example runs are made of. */
module Reaching {
  import opened Common
  import opened RunQueues
  import opened Protocol
  import opened Effects
  import opened Safety

  lemma Starting(s: State)
    requires Init(s)
    ensures Reachable(s)
  {
    hide Init;
    assert SoundRun([s], []);
  }

  lemma Acting(s: State, act: Act)
    requires Reachable(s) && ActEnabled(s, act)
    ensures Reachable(ApplyAct(s, act))
  {
    hide Reachable, ApplyAct, ActEnabled;
    Reach(s, Do(Outside, act), ApplyAct(s, act));
  }

  lemma Picking(s: State, w: Thread)
    requires Reachable(s) && At(s, w, Scanning) && Choice(s, w).Some?
    ensures Reachable(DoPick(s, w))
  {
    hide Reachable, DoPick, Choice;
    Reach(s, Pick(w), DoPick(s, w));
  }

  lemma SwappingIn(s: State, w: Thread)
    requires Reachable(s) && HoldsFiber(s, w) && !Finished(s, s.workers[w].pc.entry.job.fiber)
    requires forall v :: v in s.workers ==> !s.workers[v].pc.HalfOut? && !s.workers[v].pc.Back?
    ensures Reachable(DoSwapIn(s, w))
  {
    hide Reachable, DoSwapIn;
    Reach(s, SwapIn(w), DoSwapIn(s, w));
  }

  lemma StartingCall(s: State, w: Thread, c: Fiber)
    requires Reachable(s) && HoldsCall(s, w) && s.workers[w].kept == None && c !in s.fibers
    ensures Reachable(DoStartCall(s, w, c))
  {
    hide Reachable, DoStartCall;
    Reach(s, StartCall(w, c), DoStartCall(s, w, c));
  }

  lemma Beginning(s: State, w: Thread, slot: Slot)
    requires Reachable(s) && Acts(s, w)
    ensures Reachable(DoBeginIo(s, w, slot))
  {
    hide Reachable, DoBeginIo;
    Reach(s, BeginIo(w, slot), DoBeginIo(s, w, slot));
  }

  lemma Arming(s: State, w: Thread)
    requires Reachable(s) && InIo(s, w, false) && s.io[s.workers[w].pc.fiber].timer == None
    ensures Reachable(DoArmIo(s, w))
  {
    hide Reachable, DoArmIo;
    Reach(s, ArmIo(w), DoArmIo(s, w));
  }

  lemma Parking(s: State, w: Thread)
    requires Reachable(s) && InIo(s, w, false) && s.io[s.workers[w].pc.fiber].slot !in s.waiters
    ensures Reachable(DoParkIo(s, w))
  {
    hide Reachable, DoParkIo;
    Reach(s, ParkIo(w), DoParkIo(s, w));
  }

  lemma Yielding(s: State, w: Thread)
    requires Reachable(s) && WillYield(s, w)
    ensures Reachable(DoYieldHold(s, w))
  {
    hide Reachable, DoYieldHold;
    Reach(s, YieldHold(w), DoYieldHold(s, w));
  }

  lemma SwitchingOut(s: State, w: Thread)
    requires Reachable(s) && w in s.workers && s.workers[w].pc.HalfOut?
    ensures Reachable(DoSwitchOut(s, w))
  {
    hide Reachable, DoSwitchOut;
    Reach(s, SwitchOut(w), DoSwitchOut(s, w));
  }

  lemma Settling(s: State, w: Thread)
    requires Reachable(s) && IsBack(s, w) && s.workers[w].pc.fiber in s.fibers
    ensures Reachable(DoSettle(s, w))
  {
    hide Reachable, DoSettle;
    Reach(s, Settle(w), DoSettle(s, w));
  }

  lemma Resuming(s: State, w: Thread)
    requires Reachable(s) && InIo(s, w, true)
    ensures Reachable(DoResumeIo(s, w))
  {
    hide Reachable, DoResumeIo;
    Reach(s, ResumeIo(w), DoResumeIo(s, w));
  }

  lemma Marking(s: State, w: Thread)
    requires Reachable(s) && HasTodo(s, w) && s.workers[w].pc.todo.value.Timeout? && w !in s.cancelling
    ensures Reachable(DoMark(s, w))
  {
    hide Reachable, DoMark;
    Reach(s, Mark(w), DoMark(s, w));
  }

  lemma Cancelling(s: State, w: Thread)
    requires Reachable(s) && HasTodo(s, w) && s.workers[w].pc.todo.value.Timeout? && w in s.cancelling
    ensures Reachable(DoCancel(s, w))
  {
    hide Reachable, DoCancel;
    Reach(s, Cancel(w), DoCancel(s, w));
  }

  lemma EnteringIdle(s: State, w: Thread)
    requires Reachable(s) && At(s, w, Scanning) && s.queue == [] && !s.workers[w].idleDone
    ensures Reachable(SetWorker(s.(idle := s.idle + 1), w, s.workers[w].(pc := Idling([]))))
  {
    hide Reachable, SetWorker;
    Reach(s, EnterIdle(w), SetWorker(s.(idle := s.idle + 1), w, s.workers[w].(pc := Idling([]))));
  }

  lemma LeavingIdle(s: State, w: Thread)
    requires Reachable(s) && At(s, w, Idling([]))
    ensures Reachable(SetWorker(s.(idle := s.idle - 1), w, s.workers[w].(pc := Scanning)))
  {
    hide Reachable, SetWorker;
    Reach(s, IdleYield(w), SetWorker(s.(idle := s.idle - 1), w, s.workers[w].(pc := Scanning)));
  }

  lemma EndingIdle(s: State, w: Thread)
    requires Reachable(s) && At(s, w, Idling([])) && Stopping(s)
    ensures Reachable(SetWorker(s.(idle := s.idle - 1), w, s.workers[w].(pc := Scanning, idleDone := true)))
  {
    hide Reachable, SetWorker, Stopping;
    Reach(s, IdleExit(w), SetWorker(s.(idle := s.idle - 1), w, s.workers[w].(pc := Scanning, idleDone := true)));
  }

  lemma Exiting(s: State, w: Thread)
    requires Reachable(s) && At(s, w, Scanning) && s.queue == [] && s.workers[w].idleDone
    ensures Reachable(SetWorker(s, w, s.workers[w].(pc := Exited)))
  {
    hide Reachable, SetWorker;
    Reach(s, ExitWorker(w), SetWorker(s, w, s.workers[w].(pc := Exited)));
  }

  lemma Dispatching(s: State, w: Thread, slot: Slot)
    requires Reachable(s) && At(s, w, Idling([])) && slot in s.waiters
    ensures Reachable(Deliver(s, slot))
  {
    hide Reachable, Deliver;
    Reach(s, Dispatch(w, slot), Deliver(s, slot));
  }

  lemma Collecting(s: State, w: Thread, timer: int)
    requires Reachable(s) && At(s, w, Idling([])) && timer in s.timers
    ensures Reachable(DoCollect(s, w, timer))
  {
    hide Reachable, DoCollect;
    Reach(s, Collect(w, timer), DoCollect(s, w, timer));
  }

  /** A single collected callback. */
  lemma Unloading(s: State, w: Thread)
    requires Reachable(s) && HasBatch(s, w) && |s.workers[w].pc.batch| == 1
    ensures Reachable(ScheduleFirst(s, w))
  {
    hide Reachable, ScheduleFirst, DoScheduleCollected;
    OneCollected(s, w);
    Reach(s, ScheduleCollected(w), DoScheduleCollected(s, w));
  }
}
