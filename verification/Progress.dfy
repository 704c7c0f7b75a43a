/** What a worker can do next: which task it takes, when it idles, that it is never stuck, and when it finds the
    scheduler stopping. */
module Progress {
  import opened Common
  import opened RunQueues
  import opened Protocol
  import opened Invariants
  import opened InvariantProof
  import opened Effects
  import opened Safety
  import opened Shutdown
  import opened Steps

  // ---- which task a worker takes -----------------------------------------------------------------------------

  /** A worker at the top of its loop goes into its idle fiber, or ends, only if every entry of the list is
      tagged for another worker or is a fiber that executes; and only if there is another one it picks. */
  lemma IdleIffNothingToTake(s: State, w: Thread)
    requires At(s, w, Scanning)
    ensures var nothing := forall e :: e in s.queue ==>
        || (e.thread != -1 && e.thread != w)
        || (e.job.Resume? && e.job.fiber in s.fibers && s.fibers[e.job.fiber] == EXEC);
      && ((exists s' :: Next(s, Pick(w), s')) <==> !nothing)
      && ((exists s' :: Next(s, EnterIdle(w), s') || Next(s, ExitWorker(w), s')) <==> nothing)
  {
    hide DoPick, SetWorker;
    PickFromFirst(s.queue, w, s.fibers);
    hide PickFrom;
    if Choice(s, w).Some? {
      assert Next(s, Pick(w), DoPick(s, w));
    } else if s.workers[w].idleDone {
      assert Next(s, ExitWorker(w), SetWorker(s, w, s.workers[w].(pc := Exited)));
    } else {
      assert Next(s, EnterIdle(w), SetWorker(s.(idle := s.idle + 1), w, s.workers[w].(pc := Idling([]))));
    }
  }

  /** It takes the first entry that is neither, and keeps the others in their order. */
  lemma PicksFirst(s: State, w: Thread, s': State)
    requires Next(s, Pick(w), s')
    ensures w in s'.workers && s'.workers[w].pc.Holding?
    ensures var e := s'.workers[w].pc.entry;
      && (e.thread == -1 || e.thread == w)
      && (e.job.Resume? && e.job.fiber in s.fibers ==> s.fibers[e.job.fiber] != EXEC)
      && exists i :: First(s.queue, i, e, s'.queue, w, s.fibers)
  {
    PickFromFirst(s.queue, w, s.fibers);
    var i := Choice(s, w).value;
    hide PickFrom;
    assert First(s.queue, i, s'.workers[w].pc.entry, s'.queue, w, s.fibers);
  }

  // ---- nobody is stuck -----------------------------------------------------------------------------------------

  /** The worker's fiber has armed a timer and is about to register where somebody else is registered: the
      assertion in addEvent fails there. */
  predicate Jammed(s: State, w: Thread)
  {
    && InIo(s, w, false)
    && s.io[s.workers[w].pc.fiber].timer.Some? && s.io[s.workers[w].pc.fiber].slot in s.waiters
  }

  ghost predicate GoesOn(s: State, w: Thread)
  {
    exists step: Step, s' :: !step.Do? && step.w == w && Next(s, step, s')
  }

  lemma TaskGoesOn(s: State, w: Thread)
    requires w in s.workers && s.workers[w].pc.Holding?
    ensures GoesOn(s, w)
  {
    hide DoSwapIn, DoDropDead, DoStartCall;
    if HoldsFiber(s, w) {
      if Finished(s, s.workers[w].pc.entry.job.fiber) {
        assert Next(s, DropDead(w), DoDropDead(s, w));
      } else {
        assert Next(s, SwapIn(w), DoSwapIn(s, w));
      }
    } else {
      var c := Above(s.fibers.Keys);
      c := if s.workers[w].kept.Some? then s.workers[w].kept.value else c;
      assert Next(s, StartCall(w, c), DoStartCall(s, w, c));
    }
  }

  lemma WakeGoesOn(s: State, w: Thread)
    requires HasTodo(s, w) && s.workers[w].pc.todo.value.Wake?
    ensures GoesOn(s, w)
  {
    hide DoDoWake;
    assert Next(s, Step.DoWake(w), DoDoWake(s, w));
  }

  lemma TimeoutGoesOn(s: State, w: Thread)
    requires HasTodo(s, w) && s.workers[w].pc.todo.value.Timeout?
    ensures GoesOn(s, w)
  {
    hide DoMark, DoCancel;
    if w in s.cancelling {
      assert Next(s, Cancel(w), DoCancel(s, w));
    } else {
      assert Next(s, Mark(w), DoMark(s, w));
    }
  }

  lemma CallbackGoesOn(s: State, w: Thread)
    requires Inv(s) && HasTodo(s, w)
    ensures GoesOn(s, w)
  {
    TodoIsOurs(s, w);
    hide Inv, GoesOn;
    if s.workers[w].pc.todo.value.Wake? { WakeGoesOn(s, w); } else { TimeoutGoesOn(s, w); }
  }

  lemma TodoIsOurs(s: State, w: Thread)
    requires Inv(s) && HasTodo(s, w)
    ensures s.workers[w].pc.todo.value.Wake? || s.workers[w].pc.todo.value.Timeout?
  {
    hide QueueInv, SlotInv, TimerInv, SemInv, HostInv, FiberInv, HandInv, CancelInv, Bags, CallInv, CountInv, IdInv,
      IoInv;
    WorkerAt(s.workers, s.place, s.calls, w);
  }

  lemma RunnerGoesOn(s: State, w: Thread)
    requires WillYield(s, w) || Acts(s, w)
    ensures GoesOn(s, w)
  {
    hide DoYieldHold, DoFinish;
    if WillYield(s, w) {
      assert Next(s, YieldHold(w), DoYieldHold(s, w));
    } else {
      assert Next(s, Finish(w, true), DoFinish(s, w, true));
    }
  }

  lemma CallerGoesOn(s: State, w: Thread)
    requires InIo(s, w, false) && !Jammed(s, w)
    ensures GoesOn(s, w)
  {
    hide GoesOn;
    CallerMay(s, w);
    if s.io[s.workers[w].pc.fiber].timer == None {
      var s' :| Next(s, EndIo(w), s');
      ItGoesOn(s, EndIo(w), s');
    } else {
      var s' :| Next(s, ParkIo(w), s');
      ItGoesOn(s, ParkIo(w), s');
    }
    hide Next;
  }

  lemma ItGoesOn(s: State, step: Step, s': State)
    requires Next(s, step, s') && !step.Do?
    ensures GoesOn(s, step.w)
  {
    hide Next;
  }

  lemma WaiterGoesOn(s: State, w: Thread)
    requires InIo(s, w, true)
    ensures GoesOn(s, w)
  {
    hide DoResumeIo;
    assert Next(s, ResumeIo(w), DoResumeIo(s, w));
  }

  lemma FiberGoesOn(s: State, w: Thread)
    requires w in s.workers && s.workers[w].pc.Running? && s.workers[w].pc.todo == None && !Jammed(s, w)
    ensures GoesOn(s, w)
  {
    hide GoesOn, Jammed;
    if WillYield(s, w) || Acts(s, w) {
      RunnerGoesOn(s, w);
    } else if InIo(s, w, true) {
      WaiterGoesOn(s, w);
    } else {
      CallerGoesOn(s, w);
    }
  }

  lemma HalfOutGoesOn(s: State, w: Thread)
    requires w in s.workers && s.workers[w].pc.HalfOut?
    ensures GoesOn(s, w)
  {
    hide DoSwitchOut;
    assert Next(s, SwitchOut(w), DoSwitchOut(s, w));
  }

  lemma BackGoesOn(s: State, w: Thread)
    requires w in s.workers && s.workers[w].pc.Back? && s.workers[w].pc.fiber in s.fibers
    ensures GoesOn(s, w)
  {
    hide DoSettle;
    assert Next(s, Settle(w), DoSettle(s, w));
  }

  lemma LeaverGoesOn(s: State, w: Thread)
    requires Inv(s) && w in s.workers && (s.workers[w].pc.HalfOut? || s.workers[w].pc.Back?)
    ensures GoesOn(s, w)
  {
    LeftIsKnown(s, w);
    hide Inv, GoesOn;
    if s.workers[w].pc.HalfOut? { HalfOutGoesOn(s, w); } else { BackGoesOn(s, w); }
  }

  lemma LeftIsKnown(s: State, w: Thread)
    requires Inv(s) && w in s.workers && (s.workers[w].pc.HalfOut? || s.workers[w].pc.Back?)
    ensures s.workers[w].pc.fiber in s.fibers
  {
    hide QueueInv, SlotInv, TimerInv, SemInv, WorkerInv, HostInv, FiberInv, HandInv, CancelInv, Bags, CallInv, CountInv,
      IdInv, IoInv;
    HandAt(s.workers, s.fibers, w);
  }

  lemma LoadedGoesOn(s: State, w: Thread)
    requires HasBatch(s, w)
    ensures GoesOn(s, w)
  {
    hide DoScheduleCollected;
    assert Next(s, ScheduleCollected(w), DoScheduleCollected(s, w));
  }

  lemma EmptyGoesOn(s: State, w: Thread)
    requires At(s, w, Idling([]))
    ensures GoesOn(s, w)
  {
    hide SetWorker;
    assert Next(s, IdleYield(w), SetWorker(s.(idle := s.idle - 1), w, s.workers[w].(pc := Scanning)));
  }

  lemma IdlerGoesOn(s: State, w: Thread)
    requires w in s.workers && s.workers[w].pc.Idling?
    ensures GoesOn(s, w)
  {
    hide GoesOn;
    if HasBatch(s, w) { LoadedGoesOn(s, w); } else { EmptyGoesOn(s, w); }
  }

  lemma ScannerGoesOn(s: State, w: Thread)
    requires At(s, w, Scanning)
    ensures GoesOn(s, w)
  {
    hide SetWorker, DoPick, Choice;
    if Choice(s, w).Some? {
      assert Next(s, Pick(w), DoPick(s, w));
    } else if s.workers[w].idleDone {
      assert Next(s, ExitWorker(w), SetWorker(s, w, s.workers[w].(pc := Exited)));
    } else {
      assert Next(s, EnterIdle(w), SetWorker(s.(idle := s.idle + 1), w, s.workers[w].(pc := Idling([]))));
    }
  }

  lemma JammedCalls(s: State, w: Thread, step: Step, s': State)
    requires Next(s, step, s') && !step.Do? && step.w == w && (CallStep(step) || step.ParkIo?)
    ensures !Jammed(s, w)
  {
    hide DoPick, DoSwapIn, DoDropDead, DoStartCall, DoDoWake, DoMark, DoCancel, DoFinish, DoYieldReady, DoYieldHold;
    hide DoSwitchOut, DoSettle, DoCollect, DoScheduleCollected, Choice, Stopping, SetWorker, Live, Finished;
    hide DoBeginIo, DoArmIo, DoParkIo, DoResumeIo, DoSleep, DoSemWait, DoSwitchTo, Deliver, ApplyAct;
  }

  lemma NotCalling(s: State, w: Thread, step: Step, s': State)
    requires Next(s, step, s') && !step.Do? && step.w == w && !CallStep(step) && !step.ParkIo?
    ensures !InIo(s, w, false) || step.Dispatch?
  {
    hide DoPick, DoSwapIn, DoDropDead, DoStartCall, DoDoWake, DoMark, DoCancel, DoFinish, DoYieldReady, DoYieldHold;
    hide DoSwitchOut, DoSettle, DoCollect, DoScheduleCollected, Choice, Stopping, SetWorker, Live, Finished;
    hide DoBeginIo, DoArmIo, DoParkIo, DoResumeIo, DoSleep, DoSemWait, DoSwitchTo, Deliver, ApplyAct;
  }

  lemma DispatcherIdles(s: State, w: Thread, slot: Slot, s': State)
    requires Next(s, Dispatch(w, slot), s')
    ensures !InIo(s, w, false)
  {
    hide Deliver;
  }

  lemma JammedStays(s: State, w: Thread, step: Step, s': State)
    requires Next(s, step, s') && !step.Do? && step.w == w
    ensures !Jammed(s, w)
  {
    hide Next, InIo;
    if CallStep(step) || step.ParkIo? {
      JammedCalls(s, w, step, s');
    } else if step.Dispatch? {
      DispatcherIdles(s, w, step.slot, s');
    } else {
      NotCalling(s, w, step, s');
    }
  }

  /** In every reachable state every worker that has not exited can take a step of its own, unless its fiber runs
      into addEvent's assertion. */
  lemma NobodyIsStuck(s: State, w: Thread)
    requires Reachable(s) && w in s.workers
    ensures s.workers[w].pc != Exited ==> (GoesOn(s, w) <==> !Jammed(s, w))
    ensures s.workers[w].pc == Exited ==> !GoesOn(s, w)
  {
    hide Inv, Reachable, GoesOn, Jammed;
    ReachableInv(s);
    match s.workers[w].pc
    case Scanning => ScannerGoesOn(s, w); NotJammed(s, w);
    case Holding(_) => TaskGoesOn(s, w); NotJammed(s, w);
    case Running(_, _, todo) =>
      if todo.Some? {
        CallbackGoesOn(s, w);
        NotJammed(s, w);
      } else if Jammed(s, w) {
        JammedForGood(s, w);
      } else {
        FiberGoesOn(s, w);
      }
    case HalfOut(_, _) => LeaverGoesOn(s, w); NotJammed(s, w);
    case Back(_, _) => LeaverGoesOn(s, w); NotJammed(s, w);
    case Idling(_) => IdlerGoesOn(s, w); NotJammed(s, w);
    case Exited => GoneForGood(s, w);
  }

  lemma NotJammed(s: State, w: Thread)
    requires w in s.workers && (s.workers[w].pc.Running? ==> s.workers[w].pc.todo.Some?)
    ensures !Jammed(s, w)
  {
  }

  lemma JammedForGood(s: State, w: Thread)
    requires Jammed(s, w)
    ensures !GoesOn(s, w)
  {
    hide Next, Jammed;
    forall step: Step, s' | !step.Do? && step.w == w && Next(s, step, s')
      ensures false
    {
      JammedStays(s, w, step, s');
    }
  }

  lemma GoneForGood(s: State, w: Thread)
    requires w in s.workers && s.workers[w].pc == Exited
    ensures !GoesOn(s, w)
  {
    hide DoPick, DoSwapIn, DoDropDead, DoStartCall, DoDoWake, DoMark, DoCancel, DoFinish, DoYieldReady, DoYieldHold;
    hide DoSwitchOut, DoSettle, DoCollect, DoScheduleCollected, Choice, Stopping, SetWorker, Live;
    hide DoBeginIo, DoArmIo, DoParkIo, DoResumeIo, DoSleep, DoSemWait, DoSwitchTo, Deliver, ApplyAct;
  }

  lemma MayFinish(s: State, w: Thread, ok: bool)
    requires Acts(s, w)
    ensures (exists s' :: Next(s, Finish(w, ok), s'))
  {
    hide DoFinish;
    assert Next(s, Finish(w, ok), DoFinish(s, w, ok));
  }

  lemma MayYield(s: State, w: Thread)
    requires Acts(s, w)
    ensures (exists s' :: Next(s, YieldReady(w), s'))
  {
    hide DoYieldReady;
    assert Next(s, YieldReady(w), DoYieldReady(s, w));
  }

  lemma MaySleep(s: State, w: Thread)
    requires Acts(s, w)
    ensures (exists s' :: Next(s, Sleep(w), s'))
  {
    hide DoSleep;
    assert Next(s, Sleep(w), DoSleep(s, w));
  }

  lemma MayBeginIo(s: State, w: Thread, slot: Slot)
    requires Acts(s, w)
    ensures (exists s' :: Next(s, BeginIo(w, slot), s'))
  {
    hide DoBeginIo;
    assert Next(s, BeginIo(w, slot), DoBeginIo(s, w, slot));
  }

  lemma MaySemWait(s: State, w: Thread, q: int)
    requires Acts(s, w)
    ensures (exists s' :: Next(s, SemWait(w, q), s')) <==> q in s.sems
  {
    hide DoSemWait;
    if q in s.sems { assert Next(s, SemWait(w, q), DoSemWait(s, w, q)); }
  }

  lemma MaySwitchTo(s: State, w: Thread, thread: int)
    requires Acts(s, w)
    ensures (exists s' :: Next(s, SwitchTo(w, thread), s')) <==> thread != -1 && thread != w
  {
    hide DoSwitchTo;
    if thread != -1 && thread != w { assert Next(s, SwitchTo(w, thread), DoSwitchTo(s, w, thread)); }
  }

  /** A fiber that runs its own code, outside do_io and not about to yield, is free in what it does next. */
  lemma FreeFiberMay(s: State, w: Thread, ok: bool, thread: int, q: int, slot: Slot)
    requires Acts(s, w)
    ensures (exists s' :: Next(s, Finish(w, ok), s')) && (exists s' :: Next(s, YieldReady(w), s'))
    ensures (exists s' :: Next(s, Sleep(w), s')) && (exists s' :: Next(s, BeginIo(w, slot), s'))
    ensures (exists s' :: Next(s, SemWait(w, q), s')) <==> q in s.sems
    ensures (exists s' :: Next(s, SwitchTo(w, thread), s')) <==> thread != -1 && thread != w
  {
    hide *;
    MayFinish(s, w, ok);
    MayYield(s, w);
    MaySleep(s, w);
    MayBeginIo(s, w, slot);
    MaySemWait(s, w, q);
    MaySwitchTo(s, w, thread);
  }

  lemma MayArm(s: State, w: Thread)
    requires InIo(s, w, false)
    ensures (exists s' :: Next(s, ArmIo(w), s')) <==> s.io[s.workers[w].pc.fiber].timer == None
  {
    hide DoArmIo;
    if s.io[s.workers[w].pc.fiber].timer == None { assert Next(s, ArmIo(w), DoArmIo(s, w)); }
  }

  lemma MayEnd(s: State, w: Thread)
    requires InIo(s, w, false)
    ensures (exists s' :: Next(s, EndIo(w), s')) <==> s.io[s.workers[w].pc.fiber].timer == None
  {
    hide DoArmIo;
    if s.io[s.workers[w].pc.fiber].timer == None { assert Next(s, EndIo(w), s.(io := s.io - {s.workers[w].pc.fiber})); }
  }

  lemma MayPark(s: State, w: Thread)
    requires InIo(s, w, false)
    ensures (exists s' :: Next(s, ParkIo(w), s')) <==> s.io[s.workers[w].pc.fiber].slot !in s.waiters
  {
    hide DoParkIo;
    if s.io[s.workers[w].pc.fiber].slot !in s.waiters { assert Next(s, ParkIo(w), DoParkIo(s, w)); }
  }

  /** In do_io it may end it or arm a timer as long as none is armed, and register where nobody is. */
  lemma CallerMay(s: State, w: Thread)
    requires InIo(s, w, false)
    ensures var c := s.io[s.workers[w].pc.fiber];
      && ((exists s' :: Next(s, ArmIo(w), s')) <==> c.timer == None)
      && ((exists s' :: Next(s, EndIo(w), s')) <==> c.timer == None)
      && ((exists s' :: Next(s, ParkIo(w), s')) <==> c.slot !in s.waiters)
  {
    hide *;
    MayArm(s, w);
    MayEnd(s, w);
    MayPark(s, w);
  }

  /** Anybody outside, or any such fiber, may do an act exactly if it is one of these. */
  lemma AnybodyMay(s: State, act: Act)
    ensures (exists s' :: Next(s, Do(Outside, act), s')) <==>
      match act
      case ScheduleFiber(f, _) =>
        f !in s.fibers || ((s.fibers[f] == TERM || s.fibers[f] == EXCEPT) && OfFiber(f) !in s.place)
      case CancelTimer(t) => t in s.timers && s.timers[t].Plain?
      case AddEvent(slot) => slot !in s.waiters
      case DelEvent(slot) => slot in s.waiters
      case CancelEvent(slot) => slot in s.waiters
      case Notify(q) => q in s.sems
      case MakeSem(q, _) => q !in s.sems
      case ScheduleCall(_) => true
      case AddTimer => true
      case Stop => true
  {
    hide ApplyAct;
    if ActEnabled(s, act) { assert Next(s, Do(Outside, act), ApplyAct(s, act)); }
  }

  lemma FibersAct(s: State, w: Thread, act: Act)
    requires Acts(s, w)
    ensures (exists s' :: Next(s, Do(By(w), act), s')) <==> exists s' :: Next(s, Do(Outside, act), s')
  {
    hide ApplyAct, ActEnabled;
    if ActEnabled(s, act) {
      assert Next(s, Do(By(w), act), ApplyAct(s, act)) && Next(s, Do(Outside, act), ApplyAct(s, act));
    }
  }

  /** A worker inside its idle fiber may come back or serve an event or a timer there is; it ends its idle fiber
      exactly when the scheduler is stopping. */
  lemma IdlerMay(s: State, w: Thread, slot: Slot, timer: int)
    requires At(s, w, Idling([]))
    ensures exists s' :: Next(s, IdleYield(w), s')
    ensures (exists s' :: Next(s, Dispatch(w, slot), s')) <==> slot in s.waiters
    ensures (exists s' :: Next(s, Collect(w, timer), s')) <==> timer in s.timers
    ensures (exists s' :: Next(s, IdleExit(w), s')) <==> Stopping(s)
  {
    hide *;
    MayComeBack(s, w);
    MayDispatch(s, w, slot);
    MayCollect(s, w, timer);
    MayEndIdle(s, w);
  }

  lemma MayComeBack(s: State, w: Thread)
    requires At(s, w, Idling([]))
    ensures exists s' :: Next(s, IdleYield(w), s')
  {
    hide SetWorker;
    assert Next(s, IdleYield(w), SetWorker(s.(idle := s.idle - 1), w, s.workers[w].(pc := Scanning)));
  }

  lemma MayDispatch(s: State, w: Thread, slot: Slot)
    requires At(s, w, Idling([]))
    ensures (exists s' :: Next(s, Dispatch(w, slot), s')) <==> slot in s.waiters
  {
    hide Deliver;
    if slot in s.waiters { assert Next(s, Dispatch(w, slot), Deliver(s, slot)); }
  }

  lemma MayCollect(s: State, w: Thread, timer: int)
    requires At(s, w, Idling([]))
    ensures (exists s' :: Next(s, Collect(w, timer), s')) <==> timer in s.timers
  {
    hide DoCollect;
    if timer in s.timers { assert Next(s, Collect(w, timer), DoCollect(s, w, timer)); }
  }

  lemma MayEndIdle(s: State, w: Thread)
    requires At(s, w, Idling([]))
    ensures (exists s' :: Next(s, IdleExit(w), s')) <==> Stopping(s)
  {
    hide SetWorker, Stopping;
    if Stopping(s) {
      assert Next(s, IdleExit(w),
                  SetWorker(s.(idle := s.idle - 1), w, s.workers[w].(pc := Scanning, idleDone := true)));
    }
  }

  lemma FlagsPart(s: State, step: Step, s': State)
    requires Obeys(s, step, s')
    ensures s'.autoStop == (s.autoStop || (step.Do? && step.act.Stop?))
    ensures s'.stopping == (s.stopping || (step.Do? && step.act.Stop?))
  {
    hide Appended, StatesAfter, SemsAfter, TimersAfter, CallsAfter, EndedNow, HandsStay, WorkersAfter, WaitersAfter;
    hide LeavingAfter;
  }

  lemma {:induction false} StopFlags(states: seq<State>, steps: seq<Step>, n: nat)
    requires Run(states, steps) && n <= |steps|
    ensures states[n].autoStop == states[n].stopping
    ensures states[n].stopping <==> exists j :: 0 <= j < n && steps[j].Do? && steps[j].act.Stop?
  {
    hide Next, Obeys;
    if n == 0 {
      NotStopped(states[0]);
    } else {
      StopFlags(states, steps, n - 1);
      StepObeys(states[n - 1], steps[n - 1], states[n]);
      FlagsPart(states[n - 1], steps[n - 1], states[n]);
    }
  }

  lemma NotStopped(s: State)
    requires Init(s)
    ensures !s.autoStop && !s.stopping
  {
  }

  /** stopping() is true exactly if stop() has been called and nothing is queued, timed or registered and no
      worker has taken a task that it has not come back from. */
  lemma StoppingIff(states: seq<State>, steps: seq<Step>, n: nat)
    requires SoundRun(states, steps) && n <= |steps|
    ensures var s := states[n];
      Stopping(s) <==>
      && (exists j :: 0 <= j < n && steps[j].Do? && steps[j].act.Stop?)
      && s.queue == [] && s.timers == map[] && s.waiters == map[]
      && forall w :: w in s.workers ==>
           !s.workers[w].pc.Holding? && !s.workers[w].pc.Running? && !s.workers[w].pc.HalfOut?
  {
    hide Next, TakesLeft, Init, Reachable, Working, InIdleFiber;
    StopFlags(states, steps, n);
    RunPrefix(states, steps, n);
    CountersExact(states[n]);
    WorkingIffBusy(states[n]);
  }

  lemma WorkingIffBusy(s: State)
    ensures |Working(s)| == 0 <==>
      forall w :: w in s.workers ==> !s.workers[w].pc.Holding? && !s.workers[w].pc.Running? && !s.workers[w].pc.HalfOut?
    ensures |s.waiters| == 0 <==> s.waiters == map[]
  {
    if |Working(s)| == 0 {
      assert Working(s) == {};
      forall w | w in s.workers
        ensures !s.workers[w].pc.Holding? && !s.workers[w].pc.Running? && !s.workers[w].pc.HalfOut?
      {
        assert w !in Working(s);
      }
    }
    if forall w :: w in s.workers ==>
         !s.workers[w].pc.Holding? && !s.workers[w].pc.Running? && !s.workers[w].pc.HalfOut?
    {
      assert Working(s) == {};
    }
  }
}
