/** The protocol's steps told field by field: what each kind of step puts on the task list, which states,
    semaphores, timers, do_io calls and ended callbacks it leaves. What holds over whole runs is proved from
    this. */
module Steps {
  import opened Common
  import opened RunQueues
  import opened Protocol

  /** The fiber a worker has taken, runs, or is leaving. */
  function OnWorker(s: State, w: Thread): Fiber
  {
    if w !in s.workers then 0 else
      match s.workers[w].pc
      case Holding(e) => (match e.job case Resume(f) => f case _ => 0)
      case Running(f, _, _) => f
      case HalfOut(f, _) => f
      case Back(f, _) => f
      case _ => 0
  }

  /** Callbacks as entries for any worker. */
  function AsEntries(jobs: seq<Job>): (r: seq<Entry>)
    ensures |r| == |jobs| && forall i :: 0 <= i < |jobs| ==> r[i] == Entry(jobs[i], -1)
  {
    if jobs == [] then [] else [Entry(jobs[0], -1)] + AsEntries(jobs[1..])
  }

  function WaiterAt(s: State, slot: Slot): seq<Entry>
  {
    if slot in s.waiters then [Entry(s.waiters[slot], -1)] else []
  }

  /** The callback on w. */
  function TodoOf(s: State, w: Thread): Job
  {
    if HasTodo(s, w) then s.workers[w].pc.todo.value else Plain(0)
  }

  /** What a step other than Pick appends to the task list: in this order, for these workers. */
  function Appended(s: State, step: Step): seq<Entry>
  {
    match step
    case DoWake(w) => if TodoOf(s, w).Wake? then [Entry(Resume(TodoOf(s, w).fiber), -1)] else []
    case Cancel(w) => if TodoOf(s, w).Timeout? then WaiterAt(s, Slot(TodoOf(s, w).fd, TodoOf(s, w).event)) else []
    case Settle(w) =>
      if OnWorker(s, w) in s.fibers && s.fibers[OnWorker(s, w)] == READY then [Entry(Resume(OnWorker(s, w)), -1)]
      else []
    case SwitchTo(w, thread) => [Entry(Resume(OnWorker(s, w)), thread)]
    case Dispatch(_, slot) => WaiterAt(s, slot)
    case ScheduleCollected(w) => if HasBatch(s, w) then AsEntries(s.workers[w].pc.batch) else []
    case Do(_, act) => (
      match act
      case ScheduleFiber(f, thread) => [Entry(Resume(f), thread)]
      case ScheduleCall(thread) => [Entry(Plain(s.nextId), thread)]
      case CancelEvent(slot) => WaiterAt(s, slot)
      case Notify(q) =>
        if q in s.sems && s.sems[q].waiting != [] then [Entry(Resume(s.sems[q].waiting[0]), -1)] else []
      case _ => [])
    case _ => []
  }

  /** The states of the fibers after a step. */
  function StatesAfter(s: State, step: Step): map<Fiber, FiberState>
  {
    match step
    case SwapIn(w) => s.fibers[OnWorker(s, w) := EXEC]
    case StartCall(_, c) => s.fibers[c := EXEC]
    case Finish(w, ok) =>
      var onCall := w in s.workers && s.workers[w].pc.Running? && s.workers[w].pc.onCall;
      s.fibers[OnWorker(s, w) := if onCall then INIT else if ok then TERM else EXCEPT]
    case YieldReady(w) => s.fibers[OnWorker(s, w) := READY]
    case YieldHold(w) => s.fibers[OnWorker(s, w) := HOLD]
    case Settle(w) =>
      var f := OnWorker(s, w);
      if f in s.fibers && (s.fibers[f] == READY || s.fibers[f] == TERM || s.fibers[f] == EXCEPT) then s.fibers
      else s.fibers[f := HOLD]
    case Do(_, act) =>
      if act.ScheduleFiber? && act.fiber !in s.fibers then s.fibers[act.fiber := INIT] else s.fibers
    case _ => s.fibers
  }

  function SemsAfter(s: State, step: Step): map<int, Sem>
  {
    match step
    case SemWait(w, q) =>
      if q !in s.sems then s.sems
      else if s.sems[q].count > 0 then s.sems[q := Sem(s.sems[q].count - 1, s.sems[q].waiting)]
      else s.sems[q := Sem(s.sems[q].count, s.sems[q].waiting + [OnWorker(s, w)])]
    case Do(_, act) => (
      match act
      case Notify(q) =>
        if q !in s.sems then s.sems
        else if s.sems[q].waiting != [] then s.sems[q := Sem(s.sems[q].count, s.sems[q].waiting[1..])]
        else s.sems[q := Sem(s.sems[q].count + 1, [])]
      case MakeSem(q, count) => s.sems[q := Sem(count, [])]
      case _ => s.sems)
    case _ => s.sems
  }

  /** The timer of the fiber on w, if it is still armed for its wait. */
  function OwnArmed(s: State, w: Thread): set<int>
  {
    var f := OnWorker(s, w);
    if f in s.io && s.io[f].timer.Some? && s.io[f].timer.value in s.timers && s.timers[s.io[f].timer.value].Timeout?
    then {s.io[f].timer.value} else {}
  }

  function TimersAfter(s: State, step: Step): map<int, Job>
  {
    match step
    case ArmIo(w) =>
      var f := OnWorker(s, w);
      if f in s.io then s.timers[s.nextId := Timeout(s.nextId, s.io[f].slot.fd, s.io[f].slot.event, s.io[f].info)]
      else s.timers
    case ResumeIo(w) => s.timers - OwnArmed(s, w)
    case Sleep(w) => s.timers[s.nextId := Wake(OnWorker(s, w))]
    case Collect(_, t) => s.timers - {t}
    case Do(_, act) => (
      match act
      case AddTimer => s.timers[s.nextId := Plain(s.nextId)]
      case CancelTimer(t) => s.timers - {t}
      case _ => s.timers)
    case _ => s.timers
  }

  function CallsAfter(s: State, step: Step): map<Fiber, IoCall>
  {
    match step
    case BeginIo(w, slot) => s.io[OnWorker(s, w) := IoCall(s.nextId, slot, None, false)]
    case ArmIo(w) =>
      var f := OnWorker(s, w);
      if f in s.io then s.io[f := IoCall(s.io[f].info, s.io[f].slot, Some(s.nextId), s.io[f].waiting)] else s.io
    case ParkIo(w) =>
      var f := OnWorker(s, w);
      if f in s.io then s.io[f := IoCall(s.io[f].info, s.io[f].slot, s.io[f].timer, true)] else s.io
    case ResumeIo(w) =>
      var f := OnWorker(s, w);
      if f in s.io && s.io[f].info !in s.timedOut then s.io[f := IoCall(s.io[f].info, s.io[f].slot, None, false)]
      else s.io - {f}
    case EndIo(w) => s.io - {OnWorker(s, w)}
    case _ => s.io
  }

  /** The callbacks a step brings to an end: started, returned, cancelled or thrown away. */
  function EndedNow(s: State, step: Step): set<int>
  {
    match step
    case StartCall(w, _) =>
      if w in s.workers && s.workers[w].pc.Holding? && s.workers[w].pc.entry.job.Plain?
      then {s.workers[w].pc.entry.job.id} else {}
    case Mark(w) =>
      var t := TodoOf(s, w);
      if t.Timeout? && (t.info in s.timedOut || forall f :: f in s.io ==> s.io[f].info != t.info) then {t.id} else {}
    case Cancel(w) => if TodoOf(s, w).Timeout? then {TodoOf(s, w).id} else {}
    case ResumeIo(w) => set t | t in OwnArmed(s, w) && s.timers[t].Timeout? :: s.timers[t].id
    case Do(_, act) => (
      match act
      case CancelTimer(t) => if t in s.timers && s.timers[t].Plain? then {s.timers[t].id} else {}
      case DelEvent(slot) =>
        if slot in s.waiters && (s.waiters[slot].Plain? || s.waiters[slot].Timeout?) then {s.waiters[slot].id} else {}
      case _ => {})
    case _ => {}
  }

  /** Worker w goes on at pc. */
  function Moved(s: State, w: Thread, pc: Pc): map<Thread, Worker>
  {
    if w in s.workers then s.workers[w := Worker(pc, s.workers[w].kept, s.workers[w].idleDone)] else s.workers
  }

  predicate IsOnCall(s: State, w: Thread)
  {
    w in s.workers && s.workers[w].pc.Running? && s.workers[w].pc.onCall
  }

  /** The callback on w is over, or placed what it was for. */
  function Acted(s: State, w: Thread): map<Thread, Worker>
  {
    Moved(s, w, Running(OnWorker(s, w), IsOnCall(s, w), None))
  }

  /** Where the workers are after a step other than Pick. */
  function WorkersAfter(s: State, step: Step): map<Thread, Worker>
  {
    match step
    case EnterIdle(w) => Moved(s, w, Idling([]))
    case ExitWorker(w) => Moved(s, w, Exited)
    case SwapIn(w) => Moved(s, w, Running(OnWorker(s, w), false, None))
    case DropDead(w) => Moved(s, w, Scanning)
    case StartCall(w, c) =>
      if w in s.workers && s.workers[w].pc.Holding? then
        var job := s.workers[w].pc.entry.job;
        s.workers[w := Worker(Running(c, true, if job.Plain? then None else Some(job)), None, s.workers[w].idleDone)]
      else s.workers
    case DoWake(w) => Acted(s, w)
    case Mark(w) => if EndedNow(s, step) != {} then Acted(s, w) else s.workers
    case Cancel(w) => Acted(s, w)
    case Finish(w, _) =>
      if IsOnCall(s, w) then s.workers[w := Worker(Scanning, Some(OnWorker(s, w)), s.workers[w].idleDone)]
      else Moved(s, w, Scanning)
    case YieldReady(w) => Moved(s, w, HalfOut(OnWorker(s, w), true))
    case YieldHold(w) => Moved(s, w, HalfOut(OnWorker(s, w), false))
    case SwitchOut(w) =>
      Moved(s, w, Back(OnWorker(s, w), w in s.workers && s.workers[w].pc.HalfOut? && s.workers[w].pc.ready))
    case Settle(w) => Moved(s, w, Scanning)
    case IdleYield(w) => Moved(s, w, Scanning)
    case IdleExit(w) => if w in s.workers then s.workers[w := Worker(Scanning, s.workers[w].kept, true)] else s.workers
    case Collect(w, t) =>
      if w in s.workers && s.workers[w].pc.Idling? && t in s.timers
      then Moved(s, w, Idling(s.workers[w].pc.batch + [s.timers[t]])) else s.workers
    case ScheduleCollected(w) => Moved(s, w, Idling([]))
    case _ => s.workers
  }

  function WaitersAfter(s: State, step: Step): map<Slot, Job>
  {
    match step
    case ParkIo(w) =>
      var f := OnWorker(s, w);
      if f in s.io then s.waiters[s.io[f].slot := Resume(f)] else s.waiters
    case Cancel(w) =>
      if TodoOf(s, w).Timeout? then s.waiters - {Slot(TodoOf(s, w).fd, TodoOf(s, w).event)} else s.waiters
    case Dispatch(_, slot) => s.waiters - {slot}
    case Do(_, act) => (
      match act
      case AddEvent(slot) => s.waiters[slot := Plain(s.nextId)]
      case DelEvent(slot) => s.waiters - {slot}
      case CancelEvent(slot) => s.waiters - {slot}
      case _ => s.waiters)
    case _ => s.waiters
  }

  /** The fibers that will yield next. */
  function LeavingAfter(s: State, step: Step): set<Fiber>
  {
    match step
    case YieldHold(w) => s.leaving - {OnWorker(s, w)}
    case ParkIo(w) => s.leaving + {OnWorker(s, w)}
    case Sleep(w) => s.leaving + {OnWorker(s, w)}
    case SwitchTo(w, _) => s.leaving + {OnWorker(s, w)}
    case SemWait(w, q) => if q in s.sems && s.sems[q].count <= 0 then s.leaving + {OnWorker(s, w)} else s.leaving
    case _ => s.leaving
  }

  /** The marks and who cancels, and whether stop has been called. */
  ghost predicate MarksAfter(s: State, step: Step, s': State)
  {
    && (if step.Mark? && TodoOf(s, step.w).Timeout? && EndedNow(s, step) == {} then
          s'.timedOut == s.timedOut + {TodoOf(s, step.w).info} && s'.cancelling == s.cancelling + {step.w}
        else
          && s'.timedOut == s.timedOut
          && s'.cancelling == if step.Mark? || step.Cancel? then s.cancelling - {step.w} else s.cancelling)
    && s'.autoStop == (s.autoStop || (step.Do? && step.act.Stop?))
    && s'.stopping == (s.stopping || (step.Do? && step.act.Stop?))
  }

  ghost predicate Obeys(s: State, step: Step, s': State)
  {
    && (!step.Pick? ==> s'.workers == WorkersAfter(s, step))
    && s'.waiters == WaitersAfter(s, step)
    && s'.leaving == LeavingAfter(s, step)
    && MarksAfter(s, step, s')
    && (!step.Pick? ==> s'.queue == s.queue + Appended(s, step))
    && s'.fibers == StatesAfter(s, step)
    && s'.sems == SemsAfter(s, step)
    && s'.timers == TimersAfter(s, step)
    && s'.io == CallsAfter(s, step)
    && s'.ended == s.ended + EndedNow(s, step)
    && HandsStay(s, step, s')
  }

  /** What a worker has taken from the list it keeps until it switches to it or throws it away. */
  ghost predicate HandsStay(s: State, step: Step, s': State)
  {
    forall v :: v in s.workers && s.workers[v].pc.Holding? && !(PutsDown(step) && step.w == v) ==>
      v in s'.workers && s'.workers[v] == s.workers[v]
  }

  predicate PutsDown(step: Step)
  {
    step.SwapIn? || step.DropDead? || step.StartCall?
  }

  /** Besides those named apart. */
  ghost predicate SameRest(s: State, s': State)
  {
    && s'.fibers == s.fibers && s'.sems == s.sems && s'.timers == s.timers && s'.io == s.io && s'.leaving == s.leaving
    && s'.timedOut == s.timedOut && s'.autoStop == s.autoStop && s'.stopping == s.stopping
  }

  lemma PickObeys(s: State, w: Thread)
    requires At(s, w, Scanning) && Choice(s, w).Some?
    ensures Obeys(s, Pick(w), DoPick(s, w))
  {
  }

  lemma SwapInObeys(s: State, w: Thread)
    requires HoldsFiber(s, w)
    ensures Obeys(s, SwapIn(w), DoSwapIn(s, w))
  {
  }

  lemma DropDeadObeys(s: State, w: Thread)
    requires HoldsFiber(s, w)
    ensures Obeys(s, DropDead(w), DoDropDead(s, w))
  {
  }

  lemma StartPlainObeys(s: State, w: Thread, c: Fiber)
    requires HoldsCall(s, w) && s.workers[w].pc.entry.job.Plain?
    ensures Obeys(s, StartCall(w, c), DoStartCall(s, w, c))
  {
  }

  lemma StartOwnObeys(s: State, w: Thread, c: Fiber)
    requires HoldsCall(s, w) && !s.workers[w].pc.entry.job.Plain?
    ensures Obeys(s, StartCall(w, c), DoStartCall(s, w, c))
  {
  }

  lemma StartObeys(s: State, w: Thread, c: Fiber)
    requires HoldsCall(s, w)
    ensures Obeys(s, StartCall(w, c), DoStartCall(s, w, c))
  {
    hide Obeys, DoStartCall;
    if s.workers[w].pc.entry.job.Plain? { StartPlainObeys(s, w, c); } else { StartOwnObeys(s, w, c); }
  }

  lemma WakeObeys(s: State, w: Thread)
    requires HasTodo(s, w) && s.workers[w].pc.todo.value.Wake?
    ensures Obeys(s, DoWake(w), DoDoWake(s, w))
  {
  }

  lemma CallOverFields(s: State, w: Thread)
    requires HasTodo(s, w) && s.workers[w].pc.todo.value.Timeout?
    ensures var s' := CallOver(s, w);
      && s'.queue == s.queue && SameRest(s, s') && s'.waiters == s.waiters && s'.cancelling == s.cancelling - {w}
      && s'.ended == s.ended + {s.workers[w].pc.todo.value.id} && s'.workers == Acted(s, w)
  {
  }

  lemma MarkObeysMarks(s: State, w: Thread)
    requires HasTodo(s, w) && s.workers[w].pc.todo.value.Timeout?
    requires Live(s, s.workers[w].pc.todo.value.info) && s.workers[w].pc.todo.value.info !in s.timedOut
    ensures Obeys(s, Mark(w), DoMark(s, w))
  {
    hide CallOver;
  }

  lemma MarkObeysIdles(s: State, w: Thread)
    requires HasTodo(s, w) && s.workers[w].pc.todo.value.Timeout?
    requires !Live(s, s.workers[w].pc.todo.value.info) || s.workers[w].pc.todo.value.info in s.timedOut
    ensures Obeys(s, Mark(w), DoMark(s, w))
  {
    CallOverFields(s, w);
    hide CallOver;
  }

  lemma MarkObeys(s: State, w: Thread)
    requires HasTodo(s, w) && s.workers[w].pc.todo.value.Timeout?
    ensures Obeys(s, Mark(w), DoMark(s, w))
  {
    hide Obeys, DoMark, Live;
    var info := s.workers[w].pc.todo.value.info;
    if Live(s, info) && info !in s.timedOut { MarkObeysMarks(s, w); } else { MarkObeysIdles(s, w); }
  }

  lemma CancelFields(s: State, slot: Slot)
    ensures var s' := CancelSlot(s, slot);
      && s'.queue == s.queue + WaiterAt(s, slot) && SameRest(s, s') && s'.waiters == s.waiters - {slot}
      && s'.cancelling == s.cancelling && s'.ended == s.ended && s'.workers == s.workers
  {
    if slot in s.waiters {}
  }

  lemma CancelObeys(s: State, w: Thread)
    requires HasTodo(s, w) && s.workers[w].pc.todo.value.Timeout?
    ensures Obeys(s, Cancel(w), DoCancel(s, w))
  {
    hide CancelSlot, WaiterAt, CallOver;
    var slot := Slot(s.workers[w].pc.todo.value.fd, s.workers[w].pc.todo.value.event);
    CancelFields(s, slot);
    CallOverFields(CancelSlot(s, slot), w);
  }

  lemma FinishObeysCall(s: State, w: Thread, ok: bool)
    requires Acts(s, w) && s.workers[w].pc.onCall
    ensures Obeys(s, Finish(w, ok), DoFinish(s, w, ok))
  {
  }

  lemma FinishObeysOwn(s: State, w: Thread, ok: bool)
    requires Acts(s, w) && !s.workers[w].pc.onCall
    ensures Obeys(s, Finish(w, ok), DoFinish(s, w, ok))
  {
  }

  lemma FinishObeys(s: State, w: Thread, ok: bool)
    requires Acts(s, w)
    ensures Obeys(s, Finish(w, ok), DoFinish(s, w, ok))
  {
    hide Obeys, DoFinish;
    if s.workers[w].pc.onCall { FinishObeysCall(s, w, ok); } else { FinishObeysOwn(s, w, ok); }
  }

  lemma YieldReadyObeys(s: State, w: Thread)
    requires Acts(s, w)
    ensures Obeys(s, YieldReady(w), DoYieldReady(s, w))
  {
  }

  lemma YieldHoldObeys(s: State, w: Thread)
    requires WillYield(s, w)
    ensures Obeys(s, YieldHold(w), DoYieldHold(s, w))
  {
  }

  lemma SwitchOutObeys(s: State, w: Thread)
    requires w in s.workers && s.workers[w].pc.HalfOut?
    ensures Obeys(s, SwitchOut(w), DoSwitchOut(s, w))
  {
  }

  lemma SettleObeysReady(s: State, w: Thread)
    requires IsBack(s, w) && s.workers[w].pc.fiber in s.fibers && s.fibers[s.workers[w].pc.fiber] == READY
    ensures Obeys(s, Settle(w), DoSettle(s, w))
  {
  }

  lemma HeldFields(s: State, w: Thread, f: Fiber, worker: Worker)
    requires Finished(s, f)
    ensures var s' := SettleHold(s, w, f, worker);
      && s'.queue == s.queue && SameRest(s, s') && s'.waiters == s.waiters && s'.cancelling == s.cancelling
      && s'.ended == s.ended && s'.workers == s.workers[w := worker]
  {
    hide Finished;
  }

  lemma SettleDoneFields(s: State, w: Thread)
    requires IsBack(s, w) && Finished(s, s.workers[w].pc.fiber)
    ensures var s' := DoSettle(s, w);
      && s'.queue == s.queue && SameRest(s, s') && s'.waiters == s.waiters && s'.cancelling == s.cancelling
      && s'.ended == s.ended && s'.workers == Moved(s, w, Scanning)
  {
    assert s.fibers[s.workers[w].pc.fiber] != READY;
    HeldFields(s, w, s.workers[w].pc.fiber, s.workers[w].(pc := Scanning));
    hide SettleHold, Finished, SameRest;
  }

  lemma SettleObeysDone(s: State, w: Thread)
    requires IsBack(s, w) && Finished(s, s.workers[w].pc.fiber)
    ensures Obeys(s, Settle(w), DoSettle(s, w))
  {
    SettleDoneFields(s, w);
    assert Appended(s, Settle(w)) == [] && StatesAfter(s, Settle(w)) == s.fibers;
    hide DoSettle, Appended, StatesAfter;
  }

  lemma SettleObeysHold(s: State, w: Thread)
    requires IsBack(s, w) && s.workers[w].pc.fiber in s.fibers
    requires s.fibers[s.workers[w].pc.fiber] != READY && !Finished(s, s.workers[w].pc.fiber)
    ensures Obeys(s, Settle(w), DoSettle(s, w))
  {
  }

  lemma SettleObeys(s: State, w: Thread)
    requires IsBack(s, w) && s.workers[w].pc.fiber in s.fibers
    ensures Obeys(s, Settle(w), DoSettle(s, w))
  {
    hide Obeys, DoSettle;
    var f := s.workers[w].pc.fiber;
    if s.fibers[f] == READY {
      SettleObeysReady(s, w);
    } else if Finished(s, f) {
      SettleObeysDone(s, w);
    } else {
      SettleObeysHold(s, w);
    }
  }

  lemma BeginIoObeys(s: State, w: Thread, slot: Slot)
    requires Acts(s, w)
    ensures Obeys(s, BeginIo(w, slot), DoBeginIo(s, w, slot))
  {
  }

  lemma ArmIoObeys(s: State, w: Thread)
    requires InIo(s, w, false)
    ensures Obeys(s, ArmIo(w), DoArmIo(s, w))
  {
  }

  lemma ParkIoObeys(s: State, w: Thread)
    requires InIo(s, w, false)
    ensures Obeys(s, ParkIo(w), DoParkIo(s, w))
  {
  }

  lemma ResumeArmedObeys(s: State, w: Thread)
    requires InIo(s, w, true) && OwnArmed(s, w) != {}
    ensures Obeys(s, ResumeIo(w), DoResumeIo(s, w))
  {
    var t := s.io[s.workers[w].pc.fiber].timer.value;
    assert OwnArmed(s, w) == {t} && EndedNow(s, ResumeIo(w)) == {s.timers[t].id};
  }

  lemma ResumeLateObeys(s: State, w: Thread)
    requires InIo(s, w, true) && OwnArmed(s, w) == {}
    ensures Obeys(s, ResumeIo(w), DoResumeIo(s, w))
  {
    assert EndedNow(s, ResumeIo(w)) == {};
    assert s.timers - {} == s.timers;
  }

  lemma ResumeIoObeys(s: State, w: Thread)
    requires InIo(s, w, true)
    ensures Obeys(s, ResumeIo(w), DoResumeIo(s, w))
  {
    hide Obeys, OwnArmed, DoResumeIo;
    if OwnArmed(s, w) == {} { ResumeLateObeys(s, w); } else { ResumeArmedObeys(s, w); }
  }

  lemma EndIoObeys(s: State, w: Thread)
    requires InIo(s, w, false)
    ensures Obeys(s, EndIo(w), s.(io := s.io - {s.workers[w].pc.fiber}))
  {
  }

  lemma SleepObeys(s: State, w: Thread)
    requires Acts(s, w)
    ensures Obeys(s, Sleep(w), DoSleep(s, w))
  {
  }

  lemma SemWaitObeysTake(s: State, w: Thread, q: int)
    requires Acts(s, w) && q in s.sems && s.sems[q].count > 0
    ensures Obeys(s, SemWait(w, q), DoSemWait(s, w, q))
  {
  }

  lemma SemWaitObeysQueue(s: State, w: Thread, q: int)
    requires Acts(s, w) && q in s.sems && s.sems[q].count <= 0
    ensures Obeys(s, SemWait(w, q), DoSemWait(s, w, q))
  {
  }

  lemma SemWaitObeys(s: State, w: Thread, q: int)
    requires Acts(s, w) && q in s.sems
    ensures Obeys(s, SemWait(w, q), DoSemWait(s, w, q))
  {
    hide Obeys, DoSemWait;
    if s.sems[q].count > 0 { SemWaitObeysTake(s, w, q); } else { SemWaitObeysQueue(s, w, q); }
  }

  lemma SwitchToObeys(s: State, w: Thread, thread: int)
    requires Acts(s, w)
    ensures Obeys(s, SwitchTo(w, thread), DoSwitchTo(s, w, thread))
  {
  }

  lemma IdleObeys(s: State, step: Step, s': State)
    requires Next(s, step, s') && (step.EnterIdle? || step.ExitWorker? || step.IdleYield? || step.IdleExit?)
    ensures Obeys(s, step, s')
  {
    hide DoPick, DoSwapIn, DoDropDead, DoStartCall, DoDoWake, DoMark, DoCancel, DoFinish, DoYieldReady, DoYieldHold;
    hide DoSwitchOut, DoSettle, DoCollect, DoScheduleCollected, Choice, Stopping;
    hide DoBeginIo, DoArmIo, DoParkIo, DoResumeIo, DoSleep, DoSemWait, DoSwitchTo, Deliver, ApplyAct;
  }

  lemma DispatchObeys(s: State, w: Thread, slot: Slot)
    requires slot in s.waiters
    ensures Obeys(s, Dispatch(w, slot), Deliver(s, slot))
  {
  }

  lemma CollectObeys(s: State, w: Thread, timer: int)
    requires w in s.workers && s.workers[w].pc.Idling? && timer in s.timers
    ensures Obeys(s, Collect(w, timer), DoCollect(s, w, timer))
  {
  }

  lemma FirstCollected(s: State, w: Thread)
    requires HasBatch(s, w)
    ensures var s', batch := ScheduleFirst(s, w), s.workers[w].pc.batch;
      && s'.queue == s.queue + [Entry(batch[0], -1)] && SameRest(s, s') && s'.waiters == s.waiters
      && s'.cancelling == s.cancelling && s'.ended == s.ended && s'.workers == Moved(s, w, Idling(batch[1..]))
  {
  }

  lemma {:induction false} CollectedFields(s: State, w: Thread)
    requires w in s.workers && s.workers[w].pc.Idling?
    ensures var s' := DoScheduleCollected(s, w);
      && s'.queue == s.queue + AsEntries(s.workers[w].pc.batch) && SameRest(s, s') && s'.waiters == s.waiters
      && s'.cancelling == s.cancelling && s'.ended == s.ended && s'.workers == Moved(s, w, Idling([]))
    decreases |s.workers[w].pc.batch|
  {
    if HasBatch(s, w) {
      var s1, batch := ScheduleFirst(s, w), s.workers[w].pc.batch;
      FirstCollected(s, w);
      hide ScheduleFirst;
      CollectedFields(s1, w);
      assert s1.queue + AsEntries(batch[1..]) == s.queue + AsEntries(batch);
    }
  }

  lemma ScheduleCollectedObeys(s: State, w: Thread)
    requires HasBatch(s, w)
    ensures Obeys(s, ScheduleCollected(w), DoScheduleCollected(s, w))
  {
    CollectedFields(s, w);
    hide DoScheduleCollected, AsEntries;
  }

  lemma ActKeeps(s: State, actor: Actor, act: Act)
    ensures var step := Do(actor, act);
      && WorkersAfter(s, step) == s.workers && LeavingAfter(s, step) == s.leaving && CallsAfter(s, step) == s.io
      && (!act.ScheduleFiber? ==> StatesAfter(s, step) == s.fibers)
      && (!act.Notify? && !act.MakeSem? ==> SemsAfter(s, step) == s.sems)
      && (!act.AddTimer? && !act.CancelTimer? ==> TimersAfter(s, step) == s.timers)
      && (!act.AddEvent? && !act.DelEvent? && !act.CancelEvent? ==> WaitersAfter(s, step) == s.waiters)
      && (!act.CancelTimer? && !act.DelEvent? ==> EndedNow(s, step) == {})
      && (act.AddTimer? || act.CancelTimer? || act.AddEvent? || act.DelEvent? || act.MakeSem? || act.Stop? ==>
            Appended(s, step) == [])
  {
  }

  lemma NotifyObeysWakes(s: State, actor: Actor, q: int)
    requires q in s.sems && s.sems[q].waiting != []
    ensures Obeys(s, Do(actor, Notify(q)), DoNotify(s, q))
  {
    ActKeeps(s, actor, Notify(q));
    hide WorkersAfter, LeavingAfter, CallsAfter, OnWorker, StatesAfter, TimersAfter, WaitersAfter, EndedNow;
  }

  lemma NotifyObeysCounts(s: State, actor: Actor, q: int)
    requires q in s.sems && s.sems[q].waiting == []
    ensures Obeys(s, Do(actor, Notify(q)), DoNotify(s, q))
  {
    ActKeeps(s, actor, Notify(q));
    hide WorkersAfter, LeavingAfter, CallsAfter, OnWorker, StatesAfter, TimersAfter, WaitersAfter, EndedNow;
  }

  lemma NotifyObeys(s: State, actor: Actor, q: int)
    requires q in s.sems
    ensures Obeys(s, Do(actor, Notify(q)), DoNotify(s, q))
  {
    hide Obeys, DoNotify;
    if s.sems[q].waiting == [] { NotifyObeysCounts(s, actor, q); } else { NotifyObeysWakes(s, actor, q); }
  }

  lemma DelCallObeys(s: State, actor: Actor, slot: Slot)
    requires slot in s.waiters && (s.waiters[slot].Plain? || s.waiters[slot].Timeout?)
    ensures Obeys(s, Do(actor, DelEvent(slot)), DoDelEvent(s, slot))
  {
    ActKeeps(s, actor, DelEvent(slot));
    hide WorkersAfter, LeavingAfter, CallsAfter, OnWorker, StatesAfter, TimersAfter, SemsAfter, Appended;
  }

  lemma DelFiberObeys(s: State, actor: Actor, slot: Slot)
    requires slot in s.waiters && (s.waiters[slot].Resume? || s.waiters[slot].Wake?)
    ensures Obeys(s, Do(actor, DelEvent(slot)), DoDelEvent(s, slot))
  {
    ActKeeps(s, actor, DelEvent(slot));
    hide WorkersAfter, LeavingAfter, CallsAfter, OnWorker, StatesAfter, TimersAfter, SemsAfter, Appended;
  }

  lemma DelEventObeys(s: State, actor: Actor, slot: Slot)
    requires slot in s.waiters
    ensures Obeys(s, Do(actor, DelEvent(slot)), DoDelEvent(s, slot))
  {
    hide Obeys, DoDelEvent;
    if s.waiters[slot].Plain? || s.waiters[slot].Timeout? {
      DelCallObeys(s, actor, slot);
    } else {
      DelFiberObeys(s, actor, slot);
    }
  }

  lemma ScheduleNewObeys(s: State, actor: Actor, f: Fiber, thread: int)
    requires f !in s.fibers
    ensures Obeys(s, Do(actor, ScheduleFiber(f, thread)), ApplyAct(s, ScheduleFiber(f, thread)))
  {
    ActKeeps(s, actor, ScheduleFiber(f, thread));
    hide WorkersAfter, LeavingAfter, CallsAfter, OnWorker, SemsAfter, TimersAfter, WaitersAfter, EndedNow;
  }

  lemma ScheduleAgainObeys(s: State, actor: Actor, f: Fiber, thread: int)
    requires f in s.fibers && ActEnabled(s, ScheduleFiber(f, thread))
    ensures Obeys(s, Do(actor, ScheduleFiber(f, thread)), ApplyAct(s, ScheduleFiber(f, thread)))
  {
    ActKeeps(s, actor, ScheduleFiber(f, thread));
    hide WorkersAfter, LeavingAfter, CallsAfter, OnWorker, SemsAfter, TimersAfter, WaitersAfter, EndedNow;
  }

  lemma ScheduleObeys(s: State, actor: Actor, f: Fiber, thread: int)
    requires ActEnabled(s, ScheduleFiber(f, thread))
    ensures Obeys(s, Do(actor, ScheduleFiber(f, thread)), ApplyAct(s, ScheduleFiber(f, thread)))
  {
    hide Obeys, ApplyAct;
    if f in s.fibers { ScheduleAgainObeys(s, actor, f, thread); } else { ScheduleNewObeys(s, actor, f, thread); }
  }

  lemma TimerActObeys(s: State, actor: Actor, act: Act)
    requires ActEnabled(s, act) && (act.AddTimer? || act.CancelTimer?)
    ensures Obeys(s, Do(actor, act), ApplyAct(s, act))
  {
    ActKeeps(s, actor, act);
    hide WorkersAfter, LeavingAfter, CallsAfter, OnWorker, StatesAfter, SemsAfter, WaitersAfter, Appended;
  }

  lemma EventActObeys(s: State, actor: Actor, act: Act)
    requires ActEnabled(s, act) && (act.AddEvent? || act.CancelEvent?)
    ensures Obeys(s, Do(actor, act), ApplyAct(s, act))
  {
    ActKeeps(s, actor, act);
    hide WorkersAfter, LeavingAfter, CallsAfter, OnWorker, StatesAfter, SemsAfter, TimersAfter, EndedNow;
  }

  lemma PlainActObeys(s: State, actor: Actor, act: Act)
    requires act.ScheduleCall? || (act.MakeSem? && act.sem !in s.sems) || act.Stop?
    ensures Obeys(s, Do(actor, act), ApplyAct(s, act))
  {
    ActKeeps(s, actor, act);
    hide WorkersAfter, LeavingAfter, CallsAfter, OnWorker, StatesAfter, TimersAfter, WaitersAfter, EndedNow;
  }

  lemma ActObeys(s: State, actor: Actor, act: Act)
    requires ActEnabled(s, act)
    ensures Obeys(s, Do(actor, act), ApplyAct(s, act))
  {
    hide Obeys, DoNotify, DoDelEvent, OwnArmed;
    match act
    case Notify(q) => NotifyObeys(s, actor, q);
    case DelEvent(slot) => DelEventObeys(s, actor, slot);
    case ScheduleFiber(f, thread) => ScheduleObeys(s, actor, f, thread);
    case AddTimer => TimerActObeys(s, actor, act);
    case CancelTimer(_) => TimerActObeys(s, actor, act);
    case AddEvent(_) => EventActObeys(s, actor, act);
    case CancelEvent(_) => EventActObeys(s, actor, act);
    case _ => PlainActObeys(s, actor, act);
  }

  lemma TaskObeys(s: State, step: Step, s': State)
    requires Next(s, step, s')
    requires step.Pick? || step.SwapIn? || step.DropDead? || step.StartCall? || step.DoWake? || step.Mark?
          || step.Cancel?
    ensures Obeys(s, step, s')
  {
    hide Obeys, DoPick, DoSwapIn, DoDropDead, DoStartCall, DoDoWake, DoMark, DoCancel, DoFinish, DoYieldReady;
    hide DoYieldHold, DoSwitchOut, DoSettle, DoCollect, DoScheduleCollected, DoBeginIo, DoArmIo, DoParkIo, DoResumeIo;
    hide DoSleep, DoSemWait, DoSwitchTo, Deliver, ApplyAct, Stopping, SetWorker;
    match step
    case Pick(w) => PickObeys(s, w);
    case SwapIn(w) => SwapInObeys(s, w);
    case DropDead(w) => DropDeadObeys(s, w);
    case StartCall(w, c) => StartObeys(s, w, c);
    case DoWake(w) => WakeObeys(s, w);
    case Mark(w) => MarkObeys(s, w);
    case Cancel(w) => CancelObeys(s, w);
  }

  lemma CallObeys(s: State, step: Step, s': State)
    requires Next(s, step, s')
    requires step.BeginIo? || step.ArmIo? || step.ParkIo? || step.ResumeIo? || step.EndIo?
    ensures Obeys(s, step, s')
  {
    hide Obeys, DoPick, DoSwapIn, DoDropDead, DoStartCall, DoDoWake, DoMark, DoCancel, DoFinish, DoYieldReady;
    hide DoYieldHold, DoSwitchOut, DoSettle, DoCollect, DoScheduleCollected, DoBeginIo, DoArmIo, DoParkIo, DoResumeIo;
    hide DoSleep, DoSemWait, DoSwitchTo, Deliver, ApplyAct, Stopping, SetWorker, Choice, Finished;
    match step
    case BeginIo(w, slot) => BeginIoObeys(s, w, slot);
    case ArmIo(w) => ArmIoObeys(s, w);
    case ParkIo(w) => ParkIoObeys(s, w);
    case ResumeIo(w) => ResumeIoObeys(s, w);
    case EndIo(w) => EndIoObeys(s, w);
  }

  lemma WaitObeys(s: State, step: Step, s': State)
    requires Next(s, step, s') && (step.Sleep? || step.SemWait? || step.SwitchTo? || step.Dispatch? || step.Collect?)
    ensures Obeys(s, step, s')
  {
    hide Obeys, DoPick, DoSwapIn, DoDropDead, DoStartCall, DoDoWake, DoMark, DoCancel, DoFinish, DoYieldReady;
    hide DoYieldHold, DoSwitchOut, DoSettle, DoCollect, DoScheduleCollected, DoBeginIo, DoArmIo, DoParkIo, DoResumeIo;
    hide DoSleep, DoSemWait, DoSwitchTo, Deliver, ApplyAct, Stopping, SetWorker, Choice, Finished;
    match step
    case Sleep(w) => SleepObeys(s, w);
    case SemWait(w, q) => SemWaitObeys(s, w, q);
    case SwitchTo(w, thread) => SwitchToObeys(s, w, thread);
    case Dispatch(w, slot) => DispatchObeys(s, w, slot);
    case Collect(w, timer) => CollectObeys(s, w, timer);
  }

  lemma OtherObeys(s: State, step: Step, s': State)
    requires Next(s, step, s')
    requires step.Finish? || step.YieldReady? || step.YieldHold? || step.SwitchOut? || step.Settle?
          || step.ScheduleCollected? || step.Do?
    ensures Obeys(s, step, s')
  {
    hide Obeys, DoPick, DoSwapIn, DoDropDead, DoStartCall, DoDoWake, DoMark, DoCancel, DoFinish, DoYieldReady;
    hide DoYieldHold, DoSwitchOut, DoSettle, DoCollect, DoScheduleCollected, DoBeginIo, DoArmIo, DoParkIo, DoResumeIo;
    hide DoSleep, DoSemWait, DoSwitchTo, Deliver, ApplyAct, ActEnabled, Stopping, SetWorker, Choice;
    match step
    case Finish(w, ok) => FinishObeys(s, w, ok);
    case YieldReady(w) => YieldReadyObeys(s, w);
    case YieldHold(w) => YieldHoldObeys(s, w);
    case SwitchOut(w) => SwitchOutObeys(s, w);
    case Settle(w) => SettleObeys(s, w);
    case ScheduleCollected(w) => ScheduleCollectedObeys(s, w);
    case Do(actor, act) => ActObeys(s, actor, act);
  }

  /** Every step does to each of these fields just what is told here. */
  lemma StepObeys(s: State, step: Step, s': State)
    requires Next(s, step, s')
    ensures Obeys(s, step, s')
  {
    hide Next, Obeys;
    if step.EnterIdle? || step.ExitWorker? || step.IdleYield? || step.IdleExit? {
      IdleObeys(s, step, s');
    } else if step.Pick? || step.SwapIn? || step.DropDead? || step.StartCall? || step.DoWake? || step.Mark?
           || step.Cancel? {
      TaskObeys(s, step, s');
    } else if step.BeginIo? || step.ArmIo? || step.ParkIo? || step.ResumeIo? || step.EndIo? {
      CallObeys(s, step, s');
    } else if step.Sleep? || step.SemWait? || step.SwitchTo? || step.Dispatch? || step.Collect? {
      WaitObeys(s, step, s');
    } else {
      OtherObeys(s, step, s');
    }
  }
}
