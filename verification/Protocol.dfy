/** The scheduler, its fibers, the I/O event slots, timers and semaphores as one state machine.
    Workers run Scheduler::run; a fiber that parks leaves its wake-up in an event slot, a timer, a
    semaphore's list or the task list before it yields. */
module Protocol {
  import opened Common
  import opened RunQueues

  type Thread = int

  /** Where a worker is in run. */
  datatype Pc =
    | Scanning                                   // at the top of the loop
    | Holding(entry: Entry)                      // took an entry, has not switched to it yet
    | Running(fiber: Fiber, onCall: bool, todo: Option<Job>)
      // inside a fiber; onCall: it is the worker's own callback fiber; todo: a framework callback
      // that has not acted yet
    | HalfOut(fiber: Fiber, ready: bool)
      // still on the fiber's stack, the fiber's state being READY or HOLD already
    | Back(fiber: Fiber, ready: bool)
      // swapIn has returned and the worker counts as inactive; the fiber is not settled yet
    | Idling(batch: seq<Job>)
      // inside its idle fiber; batch: expired callbacks it has collected and not scheduled yet
    | Exited

  /** kept: the callback fiber a worker holds on to for reuse; idleDone: its idle fiber has ended. */
  datatype Worker = Worker(pc: Pc, kept: Option<Fiber>, idleDone: bool)

  datatype Sem = Sem(count: int, waiting: seq<Fiber>)

  /** A fiber inside do_io or connect_with_timeout: its timer_info, what it waits for and its timer. */
  datatype IoCall = IoCall(info: int, slot: Slot, timer: Option<int>, waiting: bool)

  /** What a wake-up or callback is filed under, and the places it can be. */
  datatype Key = OfFiber(fiber: Fiber) | OfCall(id: int)
  datatype Place =
    | InQueue
    | InSlot(slot: Slot)
    | InTimer(timer: int)
    | InSem(sem: int)
    | InHand(worker: Thread)
    | InCall(worker: Thread)    // a callback that is running but has not acted yet
    | InBatch(worker: Thread)
    | InReturn(worker: Thread)  // a READY fiber that the worker leaves and will put back on the list
    | Kept(worker: Thread)

  function KeyOf(job: Job): Key
  {
    match job
    case Resume(f) => OfFiber(f)
    case Wake(f) => OfFiber(f)
    case Timeout(id, _, _, _) => OfCall(id)
    case Plain(id) => OfCall(id)
  }

  datatype State = State(
    fibers: map<Fiber, FiberState>,
    leaving: set<Fiber>,            // executing fibers that have placed their wake-up and will yield next
    queue: seq<Entry>,
    workers: map<Thread, Worker>,
    waiters: map<Slot, Job>,        // who waits on each registered event
    timers: map<int, Job>,          // armed timers and their callbacks
    sems: map<int, Sem>,
    io: map<Fiber, IoCall>,
    timedOut: set<int>,             // timer_infos whose cancelled field is set
    cancelling: set<Thread>,        // workers whose timeout callback has set it and cancels the event next
    active: int,                    // m_activeThreadCount
    idle: int,                      // m_idleThreadCount
    pending: int,                   // m_pendingEventCount
    autoStop: bool,
    stopping: bool,
    nextId: int,
    // history, read by no step's guard
    place: map<Key, Place>,         // where each wake-up or callback is
    host: map<Fiber, Thread>,       // which worker executes each EXEC fiber
    calls: map<int, Job>,           // every callback accepted so far
    ended: set<int>,                // callbacks that were started, cancelled or dropped
    dropped: set<Fiber>)            // fibers whose waiter delEvent threw away

  /** All workers at the top of run, nothing accepted yet, start() done. */
  ghost predicate Init(s: State)
  {
    && (forall w :: w in s.workers ==> s.workers[w] == Worker(Scanning, None, false))
    && s.fibers == map[] && s.leaving == {} && s.queue == [] && s.waiters == map[] && s.timers == map[]
    && s.sems == map[]
    && s.io == map[] && s.timedOut == {} && s.cancelling == {} && s.active == 0 && s.idle == 0 && s.pending == 0
    && !s.autoStop && !s.stopping
    && s.place == map[] && s.host == map[] && s.calls == map[] && s.ended == {} && s.dropped == {}
  }

  /** IOManager::stopping as one snapshot. */
  predicate Stopping(s: State)
  {
    && s.timers == map[] && s.pending == 0
    && s.autoStop && s.stopping && s.queue == [] && s.active == 0
  }

  // ---- building blocks ---------------------------------------------------------------------

  function SetWorker(s: State, w: Thread, worker: Worker): State
  {
    s.(workers := s.workers[w := worker])
  }

  /** schedule(job, thread). */
  function Enqueue(s: State, job: Job, thread: int): State
  {
    s.(queue := s.queue + [Entry(job, thread)], place := s.place[KeyOf(job) := InQueue])
  }

  function Move(s: State, k: Key, p: Place): State
  {
    s.(place := s.place[k := p])
  }

  function Forget(s: State, k: Key): State
  {
    s.(place := s.place - {k})
  }

  /** triggerEvent: the slot is emptied and its waiter goes to the task list. */
  function Deliver(s: State, slot: Slot): State
    requires slot in s.waiters
  {
    Enqueue(s.(waiters := s.waiters - {slot}, pending := s.pending - 1), s.waiters[slot], -1)
  }

  /** cancelEvent: delivers when somebody waits. */
  function CancelSlot(s: State, slot: Slot): State
  {
    if slot in s.waiters then Deliver(s, slot) else s
  }

  /** The fiber f on w stops executing; worker is what w goes on with. */
  function SwapOut(s: State, w: Thread, f: Fiber, state: FiberState, worker: Worker): State
  {
    s.(fibers := s.fibers[f := state], host := s.host - {f}, workers := s.workers[w := worker])
  }

  function SwapInto(s: State, w: Thread, f: Fiber, worker: Worker): State
  {
    s.(fibers := s.fibers[f := EXEC], host := s.host[f := w], workers := s.workers[w := worker])
  }

  function Accept(s: State, job: Job): State
    requires job.Timeout? || job.Plain?
  {
    s.(calls := s.calls[job.id := job], nextId := s.nextId + 1)
  }

  // ---- steps ---------------------------------------------------------------------------------

  /** Who does something any code may do: a thread outside the scheduler, or the fiber on a worker. */
  datatype Actor = Outside | By(worker: Thread)

  datatype Act =
    | ScheduleFiber(fiber: Fiber, thread: int)
    | ScheduleCall(thread: int)
    | AddTimer
    | CancelTimer(timer: int)
    | AddEvent(slot: Slot)
    | DelEvent(slot: Slot)
    | CancelEvent(slot: Slot)
    | Notify(sem: int)
    | MakeSem(sem: int, count: nat)
    | Stop

  datatype Step =
    | Pick(w: Thread)
    | EnterIdle(w: Thread)
    | ExitWorker(w: Thread)
    | SwapIn(w: Thread)
    | DropDead(w: Thread)
    | StartCall(w: Thread, callFiber: Fiber)
    | DoWake(w: Thread)
    | Mark(w: Thread)
    | Cancel(w: Thread)
    | Finish(w: Thread, ok: bool)
    | YieldReady(w: Thread)
    | YieldHold(w: Thread)
    | SwitchOut(w: Thread)
    | Settle(w: Thread)
    | BeginIo(w: Thread, slot: Slot)
    | ArmIo(w: Thread)
    | ParkIo(w: Thread)
    | ResumeIo(w: Thread)
    | EndIo(w: Thread)
    | Sleep(w: Thread)
    | SemWait(w: Thread, sem: int)
    | SwitchTo(w: Thread, thread: int)
    | IdleYield(w: Thread)
    | IdleExit(w: Thread)
    | Dispatch(w: Thread, slot: Slot)
    | Collect(w: Thread, timer: int)
    | ScheduleCollected(w: Thread)
    | Do(actor: Actor, act: Act)

  predicate At(s: State, w: Thread, pc: Pc)
  {
    w in s.workers && s.workers[w].pc == pc
  }

  /** The fiber on w is free to run its own code. */
  predicate Executes(s: State, w: Thread)
  {
    w in s.workers && s.workers[w].pc.Running? && s.workers[w].pc.todo == None && s.workers[w].pc.fiber !in s.leaving
  }

  predicate Acts(s: State, w: Thread)
  {
    Executes(s, w) && s.workers[w].pc.fiber !in s.io
  }

  predicate InIo(s: State, w: Thread, waiting: bool)
  {
    Executes(s, w) && s.workers[w].pc.fiber in s.io && s.io[s.workers[w].pc.fiber].waiting == waiting
  }

  /** The fiber on w has placed its wake-up and yields next. */
  predicate WillYield(s: State, w: Thread)
  {
    w in s.workers && s.workers[w].pc.Running? && s.workers[w].pc.todo == None && s.workers[w].pc.fiber in s.leaving
  }

  /** The worker has yet to finish leaving fiber f. */
  predicate Leaves(s: State, w: Thread, f: Fiber)
  {
    w in s.workers && (s.workers[w].pc.HalfOut? || s.workers[w].pc.Back?) && s.workers[w].pc.fiber == f
  }

  predicate IsBack(s: State, w: Thread)
  {
    w in s.workers && s.workers[w].pc.Back?
  }

  predicate HasBatch(s: State, w: Thread)
  {
    w in s.workers && s.workers[w].pc.Idling? && s.workers[w].pc.batch != []
  }

  predicate HoldsFiber(s: State, w: Thread)
  {
    w in s.workers && s.workers[w].pc.Holding? && s.workers[w].pc.entry.job.Resume?
  }

  predicate HoldsCall(s: State, w: Thread)
  {
    w in s.workers && s.workers[w].pc.Holding? && !s.workers[w].pc.entry.job.Resume?
  }

  predicate HasTodo(s: State, w: Thread)
  {
    w in s.workers && s.workers[w].pc.Running? && s.workers[w].pc.todo.Some?
  }

  function Choice(s: State, w: Thread): Option<nat>
  {
    PickFrom(s.queue, w, s.fibers, 0)
  }

  predicate Finished(s: State, f: Fiber)
  {
    f in s.fibers && (s.fibers[f] == TERM || s.fibers[f] == EXCEPT)
  }

  predicate ActEnabled(s: State, act: Act)
  {
    match act
    case ScheduleFiber(f, _) => f !in s.fibers || (Finished(s, f) && OfFiber(f) !in s.place)
    case ScheduleCall(_) => true
    case AddTimer => true
    case CancelTimer(t) => t in s.timers && s.timers[t].Plain?
    case AddEvent(slot) => slot !in s.waiters
    case DelEvent(slot) => slot in s.waiters
    case CancelEvent(slot) => slot in s.waiters
    case Notify(q) => q in s.sems
    case MakeSem(q, _) => q !in s.sems
    case Stop => true
  }

  // ---- what each step does ---------------------------------------------------------------------

  /** Takes the first eligible entry: erased and counted under one lock. */
  function DoPick(s: State, w: Thread): State
    requires At(s, w, Scanning) && Choice(s, w).Some?
  {
    var i := Choice(s, w).value;
    var e := s.queue[i];
    SetWorker(s.(queue := Without(s.queue, i), active := s.active + 1, place := s.place[KeyOf(e.job) := InHand(w)]),
              w, s.workers[w].(pc := Holding(e)))
  }

  function DoSwapIn(s: State, w: Thread): State
    requires HoldsFiber(s, w)
  {
    var f := s.workers[w].pc.entry.job.fiber;
    SwapInto(Forget(s, OfFiber(f)), w, f, s.workers[w].(pc := Running(f, false, None)))
  }

  /** A finished fiber was scheduled again: the entry is thrown away. */
  function DoDropDead(s: State, w: Thread): State
    requires HoldsFiber(s, w)
  {
    var f := s.workers[w].pc.entry.job.fiber;
    SetWorker(Forget(s.(active := s.active - 1), OfFiber(f)), w, s.workers[w].(pc := Scanning))
  }

  /** A callback starts on the worker's callback fiber, kept from before or made now. */
  function DoStartCall(s: State, w: Thread, c: Fiber): State
    requires HoldsCall(s, w)
  {
    var k := s.workers[w];
    var job := k.pc.entry.job;
    if job.Plain? then
      SwapInto(Forget(Forget(s, OfFiber(c)), KeyOf(job)).(ended := s.ended + {job.id}), w, c,
               Worker(Running(c, true, None), None, k.idleDone))
    else
      SwapInto(Move(Forget(s, OfFiber(c)), KeyOf(job), InCall(w)), w, c,
               Worker(Running(c, true, Some(job)), None, k.idleDone))
  }

  function DoDoWake(s: State, w: Thread): State
    requires HasTodo(s, w) && s.workers[w].pc.todo.value.Wake?
  {
    var k := s.workers[w];
    SetWorker(Enqueue(s, Resume(k.pc.todo.value.fiber), -1), w, k.(pc := k.pc.(todo := None)))
  }

  /** Some do_io still waits with this timer_info. */
  predicate Live(s: State, info: int)
  {
    exists f :: f in s.io && s.io[f].info == info
  }

  /** The timeout callback begins: unless its do_io is over or already timed out, it marks the timer_info. */
  function DoMark(s: State, w: Thread): State
    requires HasTodo(s, w) && s.workers[w].pc.todo.value.Timeout?
  {
    var t := s.workers[w].pc.todo.value;
    if Live(s, t.info) && t.info !in s.timedOut then
      s.(timedOut := s.timedOut + {t.info}, cancelling := s.cancelling + {w})
    else CallOver(s, w)
  }

  /** The timeout callback on w returns. */
  function CallOver(s: State, w: Thread): State
    requires HasTodo(s, w) && s.workers[w].pc.todo.value.Timeout?
  {
    var k := s.workers[w];
    var t := k.pc.todo.value;
    SetWorker(Forget(s, OfCall(t.id)).(ended := s.ended + {t.id}, cancelling := s.cancelling - {w}),
              w, k.(pc := k.pc.(todo := None)))
  }

  /** Having marked it, the callback cancels the event. */
  function DoCancel(s: State, w: Thread): State
    requires HasTodo(s, w) && s.workers[w].pc.todo.value.Timeout?
  {
    var t := s.workers[w].pc.todo.value;
    CallOver(CancelSlot(s, Slot(t.fd, t.event)), w)
  }

  /** The fiber's function returned or threw. A worker keeps its callback fiber, reset for reuse. */
  function DoFinish(s: State, w: Thread, ok: bool): State
    requires Acts(s, w)
  {
    var k := s.workers[w];
    var f := k.pc.fiber;
    var s1 := s.(active := s.active - 1);
    if k.pc.onCall then
      Move(SwapOut(s1, w, f, INIT, Worker(Scanning, Some(f), k.idleDone)), OfFiber(f), Kept(w))
    else SwapOut(s1, w, f, if ok then TERM else EXCEPT, k.(pc := Scanning))
  }

  /** The yields set the fiber's state first; the worker is still on its stack. */
  function DoYieldReady(s: State, w: Thread): State
    requires Acts(s, w)
  {
    var f := s.workers[w].pc.fiber;
    Move(SwapOut(s, w, f, READY, s.workers[w].(pc := HalfOut(f, true))), OfFiber(f), InReturn(w))
  }

  function DoYieldHold(s: State, w: Thread): State
    requires WillYield(s, w)
  {
    var f := s.workers[w].pc.fiber;
    SwapOut(s.(leaving := s.leaving - {f}), w, f, HOLD, s.workers[w].(pc := HalfOut(f, false)))
  }

  /** swapOut has saved the context, swapIn returns, and the worker counts itself inactive. */
  function DoSwitchOut(s: State, w: Thread): State
    requires w in s.workers && s.workers[w].pc.HalfOut?
  {
    var pc := s.workers[w].pc;
    SetWorker(s.(active := s.active - 1), w, s.workers[w].(pc := Back(pc.fiber, pc.ready)))
  }

  /** The worker looks at the state the fiber was left in: READY goes back on the list, anything else that
      has not finished is put on HOLD. */
  function DoSettle(s: State, w: Thread): State
    requires IsBack(s, w) && s.workers[w].pc.fiber in s.fibers
  {
    var f := s.workers[w].pc.fiber;
    var worker := s.workers[w].(pc := Scanning);
    if s.fibers[f] == READY then Enqueue(SetWorker(s, w, worker), Resume(f), -1) else SettleHold(s, w, f, worker)
  }

  function SettleHold(s: State, w: Thread, f: Fiber, worker: Worker): State
  {
    SetWorker(s.(fibers := if Finished(s, f) then s.fibers else s.fibers[f := HOLD]), w, worker)
  }

  /** do_io or connect_with_timeout is called: it makes its timer_info. */
  function DoBeginIo(s: State, w: Thread, slot: Slot): State
    requires Acts(s, w)
  {
    s.(io := s.io[s.workers[w].pc.fiber := IoCall(s.nextId, slot, None, false)], nextId := s.nextId + 1)
  }

  /** Arms a timer for a timeout callback; its id is the next one. */
  function Arm(s: State, slot: Slot, info: int): State
  {
    var job := Timeout(s.nextId, slot.fd, slot.event, info);
    Accept(s, job).(timers := s.timers[job.id := job], place := s.place[OfCall(job.id) := InTimer(job.id)])
  }

  /** It found nothing to read or write, and arms the timer of its next wait. */
  function DoArmIo(s: State, w: Thread): State
    requires InIo(s, w, false)
  {
    var f := s.workers[w].pc.fiber;
    Arm(s, s.io[f].slot, s.io[f].info).(io := s.io[f := s.io[f].(timer := Some(s.nextId))])
  }

  /** It registers for its event and is about to yield. */
  function DoParkIo(s: State, w: Thread): State
    requires InIo(s, w, false)
  {
    var f := s.workers[w].pc.fiber;
    var call := s.io[f].(waiting := true);
    s.(waiters := s.waiters[call.slot := Resume(f)], pending := s.pending + 1,
       place := s.place[OfFiber(f) := InSlot(call.slot)], io := s.io[f := call], leaving := s.leaving + {f})
  }

  /** Takes an armed callback timer out of the set. */
  function Disarm(s: State, t: int): State
    requires t in s.timers && KeyOf(s.timers[t]).OfCall?
  {
    var k := KeyOf(s.timers[t]);
    Forget(s.(timers := s.timers - {t}, ended := s.ended + {k.id}), k)
  }

  /** Back from the yield: cancels the timer if it is still armed, then fails if timed out or retries. */
  function DoResumeIo(s: State, w: Thread): State
    requires InIo(s, w, true)
  {
    var f := s.workers[w].pc.fiber;
    var c := s.io[f];
    var s1 := if c.timer.Some? && c.timer.value in s.timers && s.timers[c.timer.value].Timeout?
              then Disarm(s, c.timer.value) else s;
    s1.(io := if c.info in s.timedOut then s.io - {f} else s.io[f := c.(timer := None, waiting := false)])
  }

  function DoSleep(s: State, w: Thread): State
    requires Acts(s, w)
  {
    var f := s.workers[w].pc.fiber;
    s.(timers := s.timers[s.nextId := Wake(f)], place := s.place[OfFiber(f) := InTimer(s.nextId)],
       nextId := s.nextId + 1, leaving := s.leaving + {f})
  }

  /** switchTo(thread) on another thread: the fiber queues itself while it still executes. */
  function DoSwitchTo(s: State, w: Thread, thread: int): State
    requires Acts(s, w)
  {
    var f := s.workers[w].pc.fiber;
    Enqueue(s.(leaving := s.leaving + {f}), Resume(f), thread)
  }

  function DoSemWait(s: State, w: Thread, q: int): State
    requires Acts(s, w) && q in s.sems
  {
    var f, sem := s.workers[w].pc.fiber, s.sems[q];
    if sem.count > 0 then s.(sems := s.sems[q := sem.(count := sem.count - 1)])
    else s.(sems := s.sems[q := sem.(waiting := sem.waiting + [f])],
            place := s.place[OfFiber(f) := InSem(q)], leaving := s.leaving + {f})
  }

  function DoNotify(s: State, q: int): State
    requires q in s.sems
  {
    var sem := s.sems[q];
    if sem.waiting != [] then
      Enqueue(s.(sems := s.sems[q := sem.(waiting := sem.waiting[1..])]), Resume(sem.waiting[0]), -1)
    else s.(sems := s.sems[q := sem.(count := sem.count + 1)])
  }

  /** delEvent throws the waiter away. */
  function DoDelEvent(s: State, slot: Slot): State
    requires slot in s.waiters
  {
    var job := s.waiters[slot];
    var s1 := Forget(s.(waiters := s.waiters - {slot}, pending := s.pending - 1), KeyOf(job));
    match KeyOf(job)
    case OfFiber(f) => s1.(dropped := s.dropped + {f})
    case OfCall(id) => s1.(ended := s.ended + {id})
  }

  function ApplyAct(s: State, act: Act): State
    requires ActEnabled(s, act)
  {
    match act
    case ScheduleFiber(f, thread) =>
      Enqueue(if f in s.fibers then s else s.(fibers := s.fibers[f := INIT]), Resume(f), thread)
    case ScheduleCall(thread) =>
      Enqueue(Accept(s, Plain(s.nextId)), Plain(s.nextId), thread)
    case AddTimer =>
      Accept(s, Plain(s.nextId)).(timers := s.timers[s.nextId := Plain(s.nextId)],
                                  place := s.place[OfCall(s.nextId) := InTimer(s.nextId)])
    case CancelTimer(t) => Disarm(s, t)
    case AddEvent(slot) =>
      Accept(s, Plain(s.nextId)).(waiters := s.waiters[slot := Plain(s.nextId)], pending := s.pending + 1,
                                  place := s.place[OfCall(s.nextId) := InSlot(slot)])
    case DelEvent(slot) => DoDelEvent(s, slot)
    case CancelEvent(slot) => Deliver(s, slot)
    case Notify(q) => DoNotify(s, q)
    case MakeSem(q, count) => s.(sems := s.sems[q := Sem(count, [])])
    case Stop => s.(autoStop := true, stopping := true)
  }

  /** listExpiredCb takes a due timer out of the set; its callback waits in the worker's own list. */
  function DoCollect(s: State, w: Thread, timer: int): State
    requires w in s.workers && s.workers[w].pc.Idling? && timer in s.timers
  {
    var job := s.timers[timer];
    SetWorker(Move(s.(timers := s.timers - {timer}), KeyOf(job), InBatch(w)),
              w, s.workers[w].(pc := Idling(s.workers[w].pc.batch + [job])))
  }

  /** schedule(begin, end): the collected callbacks go on the list, in order. */
  function DoScheduleCollected(s: State, w: Thread): State
    requires w in s.workers && s.workers[w].pc.Idling?
    decreases |s.workers[w].pc.batch|
  {
    if HasBatch(s, w) then DoScheduleCollected(ScheduleFirst(s, w), w) else s
  }

  /** A single callback is scheduled at once. */
  lemma OneCollected(s: State, w: Thread)
    requires HasBatch(s, w) && |s.workers[w].pc.batch| == 1
    ensures DoScheduleCollected(s, w) == ScheduleFirst(s, w)
  {
    assert !HasBatch(ScheduleFirst(s, w), w);
  }

  function ScheduleFirst(s: State, w: Thread): State
    requires HasBatch(s, w)
  {
    var batch := s.workers[w].pc.batch;
    SetWorker(Enqueue(s, batch[0], -1), w, s.workers[w].(pc := Idling(batch[1..])))
  }

  /** One step of one worker, or of anyone else. */
  ghost predicate Next(s: State, step: Step, s': State)
  {
    match step
    case Pick(w) => At(s, w, Scanning) && Choice(s, w).Some? && s' == DoPick(s, w)
    case EnterIdle(w) =>
      && At(s, w, Scanning) && Choice(s, w).None? && !s.workers[w].idleDone
      && s' == SetWorker(s.(idle := s.idle + 1), w, s.workers[w].(pc := Idling([])))
    case ExitWorker(w) =>
      && At(s, w, Scanning) && Choice(s, w).None? && s.workers[w].idleDone
      && s' == SetWorker(s, w, s.workers[w].(pc := Exited))
    case SwapIn(w) =>
      HoldsFiber(s, w) && !Finished(s, s.workers[w].pc.entry.job.fiber) && s' == DoSwapIn(s, w)
    case DropDead(w) =>
      HoldsFiber(s, w) && Finished(s, s.workers[w].pc.entry.job.fiber) && s' == DoDropDead(s, w)
    case StartCall(w, c) =>
      && HoldsCall(s, w)
      && (if s.workers[w].kept.Some? then c == s.workers[w].kept.value else c !in s.fibers)
      && s' == DoStartCall(s, w, c)
    case DoWake(w) => HasTodo(s, w) && s.workers[w].pc.todo.value.Wake? && s' == DoDoWake(s, w)
    case Mark(w) =>
      HasTodo(s, w) && s.workers[w].pc.todo.value.Timeout? && w !in s.cancelling && s' == DoMark(s, w)
    case Cancel(w) =>
      HasTodo(s, w) && s.workers[w].pc.todo.value.Timeout? && w in s.cancelling && s' == DoCancel(s, w)
    case Finish(w, ok) => Acts(s, w) && s' == DoFinish(s, w, ok)
    case YieldReady(w) => Acts(s, w) && s' == DoYieldReady(s, w)
    case YieldHold(w) => WillYield(s, w) && s' == DoYieldHold(s, w)
    case SwitchOut(w) => w in s.workers && s.workers[w].pc.HalfOut? && s' == DoSwitchOut(s, w)
    case Settle(w) => IsBack(s, w) && s.workers[w].pc.fiber in s.fibers && s' == DoSettle(s, w)
    case BeginIo(w, slot) => Acts(s, w) && s' == DoBeginIo(s, w, slot)
    case ArmIo(w) => InIo(s, w, false) && s.io[s.workers[w].pc.fiber].timer == None && s' == DoArmIo(s, w)
    case ParkIo(w) =>
      InIo(s, w, false) && s.io[s.workers[w].pc.fiber].slot !in s.waiters && s' == DoParkIo(s, w)
    case ResumeIo(w) => InIo(s, w, true) && s' == DoResumeIo(s, w)
    case EndIo(w) =>
      && InIo(s, w, false) && s.io[s.workers[w].pc.fiber].timer == None
      && s' == s.(io := s.io - {s.workers[w].pc.fiber})
    case Sleep(w) => Acts(s, w) && s' == DoSleep(s, w)
    case SemWait(w, q) => Acts(s, w) && q in s.sems && s' == DoSemWait(s, w, q)
    case SwitchTo(w, thread) => Acts(s, w) && thread != -1 && thread != w && s' == DoSwitchTo(s, w, thread)
    case IdleYield(w) =>
      At(s, w, Idling([])) && s' == SetWorker(s.(idle := s.idle - 1), w, s.workers[w].(pc := Scanning))
    case IdleExit(w) =>
      && At(s, w, Idling([])) && Stopping(s)
      && s' == SetWorker(s.(idle := s.idle - 1), w, s.workers[w].(pc := Scanning, idleDone := true))
    case Dispatch(w, slot) => At(s, w, Idling([])) && slot in s.waiters && s' == Deliver(s, slot)
    case Collect(w, t) => w in s.workers && s.workers[w].pc.Idling? && t in s.timers && s' == DoCollect(s, w, t)
    case ScheduleCollected(w) => HasBatch(s, w) && s' == DoScheduleCollected(s, w)
    case Do(actor, act) => (actor == Outside || Acts(s, actor.worker)) && ActEnabled(s, act) && s' == ApplyAct(s, act)
  }

  /** The step switches to a fiber that another worker has not finished leaving: the code allows it, the
      fiber being HOLD already. */
  ghost predicate TakesLeft(s: State, step: Step)
  {
    step.SwapIn? && HoldsFiber(s, step.w) && exists v :: Leaves(s, v, s.workers[step.w].pc.entry.job.fiber)
  }

  /** The sequence of states a sequence of steps leads through. */
  ghost predicate Run(states: seq<State>, steps: seq<Step>)
  {
    && |states| == |steps| + 1
    && Init(states[0])
    && forall i :: 0 <= i < |steps| ==> Next(states[i], steps[i], states[i + 1])
  }

  /** A run in which no worker switches to a fiber that another has not finished leaving. */
  ghost predicate SoundRun(states: seq<State>, steps: seq<Step>)
  {
    Run(states, steps) && forall i :: 0 <= i < |steps| ==> !TakesLeft(states[i], steps[i])
  }
}
