/** A run in which a time limit gets lost: two workers, one fiber reading with a timeout. Its first
    timeout expires together with the event; the event wins, but the timeout callback, already queued,
    marks and cancels on the other worker just before the fiber registers again. */
module LostLimit {
  import opened Common
  import opened RunQueues
  import opened Protocol
  import opened Reaching
  import opened Safety
  import opened TimeLimits

  const READER: Fiber := 7
  const CALLER: Fiber := 8
  const SLOT := Slot(3, READ)

  /** Worker 1 is at a, worker 2 at b; the reader's state and everything that may wake it. */
  ghost predicate Snap(s: State, a: Pc, b: Pc, reader: FiberState, queue: seq<Entry>)
  {
    && Reachable(s)
    && s.workers.Keys == {1, 2} && s.workers[1] == Worker(a, None, false)
    && s.workers[2] == Worker(b, None, false)
    && READER in s.fibers && s.fibers[READER] == reader && (a.Running? || b.Running? || CALLER !in s.fibers)
    && s.queue == queue && (reader != EXEC ==> s.leaving == {}) && s.timedOut == {} && s.cancelling == {}
  }

  function TimeoutOf(n: int): Job { Timeout(n + 1, SLOT.fd, SLOT.event, n) }

  /** No event is registered, no timer armed, no do_io begun. */
  ghost predicate Plainly(s: State)
  {
    s.waiters == map[] && s.timers == map[] && s.io == map[]
  }

  /** The reader's first wait, its timer_info being n, with its event and its timer. */
  ghost predicate FirstWait(s: State, n: int, waiters: map<Slot, Job>, timers: map<int, Job>)
  {
    READER in s.io && s.io[READER] == IoCall(n, SLOT, Some(n + 1), true) && s.timers == timers && s.waiters == waiters
  }

  lemma Scheduled(s: State) returns (r: State)
    requires Init(s) && s.workers.Keys == {1, 2}
    ensures Snap(r, Scanning, Scanning, INIT, [Entry(Resume(READER), -1)]) && Plainly(r)
  {
    hide Reachable;
    Starting(s);
    Acting(s, ScheduleFiber(READER, -1));
    r := ApplyAct(s, ScheduleFiber(READER, -1));
  }

  lemma Started(s: State) returns (r: State)
    requires Snap(s, Scanning, Scanning, INIT, [Entry(Resume(READER), -1)]) && Plainly(s)
    ensures Snap(r, Running(READER, false, None), Scanning, EXEC, [])
    ensures Plainly(r) && r.leaving == {} && CALLER !in r.fibers
  {
    hide Reachable;
    Picking(s, 1);
    var s1 := DoPick(s, 1);
    SwappingIn(s1, 1);
    r := DoSwapIn(s1, 1);
  }

  lemma Begins(s: State) returns (r: State, n: int)
    requires Snap(s, Running(READER, false, None), Scanning, EXEC, [])
    requires Plainly(s) && s.leaving == {} && CALLER !in s.fibers
    ensures Snap(r, Running(READER, false, None), Scanning, EXEC, []) && r.leaving == {} && CALLER !in r.fibers
    ensures r.waiters == map[] && r.timers == map[] && r.nextId == n + 1
    ensures READER in r.io && r.io[READER] == IoCall(n, SLOT, None, false)
  {
    hide Reachable;
    n := s.nextId;
    Beginning(s, 1, SLOT);
    r := DoBeginIo(s, 1, SLOT);
  }

  lemma Arms(s: State, n: int) returns (r: State)
    requires Snap(s, Running(READER, false, None), Scanning, EXEC, []) && s.leaving == {} && CALLER !in s.fibers
    requires s.waiters == map[] && s.timers == map[] && s.nextId == n + 1
    requires READER in s.io && s.io[READER] == IoCall(n, SLOT, None, false)
    ensures Snap(r, Running(READER, false, None), Scanning, EXEC, []) && r.leaving == {} && CALLER !in r.fibers
    ensures r.waiters == map[] && r.timers == map[n + 1 := TimeoutOf(n)]
    ensures READER in r.io && r.io[READER] == IoCall(n, SLOT, Some(n + 1), false)
  {
    hide Reachable;
    Arming(s, 1);
    r := DoArmIo(s, 1);
  }

  lemma Parks(s: State, n: int) returns (r: State)
    requires Snap(s, Running(READER, false, None), Scanning, EXEC, []) && s.leaving == {} && CALLER !in s.fibers
    requires s.waiters == map[] && s.timers == map[n + 1 := TimeoutOf(n)]
    requires READER in s.io && s.io[READER] == IoCall(n, SLOT, Some(n + 1), false)
    ensures Snap(r, Running(READER, false, None), Scanning, EXEC, []) && r.leaving == {READER} && CALLER !in r.fibers
    ensures FirstWait(r, n, map[SLOT := Resume(READER)], map[n + 1 := TimeoutOf(n)])
  {
    hide Reachable;
    Parking(s, 1);
    r := DoParkIo(s, 1);
  }

  lemma Yields(s: State, n: int) returns (r: State)
    requires Snap(s, Running(READER, false, None), Scanning, EXEC, []) && s.leaving == {READER} && CALLER !in s.fibers
    requires FirstWait(s, n, map[SLOT := Resume(READER)], map[n + 1 := TimeoutOf(n)])
    ensures Snap(r, HalfOut(READER, false), Scanning, HOLD, [])
    ensures FirstWait(r, n, map[SLOT := Resume(READER)], map[n + 1 := TimeoutOf(n)])
  {
    hide Reachable;
    Yielding(s, 1);
    r := DoYieldHold(s, 1);
  }

  lemma SwitchesOut(s: State, n: int) returns (r: State)
    requires Snap(s, HalfOut(READER, false), Scanning, HOLD, [])
    requires FirstWait(s, n, map[SLOT := Resume(READER)], map[n + 1 := TimeoutOf(n)])
    ensures Snap(r, Back(READER, false), Scanning, HOLD, [])
    ensures FirstWait(r, n, map[SLOT := Resume(READER)], map[n + 1 := TimeoutOf(n)])
  {
    hide Reachable;
    SwitchingOut(s, 1);
    r := DoSwitchOut(s, 1);
  }

  lemma Settles(s: State, n: int) returns (r: State)
    requires Snap(s, Back(READER, false), Scanning, HOLD, [])
    requires FirstWait(s, n, map[SLOT := Resume(READER)], map[n + 1 := TimeoutOf(n)])
    ensures Snap(r, Scanning, Scanning, HOLD, [])
    ensures FirstWait(r, n, map[SLOT := Resume(READER)], map[n + 1 := TimeoutOf(n)])
  {
    hide Reachable;
    Settling(s, 1);
    r := DoSettle(s, 1);
  }

  /** Worker 1's idle fiber finds the timer expired. */
  lemma TimerFires(s: State, n: int) returns (r: State)
    requires Snap(s, Scanning, Scanning, HOLD, [])
    requires FirstWait(s, n, map[SLOT := Resume(READER)], map[n + 1 := TimeoutOf(n)])
    ensures Snap(r, Idling([TimeoutOf(n)]), Scanning, HOLD, []) && FirstWait(r, n, map[SLOT := Resume(READER)], map[])
  {
    hide Reachable;
    EnteringIdle(s, 1);
    var s1 := SetWorker(s.(idle := s.idle + 1), 1, s.workers[1].(pc := Idling([])));
    Collecting(s1, 1, n + 1);
    r := DoCollect(s1, 1, n + 1);
    assert r.workers[1].pc.batch == [TimeoutOf(n)];
  }

  /** It schedules the callback and sees the event. */
  lemma EventFires(s: State, n: int) returns (r: State)
    requires Snap(s, Idling([TimeoutOf(n)]), Scanning, HOLD, []) && FirstWait(s, n, map[SLOT := Resume(READER)], map[])
    ensures Snap(r, Idling([]), Scanning, HOLD, [Entry(TimeoutOf(n), -1), Entry(Resume(READER), -1)])
    ensures FirstWait(r, n, map[], map[])
  {
    hide Reachable;
    Unloading(s, 1);
    var s1 := ScheduleFirst(s, 1);
    Dispatching(s1, 1, SLOT);
    r := Deliver(s1, SLOT);
  }

  /** Worker 1 goes back to scanning; worker 2 takes the timeout callback. */
  lemma CallbackTaken(s: State, n: int) returns (r: State)
    requires Snap(s, Idling([]), Scanning, HOLD, [Entry(TimeoutOf(n), -1), Entry(Resume(READER), -1)])
    requires FirstWait(s, n, map[], map[])
    ensures Snap(r, Scanning, Holding(Entry(TimeoutOf(n), -1)), HOLD, [Entry(Resume(READER), -1)])
    ensures FirstWait(r, n, map[], map[])
  {
    hide Reachable;
    LeavingIdle(s, 1);
    var s1 := SetWorker(s.(idle := s.idle - 1), 1, s.workers[1].(pc := Scanning));
    Picking(s1, 2);
    r := DoPick(s1, 2);
  }

  /** It starts, and has not acted yet. */
  lemma CallbackStarts(s: State, n: int) returns (r: State)
    requires Snap(s, Scanning, Holding(Entry(TimeoutOf(n), -1)), HOLD, [Entry(Resume(READER), -1)])
    requires FirstWait(s, n, map[], map[])
    ensures Snap(r, Scanning, Running(CALLER, true, Some(TimeoutOf(n))), HOLD, [Entry(Resume(READER), -1)])
    ensures FirstWait(r, n, map[], map[])
  {
    hide Reachable;
    StartingCall(s, 2, CALLER);
    r := DoStartCall(s, 2, CALLER);
  }

  /** Worker 1 resumes the reader. */
  lemma ReaderResumes(s: State, n: int) returns (r: State)
    requires Snap(s, Scanning, Running(CALLER, true, Some(TimeoutOf(n))), HOLD, [Entry(Resume(READER), -1)])
    requires FirstWait(s, n, map[], map[])
    ensures Snap(r, Running(READER, false, None), Running(CALLER, true, Some(TimeoutOf(n))), EXEC, [])
    ensures r.leaving == {} && FirstWait(r, n, map[], map[])
  {
    hide Reachable;
    Picking(s, 1);
    var s1 := DoPick(s, 1);
    SwappingIn(s1, 1);
    r := DoSwapIn(s1, 1);
  }

  /** Between two tries: the reader finds no timeout and is about to try again, the callback has not acted. */
  ghost predicate Retrying(s: State, n: int)
  {
    && Reachable(s) && s.waiters == map[] && READER in s.io && s.io[READER] == IoCall(n, SLOT, None, false)
    && Executes(s, 1) && s.workers[1].pc.fiber == READER
  }

  lemma ReaderRetries(s: State, n: int) returns (r: State)
    requires Snap(s, Running(READER, false, None), Running(CALLER, true, Some(TimeoutOf(n))), EXEC, [])
    requires s.leaving == {} && FirstWait(s, n, map[], map[])
    ensures Retrying(r, n) && HasTodo(r, 2) && r.workers[2].pc.todo.value == TimeoutOf(n)
    ensures r.cancelling == {} && r.timedOut == {}
  {
    hide Reachable;
    Resuming(s, 1);
    r := DoResumeIo(s, 1);
  }

  lemma Marks(s: State, n: int) returns (r: State)
    requires Retrying(s, n) && HasTodo(s, 2) && s.workers[2].pc.todo.value == TimeoutOf(n)
    requires s.cancelling == {} && s.timedOut == {}
    ensures Retrying(r, n) && HasTodo(r, 2) && r.workers[2].pc.todo.value == TimeoutOf(n)
    ensures r.cancelling == {2} && r.timedOut == {n}
  {
    hide Reachable;
    assert Live(s, n);
    Marking(s, 2);
    r := DoMark(s, 2);
  }

  /** Cancelling, the callback finds nobody registered. */
  lemma FindsNobody(s: State, n: int) returns (r: State)
    requires Retrying(s, n) && HasTodo(s, 2) && s.workers[2].pc.todo.value == TimeoutOf(n)
    requires s.cancelling == {2} && s.timedOut == {n}
    ensures Retrying(r, n) && r.cancelling == {} && r.timedOut == {n}
  {
    hide Reachable;
    Cancelling(s, 2);
    r := DoCancel(s, 2);
  }

  /** Then the reader arms a timer for its second wait and registers again. */
  lemma ArmsAgain(s: State, n: int) returns (r: State)
    requires Retrying(s, n) && s.cancelling == {} && s.timedOut == {n}
    ensures Reachable(r) && r.cancelling == {} && r.timedOut == {n} && r.waiters == map[] && InIo(r, 1, false)
    ensures r.workers[1].pc.fiber == READER && r.io[READER].info == n && r.io[READER].timer.Some?
  {
    hide Reachable;
    Arming(s, 1);
    r := DoArmIo(s, 1);
  }

  lemma RegistersMarked(s: State, n: int) returns (r: State)
    requires Reachable(s) && s.cancelling == {} && s.timedOut == {n} && s.waiters == map[] && InIo(s, 1, false)
    requires s.workers[1].pc.fiber == READER && s.io[READER].info == n && s.io[READER].timer.Some?
    ensures Reachable(r) && LimitLost(r, READER) && r.io[READER].timer.Some?
  {
    hide Reachable;
    Parking(s, 1);
    r := DoParkIo(s, 1);
    ParkFields(s, 1);
    hide DoParkIo;
  }

  /** Time limits do get lost: some run reaches a state in which a fiber waits with a time limit and its
      timeout will not wake it. */
  lemma LimitsCanBeLost(s: State)
    requires Init(s) && s.workers.Keys == {1, 2}
    ensures exists r :: Reachable(r) && LimitLost(r, READER) && r.io[READER].timer.Some?
  {
    hide Init, Reachable, Snap, FirstWait, Plainly, Retrying, LimitLost, InIo;
    var r0 := Scheduled(s);
    var r1 := Started(r0);
    var r2, n := Begins(r1);
    r2 := Arms(r2, n);
    r2 := Parks(r2, n);
    var r3 := Yields(r2, n);
    r3 := SwitchesOut(r3, n);
    var r4 := Settles(r3, n);
    var r5 := TimerFires(r4, n);
    var r6 := EventFires(r5, n);
    var r7 := CallbackTaken(r6, n);
    var r8 := CallbackStarts(r7, n);
    var r9 := ReaderResumes(r8, n);
    var r10 := ReaderRetries(r9, n);
    var r11 := Marks(r10, n);
    var r12 := FindsNobody(r11, n);
    var r13 := ArmsAgain(r12, n);
    var r := RegistersMarked(r13, n);
  }
}
