/** A run in which two workers come to be on one fiber: a fiber that moves itself to the other worker is on
    the task list before it is off its own, and is taken from it in between. */
module SharedFiber {
  import opened Common
  import opened RunQueues
  import opened Protocol
  import opened Reaching
  import opened Safety

  const MOVER: Fiber := 7

  ghost predicate Snap(s: State, a: Pc, b: Pc, mover: FiberState, queue: seq<Entry>)
  {
    && Reachable(s) && s.workers.Keys == {1, 2}
    && s.workers[1] == Worker(a, None, false) && s.workers[2] == Worker(b, None, false)
    && MOVER in s.fibers && s.fibers[MOVER] == mover && s.queue == queue && s.io == map[]
  }

  lemma Scheduled(s: State) returns (r: State)
    requires Init(s) && s.workers.Keys == {1, 2}
    ensures Snap(r, Scanning, Scanning, INIT, [Entry(Resume(MOVER), -1)]) && r.leaving == {}
  {
    hide Reachable;
    Starting(s);
    Acting(s, ScheduleFiber(MOVER, -1));
    r := ApplyAct(s, ScheduleFiber(MOVER, -1));
  }

  lemma Started(s: State) returns (r: State)
    requires Snap(s, Scanning, Scanning, INIT, [Entry(Resume(MOVER), -1)]) && s.leaving == {}
    ensures Snap(r, Running(MOVER, false, None), Scanning, EXEC, []) && r.leaving == {}
  {
    hide Reachable;
    Picking(s, 1);
    var s1 := DoPick(s, 1);
    SwappingIn(s1, 1);
    r := DoSwapIn(s1, 1);
  }

  /** switchTo(2): it schedules itself for worker 2 and yields; it is HOLD now, and still on worker 1. */
  lemma MovesItself(s: State) returns (r: State)
    requires Snap(s, Running(MOVER, false, None), Scanning, EXEC, []) && s.leaving == {}
    ensures Snap(r, HalfOut(MOVER, false), Scanning, HOLD, [Entry(Resume(MOVER), 2)])
  {
    hide Reachable;
    Reach(s, SwitchTo(1, 2), DoSwitchTo(s, 1, 2));
    var s1 := DoSwitchTo(s, 1, 2);
    Yielding(s1, 1);
    r := DoYieldHold(s1, 1);
  }

  lemma TakenOver(s: State) returns (r: State)
    requires Snap(s, HalfOut(MOVER, false), Scanning, HOLD, [Entry(Resume(MOVER), 2)])
    ensures Snap(r, HalfOut(MOVER, false), Holding(Entry(Resume(MOVER), 2)), HOLD, [])
  {
    hide Reachable;
    Picking(s, 2);
    r := DoPick(s, 2);
  }

  /** swapIn asserts only that the fiber is not EXEC, and it is not. */
  ghost predicate CanBeShared(s: State, s': State)
  {
    Reachable(s) && Next(s, SwapIn(2), s') && TakesLeft(s, SwapIn(2)) && Shared(s')
  }

  lemma SwitchedToTwice(s: State)
    requires Snap(s, HalfOut(MOVER, false), Holding(Entry(Resume(MOVER), 2)), HOLD, [])
    ensures CanBeShared(s, DoSwapIn(s, 2))
  {
    hide Reachable, Shared;
    assert Leaves(s, 1, MOVER);
    TakingShares(s, SwapIn(2), DoSwapIn(s, 2));
  }

  lemma FibersCanBeShared(s: State)
    requires Init(s) && s.workers.Keys == {1, 2}
    ensures exists r, r' :: CanBeShared(r, r')
  {
    hide Init, Snap, CanBeShared;
    var r1 := Scheduled(s);
    var r2 := Started(r1);
    var r3 := MovesItself(r2);
    var r4 := TakenOver(r3);
    SwitchedToTwice(r4);
  }
}
