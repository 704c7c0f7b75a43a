/** What holds in every run of the scheduler, stated on what the program itself stores: which wake-ups
    exist, who executes what, what the counters count, and what stopping() means. */
module Safety {
  import opened Common
  import opened RunQueues
  import opened Protocol
  import opened Invariants
  import opened InvariantProof
  import opened Effects

  /** Some run leads to s in which no worker switches to a fiber that another has not finished leaving. */
  ghost predicate Reachable(s: State)
  {
    exists states, steps :: SoundRun(states, steps) && states[|steps|] == s
  }

  lemma ReachableInv(s: State)
    requires Reachable(s)
    ensures Inv(s)
  {
    hide Inv, TakesLeft;
    var states, steps :| SoundRun(states, steps) && states[|steps|] == s;
    RunInv(states, steps, |steps|);
  }

  lemma Reach(s: State, step: Step, s': State)
    requires Reachable(s) && Next(s, step, s') && !TakesLeft(s, step)
    ensures Reachable(s')
  {
    hide Next, Init, TakesLeft;
    var states, steps :| SoundRun(states, steps) && states[|steps|] == s;
    assert SoundRun(states + [s'], steps + [step]);
  }

  // ---- two workers on one fiber ----------------------------------------------------------------------------

  /** Worker w runs fiber f or has not finished leaving it. */
  predicate Occupies(s: State, w: Thread, f: Fiber)
  {
    Runs(s, w, f) || Leaves(s, w, f)
  }

  ghost predicate Shared(s: State)
  {
    exists w, v, f :: w != v && Occupies(s, w, f) && Occupies(s, v, f)
  }

  lemma NeverShared(s: State)
    requires Inv(s)
    ensures !Shared(s)
  {
    hide QueueInv, SlotInv, TimerInv, SemInv, WorkerInv, FiberInv, HandInv, CancelInv, CallInv, CountInv, IdInv, IoInv;
    forall w, v, f | w != v && Occupies(s, w, f)
      ensures !Occupies(s, v, f)
    {
      if Runs(s, w, f) || Runs(s, v, f) {
        HandFree(s.workers, s.fibers, f, w);
        HandFree(s.workers, s.fibers, f, v);
      } else {
        HandAt(s.workers, s.fibers, w);
      }
    }
  }

  lemma TakingShares(s: State, step: Step, s': State)
    requires Next(s, step, s') && TakesLeft(s, step)
    ensures Shared(s')
  {
    var w, f := step.w, s.workers[step.w].pc.entry.job.fiber;
    var v :| Leaves(s, v, f);
    assert Occupies(s', w, f) && Occupies(s', v, f);
  }

  /** In a run two workers come to be on one fiber exactly if one switches to a fiber that another has not
      finished leaving. Otherwise no two workers ever run the same fiber. */
  lemma {:induction false} SharedIffTaken(states: seq<State>, steps: seq<Step>, n: nat)
    requires Run(states, steps) && n <= |steps|
    ensures (exists i :: 0 <= i <= n && Shared(states[i])) <==> exists j :: 0 <= j < n && TakesLeft(states[j], steps[j])
  {
    hide Inv, Init, Next, Shared, TakesLeft;
    if exists j :: 0 <= j < n && TakesLeft(states[j], steps[j]) {
      var j :| 0 <= j < n && TakesLeft(states[j], steps[j]);
      TakingShares(states[j], steps[j], states[j + 1]);
    } else {
      forall i | 0 <= i <= n
        ensures !Shared(states[i])
      {
        RunInv(states, steps, i);
        NeverShared(states[i]);
      }
    }
  }

  // ---- wake-ups ------------------------------------------------------------------------------------------

  /** One stored reference that will make a fiber run again, or a callback run. */
  datatype Token =
    | Queued(i: int)            // an entry of the task list
    | Registered(slot: Slot)    // a waiter in an event slot
    | Timed(timer: int)         // an armed timer's callback
    | OnSem(sem: int, i: int)   // a place in a semaphore's list
    | Taken(worker: Thread)     // the entry a worker has taken from the list
    | InProgress(worker: Thread)  // the callback a worker is running
    | Batched(worker: Thread, i: int)  // an expired callback that a worker has collected
    | Returning(worker: Thread)   // a READY fiber that a worker is leaving, to put back on the list

  ghost predicate Holds(s: State, t: Token, k: Key)
  {
    match t
    case Queued(i) => 0 <= i < |s.queue| && KeyOf(s.queue[i].job) == k
    case Registered(slot) => slot in s.waiters && KeyOf(s.waiters[slot]) == k
    case Timed(timer) => timer in s.timers && KeyOf(s.timers[timer]) == k
    case OnSem(q, i) => q in s.sems && 0 <= i < |s.sems[q].waiting| && OfFiber(s.sems[q].waiting[i]) == k
    case Taken(w) => w in s.workers && s.workers[w].pc.Holding? && KeyOf(s.workers[w].pc.entry.job) == k
    case InProgress(w) => HasTodo(s, w) && KeyOf(s.workers[w].pc.todo.value) == k
    case Batched(w, i) =>
      && w in s.workers && s.workers[w].pc.Idling?
      && 0 <= i < |s.workers[w].pc.batch| && KeyOf(s.workers[w].pc.batch[i]) == k
    case Returning(w) =>
      w in s.workers && (s.workers[w].pc.HalfOut? || s.workers[w].pc.Back?) && s.workers[w].pc.ready
      && OfFiber(s.workers[w].pc.fiber) == k
  }

  ghost predicate HasToken(s: State, k: Key)
  {
    exists t :: Holds(s, t, k)
  }

  function PlaceOf(t: Token): Place
  {
    match t
    case Queued(_) => InQueue
    case Registered(slot) => InSlot(slot)
    case Timed(timer) => InTimer(timer)
    case OnSem(q, _) => InSem(q)
    case Taken(w) => InHand(w)
    case InProgress(w) => InCall(w)
    case Batched(w, _) => InBatch(w)
    case Returning(w) => InReturn(w)
  }

  lemma HoldsPlace(s: State, t: Token, k: Key)
    requires Inv(s) && Holds(s, t, k)
    ensures Spot(s.place, k) == Some(PlaceOf(t))
  {
    hide HostInv, FiberInv, HandInv, CancelInv, CountInv, CallInv, IdInv, IoInv;
    if t.Taken? || t.InProgress? || t.Batched? || t.Returning? { WorkerAt(s.workers, s.place, s.calls, t.worker); }
  }

  lemma PlaceHolds(s: State, k: Key)
    requires Inv(s) && Spot(s.place, k).Some? && !s.place[k].Kept?
    ensures HasToken(s, k)
  {
    hide Inv, Holds, HasToken;
    match s.place[k]
    case InQueue => ListHolds(s, k);
    case InSlot(slot) => TableHolds(s, k);
    case InTimer(timer) => TableHolds(s, k);
    case InSem(q) => ListHolds(s, k);
    case InHand(w) => WorkerHolds(s, w, k);
    case InCall(w) => WorkerHolds(s, w, k);
    case InBatch(w) => BatchHolds(s, w, k);
    case InReturn(w) => WorkerHolds(s, w, k);
  }

  lemma ListHolds(s: State, k: Key)
    requires Inv(s) && k in s.place && (s.place[k].InQueue? || s.place[k].InSem?)
    ensures HasToken(s, k)
  {
    hide SlotInv, TimerInv, WorkerInv, HostInv, FiberInv, HandInv, CancelInv, CountInv, CallInv, IdInv, IoInv;
    assert Spot(s.place, k) == Some(s.place[k]);
    if s.place[k].InQueue? {
      var i :| 0 <= i < |s.queue| && KeyOf(s.queue[i].job) == k;
      assert Holds(s, Queued(i), k);
    } else {
      var q := s.place[k].sem;
      var i :| 0 <= i < |s.sems[q].waiting| && s.sems[q].waiting[i] == k.fiber;
      assert Holds(s, OnSem(q, i), k);
    }
  }

  lemma TableHolds(s: State, k: Key)
    requires Inv(s) && k in s.place && (s.place[k].InSlot? || s.place[k].InTimer?)
    ensures HasToken(s, k)
  {
    hide QueueInv, SemInv, WorkerInv, HostInv, FiberInv, HandInv, CancelInv, CountInv, CallInv, IdInv, IoInv;
    assert Spot(s.place, k) == Some(s.place[k]);
    if s.place[k].InSlot? {
      assert Holds(s, Registered(s.place[k].slot), k);
    } else {
      assert Holds(s, Timed(s.place[k].timer), k);
    }
  }

  lemma WorkerHolds(s: State, w: Thread, k: Key)
    requires Inv(s) && Spot(s.place, k) in {Some(InHand(w)), Some(InCall(w)), Some(InReturn(w))}
    ensures HasToken(s, k)
  {
    hide QueueInv, SlotInv, TimerInv, SemInv, HostInv, FiberInv, HandInv, CancelInv, CountInv, CallInv, IdInv, IoInv;
    WorkerAt(s.workers, s.place, s.calls, w);
    if s.place[k].InHand? {
      assert Holds(s, Taken(w), k);
    } else if s.place[k].InCall? {
      assert Holds(s, InProgress(w), k);
    } else {
      assert Holds(s, Returning(w), k);
    }
  }

  lemma BatchHolds(s: State, w: Thread, k: Key)
    requires Inv(s) && Spot(s.place, k) == Some(InBatch(w))
    ensures HasToken(s, k)
  {
    hide QueueInv, SlotInv, TimerInv, SemInv, HostInv, FiberInv, HandInv, CancelInv, CountInv, CallInv, IdInv, IoInv;
    WorkerAt(s.workers, s.place, s.calls, w);
    var batch := BatchOf(s.workers[w].pc);
    var i :| 0 <= i < |batch| && KeyOf(batch[i]) == k;
    assert Holds(s, Batched(w, i), k);
  }

  lemma SamePlace(s: State, t: Token, t': Token, k: Key)
    requires Inv(s) && Holds(s, t, k) && Holds(s, t', k)
    ensures t == t'
  {
    hide SlotInv, TimerInv, WorkerInv, HostInv, FiberInv, HandInv, CancelInv, CountInv, CallInv, IdInv, IoInv;
    HoldsPlace(s, t, k);
    HoldsPlace(s, t', k);
    if t.Batched? { WorkerAt(s.workers, s.place, s.calls, t.worker); }
  }

  /** No fiber and no callback ever has two wake-ups. A fiber that parks, or is about to, has one
      unless delEvent threw it away; one that simply executes has none. */
  lemma OneWakeUp(s: State, f: Fiber)
    requires Reachable(s) && f in s.fibers
    ensures forall t, t' :: Holds(s, t, OfFiber(f)) && Holds(s, t', OfFiber(f)) ==> t == t'
    ensures s.fibers[f] == HOLD || f in s.leaving ==> (HasToken(s, OfFiber(f)) <==> f !in s.dropped)
    ensures s.fibers[f] == READY ==> HasToken(s, OfFiber(f))
    ensures s.fibers[f] == EXEC && f !in s.leaving ==> !HasToken(s, OfFiber(f))
  {
    hide Inv;
    ReachableInv(s);
    var k := OfFiber(f);
    forall t, t' | Holds(s, t, k) && Holds(s, t', k)
      ensures t == t'
    {
      SamePlace(s, t, t', k);
    }
    TokenIffPlaced(s, k);
    FiberFacts(s, f);
  }

  lemma FiberFacts(s: State, f: Fiber)
    requires Inv(s) && f in s.fibers
    ensures FiberOk(s.fibers[f], f in s.leaving, f in s.dropped, Spot(s.place, OfFiber(f)))
  {
    hide QueueInv, SlotInv, TimerInv, SemInv, WorkerInv, HostInv, HandInv, CancelInv, Bags, CountInv, CallInv, IdInv,
      IoInv;
  }

  lemma TokenIffPlaced(s: State, k: Key)
    requires Inv(s)
    ensures HasToken(s, k) <==> Spot(s.place, k).Some? && !s.place[k].Kept?
  {
    hide Inv;
    if Spot(s.place, k).Some? && !s.place[k].Kept? { PlaceHolds(s, k); }
    forall t | Holds(s, t, k)
      ensures Spot(s.place, k) == Some(PlaceOf(t))
    {
      HoldsPlace(s, t, k);
    }
  }

  /** How often fiber f was given a wake-up in the first n steps, and how often one was used up. */
  ghost function Parks(states: seq<State>, steps: seq<Step>, n: nat, f: Fiber): int
    requires n <= |steps| < |states|
  {
    if n == 0 then 0 else Parks(states, steps, n - 1, f) + Bit(Gives(states[n - 1], steps[n - 1], f))
  }

  ghost function Uses(states: seq<State>, steps: seq<Step>, n: nat, f: Fiber): int
    requires n <= |steps| < |states|
  {
    if n == 0 then 0 else Uses(states, steps, n - 1, f) + Bit(Takes(states[n - 1], steps[n - 1], f))
  }

  /** Over a whole run every wake-up is used at most once and none appears from nowhere: what was placed
      is what was used plus the one that may still be on its way. So no park is resumed twice, and every
      park that was not dropped is resumed or still has its wake-up. */
  lemma {:induction false} EveryParkOnce(states: seq<State>, steps: seq<Step>, n: nat, f: Fiber)
    requires SoundRun(states, steps) && n <= |steps|
    ensures Parks(states, steps, n, f) == Uses(states, steps, n, f) + Bit(HasToken(states[n], OfFiber(f)))
  {
    hide Inv, Next, Init, Gives, Takes, TakesLeft;
    RunInv(states, steps, n);
    TokenIffPlaced(states[n], OfFiber(f));
    if n == 0 {
      StartsEmpty(states[0], f);
    } else {
      EveryParkOnce(states, steps, n - 1, f);
      RunInv(states, steps, n - 1);
      TokenIffPlaced(states[n - 1], OfFiber(f));
      StepEffect(states[n - 1], steps[n - 1], states[n], f);
    }
  }

  lemma StartsEmpty(s: State, f: Fiber)
    requires Init(s)
    ensures OfFiber(f) !in s.place && f !in s.dropped
  {
  }

  /** Only delEvent on the fiber's own registration throws its wake-up away. */
  lemma {:induction false} DroppedBy(states: seq<State>, steps: seq<Step>, n: nat, f: Fiber)
    requires SoundRun(states, steps) && n <= |steps|
    ensures f in states[n].dropped <==> exists j :: 0 <= j < n && Drops(states[j], steps[j], f)
  {
    hide Inv, Next, Init, Drops, TakesLeft;
    if n == 0 {
      StartsEmpty(states[0], f);
    } else {
      DroppedBy(states, steps, n - 1, f);
      RunInv(states, steps, n - 1);
      StepEffect(states[n - 1], steps[n - 1], states[n], f);
    }
  }

  /** A parked fiber has a wake-up exactly when nobody called delEvent on its registration. */
  lemma ParkedIsWoken(states: seq<State>, steps: seq<Step>, n: nat, f: Fiber)
    requires SoundRun(states, steps) && n <= |steps| && f in states[n].fibers && states[n].fibers[f] == HOLD
    ensures HasToken(states[n], OfFiber(f)) <==> !exists j :: 0 <= j < n && Drops(states[j], steps[j], f)
  {
    hide Inv, Next, Init, Drops, TakesLeft;
    RunInv(states, steps, n);
    TokenIffPlaced(states[n], OfFiber(f));
    FiberFacts(states[n], f);
    DroppedBy(states, steps, n, f);
  }

  /** Why schedule() is a step only for a fiber without a wake-up: whoever schedules another gives it two. */
  lemma SchedulingTwice(s: State, f: Fiber, thread: int)
    requires Reachable(s)
    ensures var s' := Enqueue(s, Resume(f), thread);
      HasToken(s, OfFiber(f)) <==> exists t, t' :: t != t' && Holds(s', t, OfFiber(f)) && Holds(s', t', OfFiber(f))
  {
    hide Reachable, Inv, Holds;
    ReachableInv(s);
    var s', k := Enqueue(s, Resume(f), thread), OfFiber(f);
    NewToken(s, f, thread);
    if HasToken(s, k) {
      var t :| Holds(s, t, k);
      TokenStays(s, f, thread, t);
    }
    forall t, t' | t != t' && Holds(s', t, k) && Holds(s', t', k)
      ensures HasToken(s, k)
    {
      var old_ := if t == Queued(|s.queue|) then t' else t;
      TokenWasThere(s, f, thread, old_);
    }
  }

  lemma NewToken(s: State, f: Fiber, thread: int)
    ensures Holds(Enqueue(s, Resume(f), thread), Queued(|s.queue|), OfFiber(f))
    ensures !Holds(s, Queued(|s.queue|), OfFiber(f))
  {
  }

  lemma TokenStays(s: State, f: Fiber, thread: int, t: Token)
    requires Holds(s, t, OfFiber(f))
    ensures Holds(Enqueue(s, Resume(f), thread), t, OfFiber(f))
  {
  }

  lemma TokenWasThere(s: State, f: Fiber, thread: int, t: Token)
    requires Holds(Enqueue(s, Resume(f), thread), t, OfFiber(f)) && t != Queued(|s.queue|)
    ensures Holds(s, t, OfFiber(f))
  {
  }
}
