/** What every reachable state of the protocol satisfies, part by part: each part names only the
    fields it speaks of, with lemmas on how it survives a wake-up moving from one place to another. */
module Invariants {
  import opened Common
  import opened RunQueues
  import opened Protocol

  type Places = map<Key, Place>
  type Calls = map<int, Job>

  /** Where key k is filed, if anywhere. */
  function Spot(place: Places, k: Key): Option<Place>
  {
    if k in place then Some(place[k]) else None
  }

  function Moved(place: Places, k: Key, p: Option<Place>): (r: Places)
  {
    match p case Some(q) => place[k := q] case None => place - {k}
  }

  lemma MovedSpots(place: Places, k: Key, p: Option<Place>)
    ensures forall l :: Spot(Moved(place, k, p), l) == if l == k then p else Spot(place, l)
  {
  }

  /** A callback is the one accepted under its id. */
  ghost predicate Known(job: Job, calls: Calls)
  {
    KeyOf(job).OfCall? ==> KeyOf(job).id in calls && calls[KeyOf(job).id] == job
  }

  // ---- the task list -------------------------------------------------------------------------

  ghost predicate InEntries(queue: seq<Entry>, k: Key)
  {
    exists i :: 0 <= i < |queue| && KeyOf(queue[i].job) == k
  }

  ghost predicate QueueInv(queue: seq<Entry>, place: Places, calls: Calls)
  {
    && (forall i :: 0 <= i < |queue| ==>
          Spot(place, KeyOf(queue[i].job)) == Some(InQueue) && Known(queue[i].job, calls))
    && (forall i, j :: 0 <= i < j < |queue| ==> KeyOf(queue[i].job) != KeyOf(queue[j].job))
    && (forall k :: Spot(place, k) == Some(InQueue) ==> InEntries(queue, k))
  }

  lemma QueueAt(queue: seq<Entry>, place: Places, calls: Calls, i: nat)
    requires QueueInv(queue, place, calls) && i < |queue|
    ensures Spot(place, KeyOf(queue[i].job)) == Some(InQueue) && Known(queue[i].job, calls)
  {
  }

  lemma QueueFrame(queue: seq<Entry>, place: Places, calls: Calls, k: Key, p: Option<Place>)
    requires QueueInv(queue, place, calls) && Spot(place, k) != Some(InQueue) && p != Some(InQueue)
    ensures QueueInv(queue, Moved(place, k, p), calls)
  {
    MovedSpots(place, k, p);
  }

  lemma QueuePush(queue: seq<Entry>, place: Places, calls: Calls, e: Entry)
    requires QueueInv(queue, place, calls) && Spot(place, KeyOf(e.job)) != Some(InQueue) && Known(e.job, calls)
    ensures QueueInv(queue + [e], Moved(place, KeyOf(e.job), Some(InQueue)), calls)
  {
    var k, q' := KeyOf(e.job), queue + [e];
    MovedSpots(place, k, Some(InQueue));
    forall l | Spot(Moved(place, k, Some(InQueue)), l) == Some(InQueue)
      ensures InEntries(q', l)
    {
      if l == k {
        assert KeyOf(q'[|queue|].job) == l;
      } else {
        var i :| 0 <= i < |queue| && KeyOf(queue[i].job) == l;
        assert KeyOf(q'[i].job) == l;
      }
    }
  }

  lemma QueuePop(queue: seq<Entry>, place: Places, calls: Calls, i: nat, p: Option<Place>)
    requires QueueInv(queue, place, calls) && i < |queue| && p != Some(InQueue)
    ensures QueueInv(Without(queue, i), Moved(place, KeyOf(queue[i].job), p), calls)
  {
    var k, q' := KeyOf(queue[i].job), Without(queue, i);
    MovedSpots(place, k, p);
    forall l | Spot(Moved(place, k, p), l) == Some(InQueue)
      ensures InEntries(q', l)
    {
      var j :| 0 <= j < |queue| && KeyOf(queue[j].job) == l;
      assert KeyOf(q'[if j < i then j else j - 1].job) == l;
    }
  }

  // ---- event slots -----------------------------------------------------------------------------

  ghost predicate SlotInv(waiters: map<Slot, Job>, place: Places, calls: Calls)
  {
    && (forall slot :: slot in waiters ==>
          && (waiters[slot].Resume? || waiters[slot].Plain?)
          && Spot(place, KeyOf(waiters[slot])) == Some(InSlot(slot)) && Known(waiters[slot], calls))
    && (forall k, slot :: Spot(place, k) == Some(InSlot(slot)) ==> slot in waiters && KeyOf(waiters[slot]) == k)
  }

  ghost predicate AtSlot(p: Option<Place>) { p.Some? && p.value.InSlot? }

  lemma SlotFrame(waiters: map<Slot, Job>, place: Places, calls: Calls, k: Key, p: Option<Place>)
    requires SlotInv(waiters, place, calls) && !AtSlot(Spot(place, k)) && !AtSlot(p)
    ensures SlotInv(waiters, Moved(place, k, p), calls)
  {
    MovedSpots(place, k, p);
  }

  lemma SlotAt(waiters: map<Slot, Job>, place: Places, calls: Calls, slot: Slot)
    requires SlotInv(waiters, place, calls) && slot in waiters
    ensures waiters[slot].Resume? || waiters[slot].Plain?
    ensures Spot(place, KeyOf(waiters[slot])) == Some(InSlot(slot)) && Known(waiters[slot], calls)
  {
  }

  lemma SlotAdd(waiters: map<Slot, Job>, place: Places, calls: Calls, slot: Slot, job: Job)
    requires SlotInv(waiters, place, calls) && slot !in waiters && (job.Resume? || job.Plain?)
    requires !AtSlot(Spot(place, KeyOf(job))) && Known(job, calls)
    ensures SlotInv(waiters[slot := job], Moved(place, KeyOf(job), Some(InSlot(slot))), calls)
  {
    MovedSpots(place, KeyOf(job), Some(InSlot(slot)));
  }

  lemma SlotRemove(waiters: map<Slot, Job>, place: Places, calls: Calls, slot: Slot, p: Option<Place>)
    requires SlotInv(waiters, place, calls) && slot in waiters && !AtSlot(p)
    ensures SlotInv(waiters - {slot}, Moved(place, KeyOf(waiters[slot]), p), calls)
  {
    MovedSpots(place, KeyOf(waiters[slot]), p);
  }

  // ---- timers ------------------------------------------------------------------------------------

  ghost predicate TimerInv(timers: map<int, Job>, place: Places, calls: Calls)
  {
    && (forall t :: t in timers ==>
          && !timers[t].Resume?
          && Spot(place, KeyOf(timers[t])) == Some(InTimer(t)) && Known(timers[t], calls))
    && (forall k, t :: Spot(place, k) == Some(InTimer(t)) ==> t in timers && KeyOf(timers[t]) == k)
  }

  ghost predicate AtTimer(p: Option<Place>) { p.Some? && p.value.InTimer? }

  lemma TimerFrame(timers: map<int, Job>, place: Places, calls: Calls, k: Key, p: Option<Place>)
    requires TimerInv(timers, place, calls) && !AtTimer(Spot(place, k)) && !AtTimer(p)
    ensures TimerInv(timers, Moved(place, k, p), calls)
  {
    MovedSpots(place, k, p);
  }

  lemma TimerAt(timers: map<int, Job>, place: Places, calls: Calls, t: int)
    requires TimerInv(timers, place, calls) && t in timers
    ensures !timers[t].Resume? && Spot(place, KeyOf(timers[t])) == Some(InTimer(t)) && Known(timers[t], calls)
  {
  }

  lemma TimerAdd(timers: map<int, Job>, place: Places, calls: Calls, t: int, job: Job)
    requires TimerInv(timers, place, calls) && t !in timers && !job.Resume?
    requires !AtTimer(Spot(place, KeyOf(job))) && Known(job, calls)
    ensures TimerInv(timers[t := job], Moved(place, KeyOf(job), Some(InTimer(t))), calls)
  {
    MovedSpots(place, KeyOf(job), Some(InTimer(t)));
  }

  lemma TimerRemove(timers: map<int, Job>, place: Places, calls: Calls, t: int, p: Option<Place>)
    requires TimerInv(timers, place, calls) && t in timers && !AtTimer(p)
    ensures TimerInv(timers - {t}, Moved(place, KeyOf(timers[t]), p), calls)
  {
    MovedSpots(place, KeyOf(timers[t]), p);
  }

  // ---- semaphores ----------------------------------------------------------------------------------

  ghost predicate SemInv(sems: map<int, Sem>, place: Places)
  {
    && (forall q :: q in sems ==> sems[q].count >= 0 && (sems[q].count > 0 ==> sems[q].waiting == []))
    && (forall q, i :: q in sems && 0 <= i < |sems[q].waiting| ==>
          Spot(place, OfFiber(sems[q].waiting[i])) == Some(InSem(q)))
    && (forall q, i, j :: q in sems && 0 <= i < j < |sems[q].waiting| ==> sems[q].waiting[i] != sems[q].waiting[j])
    && (forall k, q :: Spot(place, k) == Some(InSem(q)) ==> k.OfFiber? && q in sems && k.fiber in sems[q].waiting)
  }

  ghost predicate AtSem(p: Option<Place>) { p.Some? && p.value.InSem? }

  lemma SemFrame(sems: map<int, Sem>, place: Places, k: Key, p: Option<Place>)
    requires SemInv(sems, place) && !AtSem(Spot(place, k)) && !AtSem(p)
    ensures SemInv(sems, Moved(place, k, p))
  {
    MovedSpots(place, k, p);
  }

  lemma SemAt(sems: map<int, Sem>, place: Places, q: int)
    requires SemInv(sems, place) && q in sems
    ensures sems[q].count >= 0 && (sems[q].count > 0 ==> sems[q].waiting == [])
    ensures sems[q].waiting != [] ==> Spot(place, OfFiber(sems[q].waiting[0])) == Some(InSem(q))
  {
  }

  lemma SemAdd(sems: map<int, Sem>, place: Places, q: int, f: Fiber)
    requires SemInv(sems, place) && q in sems && sems[q].count == 0 && !AtSem(Spot(place, OfFiber(f)))
    ensures SemInv(sems[q := sems[q].(waiting := sems[q].waiting + [f])], Moved(place, OfFiber(f), Some(InSem(q))))
  {
    MovedSpots(place, OfFiber(f), Some(InSem(q)));
  }

  lemma SemRemove(sems: map<int, Sem>, place: Places, q: int, p: Option<Place>)
    requires SemInv(sems, place) && q in sems && sems[q].waiting != [] && !AtSem(p)
    ensures SemInv(sems[q := sems[q].(waiting := sems[q].waiting[1..])], Moved(place, OfFiber(sems[q].waiting[0]), p))
  {
    MovedSpots(place, OfFiber(sems[q].waiting[0]), p);
    var waiting := sems[q].waiting;
    assert forall f :: f in waiting && f != waiting[0] ==> f in waiting[1..];
  }

  lemma SemCount(sems: map<int, Sem>, place: Places, q: int, sem: Sem)
    requires SemInv(sems, place) && sem.count >= 0 && sem.waiting == []
    requires q in sems ==> sems[q].waiting == []
    ensures SemInv(sems[q := sem], place)
  {
  }

  // ---- workers ---------------------------------------------------------------------------------------

  ghost predicate AtWorker(p: Option<Place>)
  {
    p.Some? && (p.value.InHand? || p.value.InCall? || p.value.InBatch? || p.value.InReturn? || p.value.Kept?)
  }

  ghost predicate Mine(p: Option<Place>, w: Thread)
  {
    AtWorker(p) && p.value.worker == w
  }

  function BatchOf(pc: Pc): seq<Job>
  {
    if pc.Idling? then pc.batch else []
  }

  /** The READY fiber a worker leaves. */
  function ReturnOf(pc: Pc): Option<Fiber>
  {
    match pc
    case HalfOut(f, ready) => if ready then Some(f) else None
    case Back(f, ready) => if ready then Some(f) else None
    case _ => None
  }

  /** The batch holds exactly the keys filed under it, once each. */
  ghost predicate BatchOk(w: Thread, batch: seq<Job>, place: Places, calls: Calls)
  {
    && (forall i :: 0 <= i < |batch| ==>
          !batch[i].Resume? && Spot(place, KeyOf(batch[i])) == Some(InBatch(w)) && Known(batch[i], calls))
    && (forall i, j :: 0 <= i < j < |batch| ==> KeyOf(batch[i]) != KeyOf(batch[j]))
    && (forall k :: Spot(place, k) == Some(InBatch(w)) ==> InJobs(batch, k))
  }

  ghost predicate InJobs(batch: seq<Job>, k: Key)
  {
    exists i :: 0 <= i < |batch| && KeyOf(batch[i]) == k
  }

  /** What worker w keeps for others: its batch, and the READY fiber it leaves. */
  ghost predicate Bags(w: Thread, pc: Pc, place: Places, calls: Calls)
  {
    && BatchOk(w, BatchOf(pc), place, calls)
    && (forall k :: Spot(place, k) == Some(InReturn(w)) <==> ReturnOf(pc).Some? && k == OfFiber(ReturnOf(pc).value))
  }

  ghost predicate SameBags(w: Thread, place: Places, place': Places)
  {
    forall k :: (Spot(place, k) == Some(InBatch(w)) <==> Spot(place', k) == Some(InBatch(w)))
             && (Spot(place, k) == Some(InReturn(w)) <==> Spot(place', k) == Some(InReturn(w)))
  }

  lemma BagsStay(w: Thread, pc: Pc, pc': Pc, place: Places, calls: Calls, place': Places)
    requires Bags(w, pc, place, calls) && BatchOf(pc') == BatchOf(pc) && ReturnOf(pc') == ReturnOf(pc)
    requires SameBags(w, place, place')
    ensures Bags(w, pc', place', calls)
  {
    hide BatchOf, ReturnOf, Spot;
    BatchFrame(w, BatchOf(pc), place, calls, place');
    hide BatchOk;
    assert forall k :: Spot(place, k) == Some(InReturn(w)) <==> Spot(place', k) == Some(InReturn(w));
  }

  /** Worker w holds exactly what is filed with it. */
  ghost predicate WorkerOk(w: Thread, worker: Worker, place: Places, calls: Calls)
  {
    WorkerCore(w, worker, place, calls) && Bags(w, worker.pc, place, calls)
  }

  ghost predicate WorkerCore(w: Thread, worker: Worker, place: Places, calls: Calls)
  {
    && (worker.pc.Holding? ==>
          && Spot(place, KeyOf(worker.pc.entry.job)) == Some(InHand(w)) && Known(worker.pc.entry.job, calls)
          && (worker.pc.entry.thread == -1 || worker.pc.entry.thread == w))
    && (worker.pc.Running? && worker.pc.todo.Some? ==>
          && (worker.pc.todo.value.Wake? || worker.pc.todo.value.Timeout?)
          && Spot(place, KeyOf(worker.pc.todo.value)) == Some(InCall(w)) && Known(worker.pc.todo.value, calls))
    && (worker.kept.Some? ==> Spot(place, OfFiber(worker.kept.value)) == Some(Kept(w)))
    && (worker.pc.Running? && worker.pc.onCall ==> worker.kept == None)
    && (forall k :: Spot(place, k) == Some(InHand(w)) ==> worker.pc.Holding? && KeyOf(worker.pc.entry.job) == k)
    && (forall k :: Spot(place, k) == Some(InCall(w)) ==>
          worker.pc.Running? && worker.pc.todo.Some? && KeyOf(worker.pc.todo.value) == k)
    && (forall k :: Spot(place, k) == Some(Kept(w)) ==> worker.kept.Some? && OfFiber(worker.kept.value) == k)
  }

  lemma BatchFrame(w: Thread, batch: seq<Job>, place: Places, calls: Calls, place': Places)
    requires BatchOk(w, batch, place, calls)
    requires forall k :: Spot(place, k) == Some(InBatch(w)) <==> Spot(place', k) == Some(InBatch(w))
    ensures BatchOk(w, batch, place', calls)
  {
  }

  lemma BatchPush(w: Thread, batch: seq<Job>, place: Places, calls: Calls, job: Job)
    requires BatchOk(w, batch, place, calls) && !job.Resume? && Known(job, calls)
    requires Spot(place, KeyOf(job)) != Some(InBatch(w))
    ensures BatchOk(w, batch + [job], Moved(place, KeyOf(job), Some(InBatch(w))), calls)
  {
    var k, b := KeyOf(job), batch + [job];
    MovedSpots(place, k, Some(InBatch(w)));
    hide Moved;
    forall l | Spot(Moved(place, k, Some(InBatch(w))), l) == Some(InBatch(w))
      ensures InJobs(b, l)
    {
      if l == k {
        assert KeyOf(b[|batch|]) == l;
      } else {
        var i :| 0 <= i < |batch| && KeyOf(batch[i]) == l;
        assert KeyOf(b[i]) == l;
      }
    }
  }

  lemma BatchPop(w: Thread, batch: seq<Job>, place: Places, calls: Calls, p: Option<Place>)
    requires BatchOk(w, batch, place, calls) && batch != [] && p != Some(InBatch(w))
    ensures BatchOk(w, batch[1..], Moved(place, KeyOf(batch[0]), p), calls)
  {
    var k, b := KeyOf(batch[0]), batch[1..];
    MovedSpots(place, k, p);
    hide Moved;
    forall l | Spot(Moved(place, k, p), l) == Some(InBatch(w))
      ensures InJobs(b, l)
    {
      var i :| 0 <= i < |batch| && KeyOf(batch[i]) == l;
      assert KeyOf(b[i - 1]) == l;
    }
  }

  ghost predicate WorkerInv(workers: map<Thread, Worker>, place: Places, calls: Calls)
  {
    && (forall w :: w in workers ==> WorkerOk(w, workers[w], place, calls))
    && (forall k :: AtWorker(Spot(place, k)) ==> Spot(place, k).value.worker in workers)
  }

  /** A worker is not touched by what is filed elsewhere. */
  lemma WorkerStays(w: Thread, worker: Worker, place: Places, calls: Calls, place': Places)
    requires WorkerOk(w, worker, place, calls)
    requires forall k :: Mine(Spot(place', k), w) ==> Spot(place', k) == Spot(place, k)
    requires forall k :: Mine(Spot(place, k), w) ==> Spot(place', k) == Spot(place, k)
    ensures WorkerOk(w, worker, place', calls)
  {
    hide Spot, KeyOf, Bags;
    assert SameBags(w, place, place');
    BagsStay(w, worker.pc, worker.pc, place, calls, place');
  }

  lemma WorkerFrame(workers: map<Thread, Worker>, place: Places, calls: Calls, k: Key, p: Option<Place>)
    requires WorkerInv(workers, place, calls) && !AtWorker(Spot(place, k)) && !AtWorker(p)
    ensures WorkerInv(workers, Moved(place, k, p), calls)
  {
    MovedSpots(place, k, p);
    hide Moved, WorkerOk;
    forall w | w in workers
      ensures WorkerOk(w, workers[w], Moved(place, k, p), calls)
    {
      WorkerStays(w, workers[w], place, calls, Moved(place, k, p));
    }
  }

  lemma WorkerAt(workers: map<Thread, Worker>, place: Places, calls: Calls, w: Thread)
    requires WorkerInv(workers, place, calls) && w in workers
    ensures WorkerOk(w, workers[w], place, calls)
  {
  }

  /** One worker's doings do not touch another's. */
  lemma WorkerSet(workers: map<Thread, Worker>, place: Places, calls: Calls, w: Thread, worker: Worker, place': Places)
    requires WorkerInv(workers, place, calls) && w in workers && WorkerOk(w, worker, place', calls)
    requires forall k :: AtWorker(Spot(place, k)) && !Mine(Spot(place, k), w) ==> Spot(place', k) == Spot(place, k)
    requires forall k :: AtWorker(Spot(place', k)) && !Mine(Spot(place', k), w) ==> Spot(place', k) == Spot(place, k)
    ensures WorkerInv(workers[w := worker], place', calls)
  {
    hide WorkerOk, Spot;
    forall v | v in workers && v != w
      ensures WorkerOk(v, workers[v], place', calls)
    {
      assert forall k :: Mine(Spot(place', k), v) ==> Spot(place', k) == Spot(place, k);
      assert forall k :: Mine(Spot(place, k), v) ==> Spot(place', k) == Spot(place, k);
      WorkerStays(v, workers[v], place, calls, place');
    }
    forall k | AtWorker(Spot(place', k))
      ensures Spot(place', k).value.worker in workers
    {
    }
  }

  // ---- fibers and who executes them ----------------------------------------------------------------

  ghost predicate HostInv(workers: map<Thread, Worker>, fibers: map<Fiber, FiberState>, host: map<Fiber, Thread>)
  {
    && (forall f :: f in host <==> f in fibers && fibers[f] == EXEC)
    && (forall f :: f in host ==> host[f] in workers && workers[host[f]].pc.Running? && workers[host[f]].pc.fiber == f)
    && (forall w :: w in workers && workers[w].pc.Running? ==>
          workers[w].pc.fiber in host && host[workers[w].pc.fiber] == w)
  }

  lemma HostOut(workers: map<Thread, Worker>, fibers: map<Fiber, FiberState>, host: map<Fiber, Thread>,
                w: Thread, f: Fiber, st: FiberState, worker: Worker)
    requires HostInv(workers, fibers, host) && w in workers && workers[w].pc.Running? && workers[w].pc.fiber == f
    requires !worker.pc.Running? && st != EXEC
    ensures HostInv(workers[w := worker], fibers[f := st], host - {f})
  {
  }

  lemma HostIn(workers: map<Thread, Worker>, fibers: map<Fiber, FiberState>, host: map<Fiber, Thread>,
               w: Thread, f: Fiber, worker: Worker)
    requires HostInv(workers, fibers, host) && w in workers && !workers[w].pc.Running? && f !in host
    requires worker.pc.Running? && worker.pc.fiber == f
    ensures HostInv(workers[w := worker], fibers[f := EXEC], host[f := w])
  {
  }

  /** A worker's change that starts and stops no fiber, and new fibers that do not execute. */
  lemma HostFrame(workers: map<Thread, Worker>, fibers: map<Fiber, FiberState>, host: map<Fiber, Thread>,
                  w: Thread, worker: Worker)
    requires HostInv(workers, fibers, host) && w in workers
    requires workers[w].pc.Running? == worker.pc.Running?
    requires worker.pc.Running? ==> worker.pc.fiber == workers[w].pc.fiber
    ensures HostInv(workers[w := worker], fibers, host)
  {
  }

  /** Which fibers have a wake-up: those that wait for one, those about to yield and those never
      started, unless delEvent threw it away; a fiber that just executes has none. */
  ghost predicate FiberOk(st: FiberState, leaving: bool, dropped: bool, spot: Option<Place>)
  {
    && (match st
        case EXEC => if leaving then dropped <==> spot.None? else !dropped && spot.None?
        case HOLD => !leaving && (dropped <==> spot.None?)
        case READY => !leaving && !dropped && spot.Some?
        case INIT => !leaving && !dropped && spot.Some?
        case _ => !leaving && !dropped)
    && (spot.Some? && spot.value.Kept? ==> st == INIT)
    && (AtSlot(spot) ==> st == EXEC || st == HOLD)
  }

  ghost predicate FiberInv(fibers: map<Fiber, FiberState>, leaving: set<Fiber>, dropped: set<Fiber>, place: Places)
  {
    && (forall f :: Spot(place, OfFiber(f)).Some? ==> f in fibers)
    && leaving <= fibers.Keys && dropped <= fibers.Keys
    && (forall f :: f in fibers ==> FiberOk(fibers[f], f in leaving, f in dropped, Spot(place, OfFiber(f))))
  }

  lemma FiberAt(fibers: map<Fiber, FiberState>, leaving: set<Fiber>, dropped: set<Fiber>, place: Places, f: Fiber)
    requires FiberInv(fibers, leaving, dropped, place)
    ensures f in fibers ==> FiberOk(fibers[f], f in leaving, f in dropped, Spot(place, OfFiber(f)))
    ensures f !in fibers ==> Spot(place, OfFiber(f)) == None && f !in leaving && f !in dropped
  {
  }

  /** Only fiber f's place changes, between places that mean the same to it. */
  lemma FiberMove(fibers: map<Fiber, FiberState>, leaving: set<Fiber>, dropped: set<Fiber>, place: Places,
                  f: Fiber, p: Place)
    requires FiberInv(fibers, leaving, dropped, place) && Spot(place, OfFiber(f)).Some?
    requires !p.Kept? && !p.InSlot?
    ensures FiberInv(fibers, leaving, dropped, Moved(place, OfFiber(f), Some(p)))
  {
    MovedSpots(place, OfFiber(f), Some(p));
  }

  lemma FiberFrame(fibers: map<Fiber, FiberState>, leaving: set<Fiber>, dropped: set<Fiber>, place: Places, id: int,
                   p: Option<Place>)
    requires FiberInv(fibers, leaving, dropped, place)
    ensures FiberInv(fibers, leaving, dropped, Moved(place, OfCall(id), p))
  {
    MovedSpots(place, OfCall(id), p);
  }

  /** Only fiber f's state, flags and place change. */
  lemma FiberSet(fibers: map<Fiber, FiberState>, leaving: set<Fiber>, dropped: set<Fiber>, place: Places,
                 f: Fiber, st: FiberState, leaving': set<Fiber>, dropped': set<Fiber>, place': Places)
    requires FiberInv(fibers, leaving, dropped, place)
    requires forall g :: g != f ==>
      && (g in leaving' <==> g in leaving) && (g in dropped' <==> g in dropped)
      && Spot(place', OfFiber(g)) == Spot(place, OfFiber(g))
    requires FiberOk(st, f in leaving', f in dropped', Spot(place', OfFiber(f)))
    ensures FiberInv(fibers[f := st], leaving', dropped', place')
  {
    var fibers' := fibers[f := st];
    assert fibers'.Keys == fibers.Keys + {f};
    assert forall g :: g in leaving' ==> g in fibers'.Keys;
    assert forall g :: g in dropped' ==> g in fibers'.Keys;
  }

  ghost predicate IsLeaving(pc: Pc) { pc.HalfOut? || pc.Back? }

  /** A fiber a worker has taken to resume is not executing; one a worker leaves is as the yield left it. */
  ghost predicate HandOk(pc: Pc, fibers: map<Fiber, FiberState>)
  {
    && (pc.Holding? && pc.entry.job.Resume? ==>
          pc.entry.job.fiber in fibers && fibers[pc.entry.job.fiber] != EXEC)
    && (IsLeaving(pc) ==> pc.fiber in fibers && fibers[pc.fiber] == if pc.ready then READY else HOLD)
  }

  ghost predicate HandInv(workers: map<Thread, Worker>, fibers: map<Fiber, FiberState>)
  {
    && (forall w :: w in workers ==> HandOk(workers[w].pc, fibers))
    && (forall w, v ::
          w in workers && v in workers && w != v && IsLeaving(workers[w].pc) && IsLeaving(workers[v].pc) ==>
          workers[w].pc.fiber != workers[v].pc.fiber)
  }

  /** No worker but w leaves fiber f. */
  ghost predicate LeftOnlyBy(workers: map<Thread, Worker>, f: Fiber, w: Thread)
  {
    forall v :: v in workers && v != w && IsLeaving(workers[v].pc) ==> workers[v].pc.fiber != f
  }

  lemma HandAt(workers: map<Thread, Worker>, fibers: map<Fiber, FiberState>, w: Thread)
    requires HandInv(workers, fibers) && w in workers
    ensures HandOk(workers[w].pc, fibers)
    ensures IsLeaving(workers[w].pc) ==> LeftOnlyBy(workers, workers[w].pc.fiber, w)
  {
  }

  /** Nobody leaves a fiber that executes, is new or has never run. */
  lemma HandFree(workers: map<Thread, Worker>, fibers: map<Fiber, FiberState>, f: Fiber, w: Thread)
    requires HandInv(workers, fibers) && (f in fibers ==> fibers[f] != READY && fibers[f] != HOLD)
    ensures LeftOnlyBy(workers, f, w)
  {
    forall v | v in workers && v != w && IsLeaving(workers[v].pc)
      ensures workers[v].pc.fiber != f
    {
      assert HandOk(workers[v].pc, fibers);
    }
  }

  lemma HandSet(workers: map<Thread, Worker>, fibers: map<Fiber, FiberState>, w: Thread, worker: Worker)
    requires HandInv(workers, fibers) && HandOk(worker.pc, fibers)
    requires IsLeaving(worker.pc) ==> LeftOnlyBy(workers, worker.pc.fiber, w)
    ensures HandInv(workers[w := worker], fibers)
  {
  }

  /** A fiber starts to execute: nobody else holds it, and nobody else is leaving it. */
  lemma HandExec(workers: map<Thread, Worker>, fibers: map<Fiber, FiberState>, place: Places, calls: Calls,
                 w: Thread, worker: Worker, f: Fiber)
    requires HandInv(workers, fibers) && WorkerInv(workers, place, calls) && worker.pc.Running?
    requires AtWorker(Spot(place, OfFiber(f))) ==> Mine(Spot(place, OfFiber(f)), w)
    requires LeftOnlyBy(workers, f, w)
    ensures HandInv(workers[w := worker], fibers[f := EXEC])
  {
    forall v | v in workers && v != w
      ensures HandOk(workers[v].pc, fibers[f := EXEC])
    {
      assert WorkerOk(v, workers[v], place, calls) && HandOk(workers[v].pc, fibers);
    }
  }

  /** A fiber that nobody leaves gets another state, without executing. */
  lemma HandState(workers: map<Thread, Worker>, fibers: map<Fiber, FiberState>, f: Fiber, st: FiberState, w: Thread)
    requires HandInv(workers, fibers) && st != EXEC && LeftOnlyBy(workers, f, w)
    ensures forall v :: v in workers && v != w ==> HandOk(workers[v].pc, fibers[f := st])
  {
    forall v | v in workers && v != w
      ensures HandOk(workers[v].pc, fibers[f := st])
    {
      assert HandOk(workers[v].pc, fibers);
    }
  }

  /** Fiber f stops executing on w, which goes on as worker. */
  lemma HandOut(workers: map<Thread, Worker>, fibers: map<Fiber, FiberState>, f: Fiber, st: FiberState,
                w: Thread, worker: Worker)
    requires HandInv(workers, fibers) && w in workers && st != EXEC && LeftOnlyBy(workers, f, w)
    requires HandOk(worker.pc, fibers[f := st]) && (IsLeaving(worker.pc) ==> worker.pc.fiber == f)
    ensures HandInv(workers[w := worker], fibers[f := st])
  {
    HandState(workers, fibers, f, st, w);
  }

  // ---- timeout callbacks between marking and cancelling ------------------------------------------------

  /** Such a callback is running and has marked its timer_info; no two have marked the same. */
  ghost predicate CancelInv(workers: map<Thread, Worker>, cancelling: set<Thread>, timedOut: set<int>)
  {
    && (forall w :: w in cancelling ==>
          w in workers && InTimeout(workers[w].pc) && workers[w].pc.todo.value.info in timedOut)
    && (forall w, v :: w in cancelling && v in cancelling && w != v ==>
          workers[w].pc.todo.value.info != workers[v].pc.todo.value.info)
  }

  ghost predicate InTimeout(pc: Pc) { pc.Running? && pc.todo.Some? && pc.todo.value.Timeout? }

  lemma CancelSet(workers: map<Thread, Worker>, cancelling: set<Thread>, timedOut: set<int>, w: Thread, worker: Worker)
    requires CancelInv(workers, cancelling, timedOut) && (w in workers ==> !InTimeout(workers[w].pc))
    ensures CancelInv(workers[w := worker], cancelling, timedOut)
  {
  }

  lemma CancelMark(workers: map<Thread, Worker>, cancelling: set<Thread>, timedOut: set<int>, w: Thread)
    requires CancelInv(workers, cancelling, timedOut)
    requires w in workers && InTimeout(workers[w].pc) && workers[w].pc.todo.value.info !in timedOut
    ensures CancelInv(workers, cancelling + {w}, timedOut + {workers[w].pc.todo.value.info})
  {
  }

  lemma CancelDone(workers: map<Thread, Worker>, cancelling: set<Thread>, timedOut: set<int>, w: Thread, worker: Worker)
    requires CancelInv(workers, cancelling, timedOut)
    ensures CancelInv(workers[w := worker], cancelling - {w}, timedOut)
  {
  }

  // ---- counters --------------------------------------------------------------------------------------

  ghost function Busy(workers: map<Thread, Worker>): set<Thread>
  {
    set w | w in workers && IsBusy(workers[w].pc) == 1
  }

  ghost function Idle(workers: map<Thread, Worker>): set<Thread>
  {
    set w | w in workers && workers[w].pc.Idling?
  }

  ghost predicate CountInv(workers: map<Thread, Worker>, waiters: map<Slot, Job>, active: int, idle: int, pending: int)
  {
    active == |Busy(workers)| && idle == |Idle(workers)| && pending == |waiters|
  }

  function IsBusy(pc: Pc): int { if pc.Holding? || pc.Running? || pc.HalfOut? then 1 else 0 }
  function IsIdle(pc: Pc): int { if pc.Idling? then 1 else 0 }

  lemma CountSet(workers: map<Thread, Worker>, w: Thread, worker: Worker)
    requires w in workers
    ensures |Busy(workers[w := worker])| == |Busy(workers)| - IsBusy(workers[w].pc) + IsBusy(worker.pc)
    ensures |Idle(workers[w := worker])| == |Idle(workers)| - IsIdle(workers[w].pc) + IsIdle(worker.pc)
  {
    SetFlip(Busy(workers), Busy(workers[w := worker]), w);
    SetFlip(Idle(workers), Idle(workers[w := worker]), w);
  }

  lemma SetFlip(b: set<Thread>, b': set<Thread>, w: Thread)
    requires forall v :: v in b && v != w ==> v in b'
    requires forall v :: v in b' && v != w ==> v in b
    ensures |b'| - (if w in b' then 1 else 0) == |b| - (if w in b then 1 else 0)
  {
    var c, c' := b - {w}, b' - {w};
    forall v | v in c
      ensures v in c'
    {
    }
    forall v | v in c'
      ensures v in c
    {
    }
    assert c == c';
    assert b == if w in b then c + {w} else c;
    assert b' == if w in b' then c' + {w} else c';
  }

  lemma CountSlots(waiters: map<Slot, Job>, slot: Slot, job: Job)
    ensures slot !in waiters ==> |waiters[slot := job]| == |waiters| + 1
    ensures slot in waiters ==> |waiters - {slot}| == |waiters| - 1
  {
    if slot in waiters {
      assert waiters == (waiters - {slot})[slot := waiters[slot]];
    }
  }

  // ---- callbacks ---------------------------------------------------------------------------------------

  ghost predicate CallInv(calls: Calls, place: Places, ended: set<int>, nextId: int)
  {
    && (forall id :: Spot(place, OfCall(id)).Some? ==> id in calls)
    && (forall id :: id in calls ==> id < nextId && KeyOf(calls[id]) == OfCall(id))
    && (forall id :: id in calls ==> (Spot(place, OfCall(id)).Some? <==> id !in ended))
    && ended <= calls.Keys
  }

  lemma CallFrame(calls: Calls, place: Places, ended: set<int>, nextId: int, k: Key, p: Option<Place>)
    requires CallInv(calls, place, ended, nextId)
    requires k.OfCall? ==> Spot(place, k).Some? && p.Some?
    ensures CallInv(calls, Moved(place, k, p), ended, nextId)
  {
    MovedSpots(place, k, p);
  }

  /** A callback is over. */
  lemma CallEnd(calls: Calls, place: Places, ended: set<int>, nextId: int, id: int)
    requires CallInv(calls, place, ended, nextId) && Spot(place, OfCall(id)).Some?
    ensures CallInv(calls, Moved(place, OfCall(id), None), ended + {id}, nextId)
  {
    MovedSpots(place, OfCall(id), None);
  }

  /** A new callback is accepted and filed. */
  lemma CallNew(calls: Calls, place: Places, ended: set<int>, nextId: int, job: Job, p: Place)
    requires CallInv(calls, place, ended, nextId) && (job.Timeout? || job.Plain?) && job.id == nextId
    ensures CallInv(calls[nextId := job], Moved(place, OfCall(nextId), Some(p)), ended, nextId + 1)
    ensures Spot(place, OfCall(nextId)) == None && nextId !in calls && nextId !in ended
  {
    MovedSpots(place, OfCall(nextId), Some(p));
  }

  lemma CallLater(calls: Calls, place: Places, ended: set<int>, nextId: int, later: int)
    requires CallInv(calls, place, ended, nextId) && nextId <= later
    ensures CallInv(calls, place, ended, later)
  {
  }

  ghost predicate IdInv(timers: map<int, Job>, calls: Calls, io: map<Fiber, IoCall>, timedOut: set<int>, nextId: int)
  {
    && (forall t :: t in timers ==> t < nextId)
    && (forall t :: t in timers ==> if KeyOf(timers[t]).OfCall? then KeyOf(timers[t]) == OfCall(t) else t !in calls)
    && (forall f :: f in io ==> io[f].info < nextId)
    && (forall i :: i in timedOut ==> i < nextId)
    && (forall id :: id in calls && calls[id].Timeout? ==> calls[id].info < nextId)
  }

  // ---- do_io -----------------------------------------------------------------------------------------------

  /** All timeout callbacks of one do_io cancel the same registration. */
  ghost predicate SameSlot(call: IoCall, job: Job)
  {
    job.Timeout? && job.info == call.info ==> Slot(job.fd, job.event) == call.slot
  }

  /** The do_io is registered or about to be, and counts on its timer. */
  ghost predicate Counts(call: IoCall, spot: Option<Place>) { AtSlot(spot) || !call.waiting }

  /** A fiber that waits in do_io is registered where do_io put it, and one with a time limit has its
      timeout callback still to come unless that callback has run. */
  ghost predicate IoOk(f: Fiber, call: IoCall, fibers: map<Fiber, FiberState>, spot: Option<Place>,
                       timedOut: set<int>, calls: Calls, ended: set<int>)
  {
    && f in fibers && (fibers[f] == EXEC || fibers[f] == HOLD)
    && (AtSlot(spot) ==> call.waiting && spot.value.slot == call.slot)
    && (call.timer.Some? ==>
          && call.timer.value in calls
          && calls[call.timer.value] == Timeout(call.timer.value, call.slot.fd, call.slot.event, call.info))
    && (Counts(call, spot) && call.timer.Some? ==> call.info in timedOut || call.timer.value !in ended)
    && (forall id :: id in calls ==> SameSlot(call, calls[id]))
  }

  ghost predicate IoInv(io: map<Fiber, IoCall>, fibers: map<Fiber, FiberState>, place: Places, timedOut: set<int>,
                        calls: Calls, ended: set<int>)
  {
    && (forall f :: f in io ==> IoOk(f, io[f], fibers, Spot(place, OfFiber(f)), timedOut, calls, ended))
    && (forall f, g :: f in io && g in io && f != g ==> io[f].info != io[g].info)
  }

  lemma IoFrame(io: map<Fiber, IoCall>, fibers: map<Fiber, FiberState>, place: Places, timedOut: set<int>,
                calls: Calls, ended: set<int>, k: Key, p: Option<Place>)
    requires IoInv(io, fibers, place, timedOut, calls, ended)
    requires k.OfCall? || !AtSlot(p)
    ensures IoInv(io, fibers, Moved(place, k, p), timedOut, calls, ended)
  {
    MovedSpots(place, k, p);
    forall f | f in io
      ensures IoOk(f, io[f], fibers, Spot(Moved(place, k, p), OfFiber(f)), timedOut, calls, ended)
    {
      assert IoOk(f, io[f], fibers, Spot(place, OfFiber(f)), timedOut, calls, ended);
    }
  }

  lemma IoState(io: map<Fiber, IoCall>, fibers: map<Fiber, FiberState>, place: Places, timedOut: set<int>,
                calls: Calls, ended: set<int>, f: Fiber, st: FiberState)
    requires IoInv(io, fibers, place, timedOut, calls, ended)
    requires f in io ==> st == EXEC || st == HOLD
    ensures IoInv(io, fibers[f := st], place, timedOut, calls, ended)
  {
    forall g | g in io
      ensures IoOk(g, io[g], fibers[f := st], Spot(place, OfFiber(g)), timedOut, calls, ended)
    {
      assert IoOk(g, io[g], fibers, Spot(place, OfFiber(g)), timedOut, calls, ended);
    }
  }

  /** More timer_infos are marked. */
  lemma IoMark(io: map<Fiber, IoCall>, fibers: map<Fiber, FiberState>, place: Places, timedOut: set<int>,
               timedOut': set<int>, calls: Calls, ended: set<int>)
    requires IoInv(io, fibers, place, timedOut, calls, ended) && timedOut <= timedOut'
    ensures IoInv(io, fibers, place, timedOut', calls, ended)
  {
    forall f | f in io
      ensures IoOk(f, io[f], fibers, Spot(place, OfFiber(f)), timedOut', calls, ended)
    {
      assert IoOk(f, io[f], fibers, Spot(place, OfFiber(f)), timedOut, calls, ended);
    }
  }

  /** A callback ends that no do_io still counts on. */
  lemma IoEnded(io: map<Fiber, IoCall>, fibers: map<Fiber, FiberState>, place: Places, timedOut: set<int>,
                timedOut': set<int>, calls: Calls, ended: set<int>, id: int)
    requires IoInv(io, fibers, place, timedOut, calls, ended) && timedOut <= timedOut'
    requires forall f :: f in io && Counts(io[f], Spot(place, OfFiber(f))) && io[f].timer == Some(id) ==>
      io[f].info in timedOut'
    ensures IoInv(io, fibers, place, timedOut', calls, ended + {id})
  {
    forall f | f in io
      ensures IoOk(f, io[f], fibers, Spot(place, OfFiber(f)), timedOut', calls, ended + {id})
    {
      assert IoOk(f, io[f], fibers, Spot(place, OfFiber(f)), timedOut, calls, ended);
    }
  }

  lemma IoAt(io: map<Fiber, IoCall>, fibers: map<Fiber, FiberState>, place: Places, timedOut: set<int>,
             calls: Calls, ended: set<int>, f: Fiber)
    requires IoInv(io, fibers, place, timedOut, calls, ended) && f in io
    ensures IoOk(f, io[f], fibers, Spot(place, OfFiber(f)), timedOut, calls, ended)
  {
  }

  /** Only fiber f's call changes. */
  lemma IoSet(io: map<Fiber, IoCall>, fibers: map<Fiber, FiberState>, place: Places, timedOut: set<int>,
              calls: Calls, ended: set<int>, f: Fiber, call: IoCall, place': Places)
    requires IoInv(io, fibers, place, timedOut, calls, ended)
    requires forall g :: g != f ==> Spot(place', OfFiber(g)) == Spot(place, OfFiber(g))
    requires IoOk(f, call, fibers, Spot(place', OfFiber(f)), timedOut, calls, ended)
    requires forall g :: g in io && g != f ==> io[g].info != call.info
    ensures IoInv(io[f := call], fibers, place', timedOut, calls, ended)
  {
    forall g | g in io && g != f
      ensures IoOk(g, io[g], fibers, Spot(place', OfFiber(g)), timedOut, calls, ended)
    {
      assert IoOk(g, io[g], fibers, Spot(place, OfFiber(g)), timedOut, calls, ended);
    }
  }

  lemma IoDrop(io: map<Fiber, IoCall>, fibers: map<Fiber, FiberState>, place: Places, timedOut: set<int>,
               calls: Calls, ended: set<int>, f: Fiber)
    requires IoInv(io, fibers, place, timedOut, calls, ended)
    ensures IoInv(io - {f}, fibers, place, timedOut, calls, ended)
  {
    forall g | g in io - {f}
      ensures IoOk(g, io[g], fibers, Spot(place, OfFiber(g)), timedOut, calls, ended)
    {
      assert IoOk(g, io[g], fibers, Spot(place, OfFiber(g)), timedOut, calls, ended);
    }
  }

  // ---- a new callback under a new id ---------------------------------------------------------------------

  lemma KnownLater(calls: Calls, id: int, job: Job)
    requires id !in calls
    ensures forall j: Job :: Known(j, calls) ==> Known(j, calls[id := job])
  {
  }

  lemma QueueCalls(queue: seq<Entry>, place: Places, calls: Calls, id: int, job: Job)
    requires QueueInv(queue, place, calls) && id !in calls
    ensures QueueInv(queue, place, calls[id := job])
  {
    KnownLater(calls, id, job);
  }

  lemma SlotCalls(waiters: map<Slot, Job>, place: Places, calls: Calls, id: int, job: Job)
    requires SlotInv(waiters, place, calls) && id !in calls
    ensures SlotInv(waiters, place, calls[id := job])
  {
    KnownLater(calls, id, job);
  }

  lemma TimerCalls(timers: map<int, Job>, place: Places, calls: Calls, id: int, job: Job)
    requires TimerInv(timers, place, calls) && id !in calls
    ensures TimerInv(timers, place, calls[id := job])
  {
    KnownLater(calls, id, job);
  }

  lemma WorkerCalls(workers: map<Thread, Worker>, place: Places, calls: Calls, id: int, job: Job)
    requires WorkerInv(workers, place, calls) && id !in calls
    ensures WorkerInv(workers, place, calls[id := job])
  {
    KnownLater(calls, id, job);
    forall w | w in workers
      ensures WorkerOk(w, workers[w], place, calls[id := job])
    {
      assert WorkerOk(w, workers[w], place, calls);
    }
  }

  lemma IoCalls(io: map<Fiber, IoCall>, fibers: map<Fiber, FiberState>, place: Places, timedOut: set<int>,
                calls: Calls, ended: set<int>, id: int, job: Job)
    requires IoInv(io, fibers, place, timedOut, calls, ended) && id !in calls
    requires forall f :: f in io ==> SameSlot(io[f], job)
    ensures IoInv(io, fibers, place, timedOut, calls[id := job], ended)
  {
    forall g | g in io
      ensures IoOk(g, io[g], fibers, Spot(place, OfFiber(g)), timedOut, calls[id := job], ended)
    {
      assert IoOk(g, io[g], fibers, Spot(place, OfFiber(g)), timedOut, calls, ended);
    }
  }

  ghost predicate Inv(s: State)
  {
    && QueueInv(s.queue, s.place, s.calls)
    && SlotInv(s.waiters, s.place, s.calls)
    && TimerInv(s.timers, s.place, s.calls)
    && SemInv(s.sems, s.place)
    && WorkerInv(s.workers, s.place, s.calls)
    && HostInv(s.workers, s.fibers, s.host)
    && FiberInv(s.fibers, s.leaving, s.dropped, s.place)
    && HandInv(s.workers, s.fibers)
    && CancelInv(s.workers, s.cancelling, s.timedOut)
    && CountInv(s.workers, s.waiters, s.active, s.idle, s.pending)
    && CallInv(s.calls, s.place, s.ended, s.nextId)
    && IdInv(s.timers, s.calls, s.io, s.timedOut, s.nextId)
    && IoInv(s.io, s.fibers, s.place, s.timedOut, s.calls, s.ended)
  }
}
