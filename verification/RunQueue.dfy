/** The scheduler's shared task list: what an entry is, which one a worker takes, and what pushing does. */
module RunQueues {
  import opened Common

  type Fiber = int
  type Fd = int

  datatype FiberState = INIT | HOLD | EXEC | TERM | READY | EXCEPT

  /** What a queue entry runs: a fiber, or a callback. Of callbacks, those the framework makes itself
      are told apart from the user's. */
  datatype Job =
    | Resume(fiber: Fiber)                                 // a fiber entry
    | Wake(fiber: Fiber)                                   // the call schedule(fiber) a sleep's timer holds
    | Timeout(id: int, fd: Fd, event: Event, info: int)    // the callback of an I/O timeout
    | Plain(id: int)                                       // any other callback

  /** thread is -1 for any worker. */
  datatype Entry = Entry(job: Job, thread: int)

  /** The scan takes e on this thread: its tag matches and its fiber is not executing. */
  predicate Eligible(e: Entry, thread: int, states: map<Fiber, FiberState>)
  {
    && (e.thread == -1 || e.thread == thread)
    && !(e.job.Resume? && e.job.fiber in states && states[e.job.fiber] == EXEC)
  }

  /** The first eligible entry from index i on. */
  function PickFrom(q: seq<Entry>, thread: int, states: map<Fiber, FiberState>, i: nat): (r: Option<nat>)
    requires i <= |q|
    ensures r.Some? ==> i <= r.value < |q| && Eligible(q[r.value], thread, states)
    ensures forall j :: i <= j < (if r.Some? then r.value else |q|) ==> !Eligible(q[j], thread, states)
    decreases |q| - i
  {
    if i == |q| then None
    else if Eligible(q[i], thread, states) then Some(i)
    else PickFrom(q, thread, states, i + 1)
  }

  /** The entries a worker may pass over are those tagged for another thread and the fibers that execute. It
      finds nothing exactly if there are no others, and else the first of the others. */
  lemma PickFromFirst(q: seq<Entry>, thread: int, states: map<Fiber, FiberState>)
    ensures PickFrom(q, thread, states, 0) == None <==>
      forall j :: 0 <= j < |q| ==>
        || (q[j].thread != -1 && q[j].thread != thread)
        || (q[j].job.Resume? && q[j].job.fiber in states && states[q[j].job.fiber] == EXEC)
    ensures forall i :: PickFrom(q, thread, states, 0) == Some(i) ==>
      && i < |q| && (q[i].thread == -1 || q[i].thread == thread)
      && (q[i].job.Resume? && q[i].job.fiber in states ==> states[q[i].job.fiber] != EXEC)
      && forall j :: 0 <= j < i ==>
        || (q[j].thread != -1 && q[j].thread != thread)
        || (q[j].job.Resume? && q[j].job.fiber in states && states[q[j].job.fiber] == EXEC)
  {
    var r := PickFrom(q, thread, states, 0);
    if r.Some? { assert Eligible(q[r.value], thread, states); }
    forall j | 0 <= j < if r.Some? then r.value else |q|
      ensures !Eligible(q[j], thread, states)
    {
    }
  }

  /** q without entry i, the others in their order. */
  function Without(q: seq<Entry>, i: nat): (r: seq<Entry>)
    requires i < |q|
    ensures |r| == |q| - 1
    ensures forall j :: 0 <= j < i ==> r[j] == q[j]
    ensures forall j :: i <= j < |r| ==> r[j] == q[j + 1]
  {
    q[..i] + q[i + 1..]
  }

  /** Nothing is lost or made twice by a pick. */
  lemma WithoutKeepsRest(q: seq<Entry>, i: nat)
    requires i < |q|
    ensures multiset(Without(q, i)) + multiset{q[i]} == multiset(q)
  {
    assert q == q[..i] + [q[i]] + q[i + 1..];
  }

  /** e is entry i of q, rest is q without it, and the entries before it are for other threads or fibers that
      execute. */
  ghost predicate First(q: seq<Entry>, i: int, e: Entry, rest: seq<Entry>, thread: int, states: map<Fiber, FiberState>)
  {
    && 0 <= i < |q| && q[i] == e && rest == q[..i] + q[i + 1..]
    && forall j :: 0 <= j < i ==>
      || (q[j].thread != -1 && q[j].thread != thread)
      || (q[j].job.Resume? && q[j].job.fiber in states && states[q[j].job.fiber] == EXEC)
  }

  class RunQueue {
    var entries: seq<Entry>

    /** Appends a task; the answer says whether the list was empty. An entry with neither fiber nor
        callback is not kept. */
    method ScheduleNoLock(job: Option<Job>, thread: int) returns (needTickle: bool)
      modifies this
      ensures needTickle == (old(entries) == [])
      ensures entries == old(entries) + if job.Some? then [Entry(job.value, thread)] else []
    {
      needTickle := entries == [];
      if job.Some? {
        entries := entries + [Entry(job.value, thread)];
      }
    }

    /** Appends callbacks in order, as schedule(begin, end) does. */
    method ScheduleAll(jobs: seq<Job>) returns (needTickle: bool)
      modifies this
      ensures entries == old(entries) + seq(|jobs|, i requires 0 <= i < |jobs| => Entry(jobs[i], -1))
      ensures needTickle == (old(entries) == [] && jobs != [])
    {
      needTickle := false;
      var i := 0;
      while i < |jobs|
        invariant 0 <= i <= |jobs|
        invariant entries == old(entries) + seq(i, k requires 0 <= k < i => Entry(jobs[k], -1))
        invariant needTickle == (old(entries) == [] && i > 0)
      {
        var first := ScheduleNoLock(Some(jobs[i]), -1);
        needTickle := first || needTickle;
        i := i + 1;
      }
    }

    /** The scan of run: takes the first eligible entry out and says whether other workers should look. */
    method Pick(thread: int, states: map<Fiber, FiberState>) returns (picked: Option<Entry>, tickleMe: bool)
      modifies this
      ensures var r := PickFrom(old(entries), thread, states, 0);
        match r
        case None => picked == None && entries == old(entries)
        case Some(i) => picked == Some(old(entries)[i]) && entries == Without(old(entries), i)
      ensures picked == None <==>
        forall e :: e in old(entries) ==>
          || (e.thread != -1 && e.thread != thread)
          || (e.job.Resume? && e.job.fiber in states && states[e.job.fiber] == EXEC)
      ensures picked.Some? ==>
        && (picked.value.thread == -1 || picked.value.thread == thread)
        && (picked.value.job.Resume? && picked.value.job.fiber in states ==> states[picked.value.job.fiber] != EXEC)
        && exists i :: First(old(entries), i, picked.value, entries, thread, states)
      ensures tickleMe <==>
        || (exists j ::
              && 0 <= j < |old(entries)| && (picked.Some? ==> j < PickFrom(old(entries), thread, states, 0).value)
              && old(entries)[j].thread != -1 && old(entries)[j].thread != thread)
        || (picked.Some? && PickFrom(old(entries), thread, states, 0).value + 1 < |old(entries)|)
    {
      picked, tickleMe := None, false;
      var it := 0;
      ghost var q := entries;
      PickFromFirst(q, thread, states);
      while it < |entries|
        invariant 0 <= it <= |entries| && entries == q && picked == None
        invariant PickFrom(q, thread, states, 0) == PickFrom(q, thread, states, it)
        invariant tickleMe <==> exists j :: 0 <= j < it && q[j].thread != -1 && q[j].thread != thread
      {
        var e := entries[it];
        if e.thread != -1 && e.thread != thread {
          it := it + 1;
          tickleMe := true;
          continue;
        }
        if e.job.Resume? && e.job.fiber in states && states[e.job.fiber] == EXEC {
          it := it + 1;
          continue;
        }
        picked := Some(e);
        entries := Without(entries, it);
        assert First(q, it, e, entries, thread, states);
        break;
      }
      tickleMe := tickleMe || it < |entries|;
    }
  }
}
