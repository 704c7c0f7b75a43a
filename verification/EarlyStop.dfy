/** A run in which the scheduler reports that it is stopping too early: two workers, one timer. Worker 1 has
    taken the expired timer out of the set and not scheduled its callback yet when worker 2 asks, is told that
    nothing is left to be done, and leaves for good. */
module EarlyStop {
  import opened Common
  import opened RunQueues
  import opened Protocol
  import opened Reaching
  import opened Safety
  import opened Shutdown

  /** Both workers, and everything stopping() looks at; the callback n has been accepted and is not over. */
  ghost predicate Snap(s: State, a: Pc, b: Worker, timers: map<int, Job>, n: int)
  {
    && Reachable(s) && s.workers.Keys == {1, 2} && s.workers[1] == Worker(a, None, false) && s.workers[2] == b
    && s.queue == [] && s.timers == timers && s.pending == 0 && s.active == 0
    && n in s.calls && n !in s.ended
  }

  lemma TimerAdded(s: State) returns (r: State, n: int)
    requires Init(s) && s.workers.Keys == {1, 2}
    ensures Snap(r, Scanning, Worker(Scanning, None, false), map[n := Plain(n)], n)
  {
    hide Reachable;
    Starting(s);
    n := s.nextId;
    Acting(s, AddTimer);
    r := ApplyAct(s, AddTimer);
  }

  lemma Stopped(s: State, n: int) returns (r: State)
    requires Snap(s, Scanning, Worker(Scanning, None, false), map[n := Plain(n)], n)
    ensures Snap(r, Scanning, Worker(Scanning, None, false), map[n := Plain(n)], n) && r.autoStop && r.stopping
  {
    hide Reachable;
    Acting(s, Stop);
    r := ApplyAct(s, Stop);
  }

  /** Worker 1 takes the expired timer out of the set. */
  lemma Collected(s: State, n: int) returns (r: State)
    requires Snap(s, Scanning, Worker(Scanning, None, false), map[n := Plain(n)], n) && s.autoStop && s.stopping
    ensures Snap(r, Idling([Plain(n)]), Worker(Scanning, None, false), map[], n) && r.autoStop && r.stopping
  {
    hide Reachable;
    EnteringIdle(s, 1);
    var s1 := SetWorker(s.(idle := s.idle + 1), 1, s.workers[1].(pc := Idling([])));
    Collecting(s1, 1, n);
    r := DoCollect(s1, 1, n);
    assert r.workers[1].pc.batch == [Plain(n)];
  }

  /** Worker 2's idle fiber asks, and ends. */
  lemma IdleEnds(s: State, n: int) returns (r: State)
    requires Snap(s, Idling([Plain(n)]), Worker(Scanning, None, false), map[], n) && s.autoStop && s.stopping
    ensures Snap(r, Idling([Plain(n)]), Worker(Scanning, None, true), map[], n) && r.autoStop && r.stopping
  {
    hide Reachable;
    EnteringIdle(s, 2);
    var s1 := SetWorker(s.(idle := s.idle + 1), 2, s.workers[2].(pc := Idling([])));
    EndingIdle(s1, 2);
    r := SetWorker(s1.(idle := s1.idle - 1), 2, s1.workers[2].(pc := Scanning, idleDone := true));
  }

  lemma Left(s: State, n: int) returns (r: State)
    requires Snap(s, Idling([Plain(n)]), Worker(Scanning, None, true), map[], n) && s.autoStop && s.stopping
    ensures Snap(r, Idling([Plain(n)]), Worker(Exited, None, true), map[], n) && Stopping(r)
  {
    hide Reachable;
    Exiting(s, 2);
    r := SetWorker(s, 2, s.workers[2].(pc := Exited));
  }

  /** Worker 1 may now put the callback on the list, which ends the stopping that worker 2 was told of. */
  ghost predicate TooEarly(s: State)
  {
    && Reachable(s) && Stopping(s) && At(s, 2, Exited)
    && (exists n :: n in s.calls && n !in s.ended)
    && exists s' :: Next(s, ScheduleCollected(1), s') && !Stopping(s')
  }

  lemma StoppingEnds(s: State, n: int)
    requires Snap(s, Idling([Plain(n)]), Worker(Exited, None, true), map[], n) && Stopping(s)
    ensures TooEarly(s)
  {
    hide Reachable;
    var s' := DoScheduleCollected(s, 1);
    UnloadingBatch(s, 1);
    assert Next(s, ScheduleCollected(1), s');
    hide DoScheduleCollected;
  }

  lemma StopsTooEarly(s: State)
    requires Init(s) && s.workers.Keys == {1, 2}
    ensures exists r :: TooEarly(r)
  {
    hide Init, Snap, TooEarly, Stopping;
    var r1, n := TimerAdded(s);
    var r2 := Stopped(r1, n);
    var r3 := Collected(r2, n);
    var r4 := IdleEnds(r3, n);
    var r5 := Left(r4, n);
    StoppingEnds(r5, n);
  }
}
