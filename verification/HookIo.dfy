/** do_io: a blocking call made out of a non-blocking one, with retries and an optional time limit. What
    the system and the event loop answer is given as a script. */
module HookIo {
  import opened Common

  /** What a system call returns; errno counts when n is -1. */
  datatype Answer = Answer(n: int, errno: int)

  const EINTR := 4
  const EBADF := 9
  const EAGAIN := 11
  const ETIMEDOUT := 110

  /** How a wait for the descriptor goes: addEvent fails with some errno, the event comes, or the time limit
      does. */
  datatype Wait = Refused(errno: int) | Ready | Expired

  datatype Outcome = Returned(answer: Answer) | Blocked

  predicate Interrupted(a: Answer) { a.n == -1 && a.errno == EINTR }
  predicate WouldBlock(a: Answer) { a.n == -1 && a.errno == EAGAIN }
  predicate Decisive(a: Answer) { !Interrupted(a) && !WouldBlock(a) }

  // ---- what it should return ---------------------------------------------------------------------------

  /** The first decisive answer. */
  function FirstDecisive(calls: seq<Answer>): (k: nat)
    ensures k <= |calls| && (forall j :: 0 <= j < k ==> !Decisive(calls[j])) && (k < |calls| ==> Decisive(calls[k]))
  {
    if calls == [] || Decisive(calls[0]) then 0 else 1 + FirstDecisive(calls[1..])
  }

  /** How many of the answers ask to wait. */
  function Blocks(calls: seq<Answer>): nat
  {
    if calls == [] then 0 else (if WouldBlock(calls[0]) then 1 else 0) + Blocks(calls[1..])
  }

  function FirstUnready(waits: seq<Wait>): (j: nat)
    ensures j <= |waits| && (forall i :: 0 <= i < j ==> waits[i] == Ready) && (j < |waits| ==> waits[j] != Ready)
  {
    if waits == [] || waits[0] != Ready then 0 else 1 + FirstUnready(waits[1..])
  }

  function Failed(w: Wait): Outcome
  {
    Returned(Answer(-1, if w.Refused? then w.errno else ETIMEDOUT))
  }

  /** The blocking call's answer: that of the first decisive call, unless a wait before it fails. */
  function Expected(calls: seq<Answer>, waits: seq<Wait>): Outcome
  {
    var k, j := FirstDecisive(calls), FirstUnready(waits);
    if j < Blocks(calls[..k]) then
      (if j == |waits| then Blocked else Failed(waits[j]))
    else if k < |calls| then Returned(calls[k])
    else Blocked
  }

  // ---- what it does return, without Expected ------------------------------------------------------------

  /** do_io comes to call number k having waited j times: no call before k was decisive, each that would
      block was followed by a wait, and the event came in all of those. */
  ghost predicate Reaches(calls: seq<Answer>, waits: seq<Wait>, k: nat, j: nat)
  {
    && k <= |calls| && j <= |waits| && Blocks(calls[..k]) == j
    && (forall i :: 0 <= i < k ==> calls[i].n == -1 && (calls[i].errno == EINTR || calls[i].errno == EAGAIN))
    && (forall i :: 0 <= i < j ==> waits[i] == Ready)
  }

  /** Nothing leads on from there: the script ends, the answer is decisive, or the wait does not end well. */
  ghost predicate Ends(calls: seq<Answer>, waits: seq<Wait>, k: nat, j: nat)
    requires k <= |calls| && j <= |waits|
  {
    k == |calls| || Decisive(calls[k]) || (WouldBlock(calls[k]) && (j == |waits| || waits[j] != Ready))
  }

  lemma ReachesStart(calls: seq<Answer>, waits: seq<Wait>)
    ensures Reaches(calls, waits, 0, 0)
  {
  }

  lemma {:induction false} BlocksAppend(calls: seq<Answer>, a: Answer)
    ensures Blocks(calls + [a]) == Blocks(calls) + if WouldBlock(a) then 1 else 0
  {
    if calls == [] {
      assert [] + [a] == [a];
    } else {
      assert (calls + [a])[1..] == calls[1..] + [a];
      BlocksAppend(calls[1..], a);
    }
  }

  lemma ReachesNext(calls: seq<Answer>, waits: seq<Wait>, k: nat, j: nat)
    requires Reaches(calls, waits, k, j) && k < |calls|
    ensures Interrupted(calls[k]) ==> Reaches(calls, waits, k + 1, j)
    ensures WouldBlock(calls[k]) && j < |waits| && waits[j] == Ready ==> Reaches(calls, waits, k + 1, j + 1)
  {
    assert calls[..k + 1] == calls[..k] + [calls[k]];
    BlocksAppend(calls[..k], calls[k]);
  }

  /** Every script has one such end, and no other. */
  lemma OneEnd(calls: seq<Answer>, waits: seq<Wait>) returns (k: nat, j: nat)
    ensures Reaches(calls, waits, k, j) && Ends(calls, waits, k, j)
    ensures forall k': nat, j': nat ::
      Reaches(calls, waits, k', j') && Ends(calls, waits, k', j') ==> k' == k && j' == j
  {
    k, j := 0, 0;
    ReachesStart(calls, waits);
    while !Ends(calls, waits, k, j)
      invariant Reaches(calls, waits, k, j)
      decreases |calls| - k
    {
      ReachesNext(calls, waits, k, j);
      k, j := k + 1, if WouldBlock(calls[k]) then j + 1 else j;
    }
    OnlyEnd(calls, waits, k, j);
  }

  lemma OnlyEnd(calls: seq<Answer>, waits: seq<Wait>, k: nat, j: nat)
    requires Reaches(calls, waits, k, j) && Ends(calls, waits, k, j)
    ensures forall k': nat, j': nat ::
      Reaches(calls, waits, k', j') && Ends(calls, waits, k', j') ==> k' == k && j' == j
  {
    forall k': nat, j': nat | Reaches(calls, waits, k', j') && Ends(calls, waits, k', j')
      ensures k' == k && j' == j
    {
      if k' < k { NotYet(calls, waits, k', j', k, j); }
      if k < k' { NotYet(calls, waits, k, j, k', j'); }
    }
  }

  lemma NotYet(calls: seq<Answer>, waits: seq<Wait>, k: nat, j: nat, l: nat, m: nat)
    requires Reaches(calls, waits, k, j) && Reaches(calls, waits, l, m) && k < l
    ensures !Ends(calls, waits, k, j)
  {
    assert calls[..k + 1] == calls[..k] + [calls[k]];
    BlocksAppend(calls[..k], calls[k]);
    BlocksMono(calls, k + 1, l);
  }

  lemma {:induction false} BlocksMono(calls: seq<Answer>, k: nat, l: nat)
    requires k <= l <= |calls|
    ensures Blocks(calls[..k]) <= Blocks(calls[..l])
    decreases l
  {
    if k < l {
      assert calls[..l] == calls[..l - 1] + [calls[l - 1]];
      BlocksAppend(calls[..l - 1], calls[l - 1]);
      BlocksMono(calls, k, l - 1);
    }
  }

  /** The outcome at that end. */
  ghost predicate Tells(out: Outcome, calls: seq<Answer>, waits: seq<Wait>)
  {
    && (forall k: nat, j: nat :: Reaches(calls, waits, k, j) && k < |calls| && Decisive(calls[k]) ==>
          out == Returned(calls[k]))
    && (forall k: nat, j: nat ::
          Reaches(calls, waits, k, j) && k < |calls| && WouldBlock(calls[k]) && j < |waits| && waits[j] == Expired ==>
          out == Returned(Answer(-1, ETIMEDOUT)))
    && (forall k: nat, j: nat ::
          Reaches(calls, waits, k, j) && k < |calls| && WouldBlock(calls[k]) && j < |waits| && waits[j].Refused? ==>
          out == Returned(Answer(-1, waits[j].errno)))
    && (forall k: nat, j: nat ::
          Reaches(calls, waits, k, j) && (k == |calls| || (WouldBlock(calls[k]) && j == |waits|)) ==>
          out == Blocked)
  }

  /** With a time limit, every wait it came to had a timer of its own, the one it ended at included. */
  ghost predicate OneEach(timers: seq<bool>, calls: seq<Answer>, waits: seq<Wait>)
  {
    forall k: nat, j: nat :: Reaches(calls, waits, k, j) && Ends(calls, waits, k, j) ==>
      |timers| == if k < |calls| && WouldBlock(calls[k]) then j + 1 else j
  }

  lemma EndCounts(timers: seq<bool>, calls: seq<Answer>, waits: seq<Wait>, k: nat, j: nat)
    requires Reaches(calls, waits, k, j) && Ends(calls, waits, k, j)
    requires |timers| == if k < |calls| && WouldBlock(calls[k]) then j + 1 else j
    ensures OneEach(timers, calls, waits)
  {
    OnlyEnd(calls, waits, k, j);
    hide Reaches, Ends;
  }

  lemma EndTells(out: Outcome, calls: seq<Answer>, waits: seq<Wait>, k: nat, j: nat)
    requires Reaches(calls, waits, k, j)
    requires k < |calls| && Decisive(calls[k]) ==> out == Returned(calls[k])
    requires k < |calls| && WouldBlock(calls[k]) && j < |waits| ==>
      waits[j] != Ready && out == Returned(Answer(-1, if waits[j] == Expired then ETIMEDOUT else waits[j].errno))
    requires k == |calls| || (WouldBlock(calls[k]) && j == |waits|) ==> out == Blocked
    requires Ends(calls, waits, k, j)
    ensures Tells(out, calls, waits)
  {
    OnlyEnd(calls, waits, k, j);
    hide Reaches, Blocks;
  }

  // ---- one call at a time --------------------------------------------------------------------------------

  lemma BlocksNext(calls: seq<Answer>, k: nat)
    requires 0 < k <= |calls|
    ensures Blocks(calls[..k]) == (if WouldBlock(calls[0]) then 1 else 0) + Blocks(calls[1..][..k - 1])
  {
    assert calls[..k][1..] == calls[1..][..k - 1];
  }

  lemma AfterInterrupt(calls: seq<Answer>, waits: seq<Wait>)
    requires calls != [] && Interrupted(calls[0])
    ensures Expected(calls, waits) == Expected(calls[1..], waits)
  {
    BlocksNext(calls, FirstDecisive(calls));
  }

  lemma AfterReady(calls: seq<Answer>, waits: seq<Wait>)
    requires calls != [] && WouldBlock(calls[0]) && waits != [] && waits[0] == Ready
    ensures Expected(calls, waits) == Expected(calls[1..], waits[1..])
  {
    BlocksNext(calls, FirstDecisive(calls));
  }

  lemma AtWait(calls: seq<Answer>, waits: seq<Wait>)
    requires calls != [] && WouldBlock(calls[0]) && (waits == [] || waits[0] != Ready)
    ensures waits == [] ==> Expected(calls, waits) == Blocked
    ensures waits != [] ==> Expected(calls, waits) == Failed(waits[0])
  {
    BlocksNext(calls, FirstDecisive(calls));
  }

  lemma AtEnd(calls: seq<Answer>, waits: seq<Wait>)
    requires calls == [] || Decisive(calls[0])
    ensures Expected(calls, waits) == if calls == [] then Blocked else Returned(calls[0])
  {
  }

  /** What is still to come at call c and wait w. */
  function Ahead(calls: seq<Answer>, waits: seq<Wait>, c: nat, w: nat): Outcome
    requires c <= |calls| && w <= |waits|
  {
    Expected(calls[c..], waits[w..])
  }

  lemma Turn(calls: seq<Answer>, waits: seq<Wait>, c: nat, w: nat)
    requires c <= |calls| && w <= |waits|
    ensures c == |calls| ==> Ahead(calls, waits, c, w) == Blocked
    ensures c < |calls| && Decisive(calls[c]) ==> Ahead(calls, waits, c, w) == Returned(calls[c])
    ensures c < |calls| && Interrupted(calls[c]) ==> Ahead(calls, waits, c, w) == Ahead(calls, waits, c + 1, w)
    ensures c < |calls| && WouldBlock(calls[c]) ==>
      (Ahead(calls, waits, c, w) ==
       if w == |waits| then Blocked
       else if waits[w] == Ready then Ahead(calls, waits, c + 1, w + 1)
       else Failed(waits[w]))
  {
    hide Expected, Failed;
    if c == |calls| || Decisive(calls[c]) {
      AtEnd(calls[c..], waits[w..]);
    } else {
      assert calls[c..][1..] == calls[c + 1..];
      if Interrupted(calls[c]) {
        AfterInterrupt(calls[c..], waits[w..]);
      } else if w < |waits| && waits[w] == Ready {
        assert waits[w..][1..] == waits[w + 1..];
        AfterReady(calls[c..], waits[w..]);
      } else {
        AtWait(calls[c..], waits[w..]);
      }
    }
  }

  /** What do_io knows of the descriptor. */
  datatype FdState = Unhooked | Unknown | Closed | PassThrough | Hooked

  /** do_io itself. timers lists every timer it armed, in order, and whether it has cancelled it. */
  method DoIo(fd: FdState, timeout: Option<nat>, calls: seq<Answer>, waits: seq<Wait>)
    returns (out: Outcome, timers: seq<bool>)
    requires fd == Hooked || calls != []
    ensures fd == Hooked ==> out == Expected(calls, waits) && Tells(out, calls, waits)
    ensures fd == Closed ==> out == Returned(Answer(-1, EBADF))
    ensures fd != Hooked && fd != Closed ==> out == Returned(calls[0])
    ensures out.Returned? ==> forall i :: 0 <= i < |timers| ==> timers[i]
    ensures timeout == None || fd != Hooked ==> timers == []
    ensures timeout.Some? && fd == Hooked ==> OneEach(timers, calls, waits)
    ensures out.Blocked? ==> forall i :: 0 <= i < |timers| - 1 ==> timers[i]
  {
    if fd == Unhooked || fd == Unknown {
      return Returned(calls[0]), [];
    }
    if fd == Closed {
      return Returned(Answer(-1, EBADF)), [];
    }
    if fd == PassThrough {
      return Returned(calls[0]), [];
    }
    assert Ahead(calls, waits, 0, 0) == Expected(calls, waits) by { assert calls[0..] == calls && waits[0..] == waits; }
    out, timers := Retry(timeout, calls, waits);
  }

  /** The part after the retry label. */
  method Retry(timeout: Option<nat>, calls: seq<Answer>, waits: seq<Wait>) returns (out: Outcome, timers: seq<bool>)
    ensures out == Ahead(calls, waits, 0, 0) && Tells(out, calls, waits)
    ensures out.Returned? ==> forall i :: 0 <= i < |timers| ==> timers[i]
    ensures timeout == None ==> timers == []
    ensures timeout.Some? ==> OneEach(timers, calls, waits)
    ensures out.Blocked? ==> forall i :: 0 <= i < |timers| - 1 ==> timers[i]
  {
    hide Ahead, Reaches, Tells, OneEach;
    timers := [];
    var c, w := 0, 0;
    ReachesStart(calls, waits);
    while true
      invariant 0 <= c <= |calls| && 0 <= w <= |waits| && Reaches(calls, waits, c, w)
      invariant Ahead(calls, waits, c, w) == Ahead(calls, waits, 0, 0)
      invariant (forall i :: 0 <= i < |timers| ==> timers[i]) && (timeout == None ==> timers == [])
      invariant timeout.Some? ==> |timers| == w
      decreases |calls| - c
    {
      while c < |calls| && Interrupted(calls[c])
        invariant 0 <= c <= |calls| && Reaches(calls, waits, c, w)
        invariant Ahead(calls, waits, c, w) == Ahead(calls, waits, 0, 0)
      {
        Turn(calls, waits, c, w);
        ReachesNext(calls, waits, c, w);
        c := c + 1;
      }
      Turn(calls, waits, c, w);
      if c == |calls| {
        EndTells(Blocked, calls, waits, c, w);
        if timeout.Some? { EndCounts(timers, calls, waits, c, w); }
        return Blocked, timers;
      }
      if !WouldBlock(calls[c]) {
        EndTells(Returned(calls[c]), calls, waits, c, w);
        if timeout.Some? { EndCounts(timers, calls, waits, c, w); }
        return Returned(calls[c]), timers;
      }
      if timeout.Some? {
        timers := timers + [false];
      }
      if w == |waits| {
        EndTells(Blocked, calls, waits, c, w);
        if timeout.Some? { EndCounts(timers, calls, waits, c, w); }
        return Blocked, timers;
      }
      if timeout.Some? {
        timers := timers[|timers| - 1 := true];
      }
      if waits[w].Refused? {
        EndTells(Returned(Answer(-1, waits[w].errno)), calls, waits, c, w);
        if timeout.Some? { EndCounts(timers, calls, waits, c, w); }
        return Returned(Answer(-1, waits[w].errno)), timers;
      }
      if waits[w] == Expired {
        EndTells(Returned(Answer(-1, ETIMEDOUT)), calls, waits, c, w);
        if timeout.Some? { EndCounts(timers, calls, waits, c, w); }
        return Returned(Answer(-1, ETIMEDOUT)), timers;
      }
      ReachesNext(calls, waits, c, w);
      c, w := c + 1, w + 1;
    }
  }

  /** The caller sees an interruption or "would block" only as addEvent's own failure. */
  lemma LooksBlocking(calls: seq<Answer>, waits: seq<Wait>)
    ensures var out := Expected(calls, waits);
      out.Returned? ==> Decisive(out.answer) || Refused(out.answer.errno) in waits
  {
    var j := FirstUnready(waits);
    if j < |waits| { assert waits[j] in waits; }
  }
}
