/** The timer manager: a set ordered by each timer's due time and address, and the flag that says
    whether its owner has been told of an earlier timer. Times are unsigned 64-bit milliseconds. */
module Timers {
  import opened Common

  type Callback = int

  const WORD := 0x1_0000_0000_0000_0000
  const HOUR := 60 * 60 * 1000
  type Time = t: int | 0 <= t < WORD

  /** Unsigned 64-bit sum and difference. */
  function Plus(a: Time, b: Time): (r: Time)
    ensures r == if a + b < WORD then a + b else a + b - WORD
  {
    (a + b) % WORD
  }

  function Minus(a: Time, b: Time): (r: Time)
    ensures r == if b <= a then a - b else a + (WORD - b)
  {
    (a - b) % WORD
  }

  // ---- the order of the set ------------------------------------------------------------------------

  datatype Key = Key(next: int, addr: int)

  /** Comparator: by due time, ties by address. */
  predicate Before(a: Key, b: Key)
  {
    a.next < b.next || (a.next == b.next && a.addr < b.addr)
  }

  /** It is a strict total order, as an ordered set demands. */
  lemma ComparatorIsStrictTotal(a: Key, b: Key, c: Key)
    ensures !Before(a, a)
    ensures Before(a, b) && Before(b, c) ==> Before(a, c)
    ensures Before(a, b) || Before(b, a) || a == b
    ensures !(Before(a, b) && Before(b, a))
  {
  }

  predicate Sorted(keys: seq<Key>)
  {
    forall i, j :: 0 <= i < j < |keys| ==> Before(keys[i], keys[j])
  }

  /** lower_bound: the first position whose key is not before k. */
  function LowerBound(keys: seq<Key>, k: Key): (i: nat)
    ensures i <= |keys| && forall j :: 0 <= j < i ==> Before(keys[j], k)
    ensures i < |keys| ==> !Before(keys[i], k)
  {
    if keys == [] || !Before(keys[0], k) then 0 else 1 + LowerBound(keys[1..], k)
  }

  /** From i on, over the keys due exactly now. */
  function SkipEqual(keys: seq<Key>, i: nat, now: int): (r: nat)
    requires i <= |keys|
    ensures i <= r <= |keys| && forall j :: i <= j < r ==> keys[j].next == now
    ensures r < |keys| ==> keys[r].next != now
    decreases |keys| - i
  {
    if i == |keys| || keys[i].next != now then i else SkipEqual(keys, i + 1, now)
  }

  /** How many keys are due at or before now. */
  function Due(keys: seq<Key>, now: int): nat
  {
    if keys == [] then 0 else (if keys[0].next <= now then 1 else 0) + Due(keys[1..], now)
  }

  lemma {:induction false} DueSplit(keys: seq<Key>, now: int, i: nat)
    requires i <= |keys|
    requires forall j :: 0 <= j < i ==> keys[j].next <= now
    requires forall j :: i <= j < |keys| ==> keys[j].next > now
    ensures Due(keys, now) == i
  {
    if keys != [] { DueSplit(keys[1..], now, if i > 0 then i - 1 else 0); }
  }

  /** Wherever the probe timer happens to be allocated, lower_bound and the loop after it stop right after
      the timers due at or before now. */
  lemma ExactExpiry(keys: seq<Key>, now: int, probe: int)
    requires Sorted(keys)
    ensures var it := SkipEqual(keys, LowerBound(keys, Key(now, probe)), now);
      && it == Due(keys, now)
      && (forall i :: 0 <= i < it ==> keys[i].next <= now)
      && (forall i :: it <= i < |keys| ==> keys[i].next > now)
  {
    var lower := LowerBound(keys, Key(now, probe));
    var it := SkipEqual(keys, lower, now);
    forall i | it <= i < |keys|
      ensures keys[i].next > now
    {
      assert keys[lower].next >= now;
      if lower < it { assert keys[it].next != now && Before(keys[lower], keys[it]); }
      if it < i { assert Before(keys[it], keys[i]); }
    }
    DueSplit(keys, now, it);
  }

  // ---- timers and their manager ------------------------------------------------------------------------

  function KeysOf(ts: seq<Timer>): (keys: seq<Key>)
    reads ts
    ensures |keys| == |ts| && forall i :: 0 <= i < |ts| ==> keys[i] == ts[i].AsKey()
  {
    seq(|ts|, i requires 0 <= i < |ts| reads ts => ts[i].AsKey())
  }

  function Elems(ts: seq<Timer>): set<Timer>
  {
    set t | t in ts
  }

  /** The set: in order, each element at its own address. */
  ghost predicate OrderedSet(ts: seq<Timer>)
    reads ts`next
  {
    && (forall i, j :: 0 <= i < j < |ts| ==> Before(ts[i].AsKey(), ts[j].AsKey()))
    && (forall i, j :: 0 <= i < j < |ts| ==> ts[i].addr != ts[j].addr)
  }

  /** Position i is where key k belongs in ts. */
  ghost predicate Fits(ts: seq<Timer>, k: Key, i: int)
    reads ts`next
  {
    && 0 <= i <= |ts|
    && (forall j :: 0 <= j < i ==> Before(ts[j].AsKey(), k))
    && (i < |ts| ==> !Before(ts[i].AsKey(), k))
  }

  lemma FitsIsLowerBound(ts: seq<Timer>, k: Key, i: int)
    requires Fits(ts, k, i)
    ensures i == LowerBound(KeysOf(ts), k)
  {
  }

  lemma ErasedOrdered(ts: seq<Timer>, i: nat)
    requires OrderedSet(ts) && i < |ts|
    ensures var r := ts[..i] + ts[i + 1..]; OrderedSet(r) && Elems(r) == Elems(ts) - {ts[i]}
  {
    var r := ts[..i] + ts[i + 1..];
    forall t | t in ts && t != ts[i]
      ensures t in r
    {
      var j :| 0 <= j < |ts| && ts[j] == t;
      assert r[if j < i then j else j - 1] == t;
    }
  }

  lemma InsertedOrdered(ts: seq<Timer>, t: Timer, i: nat)
    requires OrderedSet(ts) && Fits(ts, t.AsKey(), i)
    requires forall u :: u in Elems(ts) ==> u.addr != t.addr
    ensures var r := ts[..i] + [t] + ts[i..]; OrderedSet(r) && Elems(r) == Elems(ts) + {t}
  {
    InsertedElems(ts, t, i);
    hide Elems;
    var r, k := ts[..i] + [t] + ts[i..], t.AsKey();
    forall j | i <= j < |ts|
      ensures Before(k, ts[j].AsKey())
    {
      if i < j { assert Before(ts[i].AsKey(), ts[j].AsKey()); }
      ComparatorIsStrictTotal(k, ts[i].AsKey(), ts[j].AsKey());
    }
  }

  lemma InsertedElems(ts: seq<Timer>, t: Timer, i: nat)
    requires i <= |ts|
    ensures Elems(ts[..i] + [t] + ts[i..]) == Elems(ts) + {t}
    ensures forall j :: 0 <= j < |ts| ==> ts[j] in Elems(ts)
  {
    assert ts == ts[..i] + ts[i..];
  }

  /** The clock went back by more than an hour, or at all when it had stood below one hour. */
  predicate Rollover(previous: Time, now: Time)
  {
    now < previous && (previous < HOUR || previous - now > HOUR)
  }

  /** A timer started at start and running for ms was last started at start, wrapping or not. */
  lemma StartOf(start: Time, ms: Time)
    ensures Minus(Plus(start, ms), ms) == start
  {
  }

  class Timer {
    const addr: int
    const recurring: bool
    const manager: TimerManager
    var ms: Time
    var next: Time
    var cb: Option<Callback>

    constructor (ms: Time, cb: Callback, recurring: bool, manager: TimerManager, addr: int, now: Time)
      ensures this.ms == ms && next == Plus(now, ms) && this.cb == Some(cb)
      ensures this.recurring == recurring && this.manager == manager && this.addr == addr
    {
      this.ms, next, this.cb := ms, Plus(now, ms), Some(cb);
      this.recurring, this.manager, this.addr := recurring, manager, addr;
    }

    function AsKey(): Key
      reads `next
    {
      Key(next, addr)
    }

    /** The last time it was started. */
    function Start(): Time
      reads this
    {
      Minus(next, ms)
    }

    /** Succeeds once: from then on the callback is never delivered. */
    method Cancel() returns (ok: bool)
      requires manager.Valid() && this in manager.all
      modifies this`cb, manager`timers, manager`cancelledAt
      ensures manager.Valid() && cb == None
      ensures ok == old(cb.Some?)
      ensures Elems(manager.timers) == old(Elems(manager.timers)) - {this}
      ensures ok ==> manager.cancelledAt == old(manager.cancelledAt)[this := |manager.delivered|]
      ensures ok && !recurring ==> this !in manager.delivered
      ensures !ok ==> manager.timers == old(manager.timers) && manager.cancelledAt == old(manager.cancelledAt)
      ensures old(manager.Calm()) ==> manager.Calm()
    {
      if cb == None {
        return false;
      }
      manager.OwnAddress(this);
      Drop();
      var found := manager.Take(this);
      manager.NoteCancel(this);
      return true;
    }

    /** The callback is let go of. */
    method Drop()
      requires manager.History()
      modifies `cb
      ensures manager.History() && cb == None
    {
      cb := None;
    }

    /** Takes the timer out of the set, moves its due time and puts it back: its key never changes inside. */
    method Rearm(at: Time) returns (ok: bool, notify: bool)
      requires manager.Valid() && this in manager.all && cb.Some?
      modifies `next, manager`timers, manager`tickled
      ensures manager.Valid() && ok && next == at && manager.Told(this, old(manager.tickled), notify)
      ensures Elems(manager.timers) == old(Elems(manager.timers))
      ensures old(manager.Calm()) ==> manager.Calm()
    {
      manager.OwnAddress(this);
      assert this in Elems(manager.timers);
      hide manager.History, manager.Ordered, OrderedSet, manager.Calm, manager.Told, manager.IsFirst, Elems;
      ghost var elems := Elems(manager.timers);
      var found := manager.Take(this);
      if !found {
        return false, false;
      }
      next := at;
      notify := manager.AddLocked(this);
      assert elems - {this} + {this} == elems;
      ok := true;
    }

    /** Starts the timer's period again, now. */
    method Refresh(now: Time) returns (ok: bool, notify: bool)
      requires manager.Valid() && this in manager.all
      modifies `next, manager`timers, manager`tickled
      ensures manager.Valid() && ok == old(cb.Some?)
      ensures ok ==> next == Plus(now, ms) && manager.Told(this, old(manager.tickled), notify)
      ensures !ok ==> next == old(next) && manager.tickled == old(manager.tickled)
      ensures Elems(manager.timers) == old(Elems(manager.timers))
      ensures old(manager.Calm()) ==> manager.Calm()
    {
      if cb == None {
        return false, false;
      }
      ok, notify := Rearm(Plus(now, ms));
    }

    /** Gives the timer another period, counted from now or from its last start. With the old period and
        not from now it does nothing, and then succeeds even when the timer is no longer armed. */
    method Reset(newMs: Time, fromNow: bool, now: Time) returns (ok: bool, notify: bool)
      requires manager.Valid() && this in manager.all
      modifies `ms, `next, manager`timers, manager`tickled
      ensures manager.Valid() && ok == (old(cb.Some?) || (newMs == old(ms) && !fromNow))
      ensures ok ==> ms == newMs && Start() == (if fromNow then now else old(Start()))
      ensures !ok || (newMs == old(ms) && !fromNow) ==>
        next == old(next) && ms == old(ms) && manager.tickled == old(manager.tickled)
      ensures ok && !(newMs == old(ms) && !fromNow) ==> manager.Told(this, old(manager.tickled), notify)
      ensures Elems(manager.timers) == old(Elems(manager.timers))
      ensures old(manager.Calm()) ==> manager.Calm()
    {
      if newMs == ms && !fromNow {
        return true, false;
      }
      if cb == None {
        return false, false;
      }
      var start := if fromNow then now else Minus(next, ms);
      ms := newMs;
      StartOf(start, ms);
      ok, notify := Rearm(Plus(start, ms));
    }
  }

  class TimerManager {
    var timers: seq<Timer>
    var tickled: bool
    var previousTime: Time
    // every timer made, every delivery so far, and how many there were when a timer was cancelled
    ghost var all: set<Timer>
    ghost var delivered: seq<Timer>
    ghost var cancelledAt: map<Timer, nat>
    // when the owner means to look again, as the last getNextTimer told it
    ghost var deadline: int

    ghost predicate Ordered()
      reads `timers, timers`next
    {
      OrderedSet(timers)
    }

    /** A timer has a callback exactly while it is in the set. */
    ghost predicate Armed()
      reads `timers, `all, all`cb
    {
      && Elems(timers) <= all
      && (forall t :: t in all ==> t.manager == this && (t.cb.Some? <==> t in Elems(timers)))
    }

    /** A one-shot is delivered at most once, and nothing is delivered after its cancel. */
    ghost predicate History()
      reads `all, `delivered, `cancelledAt, all`cb
    {
      && (forall t :: t in delivered ==> t in all)
      && (forall t :: t in all && !t.recurring && t.cb.Some? ==> t !in delivered)
      && (forall i, j :: 0 <= i < j < |delivered| && delivered[i] == delivered[j] ==> delivered[i].recurring)
      && (forall t :: t in cancelledAt ==>
            && t in all && t.cb == None && cancelledAt[t] <= |delivered|
            && forall i :: cancelledAt[t] <= i < |delivered| ==> delivered[i] != t)
    }

    ghost predicate Valid()
      reads `timers, `all, `delivered, `cancelledAt, timers`next, all`cb
    {
      Ordered() && Armed() && History()
    }

    /** The owner has been told to look, or no armed timer is due before it will. */
    ghost predicate Calm()
      reads `tickled, `timers, `deadline, timers`next
    {
      tickled || forall t :: t in Elems(timers) ==> t.next >= deadline
    }

    /** What inserting t did to the flag: the owner is told when t is first and it was not told before. */
    ghost predicate Told(t: Timer, was: bool, notify: bool)
      reads `timers, `tickled
    {
      timers != [] && notify == (timers[0] == t && !was) && tickled == (was || notify)
    }

    ghost method NoteCancel(t: Timer)
      requires History() && t in all && t.cb == None
      modifies `cancelledAt
      ensures History() && cancelledAt == old(cancelledAt)[t := |delivered|]
    {
      cancelledAt := cancelledAt[t := |delivered|];
    }

    constructor (now: Time)
      ensures Valid() && Calm() && timers == [] && !tickled && previousTime == now && all == {} && delivered == []
    {
      timers, tickled, previousTime := [], false, now;
      all, delivered, cancelledAt, deadline := {}, [], map[], 0;
    }

    /** The position of the first timer not before k. */
    method LowerBoundOf(k: Key) returns (i: nat)
      ensures Fits(timers, k, i)
    {
      i := 0;
      while i < |timers| && Before(timers[i].AsKey(), k)
        invariant 0 <= i <= |timers|
        invariant forall j :: 0 <= j < i ==> Before(timers[j].AsKey(), k)
      {
        i := i + 1;
      }
    }

    /** The set's find, which goes by the comparator alone. */
    method Find(t: Timer) returns (i: nat, found: bool)
      requires Ordered()
      requires forall u :: u in Elems(timers) && u.addr == t.addr ==> u == t
      ensures found <==> t in Elems(timers)
      ensures found ==> i < |timers| && timers[i] == t
    {
      i := LowerBoundOf(t.AsKey());
      found := i < |timers| && !Before(t.AsKey(), timers[i].AsKey());
      assert found ==> timers[i] in Elems(timers);
      if t in Elems(timers) {
        FindsIt(t, i);
      }
    }

    lemma OwnAddress(t: Timer)
      requires Ordered() && t in Elems(timers)
      ensures forall u :: u in Elems(timers) && u.addr == t.addr ==> u == t
    {
    }

    lemma FindsIt(t: Timer, i: nat)
      requires Ordered() && t in Elems(timers) && Fits(timers, t.AsKey(), i)
      ensures i < |timers| && timers[i] == t
    {
      var j :| 0 <= j < |timers| && timers[j] == t;
    }

    method Erase(i: nat)
      requires i < |timers| && Ordered()
      modifies `timers
      ensures timers == old(timers)[..i] + old(timers)[i + 1..] && Ordered()
      ensures Elems(timers) == old(Elems(timers)) - {old(timers)[i]}
      ensures old(Calm()) ==> Calm()
    {
      ghost var was := timers;
      timers := timers[..i] + timers[i + 1..];
      ErasedOrdered(was, i);
    }

    /** Takes t out if it is in. */
    method Take(t: Timer) returns (found: bool)
      requires Ordered() && forall u :: u in Elems(timers) && u.addr == t.addr ==> u == t
      modifies `timers
      ensures Ordered() && found == (t in old(Elems(timers))) && Elems(timers) == old(Elems(timers)) - {t}
      ensures old(Calm()) ==> Calm()
    {
      hide OrderedSet, Elems, Calm;
      var i;
      i, found := Find(t);
      if found {
        Erase(i);
      }
    }

    /** The set's insert, and the position of the new element. */
    method Insert(t: Timer) returns (i: nat)
      requires Ordered() && forall u :: u in Elems(timers) ==> u.addr != t.addr
      modifies `timers
      ensures Ordered() && i <= |old(timers)| && timers == old(timers)[..i] + [t] + old(timers)[i..]
      ensures Elems(timers) == old(Elems(timers)) + {t}
    {
      i := LowerBoundOf(t.AsKey());
      InsertedOrdered(timers, t, i);
      timers := timers[..i] + [t] + timers[i..];
    }

    /** Puts t into the set; answers whether the owner is told, which happens when t is now the first to
        be due and the owner has not been told since it last looked. */
    method AddLocked(t: Timer) returns (notify: bool)
      requires Ordered() && forall u :: u in Elems(timers) ==> u.addr != t.addr
      modifies `timers, `tickled
      ensures Ordered() && Elems(timers) == old(Elems(timers)) + {t}
      ensures Told(t, old(tickled), notify)
      ensures tickled == (old(tickled) || notify)
      ensures notify <==> !old(tickled) && IsFirst(t, old(timers))
      ensures old(Calm()) ==> Calm()
    {
      ghost var was := timers;
      var i := Insert(t);
      FirstOfAll(was, t, i);
      notify := i == 0 && !tickled;
      if notify {
        tickled := true;
      }
      if i > 0 {
        assert Before(timers[0].AsKey(), timers[i].AsKey());
      }
    }

    /** t is due before all of ts, or at the same time and lies before them in memory. */
    ghost predicate IsFirst(t: Timer, ts: seq<Timer>)
      reads t, ts
    {
      forall u :: u in ts ==> t.next < u.next || (t.next == u.next && t.addr < u.addr)
    }

    /** Inserted at i, t is the first exactly if it is due before all others, or at the same time and lies
        before them in memory. */
    lemma FirstOfAll(was: seq<Timer>, t: Timer, i: nat)
      requires OrderedSet(timers) && i <= |was| && timers == was[..i] + [t] + was[i..]
      ensures i == 0 <==> IsFirst(t, was)
    {
      if i == 0 {
        forall u | u in was
          ensures t.next < u.next || (t.next == u.next && t.addr < u.addr)
        {
          var j :| 0 <= j < |was| && was[j] == u;
          assert timers[j + 1] == u && Before(timers[0].AsKey(), timers[j + 1].AsKey());
        }
      } else {
        assert timers[0] == was[0] && timers[i] == t && Before(timers[0].AsKey(), timers[i].AsKey());
      }
    }

    /** Makes a timer and arms it. The new object lies at an address no armed timer has. */
    method AddTimer(ms: Time, cb: Callback, recurring: bool, addr: int, now: Time) returns (t: Timer, notify: bool)
      requires Valid() && forall u :: u in Elems(timers) ==> u.addr != addr
      modifies `timers, `tickled, `all
      ensures Valid() && fresh(t) && all == old(all) + {t} && Elems(timers) == old(Elems(timers)) + {t}
      ensures t.cb == Some(cb) && t.ms == ms && t.recurring == recurring && t.next == Plus(now, ms)
      ensures Told(t, old(tickled), notify)
      ensures tickled == (old(tickled) || notify)
      ensures notify <==> !old(tickled) && IsFirst(t, old(timers))
      ensures old(Calm()) ==> Calm()
    {
      hide OrderedSet, Told, Calm, IsFirst;
      t := new Timer(ms, cb, recurring, this, addr, now);
      notify := AddLocked(t);
      all := all + {t};
    }

    /** The owner looks: how long until the first timer is due, with the flag cleared. */
    method GetNextTimer(now: Time) returns (delay: Time)
      requires Valid()
      modifies `tickled, `deadline
      ensures Valid() && !tickled && Calm()
      ensures deadline == if timers == [] then WORD else timers[0].next
      ensures timers == [] ==> delay == WORD - 1
      ensures timers != [] ==> delay == if now >= deadline then 0 else deadline - now
      ensures forall t :: t in Elems(timers) ==> t.next >= deadline
    {
      tickled := false;
      deadline := if timers == [] then WORD else timers[0].next;
      if timers == [] {
        return WORD - 1;
      }
      FirstIsSoonest();
      if now >= timers[0].next {
        return 0;
      } else {
        return timers[0].next - now;
      }
    }

    lemma FirstIsSoonest()
      requires Ordered() && timers != []
      ensures forall t :: t in Elems(timers) ==> t.next >= timers[0].next
    {
      forall t | t in Elems(timers)
        ensures t.next >= timers[0].next
      {
        var i :| 0 <= i < |timers| && timers[i] == t;
        if i > 0 { assert Before(timers[0].AsKey(), timers[i].AsKey()); }
      }
    }

    method HasTimer() returns (b: bool)
      ensures b == (Elems(timers) != {})
    {
      b := timers != [];
      if b { assert timers[0] in Elems(timers); }
    }

    /** The source compares with the previous time less one hour in 64 bits without a sign: below one hour the
        difference is huge, and any step back counts. */
    method DetectClockRollover(now: Time) returns (rollover: bool)
      modifies `previousTime
      ensures rollover == Rollover(old(previousTime), now) && previousTime == now
      ensures rollover <==> now < old(previousTime) && (old(previousTime) < HOUR || now < old(previousTime) - HOUR)
    {
      rollover := now < previousTime && now < Minus(previousTime, HOUR);
      previousTime := now;
    }

    /** The loop behind lower_bound: on over the timers due exactly now. */
    method SkipDue(from: nat, now: Time) returns (it: nat)
      requires from <= |timers|
      ensures it == SkipEqual(KeysOf(timers), from, now)
    {
      it := from;
      while it < |timers| && timers[it].next == now
        invariant from <= it <= |timers|
        invariant SkipEqual(KeysOf(timers), it, now) == SkipEqual(KeysOf(timers), from, now)
      {
        it := it + 1;
      }
    }

    /** How many timers from the front expire: all after a rollover, else those due. */
    method CountExpired(ghost previous: Time, now: Time, probe: int, rollover: bool) returns (it: nat)
      requires Ordered() && timers != [] && rollover == Rollover(previous, now)
      ensures it == ExpiredCount(KeysOf(timers), previous, now)
      ensures Calm() && !tickled && it > 0 && !rollover ==> now >= deadline
      ensures it <= |timers| && (rollover ==> it == |timers|)
      ensures !rollover ==> forall i :: 0 <= i < |timers| ==> (i < it <==> timers[i].next <= now)
    {
      ghost var keys := KeysOf(timers);
      ExactExpiry(keys, now, probe);
      assert timers[0] in Elems(timers);
      if !rollover && timers[0].next > now {
        DueSplit(keys, now, 0);
        return 0;
      }
      if rollover {
        it := |timers|;
      } else {
        it := LowerBoundOf(Key(now, probe));
        FitsIsLowerBound(timers, Key(now, probe), it);
      }
      it := SkipDue(it, now);
      hide Elems, OrderedSet, SkipEqual, LowerBound, Due, KeysOf, Rollover;
    }

    /** The set is in order of due times, those due at the same time in order of their addresses. */
    lemma InOrder()
      requires Ordered()
      ensures forall i, j :: 0 <= i < j < |timers| ==>
        || timers[i].next < timers[j].next
        || (timers[i].next == timers[j].next && timers[i].addr < timers[j].addr)
    {
      forall i, j | 0 <= i < j < |timers|
        ensures || timers[i].next < timers[j].next
                || (timers[i].next == timers[j].next && timers[i].addr < timers[j].addr)
      {
        assert Before(timers[i].AsKey(), timers[j].AsKey());
      }
    }

    /** Delivers what has expired: the callbacks in the order of the set; recurring timers are armed again
        a period from now, the others are done. */
    method ListExpired(now: Time, probe: int) returns (cbs: seq<Callback>)
      requires Valid()
      modifies `timers, `previousTime, `delivered, timers`next, timers`cb
      ensures Valid()
      ensures previousTime == if old(timers) == [] then old(previousTime) else now
      ensures var it := old(ExpiredCount(KeysOf(timers), previousTime, now));
        it <= |old(timers)| && |cbs| == it && delivered == old(delivered) + old(timers)[..it]
      ensures forall i :: 0 <= i < |cbs| ==> old(timers[i].cb) == Some(cbs[i])
      ensures var previous := old(previousTime);
        if now < previous && (previous < HOUR || previous - now > HOUR) then |cbs| == |old(timers)|
        else forall i :: 0 <= i < |old(timers)| ==> (i < |cbs| <==> old(timers[i].next) <= now)
      ensures forall i :: 0 <= i < |cbs| ==> Collected(old(timers)[i], now, old(timers[i].next), old(timers[i].cb))
      ensures forall i :: |cbs| <= i < |old(timers)| ==> old(timers)[i].next == old(timers[i].next) > now
      ensures |cbs| <= |old(timers)| && Elems(timers) == Elems(old(timers)[|cbs|..]) + Recurring(old(timers)[..|cbs|])
      ensures old(Calm()) ==> (Calm() <==> tickled || LateEnough(Recurring(old(timers)[..|cbs|]), now, deadline))
      ensures old(Calm()) && !Rollover(old(previousTime), now) && NoWrap(old(timers), now) ==> Calm()
    {
      if timers == [] {
        return [];
      }
      var rollover := DetectClockRollover(now);
      assert rollover <==> now < old(previousTime) && (old(previousTime) < HOUR || old(previousTime) - now > HOUR);
      hide *;
      var it := CountExpired(old(previousTime), now, probe, rollover);
      cbs := ExpireFirst(it, now);
    }

    /** The first it timers of the set expire. */
    method ExpireFirst(it: nat, now: Time) returns (cbs: seq<Callback>)
      requires Valid() && it <= |timers|
      modifies `timers, `delivered, timers`next, timers`cb
      ensures Valid() && |cbs| == it && delivered == old(delivered) + old(timers)[..it]
      ensures forall i :: 0 <= i < it ==> old(timers[i].cb) == Some(cbs[i])
      ensures forall i :: 0 <= i < it ==> Collected(old(timers)[i], now, old(timers[i].next), old(timers[i].cb))
      ensures forall i :: it <= i < |old(timers)| ==> old(timers)[i].next == old(timers[i].next)
      ensures Elems(timers) == Elems(old(timers)[it..]) + Recurring(old(timers)[..it])
      ensures old(Calm()) ==> (Calm() <==> tickled || LateEnough(Recurring(old(timers)[..it]), now, deadline))
      ensures old(Calm()) && (tickled || it == 0 || now >= deadline) && NoWrap(old(timers), now) ==> Calm()
    {
      ghost var was, keys, calm := timers, KeysOf(timers), Calm();
      if calm && !tickled { CalmKeys(); }
      cbs := ExpireAll(it, now);
      hide History, Armed, OrderedSet, KeysOf;
      if calm {
        CalmAfterExpiry(was, keys, it, now);
        if NoWrap(was, now) && (it == 0 || now >= deadline) { NoWrapIsLate(was, it, now, deadline); }
      }
    }

    lemma CalmKeys()
      requires Calm() && !tickled
      ensures forall i :: 0 <= i < |timers| ==> KeysOf(timers)[i].next >= deadline
    {
      forall i | 0 <= i < |timers|
        ensures KeysOf(timers)[i].next >= deadline
      {
        assert timers[i] in Elems(timers);
      }
    }

    /** After an expiry the set was[it..] plus the recurring timers of was[..it] is left. */
    lemma CalmAfterExpiry(was: seq<Timer>, keys: seq<Key>, it: nat, now: Time)
      requires it <= |was| == |keys| && Elems(timers) == Elems(was[it..]) + Recurring(was[..it])
      requires forall i :: 0 <= i < it && was[i].recurring ==> was[i].next == Plus(now, was[i].ms)
      requires forall i :: it <= i < |was| ==> was[i].next == keys[i].next
      requires !tickled ==> forall i :: 0 <= i < |was| ==> keys[i].next >= deadline
      ensures Calm() <==> tickled || LateEnough(Recurring(was[..it]), now, deadline)
    {
      forall t | t in Elems(was[it..])
        ensures tickled || t.next >= deadline
      {
        var i :| it <= i < |was| && was[i] == t;
      }
    }

    /** The same, without a word on the flag. */
    method ExpireAll(it: nat, now: Time) returns (cbs: seq<Callback>)
      requires Valid() && it <= |timers|
      modifies `timers, `delivered, timers`next, timers`cb
      ensures Valid() && |cbs| == it && delivered == old(delivered) + old(timers)[..it]
      ensures forall i :: 0 <= i < it ==> old(timers[i].cb) == Some(cbs[i])
      ensures forall i :: 0 <= i < it ==> Collected(old(timers)[i], now, old(timers[i].next), old(timers[i].cb))
      ensures forall i :: it <= i < |old(timers)| ==> old(timers)[i].next == old(timers[i].next)
      ensures Elems(timers) == Elems(old(timers)[it..]) + Recurring(old(timers)[..it])
    {
      var expired := timers[..it];
      SplitOut(it);
      timers := timers[it..];
      cbs := Collect(expired, now);
      NoteDelivered(expired);
    }

    lemma SplitOut(it: nat)
      requires Ordered() && it <= |timers|
      ensures OrderedSet(timers[it..]) && Elems(timers) == Elems(timers[..it]) + Elems(timers[it..])
      ensures Elems(timers[..it]) !! Elems(timers[it..])
      ensures forall i, j :: 0 <= i < j < it ==> timers[i].addr != timers[j].addr && timers[i] != timers[j]
      ensures forall t, u :: t in timers[..it] && u in Elems(timers[it..]) ==> t.addr != u.addr
    {
      assert timers == timers[..it] + timers[it..];
    }

    /** Records a delivery of timers that were armed until then. */
    ghost method NoteDelivered(expired: seq<Timer>)
      requires forall i, j :: 0 <= i < j < |expired| ==> expired[i] != expired[j]
      requires forall t :: t in expired ==>
        t in all && t !in cancelledAt && (!t.recurring ==> t.cb == None && t !in delivered)
      requires History()
      modifies `delivered
      ensures History() && delivered == old(delivered) + expired
    {
      delivered := delivered + expired;
    }

    /** The expired timers, in the set's order, each at its own address and none in the set any more. */
    ghost predicate Out(expired: seq<Timer>)
      reads `timers
    {
      && (forall i, j :: 0 <= i < j < |expired| ==> expired[i].addr != expired[j].addr)
      && (forall t, u :: t in expired && u in Elems(timers) ==> t.addr != u.addr)
    }

    method CollectOne(t: Timer, now: Time) returns (cb: Callback)
      requires Ordered() && t.cb.Some? && forall u :: u in Elems(timers) ==> u.addr != t.addr
      modifies `timers, t`next, t`cb
      ensures Ordered() && old(t.cb) == Some(cb) && Collected(t, now, old(t.next), old(t.cb))
      ensures Elems(timers) == old(Elems(timers)) + if t.recurring then {t} else {}
    {
      cb := t.cb.value;
      if t.recurring {
        t.next := Plus(now, t.ms);
        var at := Insert(t);
      } else {
        t.cb := None;
      }
    }

    /** Collects the callbacks and puts the recurring timers back, a period from now. */
    method Collect(expired: seq<Timer>, now: Time) returns (cbs: seq<Callback>)
      requires Ordered() && Out(expired) && forall t :: t in expired ==> t.cb.Some?
      modifies `timers, expired`next, expired`cb
      ensures Ordered() && Elems(timers) == old(Elems(timers)) + Recurring(expired)
      ensures |cbs| == |expired| && forall i :: 0 <= i < |cbs| ==> old(expired[i].cb) == Some(cbs[i])
      ensures forall i :: 0 <= i < |expired| ==> Collected(expired[i], now, old(expired[i].next), old(expired[i].cb))
    {
      cbs := [];
      var i := 0;
      hide OrderedSet, Elems;
      while i < |expired|
        invariant 0 <= i <= |expired| && Ordered()
        invariant Elems(timers) == old(Elems(timers)) + Recurring(expired[..i])
        invariant |cbs| == i && forall j :: 0 <= j < i ==> old(expired[j].cb) == Some(cbs[j])
        invariant forall j :: 0 <= j < i ==> Collected(expired[j], now, old(expired[j].next), old(expired[j].cb))
        invariant forall j :: i <= j < |expired| ==>
          expired[j].next == old(expired[j].next) && expired[j].cb == old(expired[j].cb)
      {
        var cb := CollectOne(expired[i], now);
        cbs := cbs + [cb];
        assert expired[..i + 1] == expired[..i] + [expired[i]];
        i := i + 1;
      }
      assert expired[..i] == expired;
    }
  }

  /** How many timers of the set expire at time now, previous being when expiry was last looked at. */
  function ExpiredCount(keys: seq<Key>, previous: Time, now: Time): nat
  {
    if Rollover(previous, now) then |keys| else Due(keys, now)
  }

  /** Each timer, started now, is due at the deadline or later. */
  ghost predicate LateEnough(ts: set<Timer>, now: Time, deadline: int)
    reads ts`ms
  {
    forall t :: t in ts ==> Plus(now, t.ms) >= deadline
  }

  /** No recurring timer's next due time goes past the end of the clock. */
  ghost predicate NoWrap(ts: seq<Timer>, now: Time)
    reads ts`ms
  {
    forall t :: t in ts && t.recurring ==> now + t.ms < WORD
  }

  lemma NoWrapIsLate(was: seq<Timer>, it: nat, now: Time, deadline: int)
    requires it <= |was| && NoWrap(was, now) && (it > 0 ==> now >= deadline)
    ensures LateEnough(Recurring(was[..it]), now, deadline)
  {
  }

  function Recurring(ts: seq<Timer>): set<Timer>
  {
    set t | t in ts && t.recurring
  }

  /** What expiry does to a timer that had due time next and callback cb. */
  ghost predicate Collected(t: Timer, now: Time, next: Time, cb: Option<Callback>)
    reads t
  {
    if t.recurring then t.next == Plus(now, t.ms) && t.cb == cb else t.next == next && t.cb == None
  }

  // ---- when the owner is not told --------------------------------------------------------------------------

  /** A recurring timer of period ms is armed at time start and the owner looks at once. */
  method ArmAndLook(ms: Time, start: Time) returns (m: TimerManager, t: Timer)
    ensures fresh(m) && fresh(t) && m.Valid() && m.Calm() && !m.tickled && m.timers == [t] && m.previousTime == start
    ensures t.recurring && t.ms == ms && t.next == Plus(start, ms) == m.deadline
  {
    m := new TimerManager(start);
    var notify;
    t, notify := m.AddTimer(ms, 0, true, 0, start);
    OneElement(m.timers, t);
    var delay := m.GetNextTimer(start);
  }

  /** Then expiry runs, the timer being due or the clock having rolled back. The owner may now sleep past
      the timer's next due time exactly when that, on the wrapping clock, is before the one it was told. */
  method Scenario(ms: Time, start: Time, now: Time) returns (m: TimerManager)
    requires Rollover(start, now) || Plus(start, ms) <= now
    ensures fresh(m) && m.Valid() && !m.tickled
    ensures m.Calm() <==> Plus(now, ms) >= Plus(start, ms)
  {
    var t;
    m, t := ArmAndLook(ms, start);
    OneExpires(m.timers, start, now);
    ghost var was := m.timers;
    assert was[1..] == [] && was[..1] == [t];
    hide TimerManager.Valid, TimerManager.Calm, ExpiredCount, Collected, NoWrap, Rollover;
    var cbs := m.ListExpired(now, 1);
    hide *;
    assert Recurring([t]) == {t} by { OnlyRecurring(t); }
    LateAlone(t, now, m.deadline);
  }

  lemma OnlyRecurring(t: Timer)
    requires t.recurring
    ensures Recurring([t]) == {t}
  {
  }

  lemma LateAlone(t: Timer, now: Time, deadline: int)
    ensures LateEnough({t}, now, deadline) <==> Plus(now, t.ms) >= deadline
  {
    assert t in {t};
  }

  lemma OneExpires(ts: seq<Timer>, start: Time, now: Time)
    requires |ts| == 1 && (Rollover(start, now) || ts[0].next <= now)
    ensures ExpiredCount(KeysOf(ts), start, now) == 1
  {
    if ts[0].next <= now { DueSplit(KeysOf(ts), now, 1); }
  }

  lemma OneElement(ts: seq<Timer>, t: Timer)
    requires OrderedSet(ts) && Elems(ts) == {t}
    ensures ts == [t]
  {
    assert t in Elems(ts);
    var i :| 0 <= i < |ts| && ts[i] == t;
    OnlyAt(ts, t, i, 0);
    OnlyAt(ts, t, i, |ts| - 1);
  }

  lemma OnlyAt(ts: seq<Timer>, t: Timer, i: nat, j: nat)
    requires OrderedSet(ts) && Elems(ts) == {t} && i < |ts| && j < |ts|
    ensures i == j
  {
    assert ts[i] in Elems(ts) && ts[j] in Elems(ts);
  }

  /** So the clock going back loses the wake-up, and so does a period that wraps around. */
  lemma WakeUpsCanBeLost()
    ensures exists ms: Time, start: Time, now: Time :: Rollover(start, now) && Plus(now, ms) < Plus(start, ms)
    ensures exists ms: Time, start: Time, now: Time ::
      !Rollover(start, now) && Plus(start, ms) <= now && Plus(now, ms) < Plus(start, ms)
  {
    assert Rollover(2 * HOUR, 0) && Plus(0, 10) < Plus(2 * HOUR, 10);
    assert !Rollover(0, WORD - 1) && Plus(0, WORD - 1) <= WORD - 1 && Plus(WORD - 1, WORD - 1) < Plus(0, WORD - 1);
  }
}
