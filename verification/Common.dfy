/** What several parts share: optional values, and the events of a descriptor. */
module Common {
  datatype Option<+T> = None | Some(value: T)

  datatype Event = READ | WRITE

  /** A descriptor and one of its events. */
  datatype Slot = Slot(fd: int, event: Event)

  /** A number above all of a set. */
  lemma {:induction false} Above(s: set<int>) returns (c: int)
    ensures forall x :: x in s ==> x < c
    decreases |s|
  {
    c := 0;
    if exists x :: x in s {
      var x :| x in s;
      var d := Above(s - {x});
      c := if x < d then d else x + 1;
      assert forall y :: y in s ==> y == x || y in s - {x};
    }
  }
}
