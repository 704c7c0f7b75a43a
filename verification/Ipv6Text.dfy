/** IPv6 addresses as text: how they are printed, and that section 2.2 of RFC 4291 reads them back, with the
    brackets and the port of section 3.2.2 of RFC 3986. */
module Ipv6Text {
  import opened Common

  type Group = g: nat | g < 0x1_0000

  // ---- numbers -----------------------------------------------------------------------------------------

  const DIGITS := "0123456789abcdef"

  /** Lower-case hexadecimal without leading zeros. */
  function Hex(v: nat): (s: string)
    ensures s != "" && forall c :: c in s ==> c in DIGITS
  {
    if v < 16 then [DIGITS[v]] else Hex(v / 16) + [DIGITS[v % 16]]
  }

  function Decimal(v: nat): (s: string)
  {
    if v < 10 then [DIGITS[v]] else Decimal(v / 10) + [DIGITS[v % 10]]
  }

  function DigitOf(c: char): Option<nat>
  {
    if '0' <= c <= '9' then Some(c as nat - '0' as nat)
    else if 'a' <= c <= 'f' then Some(c as nat - 'a' as nat + 10)
    else if 'A' <= c <= 'F' then Some(c as nat - 'A' as nat + 10)
    else None
  }

  function HexValue(s: string): Option<nat>
  {
    if s == "" then Some(0) else
      match (HexValue(s[..|s| - 1]), DigitOf(s[|s| - 1]))
      case (Some(v), Some(d)) => Some(16 * v + d)
      case _ => None
  }

  lemma DigitBack(d: nat)
    requires d < 16
    ensures DigitOf(DIGITS[d]) == Some(d) && DIGITS[d] != ':'
  {
  }

  lemma {:induction false} HexBack(v: nat)
    ensures HexValue(Hex(v)) == Some(v)
  {
    if v < 16 {
      DigitBack(v);
      assert Hex(v)[..0] == "";
    } else {
      HexBack(v / 16);
      DigitBack(v % 16);
      assert Hex(v)[..|Hex(v)| - 1] == Hex(v / 16);
    }
  }

  lemma HexLength(v: Group)
    ensures 1 <= |Hex(v)| <= 4
  {
    if v >= 16 {
      assert |Hex(v)| == |Hex(v / 16)| + 1;
      if v >= 256 {
        assert |Hex(v / 16)| == |Hex(v / 16 / 16)| + 1;
        if v >= 4096 { assert |Hex(v / 16 / 16)| == |Hex(v / 16 / 16 / 16)| + 1; }
      }
    }
  }

  lemma HexHasNoColon(v: nat)
    ensures ':' !in Hex(v)
  {
    assert ':' !in DIGITS;
  }

  // ---- reading -----------------------------------------------------------------------------------------

  /** One group: one to four hexadecimal digits. */
  function ReadGroup(s: string): Option<Group>
  {
    if 1 <= |s| <= 4 && HexValue(s).Some? && HexValue(s).value < 0x1_0000 then Some(HexValue(s).value) else None
  }

  /** The last colon of s. */
  function LastColon(s: string): (k: Option<nat>)
    ensures k.None? ==> forall j :: 0 <= j < |s| ==> s[j] != ':'
    ensures k.Some? ==> k.value < |s| && s[k.value] == ':' && forall j :: k.value < j < |s| ==> s[j] != ':'
  {
    if s == "" then None
    else if s[|s| - 1] == ':' then Some(|s| - 1)
    else LastColon(s[..|s| - 1])
  }

  /** Groups separated by colons, at least one. */
  function ReadGroups(s: string): Option<seq<Group>>
    decreases |s|
  {
    match LastColon(s)
    case None => (match ReadGroup(s) case Some(g) => Some([g]) case None => None)
    case Some(k) =>
      match (ReadGroups(s[..k]), ReadGroup(s[k + 1..]))
      case (Some(gs), Some(g)) => Some(gs + [g])
      case _ => None
  }

  /** The same, but possibly none at all. */
  function ReadSide(s: string): Option<seq<Group>>
  {
    if s == "" then Some([]) else ReadGroups(s)
  }

  predicate DoubleAt(s: string, i: int)
  {
    0 <= i < |s| - 1 && s[i] == ':' && s[i + 1] == ':'
  }

  /** The first double colon from i on. */
  function FindDouble(s: string, i: nat): (r: Option<nat>)
    requires i <= |s|
    ensures r.Some? ==> i <= r.value && DoubleAt(s, r.value) && forall j :: i <= j < r.value ==> !DoubleAt(s, j)
    ensures r.None? ==> forall j :: i <= j ==> !DoubleAt(s, j)
    decreases |s| - i
  {
    if i == |s| then None else if DoubleAt(s, i) then Some(i) else FindDouble(s, i + 1)
  }

  /** The forms of section 2.2 without embedded IPv4: eight groups, or a double colon that stands for one or
      more groups of zeros. */
  function Read(s: string): Option<seq<Group>>
  {
    match FindDouble(s, 0)
    case None => (match ReadGroups(s) case Some(gs) => if |gs| == 8 then Some(gs) else None case None => None)
    case Some(k) =>
      match (ReadSide(s[..k]), ReadSide(s[k + 2..]))
      case (Some(l), Some(r)) => if |l| + |r| <= 7 then Some(l + Zeros(8 - |l| - |r|) + r) else None
      case _ => None
  }

  function Zeros(n: nat): (z: seq<Group>)
    ensures |z| == n && forall i :: 0 <= i < n ==> z[i] == 0
  {
    seq(n, i => 0)
  }

  // ---- printing ----------------------------------------------------------------------------------------

  function Join(gs: seq<Group>): string
  {
    if gs == [] then ""
    else if |gs| == 1 then Hex(gs[0])
    else Join(gs[..|gs| - 1]) + ":" + Hex(gs[|gs| - 1])
  }

  /** The first zero from i on, and the first group after it that is not. */
  function FirstZero(gs: seq<Group>, i: nat): (z: nat)
    requires i <= |gs|
    ensures i <= z <= |gs| && (forall j :: i <= j < z ==> gs[j] != 0) && (z < |gs| ==> gs[z] == 0)
    decreases |gs| - i
  {
    if i < |gs| && gs[i] != 0 then FirstZero(gs, i + 1) else i
  }

  function RunEnd(gs: seq<Group>, i: nat): (n: nat)
    requires i <= |gs|
    ensures i <= n <= |gs| && (forall j :: i <= j < n ==> gs[j] == 0) && (n < |gs| ==> gs[n] != 0)
    decreases |gs| - i
  {
    if i < |gs| && gs[i] == 0 then RunEnd(gs, i + 1) else i
  }

  /** The text of an address: its first run of zeros, however short and wherever it lies, becomes a double
      colon. */
  function TextOf(gs: seq<Group>): string
  {
    var z := FirstZero(gs, 0);
    var n := RunEnd(gs, z);
    if z == |gs| then Join(gs) else Join(gs[..z]) + "::" + Join(gs[n..])
  }

  /** What has been printed when group i is next. */
  function Printed(gs: seq<Group>, i: nat): string
    requires i <= |gs|
  {
    var z := FirstZero(gs, 0);
    var n := RunEnd(gs, z);
    if i <= z then Join(gs[..i]) else if i <= n then Join(gs[..z]) else Join(gs[..z]) + "::" + Join(gs[n..i])
  }

  lemma JoinStep(gs: seq<Group>, from: nat, i: nat)
    requires from <= i < |gs|
    ensures Join(gs[from..i + 1]) == if from == i then Hex(gs[i]) else Join(gs[from..i]) + ":" + Hex(gs[i])
  {
    var s := gs[from..i + 1];
    assert s[|s| - 1] == gs[i] && s[..|s| - 1] == gs[from..i];
  }

  lemma PrintedBefore(gs: seq<Group>, i: nat)
    requires i < FirstZero(gs, 0)
    ensures Printed(gs, i + 1) == if i == 0 then Hex(gs[i]) else Printed(gs, i) + ":" + Hex(gs[i])
  {
    hide Join, Hex, FirstZero, RunEnd;
    assert gs[..i] == gs[0..i] && gs[..i + 1] == gs[0..i + 1];
    JoinStep(gs, 0, i);
  }

  lemma PrintedInside(gs: seq<Group>, i: nat)
    requires FirstZero(gs, 0) <= i < RunEnd(gs, FirstZero(gs, 0))
    ensures Printed(gs, i + 1) == Printed(gs, i)
  {
    hide Join, Hex, FirstZero, RunEnd;
  }

  lemma PrintedTail(gs: seq<Group>, i: nat)
    requires RunEnd(gs, FirstZero(gs, 0)) <= i <= |gs|
    ensures var z := FirstZero(gs, 0); var n := RunEnd(gs, z); z < |gs| ==>
      Printed(gs, i) == if i == n then Join(gs[..z]) else Join(gs[..z]) + "::" + Join(gs[n..i])
  {
    RunStarts(gs);
    hide Join, FirstZero, RunEnd;
  }

  lemma PrintedFirst(gs: seq<Group>, i: nat)
    requires FirstZero(gs, 0) < |gs| && i == RunEnd(gs, FirstZero(gs, 0)) < |gs|
    ensures Printed(gs, i + 1) == Printed(gs, i) + ":" + ":" + Hex(gs[i])
  {
    hide *;
    PrintedTail(gs, i);
    PrintedTail(gs, i + 1);
    JoinStep(gs, i, i);
    TwoColons(Printed(gs, i));
  }

  lemma TwoColons(s: string)
    ensures s + ":" + ":" == s + "::"
  {
    assert ":" + ":" == "::";
  }

  lemma PrintedAfter(gs: seq<Group>, i: nat)
    requires FirstZero(gs, 0) < |gs| && RunEnd(gs, FirstZero(gs, 0)) < i < |gs|
    ensures Printed(gs, i + 1) == Printed(gs, i) + ":" + Hex(gs[i])
  {
    hide *;
    var n := RunEnd(gs, FirstZero(gs, 0));
    PrintedTail(gs, i);
    PrintedTail(gs, i + 1);
    JoinStep(gs, n, i);
    Group4(Join(gs[..FirstZero(gs, 0)]) + "::", Join(gs[n..i]), ":", Hex(gs[i]));
  }

  lemma Group4(a: string, b: string, c: string, d: string)
    ensures a + (b + c + d) == a + b + c + d
  {
  }

  lemma RunStarts(gs: seq<Group>)
    ensures FirstZero(gs, 0) < |gs| ==> FirstZero(gs, 0) < RunEnd(gs, FirstZero(gs, 0))
  {
  }

  /** One turn of the printing loop. */
  lemma PrintedStep(gs: seq<Group>, i: nat)
    requires i < |gs|
    ensures var z := FirstZero(gs, 0); var n := RunEnd(gs, z); var used := z < n < i;
      if gs[i] == 0 && !used then Printed(gs, i + 1) == Printed(gs, i)
      else if i == 0 then Printed(gs, i + 1) == Hex(gs[i])
      else if gs[i - 1] == 0 && !used then Printed(gs, i + 1) == Printed(gs, i) + ":" + ":" + Hex(gs[i])
      else Printed(gs, i + 1) == Printed(gs, i) + ":" + Hex(gs[i])
  {
    var z := FirstZero(gs, 0);
    RunStarts(gs);
    hide Printed, Hex, FirstZero, RunEnd;
    if i < z {
      PrintedBefore(gs, i);
    } else if i < RunEnd(gs, z) {
      PrintedInside(gs, i);
    } else if i == RunEnd(gs, z) {
      PrintedFirst(gs, i);
    } else {
      PrintedAfter(gs, i);
    }
  }

  lemma PrintedAll(gs: seq<Group>)
    ensures var z := FirstZero(gs, 0); var n := RunEnd(gs, z);
      TextOf(gs) == Printed(gs, |gs|) + if z < n == |gs| then "::" else ""
    ensures var z := FirstZero(gs, 0); var n := RunEnd(gs, z);
      gs != [] ==> (z < n == |gs| <==> !(z < n < |gs|) && gs[|gs| - 1] == 0)
  {
    var z := FirstZero(gs, 0);
    var n := RunEnd(gs, z);
    assert gs[..|gs|] == gs && gs[|gs|..] == [];
  }

  lemma PrintedNone(gs: seq<Group>)
    ensures Printed(gs, 0) == ""
  {
  }

  /** What lies between the brackets. */
  method InsertGroups(addr: seq<Group>) returns (os: string)
    requires |addr| == 8
    ensures os == TextOf(addr)
  {
    hide *;
    os := "";
    var usedZeros := false;
    ghost var z := FirstZero(addr, 0);
    ghost var n := RunEnd(addr, z);
    var i := 0;
    PrintedNone(addr);
    while i < 8
      invariant 0 <= i <= 8 && (usedZeros <==> z < n < i)
      invariant os == Printed(addr, i)
    {
      PrintedStep(addr, i);
      if addr[i] == 0 && !usedZeros {
        i := i + 1;
        continue;
      }
      if i > 0 && addr[i - 1] == 0 && !usedZeros {
        os := os + ":";
        usedZeros := true;
      }
      if i > 0 {
        os := os + ":";
      }
      os := os + Hex(addr[i]);
      i := i + 1;
    }
    PrintedAll(addr);
    if !usedZeros && addr[7] == 0 {
      os := os + "::";
    }
  }

  // ---- reading back --------------------------------------------------------------------------------------

  /** The last group of a list that ends with one. */
  lemma ReadStep(front: string, last: string)
    requires ':' !in last
    ensures ReadGroups(front + ":" + last) ==
      match (ReadGroups(front), ReadGroup(last))
      case (Some(gs), Some(g)) => Some(gs + [g])
      case _ => None
  {
    var s := front + ":" + last;
    assert s[|front|] == ':' && forall j :: |front| < j < |s| ==> s[j] == last[j - |front| - 1];
    assert LastColon(s) == Some(|front|);
    assert s[..|front|] == front && s[|front| + 1..] == last;
    hide ReadGroup, LastColon;
  }

  lemma GroupBack(g: Group)
    ensures ReadGroup(Hex(g)) == Some(g) && ReadGroups(Hex(g)) == Some([g])
  {
    HexBack(g);
    HexLength(g);
    HexHasNoColon(g);
    hide HexValue, Hex;
  }

  lemma {:induction false} GroupsBack(gs: seq<Group>)
    requires gs != []
    ensures ReadGroups(Join(gs)) == Some(gs)
  {
    var front, last := gs[..|gs| - 1], gs[|gs| - 1];
    assert gs == front + [last];
    GroupBack(last);
    HexHasNoColon(last);
    hide Hex, ReadGroup, ReadGroups;
    if |gs| > 1 {
      GroupsBack(front);
      ReadStep(Join(front), Hex(last));
    }
  }

  /** Joined groups neither start nor end with a colon, and have no two in a row. */
  lemma {:induction false} JoinIsTight(gs: seq<Group>)
    requires gs != []
    ensures var s := Join(gs); s != "" && s[0] != ':' && s[|s| - 1] != ':' && forall i :: !DoubleAt(s, i)
  {
    var last := Hex(gs[|gs| - 1]);
    HexHasNoColon(gs[|gs| - 1]);
    assert last[0] in last && last[|last| - 1] in last;
    if |gs| == 1 {
      forall i
        ensures !DoubleAt(last, i)
      {
        if 0 <= i < |last| { assert last[i] in last; }
      }
    } else {
      var front := Join(gs[..|gs| - 1]);
      JoinIsTight(gs[..|gs| - 1]);
      hide Hex, Join;
      TightStep(front, last);
    }
  }

  lemma TightStep(front: string, last: string)
    requires front != "" && front[0] != ':' && front[|front| - 1] != ':' && forall i :: !DoubleAt(front, i)
    requires last != "" && ':' !in last
    ensures var s := front + ":" + last; s[0] != ':' && s[|s| - 1] != ':' && forall i :: !DoubleAt(s, i)
  {
    var s := front + ":" + last;
    assert last[|last| - 1] in last;
    forall i
      ensures !DoubleAt(s, i)
    {
      if 0 <= i < |front| - 1 {
        assert !DoubleAt(front, i);
      } else if |front| <= i < |s| - 1 {
        assert s[i + 1] == last[i - |front|];
      }
    }
  }

  lemma SideTight(gs: seq<Group>)
    ensures var s := Join(gs); (s != "" ==> s[0] != ':' && s[|s| - 1] != ':') && forall i :: !DoubleAt(s, i)
    ensures ReadSide(Join(gs)) == Some(gs)
  {
    if gs != [] {
      JoinIsTight(gs);
      GroupsBack(gs);
    }
  }

  /** Between two tight sides the double colon is the only one. */
  lemma OneDouble(l: string, r: string)
    requires (l != "" ==> l[|l| - 1] != ':') && (r != "" ==> r[0] != ':')
    requires forall i :: !DoubleAt(l, i)
    requires forall i :: !DoubleAt(r, i)
    ensures forall i :: DoubleAt(l + "::" + r, i) <==> i == |l|
    ensures FindDouble(l + "::" + r, 0) == Some(|l|)
  {
    var s := l + "::" + r;
    forall i
      ensures DoubleAt(s, i) <==> i == |l|
    {
      if 0 <= i < |l| - 1 { assert !DoubleAt(l, i); }
      if |l| + 2 <= i { assert !DoubleAt(r, i - |l| - 2); }
    }
    assert DoubleAt(s, |l|);
  }

  lemma ReadDouble(l: string, r: string)
    requires FindDouble(l + "::" + r, 0) == Some(|l|)
    ensures Read(l + "::" + r) ==
      match (ReadSide(l), ReadSide(r))
      case (Some(a), Some(b)) => if |a| + |b| <= 7 then Some(a + Zeros(8 - |a| - |b|) + b) else None
      case _ => None
  {
    var s := l + "::" + r;
    assert s[..|l|] == l && s[|l| + 2..] == r;
    hide ReadSide, FindDouble;
  }

  lemma ReadPlain(gs: seq<Group>)
    requires |gs| == 8
    ensures Read(Join(gs)) == Some(gs)
  {
    JoinIsTight(gs);
    GroupsBack(gs);
    hide Join, ReadGroups;
  }

  lemma ZeroRun(gs: seq<Group>, z: nat, n: nat)
    requires z <= n <= |gs| && forall j :: z <= j < n ==> gs[j] == 0
    ensures gs[..z] + Zeros(n - z) + gs[n..] == gs
  {
  }

  /** The text of every address reads back as that address. */
  lemma TextReadsBack(gs: seq<Group>)
    requires |gs| == 8
    ensures Read(TextOf(gs)) == Some(gs)
  {
    var z := FirstZero(gs, 0);
    var n := RunEnd(gs, z);
    RunStarts(gs);
    hide Read, Join, Zeros, ReadSide, FindDouble, FirstZero, RunEnd;
    if z == 8 {
      ReadPlain(gs);
    } else {
      SideTight(gs[..z]);
      SideTight(gs[n..]);
      OneDouble(Join(gs[..z]), Join(gs[n..]));
      ReadDouble(Join(gs[..z]), Join(gs[n..]));
      ZeroRun(gs, z, n);
    }
  }

  /** There is at most one double colon, and there is one exactly if some group is zero; it stands for the
      first run of zeros. */
  lemma AtMostOneDouble(gs: seq<Group>)
    requires |gs| == 8
    ensures forall i, j :: DoubleAt(TextOf(gs), i) && DoubleAt(TextOf(gs), j) ==> i == j
    ensures (exists i :: DoubleAt(TextOf(gs), i)) <==> 0 in gs
    ensures 0 in gs ==> DoubleAt(TextOf(gs), |Join(gs[..FirstZero(gs, 0)])|)
  {
    var z := FirstZero(gs, 0);
    hide Join, FirstZero, RunEnd, DoubleAt;
    if z == 8 {
      JoinIsTight(gs);
    } else {
      assert gs[z] == 0;
      var l, r := Join(gs[..z]), Join(gs[RunEnd(gs, z)..]);
      SideTight(gs[..z]);
      SideTight(gs[RunEnd(gs, z)..]);
      OneDouble(l, r);
      assert DoubleAt(TextOf(gs), |l|);
    }
  }

  /** The double colon stands for the whole of the first run of zeros; without a zero there is none. */
  lemma WholeRun(gs: seq<Group>, z: nat, n: nat)
    requires |gs| == 8 && z <= n <= 8
    requires (forall j :: 0 <= j < z ==> gs[j] != 0) && (forall j :: z <= j < n ==> gs[j] == 0)
    requires n < 8 ==> gs[n] != 0
    ensures z < n ==> TextOf(gs) == Join(gs[..z]) + "::" + Join(gs[n..])
    ensures z == n == 8 ==> TextOf(gs) == Join(gs)
  {
    var f := FirstZero(gs, 0);
    hide FirstZero, RunEnd, Join;
    if z < n {
      assert gs[z] == 0 && f == z;
      assert RunEnd(gs, z) == n;
    } else if z == 8 {
      assert f == 8 && gs[..8] == gs;
    }
  }

  /** Numbers have no leading zeros, and letters are small. */
  lemma {:induction false} HexPlain(v: nat)
    ensures v > 0 ==> Hex(v)[0] != '0'
    ensures forall c :: c in Hex(v) ==> '0' <= c <= '9' || 'a' <= c <= 'f'
    ensures Hex(0) == "0"
  {
    if v >= 16 { HexPlain(v / 16); }
  }

  lemma {:induction false} DecimalPlain(v: nat)
    ensures Decimal(v) != "" && (v > 0 ==> Decimal(v)[0] != '0') && forall c :: c in Decimal(v) ==> '0' <= c <= '9'
    ensures Decimal(0) == "0"
  {
    if v >= 10 { DecimalPlain(v / 10); }
  }

  /** And groups are joined by single colons. */
  lemma {:induction false} JoinAt(gs: seq<Group>, i: nat)
    requires i < |gs|
    ensures Join(gs) == (if i == 0 then "" else Join(gs[..i]) + ":") + Hex(gs[i])
      + (if i == |gs| - 1 then "" else ":" + Join(gs[i + 1..]))
    decreases |gs|
  {
    hide Hex;
    var front, last := gs[..|gs| - 1], gs[|gs| - 1];
    if i < |gs| - 1 {
      JoinAt(front, i);
      assert front[..i] == gs[..i] && gs[i + 1..][..|gs| - i - 2] == front[i + 1..];
      assert gs[i + 1..][|gs| - i - 2] == last;
    }
  }

  // ---- brackets and port -----------------------------------------------------------------------------------

  function Endpoint(addr: seq<Group>, port: nat): string
  {
    "[" + TextOf(addr) + "]:" + Decimal(port)
  }

  function DecimalValue(s: string): Option<nat>
  {
    if s == "" then Some(0) else
      match DecimalValue(s[..|s| - 1])
      case Some(v) => if '0' <= s[|s| - 1] <= '9' then Some(10 * v + (s[|s| - 1] as nat - '0' as nat)) else None
      case None => None
  }

  /** The first closing bracket. */
  function CloseOf(s: string, i: nat): (k: Option<nat>)
    requires i <= |s|
    ensures k.Some? ==> i <= k.value < |s| && s[k.value] == ']' && forall j :: i <= j < k.value ==> s[j] != ']'
    ensures k.None? ==> forall j :: i <= j < |s| ==> s[j] != ']'
    decreases |s| - i
  {
    if i == |s| then None else if s[i] == ']' then Some(i) else CloseOf(s, i + 1)
  }

  /** An address in brackets, a colon, and a port in decimal. */
  function ReadEndpoint(s: string): Option<(seq<Group>, nat)>
  {
    match CloseOf(s, 0)
    case None => None
    case Some(k) =>
      if s[0] != '[' || k + 2 >= |s| || s[k + 1] != ':' then None else
        match (Read(s[1..k]), DecimalValue(s[k + 2..]))
        case (Some(gs), Some(port)) => Some((gs, port))
        case _ => None
  }

  lemma {:induction false} DecimalBack(v: nat)
    ensures Decimal(v) != "" && DecimalValue(Decimal(v)) == Some(v)
  {
    if v < 10 {
      assert Decimal(v)[..0] == "";
    } else {
      DecimalBack(v / 10);
      assert Decimal(v)[..|Decimal(v)| - 1] == Decimal(v / 10);
    }
  }

  lemma {:induction false} JoinHasNoBracket(gs: seq<Group>)
    ensures ']' !in Join(gs)
  {
    assert ']' !in DIGITS;
    if gs != [] {
      assert ']' !in Hex(gs[|gs| - 1]);
      JoinHasNoBracket(gs[..|gs| - 1]);
    }
  }

  lemma TextHasNoBracket(gs: seq<Group>)
    ensures ']' !in TextOf(gs)
  {
    var z := FirstZero(gs, 0);
    JoinHasNoBracket(gs);
    JoinHasNoBracket(gs[..z]);
    JoinHasNoBracket(gs[RunEnd(gs, z)..]);
    hide Join;
  }

  lemma ReadParts(text: string, port: string)
    requires ']' !in text && port != ""
    ensures ReadEndpoint("[" + text + "]:" + port) ==
      match (Read(text), DecimalValue(port))
      case (Some(gs), Some(v)) => Some((gs, v))
      case _ => None
  {
    hide Read, DecimalValue;
    var s, k := "[" + text + "]:" + port, |text| + 1;
    assert s[k] == ']' && s[k + 1] == ':' && s[1..k] == text && s[k + 2..] == port;
    assert forall j :: 1 <= j < k ==> s[j] == text[j - 1];
    assert CloseOf(s, 0) == Some(k);
  }

  /** What is printed for an address and a port reads back as both. */
  lemma EndpointReadsBack(addr: seq<Group>, port: nat)
    requires |addr| == 8
    ensures ReadEndpoint(Endpoint(addr, port)) == Some((addr, port))
  {
    TextReadsBack(addr);
    TextHasNoBracket(addr);
    DecimalBack(port);
    hide ReadEndpoint, TextOf, Decimal;
    ReadParts(TextOf(addr), Decimal(port));
  }

  /** So no two endpoints print the same. */
  lemma EndpointIsUnambiguous(a: seq<Group>, p: nat, b: seq<Group>, q: nat)
    requires |a| == 8 && |b| == 8 && Endpoint(a, p) == Endpoint(b, q)
    ensures a == b && p == q
  {
    hide *;
    EndpointReadsBack(a, p);
    EndpointReadsBack(b, q);
  }

  method Insert(addr: seq<Group>, port: nat) returns (os: string)
    requires |addr| == 8
    ensures os == Endpoint(addr, port) && ReadEndpoint(os) == Some((addr, port))
  {
    var groups := InsertGroups(addr);
    os := "[" + groups + "]:" + Decimal(port);
    EndpointReadsBack(addr, port);
  }
}
