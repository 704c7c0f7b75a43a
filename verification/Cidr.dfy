/** Network prefixes: masks, network and broadcast addresses of IPv4 and IPv6, on words written as their
    bits, most significant first. */
module Cidr {
  import opened Bytes
  import opened Common

  type Bits = seq<bool>

  // ---- words and their bits --------------------------------------------------------------------------

  function Value(s: Bits): nat
  {
    if s == [] then 0 else 2 * Value(s[..|s| - 1]) + if s[|s| - 1] then 1 else 0
  }

  /** The w low-order bits of v. */
  function BitsOf(v: nat, w: nat): (s: Bits)
    ensures |s| == w
  {
    if w == 0 then [] else BitsOf(v / 2, w - 1) + [v % 2 == 1]
  }

  function Fill(b: bool, n: nat): (s: Bits)
    ensures |s| == n && forall i :: 0 <= i < n ==> s[i] == b
  {
    seq(n, i => b)
  }

  function And(a: Bits, b: Bits): (r: Bits)
    requires |a| == |b|
    ensures |r| == |a| && forall i :: 0 <= i < |a| ==> r[i] == (a[i] && b[i])
  {
    seq(|a|, i requires 0 <= i < |a| => a[i] && b[i])
  }

  function Or(a: Bits, b: Bits): (r: Bits)
    requires |a| == |b|
    ensures |r| == |a| && forall i :: 0 <= i < |a| ==> r[i] == (a[i] || b[i])
  {
    seq(|a|, i requires 0 <= i < |a| => a[i] || b[i])
  }

  function Not(a: Bits): (r: Bits)
    ensures |r| == |a| && forall i :: 0 <= i < |a| ==> r[i] == !a[i]
  {
    seq(|a|, i requires 0 <= i < |a| => !a[i])
  }

  /** The number of bits set. */
  function Ones(s: Bits): nat
  {
    if s == [] then 0 else Ones(s[..|s| - 1]) + if s[|s| - 1] then 1 else 0
  }

  lemma {:induction false} ValueBits(v: nat, w: nat)
    requires v < Pow2(w)
    ensures Value(BitsOf(v, w)) == v
  {
    if w > 0 {
      ValueBits(v / 2, w - 1);
      assert BitsOf(v, w)[..w - 1] == BitsOf(v / 2, w - 1);
    }
  }

  lemma {:induction false} BitsValue(s: Bits)
    ensures Value(s) < Pow2(|s|) && BitsOf(Value(s), |s|) == s
  {
    if s != [] {
      var n := |s| - 1;
      BitsValue(s[..n]);
      assert s == s[..n] + [s[n]];
      assert Value(s) / 2 == Value(s[..n]) && (Value(s) % 2 == 1) == s[n];
    }
  }

  lemma {:induction false} ValueSplit(a: Bits, b: Bits)
    ensures Value(a + b) == Value(a) * Pow2(|b|) + Value(b)
  {
    if b == [] {
      assert a + b == a;
    } else {
      var n, bit := |b| - 1, if b[|b| - 1] then 1 else 0;
      ValueSplit(a, b[..n]);
      assert (a + b)[..|a + b| - 1] == a + b[..n];
      assert Value(a + b) == 2 * Value(a + b[..n]) + bit && Value(b) == 2 * Value(b[..n]) + bit;
      assert Pow2(|b|) == 2 * Pow2(n);
      hide Pow2, Value;
      Shift(Value(a), Pow2(n), Value(b[..n]), bit);
    }
  }

  lemma Shift(x: nat, p: nat, v: nat, bit: nat)
    ensures 2 * (x * p + v) + bit == x * (2 * p) + (2 * v + bit)
  {
  }

  lemma {:induction false} FillValue(n: nat)
    ensures Value(Fill(false, n)) == 0 && Value(Fill(true, n)) == Pow2(n) - 1
    ensures Ones(Fill(false, n)) == 0 && Ones(Fill(true, n)) == n
  {
    if n > 0 {
      FillValue(n - 1);
      assert Fill(false, n)[..n - 1] == Fill(false, n - 1) && Fill(true, n)[..n - 1] == Fill(true, n - 1);
    }
  }

  lemma {:induction false} OnesSplit(a: Bits, b: Bits)
    ensures Ones(a + b) == Ones(a) + Ones(b)
  {
    if b == [] {
      assert a + b == a;
    } else {
      OnesSplit(a, b[..|b| - 1]);
      assert (a + b)[..|a + b| - 1] == a + b[..|b| - 1];
    }
  }

  // ---- masks -----------------------------------------------------------------------------------------

  /** The number (1 << (w - bits)) - 1 as a w-bit word. */
  function CreateMask(w: nat, bits: nat): (m: Bits)
    requires bits <= w
    ensures |m| == w
  {
    BitsOf(Pow2(w - bits) - 1, w)
  }

  lemma MaskIsHostPart(w: nat, bits: nat)
    requires bits <= w
    ensures CreateMask(w, bits) == Fill(false, bits) + Fill(true, w - bits)
  {
    var m := Fill(false, bits) + Fill(true, w - bits);
    ValueSplit(Fill(false, bits), Fill(true, w - bits));
    FillValue(bits);
    FillValue(w - bits);
    BitsValue(m);
  }

  /** Clearing the lowest bit set: v & (v - 1). */
  lemma {:induction false} ClearsLowest(v: Bits)
    requires Value(v) > 0
    ensures Ones(And(v, BitsOf(Value(v) - 1, |v|))) == Ones(v) - 1
  {
    var n := |v| - 1;
    var u := v[..n];
    if v[n] {
      BitsValue(u);
      assert And(u, u) == u;
      assert And(v, BitsOf(Value(v) - 1, |v|)) == u + [false];
      OnesSplit(u, [false]);
    } else {
      ClearsLowest(u);
      var cleared := And(u, BitsOf(Value(u) - 1, n));
      assert (Value(v) - 1) / 2 == Value(u) - 1;
      assert And(v, BitsOf(Value(v) - 1, |v|)) == cleared + [false];
      OnesSplit(cleared, [false]);
    }
  }

  lemma {:induction false} NoneSet(v: Bits)
    ensures Value(v) == 0 <==> Ones(v) == 0
  {
    if v != [] { NoneSet(v[..|v| - 1]); }
  }

  method CountBytes(value: Bits) returns (result: nat)
    ensures result == Ones(value)
  {
    var v := value;
    result := 0;
    NoneSet(v);
    while Value(v) != 0
      invariant |v| == |value| && result + Ones(v) == Ones(value)
      invariant Value(v) == 0 <==> Ones(v) == 0
      decreases Ones(v)
    {
      ClearsLowest(v);
      v := And(v, BitsOf(Value(v) - 1, |v|));
      NoneSet(v);
      result := result + 1;
    }
  }

  // ---- networks ----------------------------------------------------------------------------------------

  /** The first and the last address of the network that a and prefix length p name. */
  function FirstOf(a: Bits, p: nat): Bits
    requires p <= |a|
  {
    a[..p] + Fill(false, |a| - p)
  }

  function LastOf(a: Bits, p: nat): Bits
    requires p <= |a|
  {
    a[..p] + Fill(true, |a| - p)
  }

  function NetMask(w: nat, p: nat): (m: Bits)
    requires p <= w
    ensures |m| == w
  {
    Fill(true, p) + Fill(false, w - p)
  }

  function Times(x: nat, n: nat): nat { x * n }

  lemma SplitTimes(a: Bits, b: Bits)
    ensures Value(a + b) == Times(Value(a), Pow2(|b|)) + Value(b)
  {
    ValueSplit(a, b);
    hide Value, Pow2;
  }

  /** The value of an address: its prefix's many networks up, and its host part. */
  lemma InNetwork(a: Bits, p: nat)
    requires p <= |a|
    ensures Value(a) == Times(Value(a[..p]), Pow2(|a| - p)) + Value(a[p..]) && Value(a[p..]) < Pow2(|a| - p)
    ensures Value(FirstOf(a, p)) == Times(Value(a[..p]), Pow2(|a| - p))
    ensures Value(LastOf(a, p)) == Value(FirstOf(a, p)) + Pow2(|a| - p) - 1
  {
    assert a == a[..p] + a[p..];
    hide Value, Pow2, Ones, BitsOf, Times;
    SplitTimes(a[..p], a[p..]);
    SplitTimes(a[..p], Fill(false, |a| - p));
    SplitTimes(a[..p], Fill(true, |a| - p));
    FillValue(|a| - p);
    BitsValue(a[p..]);
  }

  /** The network address is the address under the mask; the broadcast address lies as many addresses
      further as the host part has, less one; and the address lies between them. */
  lemma NetworkBounds(a: Bits, p: nat)
    requires p <= |a|
    ensures FirstOf(a, p) == And(a, NetMask(|a|, p)) && LastOf(a, p) == Or(a, Not(NetMask(|a|, p)))
    ensures Value(LastOf(a, p)) == Value(FirstOf(a, p)) + Pow2(|a| - p) - 1
    ensures Value(FirstOf(a, p)) <= Value(a) <= Value(LastOf(a, p))
  {
    assert FirstOf(a, p) == And(a, NetMask(|a|, p)) && LastOf(a, p) == Or(a, Not(NetMask(|a|, p)));
    hide *;
    InNetwork(a, p);
  }

  lemma SameValue(a: Bits, b: Bits)
    requires |a| == |b| && Value(a) == Value(b)
    ensures a == b
  {
    BitsValue(a);
    BitsValue(b);
  }

  lemma SamePrefix(a: Bits, b: Bits, p: nat)
    requires |a| == |b| && p <= |a|
    ensures FirstOf(a, p) == FirstOf(b, p) <==> a[..p] == b[..p]
    ensures a[..p] == b[..p] ==> LastOf(a, p) == LastOf(b, p)
  {
    assert FirstOf(a, p)[..p] == a[..p] && FirstOf(b, p)[..p] == b[..p];
  }

  lemma InRange(a: Bits, b: Bits, p: nat)
    requires |a| == |b| && p <= |a| && Value(FirstOf(a, p)) <= Value(b) <= Value(LastOf(a, p))
    ensures a[..p] == b[..p]
  {
    hide *;
    InNetwork(a, p);
    InNetwork(b, p);
    SameQuotient(Value(a[..p]), Value(b[..p]), Pow2(|a| - p), Value(b[p..]));
    SameValue(a[..p], b[..p]);
  }

  /** Two addresses are in one network exactly if their first p bits agree, that is, if the one lies between
      the other's network and broadcast address. */
  lemma SameNetwork(a: Bits, b: Bits, p: nat)
    requires |a| == |b| && p <= |a|
    ensures FirstOf(a, p) == FirstOf(b, p) <==> a[..p] == b[..p]
    ensures a[..p] == b[..p] <==> Value(FirstOf(a, p)) <= Value(b) <= Value(LastOf(a, p))
  {
    hide *;
    SamePrefix(a, b, p);
    NetworkBounds(b, p);
    if Value(FirstOf(a, p)) <= Value(b) <= Value(LastOf(a, p)) { InRange(a, b, p); }
  }

  lemma SameQuotient(x: nat, y: nat, n: nat, r: nat)
    requires r < n && Times(x, n) <= Times(y, n) + r <= Times(x, n) + n - 1
    ensures x == y
  {
    hide Times;
    if x < y { MulStep(x, y, n); }
    if y < x { MulStep(y, x, n); }
  }

  lemma MulStep(x: nat, y: nat, n: nat)
    requires x < y
    ensures Times(x, n) + n <= Times(y, n)
  {
    MulNext(x, n);
    MulMono(x + 1, y, n);
  }

  lemma MulNext(x: nat, n: nat)
    ensures (x + 1) * n == x * n + n
  {
  }

  lemma {:induction false} MulMono(x: nat, y: nat, n: nat)
    requires x <= y
    ensures x * n <= y * n
    decreases y
  {
    if x < y {
      MulMono(x, y - 1, n);
      assert y * n == (y - 1) * n + n;
    }
  }

  /** The prefix length can be read off the mask. */
  lemma MaskOnes(w: nat, p: nat)
    requires p <= w
    ensures Ones(NetMask(w, p)) == p
  {
    FillValue(p);
    FillValue(w - p);
    OnesSplit(Fill(true, p), Fill(false, w - p));
  }

  // ---- IPv4: one 32-bit word in network byte order ---------------------------------------------------------

  type Word = s: Bits | |s| == 32 witness Fill(false, 32)

  /** byteswapOnLittleEndian. */
  function Swap(little: bool, v: Word): Word
  {
    if little then v[24..] + v[16..24] + v[8..16] + v[..8] else v
  }

  lemma SwapAnd(little: bool, a: Word, b: Word)
    ensures Swap(little, And(a, b)) == And(Swap(little, a), Swap(little, b))
  {
    assert forall i :: 0 <= i < 32 ==> Swap(little, And(a, b))[i] == (Swap(little, a)[i] && Swap(little, b)[i]);
  }

  lemma SwapOr(little: bool, a: Word, b: Word)
    ensures Swap(little, Or(a, b)) == Or(Swap(little, a), Swap(little, b))
  {
    assert forall i :: 0 <= i < 32 ==> Swap(little, Or(a, b))[i] == (Swap(little, a)[i] || Swap(little, b)[i]);
  }

  lemma SwapNot(little: bool, a: Word)
    ensures Swap(little, Not(a)) == Not(Swap(little, a))
  {
    assert forall i :: 0 <= i < 32 ==> Swap(little, Not(a))[i] == !Swap(little, a)[i];
  }

  lemma SwapOnes(little: bool, a: Word)
    ensures Ones(Swap(little, a)) == Ones(a)
  {
    var b0, b1, b2, b3 := a[..8], a[8..16], a[16..24], a[24..];
    assert a == b0 + b1 + b2 + b3;
    OnesSplit(b0 + b1 + b2, b3);
    OnesSplit(b0 + b1, b2);
    OnesSplit(b0, b1);
    OnesSplit(b3 + b2 + b1, b0);
    OnesSplit(b3 + b2, b1);
    OnesSplit(b3, b2);
  }

  function Broadcast4(addr: Word, p: nat, little: bool): Option<Word>
    requires p > 0
  {
    if p > 32 then None else Some(Or(addr, Swap(little, CreateMask(32, p))))
  }

  function Network4(addr: Word, p: nat, little: bool): Option<Word>
    requires p > 0
  {
    if p > 32 then None else Some(And(addr, Not(Swap(little, CreateMask(32, p)))))
  }

  function SubnetMask4(p: nat, little: bool): Word
    requires 0 < p <= 32
  {
    Not(Swap(little, CreateMask(32, p)))
  }

  /** Whatever the host's byte order, the stored words are those of the network's first and last address
      and its mask, and counting the mask's bits gives the prefix length back. */
  lemma Ipv4Networks(a: Word, p: nat, little: bool)
    requires 0 < p
    ensures p > 32 ==> Network4(Swap(little, a), p, little) == Broadcast4(Swap(little, a), p, little) == None
    ensures p <= 32 ==>
      && Network4(Swap(little, a), p, little) == Some(Swap(little, FirstOf(a, p)))
      && Broadcast4(Swap(little, a), p, little) == Some(Swap(little, LastOf(a, p)))
      && SubnetMask4(p, little) == Swap(little, NetMask(32, p))
      && Ones(SubnetMask4(p, little)) == p
  {
    if p <= 32 {
      var m := CreateMask(32, p);
      MaskIsHostPart(32, p);
      assert Not(m) == NetMask(32, p) && Not(Not(m)) == m;
      SwapNot(little, m);
      SwapOr(little, a, m);
      SwapAnd(little, a, Not(m));
      NetworkBounds(a, p);
      SwapOnes(little, NetMask(32, p));
      MaskOnes(32, p);
    }
  }

  /** The same on the octets in memory. A little-endian host keeps the lowest octet of a word first. If the
      four octets of w in memory are those of address a, then those of the words made from w are those of a
      network's first and last address and of its mask. */
  lemma Ipv4Octets(w: Word, a: Word, p: nat, little: bool)
    requires 0 < p <= 32
    requires little ==> w[24..32] == a[0..8] && w[16..24] == a[8..16] && w[8..16] == a[16..24] && w[0..8] == a[24..32]
    requires !little ==> w[0..8] == a[0..8] && w[8..16] == a[8..16] && w[16..24] == a[16..24] && w[24..32] == a[24..32]
    ensures Network4(w, p, little).Some? && Broadcast4(w, p, little).Some?
    ensures little ==> var n := Network4(w, p, little).value; var f := FirstOf(a, p);
      n[24..32] == f[0..8] && n[16..24] == f[8..16] && n[8..16] == f[16..24] && n[0..8] == f[24..32]
    ensures little ==> var b := Broadcast4(w, p, little).value; var l := LastOf(a, p);
      b[24..32] == l[0..8] && b[16..24] == l[8..16] && b[8..16] == l[16..24] && b[0..8] == l[24..32]
    ensures little ==> var s := SubnetMask4(p, little); var m := NetMask(32, p);
      s[24..32] == m[0..8] && s[16..24] == m[8..16] && s[8..16] == m[16..24] && s[0..8] == m[24..32]
    ensures !little ==>
      && Network4(w, p, little).value == FirstOf(a, p) && Broadcast4(w, p, little).value == LastOf(a, p)
      && SubnetMask4(p, little) == NetMask(32, p)
  {
    SwapOctets(little, w, a);
    SwapOctets(little, Swap(little, FirstOf(a, p)), FirstOf(a, p));
    SwapOctets(little, Swap(little, LastOf(a, p)), LastOf(a, p));
    SwapOctets(little, Swap(little, NetMask(32, p)), NetMask(32, p));
    Ipv4Networks(a, p, little);
    hide *;
  }

  /** A word is another one swapped exactly if its octets in memory are the other's. */
  lemma SwapOctets(little: bool, w: Word, a: Word)
    ensures little ==>
      (w == Swap(little, a) <==>
       w[24..32] == a[0..8] && w[16..24] == a[8..16] && w[8..16] == a[16..24] && w[0..8] == a[24..32])
    ensures !little ==>
      (w == Swap(little, a) <==>
       w[0..8] == a[0..8] && w[8..16] == a[8..16] && w[16..24] == a[16..24] && w[24..32] == a[24..32])
  {
    assert w == w[0..8] + w[8..16] + w[16..24] + w[24..32];
    assert a == a[0..8] + a[8..16] + a[16..24] + a[24..32];
    var r := Swap(little, a);
    if little {
      assert r[0..8] == a[24..32] && r[8..16] == a[16..24] && r[16..24] == a[8..16] && r[24..32] == a[0..8];
      assert r == r[0..8] + r[8..16] + r[16..24] + r[24..32];
    }
  }

  // ---- IPv6: sixteen bytes -----------------------------------------------------------------------------------

  type Octet = s: Bits | |s| == 8 witness Fill(false, 8)

  /** The bits of a row of bytes. */
  function Flat(bytes: seq<Octet>): (s: Bits)
    ensures |s| == 8 * |bytes| && forall k :: 0 <= k < |s| ==> s[k] == bytes[k / 8][k % 8]
  {
    seq(8 * |bytes|, k requires 0 <= k < 8 * |bytes| => bytes[k / 8][k % 8])
  }

  lemma ByteMask(bits: nat)
    requires bits < 8
    ensures forall j :: 0 <= j < 8 ==> CreateMask(8, bits)[j] == (j >= bits)
  {
    MaskIsHostPart(8, bits);
  }

  /** The byte at the border, in the three cases. */
  lemma Edges(o: Octet, bits: nat)
    requires bits < 8
    ensures forall j :: 0 <= j < 8 ==> Or(o, CreateMask(8, bits))[j] == if j < bits then o[j] else true
    ensures forall j :: 0 <= j < 8 ==> And(o, Not(CreateMask(8, bits)))[j] == if j < bits then o[j] else false
    ensures forall j :: 0 <= j < 8 ==> Not(CreateMask(8, bits))[j] == (j < bits)
  {
    ByteMask(bits);
    hide *;
  }

  /** Byte p / 8 holds the border between prefix and host part; the bytes before it are a's, those after it
      are all b. */
  lemma Assembled(a: seq<Octet>, r: seq<Octet>, p: nat, b: bool)
    requires |a| == |r| == 16 && p < 128
    requires forall i :: 0 <= i < p / 8 ==> r[i] == a[i]
    requires forall j :: 0 <= j < 8 ==> r[p / 8][j] == if j < p % 8 then a[p / 8][j] else b
    requires forall i :: p / 8 < i < 16 ==> r[i] == Fill(b, 8)
    ensures Flat(r) == Flat(a)[..p] + Fill(b, 128 - p)
    ensures Flat(r) == if b then LastOf(Flat(a), p) else FirstOf(Flat(a), p)
  {
    forall k | 0 <= k < 128
      ensures Flat(r)[k] == if k < p then Flat(a)[k] else b
    {
      if k / 8 == p / 8 { assert k < p <==> k % 8 < p % 8; }
    }
  }

  method BroadcastAddress6(addr: seq<Octet>, p: nat) returns (r: array<Octet>)
    requires |addr| == 16 && p < 128
    ensures fresh(r) && r.Length == 16 && Flat(r[..]) == LastOf(Flat(addr), p)
  {
    hide *;
    r := new Octet[16](i requires 0 <= i < 16 => addr[i]);
    Edges(addr[p / 8], p % 8);
    r[p / 8] := Or(r[p / 8], CreateMask(8, p % 8));
    ghost var edge := r[p / 8];
    assert forall j :: 0 <= j < 8 ==> edge[j] == if j < p % 8 then addr[p / 8][j] else true;
    var i := p / 8 + 1;
    while i < 16
      invariant p / 8 < i <= 16
      invariant forall j :: 0 <= j < p / 8 ==> r[j] == addr[j]
      invariant r[p / 8] == edge
      invariant forall j :: p / 8 < j < i ==> r[j] == Fill(true, 8)
    {
      r[i] := Fill(true, 8);
      i := i + 1;
    }
    Assembled(addr, r[..], p, true);
  }

  method NetworkAddress6(addr: seq<Octet>, p: nat) returns (r: array<Octet>)
    requires |addr| == 16 && p < 128
    ensures fresh(r) && r.Length == 16 && Flat(r[..]) == FirstOf(Flat(addr), p)
  {
    hide *;
    r := new Octet[16](i requires 0 <= i < 16 => addr[i]);
    Edges(addr[p / 8], p % 8);
    r[p / 8] := And(r[p / 8], Not(CreateMask(8, p % 8)));
    ghost var edge := r[p / 8];
    assert forall j :: 0 <= j < 8 ==> edge[j] == if j < p % 8 then addr[p / 8][j] else false;
    var i := p / 8 + 1;
    while i < 16
      invariant p / 8 < i <= 16
      invariant forall j :: 0 <= j < p / 8 ==> r[j] == addr[j]
      invariant r[p / 8] == edge
      invariant forall j :: p / 8 < j < i ==> r[j] == Fill(false, 8)
    {
      r[i] := Fill(false, 8);
      i := i + 1;
    }
    Assembled(addr, r[..], p, false);
  }

  method SubnetMask6(p: nat) returns (r: array<Octet>)
    requires p < 128
    ensures fresh(r) && r.Length == 16 && Flat(r[..]) == NetMask(128, p)
  {
    hide *;
    r := new Octet[16](i => Fill(false, 8));
    Edges(Fill(false, 8), p % 8);
    r[p / 8] := Not(CreateMask(8, p % 8));
    ghost var edge := r[p / 8];
    assert forall j :: 0 <= j < 8 ==> edge[j] == (j < p % 8);
    var i := 0;
    while i < p / 8
      invariant 0 <= i <= p / 8
      invariant forall j :: 0 <= j < i ==> r[j] == Fill(true, 8)
      invariant r[p / 8] == edge
      invariant forall j :: p / 8 < j < 16 ==> r[j] == Fill(false, 8)
    {
      r[i] := Fill(true, 8);
      i := i + 1;
    }
    AllOnes(r[..], p);
  }

  lemma AllOnes(r: seq<Octet>, p: nat)
    requires |r| == 16 && p < 128
    requires forall i :: 0 <= i < p / 8 ==> r[i] == Fill(true, 8)
    requires forall j :: 0 <= j < 8 ==> r[p / 8][j] == (j < p % 8)
    requires forall i :: p / 8 < i < 16 ==> r[i] == Fill(false, 8)
    ensures Flat(r) == NetMask(128, p)
  {
    var ones: seq<Octet> := seq(16, j => Fill(true, 8));
    Assembled(ones, r, p, false);
    assert Flat(ones)[..p] == Fill(true, p);
  }

  /** The prefix length of a mask, as the interface scan finds it. */
  method PrefixLength6(mask: seq<Octet>) returns (n: nat)
    requires |mask| == 16
    ensures n == Ones(Flat(mask))
    ensures forall p :: 0 <= p <= 128 && Flat(mask) == NetMask(128, p) ==> n == p
  {
    n := 0;
    var i := 0;
    while i < 16
      invariant 0 <= i <= 16 && n == Ones(Flat(mask[..i]))
    {
      var c := CountBytes(mask[i]);
      FlatStep(mask[..i], mask[i]);
      assert mask[..i + 1] == mask[..i] + [mask[i]];
      n := n + c;
      i := i + 1;
    }
    assert mask[..i] == mask;
    forall p | 0 <= p <= 128 && Flat(mask) == NetMask(128, p)
      ensures n == p
    {
      MaskOnes(128, p);
    }
  }

  lemma FlatStep(bytes: seq<Octet>, last: Octet)
    ensures Flat(bytes + [last]) == Flat(bytes) + last
    ensures Ones(Flat(bytes + [last])) == Ones(Flat(bytes)) + Ones(last)
  {
    OnesSplit(Flat(bytes), last);
  }
}
