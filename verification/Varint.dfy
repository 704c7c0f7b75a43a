/** Zigzag and base-128 varints: Protocol Buffers Encoding, "Base 128 Varints" and "Signed Integers". */
module Varints {
  import opened Bytes
  import opened Common

  // ---- machine integers ------------------------------------------------------------------

  /** v as an unsigned number of the given width. */
  function Wrap(v: int, bits: nat): (u: nat)
    ensures u < Pow2(bits)
  {
    v % Pow2(bits)
  }

  /** The two's complement reading of u. */
  function Signed(u: nat, bits: nat): int
  {
    if 2 * u < Pow2(bits) then u else u - Pow2(bits)
  }

  ghost predicate InRange(v: int, bits: nat)
  {
    0 - Pow2(bits) <= 2 * v < Pow2(bits)
  }

  lemma SignedWrap(v: int, bits: nat)
    requires bits > 0 && InRange(v, bits)
    ensures Signed(Wrap(v, bits), bits) == v
  {
    if v < 0 {
      ModOnce(v + Pow2(bits), Pow2(bits), -1);
    } else {
      ModOnce(v, Pow2(bits), 0);
    }
  }

  lemma ModOnce(r: int, m: int, q: int)
    requires 0 <= r < m && -1 <= q <= 0
    ensures (r + q * m) % m == r
  {
    if q == -1 {
      assert (r - m) % m == r;
    }
  }

  lemma WrapSmall(v: nat, bits: nat)
    requires v < Pow2(bits)
    ensures Wrap(v, bits) == v
  {
    ModOnce(v, Pow2(bits), 0);
  }

  // ---- zigzag ------------------------------------------------------------------------------

  /** The negation, doubling and decrement all wrap at the width. */
  function EncodeZigzag(v: int, bits: nat): nat
  {
    if v < 0 then Wrap(Wrap(-v, bits) * 2 - 1, bits) else Wrap(v * 2, bits)
  }

  /** Shifting out the low bit and, when it was set, complementing every bit. */
  function DecodeZigzag(u: nat, bits: nat): int
    requires u < Pow2(bits)
  {
    var half := u / 2;
    Signed(if u % 2 == 0 then half else Pow2(bits) - 1 - half, bits)
  }

  lemma ZigzagValue(v: int, bits: nat)
    requires bits > 0 && InRange(v, bits)
    ensures EncodeZigzag(v, bits) == if v < 0 then -2 * v - 1 else 2 * v
  {
    var m := Pow2(bits);
    assert m == 2 * Pow2(bits - 1);
    if v < 0 {
      ModOnce(-v, m, 0);
      ModOnce(-2 * v - 1, m, 0);
    } else {
      ModOnce(2 * v, m, 0);
    }
  }

  /** Decoding undoes encoding on every signed number of the width. */
  lemma ZigzagDecodesEncoded(v: int, bits: nat)
    requires bits > 0 && InRange(v, bits)
    ensures EncodeZigzag(v, bits) < Pow2(bits) && DecodeZigzag(EncodeZigzag(v, bits), bits) == v
  {
    ZigzagValue(v, bits);
    assert Pow2(bits) == 2 * Pow2(bits - 1);
    hide Pow2, EncodeZigzag;
  }

  /** Encoding undoes decoding on every unsigned number of the width: with the other direction, a bijection. */
  lemma ZigzagEncodesDecoded(u: nat, bits: nat)
    requires bits > 0 && u < Pow2(bits)
    ensures InRange(DecodeZigzag(u, bits), bits) && EncodeZigzag(DecodeZigzag(u, bits), bits) == u
  {
    assert Pow2(bits) == 2 * Pow2(bits - 1);
    hide Pow2, EncodeZigzag;
    ZigzagValue(DecodeZigzag(u, bits), bits);
  }

  // ---- varints -----------------------------------------------------------------------------

  /** Seven bits a byte, least significant first, the top bit set on all but the last. */
  function EncodeVarint(v: nat): (s: seq<byte>)
    ensures |s| >= 1
  {
    if v < 0x80 then [v] else [0x80 + v % 0x80] + EncodeVarint(v / 0x80)
  }

  /** What the reader makes of s when its next byte is shifted by shift: the value and the bytes
      taken. It stops after the width is used up whatever the last byte's top bit says. */
  function DecodeVarint(s: seq<byte>, shift: nat, bits: nat): Option<(nat, nat)>
    decreases |s|
  {
    if shift >= bits then Some((0, 0))
    else if s == [] then None
    else if s[0] < 0x80 then Some((Wrap(s[0] * Pow2(shift), bits), 1))
    else match DecodeVarint(s[1..], shift + 7, bits)
      case None => None
      case Some((v, n)) => Some((Wrap(s[0] % 0x80 * Pow2(shift), bits) + v, n + 1))
  }

  /** Whatever follows it, an encoded number reads back as itself and takes exactly its own bytes. */
  lemma {:induction false} VarintAtShift(v: nat, rest: seq<byte>, shift: nat, bits: nat)
    requires shift < bits && v * Pow2(shift) < Pow2(bits)
    ensures DecodeVarint(EncodeVarint(v) + rest, shift, bits) == Some((v * Pow2(shift), |EncodeVarint(v)|))
    decreases v
  {
    hide Pow2, Wrap, DecodeVarint, EncodeVarint;
    if v < 0x80 {
      EncodeShort(v);
      WrapSmall(v * Pow2(shift), bits);
      DecodeLast(v, rest, shift, bits);
    } else {
      ScaledSplit(v, shift, bits);
      VarintAtShift(v / 0x80, rest, shift + 7, bits);
      EncodeLong(v, rest);
      DecodeMore(0x80 + v % 0x80, EncodeVarint(v / 0x80) + rest, shift, bits);
    }
  }

  lemma EncodeShort(value: nat)
    requires value < 0x80
    ensures EncodeVarint(value) == [value]
  {
  }

  lemma EncodeLong(value: nat, rest: seq<byte>)
    requires value >= 0x80
    ensures EncodeVarint(value) + rest == [0x80 + value % 0x80] + (EncodeVarint(value / 0x80) + rest)
    ensures |EncodeVarint(value)| == 1 + |EncodeVarint(value / 0x80)|
  {
  }

  lemma DecodeLast(b: byte, tail: seq<byte>, shift: nat, bits: nat)
    requires shift < bits && b < 0x80
    ensures DecodeVarint([b] + tail, shift, bits) == Some((Wrap(b * Pow2(shift), bits), 1))
  {
  }

  lemma DecodeMore(b: byte, tail: seq<byte>, shift: nat, bits: nat)
    requires shift < bits && b >= 0x80 && DecodeVarint(tail, shift + 7, bits).Some?
    ensures var d := DecodeVarint(tail, shift + 7, bits).value;
      DecodeVarint([b] + tail, shift, bits) == Some((Wrap(b % 0x80 * Pow2(shift), bits) + d.0, d.1 + 1))
  {
    hide Pow2, Wrap;
    assert ([b] + tail)[1..] == tail;
  }

  lemma Pow2Seven(n: nat)
    ensures Pow2(7) == 0x80 && Pow2(n + 7) == 0x80 * Pow2(n)
  {
    assert Pow2(3) == 8;
    assert Pow2(5) == 32;
    assert Pow2(n + 2) == 4 * Pow2(n);
    assert Pow2(n + 4) == 4 * Pow2(n + 2);
    assert Pow2(n + 6) == 4 * Pow2(n + 4);
  }

  /** Low seven bits and the rest, scaled. */
  lemma SplitScaled(v: nat, p: nat)
    ensures v * p == v % 0x80 * p + v / 0x80 * (0x80 * p)
    ensures 0 <= v % 0x80 * p && 0 <= v / 0x80 * (0x80 * p)
    ensures v >= 0x80 ==> 0x80 * p <= v * p
  {
    var low, high := v % 0x80, v / 0x80;
    assert v == low + 0x80 * high;
    assert (low + 0x80 * high) * p == low * p + (0x80 * high) * p;
    assert (0x80 * high) * p == high * (0x80 * p);
    if v >= 0x80 {
      MulAtLeast(high, 0x80 * p);
    }
  }

  /** The low seven bits stay at this shift, the rest moves to the next, and neither overflows. */
  lemma ScaledSplit(v: nat, shift: nat, bits: nat)
    requires v >= 0x80 && shift < bits && v * Pow2(shift) < Pow2(bits)
    ensures shift + 7 < bits && v / 0x80 * Pow2(shift + 7) < Pow2(bits)
    ensures Wrap(v % 0x80 * Pow2(shift), bits) + v / 0x80 * Pow2(shift + 7) == v * Pow2(shift)
    ensures v / 0x80 * Pow2(shift + 7) >= 0
  {
    hide Pow2, Wrap;
    Pow2Seven(shift);
    SplitScaled(v, Pow2(shift));
    WrapSmall(v % 0x80 * Pow2(shift), bits);
    if shift + 7 >= bits {
      Pow2Mono(bits, shift + 7);
    }
  }

  lemma VarintRoundTrip(v: nat, rest: seq<byte>, bits: nat)
    requires v < Pow2(bits) && bits > 0
    ensures DecodeVarint(EncodeVarint(v) + rest, 0, bits) == Some((v, |EncodeVarint(v)|))
  {
    VarintAtShift(v, rest, 0, bits);
  }

  /** The encoding is self-delimiting. */
  lemma VarintPrefixFree(v: nat, w: nat, r: seq<byte>, r': seq<byte>)
    requires EncodeVarint(v) + r == EncodeVarint(w) + r'
    ensures v == w && r == r'
  {
    var bits := v + w + 1;
    BelowPow2(v, bits);
    BelowPow2(w, bits);
    VarintRoundTrip(v, r, bits);
    VarintRoundTrip(w, r', bits);
    assert r == (EncodeVarint(v) + r)[|EncodeVarint(v)|..];
    assert r' == (EncodeVarint(w) + r')[|EncodeVarint(w)|..];
  }

  lemma {:induction false} BelowPow2(v: nat, n: nat)
    requires v < n
    ensures v < Pow2(n)
  {
    if n > 1 {
      BelowPow2(if v == 0 then 0 else v - 1, n - 1);
    } else {
      assert Pow2(1) == 2;
    }
  }

  /** A number takes at most k bytes iff it has at most 7 * k bits. */
  lemma {:induction false} VarintLength(v: nat, k: nat)
    requires k >= 1
    ensures |EncodeVarint(v)| <= k <==> v < Pow2(7 * k)
    decreases k
  {
    Pow2Seven(0);
    if k > 1 {
      Pow2Seven(7 * (k - 1));
      if v >= 0x80 {
        VarintLength(v / 0x80, k - 1);
        DivBelow(v, Pow2(7 * (k - 1)));
      } else {
        Pow2Mono(7, 7 * k);
      }
    }
  }

  lemma DivBelow(v: nat, p: nat)
    ensures v / 0x80 < p <==> v < 0x80 * p
  {
  }

  /** A signed number takes at most k bytes iff it lies in [-2^(7k-1), 2^(7k-1)). */
  lemma SignedVarintLength(v: int, bits: nat, k: nat)
    requires bits > 0 && InRange(v, bits) && k >= 1
    ensures |EncodeVarint(EncodeZigzag(v, bits))| <= k <==> 0 - Pow2(7 * k - 1) <= v < Pow2(7 * k - 1)
  {
    ZigzagValue(v, bits);
    VarintLength(EncodeZigzag(v, bits), k);
    assert Pow2(7 * k) == 2 * Pow2(7 * k - 1);
  }

  /** Byte i carries the i-th seven bits, the lowest first, and says whether more follow. */
  lemma {:induction false} VarintAt(v: nat, i: nat)
    requires i < |EncodeVarint(v)|
    ensures EncodeVarint(v)[i] == v / Pow2(7 * i) % 0x80 + if i < |EncodeVarint(v)| - 1 then 0x80 else 0
  {
    if i > 0 {
      VarintAt(v / 0x80, i - 1);
      Pow2Seven(7 * (i - 1));
      DivSeven(v, Pow2(7 * (i - 1)));
    }
  }

  lemma DivSeven(v: nat, p: nat)
    requires p > 0
    ensures v / 0x80 / p == v / (0x80 * p)
  {
    var q, r := v / 0x80 / p, v / 0x80 % p;
    QuotientRemainder(v, 0x80);
    QuotientRemainder(v / 0x80, p);
    assert v == (q * p + r) * 0x80 + v % 0x80;
    assert (q * p + r) * 0x80 == q * (0x80 * p) + r * 0x80;
    DivModUnique(v, 0x80 * p, q, r * 0x80 + v % 0x80);
  }

  /** The sevens of a row of bytes, each cut to the width where it ends up. */
  function Sevens(s: seq<byte>, bits: nat): nat
  {
    if s == [] then 0
    else Sevens(s[..|s| - 1], bits) + s[|s| - 1] % 0x80 * Pow2(7 * (|s| - 1)) % Pow2(bits)
  }

  /** What any bytes at all decode to: reading goes on while the top bit is set, but never past the width. */
  lemma {:induction false} DecodeAny(s: seq<byte>, k: nat, bits: nat)
    requires k <= |s| && 7 * k < bits + 7 && forall i :: 0 <= i < k ==> s[i] >= 0x80
    ensures 7 * k >= bits ==> DecodeVarint(s, 0, bits) == Some((Sevens(s[..k], bits), k))
    ensures 7 * k < bits && k == |s| ==> DecodeVarint(s, 0, bits) == None
    ensures 7 * k < bits && k < |s| && s[k] < 0x80 ==>
      DecodeVarint(s, 0, bits) == Some((Sevens(s[..k + 1], bits), k + 1))
  {
    DecodeFrom(s, 0, k, bits);
    hide DecodeVarint;
    assert s[0..] == s && s[..0] == [];
    if k < |s| { SevensStep(s, k, bits); }
  }

  lemma SevensStep(s: seq<byte>, k: nat, bits: nat)
    requires k < |s|
    ensures Sevens(s[..k + 1], bits) == Sevens(s[..k], bits) + Wrap(s[k] % 0x80 * Pow2(7 * k), bits)
  {
    assert s[..k + 1][..k] == s[..k];
  }

  lemma {:induction false} DecodeFrom(s: seq<byte>, i: nat, k: nat, bits: nat)
    requires i <= k <= |s| && 7 * k < bits + 7 && forall j :: i <= j < k ==> s[j] >= 0x80
    ensures var d := DecodeVarint(s[i..], 7 * i, bits);
      && (7 * k >= bits ==> d.Some? && Sevens(s[..i], bits) + d.value.0 == Sevens(s[..k], bits) && d.value.1 == k - i)
      && (7 * k < bits && k == |s| ==> d == None)
      && (7 * k < bits && k < |s| && s[k] < 0x80 ==>
            && d.Some? && d.value.1 == k + 1 - i
            && Sevens(s[..i], bits) + d.value.0 == Sevens(s[..k], bits) + Wrap(s[k] % 0x80 * Pow2(7 * k), bits))
    decreases k - i
  {
    hide Pow2, Wrap, Sevens;
    if i < k {
      DecodeFrom(s, i + 1, k, bits);
      SevensStep(s, i, bits);
      assert s[i..][1..] == s[i + 1..];
    }
  }

  /** No 32-bit number needs more than 5 bytes and no 64-bit number more than 10. */
  lemma VarintFitsBuffer(v: nat, bits: nat)
    requires bits == 32 || bits == 64
    requires v < Pow2(bits)
    ensures |EncodeVarint(v)| <= if bits == 32 then 5 else 10
  {
    var k := if bits == 32 then 5 else 10;
    Pow2Mono(bits, 7 * k);
    VarintLength(v, k);
  }

  lemma EncodeStep(done: seq<byte>, value: nat)
    requires value >= 0x80
    ensures done + [0x80 + value % 0x80] + EncodeVarint(value / 0x80) == done + EncodeVarint(value)
    ensures |EncodeVarint(value)| == 1 + |EncodeVarint(value / 0x80)|
  {
  }

  /** The encoding loop: fills a buffer of 5 or 10 bytes and returns the part used. */
  method EncodeLoop(v: nat, bits: nat) returns (s: seq<byte>)
    requires bits == 32 || bits == 64
    requires v < Pow2(bits)
    ensures s == EncodeVarint(v)
  {
    VarintFitsBuffer(v, bits);
    hide Pow2;
    hide EncodeVarint;
    var tmp := new byte[if bits == 32 then 5 else 10];
    var i := 0;
    var value := v;
    while value >= 0x80
      invariant 0 <= i && 0 <= value
      invariant i + |EncodeVarint(value)| <= tmp.Length
      invariant tmp[..i] + EncodeVarint(value) == EncodeVarint(v)
    {
      EncodeStep(tmp[..i], value);
      tmp[i] := value % 0x80 + 0x80;
      assert tmp[..i + 1] == tmp[..i] + [0x80 + value % 0x80];
      i := i + 1;
      value := value / 0x80;
    }
    assert EncodeVarint(value) == [value] by {
      EncodeShort(value);
    }
    tmp[i] := value;
    i := i + 1;
    s := tmp[..i];
  }
}
