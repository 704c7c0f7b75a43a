/** The typed records a byte array writes and reads: fixed-width and varint integers and
    length-prefixed strings, as byte sequences. */
module Records {
  import opened Bytes
  import opened Common
  import opened Varints

  datatype Prefix = F16 | F32 | F64 | Vint
  datatype Kind = FInt(w: nat) | FUint(w: nat) | VInt(bits: nat) | VUint(bits: nat) | Str(prefix: Prefix)
  datatype Value = Num(n: int) | Text(s: seq<byte>)
  datatype Record = Record(kind: Kind, value: Value)

  predicate IsWidth(w: nat) { w == 1 || w == 2 || w == 4 || w == 8 }
  predicate IsVarWidth(bits: nat) { bits == 32 || bits == 64 }

  ghost predicate KindOk(k: Kind) {
    match k
    case FInt(w) => IsWidth(w)
    case FUint(w) => IsWidth(w)
    case VInt(b) => IsVarWidth(b)
    case VUint(b) => IsVarWidth(b)
    case Str(_) => true
  }

  /** The value has the parameter type of the kind's write function. */
  ghost predicate WellTyped(r: Record) {
    && KindOk(r.kind)
    && match r.kind
       case FInt(w) => r.value.Num? && InRange(r.value.n, 8 * w)
       case FUint(w) => r.value.Num? && 0 <= r.value.n < Pow2(8 * w)
       case VInt(b) => r.value.Num? && InRange(r.value.n, b)
       case VUint(b) => r.value.Num? && 0 <= r.value.n < Pow2(b)
       case Str(_) => r.value.Text?
  }

  // ---- fixed-width integers ----------------------------------------------------------------

  lemma {:induction false} Pow2Is256(w: nat)
    ensures Pow2(8 * w) == Pow256(w)
  {
    if w > 0 {
      Pow2Is256(w - 1);
      Pow2Add(8, 8 * (w - 1));
      Pow2Seven(1);
    }
  }

  /** The w bytes of u in the given byte order: in the memory of such a machine, or on the wire. */
  function Wire(u: nat, w: nat, big: bool): (s: seq<byte>)
    ensures |s| == w
  {
    if big then Reverse(LittleEndian(u, w)) else LittleEndian(u, w)
  }

  function FromWire(s: seq<byte>, big: bool): nat
  {
    FromLittleEndian(if big then Reverse(s) else s)
  }

  function ByteSwap(u: nat, w: nat): nat
  {
    FromLittleEndian(Reverse(LittleEndian(u, w)))
  }

  /** The bytes written for u: swapped when the array's byte order is not the machine's. */
  function WriteImage(u: nat, w: nat, big: bool, hostBig: bool): seq<byte>
  {
    Wire(if big != hostBig then ByteSwap(u, w) else u, w, hostBig)
  }

  function ReadImage(s: seq<byte>, big: bool, hostBig: bool): nat
  {
    var u := FromWire(s, hostBig);
    if big != hostBig then ByteSwap(u, |s|) else u
  }

  /** Only the array's byte order decides the bytes, never the machine's. */
  lemma WireIgnoresHost(u: nat, w: nat, big: bool, hostBig: bool)
    ensures WriteImage(u, w, big, hostBig) == Wire(u, w, big)
  {
    var le := LittleEndian(u, w);
    ToFromLittleEndian(Reverse(le));
    ReverseInvolutive(le);
  }

  lemma ReadIgnoresHost(s: seq<byte>, big: bool, hostBig: bool)
    ensures ReadImage(s, big, hostBig) == FromWire(s, big)
  {
    ToFromLittleEndian(s);
    ToFromLittleEndian(Reverse(s));
    ReverseInvolutive(s);
  }

  lemma WireRoundTrip(u: nat, w: nat, big: bool)
    requires u < Pow2(8 * w)
    ensures FromWire(Wire(u, w, big), big) == u
  {
    Pow2Is256(w);
    FromToLittleEndian(u, w);
    ReverseInvolutive(LittleEndian(u, w));
  }

  lemma {:induction false} LittleEndianAt(v: nat, w: nat, i: nat)
    requires i < w
    ensures LittleEndian(v, w)[i] == v / Pow256(i) % 256
  {
    if i > 0 {
      LittleEndianAt(v / 256, w - 1, i - 1);
      DivTwice(v, 256, Pow256(i - 1));
    }
  }

  lemma DivTwice(v: nat, a: nat, b: nat)
    requires a > 0 && b > 0
    ensures a * b > 0 && v / a / b == v / (a * b)
  {
    var q, r := v / a / b, v / a % b;
    QuotientRemainder(v, a);
    QuotientRemainder(v / a, b);
    assert v == (q * b + r) * a + v % a;
    assert (q * b + r) * a == q * (a * b) + r * a;
    assert r * a + v % a < a * b by { Carry(r, b, a, v % a); }
    assert a * b > 0 by { MulAtLeast(a, b); }
    DivModUnique(v, a * b, q, r * a + v % a);
  }

  lemma Carry(r: nat, b: nat, a: nat, low: nat)
    requires r < b && low < a
    ensures r * a + low < a * b
  {
    MulAtLeast(b - r, a);
    assert a * b == r * a + (b - r) * a;
  }

  /** The bytes of a w-byte integer, by index. */
  lemma WireAt(u: nat, w: nat, big: bool, i: nat)
    requires i < w
    ensures Wire(u, w, big)[i] == u / Pow256(if big then w - 1 - i else i) % 256
  {
    LittleEndianAt(u, w, if big then w - 1 - i else i);
    hide LittleEndian;
  }

  lemma WireFromWire(s: seq<byte>, big: bool)
    ensures FromWire(s, big) < Pow256(|s|) && Wire(FromWire(s, big), |s|, big) == s
  {
    ToFromLittleEndian(s);
    ToFromLittleEndian(Reverse(s));
    ReverseInvolutive(s);
    hide LittleEndian, FromLittleEndian, Reverse;
  }

  /** And read: the number's bytes in that order are those given. */
  lemma FromWireAt(s: seq<byte>, big: bool, i: nat)
    requires i < |s|
    ensures FromWire(s, big) < Pow256(|s|)
    ensures s[i] == FromWire(s, big) / Pow256(if big then |s| - 1 - i else i) % 256
  {
    hide *;
    WireFromWire(s, big);
    WireAt(FromWire(s, big), |s|, big, i);
  }

  lemma {:induction false} LittleEndianWrap(v: nat, w: nat)
    ensures LittleEndian(v % Pow256(w), w) == LittleEndian(v, w)
  {
    if w > 0 {
      WrapBytes(v, Pow256(w - 1));
      LittleEndianWrap(v / 256, w - 1);
    }
  }

  lemma WrapBytes(v: nat, p: nat)
    requires p > 0
    ensures v % (256 * p) % 256 == v % 256 && v % (256 * p) / 256 == v / 256 % p
  {
    var q, r := v / 256 / p, v / 256 % p;
    QuotientRemainder(v, 256);
    QuotientRemainder(v / 256, p);
    assert v == (q * p + r) * 256 + v % 256;
    assert (q * p + r) * 256 == q * (256 * p) + r * 256;
    DivModUnique(v, 256 * p, q, r * 256 + v % 256);
    DivModUnique(r * 256 + v % 256, 256, r, v % 256);
  }

  // ---- serialized form -----------------------------------------------------------------------

  function PrefixBits(p: Prefix): nat
  {
    match p case F16 => 16 case F32 => 32 case F64 => 64 case Vint => 64
  }

  /** A string's length is cut to the prefix's width; the string itself is not. */
  function LengthPrefix(p: Prefix, len: nat, big: bool): seq<byte>
  {
    var n := Wrap(len, PrefixBits(p));
    if p == Vint then EncodeVarint(n) else Wire(n, PrefixBits(p) / 8, big)
  }

  /** The length in front of a string is written like an integer of two, four or eight bytes, or as a varint. */
  lemma PrefixIsWire(p: Prefix, len: nat, big: bool)
    ensures p == F16 ==> LengthPrefix(p, len, big) == Wire(len, 2, big)
    ensures p == F32 ==> LengthPrefix(p, len, big) == Wire(len, 4, big)
    ensures p == F64 ==> LengthPrefix(p, len, big) == Wire(len, 8, big)
    ensures p == Vint ==> LengthPrefix(p, len, big) == EncodeVarint(len % 0x1_0000_0000_0000_0000)
  {
    hide Wrap, Pow256, Wire, EncodeVarint;
    match p
    case F16 => CutWire(len, 2, big);
    case F32 => CutWire(len, 4, big);
    case F64 => CutWire(len, 8, big);
    case Vint => CutLong(len);
  }

  lemma CutWire(v: nat, w: nat, big: bool)
    ensures Wire(Wrap(v, 8 * w), w, big) == Wire(v, w, big)
  {
    Pow2Is256(w);
    WrappedWire(v, w, big);
    hide Pow2, Pow256, Wire;
  }

  lemma CutLong(v: nat)
    ensures Wrap(v, 64) == v % 0x1_0000_0000_0000_0000
  {
    Pow2Is256(8);
    Pow256Widths();
    hide Pow2, Pow256;
  }

  /** The bytes are those of n, the first weighing most in big-endian order and least otherwise. */
  ghost predicate HoldsNumber(bytes: seq<byte>, n: nat, big: bool)
  {
    forall i :: 0 <= i < |bytes| ==> bytes[i] == n / Pow256(if big then |bytes| - 1 - i else i) % 256
  }

  lemma WireHolds(u: nat, w: nat, big: bool)
    ensures HoldsNumber(Wire(u, w, big), u, big)
  {
    forall i | 0 <= i < w
      ensures Wire(u, w, big)[i] == u / Pow256(if big then w - 1 - i else i) % 256
    {
      WireAt(u, w, big, i);
    }
  }

  /** So a fixed length holds the string's, or what of it fits. */
  lemma PrefixBytes(p: Prefix, len: nat, big: bool)
    requires p != Vint
    ensures |LengthPrefix(p, len, big)| == match p case F16 => 2 case F32 => 4 case _ => 8
    ensures HoldsNumber(LengthPrefix(p, len, big), len, big)
  {
    PrefixIsWire(p, len, big);
    WireHolds(len, match p case F16 => 2 case F32 => 4 case _ => 8, big);
    hide *;
  }

  lemma WrappedWire(v: nat, w: nat, big: bool)
    ensures Wire(v % Pow256(w), w, big) == Wire(v, w, big)
  {
    LittleEndianWrap(v, w);
  }

  /** The bytes of a signed integer are those of its two's complement. */
  lemma SignedBytes(n: int, w: nat, big: bool, i: nat)
    requires IsWidth(w) && InRange(n, 8 * w) && i < w
    ensures |Serialize(Record(FInt(w), Num(n)), big)| == w
    ensures n < 0 ==> n + Pow256(w) >= 0
    ensures Serialize(Record(FInt(w), Num(n)), big)[i]
         == (if n < 0 then n + Pow256(w) else n) / Pow256(if big then w - 1 - i else i) % 256
  {
    Pow2Is256(w);
    hide Pow2, Pow256, Wire;
    var u := if n < 0 then n + Pow2(8 * w) else n;
    ModOnce(u, Pow2(8 * w), if n < 0 then -1 else 0);
    WireAt(u, w, big, i);
  }

  function Serialize(r: Record, big: bool): seq<byte>
    requires WellTyped(r)
  {
    match r.kind
    case FInt(w) => Wire(Wrap(r.value.n, 8 * w), w, big)
    case FUint(w) => Wire(r.value.n, w, big)
    case VInt(b) => EncodeVarint(EncodeZigzag(r.value.n, b))
    case VUint(b) => EncodeVarint(r.value.n)
    case Str(p) => LengthPrefix(p, |r.value.s|, big) + r.value.s
  }

  // ---- reading back --------------------------------------------------------------------------

  function ParseFixed(s: seq<byte>, w: nat, big: bool): Option<(nat, nat)>
  {
    if w > |s| then None else Some((FromWire(s[..w], big), w))
  }

  function ParseLength(p: Prefix, s: seq<byte>, big: bool): (r: Option<(nat, nat)>)
    ensures r.Some? ==> r.value.1 <= |s|
  {
    if p == Vint && DecodeVarint(s, 0, 64).Some? then
      DecodeBounds(s, 0, 64);
      DecodeVarint(s, 0, 64)
    else if p == Vint then DecodeVarint(s, 0, 64) else ParseFixed(s, PrefixBits(p) / 8, big)
  }

  lemma {:induction false} DecodeBounds(s: seq<byte>, shift: nat, bits: nat)
    requires DecodeVarint(s, shift, bits).Some?
    ensures DecodeVarint(s, shift, bits).value.1 <= |s|
    decreases |s|
  {
    if shift < bits && s != [] && s[0] >= 0x80 {
      DecodeBounds(s[1..], shift + 7, bits);
    }
  }

  /** The value a read function returns from the bytes at the cursor and how many it takes;
      None where it throws. */
  function Parse(k: Kind, s: seq<byte>, big: bool): (r: Option<(Value, nat)>)
    ensures r.Some? ==> r.value.1 <= |s|
  {
    match k
    case FInt(w) => (match ParseFixed(s, w, big)
                     case None => None
                     case Some((u, n)) => Some((Num(Signed(u, 8 * w)), n)))
    case FUint(w) => (match ParseFixed(s, w, big)
                      case None => None
                      case Some((u, n)) => Some((Num(u), n)))
    case VInt(b) => (match DecodeVarint(s, 0, b)
                     case None => None
                     case Some((u, n)) => DecodeBounds(s, 0, b); Some((Num(DecodeZigzag(Wrap(u, b), b)), n)))
    case VUint(b) => (match DecodeVarint(s, 0, b)
                      case None => None
                      case Some((u, n)) => DecodeBounds(s, 0, b); Some((Num(Wrap(u, b)), n)))
    case Str(p) => (match ParseLength(p, s, big)
                    case None => None
                    case Some((len, n)) =>
                      if n + len > |s| then None else Some((Text(s[n..n + len]), n + len)))
  }

  /** The string is short enough for its length to fit the prefix. */
  ghost predicate Fits(r: Record)
  {
    r.kind.Str? && r.value.Text? ==> |r.value.s| < Pow2(PrefixBits(r.kind.prefix))
  }

  lemma ParseWire(u: nat, w: nat, rest: seq<byte>, big: bool)
    requires u < Pow2(8 * w)
    ensures ParseFixed(Wire(u, w, big) + rest, w, big) == Some((u, w))
  {
    WireRoundTrip(u, w, big);
    assert (Wire(u, w, big) + rest)[..w] == Wire(u, w, big);
  }

  lemma ParsePrefix(p: Prefix, len: nat, rest: seq<byte>, big: bool)
    ensures ParseLength(p, LengthPrefix(p, len, big) + rest, big)
         == Some((Wrap(len, PrefixBits(p)), |LengthPrefix(p, len, big)|))
  {
    hide Pow2;
    var n := Wrap(len, PrefixBits(p));
    if p == Vint {
      VarintRoundTrip(n, rest, 64);
    } else {
      ParseWire(n, PrefixBits(p) / 8, rest, big);
    }
  }

  lemma SerializeNonEmpty(r: Record, big: bool)
    requires WellTyped(r)
    ensures |Serialize(r, big)| >= 1
  {
  }

  lemma ParseNumber(r: Record, rest: seq<byte>, big: bool)
    requires WellTyped(r) && r.value.Num?
    ensures Parse(r.kind, Serialize(r, big) + rest, big) == Some((r.value, |Serialize(r, big)|))
  {
    hide Pow2, Wrap, EncodeVarint, DecodeVarint, EncodeZigzag, DecodeZigzag, Signed, InRange, Wire, ParseFixed;
    match r.kind
    case FInt(w) =>
      SignedWrap(r.value.n, 8 * w);
      ParseWire(Wrap(r.value.n, 8 * w), w, rest, big);
    case FUint(w) =>
      ParseWire(r.value.n, w, rest, big);
    case VInt(b) =>
      ZigzagDecodesEncoded(r.value.n, b);
      VarintRoundTrip(EncodeZigzag(r.value.n, b), rest, b);
      WrapSmall(EncodeZigzag(r.value.n, b), b);
    case VUint(b) =>
      VarintRoundTrip(r.value.n, rest, b);
      WrapSmall(r.value.n, b);
  }

  lemma ParseText(p: Prefix, s: seq<byte>, rest: seq<byte>, big: bool)
    ensures var prefix := LengthPrefix(p, |s|, big);
      Parse(Str(p), prefix + (s + rest), big) == Some((Text(s), |prefix| + |s|)) <==> |s| < Pow2(PrefixBits(p))
  {
    hide Wrap, LengthPrefix, ParseLength, Pow2, PrefixBits;
    var prefix := LengthPrefix(p, |s|, big);
    var all := prefix + (s + rest);
    ParsePrefix(p, |s|, s + rest, big);
    if |s| < Pow2(PrefixBits(p)) {
      WrapSmall(|s|, PrefixBits(p));
      assert all[|prefix|..|prefix| + |s|] == s;
    }
  }

  /** Reading a record back from in front of anything gives it again, and takes exactly its bytes,
      iff its length fits its prefix. */
  lemma RecordRoundTrip(r: Record, rest: seq<byte>, big: bool)
    requires WellTyped(r)
    ensures Parse(r.kind, Serialize(r, big) + rest, big) == Some((r.value, |Serialize(r, big)|)) <==> Fits(r)
  {
    if r.value.Num? {
      ParseNumber(r, rest, big);
    } else {
      hide LengthPrefix, Parse, Pow2;
      var p, s := r.kind.prefix, r.value.s;
      assert Serialize(r, big) + rest == LengthPrefix(p, |s|, big) + (s + rest);
      ParseText(p, s, rest, big);
    }
  }

  /** For a string that is below 2^16, 2^32 or 2^64 bytes, by the kind of its length. */
  lemma StringReadsBack(p: Prefix, s: seq<byte>, rest: seq<byte>, big: bool)
    ensures var bytes := Serialize(Record(Str(p), Text(s)), big);
      Parse(Str(p), bytes + rest, big) == Some((Text(s), |bytes|)) <==>
      |s| < match p case F16 => 0x1_0000 case F32 => 0x1_0000_0000 case _ => 0x1_0000_0000_0000_0000
  {
    RecordRoundTrip(Record(Str(p), Text(s)), rest, big);
    Pow2Is256(PrefixBits(p) / 8);
    Pow256Widths();
    hide Parse, Serialize, Pow2, Pow256;
  }

  /** The failing family, at its smallest: 65536 bytes under a 16-bit length come back as none. */
  lemma LongStringComesBackEmpty(s: seq<byte>, big: bool)
    requires |s| == 0x1_0000
    ensures Parse(Str(F16), Serialize(Record(Str(F16), Text(s)), big), big) == Some((Text([]), 2))
  {
    var r := Record(Str(F16), Text(s));
    Pow2Is256(2);
    Pow256Widths();
    assert Wrap(|s|, 16) == 0;
    ParsePrefix(F16, |s|, s, big);
    var prefix := LengthPrefix(F16, |s|, big);
    assert |prefix| == 2;
    hide Wrap, LengthPrefix, ParseLength, Pow2;
    assert Serialize(r, big) == prefix + s;
    assert (prefix + s)[2..2] == [];
  }

  // ---- lists of records ------------------------------------------------------------------------

  ghost predicate AllTyped(rs: seq<Record>)
  {
    forall r :: r in rs ==> WellTyped(r)
  }

  function SerializeAll(rs: seq<Record>, big: bool): seq<byte>
    requires AllTyped(rs)
  {
    if rs == [] then [] else SerializeAll(rs[..|rs| - 1], big) + Serialize(rs[|rs| - 1], big)
  }

  lemma Assoc(a: seq<byte>, b: seq<byte>, c: seq<byte>, d: seq<byte>)
    ensures (a + (b + c)) + d == a + (b + (c + d))
  {
  }

  lemma {:induction false} SerializeSplit(rs: seq<Record>, j: nat, big: bool) returns (rest: seq<byte>)
    requires AllTyped(rs) && j < |rs|
    ensures SerializeAll(rs, big) == SerializeAll(rs[..j], big) + (Serialize(rs[j], big) + rest)
    ensures SerializeAll(rs[..j + 1], big) == SerializeAll(rs[..j], big) + Serialize(rs[j], big)
    ensures rest == [] <==> j == |rs| - 1
    decreases |rs|
  {
    hide Serialize, WellTyped;
    assert rs[..j + 1][..j] == rs[..j];
    var front, last := rs[..|rs| - 1], rs[|rs| - 1];
    if j == |rs| - 1 {
      rest := [];
      assert rs[..j + 1] == rs;
    } else {
      var r := SerializeSplit(front, j, big);
      rest := r + Serialize(last, big);
      assert front[..j] == rs[..j] && front[..j + 1] == rs[..j + 1];
      SerializeNonEmpty(last, big);
      Assoc(SerializeAll(rs[..j], big), Serialize(rs[j], big), r, Serialize(last, big));
    }
  }
}
