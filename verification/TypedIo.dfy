/** The typed write and read functions of a byte array, and whole lists of records through it. */
module TypedIo {
  import opened Bytes
  import opened Common
  import opened ByteArrays
  import opened Varints
  import opened Records

  /** No block more than the contents need, beyond the first. */
  ghost predicate Tight(ba: ByteArray)
    reads ba
  {
    ba.capacity == ba.baseSize || ba.capacity < ba.size + ba.baseSize
  }

  // ---- writing -------------------------------------------------------------------------------

  /** writeFint8 to writeFuint64: u is the value as an unsigned number of w bytes. */
  method WriteFixed(ba: ByteArray, u: nat, w: nat, hostBig: bool)
    requires ba.Valid()
    modifies ba.Repr
    ensures ba.Valid() && fresh(ba.Repr - old(ba.Repr)) && old(ba.Repr) <= ba.Repr
    ensures ba.position == old(ba.position) + w && ba.bigEndian == old(ba.bigEndian)
    ensures ba.Contents() == Overwrite(old(ba.Contents()), old(ba.position), Wire(u, w, ba.bigEndian))
    ensures old(Tight(ba)) ==> Tight(ba)
  {
    hide ByteSwap, Wire, Overwrite;
    WireIgnoresHost(u, w, ba.bigEndian, hostBig);
    GrownFits(ba.capacity, ba.position, w, ba.baseSize);
    hide Grown;
    ba.Write(WriteImage(u, w, ba.bigEndian, hostBig));
  }

  /** writeUint32 and writeUint64. */
  method WriteVarint(ba: ByteArray, v: nat, bits: nat)
    requires ba.Valid() && IsVarWidth(bits) && v < Pow2(bits)
    modifies ba.Repr
    ensures ba.Valid() && fresh(ba.Repr - old(ba.Repr)) && old(ba.Repr) <= ba.Repr
    ensures ba.position == old(ba.position) + |EncodeVarint(v)| && ba.bigEndian == old(ba.bigEndian)
    ensures ba.Contents() == Overwrite(old(ba.Contents()), old(ba.position), EncodeVarint(v))
    ensures old(Tight(ba)) ==> Tight(ba)
  {
    hide EncodeVarint, Pow2, Overwrite;
    var tmp := EncodeLoop(v, bits);
    GrownFits(ba.capacity, ba.position, |tmp|, ba.baseSize);
    hide Grown;
    ba.Write(tmp);
  }

  method WritePrefix(ba: ByteArray, p: Prefix, len: nat, hostBig: bool)
    requires ba.Valid()
    modifies ba.Repr
    ensures ba.Valid() && fresh(ba.Repr - old(ba.Repr)) && old(ba.Repr) <= ba.Repr
    ensures ba.position == old(ba.position) + |LengthPrefix(p, len, ba.bigEndian)| && ba.bigEndian == old(ba.bigEndian)
    ensures ba.Contents() == Overwrite(old(ba.Contents()), old(ba.position), LengthPrefix(p, len, ba.bigEndian))
    ensures old(Tight(ba)) ==> Tight(ba)
  {
    hide Overwrite, EncodeVarint, Wire;
    var n := Wrap(len, PrefixBits(p));
    if p == Vint {
      WriteVarint(ba, n, 64);
    } else {
      WriteFixed(ba, n, PrefixBits(p) / 8, hostBig);
    }
  }

  lemma OverwriteParts(c: seq<byte>, at: nat, a: seq<byte>, b: seq<byte>)
    requires at <= |c|
    ensures var r := Overwrite(c, at, a + b);
      at + |a| + |b| <= |r| && r[at..at + |a|] == a && r[at + |a|..at + |a| + |b|] == b
  {
  }

  /** From at on, up to end, c holds the length of s in two, four or eight bytes in the given order, or as a
      varint, and then s. */
  ghost predicate StringAt(p: Prefix, s: seq<byte>, big: bool, c: seq<byte>, at: nat, end: int)
  {
    var varint := EncodeVarint(|s| % 0x1_0000_0000_0000_0000);
    var k := match p case F16 => 2 case F32 => 4 case F64 => 8 case Vint => |varint|;
    && end == at + k + |s| <= |c| && c[at + k..end] == s
    && (if p == Vint then c[at..at + k] == varint else HoldsNumber(c[at..at + k], |s|, big))
  }

  lemma StringLaid(p: Prefix, s: seq<byte>, big: bool, c: seq<byte>, at: nat)
    requires at <= |c|
    ensures var pre := LengthPrefix(p, |s|, big);
      StringAt(p, s, big, Overwrite(c, at, pre + s), at, at + |pre| + |s|)
  {
    PrefixIsWire(p, |s|, big);
    if p != Vint { PrefixBytes(p, |s|, big); }
    OverwriteParts(c, at, LengthPrefix(p, |s|, big), s);
    hide Overwrite, LengthPrefix, HoldsNumber, EncodeVarint, Wire;
  }

  /** writeStringF16, F32, F64 and Vint: the length, then the bytes. */
  method WriteString(ba: ByteArray, p: Prefix, s: seq<byte>, hostBig: bool)
    requires ba.Valid()
    modifies ba.Repr
    ensures ba.Valid() && fresh(ba.Repr - old(ba.Repr)) && old(ba.Repr) <= ba.Repr
    ensures ba.position == old(ba.position) + |LengthPrefix(p, |s|, ba.bigEndian)| + |s|
    ensures ba.bigEndian == old(ba.bigEndian)
    ensures ba.Contents() == Overwrite(old(ba.Contents()), old(ba.position), LengthPrefix(p, |s|, ba.bigEndian) + s)
    ensures StringAt(p, s, ba.bigEndian, ba.Contents(), old(ba.position), ba.position)
    ensures old(Tight(ba)) ==> Tight(ba)
  {
    hide StringAt, Overwrite, LengthPrefix;
    StringLaid(p, s, ba.bigEndian, ba.Contents(), ba.position);
    OverwriteTwice(ba.Contents(), ba.position, LengthPrefix(p, |s|, ba.bigEndian), s);
    WritePrefix(ba, p, |s|, hostBig);
    GrownFits(ba.capacity, ba.position, |s|, ba.baseSize);
    hide Grown;
    ba.Write(s);
  }

  lemma OverwriteTwice(c: seq<byte>, p: nat, a: seq<byte>, b: seq<byte>)
    requires p <= |c|
    ensures Overwrite(Overwrite(c, p, a), p + |a|, b) == Overwrite(c, p, a + b)
  {
  }

  method WriteRecord(ba: ByteArray, r: Record, hostBig: bool)
    requires ba.Valid() && WellTyped(r)
    modifies ba.Repr
    ensures ba.Valid() && fresh(ba.Repr - old(ba.Repr)) && old(ba.Repr) <= ba.Repr
    ensures ba.position == old(ba.position) + |Serialize(r, ba.bigEndian)| && ba.bigEndian == old(ba.bigEndian)
    ensures ba.Contents() == Overwrite(old(ba.Contents()), old(ba.position), Serialize(r, ba.bigEndian))
    ensures old(Tight(ba)) ==> Tight(ba)
  {
    hide Overwrite, EncodeVarint, Wire, EncodeZigzag, Wrap, Pow2, LengthPrefix;
    match r.kind {
      case FInt(w) =>
        WriteFixed(ba, Wrap(r.value.n, 8 * w), w, hostBig);
      case FUint(w) =>
        WriteFixed(ba, r.value.n, w, hostBig);
      case VInt(b) =>
        ZigzagDecodesEncoded(r.value.n, b);
        WriteVarint(ba, EncodeZigzag(r.value.n, b), b);
      case VUint(b) =>
        WriteVarint(ba, r.value.n, b);
      case Str(p) =>
        WriteString(ba, p, r.value.s, hostBig);
    }
  }

  // ---- reading -------------------------------------------------------------------------------

  /** readFint8 to readFuint64, as an unsigned number of w bytes. */
  method ReadFixed(ba: ByteArray, w: nat, hostBig: bool) returns (outcome: Outcome, u: nat)
    requires ba.Valid() && w > 0
    modifies ba`position, ba`cur, ba`curIdx
    ensures ba.Valid()
    ensures outcome != NullDereference
    ensures outcome == Done <==> ParseFixed(old(ba.Contents())[old(ba.position)..], w, ba.bigEndian).Some?
    ensures outcome == Done ==> ba.position == old(ba.position) + w
    ensures outcome == Done ==> ParseFixed(old(ba.Contents())[old(ba.position)..], w, ba.bigEndian) == Some((u, w))
  {
    hide FromWire, ByteSwap;
    u := 0;
    var buf;
    ghost var p, c := ba.position, ba.Contents();
    outcome, buf := ba.Read(w);
    if outcome == Done {
      assert buf == c[p..][..w];
      ReadIgnoresHost(buf, ba.bigEndian, hostBig);
      u := ReadImage(buf, ba.bigEndian, hostBig);
    }
  }

  method ReadFuint8(ba: ByteArray) returns (outcome: Outcome, b: byte)
    requires ba.Valid()
    modifies ba`position, ba`cur, ba`curIdx
    ensures ba.Valid()
    ensures outcome == if old(ba.position) < ba.size then Done else OutOfRange
    ensures outcome == Done ==> ba.position == old(ba.position) + 1 && b == ba.Contents()[old(ba.position)]
  {
    var buf;
    outcome, buf := ba.Read(1);
    b := if outcome == Done then buf[0] else 0;
  }

  /** readUint32 and readUint64: byte by byte until the top bit is clear or the width is used up.
      Each byte's bits lie above those already there, so adding is the source's "or". */
  method ReadVarint(ba: ByteArray, bits: nat) returns (outcome: Outcome, result: nat)
    requires ba.Valid() && IsVarWidth(bits)
    modifies ba`position, ba`cur, ba`curIdx
    ensures ba.Valid()
    ensures outcome != NullDereference
    ensures var d := DecodeVarint(old(ba.Contents())[old(ba.position)..], 0, bits);
      && (outcome == Done <==> d.Some?)
      && (outcome == Done ==> result == d.value.0 && ba.position == old(ba.position) + d.value.1)
  {
    hide Pow2, Wrap, DecodeVarint, Resumes;
    ghost var c, p := ba.Contents(), ba.position;
    ResumesFromStart(c, p, bits);
    result := 0;
    var i := 0;
    while i < bits
      invariant ba.Valid() && ba.Contents() == c && 0 <= i && p <= ba.position
      invariant Resumes(c, p, ba.position, i, bits, result)
      decreases bits - i
    {
      ResumesStep(c, p, ba.position, i, bits, result);
      var o, b := ReadFuint8(ba);
      if o != Done {
        return OutOfRange, 0;
      }
      if b < 0x80 {
        result := result + Wrap(b * Pow2(i), bits);
        return Done, result;
      }
      result := result + Wrap(b % 0x80 * Pow2(i), bits);
      i := i + 7;
    }
    ResumesAtWidth(c, p, ba.position, i, bits, result);
    outcome := Done;
  }

  lemma ResumesFromStart(c: seq<byte>, p: nat, bits: nat)
    requires p <= |c|
    ensures Resumes(c, p, p, 0, bits, 0)
  {
  }

  lemma ResumesAtWidth(c: seq<byte>, p: nat, q: nat, shift: nat, bits: nat, acc: nat)
    requires p <= q <= |c| && shift >= bits && Resumes(c, p, q, shift, bits, acc)
    ensures DecodeVarint(c[p..], 0, bits) == Some((acc, q - p))
  {
  }

  lemma ResumesStep(c: seq<byte>, p: nat, q: nat, shift: nat, bits: nat, acc: nat)
    requires p <= q <= |c| && shift < bits && Resumes(c, p, q, shift, bits, acc)
    ensures q == |c| ==> DecodeVarint(c[p..], 0, bits) == None
    ensures q < |c| && c[q] < 0x80 ==>
      DecodeVarint(c[p..], 0, bits) == Some((acc + Wrap(c[q] * Pow2(shift), bits), q - p + 1))
    ensures q < |c| && c[q] >= 0x80 ==>
      Resumes(c, p, q + 1, shift + 7, bits, acc + Wrap(c[q] % 0x80 * Pow2(shift), bits))
  {
    hide Pow2, Wrap;
    if q < |c| {
      assert c[q..][0] == c[q] && c[q..][1..] == c[q + 1..];
    }
  }

  /** Decoding from p on amounts to what has been accumulated by q plus decoding from q on. */
  ghost predicate Resumes(c: seq<byte>, p: nat, q: nat, shift: nat, bits: nat, acc: nat)
    requires p <= q <= |c|
  {
    DecodeVarint(c[p..], 0, bits) ==
    match DecodeVarint(c[q..], shift, bits)
    case None => None
    case Some((v, n)) => Some((acc + v, q - p + n))
  }

  method ReadPrefix(ba: ByteArray, p: Prefix, hostBig: bool) returns (outcome: Outcome, len: nat)
    requires ba.Valid()
    modifies ba`position, ba`cur, ba`curIdx
    ensures ba.Valid() && outcome != NullDereference
    ensures var l := ParseLength(p, old(ba.Contents())[old(ba.position)..], ba.bigEndian);
      && (outcome == Done <==> l.Some?)
      && (outcome == Done ==> len == l.value.0 && ba.position == old(ba.position) + l.value.1)
  {
    hide Pow2, Wrap, DecodeVarint, FromWire;
    if p == Vint {
      outcome, len := ReadVarint(ba, 64);
    } else {
      outcome, len := ReadFixed(ba, PrefixBits(p) / 8, hostBig);
    }
  }

  /** readStringF16, F32, F64 and Vint. Reading nothing right at the capacity is the bad case. */
  method ReadString(ba: ByteArray, p: Prefix, hostBig: bool) returns (outcome: Outcome, s: seq<byte>)
    requires ba.Valid()
    modifies ba`position, ba`cur, ba`curIdx
    ensures ba.Valid()
    ensures var d := Parse(Str(p), old(ba.Contents())[old(ba.position)..], ba.bigEndian);
      && (outcome == OutOfRange <==> d.None?)
      && (outcome == NullDereference <==> d.Some? && d.value.0.s == [] && old(ba.position) + d.value.1 == ba.capacity)
      && (outcome == Done ==> s == d.value.0.s && ba.position == old(ba.position) + d.value.1)
  {
    hide ParseLength, Parse;
    ParseStringAt(p, ba.Contents(), ba.position, ba.bigEndian);
    s := [];
    var len;
    outcome, len := ReadPrefix(ba, p, hostBig);
    if outcome == Done {
      outcome, s := ba.Read(len);
    }
  }

  lemma ParseStringAt(p: Prefix, c: seq<byte>, at: nat, big: bool)
    requires at <= |c|
    ensures var l := ParseLength(p, c[at..], big);
      Parse(Str(p), c[at..], big) ==
      if l.None? || at + l.value.1 + l.value.0 > |c| then None
      else var q := at + l.value.1;
        Some((Text(c[q..q + l.value.0]), l.value.1 + l.value.0))
  {
    hide ParseLength;
    var l := ParseLength(p, c[at..], big);
    if l.Some? && at + l.value.1 + l.value.0 <= |c| {
      var q := at + l.value.1;
      SliceOfTail(c, at, l.value.1, l.value.0);
    }
  }

  lemma SliceOfTail(c: seq<byte>, at: nat, i: nat, n: nat)
    requires at + i + n <= |c|
    ensures c[at..][i..i + n] == c[at + i..at + i + n]
  {
  }

  method ReadRecord(ba: ByteArray, k: Kind, hostBig: bool) returns (outcome: Outcome, v: Value)
    requires ba.Valid() && KindOk(k)
    modifies ba`position, ba`cur, ba`curIdx
    ensures ba.Valid()
    ensures var d := Parse(k, old(ba.Contents())[old(ba.position)..], ba.bigEndian);
      && (outcome == OutOfRange <==> d.None?)
      && (outcome == NullDereference <==>
            d.Some? && d.value.0 == Text([]) && old(ba.position) + d.value.1 == ba.capacity)
      && (outcome == Done ==> v == d.value.0 && ba.position == old(ba.position) + d.value.1)
  {
    hide Pow2, Wrap, DecodeVarint, FromWire, ParseFixed, DecodeZigzag, Signed, ParseLength;
    var u;
    v := Num(0);
    match k {
      case FInt(w) =>
        outcome, u := ReadFixed(ba, w, hostBig);
        v := Num(Signed(u, 8 * w));
      case FUint(w) =>
        outcome, u := ReadFixed(ba, w, hostBig);
        v := Num(u);
      case VInt(b) =>
        outcome, u := ReadVarint(ba, b);
        v := Num(DecodeZigzag(Wrap(u, b), b));
      case VUint(b) =>
        outcome, u := ReadVarint(ba, b);
        v := Num(Wrap(u, b));
      case Str(p) =>
        var s;
        outcome, s := ReadString(ba, p, hostBig);
        v := Text(s);
    }
  }

  // ---- whole lists ------------------------------------------------------------------------------

  method WriteAll(ba: ByteArray, rs: seq<Record>, hostBig: bool)
    requires ba.Valid() && AllTyped(rs)
    requires ba.position == 0 == ba.size
    modifies ba.Repr
    ensures ba.Valid() && fresh(ba.Repr - old(ba.Repr)) && ba.bigEndian == old(ba.bigEndian)
    ensures ba.Contents() == SerializeAll(rs, ba.bigEndian) && ba.position == ba.size
    ensures old(Tight(ba)) ==> Tight(ba)
  {
    hide Serialize, Overwrite;
    var j := 0;
    while j < |rs|
      invariant 0 <= j <= |rs|
      invariant ba.Valid() && fresh(ba.Repr - old(ba.Repr)) && ba.bigEndian == old(ba.bigEndian)
      invariant ba.Contents() == SerializeAll(rs[..j], ba.bigEndian) && ba.position == ba.size
      invariant old(Tight(ba)) ==> Tight(ba)
    {
      ghost var rest := SerializeSplit(rs, j, ba.bigEndian);
      OverwriteAtEnd(ba.Contents(), Serialize(rs[j], ba.bigEndian));
      WriteRecord(ba, rs[j], hostBig);
      j := j + 1;
    }
    assert rs[..|rs|] == rs;
  }

  lemma OverwriteAtEnd(c: seq<byte>, a: seq<byte>)
    ensures Overwrite(c, |c|, a) == c + a
  {
  }

  /** The list ends in an empty string whose prefix ends right at the capacity. */
  ghost predicate EndsAtCapacity(rs: seq<Record>, ba: ByteArray)
    requires ba.Valid()
    reads ba, ba.Repr
  {
    rs != [] && rs[|rs| - 1].value == Text([]) && ba.size == ba.capacity
  }

  /** Reads the kinds of rs back from the start. */
  method ReadAll(ba: ByteArray, rs: seq<Record>, hostBig: bool) returns (outcome: Outcome, values: seq<Value>)
    requires ba.Valid() && AllTyped(rs) && (forall r :: r in rs ==> Fits(r))
    requires ba.position == 0 && ba.Contents() == SerializeAll(rs, ba.bigEndian)
    modifies ba`position, ba`cur, ba`curIdx
    ensures ba.Valid()
    ensures outcome == NullDereference <==> EndsAtCapacity(rs, ba)
    ensures outcome != NullDereference ==> outcome == Done && ba.position == ba.size
    ensures outcome == Done ==> |values| == |rs| && forall j :: 0 <= j < |rs| ==> values[j] == rs[j].value
  {
    hide Serialize, SerializeAll, Parse, WellTyped, Fits;
    values := [];
    var j := 0;
    ghost var all := ba.Contents();
    SerializeNone(rs[..0], ba.bigEndian);
    while j < |rs|
      invariant 0 <= j <= |rs| == |rs| && |values| == j
      invariant ba.Valid() && ba.Contents() == all
      invariant ba.position == |SerializeAll(rs[..j], ba.bigEndian)|
      invariant forall i :: 0 <= i < j ==> values[i] == rs[i].value
      invariant j == |rs| ==> !EndsAtCapacity(rs, ba)
    {
      var v;
      outcome, v := ReadNth(ba, rs, j, hostBig);
      if outcome != Done {
        return;
      }
      values := values + [v];
      j := j + 1;
    }
    assert rs[..|rs|] == rs;
    outcome := Done;
  }

  lemma SerializeNone(rs: seq<Record>, big: bool)
    requires rs == []
    ensures SerializeAll(rs, big) == []
  {
  }

  method ReadNth(ba: ByteArray, rs: seq<Record>, j: nat, hostBig: bool) returns (outcome: Outcome, v: Value)
    requires ba.Valid() && AllTyped(rs) && j < |rs| && Fits(rs[j])
    requires ba.Contents() == SerializeAll(rs, ba.bigEndian)
    requires ba.position == |SerializeAll(rs[..j], ba.bigEndian)|
    modifies ba`position, ba`cur, ba`curIdx
    ensures ba.Valid()
    ensures outcome == NullDereference <==> j == |rs| - 1 && EndsAtCapacity(rs, ba)
    ensures outcome != NullDereference ==> outcome == Done && v == rs[j].value
    ensures outcome == Done ==> ba.position == |SerializeAll(rs[..j + 1], ba.bigEndian)|
  {
    hide Serialize, SerializeAll, Parse, WellTyped, Fits, KindOk;
    ghost var big := ba.bigEndian;
    ghost var rest := SerializeSplit(rs, j, big);
    ghost var mine := Serialize(rs[j], big) + rest;
    assert ba.Contents()[ba.position..] == mine;
    RecordRoundTrip(rs[j], rest, big);
    assert KindOk(rs[j].kind) by {
      KindOfTyped(rs[j]);
    }
    outcome, v := ReadRecord(ba, rs[j].kind, hostBig);
  }

  lemma KindOfTyped(r: Record)
    requires WellTyped(r)
    ensures KindOk(r.kind)
  {
  }

  /** In an array that started with one block, the contents fill the chain iff their length is a
      positive multiple of the block size. */
  lemma FullIffMultiple(ba: ByteArray)
    requires ba.Valid() && Tight(ba)
    ensures ba.size == ba.capacity <==> ba.size > 0 && ba.size % ba.baseSize == 0
  {
    var n, b := |ba.nodes|, ba.baseSize;
    OffIsProduct(n, b);
    OffMono(0, n, b);
    QuotientOff(ba.size, n, b);
    var q := ba.size / b;
    OffIsProduct(q, b);
    QuotientRemainder(ba.size, b);
    DivModUnique(n * b, b, n, 0);
    if q < n {
      OffMono(q, n, b);
    }
  }

  /** The same for a new array: the round trip fails iff the list ends in an empty string and its
      bytes fill whole blocks. */
  method RoundTripNew(baseSize: nat, bigEndian: bool, rs: seq<Record>, writeHostBig: bool, readHostBig: bool)
    returns (outcome: Outcome, values: seq<Value>)
    requires baseSize > 0 && AllTyped(rs) && (forall r :: r in rs ==> Fits(r))
    ensures outcome == NullDereference <==>
      rs != [] && rs[|rs| - 1].value == Text([]) && |SerializeAll(rs, bigEndian)| % baseSize == 0
    ensures outcome != NullDereference ==>
      outcome == Done && |values| == |rs| && forall j :: 0 <= j < |rs| ==> values[j] == rs[j].value
  {
    hide WellTyped, Fits;
    var ba := new ByteArray(baseSize);
    ba.bigEndian := bigEndian;
    outcome, values := RoundTrip(ba, rs, writeHostBig, readHostBig);
    FullIffMultiple(ba);
    if rs != [] {
      SerializeNonEmpty(rs[|rs| - 1], bigEndian);
    }
  }

  /** Writing a list into an empty array, rewinding and reading it back gives it again, for every
      block size, either byte order and either kind of machine, iff the walk does not end in an
      empty string right at the capacity. The bytes in between depend on none but the byte order. */
  method RoundTrip(ba: ByteArray, rs: seq<Record>, writeHostBig: bool, readHostBig: bool)
    returns (outcome: Outcome, values: seq<Value>)
    requires ba.Valid() && AllTyped(rs) && (forall r :: r in rs ==> Fits(r))
    requires ba.position == 0 == ba.size
    modifies ba.Repr
    ensures ba.Valid() && fresh(ba.Repr - old(ba.Repr))
    ensures ba.Contents() == SerializeAll(rs, old(ba.bigEndian))
    ensures old(Tight(ba)) ==> Tight(ba)
    ensures outcome == NullDereference <==> EndsAtCapacity(rs, ba)
    ensures !EndsAtCapacity(rs, ba) ==>
      && outcome == Done && ba.position == ba.size
      && |values| == |rs| && forall j :: 0 <= j < |rs| ==> values[j] == rs[j].value
  {
    hide SerializeAll, WellTyped, Fits;
    WriteAll(ba, rs, writeHostBig);
    var o := ba.SetPosition(0);
    outcome, values := ReadAll(ba, rs, readHostBig);
  }
}
