/** Bytes, flat byte memory, and the little- and big-endian images of unsigned numbers. */
module Bytes {
  type byte = x: nat | x < 256

  /** Two to the power n. */
  function Pow2(n: nat): (p: nat)
    ensures p >= 1
  {
    if n == 0 then 1 else 2 * Pow2(n - 1)
  }

  lemma {:induction false} Pow2Add(m: nat, n: nat)
    ensures Pow2(m + n) == Pow2(m) * Pow2(n)
  {
    if m == 0 {
    } else {
      Pow2Add(m - 1, n);
      assert Pow2(m + n) == 2 * Pow2(m - 1 + n);
    }
  }

  lemma {:induction false} Pow2Mono(m: nat, n: nat)
    requires m <= n
    ensures Pow2(m) <= Pow2(n)
    decreases n
  {
    if m < n {
      Pow2Mono(m, n - 1);
    }
  }

  /** Two to the power 8 * n: the number of values n bytes can hold. */
  function Pow256(n: nat): (p: nat)
    ensures p >= 1
  {
    if n == 0 then 1 else 256 * Pow256(n - 1)
  }

  lemma Pow256Widths()
    ensures Pow256(1) == 0x100 && Pow256(2) == 0x1_0000
    ensures Pow256(4) == 0x1_0000_0000 && Pow256(8) == 0x1_0000_0000_0000_0000
  {
    assert Pow256(2) == 256 * Pow256(1);
    assert Pow256(3) == 256 * Pow256(2);
    assert Pow256(4) == 256 * Pow256(3);
    assert Pow256(5) == 256 * Pow256(4);
    assert Pow256(6) == 256 * Pow256(5);
    assert Pow256(7) == 256 * Pow256(6);
    assert Pow256(8) == 256 * Pow256(7);
  }

  // ---- endian images -------------------------------------------------------------------

  /** The w low-order bytes of v, least significant first. */
  function LittleEndian(v: nat, w: nat): (s: seq<byte>)
    ensures |s| == w
  {
    if w == 0 then [] else [v % 256] + LittleEndian(v / 256, w - 1)
  }

  function FromLittleEndian(s: seq<byte>): nat
  {
    if s == [] then 0 else s[0] + 256 * FromLittleEndian(s[1..])
  }

  function Reverse(s: seq<byte>): (r: seq<byte>)
    ensures |r| == |s|
    ensures forall i :: 0 <= i < |s| ==> r[i] == s[|s| - 1 - i]
  {
    if s == [] then [] else Reverse(s[1..]) + [s[0]]
  }

  lemma ReverseInvolutive(s: seq<byte>)
    ensures Reverse(Reverse(s)) == s
  {
    assert forall i :: 0 <= i < |s| ==> Reverse(Reverse(s))[i] == s[i];
  }

  lemma {:induction false} FromToLittleEndian(v: nat, w: nat)
    requires v < Pow256(w)
    ensures FromLittleEndian(LittleEndian(v, w)) == v
  {
    if w > 0 {
      assert v / 256 < Pow256(w - 1);
      FromToLittleEndian(v / 256, w - 1);
      assert LittleEndian(v, w)[1..] == LittleEndian(v / 256, w - 1);
    }
  }

  lemma LowByte(low: nat, r: nat)
    requires low < 256
    ensures (low + 256 * r) % 256 == low && (low + 256 * r) / 256 == r
  {
  }

  lemma {:induction false} ToFromLittleEndian(s: seq<byte>)
    ensures FromLittleEndian(s) < Pow256(|s|)
    ensures LittleEndian(FromLittleEndian(s), |s|) == s
  {
    if s != [] {
      var r := FromLittleEndian(s[1..]);
      ToFromLittleEndian(s[1..]);
      LowByte(s[0], r);
      assert s == [s[0]] + s[1..];
    }
  }

  // ---- flat memory ---------------------------------------------------------------------

  /** Memory m with chunk laid over it at position p. */
  function Patch(m: seq<byte>, p: nat, chunk: seq<byte>): (r: seq<byte>)
    requires p + |chunk| <= |m|
    ensures |r| == |m|
  {
    m[..p] + chunk + m[p + |chunk|..]
  }

  /** Patching one more stretch of buf behind the first k bytes of it. */
  lemma PatchStep(m0: seq<byte>, p0: nat, buf: seq<byte>, k: nat, n: nat)
    requires k + n <= |buf| && p0 + |buf| <= |m0|
    ensures Patch(Patch(m0, p0, buf[..k]), p0 + k, buf[k..k + n]) == Patch(m0, p0, buf[..k + n])
  {
    assert buf[..k] + buf[k..k + n] == buf[..k + n];
  }

  lemma PatchEnds(m0: seq<byte>, p0: nat, buf: seq<byte>)
    requires p0 + |buf| <= |m0|
    ensures Patch(m0, p0, buf[..0]) == m0
    ensures Patch(m0, p0, buf[..|buf|]) == Patch(m0, p0, buf)
  {
    assert buf[..|buf|] == buf;
  }

  // ---- a chain of equal blocks laid end to end --------------------------------------------

  /** Offset of block i when every block holds b bytes. */
  ghost function Off(i: nat, b: nat): nat
  {
    if i == 0 then 0 else Off(i - 1, b) + b
  }

  lemma {:induction false} OffMono(i: nat, j: nat, b: nat)
    requires i < j
    ensures Off(i, b) + b <= Off(j, b)
    decreases j
  {
    if i < j - 1 {
      OffMono(i, j - 1, b);
    }
  }

  lemma {:induction false} OffIsProduct(i: nat, b: nat)
    ensures Off(i, b) == i * b
  {
    if i > 0 {
      OffIsProduct(i - 1, b);
      assert i * b == (i - 1) * b + b;
    }
  }

  /** Position p lies in block p / b, at offset p % b. */
  lemma BlockOf(p: nat, i: nat, b: nat)
    requires b > 0 && Off(i, b) <= p < Off(i, b) + b
    ensures p / b == i && p % b == p - Off(i, b)
  {
    OffIsProduct(i, b);
    var r := p - i * b;
    assert p == i * b + r;
    DivModUnique(p, b, i, r);
  }

  lemma DivModUnique(p: nat, b: nat, q: nat, r: nat)
    requires b > 0 && r < b && p == q * b + r
    ensures p / b == q && p % b == r
  {
    var d := p / b - q;
    assert d * b == r - p % b;
    if d >= 1 {
      MulAtLeast(d, b);
    } else if d <= -1 {
      MulAtLeast(-d, b);
    }
  }

  lemma MulAtLeast(d: int, b: int)
    requires d >= 1 && b >= 0
    ensures d * b >= b
    ensures (-d) * b <= -b
  {
  }

  lemma QuotientRemainder(p: nat, b: nat)
    requires b > 0
    ensures p == (p / b) * b + p % b && p % b < b
  {
  }

  /** Dividing a position by the block size gives the block it lies in, below n blocks exactly if the
      position does. */
  lemma QuotientOff(p: nat, n: nat, b: nat)
    requires b > 0
    ensures Off(p / b, b) <= p < Off(p / b, b) + b
    ensures p / b < n <==> p < Off(n, b)
  {
    var q := p / b;
    QuotientRemainder(p, b);
    OffIsProduct(q, b);
    if q < n { OffMono(q, n, b); } else if n < q { OffMono(n, q, b); }
    hide Off;
  }

  lemma SliceStep(m: seq<byte>, p: nat, q: nat, n: nat)
    requires p <= q && q + n <= |m|
    ensures m[p..q] + m[q..q + n] == m[p..q + n]
  {
  }

  /** Block i of the chain holds its own stretch of the flat memory m. */
  ghost predicate Holds(block: seq<byte>, m: seq<byte>, i: nat, b: nat)
  {
    && Off(i, b) + b <= |m|
    && block == m[Off(i, b)..Off(i, b) + b]
  }

  lemma HoldsSlice(block: seq<byte>, m: seq<byte>, i: nat, b: nat, at: nat, n: nat)
    requires Holds(block, m, i, b) && at + n <= b
    ensures |block| == b && Off(i, b) + at + n <= |m|
    ensures block[at..at + n] == m[Off(i, b) + at..Off(i, b) + at + n]
  {
    hide Off;
  }

  /** Memory grown at its end still holds the blocks it held, and the new one behind them. */
  lemma HoldsGrown(m: seq<byte>, n: nat, b: nat, last: seq<byte>)
    requires |m| == Off(n, b) && |last| == b
    ensures Holds(last, m + last, n, b) && |m + last| == Off(n + 1, b)
    ensures forall block, i :: Holds(block, m, i, b) ==> Holds(block, m + last, i, b)
  {
  }

  /** A patch inside block k rewrites that part of block k. */
  lemma PatchSameBlock(block: seq<byte>, m: seq<byte>, k: nat, b: nat, at: nat, chunk: seq<byte>)
    requires Holds(block, m, k, b) && at + |chunk| <= b
    ensures Holds(Patch(block, at, chunk), Patch(m, Off(k, b) + at, chunk), k, b)
  {
  }

  /** A patch inside block k leaves every other block alone. */
  lemma PatchOtherBlock(block: seq<byte>, m: seq<byte>, i: nat, k: nat, b: nat, at: nat, chunk: seq<byte>)
    requires Holds(block, m, i, b) && i != k
    requires Off(k, b) + b <= |m| && at + |chunk| <= b
    ensures Holds(block, Patch(m, Off(k, b) + at, chunk), i, b)
  {
    if i < k {
      OffMono(i, k, b);
    } else {
      OffMono(k, i, b);
    }
  }
}
