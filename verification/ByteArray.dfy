/** The chain of fixed-size blocks with a cursor, and the flat seekable memory it stands for. */
module ByteArrays {
  import opened Bytes

  /** What a call did: went through, threw std::out_of_range, or followed a null block pointer. */
  datatype Outcome = Done | OutOfRange | NullDereference

  /** One element of a scatter/gather list: len bytes of a block's memory from off on. */
  datatype IoVec = IoVec(base: array<byte>, off: nat, len: nat)

  class Node {
    const ptr: array<byte>
    const size: nat
    var next: Node?

    constructor (s: nat)
      ensures ptr.Length == s && size == s && next == null && fresh(ptr)
    {
      ptr := new byte[s];
      size := s;
      next := null;
    }
  }

  /** Copies src over dst[at..]. */
  method Memcpy(dst: array<byte>, at: nat, src: seq<byte>)
    requires at + |src| <= dst.Length
    modifies dst
    ensures dst[..] == Patch(old(dst[..]), at, src)
  {
    forall k | 0 <= k < |src| {
      dst[at + k] := src[k];
    }
  }

  const TWO_64 := 0x1_0000_0000_0000_0000

  /** a - b on 64-bit unsigned sizes. */
  function UnsignedDifference(a: nat, b: nat): (d: nat)
    ensures b <= a ==> d == a - b
    ensures a < b < TWO_64 ==> d == TWO_64 - (b - a)
  {
    if b <= a then a - b else (a - b) % TWO_64
  }

  /** Blocks needed for need more bytes. */
  function BlocksFor(need: nat, b: nat): (n: nat)
    requires b > 0
  {
    need / b + (if need % b != 0 then 1 else 0)
  }

  /** Capacity after a request for len more bytes at position. */
  ghost function Grown(capacity: nat, position: nat, len: nat, b: nat): (c: nat)
    requires b > 0 && position <= capacity
  {
    if position + len <= capacity then capacity
    else capacity + Off(BlocksFor(position + len - capacity, b), b)
  }

  /** Whole blocks for need bytes: enough, not one block more, and a multiple of the block size. */
  lemma BlocksFit(need: nat, b: nat)
    requires b > 0 && need > 0
    ensures need <= Off(BlocksFor(need, b), b) < need + b
    ensures Off(BlocksFor(need, b), b) % b == 0
  {
    var q, n := need / b, BlocksFor(need, b);
    QuotientRemainder(need, b);
    OffIsProduct(q, b);
    OffIsProduct(n, b);
    DivModUnique(n * b, b, n, 0);
    assert n == q || n == q + 1;
    assert Off(q + 1, b) == Off(q, b) + b;
  }

  /** Growing adds whole blocks, enough for the request and not one block more. */
  lemma GrownFits(capacity: nat, position: nat, len: nat, b: nat)
    requires b > 0 && position <= capacity
    ensures position + len <= Grown(capacity, position, len, b)
    ensures capacity <= Grown(capacity, position, len, b)
    ensures position + len > capacity ==> Grown(capacity, position, len, b) < position + len + b
    ensures (Grown(capacity, position, len, b) - capacity) % b == 0
  {
    hide Off, BlocksFor;
    if position + len > capacity {
      BlocksFit(position + len - capacity, b);
    } else {
      DivModUnique(0, b, 0, 0);
    }
  }

  /** Off distributes over addition of block counts. */
  lemma {:induction false} OffAdd(i: nat, j: nat, b: nat)
    ensures Off(i + j, b) == Off(i, b) + Off(j, b)
  {
    if j > 0 {
      OffAdd(i, j - 1, b);
    }
  }

  /** A flat file's content after buf is written at p: overwriting what is there, extending past the end. */
  function Overwrite(s: seq<byte>, p: nat, buf: seq<byte>): (r: seq<byte>)
    requires p <= |s|
    ensures |r| == if p + |buf| > |s| then p + |buf| else |s|
    ensures r[..p] == s[..p] && r[p..p + |buf|] == buf
    ensures p + |buf| <= |s| ==> r[p + |buf|..] == s[p + |buf|..]
  {
    s[..p] + buf + (if p + |buf| < |s| then s[p + |buf|..] else [])
  }

  // ---- scatter/gather lists ----------------------------------------------------------------

  ghost predicate InBounds(iovs: seq<IoVec>)
  {
    forall v :: v in iovs ==> v.off + v.len <= v.base.Length
  }

  function Total(iovs: seq<IoVec>): nat
  {
    if iovs == [] then 0 else Total(iovs[..|iovs| - 1]) + iovs[|iovs| - 1].len
  }

  /** What writev would send: the regions' bytes one after the other. */
  ghost function Gather(iovs: seq<IoVec>): seq<byte>
    requires InBounds(iovs)
    reads set v | v in iovs :: v.base
  {
    if iovs == [] then [] else
      var v := iovs[|iovs| - 1];
      assert v in iovs;
      Gather(iovs[..|iovs| - 1]) + v.base[v.off..v.off + v.len]
  }

  lemma {:induction false} TotalMono(iovs: seq<IoVec>, i: nat, j: nat)
    requires i < j <= |iovs|
    ensures Total(iovs[..i]) + iovs[i].len <= Total(iovs[..j]) <= Total(iovs)
    decreases |iovs|, j
  {
    if j < |iovs| {
      var front := iovs[..|iovs| - 1];
      TotalMono(front, i, j);
      assert front[..i] == iovs[..i] && front[..j] == iovs[..j];
    } else {
      assert iovs[..j] == iovs;
      if i < j - 1 {
        TotalMono(iovs[..j - 1], i, j - 1);
        assert iovs[..j - 1][..i] == iovs[..i] && iovs[..j - 1][..j - 1] == iovs[..j - 1];
      }
    }
  }

  class ByteArray {
    const baseSize: nat
    var position: nat
    var capacity: nat
    var size: nat
    var bigEndian: bool
    var root: Node
    var cur: Node?

    ghost var nodes: seq<Node>         // the chain from root on
    ghost var mem: seq<byte>           // the memory of the whole chain, laid end to end
    ghost var curIdx: nat              // which block the cursor is at
    ghost var Repr: set<object>

    /** The blocks are linked in order, all of the same size and all different. */
    ghost predicate Linked()
      reads `nodes, `root, nodes`next
    {
      && baseSize > 0
      && |nodes| > 0 && root == nodes[0]
      && (forall i :: 0 <= i < |nodes| ==> nodes[i].size == baseSize && nodes[i].ptr.Length == baseSize)
      && (forall i :: 0 <= i < |nodes| - 1 ==> nodes[i].next == nodes[i + 1])
      && nodes[|nodes| - 1].next == null
      && (forall i, j :: 0 <= i < j < |nodes| ==> nodes[i] != nodes[j] && nodes[i].ptr != nodes[j].ptr)
    }

    /** Each block holds its stretch of the flat memory. */
    ghost predicate Stored()
      requires Owned()
      reads `nodes, `mem, `Repr, Repr - {this}
    {
      && |mem| == Off(|nodes|, baseSize)
      && (forall i :: 0 <= i < |nodes| ==> Holds(nodes[i].ptr[..], mem, i, baseSize))
    }

    ghost predicate Chained()
      requires Owned()
      reads `nodes, `root, `mem, `Repr, nodes`next, Repr - {this}
    {
      Linked() && Stored()
    }

    /** Node i lies under the cursor's position, or the cursor is past the last node. */
    ghost predicate CursorAt(n: Node?, i: nat, p: nat)
      reads `nodes, `capacity
    {
      && i <= |nodes|
      && (i < |nodes| ==> n == nodes[i] && Off(i, baseSize) <= p < Off(i, baseSize) + baseSize)
      && (i == |nodes| ==> n == null && p == capacity)
    }

    ghost predicate Owned()
      reads `nodes, `Repr
    {
      && this in Repr
      && (forall i :: 0 <= i < |nodes| ==> nodes[i] in Repr && nodes[i].ptr in Repr)
    }

    ghost predicate Valid()
      reads this, Repr
    {
      && Owned()
      && Chained()
      && Seated()
      && position <= size <= capacity
    }

    /** The cursor block matches the position. */
    ghost predicate Seated()
      reads `nodes, `capacity, `position, `cur, `curIdx
    {
      && capacity == Off(|nodes|, baseSize)
      && position <= capacity
      && CursorAt(cur, curIdx, position)
    }

    /** The bytes a reader can reach: [0, size). */
    ghost function Contents(): (s: seq<byte>)
      requires size <= |mem|
      reads this
    {
      mem[..size]
    }

    constructor (baseSize: nat)
      requires baseSize > 0
      ensures Valid() && fresh(Repr)
      ensures this.baseSize == baseSize && capacity == baseSize
      ensures position == 0 && size == 0 && bigEndian
    {
      this.baseSize := baseSize;
      position, capacity, size := 0, baseSize, 0;
      bigEndian := true;
      var n := new Node(baseSize);
      root := n;
      cur := n;
      nodes := [n];
      mem := n.ptr[..];
      curIdx := 0;
      Repr := {this, n, n.ptr};
      new;
      assert Off(1, baseSize) == Off(0, baseSize) + baseSize;
    }

    /** Links one more block behind the last one. */
    method AppendBlock(last: Node) returns (n: Node)
      requires Owned() && Chained() && last == nodes[|nodes| - 1]
      modifies last, this`nodes, this`mem, this`Repr, this`capacity
      ensures Owned() && Chained() && fresh(Repr - old(Repr)) && old(Repr) <= Repr
      ensures fresh(n) && nodes == old(nodes) + [n]
      ensures |old(mem)| <= |mem| && mem[..|old(mem)|] == old(mem)
      ensures capacity == old(capacity) + baseSize
    {
      hide Off, Holds;
      n := new Node(baseSize);
      HoldsGrown(mem, |nodes|, baseSize, n.ptr[..]);
      last.next := n;
      nodes := nodes + [n];
      mem := mem + n.ptr[..];
      Repr := Repr + {n, n.ptr};
      capacity := capacity + baseSize;
    }

    lemma LinkAt(t: nat)
      requires Linked() && t < |nodes|
      ensures nodes[t].next != null <==> t + 1 < |nodes|
      ensures t + 1 < |nodes| ==> nodes[t].next == nodes[t + 1]
    {
      if t + 1 < |nodes| {
        var n: Node := nodes[t + 1];
        assert nodes[t].next == n;
      }
    }

    /** Walks to the last block of the chain. */
    method LastBlock() returns (tmp: Node)
      requires Owned() && Chained()
      ensures tmp == nodes[|nodes| - 1]
    {
      tmp := root;
      ghost var t := 0;
      LinkAt(t);
      while tmp.next != null
        invariant t < |nodes| && tmp == nodes[t]
        invariant tmp.next != null <==> t + 1 < |nodes|
        decreases |nodes| - t
      {
        tmp := tmp.next;
        t := t + 1;
        LinkAt(t);
      }
    }

    /** Links count more blocks behind the last one. */
    method AppendBlocks(last: Node, count: nat) returns (first: Node?)
      requires Owned() && Chained() && last == nodes[|nodes| - 1]
      requires capacity == Off(|nodes|, baseSize)
      modifies nodes, this`nodes, this`mem, this`Repr, this`capacity
      ensures Owned() && Chained() && fresh(Repr - old(Repr)) && old(Repr) <= Repr
      ensures |nodes| == |old(nodes)| + count && nodes[..|old(nodes)|] == old(nodes)
      ensures |old(mem)| <= |mem| && mem[..|old(mem)|] == old(mem)
      ensures capacity == Off(|nodes|, baseSize) == old(capacity) + Off(count, baseSize)
      ensures count > 0 ==> first == nodes[|old(nodes)|]
    {
      hide Holds;
      var tmp := last;
      first := null;
      var i := 0;
      while i < count
        invariant 0 <= i <= count
        invariant Owned() && Chained() && fresh(Repr - old(Repr)) && old(Repr) <= Repr
        invariant |nodes| == |old(nodes)| + i && nodes[..|old(nodes)|] == old(nodes)
        invariant tmp in old(nodes) || fresh(tmp)
        invariant |old(mem)| <= |mem| && mem[..|old(mem)|] == old(mem)
        invariant tmp == nodes[|nodes| - 1]
        invariant capacity == Off(|nodes|, baseSize) == old(capacity) + Off(i, baseSize)
        invariant if i == 0 then first == null else first == nodes[|old(nodes)|]
      {
        var n := AppendBlock(tmp);
        if first == null {
          first := n;
        }
        tmp := n;
        i := i + 1;
      }
    }

    /** The cursor is null exactly at the full capacity. */
    lemma CursorAtEnd()
      requires Owned() && Chained() && Seated()
      ensures cur == null <==> position == capacity
      ensures curIdx == |nodes| <==> position == capacity
    {
      if curIdx < |nodes| {
        OffMono(curIdx, |nodes|, baseSize);
      }
    }

    /** Adds count blocks; a cursor that had run off the end moves to the first of them. */
    method Grow(count: nat)
      requires Valid() && count > 0
      modifies Repr
      ensures Valid() && fresh(Repr - old(Repr)) && old(Repr) <= Repr
      ensures position == old(position) && size == old(size) && bigEndian == old(bigEndian)
      ensures capacity == old(capacity) + Off(count, baseSize)
      ensures |old(mem)| <= |mem| && mem[..|old(mem)|] == old(mem)
    {
      hide Off, Holds;
      CursorAtEnd();
      var oldCap := capacity - position;
      var last := LastBlock();
      var first := AppendBlocks(last, count);
      OffMono(|old(nodes)|, |nodes|, baseSize);
      if oldCap == 0 {
        cur := first;
      } else {
        assert nodes[curIdx] == old(nodes)[curIdx];
      }
    }

    /** Grows the chain until len bytes fit from the position on; no byte already held changes. */
    method AddCapacity(len: nat)
      requires Valid()
      modifies Repr
      ensures Valid() && fresh(Repr - old(Repr)) && old(Repr) <= Repr
      ensures position == old(position) && size == old(size) && bigEndian == old(bigEndian)
      ensures capacity == Grown(old(capacity), old(position), len, baseSize)
      ensures |mem| == capacity && |old(mem)| == old(capacity) <= capacity
      ensures mem[..old(capacity)] == old(mem)
    {
      hide Off, Holds;
      if len == 0 {
        return;
      }
      var oldCap := capacity - position;
      if oldCap >= len {
        return;
      }
      var count := BlocksFor(len - oldCap, baseSize);
      GrownFits(capacity, position, len, baseSize);
      Grow(count);
    }

    /** Copies chunk into the memory of block k: to p in the flat memory. */
    method StoreAt(block: array<byte>, ghost k: nat, npos: nat, chunk: seq<byte>, ghost p: nat)
      requires Owned() && Chained() && k < |nodes| && block == nodes[k].ptr
      requires npos + |chunk| <= baseSize && p == Off(k, baseSize) + npos
      modifies block, this`mem
      ensures Owned() && Chained()
      ensures p + |chunk| <= |old(mem)|
      ensures mem == Patch(old(mem), p, chunk)
    {
      hide Patch, Off, Holds;
      PatchSameBlock(block[..], mem, k, baseSize, npos, chunk);
      forall i | 0 <= i < |nodes| && i != k
        ensures Holds(nodes[i].ptr[..], Patch(mem, p, chunk), i, baseSize)
      {
        PatchOtherBlock(nodes[i].ptr[..], mem, i, k, baseSize, npos, chunk);
      }
      Memcpy(block, npos, chunk);
      mem := Patch(mem, p, chunk);
    }

    /** Moves the cursor over n bytes of its block, to the next block when that one is used up. */
    method Advance(npos: nat, n: nat)
      requires Owned() && Chained() && Seated() && curIdx < |nodes|
      requires position == Off(curIdx, baseSize) + npos && npos + n <= baseSize
      modifies this`position, this`cur, this`curIdx
      ensures Seated() && position == old(position) + n
      ensures curIdx == old(curIdx) + if npos + n == baseSize then 1 else 0
    {
      OffMono(curIdx, |nodes|, baseSize);
      LinkAt(curIdx);
      if cur.size == npos + n {
        cur := cur.next;
        curIdx := curIdx + 1;
      }
      position := position + n;
    }

    /** Writes one block's worth at the cursor. */
    method PutChunk(npos: nat, chunk: seq<byte>)
      requires Owned() && Chained() && Seated() && curIdx < |nodes|
      requires position == Off(curIdx, baseSize) + npos && npos + |chunk| <= baseSize
      modifies cur.ptr, this`mem, this`position, this`cur, this`curIdx
      ensures Owned() && Chained() && Seated()
      ensures position == old(position) + |chunk|
      ensures curIdx == old(curIdx) + if npos + |chunk| == baseSize then 1 else 0
      ensures position <= |old(mem)|
      ensures mem == Patch(old(mem), old(position), chunk)
    {
      hide Patch, Off, Holds;
      StoreAt(cur.ptr, curIdx, npos, chunk, position);
      Advance(npos, |chunk|);
    }

    /** One turn of write's loop, seen from its start: n more bytes of buf are in place. */
    method PutNext(npos: nat, buf: seq<byte>, bpos: nat, n: nat, ghost m0: seq<byte>, ghost p0: nat)
      requires Owned() && Chained() && Seated() && curIdx < |nodes|
      requires position == Off(curIdx, baseSize) + npos && npos + n <= baseSize
      requires bpos + n <= |buf| && p0 + |buf| <= |m0| && position == p0 + bpos
      requires mem == Patch(m0, p0, buf[..bpos])
      modifies cur.ptr, this`mem, this`position, this`cur, this`curIdx
      ensures Owned() && Chained() && Seated()
      ensures position == p0 + bpos + n
      ensures npos + n == baseSize && position < capacity ==>
        curIdx < |nodes| && cur.size == baseSize && position == Off(curIdx, baseSize)
      ensures mem == Patch(m0, p0, buf[..bpos + n])
    {
      hide Patch, Holds;
      PatchStep(m0, p0, buf, bpos, n);
      PutChunk(npos, buf[bpos..bpos + n]);
      CursorAtEnd();
    }

    /** A patch seen through the size is an overwrite of the contents. */
    static lemma PatchOverwrite(m: seq<byte>, p: nat, size: nat, buf: seq<byte>)
      requires p <= size <= |m| && p + |buf| <= |m|
      ensures Patch(m, p, buf)[..if p + |buf| > size then p + |buf| else size] == Overwrite(m[..size], p, buf)
    {
    }

    /** The copying loop of write: block by block, from the cursor on. */
    method WriteLoop(buf: seq<byte>)
      requires Valid() && |buf| > 0 && position + |buf| <= capacity
      modifies Repr
      ensures Owned() && Chained() && Seated()
      ensures Repr == old(Repr)
      ensures capacity == old(capacity) && size == old(size) && bigEndian == old(bigEndian)
      ensures position == old(position) + |buf|
      ensures mem == Patch(old(mem), old(position), buf)
    {
      hide Patch, Off, Holds;
      CursorAtEnd();
      BlockOf(position, curIdx, baseSize);
      ghost var m0, p0 := mem, position;
      PatchEnds(m0, p0, buf);
      var npos := position % baseSize;
      var ncap := cur.size - npos;
      var bpos := 0;
      var left := |buf|;
      while left > 0
        invariant Owned() && Chained() && Seated()
        invariant Repr == old(Repr)
        invariant capacity == old(capacity) && size == old(size) && bigEndian == old(bigEndian)
        invariant 0 <= left && bpos + left == |buf| && position == p0 + bpos
        invariant left > 0 ==> curIdx < |nodes| && ncap + npos == baseSize && position == Off(curIdx, baseSize) + npos
        invariant mem == Patch(m0, p0, buf[..bpos])
      {
        var n := if ncap >= left then left else ncap;
        PutNext(npos, buf, bpos, n, m0, p0);
        bpos := bpos + n;
        left := left - n;
        if left > 0 {
          ncap := cur.size;
          npos := 0;
        }
      }
    }

    /** write once the capacity is there. */
    method Fill(buf: seq<byte>)
      requires Valid() && |buf| > 0 && position + |buf| <= capacity
      modifies Repr
      ensures Valid() && Repr == old(Repr)
      ensures capacity == old(capacity) && position == old(position) + |buf| && bigEndian == old(bigEndian)
      ensures mem == Patch(old(mem), old(position), buf)
      ensures size == if position > old(size) then position else old(size)
    {
      hide Patch, Off, Holds;
      WriteLoop(buf);
      if position > size {
        size := position;
      }
    }

    /** Writes buf at the cursor, growing the chain as needed. */
    method Write(buf: seq<byte>)
      requires Valid()
      modifies Repr
      ensures Valid() && fresh(Repr - old(Repr)) && old(Repr) <= Repr
      ensures capacity == Grown(old(capacity), old(position), |buf|, baseSize)
      ensures position == old(position) + |buf| && bigEndian == old(bigEndian)
      ensures Contents() == Overwrite(old(Contents()), old(position), buf)
    {
      hide Patch, Off, Holds;
      ghost var was := Contents();
      if |buf| == 0 {
        assert Overwrite(was, position, buf) == was;
        return;
      }
      AddCapacity(|buf|);
      GrownFits(old(capacity), position, |buf|, baseSize);
      assert Contents() == was;
      PatchOverwrite(mem, position, size, buf);
      Fill(buf);
    }

    // ---- reading -------------------------------------------------------------------------

    /** Bytes of one block are the bytes of its stretch of the flat memory. */
    lemma ChunkAt(k: nat, npos: nat, n: nat)
      requires Owned() && Chained() && k < |nodes| && npos + n <= baseSize
      ensures Off(k, baseSize) + npos + n <= |mem|
      ensures nodes[k].ptr[npos..npos + n] == mem[Off(k, baseSize) + npos..Off(k, baseSize) + npos + n]
    {
      ghost var block := nodes[k].ptr[..];
      assert Holds(block, mem, k, baseSize);
      assert nodes[k].ptr[npos..npos + n] == block[npos..npos + n];
      HoldsSlice(block, mem, k, baseSize, npos, n);
    }

    /** Takes n bytes from the block c, the one that holds position p, and steps to where p + n lies. */
    method TakeNext(c: Node, ghost k: nat, ghost p: nat, npos: nat, n: nat)
      returns (chunk: seq<byte>, next: Node?, ghost k': nat)
      requires Owned() && Chained() && capacity == Off(|nodes|, baseSize)
      requires k < |nodes| && c == nodes[k] && p == Off(k, baseSize) + npos
      requires npos < baseSize && npos + n <= baseSize
      ensures p + n <= |mem| && chunk == mem[p..p + n]
      ensures CursorAt(next, k', p + n)
      ensures npos + n == baseSize ==> (next != null <==> p + n < capacity)
      ensures npos + n == baseSize && next != null ==>
        k' < |nodes| && next.size == baseSize && p + n == Off(k', baseSize)
    {
      ChunkAt(k, npos, n);
      chunk := c.ptr[npos..npos + n];
      next, k' := c, k;
      LinkAt(k);
      OffMono(k, |nodes|, baseSize);
      if c.size == npos + n {
        next, k' := c.next, k + 1;
        assert p + n == Off(k + 1, baseSize);
        if k + 1 < |nodes| {
          assert nodes[k + 1].size == baseSize;
          OffMono(k + 1, |nodes|, baseSize);
        }
      }
    }

    /** The copying loop of both read functions, from block c on. Asked for more than the chain holds, it
        comes to look into the block behind the last one. */
    method ReadLoop(c: Node, ghost k: nat, p: nat, len: nat)
      returns (ok: bool, buf: seq<byte>, next: Node?, ghost k': nat)
      requires Owned() && Chained() && capacity == Off(|nodes|, baseSize)
      requires k < |nodes| && CursorAt(c, k, p)
      ensures ok <==> p + len <= capacity
      ensures ok ==> p + len <= |mem| && buf == mem[p..p + len] && CursorAt(next, k', p + len)
    {
      hide Off, Holds;
      BlockOf(p, k, baseSize);
      OffMono(k, |nodes|, baseSize);
      ghost var m := mem;
      var npos := p % baseSize;
      var ncap := c.size - npos;
      buf := [];
      next, k' := c, k;
      var left := len;
      ghost var q := p;
      while left > 0
        invariant 0 <= left && q + left == p + len && p <= q <= |m| && q <= capacity
        invariant buf == m[p..q]
        invariant CursorAt(next, k', q)
        invariant left > 0 ==> k' < |nodes| && next != null && q == Off(k', baseSize) + npos
        invariant left > 0 ==> ncap + npos == baseSize && ncap > 0
      {
        var n := if ncap >= left then left else ncap;
        var chunk;
        chunk, next, k' := TakeNext(next, k', q, npos, n);
        SliceStep(m, p, q, n);
        buf := buf + chunk;
        q := q + n;
        left := left - n;
        if left > 0 {
          if next == null {
            return false, [], null, k';
          }
          ncap := next.size;
          npos := 0;
        }
      }
      ok := true;
    }

    /** Reads len bytes at the cursor and moves over them. */
    method Read(len: nat) returns (outcome: Outcome, buf: seq<byte>)
      requires Valid()
      modifies this`position, this`cur, this`curIdx
      ensures Valid()
      ensures outcome == OutOfRange <==> len > size - old(position)
      ensures outcome == NullDereference <==> len == 0 && old(position) == capacity
      ensures outcome == Done ==> position == old(position) + len
      ensures outcome == Done ==> buf == old(Contents())[old(position)..old(position) + len]
      ensures outcome != Done ==> position == old(position) && buf == []
    {
      hide Off, Holds;
      buf := [];
      CursorAtEnd();
      if len > size - position {
        return OutOfRange, [];
      }
      if cur == null {
        return NullDereference, [];
      }
      ghost var k;
      var ok;
      ContentsSlice(position, len);
      ok, buf, cur, k := ReadLoop(cur, curIdx, position, len);
      curIdx := k;
      position := position + len;
      outcome := Done;
    }

    /** Walks p / baseSize links from the root: to the block that holds position p, if the chain is that
        long. */
    method Locate(p: nat) returns (c: Node?, ghost k: nat)
      requires Owned() && Linked() && capacity == Off(|nodes|, baseSize)
      ensures p < capacity ==> CursorAt(c, k, p)
      ensures c == null <==> p >= capacity
    {
      var count := p / baseSize;
      ghost var target := count;
      QuotientOff(p, |nodes|, baseSize);
      c, k := root, 0;
      while count > 0
        invariant 0 <= count && k + count == target && k <= |nodes|
        invariant if k < |nodes| then c == nodes[k] else c == null
      {
        if c == null {
          return;
        }
        LinkAt(k);
        c := c.next;
        k := k + 1;
        count := count - 1;
      }
      if k < |nodes| {
        OffMono(k, |nodes|, baseSize);
      }
    }

    /** Reads len bytes at a given position without moving the cursor. A position past the contents makes the
        unsigned difference wrap, so nearly every length passes the check: the call hands out memory of the
        chain that was never written, or runs off its end. */
    method ReadAt(len: nat, p: nat) returns (outcome: Outcome, buf: seq<byte>)
      requires Valid()
      ensures outcome == OutOfRange <==> len > UnsignedDifference(size, p)
      ensures outcome == NullDereference <==>
        len <= UnsignedDifference(size, p) && (p >= capacity || p + len > capacity)
      ensures outcome == Done ==> p + len <= |mem| && buf == mem[p..p + len]
      ensures outcome == Done && p <= size ==> p + len <= size && buf == Contents()[p..p + len]
      ensures outcome != Done ==> buf == []
    {
      hide Off, Holds;
      buf := [];
      if len > UnsignedDifference(size, p) {
        return OutOfRange, [];
      }
      ghost var k;
      var c;
      c, k := Locate(p);
      if c == null {
        return NullDereference, [];
      }
      ghost var k';
      var ok, next;
      ok, buf, next, k' := ReadLoop(c, k, p, len);
      if !ok {
        return NullDereference, [];
      }
      if p <= size {
        ContentsSlice(p, len);
      }
      outcome := Done;
    }

    /** All the readable bytes. */
    method ToString() returns (s: seq<byte>)
      requires Valid()
      ensures s == Contents()[position..]
    {
      var n := size - position;
      if n == 0 {
        return [];
      }
      var outcome;
      outcome, s := ReadAt(n, position);
    }

    // ---- moving about ----------------------------------------------------------------------

    /** Walks the chain from the root, taking block after block off v while v reaches past it.
        A null result is where the source's loop would look into the missing block. */
    method SeekFromRoot(v: nat) returns (c: Node?, ghost k: nat)
      requires Linked() && capacity == Off(|nodes|, baseSize) && v <= capacity
      ensures CursorAt(c, k, v)
      ensures c == null <==> v == capacity
    {
      var rest := v;
      c, k := root, 0;
      while c != null && rest >= c.size
        invariant k <= |nodes| && 0 <= rest && rest + Off(k, baseSize) == v
        invariant if k < |nodes| then c == nodes[k] else c == null
        decreases |nodes| - k
      {
        LinkAt(k);
        rest := rest - c.size;
        c := c.next;
        k := k + 1;
      }
      if k < |nodes| {
        OffMono(k, |nodes|, baseSize);
      }
    }

    /** Moves the cursor to v, stretching the contents up to it when it lies past their end.
        Right at the capacity the walk runs off the last block. */
    method SetPosition(v: nat) returns (outcome: Outcome)
      requires Valid()
      modifies this`position, this`size, this`cur, this`curIdx
      ensures Valid()
      ensures outcome == OutOfRange <==> v > capacity
      ensures outcome == NullDereference <==> v == capacity
      ensures outcome == OutOfRange ==> position == old(position) && size == old(size)
      ensures outcome != OutOfRange ==> position == v && size == if v > old(size) then v else old(size)
    {
      hide Off, Holds;
      if v > capacity {
        return OutOfRange;
      }
      position := v;
      if position > size {
        size := position;
      }
      ghost var k;
      cur, k := SeekFromRoot(v);
      curIdx := k;
      outcome := if cur == null then NullDereference else Done;
    }

    /** A chain of the one block root, with the cursor at its start. */
    lemma OneBlock()
      requires baseSize > 0 && root.size == baseSize && root.ptr.Length == baseSize && root.next == null
      requires nodes == [root] && mem == root.ptr[..] && {this, root, root.ptr} <= Repr
      requires cur == root && curIdx == 0 && position == 0 && size == 0 && capacity == baseSize
      ensures Valid()
    {
      HoldsGrown([], 0, baseSize, root.ptr[..]);
      assert [] + root.ptr[..] == root.ptr[..];
      OffIsProduct(0, baseSize);
      OffIsProduct(1, baseSize);
      hide Off, Holds;
    }

    /** Back to one block; the rest of the chain is dropped. */
    method Clear()
      requires Valid()
      modifies this, root
      ensures Valid() && Repr == old(Repr)
      ensures position == 0 && size == 0 && capacity == baseSize && bigEndian == old(bigEndian)
    {
      hide Off, Holds, Patch;
      assert root == nodes[0] && root.ptr in Repr;
      position, size := 0, 0;
      capacity := baseSize;
      cur := root;
      root.next := null;
      nodes := [root];
      mem := root.ptr[..];
      curIdx := 0;
      OneBlock();
    }

    // ---- scatter/gather --------------------------------------------------------------------

    /** v is a non-empty piece of block k, standing for [p + d, p + d + v.len) of the flat memory. */
    ghost predicate Stretch(v: IoVec, p: nat, d: nat, k: nat)
      reads `nodes
    {
      && k < |nodes| && v.base == nodes[k].ptr
      && p + d == Off(k, baseSize) + v.off
      && 0 < v.len && v.off + v.len <= baseSize
    }

    /** The regions stand for consecutive stretches of the flat memory from p on. */
    ghost predicate Maps(iovs: seq<IoVec>, p: nat)
      reads `nodes
    {
      iovs == [] ||
      var front, last := iovs[..|iovs| - 1], iovs[|iovs| - 1];
      Maps(front, p) && exists k :: Stretch(last, p, Total(front), k)
    }

    lemma MapsAppend(iovs: seq<IoVec>, p: nat, v: IoVec, k: nat)
      requires Maps(iovs, p) && Stretch(v, p, Total(iovs), k)
      ensures Maps(iovs + [v], p) && Total(iovs + [v]) == Total(iovs) + v.len
    {
      var all := iovs + [v];
      assert all[..|all| - 1] == iovs && all[|all| - 1] == v;
      assert exists l :: Stretch(v, p, Total(iovs), l);
    }

    lemma {:induction false} MapsAt(iovs: seq<IoVec>, p: nat, j: nat) returns (k: nat)
      requires Maps(iovs, p) && j < |iovs|
      ensures Stretch(iovs[j], p, Total(iovs[..j]), k)
      decreases |iovs|
    {
      var front := iovs[..|iovs| - 1];
      if j < |front| {
        k := MapsAt(front, p, j);
        assert front[..j] == iovs[..j];
      } else {
        k :| Stretch(iovs[|iovs| - 1], p, Total(front), k);
      }
    }

    lemma MapsInBounds(iovs: seq<IoVec>, p: nat)
      requires Linked() && Maps(iovs, p)
      ensures InBounds(iovs)
    {
      forall v | v in iovs
        ensures v.off + v.len <= v.base.Length
      {
        var j :| 0 <= j < |iovs| && iovs[j] == v;
        var k := MapsAt(iovs, p, j);
      }
    }

    lemma RegionsOwned(iovs: seq<IoVec>, p: nat)
      requires Owned() && Maps(iovs, p)
      ensures forall v :: v in iovs ==> v.base in Repr
    {
      forall v | v in iovs
        ensures v.base in Repr
      {
        var j :| 0 <= j < |iovs| && iovs[j] == v;
        var k := MapsAt(iovs, p, j);
      }
    }

    /** No two regions share a byte, and in one block they come in order. */
    lemma RegionsDisjoint(iovs: seq<IoVec>, p: nat, i: nat, j: nat)
      requires Linked() && Maps(iovs, p) && i < j < |iovs|
      ensures iovs[i].base != iovs[j].base || iovs[i].off + iovs[i].len <= iovs[j].off
    {
      var k := MapsAt(iovs, p, i);
      var l := MapsAt(iovs, p, j);
      TotalMono(iovs, i, j);
    }

    /** Gathering regions that stand for [p, p + len) gives those bytes. */
    lemma {:induction false} GatherIsSlice(iovs: seq<IoVec>, p: nat)
      requires Owned() && Chained() && Maps(iovs, p) && p <= |mem|
      ensures InBounds(iovs) && p + Total(iovs) <= |mem|
      ensures Gather(iovs) == mem[p..p + Total(iovs)]
      decreases |iovs|
    {
      hide Off, Holds;
      MapsInBounds(iovs, p);
      if iovs != [] {
        var front, v := iovs[..|iovs| - 1], iovs[|iovs| - 1];
        GatherIsSlice(front, p);
        var k := MapsAt(iovs, p, |iovs| - 1);
        assert v.base[v.off..v.off + v.len] == nodes[k].ptr[v.off..v.off + v.len];
        ChunkAt(k, v.off, v.len);
        SliceStep(mem, p, p + Total(front), v.len);
      }
    }

    /** A position at the end of block k and below the capacity is the start of the next block. */
    lemma NextBlock(k: nat, q: nat)
      requires Linked() && capacity == Off(|nodes|, baseSize) && k < |nodes|
      requires q == Off(k, baseSize) + baseSize && q < capacity
      ensures k + 1 < |nodes| && nodes[k].next == nodes[k + 1] && q == Off(k + 1, baseSize)
    {
      LinkAt(k);
    }

    /** The loop all three buffer functions share: regions for len bytes from block c on. */
    method Regions(c: Node, ghost k: nat, p: nat, len: nat) returns (iovs: seq<IoVec>)
      requires Owned() && Chained() && capacity == Off(|nodes|, baseSize)
      requires k < |nodes| && CursorAt(c, k, p) && p + len <= capacity
      ensures Maps(iovs, p) && Total(iovs) == len
      ensures InBounds(iovs) && p + len <= |mem| && Gather(iovs) == mem[p..p + len]
    {
      hide Off, Gather, Holds;
      BlockOf(p, k, baseSize);
      var npos := p % baseSize;
      var ncap := c.size - npos;
      iovs := [];
      var at: Node? := c;
      ghost var i: nat, q: nat := k, p;
      var left := len;
      while left > 0
        invariant 0 <= npos && 0 <= left && q + left == p + len && p <= q
        invariant Maps(iovs, p) && p + Total(iovs) == q
        invariant left > 0 ==> i < |nodes| && at == nodes[i] && q == Off(i, baseSize) + npos
        invariant left > 0 ==> ncap + npos == baseSize && ncap > 0
      {
        var n := if ncap >= left then left else ncap;
        var v := IoVec(at.ptr, npos, n);
        assert Stretch(v, p, Total(iovs), i);
        MapsAppend(iovs, p, v, i);
        iovs := iovs + [v];
        q := q + n;
        left := left - n;
        if left > 0 {
          NextBlock(i, q);
          at := at.next;
          ncap := at.size;
          npos := 0;
          i := i + 1;
        }
      }
      GatherIsSlice(iovs, p);
    }

    lemma ContentsSlice(p: nat, n: nat)
      requires p + n <= size <= |mem|
      ensures Contents()[p..p + n] == mem[p..p + n]
    {
    }

    /** Regions for up to len readable bytes at the cursor. */
    method GetReadBuffers(len: nat) returns (iovs: seq<IoVec>, n: nat)
      requires Valid()
      ensures n == if len > size - position then size - position else len
      ensures Maps(iovs, position) && InBounds(iovs)
      ensures Gather(iovs) == Contents()[position..position + n]
    {
      hide Off, Holds;
      n := if len > size - position then size - position else len;
      CursorAtEnd();
      if n == 0 {
        return [], 0;
      }
      ContentsSlice(position, n);
      iovs := Regions(cur, curIdx, position, n);
    }

    /** Regions for up to len readable bytes at p. A request for nothing is answered before the walk;
        one cut down to nothing at the very end of the chain is not. */
    method GetReadBuffersAt(len: nat, p: nat) returns (outcome: Outcome, iovs: seq<IoVec>, n: nat)
      requires Valid()
      ensures outcome == OutOfRange <==> p > size
      ensures outcome == NullDereference <==> len > 0 && p == size == capacity
      ensures outcome == Done ==> n == (if len > size - p then size - p else len)
      ensures outcome == Done ==> Maps(iovs, p) && InBounds(iovs) && Gather(iovs) == Contents()[p..p + n]
      ensures outcome != Done ==> iovs == [] && n == 0
    {
      hide Off, Holds;
      if p > size {
        return OutOfRange, [], 0;
      }
      if len == 0 {
        return Done, [], 0;
      }
      n := if len > size - p then size - p else len;
      ghost var k;
      var c;
      c, k := Locate(p);
      if c == null {
        return NullDereference, [], 0;
      }
      ContentsSlice(p, n);
      iovs := Regions(c, k, p, n);
      outcome := Done;
    }

    /** Room for len bytes from the cursor on, as regions to be filled. */
    method GetWriteBuffers(len: nat) returns (iovs: seq<IoVec>, n: nat)
      requires Valid()
      modifies Repr
      ensures Valid() && fresh(Repr - old(Repr)) && old(Repr) <= Repr
      ensures n == len == Total(iovs) && Maps(iovs, position) && InBounds(iovs)
      ensures position == old(position) && size == old(size) && bigEndian == old(bigEndian)
      ensures capacity == Grown(old(capacity), old(position), len, baseSize)
      ensures |mem| == capacity && old(capacity) == |old(mem)| <= capacity && mem[..old(capacity)] == old(mem)
    {
      hide Off, Holds;
      if len == 0 {
        assert mem[..capacity] == mem;
        return [], 0;
      }
      AddCapacity(len);
      GrownFits(old(capacity), position, len, baseSize);
      CursorAtEnd();
      iovs := Regions(cur, curIdx, position, len);
      n := len;
    }

    /** Fills the regions in order with data, as readv does. */
    method FillRegions(iovs: seq<IoVec>, data: seq<byte>)
      requires Valid() && Maps(iovs, position) && Total(iovs) == |data| && position + |data| <= capacity
      modifies this`mem, set v | v in iovs :: v.base
      ensures Valid()
      ensures mem == Patch(old(mem), position, data)
    {
      hide Patch, Off, Maps, Holds;
      ghost var m0 := mem;
      PatchEnds(m0, position, data);
      var j, d := 0, 0;
      while j < |iovs|
        invariant 0 <= j <= |iovs|
        invariant Valid()
        invariant d == Total(iovs[..j]) <= |data|
        invariant mem == Patch(m0, position, data[..d])
      {
        assert iovs[j] in iovs;
        FillOne(iovs, j, data, d, m0);
        TotalStep(iovs, j);
        d := d + iovs[j].len;
        j := j + 1;
      }
      assert iovs[..|iovs|] == iovs;
    }

    lemma TotalStep(iovs: seq<IoVec>, j: nat)
      requires j < |iovs|
      ensures Total(iovs[..j + 1]) == Total(iovs[..j]) + iovs[j].len
    {
      assert iovs[..j + 1][..j] == iovs[..j];
    }

    method FillOne(iovs: seq<IoVec>, j: nat, data: seq<byte>, d: nat, ghost m0: seq<byte>)
      requires Valid() && Maps(iovs, position) && Total(iovs) == |data|
      requires j < |iovs| && d == Total(iovs[..j]) <= |data| && position + |data| <= |m0|
      requires mem == Patch(m0, position, data[..d])
      modifies iovs[j].base, this`mem
      ensures Valid()
      ensures d + iovs[j].len <= |data|
      ensures mem == Patch(m0, position, data[..d + iovs[j].len])
    {
      hide Patch, Off, Total, Maps, Holds;
      var v := iovs[j];
      ghost var k := MapsAt(iovs, position, j);
      TotalMono(iovs, j, j + 1);
      TotalStep(iovs, j);
      PatchStep(m0, position, data, d, v.len);
      StoreAt(v.base, k, v.off, data[d..d + v.len], position + d);
    }

    /** readv into the write buffers: data lies at the cursor, which has not moved yet. */
    method Receive(data: seq<byte>) returns (ghost m: seq<byte>)
      requires Valid()
      modifies Repr
      ensures Valid() && fresh(Repr - old(Repr)) && old(Repr) <= Repr
      ensures position == old(position) && size == old(size) && bigEndian == old(bigEndian)
      ensures capacity == Grown(old(capacity), old(position), |data|, baseSize)
      ensures |m| == capacity && position + |data| <= capacity && m[..size] == old(Contents())
      ensures mem == Patch(m, position, data)
    {
      hide Off, Holds, Gather, Maps, Grown, Patch;
      var iovs, n := GetWriteBuffers(|data|);
      GrownFits(old(capacity), old(position), |data|, baseSize);
      m := mem;
      assert m[..size] == old(mem)[..size];
      RegionsOwned(iovs, position);
      FillRegions(iovs, data);
    }

    /** The same effect as Write by way of the write buffers, except that ending right at the
        capacity sends SetPosition off the chain. */
    method WriteThroughBuffers(data: seq<byte>) returns (outcome: Outcome)
      requires Valid()
      modifies Repr
      ensures Valid() && fresh(Repr - old(Repr)) && old(Repr) <= Repr
      ensures capacity == Grown(old(capacity), old(position), |data|, baseSize)
      ensures position == old(position) + |data| && bigEndian == old(bigEndian)
      ensures Contents() == Overwrite(old(Contents()), old(position), data)
      ensures outcome == Done <==> position < capacity
      ensures outcome == NullDereference <==> position == capacity
    {
      hide Off, Holds, Grown, Patch;
      ghost var m := Receive(data);
      PatchOverwrite(m, position, size, data);
      outcome := SetPosition(position + |data|);
    }
  }
}
