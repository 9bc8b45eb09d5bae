// The best-fit list allocator: its free list is always the sorted list of maximal gaps between the
// live allocations, so an allocation fails exactly when no aligned range of that size is free.

module ListAllocator {
  import opened SizeT

  datatype Block = Block(offset: nat, size: nat)

  // ---------------------------------------------------------------- alignment

  predicate IsPowerOfTwo(n: nat) {
    n == 1 || (n > 1 && n % 2 == 0 && IsPowerOfTwo(n / 2))
  }

  lemma ProductOrder(d: int, align: nat)
    requires align > 0
    ensures d >= 1 ==> d * align >= align
    ensures d <= -1 ==> d * align + align <= 0
  {
    if d >= 1 { assert (d - 1) * align >= 0; }
    if d <= -1 { assert (-1 - d) * align >= 0; }
  }

  lemma MultipleHasNoRemainder(x: int, q: int, align: nat)
    requires align > 0 && x == q * align
    ensures x % align == 0
  {
    var d := q - x / align;
    assert d * align == x - x / align * align;
    ProductOrder(d, align);
  }

  lemma RemainderRemoved(x: nat, align: nat)
    requires align > 0
    ensures x % align <= x && (x - x % align) % align == 0
  {
    assert x == x / align * align + x % align;
    MultipleHasNoRemainder(x - x % align, x / align, align);
  }

  predicate Aligned(a: nat, align: nat)
    requires align > 0
  {
    a % align == 0
  }

  // The smallest multiple of align that is not below a: add the mask, clear the low bits.
  function AlignUp(a: nat, align: nat): (r: nat)
    requires align > 0
    ensures a <= r < a + align && Aligned(r, align)
  {
    var x := a + (align - 1);
    RemainderRemoved(x, align);
    x - x % align
  }

  lemma AlignUpIsLeast(a: nat, align: nat, m: nat)
    requires align > 0 && Aligned(m, align) && a <= m
    ensures AlignUp(a, align) <= m
  {
    var r := AlignUp(a, align);
    var p, q := r / align, m / align;
    assert r == p * align && m == q * align;
    assert r - m == (p - q) * align;
    ProductOrder(p - q, align);
  }

  // ---------------------------------------------------------------- block lists

  predicate InBlock(b: Block, o: nat) {
    b.offset <= o < b.offset + b.size
  }

  ghost predicate Covered(blocks: seq<Block>, o: nat) {
    exists i :: 0 <= i < |blocks| && InBlock(blocks[i], o)
  }

  // Nonempty blocks within the capacity, in order and disjoint.
  ghost predicate Ordered(blocks: seq<Block>, capacity: nat) {
    && (forall i :: 0 <= i < |blocks| ==> blocks[i].size > 0 && blocks[i].offset + blocks[i].size <= capacity)
    && (forall i, j :: 0 <= i < j < |blocks| ==> blocks[i].offset + blocks[i].size <= blocks[j].offset)
  }

  // No two blocks touch: each is a maximal run of the bytes they cover.
  ghost predicate Maximal(blocks: seq<Block>) {
    forall i, j :: 0 <= i < j < |blocks| ==> blocks[i].offset + blocks[i].size < blocks[j].offset
  }

  ghost predicate GapList(blocks: seq<Block>, capacity: nat) {
    Ordered(blocks, capacity) && Maximal(blocks)
  }

  // A list of maximal runs is determined by the bytes it covers.
  lemma {:induction false} GapListUnique(p: seq<Block>, q: seq<Block>, capacity: nat)
    requires GapList(p, capacity) && GapList(q, capacity)
    requires forall o: nat :: Covered(p, o) <==> Covered(q, o)
    ensures p == q
    decreases |p|
  {
    if p == [] || q == [] {
      if p != [] { FirstCovered(p, capacity); }
      if q != [] { FirstCovered(q, capacity); }
    } else {
      FirstStarts(p, q, capacity);
      FirstStarts(q, p, capacity);
      FirstEnds(p, q, capacity);
      FirstEnds(q, p, capacity);
      forall o: nat ensures Covered(p[1..], o) <==> Covered(q[1..], o) {
        CoveredTail(p, capacity, o);
        CoveredTail(q, capacity, o);
      }
      GapListUnique(p[1..], q[1..], capacity);
    }
  }

  lemma FirstCovered(p: seq<Block>, capacity: nat)
    requires Ordered(p, capacity) && p != []
    ensures Covered(p, p[0].offset)
  {
    assert InBlock(p[0], p[0].offset);
  }

  lemma FirstStarts(p: seq<Block>, q: seq<Block>, capacity: nat)
    requires Ordered(p, capacity) && Ordered(q, capacity) && p != [] && q != []
    requires forall o: nat :: Covered(p, o) ==> Covered(q, o)
    ensures q[0].offset <= p[0].offset
  {
    FirstCovered(p, capacity);
    var j :| 0 <= j < |q| && InBlock(q[j], p[0].offset);
  }

  lemma FirstEnds(p: seq<Block>, q: seq<Block>, capacity: nat)
    requires GapList(p, capacity) && Ordered(q, capacity) && p != [] && q != [] && p[0].offset == q[0].offset
    requires forall o: nat :: Covered(q, o) ==> Covered(p, o)
    ensures q[0].size <= p[0].size
  {
    var o := p[0].offset + p[0].size;
    assert p[0].size < q[0].size ==> InBlock(q[0], o);
    assert !Covered(p, o);
  }

  lemma CoveredTail(p: seq<Block>, capacity: nat, o: nat)
    requires Ordered(p, capacity) && p != []
    ensures Covered(p[1..], o) <==> Covered(p, o) && !InBlock(p[0], o)
  {
    if Covered(p[1..], o) {
      var i :| 0 <= i < |p[1..]| && InBlock(p[1..][i], o);
      assert InBlock(p[i + 1], o);
    }
    if Covered(p, o) && !InBlock(p[0], o) {
      var i :| 0 <= i < |p| && InBlock(p[i], o);
      assert InBlock(p[1..][i - 1], o);
    }
  }

  // A covered range of bytes lies in one maximal run.
  lemma {:induction false} RangeInOneBlock(p: seq<Block>, capacity: nat, lo: nat, n: nat)
    requires GapList(p, capacity) && n > 0
    requires forall o: nat :: lo <= o < lo + n ==> Covered(p, o)
    ensures exists i :: 0 <= i < |p| && p[i].offset <= lo && lo + n <= p[i].offset + p[i].size
    decreases n
  {
    assert Covered(p, lo + n - 1);
    var j :| 0 <= j < |p| && InBlock(p[j], lo + n - 1);
    if n > 1 {
      RangeInOneBlock(p, capacity, lo, n - 1);
      var i :| 0 <= i < |p| && p[i].offset <= lo && lo + (n - 1) <= p[i].offset + p[i].size;
      assert i == j;
    }
  }

  lemma CoveredConcat(p: seq<Block>, q: seq<Block>, o: nat)
    ensures Covered(p + q, o) <==> Covered(p, o) || Covered(q, o)
  {
    if Covered(p, o) {
      var i :| 0 <= i < |p| && InBlock(p[i], o);
      assert InBlock((p + q)[i], o);
    }
    if Covered(q, o) {
      var i :| 0 <= i < |q| && InBlock(q[i], o);
      assert InBlock((p + q)[|p| + i], o);
    }
  }

  function Total(blocks: seq<Block>): nat {
    if blocks == [] then 0 else Total(blocks[..|blocks| - 1]) + blocks[|blocks| - 1].size
  }

  lemma {:induction false} TotalConcat(p: seq<Block>, q: seq<Block>)
    ensures Total(p + q) == Total(p) + Total(q)
    decreases |q|
  {
    if q == [] {
      assert p + q == p;
    } else {
      assert (p + q)[..|p + q| - 1] == p + q[..|q| - 1];
      TotalConcat(p, q[..|q| - 1]);
    }
  }

  // ---------------------------------------------------------------- coalescing

  // What coalescing keeps: the bytes covered and their number.
  ghost predicate SameBytes(p: seq<Block>, q: seq<Block>) {
    Total(p) == Total(q) && forall o: nat :: Covered(p, o) <==> Covered(q, o)
  }

  // Places 0 to out hold the maximal runs of the first i blocks; the others are untouched.
  ghost predicate Coalesced(blocks: seq<Block>, r: seq<Block>, out: nat, i: nat, capacity: nat)
    requires out < i <= |r| == |blocks|
  {
    && r[i..] == blocks[i..]
    && GapList(r[..out + 1], capacity) && SameBytes(r[..out + 1], blocks[..i])
    && r[out].offset + r[out].size == blocks[i - 1].offset + blocks[i - 1].size
  }

  lemma CoalesceStep(blocks: seq<Block>, r: seq<Block>, out: nat, i: nat, capacity: nat)
    requires Ordered(blocks, capacity) && out < i < |r| == |blocks| && Coalesced(blocks, r, out, i, capacity)
    ensures if r[out].offset + r[out].size == r[i].offset
            then Coalesced(blocks, r[out := Block(r[out].offset, r[out].size + r[i].size)], out, i + 1, capacity)
            else Coalesced(blocks, r[out + 1 := r[i]], out + 1, i + 1, capacity)
  {
    var b := blocks[i];
    assert b.size > 0 && b.offset + b.size <= capacity && r[out].offset + r[out].size <= b.offset;
    assert r[i] == r[i..][0] == b;
    hide Ordered, GapList, SameBytes, Coalesced;
    if r[out].offset + r[out].size == b.offset {
      MergeStep(blocks, r, out, i, capacity);
    } else {
      KeepStep(blocks, r, out, i, capacity);
    }
  }

  lemma MergeStep(blocks: seq<Block>, r: seq<Block>, out: nat, i: nat, capacity: nat)
    requires out < i < |r| == |blocks| && Coalesced(blocks, r, out, i, capacity) && r[i] == blocks[i]
    requires r[out].offset + r[out].size == blocks[i].offset && blocks[i].offset + blocks[i].size <= capacity
    ensures Coalesced(blocks, r[out := Block(r[out].offset, r[out].size + r[i].size)], out, i + 1, capacity)
  {
    hide Ordered, Maximal, GapList, Covered, Total, SameBytes;
    var b, front, last := blocks[i], r[..out], r[out];
    var m := Block(last.offset, last.size + b.size);
    var r' := r[out := m];
    assert blocks[..i + 1] == blocks[..i] + [b];
    assert r[..out + 1] == front + [last];
    assert r'[..out + 1] == front + [m] && r'[i + 1..] == blocks[i + 1..];
    MergedOrder(front, last, b, capacity);
    MergedBytes(front, last, b);
    ExtendBytes(front + [m], front + [last], blocks[..i], b);
  }

  lemma KeepStep(blocks: seq<Block>, r: seq<Block>, out: nat, i: nat, capacity: nat)
    requires out < i < |r| == |blocks| && Coalesced(blocks, r, out, i, capacity) && r[i] == blocks[i]
    requires r[out].offset + r[out].size < blocks[i].offset
    requires blocks[i].size > 0 && blocks[i].offset + blocks[i].size <= capacity
    ensures Coalesced(blocks, r[out + 1 := r[i]], out + 1, i + 1, capacity)
  {
    hide Ordered, Maximal, GapList, Covered, Total, SameBytes;
    var b, done := blocks[i], r[..out + 1];
    var r' := r[out + 1 := b];
    assert blocks[..i + 1] == blocks[..i] + [b];
    assert r'[..out + 2] == done + [b] && r'[i + 1..] == blocks[i + 1..];
    KeepLast(done, b, capacity);
    ExtendBytes(done + [b], done, blocks[..i], b);
  }

  method Coalesce(blocks: seq<Block>, ghost capacity: nat) returns (r: seq<Block>)
    requires Ordered(blocks, capacity)
    ensures GapList(r, capacity) && SameBytes(r, blocks)
  {
    r := blocks;
    if blocks == [] {
      return;
    }
    var out := 0;
    var i := 1;
    assert blocks[..1] == [blocks[0]] && r[..out + 1] == [blocks[0]];
    while i < |r|
      invariant 0 <= out < i <= |r|
      invariant |r| == |blocks| && Coalesced(blocks, r, out, i, capacity)
    {
      CoalesceStep(blocks, r, out, i, capacity);
      if r[out].offset + r[out].size == r[i].offset {
        r := r[out := Block(r[out].offset, r[out].size + r[i].size)];
      } else {
        out := out + 1;
        r := r[out := r[i]];
      }
      i := i + 1;
    }
    assert blocks[..i] == blocks;
    r := r[..out + 1];
  }

  lemma MergedOrder(front: seq<Block>, last: Block, b: Block, capacity: nat)
    requires GapList(front + [last], capacity) && b.offset + b.size <= capacity
    requires last.offset + last.size == b.offset
    ensures GapList(front + [Block(last.offset, last.size + b.size)], capacity)
  {
    var m := Block(last.offset, last.size + b.size);
    var p, r := front + [last], front + [m];
    assert p[|front|] == last;
    forall k | 0 <= k < |r| ensures r[k].offset == p[k].offset && (k < |front| ==> r[k] == p[k]) {}
  }

  // Extending the last run by an adjacent block covers what both cover.
  lemma MergedBytes(front: seq<Block>, last: Block, b: Block)
    requires last.offset + last.size == b.offset
    ensures SameBytes(front + [Block(last.offset, last.size + b.size)], front + [last] + [b])
  {
    var m := Block(last.offset, last.size + b.size);
    hide Covered, Total;
    forall o: nat ensures Covered(front + [m], o) <==> Covered(front + [last] + [b], o) {
      CoveredConcat(front, [m], o);
      CoveredConcat(front + [last], [b], o);
      CoveredConcat(front, [last], o);
      CoveredSingle(m, o);
      CoveredSingle(b, o);
      CoveredSingle(last, o);
    }
    TotalConcat(front, [m]);
    TotalConcat(front + [last], [b]);
    TotalConcat(front, [last]);
    TotalSingle(m);
    TotalSingle(b);
    TotalSingle(last);
  }

  lemma CoveredSingle(b: Block, o: nat)
    ensures Covered([b], o) <==> InBlock(b, o)
  {
    if InBlock(b, o) { assert InBlock([b][0], o); }
  }

  lemma TotalSingle(b: Block)
    ensures Total([b]) == b.size
  {
    assert [b][..0] == [];
  }

  lemma KeepLast(done: seq<Block>, b: Block, capacity: nat)
    requires GapList(done, capacity) && done != [] && b.size > 0 && b.offset + b.size <= capacity
    requires done[|done| - 1].offset + done[|done| - 1].size < b.offset
    ensures GapList(done + [b], capacity) && SameBytes(done + [b], done + [b])
  {
  }

  lemma ExtendBytes(r: seq<Block>, done: seq<Block>, before: seq<Block>, b: Block)
    requires SameBytes(done, before) && SameBytes(r, done + [b])
    ensures SameBytes(r, before + [b])
  {
    forall o: nat ensures Covered(done + [b], o) <==> Covered(before + [b], o) {
      CoveredConcat(done, [b], o);
      CoveredConcat(before, [b], o);
    }
    TotalConcat(done, [b]);
    TotalConcat(before, [b]);
  }

  // ---------------------------------------------------------------- insertion

  // std::lower_bound and insertion at the place found.
  method InsertFreeBlock(blocks: seq<Block>, b: Block, ghost capacity: nat) returns (r: seq<Block>)
    requires Ordered(blocks, capacity) && b.size > 0 && b.offset + b.size <= capacity
    requires forall o: nat :: InBlock(b, o) ==> !Covered(blocks, o)
    ensures Ordered(r, capacity) && SameBytes(r, blocks + [b])
  {
    var lo, n := 0, |blocks|;
    while n > 0
      invariant 0 <= lo <= lo + n <= |blocks|
      invariant forall i :: 0 <= i < lo ==> blocks[i].offset < b.offset
      invariant forall i :: lo + n <= i < |blocks| ==> b.offset <= blocks[i].offset
      decreases n
    {
      var half := n / 2;
      if blocks[lo + half].offset < b.offset {
        lo, n := lo + half + 1, n - half - 1;
      } else {
        n := half;
      }
    }
    r := blocks[..lo] + [b] + blocks[lo..];
    InsertedOrder(blocks, b, lo, capacity);
    InsertedBytes(blocks, b, lo);
  }

  lemma InsertedOrder(blocks: seq<Block>, b: Block, k: nat, capacity: nat)
    requires Ordered(blocks, capacity) && b.size > 0 && b.offset + b.size <= capacity && k <= |blocks|
    requires forall o: nat :: InBlock(b, o) ==> !Covered(blocks, o)
    requires forall i :: 0 <= i < k ==> blocks[i].offset < b.offset
    requires forall i :: k <= i < |blocks| ==> b.offset <= blocks[i].offset
    ensures Ordered(blocks[..k] + [b] + blocks[k..], capacity)
  {
    forall i | 0 <= i < k ensures blocks[i].offset + blocks[i].size <= b.offset {
      assert InBlock(b, b.offset) && !Covered(blocks, b.offset);
      assert !InBlock(blocks[i], b.offset);
    }
    forall i | k <= i < |blocks| ensures b.offset + b.size <= blocks[i].offset {
      var o := blocks[i].offset;
      assert InBlock(blocks[i], o);
      assert Covered(blocks, o);
    }
  }

  lemma InsertedBytes(blocks: seq<Block>, b: Block, k: nat)
    requires k <= |blocks|
    ensures SameBytes(blocks[..k] + [b] + blocks[k..], blocks + [b])
  {
    assert blocks == blocks[..k] + blocks[k..];
    forall o: nat ensures Covered(blocks[..k] + [b] + blocks[k..], o) <==> Covered(blocks + [b], o) {
      CoveredConcat(blocks[..k] + [b], blocks[k..], o);
      CoveredConcat(blocks[..k], [b], o);
      CoveredConcat(blocks, [b], o);
      CoveredConcat(blocks[..k], blocks[k..], o);
    }
    TotalConcat(blocks[..k] + [b], blocks[k..]);
    TotalConcat(blocks[..k], [b]);
    TotalConcat(blocks, [b]);
    TotalConcat(blocks[..k], blocks[k..]);
  }

  // ---------------------------------------------------------------- the allocator's state

  // The buffer [begin, end), the alignment, the free list by offset, and the live allocations by address.
  datatype Arena = Arena(begin: nat, end: nat, align: nat, free: seq<Block>, live: map<nat, nat>)

  // The byte at offset o belongs to a live allocation.
  ghost predicate LiveAt(a: Arena, o: nat) {
    exists p :: p in a.live && p <= a.begin + o < p + a.live[p]
  }

  // Bytes of the live allocations at addresses below n.
  function LiveBytes(live: map<nat, nat>, n: nat): nat {
    if n == 0 then 0 else LiveBytes(live, n - 1) + (if n - 1 in live then live[n - 1] else 0)
  }

  ghost predicate ValidLive(a: Arena)
    requires a.align > 0
  {
    && (forall p :: p in a.live ==> a.live[p] > 0 && a.begin <= p && p + a.live[p] <= a.end && Aligned(p, a.align))
    && (forall p, q :: p in a.live && q in a.live && p < q ==> p + a.live[p] <= q)
  }

  // The free list holds exactly the bytes that no live allocation holds.
  ghost predicate Complementary(a: Arena) {
    forall o: nat :: Covered(a.free, o) <==> a.begin + o < a.end && !LiveAt(a, o)
  }

  ghost predicate Valid(a: Arena) {
    && a.align > 0 && a.begin <= a.end <= SIZE_MAX && (a.begin == a.end || Aligned(a.begin, a.align))
    && ValidLive(a) && GapList(a.free, a.end - a.begin) && Complementary(a)
    && Total(a.free) + LiveBytes(a.live, a.end) == a.end - a.begin
  }

  // The free list is a function of the live allocations: the sorted list of maximal gaps they leave.
  lemma FreeListIsCanonical(a: Arena, b: Arena)
    requires Valid(a) && Valid(b) && a.begin == b.begin && a.end == b.end && a.live == b.live
    ensures a.free == b.free
  {
    forall o: nat ensures Covered(a.free, o) <==> Covered(b.free, o) {
      assert LiveAt(a, o) <==> LiveAt(b, o);
    }
    GapListUnique(a.free, b.free, a.end - a.begin);
  }

  function Whole(capacity: nat): seq<Block> {
    if capacity == 0 then [] else [Block(0, capacity)]
  }

  lemma {:induction false} NothingLive(n: nat)
    ensures LiveBytes(map[], n) == 0
  {
    if n > 0 { NothingLive(n - 1); }
  }

  lemma FreshArena(begin: nat, end: nat, align: nat)
    requires align > 0 && begin <= end <= SIZE_MAX && (begin == end || Aligned(begin, align))
    ensures Valid(Arena(begin, end, align, Whole(end - begin), map[]))
  {
    var a := Arena(begin, end, align, Whole(end - begin), map[]);
    NothingLive(end);
    if begin < end {
      TotalSingle(a.free[0]);
      forall o: nat ensures Covered(a.free, o) <==> begin + o < end { CoveredSingle(a.free[0], o); }
    }
  }

  // When every allocation has been freed, in whatever order, one block is left.
  lemma AllFreed(a: Arena)
    requires Valid(a) && a.live == map[]
    ensures a.free == Whole(a.end - a.begin)
  {
    FreshArena(a.begin, a.end, a.align);
    FreeListIsCanonical(a, Arena(a.begin, a.end, a.align, Whole(a.end - a.begin), map[]));
  }

  // ---------------------------------------------------------------- fitting

  // The aligned address a block offers.
  function Offer(a: Arena, i: nat): nat
    requires i < |a.free| && a.align > 0
  {
    AlignUp(a.begin + a.free[i].offset, a.align)
  }

  predicate Fits(a: Arena, i: nat, sz: nat)
    requires i < |a.free| && a.align > 0
  {
    Offer(a, i) + sz <= a.begin + a.free[i].offset + a.free[i].size
  }

  // Bytes of the block beyond the allocation.
  function Waste(a: Arena, i: nat, sz: nat): int
    requires i < |a.free| && a.align > 0
  {
    a.begin + a.free[i].offset + a.free[i].size - (Offer(a, i) + sz)
  }

  // The leftmost of the fitting blocks with least waste, among the first n.
  ghost predicate Best(a: Arena, i: nat, sz: nat, n: nat)
    requires n <= |a.free| && a.align > 0
  {
    && i < n && Fits(a, i, sz)
    && forall j :: 0 <= j < n && Fits(a, j, sz) ==> Waste(a, i, sz) <= Waste(a, j, sz) && (j < i ==> Waste(a, i, sz) < Waste(a, j, sz))
  }

  // An aligned range of the buffer that no live allocation touches.
  ghost predicate FreeRange(a: Arena, p: nat, sz: nat)
    requires a.align > 0
  {
    && Aligned(p, a.align) && a.begin <= p && p + sz <= a.end
    && forall o: nat :: p <= a.begin + o < p + sz ==> !LiveAt(a, o)
  }

  lemma FitIsFreeRange(a: Arena, i: nat, sz: nat)
    requires Valid(a) && i < |a.free| && Fits(a, i, sz)
    ensures FreeRange(a, Offer(a, i), sz)
  {
    forall o: nat | Offer(a, i) <= a.begin + o < Offer(a, i) + sz ensures !LiveAt(a, o) {
      assert InBlock(a.free[i], o);
    }
  }

  lemma FreeRangeFits(a: Arena, p: nat, sz: nat)
    requires Valid(a) && sz > 0 && FreeRange(a, p, sz)
    ensures exists i :: 0 <= i < |a.free| && Fits(a, i, sz)
  {
    var lo := p - a.begin;
    forall o: nat | lo <= o < lo + sz ensures Covered(a.free, o) { assert !LiveAt(a, o); }
    RangeInOneBlock(a.free, a.end - a.begin, lo, sz);
    var i :| 0 <= i < |a.free| && a.free[i].offset <= lo && lo + sz <= a.free[i].offset + a.free[i].size;
    AlignUpIsLeast(a.begin + a.free[i].offset, a.align, p);
    assert Fits(a, i, sz);
  }

  // The source refuses an address whose alignment would pass the top of the address space.
  predicate AlignOverflows(address: nat, align: nat) {
    address + align > SIZE_MAX + 1
  }

  // ---------------------------------------------------------------- taking a range out of a block

  function Remainder(b: Block, lo: nat, sz: nat): seq<Block>
    requires b.offset <= lo && lo + sz <= b.offset + b.size
  {
    (if lo == b.offset then [] else [Block(b.offset, lo - b.offset)])
    + (if lo + sz == b.offset + b.size then [] else [Block(lo + sz, b.offset + b.size - (lo + sz))])
  }

  function Carve(free: seq<Block>, i: nat, lo: nat, sz: nat): seq<Block>
    requires i < |free| && free[i].offset <= lo && lo + sz <= free[i].offset + free[i].size
  {
    free[..i] + Remainder(free[i], lo, sz) + free[i + 1..]
  }

  lemma GapListConcat(p: seq<Block>, q: seq<Block>, capacity: nat)
    requires GapList(p, capacity) && GapList(q, capacity)
    requires forall i, j :: 0 <= i < |p| && 0 <= j < |q| ==> p[i].offset + p[i].size < q[j].offset
    ensures GapList(p + q, capacity)
  {
  }

  ghost predicate Within(p: seq<Block>, b: Block) {
    forall k :: 0 <= k < |p| ==> b.offset <= p[k].offset && p[k].offset + p[k].size <= b.offset + b.size
  }

  lemma CarveOrder(free: seq<Block>, i: nat, lo: nat, sz: nat, capacity: nat)
    requires GapList(free, capacity) && i < |free| && sz > 0
    requires free[i].offset <= lo && lo + sz <= free[i].offset + free[i].size
    ensures GapList(Carve(free, i, lo, sz), capacity)
  {
    var b, mid, l, r := free[i], Remainder(free[i], lo, sz), free[..i], free[i + 1..];
    assert GapList(mid, capacity) && Within(mid, b);
    hide Remainder;
    assert forall k :: 0 <= k < |l| ==> l[k].offset + l[k].size < b.offset;
    assert forall k :: 0 <= k < |r| ==> b.offset + b.size < r[k].offset;
    assert GapList(l, capacity) && GapList(r, capacity);
    hide GapList;
    GapListConcat(l, mid, capacity);
    GapListConcat(l + mid, r, capacity);
  }

  lemma RemainderBytes(b: Block, lo: nat, sz: nat)
    requires b.offset <= lo && lo + sz <= b.offset + b.size
    ensures Total(Remainder(b, lo, sz)) + sz == b.size
    ensures forall o: nat :: Covered(Remainder(b, lo, sz), o) <==> InBlock(b, o) && !(lo <= o < lo + sz)
  {
    var l := if lo == b.offset then [] else [Block(b.offset, lo - b.offset)];
    var r := if lo + sz == b.offset + b.size then [] else [Block(lo + sz, b.offset + b.size - (lo + sz))];
    TotalConcat(l, r);
    if l != [] { TotalSingle(l[0]); }
    if r != [] { TotalSingle(r[0]); }
    forall o: nat ensures Covered(Remainder(b, lo, sz), o) <==> InBlock(b, o) && !(lo <= o < lo + sz) {
      CoveredConcat(l, r, o);
      if l != [] { CoveredSingle(l[0], o); }
      if r != [] { CoveredSingle(r[0], o); }
    }
  }

  // The bytes of one block are in no other.
  lemma OnlyInBlock(free: seq<Block>, i: nat, o: nat, capacity: nat)
    requires Ordered(free, capacity) && i < |free| && InBlock(free[i], o)
    ensures !Covered(free[..i], o) && !Covered(free[i + 1..], o)
  {
    forall k | 0 <= k < i ensures !InBlock(free[..i][k], o) { assert free[..i][k] == free[k]; }
    var r := free[i + 1..];
    forall k | 0 <= k < |r| ensures !InBlock(r[k], o) { assert r[k] == free[i + 1 + k]; }
  }

  lemma CoveredParts(l: seq<Block>, mid: seq<Block>, r: seq<Block>, o: nat)
    ensures Covered(l + mid + r, o) <==> Covered(l, o) || Covered(mid, o) || Covered(r, o)
  {
    hide Covered;
    CoveredConcat(l + mid, r, o);
    CoveredConcat(l, mid, o);
  }

  lemma CarveBytes(free: seq<Block>, i: nat, lo: nat, sz: nat, capacity: nat)
    requires GapList(free, capacity) && i < |free|
    requires free[i].offset <= lo && lo + sz <= free[i].offset + free[i].size
    ensures Total(Carve(free, i, lo, sz)) + sz == Total(free)
    ensures forall o: nat :: Covered(Carve(free, i, lo, sz), o) <==> Covered(free, o) && !(lo <= o < lo + sz)
  {
    var b, l, r := free[i], free[..i], free[i + 1..];
    var mid := Remainder(b, lo, sz);
    assert free == l + [b] + r && Carve(free, i, lo, sz) == l + mid + r;
    RemainderBytes(b, lo, sz);
    hide Remainder, Carve, Covered, Total;
    TotalSingle(b);
    TotalConcat(l + mid, r);
    TotalConcat(l, mid);
    TotalConcat(l + [b], r);
    TotalConcat(l, [b]);
    forall o: nat ensures Covered(l + mid + r, o) <==> Covered(l + [b] + r, o) && !(lo <= o < lo + sz) {
      CoveredParts(l, mid, r, o);
      CoveredParts(l, [b], r, o);
      CoveredSingle(b, o);
      if lo <= o < lo + sz { OnlyInBlock(free, i, o, capacity); }
    }
  }

  // ---------------------------------------------------------------- live allocations

  lemma {:induction false} LiveBytesAdd(live: map<nat, nat>, p: nat, sz: nat, n: nat)
    requires p !in live
    ensures LiveBytes(live[p := sz], n) == LiveBytes(live, n) + if p < n then sz else 0
  {
    if n > 0 { LiveBytesAdd(live, p, sz, n - 1); }
  }

  lemma LiveBytesRemove(live: map<nat, nat>, p: nat, n: nat)
    requires p in live && p < n
    ensures LiveBytes(live - {p}, n) + live[p] == LiveBytes(live, n)
  {
    LiveBytesAdd(live - {p}, p, live[p], n);
    assert (live - {p})[p := live[p]] == live;
  }

  lemma LiveAtAdded(a: Arena, p: nat, sz: nat, o: nat)
    requires p !in a.live
    ensures LiveAt(a.(live := a.live[p := sz]), o) <==> LiveAt(a, o) || p <= a.begin + o < p + sz
  {
    var b := a.(live := a.live[p := sz]);
    if LiveAt(a, o) {
      var q :| q in a.live && q <= a.begin + o < q + a.live[q];
      assert q in b.live && b.live[q] == a.live[q];
    }
    if p <= a.begin + o < p + sz { assert p in b.live && b.live[p] == sz; }
  }

  lemma AddedComplementary(a: Arena, p: nat, sz: nat, free: seq<Block>)
    requires Complementary(a) && p !in a.live && a.begin <= p && p + sz <= a.end
    requires forall o: nat :: Covered(free, o) <==> Covered(a.free, o) && !(p - a.begin <= o < p - a.begin + sz)
    ensures Complementary(a.(free := free, live := a.live[p := sz]))
  {
    var b := a.(free := free, live := a.live[p := sz]);
    hide Covered, LiveAt;
    forall o: nat ensures Covered(b.free, o) <==> b.begin + o < b.end && !LiveAt(b, o) {
      LiveAtAdded(a, p, sz, o);
      LiveAtFree(a.(live := a.live[p := sz]), free, o);
    }
  }

  lemma LiveAtFree(a: Arena, free: seq<Block>, o: nat)
    ensures LiveAt(a.(free := free), o) <==> LiveAt(a, o)
  {
  }

  lemma FreeRangeIsFresh(a: Arena, p: nat, sz: nat)
    requires Valid(a) && sz > 0 && FreeRange(a, p, sz)
    ensures p !in a.live && a.begin <= p < a.end
  {
    assert p in a.live ==> LiveAt(a, p - a.begin);
    assert !LiveAt(a, p - a.begin);
  }

  // A list covering exactly what the taken range leaves free keeps the allocator valid.
  lemma TakenValid(a: Arena, p: nat, sz: nat, free: seq<Block>)
    requires Valid(a) && sz > 0 && FreeRange(a, p, sz) && GapList(free, a.end - a.begin) && Total(free) + sz == Total(a.free)
    requires forall o: nat :: Covered(free, o) <==> Covered(a.free, o) && !(p - a.begin <= o < p - a.begin + sz)
    ensures Valid(a.(free := free, live := a.live[p := sz]))
  {
    FreeRangeIsFresh(a, p, sz);
    hide Covered, LiveAt, Total, LiveBytes, FreeRange, ValidLive, Complementary, GapList, Aligned;
    LiveBytesAdd(a.live, p, sz, a.end);
    AddedLive(a, p, sz);
    AddedComplementary(a, p, sz, free) by { assert FreeRange(a, p, sz) ==> p + sz <= a.end by { EndOfRange(a, p, sz); } }
    LiveIgnoresFree(a.(live := a.live[p := sz]), free);
  }

  lemma EndOfRange(a: Arena, p: nat, sz: nat)
    requires a.align > 0 && FreeRange(a, p, sz)
    ensures p + sz <= a.end
  {
  }

  // Carving a free range out of its gap and recording it keeps the allocator valid.
  lemma AllocValid(a: Arena, i: nat, p: nat, sz: nat)
    requires Valid(a) && sz > 0 && i < |a.free| && FreeRange(a, p, sz)
    requires a.begin + a.free[i].offset <= p && p + sz <= a.begin + a.free[i].offset + a.free[i].size
    ensures Valid(a.(free := Carve(a.free, i, p - a.begin, sz), live := a.live[p := sz]))
  {
    hide Covered, Carve, Total, LiveBytes, FreeRange, ValidLive, Complementary, GapList, Aligned;
    assert GapList(a.free, a.end - a.begin);
    hide Valid;
    CarveOrder(a.free, i, p - a.begin, sz, a.end - a.begin);
    CarveBytes(a.free, i, p - a.begin, sz, a.end - a.begin);
    TakenValid(a, p, sz, Carve(a.free, i, p - a.begin, sz));
  }

  lemma LiveIgnoresFree(a: Arena, free: seq<Block>)
    requires a.align > 0
    ensures ValidLive(a.(free := free)) <==> ValidLive(a)
  {
  }

  lemma AddedLive(a: Arena, p: nat, sz: nat)
    requires a.align > 0 && ValidLive(a) && FreeRange(a, p, sz) && sz > 0
    ensures ValidLive(a.(live := a.live[p := sz]))
  {
    forall q | q in a.live && q != p ensures q + a.live[q] <= p || p + sz <= q {
      assert LiveAt(a, q - a.begin);
      assert q <= p < q + a.live[q] ==> LiveAt(a, p - a.begin);
    }
  }

  // Distinct allocations do not share bytes, so removing one uncovers exactly its bytes.
  lemma LiveAtRemoved(a: Arena, p: nat, o: nat)
    requires a.align > 0 && ValidLive(a) && p in a.live
    ensures LiveAt(a.(live := a.live - {p}), o) <==> LiveAt(a, o) && !(p <= a.begin + o < p + a.live[p])
  {
    var b := a.(live := a.live - {p});
    if LiveAt(b, o) {
      var q :| q in b.live && q <= b.begin + o < q + b.live[q];
      assert q in a.live && q <= a.begin + o < q + a.live[q];
    }
    if LiveAt(a, o) && !(p <= a.begin + o < p + a.live[p]) {
      var q :| q in a.live && q <= a.begin + o < q + a.live[q];
      assert q in b.live && q <= b.begin + o < q + b.live[q];
    }
  }

  // Releasing an allocation and listing its bytes as free keeps the allocator valid.
  lemma ReleasedValid(a: Arena, p: nat, free: seq<Block>)
    requires Valid(a) && p in a.live && GapList(free, a.end - a.begin)
    requires SameBytes(free, a.free + [Block(p - a.begin, a.live[p])])
    ensures Valid(a.(free := free, live := a.live - {p}))
  {
    var b := a.(free := free, live := a.live - {p});
    var released := Block(p - a.begin, a.live[p]);
    assert p + a.live[p] <= a.end;
    LiveBytesRemove(a.live, p, a.end);
    TotalConcat(a.free, [released]);
    TotalSingle(released);
    assert ValidLive(b);
    hide LiveAt, Covered, Total, LiveBytes, ValidLive, GapList, Aligned;
    forall o: nat ensures Covered(free, o) <==> b.begin + o < b.end && !LiveAt(b, o) {
      CoveredConcat(a.free, [released], o);
      CoveredSingle(released, o);
      LiveAtRemoved(a, p, o);
      LiveAtFree(a.(live := a.live - {p}), free, o);
    }
  }

  lemma ReleasedIsLive(a: Arena, p: nat)
    requires Valid(a) && p in a.live
    ensures a.begin <= p && p + a.live[p] <= a.end && a.live[p] > 0
    ensures forall o: nat :: InBlock(Block(p - a.begin, a.live[p]), o) ==> !Covered(a.free, o)
    ensures Ordered(a.free, a.end - a.begin) && a.begin <= a.end
  {
    forall o: nat | InBlock(Block(p - a.begin, a.live[p]), o) ensures !Covered(a.free, o) { assert LiveAt(a, o); }
  }

  // The buffer has an aligned free range of that size.
  ghost predicate CanServe(a: Arena, sz: nat)
    requires a.align > 0
  {
    exists p :: FreeRange(a, p, sz)
  }

  // p is what the best-fitting block offers.
  ghost predicate BestFit(a: Arena, p: nat, sz: nat)
    requires a.align > 0
  {
    exists i :: 0 <= i < |a.free| && Best(a, i, sz, |a.free|) && p == Offer(a, i)
  }

  ghost predicate NoneFits(a: Arena, sz: nat, n: nat)
    requires n <= |a.free| && a.align > 0
  {
    forall j :: 0 <= j < n ==> !Fits(a, j, sz)
  }

  lemma NoFit(a: Arena, sz: nat)
    requires Valid(a) && sz > 0 && NoneFits(a, sz, |a.free|)
    ensures !CanServe(a, sz)
  {
    forall p ensures !FreeRange(a, p, sz) { if FreeRange(a, p, sz) { FreeRangeFits(a, p, sz); } }
  }

  lemma NoneFitsMore(a: Arena, sz: nat, i: nat)
    requires i < |a.free| && a.align > 0 && NoneFits(a, sz, i) && !Fits(a, i, sz)
    ensures NoneFits(a, sz, i + 1)
  {
  }

  // What the scan computes for one block.
  lemma Considered(a: Arena, i: nat, sz: nat)
    requires Valid(a) && sz > 0 && i < |a.free|
    ensures var b := a.free[i];
      var padding := AlignUp(a.begin + b.offset, a.align) - (a.begin + b.offset);
      && Offer(a, i) == AlignUp(a.begin + b.offset, a.align)
      && (AlignOverflows(a.begin + b.offset, a.align) <==> a.begin + b.offset > SIZE_MAX - (a.align - 1))
      && (Fits(a, i, sz) <==> padding <= b.size && b.size - padding >= sz)
      && (Fits(a, i, sz) ==> Waste(a, i, sz) == b.size - (padding + sz) < SIZE_MAX)
  {
    hide AlignUp, ValidLive, Complementary;
  }

  lemma BestFirst(a: Arena, i: nat, sz: nat)
    requires i < |a.free| && a.align > 0 && NoneFits(a, sz, i) && Fits(a, i, sz)
    ensures Best(a, i, sz, i + 1)
  {
  }

  lemma BestReplaced(a: Arena, best: nat, i: nat, sz: nat)
    requires best < i < |a.free| && a.align > 0 && Best(a, best, sz, i) && Fits(a, i, sz) && Waste(a, i, sz) < Waste(a, best, sz)
    ensures Best(a, i, sz, i + 1)
  {
    hide Fits, Waste;
  }

  lemma BestKept(a: Arena, best: nat, i: nat, sz: nat)
    requires best < i < |a.free| && a.align > 0 && Best(a, best, sz, i)
    requires Fits(a, i, sz) ==> Waste(a, best, sz) <= Waste(a, i, sz)
    ensures Best(a, best, sz, i + 1)
  {
    hide Fits, Waste;
  }

  lemma BestServes(a: Arena, i: nat, p: nat, sz: nat)
    requires Valid(a) && sz > 0 && i < |a.free| && Best(a, i, sz, |a.free|) && p == Offer(a, i)
    ensures FreeRange(a, p, sz) && CanServe(a, sz) && BestFit(a, p, sz)
    ensures a.begin + a.free[i].offset <= p && p + sz <= a.begin + a.free[i].offset + a.free[i].size
    ensures Valid(a.(free := Carve(a.free, i, p - a.begin, sz), live := a.live[p := sz]))
  {
    FitIsFreeRange(a, i, sz);
    assert AlignUp(a.begin + a.free[i].offset, a.align) == p;
    hide Valid, FreeRange, AlignUp, Carve;
    AllocValid(a, i, p, sz);
  }

  lemma SameBytesTrans(p: seq<Block>, q: seq<Block>, r: seq<Block>)
    requires SameBytes(p, q) && SameBytes(q, r)
    ensures SameBytes(p, r)
  {
    hide Covered, Total;
  }

  // The geometry after a release: sorted insertion, then coalescing.
  method AddFreeBlock(blocks: seq<Block>, b: Block, ghost capacity: nat) returns (r: seq<Block>)
    requires Ordered(blocks, capacity) && b.size > 0 && b.offset + b.size <= capacity
    requires forall o: nat :: InBlock(b, o) ==> !Covered(blocks, o)
    ensures GapList(r, capacity) && SameBytes(r, blocks + [b])
  {
    hide Ordered, GapList, Covered, SameBytes, InBlock;
    var inserted := InsertFreeBlock(blocks, b, capacity);
    r := Coalesce(inserted, capacity);
    SameBytesTrans(r, inserted, blocks + [b]);
  }

  lemma ValidAlign(a: Arena)
    requires Valid(a)
    ensures a.align > 0
  {
  }

  // ---------------------------------------------------------------- the class

  datatype AllocResult = NullPointer | Address(p: nat) | BadAlloc | AlignmentOverflow

  datatype FreeResult = Ignored | UnknownPointer | Released

  datatype SetupError = NullBuffer | BadAlignment | RangeOverflow | BeginOverflow

  // Some block's address cannot be aligned up within the address space.
  ghost predicate SomeOverflow(a: Arena) {
    exists i :: 0 <= i < |a.free| && AlignOverflows(a.begin + a.free[i].offset, a.align)
  }

  class ListAllocator {
    const begin: nat
    const end: nat
    const align: nat
    var free: seq<Block>
    var live: map<nat, nat>

    function State(): Arena
      reads this
    {
      Arena(begin, end, align, free, live)
    }

    constructor (begin: nat, end: nat, align: nat)
      requires align > 0 && begin <= end <= SIZE_MAX && (begin == end || Aligned(begin, align))
      ensures Valid(State()) && State() == Arena(begin, end, align, Whole(end - begin), map[])
    {
      this.begin, this.end, this.align := begin, end, align;
      live := map[];
      free := Whole(end - begin);
      new;
      FreshArena(begin, end, align);
    }

    // The checks of the base constructors; the usable range starts at the first aligned address.
    static method Make(buffer: nat, size: nat, alignment: nat) returns (error: Option<SetupError>, made: ListAllocator?)
      requires buffer <= SIZE_MAX
      ensures error.None? <==> made != null
      ensures error == if buffer == 0 && size != 0 then Some(NullBuffer)
                       else if !IsPowerOfTwo(alignment) then Some(BadAlignment)
                       else if buffer + size > SIZE_MAX then Some(RangeOverflow)
                       else if AlignOverflows(buffer, alignment) then Some(BeginOverflow)
                       else None
      ensures made != null ==>
        && fresh(made) && alignment > 0 && made.align == alignment && made.end == buffer + size
        && made.begin == (if AlignUp(buffer, alignment) > buffer + size then buffer + size else AlignUp(buffer, alignment))
        && Valid(made.State()) && made.live == map[]
    {
      if buffer == 0 && size != 0 {
        return Some(NullBuffer), null;
      }
      if !IsPowerOfTwo(alignment) {
        return Some(BadAlignment), null;
      }
      if size > SIZE_MAX - buffer {
        return Some(RangeOverflow), null;
      }
      if buffer > SIZE_MAX - (alignment - 1) {
        return Some(BeginOverflow), null;
      }
      var first := AlignUp(buffer, alignment);
      if first > buffer + size {
        first := buffer + size;
      }
      made := new ListAllocator(first, buffer + size, alignment);
      error := None;
    }

    // The scan of the free list for the best block; an unalignable address ends it.
    method FindBest(sz: nat) returns (overflow: bool, found: bool, bestIndex: nat, bestAddr: nat)
      requires Valid(State()) && sz > 0
      ensures overflow <==> SomeOverflow(State())
      ensures !overflow ==> (found <==> CanServe(State(), sz))
      ensures !overflow && found ==> bestIndex < |free| && Best(State(), bestIndex, sz, |free|) && bestAddr == Offer(State(), bestIndex)
    {
      var bestWaste := SIZE_MAX;
      found, bestIndex, bestAddr := false, 0, 0;
      ghost var a := State();
      assert align > 0;
      hide Valid, AlignUp, Fits, Offer, Waste, Best, CanServe, AlignOverflows;
      var i := 0;
      while i < |free|
        invariant 0 <= i <= |free|
        invariant forall j :: 0 <= j < i ==> !AlignOverflows(begin + free[j].offset, align)
        invariant !found ==> bestWaste == SIZE_MAX && NoneFits(a, sz, i)
        invariant found ==> bestIndex < i && Best(a, bestIndex, sz, i)
        invariant found ==> bestAddr == Offer(a, bestIndex) && bestWaste == Waste(a, bestIndex, sz)
      {
        Considered(a, i, sz);
        if begin + free[i].offset > SIZE_MAX - (align - 1) {
          return true, false, 0, 0;
        }
        var aligned := AlignUp(begin + free[i].offset, align);
        var padding := aligned - (begin + free[i].offset);
        if padding <= free[i].size && free[i].size - padding >= sz {
          var waste := free[i].size - (padding + sz);
          if waste < bestWaste {
            if found { BestReplaced(a, bestIndex, i, sz); } else { BestFirst(a, i, sz); }
            found, bestIndex, bestWaste, bestAddr := true, i, waste, aligned;
          } else {
            BestKept(a, bestIndex, i, sz);
          }
        } else if found {
          BestKept(a, bestIndex, i, sz);
        } else {
          NoneFitsMore(a, sz, i);
        }
        i := i + 1;
      }
      overflow := false;
      if found { BestServes(a, bestIndex, bestAddr, sz); } else { NoFit(a, sz); }
    }

    // The free list after taking sz bytes at the given address out of a block.
    method Split(index: nat, address: nat, sz: nat) returns (next: seq<Block>)
      requires index < |free| && begin + free[index].offset <= address
      requires address + sz <= begin + free[index].offset + free[index].size
      ensures next == Carve(free, index, address - begin, sz)
    {
      var chosen := free[index];
      var padding := address - (begin + chosen.offset);
      var total := padding + sz;
      var suffixOffset, suffixSize := chosen.offset + total, chosen.size - total;
      next := free[..index];
      if padding != 0 {
        next := next + [Block(chosen.offset, padding)];
      }
      if suffixSize != 0 {
        next := next + [Block(suffixOffset, suffixSize)];
      }
      next := next + free[index + 1..];
    }

    // The free list when the best block serves the request.
    method Serve(index: nat, address: nat, sz: nat) returns (next: seq<Block>)
      requires Valid(State()) && sz > 0 && index < |free| && Best(State(), index, sz, |free|) && address == Offer(State(), index)
      ensures FreeRange(State(), address, sz) && CanServe(State(), sz) && BestFit(State(), address, sz)
      ensures Valid(State().(free := next, live := live[address := sz]))
    {
      hide Valid, FreeRange, CanServe, BestFit, Best, Offer, Carve;
      BestServes(State(), index, address, sz);
      next := Split(index, address, sz);
    }

    // The result of an allocation and the free list it leaves, before anything is changed.
    method Plan(sz: nat) returns (r: AllocResult, next: seq<Block>)
      requires Valid(State())
      ensures r.NullPointer? <==> sz == 0
      ensures r.AlignmentOverflow? <==> sz > 0 && SomeOverflow(State())
      ensures r.BadAlloc? <==> sz > 0 && !SomeOverflow(State()) && !CanServe(State(), sz)
      ensures r.Address? ==> FreeRange(State(), r.p, sz) && BestFit(State(), r.p, sz)
      ensures r.Address? ==> Valid(State().(free := next, live := live[r.p := sz]))
    {
      ValidAlign(State());
      hide Valid, FreeRange, CanServe, BestFit, Best, Offer, Fits, SomeOverflow, Carve, AlignUp, AlignOverflows, Waste;
      next := free;
      if sz == 0 {
        return NullPointer, next;
      }
      var overflow, found, bestIndex, bestAddr := FindBest(sz);
      if overflow {
        return AlignmentOverflow, next;
      }
      if !found {
        return BadAlloc, next;
      }
      next := Serve(bestIndex, bestAddr, sz);
      r := Address(bestAddr);
    }

    // An allocation succeeds exactly when the buffer has an aligned free range of that size, takes
    // the leftmost gap with least waste, and leaves everything else alone.
    method Alloc(sz: nat) returns (r: AllocResult)
      requires Valid(State())
      modifies this
      ensures Valid(State())
      ensures r.NullPointer? <==> sz == 0
      ensures r.AlignmentOverflow? <==> sz > 0 && SomeOverflow(old(State()))
      ensures r.BadAlloc? <==> sz > 0 && !SomeOverflow(old(State())) && !CanServe(old(State()), sz)
      ensures r.Address? ==>
        FreeRange(old(State()), r.p, sz) && BestFit(old(State()), r.p, sz) && live == old(live)[r.p := sz]
      ensures !r.Address? ==> State() == old(State())
    {
      ValidAlign(State());
      hide Valid, FreeRange, CanServe, BestFit, SomeOverflow;
      var next: seq<Block>;
      r, next := Plan(sz);
      if r.Address? {
        live := live[r.p := sz];
        free := next;
      }
    }

    // Only live pointers are released, and a release gives back exactly their bytes.
    method Free(pointer: nat) returns (r: FreeResult)
      requires Valid(State())
      modifies this
      ensures Valid(State())
      ensures r == if pointer == 0 then Ignored else if pointer !in old(live) then UnknownPointer else Released
      ensures live == if r.Released? then old(live) - {pointer} else old(live)
      ensures !r.Released? ==> State() == old(State())
    {
      ghost var a := State();
      if pointer == 0 {
        return Ignored;
      }
      if pointer !in live {
        return UnknownPointer;
      }
      hide Valid, Ordered, GapList, Covered, SameBytes, InBlock;
      ReleasedIsLive(a, pointer);
      var next := AddFreeBlock(free, Block(pointer - begin, live[pointer]), end - begin);
      ReleasedValid(a, pointer, next);
      live := live - {pointer};
      free := next;
      r := Released;
    }

    method Reset()
      requires Valid(State())
      modifies this
      ensures Valid(State()) && live == map[] && free == Whole(end - begin)
    {
      FreshArena(begin, end, align);
      free, live := [], map[];
      var size := end - begin;
      if size != 0 {
        free := [Block(0, size)];
      }
    }

    // Free and live bytes add up to the capacity.
    method FreeBytes() returns (n: nat)
      requires Valid(State())
      ensures n + LiveBytes(live, end) == end - begin
    {
      n := 0;
      var i := 0;
      while i < |free|
        invariant 0 <= i <= |free| && n == Total(free[..i])
      {
        n := n + free[i].size;
        assert free[..i + 1][..i] == free[..i];
        i := i + 1;
      }
      assert free[..i] == free;
    }
  }
}
