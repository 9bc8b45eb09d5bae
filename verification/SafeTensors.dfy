// The range check of a safetensors file: a record set is accepted exactly when every record has the
// size its shape says and the records partition the data, in whatever order they are listed.

module SafeTensors {
  import opened SizeT
  import opened MixedRadix
  import opened TensorView
  import opened TiledLayout

  datatype Record = Record(dtype: DataType, shape: seq<nat>, begin: nat, end: nat)

  // ---------------------------------------------------------------- payload size

  // The running element count, or the bit count, leaves the machine word.
  ghost predicate PayloadOverflows(r: Record) {
    || (exists k: nat :: k <= |r.shape| && Product(r.shape[..k]) > SIZE_MAX)
    || Product(r.shape) * LeafBits(r.dtype) + 7 > SIZE_MAX
  }

  // The shape's bits, rounded up to bytes.
  function PayloadBytes(r: Record): nat {
    (Product(r.shape) * LeafBits(r.dtype) + 7) / 8
  }

  lemma {:induction false} ProductSnoc(s: seq<nat>, x: nat)
    ensures Product(s + [x]) == Product(s) * x
  {
    if s == [] {
      assert s + [x] == [x] && [x][1..] == [];
    } else {
      assert (s + [x])[0] == s[0] && (s + [x])[1..] == s[1..] + [x];
      ProductSnoc(s[1..], x);
      assert s[0] * (Product(s[1..]) * x) == s[0] * Product(s[1..]) * x;
    }
  }

  method ExpectedPayloadBytes(r: Record) returns (n: Option<nat>)
    ensures n == if PayloadOverflows(r) then None else Some(PayloadBytes(r))
  {
    var elements := 1;
    for i := 0 to |r.shape|
      invariant elements == Product(r.shape[..i]) <= SIZE_MAX
      invariant forall k: nat :: k <= i ==> Product(r.shape[..k]) <= SIZE_MAX
    {
      assert r.shape[..i + 1] == r.shape[..i] + [r.shape[i]];
      ProductSnoc(r.shape[..i], r.shape[i]);
      var product := CheckedMul(elements, r.shape[i]);
      if product.None? {
        return None;
      }
      elements := product.value;
    }
    assert r.shape[..|r.shape|] == r.shape;
    var bits := CheckedMul(elements, LeafBits(r.dtype));
    if bits.None? {
      return None;
    }
    var rounded := CheckedAdd(bits.value, 7);
    if rounded.None? {
      return None;
    }
    n := Some(rounded.value / 8);
  }

  // ---------------------------------------------------------------- records

  ghost predicate InRange(r: Record, dataSize: nat) {
    r.begin <= r.end <= dataSize
  }

  ghost predicate WellFormed(r: Record, dataSize: nat) {
    InRange(r, dataSize) && !PayloadOverflows(r) && r.end - r.begin == PayloadBytes(r)
  }

  predicate Holds(r: Record, o: nat) {
    r.begin <= o < r.end
  }

  ghost predicate Held(rs: seq<Record>, o: nat) {
    exists i :: 0 <= i < |rs| && Holds(rs[i], o)
  }

  // Every data byte is in exactly one record, and no empty record lies strictly inside another.
  ghost predicate Partition(rs: seq<Record>, dataSize: nat) {
    && (forall o: nat :: o < dataSize ==> Held(rs, o))
    && (forall i, j, o: nat :: 0 <= i < j < |rs| ==> !(Holds(rs[i], o) && Holds(rs[j], o)))
    && (forall i, j :: 0 <= i < |rs| && 0 <= j < |rs| ==> !StrictlyInside(rs[i], rs[j]))
  }

  predicate StrictlyInside(r: Record, s: Record) {
    r.begin == r.end && s.begin < r.begin < s.end
  }

  // ---------------------------------------------------------------- the sweep

  // The sort key.
  predicate NotAfter(r: Record, s: Record) {
    r.begin < s.begin || (r.begin == s.begin && r.end <= s.end)
  }

  ghost predicate Sorted(rs: seq<Record>) {
    forall i, j :: 0 <= i < j < |rs| ==> NotAfter(rs[i], rs[j])
  }

  // The end of the last record swept.
  function Cursor(rs: seq<Record>): nat {
    if rs == [] then 0 else rs[|rs| - 1].end
  }

  // Each record starts where the ones before it end.
  ghost predicate Chained(rs: seq<Record>) {
    forall i: nat :: i < |rs| ==> rs[i].begin == Cursor(rs[..i])
  }

  ghost predicate AllInRange(rs: seq<Record>, dataSize: nat) {
    forall i :: 0 <= i < |rs| ==> InRange(rs[i], dataSize)
  }

  lemma ChainPrefix(rs: seq<Record>, k: nat)
    requires Chained(rs) && k <= |rs|
    ensures Chained(rs[..k])
  {
    forall i: nat | i < k ensures rs[..k][i].begin == Cursor(rs[..k][..i]) { assert rs[..k][..i] == rs[..i] && rs[..k][i] == rs[i]; }
  }

  lemma ChainExtend(rs: seq<Record>, k: nat)
    requires k < |rs| && Chained(rs[..k]) && rs[k].begin == Cursor(rs[..k])
    ensures Chained(rs[..k + 1])
  {
    var p := rs[..k + 1];
    forall i: nat | i < |p| ensures p[i].begin == Cursor(p[..i]) {
      assert p[..i] == rs[..i] && p[i] == rs[i];
      if i < k { assert rs[..k][i].begin == Cursor(rs[..k][..i]) && rs[..k][..i] == rs[..i]; }
    }
  }

  lemma {:induction false} ChainOrder(rs: seq<Record>, dataSize: nat, i: nat, j: nat)
    requires Chained(rs) && AllInRange(rs, dataSize) && i < j < |rs|
    ensures rs[i].end <= rs[j].begin
    decreases j
  {
    assert rs[j].begin == Cursor(rs[..j]) == rs[j - 1].end;
    if i < j - 1 { ChainOrder(rs, dataSize, i, j - 1); }
  }

  lemma {:induction false} ChainCovers(rs: seq<Record>, dataSize: nat, o: nat)
    requires Chained(rs) && AllInRange(rs, dataSize) && o < Cursor(rs)
    ensures Held(rs, o)
    decreases |rs|
  {
    var k := |rs| - 1;
    if o < rs[k].begin {
      ChainPrefix(rs, k);
      ChainCovers(rs[..k], dataSize, o);
      var i :| 0 <= i < k && Holds(rs[..k][i], o);
      assert Holds(rs[i], o);
    } else {
      assert Holds(rs[k], o);
    }
  }

  lemma ChainIsPartition(rs: seq<Record>, dataSize: nat)
    requires Chained(rs) && AllInRange(rs, dataSize) && Cursor(rs) == dataSize
    ensures Partition(rs, dataSize)
  {
    forall o: nat | o < dataSize ensures Held(rs, o) { ChainCovers(rs, dataSize, o); }
    forall i, j | 0 <= i < j < |rs| ensures rs[i].end <= rs[j].begin { ChainOrder(rs, dataSize, i, j); }
  }

  // In a sorted partition no record can start before the cursor of the records swept so far.
  lemma NoOverlap(rs: seq<Record>, dataSize: nat, k: nat)
    requires Sorted(rs) && AllInRange(rs, dataSize) && Partition(rs, dataSize) && k < |rs| && Chained(rs[..k])
    ensures Cursor(rs[..k]) <= rs[k].begin
  {
    var b := rs[k].begin;
    if b < Cursor(rs[..k]) {
      ChainCovers(rs[..k], dataSize, b);
      var i :| 0 <= i < k && Holds(rs[..k][i], b);
      OverlapImpossible(rs, dataSize, i, k);
    }
  }

  lemma OverlapImpossible(rs: seq<Record>, dataSize: nat, i: nat, k: nat)
    requires Sorted(rs) && AllInRange(rs, dataSize) && Partition(rs, dataSize) && i < k < |rs|
    ensures !Holds(rs[i], rs[k].begin)
  {
    assert NotAfter(rs[i], rs[k]);
    assert !StrictlyInside(rs[k], rs[i]);
    assert !(Holds(rs[i], rs[k].begin) && Holds(rs[k], rs[k].begin));
  }

  // Nor can it leave a gap, since the bytes of the gap would be in no record.
  lemma NoGap(rs: seq<Record>, dataSize: nat, k: nat)
    requires Sorted(rs) && AllInRange(rs, dataSize) && Partition(rs, dataSize) && k <= |rs| && Chained(rs[..k])
    ensures Cursor(rs[..k]) >= if k < |rs| then rs[k].begin else dataSize
  {
    var c := Cursor(rs[..k]);
    if c < (if k < |rs| then rs[k].begin else dataSize) {
      assert Held(rs, c);
      var i :| 0 <= i < |rs| && Holds(rs[i], c);
      if i < k { SweptEnds(rs, dataSize, i, k); } else { LaterBegins(rs, k, i); }
      assert false;
    }
  }

  lemma LaterBegins(rs: seq<Record>, k: nat, i: nat)
    requires Sorted(rs) && k <= i < |rs|
    ensures rs[k].begin <= rs[i].begin
  {
    assert k < i ==> NotAfter(rs[k], rs[i]);
  }

  lemma SweptEnds(rs: seq<Record>, dataSize: nat, i: nat, k: nat)
    requires AllInRange(rs, dataSize) && i < k <= |rs| && Chained(rs[..k])
    ensures rs[i].end <= Cursor(rs[..k])
  {
    assert rs[..k][i] == rs[i];
    if i < k - 1 { ChainOrder(rs[..k], dataSize, i, k - 1); }
  }

  lemma {:induction false} PartitionIsChain(rs: seq<Record>, dataSize: nat, k: nat)
    requires Sorted(rs) && AllInRange(rs, dataSize) && Partition(rs, dataSize) && k <= |rs|
    ensures Chained(rs[..k])
  {
    if k == 0 {
      assert rs[..0] == [];
    } else {
      hide Partition, Sorted, Chained, Cursor, AllInRange;
      var j := k - 1;
      PartitionIsChain(rs, dataSize, j);
      NoOverlap(rs, dataSize, j);
      NoGap(rs, dataSize, j);
      ChainExtend(rs, j);
      assert rs[..j + 1] == rs[..k];
    }
  }

  // For sorted records the sweep succeeds exactly on partitions.
  lemma SweepDecides(rs: seq<Record>, dataSize: nat)
    requires Sorted(rs) && AllInRange(rs, dataSize)
    ensures Chained(rs) && Cursor(rs) == dataSize <==> Partition(rs, dataSize)
  {
    assert rs[..|rs|] == rs;
    if Chained(rs) && Cursor(rs) == dataSize { ChainIsPartition(rs, dataSize); }
    if Partition(rs, dataSize) {
      PartitionIsChain(rs, dataSize, |rs|);
      NoGap(rs, dataSize, |rs|);
    }
  }

  // ---------------------------------------------------------------- physical order

  function Pick(rs: seq<Record>, order: seq<nat>): (r: seq<Record>)
    requires forall k :: 0 <= k < |order| ==> order[k] < |rs|
    ensures |r| == |order| && forall k :: 0 <= k < |r| ==> r[k] == rs[order[k]]
  {
    seq(|order|, k requires 0 <= k < |order| => rs[order[k]])
  }

  // Being a partition does not depend on the order in which the records are listed.
  lemma PartitionIgnoresOrder(rs: seq<Record>, order: seq<nat>, dataSize: nat)
    requires Permutation(order, |rs|)
    ensures Partition(Pick(rs, order), dataSize) <==> Partition(rs, dataSize)
  {
    var ps := Pick(rs, order);
    if Partition(rs, dataSize) { OrderedPartition(rs, order, dataSize); }
    if Partition(ps, dataSize) { UnorderedPartition(rs, order, dataSize); }
  }

  lemma OrderedPartition(rs: seq<Record>, order: seq<nat>, dataSize: nat)
    requires Permutation(order, |rs|) && Partition(rs, dataSize)
    ensures Partition(Pick(rs, order), dataSize)
  {
    var ps := Pick(rs, order);
    forall o: nat | o < dataSize ensures Held(ps, o) {
      assert Held(rs, o);
      var i :| 0 <= i < |rs| && Holds(rs[i], o);
      PermutationHits(order, |rs|, i);
      var k :| 0 <= k < |rs| && order[k] == i;
      assert Holds(ps[k], o);
    }
    forall i, j, o: nat | 0 <= i < j < |ps| ensures !(Holds(ps[i], o) && Holds(ps[j], o)) {
      assert order[i] != order[j];
      assert ps[i] == rs[order[i]] && ps[j] == rs[order[j]];
      if order[i] < order[j] {
        assert !(Holds(rs[order[i]], o) && Holds(rs[order[j]], o));
      } else {
        assert !(Holds(rs[order[j]], o) && Holds(rs[order[i]], o));
      }
    }
  }

  lemma UnorderedPartition(rs: seq<Record>, order: seq<nat>, dataSize: nat)
    requires Permutation(order, |rs|) && Partition(Pick(rs, order), dataSize)
    ensures Partition(rs, dataSize)
  {
    var ps := Pick(rs, order);
    forall o: nat | o < dataSize ensures Held(rs, o) {
      assert Held(ps, o);
      var k :| 0 <= k < |ps| && Holds(ps[k], o);
      assert Holds(rs[order[k]], o);
    }
    forall i, j, o: nat | 0 <= i < j < |rs| ensures !(Holds(rs[i], o) && Holds(rs[j], o)) {
      var k, l := Place(order, i), Place(order, j);
      assert ps[k] == rs[i] && ps[l] == rs[j] && k != l;
      if k < l {
        assert !(Holds(ps[k], o) && Holds(ps[l], o));
      } else {
        assert !(Holds(ps[l], o) && Holds(ps[k], o));
      }
    }
    forall i, j | 0 <= i < |rs| && 0 <= j < |rs| ensures !StrictlyInside(rs[i], rs[j]) {
      assert !StrictlyInside(ps[Place(order, i)], ps[Place(order, j)]);
    }
  }

  ghost function Place(order: seq<nat>, i: nat): (k: nat)
    requires Permutation(order, |order|) && i < |order|
    ensures k < |order| && order[k] == i
  {
    Position(order, i)
  }

  // std::iota and std::sort on the record indices.
  method PhysicalOrder(rs: seq<Record>) returns (order: seq<nat>)
    ensures Permutation(order, |rs|) && Sorted(Pick(rs, order))
  {
    order := [];
    for n := 0 to |rs|
      invariant Permutation(order, n) && Sorted(Pick(rs, order))
    {
      var k := n;
      while k > 0 && !NotAfter(rs[order[k - 1]], rs[n])
        invariant 0 <= k <= n
        invariant forall i :: k <= i < n ==> NotAfter(rs[n], rs[order[i]])
      {
        k := k - 1;
      }
      InsertSorted(rs, order, n, k);
      order := order[..k] + [n] + order[k..];
    }
  }

  lemma InsertSorted(rs: seq<Record>, order: seq<nat>, n: nat, k: nat)
    requires n < |rs| && Permutation(order, n) && Sorted(Pick(rs, order)) && k <= n
    requires forall i :: k <= i < n ==> NotAfter(rs[n], rs[order[i]])
    requires k > 0 ==> NotAfter(rs[order[k - 1]], rs[n])
    ensures Permutation(order[..k] + [n] + order[k..], n + 1) && Sorted(Pick(rs, order[..k] + [n] + order[k..]))
  {
    var order' := order[..k] + [n] + order[k..];
    InsertedPermutation(order, n, k);
    var ps, ps' := Pick(rs, order), Pick(rs, order');
    InsertedAt(order, n, k);
    hide Permutation;
    forall i | 0 <= i < k ensures NotAfter(ps[i], rs[n]) {
      if i < k - 1 { assert NotAfter(ps[i], ps[k - 1]); }
    }
    InsertedOrder(ps, rs[n], k, ps');
  }

  lemma InsertedAt(order: seq<nat>, n: nat, k: nat)
    requires k <= |order|
    ensures var order' := order[..k] + [n] + order[k..];
      && (forall i :: 0 <= i < k ==> order'[i] == order[i]) && order'[k] == n
      && forall i :: k < i < |order'| ==> order'[i] == order[i - 1]
  {
  }

  lemma InsertedPermutation(order: seq<nat>, n: nat, k: nat)
    requires Permutation(order, n) && k <= n
    ensures Permutation(order[..k] + [n] + order[k..], n + 1)
  {
    var order' := order[..k] + [n] + order[k..];
    forall i | 0 <= i < |order'| ensures order'[i] == if i < k then order[i] else if i == k then n else order[i - 1] {}
  }

  lemma InsertedOrder(ps: seq<Record>, r: Record, k: nat, ps': seq<Record>)
    requires Sorted(ps) && k <= |ps| && |ps'| == |ps| + 1 && ps'[k] == r
    requires forall i :: 0 <= i < k ==> ps'[i] == ps[i] && NotAfter(ps[i], r)
    requires forall i :: k < i < |ps'| ==> ps'[i] == ps[i - 1]
    requires forall i :: k <= i < |ps| ==> NotAfter(r, ps[i])
    ensures Sorted(ps')
  {
    hide NotAfter;
    forall i, j | 0 <= i < j < |ps'| ensures NotAfter(ps'[i], ps'[j]) {
      if i != k && j != k {
        assert NotAfter(ps[if i < k then i else i - 1], ps[if j < k then j else j - 1]);
      } else if i == k {
        assert ps'[j] == ps[j - 1];
      }
    }
  }

  // ---------------------------------------------------------------- the constructor's checks

  datatype Outcome =
    | Accepted
    | OffsetOutOfRange(index: nat)
    | PayloadOverflow(index: nat)
    | PayloadMismatch(index: nat)
    | Overlap(index: nat)
    | Uncovered

  // The verdict on one record.
  method CheckRecord(r: Record, i: nat, dataSize: nat) returns (o: Outcome)
    ensures o.Accepted? <==> WellFormed(r, dataSize)
    ensures o.OffsetOutOfRange? <==> !InRange(r, dataSize)
    ensures o.PayloadOverflow? <==> InRange(r, dataSize) && PayloadOverflows(r)
    ensures !o.Overlap? && !o.Uncovered? && (!o.Accepted? ==> o.index == i)
  {
    if r.begin > r.end || r.end > dataSize {
      return OffsetOutOfRange(i);
    }
    var expected := ExpectedPayloadBytes(r);
    if expected.None? {
      return PayloadOverflow(i);
    }
    if r.end - r.begin != expected.value {
      return PayloadMismatch(i);
    }
    o := Accepted;
  }

  method Sweep(ps: seq<Record>, order: seq<nat>, dataSize: nat) returns (o: Outcome)
    requires |order| == |ps|
    ensures o.Accepted? <==> Chained(ps) && Cursor(ps) == dataSize
    ensures o.Accepted? || o.Overlap? || o.Uncovered?
  {
    var cursor := 0;
    var k := 0;
    while k < |ps|
      invariant 0 <= k <= |ps| && cursor == Cursor(ps[..k]) && Chained(ps[..k])
    {
      if ps[k].begin != cursor {
        assert !Chained(ps);
        return if ps[k].begin < cursor then Overlap(order[k]) else Uncovered;
      }
      ChainExtend(ps, k);
      cursor := ps[k].end;
      k := k + 1;
    }
    assert ps[..k] == ps;
    o := if cursor != dataSize then Uncovered else Accepted;
  }

  // A file is accepted exactly when its records have their shapes' sizes and partition the data.
  method Check(rs: seq<Record>, dataSize: nat) returns (o: Outcome)
    ensures o.Accepted? <==> (forall i :: 0 <= i < |rs| ==> WellFormed(rs[i], dataSize)) && Partition(rs, dataSize)
    ensures o.Overlap? || o.Uncovered? ==> (forall i :: 0 <= i < |rs| ==> WellFormed(rs[i], dataSize)) && !Partition(rs, dataSize)
    ensures o.OffsetOutOfRange? || o.PayloadOverflow? || o.PayloadMismatch? ==>
      o.index < |rs| && !WellFormed(rs[o.index], dataSize) && forall i :: 0 <= i < o.index ==> WellFormed(rs[i], dataSize)
  {
    hide WellFormed, Partition;
    for i := 0 to |rs|
      invariant forall j :: 0 <= j < i ==> WellFormed(rs[j], dataSize)
    {
      var verdict := CheckRecord(rs[i], i, dataSize);
      if !verdict.Accepted? {
        return verdict;
      }
    }
    var order := PhysicalOrder(rs);
    var ps := Pick(rs, order);
    PickInRange(rs, order, dataSize);
    SweepDecides(ps, dataSize);
    PartitionIgnoresOrder(rs, order, dataSize);
    o := Sweep(ps, order, dataSize);
  }

  lemma PickInRange(rs: seq<Record>, order: seq<nat>, dataSize: nat)
    requires Permutation(order, |rs|) && forall i :: 0 <= i < |rs| ==> WellFormed(rs[i], dataSize)
    ensures AllInRange(Pick(rs, order), dataSize)
  {
    hide PayloadOverflows, PayloadBytes;
  }
}
