// Row-major numbering of a box of coordinates, and sums of coordinate-times-stride terms.

module MixedRadix {

  function Product(dims: seq<nat>): nat {
    if dims == [] then 1 else dims[0] * Product(dims[1..])
  }

  ghost predicate Positive(dims: seq<nat>) {
    forall i :: 0 <= i < |dims| ==> dims[i] > 0
  }

  predicate InBox(c: seq<nat>, dims: seq<nat>) {
    |c| == |dims| && forall i :: 0 <= i < |c| ==> c[i] < dims[i]
  }

  function Dot(c: seq<nat>, strides: seq<nat>): nat
    requires |c| == |strides|
  {
    if c == [] then 0 else c[0] * strides[0] + Dot(c[1..], strides[1..])
  }

  // Position of c in the row-major enumeration of the box.
  function RowIndex(c: seq<nat>, dims: seq<nat>): nat
    requires |c| == |dims|
  {
    if c == [] then 0 else c[0] * Product(dims[1..]) + RowIndex(c[1..], dims[1..])
  }

  // The k-th coordinate of the row-major enumeration.
  ghost function Unrank(k: nat, dims: seq<nat>): (c: seq<nat>)
    requires Positive(dims)
    ensures |c| == |dims|
  {
    if dims == [] then []
    else
      ProductPositive(dims[1..]);
      [k / Product(dims[1..])] + Unrank(k % Product(dims[1..]), dims[1..])
  }

  function DenseStrides(dims: seq<nat>): (s: seq<nat>)
    ensures |s| == |dims|
  {
    if dims == [] then [] else [Product(dims[1..])] + DenseStrides(dims[1..])
  }

  lemma {:induction false} ProductPositive(dims: seq<nat>)
    requires Positive(dims)
    ensures Product(dims) > 0
  {
    if dims != [] {
      ProductPositive(dims[1..]);
      MulPositive(dims[0], Product(dims[1..]));
    }
  }

  lemma MulPositive(a: nat, b: nat)
    requires a > 0 && b > 0
    ensures a * b > 0 && a * b >= a && a * b >= b
  {
  }

  lemma MulMonotone(a: nat, b: nat, c: nat)
    requires a <= b
    ensures a * c <= b * c && c * a <= c * b
  {
  }

  lemma ScaleSum(first: nat, c: nat, step: nat, stride: nat)
    ensures (first + c * step) * stride == first * stride + c * (stride * step)
  {
    assert (c * step) * stride == c * (stride * step);
  }

  // a full quotient block above a remainder stays below the next block
  lemma BlockBound(q: nat, n: nat, p: nat, r: nat)
    requires q < n && r < p
    ensures q * p + r < n * p
  {
    MulMonotone(q + 1, n, p);
    assert (q + 1) * p == q * p + p;
  }

  lemma BlockUnique(q1: nat, q2: nat, p: nat, r1: nat, r2: nat)
    requires r1 < p && r2 < p && q1 * p + r1 == q2 * p + r2
    ensures q1 == q2 && r1 == r2
  {
    if q1 < q2 { BlockBound(q1, q2, p, r1); }
    if q2 < q1 { BlockBound(q2, q1, p, r2); }
  }

  lemma {:induction false} DotDense(c: seq<nat>, dims: seq<nat>)
    requires |c| == |dims|
    ensures Dot(c, DenseStrides(dims)) == RowIndex(c, dims)
  {
    if c != [] { DotDense(c[1..], dims[1..]); }
  }

  lemma {:induction false} RowIndexBound(c: seq<nat>, dims: seq<nat>)
    requires InBox(c, dims)
    ensures RowIndex(c, dims) < Product(dims)
  {
    if c != [] {
      RowIndexBound(c[1..], dims[1..]);
      BlockBound(c[0], dims[0], Product(dims[1..]), RowIndex(c[1..], dims[1..]));
    }
  }

  lemma {:induction false} RowIndexInjective(a: seq<nat>, b: seq<nat>, dims: seq<nat>)
    requires InBox(a, dims) && InBox(b, dims) && RowIndex(a, dims) == RowIndex(b, dims)
    ensures a == b
  {
    if a != [] {
      RowIndexBound(a[1..], dims[1..]);
      RowIndexBound(b[1..], dims[1..]);
      BlockUnique(a[0], b[0], Product(dims[1..]), RowIndex(a[1..], dims[1..]), RowIndex(b[1..], dims[1..]));
      RowIndexInjective(a[1..], b[1..], dims[1..]);
      assert a == [a[0]] + a[1..] && b == [b[0]] + b[1..];
    }
  }

  // Row-major order is lexicographic: the first differing axis decides.
  lemma {:induction false} RowIndexLexicographic(a: seq<nat>, b: seq<nat>, dims: seq<nat>, k: nat)
    requires InBox(a, dims) && InBox(b, dims) && k < |dims| && a[..k] == b[..k] && a[k] < b[k]
    ensures RowIndex(a, dims) < RowIndex(b, dims)
    decreases |dims|
  {
    if k == 0 {
      RowIndexBound(a[1..], dims[1..]);
      MulMonotone(a[0] + 1, b[0], Product(dims[1..]));
      assert (a[0] + 1) * Product(dims[1..]) == a[0] * Product(dims[1..]) + Product(dims[1..]);
    } else {
      assert a[..k][0] == b[..k][0] && a[1..][..k - 1] == a[..k][1..] && b[1..][..k - 1] == b[..k][1..];
      RowIndexLexicographic(a[1..], b[1..], dims[1..], k - 1);
    }
  }

  // Unrank inverts RowIndex.
  lemma {:induction false} UnrankInBox(k: nat, dims: seq<nat>)
    requires Positive(dims) && k < Product(dims)
    ensures InBox(Unrank(k, dims), dims)
    ensures RowIndex(Unrank(k, dims), dims) == k
  {
    if dims != [] {
      ProductPositive(dims[1..]);
      var p := Product(dims[1..]);
      DivMod(k, p);
      if k / p >= dims[0] { MulMonotone(dims[0], k / p, p); }
      UnrankInBox(k % p, dims[1..]);
      var c := Unrank(k, dims);
      assert c[1..] == Unrank(k % p, dims[1..]);
    }
  }

  lemma DivMod(k: nat, p: nat)
    requires p > 0
    ensures k == (k / p) * p + k % p && k % p < p
  {
  }

  // ---------------------------------------------------------------- editing one axis

  lemma {:induction false} DotUpdate(c: seq<nat>, s: seq<nat>, d: nat, x: nat)
    requires |c| == |s| && d < |c|
    ensures Dot(c[d := x], s) == Dot(c[d := 0], s) + x * s[d]
  {
    if d == 0 {
      assert c[0 := x][1..] == c[1..] == c[0 := 0][1..];
    } else {
      DotUpdate(c[1..], s[1..], d - 1, x);
      assert c[d := x][1..] == c[1..][d - 1 := x];
      assert c[d := 0][1..] == c[1..][d - 1 := 0];
    }
  }

  lemma {:induction false} DotUpdateStride(c: seq<nat>, s: seq<nat>, d: nat, x: nat)
    requires |c| == |s| && d < |c| && c[d] == 0
    ensures Dot(c, s[d := x]) == Dot(c, s)
  {
    if d == 0 {
      assert s[0 := x][1..] == s[1..];
    } else {
      DotUpdateStride(c[1..], s[1..], d - 1, x);
      assert s[d := x][1..] == s[1..][d - 1 := x];
    }
  }

  ghost function Insert(c: seq<nat>, d: nat, x: nat): (r: seq<nat>)
    requires d <= |c|
    ensures |r| == |c| + 1
  {
    c[..d] + [x] + c[d..]
  }

  function Remove(c: seq<nat>, d: nat): (r: seq<nat>)
    requires d < |c|
    ensures |r| == |c| - 1
    ensures forall i :: 0 <= i < |r| ==> r[i] == c[if i < d then i else i + 1]
  {
    c[..d] + c[d + 1..]
  }

  lemma {:induction false} DotInsert(c: seq<nat>, s: seq<nat>, d: nat, x: nat)
    requires d < |s| && |c| == |s| - 1
    ensures Dot(Insert(c, d, x), s) == Dot(c, Remove(s, d)) + x * s[d]
  {
    if d == 0 {
      assert Insert(c, 0, x)[1..] == c && Remove(s, 0) == s[1..];
    } else {
      DotInsert(c[1..], s[1..], d - 1, x);
      assert Insert(c, d, x)[1..] == Insert(c[1..], d - 1, x);
      assert Remove(s, d)[1..] == Remove(s[1..], d - 1);
    }
  }

  // ---------------------------------------------------------------- reordering axes

  ghost predicate Permutation(order: seq<nat>, n: nat) {
    && |order| == n
    && (forall i :: 0 <= i < n ==> order[i] < n)
    && (forall i, j :: 0 <= i < j < n ==> order[i] != order[j])
  }

  function Gather(s: seq<nat>, order: seq<nat>): (r: seq<nat>)
    requires forall i :: 0 <= i < |order| ==> order[i] < |s|
    ensures |r| == |order|
    ensures forall i :: 0 <= i < |r| ==> r[i] == s[order[i]]
  {
    seq(|order|, i requires 0 <= i < |order| => s[order[i]])
  }

  // A permutation hits every index (pigeonhole).
  lemma PermutationHits(order: seq<nat>, n: nat, j: nat)
    requires Permutation(order, n) && j < n
    ensures exists i :: 0 <= i < n && order[i] == j
  {
    if j !in order {
      Distinct(order, n);
      SubsetSize(Firsts(order, n), Below(n) - {j});
    }
  }

  // Undo a Gather.
  ghost function Scatter(c: seq<nat>, order: seq<nat>): (r: seq<nat>)
    requires Permutation(order, |c|)
    ensures |r| == |c|
    ensures forall i :: 0 <= i < |c| ==> r[order[i]] == c[i]
    ensures Gather(r, order) == c
  {
    seq(|c|, j requires 0 <= j < |c| => c[Position(order, j)])
  }

  ghost function Position(order: seq<nat>, j: nat): (i: nat)
    requires Permutation(order, |order|) && j < |order|
    ensures i < |order| && order[i] == j
  {
    PermutationHits(order, |order|, j);
    var i :| 0 <= i < |order| && order[i] == j;
    i
  }

  ghost function Below(n: nat): (r: set<nat>)
    ensures forall x :: x in r <==> 0 <= x < n
    ensures |r| == n
  {
    if n == 0 then {} else Below(n - 1) + {n - 1}
  }

  ghost function Firsts(s: seq<nat>, n: nat): (r: set<nat>)
    requires n <= |s|
    ensures forall x :: x in r <==> exists i :: 0 <= i < n && s[i] == x
  {
    if n == 0 then {} else Firsts(s, n - 1) + {s[n - 1]}
  }

  lemma {:induction false} Distinct(s: seq<nat>, n: nat)
    requires n <= |s| && forall i, j :: 0 <= i < j < n ==> s[i] != s[j]
    ensures |Firsts(s, n)| == n
  {
    if n > 0 { Distinct(s, n - 1); }
  }

  lemma {:induction false} SubsetSize<T>(a: set<T>, b: set<T>)
    requires a <= b
    ensures |a| <= |b|
  {
    if a != {} {
      var x :| x in a;
      SubsetSize(a - {x}, b - {x});
    }
  }

  // Sum of term(i) over a list of indices, with term given as a sequence.
  ghost function SumOver(idx: seq<nat>, term: seq<nat>): nat
    requires forall i :: 0 <= i < |idx| ==> idx[i] < |term|
  {
    if idx == [] then 0 else term[idx[0]] + SumOver(idx[1..], term)
  }

  lemma {:induction false} SumOverExtract(idx: seq<nat>, term: seq<nat>, k: nat)
    requires k < |idx| && forall i :: 0 <= i < |idx| ==> idx[i] < |term|
    ensures SumOver(idx, term) == term[idx[k]] + SumOver(Remove(idx, k), term)
  {
    if k == 0 {
      assert Remove(idx, 0) == idx[1..];
    } else {
      SumOverExtract(idx[1..], term, k - 1);
      assert Remove(idx, k)[1..] == Remove(idx[1..], k - 1);
    }
  }

  // The sum depends only on which indices are listed, not on their order.
  lemma {:induction false} SumOverReorder(a: seq<nat>, b: seq<nat>, term: seq<nat>)
    requires forall i :: 0 <= i < |a| ==> a[i] < |term|
    requires forall i :: 0 <= i < |b| ==> b[i] < |term|
    requires |a| == |b|
    requires forall i, j :: 0 <= i < j < |a| ==> a[i] != a[j]
    requires forall i, j :: 0 <= i < j < |b| ==> b[i] != b[j]
    requires forall i :: 0 <= i < |a| ==> a[i] in b
    ensures SumOver(a, term) == SumOver(b, term)
  {
    if a != [] {
      var k :| 0 <= k < |b| && b[k] == a[0];
      SumOverExtract(b, term, k);
      var b' := Remove(b, k);
      forall i | 0 <= i < |a[1..]| ensures a[1..][i] in b' {
        assert a[i + 1] in b && a[i + 1] != a[0];
        var m :| 0 <= m < |b| && b[m] == a[i + 1];
        assert b'[if m < k then m else m - 1] == a[i + 1];
      }
      SumOverReorder(a[1..], b', term);
    }
  }

  ghost function Terms(c: seq<nat>, s: seq<nat>): (t: seq<nat>)
    requires |c| == |s|
    ensures |t| == |c|
    ensures forall i :: 0 <= i < |t| ==> t[i] == c[i] * s[i]
  {
    seq(|c|, i requires 0 <= i < |c| => c[i] * s[i])
  }

  lemma {:induction false} DotIsSum(c: seq<nat>, s: seq<nat>, idx: seq<nat>, whole: seq<nat>, strides: seq<nat>)
    requires |c| == |s| == |idx| && |whole| == |strides|
    requires forall i :: 0 <= i < |idx| ==> idx[i] < |whole| && c[i] == whole[idx[i]] && s[i] == strides[idx[i]]
    ensures Dot(c, s) == SumOver(idx, Terms(whole, strides))
  {
    if c != [] { DotIsSum(c[1..], s[1..], idx[1..], whole, strides); }
  }

  // Reordering coordinates and strides alike leaves the sum unchanged.
  lemma DotPermuted(c: seq<nat>, s: seq<nat>, order: seq<nat>)
    requires |c| == |s| && Permutation(order, |c|)
    ensures Dot(Gather(c, order), Gather(s, order)) == Dot(c, s)
  {
    var all := seq(|c|, i requires 0 <= i < |c| => i);
    DotIsSum(Gather(c, order), Gather(s, order), order, c, s);
    DotIsSum(c, s, all, c, s);
    forall i | 0 <= i < |order| ensures order[i] in all { assert all[order[i]] == order[i]; }
    SumOverReorder(order, all, Terms(c, s));
  }

  // ---------------------------------------------------------------- counting

  // An injective numbering of n things below p needs n <= p.
  lemma InjectionBound(image: seq<nat>, p: nat)
    requires forall i :: 0 <= i < |image| ==> image[i] < p
    requires forall i, j :: 0 <= i < j < |image| ==> image[i] != image[j]
    ensures |image| <= p
  {
    Distinct(image, |image|);
    SubsetSize(Firsts(image, |image|), Below(p));
  }
}
