// Element-wise binary operations: right-aligned broadcasting and the exact-alias rule.

module Binary {
  import opened SizeT
  import opened MixedRadix
  import opened TensorView
  import opened TiledLayout

  type OwnerId = nat

  datatype Operand = Operand(view: View, owner: OwnerId)

  datatype Snapshot = Snapshot(view: View, owner: OwnerId, logicalStrides: seq<nat>,
                               broadcastRows: bool, broadcastColumns: bool, broadcasts: bool)

  datatype Request = Request(lhs: Snapshot, rhs: Snapshot, out: Snapshot, shape: seq<nat>)

  function Dimensions(v: View): (d: seq<nat>)
    ensures |d| == |v.leading| + 2
    ensures d[|d| - 2] == v.rows && d[|d| - 1] == v.columns
    ensures forall i :: 0 <= i < |v.leading| ==> d[i] == v.leading[i]
  {
    v.leading + [v.rows, v.columns]
  }

  // ---------------------------------------------------------------- broadcast shape

  // Extent of a shape on axis i of a result of the given rank; missing axes count as one.
  function AxisExtent(dims: seq<nat>, rank: nat, i: nat): nat
    requires |dims| <= rank && i < rank
  {
    if i < rank - |dims| then 1 else dims[i - (rank - |dims|)]
  }

  function Max(a: nat, b: nat): nat {
    if a >= b then a else b
  }

  predicate AxisCompatible(a: nat, b: nat) {
    a == b || a == 1 || b == 1
  }

  ghost predicate Broadcastable(a: seq<nat>, b: seq<nat>) {
    forall i :: 0 <= i < Max(|a|, |b|) ==>
      AxisCompatible(AxisExtent(a, Max(|a|, |b|), i), AxisExtent(b, Max(|a|, |b|), i))
  }

  function BroadcastShape(a: seq<nat>, b: seq<nat>): (r: seq<nat>)
    ensures |r| == Max(|a|, |b|)
    ensures forall i :: 0 <= i < |r| ==> r[i] == Max(AxisExtent(a, |r|, i), AxisExtent(b, |r|, i))
  {
    var rank := Max(|a|, |b|);
    seq(rank, i requires 0 <= i < rank => Max(AxisExtent(a, rank, i), AxisExtent(b, rank, i)))
  }

  // A shape broadcasts into a result: each own axis is the result's or one.
  ghost predicate Fits(dims: seq<nat>, result: seq<nat>) {
    && |dims| <= |result|
    && forall i :: 0 <= i < |dims| ==> FitsAt(dims, result, i)
  }

  ghost predicate FitsAt(dims: seq<nat>, result: seq<nat>, i: nat)
    requires |dims| <= |result| && i < |dims|
  {
    dims[i] == 1 || dims[i] == result[i + (|result| - |dims|)]
  }

  lemma BroadcastShapeFits(a: seq<nat>, b: seq<nat>)
    requires Broadcastable(a, b) && Positive(a) && Positive(b)
    ensures Fits(a, BroadcastShape(a, b)) && Fits(b, BroadcastShape(a, b))
  {
    var r := BroadcastShape(a, b);
    forall i | 0 <= i < |a| ensures FitsAt(a, r, i) {
      var k := i + (|r| - |a|);
      assert AxisCompatible(AxisExtent(a, |r|, k), AxisExtent(b, |r|, k));
    }
    forall i | 0 <= i < |b| ensures FitsAt(b, r, i) {
      var k := i + (|r| - |b|);
      assert AxisCompatible(AxisExtent(a, |r|, k), AxisExtent(b, |r|, k));
    }
  }

  // Two shapes are compatible exactly when both fit some result of the larger rank, and the broadcast
  // shape is the least such result: each of its axes is one of the two operands'.
  lemma BroadcastIsLeast(a: seq<nat>, b: seq<nat>, r: seq<nat>)
    requires Positive(a) && Positive(b) && |r| == Max(|a|, |b|) && Fits(a, r) && Fits(b, r)
    ensures Broadcastable(a, b)
    ensures forall i :: 0 <= i < |r| ==> BroadcastShape(a, b)[i] == r[i] || BroadcastShape(a, b)[i] == 1
    ensures forall i :: 0 <= i < |r| ==> BroadcastShape(a, b)[i] in {AxisExtent(a, |r|, i), AxisExtent(b, |r|, i)}
  {
    forall i | 0 <= i < |r|
      ensures AxisCompatible(AxisExtent(a, |r|, i), AxisExtent(b, |r|, i))
      ensures BroadcastShape(a, b)[i] == r[i] || BroadcastShape(a, b)[i] == 1
    {
      if i >= |r| - |a| { assert FitsAt(a, r, i - (|r| - |a|)); }
      if i >= |r| - |b| { assert FitsAt(b, r, i - (|r| - |b|)); }
    }
  }

  // ---------------------------------------------------------------- what broadcasting selects

  // The operand coordinates that right-aligned broadcasting reads for result coordinates c.
  ghost function SourceCoordinates(v: View, c: seq<nat>): (r: seq<nat>)
    requires |v.leading| <= |c|
    ensures |r| == |v.leading|
    ensures forall i :: 0 <= i < |r| ==> r[i] == if v.leading[i] == 1 then 0 else c[i + (|c| - |v.leading|)]
  {
    seq(|v.leading|, i requires 0 <= i < |v.leading| => if v.leading[i] == 1 then 0 else c[i + (|c| - |v.leading|)])
  }

  // The operand slot for result position (c, row, column), by the definition of broadcasting.
  ghost function BroadcastSlot(v: View, c: seq<nat>, row: nat, column: nat): nat
    requires |v.leading| == |v.strides| && |v.leading| <= |c|
  {
    SlotOf(v.rows, v.columns, PlaneOf(v, SourceCoordinates(v, c)),
           if v.rows == 1 then 0 else row, if v.columns == 1 then 0 else column)
  }

  // The slot that the snapshot's precomputed strides and flags select.
  function SnapshotSlot(s: Snapshot, c: seq<nat>, row: nat, column: nat): nat
    requires |s.logicalStrides| == |c|
  {
    SlotOf(s.view.rows, s.view.columns, s.view.offset + Dot(c, s.logicalStrides),
           if s.broadcastRows then 0 else row, if s.broadcastColumns then 0 else column)
  }

  // The stride the snapshot stores for a result axis.
  function LogicalStride(v: View, result: seq<nat>, axis: nat): nat
    requires |v.leading| == |v.strides| && |v.leading| + 2 <= |result| && axis < |result| - 2
  {
    var shift := |result| - 2 - |v.leading|;
    if axis < shift then 0
    else if v.leading[axis - shift] == 1 && result[axis] != 1 then 0
    else v.strides[axis - shift]
  }

  ghost predicate SnapshotOf(s: Snapshot, o: Operand, result: seq<nat>)
    requires |o.view.leading| == |o.view.strides| && |o.view.leading| + 2 <= |result|
  {
    && s.view == o.view && s.owner == o.owner
    && |s.logicalStrides| == |result| - 2
    && (forall axis :: 0 <= axis < |result| - 2 ==> s.logicalStrides[axis] == LogicalStride(o.view, result, axis))
    && (s.broadcastRows <==> o.view.rows == 1 && result[|result| - 2] != 1)
    && (s.broadcastColumns <==> o.view.columns == 1 && result[|result| - 1] != 1)
    && (s.broadcasts <==> Dimensions(o.view) != result)
  }

  // snapshot_binary_view
  method SnapshotView(o: Operand, result: seq<nat>) returns (s: Snapshot)
    requires |o.view.leading| == |o.view.strides| && Fits(Dimensions(o.view), result)
    ensures SnapshotOf(s, o, result)
  {
    var dims := Dimensions(o.view);
    var rankOffset := |result| - |dims|;
    var resultLeading := |result| - 2;
    var strides := seq(resultLeading, _ => 0);
    var broadcasts := |dims| != |result|;
    for axis := 0 to resultLeading
      invariant |strides| == resultLeading
      invariant forall k :: 0 <= k < axis ==> strides[k] == LogicalStride(o.view, result, k)
      invariant forall k :: axis <= k < resultLeading ==> strides[k] == 0
      invariant broadcasts <==> |dims| != |result| || exists k :: 0 <= k < axis && dims[k] != result[k]
    {
      if axis < rankOffset {
        broadcasts := result[axis] != 1 || broadcasts;
        continue;
      }
      var sourceAxis := axis - rankOffset;
      assert FitsAt(dims, result, sourceAxis);
      if dims[sourceAxis] == 1 && result[axis] != 1 {
        broadcasts := true;
        continue;
      }
      strides := strides[axis := o.view.strides[sourceAxis]];
    }
    assert FitsAt(dims, result, |dims| - 2) && FitsAt(dims, result, |dims| - 1);
    var rows := dims[|dims| - 2] == 1 && result[|result| - 2] != 1;
    var columns := dims[|dims| - 1] == 1 && result[|result| - 1] != 1;
    broadcasts := broadcasts || rows || columns;
    assert broadcasts <==> dims != result by {
      if |dims| == |result| && !broadcasts {
        assert forall k :: 0 <= k < resultLeading ==> dims[k] == result[k];
      }
    }
    s := Snapshot(o.view, o.owner, strides, rows, columns, broadcasts);
  }

  // ---------------------------------------------------------------- strides select the broadcast plane

  lemma {:induction false} DotZeroPrefix(c: seq<nat>, s: seq<nat>, n: nat)
    requires |c| == |s| && n <= |c| && forall i :: 0 <= i < n ==> s[i] == 0
    ensures Dot(c, s) == Dot(c[n..], s[n..])
  {
    if n == 0 {
      assert c[0..] == c && s[0..] == s;
    } else {
      DotZeroPrefix(c[1..], s[1..], n - 1);
      assert c[1..][n - 1..] == c[n..] && s[1..][n - 1..] == s[n..];
    }
  }

  lemma {:induction false} DotTermwise(a: seq<nat>, s: seq<nat>, b: seq<nat>, t: seq<nat>)
    requires |a| == |s| == |b| == |t|
    requires forall i :: 0 <= i < |a| ==> a[i] * s[i] == b[i] * t[i]
    ensures Dot(a, s) == Dot(b, t)
  {
    if a != [] {
      forall i | 0 <= i < |a[1..]| ensures a[1..][i] * s[1..][i] == b[1..][i] * t[1..][i] {
        assert a[i + 1] * s[i + 1] == b[i + 1] * t[i + 1];
      }
      DotTermwise(a[1..], s[1..], b[1..], t[1..]);
      assert a[0] * s[0] == b[0] * t[0];
    }
  }

  lemma SnapshotPlane(s: Snapshot, o: Operand, result: seq<nat>, c: seq<nat>)
    requires |o.view.leading| == |o.view.strides| && Fits(Dimensions(o.view), result)
    requires SnapshotOf(s, o, result) && InBox(c, result[..|result| - 2])
    ensures s.view.offset + Dot(c, s.logicalStrides) == PlaneOf(o.view, SourceCoordinates(o.view, c))
  {
    hide Dot;
    var v := o.view;
    var shift := |c| - |v.leading|;
    DotZeroPrefix(c, s.logicalStrides, shift);
    var tailC, tailS := c[shift..], s.logicalStrides[shift..];
    forall i | 0 <= i < |v.leading| ensures tailC[i] * tailS[i] == SourceCoordinates(v, c)[i] * v.strides[i] {
      assert tailC[i] == c[i + shift] && tailS[i] == s.logicalStrides[i + shift];
      AxisTerm(s, o, result, c, i);
    }
    DotTermwise(tailC, tailS, SourceCoordinates(v, c), v.strides);
  }

  lemma AxisTerm(s: Snapshot, o: Operand, result: seq<nat>, c: seq<nat>, i: nat)
    requires |o.view.leading| == |o.view.strides| && Fits(Dimensions(o.view), result)
    requires SnapshotOf(s, o, result) && InBox(c, result[..|result| - 2]) && i < |o.view.leading|
    ensures c[i + (|c| - |o.view.leading|)] * s.logicalStrides[i + (|c| - |o.view.leading|)]
         == SourceCoordinates(o.view, c)[i] * o.view.strides[i]
  {
    var k := i + (|c| - |o.view.leading|);
    assert FitsAt(Dimensions(o.view), result, i);
    assert s.logicalStrides[k] == LogicalStride(o.view, result, k);
    assert c[k] < result[k];
    var x := SourceCoordinates(o.view, c)[i];
    assert o.view.leading[i] == 1 ==> x == 0 && (c[k] == 0 || s.logicalStrides[k] == 0);
    assert o.view.leading[i] != 1 ==> x == c[k] && s.logicalStrides[k] == o.view.strides[i];
    SameTerm(c[k], s.logicalStrides[k], x, o.view.strides[i]);
  }

  lemma SameTerm(c: nat, s: nat, x: nat, t: nat)
    requires (x == 0 && (c == 0 || s == 0)) || (x == c && s == t)
    ensures c * s == x * t
  {
  }

  // For every result position the snapshot selects the slot that broadcasting selects.
  lemma SnapshotSelectsBroadcast(s: Snapshot, o: Operand, result: seq<nat>, c: seq<nat>, row: nat, column: nat)
    requires |o.view.leading| == |o.view.strides| && Fits(Dimensions(o.view), result)
    requires SnapshotOf(s, o, result)
    requires InBox(c, result[..|result| - 2]) && row < result[|result| - 2] && column < result[|result| - 1]
    ensures SnapshotSlot(s, c, row, column) == BroadcastSlot(o.view, c, row, column)
  {
    hide SlotOf, Dot;
    SnapshotPlane(s, o, result, c);
    var n := |o.view.leading|;
    assert FitsAt(Dimensions(o.view), result, n) && FitsAt(Dimensions(o.view), result, n + 1);
  }

  // ---------------------------------------------------------------- the request

  predicate ExactAlias(input: Snapshot, output: Snapshot) {
    && !input.broadcasts
    && input.owner == output.owner
    && input.view.leading == output.view.leading && input.view.rows == output.view.rows
    && input.view.columns == output.view.columns && input.view.dataType == output.view.dataType
    && input.view.offset == output.view.offset && input.view.strides == output.view.strides
    && input.logicalStrides == output.logicalStrides
    && input.broadcastRows == output.broadcastRows && input.broadcastColumns == output.broadcastColumns
  }

  // An input is an exact alias of the output if and only if it is the same view of the same owner.
  lemma AliasIsSameOperand(l: Snapshot, o: Snapshot, input: Operand, out: Operand)
    requires |input.view.leading| == |input.view.strides| && |out.view.leading| == |out.view.strides|
    requires |input.view.leading| <= |out.view.leading|
    requires SnapshotOf(l, input, Dimensions(out.view)) && SnapshotOf(o, out, Dimensions(out.view))
    ensures ExactAlias(l, o) <==> input == out
  {
    if input == out { assert l.logicalStrides == o.logicalStrides; }
  }

  ghost predicate WellFormed(o: Operand) {
    |o.view.leading| == |o.view.strides| && Positive(o.view.leading) && o.view.rows > 0 && o.view.columns > 0
  }

  datatype Operation = Add | Mul | Sub | Div

  // The data types with arithmetic, and those of them that division is defined for.
  predicate NumericLeaf(t: DataType) {
    !t.BOOL? && !t.F8_E8M0?
  }

  predicate FloatingLeaf(t: DataType) {
    t.F4_E2M1? || t.F6_E2M3? || t.F6_E3M2? || t.F8_E4M3FN? || t.F8_E5M2? || t.F16? || t.BF16? || t.F32? || t.F64?
  }

  predicate Supported(op: Operation, t: DataType) {
    NumericLeaf(t) && (op.Div? ==> FloatingLeaf(t))
  }

  // An admitted request: one data type, broadcast result shape, snapshots, and no partial aliasing of the output.
  ghost predicate Admitted(r: Request, lhs: Operand, rhs: Operand, out: Operand) {
    && WellFormed(lhs) && WellFormed(rhs) && WellFormed(out)
    && lhs.view.dataType == rhs.view.dataType == out.view.dataType
    && Broadcastable(Dimensions(lhs.view), Dimensions(rhs.view))
    && r.shape == BroadcastShape(Dimensions(lhs.view), Dimensions(rhs.view)) == Dimensions(out.view)
    && SnapshotOf(r.lhs, lhs, r.shape) && SnapshotOf(r.rhs, rhs, r.shape) && SnapshotOf(r.out, out, r.shape)
    && (lhs.owner == out.owner ==> ExactAlias(r.lhs, r.out))
    && (rhs.owner == out.owner ==> ExactAlias(r.rhs, r.out))
  }

  // The result-shape loop; None stands for incompatible shapes.
  method ComputeShape(a: seq<nat>, b: seq<nat>) returns (r: Option<seq<nat>>)
    ensures r == if Broadcastable(a, b) then Some(BroadcastShape(a, b)) else None
  {
    var rank := Max(|a|, |b|);
    var result := seq(rank, _ => 1);
    for i := 0 to rank
      invariant |result| == rank
      invariant forall k :: 0 <= k < i ==> AxisCompatible(AxisExtent(a, rank, k), AxisExtent(b, rank, k))
      invariant forall k :: 0 <= k < i ==> result[k] == Max(AxisExtent(a, rank, k), AxisExtent(b, rank, k))
    {
      var x, y := AxisExtent(a, rank, i), AxisExtent(b, rank, i);
      if x != y && x != 1 && y != 1 {
        assert !AxisCompatible(x, y);
        return None;
      }
      result := result[i := Max(x, y)];
    }
    assert result == BroadcastShape(a, b);
    r := Some(result);
  }

  predicate AliasFree(input: Snapshot, output: Snapshot) {
    input.owner == output.owner ==> ExactAlias(input, output)
  }

  lemma NeedsTypesAndShape(lhs: Operand, rhs: Operand, out: Operand)
    requires !(lhs.view.dataType == rhs.view.dataType == out.view.dataType)
      || !Broadcastable(Dimensions(lhs.view), Dimensions(rhs.view))
      || BroadcastShape(Dimensions(lhs.view), Dimensions(rhs.view)) != Dimensions(out.view)
    ensures forall q :: !Admitted(q, lhs, rhs, out)
  {
    hide BroadcastShape, Dimensions, Broadcastable, SnapshotOf, WellFormed;
  }

  // With types and shape in order, the aliases decide.
  lemma AliasesDecide(r: Request, lhs: Operand, rhs: Operand, out: Operand)
    requires WellFormed(lhs) && WellFormed(rhs) && WellFormed(out)
    requires lhs.view.dataType == rhs.view.dataType == out.view.dataType
    requires Broadcastable(Dimensions(lhs.view), Dimensions(rhs.view))
    requires r.shape == BroadcastShape(Dimensions(lhs.view), Dimensions(rhs.view)) == Dimensions(out.view)
    requires SnapshotOf(r.lhs, lhs, r.shape) && SnapshotOf(r.rhs, rhs, r.shape) && SnapshotOf(r.out, out, r.shape)
    requires r.lhs.owner == lhs.owner && r.rhs.owner == rhs.owner && r.out.owner == out.owner
    ensures Admitted(r, lhs, rhs, out) <==> AliasFree(r.lhs, r.out) && AliasFree(r.rhs, r.out)
  {
    hide BroadcastShape, Dimensions, Broadcastable, SnapshotOf, ExactAlias, WellFormed;
  }

  // The data-type, broadcast and alias tests; None stands for a rejection.
  method Admit(lhs: Operand, rhs: Operand, out: Operand) returns (r: Option<Request>)
    requires WellFormed(lhs) && WellFormed(rhs) && WellFormed(out)
    ensures r.Some? ==> Admitted(r.value, lhs, rhs, out)
    ensures r.None? ==> forall q :: !Admitted(q, lhs, rhs, out)
  {
    hide Admitted, BroadcastShape, Dimensions, Fits, Broadcastable, SnapshotOf, ExactAlias;
    if lhs.view.dataType != rhs.view.dataType || lhs.view.dataType != out.view.dataType {
      NeedsTypesAndShape(lhs, rhs, out);
      return None;
    }
    var a, b := Dimensions(lhs.view), Dimensions(rhs.view);
    var shape := ComputeShape(a, b);
    if shape.None? || Dimensions(out.view) != shape.value {
      NeedsTypesAndShape(lhs, rhs, out);
      return None;
    }
    BroadcastShapeFits(a, b);
    OwnShapeFits(Dimensions(out.view));
    var l := SnapshotView(lhs, shape.value);
    var s := SnapshotView(rhs, shape.value);
    var o := SnapshotView(out, shape.value);
    OnlyCandidate(Request(l, s, o, shape.value), lhs, rhs, out);
    AliasesDecide(Request(l, s, o, shape.value), lhs, rhs, out);
    if (l.owner == o.owner && !ExactAlias(l, o)) || (s.owner == o.owner && !ExactAlias(s, o)) {
      return None;
    }
    r := Some(Request(l, s, o, shape.value));
  }

  datatype Verdict = Accepted(request: Request) | Rejected | Unsupported

  // validate_binary on views that passed their own admission; unsupported leaves are looked at last.
  method ValidateBinary(op: Operation, lhs: Operand, rhs: Operand, out: Operand) returns (r: Verdict)
    requires WellFormed(lhs) && WellFormed(rhs) && WellFormed(out)
    ensures r.Accepted? ==> Admitted(r.request, lhs, rhs, out) && Supported(op, out.view.dataType)
    ensures r.Rejected? ==> forall q :: !Admitted(q, lhs, rhs, out)
    ensures r.Unsupported? ==> !Supported(op, out.view.dataType) && exists q :: Admitted(q, lhs, rhs, out)
  {
    var request := Admit(lhs, rhs, out);
    assert request.Some? ==> lhs.view.dataType == out.view.dataType;
    hide Admitted;
    if request.None? {
      return Rejected;
    }
    if !NumericLeaf(lhs.view.dataType) || (op.Div? && !FloatingLeaf(lhs.view.dataType)) {
      return Unsupported;
    }
    r := Accepted(request.value);
  }

  // A request is determined by its operands, so one alias violation rules out every request.
  lemma OnlyCandidate(r: Request, lhs: Operand, rhs: Operand, out: Operand)
    requires WellFormed(lhs) && WellFormed(rhs) && WellFormed(out)
    requires Broadcastable(Dimensions(lhs.view), Dimensions(rhs.view))
    requires r.shape == BroadcastShape(Dimensions(lhs.view), Dimensions(rhs.view)) == Dimensions(out.view)
    requires SnapshotOf(r.lhs, lhs, r.shape) && SnapshotOf(r.rhs, rhs, r.shape) && SnapshotOf(r.out, out, r.shape)
    ensures r.lhs.owner == lhs.owner && r.rhs.owner == rhs.owner && r.out.owner == out.owner
    ensures forall q :: Admitted(q, lhs, rhs, out) ==> q == r
  {
    forall q | Admitted(q, lhs, rhs, out) ensures q == r {
      hide BroadcastShape, Broadcastable, SnapshotOf;
      SnapshotsUnique(q, r, lhs, rhs, out);
    }
  }

  lemma SnapshotsUnique(q: Request, r: Request, lhs: Operand, rhs: Operand, out: Operand)
    requires WellFormed(lhs) && WellFormed(rhs) && WellFormed(out)
    requires |Dimensions(lhs.view)| <= |r.shape| && |Dimensions(rhs.view)| <= |r.shape| && |Dimensions(out.view)| <= |r.shape|
    requires q.shape == r.shape
    requires SnapshotOf(q.lhs, lhs, q.shape) && SnapshotOf(q.rhs, rhs, q.shape) && SnapshotOf(q.out, out, q.shape)
    requires SnapshotOf(r.lhs, lhs, q.shape) && SnapshotOf(r.rhs, rhs, q.shape) && SnapshotOf(r.out, out, q.shape)
    ensures q == r
  {
    SnapshotUnique(q.lhs, r.lhs, lhs, q.shape);
    SnapshotUnique(q.rhs, r.rhs, rhs, q.shape);
    SnapshotUnique(q.out, r.out, out, q.shape);
  }

  lemma SnapshotUnique(p: Snapshot, q: Snapshot, o: Operand, result: seq<nat>)
    requires |o.view.leading| == |o.view.strides| && |o.view.leading| + 2 <= |result|
    requires SnapshotOf(p, o, result) && SnapshotOf(q, o, result)
    ensures p == q
  {
    assert p.logicalStrides == q.logicalStrides;
  }

  // ---------------------------------------------------------------- in-place evaluation

  datatype Position = Position(c: seq<nat>, row: nat, column: nat)

  ghost predicate InShape(p: Position, shape: seq<nat>) {
    |shape| >= 2 && InBox(p.c, shape[..|shape| - 2]) && p.row < shape[|shape| - 2] && p.column < shape[|shape| - 1]
  }

  // The slot of an operand at a position of the right rank.
  ghost function SlotAt(s: Snapshot, p: Position): nat {
    if |s.logicalStrides| == |p.c| then SnapshotSlot(s, p.c, p.row, p.column) else 0
  }

  // Storage of all owners: owner and slot to element.
  type Storage<T> = (OwnerId, nat) -> T

  ghost function EvaluateAt<T>(m: Storage<T>, r: Request, f: (T, T) -> T, p: Position): Storage<T>
  {
    var value := f(m(r.lhs.owner, SlotAt(r.lhs, p)), m(r.rhs.owner, SlotAt(r.rhs, p)));
    var target := SlotAt(r.out, p);
    (o: OwnerId, s: nat) => if o == r.out.owner && s == target then value else m(o, s)
  }

  // Element-wise evaluation in the given order, each element reading the storage left by the earlier ones.
  ghost function EvaluateAll<T>(m: Storage<T>, r: Request, f: (T, T) -> T, ps: seq<Position>): Storage<T>
    decreases |ps|
  {
    if ps == [] then m
    else EvaluateAt(EvaluateAll(m, r, f, ps[..|ps| - 1]), r, f, ps[|ps| - 1])
  }

  lemma OutputSlotIsOwn(r: Request, lhs: Operand, rhs: Operand, out: Operand, p: Position)
    requires Admitted(r, lhs, rhs, out) && InShape(p, r.shape)
    ensures InBox(p.c, out.view.leading) && p.row < out.view.rows && p.column < out.view.columns
    ensures |p.c| == |out.view.strides|
    ensures SlotAt(r.out, p) == SlotOf(out.view.rows, out.view.columns, PlaneOf(out.view, p.c), p.row, p.column)
  {
    var d := Dimensions(out.view);
    assert d[..|d| - 2] == out.view.leading;
    OwnShapeFits(d);
    hide SlotOf, PlaneOf, Dot, BroadcastSlot, SnapshotOf, SourceCoordinates, Dimensions, Fits;
    SnapshotSelectsBroadcast(r.out, out, d, p.c, p.row, p.column);
    SnapshotLength(r.out, out, d);
    OwnSlot(out.view, p);
  }

  lemma SnapshotLength(s: Snapshot, o: Operand, result: seq<nat>)
    requires |o.view.leading| == |o.view.strides| && |o.view.leading| + 2 <= |result| && SnapshotOf(s, o, result)
    ensures |s.logicalStrides| == |result| - 2
  {
  }

  // A view broadcast to its own shape reads its own slots.
  lemma OwnSlot(v: View, p: Position)
    requires |v.leading| == |v.strides| && InBox(p.c, v.leading) && p.row < v.rows && p.column < v.columns
    ensures BroadcastSlot(v, p.c, p.row, p.column) == SlotOf(v.rows, v.columns, PlaneOf(v, p.c), p.row, p.column)
  {
    hide SlotOf, PlaneOf;
    assert SourceCoordinates(v, p.c) == p.c;
  }

  lemma OutputSlotsDistinct(r: Request, lhs: Operand, rhs: Operand, out: Operand, p: Position, q: Position, planes: nat)
    requires Admitted(r, lhs, rhs, out) && Sound(out.view, planes)
    requires InShape(p, r.shape) && InShape(q, r.shape)
    ensures SlotAt(r.out, p) == SlotAt(r.out, q) ==> p == q
  {
    OutputSlotIsOwn(r, lhs, rhs, out, p);
    OutputSlotIsOwn(r, lhs, rhs, out, q);
    hide SlotOf, Dot, SlotAt;
    var v := out.view;
    if SlotAt(r.out, p) == SlotAt(r.out, q) {
      SlotInjective(v.rows, v.columns, PlaneOf(v, p.c), p.row, p.column, PlaneOf(v, q.c), q.row, q.column);
    }
  }

  lemma OwnShapeFits(d: seq<nat>)
    ensures Fits(d, d)
  {
    forall i | 0 <= i < |d| ensures FitsAt(d, d, i) {}
  }

  // An input on the output's owner reads, for every position, exactly the slot that position writes.
  lemma AliasReadsOwnSlot(r: Request, lhs: Operand, rhs: Operand, out: Operand, p: Position)
    requires Admitted(r, lhs, rhs, out) && InShape(p, r.shape)
    ensures r.lhs.owner == r.out.owner ==> SlotAt(r.lhs, p) == SlotAt(r.out, p)
    ensures r.rhs.owner == r.out.owner ==> SlotAt(r.rhs, p) == SlotAt(r.out, p)
  {
    hide SlotOf, Dot;
  }

  // The value position p gets when all inputs are read first.
  ghost function ValueAt<T>(m: Storage<T>, r: Request, f: (T, T) -> T, p: Position): T
  {
    f(m(r.lhs.owner, SlotAt(r.lhs, p)), m(r.rhs.owner, SlotAt(r.rhs, p)))
  }

  // Position p is not written by any of ps.
  ghost predicate Untouched(r: Request, ps: seq<Position>, o: OwnerId, s: nat)
  {
    o != r.out.owner || forall i :: 0 <= i < |ps| ==> s != SlotAt(r.out, ps[i])
  }

  // Every position of ps has received the value computed from the original inputs, and nothing else changed.
  ghost predicate Simultaneous<T(!new)>(m: Storage<T>, r: Request, f: (T, T) -> T, ps: seq<Position>, after: Storage<T>) {
    && (forall i :: 0 <= i < |ps| ==> after(r.out.owner, SlotAt(r.out, ps[i])) == ValueAt(m, r, f, ps[i]))
    && (forall o, s: nat :: Untouched(r, ps, o, s) ==> after(o, s) == m(o, s))
  }

  // Evaluating distinct positions one after the other, in any order, is evaluating them all at once.
  lemma {:induction false} InPlaceIsSimultaneous<T(!new)>(m: Storage<T>, r: Request, f: (T, T) -> T, ps: seq<Position>,
                                                   lhs: Operand, rhs: Operand, out: Operand, planes: nat)
    requires Admitted(r, lhs, rhs, out) && Sound(out.view, planes)
    requires forall i :: 0 <= i < |ps| ==> InShape(ps[i], r.shape)
    requires forall i, j :: 0 <= i < j < |ps| ==> ps[i] != ps[j]
    ensures Simultaneous(m, r, f, ps, EvaluateAll(m, r, f, ps))
    decreases |ps|
  {
    hide Admitted, Sound, InShape, SlotAt, Simultaneous;
    if ps == [] {
      NothingEvaluated(m, r, f);
    } else {
      var rest, p := ps[..|ps| - 1], ps[|ps| - 1];
      InPlaceIsSimultaneous(m, r, f, rest, lhs, rhs, out, planes);
      AliasReadsOwnSlot(r, lhs, rhs, out, p);
      EarlierSlotsDiffer(r, rest, p, lhs, rhs, out, planes);
      assert ps == rest + [p];
      LastStep(m, r, f, rest, p, EvaluateAll(m, r, f, rest));
    }
  }

  lemma NothingEvaluated<T(!new)>(m: Storage<T>, r: Request, f: (T, T) -> T)
    ensures Simultaneous(m, r, f, [], m)
  {
    hide SlotAt;
  }

  lemma EarlierSlotsDiffer(r: Request, rest: seq<Position>, p: Position, lhs: Operand, rhs: Operand, out: Operand, planes: nat)
    requires Admitted(r, lhs, rhs, out) && Sound(out.view, planes) && InShape(p, r.shape)
    requires forall i :: 0 <= i < |rest| ==> InShape(rest[i], r.shape) && rest[i] != p
    ensures forall i :: 0 <= i < |rest| ==> SlotAt(r.out, rest[i]) != SlotAt(r.out, p)
  {
    hide *;
    forall i | 0 <= i < |rest| ensures SlotAt(r.out, rest[i]) != SlotAt(r.out, p) {
      OutputSlotsDistinct(r, lhs, rhs, out, rest[i], p, planes);
    }
  }

  // One more element, whose slot no earlier one wrote.
  lemma LastStep<T(!new)>(m: Storage<T>, r: Request, f: (T, T) -> T, rest: seq<Position>, p: Position, before: Storage<T>)
    requires r.lhs.owner == r.out.owner ==> SlotAt(r.lhs, p) == SlotAt(r.out, p)
    requires r.rhs.owner == r.out.owner ==> SlotAt(r.rhs, p) == SlotAt(r.out, p)
    requires forall i :: 0 <= i < |rest| ==> SlotAt(r.out, rest[i]) != SlotAt(r.out, p)
    requires Simultaneous(m, r, f, rest, before)
    ensures Simultaneous(m, r, f, rest + [p], EvaluateAt(before, r, f, p))
  {
    hide SlotAt;
    var ps := rest + [p];
    var after := EvaluateAt(before, r, f, p);
    assert Untouched(r, rest, r.lhs.owner, SlotAt(r.lhs, p));
    assert Untouched(r, rest, r.rhs.owner, SlotAt(r.rhs, p));
    forall i | 0 <= i < |ps| ensures after(r.out.owner, SlotAt(r.out, ps[i])) == ValueAt(m, r, f, ps[i]) {
      if i < |rest| { assert SlotAt(r.out, rest[i]) != SlotAt(r.out, p); }
    }
    forall o, s: nat | Untouched(r, ps, o, s) ensures after(o, s) == m(o, s) {
      assert Untouched(r, rest, o, s) by {
        forall i | 0 <= i < |rest| ensures o != r.out.owner || s != SlotAt(r.out, rest[i]) { assert ps[i] == rest[i]; }
      }
      if o == r.out.owner { assert s != SlotAt(r.out, ps[|rest|]); }
    }
  }
}
