// Strided plane maps of tensor views under slice, select, permute and reshape.

module TensorView {
  import opened SizeT
  import opened MixedRadix

  datatype DataType =
    | BOOL | I2 | U2 | I4 | U4 | I8 | U8 | I16 | U16 | I32 | U32 | I64 | U64
    | F4_E2M1 | F6_E2M3 | F6_E3M2 | F8_E4M3FN | F8_E5M2 | F8_E8M0 | F16 | BF16 | F32 | F64

  const MAX_RANK: nat := 8

  // The two matrix axes are kept apart from the leading, plane-selecting axes.
  datatype View = View(leading: seq<nat>, rows: nat, columns: nat, dataType: DataType,
                       offset: nat, strides: seq<nat>)

  datatype Error = OutOfRange | InvalidArgument | Overflow

  datatype Result<+T> = Ok(value: T) | Err(error: Error)

  ghost predicate Shaped(v: View) {
    && |v.strides| == |v.leading| && |v.leading| + 2 <= MAX_RANK
    && Positive(v.leading) && Positive(v.strides) && v.rows > 0 && v.columns > 0
  }

  // The owner plane that leading coordinates c select.
  function PlaneOf(v: View, c: seq<nat>): nat
    requires |c| == |v.strides|
  {
    v.offset + Dot(c, v.strides)
  }

  function Tops(dims: seq<nat>): (r: seq<nat>)
    ensures |r| == |dims|
    ensures forall i :: 0 <= i < |r| ==> r[i] == if dims[i] == 0 then 0 else dims[i] - 1
  {
    seq(|dims|, i requires 0 <= i < |dims| => if dims[i] == 0 then 0 else dims[i] - 1)
  }

  function MaxPlane(v: View): nat
    requires |v.leading| == |v.strides|
  {
    PlaneOf(v, Tops(v.leading))
  }

  ghost predicate Injective(v: View)
    requires |v.leading| == |v.strides|
  {
    forall a, b :: InBox(a, v.leading) && InBox(b, v.leading) && PlaneOf(v, a) == PlaneOf(v, b) ==> a == b
  }

  // Distinct coordinates select distinct planes, all among the owner's.
  ghost predicate Sound(v: View, planes: nat) {
    Shaped(v) && MaxPlane(v) < planes && Injective(v)
  }

  // The owner's full view.
  function FullView(leading: seq<nat>, rows: nat, columns: nat, dataType: DataType): View {
    View(leading, rows, columns, dataType, 0, DenseStrides(leading))
  }

  // ---------------------------------------------------------------- transforms

  function Slice(v: View, dim: nat, first: nat, count: nat, step: nat): Result<View>
    requires |v.leading| == |v.strides|
  {
    if dim >= |v.leading| then Err(OutOfRange)
    else if count == 0 || step == 0 then Err(InvalidArgument)
    else
      match CheckedMul(count - 1, step)
      case None => Err(Overflow)
      case Some(span) =>
        match CheckedAdd(first, span)
        case None => Err(Overflow)
        case Some(last) =>
          if last >= v.leading[dim] then Err(OutOfRange)
          else
            match (CheckedMul(v.strides[dim], step), CheckedMul(first, v.strides[dim]))
            case (Some(stride), Some(shift)) =>
              (match CheckedAdd(v.offset, shift)
               case None => Err(Overflow)
               case Some(offset) =>
                 Ok(v.(leading := v.leading[dim := count], strides := v.strides[dim := stride], offset := offset)))
            case _ => Err(Overflow)
  }

  function Select(v: View, dim: nat, index: nat): Result<View>
    requires |v.leading| == |v.strides|
  {
    if dim >= |v.leading| then Err(OutOfRange)
    else if index >= v.leading[dim] then Err(OutOfRange)
    else
      match CheckedMul(index, v.strides[dim])
      case None => Err(Overflow)
      case Some(shift) =>
        match CheckedAdd(v.offset, shift)
        case None => Err(Overflow)
        case Some(offset) =>
          Ok(v.(leading := Remove(v.leading, dim), strides := Remove(v.strides, dim), offset := offset))
  }

  ghost function Permute(v: View, order: seq<nat>): Result<View>
    requires |v.leading| == |v.strides|
  {
    if !Permutation(order, |v.leading|) then Err(InvalidArgument)
    else Ok(v.(leading := Gather(v.leading, order), strides := Gather(v.strides, order)))
  }

  // The running product of the requested dimensions, stopping at the first bad one.
  function ScanDimensions(dims: seq<nat>, product: nat): Result<nat> {
    if dims == [] then Ok(product)
    else if dims[0] == 0 then Err(InvalidArgument)
    else if product * dims[0] > SIZE_MAX then Err(Overflow)
    else ScanDimensions(dims[1..], product * dims[0])
  }

  // Every axis longer than one carries the dense stride.
  ghost predicate Contiguous(v: View)
    requires |v.leading| == |v.strides|
  {
    forall i :: 0 <= i < |v.leading| && v.leading[i] > 1 ==> v.strides[i] == Product(v.leading[i + 1..])
  }

  ghost function Reshape(v: View, dims: seq<nat>): Result<View>
    requires |v.leading| == |v.strides|
  {
    if |dims| + 2 > MAX_RANK then Err(InvalidArgument)
    else if Product(v.leading) > SIZE_MAX then Err(Overflow)
    else if ScanDimensions(dims, 1).Err? then Err(ScanDimensions(dims, 1).error)
    else if ScanDimensions(dims, 1).value != Product(v.leading) then Err(InvalidArgument)
    else if !Contiguous(v) then Err(InvalidArgument)
    else Ok(v.(leading := dims, strides := DenseStrides(dims)))
  }

  datatype Transform =
    | Slicing(dim: nat, first: nat, count: nat, step: nat)
    | Selecting(dim: nat, index: nat)
    | Permuting(order: seq<nat>)
    | Reshaping(dims: seq<nat>)

  ghost function Apply(v: View, t: Transform): (r: Result<View>)
    requires |v.leading| == |v.strides|
    ensures r.Ok? ==> |r.value.leading| == |r.value.strides|
  {
    match t
    case Slicing(dim, first, count, step) => Slice(v, dim, first, count, step)
    case Selecting(dim, index) => Select(v, dim, index)
    case Permuting(order) => Permute(v, order)
    case Reshaping(dims) => Reshape(v, dims)
  }

  // The view that a chain of transforms reaches, unless one of them throws.
  ghost function ApplyAll(v: View, ts: seq<Transform>): Result<View>
    requires |v.leading| == |v.strides|
    decreases |ts|
  {
    if ts == [] then Ok(v)
    else
      match Apply(v, ts[0])
      case Err(e) => Err(e)
      case Ok(w) => ApplyAll(w, ts[1..])
  }

  // ---------------------------------------------------------------- planes stay in the owner

  lemma {:induction false} DotMonotone(a: seq<nat>, b: seq<nat>, s: seq<nat>)
    requires |a| == |b| == |s| && forall i :: 0 <= i < |a| ==> a[i] <= b[i]
    ensures Dot(a, s) <= Dot(b, s)
  {
    if a != [] {
      DotMonotone(a[1..], b[1..], s[1..]);
      MulMonotone(a[0], b[0], s[0]);
    }
  }

  lemma PlaneAtMost(v: View, c: seq<nat>)
    requires |v.leading| == |v.strides| && InBox(c, v.leading)
    ensures PlaneOf(v, c) <= MaxPlane(v)
  {
    DotMonotone(c, Tops(v.leading), v.strides);
  }

  lemma {:induction false} DensePositive(dims: seq<nat>)
    requires Positive(dims)
    ensures Positive(DenseStrides(dims))
  {
    if dims != [] {
      DensePositive(dims[1..]);
      ProductPositive(dims[1..]);
    }
  }

  lemma {:induction false} TopsRowIndex(dims: seq<nat>)
    requires Positive(dims)
    ensures RowIndex(Tops(dims), dims) == Product(dims) - 1
  {
    if dims != [] {
      TopsRowIndex(dims[1..]);
      assert Tops(dims)[1..] == Tops(dims[1..]);
      assert (dims[0] - 1) * Product(dims[1..]) + Product(dims[1..]) == dims[0] * Product(dims[1..]);
    }
  }

  lemma DenseIsSound(v: View)
    requires |v.leading| + 2 <= MAX_RANK && Positive(v.leading) && v.rows > 0 && v.columns > 0
    requires v.strides == DenseStrides(v.leading)
    ensures Sound(v, v.offset + Product(v.leading))
  {
    DensePositive(v.leading);
    DotDense(Tops(v.leading), v.leading);
    TopsRowIndex(v.leading);
    forall a, b | InBox(a, v.leading) && InBox(b, v.leading) && PlaneOf(v, a) == PlaneOf(v, b) ensures a == b {
      DotDense(a, v.leading);
      DotDense(b, v.leading);
      RowIndexInjective(a, b, v.leading);
    }
  }

  // Coordinates c of w select the plane that f(c) selects in v.
  ghost predicate Embeds(v: View, w: View, f: seq<nat> -> seq<nat>, c: seq<nat>)
    requires |v.leading| == |v.strides| && |w.strides| == |c|
  {
    InBox(f(c), v.leading) && PlaneOf(w, c) == PlaneOf(v, f(c))
  }

  // Injectivity and bounds carry over along an injective coordinate embedding.
  lemma EmbeddingSound(v: View, w: View, f: seq<nat> -> seq<nat>, planes: nat)
    requires Sound(v, planes) && Shaped(w)
    requires forall c :: InBox(c, w.leading) ==> Embeds(v, w, f, c)
    requires forall a, b :: InBox(a, w.leading) && InBox(b, w.leading) && f(a) == f(b) ==> a == b
    ensures Sound(w, planes)
  {
    hide Dot, Tops;
    assert InBox(Tops(w.leading), w.leading);
    assert Embeds(v, w, f, Tops(w.leading));
    PlaneAtMost(v, f(Tops(w.leading)));
    forall a, b | InBox(a, w.leading) && InBox(b, w.leading) && PlaneOf(w, a) == PlaneOf(w, b) ensures a == b {
      assert Embeds(v, w, f, a) && Embeds(v, w, f, b);
      assert f(a) == f(b);
    }
  }

  function SliceSource(dim: nat, first: nat, step: nat): seq<nat> -> seq<nat> {
    (c: seq<nat>) => if dim < |c| then c[dim := first + c[dim] * step] else c
  }

  lemma SlicePlane(v: View, w: View, dim: nat, first: nat, step: nat, c: seq<nat>)
    requires Shaped(v) && dim < |v.leading| && step > 0
    requires |w.leading| == |v.leading| && w.leading == v.leading[dim := w.leading[dim]] && w.leading[dim] > 0
    requires first + (w.leading[dim] - 1) * step < v.leading[dim]
    requires w.strides == v.strides[dim := v.strides[dim] * step] && w.offset == v.offset + first * v.strides[dim]
    requires InBox(c, w.leading)
    ensures Embeds(v, w, SliceSource(dim, first, step), c)
  {
    var x := first + c[dim] * step;
    MulMonotone(c[dim], w.leading[dim] - 1, step);
    DotUpdate(c, v.strides, dim, x);
    DotUpdate(c, w.strides, dim, c[dim]);
    assert c[dim := c[dim]] == c;
    DotUpdateStride(c[dim := 0], v.strides, dim, v.strides[dim] * step);
    ScaleSum(first, c[dim], step, v.strides[dim]);
  }

  lemma SliceSourceInjective(dim: nat, first: nat, step: nat, a: seq<nat>, b: seq<nat>)
    requires step > 0 && |a| == |b| && dim < |a|
    requires SliceSource(dim, first, step)(a) == SliceSource(dim, first, step)(b)
    ensures a == b
  {
    var a', b' := a[dim := first + a[dim] * step], b[dim := first + b[dim] * step];
    assert a' == b' && a'[dim] == b'[dim];
    BlockUnique(a[dim], b[dim], step, 0, 0);
    assert a == a'[dim := a[dim]] && b == b'[dim := b[dim]];
  }

  // A slice keeps every step-th coordinate of one axis, from the first one on.
  lemma SliceSelects(v: View, dim: nat, first: nat, count: nat, step: nat, c: seq<nat>)
    requires Shaped(v) && Slice(v, dim, first, count, step).Ok?
    ensures dim < |v.leading| && Slice(v, dim, first, count, step).value.leading == v.leading[dim := count]
    ensures |Slice(v, dim, first, count, step).value.strides| == |v.strides|
    ensures InBox(c, v.leading[dim := count]) ==>
      && InBox(c[dim := first + c[dim] * step], v.leading)
      && PlaneOf(Slice(v, dim, first, count, step).value, c) == PlaneOf(v, c[dim := first + c[dim] * step])
  {
    if InBox(c, v.leading[dim := count]) { SlicePlane(v, Slice(v, dim, first, count, step).value, dim, first, step, c); }
  }

  // In an owner whose planes can be counted, a slice is refused only for its axis, count, step or extent,
  // or because the stride of the sliced axis does not fit.
  lemma SliceAccepts(v: View, dim: nat, first: nat, count: nat, step: nat, planes: nat)
    requires Sound(v, planes) && planes <= SIZE_MAX
    ensures Slice(v, dim, first, count, step).Ok? <==>
      dim < |v.leading| && 0 < count && 0 < step && first + (count - 1) * step < v.leading[dim] && v.strides[dim] * step <= SIZE_MAX
  {
    if dim < |v.leading| {
      AxisFits(v, dim, v.leading[dim] - 1);
      if first < v.leading[dim] { AxisFits(v, dim, first); }
    }
  }

  // The plane of a coordinate on one axis alone.
  lemma AxisFits(v: View, dim: nat, x: nat)
    requires Shaped(v) && dim < |v.leading| && x < v.leading[dim]
    ensures v.offset + x * v.strides[dim] <= MaxPlane(v) && x <= x * v.strides[dim]
  {
    var zero := seq(|v.leading|, _ => 0);
    DotUpdate(zero, v.strides, dim, x);
    PlaneAtMost(v, zero[dim := x]);
    MulPositive(v.strides[dim], 1);
    if x > 0 { MulPositive(x, v.strides[dim]); }
  }

  lemma SliceSound(v: View, dim: nat, first: nat, count: nat, step: nat, planes: nat)
    requires Sound(v, planes) && Slice(v, dim, first, count, step).Ok?
    ensures Sound(Slice(v, dim, first, count, step).value, planes)
  {
    hide Dot, Injective, MaxPlane;
    var w := Slice(v, dim, first, count, step).value;
    MulPositive(v.strides[dim], step);
    var f := SliceSource(dim, first, step);
    forall c | InBox(c, w.leading) ensures Embeds(v, w, f, c) { SlicePlane(v, w, dim, first, step, c); }
    forall a, b | InBox(a, w.leading) && InBox(b, w.leading) && f(a) == f(b) ensures a == b {
      SliceSourceInjective(dim, first, step, a, b);
    }
    EmbeddingSound(v, w, f, planes);
  }

  function SelectSource(dim: nat, index: nat): seq<nat> -> seq<nat> {
    (c: seq<nat>) => if dim <= |c| then c[..dim] + [index] + c[dim..] else c
  }

  // A selection fixes one coordinate and drops its axis.
  lemma SelectSelects(v: View, dim: nat, index: nat, c: seq<nat>)
    requires Shaped(v) && Select(v, dim, index).Ok?
    ensures dim < |v.leading| && Select(v, dim, index).value.leading == v.leading[..dim] + v.leading[dim + 1..]
    ensures |Select(v, dim, index).value.strides| == |v.strides| - 1
    ensures InBox(c, v.leading[..dim] + v.leading[dim + 1..]) ==>
      && InBox(c[..dim] + [index] + c[dim..], v.leading)
      && PlaneOf(Select(v, dim, index).value, c) == PlaneOf(v, c[..dim] + [index] + c[dim..])
  {
    hide Dot;
    if InBox(c, v.leading[..dim] + v.leading[dim + 1..]) {
      assert c[..dim] + [index] + c[dim..] == Insert(c, dim, index);
      DotInsert(c, v.strides, dim, index);
    }
  }

  lemma SelectAccepts(v: View, dim: nat, index: nat, planes: nat)
    requires Sound(v, planes) && planes <= SIZE_MAX
    ensures Select(v, dim, index).Ok? <==> dim < |v.leading| && index < v.leading[dim]
  {
    if dim < |v.leading| && index < v.leading[dim] { AxisFits(v, dim, index); }
  }

  lemma SelectSound(v: View, dim: nat, index: nat, planes: nat)
    requires Sound(v, planes) && Select(v, dim, index).Ok?
    ensures Sound(Select(v, dim, index).value, planes)
  {
    hide Dot, Injective, MaxPlane;
    var w := Select(v, dim, index).value;
    var f := SelectSource(dim, index);
    forall c | InBox(c, w.leading) ensures Embeds(v, w, f, c) {
      assert f(c) == Insert(c, dim, index);
      DotInsert(c, v.strides, dim, index);
    }
    forall a, b | InBox(a, w.leading) && InBox(b, w.leading) && f(a) == f(b) ensures a == b {
      assert a == Remove(f(a), dim) && b == Remove(f(b), dim);
    }
    EmbeddingSound(v, w, f, planes);
  }

  ghost function PermuteSource(order: seq<nat>): seq<nat> -> seq<nat> {
    (c: seq<nat>) => if Permutation(order, |c|) then Scatter(c, order) else c
  }

  lemma PermutePlane(v: View, order: seq<nat>, c: seq<nat>)
    requires Shaped(v) && Permute(v, order).Ok? && InBox(c, Gather(v.leading, order))
    ensures Embeds(v, Permute(v, order).value, PermuteSource(order), c)
  {
    var c' := Scatter(c, order);
    forall j | 0 <= j < |c'| ensures c'[j] < v.leading[j] {
      var i := Position(order, j);
      assert c'[order[i]] == c[i];
    }
    DotPermuted(c', v.strides, order);
  }

  // Axis i of the permuted view is axis order[i] of v.
  lemma PermuteSelects(v: View, order: seq<nat>, c: seq<nat>, d: seq<nat>)
    requires Shaped(v) && Permute(v, order).Ok? && |c| == |d| == |v.leading|
    requires forall i :: 0 <= i < |order| && order[i] < |d| && i < |c| ==> d[order[i]] == c[i]
    ensures |order| == |v.leading| == |Permute(v, order).value.strides| == |Permute(v, order).value.leading|
    ensures forall i :: 0 <= i < |order| ==> order[i] < |v.leading| && Permute(v, order).value.leading[i] == v.leading[order[i]]
    ensures InBox(c, Permute(v, order).value.leading) ==> InBox(d, v.leading) && PlaneOf(Permute(v, order).value, c) == PlaneOf(v, d)
  {
    if InBox(c, Permute(v, order).value.leading) {
      forall j | 0 <= j < |d| ensures d[j] == Scatter(c, order)[j] { assert d[order[Position(order, j)]] == c[Position(order, j)]; }
      assert d == Scatter(c, order);
      PermutePlane(v, order, c);
    }
  }

  lemma PermuteSound(v: View, order: seq<nat>, planes: nat)
    requires Sound(v, planes) && Permute(v, order).Ok?
    ensures Sound(Permute(v, order).value, planes)
  {
    hide Dot, Injective, MaxPlane;
    var w := Permute(v, order).value;
    var f := PermuteSource(order);
    forall c | InBox(c, w.leading) ensures Embeds(v, w, f, c) { PermutePlane(v, order, c); }
    forall a, b | InBox(a, w.leading) && InBox(b, w.leading) && f(a) == f(b) ensures a == b {
      assert a == Gather(f(a), order) && b == Gather(f(b), order);
    }
    EmbeddingSound(v, w, f, planes);
  }

  // A contiguous view numbers its planes in row-major order; size-one axes never move.
  lemma {:induction false} ContiguousRowIndex(c: seq<nat>, dims: seq<nat>, strides: seq<nat>)
    requires |dims| == |strides| && InBox(c, dims)
    requires forall i :: 0 <= i < |dims| && dims[i] > 1 ==> strides[i] == Product(dims[i + 1..])
    ensures Dot(c, strides) == RowIndex(c, dims)
  {
    if c != [] {
      forall i | 0 <= i < |dims[1..]| && dims[1..][i] > 1 ensures strides[1..][i] == Product(dims[1..][i + 1..]) {
        assert dims[1..][i + 1..] == dims[i + 2..];
        assert dims[i + 1] > 1;
      }
      ContiguousRowIndex(c[1..], dims[1..], strides[1..]);
      if dims[0] > 1 { assert strides[0] == Product(dims[1..]); }
      else { assert c[0] == 0; }
    }
  }

  lemma {:induction false} ScanIsProduct(dims: seq<nat>, product: nat)
    requires ScanDimensions(dims, product).Ok?
    ensures Positive(dims) && ScanDimensions(dims, product).value == product * Product(dims)
  {
    if dims != [] {
      ScanIsProduct(dims[1..], product * dims[0]);
      assert product * dims[0] * Product(dims[1..]) == product * (dims[0] * Product(dims[1..]));
      forall i | 0 <= i < |dims| ensures dims[i] > 0 { if i > 0 { assert dims[1..][i - 1] > 0; } }
    }
  }

  // Reshaping keeps the row-major enumeration: equal row-major indices select equal planes.
  lemma ReshapeEnumeration(v: View, dims: seq<nat>, a: seq<nat>, b: seq<nat>)
    requires Shaped(v) && Reshape(v, dims).Ok?
    requires InBox(a, v.leading) && InBox(b, dims)
    ensures Product(dims) == Product(v.leading)
    ensures PlaneOf(v, a) == v.offset + RowIndex(a, v.leading)
    ensures PlaneOf(Reshape(v, dims).value, b) == v.offset + RowIndex(b, dims)
    ensures PlaneOf(v, a) == PlaneOf(Reshape(v, dims).value, b) <==> RowIndex(a, v.leading) == RowIndex(b, dims)
  {
    ScanIsProduct(dims, 1);
    ContiguousRowIndex(a, v.leading, v.strides);
    DotDense(b, dims);
  }

  lemma ReshapeSound(v: View, dims: seq<nat>, planes: nat)
    requires Sound(v, planes) && Reshape(v, dims).Ok?
    ensures Sound(Reshape(v, dims).value, planes)
  {
    var w := Reshape(v, dims).value;
    ScanIsProduct(dims, 1);
    DenseIsSound(w);
    ContiguousRowIndex(Tops(v.leading), v.leading, v.strides);
    TopsRowIndex(v.leading);
  }

  // The coordinates of v whose plane coordinates c of the transformed view select.
  ghost function Source(v: View, t: Transform, c: seq<nat>): seq<nat>
    requires Shaped(v) && Apply(v, t).Ok? && InBox(c, Apply(v, t).value.leading)
  {
    match t
    case Slicing(dim, first, _, step) => c[dim := first + c[dim] * step]
    case Selecting(dim, index) => c[..dim] + [index] + c[dim..]
    case Permuting(order) => Scatter(c, order)
    case Reshaping(dims) => Unrank(RowIndex(c, dims), v.leading)
  }

  lemma ApplySelects(v: View, t: Transform, c: seq<nat>)
    requires Shaped(v) && Apply(v, t).Ok? && InBox(c, Apply(v, t).value.leading)
    ensures InBox(Source(v, t, c), v.leading) && PlaneOf(Apply(v, t).value, c) == PlaneOf(v, Source(v, t, c))
  {
    hide Dot, Slice, Select;
    match t
    case Slicing(dim, first, count, step) => SliceSelects(v, dim, first, count, step, c);
    case Selecting(dim, index) => SelectSelects(v, dim, index, c);
    case Permuting(order) => PermuteSelects(v, order, c, Scatter(c, order));
    case Reshaping(dims) =>
      ScanIsProduct(dims, 1);
      RowIndexBound(c, dims);
      UnrankInBox(RowIndex(c, dims), v.leading);
      ReshapeEnumeration(v, dims, Unrank(RowIndex(c, dims), v.leading), c);
  }

  // The coordinates of the first view of a chain.
  ghost function SourceAll(v: View, ts: seq<Transform>, c: seq<nat>, planes: nat): (r: seq<nat>)
    requires Sound(v, planes) && ApplyAll(v, ts).Ok? && InBox(c, ApplyAll(v, ts).value.leading)
    ensures InBox(r, v.leading) && |ApplyAll(v, ts).value.strides| == |c| && PlaneOf(ApplyAll(v, ts).value, c) == PlaneOf(v, r)
    decreases |ts|
  {
    if ts == [] then c
    else
      ApplySound(v, ts[0], planes);
      var d := SourceAll(Apply(v, ts[0]).value, ts[1..], c, planes);
      ApplySelects(v, ts[0], d);
      Source(v, ts[0], d)
  }

  lemma ApplySound(v: View, t: Transform, planes: nat)
    requires Sound(v, planes) && Apply(v, t).Ok?
    ensures Sound(Apply(v, t).value, planes)
    ensures Apply(v, t).value.rows == v.rows && Apply(v, t).value.columns == v.columns
    ensures Apply(v, t).value.dataType == v.dataType
  {
    match t
    case Slicing(dim, first, count, step) => SliceSound(v, dim, first, count, step, planes);
    case Selecting(dim, index) => SelectSound(v, dim, index, planes);
    case Permuting(order) => PermuteSound(v, order, planes);
    case Reshaping(dims) => ReshapeSound(v, dims, planes);
  }

  // Every view that any chain of transforms reaches is sound.
  lemma {:induction false} ChainSound(v: View, ts: seq<Transform>, planes: nat)
    requires Sound(v, planes) && ApplyAll(v, ts).Ok?
    ensures Sound(ApplyAll(v, ts).value, planes)
    ensures ApplyAll(v, ts).value.rows == v.rows && ApplyAll(v, ts).value.columns == v.columns
    ensures ApplyAll(v, ts).value.dataType == v.dataType
    decreases |ts|
  {
    hide Apply;
    if ts != [] {
      ApplySound(v, ts[0], planes);
      ChainSound(Apply(v, ts[0]).value, ts[1..], planes);
    }
  }

  // A view reached from an owner's full view maps distinct coordinates to distinct owner planes,
  // all below the owner's plane count, and selects no more planes than the owner has.
  lemma ReachedViewAddressesOwner(leading: seq<nat>, rows: nat, columns: nat, dataType: DataType, ts: seq<Transform>)
    requires |leading| + 2 <= MAX_RANK && Positive(leading) && rows > 0 && columns > 0
    requires ApplyAll(FullView(leading, rows, columns, dataType), ts).Ok?
    ensures var v := ApplyAll(FullView(leading, rows, columns, dataType), ts).value;
      && Sound(v, Product(leading)) && v.rows == rows && v.columns == columns && v.dataType == dataType
      && (forall c :: InBox(c, v.leading) ==> PlaneOf(v, c) < Product(leading))
      && Product(v.leading) <= Product(leading)
  {
    var full := FullView(leading, rows, columns, dataType);
    DenseIsSound(full);
    ChainSound(full, ts, Product(leading));
    var v := ApplyAll(full, ts).value;
    forall c | InBox(c, v.leading) ensures PlaneOf(v, c) < Product(leading) { PlaneAtMost(v, c); }
    SelectedPlanesCount(v, Product(leading));
  }

  // Counting: an injective view into `planes` planes selects at most `planes` of them.
  lemma SelectedPlanesCount(v: View, planes: nat)
    requires Sound(v, planes)
    ensures Product(v.leading) <= planes
  {
    var n := Product(v.leading);
    forall k | 0 <= k < n ensures InBox(Unrank(k, v.leading), v.leading) && PlaneOf(v, Unrank(k, v.leading)) < planes {
      UnrankInBox(k, v.leading);
      PlaneAtMost(v, Unrank(k, v.leading));
    }
    var image := seq(n, k requires 0 <= k < n => PlaneOf(v, Unrank(k, v.leading)));
    forall i, j | 0 <= i < j < n ensures image[i] != image[j] {
      UnrankInBox(i, v.leading);
      UnrankInBox(j, v.leading);
    }
    InjectionBound(image, planes);
  }

  // ---------------------------------------------------------------- the looping transforms

  lemma {:induction false} DenseStrideAt(dims: seq<nat>, i: nat)
    requires i < |dims|
    ensures DenseStrides(dims)[i] == Product(dims[i + 1..])
    ensures i + 1 < |dims| ==> DenseStrides(dims)[i] == DenseStrides(dims)[i + 1] * dims[i + 1]
  {
    if i > 0 {
      DenseStrideAt(dims[1..], i - 1);
      assert dims[1..][i..] == dims[i + 1..];
    } else if i + 1 < |dims| {
      assert DenseStrides(dims)[1] == DenseStrides(dims[1..])[0];
    } else {
      assert dims[i + 1..] == dims[1..];
    }
  }

  lemma {:induction false} SuffixProduct(dims: seq<nat>, i: nat, j: nat)
    requires Positive(dims) && i <= j <= |dims|
    ensures 0 < Product(dims[j..]) <= Product(dims[i..])
    decreases j - i
  {
    ProductPositive(dims[j..]);
    if i < j {
      SuffixProduct(dims, i + 1, j);
      assert dims[i..][1..] == dims[i + 1..];
      MulPositive(dims[i], Product(dims[i + 1..]));
    }
  }

  lemma NoDenseStrides()
    ensures DenseStrides([]) == []
  {
  }

  // dense_plane_strides
  method DensePlaneStrides(dims: seq<nat>) returns (r: Result<seq<nat>>)
    requires Positive(dims)
    ensures r == if dims != [] && Product(dims[1..]) > SIZE_MAX then Err(Overflow) else Ok(DenseStrides(dims))
  {
    hide DenseStrides, Product;
    var strides := seq(|dims|, _ => 1);
    var i := |dims|;
    if i == 0 {
      NoDenseStrides();
      return Ok(strides);
    }
    LastDenseStride(dims);
    while i > 1
      invariant 1 <= i <= |dims| == |strides|
      invariant DenseStrides(dims)[i - 1] <= SIZE_MAX
      invariant forall k :: i - 1 <= k < |dims| ==> strides[k] == DenseStrides(dims)[k]
      invariant forall k :: 0 <= k < i - 1 ==> strides[k] == 1
    {
      DenseStrideAt(dims, i - 2);
      var product := strides[i - 1] * dims[i - 1];
      assert product == DenseStrides(dims)[i - 2] == Product(dims[i - 1..]);
      if product > SIZE_MAX {
        SuffixProduct(dims, 1, i - 1);
        return Err(Overflow);
      }
      strides := strides[i - 2 := product];
      i := i - 1;
    }
    DenseStrideAt(dims, 0);
    assert strides == DenseStrides(dims);
    r := Ok(strides);
  }

  lemma LastDenseStride(dims: seq<nat>)
    requires dims != []
    ensures DenseStrides(dims)[|dims| - 1] == 1
  {
    DenseStrideAt(dims, |dims| - 1);
    assert dims[|dims|..] == [];
  }

  // TensorView::permute
  method PermuteView(v: View, order: seq<nat>) returns (r: Result<View>)
    requires |v.leading| == |v.strides|
    ensures r == Permute(v, order)
  {
    var rank := |v.leading|;
    if |order| != rank {
      return Err(InvalidArgument);
    }
    var seen := seq(rank, _ => false);
    for k := 0 to |order|
      invariant |seen| == rank
      invariant forall i :: 0 <= i < k ==> order[i] < rank && seen[order[i]]
      invariant forall i, j :: 0 <= i < j < k ==> order[i] != order[j]
      invariant forall a :: 0 <= a < rank && seen[a] ==> a in order[..k]
    {
      if order[k] >= rank {
        return Err(InvalidArgument);
      }
      if seen[order[k]] {
        assert order[k] in order[..k];
        return Err(InvalidArgument);
      }
      assert order[..k + 1] == order[..k] + [order[k]];
      seen := seen[order[k] := true];
    }
    var dims, strides := seq(rank, _ => 0), seq(rank, _ => 0);
    for i := 0 to rank
      invariant |dims| == rank && |strides| == rank
      invariant forall k :: 0 <= k < i ==> dims[k] == v.leading[order[k]] && strides[k] == v.strides[order[k]]
    {
      dims := dims[i := v.leading[order[i]]];
      strides := strides[i := v.strides[order[i]]];
    }
    assert dims == Gather(v.leading, order) && strides == Gather(v.strides, order);
    r := Ok(v.(leading := dims, strides := strides));
  }

  // The plane count of a view, front to back.
  method CountPlanes(dims: seq<nat>) returns (r: Result<nat>)
    requires Positive(dims)
    ensures r == if Product(dims) > SIZE_MAX then Err(Overflow) else Ok(Product(dims))
  {
    var planes: nat := 1;
    for i := 0 to |dims|
      invariant planes * Product(dims[i..]) == Product(dims) && 0 < planes <= SIZE_MAX
    {
      SuffixProduct(dims, i + 1, |dims|);
      assert dims[i..][1..] == dims[i + 1..];
      assert planes * (dims[i] * Product(dims[i + 1..])) == planes * dims[i] * Product(dims[i + 1..]);
      MulPositive(planes, dims[i]);
      MulPositive(planes * dims[i], Product(dims[i + 1..]));
      if planes * dims[i] > SIZE_MAX {
        return Err(Overflow);
      }
      planes := planes * dims[i];
    }
    assert dims[|dims|..] == [];
    r := Ok(planes);
  }

  method ScanRequested(dims: seq<nat>) returns (r: Result<nat>)
    ensures r == ScanDimensions(dims, 1)
  {
    var planes: nat := 1;
    assert dims[0..] == dims;
    for i := 0 to |dims|
      invariant ScanDimensions(dims[i..], planes) == ScanDimensions(dims, 1)
    {
      assert dims[i..][1..] == dims[i + 1..];
      if dims[i] == 0 {
        return Err(InvalidArgument);
      }
      if planes * dims[i] > SIZE_MAX {
        return Err(Overflow);
      }
      planes := planes * dims[i];
    }
    r := Ok(planes);
  }

  // The backward contiguity scan; its running product cannot overflow here.
  method CheckContiguous(v: View) returns (r: Result<()>)
    requires |v.leading| == |v.strides| && Positive(v.leading) && Product(v.leading) <= SIZE_MAX
    ensures r == if Contiguous(v) then Ok(()) else Err(InvalidArgument)
  {
    var expected: nat := 1;
    var i := |v.leading|;
    assert v.leading[i..] == [];
    while i > 0
      invariant 0 <= i <= |v.leading|
      invariant expected == Product(v.leading[i..])
      invariant forall k :: i <= k < |v.leading| && v.leading[k] > 1 ==> v.strides[k] == Product(v.leading[k + 1..])
    {
      i := i - 1;
      assert v.leading[i..][1..] == v.leading[i + 1..];
      if v.leading[i] > 1 {
        if v.strides[i] != expected {
          return Err(InvalidArgument);
        }
        SuffixProduct(v.leading, 0, i);
        assert v.leading[0..] == v.leading;
        if expected * v.leading[i] > SIZE_MAX {
          return Err(Overflow);
        }
        expected := expected * v.leading[i];
      }
    }
    r := Ok(());
  }

  // TensorView::reshape_leading
  method ReshapeView(v: View, dims: seq<nat>) returns (r: Result<View>)
    requires Shaped(v)
    ensures r == Reshape(v, dims)
  {
    if |dims| + 2 > MAX_RANK {
      return Err(InvalidArgument);
    }
    var planes := CountPlanes(v.leading);
    if planes.Err? {
      return Err(planes.error);
    }
    var newPlanes := ScanRequested(dims);
    if newPlanes.Err? {
      return Err(newPlanes.error);
    }
    if newPlanes.value != planes.value {
      return Err(InvalidArgument);
    }
    var contiguous := CheckContiguous(v);
    if contiguous.Err? {
      return Err(contiguous.error);
    }
    ScanIsProduct(dims, 1);
    var strides := seq(|dims|, _ => 0);
    var stride: nat := 1;
    var i := |dims|;
    assert dims[i..] == [];
    while i > 0
      invariant 0 <= i <= |dims| == |strides|
      invariant stride == Product(dims[i..])
      invariant forall k :: i <= k < |dims| ==> strides[k] == DenseStrides(dims)[k]
    {
      i := i - 1;
      DenseStrideAt(dims, i);
      strides := strides[i := stride];
      assert dims[i..][1..] == dims[i + 1..];
      SuffixProduct(dims, 0, i);
      assert dims[0..] == dims;
      if stride * dims[i] > SIZE_MAX {
        return Err(Overflow);
      }
      stride := stride * dims[i];
    }
    assert strides == DenseStrides(dims);
    r := Ok(v.(leading := dims, strides := strides));
  }
}
