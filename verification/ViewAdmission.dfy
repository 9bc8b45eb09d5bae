// The admission check of operand views: sound and complete on geometry.

module ViewAdmission {
  import opened SizeT
  import opened MixedRadix
  import opened TensorView
  import opened TiledLayout

  datatype Facts = Facts(maxPlane: nat, addressedBytes: nat, storageBytes: nat, logicalBytes: nat)

  // The geometric facts that admission is about.
  ghost predicate Admissible(v: View, owner: View) {
    && v.dataType == owner.dataType && v.rows == owner.rows && v.columns == owner.columns
    && |v.strides| == |v.leading| && Positive(v.strides)
    && MaxPlane(v) < Product(owner.leading)
  }

  function StorageBits(owner: View): nat {
    Product(owner.leading) * PlaneSlots(owner.rows, owner.columns) * LeafBits(owner.dataType)
  }

  // One past the largest bit that the view addresses.
  function AddressedBits(v: View): nat
    requires |v.strides| == |v.leading| && v.rows > 0 && v.columns > 0
  {
    (SlotOf(v.rows, v.columns, MaxPlane(v), v.rows - 1, v.columns - 1) + 1) * LeafBits(v.dataType)
  }

  function LogicalBits(v: View): nat {
    Product(v.leading) * v.rows * v.columns * LeafBits(v.dataType)
  }

  // padded_extent
  function PaddedExtent(extent: nat): Option<nat> {
    if extent % TILE == 0 then Some(extent) else CheckedAdd(extent, TILE - extent % TILE)
  }

  lemma PaddedIsTiles(extent: nat)
    requires extent <= SIZE_MAX
    ensures PaddedExtent(extent).Some? ==> PaddedExtent(extent).value == Tiles(extent) * TILE
    ensures Tiles(extent) * TILE <= SIZE_MAX ==> PaddedExtent(extent).Some?
    ensures extent <= Tiles(extent) * TILE
  {
  }

  // ---------------------------------------------------------------- sizes

  lemma PaddedProduct(planes: nat, rows: nat, columns: nat)
    ensures planes * (Tiles(rows) * TILE) * (Tiles(columns) * TILE) == planes * PlaneSlots(rows, columns)
  {
    var a, b := Tiles(rows), Tiles(columns);
    assert (a * TILE) * (b * TILE) == a * b * TILE_SLOTS;
    assert planes * (a * TILE) * (b * TILE) == planes * ((a * TILE) * (b * TILE));
  }

  // checked_tiled_storage_bytes
  method StorageBytes(owner: View) returns (r: Result<nat>)
    requires Positive(owner.leading) && 0 < owner.rows <= SIZE_MAX && 0 < owner.columns <= SIZE_MAX
    ensures r.Ok? ==> r.value == BitsToBytes(StorageBits(owner))
    ensures StorageBits(owner) + 7 <= SIZE_MAX ==> r.Ok?
    ensures r.Err? ==> r.error == Overflow
  {
    var bits := LeafBits(owner.dataType);
    ghost var slots := PlaneSlots(owner.rows, owner.columns);
    PaddedIsTiles(owner.rows);
    PaddedIsTiles(owner.columns);
    ProductPositive(owner.leading);
    PaddedProduct(Product(owner.leading), owner.rows, owner.columns);
    StorageFactors(owner);
    hide PlaneSlots, Product, Tiles;
    var rows, columns := PaddedExtent(owner.rows), PaddedExtent(owner.columns);
    if rows.None? || columns.None? {
      return Err(Overflow);
    }
    var planes := CountPlanes(owner.leading);
    if planes.Err? {
      return Err(Overflow);
    }
    var byRows := CheckedMul(planes.value, rows.value);
    if byRows.None? {
      return Err(Overflow);
    }
    var elements := CheckedMul(byRows.value, columns.value);
    if elements.None? {
      return Err(Overflow);
    }
    var total := CheckedMul(elements.value, bits);
    if total.None? || CheckedAdd(total.value, 7).None? {
      return Err(Overflow);
    }
    r := Ok(BitsToBytes(total.value));
  }

  // Every factor of a representable storage size is representable.
  lemma StorageFactors(owner: View)
    requires Positive(owner.leading) && owner.rows > 0 && owner.columns > 0
    ensures Product(owner.leading) > 0
    ensures StorageBits(owner) + 7 <= SIZE_MAX ==>
      && Product(owner.leading) <= SIZE_MAX
      && Tiles(owner.rows) * TILE <= SIZE_MAX && Tiles(owner.columns) * TILE <= SIZE_MAX
      && Product(owner.leading) * (Tiles(owner.rows) * TILE) <= SIZE_MAX
      && Product(owner.leading) * PlaneSlots(owner.rows, owner.columns) <= SIZE_MAX
  {
    var planes, a, b := Product(owner.leading), Tiles(owner.rows) * TILE, Tiles(owner.columns) * TILE;
    ProductPositive(owner.leading);
    TileDigits(0, owner.rows);
    TileDigits(0, owner.columns);
    PaddedProduct(planes, owner.rows, owner.columns);
    FactorsBelow(planes, a, b, LeafBits(owner.dataType), planes * PlaneSlots(owner.rows, owner.columns));
  }

  lemma FactorsBelow(planes: nat, a: nat, b: nat, bits: nat, elements: nat)
    requires planes > 0 && a > 0 && b > 0 && bits > 0 && elements == planes * a * b
    ensures planes <= planes * a <= elements <= elements * bits
    ensures a <= planes * a && b <= elements
  {
    MulPositive(planes, a);
    MulPositive(planes * a, b);
    MulPositive(elements, bits);
  }

  // ---------------------------------------------------------------- the check

  lemma DotHead(c: seq<nat>, s: seq<nat>, i: nat)
    requires |c| == |s| && i < |c|
    ensures Dot(c[i..], s[i..]) == c[i] * s[i] + Dot(c[i + 1..], s[i + 1..])
  {
    assert c[i..][1..] == c[i + 1..] && s[i..][1..] == s[i + 1..];
  }

  lemma MulEqual(a: nat, b: nat, c: nat)
    requires a == b
    ensures a * c == b * c
  {
  }

  // The checked slot of the last element spells the addressed bits.
  lemma LastSlotFacts(v: View, owner: View)
    requires Admissible(v, owner) && v.rows > 0 && v.columns > 0 && Shaped(owner)
    ensures var s := StandardPlaneSlot(v.rows, v.columns, MaxPlane(v), v.rows - 1, v.columns - 1);
      && (s.Some? ==> (s.value + 1) * LeafBits(v.dataType) == AddressedBits(v) && s.value < AddressedBits(v))
      && (ValidlySized(owner) ==> s.Some?)
  {
    hide SlotOf, StandardPlaneSlot, MaxPlane, Product, PlaneSlots;
    var top := MaxPlane(v);
    CheckedSlotValue(v.rows, v.columns, top, v.rows - 1, v.columns - 1);
    StorageFactors(owner);
    if ValidlySized(owner) {
      CheckedSlotSucceeds(v.rows, v.columns, Product(owner.leading), top, v.rows - 1, v.columns - 1);
    }
    LastBit(SlotOf(v.rows, v.columns, top, v.rows - 1, v.columns - 1), LeafBits(v.dataType));
  }

  lemma LastBit(slot: nat, bits: nat)
    requires bits > 0
    ensures slot < (slot + 1) * bits
  {
    MulPositive(slot + 1, bits);
  }

  lemma DotEnd(c: seq<nat>, s: seq<nat>)
    requires |c| == |s|
    ensures Dot(c[|c|..], s[|c|..]) == 0
  {
  }

  lemma BytesMonotone(a: nat, b: nat)
    requires a <= b
    ensures BitsToBytes(a) <= BitsToBytes(b)
  {
  }

  // The largest owner plane, summed with an accumulator; also rejects zero strides.
  method HighestPlane(v: View) returns (r: Result<nat>)
    requires |v.strides| == |v.leading| && Positive(v.leading)
    ensures r.Ok? ==> Positive(v.strides) && r.value == MaxPlane(v)
    ensures Positive(v.strides) && MaxPlane(v) <= SIZE_MAX ==> r.Ok?
  {
    ghost var tops := Tops(v.leading);
    var maxPlane: nat := v.offset;
    assert v.strides[0..] == v.strides && tops[0..] == tops;
    hide Dot;
    for i := 0 to |v.leading|
      invariant maxPlane + Dot(tops[i..], v.strides[i..]) == MaxPlane(v)
      invariant forall k :: 0 <= k < i ==> v.strides[k] > 0
    {
      DotHead(tops, v.strides, i);
      if v.strides[i] == 0 {
        return Err(InvalidArgument);
      }
      var sum := AddTerm(maxPlane, v.leading[i], v.strides[i], tops[i]);
      if sum.None? {
        return Err(Overflow);
      }
      maxPlane := sum.value;
    }
    DotEnd(tops, v.strides);
    r := Ok(maxPlane);
  }

  // One checked accumulation step.
  method AddTerm(maxPlane: nat, extent: nat, stride: nat, ghost top: nat) returns (r: Option<nat>)
    requires extent > 0 && top == extent - 1
    ensures r == if maxPlane + top * stride > SIZE_MAX then None else Some(maxPlane + top * stride)
  {
    MulEqual(top, extent - 1, stride);
    var term := CheckedMul(extent - 1, stride);
    return if term.None? then None else CheckedAdd(maxPlane, term.value);
  }

  // validate_checked_view, without the owner, device and handle identity tests.
  method ValidateCheckedView(v: View, owner: View) returns (r: Result<Facts>)
    requires Positive(v.leading) && 0 < v.rows <= SIZE_MAX && 0 < v.columns <= SIZE_MAX
    requires Shaped(owner) && owner.rows <= SIZE_MAX && owner.columns <= SIZE_MAX
    ensures r.Ok? ==> Admissible(v, owner)
    ensures r.Ok? ==> r.value == Facts(MaxPlane(v), BitsToBytes(AddressedBits(v)),
                                       BitsToBytes(StorageBits(owner)), BitsToBytes(LogicalBits(v)))
    ensures r.Ok? ==> r.value.addressedBytes <= r.value.storageBytes
    ensures Admissible(v, owner) && ValidlySized(owner) && Product(v.leading) <= Product(owner.leading) ==> r.Ok?
  {
    if v.dataType != owner.dataType || v.rows != owner.rows || v.columns != owner.columns {
      return Err(InvalidArgument);
    }
    if |v.strides| != |v.leading| {
      return Err(InvalidArgument);
    }
    StorageFactors(owner);
    var maxPlane := HighestPlane(v);
    if maxPlane.Err? {
      return Err(maxPlane.error);
    }
    var planes := CountPlanes(owner.leading);
    if planes.Err? {
      return Err(planes.error);
    }
    if maxPlane.value >= planes.value {
      return Err(InvalidArgument);
    }
    assert Admissible(v, owner);
    r := SizeView(v, owner, maxPlane.value);
  }

  lemma SizedStorage(owner: View)
    ensures ValidlySized(owner) ==> StorageBits(owner) + 7 <= SIZE_MAX
  {
  }

  // The size computations that follow the plane bound.
  method SizeView(v: View, owner: View, maxPlane: nat) returns (r: Result<Facts>)
    requires Positive(v.leading) && 0 < v.rows <= SIZE_MAX && 0 < v.columns <= SIZE_MAX
    requires Shaped(owner) && Admissible(v, owner) && maxPlane == MaxPlane(v)
    ensures r.Ok? ==> r.value == Facts(maxPlane, BitsToBytes(AddressedBits(v)),
                                       BitsToBytes(StorageBits(owner)), BitsToBytes(LogicalBits(v)))
    ensures r.Ok? ==> r.value.addressedBytes <= r.value.storageBytes
    ensures ValidlySized(owner) && Product(v.leading) <= Product(owner.leading) ==> r.Ok?
  {
    var bits := LeafBits(v.dataType);
    LastSlotFacts(v, owner);
    AddressedWithinStorage(v, owner);
    LogicalWithinStorage(v, owner);
    SizedStorage(owner);
    BytesMonotone(AddressedBits(v), StorageBits(owner));
    hide StandardPlaneSlot, AddressedBits, StorageBits, LogicalBits, BitsToBytes, Product, MaxPlane, ValidlySized, Admissible;
    var lastSlot := StandardPlaneSlot(v.rows, v.columns, maxPlane, v.rows - 1, v.columns - 1);
    if lastSlot.None? || CheckedAdd(lastSlot.value, 1).None? {
      return Err(Overflow);
    }
    var addressed := CheckedMul(lastSlot.value + 1, bits);
    if addressed.None? || CheckedAdd(addressed.value, 7).None? {
      return Err(Overflow);
    }
    var storage := StorageBytes(owner);
    if storage.Err? {
      return Err(storage.error);
    }
    if BitsToBytes(addressed.value) > storage.value {
      return Err(InvalidArgument);
    }
    var logical := LogicalBytes(v);
    if logical.Err? {
      return Err(logical.error);
    }
    r := Ok(Facts(maxPlane, BitsToBytes(addressed.value), storage.value, logical.value));
  }

  // The products that element_count and the leaf width go through, each below the next one.
  lemma LogicalFactors(v: View, planes: nat, byRows: nat, elements: nat)
    requires Positive(v.leading) && 0 < v.rows && 0 < v.columns
    requires planes == Product(v.leading) && byRows == planes * v.rows && elements == byRows * v.columns
    ensures LogicalBits(v) == elements * LeafBits(v.dataType)
    ensures planes <= byRows <= elements <= LogicalBits(v)
  {
    ProductPositive(v.leading);
    hide Product;
    FactorsBelow(planes, v.rows, v.columns, LeafBits(v.dataType), elements);
  }

  // element_count times the leaf width, in bytes.
  method LogicalBytes(v: View) returns (r: Result<nat>)
    requires Positive(v.leading) && 0 < v.rows && 0 < v.columns
    ensures r.Ok? ==> r.value == BitsToBytes(LogicalBits(v))
    ensures LogicalBits(v) + 7 <= SIZE_MAX ==> r.Ok?
  {
    ghost var n := Product(v.leading);
    ghost var m := n * v.rows;
    LogicalFactors(v, n, m, m * v.columns);
    hide Product, LogicalBits;
    var planes := CountPlanes(v.leading);
    if planes.Err? {
      return Err(Overflow);
    }
    var byRows := CheckedMul(planes.value, v.rows);
    if byRows.None? {
      return Err(Overflow);
    }
    var elements := CheckedMul(byRows.value, v.columns);
    if elements.None? {
      return Err(Overflow);
    }
    var bits := CheckedMul(elements.value, LeafBits(v.dataType));
    if bits.None? || CheckedAdd(bits.value, 7).None? {
      return Err(Overflow);
    }
    r := Ok(BitsToBytes(bits.value));
  }

  lemma AddressedWithinStorage(v: View, owner: View)
    requires Admissible(v, owner) && v.rows > 0 && v.columns > 0
    ensures AddressedBits(v) <= StorageBits(owner)
  {
    SlotWithinStorage(v.rows, v.columns, Product(owner.leading), MaxPlane(v), v.rows - 1, v.columns - 1);
    MulMonotone(SlotOf(v.rows, v.columns, MaxPlane(v), v.rows - 1, v.columns - 1) + 1,
                Product(owner.leading) * PlaneSlots(owner.rows, owner.columns), LeafBits(v.dataType));
  }

  lemma LogicalWithinStorage(v: View, owner: View)
    requires Admissible(v, owner)
    ensures Product(v.leading) <= Product(owner.leading) ==> LogicalBits(v) <= StorageBits(owner)
  {
    if Product(v.leading) <= Product(owner.leading) {
      var n, m, bits := Product(v.leading), Product(owner.leading), LeafBits(v.dataType);
      var a, b := Tiles(v.rows) * TILE, Tiles(v.columns) * TILE;
      TilesCover(v.rows);
      TilesCover(v.columns);
      PaddedProduct(m, v.rows, v.columns);
      MulMonotone(n, m, v.rows);
      MulMonotone(v.rows, a, m);
      MulMonotone(n * v.rows, m * a, v.columns);
      MulMonotone(v.columns, b, m * a);
      MulMonotone(n * v.rows * v.columns, m * a * b, bits);
    }
  }

  lemma TilesCover(extent: nat)
    ensures extent <= Tiles(extent) * TILE
  {
  }

  // ---------------------------------------------------------------- what admission means

  // max_plane is the exact maximum over all coordinates of the view.
  lemma MaxPlaneIsExact(v: View)
    requires |v.strides| == |v.leading| && Positive(v.leading)
    ensures forall c :: InBox(c, v.leading) ==> PlaneOf(v, c) <= MaxPlane(v)
    ensures InBox(Tops(v.leading), v.leading) && PlaneOf(v, Tops(v.leading)) == MaxPlane(v)
  {
    forall c | InBox(c, v.leading) ensures PlaneOf(v, c) <= MaxPlane(v) { PlaneAtMost(v, c); }
  }

  // An admitted view addresses only bits of its owner, and the last row and column of the
  // highest plane hold its largest slot.
  lemma AdmittedAddressesOwner(v: View, owner: View, c: seq<nat>, row: nat, column: nat)
    requires Admissible(v, owner) && InBox(c, v.leading) && row < v.rows && column < v.columns
    ensures SlotOf(v.rows, v.columns, PlaneOf(v, c), row, column)
         <= SlotOf(v.rows, v.columns, MaxPlane(v), v.rows - 1, v.columns - 1)
    ensures (SlotOf(v.rows, v.columns, PlaneOf(v, c), row, column) + 1) * LeafBits(v.dataType)
         <= AddressedBits(v) <= StorageBits(owner)
  {
    PlaneAtMost(v, c);
    LastSlot(v.rows, v.columns, MaxPlane(v), PlaneOf(v, c), row, column);
    MulMonotone(SlotOf(v.rows, v.columns, PlaneOf(v, c), row, column) + 1,
                SlotOf(v.rows, v.columns, MaxPlane(v), v.rows - 1, v.columns - 1) + 1, LeafBits(v.dataType));
    AddressedWithinStorage(v, owner);
  }

  // Every view that transforms reach from an owner passes the geometric conditions of admission.
  lemma ReachedViewIsAdmissible(owner: View, ts: seq<Transform>)
    requires Shaped(owner) && owner == FullView(owner.leading, owner.rows, owner.columns, owner.dataType)
    requires ApplyAll(owner, ts).Ok?
    ensures Admissible(ApplyAll(owner, ts).value, owner)
    ensures Product(ApplyAll(owner, ts).value.leading) <= Product(owner.leading)
  {
    ReachedViewAddressesOwner(owner.leading, owner.rows, owner.columns, owner.dataType, ts);
  }

  // A reached view maps distinct (coordinates, row, column) to distinct owner slots.
  lemma ReachedSlotsDistinct(owner: View, v: View, a: seq<nat>, r1: nat, c1: nat, b: seq<nat>, r2: nat, c2: nat)
    requires Sound(v, Product(owner.leading))
    requires InBox(a, v.leading) && InBox(b, v.leading)
    requires r1 < v.rows && r2 < v.rows && c1 < v.columns && c2 < v.columns
    requires SlotOf(v.rows, v.columns, PlaneOf(v, a), r1, c1) == SlotOf(v.rows, v.columns, PlaneOf(v, b), r2, c2)
    ensures a == b && r1 == r2 && c1 == c2
  {
    SlotInjective(v.rows, v.columns, PlaneOf(v, a), r1, c1, PlaneOf(v, b), r2, c2);
  }
}
