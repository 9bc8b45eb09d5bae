// The 16x16 tiled storage layout: its slots are distinct and within the padded storage.

module TiledLayout {
  import opened SizeT
  import opened MixedRadix
  import opened TensorView

  const TILE: nat := 16
  const TILE_SLOTS: nat := 256

  function LeafBits(t: DataType): (bits: nat)
    ensures 2 <= bits <= 64
  {
    match t
    case I2 | U2 => 2
    case I4 | U4 | F4_E2M1 => 4
    case F6_E2M3 | F6_E3M2 => 6
    case BOOL | I8 | U8 | F8_E4M3FN | F8_E5M2 | F8_E8M0 => 8
    case I16 | U16 | F16 | BF16 => 16
    case I32 | U32 | F32 => 32
    case I64 | U64 | F64 => 64
  }

  // Integer widths double from two bits to sixty-four, and the floating types share them.
  lemma LeafWidths()
    ensures LeafBits(I2) == 2 && LeafBits(I4) == 2 * LeafBits(I2) && LeafBits(I8) == 2 * LeafBits(I4)
    ensures LeafBits(I16) == 2 * LeafBits(I8) && LeafBits(I32) == 2 * LeafBits(I16) && LeafBits(I64) == 2 * LeafBits(I32)
    ensures LeafBits(U2) == LeafBits(I2) && LeafBits(U4) == LeafBits(I4) && LeafBits(U8) == LeafBits(I8)
    ensures LeafBits(U16) == LeafBits(I16) && LeafBits(U32) == LeafBits(I32) && LeafBits(U64) == LeafBits(I64)
    ensures LeafBits(F4_E2M1) == 1 + 2 + 1 && LeafBits(F6_E2M3) == 1 + 2 + 3 && LeafBits(F6_E3M2) == 1 + 3 + 2
    ensures LeafBits(F8_E4M3FN) == 1 + 4 + 3 && LeafBits(F8_E5M2) == 1 + 5 + 2 && LeafBits(F8_E8M0) == 8 == LeafBits(BOOL)
    ensures LeafBits(BF16) == LeafBits(F16) == LeafBits(I16) && LeafBits(F32) == LeafBits(I32) && LeafBits(F64) == LeafBits(I64)
  {
  }

  function Tiles(extent: nat): nat {
    (extent + TILE - 1) / TILE
  }

  // ---------------------------------------------------------------- slots without width limits

  // Slot of (row, column) inside one plane.
  function InPlaneSlot(columns: nat, row: nat, column: nat): nat {
    (row / TILE * Tiles(columns) + column / TILE) * TILE_SLOTS + (row % TILE * TILE + column % TILE)
  }

  function PlaneSlots(rows: nat, columns: nat): nat {
    Tiles(rows) * Tiles(columns) * TILE_SLOTS
  }

  function SlotOf(rows: nat, columns: nat, plane: nat, row: nat, column: nat): nat {
    plane * PlaneSlots(rows, columns) + InPlaneSlot(columns, row, column)
  }

  // The fewest tiles that cover an extent.
  lemma TilesCoverLeast(extent: nat)
    ensures extent <= Tiles(extent) * TILE < extent + TILE
  {
  }

  // Elements are row-major in a tile of 16 by 16, tiles are row-major in a plane, planes follow one another.
  lemma SlotSteps(rows: nat, columns: nat, plane: nat, row: nat, column: nat)
    ensures SlotOf(rows, columns, 0, 0, 0) == 0
    ensures column % 16 != 15 ==> SlotOf(rows, columns, plane, row, column + 1) == SlotOf(rows, columns, plane, row, column) + 1
    ensures row % 16 != 15 ==> SlotOf(rows, columns, plane, row + 1, column) == SlotOf(rows, columns, plane, row, column) + 16
    ensures SlotOf(rows, columns, plane, row, column + 16) == SlotOf(rows, columns, plane, row, column) + 256
    ensures SlotOf(rows, columns, plane, row + 16, column) == SlotOf(rows, columns, plane, row, column) + 256 * Tiles(columns)
    ensures SlotOf(rows, columns, plane + 1, row, column) == SlotOf(rows, columns, plane, row, column) + 256 * (Tiles(rows) * Tiles(columns))
  {
    hide Tiles;
    assert (row + 16) / TILE * Tiles(columns) == row / TILE * Tiles(columns) + Tiles(columns) by {
      assert (row + 16) / TILE == row / TILE + 1;
    }
    var n := PlaneSlots(rows, columns);
    assert (plane + 1) * n == plane * n + n;
    assert column % 16 != 15 ==> (column + 1) / TILE == column / TILE && (column + 1) % TILE == column % TILE + 1;
    assert row % 16 != 15 ==> (row + 1) / TILE == row / TILE && (row + 1) % TILE == row % TILE + 1;
    assert (column + 16) / TILE == column / TILE + 1 && (column + 16) % TILE == column % TILE;
    assert (row + 16) % TILE == row % TILE;
  }

  lemma TileDigits(x: nat, extent: nat)
    requires x < extent
    ensures x / TILE < Tiles(extent) && x == x / TILE * TILE + x % TILE
    ensures x / TILE <= (extent - 1) / TILE < Tiles(extent)
    ensures x / TILE == (extent - 1) / TILE ==> x % TILE <= (extent - 1) % TILE
  {
  }

  lemma InPlaneBound(rows: nat, columns: nat, row: nat, column: nat)
    requires row < rows && column < columns
    ensures InPlaneSlot(columns, row, column) < PlaneSlots(rows, columns)
  {
    TileDigits(row, rows);
    TileDigits(column, columns);
    BlockBound(row / TILE, Tiles(rows), Tiles(columns), column / TILE);
    BlockBound(row / TILE * Tiles(columns) + column / TILE, Tiles(rows) * Tiles(columns), TILE_SLOTS, row % TILE * TILE + column % TILE);
  }

  // Distinct matrix positions of one plane have distinct slots.
  lemma InPlaneInjective(rows: nat, columns: nat, r1: nat, c1: nat, r2: nat, c2: nat)
    requires r1 < rows && r2 < rows && c1 < columns && c2 < columns
    requires InPlaneSlot(columns, r1, c1) == InPlaneSlot(columns, r2, c2)
    ensures r1 == r2 && c1 == c2
  {
    TileDigits(c1, columns);
    TileDigits(c2, columns);
    BlockUnique(r1 / TILE * Tiles(columns) + c1 / TILE, r2 / TILE * Tiles(columns) + c2 / TILE, TILE_SLOTS,
                r1 % TILE * TILE + c1 % TILE, r2 % TILE * TILE + c2 % TILE);
    BlockUnique(r1 / TILE, r2 / TILE, Tiles(columns), c1 / TILE, c2 / TILE);
    BlockUnique(r1 % TILE, r2 % TILE, TILE, c1 % TILE, c2 % TILE);
    TileDigits(r1, rows);
    TileDigits(r2, rows);
  }

  // The tile map is injective over planes, rows and columns, and stays within padded storage.
  lemma SlotInjective(rows: nat, columns: nat, p1: nat, r1: nat, c1: nat, p2: nat, r2: nat, c2: nat)
    requires r1 < rows && r2 < rows && c1 < columns && c2 < columns
    requires SlotOf(rows, columns, p1, r1, c1) == SlotOf(rows, columns, p2, r2, c2)
    ensures p1 == p2 && r1 == r2 && c1 == c2
  {
    hide InPlaneSlot, PlaneSlots;
    InPlaneBound(rows, columns, r1, c1);
    InPlaneBound(rows, columns, r2, c2);
    BlockUnique(p1, p2, PlaneSlots(rows, columns), InPlaneSlot(columns, r1, c1), InPlaneSlot(columns, r2, c2));
    InPlaneInjective(rows, columns, r1, c1, r2, c2);
  }

  lemma SlotWithinStorage(rows: nat, columns: nat, planes: nat, plane: nat, row: nat, column: nat)
    requires plane < planes && row < rows && column < columns
    ensures SlotOf(rows, columns, plane, row, column) < planes * PlaneSlots(rows, columns)
  {
    hide InPlaneSlot, PlaneSlots;
    InPlaneBound(rows, columns, row, column);
    BlockBound(plane, planes, PlaneSlots(rows, columns), InPlaneSlot(columns, row, column));
  }

  // The last row and column of a plane hold its largest slot.
  lemma LastInPlaneSlot(rows: nat, columns: nat, row: nat, column: nat)
    requires row < rows && column < columns
    ensures InPlaneSlot(columns, row, column) <= InPlaneSlot(columns, rows - 1, columns - 1)
  {
    TileDigits(row, rows);
    TileDigits(column, columns);
    var tc := Tiles(columns);
    var t, last := row / TILE * tc + column / TILE, (rows - 1) / TILE * tc + (columns - 1) / TILE;
    var x, lastX := row % TILE * TILE + column % TILE, (rows - 1) % TILE * TILE + (columns - 1) % TILE;
    if row / TILE < (rows - 1) / TILE {
      BlockBound(row / TILE, (rows - 1) / TILE, tc, column / TILE);
    }
    if t < last { BlockBound(t, last, TILE_SLOTS, x); }
    else { BlockUnique(row / TILE, (rows - 1) / TILE, tc, column / TILE, (columns - 1) / TILE); }
  }

  lemma LastSlot(rows: nat, columns: nat, top: nat, plane: nat, row: nat, column: nat)
    requires plane <= top && row < rows && column < columns
    ensures SlotOf(rows, columns, plane, row, column) <= SlotOf(rows, columns, top, rows - 1, columns - 1)
  {
    hide InPlaneSlot, PlaneSlots;
    LastInPlaneSlot(rows, columns, row, column);
    MulMonotone(plane, top, PlaneSlots(rows, columns));
  }

  // ---------------------------------------------------------------- checked arithmetic

  // standard_plane_slot; None stands for the overflow exception.
  function StandardPlaneSlot(rows: nat, columns: nat, plane: nat, row: nat, column: nat): Option<nat> {
    var paddedRows :- CheckedAdd(rows, TILE - 1);
    var paddedColumns :- CheckedAdd(columns, TILE - 1);
    var tileRows, tileColumns := paddedRows / TILE, paddedColumns / TILE;
    var tilesPerPlane :- CheckedMul(tileRows, tileColumns);
    var planeTiles :- CheckedMul(plane, tilesPerPlane);
    var rowTiles :- CheckedMul(row / TILE, tileColumns);
    var tileInPlane :- CheckedAdd(rowTiles, column / TILE);
    var tileIndex :- CheckedAdd(planeTiles, tileInPlane);
    var tileSlots :- CheckedMul(tileIndex, TILE_SLOTS);
    var rowSlots :- CheckedMul(row % TILE, TILE);
    var inTile :- CheckedAdd(rowSlots, column % TILE);
    CheckedAdd(tileSlots, inTile)
  }

  lemma SlotFactors(a: nat, b: nat, c: nat, plane: nat, x: nat, y: nat)
    ensures (plane * (a * b) + x) * c + y == plane * (a * b * c) + (x * c + y)
  {
    assert (plane * (a * b) + x) * c == plane * (a * b) * c + x * c;
    assert plane * (a * b) * c == plane * (a * b * c);
  }

  // The checked computation yields the slot, and overflows only when the slot or a tile count does.
  lemma CheckedSlotValue(rows: nat, columns: nat, plane: nat, row: nat, column: nat)
    ensures StandardPlaneSlot(rows, columns, plane, row, column).Some? ==>
      StandardPlaneSlot(rows, columns, plane, row, column).value == SlotOf(rows, columns, plane, row, column) <= SIZE_MAX
  {
    SlotFactors(Tiles(rows), Tiles(columns), TILE_SLOTS, plane,
                row / TILE * Tiles(columns) + column / TILE, row % TILE * TILE + column % TILE);
  }

  lemma CheckedSlotSucceeds(rows: nat, columns: nat, planes: nat, plane: nat, row: nat, column: nat)
    requires plane < planes && row < rows && column < columns
    requires planes * PlaneSlots(rows, columns) <= SIZE_MAX
    ensures StandardPlaneSlot(rows, columns, plane, row, column) == Some(SlotOf(rows, columns, plane, row, column))
  {
    hide SlotOf, PlaneSlots, StandardPlaneSlot, Tiles, InPlaneSlot;
    SlotWithinStorage(rows, columns, planes, plane, row, column);
    SlotAsTiles(rows, columns, plane, row, column);
    OnePlaneFits(rows, columns, planes);
    CheckedSlotSteps(rows, columns, plane, row, column, Tiles(rows) * Tiles(columns),
                     plane * (Tiles(rows) * Tiles(columns)), row / TILE * Tiles(columns));
  }

  lemma SlotAsTiles(rows: nat, columns: nat, plane: nat, row: nat, column: nat)
    ensures SlotOf(rows, columns, plane, row, column)
         == (plane * (Tiles(rows) * Tiles(columns)) + (row / TILE * Tiles(columns) + column / TILE)) * TILE_SLOTS
            + (row % TILE * TILE + column % TILE)
  {
    SlotFactors(Tiles(rows), Tiles(columns), TILE_SLOTS, plane,
                row / TILE * Tiles(columns) + column / TILE, row % TILE * TILE + column % TILE);
  }

  lemma OnePlaneFits(rows: nat, columns: nat, planes: nat)
    requires planes > 0 && rows > 0 && columns > 0
    ensures Tiles(rows) * Tiles(columns) * TILE_SLOTS <= planes * PlaneSlots(rows, columns)
    ensures 0 < Tiles(rows) <= Tiles(rows) * Tiles(columns) && 0 < Tiles(columns) <= Tiles(rows) * Tiles(columns)
  {
    TileDigits(0, rows);
    TileDigits(0, columns);
    MulPositive(Tiles(rows), Tiles(columns));
    MulMonotone(1, planes, PlaneSlots(rows, columns));
  }

  // With the products named, every intermediate value is bounded by the slot.
  lemma CheckedSlotSteps(rows: nat, columns: nat, plane: nat, row: nat, column: nat, tiles: nat, a: nat, b: nat)
    requires tiles == Tiles(rows) * Tiles(columns) && a == plane * tiles && b == row / TILE * Tiles(columns)
    requires tiles * TILE_SLOTS <= SIZE_MAX && 0 < Tiles(rows) <= tiles && 0 < Tiles(columns) <= tiles
    requires (a + (b + column / TILE)) * TILE_SLOTS + (row % TILE * TILE + column % TILE) <= SIZE_MAX
    ensures StandardPlaneSlot(rows, columns, plane, row, column)
         == Some((a + (b + column / TILE)) * TILE_SLOTS + (row % TILE * TILE + column % TILE))
  {
    assert CheckedMul(Tiles(rows), Tiles(columns)) == Some(tiles);
    assert CheckedMul(plane, tiles) == Some(a);
    assert CheckedMul(row / TILE, Tiles(columns)) == Some(b);
  }

  // Bytes that hold a number of bits.
  function BitsToBytes(bits: nat): nat {
    (bits + 7) / 8
  }

  lemma BytesHoldBits(bits: nat)
    ensures bits <= 8 * BitsToBytes(bits) < bits + 8
  {
  }

  // tiled_storage_nbytes of an owner does not overflow.
  ghost predicate ValidlySized(owner: View) {
    && Shaped(owner)
    && Product(owner.leading) * PlaneSlots(owner.rows, owner.columns) * LeafBits(owner.dataType) + 7 <= SIZE_MAX
  }
}
