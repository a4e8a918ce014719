/** World-space vectors, the hexagon corner table and the offset-to-world
    transform of the hex grid (src/hex_grid.rs). Coordinates are reals: the
    f32 rounding of the original is not modelled. */
module HexGeometry {

  datatype Vec3 = Vec3(x: real, y: real, z: real) {
    function Add(o: Vec3): Vec3 {
      Vec3(x + o.x, y + o.y, z + o.z)
    }
    /** The horizontal projection used as a texture coordinate (`Vec3::xz`). */
    function XZ(): Vec2 {
      Vec2(x, z)
    }
  }

  datatype Vec2 = Vec2(x: real, y: real)

  /** `Vec3::Y`, the up normal of every tile vertex. */
  const UP: Vec3 := Vec3(0.0, 1.0, 0.0)

  const OUTER_RADIUS: real := 1.0
  const INNER_RADIUS: real := OUTER_RADIUS * 0.866025404

  /** Corner offsets of a flat hexagon around its centre, in order: north,
      then clockwise seen from above (+x east, +z north). */
  const HEX_CORNERS: seq<Vec3> := [
    Vec3(0.0, 0.0, OUTER_RADIUS),
    Vec3(INNER_RADIUS, 0.0, 0.5 * OUTER_RADIUS),
    Vec3(INNER_RADIUS, 0.0, -0.5 * OUTER_RADIUS),
    Vec3(0.0, 0.0, -OUTER_RADIUS),
    Vec3(-INNER_RADIUS, 0.0, -0.5 * OUTER_RADIUS),
    Vec3(-INNER_RADIUS, 0.0, 0.5 * OUTER_RADIUS)
  ]

  /** Maps an offset position (column in x, elevation in y, row in z) to the
      world position of that cell: odd rows are shifted half a cell east. */
  function ToHexPos(pos: Vec3): (r: Vec3)
    ensures r.y == pos.y
  {
    Vec3(ShiftedColumn(pos) * (INNER_RADIUS * 2.0), pos.y, pos.z * OUTER_RADIUS * 1.5)
  }

  /** The column of `pos` in cell widths, with odd rows moved half a cell east. */
  function ShiftedColumn(pos: Vec3): real {
    pos.x + pos.z * 0.5 - (pos.z / 2.0).Floor as real
  }

  /** The east shift of a row: nothing for even rows, half a cell for odd ones. */
  function RowShift(row: int): real {
    if row % 2 == 0 then 0.0 else INNER_RADIUS
  }

  /** World position of cell (col, row) at elevation y. */
  function CellCenter(col: int, row: int, y: real): Vec3 {
    ToHexPos(Vec3(col as real, y, row as real))
  }

  /** Halving a row index and flooring agrees with integer division. */
  lemma FloorHalf(row: int)
    ensures (row as real / 2.0).Floor == row / 2
  {
    var q, m := row / 2, row % 2;
    assert row as real / 2.0 == q as real + m as real / 2.0;
  }

  /** On integer cells the transform places column `col` of row `row` at
      `col` whole cell widths east, plus the odd-row shift, and row `row` at
      1.5 outer radii north per row; the elevation passes through. */
  lemma CellCenterOffset(col: int, row: int, y: real)
    ensures CellCenter(col, row, y)
         == Vec3(col as real * 2.0 * INNER_RADIUS + RowShift(row), y, row as real * 1.5 * OUTER_RADIUS)
  {
    FloorHalf(row);
    var q, m := row / 2, row % 2;
    assert row as real * 0.5 - q as real == m as real * 0.5;
  }

  /** The stagger repeats every two rows: moving any position two rows north
      changes only its z, by three outer radii. */
  lemma RowPeriod(pos: Vec3)
    ensures ToHexPos(Vec3(pos.x, pos.y, pos.z + 2.0))
         == ToHexPos(pos).Add(Vec3(0.0, 0.0, 3.0 * OUTER_RADIUS))
  {
    var moved := Vec3(pos.x, pos.y, pos.z + 2.0);
    FloorStep(pos.z);
    assert ShiftedColumn(moved) == ShiftedColumn(pos);
    HexPosZShift(pos);
  }

  lemma HexPosZShift(p: Vec3)
    ensures ToHexPos(Vec3(p.x, p.y, p.z + 2.0)).z == ToHexPos(p).z + 3.0 * OUTER_RADIUS
  {
  }

  lemma FloorStep(z: real)
    ensures ((z + 2.0) / 2.0).Floor == (z / 2.0).Floor + 1
  {
    assert (z + 2.0) / 2.0 == z / 2.0 + 1.0;
  }

  /** Placing a grid at the world position of an offset (ox, oz) with an even
      row offset lands each of its cells where the same transform puts the
      cell (ox + col, oz + row): chunk-local grids line up with one global
      grid when the chunk height in rows is even. */
  lemma EvenRowShift(ox: int, oz: int, col: int, row: int, y: real)
    requires oz % 2 == 0
    ensures CellCenter(ox, oz, 0.0).Add(CellCenter(col, row, y)) == CellCenter(ox + col, oz + row, y)
  {
    CellCenterOffset(ox, oz, 0.0);
    CellCenterOffset(col, row, y);
    CellCenterOffset(ox + col, oz + row, y);
    assert (oz + row) % 2 == row % 2;
  }
}
