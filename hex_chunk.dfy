/** Assembly of one chunk of N x N hexagon tiles (`create_chunk`,
    `add_tile_sides` in src/hex_grid.rs): a first pass appends every tile's
    fan in row-major order, a second pass adds a side wall towards each
    in-chunk neighbour whose elevation differs. Tile (x, z) owns the seven
    vertices starting at (x + z * N) * 7, and neighbours are found by
    arithmetic on that layout. */
module HexChunk {
  import opened HexGeometry
  import opened HexTile

  /** The chunk size of the original; the model takes it as a parameter `n`. */
  const CHUNK_SIZE: nat := 32

  /** Index of the centre vertex of tile (x, z) in the chunk's vertex buffer. */
  function TileBase(n: nat, x: nat, z: nat): nat {
    (x + z * n) * 7
  }

  /** The elevation of tile (x, z): the RNG draw it consumes, the
      (x + z * n)-th of the chunk, as the tiles are built row by row. */
  function TileHeight(n: nat, draw: nat -> int, x: nat, z: nat): int {
    draw(x + z * n)
  }

  /** World position of the centre of tile (x, z). */
  function TileCenter(n: nat, draw: nat -> int, x: nat, z: nat): Vec3 {
    ToHexPos(Vec3(x as real, TileHeight(n, draw, x, z) as real, z as real))
  }

  lemma TileBaseNextRow(n: nat, x: nat, z: nat)
    ensures TileBase(n, x, z + 1) == TileBase(n, x, z) + n * 7
  {
    assert (z + 1) * n == z * n + n;
  }

  lemma TileBaseBound(n: nat, x: nat, z: nat)
    requires x < n && z < n
    ensures TileBase(n, x, z) + 7 <= n * n * 7
  {
    assert (z + 1) * n == z * n + n;
    MulLeq(z + 1, n, n);
    assert x + z * n + 1 <= n * n;
    MulLeq(x + z * n + 1, n * n, 7);
  }

  lemma MulLeq(a: nat, b: nat, c: nat)
    requires a <= b
    ensures a * c <= b * c
  {
  }

  // ---------------------------------------------------------------------
  // The neighbour rule

  /** The quads `add_tile_sides` hands to `create_quad` for tile (x, z) whose
      centre vertex is `idx`, in call order: east; then towards row z + 1
      (straight up for even rows, up and right for odd rows); then towards
      the upper-left tile, whose two branches are guarded differently for
      even and odd rows. */
  function TileSideQuads(n: nat, x: nat, z: nat, idx: nat): (r: seq<Quad>)
    requires x < n && z < n
    ensures |r| <= 3
  {
    EastQuad(n, x, idx) + NorthQuad(n, n * 7, x, z, idx) + WestEvenQuad(n * 7, x, z, idx) + WestOddQuad(n, n * 7, z, idx)
  }

  function EastQuad(n: nat, x: nat, idx: nat): (r: seq<Quad>)
    ensures |r| <= 1
  {
    var cTile := idx + 1;
    if x < n - 1 then
      var nTile := cTile + 7;
      [Quad(cTile + 1, cTile + 2, nTile + 4, nTile + 5)]
    else []
  }

  function NorthQuad(n: nat, rowWidth: nat, x: nat, z: nat, idx: nat): (r: seq<Quad>)
    ensures |r| <= 1
  {
    var cTile := idx + 1;
    if z < n - 1 then
      if z % 2 == 0 then
        var dTile := cTile + rowWidth;
        [Quad(cTile, cTile + 1, dTile + 3, dTile + 4)]
      else if x < n - 1 then
        var dTile := cTile + rowWidth + 7;
        [Quad(cTile, cTile + 1, dTile + 3, dTile + 4)]
      else []
    else []
  }

  function WestEvenQuad(rowWidth: nat, x: nat, z: nat, idx: nat): (r: seq<Quad>)
    requires x == 0 || rowWidth >= 7
    ensures |r| <= 1 && (z % 2 == 1 ==> r == [])
  {
    var cTile := idx + 1;
    if x > 0 && z % 2 == 0 then
      var dTile := cTile + rowWidth - 7;
      [Quad(cTile + 5, cTile, dTile + 2, dTile + 3)]
    else []
  }

  function WestOddQuad(n: nat, rowWidth: nat, z: nat, idx: nat): (r: seq<Quad>)
    ensures |r| <= 1 && (z % 2 == 0 ==> r == [])
  {
    var cTile := idx + 1;
    if z % 2 == 1 && z < n - 1 then
      var dTile := cTile + rowWidth;
      [Quad(cTile + 5, cTile, dTile + 2, dTile + 3)]
    else []
  }

  /** The three sides of a tile that it is responsible for walling; the
      other three belong to its west and southern neighbours. */
  datatype Side = East | NorthEast | NorthWest

  /** The offset-grid adjacency table: the tile across a side, for a grid
      whose odd rows are shifted half a cell east. */
  function Neighbour(x: int, z: int, s: Side): (int, int) {
    match s
    case East => (x + 1, z)
    case NorthEast => if z % 2 == 0 then (x, z + 1) else (x + 1, z + 1)
    case NorthWest => if z % 2 == 0 then (x - 1, z + 1) else (x, z + 1)
  }

  /** The corners along a side, as (a, b, nb, na): corners a and b of the
      tile bound the side, corner na of the neighbour lies on a and corner
      nb on b. */
  function EdgeCorners(s: Side): (nat, nat, nat, nat) {
    match s
    case East => (1, 2, 4, 5)
    case NorthEast => (0, 1, 3, 4)
    case NorthWest => (5, 0, 2, 3)
  }

  /** Axial coordinates of an offset cell, for a grid whose odd rows are
      shifted half a cell east: the row stays and the column is skewed by
      half the row, so that the six neighbours differ by fixed steps. */
  function Axial(x: int, z: int): (int, int) {
    (x - (z - z % 2) / 2, z)
  }

  /** Two cells are adjacent when their axial coordinates differ by one of
      the six hexagon directions. */
  predicate Adjacent(a: (int, int), b: (int, int)) {
    var (q, r) := Axial(a.0, a.1);
    var (bq, br) := Axial(b.0, b.1);
    (bq - q, br - r) in {(1, 0), (-1, 0), (0, 1), (0, -1), (1, -1), (-1, 1)}
  }

  /** The table names only adjacent cells. */
  lemma NeighbourAdjacent(x: int, z: int, s: Side)
    ensures Adjacent((x, z), Neighbour(x, z, s))
  {
  }

  /** The three sides of the table cover every adjacency: of two adjacent
      cells, one is the neighbour of the other across one of its sides. */
  lemma AdjacentHasSide(a: (int, int), b: (int, int))
    requires Adjacent(a, b)
    ensures exists s :: Neighbour(a.0, a.1, s) == b || Neighbour(b.0, b.1, s) == a
  {
    var (q, r) := Axial(a.0, a.1);
    var (bq, br) := Axial(b.0, b.1);
    if br == r {
      if bq == q + 1 {
        assert Neighbour(a.0, a.1, East) == b;
      } else {
        assert Neighbour(b.0, b.1, East) == a;
      }
    } else if br == r + 1 {
      if bq == q {
        assert Neighbour(a.0, a.1, NorthEast) == b;
      } else {
        assert Neighbour(a.0, a.1, NorthWest) == b;
      }
    } else {
      if bq == q {
        assert Neighbour(b.0, b.1, NorthEast) == a;
      } else {
        assert Neighbour(b.0, b.1, NorthWest) == a;
      }
    }
  }

  /** Each adjacent pair is a table side of only one tile, and across only
      one of its sides, so no pair is walled twice. */
  lemma SideUnique(a: (int, int), s: Side, t: Side)
    ensures Neighbour(Neighbour(a.0, a.1, s).0, Neighbour(a.0, a.1, s).1, t) != a
    ensures Neighbour(a.0, a.1, t) == Neighbour(a.0, a.1, s) ==> t == s
  {
  }

  /** The corner table matches the geometry: whatever the two elevations,
      the corners EdgeCorners pairs up sit at the same horizontal position,
      so a wall between them is vertical and closes the gap exactly. */
  lemma SharedEdge(x: int, z: int, s: Side, y: real, ny: real)
    ensures
      var (nx, nz) := Neighbour(x, z, s);
      var (a, b, nb, na) := EdgeCorners(s);
      && a < 6 && b < 6 && nb < 6 && na < 6
      && CellCenter(x, z, y).Add(HEX_CORNERS[a]).XZ() == CellCenter(nx, nz, ny).Add(HEX_CORNERS[na]).XZ()
      && CellCenter(x, z, y).Add(HEX_CORNERS[b]).XZ() == CellCenter(nx, nz, ny).Add(HEX_CORNERS[nb]).XZ()
  {
    var (nx, nz) := Neighbour(x, z, s);
    CellCenterOffset(x, z, y);
    CellCenterOffset(nx, nz, ny);
    if s != East {
      assert nz % 2 != z % 2;
    }
  }

  predicate InChunk(n: nat, c: (int, int)) {
    0 <= c.0 < n && 0 <= c.1 < n
  }

  /** The wall towards the neighbour across side `s`, built from the corner table. */
  function SideQuad(n: nat, x: nat, z: nat, s: Side): Quad
    requires InChunk(n, Neighbour(x, z, s))
  {
    var (nx, nz) := Neighbour(x, z, s);
    var (a, b, nb, na) := EdgeCorners(s);
    var base, nBase := TileBase(n, x, z), TileBase(n, nx as nat, nz as nat);
    Quad(base + 1 + a, base + 1 + b, nBase + 1 + nb, nBase + 1 + na)
  }

  function SideIfPresent(n: nat, x: nat, z: nat, s: Side): seq<Quad> {
    if InChunk(n, Neighbour(x, z, s)) then [SideQuad(n, x, z, s)] else []
  }

  /** The walls a tile should receive: one per side whose neighbour lies in
      the chunk, east first, then north-east, then north-west. */
  function TableSides(n: nat, x: nat, z: nat): seq<Quad> {
    SideIfPresent(n, x, z, East) + SideIfPresent(n, x, z, NorthEast) + SideIfPresent(n, x, z, NorthWest)
  }

  predicate QuadWithin(q: Quad, bound: int) {
    q.v1 < bound && q.v2 < bound && q.v3 < bound && q.v4 < bound
  }

  predicate QuadsWithin(qs: seq<Quad>, bound: int) {
    forall i :: 0 <= i < |qs| ==> QuadWithin(qs[i], bound)
  }

  /** For an even chunk size the guards of `add_tile_sides` select exactly
      the in-chunk neighbours of the table, with the corners the table pairs. */
  lemma SideQuadsFollowTable(n: nat, x: nat, z: nat)
    requires n % 2 == 0 && x < n && z < n
    ensures TileSideQuads(n, x, z, TileBase(n, x, z)) == TableSides(n, x, z)
  {
    var idx := TileBase(n, x, z);
    EastFollowsTable(n, x, z);
    NorthEastFollowsTable(n, x, z);
    NorthWestFollowsTable(n, x, z);
    assert TileSideQuads(n, x, z, idx)
        == EastQuad(n, x, idx) + NorthQuad(n, n * 7, x, z, idx) + (WestEvenQuad(n * 7, x, z, idx) + WestOddQuad(n, n * 7, z, idx));
  }

  /** The first block walls the east side exactly when the east neighbour
      is in the chunk. */
  lemma EastFollowsTable(n: nat, x: nat, z: nat)
    requires x < n && z < n
    ensures EastQuad(n, x, TileBase(n, x, z)) == SideIfPresent(n, x, z, East)
  {
    if x < n - 1 {
      TileBaseNextColumn(n, x, z);
    }
  }

  /** The second block walls the north-east side exactly when that
      neighbour is in the chunk. */
  lemma NorthEastFollowsTable(n: nat, x: nat, z: nat)
    requires x < n && z < n
    ensures NorthQuad(n, n * 7, x, z, TileBase(n, x, z)) == SideIfPresent(n, x, z, NorthEast)
  {
    TileBaseNextRow(n, x, z);
    if x < n - 1 {
      TileBaseNextColumn(n, x, z + 1);
    }
  }

  /** The two upper-left blocks together wall the north-west side exactly
      when that neighbour is in the chunk; on even rows this relies on an
      even chunk size, since that block does not check the row. */
  lemma NorthWestFollowsTable(n: nat, x: nat, z: nat)
    requires n % 2 == 0 && x < n && z < n
    ensures WestEvenQuad(n * 7, x, z, TileBase(n, x, z)) + WestOddQuad(n, n * 7, z, TileBase(n, x, z))
         == SideIfPresent(n, x, z, NorthWest)
  {
    TileBaseNextRow(n, x, z);
    if z % 2 == 0 {
      assert z < n - 1;
      if x > 0 {
        TileBaseNextColumn(n, x - 1, z + 1);
      }
    }
  }

  lemma TileBaseNextColumn(n: nat, x: nat, z: nat)
    ensures TileBase(n, x + 1, z) == TileBase(n, x, z) + 7
  {
  }

  /** Every vertex named by a quad of `add_tile_sides` lies in the chunk's
      vertex buffer when the chunk size is even. */
  lemma SideQuadsInBounds(n: nat, x: nat, z: nat)
    requires n % 2 == 0 && x < n && z < n
    ensures QuadsWithin(TileSideQuads(n, x, z, TileBase(n, x, z)), n * n * 7)
  {
    SideQuadsFollowTable(n, x, z);
    TileBaseBound(n, x, z);
    forall s: Side | InChunk(n, Neighbour(x, z, s))
      ensures QuadWithin(SideQuad(n, x, z, s), n * n * 7)
    {
      var (nx, nz) := Neighbour(x, z, s);
      TileBaseBound(n, nx as nat, nz as nat);
    }
  }

  /** Why the chunk size must be even: with an odd size of at least 3, the
      upper-left branch of tile (1, n - 1), which has no row guard, names
      vertex n * n * 7 + 3, past the end of the n * n * 7 vertices. */
  lemma OddSizeOverruns(n: nat)
    requires n % 2 == 1 && n >= 3
    ensures var qs := TileSideQuads(n, 1, n - 1, TileBase(n, 1, n - 1));
      |qs| == 2 && qs[1].v3 == n * n * 7 + 3
  {
    assert TileBase(n, 1, n - 1) == n * n * 7 - n * 7 + 7 by {
      assert (n - 1) * n == n * n - n;
    }
  }

  // ---------------------------------------------------------------------
  // Side walls

  /** Every vertex that `create_quad` reads for these quads exists. */
  predicate ReadsInBounds(verts: seq<Vec3>, qs: seq<Quad>) {
    forall i :: 0 <= i < |qs| ==> qs[i].v1 < |verts| && qs[i].v3 < |verts|
  }

  lemma SplitReads(verts: seq<Vec3>, a: seq<Quad>, b: seq<Quad>)
    requires ReadsInBounds(verts, a + b)
    ensures ReadsInBounds(verts, a) && ReadsInBounds(verts, b)
  {
    forall i | 0 <= i < |a|
      ensures a[i].v1 < |verts| && a[i].v3 < |verts|
    {
      assert (a + b)[i] == a[i];
    }
    forall i | 0 <= i < |b|
      ensures b[i].v1 < |verts| && b[i].v3 < |verts|
    {
      assert (a + b)[|a| + i] == b[i];
    }
  }

  lemma SplitWithin(a: seq<Quad>, b: seq<Quad>, bound: int)
    requires QuadsWithin(a + b, bound)
    ensures QuadsWithin(a, bound) && QuadsWithin(b, bound)
  {
    forall i | 0 <= i < |a|
      ensures QuadWithin(a[i], bound)
    {
      assert (a + b)[i] == a[i];
    }
    forall i | 0 <= i < |b|
      ensures QuadWithin(b[i], bound)
    {
      assert (a + b)[|a| + i] == b[i];
    }
  }

  /** The four branches of `add_tile_sides` each read only existing vertices. */
  lemma SplitBranchReads(n: nat, verts: seq<Vec3>, x: nat, z: nat, idx: nat)
    requires x < n && z < n && ReadsInBounds(verts, TileSideQuads(n, x, z, idx))
    ensures ReadsInBounds(verts, EastQuad(n, x, idx))
    ensures ReadsInBounds(verts, NorthQuad(n, n * 7, x, z, idx))
    ensures ReadsInBounds(verts, WestEvenQuad(n * 7, x, z, idx))
    ensures ReadsInBounds(verts, WestOddQuad(n, n * 7, z, idx))
  {
    var east, north := EastQuad(n, x, idx), NorthQuad(n, n * 7, x, z, idx);
    var westEven, westOdd := WestEvenQuad(n * 7, x, z, idx), WestOddQuad(n, n * 7, z, idx);
    SplitReads(verts, east + north + westEven, westOdd);
    SplitReads(verts, east + north, westEven);
    SplitReads(verts, east, north);
  }

  /** What `create_quad` appends for a branch of `add_tile_sides` that
      produced at most one quad. */
  function BranchWalls(verts: seq<Vec3>, branch: seq<Quad>): (r: seq<nat>)
    requires |branch| <= 1 && ReadsInBounds(verts, branch)
    ensures |r| == 0 || |r| == 6
  {
    if branch == [] then []
    else
      WallIndices(verts, branch[0])
  }

  /** A branch whose quad names existing vertices appends only existing
      vertex indices. */
  lemma BranchWallsBounded(verts: seq<Vec3>, branch: seq<Quad>)
    requires |branch| <= 1 && ReadsInBounds(verts, branch) && QuadsWithin(branch, |verts|)
    ensures IndicesBelow(BranchWalls(verts, branch), |verts|)
  {
  }

  /** The four guarded blocks of `add_tile_sides` in call order, each as the
      quad it hands to `create_quad`, or nothing when its guard fails. */
  function TileBlocks(n: nat, x: nat, z: nat, idx: nat): (r: seq<seq<Quad>>)
    requires x < n
    ensures |r| == 4
  {
    [EastQuad(n, x, idx), NorthQuad(n, n * 7, x, z, idx), WestEvenQuad(n * 7, x, z, idx), WestOddQuad(n, n * 7, z, idx)]
  }

  /** The blocks hold the quads of the neighbour rule, in call order. */
  lemma TileSideQuadsAreBlocks(n: nat, x: nat, z: nat, idx: nat)
    requires x < n && z < n
    ensures var blocks := TileBlocks(n, x, z, idx);
      TileSideQuads(n, x, z, idx) == blocks[0] + blocks[1] + blocks[2] + blocks[3]
  {
  }

  /** Every block holds at most one quad, and `create_quad` can read it. */
  predicate BlocksRead(verts: seq<Vec3>, blocks: seq<seq<Quad>>) {
    forall j :: 0 <= j < |blocks| ==> |blocks[j]| <= 1 && ReadsInBounds(verts, blocks[j])
  }

  lemma TileBlocksRead(n: nat, verts: seq<Vec3>, x: nat, z: nat, idx: nat)
    requires x < n && z < n && ReadsInBounds(verts, TileSideQuads(n, x, z, idx))
    ensures BlocksRead(verts, TileBlocks(n, x, z, idx))
  {
    SplitBranchReads(n, verts, x, z, idx);
  }

  /** What the first `k` blocks append, one block after the other. */
  function BlockWalls(verts: seq<Vec3>, blocks: seq<seq<Quad>>, k: nat): (r: seq<nat>)
    requires k <= |blocks| && BlocksRead(verts, blocks)
    ensures |r| <= 6 * k
  {
    if k == 0 then [] else BlockWalls(verts, blocks, k - 1) + BranchWalls(verts, blocks[k - 1])
  }

  /** Running block k after the first k appends its walls to theirs. */
  lemma BlockStep(o: seq<nat>, verts: seq<Vec3>, blocks: seq<seq<Quad>>, k: nat, before: seq<nat>, after: seq<nat>)
    requires k < |blocks| && BlocksRead(verts, blocks)
    requires before == o + BlockWalls(verts, blocks, k)
    requires after == before + BranchWalls(verts, blocks[k])
    ensures after == o + BlockWalls(verts, blocks, k + 1)
  {
    AppendStep(o, BlockWalls(verts, blocks, k), BranchWalls(verts, blocks[k]));
  }

  /** What `add_tile_sides` appends for tile (x, z) with centre vertex `idx`:
      the walls of its four blocks in call order. */
  function TileSideIndices(n: nat, verts: seq<Vec3>, x: nat, z: nat, idx: nat): seq<nat>
    requires x < n && z < n && ReadsInBounds(verts, TileSideQuads(n, x, z, idx))
  {
    TileBlocksRead(n, verts, x, z, idx);
    BlockWalls(verts, TileBlocks(n, x, z, idx), 4)
  }

  lemma SideQuadWithin(n: nat, x: nat, z: nat, s: Side)
    requires x < n && z < n && InChunk(n, Neighbour(x, z, s))
    ensures QuadWithin(SideQuad(n, x, z, s), n * n * 7)
  {
    var (nx, nz) := Neighbour(x, z, s);
    TileBaseBound(n, x, z);
    TileBaseBound(n, nx as nat, nz as nat);
  }

  /** The indices the adjacency table calls for across side `s` of tile
      (x, z): the wall `create_quad` builds on the side quad when the
      neighbour is in the chunk, nothing otherwise. */
  function SideWall(n: nat, verts: seq<Vec3>, x: nat, z: nat, s: Side): (r: seq<nat>)
    requires x < n && z < n && |verts| == n * n * 7
    ensures |r| == 0 || |r| == 6
  {
    if InChunk(n, Neighbour(x, z, s)) then
      SideQuadWithin(n, x, z, s);
      WallIndices(verts, SideQuad(n, x, z, s))
    else []
  }

  /** The sides a tile walls, in the order `add_tile_sides` visits them. */
  const SIDES: seq<Side> := [East, NorthEast, NorthWest]

  /** The walls the table calls for across the first k sides of tile (x, z);
      with k = 3, everything tile (x, z) should receive. */
  function TableWalls(n: nat, verts: seq<Vec3>, x: nat, z: nat, k: nat): (r: seq<nat>)
    requires x < n && z < n && |verts| == n * n * 7 && k <= |SIDES|
    ensures |r| <= 6 * k
  {
    if k == 0 then [] else TableWalls(n, verts, x, z, k - 1) + SideWall(n, verts, x, z, SIDES[k - 1])
  }

  lemma BranchIsSideWall(n: nat, verts: seq<Vec3>, x: nat, z: nat, s: Side, branch: seq<Quad>)
    requires x < n && z < n && |verts| == n * n * 7
    requires branch == SideIfPresent(n, x, z, s) && ReadsInBounds(verts, branch)
    ensures BranchWalls(verts, branch) == SideWall(n, verts, x, z, s)
  {
  }

  /** What `add_tile_sides` appends is the walls of its four blocks, one
      after the other. */
  lemma TileSideIndicesByBlocks(n: nat, verts: seq<Vec3>, x: nat, z: nat, idx: nat)
    requires x < n && z < n && ReadsInBounds(verts, TileSideQuads(n, x, z, idx))
    ensures BlocksRead(verts, TileBlocks(n, x, z, idx))
    ensures var blocks := TileBlocks(n, x, z, idx);
      TileSideIndices(n, verts, x, z, idx)
      == BranchWalls(verts, blocks[0]) + BranchWalls(verts, blocks[1]) + BranchWalls(verts, blocks[2]) + BranchWalls(verts, blocks[3])
  {
    var blocks := TileBlocks(n, x, z, idx);
    TileBlocksRead(n, verts, x, z, idx);
    var w := seq(4, j requires 0 <= j < 4 => BranchWalls(verts, blocks[j]));
    assert BlockWalls(verts, blocks, 1) == w[0];
    assert BlockWalls(verts, blocks, 2) == w[0] + w[1];
    assert BlockWalls(verts, blocks, 4) == w[0] + w[1] + w[2] + w[3];
  }

  /** For an even chunk size `add_tile_sides` appends exactly the walls the
      table calls for, side by side. */
  lemma TileSidesFollowTable(n: nat, verts: seq<Vec3>, x: nat, z: nat)
    requires n % 2 == 0 && x < n && z < n && |verts| == n * n * 7
    ensures ReadsInBounds(verts, TileSideQuads(n, x, z, TileBase(n, x, z)))
    ensures TileSideIndices(n, verts, x, z, TileBase(n, x, z)) == TableWalls(n, verts, x, z, 3)
  {
    var idx := TileBase(n, x, z);
    SideQuadsInBounds(n, x, z);
    var blocks := TileBlocks(n, x, z, idx);
    TileSideIndicesByBlocks(n, verts, x, z, idx);
    EastFollowsTable(n, x, z);
    NorthEastFollowsTable(n, x, z);
    NorthWestFollowsTable(n, x, z);
    BranchIsSideWall(n, verts, x, z, East, blocks[0]);
    BranchIsSideWall(n, verts, x, z, NorthEast, blocks[1]);
    if z % 2 == 0 {
      BranchIsSideWall(n, verts, x, z, NorthWest, blocks[2]);
    } else {
      BranchIsSideWall(n, verts, x, z, NorthWest, blocks[3]);
    }
    TableWallsSides(n, verts, x, z);
    ConcatBlocks(BranchWalls(verts, blocks[0]), BranchWalls(verts, blocks[1]), BranchWalls(verts, blocks[2]), BranchWalls(verts, blocks[3]),
      SideWall(n, verts, x, z, East), SideWall(n, verts, x, z, NorthEast), SideWall(n, verts, x, z, NorthWest));
  }

  /** A tile's walls by the table are its east, north-east and north-west walls. */
  lemma TableWallsSides(n: nat, verts: seq<Vec3>, x: nat, z: nat)
    requires x < n && z < n && |verts| == n * n * 7
    ensures TableWalls(n, verts, x, z, 3)
         == SideWall(n, verts, x, z, East) + SideWall(n, verts, x, z, NorthEast) + SideWall(n, verts, x, z, NorthWest)
  {
    EmptyAppend(SideWall(n, verts, x, z, East));
    assert TableWalls(n, verts, x, z, 1) == SideWall(n, verts, x, z, East);
    assert TableWalls(n, verts, x, z, 2) == SideWall(n, verts, x, z, East) + SideWall(n, verts, x, z, NorthEast);
  }

  lemma EmptyAppend(a: seq<nat>)
    ensures [] + a == a
  {
  }

  /** Four blocks, of which one of the last two is empty, make up three walls. */
  lemma ConcatBlocks(a: seq<nat>, b: seq<nat>, c: seq<nat>, d: seq<nat>, e: seq<nat>, f: seq<nat>, g: seq<nat>)
    requires a == e && b == f && ((c == g && d == []) || (c == [] && d == g))
    ensures a + b + c + d == e + f + g
  {
  }

  /** A tile gets at most three walls: the two upper-left blocks exclude
      each other. */
  lemma AtMostThreeWalls(n: nat, verts: seq<Vec3>, x: nat, z: nat, idx: nat)
    requires x < n && z < n && ReadsInBounds(verts, TileSideQuads(n, x, z, idx))
    ensures |TileSideIndices(n, verts, x, z, idx)| <= 18
  {
    var blocks := TileBlocks(n, x, z, idx);
    TileBlocksRead(n, verts, x, z, idx);
    assert |blocks[2]| == 0 || |blocks[3]| == 0;
    assert |BlockWalls(verts, blocks, 4)| <= |BlockWalls(verts, blocks, 2)| + 6;
  }

  /** When the quads of every block lie in the buffer, so does every index
      the first k blocks append. */
  lemma {:induction false} BlockWallsBounded(verts: seq<Vec3>, blocks: seq<seq<Quad>>, k: nat)
    requires k <= |blocks| && BlocksRead(verts, blocks)
    requires forall j :: 0 <= j < |blocks| ==> QuadsWithin(blocks[j], |verts|)
    ensures IndicesBelow(BlockWalls(verts, blocks, k), |verts|)
  {
    if k > 0 {
      BlockWallsBounded(verts, blocks, k - 1);
      BranchWallsBounded(verts, blocks[k - 1]);
      ConcatBounded(BlockWalls(verts, blocks, k - 1), BranchWalls(verts, blocks[k - 1]), |verts|);
    }
  }

  /** When every quad of the tile lies in the buffer, so does every index
      `add_tile_sides` appends for it. */
  lemma TileSideIndicesBounded(n: nat, verts: seq<Vec3>, x: nat, z: nat, idx: nat)
    requires x < n && z < n && ReadsInBounds(verts, TileSideQuads(n, x, z, idx))
    requires QuadsWithin(TileSideQuads(n, x, z, idx), |verts|)
    ensures IndicesBelow(TileSideIndices(n, verts, x, z, idx), |verts|)
  {
    var rowWidth := n * 7;
    var east, north := EastQuad(n, x, idx), NorthQuad(n, rowWidth, x, z, idx);
    var westEven, westOdd := WestEvenQuad(rowWidth, x, z, idx), WestOddQuad(n, rowWidth, z, idx);
    SplitWithin(east + north + westEven, westOdd, |verts|);
    SplitWithin(east + north, westEven, |verts|);
    SplitWithin(east, north, |verts|);
    TileBlocksRead(n, verts, x, z, idx);
    BlockWallsBounded(verts, TileBlocks(n, x, z, idx), 4);
  }

  /** Every index of `s` names one of the first `bound` vertices. */
  predicate IndicesBelow(s: seq<nat>, bound: int) {
    forall k :: 0 <= k < |s| ==> s[k] < bound
  }

  lemma ConcatBounded(a: seq<nat>, b: seq<nat>, bound: nat)
    requires IndicesBelow(a, bound) && IndicesBelow(b, bound)
    ensures IndicesBelow(a + b, bound)
  {
    forall k | 0 <= k < |a + b|
      ensures (a + b)[k] < bound
    {
      if k >= |a| {
        assert (a + b)[k] == b[k - |a|];
      }
    }
  }

  lemma AppendStep(o: seq<nat>, a: seq<nat>, w: seq<nat>)
    ensures o + a + w == o + (a + w)
  {
  }

  /** The wall the east branch of `add_tile_sides` emits, for the vertex
      numbers it computes (`c_tile`, `n_tile`). */
  lemma EastBranch(n: nat, verts: seq<Vec3>, x: nat, idx: nat, cTile: nat, nTile: nat)
    requires ReadsInBounds(verts, EastQuad(n, x, idx))
    requires x < n - 1 && cTile == idx + 1 && nTile == cTile + 7
    ensures cTile + 1 < |verts| && nTile + 4 < |verts|
    ensures BranchWalls(verts, EastQuad(n, x, idx)) == WallIndices(verts, Quad(cTile + 1, cTile + 2, nTile + 4, nTile + 5))
  {
    assert EastQuad(n, x, idx)[0] == Quad(cTile + 1, cTile + 2, nTile + 4, nTile + 5);
  }

  /** The wall the branch towards row z + 1 emits, for the `d_tile` it computes. */
  lemma NorthBranch(n: nat, rowWidth: nat, verts: seq<Vec3>, x: nat, z: nat, idx: nat, cTile: nat, dTile: nat)
    requires ReadsInBounds(verts, NorthQuad(n, rowWidth, x, z, idx))
    requires z < n - 1 && cTile == idx + 1
    requires (z % 2 == 0 && dTile == cTile + rowWidth) || (z % 2 != 0 && x < n - 1 && dTile == cTile + rowWidth + 7)
    ensures cTile < |verts| && dTile + 3 < |verts|
    ensures BranchWalls(verts, NorthQuad(n, rowWidth, x, z, idx)) == WallIndices(verts, Quad(cTile, cTile + 1, dTile + 3, dTile + 4))
  {
    assert NorthQuad(n, rowWidth, x, z, idx)[0] == Quad(cTile, cTile + 1, dTile + 3, dTile + 4);
  }

  /** The wall the upper-left branch emits on even rows. */
  lemma WestEvenBranch(rowWidth: nat, verts: seq<Vec3>, x: nat, z: nat, idx: nat, cTile: nat, dTile: nat)
    requires rowWidth >= 7 && ReadsInBounds(verts, WestEvenQuad(rowWidth, x, z, idx))
    requires x > 0 && z % 2 == 0 && cTile == idx + 1 && dTile == cTile + rowWidth - 7
    ensures cTile + 5 < |verts| && dTile + 2 < |verts|
    ensures BranchWalls(verts, WestEvenQuad(rowWidth, x, z, idx)) == WallIndices(verts, Quad(cTile + 5, cTile, dTile + 2, dTile + 3))
  {
    assert WestEvenQuad(rowWidth, x, z, idx)[0] == Quad(cTile + 5, cTile, dTile + 2, dTile + 3);
  }

  /** The wall the upper-left branch emits on odd rows. */
  lemma WestOddBranch(n: nat, rowWidth: nat, verts: seq<Vec3>, z: nat, idx: nat, cTile: nat, dTile: nat)
    requires ReadsInBounds(verts, WestOddQuad(n, rowWidth, z, idx))
    requires z % 2 == 1 && z < n - 1 && cTile == idx + 1 && dTile == cTile + rowWidth
    ensures cTile + 5 < |verts| && dTile + 2 < |verts|
    ensures BranchWalls(verts, WestOddQuad(n, rowWidth, z, idx)) == WallIndices(verts, Quad(cTile + 5, cTile, dTile + 2, dTile + 3))
  {
    assert WestOddQuad(n, rowWidth, z, idx)[0] == Quad(cTile + 5, cTile, dTile + 2, dTile + 3);
  }

  /** `add_tile_sides`, with the chunk size as parameter `n`: creates the
      wall towards each neighbour the rule selects, through `create_quad`,
      one guarded block after the other. */
  method AddTileSides(x: nat, z: nat, idx: nat, b: MeshBuffers, n: nat)
    requires x < n && z < n && ReadsInBounds(b.verts, TileSideQuads(n, x, z, idx))
    modifies b`indices
    ensures b.indices == old(b.indices) + TileSideIndices(n, b.verts, x, z, idx)
  {
    var cTile := idx + 1;
    var rowWidth := n * 7;
    ghost var verts, start := b.verts, b.indices;
    ghost var blocks := TileBlocks(n, x, z, idx);
    TileBlocksRead(n, verts, x, z, idx);
    SplitBranchReads(n, verts, x, z, idx);

    ghost var before := b.indices;
    AddEastSide(b, n, x, idx, cTile);
    BlockStep(start, verts, blocks, 0, before, b.indices);
    before := b.indices;
    AddNorthSide(b, n, rowWidth, x, z, idx, cTile);
    BlockStep(start, verts, blocks, 1, before, b.indices);
    before := b.indices;
    AddWestEvenSide(b, n, rowWidth, x, z, idx, cTile);
    BlockStep(start, verts, blocks, 2, before, b.indices);
    before := b.indices;
    AddWestOddSide(b, n, rowWidth, z, idx, cTile);
    BlockStep(start, verts, blocks, 3, before, b.indices);
  }

  /** The first block of `add_tile_sides`: the wall towards the east
      neighbour, unless the tile is the last of its row. */
  method AddEastSide(b: MeshBuffers, n: nat, x: nat, idx: nat, cTile: nat)
    requires cTile == idx + 1 && ReadsInBounds(b.verts, EastQuad(n, x, idx))
    modifies b`indices
    ensures b.indices == old(b.indices) + BranchWalls(b.verts, EastQuad(n, x, idx))
  {
    if x < n - 1 {
      var nTile := cTile + 7;
      EastBranch(n, b.verts, x, idx, cTile, nTile);
      b.CreateQuad(cTile + 1, cTile + 2, nTile + 4, nTile + 5);
    }
  }

  /** The second block: the wall towards row z + 1, straight up from even
      rows and up and right from odd rows, unless that tile is outside. */
  method AddNorthSide(b: MeshBuffers, n: nat, rowWidth: nat, x: nat, z: nat, idx: nat, cTile: nat)
    requires cTile == idx + 1 && ReadsInBounds(b.verts, NorthQuad(n, rowWidth, x, z, idx))
    modifies b`indices
    ensures b.indices == old(b.indices) + BranchWalls(b.verts, NorthQuad(n, rowWidth, x, z, idx))
  {
    if z < n - 1 {
      if z % 2 == 0 {
        var dTile := cTile + rowWidth;
        NorthBranch(n, rowWidth, b.verts, x, z, idx, cTile, dTile);
        b.CreateQuad(cTile, cTile + 1, dTile + 3, dTile + 4);
      } else if x < n - 1 {
        var dTile := cTile + rowWidth + 7;
        NorthBranch(n, rowWidth, b.verts, x, z, idx, cTile, dTile);
        b.CreateQuad(cTile, cTile + 1, dTile + 3, dTile + 4);
      }
    }
  }

  /** The third block: on even rows, the wall towards the upper-left tile. */
  method AddWestEvenSide(b: MeshBuffers, n: nat, rowWidth: nat, x: nat, z: nat, idx: nat, cTile: nat)
    requires x < n && rowWidth == n * 7
    requires cTile == idx + 1 && ReadsInBounds(b.verts, WestEvenQuad(rowWidth, x, z, idx))
    modifies b`indices
    ensures b.indices == old(b.indices) + BranchWalls(b.verts, WestEvenQuad(rowWidth, x, z, idx))
  {
    if x > 0 && z % 2 == 0 {
      var dTile := cTile + rowWidth - 7;
      WestEvenBranch(rowWidth, b.verts, x, z, idx, cTile, dTile);
      b.CreateQuad(cTile + 5, cTile, dTile + 2, dTile + 3);
    }
  }

  /** The fourth block: on odd rows below the last, the wall towards the
      upper-left tile. */
  method AddWestOddSide(b: MeshBuffers, n: nat, rowWidth: nat, z: nat, idx: nat, cTile: nat)
    requires cTile == idx + 1 && ReadsInBounds(b.verts, WestOddQuad(n, rowWidth, z, idx))
    modifies b`indices
    ensures b.indices == old(b.indices) + BranchWalls(b.verts, WestOddQuad(n, rowWidth, z, idx))
  {
    if z % 2 == 1 && z < n - 1 {
      var dTile := cTile + rowWidth;
      WestOddBranch(n, rowWidth, b.verts, z, idx, cTile, dTile);
      b.CreateQuad(cTile + 5, cTile, dTile + 2, dTile + 3);
    }
  }

  // ---------------------------------------------------------------------
  // The chunk

  /** The buffers after the tile loop of `create_chunk` has built every tile
      of rows 0 .. z - 1 and tiles 0 .. x - 1 of row z. */
  function GridMesh(n: nat, draw: nat -> int, z: nat, x: nat): Mesh
    requires x <= n
    decreases z, x
  {
    if x == 0 then
      if z == 0 then EMPTY else GridMesh(n, draw, z - 1, n)
    else
      var m := GridMesh(n, draw, z, x - 1);
      m.Append(TileMesh(TileCenter(n, draw, x - 1, z), |m.verts|))
  }

  /** After z rows and x more tiles the buffers hold seven vertices and
      eighteen indices per tile, and every index names an existing vertex. */
  lemma {:induction false} GridMeshShape(n: nat, draw: nat -> int, z: nat, x: nat)
    requires x <= n
    ensures var m := GridMesh(n, draw, z, x);
      |m.verts| == (z * n + x) * 7 && |m.indices| == (z * n + x) * 18 && WellFormed(m)
    decreases z, x
  {
    if x == 0 {
      if z > 0 {
        GridMeshShape(n, draw, z - 1, n);
        assert (z - 1) * n + n == z * n;
      }
    } else {
      GridMeshShape(n, draw, z, x - 1);
      AppendTileWellFormed(GridMesh(n, draw, z, x - 1), TileCenter(n, draw, x - 1, z));
    }
  }

  /** The buffers after the whole tile loop. */
  function ChunkTiles(n: nat, draw: nat -> int): (r: Mesh)
    ensures |r.verts| == n * n * 7 && |r.indices| == n * n * 18 && WellFormed(r)
  {
    GridMeshShape(n, draw, n, 0);
    GridMesh(n, draw, n, 0)
  }

  /** Tile (tx, tz), once built, occupies the seven vertices from
      TileBase(n, tx, tz) on, and tiles built later leave them alone. */
  lemma {:induction false} GridTileAt(n: nat, draw: nat -> int, z: nat, x: nat, tx: nat, tz: nat, c: nat)
    requires x <= n && tx < n && c < 7
    requires tz < z || (tz == z && tx < x)
    ensures TileBase(n, tx, tz) + c < |GridMesh(n, draw, z, x).verts|
    ensures GridMesh(n, draw, z, x).verts[TileBase(n, tx, tz) + c]
         == TileMesh(TileCenter(n, draw, tx, tz), TileBase(n, tx, tz)).verts[c]
    decreases z, x
  {
    if x == 0 {
      GridTileAt(n, draw, z - 1, n, tx, tz, c);
    } else if tz == z && tx == x - 1 {
      LastTileAt(n, draw, z, x - 1, c);
    } else {
      GridTileAt(n, draw, z, x - 1, tx, tz, c);
      GridPrefixKept(n, draw, z, x - 1, TileBase(n, tx, tz) + c);
    }
  }

  /** The tile a round of the tile loop appends starts at its TileBase. */
  lemma LastTileAt(n: nat, draw: nat -> int, z: nat, x: nat, c: nat)
    requires x < n && c < 7
    ensures TileBase(n, x, z) + c < |GridMesh(n, draw, z, x + 1).verts|
    ensures GridMesh(n, draw, z, x + 1).verts[TileBase(n, x, z) + c]
         == TileMesh(TileCenter(n, draw, x, z), TileBase(n, x, z)).verts[c]
  {
    GridMeshShape(n, draw, z, x);
    var m := GridMesh(n, draw, z, x);
    assert |m.verts| == TileBase(n, x, z);
    var t := TileMesh(TileCenter(n, draw, x, z), |m.verts|);
    assert GridMesh(n, draw, z, x + 1).verts == m.verts + t.verts;
  }

  /** A round of the tile loop leaves the vertices already built alone. */
  lemma GridPrefixKept(n: nat, draw: nat -> int, z: nat, x: nat, i: nat)
    requires x < n && i < |GridMesh(n, draw, z, x).verts|
    ensures i < |GridMesh(n, draw, z, x + 1).verts|
    ensures GridMesh(n, draw, z, x + 1).verts[i] == GridMesh(n, draw, z, x).verts[i]
  {
  }

  /** After the tile loop the vertex buffer holds exactly n * n * 7 vertices,
      and the seven from TileBase(n, x, z) on, the `idx` handed to
      `add_tile_sides`, are tile (x, z)'s centre followed by its six
      corners, all at the tile's elevation. */
  lemma ChunkTileLayout(n: nat, draw: nat -> int, x: nat, z: nat)
    requires x < n && z < n
    ensures var verts := ChunkTiles(n, draw).verts;
      var base, center := TileBase(n, x, z), TileCenter(n, draw, x, z);
      && |verts| == n * n * 7
      && base + 7 <= |verts|
      && verts[base] == center
      && (forall c :: 0 <= c < 6 ==> verts[base + 1 + c] == center.Add(HEX_CORNERS[c]))
      && (forall k :: base <= k < base + 7 ==> verts[k].y == TileHeight(n, draw, x, z) as real)
  {
    var verts := ChunkTiles(n, draw).verts;
    var base, center := TileBase(n, x, z), TileCenter(n, draw, x, z);
    var tile := TileMesh(center, base).verts;
    GridMeshShape(n, draw, n, 0);
    TileBaseBound(n, x, z);
    TileLayout(center, base);
    FanShape(center, base, 6);
    forall k | base <= k < base + 7
      ensures verts[k] == tile[k - base]
    {
      GridTileAt(n, draw, n, 0, x, z, k - base);
    }
    assert verts[base] == tile[0];
    forall c | 0 <= c < 6
      ensures verts[base + 1 + c] == center.Add(HEX_CORNERS[c])
    {
      assert verts[base + 1 + c] == tile[1 + c];
    }
  }

  /** A wall between tile (x, z) and its neighbour across `s` stands on their
      shared side: its corners v1 and v4, and v2 and v3, are at the same
      horizontal position, v1 and v2 at the tile's elevation, v3 and v4 at
      the neighbour's; and `create_quad` emits it exactly when the two
      elevations differ. */
  lemma WallIffHeightsDiffer(n: nat, draw: nat -> int, x: nat, z: nat, s: Side)
    requires x < n && z < n && InChunk(n, Neighbour(x, z, s))
    ensures var verts := ChunkTiles(n, draw).verts;
      var q := SideQuad(n, x, z, s);
      var (nx, nz) := Neighbour(x, z, s);
      var h, nh := TileHeight(n, draw, x, z), TileHeight(n, draw, nx as nat, nz as nat);
      && QuadWithin(q, |verts|)
      && verts[q.v1].XZ() == verts[q.v4].XZ() && verts[q.v2].XZ() == verts[q.v3].XZ()
      && verts[q.v1].y == verts[q.v2].y == h as real
      && verts[q.v3].y == verts[q.v4].y == nh as real
      && (WallIndices(verts, q) != [] <==> h != nh)
  {
    var (nx, nz) := Neighbour(x, z, s);
    var h, nh := TileHeight(n, draw, x, z), TileHeight(n, draw, nx as nat, nz as nat);
    ChunkTileLayout(n, draw, x, z);
    ChunkTileLayout(n, draw, nx as nat, nz as nat);
    SharedEdge(x, z, s, h as real, nh as real);
  }

  /** The indices the side loop of `create_chunk` has appended after tiles
      0 .. x - 1 of row z and every tile of the rows before it, as the
      adjacency table calls for them: each tile's east, north-east and
      north-west walls in turn. SidesIndicesStep shows that a round of the
      loop, which runs the guarded blocks of `add_tile_sides`, appends
      exactly these. */
  function SidesIndices(n: nat, verts: seq<Vec3>, z: nat, x: nat): seq<nat>
    requires |verts| == n * n * 7
    requires x <= n && z <= n && (z == n ==> x == 0)
    decreases z, x
  {
    if x == 0 then
      if z == 0 then [] else SidesIndices(n, verts, z - 1, n)
    else
      SidesIndices(n, verts, z, x - 1) + TableWalls(n, verts, x - 1, z, 3)
  }

  /** For an even chunk size every index the side loop appends names one
      of the chunk's vertices. */
  lemma {:induction false} SidesIndicesBounded(n: nat, verts: seq<Vec3>, z: nat, x: nat)
    requires n % 2 == 0 && |verts| == n * n * 7
    requires x <= n && z <= n && (z == n ==> x == 0)
    ensures IndicesBelow(SidesIndices(n, verts, z, x), |verts|)
    decreases z, x
  {
    if x == 0 {
      if z > 0 {
        SidesIndicesBounded(n, verts, z - 1, n);
      }
    } else {
      SidesIndicesBounded(n, verts, z, x - 1);
      SidesBoundedStep(n, verts, z, x - 1);
    }
  }

  lemma SidesBoundedStep(n: nat, verts: seq<Vec3>, z: nat, x: nat)
    requires n % 2 == 0 && |verts| == n * n * 7 && x < n && z < n
    requires IndicesBelow(SidesIndices(n, verts, z, x), |verts|)
    ensures IndicesBelow(SidesIndices(n, verts, z, x + 1), |verts|)
  {
    var idx := TileBase(n, x, z);
    SidesIndicesStep(n, verts, z, x, idx);
    SideQuadsInBounds(n, x, z);
    TileSideIndicesBounded(n, verts, x, z, idx);
    ConcatBounded(SidesIndices(n, verts, z, x), TileSideIndices(n, verts, x, z, idx), |verts|);
  }

  /** The four buffers `create_chunk` hands to the mesh: every tile, then
      every side wall; for an even chunk size no index leaves the vertex
      buffer. */
  function ChunkMesh(n: nat, draw: nat -> int): (r: Mesh)
    requires n % 2 == 0
    ensures |r.verts| == n * n * 7 && WellFormed(r)
    ensures ChunkTiles(n, draw).indices <= r.indices
  {
    var tiles := ChunkTiles(n, draw);
    GridMeshShape(n, draw, n, 0);
    var sides := SidesIndices(n, tiles.verts, n, 0);
    SidesIndicesBounded(n, tiles.verts, n, 0);
    ConcatBounded(tiles.indices, sides, |tiles.verts|);
    Mesh(tiles.verts, tiles.uvs, tiles.normals, tiles.indices + sides)
  }

  /** The walls of the tiles up to (x, z) come first among all the walls. */
  lemma {:induction false} SidesIndicesPrefix(n: nat, verts: seq<Vec3>, z: nat, x: nat)
    requires |verts| == n * n * 7
    requires x <= n && z <= n && (z == n ==> x == 0)
    ensures SidesIndices(n, verts, z, x) <= SidesIndices(n, verts, n, 0)
    decreases n - z, n - x
  {
    if z < n {
      if x < n {
        SidesIndicesPrefix(n, verts, z, x + 1);
      } else {
        SidesIndicesPrefix(n, verts, z + 1, 0);
      }
    }
  }

  /** `w` occurs in `s`, one element after the other, from position p on. */
  predicate SegmentAt(s: seq<nat>, p: int, w: seq<nat>) {
    0 <= p && p + |w| <= |s| && s[p .. p + |w|] == w
  }

  lemma SegmentOfConcat(a: seq<nat>, w: seq<nat>)
    ensures SegmentAt(a + w, |a|, w)
  {
    assert (a + w)[|a| ..] == w;
  }

  lemma SegmentAfter(a: seq<nat>, b: seq<nat>, p: int, w: seq<nat>)
    requires SegmentAt(b, p, w)
    ensures SegmentAt(a + b, |a| + p, w)
  {
    assert (a + b)[|a| + p .. |a| + p + |w|] == b[p .. p + |w|];
  }

  lemma SegmentInPrefix(whole: seq<nat>, pre: seq<nat>, p: int, w: seq<nat>)
    requires pre <= whole && SegmentAt(pre, p, w)
    ensures SegmentAt(whole, p, w)
  {
    assert whole[p .. p + |w|] == pre[p .. p + |w|];
  }

  /** The wall across the k-th side of a tile occurs among the tile's walls. */
  lemma TileWallAt(n: nat, verts: seq<Vec3>, x: nat, z: nat, k: nat)
    requires x < n && z < n && |verts| == n * n * 7 && k < |SIDES|
    ensures exists p :: SegmentAt(TableWalls(n, verts, x, z, 3), p, SideWall(n, verts, x, z, SIDES[k]))
  {
    TableWallsPrefix(n, verts, x, z, k + 1);
    SegmentOfConcat(TableWalls(n, verts, x, z, k), SideWall(n, verts, x, z, SIDES[k]));
    SegmentInPrefix(TableWalls(n, verts, x, z, 3), TableWalls(n, verts, x, z, k + 1),
      |TableWalls(n, verts, x, z, k)|, SideWall(n, verts, x, z, SIDES[k]));
  }

  /** The wall the table calls for across the k-th side of tile (x, z)
      occurs among the walls of the side loop. */
  lemma SideWallInSides(n: nat, verts: seq<Vec3>, x: nat, z: nat, k: nat)
    requires x < n && z < n && |verts| == n * n * 7 && k < |SIDES|
    ensures exists p :: SegmentAt(SidesIndices(n, verts, n, 0), p, SideWall(n, verts, x, z, SIDES[k]))
  {
    SideWallInRow(n, verts, x, z, k);
    SidesIndicesPrefix(n, verts, z, x + 1);
    assert SidesIndices(n, verts, z, x + 1) == SidesIndices(n, verts, z, x) + TableWalls(n, verts, x, z, 3);
    SegmentInPrefixSome(SidesIndices(n, verts, n, 0), SidesIndices(n, verts, z, x + 1), SideWall(n, verts, x, z, SIDES[k]));
  }

  lemma SideWallInRow(n: nat, verts: seq<Vec3>, x: nat, z: nat, k: nat)
    requires x < n && z < n && |verts| == n * n * 7 && k < |SIDES|
    ensures exists p :: SegmentAt(SidesIndices(n, verts, z, x) + TableWalls(n, verts, x, z, 3), p, SideWall(n, verts, x, z, SIDES[k]))
  {
    TileWallAt(n, verts, x, z, k);
    SegmentAfterSome(SidesIndices(n, verts, z, x), TableWalls(n, verts, x, z, 3), SideWall(n, verts, x, z, SIDES[k]));
  }

  lemma SegmentInPrefixSome(whole: seq<nat>, pre: seq<nat>, w: seq<nat>)
    requires pre <= whole && exists p :: SegmentAt(pre, p, w)
    ensures exists p :: SegmentAt(whole, p, w)
  {
    var p :| SegmentAt(pre, p, w);
    SegmentInPrefix(whole, pre, p, w);
  }

  /** The wall the table calls for across the k-th side of tile (x, z)
      occurs, one index after the other, in the chunk's index buffer. */
  lemma SideWallInChunkMesh(n: nat, draw: nat -> int, x: nat, z: nat, k: nat)
    requires n % 2 == 0 && x < n && z < n && k < |SIDES|
    ensures |ChunkTiles(n, draw).verts| == n * n * 7
    ensures exists p :: SegmentAt(ChunkMesh(n, draw).indices, p, SideWall(n, ChunkTiles(n, draw).verts, x, z, SIDES[k]))
  {
    var tiles := ChunkTiles(n, draw);
    var verts := tiles.verts;
    GridMeshShape(n, draw, n, 0);
    SideWallInSides(n, verts, x, z, k);
    assert ChunkMesh(n, draw).indices == tiles.indices + SidesIndices(n, verts, n, 0);
    SegmentAfterSome(tiles.indices, SidesIndices(n, verts, n, 0), SideWall(n, verts, x, z, SIDES[k]));
  }

  lemma SegmentAfterSome(a: seq<nat>, b: seq<nat>, w: seq<nat>)
    requires exists p :: SegmentAt(b, p, w)
    ensures exists p :: SegmentAt(a + b, p, w)
  {
    var p :| SegmentAt(b, p, w);
    SegmentAfter(a, b, p, w);
  }

  /** When the elevations of tile (x, z) and its neighbour across `s`
      differ, the six indices of the wall between them appear, one after
      the other, in the chunk's index buffer. */
  lemma WallInChunkMesh(n: nat, draw: nat -> int, x: nat, z: nat, s: Side)
    requires n % 2 == 0 && x < n && z < n && InChunk(n, Neighbour(x, z, s))
    requires TileHeight(n, draw, x, z) != TileHeight(n, draw, Neighbour(x, z, s).0 as nat, Neighbour(x, z, s).1 as nat)
    ensures QuadWithin(SideQuad(n, x, z, s), |ChunkTiles(n, draw).verts|)
    ensures var wall := WallIndices(ChunkTiles(n, draw).verts, SideQuad(n, x, z, s));
      |wall| == 6 && exists p :: SegmentAt(ChunkMesh(n, draw).indices, p, wall)
  {
    WallIffHeightsDiffer(n, draw, x, z, s);
    var k := if s == East then 0 else if s == NorthEast then 1 else 2;
    assert SIDES[k] == s;
    SideWallInChunkMesh(n, draw, x, z, k);
  }

  /** The walls of the first k sides come first among a tile's walls. */
  lemma {:induction false} TableWallsPrefix(n: nat, verts: seq<Vec3>, x: nat, z: nat, k: nat)
    requires x < n && z < n && |verts| == n * n * 7 && k <= |SIDES|
    ensures TableWalls(n, verts, x, z, k) <= TableWalls(n, verts, x, z, 3)
    decreases 3 - k
  {
    if k < 3 {
      TableWallsPrefix(n, verts, x, z, k + 1);
    }
  }

  /** Every pair of adjacent tiles of the chunk is a table side of one of
      the two, and the wall the table calls for there is non-empty exactly
      when the two elevations differ. */
  lemma AdjacentPairWalled(n: nat, draw: nat -> int, a: (int, int), b: (int, int))
    requires n % 2 == 0 && InChunk(n, a) && InChunk(n, b) && Adjacent(a, b)
    ensures |ChunkTiles(n, draw).verts| == n * n * 7
    ensures exists s ::
      || (Neighbour(a.0, a.1, s) == b
         && (SideWall(n, ChunkTiles(n, draw).verts, a.0 as nat, a.1 as nat, s) != []
             <==> TileHeight(n, draw, a.0 as nat, a.1 as nat) != TileHeight(n, draw, b.0 as nat, b.1 as nat)))
      || (Neighbour(b.0, b.1, s) == a
         && (SideWall(n, ChunkTiles(n, draw).verts, b.0 as nat, b.1 as nat, s) != []
             <==> TileHeight(n, draw, a.0 as nat, a.1 as nat) != TileHeight(n, draw, b.0 as nat, b.1 as nat)))
  {
    GridMeshShape(n, draw, n, 0);
    AdjacentHasSide(a, b);
    var s :| Neighbour(a.0, a.1, s) == b || Neighbour(b.0, b.1, s) == a;
    if Neighbour(a.0, a.1, s) == b {
      WallIffHeightsDiffer(n, draw, a.0 as nat, a.1 as nat, s);
    } else {
      WallIffHeightsDiffer(n, draw, b.0 as nat, b.1 as nat, s);
    }
  }

  /** With the original chunk size every index fits the u32 index buffer,
      so the casts to u32 in `create_chunk` and `create_tile` never wrap. */
  lemma ChunkIndicesFitU32(draw: nat -> int)
    ensures var m := ChunkMesh(CHUNK_SIZE, draw);
      forall k :: 0 <= k < |m.indices| ==> m.indices[k] < 0x1_0000_0000
  {
  }

  /** One round of the tile loop appends tile (x, z) numbered from the
      current vertex count; the last round of a row leads into the next. */
  lemma GridMeshStep(n: nat, draw: nat -> int, z: nat, x: nat)
    requires x < n
    ensures GridMesh(n, draw, z, x + 1)
         == GridMesh(n, draw, z, x).Append(TileMesh(TileCenter(n, draw, x, z), |GridMesh(n, draw, z, x).verts|))
  {
  }

  lemma GridMeshNextRow(n: nat, draw: nat -> int, z: nat)
    ensures GridMesh(n, draw, z + 1, 0) == GridMesh(n, draw, z, n)
  {
  }

  /** One round of the side loop appends the walls of tile (x, z). */
  lemma SidesIndicesStep(n: nat, verts: seq<Vec3>, z: nat, x: nat, idx: nat)
    requires n % 2 == 0 && |verts| == n * n * 7 && x < n && z < n && idx == TileBase(n, x, z)
    ensures ReadsInBounds(verts, TileSideQuads(n, x, z, idx))
    ensures SidesIndices(n, verts, z, x + 1) == SidesIndices(n, verts, z, x) + TileSideIndices(n, verts, x, z, idx)
  {
    TileSidesFollowTable(n, verts, x, z);
  }

  lemma SidesIndicesNextRow(n: nat, verts: seq<Vec3>, z: nat)
    requires n % 2 == 0 && |verts| == n * n * 7 && z < n
    ensures SidesIndices(n, verts, z + 1, 0) == SidesIndices(n, verts, z, n)
  {
  }

  /** The `idx` computed by `create_chunk` is the base of tile (x, z). */
  lemma LoopIndexIsTileBase(n: nat, x: nat, z: nat, idx: int)
    requires idx == (x * 7) + (z * n * 7)
    ensures idx == TileBase(n, x, z)
  {
  }

  /** `create_chunk`, with the chunk size as parameter `n` (CHUNK_SIZE in the
      original) and the RNG replaced by its sequence of draws: the tile loop
      nest, then the side loop nest, then the four buffers become the mesh. */
  method CreateChunk(n: nat, draw: nat -> int) returns (mesh: Mesh)
    requires n % 2 == 0
    ensures mesh == ChunkMesh(n, draw)
  {
    var b := new MeshBuffers();
    AddChunkTiles(b, n, draw);
    GridMeshShape(n, draw, n, 0);
    AddChunkSides(b, n);
    mesh := b.Contents();
  }

  /** The first loop nest of `create_chunk`: a tile per cell, row by row,
      each at the next draw's elevation. */
  method AddChunkTiles(b: MeshBuffers, n: nat, draw: nat -> int)
    requires b.Contents() == EMPTY
    modifies b
    ensures b.Contents() == ChunkTiles(n, draw)
  {
    var z := 0;
    while z < n
      invariant z <= n
      invariant b.Contents() == GridMesh(n, draw, z, 0)
    {
      AddRowTiles(b, n, draw, z);
      z := z + 1;
    }
  }

  /** One round of the outer tile loop: the tiles of row z, left to right. */
  method AddRowTiles(b: MeshBuffers, n: nat, draw: nat -> int, z: nat)
    requires z < n && b.Contents() == GridMesh(n, draw, z, 0)
    modifies b
    ensures b.Contents() == GridMesh(n, draw, z + 1, 0)
  {
    var x := 0;
    while x < n
      invariant x <= n
      invariant b.Contents() == GridMesh(n, draw, z, x)
    {
      AddTileAt(b, n, draw, x, z);
      x := x + 1;
    }
    GridMeshNextRow(n, draw, z);
  }

  /** One round of the inner tile loop: tile (x, z) at the elevation of the
      next draw, after every tile before it. */
  method AddTileAt(b: MeshBuffers, n: nat, draw: nat -> int, x: nat, z: nat)
    requires x < n && b.Contents() == GridMesh(n, draw, z, x)
    modifies b
    ensures b.Contents() == GridMesh(n, draw, z, x + 1)
  {
    var offPos := Vec3(x as real, draw(x + z * n) as real, z as real);
    var gridPos := ToHexPos(offPos);
    b.CreateTile(gridPos);
    GridMeshStep(n, draw, z, x);
  }

  /** The second loop nest of `create_chunk`: the side walls of every tile,
      row by row; only the index buffer grows. */
  method AddChunkSides(b: MeshBuffers, n: nat)
    requires n % 2 == 0 && |b.verts| == n * n * 7
    modifies b`indices
    ensures b.indices == old(b.indices) + SidesIndices(n, b.verts, n, 0)
  {
    ghost var start := b.indices;
    var z := 0;
    while z < n
      invariant z <= n
      invariant b.indices == start + SidesIndices(n, b.verts, z, 0)
    {
      AddRowSides(b, n, z, start);
      z := z + 1;
    }
  }

  /** One round of the outer side loop: the walls of the tiles of row z. */
  method AddRowSides(b: MeshBuffers, n: nat, z: nat, ghost start: seq<nat>)
    requires n % 2 == 0 && |b.verts| == n * n * 7 && z < n
    requires b.indices == start + SidesIndices(n, b.verts, z, 0)
    modifies b`indices
    ensures b.indices == start + SidesIndices(n, b.verts, z + 1, 0)
  {
    ghost var verts := b.verts;
    var x := 0;
    while x < n
      invariant x <= n && b.verts == verts
      invariant b.indices == start + SidesIndices(n, verts, z, x)
    {
      var idx := (x * 7) + (z * n * 7);
      LoopIndexIsTileBase(n, x, z, idx);
      AddSidesAt(b, n, x, z, idx, start);
      x := x + 1;
    }
    SidesIndicesNextRow(n, verts, z);
  }

  /** One round of the inner side loop: the walls of tile (x, z) follow the
      walls of every tile before it. */
  method AddSidesAt(b: MeshBuffers, n: nat, x: nat, z: nat, idx: nat, ghost start: seq<nat>)
    requires n % 2 == 0 && |b.verts| == n * n * 7 && x < n && z < n && idx == TileBase(n, x, z)
    requires b.indices == start + SidesIndices(n, b.verts, z, x)
    modifies b`indices
    ensures b.indices == start + SidesIndices(n, b.verts, z, x + 1)
  {
    ghost var verts := b.verts;
    SidesIndicesStep(n, verts, z, x, idx);
    AddTileSides(x, z, idx, b, n);
    AppendStep(start, SidesIndices(n, verts, z, x), TileSideIndices(n, verts, x, z, idx));
  }
}
