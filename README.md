# Hex-grid chunk mesh assembler

A Dafny model of the chunk mesh assembler in `src/hex_grid.rs`. The
assembler builds one chunk of N x N hexagon tiles into four flat buffers:
vertex positions, uvs, normals and triangle indices.

- `create_tile` appends a seven-vertex fan for one tile: the centre, then
  the six corners of the `HEX_CORNERS` table, and six triangles.
- `create_quad` appends a side wall of two triangles between two tiles, but
  only when their elevations differ.
- `add_tile_sides` works out which neighbours a tile is walled against. It
  uses only index arithmetic on the dense layout, where tile (x, z) owns
  the seven vertices starting at `(x + z * N) * 7`.
- `create_chunk` first builds every tile row by row, at the elevation of
  the next random draw. Then it walls every tile.
- `to_hex_pos` maps an offset cell (column, elevation, row) to its world
  position. Odd rows are shifted half a cell east.

Three modules, one per file:

- `HexGeometry` (`hex_geometry.dfy`): vectors, the radii, `HEX_CORNERS`,
  and `ToHexPos` with its lemmas.
- `HexTile` (`hex_tile.dfy`): the `Mesh` value of the four buffers, and the
  `MeshBuffers` class whose fields are the four growable vectors.
  `CreateTile` and `CreateQuad` are proved against the specification
  functions `TileMesh` and `WallIndices`.
- `HexChunk` (`hex_chunk.dfy`): the neighbour rule exactly as written
  (`TileSideQuads`), and an independent adjacency table (`Neighbour`,
  `EdgeCorners`) it is proved equal to. The table's three sides reach
  every pair of cells that are adjacent in axial hex coordinates
  (`Adjacent`). The side loop appends exactly the table's walls, so every
  adjacent pair of tiles in a chunk gets a wall exactly when their
  elevations differ (`AdjacentPairWalled`, `WallInChunkMesh`). It also
  holds `AddTileSides`, the specification functions `GridMesh`,
  `SidesIndices` and `ChunkMesh`, and `CreateChunk`.

Decisions:

- The chunk size `CHUNK_SIZE` (32) is a parameter `n`. For every odd
  `n >= 3`, the unguarded upper-left block of `add_tile_sides` reads past
  the vertex buffer (`OddSizeOverruns`). `CHUNK_SIZE` is 32, so the members
  that run the guards of `add_tile_sides` over the whole chunk require
  `n % 2 == 0`. These include `SideQuadsFollowTable`,
  `TileSidesFollowTable`, `SidesIndicesStep`, `ChunkMesh`, `CreateChunk`
  and `AddChunkSides`. `AddTileSides` itself requires only that the quads
  it reads lie in the vertex buffer.
- The seeded RNG becomes a parameter `draw: nat -> int`. Draw k is the
  elevation of the k-th tile built, `x + z * n`.
- Coordinates are reals.

The code departs from a chunked, noise-driven terrain design in four ways,
and the model follows the code:

- `create_chunk` takes no chunk coordinate and reseeds its RNG with the
  constant 2, so every chunk of a map has the same elevations.
- No walls are stitched across chunk boundaries.
- Walls add indices only, never vertices. A chunk therefore always holds
  exactly `n * n * 7` vertices.
- Elevations are `gen_range(0..3)` draws, not layered noise.

## Model

| member | source | states |
|---|---|---|
| HexGeometry.CellCenterOffset | src/hex_grid.rs:137-140 | On integer cells, the world x is col whole cell widths (2 * INNER_RADIUS) plus INNER_RADIUS on odd rows only; y passes through; z is row * 1.5 * OUTER_RADIUS |
| HexGeometry.RowPeriod | src/hex_grid.rs:137-140 | Moving any position two rows north changes only its world z, by 3 * OUTER_RADIUS, so rows z and z + 2 line up |
| HexGeometry.EvenRowShift | src/hex_grid.rs:137-140 | Offsetting a grid by the world position of an even-row cell puts each cell where the transform puts the summed cell, so chunk-local grids line up with one global grid |
| HexGeometry.FloorHalf | src/hex_grid.rs:138 | The `(pos.z / 2.).floor()` term agrees with integer halving on integer rows |
| HexGeometry.ToHexPos | src/hex_grid.rs:137-140 | The offset-to-world transform; the elevation passes through unchanged. Its horizontal placement is what CellCenterOffset, RowPeriod and EvenRowShift state |
| HexTile.FanShape | src/hex_grid.rs:199-210 | Every fan vertex has the centre's y, its own (x, z) as uv and the +Y normal; every index lies in [base, base + 7) |
| HexTile.FanCorner | src/hex_grid.rs:200-204 | Vertex 0 of the fan is the centre; vertex k + 1 is centre + HEX_CORNERS[k] |
| HexTile.FanTriangle | src/hex_grid.rs:207-209 | Triangle j is (base, base + 1 + j, base + 1 + (j + 1) mod 6) |
| HexTile.FanMesh | src/hex_grid.rs:199-210 | What the centre push and the first i corner rounds of `create_tile` append: i + 1 vertices, uvs and normals and 3 * i indices. FanShape, FanCorner and FanTriangle state their contents |
| HexTile.TileMesh | src/hex_grid.rs:199-210 | One tile is 7 vertices, uvs and normals and 18 indices; TileLayout states the layout |
| HexTile.TileLayout | src/hex_grid.rs:199-210 | A tile is 7 vertices and 18 indices, with the centre, corner and triangle layout above |
| HexTile.AppendTileWellFormed | src/hex_grid.rs:199-210 | Appending a tile numbered from the current vertex count keeps every index pointing at an existing vertex, and keeps the buffers the same length |
| HexTile.WallIndices | src/hex_grid.rs:179-190 | No indices exactly when verts[v1].y == verts[v3].y; otherwise exactly six |
| HexTile.WallWinding | src/hex_grid.rs:183-189 | The two wall triangles start (v1, v3) and end (v3, v1): they share the diagonal in opposite directions and together cover v1..v4 |
| HexTile.MeshBuffers.constructor | src/hex_grid.rs:106-109 | The four buffers start empty |
| HexTile.MeshBuffers.CreateTile | src/hex_grid.rs:192-211 | Appends exactly TileMesh(pos, old vertex count) to the four buffers and leaves earlier entries unchanged |
| HexTile.MeshBuffers.CreateQuad | src/hex_grid.rs:179-190 | Appends exactly WallIndices to the index buffer and changes nothing else |
| HexChunk.TileSideQuads | src/hex_grid.rs:142-177 | The rule hands at most three quads to `create_quad` |
| HexChunk.EastQuad | src/hex_grid.rs:147-157 | The east block makes at most one quad |
| HexChunk.NorthQuad | src/hex_grid.rs:159-167 | The block towards row z + 1 makes at most one quad |
| HexChunk.WestEvenQuad | src/hex_grid.rs:169-172 | The even-row upper-left block makes at most one quad, and none on odd rows |
| HexChunk.WestOddQuad | src/hex_grid.rs:173-176 | The odd-row upper-left block makes at most one quad, and none on even rows |
| HexChunk.SharedEdge | src/hex_grid.rs:23-30 | For each side, the corner pairs of EdgeCorners sit at the same horizontal position on the tile and on its neighbour, whatever the elevations |
| HexChunk.NeighbourAdjacent | src/hex_grid.rs:142-177 | Each of the three table sides leads to a tile that is adjacent in axial hex coordinates, an adjacency defined independently of the offset layout |
| HexChunk.AdjacentHasSide | src/hex_grid.rs:142-177 | Every pair of adjacent cells is an east, north-east or north-west side of one of the two, so walling only those three sides of every tile covers every adjacent pair |
| HexChunk.SideUnique | src/hex_grid.rs:142-177 | No side leads back to the tile itself through another side, and distinct sides lead to distinct neighbours, so no pair is walled twice from the same tile |
| HexChunk.SideQuadsFollowTable | src/hex_grid.rs:147-176 | For even n the rule's quads are exactly one per in-chunk neighbour of the offset adjacency table (east, north-east, north-west), with the corners the table pairs |
| HexChunk.EastFollowsTable | src/hex_grid.rs:147-157 | The east block walls (x + 1, z) exactly when it is in the chunk |
| HexChunk.NorthEastFollowsTable | src/hex_grid.rs:159-167 | The row z + 1 block walls (x, z + 1) on even rows and (x + 1, z + 1) on odd rows, exactly when that tile is in the chunk |
| HexChunk.NorthWestFollowsTable | src/hex_grid.rs:169-176 | For even n the two upper-left blocks together wall (x - 1, z + 1) on even rows and (x, z + 1) on odd rows, exactly when that tile is in the chunk |
| HexChunk.TileBaseBound | src/hex_grid.rs:121 | The seven vertices of any tile lie within the n * n * 7 of the chunk |
| HexChunk.TileBase | src/hex_grid.rs:121 | The `idx` of tile (x, z): the centre of its seven vertices in the dense layout. TileBaseBound bounds it; CreateChunk passes it to `add_tile_sides` |
| HexChunk.TileHeight | src/hex_grid.rs:114 | The elevation of tile (x, z) is the (x + z * n)-th draw, as the tile loop consumes one draw per tile in row-major order. GridTileAt and ChunkTileLayout put the tile at that elevation |
| HexChunk.SideQuadsInBounds | src/hex_grid.rs:142-177 | For even n every vertex the rule names is below n * n * 7 |
| HexChunk.OddSizeOverruns | src/hex_grid.rs:169-171 | For odd n >= 3, tile (1, n - 1) names vertex n * n * 7 + 3, past the last vertex |
| HexChunk.BranchWalls | src/hex_grid.rs:179-190 | A block appends zero or six indices |
| HexChunk.BranchWallsBounded | src/hex_grid.rs:183-189 | A wall whose quad names existing vertices appends only existing vertex indices |
| HexChunk.TileBlocks | src/hex_grid.rs:147-176 | `add_tile_sides` runs four guarded blocks |
| HexChunk.TileSideQuadsAreBlocks | src/hex_grid.rs:142-177 | The quads `add_tile_sides` hands to `create_quad` are the quads of its four blocks, in call order |
| HexChunk.TileBlocksRead | src/hex_grid.rs:147-176 | Each block holds at most one quad, and that quad reads existing vertices |
| HexChunk.BlockWalls | src/hex_grid.rs:147-176 | The first k blocks append at most 6 * k indices |
| HexChunk.BlockStep | src/hex_grid.rs:147-176 | Running block k after the first k appends its walls after theirs |
| HexChunk.AtMostThreeWalls | src/hex_grid.rs:147-176 | `add_tile_sides` appends at most 18 indices |
| HexChunk.BlockWallsBounded | src/hex_grid.rs:147-176 | If every block's quad names existing vertices, all indices the blocks append do too |
| HexChunk.TileSideIndicesBounded | src/hex_grid.rs:142-177 | Every index `add_tile_sides` appends names an existing vertex when its quads do |
| HexChunk.TileSideIndices | src/hex_grid.rs:142-177 | What `add_tile_sides` appends for one tile: the walls of its four blocks in call order. TileSidesFollowTable states what that is |
| HexChunk.TileSideIndicesByBlocks | src/hex_grid.rs:147-176 | The four blocks read existing vertices, and their walls are appended one after the other |
| HexChunk.SideWall | src/hex_grid.rs:179-190 | Across one side, the table calls for zero or six indices: the wall on the side quad if the neighbour is in the chunk, nothing otherwise |
| HexChunk.TableWalls | src/hex_grid.rs:142-177 | The walls of a tile's first k table sides, at most 6 * k indices |
| HexChunk.TableWallsSides | src/hex_grid.rs:147-176 | A tile's table walls are its east, north-east and north-west walls in that order |
| HexChunk.TableWallsPrefix | src/hex_grid.rs:147-176 | The walls of the first k sides are a prefix of the tile's walls |
| HexChunk.TileSidesFollowTable | src/hex_grid.rs:142-177 | For even n, every quad `add_tile_sides` hands to `create_quad` reads existing vertices, and what it appends is exactly the east, north-east and north-west walls the adjacency table calls for, in that order |
| HexChunk.AddTileSides | src/hex_grid.rs:142-177 | Appends exactly the walls of the four blocks, in order, to the index buffer |
| HexChunk.AddEastSide | src/hex_grid.rs:147-157 | Appends exactly the east block's wall |
| HexChunk.AddNorthSide | src/hex_grid.rs:159-167 | Appends exactly the wall of the block towards row z + 1 |
| HexChunk.AddWestEvenSide | src/hex_grid.rs:169-172 | Appends exactly the even-row upper-left wall |
| HexChunk.AddWestOddSide | src/hex_grid.rs:173-176 | Appends exactly the odd-row upper-left wall |
| HexChunk.GridMeshShape | src/hex_grid.rs:112-118 | After z rows and x more tiles the buffers hold 7 vertices, uvs and normals and 18 indices per tile, and every index names an existing vertex |
| HexChunk.GridTileAt | src/hex_grid.rs:112-118 | Once built, tile (tx, tz) stays at its seven vertices from (tx + tz * n) * 7 |
| HexChunk.LastTileAt | src/hex_grid.rs:113-117 | The tile a round of the loop builds starts at (x + z * n) * 7 |
| HexChunk.GridPrefixKept | src/hex_grid.rs:113-117 | A round of the tile loop leaves earlier vertices unchanged |
| HexChunk.ChunkTileLayout | src/hex_grid.rs:112-121 | After the tile loop there are n * n * 7 vertices; from `idx` on come tile (x, z)'s centre and its six corners, all at the tile's elevation |
| HexChunk.WallIffHeightsDiffer | src/hex_grid.rs:142-190 | Each wall stands on the shared side of the two tiles, its top at one tile's elevation and its bottom at the other's, and is emitted if and only if the two elevations differ |
| HexChunk.SidesIndicesBounded | src/hex_grid.rs:119-124 | For even n every index the side loop appends names one of the chunk's vertices |
| HexChunk.SidesBoundedStep | src/hex_grid.rs:120-123 | One round of the side loop keeps every appended index in range |
| HexChunk.ChunkMesh | src/hex_grid.rs:104-135 | The chunk has n * n * 7 vertices with matching uvs and normals, every index in range, and starts with the tile indices; the rest are the table walls (SidesIndices) |
| HexChunk.ChunkIndicesFitU32 | src/hex_grid.rs:121-133 | With n = 32 every index fits the u32 index buffer |
| HexChunk.ChunkTiles | src/hex_grid.rs:112-118 | After the tile loop the buffers hold n * n * 7 vertices and n * n * 18 indices, and every index names an existing vertex |
| HexChunk.GridMesh | src/hex_grid.rs:112-118 | The buffers after part of the tile loop; GridMeshShape, GridTileAt and LastTileAt state what they hold |
| HexChunk.SidesIndices | src/hex_grid.rs:119-124 | The walls the adjacency table calls for, tile by tile in loop order; SidesIndicesStep and AddChunkSides show the side loop appends exactly these |
| HexChunk.SidesIndicesPrefix | src/hex_grid.rs:119-124 | The walls of the tiles up to (x, z) are a prefix of all the side walls |
| HexChunk.TileWallAt | src/hex_grid.rs:147-176 | The wall across each table side of a tile occurs among that tile's walls |
| HexChunk.SideWallInRow | src/hex_grid.rs:120-123 | The wall across each table side of tile (x, z) occurs in what the side loop has appended after that tile |
| HexChunk.SideWallInSides | src/hex_grid.rs:119-124 | The wall across each table side of every tile occurs, one index after the other, among all the side walls |
| HexChunk.SideWallInChunkMesh | src/hex_grid.rs:104-135 | The wall across each table side of every tile occurs, one index after the other, in the chunk's index buffer |
| HexChunk.WallInChunkMesh | src/hex_grid.rs:104-190 | When a tile and its in-chunk neighbour across a side have different elevations, the six indices of the wall between them occur in the chunk's index buffer |
| HexChunk.AdjacentPairWalled | src/hex_grid.rs:104-190 | For even n, every adjacent pair of tiles of the chunk is a table side of one of the two, and the wall the chunk gets there is non-empty exactly when the two elevations differ |
| HexChunk.SidesIndicesStep | src/hex_grid.rs:120-123 | A round of the side loop, running `add_tile_sides` on tile (x, z) with its TileBase as `idx`, reads only existing vertices and appends exactly the table walls of that tile |
| HexChunk.CreateChunk | src/hex_grid.rs:104-135 | Returns exactly ChunkMesh: the tiles, then every wall |
| HexChunk.AddChunkTiles | src/hex_grid.rs:112-118 | From empty buffers, the tile loop nest leaves exactly every tile in row-major order |
| HexChunk.AddRowTiles | src/hex_grid.rs:113-117 | One outer round appends the tiles of row z |
| HexChunk.AddTileAt | src/hex_grid.rs:114-116 | One inner round appends tile (x, z) |
| HexChunk.AddChunkSides | src/hex_grid.rs:119-124 | The side loop nest appends to the index buffer exactly the walls the adjacency table calls for, tile by tile in loop order |
| HexChunk.AddRowSides | src/hex_grid.rs:120-123 | One outer round appends the table walls of the tiles of row z |
| HexChunk.AddSidesAt | src/hex_grid.rs:121-122 | One inner round appends the table walls of tile (x, z) after those of every earlier tile |

## Left out

- The plugin registration, `setup`, `draw_gizmos` and `create_hex_grid`. They are engine and entity side effects. `EvenRowShift` states the placement property `create_hex_grid` relies on.
- `Mesh::new` and the attribute insertion. They belong to the rendering library. The model returns the four buffers as a `Mesh` value.
- `ChaCha20Rng` seeding and sampling. The RNG is a foreign library. Its draws become the parameter `draw`, which may return any integer, not only 0, 1 or 2.
- `uv_debug_texture`. It is a debug image built through the rendering library.
- f32 rounding. Coordinates are exact reals; `INNER_RADIUS` is the exact rational 0.866025404. Elevations are whole numbers, so comparing them is exact in f32 as well.
- The capacity hint `CHUNK_SIZE * CHUNK_SIZE * 3 * 6` in `create_chunk`. It has no observable effect.
- u32 arithmetic is modelled on unbounded naturals. `ChunkIndicesFitU32` shows the largest value stays far below 2^32 for the original chunk size.
- src/main.rs is not part of this model. It only bootstraps the window and the app.
- Layered noise, ridge masks and seam stitching between chunks. None of them is in the code.
- The four guarded blocks of `add_tile_sides` are four helper methods (`AddEastSide`, `AddNorthSide`, `AddWestEvenSide`, `AddWestOddSide`). `AddTileSides` calls them in the original order.
