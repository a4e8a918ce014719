/** The four growable mesh buffers and the two builders that append to them:
    one hexagon tile as a seven-vertex fan (`create_tile`) and one side wall
    between two tiles (`create_quad`), from src/hex_grid.rs. */
module HexTile {
  import opened HexGeometry

  /** The contents of the vertex, uv, normal and index buffers. */
  datatype Mesh = Mesh(verts: seq<Vec3>, uvs: seq<Vec2>, normals: seq<Vec3>, indices: seq<nat>) {
    /** Appending every buffer of `m` to the matching buffer of this mesh. */
    function Append(m: Mesh): Mesh {
      Mesh(verts + m.verts, uvs + m.uvs, normals + m.normals, indices + m.indices)
    }
  }

  lemma AppendAssoc(a: Mesh, b: Mesh, c: Mesh)
    ensures a.Append(b).Append(c) == a.Append(b.Append(c))
  {
    assert a.verts + b.verts + c.verts == a.verts + (b.verts + c.verts);
    assert a.uvs + b.uvs + c.uvs == a.uvs + (b.uvs + c.uvs);
    assert a.normals + b.normals + c.normals == a.normals + (b.normals + c.normals);
    assert a.indices + b.indices + c.indices == a.indices + (b.indices + c.indices);
  }

  const EMPTY: Mesh := Mesh([], [], [], [])

  /** The buffers agree in length and every index names an existing vertex. */
  predicate WellFormed(m: Mesh) {
    && |m.uvs| == |m.verts|
    && |m.normals| == |m.verts|
    && forall k :: 0 <= k < |m.indices| ==> m.indices[k] < |m.verts|
  }

  /** The centre vertex `create_tile` pushes first, then what the first `i`
      rounds of its corner loop append, for a tile centred at `pos` whose
      centre vertex has index `base`. */
  function FanMesh(pos: Vec3, base: nat, i: nat): (r: Mesh)
    requires i <= 6
    ensures |r.verts| == i + 1 && |r.uvs| == i + 1 && |r.normals| == i + 1 && |r.indices| == 3 * i
  {
    if i == 0 then Mesh([pos], [pos.XZ()], [UP], [])
    else
      var corner := pos.Add(HEX_CORNERS[i - 1]);
      FanMesh(pos, base, i - 1).Append(
        Mesh([corner], [corner.XZ()], [UP], [base, base + i, base + 1 + i % 6]))
  }

  /** Everything `create_tile` appends: the centre vertex, then the six corners. */
  function TileMesh(pos: Vec3, base: nat): (r: Mesh)
    ensures |r.verts| == 7 && |r.uvs| == 7 && |r.normals| == 7 && |r.indices| == 18
  {
    FanMesh(pos, base, 6)
  }

  /** Every vertex of the fan is at the centre's elevation, with its
      horizontal position as uv and the up normal, and every index names
      one of the tile's seven vertices. */
  lemma {:induction false} FanShape(pos: Vec3, base: nat, i: nat)
    requires i <= 6
    ensures forall k :: 0 <= k <= i ==>
      && FanMesh(pos, base, i).verts[k].y == pos.y
      && FanMesh(pos, base, i).uvs[k] == FanMesh(pos, base, i).verts[k].XZ()
      && FanMesh(pos, base, i).normals[k] == UP
    ensures forall k :: 0 <= k < 3 * i ==> base <= FanMesh(pos, base, i).indices[k] < base + 7
  {
    if i > 0 {
      FanShape(pos, base, i - 1);
      var prev, r := FanMesh(pos, base, i - 1), FanMesh(pos, base, i);
      forall k | 0 <= k < i
        ensures r.verts[k] == prev.verts[k] && r.uvs[k] == prev.uvs[k] && r.normals[k] == prev.normals[k]
      {
      }
      forall k | 0 <= k < 3 * (i - 1)
        ensures r.indices[k] == prev.indices[k]
      {
      }
      assert HEX_CORNERS[i - 1].y == 0.0;
      assert r.verts[i] == pos.Add(HEX_CORNERS[i - 1]);
      assert r.indices[3 * (i - 1) ..] == [base, base + i, base + 1 + i % 6];
    }
  }

  /** Vertex 0 of the fan is the centre and vertex k + 1 is the centre moved
      by the k-th corner offset. */
  lemma {:induction false} FanCorner(pos: Vec3, base: nat, i: nat, k: nat)
    requires k <= i <= 6
    ensures FanMesh(pos, base, i).verts[k] == if k == 0 then pos else pos.Add(HEX_CORNERS[k - 1])
  {
    if k < i {
      FanCorner(pos, base, i - 1, k);
    }
  }

  /** Triangle `j` of the fan joins the centre to corners j and j + 1 (mod 6). */
  lemma {:induction false} FanTriangle(pos: Vec3, base: nat, i: nat, j: nat)
    requires j < i <= 6
    ensures FanMesh(pos, base, i).indices[3 * j .. 3 * j + 3] == [base, base + 1 + j, base + 1 + (j + 1) % 6]
  {
    if j < i - 1 {
      FanTriangle(pos, base, i - 1, j);
      var prev := FanMesh(pos, base, i - 1).indices;
      assert FanMesh(pos, base, i).indices[3 * j .. 3 * j + 3] == prev[3 * j .. 3 * j + 3];
    }
  }

  /** The layout of one tile: vertex 0 is the centre, vertex 1 + c is corner c,
      and triangle j is (base, base + 1 + j, base + 1 + (j + 1) mod 6). */
  lemma TileLayout(pos: Vec3, base: nat)
    ensures |TileMesh(pos, base).verts| == 7 && |TileMesh(pos, base).indices| == 18
    ensures TileMesh(pos, base).verts[0] == pos
    ensures forall c :: 0 <= c < 6 ==> TileMesh(pos, base).verts[1 + c] == pos.Add(HEX_CORNERS[c])
    ensures forall j :: 0 <= j < 6 ==>
      TileMesh(pos, base).indices[3 * j .. 3 * j + 3] == [base, base + 1 + j, base + 1 + (j + 1) % 6]
  {
    FanCorner(pos, base, 6, 0);
    forall c | 0 <= c < 6
      ensures TileMesh(pos, base).verts[1 + c] == pos.Add(HEX_CORNERS[c])
    {
      FanCorner(pos, base, 6, c + 1);
    }
    forall j | 0 <= j < 6
      ensures TileMesh(pos, base).indices[3 * j .. 3 * j + 3] == [base, base + 1 + j, base + 1 + (j + 1) % 6]
    {
      FanTriangle(pos, base, 6, j);
    }
  }

  /** Appending a tile whose base is the current vertex count keeps a mesh
      well formed. */
  lemma AppendTileWellFormed(m: Mesh, pos: Vec3)
    requires WellFormed(m)
    ensures WellFormed(m.Append(TileMesh(pos, |m.verts|)))
  {
    var t := TileMesh(pos, |m.verts|);
    var r := m.Append(t);
    FanShape(pos, |m.verts|, 6);
    forall k | 0 <= k < |r.indices|
      ensures r.indices[k] < |r.verts|
    {
      if k >= |m.indices| {
        assert r.indices[k] == t.indices[k - |m.indices|];
      }
    }
  }

  /** Four vertex indices of a side wall: v1, v2 on one tile and v3, v4 on
      its neighbour, v1 across from v4 and v2 across from v3. */
  datatype Quad = Quad(v1: nat, v2: nat, v3: nat, v4: nat)

  /** What `create_quad` appends: nothing when the first vertices of the two
      tiles have the same elevation, otherwise the triangles (v1, v3, v2) and
      (v1, v4, v3). */
  function WallIndices(verts: seq<Vec3>, q: Quad): (r: seq<nat>)
    requires q.v1 < |verts| && q.v3 < |verts|
    ensures r == [] <==> verts[q.v1].y == verts[q.v3].y
    ensures |r| == 0 || |r| == 6
  {
    if verts[q.v1].y == verts[q.v3].y then []
    else [q.v1, q.v3, q.v2, q.v1, q.v4, q.v3]
  }

  /** The two wall triangles share the diagonal v1-v3 traversed in opposite
      directions, so both face the same way. */
  lemma WallWinding(verts: seq<Vec3>, q: Quad)
    requires q.v1 < |verts| && q.v3 < |verts|
    requires verts[q.v1].y != verts[q.v3].y
    ensures var r := WallIndices(verts, q);
      && (r[0], r[1]) == (q.v1, q.v3)
      && (r[5], r[3]) == (q.v3, q.v1)
      && {r[0], r[1], r[2], r[4]} == {q.v1, q.v2, q.v3, q.v4}
  {
  }

  /** The vertex, uv, normal and index vectors that `create_chunk` fills. */
  class MeshBuffers {
    var verts: seq<Vec3>
    var uvs: seq<Vec2>
    var normals: seq<Vec3>
    var indices: seq<nat>

    function Contents(): Mesh
      reads this
    {
      Mesh(verts, uvs, normals, indices)
    }

    constructor ()
      ensures Contents() == EMPTY
    {
      verts, uvs, normals, indices := [], [], [], [];
    }

    /** `create_tile`: appends the fan of a tile centred at `pos`, numbering its
        vertices from the current vertex count; earlier entries are unchanged. */
    method CreateTile(pos: Vec3)
      modifies this
      ensures Contents() == old(Contents()).Append(TileMesh(pos, |old(verts)|))
    {
      var idx := |verts|;
      ghost var start := Contents();
      normals := normals + [UP];
      uvs := uvs + [pos.XZ()];
      verts := verts + [pos];
      for i := 0 to 6
        invariant Contents() == start.Append(FanMesh(pos, idx, i))
      {
        ghost var before := Contents();
        var corner := pos.Add(HEX_CORNERS[i]);
        verts := verts + [corner];
        uvs := uvs + [corner.XZ()];
        normals := normals + [UP];
        indices := indices + [idx, idx + 1 + i, idx + 1 + (i + 1) % 6];
        ghost var step := Mesh([corner], [corner.XZ()], [UP], [idx, idx + 1 + i, idx + 1 + (i + 1) % 6]);
        assert Contents() == before.Append(step);
        AppendAssoc(start, FanMesh(pos, idx, i), step);
      }
    }

    /** `create_quad`: appends the wall between v1, v2 and v3, v4 unless the
        elevations at v1 and v3 agree; only the index buffer changes. */
    method CreateQuad(v1: nat, v2: nat, v3: nat, v4: nat)
      requires v1 < |verts| && v3 < |verts|
      modifies this`indices
      ensures indices == old(indices) + WallIndices(verts, Quad(v1, v2, v3, v4))
    {
      if verts[v1].y == verts[v3].y {
        return;
      }
      indices := indices + [v1];
      indices := indices + [v3];
      indices := indices + [v2];

      indices := indices + [v1];
      indices := indices + [v4];
      indices := indices + [v3];
    }
  }
}
