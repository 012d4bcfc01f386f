/** What the mesh of a chunk holds (Chunk.cs): exactly one quad for every
    face whose neighbour is not solid and no face twice, in the order the
    builder visits the voxels, with the buffers in lock-step and every
    triangle index naming a vertex. */
module ChunkProperties {
  import opened Voxel
  import opened ChunkCoordinates
  import opened ChunkMesh
  import opened Chunks

  /** Position q is visited before the cursor (y, x, z) of the builder's
      loops: in an earlier layer, an earlier row of the same layer, or
      earlier in the same row. */
  predicate VisitedBefore(q: Vec3, y: int, x: int, z: int)
  {
    q.y < y || (q.y == y && (q.x < x || (q.x == x && q.z < z)))
  }

  /** The voxel at p emits, among its faces 0 .. n-1, exactly the faces
      whose neighbour is not solid. */
  lemma {:induction false} VoxelFacesMembers(c: Chunk, p: Vec3, n: int, f: Face)
    requires c.MapValid() && InChunk(p) && 0 <= n <= 6
    ensures f in c.VoxelFaces(p, n) <==> f.pos == p && f.dir < n && c.Emitted(f)
  {
    if n > 0 {
      VoxelFacesMembers(c, p, n - 1, f);
    }
  }

  /** Before the cursor, the builder has emitted exactly the faces of the
      voxels it has visited whose neighbour is not solid. */
  lemma {:induction false} FacesBeforeMembers(c: Chunk, table: map<Vec3, seq<Face>>, y: int, x: int, z: int, f: Face)
    requires c.MapValid() && c.Tabulates(table) && IsCursor(y, x, z)
    ensures f in FacesBefore(table, y, x, z) <==> c.Emitted(f) && VisitedBefore(f.pos, y, x, z)
    decreases y, x, z
  {
    if z > 0 {
      FacesBeforeMembers(c, table, y, x, z - 1, f);
      VoxelFacesMembers(c, Vec3(x, y, z - 1), 6, f);
    } else if x > 0 {
      FacesBeforeMembers(c, table, y, x - 1, ChunkWidth, f);
    } else if y > 0 {
      FacesBeforeMembers(c, table, y - 1, ChunkWidth, 0, f);
    }
  }

  /** The faces of the whole chunk are exactly the emitted ones. */
  lemma ChunkFacesMembers(c: Chunk, f: Face)
    requires c.MapValid()
    ensures f in c.ChunkFaces() <==> c.Emitted(f)
  {
    c.FaceTableTabulates();
    FacesBeforeMembers(c, c.FaceTable(), ChunkHeight, 0, 0, f);
  }

  /** No element of `s` occurs twice. */
  ghost predicate Distinct<T>(s: seq<T>)
  {
    forall i, j :: 0 <= i < j < |s| ==> s[i] != s[j]
  }

  lemma DistinctAppend<T>(a: seq<T>, b: seq<T>)
    requires Distinct(a) && Distinct(b)
    requires forall t :: t in a ==> t !in b
    ensures Distinct(a + b)
  {
    forall i, j | 0 <= i < j < |a + b|
      ensures (a + b)[i] != (a + b)[j]
    {
      if j >= |a| && i < |a| {
        assert (a + b)[i] in a && (a + b)[j] == b[j - |a|];
      }
    }
  }

  /** A voxel emits each of its faces at most once. */
  lemma {:induction false} VoxelFacesDistinct(c: Chunk, p: Vec3, n: int)
    requires c.MapValid() && InChunk(p) && 0 <= n <= 6
    ensures Distinct(c.VoxelFaces(p, n))
  {
    if n > 0 {
      VoxelFacesDistinct(c, p, n - 1);
      var own := if !c.CheckVoxel(Neighbour(p, n - 1)) then [Face(p, n - 1, c.TextureOf(p, n - 1))] else [];
      forall f | f in c.VoxelFaces(p, n - 1)
        ensures f !in own
      {
        VoxelFacesMembers(c, p, n - 1, f);
      }
      DistinctAppend(c.VoxelFaces(p, n - 1), own);
    }
  }

  /** Before any cursor, the builder has emitted no face twice: a voxel's
      faces carry its own position, which no earlier voxel has. */
  lemma {:induction false} FacesBeforeDistinct(c: Chunk, table: map<Vec3, seq<Face>>, y: int, x: int, z: int)
    requires c.MapValid() && c.Tabulates(table) && IsCursor(y, x, z)
    ensures Distinct(FacesBefore(table, y, x, z))
    decreases y, x, z
  {
    if z > 0 {
      FacesBeforeDistinct(c, table, y, x, z - 1);
      var p := Vec3(x, y, z - 1);
      assert Lookup(table, p) == c.VoxelFaces(p, 6);
      VoxelFacesDistinct(c, p, 6);
      forall f | f in FacesBefore(table, y, x, z - 1)
        ensures f !in Lookup(table, p)
      {
        FacesBeforeMembers(c, table, y, x, z - 1, f);
        VoxelFacesMembers(c, p, 6, f);
      }
      DistinctAppend(FacesBefore(table, y, x, z - 1), Lookup(table, p));
    } else if x > 0 {
      FacesBeforeDistinct(c, table, y, x - 1, ChunkWidth);
    } else if y > 0 {
      FacesBeforeDistinct(c, table, y - 1, ChunkWidth, 0);
    }
  }

  /** The chunk's mesh holds no face twice. */
  lemma ChunkFacesDistinct(c: Chunk)
    requires c.MapValid()
    ensures Distinct(c.ChunkFaces())
  {
    c.FaceTableTabulates();
    FacesBeforeDistinct(c, c.FaceTable(), ChunkHeight, 0, 0);
  }

  /** Face i of a voxel inside the chunk is in the mesh exactly when the
      neighbour across it is not solid; the voxel's own block is not
      consulted. */
  lemma FaceEmittedIff(c: Chunk, p: Vec3, i: FaceIndex)
    requires c.MapValid() && InChunk(p)
    ensures Face(p, i, c.TextureOf(p, i)) in c.ChunkFaces() <==> !c.CheckVoxel(Neighbour(p, i))
  {
    ChunkFacesMembers(c, Face(p, i, c.TextureOf(p, i)));
  }

  /** A face of the chunk never looks onto a solid neighbour. */
  lemma ChunkFaceFacesNoSolid(c: Chunk, f: Face)
    requires c.MapValid()
    ensures f in c.ChunkFaces() ==> !c.CheckVoxel(Neighbour(f.pos, f.dir))
  {
    ChunkFacesMembers(c, f);
  }

  /** Between two solid voxels of the chunk there is no face: neither p's
      face towards its neighbour q nor q's face back towards p is emitted,
      whatever texture it would carry. */
  lemma SharedFaceCulled(c: Chunk, p: Vec3, i: FaceIndex, tp: int, tq: int)
    requires c.MapValid() && c.CheckVoxel(p) && c.CheckVoxel(Neighbour(p, i))
    ensures Face(p, i, tp) !in c.ChunkFaces()
    ensures Face(Neighbour(p, i), Opposite(i), tq) !in c.ChunkFaces()
  {
    ChunkFaceFacesNoSolid(c, Face(p, i, tp));
    ChunkFaceFacesNoSolid(c, Face(Neighbour(p, i), Opposite(i), tq));
    NeighbourOfNeighbour(p, i);
  }

  /** Crossing face i and then the opposite face leads back. */
  lemma NeighbourOfNeighbour(p: Vec3, i: FaceIndex)
    ensures Neighbour(Neighbour(p, i), Opposite(i)) == p
  {
    FaceOpposed(i);
  }

  /** Every face on the chunk's outer boundary is emitted, whatever the
      blocks: a neighbour outside the box never counts as solid. */
  lemma BoundaryFaceEmitted(c: Chunk, p: Vec3, i: FaceIndex)
    requires c.MapValid() && InChunk(p) && !InChunk(Neighbour(p, i))
    ensures Face(p, i, c.TextureOf(p, i)) in c.ChunkFaces()
  {
    FaceEmittedIff(c, p, i);
  }

  /** The buffers, read as one mesh: the vertices and texture coordinates
      grow four at a time and the indices six at a time, `vertexIndex`
      counts the vertices, and every index names a vertex. */
  lemma BuffersInLockStep(c: Chunk, fs: seq<Face>)
    requires c.MeshConsistent(fs)
    ensures |c.vertices| == |c.uvs| == c.vertexIndex
    ensures c.vertexIndex % 4 == 0
    ensures 2 * |c.triangles| == 3 * |c.vertices|
    ensures forall k :: 0 <= k < |c.triangles| ==> 0 <= c.triangles[k] < |c.vertices|
  {
    TriangleIndicesInBounds(fs);
  }

  /** Quad j of the buffers draws face f: its four corners, its texture
      rectangle, and two triangles over its own four vertices. */
  ghost predicate QuadAt(c: Chunk, j: int, f: Face)
    reads c
  {
    && 0 <= j
    && 4 * j + 4 <= |c.vertices| && 4 * j + 4 <= |c.uvs| && 6 * j + 6 <= |c.triangles|
    && c.vertices[4 * j .. 4 * j + 4] == QuadVertices(f.pos, f.dir)
    && c.uvs[4 * j .. 4 * j + 4] == QuadUvs(f.textureID)
    && c.triangles[6 * j .. 6 * j + 6] == QuadTriangles(4 * j)
  }

  /** Every emitted face is drawn by exactly one quad of the built mesh:
      it is face j of the chunk's faces for a single j, and quad j draws
      it. */
  lemma EmittedFaceDrawn(c: Chunk, f: Face)
    requires c.MapValid() && c.MeshConsistent(c.ChunkFaces()) && c.Emitted(f)
    ensures exists j :: 0 <= j < |c.ChunkFaces()| && c.ChunkFaces()[j] == f && QuadAt(c, j, f)
              && forall k :: 0 <= k < |c.ChunkFaces()| && c.ChunkFaces()[k] == f ==> k == j
  {
    var fs := c.ChunkFaces();
    ChunkFacesMembers(c, f);
    ChunkFacesDistinct(c);
    var j :| 0 <= j < |fs| && fs[j] == f;
    FaceSlices(fs, j);
    assert QuadAt(c, j, f);
  }

  /** Every quad of the built mesh draws an emitted face. */
  lemma QuadDrawsEmittedFace(c: Chunk, j: int)
    requires c.MapValid() && c.MeshConsistent(c.ChunkFaces())
    requires 0 <= j && 4 * j < |c.vertices|
    ensures exists f :: c.Emitted(f) && QuadAt(c, j, f)
  {
    var fs := c.ChunkFaces();
    ChunkFacesMembers(c, fs[j]);
    FaceSlices(fs, j);
    assert QuadAt(c, j, fs[j]);
  }

  /** After `PopulateVoxelMap` a position is solid exactly when it is inside
      the box and its layer's block is solid. */
  lemma CheckVoxelAfterPopulate(c: Chunk, p: Vec3)
    requires c.Populated() && c.MapValid() && |c.blockTypes| >= 4
    ensures c.CheckVoxel(p) <==> InChunk(p) && c.blockTypes[LayerBlock(p.y)].isSolid
  {
  }

  /** The chunk's world position lies in the chunk it was built for. */
  lemma OriginMapsBack(c: Chunk)
    requires c.origin == Vec3(c.coords.x * ChunkWidth, 0, c.coords.z * ChunkWidth)
    ensures FromPosition(Position(c.origin.x as real, c.origin.y as real, c.origin.z as real)) == c.coords
  {
    CornerMapsBack(c.coords, 0.0);
  }
}
