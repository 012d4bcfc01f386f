/** The pure part of the chunk mesh builder in Chunk.cs: what one visible
    face contributes to the vertex, triangle and texture-coordinate buffers,
    and the buffers a whole sequence of faces produces. */
module ChunkMesh {
  import opened Numerics
  import opened Voxel

  /** One emitted face: the voxel it belongs to, its direction and the
      texture id the block type gives that direction. */
  datatype Face = Face(pos: Vec3, dir: FaceIndex, textureID: int)

  /** The four vertices of face `dir` of the voxel at `pos`. */
  function QuadVertices(pos: Vec3, dir: FaceIndex): (vs: seq<Vec3>)
    ensures |vs| == 4
  {
    [pos.Plus(Corner(dir, 0)), pos.Plus(Corner(dir, 1)),
     pos.Plus(Corner(dir, 2)), pos.Plus(Corner(dir, 3))]
  }

  /** Every vertex of a face lies on the side of the voxel that the face's
      neighbour offset points to. */
  lemma QuadVerticesOnFacePlane(pos: Vec3, dir: FaceIndex, k: int)
    requires 0 <= k < 4
    ensures Dot(QuadVertices(pos, dir)[k].Minus(pos), FaceChecks()[dir]) == SideOf(FaceChecks()[dir])
  {
    assert QuadVertices(pos, dir)[k].Minus(pos) == Corner(dir, k);
    FaceCornersOnCheckedSide(dir, k);
  }

  /** The six indices of a face whose first vertex is number `base`: the
      triangles `0,1,2` and `2,1,3` of the quad. */
  function QuadTriangles(base: int): (t: seq<int>)
    ensures |t| == 6
  {
    [base, base + 1, base + 2, base + 2, base + 1, base + 3]
  }

  /** A face's indices stay within its own four vertices. */
  lemma QuadTrianglesInBounds(base: int)
    ensures forall k :: 0 <= k < 6 ==> base <= QuadTriangles(base)[k] < base + 4
  {
  }

  /** The atlas row and column of a texture id (`id / 4` with C#'s integer
      division, then `id - row * 4`). */
  function AtlasRow(textureID: int): (row: int)
    ensures textureID >= 0 ==> row >= 0 && row * TextureAtlasSizeInBlocks <= textureID
  {
    TruncDiv(textureID, TextureAtlasSizeInBlocks)
  }

  function AtlasColumn(textureID: int): (column: int)
    ensures textureID >= 0 ==> 0 <= column < TextureAtlasSizeInBlocks
  {
    TruncDivBounds(textureID, TextureAtlasSizeInBlocks);
    textureID - AtlasRow(textureID) * TextureAtlasSizeInBlocks
  }

  /** For a non-negative id the column is within the atlas and (row, column)
      spells the id back in row-major order. */
  lemma AtlasTile(textureID: int)
    requires textureID >= 0
    ensures 0 <= AtlasColumn(textureID) < TextureAtlasSizeInBlocks
    ensures AtlasRow(textureID) >= 0
    ensures AtlasRow(textureID) * TextureAtlasSizeInBlocks + AtlasColumn(textureID) == textureID
    ensures textureID < TextureAtlasSizeInBlocks * TextureAtlasSizeInBlocks ==> AtlasRow(textureID) < TextureAtlasSizeInBlocks
  {
    TruncDivOfNatural(textureID, TextureAtlasSizeInBlocks);
  }

  /** Distinct ids of the 4x4 atlas name distinct tiles. */
  lemma AtlasTileInjective(a: int, b: int)
    requires 0 <= a < 16 && 0 <= b < 16 && a != b
    ensures AtlasRow(a) != AtlasRow(b) || AtlasColumn(a) != AtlasColumn(b)
  {
    AtlasTile(a);
    AtlasTile(b);
  }

  /** `AddTexture`: the texture coordinates of the four corners of the atlas
      tile of `textureID`, in the order `(u,v)`, `(u,v+s)`, `(u+s,v)`,
      `(u+s,v+s)` where `s` is the tile size, `u = column * s` and
      `v = 1 - row * s - s`. */
  function QuadUvs(textureID: int): (uv: seq<Vec2>)
    ensures |uv| == 4
  {
    var s := NormalizedBlockTextureSize;
    var x := AtlasColumn(textureID) as real * s;
    var y := 1.0 - AtlasRow(textureID) as real * s - s;
    [Vec2(x, y), Vec2(x, y + s), Vec2(x + s, y), Vec2(x + s, y + s)]
  }

  /** The lower-left corner of the tile, and the tile size. */
  lemma QuadUvsFollowTemplate(textureID: int, k: int)
    requires 0 <= k < 4
    ensures QuadUvs(textureID)[k].u == (AtlasColumn(textureID) as real + Uvs()[k].u) * 0.25
    ensures QuadUvs(textureID)[k].v == 1.0 - (AtlasRow(textureID) as real + 1.0 - Uvs()[k].v) * 0.25
  {
    TileSize();
  }

  lemma TileSize()
    ensures NormalizedBlockTextureSize == 0.25
  {
  }

  /** For an id inside the 4x4 atlas every coordinate lies in [0, 1]. */
  lemma QuadUvsInUnitSquare(textureID: int, k: int)
    requires 0 <= textureID < 16 && 0 <= k < 4
    ensures 0.0 <= QuadUvs(textureID)[k].u <= 1.0
    ensures 0.0 <= QuadUvs(textureID)[k].v <= 1.0
  {
    AtlasTile(textureID);
    QuadUvsFollowTemplate(textureID, k);
  }

  /** Distinct ids of the 4x4 atlas get distinct texture rectangles. */
  lemma QuadUvsInjective(a: int, b: int)
    requires 0 <= a < 16 && 0 <= b < 16 && a != b
    ensures QuadUvs(a) != QuadUvs(b)
  {
    AtlasTileInjective(a, b);
    QuadUvsFollowTemplate(a, 0);
    QuadUvsFollowTemplate(b, 0);
  }

  /** The four buffers the mesh builder fills: vertex positions, texture
      coordinates, triangle indices, and the number the next vertex gets. */
  datatype MeshData = MeshData(vertices: seq<Vec3>, uvs: seq<Vec2>, triangles: seq<int>, vertexIndex: int)

  /** The buffers after emitting the faces `fs` in order into empty ones:
      each face appends its quad, its texture rectangle, and two triangles
      over the vertex numbers it was given, then advances the vertex number
      by four. */
  function MeshOf(fs: seq<Face>): (m: MeshData)
    ensures |m.vertices| == 4 * |fs| && |m.uvs| == 4 * |fs| && |m.triangles| == 6 * |fs|
    ensures m.vertexIndex == |m.vertices|
  {
    if fs == [] then
      MeshData([], [], [], 0)
    else
      var m := MeshOf(fs[..|fs| - 1]);
      var f := fs[|fs| - 1];
      MeshData(m.vertices + QuadVertices(f.pos, f.dir), m.uvs + QuadUvs(f.textureID),
               m.triangles + QuadTriangles(m.vertexIndex), m.vertexIndex + 4)
  }

  /** Emitting one more face extends the buffers of the faces before it. */
  lemma FaceAppended(fs: seq<Face>, f: Face)
    ensures MeshOf(fs + [f]) ==
              var m := MeshOf(fs);
              MeshData(m.vertices + QuadVertices(f.pos, f.dir), m.uvs + QuadUvs(f.textureID),
                       m.triangles + QuadTriangles(m.vertexIndex), m.vertexIndex + 4)
  {
    assert (fs + [f])[..|fs|] == fs;
  }

  lemma AppendAssociative<T>(a: seq<T>, b: seq<T>, c: seq<T>)
    ensures (a + b) + c == a + (b + c)
  {
  }

  lemma AppendNothing<T>(a: seq<T>, b: seq<T>)
    requires b == []
    ensures a + b == a
  {
  }

  lemma SliceOfLeft<T>(a: seq<T>, b: seq<T>, i: int, j: int)
    requires 0 <= i <= j <= |a|
    ensures (a + b)[i .. j] == a[i .. j]
  {
  }

  lemma SliceOfRight<T>(a: seq<T>, b: seq<T>)
    ensures (a + b)[|a| .. |a| + |b|] == b
  {
  }

  /** Face j of the sequence owns the vertices and texture coordinates at
      `4j .. 4j+3` and the indices at `6j .. 6j+5`, and its two triangles
      refer to its own four vertices. */
  lemma {:induction false} FaceSlices(fs: seq<Face>, j: int)
    requires 0 <= j < |fs|
    ensures MeshOf(fs).vertices[4 * j .. 4 * j + 4] == QuadVertices(fs[j].pos, fs[j].dir)
    ensures MeshOf(fs).uvs[4 * j .. 4 * j + 4] == QuadUvs(fs[j].textureID)
    ensures MeshOf(fs).triangles[6 * j .. 6 * j + 6] == QuadTriangles(4 * j)
  {
    var init, f := fs[..|fs| - 1], fs[|fs| - 1];
    var m := MeshOf(init);
    if j < |fs| - 1 {
      FaceSlices(init, j);
      assert init[j] == fs[j];
      SliceOfLeft(m.vertices, QuadVertices(f.pos, f.dir), 4 * j, 4 * j + 4);
      SliceOfLeft(m.uvs, QuadUvs(f.textureID), 4 * j, 4 * j + 4);
      SliceOfLeft(m.triangles, QuadTriangles(m.vertexIndex), 6 * j, 6 * j + 6);
    } else {
      SliceOfRight(m.vertices, QuadVertices(f.pos, f.dir));
      SliceOfRight(m.uvs, QuadUvs(f.textureID));
      SliceOfRight(m.triangles, QuadTriangles(m.vertexIndex));
    }
  }

  /** Every triangle index names one of the vertices in the buffer. */
  lemma {:induction false} TriangleIndicesInBounds(fs: seq<Face>)
    ensures forall k :: 0 <= k < |MeshOf(fs).triangles| ==> 0 <= MeshOf(fs).triangles[k] < |MeshOf(fs).vertices|
  {
    if fs != [] {
      var init, f := fs[..|fs| - 1], fs[|fs| - 1];
      TriangleIndicesInBounds(init);
      var m := MeshOf(init);
      var a, b := m.triangles, QuadTriangles(m.vertexIndex);
      assert MeshOf(fs).triangles == a + b;
      forall k | 0 <= k < |a + b|
        ensures 0 <= (a + b)[k] < 4 * |fs|
      {
        if k < |a| {
          assert (a + b)[k] == a[k];
        } else {
          assert (a + b)[k] == b[k - |a|];
          QuadTrianglesInBounds(m.vertexIndex);
        }
      }
    }
  }

  /** The four buffers of a mesh builder hold exactly the mesh of `fs`. */
  ghost predicate IsMeshOf(vertices: seq<Vec3>, uvs: seq<Vec2>, triangles: seq<int>, vertexIndex: int, fs: seq<Face>)
  {
    MeshData(vertices, uvs, triangles, vertexIndex) == MeshOf(fs)
  }

  /** Appending one face's quad, texture rectangle and triangles, and
      advancing the vertex number by four, gives the mesh of the longer
      face sequence. */
  lemma MeshGrows(vertices: seq<Vec3>, uvs: seq<Vec2>, triangles: seq<int>, vertexIndex: int,
                  fs: seq<Face>, gs: seq<Face>, pos: Vec3, dir: FaceIndex, textureID: int)
    requires IsMeshOf(vertices, uvs, triangles, vertexIndex, fs)
    requires gs == fs + [Face(pos, dir, textureID)]
    ensures IsMeshOf(vertices + QuadVertices(pos, dir), uvs + QuadUvs(textureID),
                     triangles + QuadTriangles(vertexIndex), vertexIndex + 4, gs)
  {
    FaceAppended(fs, Face(pos, dir, textureID));
  }
}
