/** A chunk (Chunk.cs): a 5 x 10 x 5 grid of block ids, filled with a fixed
    layering, and the mesh built from it. The mesh builder walks every voxel
    and, for each of its six faces whose neighbour inside the chunk is not
    solid, appends four vertices, four texture coordinates and six triangle
    indices. */
module Chunks {
  import opened Numerics
  import opened Voxel
  import opened ChunkCoordinates
  import opened ChunkMesh
  import WorldBlockTypes

  /** The block catalog the chunk reads through its world (`GetBlockType`). */
  type Catalog = seq<WorldBlockTypes.BlockType>

  /** The block id `PopulateVoxelMap` writes into layer y: 1 at the bottom, 3
      at the top, 2 in between. */
  function LayerBlock(y: int): (b: byte)
    ensures 1 <= b <= 3
  {
    if y < 1 then 1 else if y == ChunkHeight as int - 1 then 3 else 2
  }

  /** Is p inside the chunk's box `[0,W) x [0,H) x [0,W)`? */
  predicate InChunk(p: Vec3)
  {
    0 <= p.x < ChunkWidth && 0 <= p.y < ChunkHeight && 0 <= p.z < ChunkWidth
  }

  /** The neighbour of p across face i. */
  function Neighbour(p: Vec3, i: FaceIndex): Vec3
  {
    p.Plus(FaceChecks()[i])
  }

  /** The faces `table` gives position p, none if it has no entry. */
  function Lookup(table: map<Vec3, seq<Face>>, p: Vec3): seq<Face>
  {
    if p in table then table[p] else []
  }

  /** The faces the mesh builder has emitted, taking each voxel's faces
      from `table`, before it visits the voxel (x, y, z): layer by layer
      (y), row by row (x), along the row (z). `(y, ChunkWidth, 0)` is the
      end of layer y and `(ChunkHeight, 0, 0)` the end of the chunk. */
  function FacesBefore(table: map<Vec3, seq<Face>>, y: int, x: int, z: int): seq<Face>
    decreases y, x, z
  {
    if z > 0 then FacesBefore(table, y, x, z - 1) + Lookup(table, Vec3(x, y, z - 1))
    else if x > 0 then FacesBefore(table, y, x - 1, ChunkWidth)
    else if y > 0 then FacesBefore(table, y - 1, ChunkWidth, 0)
    else []
  }

  /** A point the mesh builder's loops pass through: inside a row, at the
      end of a layer, or at the end of the chunk. */
  predicate IsCursor(y: int, x: int, z: int)
  {
    || (0 <= y < ChunkHeight && 0 <= x < ChunkWidth && 0 <= z <= ChunkWidth)
    || (0 <= y < ChunkHeight && x == ChunkWidth && z == 0)
    || (y == ChunkHeight && x == 0 && z == 0)
  }

  class Chunk {
    const coords: ChunkCoords
    /** The chunk's world position (`chunk.transform.position`). */
    const origin: Vec3
    const blockTypes: Catalog
    const voxelMap: array3<byte>

    /** The faces of every voxel, by position, as the constructor tabulated
        them once the map was filled. */
    ghost var builtTable: map<Vec3, seq<Face>>

    var vertexIndex: int
    var vertices: seq<Vec3>
    var triangles: seq<int>
    var uvs: seq<Vec2>

    /** The map has the chunk's dimensions and every stored id names a
        catalog entry. */
    predicate MapValid()
      reads voxelMap
    {
      && voxelMap.Length0 == ChunkWidth
      && voxelMap.Length1 == ChunkHeight
      && voxelMap.Length2 == ChunkWidth
      && forall x, y, z :: 0 <= x < ChunkWidth && 0 <= y < ChunkHeight && 0 <= z < ChunkWidth ==>
           voxelMap[x, y, z] as int < |blockTypes|
    }

    /** Every cell holds its layer's block id. */
    ghost predicate Populated()
      reads voxelMap
    {
      && voxelMap.Length0 == ChunkWidth
      && voxelMap.Length1 == ChunkHeight
      && voxelMap.Length2 == ChunkWidth
      && forall x, y, z :: 0 <= x < ChunkWidth && 0 <= y < ChunkHeight && 0 <= z < ChunkWidth ==>
           voxelMap[x, y, z] == LayerBlock(y)
    }

    /** The buffers are exactly the mesh of the faces `fs`, emitted in
        that order. */
    ghost predicate MeshConsistent(fs: seq<Face>)
      reads this
    {
      IsMeshOf(vertices, uvs, triangles, vertexIndex, fs)
    }

    /** `CheckVoxel`: a position outside the box is not solid; inside, the
        catalog entry of the stored id says. */
    predicate CheckVoxel(p: Vec3): (solid: bool)
      reads voxelMap
      requires MapValid()
      ensures solid ==> InChunk(p)
    {
      if !InChunk(p) then false else blockTypes[voxelMap[p.x, p.y, p.z]].isSolid
    }

    /** The texture id that face i of the voxel at p is drawn with. */
    function TextureOf(p: Vec3, i: FaceIndex): int
      reads voxelMap
      requires MapValid() && InChunk(p)
    {
      blockTypes[voxelMap[p.x, p.y, p.z]].GetTextureID(i as byte) as int
    }

    /** A face the mesh builder emits: of a voxel inside the chunk, facing a
        neighbour that is not solid, with its block type's texture. */
    ghost predicate Emitted(f: Face)
      reads voxelMap
      requires MapValid()
    {
      InChunk(f.pos) && !CheckVoxel(Neighbour(f.pos, f.dir)) && f.textureID == TextureOf(f.pos, f.dir)
    }

    /** The faces `AddVoxelToChunk(p)` emits while checking faces 0 .. n-1. */
    ghost function VoxelFaces(p: Vec3, n: int): seq<Face>
      reads voxelMap
      requires MapValid() && InChunk(p) && 0 <= n <= 6
    {
      if n == 0 then
        []
      else
        var own := if !CheckVoxel(Neighbour(p, n - 1)) then [Face(p, n - 1, TextureOf(p, n - 1))] else [];
        VoxelFaces(p, n - 1) + own
    }

    /** One more face checked: the faces so far grow by that face exactly
        when its neighbour is not solid. */
    lemma VoxelFacesStep(start: seq<Face>, p: Vec3, i: int)
      requires MapValid() && InChunk(p) && 0 <= i < 6
      ensures !CheckVoxel(Neighbour(p, i)) ==>
                start + VoxelFaces(p, i) + [Face(p, i, TextureOf(p, i))] == start + VoxelFaces(p, i + 1)
      ensures CheckVoxel(Neighbour(p, i)) ==> start + VoxelFaces(p, i) == start + VoxelFaces(p, i + 1)
    {
      AppendAssociative(start, VoxelFaces(p, i), [Face(p, i, TextureOf(p, i))]);
    }

    /** Every position of the chunk's box. */
    ghost function Positions(): set<Vec3>
    {
      set x, y, z | 0 <= x < ChunkWidth && 0 <= y < ChunkHeight && 0 <= z < ChunkWidth :: Vec3(x, y, z)
    }

    /** The faces of every voxel of the chunk, by position. */
    ghost function FaceTable(): map<Vec3, seq<Face>>
      reads voxelMap
      requires MapValid()
    {
      map p | p in Positions() :: VoxelFaces(p, 6)
    }

    /** `table` gives the faces of every voxel of the chunk. */
    ghost predicate Tabulates(table: map<Vec3, seq<Face>>)
      reads voxelMap
      requires MapValid()
    {
      forall p {:trigger VoxelFaces(p, 6)} :: InChunk(p) ==> Lookup(table, p) == VoxelFaces(p, 6)
    }

    lemma FaceTableTabulates()
      requires MapValid()
      ensures Tabulates(FaceTable())
    {
      forall p | InChunk(p)
        ensures Lookup(FaceTable(), p) == VoxelFaces(p, 6)
      {
        assert p == Vec3(p.x, p.y, p.z);
        assert p in Positions();
      }
    }

    /** The faces of the whole chunk in the mesh builder's order. */
    ghost function ChunkFaces(): seq<Face>
      reads voxelMap
      requires MapValid()
    {
      FacesBefore(FaceTable(), ChunkHeight, 0, 0)
    }

    /** Two tables of the chunk's faces give the same faces before any
        cursor of the builder's loops. */
    lemma {:induction false} TablesAgree(t1: map<Vec3, seq<Face>>, t2: map<Vec3, seq<Face>>, y: int, x: int, z: int)
      requires MapValid() && Tabulates(t1) && Tabulates(t2) && IsCursor(y, x, z)
      ensures FacesBefore(t1, y, x, z) == FacesBefore(t2, y, x, z)
      decreases y, x, z
    {
      if z > 0 {
        TablesAgree(t1, t2, y, x, z - 1);
        assert Lookup(t1, Vec3(x, y, z - 1)) == VoxelFaces(Vec3(x, y, z - 1), 6) == Lookup(t2, Vec3(x, y, z - 1));
      } else if x > 0 {
        TablesAgree(t1, t2, y, x - 1, ChunkWidth);
      } else if y > 0 {
        TablesAgree(t1, t2, y - 1, ChunkWidth, 0);
      }
    }

    /** What the constructor leaves: every cell holds its layer's block id,
        and the buffers hold exactly the mesh of the chunk's faces, read
        from the table the constructor kept. */
    ghost predicate Built()
      reads this, voxelMap
    {
      && Populated() && MapValid() && Tabulates(builtTable)
      && MeshConsistent(FacesBefore(builtTable, ChunkHeight, 0, 0))
    }

    /** A built chunk's buffers hold the mesh of `ChunkFaces()`. */
    lemma BuiltMesh()
      requires Built()
      ensures MeshConsistent(ChunkFaces())
    {
      FaceTableTabulates();
      TablesAgree(builtTable, FaceTable(), ChunkHeight, 0, 0);
    }

    /** The constructor: store the coordinates, place the chunk at
        `coords * ChunkWidth`, fill the map and build the mesh. The catalog
        must name the ids 0 .. 3 that the map can hold. */
    constructor(coords: ChunkCoords, blockTypes: Catalog)
      requires |blockTypes| >= 4
      ensures this.coords == coords && this.blockTypes == blockTypes
      ensures origin == Vec3(coords.x * ChunkWidth, 0, coords.z * ChunkWidth)
      ensures Built()
    {
      this.coords := coords;
      this.blockTypes := blockTypes;
      origin := Vec3(coords.x * ChunkWidth, 0, coords.z * ChunkWidth);
      voxelMap := new byte[ChunkWidth, ChunkHeight, ChunkWidth];
      vertexIndex := 0;
      vertices := [];
      triangles := [];
      uvs := [];
      new;
      PopulateVoxelMap();
      PopulatedIsValid();
      FaceTableTabulates();
      CalculateMeshData([], FaceTable());
      builtTable := FaceTable();
      assert [] + FacesBefore(builtTable, ChunkHeight, 0, 0) == FacesBefore(builtTable, ChunkHeight, 0, 0);
    }

    /** `PopulateVoxelMap`: writes every cell with its layer's id. */
    method PopulateVoxelMap()
      requires voxelMap.Length0 == ChunkWidth && voxelMap.Length1 == ChunkHeight && voxelMap.Length2 == ChunkWidth
      modifies voxelMap
      ensures Populated()
    {
      for y := 0 to ChunkHeight
        invariant forall a, b, c :: 0 <= a < ChunkWidth && 0 <= b < y && 0 <= c < ChunkWidth ==>
                    voxelMap[a, b, c] == LayerBlock(b)
      {
        for x := 0 to ChunkWidth
          invariant forall a, b, c :: 0 <= a < ChunkWidth && 0 <= b < y && 0 <= c < ChunkWidth ==>
                      voxelMap[a, b, c] == LayerBlock(b)
          invariant forall a, c :: 0 <= a < x && 0 <= c < ChunkWidth ==> voxelMap[a, y, c] == LayerBlock(y)
        {
          for z := 0 to ChunkWidth
            invariant forall a, b, c :: 0 <= a < ChunkWidth && 0 <= b < y && 0 <= c < ChunkWidth ==>
                        voxelMap[a, b, c] == LayerBlock(b)
            invariant forall a, c :: 0 <= a < x && 0 <= c < ChunkWidth ==> voxelMap[a, y, c] == LayerBlock(y)
            invariant forall c :: 0 <= c < z ==> voxelMap[x, y, c] == LayerBlock(y)
          {
            if y < 1 {
              voxelMap[x, y, z] := 1;
            } else if y == ChunkHeight - 1 {
              voxelMap[x, y, z] := 3;
            } else {
              voxelMap[x, y, z] := 2;
            }
          }
        }
      }
    }

    /** A populated map only holds ids 1 .. 3, all in a catalog of four. */
    lemma PopulatedIsValid()
      requires Populated() && |blockTypes| >= 4
      ensures MapValid()
    {
    }

    /** `CalculateMeshData`: visits every voxel, layer by layer (y), row by
        row (x), along the row (z), and adds its faces after those of `fs`. */
    method CalculateMeshData(ghost fs: seq<Face>, ghost table: map<Vec3, seq<Face>>)
      requires MapValid() && MeshConsistent(fs) && Tabulates(table)
      modifies this
      ensures MeshConsistent(fs + FacesBefore(table, ChunkHeight, 0, 0))
      ensures builtTable == old(builtTable)
    {
      ghost var done := fs;
      AppendNothing(fs, FacesBefore(table, 0, 0, 0));
      for y := 0 to ChunkHeight
        invariant MeshConsistent(done) && done == fs + FacesBefore(table, y, 0, 0)
        invariant builtTable == old(builtTable)
      {
        for x := 0 to ChunkWidth
          invariant MeshConsistent(done) && done == fs + FacesBefore(table, y, x, 0)
          invariant builtTable == old(builtTable)
        {
          for z := 0 to ChunkWidth
            invariant MeshConsistent(done) && done == fs + FacesBefore(table, y, x, z)
            invariant builtTable == old(builtTable)
          {
            AddVoxelToChunk(Vec3(x, y, z), done, table);
            AppendAssociative(fs, FacesBefore(table, y, x, z), Lookup(table, Vec3(x, y, z)));
            done := done + Lookup(table, Vec3(x, y, z));
          }
          assert FacesBefore(table, y, x + 1, 0) == FacesBefore(table, y, x, ChunkWidth);
        }
        assert FacesBefore(table, y + 1, 0, 0) == FacesBefore(table, y, ChunkWidth, 0);
      }
    }

    /** `AddVoxelToChunk`: for each face whose neighbour is not solid, append
        its four corners, its texture rectangle and its two triangles, and
        advance `vertexIndex` by four; the buffers then hold the mesh of
        `fs` followed by the faces of this voxel. */
    method AddVoxelToChunk(position: Vec3, ghost fs: seq<Face>, ghost table: map<Vec3, seq<Face>>)
      requires MapValid() && InChunk(position) && MeshConsistent(fs) && Tabulates(table)
      modifies this
      ensures MeshConsistent(fs + Lookup(table, position))
      ensures builtTable == old(builtTable)
    {
      assert Lookup(table, position) == VoxelFaces(position, 6);
      AppendNothing(fs, VoxelFaces(position, 0));
      for i := 0 to 6
        invariant MeshConsistent(fs + VoxelFaces(position, i))
        invariant builtTable == old(builtTable)
      {
        VoxelFacesStep(fs, position, i);
        if !CheckVoxel(Neighbour(position, i)) {
          MeshGrows(vertices, uvs, triangles, vertexIndex, fs + VoxelFaces(position, i), fs + VoxelFaces(position, i + 1),
                    position, i, TextureOf(position, i));
          AddFace(position, i);
        }
      }
    }

    /** The body of the face loop of `AddVoxelToChunk` for a visible face
        `i`: the four corners of the face, its texture rectangle, its two
        triangles over the next four vertex numbers, and `vertexIndex`
        advanced by four. */
    method AddFace(position: Vec3, i: FaceIndex)
      requires MapValid() && InChunk(position)
      modifies this
      ensures vertices == old(vertices) + QuadVertices(position, i)
      ensures uvs == old(uvs) + QuadUvs(TextureOf(position, i))
      ensures triangles == old(triangles) + QuadTriangles(old(vertexIndex))
      ensures vertexIndex == old(vertexIndex) + 4
      ensures builtTable == old(builtTable)
    {
      var blockID := voxelMap[position.x, position.y, position.z];

      vertices := vertices + QuadVertices(position, i);

      AddTexture(blockTypes[blockID].GetTextureID(i as byte) as int);

      triangles := triangles + QuadTriangles(vertexIndex);
      vertexIndex := vertexIndex + 4;
    }

    /** `AddTexture`: appends the four corners of the atlas tile of
        `textureID`. */
    method AddTexture(textureID: int)
      modifies this
      ensures uvs == old(uvs) + QuadUvs(textureID)
      ensures vertices == old(vertices) && triangles == old(triangles)
      ensures vertexIndex == old(vertexIndex)
      ensures builtTable == old(builtTable)
    {
      TileSize();
      var y := AtlasRow(textureID) as real;
      var x := textureID as real - y * TextureAtlasSizeInBlocks as real;
      assert x == AtlasColumn(textureID) as real;

      x := x * NormalizedBlockTextureSize;
      y := y * NormalizedBlockTextureSize;

      y := 1.0 - y - NormalizedBlockTextureSize;

      uvs := uvs + [Vec2(x, y), Vec2(x, y + NormalizedBlockTextureSize),
                    Vec2(x + NormalizedBlockTextureSize, y),
                    Vec2(x + NormalizedBlockTextureSize, y + NormalizedBlockTextureSize)];
    }
  }
}
