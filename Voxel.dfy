/** The static geometry of one voxel (Voxel.cs): the world constants, the
    eight corners of the unit cube, the four corners of each of the six faces,
    the texture-coordinate template of a quad and the six face directions.
    Faces are numbered Back, Front, Top, Bottom, Left, Right. */
module Voxel {

  const ChunkWidth: nat := 5
  const ChunkHeight: nat := 10
  const WorldSizeInChunks: nat := 4
  const TextureAtlasSizeInBlocks: nat := 4

  /** Side of one atlas tile in normalised texture coordinates. */
  const NormalizedBlockTextureSize: real := 1.0 / TextureAtlasSizeInBlocks as real

  /** The atlas is a square of `TextureAtlasSizeInBlocks` tiles of that size
      on each side, spanning exactly the unit square. */
  lemma AtlasSpansUnitSquare()
    ensures 0.0 < NormalizedBlockTextureSize
    ensures NormalizedBlockTextureSize * TextureAtlasSizeInBlocks as real == 1.0
  {
  }

  /** A point of the voxel lattice (every vertex the mesh builder emits is one). */
  datatype Vec3 = Vec3(x: int, y: int, z: int) {
    function Plus(o: Vec3): Vec3 { Vec3(x + o.x, y + o.y, z + o.z) }
    function Minus(o: Vec3): Vec3 { Vec3(x - o.x, y - o.y, z - o.z) }
    function Neg(): Vec3 { Vec3(-x, -y, -z) }
  }

  /** `p * q`, with the factors -1, 0 and 1 (the only ones the cube's
      corners and directions produce) spelled out so that the solver does not
      need non-linear arithmetic for them. */
  function Product(p: int, q: int): int
  {
    if p == 0 then 0 else if p == 1 then q else if p == -1 then -q else p * q
  }

  function Dot(a: Vec3, b: Vec3): int
  {
    Product(a.x, b.x) + Product(a.y, b.y) + Product(a.z, b.z)
  }

  /** A texture coordinate. */
  datatype Vec2 = Vec2(u: real, v: real)

  type FaceIndex = i: int | 0 <= i < 6

  predicate IsBit(n: int) { n == 0 || n == 1 }

  predicate IsUnitAxis(v: Vec3)
  {
    || ((v.x == 1 || v.x == -1) && v.y == 0 && v.z == 0)
    || (v.x == 0 && (v.y == 1 || v.y == -1) && v.z == 0)
    || (v.x == 0 && v.y == 0 && (v.z == 1 || v.z == -1))
  }

  /** The face on the other side of the cube: faces come in pairs 2k, 2k+1. */
  function Opposite(i: FaceIndex): (o: FaceIndex)
    ensures o != i && o / 2 == i / 2
  {
    if i % 2 == 0 then i + 1 else i - 1
  }

  /** `Verts`: the corners of the unit cube. */
  function Verts(): (v: seq<Vec3>)
    ensures |v| == 8
  {
    [ Vec3(0, 0, 0), Vec3(1, 0, 0), Vec3(1, 1, 0), Vec3(0, 1, 0),
      Vec3(0, 0, 1), Vec3(1, 0, 1), Vec3(1, 1, 1), Vec3(0, 1, 1) ]
  }

  /** The eight entries of `Verts` are distinct points with every coordinate
      0 or 1: exactly the eight corners of the unit cube. */
  lemma VertsAreCubeCorners()
    ensures forall i :: 0 <= i < 8 ==> IsBit(Verts()[i].x) && IsBit(Verts()[i].y) && IsBit(Verts()[i].z)
    ensures forall i, j :: 0 <= i < j < 8 ==> Verts()[i] != Verts()[j]
  {
  }

  /** `Tris`: for each face, the indices into `Verts` of its four corners, in
      the order the quad's two triangles `0,1,2` and `2,1,3` refer to them. */
  function Tris(): (t: seq<seq<int>>)
    ensures |t| == 6
    ensures forall i :: 0 <= i < 6 ==> |t[i]| == 4
    ensures forall i, k :: 0 <= i < 6 && 0 <= k < 4 ==> 0 <= t[i][k] < 8
    ensures forall i, k, l :: 0 <= i < 6 && 0 <= k < l < 4 ==> t[i][k] != t[i][l]
  {
    [ [0, 3, 1, 2],   // Back
      [5, 6, 4, 7],   // Front
      [3, 7, 2, 6],   // Top
      [1, 5, 0, 4],   // Bottom
      [4, 7, 0, 3],   // Left
      [1, 2, 5, 6] ]  // Right
  }

  /** Corner k of face i, as a point of the unit cube. */
  function Corner(i: FaceIndex, k: int): Vec3
    requires 0 <= k < 4
  {
    Verts()[Tris()[i][k]]
  }

  /** `UVs`: the texture-coordinate template of a quad's four corners; corner
      k sits at u = k div 2, v = k mod 2. */
  function Uvs(): (t: seq<Vec2>)
    ensures |t| == 4
    ensures forall k :: 0 <= k < 4 ==> t[k] == Vec2((k / 2) as real, (k % 2) as real)
  {
    [Vec2(0.0, 0.0), Vec2(0.0, 1.0), Vec2(1.0, 0.0), Vec2(1.0, 1.0)]
  }

  /** `faceChecks`: the offset from a voxel to its neighbour across each face. */
  function FaceChecks(): (f: seq<Vec3>)
    ensures |f| == 6
  {
    [ Vec3(0, 0, -1), Vec3(0, 0, 1), Vec3(0, 1, 0),
      Vec3(0, -1, 0), Vec3(-1, 0, 0), Vec3(1, 0, 0) ]
  }

  /** The face-direction table spelled out. */
  lemma FaceCheckValues()
    ensures FaceChecks()[0] == Vec3(0, 0, -1) && FaceChecks()[1] == Vec3(0, 0, 1)
    ensures FaceChecks()[2] == Vec3(0, 1, 0) && FaceChecks()[3] == Vec3(0, -1, 0)
    ensures FaceChecks()[4] == Vec3(-1, 0, 0) && FaceChecks()[5] == Vec3(1, 0, 0)
  {
  }

  /** The face directions are the six unit axis vectors, all distinct, and
      opposite faces point opposite ways. */
  lemma FaceChecksAreOpposedAxes()
    ensures forall i :: 0 <= i < 6 ==> IsUnitAxis(FaceChecks()[i])
    ensures forall i :: 0 <= i < 6 ==> FaceChecks()[Opposite(i)] == FaceChecks()[i].Neg()
    ensures forall i, j :: 0 <= i < j < 6 ==> FaceChecks()[i] != FaceChecks()[j]
  {
    forall i | 0 <= i < 6
      ensures IsUnitAxis(FaceChecks()[i]) && FaceChecks()[Opposite(i)] == FaceChecks()[i].Neg()
    {
      FaceOpposed(i);
    }
    forall i, j | 0 <= i < j < 6
      ensures FaceChecks()[i] != FaceChecks()[j]
    {
      FaceCheckValues();
      if i == 0 {} else if i == 1 {} else if i == 2 {}
      else if i == 3 {} else {}
    }
  }

  lemma FaceOpposed(i: FaceIndex)
    ensures IsUnitAxis(FaceChecks()[i]) && FaceChecks()[Opposite(i)] == FaceChecks()[i].Neg()
  {
    FaceCheckValues();
    match i
    case 0 => assert Opposite(0) == 1;
    case 1 => assert Opposite(1) == 0;
    case 2 => assert Opposite(2) == 3;
    case 3 => assert Opposite(3) == 2;
    case 4 => assert Opposite(4) == 5;
    case 5 => assert Opposite(5) == 4;
  }

  /** The corner table spelled out, face by face. */
  lemma CornerValues()
    ensures Corner(0, 0) == Vec3(0, 0, 0) && Corner(0, 1) == Vec3(0, 1, 0) && Corner(0, 2) == Vec3(1, 0, 0) && Corner(0, 3) == Vec3(1, 1, 0)
    ensures Corner(1, 0) == Vec3(1, 0, 1) && Corner(1, 1) == Vec3(1, 1, 1) && Corner(1, 2) == Vec3(0, 0, 1) && Corner(1, 3) == Vec3(0, 1, 1)
    ensures Corner(2, 0) == Vec3(0, 1, 0) && Corner(2, 1) == Vec3(0, 1, 1) && Corner(2, 2) == Vec3(1, 1, 0) && Corner(2, 3) == Vec3(1, 1, 1)
    ensures Corner(3, 0) == Vec3(1, 0, 0) && Corner(3, 1) == Vec3(1, 0, 1) && Corner(3, 2) == Vec3(0, 0, 0) && Corner(3, 3) == Vec3(0, 0, 1)
    ensures Corner(4, 0) == Vec3(0, 0, 1) && Corner(4, 1) == Vec3(0, 1, 1) && Corner(4, 2) == Vec3(0, 0, 0) && Corner(4, 3) == Vec3(0, 1, 0)
    ensures Corner(5, 0) == Vec3(1, 0, 0) && Corner(5, 1) == Vec3(1, 1, 0) && Corner(5, 2) == Vec3(1, 0, 1) && Corner(5, 3) == Vec3(1, 1, 1)
  {
  }

  /** Which side of the unit cube the normal n picks: 1 on the positive side of
      its axis, 0 on the negative side. */
  function SideOf(n: Vec3): int { if n.x + n.y + n.z > 0 then 1 else 0 }

  /** The four corners of face i lie on the side of the cube that
      `faceChecks[i]` points to (Back z=0, Front z=1, Top y=1, Bottom y=0,
      Left x=0, Right x=1). */
  lemma FaceCornersOnCheckedSide(i: FaceIndex, k: int)
    requires 0 <= k < 4
    ensures Dot(Corner(i, k), FaceChecks()[i]) == SideOf(FaceChecks()[i])
  {
    CornerValues();
    FaceCheckValues();
    if k == 0 {} else if k == 1 {} else if k == 2 {} else {}
  }

  /** Number of coordinates in which two corners differ. */
  function Differences(a: Vec3, b: Vec3): int
  {
    (if a.x != b.x then 1 else 0) + (if a.y != b.y then 1 else 0) + (if a.z != b.z then 1 else 0)
  }

  /** In every face row, corners 0 and 3 (and 1 and 2) are diagonally opposite
      and the other pairs are edges, so the triangles `0,1,2` and `2,1,3` tile
      the square and share the diagonal 1-2. */
  lemma QuadSplitsAlongDiagonal(i: FaceIndex)
    ensures Differences(Corner(i, 0), Corner(i, 3)) == 2
    ensures Differences(Corner(i, 1), Corner(i, 2)) == 2
    ensures Differences(Corner(i, 0), Corner(i, 1)) == 1
    ensures Differences(Corner(i, 0), Corner(i, 2)) == 1
    ensures Differences(Corner(i, 3), Corner(i, 1)) == 1
    ensures Differences(Corner(i, 3), Corner(i, 2)) == 1
  {
    CornerValues();
    if i == 0 {} else if i == 1 {} else if i == 2 {}
    else if i == 3 {} else if i == 4 {} else {}
  }
}
