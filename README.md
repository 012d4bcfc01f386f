# Cubic voxel core, modelled in Dafny

This project models the core of the Cubic voxel game, a Unity project written
in C#:

- **Voxel geometry tables.** The world constants and the unit-cube corner
  table. Each face's four corners. The texture-coordinate template and the six
  face directions.
- **Block descriptors.** The block descriptor and its `GetTextureID` switch.
  There are two copies: the newer one in `BlockType.cs` and the older one at
  the bottom of `World.cs`.
- **Chunk coordinates.** The integer-pair constructor, the position
  constructor and `Equals`.
- **Chunk.** A `class` with a `array3<byte>` voxel map and three growing
  buffers: vertices, texture coordinates and triangle indices. It also keeps
  the `vertexIndex` counter.
  - `PopulateVoxelMap` fills the map layer by layer.
  - `CalculateMeshData` visits every voxel and calls `AddVoxelToChunk`.
  - `AddVoxelToChunk` culls each face against `CheckVoxel` and appends the
    visible faces, calling `AddTexture` for their texture rectangles.
  - The imperative methods are proved against pure specification functions.
    `MeshOf(fs)` gives the buffers a face sequence produces. `ChunkFaces()`
    gives the faces of the whole chunk in visiting order.
- **World.** A class whose `GenerateWorld` loop creates one chunk per grid
  coordinate, x in the outer loop and z in the inner one, and then yields once.
  The inner loop is its own method, `CreateRow`.
- **Player.** A class holding the selected block, the crouch and run flags,
  the jump request, the ground flag and the vertical momentum.
  - `GetPlayerInputs` updates them from one frame's buttons and scroll wheel.
  - `Jump` consumes the request.
  - `IsJumping` and `IsFalling` read them.

How C# semantics are modelled:

- `byte` is a newtype. Its unchecked wrap-around is written out as `ToByte`.
- C#'s truncating `int` division is written out as `TruncDiv`.
- Vertex positions are integer lattice points.
- Texture coordinates are exact rationals (`real`). For the texture ids of a
  4x4 atlas they are multiples of 1/4, which single-precision floats represent
  exactly.

The code (`ChunkCoords.cs:19-20`) divides with C#'s truncating `/`, so a
position in the first chunk-width left of the origin lands in chunk 0, not -1;
`NegativePositionsShareChunkZero` states this.

## Model

| member | source | states |
|---|---|---|
| Numerics.ToByte | Assets/Scripts/Player.cs:180-184 | the unchecked byte conversion keeps a value already in 0..255 and otherwise differs from its argument by a multiple of 256 |
| Numerics.TruncDiv | Assets/Scripts/ChunkCoords.cs:19-20 | C#'s `int` division by a positive divisor: quotient times divisor lies between 0 and the dividend, so the quotient rounds toward zero |
| Numerics.TruncDivBounds | Assets/Scripts/ChunkCoords.cs:19-20 | C# integer division rounds toward zero: down for a non-negative dividend, up for a negative one |
| Numerics.TruncDivOfNatural | Assets/Scripts/Chunk.cs:128 | for a non-negative dividend C#'s division agrees with floor division |
| Voxel.AtlasSpansUnitSquare | Assets/Scripts/Voxel.cs:10-17 | the normalised tile size is positive and `TextureAtlasSizeInBlocks` tiles of it span exactly the unit square |
| Voxel.Verts | Assets/Scripts/Voxel.cs:19-29 | the eight `voxelVerts` in the source's order; `VertsAreCubeCorners` proves they are the corners of the unit cube |
| Voxel.VertsAreCubeCorners | Assets/Scripts/Voxel.cs:19-29 | the eight `Verts` are distinct and every coordinate is 0 or 1, so they are exactly the corners of the unit cube |
| Voxel.Tris | Assets/Scripts/Voxel.cs:31-42 | six rows of four entries; every entry indexes `Verts` (0..7) and each row names four distinct corners |
| Voxel.Uvs | Assets/Scripts/Voxel.cs:44-50 | four corners; corner k is at u = k div 2, v = k mod 2 |
| Voxel.Opposite | Assets/Scripts/Voxel.cs:52-60 | faces come in pairs 2k, 2k+1, and the opposite of a face is the other member of its pair |
| Voxel.FaceChecks | Assets/Scripts/Voxel.cs:52-60 | the six neighbour offsets in face order back, front, top, bottom, left, right; `FaceChecksAreOpposedAxes` proves them unit axes, opposite in pairs |
| Voxel.FaceChecksAreOpposedAxes | Assets/Scripts/Voxel.cs:52-60 | the face offsets are unit axis vectors, pairwise distinct, and opposite faces have opposite offsets |
| Voxel.FaceCornersOnCheckedSide | Assets/Scripts/Voxel.cs:31-42 | every corner of face i lies on the side of the cube its face offset points to: Back z=0, Front z=1, Top y=1, Bottom y=0, Left x=0, Right x=1 |
| Voxel.QuadSplitsAlongDiagonal | Assets/Scripts/Voxel.cs:33-42 | in every face row, entries 0 and 3 (and 1 and 2) are diagonally opposite and the other pairs share an edge, so triangles 0,1,2 and 2,1,3 tile the square along the 1-2 diagonal |
| BlockTypes.BlockType.GetTextureID | Assets/Scripts/BlockType.cs:28-62 | face indices 0..5 give the back, front, top, bottom, left and right texture fields; every other byte gives the sentinel 9 |
| BlockTypes.TextureIDIgnoresOtherFields | Assets/Scripts/BlockType.cs:28-62 | the answer depends only on the six texture fields, not on the name, solidity, transparency or icon |
| WorldBlockTypes.BlockType.GetTextureID | Assets/Scripts/World.cs:55-89 | the older copy: faces 0..5 give back, front, top, bottom, left, right; anything else gives 9 |
| WorldBlockTypes.CopiesAgree | Assets/Scripts/World.cs:39-89 | the older and the newer copies of `GetTextureID` answer alike on descriptors with the same texture ids |
| ChunkCoordinates.FromXZ | Assets/Scripts/ChunkCoords.cs:8-12 | the pair constructor stores exactly x and z; both default to 0 |
| ChunkCoordinates.FromPosition | Assets/Scripts/ChunkCoords.cs:14-21 | for a non-negative floored coordinate the chunk index k has `k*ChunkWidth <= floor < (k+1)*ChunkWidth`; a floored coordinate in (-ChunkWidth, 0) gives 0 |
| ChunkCoordinates.HeightIsIrrelevant | Assets/Scripts/ChunkCoords.cs:14-21 | the vertical coordinate never changes the chunk |
| ChunkCoordinates.NegativePositionsShareChunkZero | Assets/Scripts/ChunkCoords.cs:19-20 | because division truncates, positions just left of the origin fall in chunk 0 together with those just right of it |
| ChunkCoordinates.CornerMapsBack | Assets/Scripts/ChunkCoords.cs:14-21 | the corner `c * ChunkWidth` of any chunk c, negative ones included, converts back to c |
| ChunkCoordinates.PointsOfChunkMapBack | Assets/Scripts/ChunkCoords.cs:16-20 | every position inside a chunk with non-negative coordinates converts to that chunk |
| ChunkCoordinates.Equals | Assets/Scripts/ChunkCoords.cs:23-37 | false against null; otherwise true exactly when both components match |
| ChunkCoordinates.EqualsIsEquivalence | Assets/Scripts/ChunkCoords.cs:23-37 | on non-null values `Equals` is reflexive, symmetric and transitive |
| ChunkMesh.QuadVertices | Assets/Scripts/Chunk.cs:107-110 | the four vertices of a face, the voxel position plus the face's `Tris` corners; `QuadVerticesOnFacePlane` proves they lie on the face's side of the voxel |
| ChunkMesh.QuadVerticesOnFacePlane | Assets/Scripts/Chunk.cs:107-110 | the four vertices appended for face i of a voxel lie on that voxel's side towards its face offset |
| ChunkMesh.QuadTriangles | Assets/Scripts/Chunk.cs:114-119 | six indices per face, triangles 0,1,2 and 2,1,3 over the four vertices numbered from the counter |
| ChunkMesh.QuadTrianglesInBounds | Assets/Scripts/Chunk.cs:114-119 | the six indices of a face refer only to the four vertices it has just added |
| ChunkMesh.AtlasRow | Assets/Scripts/Chunk.cs:128 | the atlas row `id / 4` with C#'s division: for a non-negative id it is non-negative and row times 4 does not exceed the id |
| ChunkMesh.AtlasColumn | Assets/Scripts/Chunk.cs:129 | the atlas column `id - row * 4`: for a non-negative id it lies in 0..3 |
| ChunkMesh.AtlasTile | Assets/Scripts/Chunk.cs:128-129 | for a texture id >= 0 the column lies in 0..3, the row is >= 0, and row and column spell the id back in row-major order; an id below 16 has a row below 4 |
| ChunkMesh.AtlasTileInjective | Assets/Scripts/Chunk.cs:128-129 | distinct ids of the 4x4 atlas name distinct tiles |
| ChunkMesh.QuadUvs | Assets/Scripts/Chunk.cs:126-140 | four texture coordinates per face, the corners of the id's atlas tile in template order |
| ChunkMesh.QuadUvsFollowTemplate | Assets/Scripts/Chunk.cs:131-139 | the k-th texture coordinate is the k-th corner of the `UVs` template scaled into the id's atlas tile, so it is emitted in the template's order |
| ChunkMesh.QuadUvsInUnitSquare | Assets/Scripts/Chunk.cs:126-140 | for texture ids below 16 every coordinate lies in [0, 1] |
| ChunkMesh.QuadUvsInjective | Assets/Scripts/Chunk.cs:126-140 | distinct ids of the atlas get distinct texture rectangles |
| ChunkMesh.MeshOf | Assets/Scripts/Chunk.cs:107-121 | n faces give 4n vertices, 4n texture coordinates and 6n indices, and `vertexIndex` counts the vertices |
| ChunkMesh.FaceAppended | Assets/Scripts/Chunk.cs:107-121 | emitting one more face appends its quad, its rectangle and two triangles over the next four vertex numbers, and advances the counter by 4 |
| ChunkMesh.FaceSlices | Assets/Scripts/Chunk.cs:107-121 | face j of a sequence owns vertices and texture coordinates 4j..4j+3 and indices 6j..6j+5, which hold its quad, its rectangle and triangles over base 4j |
| ChunkMesh.TriangleIndicesInBounds | Assets/Scripts/Chunk.cs:114-121 | every triangle index names a vertex in the buffer |
| ChunkMesh.MeshGrows | Assets/Scripts/Chunk.cs:107-121 | buffers holding the mesh of `fs` hold the mesh of `fs + [f]` after one face's appends |
| Chunks.LayerBlock | Assets/Scripts/Chunk.cs:54-65 | the id a layer receives is one of 1, 2, 3 |
| Chunks.Chunk.constructor | Assets/Scripts/Chunk.cs:25-44 | stores the coordinates, places the chunk at `(X*ChunkWidth, 0, Z*ChunkWidth)`, and leaves it `Built`: the map populated and the buffers holding exactly the mesh of the chunk's faces |
| Chunks.Chunk.TablesAgree | Assets/Scripts/Chunk.cs:71-83 | any two tables that give every voxel its faces give the same faces before every point of the three loops |
| Chunks.Chunk.BuiltMesh | Assets/Scripts/Chunk.cs:25-44 | the buffers of a built chunk hold exactly the mesh of `ChunkFaces()`, the faces of all its voxels in visiting order |
| Chunks.Chunk.CheckVoxel | Assets/Scripts/Chunk.cs:85-97 | a position outside the 5 x 10 x 5 box is never solid; inside, the catalog entry of the stored id decides |
| Chunks.Chunk.PopulateVoxelMap | Assets/Scripts/Chunk.cs:46-69 | every cell of layer 0 holds 1, of the top layer 3, of every other layer 2 |
| Chunks.Chunk.PopulatedIsValid | Assets/Scripts/Chunk.cs:46-69 | a populated map holds only ids that a catalog of four entries names |
| Chunks.Chunk.CalculateMeshData | Assets/Scripts/Chunk.cs:71-83 | visiting every voxel layer by layer, row by row, appends to the buffers exactly the faces of every voxel in that order |
| Chunks.Chunk.AddVoxelToChunk | Assets/Scripts/Chunk.cs:99-124 | appends to the buffers the mesh of exactly this voxel's faces whose neighbour is not solid, in face order |
| Chunks.Chunk.VoxelFacesStep | Assets/Scripts/Chunk.cs:101-104 | checking one more face adds that face exactly when its neighbour is not solid |
| Chunks.Chunk.AddFace | Assets/Scripts/Chunk.cs:105-121 | one visible face appends its four corners, its block type's texture rectangle and two triangles over the next four vertex numbers, and advances `vertexIndex` by 4 |
| Chunks.Chunk.AddTexture | Assets/Scripts/Chunk.cs:126-140 | appends exactly the four corners of the id's atlas rectangle and changes no other buffer |
| ChunkProperties.VoxelFacesMembers | Assets/Scripts/Chunk.cs:101-104 | a voxel emits, among its faces 0..n-1, exactly those whose neighbour is not solid, with its block's texture |
| ChunkProperties.FacesBeforeMembers | Assets/Scripts/Chunk.cs:73-83 | at any point of the three loops the faces emitted so far are exactly the visible faces of the voxels already visited |
| ChunkProperties.ChunkFacesMembers | Assets/Scripts/Chunk.cs:71-83 | the chunk's mesh faces are exactly the visible faces of all its voxels |
| ChunkProperties.FaceEmittedIff | Assets/Scripts/Chunk.cs:101-104 | face i of a voxel is in the mesh if and only if the neighbour across it is not solid; the voxel's own block is not consulted |
| ChunkProperties.ChunkFaceFacesNoSolid | Assets/Scripts/Chunk.cs:103 | no face of the mesh looks onto a solid neighbour |
| ChunkProperties.SharedFaceCulled | Assets/Scripts/Chunk.cs:91-103 | between two solid neighbours of the chunk neither facing face is emitted, whatever its texture |
| ChunkProperties.NeighbourOfNeighbour | Assets/Scripts/Voxel.cs:52-60 | stepping across a face and back across the opposite face returns to the start |
| ChunkProperties.BoundaryFaceEmitted | Assets/Scripts/Chunk.cs:91-94 | a face whose neighbour lies outside the chunk's box is always emitted |
| ChunkProperties.BuffersInLockStep | Assets/Scripts/Chunk.cs:107-121 | after building, vertex and texture counts equal `vertexIndex`, which is a multiple of 4; twice the index count is three times the vertex count; every index names a vertex |
| ChunkProperties.VoxelFacesDistinct | Assets/Scripts/Chunk.cs:99-104 | a voxel emits each of its faces at most once |
| ChunkProperties.FacesBeforeDistinct | Assets/Scripts/Chunk.cs:71-83 | at any point of the three loops no face has been emitted twice |
| ChunkProperties.ChunkFacesDistinct | Assets/Scripts/Chunk.cs:71-83 | the chunk's mesh holds no face twice |
| ChunkProperties.EmittedFaceDrawn | Assets/Scripts/Chunk.cs:99-124 | every visible face of the built chunk stands at exactly one place j of the emitted faces, and quad j of the buffers draws it |
| ChunkProperties.QuadDrawsEmittedFace | Assets/Scripts/Chunk.cs:99-124 | every quad of the built buffers draws a visible face |
| ChunkProperties.CheckVoxelAfterPopulate | Assets/Scripts/Chunk.cs:85-97 | after populating, a position is solid exactly when it is inside the box and its layer's catalog entry is solid |
| ChunkProperties.OriginMapsBack | Assets/Scripts/Chunk.cs:38 | the chunk's world position converts back to the chunk's own coordinates |
| Worlds.GridOrder | Assets/Scripts/World.cs:27-33 | the nested loops visit `WorldSizeInChunks`² coordinates |
| Worlds.GridAt | Assets/Scripts/World.cs:27-31 | the loops' iteration for (x, z) is position `x * WorldSizeInChunks + z` of the visiting order |
| Worlds.GridCoversWorld | Assets/Scripts/World.cs:27-33 | a coordinate is visited if and only if both its components lie in `0..WorldSizeInChunks-1` |
| Worlds.GridIsXMajor | Assets/Scripts/World.cs:27-32 | x grows from row to row and z along a row, so no coordinate is visited twice |
| Worlds.TraceOf | Assets/Scripts/World.cs:27-33 | a sequence with one `Created` step per coordinate, in order, is the loops' step sequence |
| Worlds.StepsAt | Assets/Scripts/World.cs:27-33 | step k of the loops creates the k-th coordinate |
| Worlds.TraceYieldsOnceAtEnd | Assets/Scripts/World.cs:35 | the coroutine yields exactly once, after all chunks have been created, and step k before it creates the k-th coordinate |
| Worlds.World.CreateChunk | Assets/Scripts/World.cs:31 | a new chunk at the given coordinates, reading this world's catalog, with its map populated and its buffers holding the mesh of its faces |
| Worlds.World.CreateRow | Assets/Scripts/World.cs:29-32 | the inner loop for row x: one fresh chunk per z in order, at (x, z), reading the world's catalog, populated and holding the mesh of its faces, with a `Created` step recorded for each |
| Worlds.World.GenerateWorld | Assets/Scripts/World.cs:25-36 | creates one fresh chunk per grid coordinate in x-major order, each reading the world's catalog, populated and holding the mesh of its faces; the steps recorded as the loops run are exactly the creations in grid order followed by one yield |
| Players.ScrollTarget | Assets/Scripts/Player.cs:175-194 | for a catalog of 2..256 entries the id after a scroll lies in `1..length-1` |
| Players.ScrollMovesOneStep | Assets/Scripts/Player.cs:178-185 | inside the catalog, scrolling up adds one and scrolling down subtracts one |
| Players.ScrollWrapsAround | Assets/Scripts/Player.cs:180-194 | for up to 255 entries, up from the last entry gives 1, down from 1 gives the last entry, and down from the initial 0 gives 1 |
| Players.ScrollRoundTrip | Assets/Scripts/Player.cs:175-194 | one scroll up followed by one down, or down then up, returns to the starting entry |
| Players.FullCatalogScroll | Assets/Scripts/Player.cs:180-194 | with 256 entries the byte wraps before the range check sees it: up from 255 stays on 255 and down from 0 gives 255 |
| Players.StanceAfter | Assets/Scripts/Player.cs:141-166 | closed form of the crouch and run flags after a frame: crouching iff no run press, no crouch release, and crouch pressed or already crouching; running iff no run release, and run pressed or running without a crouch press |
| Players.StanceStaysExclusive | Assets/Scripts/Player.cs:141-166 | if crouching and running do not hold together before a frame, they do not after it |
| Players.PressSettlesStance | Assets/Scripts/Player.cs:141-160 | a crouch or run press leaves at most one of the flags set, whatever they were |
| Players.Player.constructor | Assets/Scripts/Player.cs:16-66 | a new player has block id 0 and no block name (null), is neither crouching, running, requesting a jump nor grounded, and has no vertical momentum |
| Players.Player.IsJumping | Assets/Scripts/Player.cs:57 | jumping means positive vertical momentum while not grounded |
| Players.Player.IsFalling | Assets/Scripts/Player.cs:58 | falling means not grounded, and never together with jumping |
| Players.Player.Start | Assets/Scripts/Player.cs:84 | shows the name of the selected block; fails if the id is past the end of the catalog; changes nothing else |
| Players.Player.GetPlayerInputs | Assets/Scripts/Player.cs:141-200 | flags follow `StanceAfter`; the jump request is raised only when grounded and jump is pressed; a scroll moves the id by `ScrollTarget` and shows the new block's name; no scroll leaves the selection alone |
| Players.Player.StanceButtons | Assets/Scripts/Player.cs:141-166 | the crouch and run flags become `StanceAfter` of the old ones; nothing else changes |
| Players.Player.ScrollSelection | Assets/Scripts/Player.cs:175-196 | the id becomes `ScrollTarget` of the old one and the name that entry's name, or the lookup fails and the name is kept |
| Players.Player.Jump | Assets/Scripts/Player.cs:253-258 | the momentum becomes the jump force, the player leaves the ground and the request is consumed; with a positive force the player is then jumping and not falling |
| Players.Player.NeverJumpingAndFalling | Assets/Scripts/Player.cs:57-58 | `IsJumping` and `IsFalling` never hold together |

## Left out

- Rendering: `CreateMesh`, and the game object, mesh filter, renderer and material setup in the `Chunk` constructor, are engine calls. The model stops at the filled buffers.
- Chunks.Chunk.constructor: the origin `coords.X * ChunkWidth` is an unbounded integer; the source computes a 32-bit `int` product and stores it in a float `Vector3`. The two agree for every chunk of the 4 x 4 grid.
- `Mathf.FloorToInt` in `CheckVoxel`, and the float `Vector3` positions of the mesh builder, are not modelled. Every position that reaches them is an integer lattice point, so positions are integers.
- Texture coordinates are exact rationals rather than single-precision floats. This is exact for texture ids below 16.
- ChunkCoordinates.FromPosition: floors an unbounded real. `Mathf.FloorToInt` works on a single-precision float and has no defined result outside the 32-bit `int` range; the model does not represent either limit.
- Chunks.Chunk.constructor: requires a catalog of at least four entries. The map holds ids 1..3. With a shorter catalog the source's `CheckVoxel` throws an index exception, which the model does not represent.
- Worlds.World.GenerateWorld: requires the same four-entry catalog, for the same reason.
- The `World` and `Chunk` back-reference is replaced by the catalog the chunk reads through it, `GetBlockType`. The world's material and transform are not modelled.
- `World.Start`, its timing and `Debug.Log` are left out. So is coroutine scheduling, which the model reduces to a trace of created chunks and one yield.
- `Debug.LogError` in both `GetTextureID` copies is not modelled; only the returned sentinel is.
- The triangle winding is given as the index order 0,1,2 / 2,1,3, and the diagonal it splits along is proved. That this winding faces outwards is not proved.
- The older `ChunkCoords` class at `Chunk.cs:160-170` has the same two fields and an `(x, z)` constructor without defaults. Both classes are modelled by the one `ChunkCoords` datatype and `FromXZ`.
- The player reads the catalog through `World.Instance.GetBlockTypes`. That member is not part of this model's `World`, so the catalog is passed as a parameter.
- The player's input devices are left out. The button edges and the scroll axis of one frame are an `Inputs` value. The mouse and movement axes are not read.
- Players.Player.GetPlayerInputs: an out-of-range catalog lookup throws in the source and abandons the rest of the frame. The model returns `ok` false and keeps the old name.
- Players.Player.GetPlayerInputs: the block editing on mouse clicks (`EditVoxel`, `GetChunkFromVector3`) is not modelled. It calls world members that are not part of this model.
- Players.Player.Start: only the block-name lookup is modelled. The camera and cursor setup and the highlight object are engine state.
- `EventsManager` notifications, the debug screen and the toolbar are UI plumbing, and are left out.
- Player physics is left out: `CalculateVelocity`, `CheckDownSpeed` and `CheckUpSpeed`, the front, back, left and right probes, and `UpdateCursorBlock`. These are float kinematics over `World` members that are not part of this model. As a result `isGrounded` is only ever cleared here; `CheckDownSpeed` is what sets it.
- The physics step `FixedUpdate` is left out. It calls `Jump` when a request is pending, calls `Crouch` or `StandUp` to move the camera, and moves the transform. `Jump` itself is modelled; the rest is engine state and float kinematics. Only the crouch and run flags are modelled, not their camera moves.
- `Noise.cs` and `BiomeProperties.cs` are left out: no modelled code uses them.
