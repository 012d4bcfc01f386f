/** The world (World.cs): it owns the block catalog and, when it starts,
    fills the `WorldSizeInChunks x WorldSizeInChunks` grid with one chunk
    per coordinate, x in the outer loop and z in the inner one, and then
    yields once. */
module Worlds {
  import opened Voxel
  import opened ChunkCoordinates
  import opened Chunks

  /** What the `GenerateWorld` coroutine does, in order: each chunk it
      constructs, and the one `yield return null` at the end. */
  datatype GenerationStep = Created(coords: ChunkCoords) | Yielded

  /** The coordinates of the world grid in the order the generator visits
      them: position k holds `(k / WorldSizeInChunks, k % WorldSizeInChunks)`. */
  function GridOrder(): (g: seq<ChunkCoords>)
    ensures |g| == WorldSizeInChunks * WorldSizeInChunks
  {
    seq(WorldSizeInChunks * WorldSizeInChunks, k requires 0 <= k => FromXZ(k / WorldSizeInChunks, k % WorldSizeInChunks))
  }

  /** One `Created` step per chunk of `cs`, in order. */
  function Steps(cs: seq<ChunkCoords>): (t: seq<GenerationStep>)
    ensures |t| == |cs|
  {
    if cs == [] then [] else Steps(cs[..|cs| - 1]) + [Created(cs[|cs| - 1])]
  }

  /** The coroutine's trace when it creates the chunks `cs`: one step per
      chunk, then the single yield. */
  function Trace(cs: seq<ChunkCoords>): (t: seq<GenerationStep>)
    ensures |t| == |cs| + 1
  {
    Steps(cs) + [Yielded]
  }

  /** A sequence holding one `Created` step per chunk of `cs`, in order,
      is `Steps(cs)`. */
  lemma {:induction false} TraceOf(t: seq<GenerationStep>, cs: seq<ChunkCoords>)
    requires |t| == |cs| && forall k :: 0 <= k < |t| ==> t[k] == Created(cs[k])
    ensures t == Steps(cs)
  {
    if cs != [] {
      TraceOf(t[..|t| - 1], cs[..|cs| - 1]);
      assert t == t[..|t| - 1] + [t[|t| - 1]];
    }
  }

  /** Step k of `Steps(cs)` creates chunk k of `cs`. */
  lemma {:induction false} StepsAt(cs: seq<ChunkCoords>, k: int)
    requires 0 <= k < |cs|
    ensures Steps(cs)[k] == Created(cs[k])
  {
    if k < |cs| - 1 {
      StepsAt(cs[..|cs| - 1], k);
    }
  }

  /** Grid position k holds the pair the nested loops reach at their
      iteration k. */
  lemma GridAt(x: int, z: int)
    requires 0 <= x < WorldSizeInChunks && 0 <= z < WorldSizeInChunks
    ensures 0 <= x * WorldSizeInChunks + z < |GridOrder()|
    ensures GridOrder()[x * WorldSizeInChunks + z] == ChunkCoords(x, z)
  {
    var k := x * WorldSizeInChunks + z;
    assert k / WorldSizeInChunks == x && k % WorldSizeInChunks == z;
  }

  /** Every chunk of the grid is generated, and nothing outside it. */
  lemma GridCoversWorld(c: ChunkCoords)
    ensures c in GridOrder() <==> 0 <= c.x < WorldSizeInChunks && 0 <= c.z < WorldSizeInChunks
  {
    if 0 <= c.x < WorldSizeInChunks && 0 <= c.z < WorldSizeInChunks {
      GridAt(c.x, c.z);
    }
  }

  /** The generator visits the grid in x-major order: x grows from one row
      of the grid to the next, z along a row; in particular no coordinate
      is generated twice. */
  lemma GridIsXMajor(i: int, j: int)
    requires 0 <= i < j < |GridOrder()|
    ensures GridOrder()[i].x < GridOrder()[j].x
            || (GridOrder()[i].x == GridOrder()[j].x && GridOrder()[i].z < GridOrder()[j].z)
    ensures GridOrder()[i] != GridOrder()[j]
  {
    var w := WorldSizeInChunks;
    assert i == (i / w) * w + i % w;
    assert j == (j / w) * w + j % w;
    if i / w == j / w {
      assert i % w < j % w;
    } else {
      assert i / w < j / w;
    }
  }

  /** The coroutine yields exactly once, after every chunk, and step k
      before the yield creates chunk k. */
  lemma TraceYieldsOnceAtEnd(cs: seq<ChunkCoords>, k: int)
    requires 0 <= k < |Trace(cs)|
    ensures Trace(cs)[k] == Yielded <==> k == |cs|
    ensures k < |cs| ==> Trace(cs)[k] == Created(cs[k])
  {
    if k < |cs| {
      StepsAt(cs, k);
    }
  }

  class World {
    /** The catalog (`GetBlockType`) every chunk reads its blocks from. */
    const blockTypes: Catalog

    constructor(blockTypes: Catalog)
      ensures this.blockTypes == blockTypes
    {
      this.blockTypes := blockTypes;
    }

    /** The loop body of `GenerateWorld`: a new chunk at `coords`, built by
        its constructor from this world's catalog, with its map populated and
        its buffers holding the mesh of its faces. */
    method CreateChunk(coords: ChunkCoords) returns (chunk: Chunk)
      requires |blockTypes| >= 4
      ensures fresh(chunk) && chunk.coords == coords && chunk.blockTypes == blockTypes
      ensures chunk.Built()
    {
      chunk := new Chunk(coords, blockTypes);
    }

    /** One pass of the inner loop of `GenerateWorld`: the chunks of row x
        of the grid, in order of z, each new, reading this world's catalog,
        and built, and the step the coroutine takes for each. */
    method CreateRow(x: int) returns (steps: seq<GenerationStep>, row: seq<Chunk>)
      requires |blockTypes| >= 4
      ensures |row| == |steps| == WorldSizeInChunks
      ensures forall z :: 0 <= z < |steps| ==> steps[z] == Created(ChunkCoords(x, z))
      ensures forall z :: 0 <= z < |row| ==> row[z].coords == ChunkCoords(x, z) && row[z].blockTypes == blockTypes
      ensures forall z :: 0 <= z < |row| ==> fresh(row[z])
      ensures forall c | c in row :: c.Built()
    {
      steps, row := [], [];
      for z := 0 to WorldSizeInChunks
        invariant |row| == |steps| == z
        invariant forall k :: 0 <= k < |steps| ==> steps[k] == Created(ChunkCoords(x, k))
        invariant forall k :: 0 <= k < |row| ==> row[k].coords == ChunkCoords(x, k) && row[k].blockTypes == blockTypes
        invariant forall k :: 0 <= k < |row| ==> fresh(row[k])
        invariant forall c | c in row :: c.Built()
      {
        var chunk := CreateChunk(FromXZ(x, z));
        row := row + [chunk];
        steps := steps + [Created(FromXZ(x, z))];
      }
    }

    /** `GenerateWorld`: construct a chunk at every grid coordinate, x in
        the outer loop, z in the inner one, then yield. Returns the steps
        the coroutine takes and the chunks, in creation order; each chunk is
        new, reads this world's catalog, and is populated and meshed. */
    method GenerateWorld() returns (trace: seq<GenerationStep>, chunks: seq<Chunk>)
      requires |blockTypes| >= 4
      ensures trace == Trace(GridOrder())
      ensures |chunks| == |GridOrder()|
      ensures forall k :: 0 <= k < |chunks| ==> chunks[k].coords == GridOrder()[k] && chunks[k].blockTypes == blockTypes
      ensures forall k :: 0 <= k < |chunks| ==> fresh(chunks[k])
      ensures forall k :: 0 <= k < |chunks| ==> chunks[k].Built()
    {
      chunks, trace := [], [];
      for x := 0 to WorldSizeInChunks
        invariant |chunks| == |trace| == x * WorldSizeInChunks
        invariant forall k :: 0 <= k < |trace| ==> trace[k] == Created(GridOrder()[k])
        invariant forall k :: 0 <= k < |chunks| ==> chunks[k].coords == GridOrder()[k] && chunks[k].blockTypes == blockTypes
        invariant forall k :: 0 <= k < |chunks| ==> fresh(chunks[k])
        invariant forall c | c in chunks :: c.Built()
      {
        var steps, row := CreateRow(x);
        forall z | 0 <= z < WorldSizeInChunks
          ensures GridOrder()[x * WorldSizeInChunks + z] == ChunkCoords(x, z)
        {
          GridAt(x, z);
        }
        forall k | 0 <= k < |trace + steps|
          ensures (trace + steps)[k] == Created(GridOrder()[k])
        {
          if k >= |trace| {
            assert (trace + steps)[k] == steps[k - |trace|];
          }
        }
        chunks, trace := chunks + row, trace + steps;
      }
      TraceOf(trace, GridOrder());
      trace := trace + [Yielded];
    }
  }
}
