/** Chunk coordinates (ChunkCoords.cs): a chunk's column in the world grid,
    built from an integer pair or from a world position. */
module ChunkCoordinates {
  import opened Numerics
  import opened Voxel

  datatype ChunkCoords = ChunkCoords(x: int, z: int)

  /** A world position (`Vector3`); only its floor is ever used. */
  datatype Position = Position(x: real, y: real, z: real)

  /** The `(x, z)` constructor; both arguments default to 0. */
  function FromXZ(x: int := 0, z: int := 0): (c: ChunkCoords)
    ensures c.x == x && c.z == z
  {
    ChunkCoords(x, z)
  }

  /** The `Vector3` constructor: floor each horizontal coordinate, then
      divide by the chunk width with C#'s truncating division. */
  function FromPosition(p: Position): (c: ChunkCoords)
    ensures p.x.Floor >= 0 ==> c.x * ChunkWidth <= p.x.Floor < (c.x + 1) * ChunkWidth
    ensures p.z.Floor >= 0 ==> c.z * ChunkWidth <= p.z.Floor < (c.z + 1) * ChunkWidth
    ensures -(ChunkWidth as int) < p.x.Floor < 0 ==> c.x == 0
    ensures -(ChunkWidth as int) < p.z.Floor < 0 ==> c.z == 0
  {
    TruncDivBounds(p.x.Floor, ChunkWidth);
    TruncDivBounds(p.z.Floor, ChunkWidth);
    ChunkCoords(TruncDiv(p.x.Floor, ChunkWidth), TruncDiv(p.z.Floor, ChunkWidth))
  }

  /** The vertical coordinate never affects the chunk. */
  lemma HeightIsIrrelevant(p: Position, y: real)
    ensures FromPosition(p.(y := y)) == FromPosition(p)
  {
  }

  /** Truncation, not flooring: a negative position in the first chunk-width
      left of the origin lands in chunk 0, the same chunk as the first
      chunk-width right of it. */
  lemma NegativePositionsShareChunkZero(p: Position, q: Position)
    requires -(ChunkWidth as int) < p.x.Floor < 0 && 0 <= q.x.Floor < ChunkWidth
    ensures FromPosition(p).x == FromPosition(q).x == 0
  {
  }

  /** The corner of chunk c (`c * ChunkWidth` on both axes) maps back to c. */
  lemma CornerMapsBack(c: ChunkCoords, y: real)
    ensures FromPosition(Position((c.x * ChunkWidth) as real, y, (c.z * ChunkWidth) as real)) == c
  {
    var p := Position((c.x * ChunkWidth) as real, y, (c.z * ChunkWidth) as real);
    assert p.x.Floor == c.x * ChunkWidth;
    assert p.z.Floor == c.z * ChunkWidth;
    ExactMultiple(c.x);
    ExactMultiple(c.z);
  }

  lemma ExactMultiple(k: int)
    ensures TruncDiv(k * ChunkWidth, ChunkWidth) == k
  {
    if k < 0 {
      assert (-(k * ChunkWidth)) == (-k) * ChunkWidth;
    }
  }

  /** Every point of a chunk with non-negative coordinates maps back to it. */
  lemma PointsOfChunkMapBack(c: ChunkCoords, p: Position)
    requires c.x >= 0 && c.z >= 0
    requires c.x * ChunkWidth <= p.x.Floor < (c.x + 1) * ChunkWidth
    requires c.z * ChunkWidth <= p.z.Floor < (c.z + 1) * ChunkWidth
    ensures FromPosition(p) == c
  {
    var r := FromPosition(p);
    UniqueQuotient(r.x, c.x, p.x.Floor);
    UniqueQuotient(r.z, c.z, p.z.Floor);
  }

  lemma UniqueQuotient(q: int, k: int, n: int)
    requires q * ChunkWidth <= n < (q + 1) * ChunkWidth
    requires k * ChunkWidth <= n < (k + 1) * ChunkWidth
    ensures q == k
  {
  }

  /** `Equals`: false against null, otherwise both components match. */
  function Equals(c: ChunkCoords, other: Option<ChunkCoords>): (b: bool)
    ensures other.None? ==> !b
    ensures other.Some? ==> (b <==> other.value == c)
  {
    match other
    case None => false
    case Some(o) => o.x == c.x && o.z == c.z
  }

  /** On non-null values `Equals` is an equivalence relation. */
  lemma EqualsIsEquivalence(a: ChunkCoords, b: ChunkCoords, c: ChunkCoords)
    ensures Equals(a, Some(a))
    ensures Equals(a, Some(b)) == Equals(b, Some(a))
    ensures Equals(a, Some(b)) && Equals(b, Some(c)) ==> Equals(a, Some(c))
  {
  }
}
