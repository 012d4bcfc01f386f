/** The older block descriptor declared at the bottom of World.cs: a name, a
    solidity flag and six face texture ids, without transparency or icon.
    The chunk mesh builder reads this one through the world's catalog. */
module WorldBlockTypes {
  import opened Numerics
  import BlockTypes

  datatype BlockType = BlockType(
    blockName: string,
    isSolid: bool,
    backFaceTextureID: byte,
    frontFaceTextureID: byte,
    topFaceTextureID: byte,
    bottomFaceTextureID: byte,
    leftFaceTextureID: byte,
    rightFaceTextureID: byte)
  {
    /** The six texture fields in the documented face order
        Back, Front, Top, Bottom, Left, Right. */
    function FaceTextures(): (t: seq<byte>)
      ensures |t| == 6
    {
      [backFaceTextureID, frontFaceTextureID, topFaceTextureID,
       bottomFaceTextureID, leftFaceTextureID, rightFaceTextureID]
    }

    /** `GetTextureID`, same switch as the newer descriptor's. */
    function GetTextureID(faceIndex: byte): (id: byte)
      ensures faceIndex < 6 ==> id == FaceTextures()[faceIndex]
      ensures faceIndex >= 6 ==> id == 9
    {
      match faceIndex
      case 0 => backFaceTextureID
      case 1 => frontFaceTextureID
      case 2 => topFaceTextureID
      case 3 => bottomFaceTextureID
      case 4 => leftFaceTextureID
      case 5 => rightFaceTextureID
      case _ => 9
    }
  }

  /** The two copies of `GetTextureID` agree on descriptors carrying the same
      texture ids. */
  lemma CopiesAgree(w: BlockType, b: BlockTypes.BlockType, faceIndex: byte)
    requires w.FaceTextures() == b.FaceTextures()
    ensures w.GetTextureID(faceIndex) == b.GetTextureID(faceIndex)
  {
    if faceIndex < 6 {
      assert w.GetTextureID(faceIndex) == w.FaceTextures()[faceIndex];
    }
  }
}
