/** The block descriptor of BlockType.cs: a name, two flags, an icon and the
    atlas texture id of each of the six faces. */
module BlockTypes {
  import opened Numerics

  /** An editor asset reference; only its identity matters here. */
  datatype Sprite = Sprite(asset: nat)

  datatype BlockType = BlockType(
    blockName: string,
    isSolid: bool,
    isTransparent: bool,
    icon: Sprite,
    backFaceTextureID: byte,
    frontFaceTextureID: byte,
    topFaceTextureID: byte,
    bottomFaceTextureID: byte,
    leftFaceTextureID: byte,
    rightFaceTextureID: byte)
  {
    /** The six texture fields in the documented face order
        Back, Front, Top, Bottom, Left, Right. */
    function FaceTextures(): (t: seq<byte>)
      ensures |t| == 6
    {
      [backFaceTextureID, frontFaceTextureID, topFaceTextureID,
       bottomFaceTextureID, leftFaceTextureID, rightFaceTextureID]
    }

    /** `GetTextureID`: the texture of face `faceIndex`; any index past the
        last face yields the sentinel 9 (after an error log, not modelled). */
    function GetTextureID(faceIndex: byte): (id: byte)
      ensures faceIndex < 6 ==> id == FaceTextures()[faceIndex]
      ensures faceIndex >= 6 ==> id == 9
    {
      match faceIndex
      case 0 => backFaceTextureID
      case 1 => frontFaceTextureID
      case 2 => topFaceTextureID
      case 3 => bottomFaceTextureID
      case 4 => leftFaceTextureID
      case 5 => rightFaceTextureID
      case _ => 9
    }
  }

  /** Two descriptors with the same six texture ids answer every face query
      alike, whatever their name, solidity, transparency and icon. */
  lemma TextureIDIgnoresOtherFields(a: BlockType, b: BlockType, faceIndex: byte)
    requires a.FaceTextures() == b.FaceTextures()
    ensures a.GetTextureID(faceIndex) == b.GetTextureID(faceIndex)
  {
    if faceIndex < 6 {
      assert a.GetTextureID(faceIndex) == a.FaceTextures()[faceIndex];
    }
  }
}
