/** The player's input state (Player.cs): the selected block id, cycled by
    the scroll wheel through the catalog with byte wrap-around; the crouch
    and run flags, of which at most one stays set; the jump request, taken
    only on the ground and consumed by `Jump`; and the jumping and falling
    predicates over the vertical momentum. */
module Players {
  import opened Numerics
  import opened BlockTypes

  /** The block catalog the player reads (`GetBlockTypes`). */
  type Catalog = seq<BlockType>

  /** The inputs `GetPlayerInputs` reads in one frame: the crouch and run
      buttons going down or up, the jump button going down, and the scroll
      wheel axis (positive up, negative down, zero for no scroll). */
  datatype Inputs = Inputs(
    crouchPressed: bool,
    crouchReleased: bool,
    runPressed: bool,
    runReleased: bool,
    jumpPressed: bool,
    scroll: real)

  /** The selected block id after one scroll step with a catalog of
      `catalogLength` entries: step the byte up or down with unchecked
      wrap-around, send anything past the last entry to 1, and anything
      below 1 to the last entry, `(byte)(catalogLength - 1)`. For a catalog
      of 2 .. 256 entries the result always names a block other than 0. */
  function ScrollTarget(id: byte, up: bool, catalogLength: int): (r: byte)
    ensures 2 <= catalogLength <= 256 ==> 1 <= r as int <= catalogLength - 1
  {
    var stepped := if up then ToByte(id as int + 1) else ToByte(id as int - 1);
    var capped := if stepped as int > catalogLength - 1 then 1 else stepped;
    if capped < 1 then ToByte(catalogLength - 1) else capped
  }

  /** Inside the catalog a scroll moves one entry up or down. */
  lemma ScrollMovesOneStep(id: byte, catalogLength: int)
    requires 1 <= id as int <= catalogLength - 1 && catalogLength <= 256
    ensures id as int + 1 <= catalogLength - 1 ==> ScrollTarget(id, true, catalogLength) as int == id as int + 1
    ensures 2 <= id ==> ScrollTarget(id, false, catalogLength) as int == id as int - 1
  {
  }

  /** Up from the last entry wraps to 1 and down from 1 wraps to the last
      entry; down from the initial 0 lands on 1. */
  lemma ScrollWrapsAround(catalogLength: int)
    requires 2 <= catalogLength <= 255
    ensures ScrollTarget((catalogLength - 1) as byte, true, catalogLength) == 1
    ensures ScrollTarget(1, false, catalogLength) as int == catalogLength - 1
    ensures ScrollTarget(0, false, catalogLength) == 1
  {
  }

  /** Scrolling up and then down (or down and then up) returns to the
      entry it started from. */
  lemma ScrollRoundTrip(id: byte, catalogLength: int)
    requires 2 <= catalogLength <= 255 && 1 <= id as int <= catalogLength - 1
    ensures ScrollTarget(ScrollTarget(id, true, catalogLength), false, catalogLength) == id
    ensures ScrollTarget(ScrollTarget(id, false, catalogLength), true, catalogLength) == id
  {
    var up := ScrollTarget(id, true, catalogLength);
    var down := ScrollTarget(id, false, catalogLength);
    if id as int == catalogLength - 1 {
      assert up == 1;
    } else {
      assert up as int == id as int + 1;
    }
    if id == 1 {
      assert down as int == catalogLength - 1;
    } else {
      assert down as int == id as int - 1;
    }
  }

  /** With a full catalog of 256 entries the byte wraps before the range
      check can see it: up from 255 stays on 255, and down from the initial
      0 lands on 255 rather than 1. */
  lemma FullCatalogScroll()
    ensures ScrollTarget(255, true, 256) == 255
    ensures ScrollTarget(0, false, 256) == 255
  {
  }

  /** The crouch and run flags. */
  datatype Stance = Stance(crouching: bool, running: bool)

  /** The crouch and run flags after one frame's buttons, handled in the
      order crouch down, crouch up, run down, run up: a press sets its own
      flag and clears the other one, a release clears only its own. */
  function StanceAfter(s: Stance, inputs: Inputs): (t: Stance)
    ensures t.crouching <==> !inputs.runPressed && !inputs.crouchReleased && (inputs.crouchPressed || s.crouching)
    ensures t.running <==> !inputs.runReleased && (inputs.runPressed || (!inputs.crouchPressed && s.running))
  {
    var afterCrouchDown := if inputs.crouchPressed then Stance(true, false) else s;
    var afterCrouchUp := if inputs.crouchReleased then afterCrouchDown.(crouching := false) else afterCrouchDown;
    var afterRunDown := if inputs.runPressed then Stance(false, true) else afterCrouchUp;
    if inputs.runReleased then afterRunDown.(running := false) else afterRunDown
  }

  /** Crouching and running never hold together once they did not: no
      frame's buttons can set both. */
  lemma StanceStaysExclusive(s: Stance, inputs: Inputs)
    requires !(s.crouching && s.running)
    ensures !(StanceAfter(s, inputs).crouching && StanceAfter(s, inputs).running)
  {
  }

  /** Any press leaves at most one flag set, whatever the flags were. */
  lemma PressSettlesStance(s: Stance, inputs: Inputs)
    requires inputs.crouchPressed || inputs.runPressed
    ensures !(StanceAfter(s, inputs).crouching && StanceAfter(s, inputs).running)
  {
  }

  class Player {
    /** `SelectedBlockID` and `SelectedBlockName`; the name is `None`
        (C#'s null) until a lookup succeeds. */
    var selectedBlockID: byte
    var selectedBlockName: Option<string>
    var isCrouching: bool
    var isRunning: bool
    var jumpRequest: bool
    var isGrounded: bool
    var verticalMomentum: real
    /** The serialized `jumpForce`. */
    const jumpForce: real

    /** A new player: block id 0 with no name yet, standing, in the air, at
        rest. */
    constructor(jumpForce: real)
      ensures this.jumpForce == jumpForce
      ensures selectedBlockID == 0 && selectedBlockName == None
      ensures !isCrouching && !isRunning && !jumpRequest && !isGrounded
      ensures verticalMomentum == 0.0
    {
      this.jumpForce := jumpForce;
      selectedBlockID := 0;
      selectedBlockName := None;
      isCrouching := false;
      isRunning := false;
      jumpRequest := false;
      isGrounded := false;
      verticalMomentum := 0.0;
    }

    /** `IsJumping`: moving up and not on the ground. */
    predicate IsJumping(): (jumping: bool)
      reads this
      ensures jumping ==> !isGrounded && verticalMomentum > 0.0
    {
      verticalMomentum > 0.0 && !isGrounded
    }

    /** `IsFalling`: moving down and not on the ground. */
    predicate IsFalling(): (falling: bool)
      reads this
      ensures falling ==> !isGrounded && !IsJumping()
    {
      verticalMomentum < 0.0 && !isGrounded
    }

    /** `Start` (its block-name part): show the name of the selected block.
        An empty catalog has no entry 0, and the lookup fails (`ok` false). */
    method Start(blockTypes: Catalog) returns (ok: bool)
      modifies this
      ensures ok <==> (selectedBlockID as int) < |blockTypes|
      ensures ok ==> selectedBlockName == Some(blockTypes[selectedBlockID].blockName)
      ensures !ok ==> selectedBlockName == old(selectedBlockName)
      ensures selectedBlockID == old(selectedBlockID) && isCrouching == old(isCrouching) && isRunning == old(isRunning)
      ensures jumpRequest == old(jumpRequest) && isGrounded == old(isGrounded)
      ensures verticalMomentum == old(verticalMomentum)
    {
      if selectedBlockID as int >= |blockTypes| {
        return false;
      }
      selectedBlockName := Some(blockTypes[selectedBlockID].blockName);
      return true;
    }

    /** `GetPlayerInputs` (the parts that change this state): the crouch and
        run buttons, the jump request, and the scroll wheel. A scroll
        selects the next or previous block and shows its name; when the
        selected id is past the end of the catalog the name lookup fails
        (`ok` false) and the name is left as it was. */
    method GetPlayerInputs(inputs: Inputs, blockTypes: Catalog) returns (ok: bool)
      modifies this
      ensures Stance(isCrouching, isRunning) == StanceAfter(Stance(old(isCrouching), old(isRunning)), inputs)
      ensures jumpRequest <==> old(jumpRequest) || (old(isGrounded) && inputs.jumpPressed)
      ensures inputs.scroll == 0.0 ==> ok && selectedBlockID == old(selectedBlockID) && selectedBlockName == old(selectedBlockName)
      ensures inputs.scroll != 0.0 ==>
                selectedBlockID == ScrollTarget(old(selectedBlockID), inputs.scroll > 0.0, |blockTypes|)
                && (ok <==> (selectedBlockID as int) < |blockTypes|)
                && (ok ==> selectedBlockName == Some(blockTypes[selectedBlockID].blockName))
                && (!ok ==> selectedBlockName == old(selectedBlockName))
      ensures isGrounded == old(isGrounded) && verticalMomentum == old(verticalMomentum)
    {
      StanceButtons(inputs);

      if isGrounded && inputs.jumpPressed {
        jumpRequest := true;
      }

      ok := true;
      if inputs.scroll != 0.0 {
        ok := ScrollSelection(inputs.scroll > 0.0, blockTypes);
      }
    }

    /** The crouch and run buttons of `GetPlayerInputs`, in the order crouch
        down, crouch up, run down, run up. */
    method StanceButtons(inputs: Inputs)
      modifies this
      ensures Stance(isCrouching, isRunning) == StanceAfter(Stance(old(isCrouching), old(isRunning)), inputs)
      ensures selectedBlockID == old(selectedBlockID) && selectedBlockName == old(selectedBlockName)
      ensures jumpRequest == old(jumpRequest) && isGrounded == old(isGrounded)
      ensures verticalMomentum == old(verticalMomentum)
    {
      if inputs.crouchPressed {
        isCrouching := true;
        isRunning := false;
      }
      if inputs.crouchReleased {
        isCrouching := false;
      }
      if inputs.runPressed {
        isRunning := true;
        isCrouching := false;
      }
      if inputs.runReleased {
        isRunning := false;
      }
    }

    /** The scroll-wheel branch of `GetPlayerInputs`: step the selected id
        up or down (the byte wraps), keep it inside `1 .. length-1` of the
        catalog, and show the new block's name; an id past the end of the
        catalog makes the name lookup fail (`ok` false). */
    method ScrollSelection(up: bool, blockTypes: Catalog) returns (ok: bool)
      modifies this
      ensures selectedBlockID == ScrollTarget(old(selectedBlockID), up, |blockTypes|)
      ensures ok <==> (selectedBlockID as int) < |blockTypes|
      ensures ok ==> selectedBlockName == Some(blockTypes[selectedBlockID].blockName)
      ensures !ok ==> selectedBlockName == old(selectedBlockName)
      ensures isCrouching == old(isCrouching) && isRunning == old(isRunning)
      ensures jumpRequest == old(jumpRequest) && isGrounded == old(isGrounded)
      ensures verticalMomentum == old(verticalMomentum)
    {
      if up {
        selectedBlockID := ToByte(selectedBlockID as int + 1);
      } else {
        selectedBlockID := ToByte(selectedBlockID as int - 1);
      }

      if selectedBlockID as int > |blockTypes| - 1 {
        selectedBlockID := 1;
      }
      if selectedBlockID < 1 {
        selectedBlockID := ToByte(|blockTypes| - 1);
      }

      if selectedBlockID as int >= |blockTypes| {
        return false;
      }
      selectedBlockName := Some(blockTypes[selectedBlockID].blockName);
      return true;
    }

    /** `Jump`: take the jump force as vertical momentum, leave the ground
        and consume the request; with a positive force the player is then
        jumping. */
    method Jump()
      modifies this
      ensures verticalMomentum == jumpForce && !isGrounded && !jumpRequest
      ensures jumpForce > 0.0 ==> IsJumping() && !IsFalling()
      ensures selectedBlockID == old(selectedBlockID) && selectedBlockName == old(selectedBlockName)
      ensures isCrouching == old(isCrouching) && isRunning == old(isRunning)
    {
      verticalMomentum := jumpForce;
      isGrounded := false;
      jumpRequest := false;
    }

    /** The player is never jumping and falling at once. */
    lemma NeverJumpingAndFalling()
      ensures !(IsJumping() && IsFalling())
    {
    }
  }
}
