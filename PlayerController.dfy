/**
 * The player controller's per-tick bookkeeping: turning the held input
 * bindings into control flags, placing blocks from the inventory with the
 * block cursor, choosing the next animation state with one handler per
 * state, and writing back the player's acceleration, animation timing,
 * motion counters, flag bits and jump budget.
 */
module PlayerControl {
  import opened Wrappers
  import opened StateIO
  import opened JavaNumbers
  import A = AnimationStates
  import Constants

  /** The control flags sent to the movement kernel, one per controlling binding. */
  datatype ControlFlag = UpFlag | DownFlag | LeftFlag | RightFlag | JumpFlag | RunFlag | Mouse1Flag | Mouse2Flag

  /** The bindings in the order handle_input_states visits them. */
  const BindingOrder: seq<Binding> := [
    MOVE_UP, MOVE_DOWN, MOVE_LEFT, MOVE_RIGHT, JUMP, RUN,
    MOUSE_PRIMARY, MOUSE_SECONDARY, MOUSE_MIDDLE, MOUSE_BACK, MOUSE_FORWARD
  ]

  /** The flag a held binding contributes; the primary button contributes nothing while blocked. */
  function FlagFor(b: Binding, primaryBlocked: bool): set<ControlFlag>
  {
    match b
    case MOVE_UP => {UpFlag}
    case MOVE_DOWN => {DownFlag}
    case MOVE_LEFT => {LeftFlag}
    case MOVE_RIGHT => {RightFlag}
    case JUMP => {JumpFlag}
    case RUN => {RunFlag}
    case MOUSE_PRIMARY => if primaryBlocked then {} else {Mouse1Flag}
    case MOUSE_SECONDARY => {Mouse2Flag}
    case MOUSE_MIDDLE | MOUSE_BACK | MOUSE_FORWARD => {}
  }

  /** The binding that raises a control flag. */
  function BindingOf(c: ControlFlag): Binding
  {
    match c
    case UpFlag => MOVE_UP
    case DownFlag => MOVE_DOWN
    case LeftFlag => MOVE_LEFT
    case RightFlag => MOVE_RIGHT
    case JumpFlag => JUMP
    case RunFlag => RUN
    case Mouse1Flag => MOUSE_PRIMARY
    case Mouse2Flag => MOUSE_SECONDARY
  }

  /** Where a flag's binding sits in BindingOrder. */
  function Position(c: ControlFlag): (i: nat)
    ensures i < |BindingOrder| && BindingOrder[i] == BindingOf(c)
  {
    match c
    case UpFlag => 0
    case DownFlag => 1
    case LeftFlag => 2
    case RightFlag => 3
    case JumpFlag => 4
    case RunFlag => 5
    case Mouse1Flag => 6
    case Mouse2Flag => 7
  }

  /** A flag is raised when its binding is held, and for the primary button only when not blocked. */
  predicate Raised(c: ControlFlag, held: PlayerInput, primaryBlocked: bool)
  {
    held.Pressed(BindingOf(c)) && (c == Mouse1Flag ==> !primaryBlocked)
  }

  /** The primary button is withheld while the block cursor is active or a release is still awaited. */
  predicate PrimaryBlocked(cursorActive: bool, requiresUnlatch: bool, mouseLatched: bool)
  {
    cursorActive || (requiresUnlatch && mouseLatched)
  }

  /** The flags added at position i are exactly the raised flags whose binding sits there. */
  lemma FlagForAt(i: nat, held: PlayerInput, primaryBlocked: bool, c: ControlFlag)
    requires i < |BindingOrder|
    ensures (held.Pressed(BindingOrder[i]) && c in FlagFor(BindingOrder[i], primaryBlocked))
      <==> (Raised(c, held, primaryBlocked) && Position(c) == i)
  {
  }

  /** The flag-building loop of handle_input_states: one OR per held binding. */
  method ControlFlags(held: PlayerInput, primaryBlocked: bool) returns (flags: set<ControlFlag>)
    ensures forall c :: c in flags <==> Raised(c, held, primaryBlocked)
  {
    flags := {};
    var i := 0;
    while i < |BindingOrder|
      invariant 0 <= i <= |BindingOrder|
      invariant forall c :: c in flags <==> Raised(c, held, primaryBlocked) && Position(c) < i
    {
      var b := BindingOrder[i];
      if held.Pressed(b) {
        flags := flags + FlagFor(b, primaryBlocked);
      }
      forall c ensures c in flags <==> Raised(c, held, primaryBlocked) && Position(c) < i + 1 {
        FlagForAt(i, held, primaryBlocked, c);
      }
      i := i + 1;
    }
  }

  /** What the per-state handlers read. */
  datatype InputData = InputData(
    isMvL: bool, isMvR: bool, mvJump: bool, mvRun: bool, canJump: bool, isWet: bool,
    isClick1: bool, isClick2: bool, currentBudget: int, motionFall: int, motionRise: int,
    currentTime: real, animIndex: int, jumpMag: real)

  /** What a handler returns: acceleration on, attack, next state, next budget and jump amount. */
  datatype OutputData = OutputData(
    accel: bool, attack: bool, nextState: A.AnimationState, nextBudget: int, jumpAmount: real)

  /** The handlers' view of the input as the state machines' input, with clicking always allowed. */
  function AsStateInput(d: InputData): StateInput
  {
    StateInput(d.canJump, d.currentBudget, d.motionFall, d.motionRise, d.isWet, d.currentTime, d.jumpMag, true)
  }

  /** The bindings the control flags report as held. */
  function FlagPlayer(d: InputData): PlayerInput
  {
    PlayerInput(
      (if d.isMvL then {MOVE_LEFT} else {}) + (if d.isMvR then {MOVE_RIGHT} else {})
      + (if d.mvJump then {JUMP} else {}) + (if d.mvRun then {RUN} else {})
      + (if d.isClick1 then {MOUSE_PRIMARY} else {}))
  }

  /** The bindings FlagPlayer reports pressed are exactly the raised flags. */
  lemma FlagPlayerPressed(d: InputData)
    ensures FlagPlayer(d).Pressed(MOVE_LEFT) == d.isMvL && FlagPlayer(d).Pressed(MOVE_RIGHT) == d.isMvR
    ensures FlagPlayer(d).Pressed(JUMP) == d.mvJump && FlagPlayer(d).Pressed(RUN) == d.mvRun
    ensures FlagPlayer(d).Pressed(MOUSE_PRIMARY) == d.isClick1
  {
  }

  /** idle_state reads left, right, primary and jump from the live input, and run from the flags. */
  function IdlePlayer(d: InputData, held: PlayerInput): PlayerInput
  {
    PlayerInput((held.held * {MOVE_LEFT, MOVE_RIGHT, MOUSE_PRIMARY, JUMP}) + (if d.mvRun then {RUN} else {}))
  }

  /**
   * The next state the controller's handlers choose: the animation
   * machine's rule with clicking always allowed, except that IN_AIR starts
   * to sink after a fall of more than 50 ticks rather than 100.
   */
  function FlagNext(d: InputData, current: A.AnimationState): A.AnimationState
  {
    if current == A.IN_AIR then
      (if d.motionFall > 50 then A.Sinking(AsStateInput(d))
       else if d.canJump then A.Landing(AsStateInput(d))
       else A.IN_AIR)
    else A.Next(AsStateInput(d), current, FlagPlayer(d))
  }

  function IdleNext(d: InputData, held: PlayerInput): A.AnimationState
  {
    A.Next(AsStateInput(d), A.IDLE, IdlePlayer(d, held))
  }

  /** A handler's output once its next state is known: only JUMPING accelerates and spends budget. */
  function Outcome(d: InputData, current: A.AnimationState, next: A.AnimationState): (out: OutputData)
    ensures out.nextState == next
    ensures out.accel <==> current == A.JUMPING
    ensures out.attack <==> current == A.PUNCH && next == A.PUNCH
    ensures current != A.JUMPING ==> out.nextBudget == 0 && out.jumpAmount == 0.0
  {
    if current == A.JUMPING then
      var e := JumpEffects(AsStateInput(d), d.mvJump);
      OutputData(true, false, next, e.nextBudget, e.jumpAmount)
    else
      OutputData(false, current == A.PUNCH && next == A.PUNCH, next, 0, 0.0)
  }

  /** The handlers' choice outside IN_AIR and IDLE is the animation machine's, with clicks allowed. */
  lemma FlagNextIsAnimationNext(d: InputData, current: A.AnimationState)
    requires current != A.IN_AIR
    ensures FlagNext(d, current) == A.Next(AsStateInput(d), current, FlagPlayer(d))
  {
  }

  /** IN_AIR differs from the animation machine exactly for falls of 51 to 100 ticks. */
  lemma InAirSinksSooner(d: InputData)
    ensures FlagNext(d, A.IN_AIR) != A.Next(AsStateInput(d), A.IN_AIR, FlagPlayer(d))
      <==> 50 < d.motionFall <= 100 && !(d.canJump && !d.isWet && A.Landing(AsStateInput(d)) == A.FALLING_SLOW)
  {
  }

  /** The jumping handler spends one unit of a positive budget and leaves when there is none. */
  lemma JumpingSpendsBudget(d: InputData)
    ensures Outcome(d, A.JUMPING, FlagNext(d, A.JUMPING)).nextBudget ==
      (if d.currentBudget > 0 then d.currentBudget - 1 else d.currentBudget)
    ensures d.currentBudget <= 0 ==> FlagNext(d, A.JUMPING) == (if d.isWet then A.SWIM_UP else A.IN_AIR)
    ensures d.currentBudget > 0 ==> FlagNext(d, A.JUMPING) == A.JUMPING
  {
  }

  /** Idle starts a punch on the live primary button even when the control flags withhold it. */
  lemma IdlePunchesOnLiveButton(d: InputData, held: PlayerInput)
    requires held.Pressed(MOUSE_PRIMARY) && d.motionRise <= 150 && d.motionFall <= 100
    requires !(d.canJump && d.currentBudget > 0 && held.Pressed(JUMP))
    ensures IdleNext(d, held) == A.PUNCH
  {
  }

  method WalkingState(d: InputData) returns (out: OutputData)
    ensures out == Outcome(d, A.WALKING, FlagNext(d, A.WALKING))
  {
    FlagPlayerPressed(d);
    out := OutputData(false, false, A.WALKING, 0, 0.0);
    if d.mvRun { out := out.(nextState := A.RUNNING); }
    if !d.isMvL && !d.isMvR { out := out.(nextState := A.IDLE); }
    if d.isClick1 { out := out.(nextState := A.PUNCH); }
    if d.canJump && d.currentBudget > 0 && d.mvJump { out := out.(nextState := A.RECOIL); }
    if d.motionFall > 100 { out := out.(nextState := if d.isWet then A.SWIM_DOWN else A.FALLING_SLOW); }
    if d.motionRise > 150 { out := out.(nextState := if d.isWet then A.SWIM_UP else A.IN_AIR); }
  }

  method RunningState(d: InputData) returns (out: OutputData)
    ensures out == Outcome(d, A.RUNNING, FlagNext(d, A.RUNNING))
  {
    FlagPlayerPressed(d);
    out := OutputData(false, false, A.RUNNING, 0, 0.0);
    if !d.mvRun { out := out.(nextState := A.WALKING); }
    if !d.isMvL && !d.isMvR { out := out.(nextState := A.IDLE); }
    if d.isClick1 { out := out.(nextState := A.PUNCH); }
    if d.canJump && d.currentBudget > 0 && d.mvJump { out := out.(nextState := A.RECOIL); }
    if d.motionFall > 100 { out := out.(nextState := if d.isWet then A.SWIM_DOWN else A.FALLING_SLOW); }
    if d.motionRise > 150 { out := out.(nextState := if d.isWet then A.SWIM_UP else A.IN_AIR); }
  }

  method FallingSlowState(d: InputData) returns (out: OutputData)
    ensures out == Outcome(d, A.FALLING_SLOW, FlagNext(d, A.FALLING_SLOW))
  {
    out := OutputData(false, false, A.FALLING_SLOW, 0, 0.0);
    if d.canJump { out := out.(nextState := if d.motionFall > 200 then A.LAND_HARD else A.LAND_SOFT); }
    if d.motionFall > 200 { out := out.(nextState := if d.isWet then A.SWIM_DOWN else A.FALLING_FAST); }
    if d.motionRise > 50 { out := out.(nextState := if d.isWet then A.SWIM_UP else A.IN_AIR); }
  }

  method FallingFastState(d: InputData) returns (out: OutputData)
    ensures out == Outcome(d, A.FALLING_FAST, FlagNext(d, A.FALLING_FAST))
  {
    out := OutputData(false, false, A.FALLING_FAST, 0, 0.0);
    if d.canJump { out := out.(nextState := if d.motionFall > 200 then A.LAND_HARD else A.LAND_SOFT); }
    if d.isWet { out := out.(nextState := A.SWIM_DOWN); }
    if d.motionFall < 200 { out := out.(nextState := if d.isWet then A.SWIM_DOWN else A.FALLING_SLOW); }
    if d.motionRise > 50 { out := out.(nextState := if d.isWet then A.SWIM_UP else A.IN_AIR); }
  }

  method RecoilState(d: InputData) returns (out: OutputData)
    ensures out == Outcome(d, A.RECOIL, FlagNext(d, A.RECOIL))
  {
    out := OutputData(false, false, A.RECOIL, 0, 0.0);
    if d.currentTime > 0.15 { out := out.(nextState := A.JUMPING); }
  }

  method JumpingState(d: InputData) returns (out: OutputData)
    ensures out == Outcome(d, A.JUMPING, FlagNext(d, A.JUMPING))
  {
    out := OutputData(false, false, A.JUMPING, 0, 0.0);
    out := out.(accel := true);
    out := out.(nextBudget := d.currentBudget);
    var tickSlice := if d.currentBudget > 0 then 1 else 0;
    out := out.(nextBudget := out.nextBudget - tickSlice);
    out := out.(jumpAmount := if tickSlice == 1 then (if d.mvJump then d.jumpMag else d.jumpMag / 2.0) else 0.0);
    if tickSlice == 0 { out := out.(nextState := if d.isWet then A.SWIM_UP else A.IN_AIR); }
  }

  method InAirState(d: InputData) returns (out: OutputData)
    ensures out == Outcome(d, A.IN_AIR, FlagNext(d, A.IN_AIR))
  {
    out := OutputData(false, false, A.IN_AIR, 0, 0.0);
    if d.canJump { out := out.(nextState := if d.motionFall > 200 then A.LAND_HARD else A.LAND_SOFT); }
    if d.motionFall > 50 { out := out.(nextState := if d.isWet then A.SWIM_DOWN else A.FALLING_SLOW); }
  }

  method SwimUpState(d: InputData) returns (out: OutputData)
    ensures out == Outcome(d, A.SWIM_UP, FlagNext(d, A.SWIM_UP))
  {
    out := OutputData(false, false, A.SWIM_UP, 0, 0.0);
    if d.canJump { out := out.(nextState := if d.motionFall > 200 then A.LAND_HARD else A.LAND_SOFT); }
    if d.motionFall > 50 { out := out.(nextState := if d.isWet then A.SWIM_DOWN else A.FALLING_SLOW); }
  }

  method SwimDownState(d: InputData) returns (out: OutputData)
    ensures out == Outcome(d, A.SWIM_DOWN, FlagNext(d, A.SWIM_DOWN))
  {
    out := OutputData(false, false, A.SWIM_DOWN, 0, 0.0);
    if d.canJump { out := out.(nextState := if d.motionFall > 200 then A.LAND_HARD else A.LAND_SOFT); }
    if d.motionFall > 200 { out := out.(nextState := if d.isWet then A.SWIM_DOWN else A.FALLING_SLOW); }
    if d.motionRise > 50 { out := out.(nextState := if d.isWet then A.SWIM_UP else A.IN_AIR); }
  }

  method LandSoftState(d: InputData) returns (out: OutputData)
    ensures out == Outcome(d, A.LAND_SOFT, FlagNext(d, A.LAND_SOFT))
  {
    out := OutputData(false, false, A.LAND_SOFT, 0, 0.0);
    if d.currentTime > 0.08 { out := out.(nextState := A.IDLE); }
  }

  method LandHardState(d: InputData) returns (out: OutputData)
    ensures out == Outcome(d, A.LAND_HARD, FlagNext(d, A.LAND_HARD))
  {
    out := OutputData(false, false, A.LAND_HARD, 0, 0.0);
    if d.currentTime > 0.22 { out := out.(nextState := A.IDLE); }
  }

  method PunchState(d: InputData) returns (out: OutputData)
    ensures out == Outcome(d, A.PUNCH, FlagNext(d, A.PUNCH))
  {
    out := OutputData(false, false, A.PUNCH, 0, 0.0);
    if !d.isClick1 { out := out.(nextState := if d.isMvL || d.isMvR then A.WALKING else A.IDLE); }
    if d.canJump && d.currentBudget > 0 && d.mvJump { out := out.(nextState := A.RECOIL); }
    if out.nextState == A.PUNCH { out := out.(attack := true); }
  }

  /** The entity flag bits the controller reads and writes. */
  const CanJumpBit: bv32 := 0x2
  const FaceLeftBit: bv32 := 0x4
  const IsWetBit: bv32 := 0x8
  const AttackingBit: bv32 := 0x20
  const CanCollectBit: bv32 := 0x80

  lemma BitsAreEntityFlags()
    ensures CanJumpBit as int == Constants.CanJump && FaceLeftBit as int == Constants.FaceLeft
    ensures IsWetBit as int == Constants.IsWet && AttackingBit as int == Constants.Attacking
    ensures CanCollectBit as int == Constants.CanCollect
    ensures Constants.EntityFlags[1].bits == Constants.CanJump && Constants.EntityFlags[2].bits == Constants.FaceLeft
    ensures Constants.EntityFlags[3].bits == Constants.IsWet && Constants.EntityFlags[5].bits == Constants.Attacking
    ensures Constants.EntityFlags[7].bits == Constants.CanCollect
  {
  }

  /** The player's entity record as read from and written back to the GPU. */
  datatype EntityInfo = EntityInfo(
    accelX: real, accelY: real,
    time0: real, time1: real,
    blend0: real, blend1: real,
    motionFall: int, motionRise: int,
    anim0: int, anim1: int,
    armFlag: bv32)

  /** A motion counter: one more while moving that way (as a short), else 0, capped at 1000. */
  function MotionCounter(m: int, moving: bool): (r: int)
    ensures r <= 1000
    ensures !moving ==> r == 0
    ensures moving && ShortMin - 1 <= m < 1000 ==> r == m + 1
    ensures moving && 1000 <= m < ShortMax ==> r == 1000
  {
    var counted := if moving then ToShort(m + 1) else 0;
    if counted > 1000 then 1000 else counted
  }

  /** Counters that start within [0, 1000] stay there. */
  lemma MotionCounterInRange(m: int, moving: bool)
    requires 0 <= m <= 1000
    ensures 0 <= MotionCounter(m, moving) <= 1000
  {
  }

  /** `on ? x | bit : x & ~bit`: sets or clears one flag bit. */
  function SetBit(x: bv32, bit: bv32, on: bool): bv32
  {
    if on then x | bit else x & !bit
  }

  /** SetBit leaves the bit equal to `on` and every other bit as it was. */
  lemma SetBitFacts(x: bv32, bit: bv32, on: bool)
    requires bit != 0
    ensures SetBit(x, bit, on) & bit == (if on then bit else 0)
    ensures SetBit(x, bit, on) & !bit == x & !bit
  {
  }

  /** The flag update: face left on a one-sided left press, attack and collect follow the tick. */
  function ArmFlags(arm: bv32, left: bool, right: bool, attack: bool, click2: bool): bv32
  {
    var faced := if left != right then SetBit(arm, FaceLeftBit, left) else arm;
    SetBit(SetBit(faced, AttackingBit, attack), CanCollectBit, click2)
  }

  /**
   * FACE_LEFT changes only when exactly one of left and right is held and
   * then records which; ATTACKING equals the attack output and CAN_COLLECT
   * the secondary click; every other bit is kept.
   */
  lemma ArmFlagsBits(arm: bv32, left: bool, right: bool, attack: bool, click2: bool)
    ensures left == right ==> ArmFlags(arm, left, right, attack, click2) & FaceLeftBit == arm & FaceLeftBit
    ensures left != right ==> ArmFlags(arm, left, right, attack, click2) & FaceLeftBit == (if left then FaceLeftBit else 0)
    ensures ArmFlags(arm, left, right, attack, click2) & AttackingBit == (if attack then AttackingBit else 0)
    ensures ArmFlags(arm, left, right, attack, click2) & CanCollectBit == (if click2 then CanCollectBit else 0)
    ensures ArmFlags(arm, left, right, attack, click2) & !(FaceLeftBit | AttackingBit | CanCollectBit)
      == arm & !(FaceLeftBit | AttackingBit | CanCollectBit)
  {
    var faced := if left != right then SetBit(arm, FaceLeftBit, left) else arm;
    var attacked := SetBit(faced, AttackingBit, attack);
    var r := SetBit(attacked, CanCollectBit, click2);
    SetBitFacts(arm, FaceLeftBit, left);
    SetBitFacts(faced, AttackingBit, attack);
    SetBitFacts(attacked, CanCollectBit, click2);
  }

  /** The handlers' input for one tick. */
  function InputDataOf(flags: set<ControlFlag>, info: EntityInfo, budget: int, jumpMag: real): InputData
  {
    InputData(LeftFlag in flags, RightFlag in flags, JumpFlag in flags, RunFlag in flags,
              info.armFlag & CanJumpBit != 0, info.armFlag & IsWetBit != 0,
              Mouse1Flag in flags, Mouse2Flag in flags, budget,
              info.motionFall, info.motionRise, info.time0, info.anim0, jumpMag)
  }

  /** The budget after the landing reset: back to 10 when able to jump and not jumping. */
  function ResetBudget(budget: int, info: EntityInfo, flags: set<ControlFlag>): int
  {
    if info.armFlag & CanJumpBit != 0 && JumpFlag !in flags then 10 else budget
  }

  /** The handler output for the state stored in the entity's animation index. */
  function TickOutcome(d: InputData, held: PlayerInput): OutputData
  {
    var current := A.FromIndex(d.animIndex);
    Outcome(d, current, if current == A.IDLE then IdleNext(d, held) else FlagNext(d, current))
  }

  /** The horizontal acceleration: toward the one held side, zero with neither, kept with both. */
  function AccelX(prior: real, left: bool, right: bool, push: real): (r: real)
    ensures left && !right ==> r == -push
    ensures right && !left ==> r == push
    ensures !left && !right ==> r == 0.0
    ensures left && right ==> r == prior
  {
    var a1 := if left && !right then -push else prior;
    var a2 := if right && !left then push else a1;
    if !right && !left then 0.0 else a2
  }

  /** The state of the controller: the jump budget and the block-placement bookkeeping. */
  class PlayerController {
    var current_budget: int
    var mouse_latched: bool
    var require_unlatch: bool
    /** The block kind selected in the block cursor; the cursor is active while one is selected. */
    var cursor_block: Option<int>
    /** The inventory's count of each solid block kind. */
    var solid_counts: map<int, int>
    /** The block kinds placed into the world, in order. */
    var placed: seq<int>

    predicate Valid()
      reads this
    {
      cursor_block.Some? ==> cursor_block.value in solid_counts
    }

    constructor (counts: map<int, int>)
      ensures Valid() && current_budget == 0 && cursor_block.None? && solid_counts == counts && placed == []
      ensures !mouse_latched && !require_unlatch
    {
      current_budget := 0;
      mouse_latched := false;
      require_unlatch := false;
      cursor_block := None;
      solid_counts := counts;
      placed := [];
    }

    /** Selects a block kind for the cursor. */
    method SelectBlock(block: int)
      requires block in solid_counts
      modifies this
      ensures Valid() && cursor_block == Some(block)
      ensures current_budget == old(current_budget) && solid_counts == old(solid_counts) && placed == old(placed)
      ensures mouse_latched == old(mouse_latched) && require_unlatch == old(require_unlatch)
    {
      cursor_block := Some(block);
    }

    /**
     * handle_input_states: releases the latch when the primary button is up,
     * builds the control flags, and on a fresh click with an active block
     * cursor latches the button and places a block when four or more remain,
     * deselecting the block once fewer than four are left.
     */
    method HandleInputStates(held: PlayerInput) returns (flags: set<ControlFlag>)
      requires Valid()
      modifies this
      ensures Valid()
      ensures forall c :: c in flags <==> Raised(c, held, PrimaryBlocked(
        old(cursor_block).Some?, old(require_unlatch) && held.Pressed(MOUSE_PRIMARY),
        old(mouse_latched) && held.Pressed(MOUSE_PRIMARY)))
      ensures current_budget == old(current_budget)
      ensures !held.Pressed(MOUSE_PRIMARY) ==> !mouse_latched && !require_unlatch
      ensures held.Pressed(MOUSE_PRIMARY) && !(old(cursor_block).Some? && !old(mouse_latched)) ==>
        mouse_latched == old(mouse_latched) && require_unlatch == old(require_unlatch)
      ensures !(held.Pressed(MOUSE_PRIMARY) && old(cursor_block).Some? && !old(mouse_latched)) ==>
        solid_counts == old(solid_counts) && placed == old(placed) && cursor_block == old(cursor_block)
      ensures held.Pressed(MOUSE_PRIMARY) && old(cursor_block).Some? && !old(mouse_latched) ==>
        var block := old(cursor_block).value;
        var count := old(solid_counts)[block];
        && mouse_latched
        && (count >= 4 ==> solid_counts == old(solid_counts)[block := count - 4] && placed == old(placed) + [block])
        && (count < 4 ==> solid_counts == old(solid_counts) && placed == old(placed))
        && (count < 8 ==> cursor_block.None? && require_unlatch)
        && (count >= 8 ==> cursor_block == old(cursor_block) && require_unlatch == old(require_unlatch))
    {
      if !held.Pressed(MOUSE_PRIMARY) {
        mouse_latched := false;
        require_unlatch := false;
      }
      flags := ControlFlags(held, PrimaryBlocked(cursor_block.Some?, require_unlatch, mouse_latched));
      if held.Pressed(MOUSE_PRIMARY) && cursor_block.Some? && !mouse_latched {
        mouse_latched := true;
        var block := cursor_block.value;
        var count := solid_counts[block];
        if count >= 4 {
          count := count - 4;
          solid_counts := solid_counts[block := count];
          placed := placed + [block];
        }
        if count < 4 {
          cursor_block := None;
          require_unlatch := true;
        }
      }
    }

    method IdleState(d: InputData, held: PlayerInput) returns (out: OutputData)
      ensures out == Outcome(d, A.IDLE, IdleNext(d.(currentBudget := current_budget), held))
    {
      out := OutputData(false, false, A.IDLE, 0, 0.0);
      if held.Pressed(MOVE_LEFT) || held.Pressed(MOVE_RIGHT) {
        out := out.(nextState := if d.mvRun then A.RUNNING else A.WALKING);
      }
      if held.Pressed(MOUSE_PRIMARY) { out := out.(nextState := A.PUNCH); }
      if d.canJump && current_budget > 0 && held.Pressed(JUMP) { out := out.(nextState := A.RECOIL); }
      if d.motionFall > 100 { out := out.(nextState := if d.isWet then A.SWIM_DOWN else A.FALLING_SLOW); }
      if d.motionRise > 150 { out := out.(nextState := if d.isWet then A.SWIM_UP else A.IN_AIR); }
    }

    /** The switch in new_way: the handler for the current state. */
    method RunHandler(d: InputData, held: PlayerInput) returns (out: OutputData)
      requires d.currentBudget == current_budget
      ensures out == TickOutcome(d, held)
    {
      match A.FromIndex(d.animIndex) {
        case IDLE => out := IdleState(d, held);
        case WALKING => out := WalkingState(d);
        case RUNNING => out := RunningState(d);
        case FALLING_SLOW => out := FallingSlowState(d);
        case FALLING_FAST => out := FallingFastState(d);
        case RECOIL => out := RecoilState(d);
        case JUMPING => out := JumpingState(d);
        case IN_AIR => out := InAirState(d);
        case SWIM_UP => out := SwimUpState(d);
        case SWIM_DOWN => out := SwimDownState(d);
        case LAND_SOFT => out := LandSoftState(d);
        case LAND_HARD => out := LandHardState(d);
        case PUNCH => out := PunchState(d);
        case UNKNOWN => out := OutputData(false, false, A.UNKNOWN, 0, 0.0);
      }
    }

    /**
     * new_way: one controller tick. Resets the jump budget on the ground,
     * runs the handler for the current animation, restarts the animation
     * clock with a blend when the state changes, applies the jump, updates
     * the motion counters, the acceleration and the flag bits, and returns
     * the record written back for the entity.
     */
    method NewWay(flags: set<ControlFlag>, info: EntityInfo, linearMag: real, jumpMag: real, velY: real,
                  held: PlayerInput)
      returns (written: EntityInfo)
      modifies this
      ensures var d := InputDataOf(flags, info, ResetBudget(old(current_budget), info, flags), jumpMag);
        var out := TickOutcome(d, held);
        && current_budget == (if out.accel then out.nextBudget else d.currentBudget)
        && written == Written(info, flags, out, linearMag, velY)
      ensures mouse_latched == old(mouse_latched) && require_unlatch == old(require_unlatch)
      ensures cursor_block == old(cursor_block) && solid_counts == old(solid_counts) && placed == old(placed)
    {
      var canJump := info.armFlag & CanJumpBit != 0;
      current_budget := if canJump && JumpFlag !in flags then 10 else current_budget;
      var d := InputDataOf(flags, info, current_budget, jumpMag);
      var result := RunHandler(d, held);
      current_budget := if result.accel then result.nextBudget else current_budget;
      written := WriteBack(flags, info, result, linearMag, velY);
    }
  }

  /**
   * The part of new_way that builds the record written back: transition
   * handling, the jump, the motion counters, the acceleration and the flags,
   * in that order, each assignment overriding the previous one.
   */
  method WriteBack(flags: set<ControlFlag>, info: EntityInfo, result: OutputData, linearMag: real, velY: real)
    returns (written: EntityInfo)
    ensures written == Written(info, flags, result, linearMag, velY)
  {
    var isMvL := LeftFlag in flags;
    var isMvR := RightFlag in flags;
    var isMvU := UpFlag in flags;
    var isMvD := DownFlag in flags;
    var isClick2 := Mouse2Flag in flags;
    var isWet := Wet(info);
    var moveMod := if isWet then 0.5 else if RunFlag in flags then 2.0 else 1.0;
    var current := A.FromIndex(info.anim0);

    // transition handling
    var blend := current != result.nextState;
    var time1 := if blend then info.time0 else info.time1;
    var anim1 := if blend then info.anim0 else info.anim1;
    var blend0 := if blend then A.BlendTime(current, result.nextState) else info.blend0;
    var blend1 := if blend then 0.0 else info.blend1;
    var time0 := if blend then 0.0 else info.time0;
    var anim0 := A.Ordinal(result.nextState);

    // jumping
    var accelY := if result.accel then result.jumpAmount else info.accelY;

    // motion state
    var fall := if velY < -10.0 then ToShort(info.motionFall + 1) else 0;
    var rise := if velY > 10.0 then ToShort(info.motionRise + 1) else 0;
    fall := if fall > 1000 then 1000 else fall;
    rise := if rise > 1000 then 1000 else rise;

    // acceleration
    var accelX;
    accelX, accelY := Accelerate(info.accelX, accelY, flags, isWet, linearMag * moveMod, linearMag);

    // set flags
    var arm := SetFlags(info.armFlag, isMvL, isMvR, result.attack, isClick2);

    written := EntityInfo(accelX, accelY, time0, time1, blend0, blend1, fall, rise, anim0, anim1, arm);
    ghost var w := Written(info, flags, result, linearMag, velY);
    assert w.accelX == accelX && w.accelY == accelY;
    assert w.time0 == time0 && w.time1 == time1;
    assert w.blend0 == blend0 && w.blend1 == blend1;
    assert w.motionFall == fall && w.motionRise == rise;
    assert w.anim0 == anim0 && w.anim1 == anim1;
    assert w.armFlag == arm;
  }

  /** The acceleration section of new_way: horizontal push from the move keys, swimming in water. */
  method Accelerate(priorX: real, priorY: real, flags: set<ControlFlag>, wet: bool, push: real, linearMag: real)
    returns (accelX: real, accelY: real)
    ensures accelX == AccelX(priorX, LeftFlag in flags, RightFlag in flags, push)
    ensures accelY == AccelY(priorY, wet, UpFlag in flags, DownFlag in flags, linearMag)
  {
    var isMvL := LeftFlag in flags;
    var isMvR := RightFlag in flags;
    accelX := priorX;
    accelX := if isMvL && !isMvR then -push else accelX;
    accelX := if isMvR && !isMvL then push else accelX;
    accelX := if !isMvR && !isMvL then 0.0 else accelX;
    accelY := priorY;
    accelY := if UpFlag in flags && wet then linearMag * 1.5 else accelY;
    accelY := if DownFlag in flags && wet then -linearMag else accelY;
  }

  /** The flag section of new_way: facing follows a single move key, then the attack and collect bits. */
  method SetFlags(prior: bv32, left: bool, right: bool, attack: bool, click2: bool) returns (arm: bv32)
    ensures arm == ArmFlags(prior, left, right, attack, click2)
  {
    arm := prior;
    if left != right {
      arm := SetBit(arm, FaceLeftBit, left);
    }
    arm := SetBit(arm, AttackingBit, attack);
    arm := SetBit(arm, CanCollectBit, click2);
  }

  /** Whether the entity's flags say it is in water. */
  predicate Wet(info: EntityInfo)
  {
    info.armFlag & IsWetBit != 0
  }

  /** The move multiplier: half in water, double when running, one otherwise. */
  function MoveMod(info: EntityInfo, flags: set<ControlFlag>): real
  {
    if Wet(info) then 0.5 else if RunFlag in flags then 2.0 else 1.0
  }

  /** The vertical acceleration: in water, swimming down wins over swimming up; otherwise the prior value. */
  function AccelY(prior: real, wet: bool, up: bool, down: bool, linearMag: real): real
  {
    if down && wet then -linearMag
    else if up && wet then linearMag * 1.5
    else prior
  }

  /** The record new_way writes back, field by field. */
  function Written(info: EntityInfo, flags: set<ControlFlag>, out: OutputData, linearMag: real, velY: real): EntityInfo
  {
    var current := A.FromIndex(info.anim0);
    var blend := current != out.nextState;
    EntityInfo(
      AccelX(info.accelX, LeftFlag in flags, RightFlag in flags, linearMag * MoveMod(info, flags)),
      AccelY(if out.accel then out.jumpAmount else info.accelY, Wet(info), UpFlag in flags, DownFlag in flags, linearMag),
      if blend then 0.0 else info.time0,
      if blend then info.time0 else info.time1,
      if blend then A.BlendTime(current, out.nextState) else info.blend0,
      if blend then 0.0 else info.blend1,
      MotionCounter(info.motionFall, velY < -10.0),
      MotionCounter(info.motionRise, velY > 10.0),
      A.Ordinal(out.nextState),
      if blend then info.anim0 else info.anim1,
      ArmFlags(info.armFlag, LeftFlag in flags, RightFlag in flags, out.attack, Mouse2Flag in flags))
  }

  /** With jump released and the ability to jump, the tick starts from a budget of 10. */
  lemma BudgetResetsOnGround(budget: int, info: EntityInfo, flags: set<ControlFlag>, held: PlayerInput, jumpMag: real)
    requires info.armFlag & CanJumpBit != 0 && JumpFlag !in flags
    ensures var d := InputDataOf(flags, info, ResetBudget(budget, info, flags), jumpMag);
      var out := TickOutcome(d, held);
      (if out.accel then out.nextBudget else d.currentBudget) ==
        (if A.FromIndex(info.anim0) == A.JUMPING then 9 else 10)
  {
  }

  /** A change of state restarts the clock, keeps the old clock and index, and blends by the table. */
  lemma StateChangeBlends(info: EntityInfo, flags: set<ControlFlag>, out: OutputData, linearMag: real, velY: real)
    requires A.FromIndex(info.anim0) != out.nextState
    ensures var w := Written(info, flags, out, linearMag, velY);
      && w.time0 == 0.0 && w.time1 == info.time0 && w.anim1 == info.anim0
      && w.blend0 == A.BlendTime(A.FromIndex(info.anim0), out.nextState) && w.blend1 == 0.0
      && A.FromIndex(w.anim0) == out.nextState
  {
  }

  /** Staying in a state keeps the clocks, the blend and the previous index. */
  lemma SameStateKeepsTiming(info: EntityInfo, flags: set<ControlFlag>, out: OutputData, linearMag: real, velY: real)
    requires A.FromIndex(info.anim0) == out.nextState
    ensures var w := Written(info, flags, out, linearMag, velY);
      && w.time0 == info.time0 && w.time1 == info.time1 && w.anim1 == info.anim1
      && w.blend0 == info.blend0 && w.blend1 == info.blend1
  {
  }

  /** An animation index outside the enum reads as UNKNOWN and is written back as UNKNOWN's ordinal. */
  lemma OutOfRangeIndexBecomesUnknown(flags: set<ControlFlag>, info: EntityInfo, budget: int, jumpMag: real,
                                      held: PlayerInput, linearMag: real, velY: real)
    requires info.anim0 < 0 || info.anim0 >= |A.Values|
    ensures var d := InputDataOf(flags, info, budget, jumpMag);
      var w := Written(info, flags, TickOutcome(d, held), linearMag, velY);
      w.anim0 == 13 && w.time0 == info.time0 && w.anim1 == info.anim1
  {
  }
}
