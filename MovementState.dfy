/**
 * The movement state machine: twelve movement states, each tied to the
 * animation it plays, the per-tick transition that fills in the state
 * output, and the blend-time table between movement states.
 */
module MovementStates {
  import opened StateIO
  import A = AnimationStates

  datatype MovementState =
    | IDLE | WALKING | RUNNING | FALLING_FAST | RECOIL | JUMPING | IN_AIR
    | LAND_HARD | FALLING_SLOW | LAND_SOFT | SWIM_UP | SWIM_DOWN

  /** The animation each movement state declares. */
  function Animation(m: MovementState): (a: A.AnimationState)
    ensures a != A.PUNCH && a != A.UNKNOWN
  {
    match m
    case IDLE => A.IDLE
    case WALKING => A.WALKING
    case RUNNING => A.RUNNING
    case FALLING_FAST => A.FALLING_FAST
    case RECOIL => A.RECOIL
    case JUMPING => A.JUMPING
    case IN_AIR => A.IN_AIR
    case LAND_HARD => A.LAND_HARD
    case FALLING_SLOW => A.FALLING_SLOW
    case LAND_SOFT => A.LAND_SOFT
    case SWIM_UP => A.SWIM_UP
    case SWIM_DOWN => A.SWIM_DOWN
  }

  /** The movement state playing a given animation, for every animation but PUNCH and UNKNOWN. */
  function FromAnimation(a: A.AnimationState): (m: MovementState)
    requires a != A.PUNCH && a != A.UNKNOWN
    ensures Animation(m) == a
  {
    match a
    case IDLE => IDLE
    case WALKING => WALKING
    case RUNNING => RUNNING
    case FALLING_FAST => FALLING_FAST
    case RECOIL => RECOIL
    case JUMPING => JUMPING
    case IN_AIR => IN_AIR
    case LAND_HARD => LAND_HARD
    case FALLING_SLOW => FALLING_SLOW
    case LAND_SOFT => LAND_SOFT
    case SWIM_UP => SWIM_UP
    case SWIM_DOWN => SWIM_DOWN
  }

  /** No two movement states share an animation. */
  lemma AnimationIsInjective(m: MovementState, n: MovementState)
    requires Animation(m) == Animation(n)
    ensures m == n
  {
    assert FromAnimation(Animation(m)) == m;
  }

  /** The input with clicking disabled: what the movement machine sees of the animation rules. */
  function NoClick(input: StateInput): StateInput
  {
    input.(canClick := false)
  }

  /**
   * The movement machine's next state: the animation machine's choice for
   * the same animation once clicking is switched off (the movement rules are
   * the animation rules without the punch).
   */
  function Next(input: StateInput, current: MovementState, player: PlayerInput): (r: MovementState)
    ensures Animation(r) == A.Next(NoClick(input), Animation(current), player)
  {
    FromAnimation(A.Next(NoClick(input), Animation(current), player))
  }

  /** RECOIL becomes JUMPING exactly when more than 0.15 s has passed in it. */
  lemma RecoilTimesOut(input: StateInput, player: PlayerInput)
    ensures Next(input, RECOIL, player) == JUMPING <==> input.currentTime > 0.15
    ensures Next(input, RECOIL, player) in {RECOIL, JUMPING}
  {
    var r := Next(input, RECOIL, player);
    if input.currentTime > 0.15 {
      AnimationIsInjective(r, JUMPING);
    } else {
      AnimationIsInjective(r, RECOIL);
    }
  }

  /** Landings return to IDLE after 0.22 s (hard) and 0.08 s (soft). */
  lemma LandingsTimeOut(input: StateInput, player: PlayerInput)
    ensures Next(input, LAND_HARD, player) == IDLE <==> input.currentTime > 0.22
    ensures Next(input, LAND_SOFT, player) == IDLE <==> input.currentTime > 0.08
  {
    var hard := Next(input, LAND_HARD, player);
    var soft := Next(input, LAND_SOFT, player);
    AnimationIsInjective(hard, if input.currentTime > 0.22 then IDLE else LAND_HARD);
    AnimationIsInjective(soft, if input.currentTime > 0.08 then IDLE else LAND_SOFT);
  }

  /** JUMPING lasts while the budget is positive and otherwise rises into the air or the water. */
  lemma JumpEndsWithBudget(input: StateInput, player: PlayerInput)
    ensures input.currentBudget > 0 ==> Next(input, JUMPING, player) == JUMPING
    ensures input.currentBudget <= 0 ==> Next(input, JUMPING, player) == (if input.isWet then SWIM_UP else IN_AIR)
  {
    var r := Next(input, JUMPING, player);
    if input.currentBudget > 0 {
      AnimationIsInjective(r, JUMPING);
    } else if input.isWet {
      AnimationIsInjective(r, SWIM_UP);
    } else {
      AnimationIsInjective(r, IN_AIR);
    }
  }

  /** From IDLE the last rule wins: a rise of more than 150 ticks overrides keys, jumps and falls. */
  lemma IdleLongRiseWins(input: StateInput, player: PlayerInput)
    requires input.motionRise > 150
    ensures Next(input, IDLE, player) == (if input.isWet then SWIM_UP else IN_AIR)
  {
    var r := Next(input, IDLE, player);
    A.LongRiseWins(NoClick(input), A.IDLE, player);
    if input.isWet {
      AnimationIsInjective(r, SWIM_UP);
    } else {
      AnimationIsInjective(r, IN_AIR);
    }
  }

  /** From IDLE with no fall or rise and no jump ready, the movement keys decide. */
  lemma IdleFollowsKeys(input: StateInput, player: PlayerInput)
    requires input.motionRise <= 150 && input.motionFall <= 100 && !A.JumpReady(input, player)
    ensures Next(input, IDLE, player) ==
      (if player.Moving() then (if player.Pressed(RUN) then RUNNING else WALKING) else IDLE)
  {
    var r := Next(input, IDLE, player);
    var expected := if player.Moving() then (if player.Pressed(RUN) then RUNNING else WALKING) else IDLE;
    assert Animation(r) == Animation(expected);
    AnimationIsInjective(r, expected);
  }

  /**
   * `process`: clears the output, then in the current state applies its
   * rules in order, each later one overriding the earlier; JUMPING spends
   * the jump budget.
   */
  method Process(input: StateInput, output: StateOutput, current: MovementState, player: PlayerInput)
    returns (next: MovementState)
    modifies output
    ensures next == Next(input, current, player)
    ensures current == JUMPING ==> output.Value() == JumpEffects(input, player.Pressed(JUMP))
    ensures current != JUMPING ==> output.Value() == Cleared
  {
    output.Clear();
    var state := current;
    match current {
      case IDLE =>
        if player.Pressed(MOVE_LEFT) || player.Pressed(MOVE_RIGHT) {
          state := if player.Pressed(RUN) then RUNNING else WALKING;
        }
        state := GroundedOverrides(input, player, state);
      case WALKING =>
        if player.Pressed(RUN) { state := RUNNING; }
        if !player.Pressed(MOVE_LEFT) && !player.Pressed(MOVE_RIGHT) { state := IDLE; }
        state := GroundedOverrides(input, player, state);
      case RUNNING =>
        if !player.Pressed(RUN) { state := WALKING; }
        if !player.Pressed(MOVE_LEFT) && !player.Pressed(MOVE_RIGHT) { state := IDLE; }
        state := GroundedOverrides(input, player, state);
      case RECOIL =>
        if input.currentTime > 0.15 { state := JUMPING; }
      case JUMPING =>
        output.jumping := true;
        output.next_budget := input.currentBudget;
        var jumpCost := if input.currentBudget > 0 then 1 else 0;
        output.next_budget := output.next_budget - jumpCost;
        output.jump_amount :=
          if jumpCost == 1 then (if player.Pressed(JUMP) then input.jumpMag else input.jumpMag / 2.0) else 0.0;
        if jumpCost == 0 { state := if input.isWet then SWIM_UP else IN_AIR; }
      case LAND_HARD =>
        if input.currentTime > 0.22 { state := IDLE; }
      case LAND_SOFT =>
        if input.currentTime > 0.08 { state := IDLE; }
      case _ =>
        state := ProcessAirborne(input, current);
    }
    AnimationIsInjective(state, Next(input, current, player));
    next := state;
  }

  /** The jump, fall and rise rules every grounded state applies after its key rules. */
  method GroundedOverrides(input: StateInput, player: PlayerInput, moved: MovementState)
    returns (state: MovementState)
    ensures Animation(state) == A.GroundedNext(NoClick(input), player, Animation(moved))
  {
    state := moved;
    if input.canJump && input.currentBudget > 0 && player.Pressed(JUMP) { state := RECOIL; }
    if input.motionFall > 100 { state := if input.isWet then SWIM_DOWN else FALLING_SLOW; }
    if input.motionRise > 150 { state := if input.isWet then SWIM_UP else IN_AIR; }
  }

  /** The falling, in-air and swimming branches of `process`, rule by rule. */
  method ProcessAirborne(input: StateInput, current: MovementState) returns (state: MovementState)
    requires current in {FALLING_FAST, IN_AIR, FALLING_SLOW, SWIM_UP, SWIM_DOWN}
    ensures forall player :: Animation(state) == A.Next(NoClick(input), Animation(current), player)
  {
    state := current;
    if input.canJump { state := if input.motionFall > 200 then LAND_HARD else LAND_SOFT; }
    match current {
      case FALLING_FAST =>
        if input.isWet { state := SWIM_DOWN; }
        if input.motionFall < 200 { state := if input.isWet then SWIM_DOWN else FALLING_SLOW; }
        if input.motionRise > 50 { state := if input.isWet then SWIM_UP else IN_AIR; }
      case IN_AIR =>
        if input.motionFall > 100 { state := if input.isWet then SWIM_DOWN else FALLING_SLOW; }
      case FALLING_SLOW =>
        if input.motionFall > 200 { state := if input.isWet then SWIM_DOWN else FALLING_FAST; }
        if input.motionRise > 50 { state := if input.isWet then SWIM_UP else IN_AIR; }
      case SWIM_UP =>
        if input.motionFall > 50 { state := if input.isWet then SWIM_DOWN else FALLING_SLOW; }
      case SWIM_DOWN =>
        if input.motionFall > 200 { state := if input.isWet then SWIM_DOWN else FALLING_SLOW; }
        if input.motionRise > 50 { state := if input.isWet then SWIM_UP else IN_AIR; }
    }
  }

  /** `blend_time`: the time, in seconds, to blend from one movement state into another. */
  function BlendTime(from: MovementState, to: MovementState): (r: real)
    ensures r == A.BlendTime(Animation(from), Animation(to))
  {
    match from
    case IDLE =>
      (match to
       case IDLE => 0.0
       case WALKING | LAND_HARD | FALLING_SLOW | LAND_SOFT | SWIM_UP | SWIM_DOWN
         | FALLING_FAST | JUMPING | RUNNING | IN_AIR => 0.4
       case RECOIL => 0.1)
    case WALKING =>
      (match to
       case WALKING => 0.0
       case IDLE | LAND_HARD | FALLING_SLOW | LAND_SOFT | SWIM_UP | SWIM_DOWN
         | FALLING_FAST | JUMPING | RUNNING | IN_AIR => 0.2
       case RECOIL => 0.1)
    case RUNNING =>
      (match to
       case RUNNING => 0.0
       case LAND_HARD | FALLING_SLOW | LAND_SOFT | SWIM_UP | SWIM_DOWN | FALLING_FAST
         | JUMPING | IN_AIR => 0.2
       case IDLE | WALKING => 0.4
       case RECOIL => 0.1)
    case FALLING_FAST =>
      (match to
       case FALLING_FAST => 0.0
       case WALKING | LAND_HARD | FALLING_SLOW | LAND_SOFT | SWIM_UP | SWIM_DOWN
         | IDLE | JUMPING | RUNNING | IN_AIR => 0.2
       case RECOIL => 0.1)
    case IN_AIR =>
      (match to
       case IN_AIR => 0.0
       case WALKING | FALLING_SLOW | FALLING_FAST | LAND_SOFT | SWIM_UP | SWIM_DOWN
         | IDLE | JUMPING | RUNNING | LAND_HARD => 0.2
       case RECOIL => 0.1)
    case FALLING_SLOW =>
      (match to
       case FALLING_SLOW => 0.0
       case WALKING | LAND_HARD | FALLING_FAST | LAND_SOFT | SWIM_UP | SWIM_DOWN
         | IDLE | JUMPING | RUNNING | IN_AIR => 0.2
       case RECOIL => 0.1)
    case SWIM_UP =>
      (match to
       case SWIM_UP => 0.0
       case WALKING | LAND_HARD | FALLING_SLOW | LAND_SOFT | SWIM_DOWN | FALLING_FAST
         | IDLE | JUMPING | RUNNING | IN_AIR => 0.2
       case RECOIL => 0.1)
    case SWIM_DOWN =>
      (match to
       case SWIM_DOWN => 0.0
       case WALKING | LAND_HARD | FALLING_SLOW | LAND_SOFT | SWIM_UP | FALLING_FAST
         | IDLE | JUMPING | RUNNING | IN_AIR => 0.2
       case RECOIL => 0.1)
    case JUMPING => 0.5
    case RECOIL | LAND_HARD | LAND_SOFT => 0.05
  }

  /** blend(s, s) is 0 for every state except JUMPING (0.5) and RECOIL and the landings (0.05). */
  lemma SelfBlendTimes(s: MovementState)
    ensures BlendTime(s, s) ==
      (if s == JUMPING then 0.5 else if s in {RECOIL, LAND_HARD, LAND_SOFT} then 0.05 else 0.0)
  {
  }
}
