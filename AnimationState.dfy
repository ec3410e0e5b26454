/**
 * The animation state machine: the fourteen animation states in
 * declaration order, their layers, lookup by ordinal and by fuzzy name,
 * the blend-time table between states, and the per-tick transition that
 * also records the chosen state in the machine's shared `state` field.
 */
module AnimationStates {
  import opened Wrappers
  import opened StateIO

  datatype AnimationState =
    | IDLE | WALKING | RUNNING | FALLING_FAST | RECOIL | JUMPING | IN_AIR
    | LAND_HARD | FALLING_SLOW | LAND_SOFT | SWIM_UP | SWIM_DOWN | PUNCH | UNKNOWN

  /** `values()`: every state in declaration order. */
  const Values: seq<AnimationState> := [
    IDLE, WALKING, RUNNING, FALLING_FAST, RECOIL, JUMPING, IN_AIR,
    LAND_HARD, FALLING_SLOW, LAND_SOFT, SWIM_UP, SWIM_DOWN, PUNCH, UNKNOWN
  ]

  /** The position of a state in declaration order. */
  function Ordinal(s: AnimationState): (i: nat)
    ensures i < |Values| && Values[i] == s
  {
    match s
    case IDLE => 0
    case WALKING => 1
    case RUNNING => 2
    case FALLING_FAST => 3
    case RECOIL => 4
    case JUMPING => 5
    case IN_AIR => 6
    case LAND_HARD => 7
    case FALLING_SLOW => 8
    case LAND_SOFT => 9
    case SWIM_UP => 10
    case SWIM_DOWN => 11
    case PUNCH => 12
    case UNKNOWN => 13
  }

  /** Every state appears exactly once in Values. */
  lemma ValuesAreDistinct()
    ensures forall i, j :: 0 <= i < j < |Values| ==> Values[i] != Values[j]
    ensures forall s :: s in Values
  {
    forall s ensures s in Values {
      assert Values[Ordinal(s)] == s;
    }
  }

  /** The layer an animation plays on, as each constant declares it. */
  function Layer(s: AnimationState): (layer: nat)
    ensures layer == 0 <==> s == IDLE
    ensures layer == 2 <==> s == PUNCH
    ensures layer <= 2
  {
    match s
    case IDLE => 0
    case WALKING => 1
    case RUNNING => 1
    case FALLING_FAST => 1
    case RECOIL => 1
    case JUMPING => 1
    case IN_AIR => 1
    case LAND_HARD => 1
    case FALLING_SLOW => 1
    case LAND_SOFT => 1
    case SWIM_UP => 1
    case SWIM_DOWN => 1
    case PUNCH => 2
    case UNKNOWN => 1
  }

  /** `from_index`: the state at an ordinal, UNKNOWN for any index out of range. */
  function FromIndex(index: int): (s: AnimationState)
    ensures (index < 0 || index >= |Values|) ==> s == UNKNOWN
    ensures 0 <= index < |Values| ==> Ordinal(s) == index
  {
    if index < 0 || index >= |Values| then UNKNOWN else Values[index]
  }

  lemma FromIndexOfOrdinal(s: AnimationState)
    ensures FromIndex(Ordinal(s)) == s
  {
  }

  /** The constant's name, as `name()` returns it. */
  function Name(s: AnimationState): string
  {
    match s
    case IDLE => "IDLE"
    case WALKING => "WALKING"
    case RUNNING => "RUNNING"
    case FALLING_FAST => "FALLING_FAST"
    case RECOIL => "RECOIL"
    case JUMPING => "JUMPING"
    case IN_AIR => "IN_AIR"
    case LAND_HARD => "LAND_HARD"
    case FALLING_SLOW => "FALLING_SLOW"
    case LAND_SOFT => "LAND_SOFT"
    case SWIM_UP => "SWIM_UP"
    case SWIM_DOWN => "SWIM_DOWN"
    case PUNCH => "PUNCH"
    case UNKNOWN => "UNKNOWN"
  }

  /** Upper-casing of the ASCII letters; every other character is kept. */
  function UpperChar(c: char): char
  {
    if 'a' <= c <= 'z' then (c as int - 32) as char else c
  }

  function Upper(s: string): (u: string)
    ensures |u| == |s|
  {
    seq(|s|, i requires 0 <= i < |s| => UpperChar(s[i]))
  }

  /** `String.contains`: needle occurs in hay, scanning from the front. */
  function Contains(hay: string, needle: string): bool
    decreases |hay|
  {
    |needle| <= |hay| && (hay[..|needle|] == needle || Contains(hay[1..], needle))
  }

  /** needle occurs in hay starting at offset k. */
  predicate OccursAt(hay: string, needle: string, k: int)
  {
    0 <= k <= |hay| - |needle| && hay[k..k + |needle|] == needle
  }

  /** Contains holds exactly when the needle occurs at some offset. */
  lemma {:induction false} ContainsIff(hay: string, needle: string)
    ensures Contains(hay, needle) <==> exists k :: OccursAt(hay, needle, k)
    decreases |hay|
  {
    if |needle| <= |hay| && hay[..|needle|] != needle {
      ContainsIff(hay[1..], needle);
      if Contains(hay[1..], needle) {
        var k :| OccursAt(hay[1..], needle, k);
        assert hay[k + 1..k + 1 + |needle|] == hay[1..][k..k + |needle|];
        assert OccursAt(hay, needle, k + 1);
      }
      if k :| OccursAt(hay, needle, k) {
        assert k != 0;
        assert hay[1..][k - 1..k - 1 + |needle|] == hay[k..k + |needle|];
        assert OccursAt(hay[1..], needle, k - 1);
      }
    } else if |needle| <= |hay| {
      assert OccursAt(hay, needle, 0);
    }
  }

  /** The first state of `states` whose name occurs in `hay`. */
  function FirstContained(hay: string, states: seq<AnimationState>): (r: Option<AnimationState>)
    ensures r.Some? ==> r.value in states && Contains(hay, Name(r.value))
    ensures r.None? ==> forall s :: s in states ==> !Contains(hay, Name(s))
  {
    if |states| == 0 then None
    else if Contains(hay, Name(states[0])) then Some(states[0])
    else FirstContained(hay, states[1..])
  }

  /** A state of `states` ahead of the first match does not occur in `hay`. */
  lemma {:induction false} FirstContainedIsFirst(hay: string, states: seq<AnimationState>, i: nat)
    requires FirstContained(hay, states).Some? && i < |states|
    requires Contains(hay, Name(states[i]))
    ensures exists j :: 0 <= j <= i && states[j] == FirstContained(hay, states).value
  {
    if !Contains(hay, Name(states[0])) {
      assert i > 0;
      FirstContainedIsFirst(hay, states[1..], i - 1);
      var j :| 0 <= j <= i - 1 && states[1..][j] == FirstContained(hay, states[1..]).value;
      assert states[j + 1] == states[1..][j];
    } else {
      assert states[0] == FirstContained(hay, states).value;
    }
  }

  /**
   * `fuzzy_match`: None stands for a null name, which gives UNKNOWN; otherwise
   * the state whose name occurs in the upper-cased name, taking the first in
   * declaration order, or UNKNOWN when none does.
   */
  function FuzzyMatch(name: Option<string>): (r: AnimationState)
    ensures name.None? ==> r == UNKNOWN
    ensures name.Some? && r != UNKNOWN ==> Contains(Upper(name.value), Name(r))
    ensures name.Some? ==> forall s :: Contains(Upper(name.value), Name(s)) ==>
      Contains(Upper(name.value), Name(r)) && Ordinal(r) <= Ordinal(s)
  {
    match name
    case None => UNKNOWN
    case Some(n) =>
      var first := FirstContained(Upper(n), Values);
      FirstMatchIsEarliest(Upper(n));
      if first.Some? then first.value else UNKNOWN
  }

  /** The first match in declaration order comes no later than any other state that occurs. */
  lemma FirstMatchIsEarliest(hay: string)
    ensures forall s :: Contains(hay, Name(s)) ==>
      FirstContained(hay, Values).Some? && Ordinal(FirstContained(hay, Values).value) <= Ordinal(s)
  {
    forall s | Contains(hay, Name(s))
      ensures FirstContained(hay, Values).Some? && Ordinal(FirstContained(hay, Values).value) <= Ordinal(s)
    {
      ValuesAreDistinct();
      FirstContainedIsFirst(hay, Values, Ordinal(s));
      var j :| 0 <= j <= Ordinal(s) && Values[j] == FirstContained(hay, Values).value;
      assert Ordinal(Values[j]) == j;
    }
  }

  /** The blend time from a state to itself (and to UNKNOWN). */
  function SelfBlend(s: AnimationState): real
  {
    if s == JUMPING then 0.5
    else if s == RECOIL || s == LAND_HARD || s == LAND_SOFT then 0.05
    else 0.0
  }

  /** `blend_time`: the time, in seconds, to blend from one animation into another. */
  function BlendTime(from: AnimationState, to: AnimationState): (r: real)
    ensures 0.0 <= r <= 0.5
    ensures from == UNKNOWN ==> r == 0.0
    ensures from == to || to == UNKNOWN ==> r == SelfBlend(from)
  {
    match from
    case IDLE =>
      (match to
       case IDLE | UNKNOWN => 0.0
       case WALKING | LAND_HARD | FALLING_SLOW | LAND_SOFT | SWIM_UP | SWIM_DOWN
         | FALLING_FAST | JUMPING | RUNNING | IN_AIR => 0.4
       case PUNCH | RECOIL => 0.1)
    case WALKING =>
      (match to
       case WALKING | UNKNOWN => 0.0
       case IDLE | LAND_HARD | FALLING_SLOW | LAND_SOFT | SWIM_UP | SWIM_DOWN
         | FALLING_FAST | JUMPING | RUNNING | IN_AIR => 0.2
       case PUNCH | RECOIL => 0.1)
    case FALLING_FAST =>
      (match to
       case FALLING_FAST | UNKNOWN => 0.0
       case WALKING | LAND_HARD | FALLING_SLOW | LAND_SOFT | SWIM_UP | SWIM_DOWN
         | IDLE | JUMPING | RUNNING | IN_AIR => 0.2
       case PUNCH | RECOIL => 0.1)
    case IN_AIR =>
      (match to
       case IN_AIR | UNKNOWN => 0.0
       case WALKING | FALLING_SLOW | FALLING_FAST | LAND_SOFT | SWIM_UP | SWIM_DOWN
         | IDLE | JUMPING | RUNNING | LAND_HARD => 0.2
       case PUNCH | RECOIL => 0.1)
    case FALLING_SLOW =>
      (match to
       case FALLING_SLOW | UNKNOWN => 0.0
       case WALKING | LAND_HARD | FALLING_FAST | LAND_SOFT | SWIM_UP | SWIM_DOWN
         | IDLE | JUMPING | RUNNING | IN_AIR => 0.2
       case PUNCH | RECOIL => 0.1)
    case SWIM_UP =>
      (match to
       case SWIM_UP | UNKNOWN => 0.0
       case WALKING | LAND_HARD | FALLING_SLOW | LAND_SOFT | SWIM_DOWN | FALLING_FAST
         | IDLE | JUMPING | RUNNING | IN_AIR => 0.2
       case PUNCH | RECOIL => 0.1)
    case SWIM_DOWN =>
      (match to
       case SWIM_DOWN | UNKNOWN => 0.0
       case WALKING | LAND_HARD | FALLING_SLOW | LAND_SOFT | SWIM_UP | FALLING_FAST
         | IDLE | JUMPING | RUNNING | IN_AIR => 0.2
       case PUNCH | RECOIL => 0.1)
    case PUNCH =>
      (match to
       case PUNCH | UNKNOWN => 0.0
       case IDLE | WALKING | JUMPING => 0.3
       case RUNNING | RECOIL | IN_AIR | LAND_HARD | LAND_SOFT | SWIM_UP | SWIM_DOWN => 0.2
       case FALLING_FAST | FALLING_SLOW => 0.5)
    case RUNNING =>
      (match to
       case RUNNING | UNKNOWN => 0.0
       case LAND_HARD | FALLING_SLOW | LAND_SOFT | SWIM_UP | SWIM_DOWN | FALLING_FAST
         | JUMPING | IN_AIR => 0.2
       case IDLE | WALKING => 0.4
       case PUNCH | RECOIL => 0.1)
    case JUMPING => 0.5
    case RECOIL | LAND_HARD | LAND_SOFT => 0.05
    case UNKNOWN => 0.0
  }

  /** Leaving a state that has its own row costs the same whatever the target, for the three fixed-time states. */
  lemma FixedTimeRows(from: AnimationState, to: AnimationState)
    requires from in {JUMPING, RECOIL, LAND_HARD, LAND_SOFT, UNKNOWN}
    ensures BlendTime(from, to) == SelfBlend(from)
  {
  }

  /** Blending into PUNCH or RECOIL from any state with its own row takes 0.1, except from PUNCH itself. */
  lemma QuickIntoAction(from: AnimationState, to: AnimationState)
    requires to == PUNCH || to == RECOIL
    requires from !in {JUMPING, RECOIL, LAND_HARD, LAND_SOFT, UNKNOWN, PUNCH}
    ensures BlendTime(from, to) == 0.1
  {
  }

  /** A jump is allowed this tick: ability, budget and the jump binding. */
  predicate JumpReady(input: StateInput, player: PlayerInput)
  {
    input.canJump && input.currentBudget > 0 && player.Pressed(JUMP)
  }

  /** Landing: hard after a long fall, soft otherwise. */
  function Landing(input: StateInput): AnimationState
  {
    if input.motionFall > 200 then LAND_HARD else LAND_SOFT
  }

  function Airborne(input: StateInput): AnimationState
  {
    if input.isWet then SWIM_UP else IN_AIR
  }

  function Sinking(input: StateInput): AnimationState
  {
    if input.isWet then SWIM_DOWN else FALLING_SLOW
  }

  /**
   * The grounded states' overrides, strongest first: a long rise, then a
   * long fall, then a jump, then a click, and only then the state the
   * movement keys chose.
   */
  function GroundedNext(input: StateInput, player: PlayerInput, moved: AnimationState): AnimationState
  {
    if input.motionRise > 150 then Airborne(input)
    else if input.motionFall > 100 then Sinking(input)
    else if JumpReady(input, player) then RECOIL
    else if player.Pressed(MOUSE_PRIMARY) && input.canClick then PUNCH
    else moved
  }

  /**
   * The next state, written as a priority chain: in each state the rule the
   * machine checks last is the one that wins, so it comes first here.
   */
  function Next(input: StateInput, current: AnimationState, player: PlayerInput): (r: AnimationState)
    ensures current == UNKNOWN ==> r == UNKNOWN
    ensures current == RECOIL ==> (r == JUMPING <==> input.currentTime > 0.15) && r in {RECOIL, JUMPING}
    ensures current == JUMPING ==> (r == JUMPING <==> input.currentBudget > 0)
    ensures current == LAND_HARD ==> (r == IDLE <==> input.currentTime > 0.22) && r in {LAND_HARD, IDLE}
    ensures current == LAND_SOFT ==> (r == IDLE <==> input.currentTime > 0.08) && r in {LAND_SOFT, IDLE}
    ensures r == UNKNOWN ==> current == UNKNOWN
    ensures r == PUNCH ==> current == PUNCH || input.canClick
  {
    match current
    case UNKNOWN => UNKNOWN
    case IDLE =>
      GroundedNext(input, player, if player.Moving() then (if player.Pressed(RUN) then RUNNING else WALKING) else IDLE)
    case WALKING =>
      GroundedNext(input, player, if !player.Moving() then IDLE else if player.Pressed(RUN) then RUNNING else WALKING)
    case RUNNING =>
      GroundedNext(input, player, if !player.Moving() then IDLE else if !player.Pressed(RUN) then WALKING else RUNNING)
    case FALLING_FAST =>
      if input.motionRise > 50 then Airborne(input)
      else if input.motionFall < 200 then Sinking(input)
      else if input.isWet then SWIM_DOWN
      else if input.canJump then Landing(input)
      else FALLING_FAST
    case RECOIL => if input.currentTime > 0.15 then JUMPING else RECOIL
    case JUMPING => if input.currentBudget > 0 then JUMPING else Airborne(input)
    case IN_AIR =>
      if input.motionFall > 100 then Sinking(input)
      else if input.canJump then Landing(input)
      else IN_AIR
    case LAND_HARD => if input.currentTime > 0.22 then IDLE else LAND_HARD
    case FALLING_SLOW =>
      if input.motionRise > 50 then Airborne(input)
      else if input.motionFall > 200 then (if input.isWet then SWIM_DOWN else FALLING_FAST)
      else if input.canJump then Landing(input)
      else FALLING_SLOW
    case LAND_SOFT => if input.currentTime > 0.08 then IDLE else LAND_SOFT
    case SWIM_UP =>
      if input.motionFall > 50 then Sinking(input)
      else if input.canJump then Landing(input)
      else SWIM_UP
    case SWIM_DOWN =>
      if input.motionRise > 50 then Airborne(input)
      else if input.motionFall > 200 then Sinking(input)
      else if input.canJump then Landing(input)
      else SWIM_DOWN
    case PUNCH =>
      if JumpReady(input, player) then RECOIL
      else if !player.Pressed(MOUSE_PRIMARY) then (if player.Moving() then WALKING else IDLE)
      else PUNCH
  }

  /** On the ground, a rise of more than 150 ticks overrides every other input. */
  lemma LongRiseWins(input: StateInput, current: AnimationState, player: PlayerInput)
    requires current in {IDLE, WALKING, RUNNING} && input.motionRise > 150
    ensures Next(input, current, player) == (if input.isWet then SWIM_UP else IN_AIR)
  {
  }

  /** A hard landing can only start from a fast fall: every other airborne state lands softly. */
  lemma LandHardOnlyFromFallingFast(input: StateInput, current: AnimationState, player: PlayerInput)
    requires current != LAND_HARD && Next(input, current, player) == LAND_HARD
    ensures current == FALLING_FAST && input.motionFall > 200 && input.canJump && !input.isWet
  {
  }

  /** A fast fall lands softly only when the fall counter is exactly 200. */
  lemma FallingFastLandsSoftAt200(input: StateInput, player: PlayerInput)
    requires Next(input, FALLING_FAST, player) == LAND_SOFT
    ensures input.motionFall == 200
  {
  }

  /** A punch continues while the primary button stays down, unless a jump is ready. */
  lemma PunchHolds(input: StateInput, player: PlayerInput)
    ensures Next(input, PUNCH, player) == PUNCH <==> player.Pressed(MOUSE_PRIMARY) && !JumpReady(input, player)
  {
  }

  /** Only the grounded states start a punch, and only on a click they are allowed to make. */
  lemma PunchStartsOnClick(input: StateInput, current: AnimationState, player: PlayerInput)
    requires current != PUNCH && Next(input, current, player) == PUNCH
    ensures current in {IDLE, WALKING, RUNNING}
    ensures player.Pressed(MOUSE_PRIMARY) && input.canClick && !JumpReady(input, player)
  {
  }

  /** The machine: its shared `state` field holds the state chosen by the last call. */
  class AnimationMachine {
    var state: AnimationState

    constructor ()
      ensures state == UNKNOWN
    {
      state := UNKNOWN;
    }

    /**
     * `process`: clears the output, then in the current state applies its
     * rules in order, each later one overriding the earlier; JUMPING spends
     * the jump budget and PUNCH reports an attack while it lasts.
     */
    method Process(input: StateInput, output: StateOutput, current: AnimationState, player: PlayerInput)
      returns (next: AnimationState)
      modifies this, output
      ensures next == Next(input, current, player) && state == next
      ensures current == JUMPING ==> output.Value() == JumpEffects(input, player.Pressed(JUMP))
      ensures current != JUMPING ==>
        !output.jumping && output.next_budget == 0 && output.jump_amount == 0.0
      ensures output.attack <==> current == PUNCH && next == PUNCH
    {
      output.Clear();
      state := current;
      match current {
        case UNKNOWN =>
        case IDLE =>
          state := ProcessGrounded(input, current, player);
        case WALKING =>
          state := ProcessGrounded(input, current, player);
        case RUNNING =>
          state := ProcessGrounded(input, current, player);
        case RECOIL =>
          if input.currentTime > 0.15 { state := JUMPING; }
        case JUMPING =>
          output.jumping := true;
          output.next_budget := input.currentBudget;
          var jumpCost := if input.currentBudget > 0 then 1 else 0;
          output.next_budget := output.next_budget - jumpCost;
          output.jump_amount :=
            if jumpCost == 1 then (if player.Pressed(JUMP) then input.jumpMag else input.jumpMag / 2.0) else 0.0;
          if jumpCost == 0 { state := if input.isWet then SWIM_UP else IN_AIR; }
        case LAND_HARD =>
          if input.currentTime > 0.22 { state := IDLE; }
        case LAND_SOFT =>
          if input.currentTime > 0.08 { state := IDLE; }
        case PUNCH =>
          if !player.Pressed(MOUSE_PRIMARY) {
            state := if player.Pressed(MOVE_LEFT) || player.Pressed(MOVE_RIGHT) then WALKING else IDLE;
          }
          if player.Pressed(JUMP) && input.canJump && input.currentBudget > 0 { state := RECOIL; }
          if state == PUNCH { output.attack := true; }
        case _ =>
          state := ProcessAirborne(input, current);
      }
      next := state;
    }
  }

  /** The IDLE, WALKING and RUNNING branches of `process`, rule by rule. */
  method ProcessGrounded(input: StateInput, current: AnimationState, player: PlayerInput)
    returns (state: AnimationState)
    requires current == IDLE || current == WALKING || current == RUNNING
    ensures state == Next(input, current, player)
  {
    state := current;
    match current {
      case IDLE =>
        if player.Pressed(MOVE_LEFT) || player.Pressed(MOVE_RIGHT) {
          state := if player.Pressed(RUN) then RUNNING else WALKING;
        }
      case WALKING =>
        if player.Pressed(RUN) { state := RUNNING; }
        if !player.Pressed(MOVE_LEFT) && !player.Pressed(MOVE_RIGHT) { state := IDLE; }
      case RUNNING =>
        if !player.Pressed(RUN) { state := WALKING; }
        if !player.Pressed(MOVE_LEFT) && !player.Pressed(MOVE_RIGHT) { state := IDLE; }
    }
    if player.Pressed(MOUSE_PRIMARY) && input.canClick { state := PUNCH; }
    if input.canJump && input.currentBudget > 0 && player.Pressed(JUMP) { state := RECOIL; }
    if input.motionFall > 100 { state := if input.isWet then SWIM_DOWN else FALLING_SLOW; }
    if input.motionRise > 150 { state := if input.isWet then SWIM_UP else IN_AIR; }
  }

  /** The falling, in-air and swimming branches of `process`, rule by rule. */
  method ProcessAirborne(input: StateInput, current: AnimationState) returns (state: AnimationState)
    requires current in {FALLING_FAST, IN_AIR, FALLING_SLOW, SWIM_UP, SWIM_DOWN}
    ensures forall player :: state == Next(input, current, player)
  {
    state := current;
    if input.canJump { state := if input.motionFall > 200 then LAND_HARD else LAND_SOFT; }
    match current {
      case FALLING_FAST =>
        if input.isWet { state := SWIM_DOWN; }
        if input.motionFall < 200 { state := if input.isWet then SWIM_DOWN else FALLING_SLOW; }
        if input.motionRise > 50 { state := if input.isWet then SWIM_UP else IN_AIR; }
      case IN_AIR =>
        if input.motionFall > 100 { state := if input.isWet then SWIM_DOWN else FALLING_SLOW; }
      case FALLING_SLOW =>
        if input.motionFall > 200 { state := if input.isWet then SWIM_DOWN else FALLING_FAST; }
        if input.motionRise > 50 { state := if input.isWet then SWIM_UP else IN_AIR; }
      case SWIM_UP =>
        if input.motionFall > 50 { state := if input.isWet then SWIM_DOWN else FALLING_SLOW; }
      case SWIM_DOWN =>
        if input.motionFall > 200 { state := if input.isWet then SWIM_DOWN else FALLING_SLOW; }
        if input.motionRise > 50 { state := if input.isWet then SWIM_UP else IN_AIR; }
    }
  }
}
