/**
 * What the player state machines read and write each tick: the pressed
 * input bindings, the per-tick state input (jump ability, jump budget,
 * motion counters, wetness, time in the current state, jump magnitude,
 * click ability) and the state output object the machines fill in.
 */
module StateIO {
  /** The input bindings the state machines and the controller consult. */
  datatype Binding =
    | MOVE_UP | MOVE_DOWN | MOVE_LEFT | MOVE_RIGHT | JUMP | RUN
    | MOUSE_PRIMARY | MOUSE_SECONDARY | MOUSE_MIDDLE | MOUSE_BACK | MOUSE_FORWARD

  /** The player's input this tick: the set of bindings held down. */
  datatype PlayerInput = PlayerInput(held: set<Binding>)
  {
    predicate Pressed(b: Binding)
    {
      b in held
    }

    predicate Moving()
    {
      Pressed(MOVE_LEFT) || Pressed(MOVE_RIGHT)
    }
  }

  /**
   * The per-tick input: motionFall and motionRise are the two motion
   * counters (ticks spent falling and rising), currentTime the time spent in
   * the current state.
   */
  datatype StateInput = StateInput(
    canJump: bool,
    currentBudget: int,
    motionFall: int,
    motionRise: int,
    isWet: bool,
    currentTime: real,
    jumpMag: real,
    canClick: bool)

  /** The fields a state machine writes besides its next state. */
  datatype Effects = Effects(jumping: bool, attack: bool, nextBudget: int, jumpAmount: real)

  /** What init_output writes: nothing jumping or attacking, no budget, no jump. */
  const Cleared := Effects(false, false, 0, 0.0)

  /** The shared output object a state machine fills in. */
  class StateOutput {
    var jumping: bool
    var attack: bool
    var next_budget: int
    var jump_amount: real

    constructor ()
      ensures Value() == Cleared
    {
      jumping := false;
      attack := false;
      next_budget := 0;
      jump_amount := 0.0;
    }

    function Value(): Effects
      reads this
    {
      Effects(jumping, attack, next_budget, jump_amount)
    }

    /** init_output: clears every field. */
    method Clear()
      modifies this
      ensures Value() == Cleared
    {
      jumping := false;
      attack := false;
      next_budget := 0;
      jump_amount := 0.0;
    }
  }

  /**
   * The JUMPING state's output: it spends one unit of a positive budget and
   * then pushes with the full jump magnitude while jump is held, half of it
   * otherwise; with no budget left it pushes with nothing.
   */
  function JumpEffects(input: StateInput, jumpHeld: bool): (e: Effects)
    ensures e.jumping && !e.attack
    ensures input.currentBudget > 0 ==> e.nextBudget == input.currentBudget - 1
    ensures input.currentBudget <= 0 ==> e.nextBudget == input.currentBudget && e.jumpAmount == 0.0
    ensures input.currentBudget > 0 && jumpHeld ==> e.jumpAmount == input.jumpMag
    ensures input.currentBudget > 0 && !jumpHeld ==> e.jumpAmount == input.jumpMag / 2.0
  {
    var cost := if input.currentBudget > 0 then 1 else 0;
    Effects(true, false, input.currentBudget - cost,
            if cost == 1 then (if jumpHeld then input.jumpMag else input.jumpMag / 2.0) else 0.0)
  }
}
