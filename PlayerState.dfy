/**
 * The player's layered state machines: a base layer with a single state and
 * an action layer that starts and holds a punch. The player's movement layer
 * follows the same rules as the movement state machine (MovementStates).
 */
module PlayerStates {
  import opened StateIO

  datatype BaseState = BASE_IDLE

  /** BaseState.process: the base layer never leaves IDLE. */
  function BaseProcess(input: StateInput, current: BaseState, player: PlayerInput): (r: BaseState)
    ensures r == BASE_IDLE
  {
    match current
    case BASE_IDLE => BASE_IDLE
  }

  datatype ActionState = ACTION_IDLE | ACTION_PUNCH

  /**
   * ActionState.process: from IDLE a click on the primary button starts a
   * punch when clicking is allowed; a punch lasts while the button is held.
   */
  function ActionProcess(input: StateInput, current: ActionState, player: PlayerInput): (r: ActionState)
    ensures current == ACTION_IDLE ==> (r == ACTION_PUNCH <==> player.Pressed(MOUSE_PRIMARY) && input.canClick)
    ensures current == ACTION_PUNCH ==> (r == ACTION_PUNCH <==> player.Pressed(MOUSE_PRIMARY))
  {
    match current
    case ACTION_IDLE => if player.Pressed(MOUSE_PRIMARY) && input.canClick then ACTION_PUNCH else ACTION_IDLE
    case ACTION_PUNCH => if player.Pressed(MOUSE_PRIMARY) then ACTION_PUNCH else ACTION_IDLE
  }

  /** Releasing the primary button always ends up in IDLE, whatever the action state. */
  lemma ReleaseIdles(input: StateInput, current: ActionState, player: PlayerInput)
    requires !player.Pressed(MOUSE_PRIMARY)
    ensures ActionProcess(input, current, player) == ACTION_IDLE
  {
  }

  /** Holding the button keeps a punch going even when clicking is no longer allowed. */
  lemma HeldPunchIgnoresClickAbility(input: StateInput, player: PlayerInput)
    requires player.Pressed(MOUSE_PRIMARY)
    ensures ActionProcess(input, ACTION_PUNCH, player) == ActionProcess(input.(canClick := true), ACTION_PUNCH, player)
  {
  }

  /** One frame's inputs to the action layer. */
  datatype Frame = Frame(input: StateInput, player: PlayerInput)

  /** The action state after processing the frames in order, starting from `start`. */
  function ActionRun(frames: seq<Frame>, start: ActionState): ActionState
    decreases |frames|
  {
    if frames == [] then start
    else
      var last := frames[|frames| - 1];
      ActionProcess(last.input, ActionRun(frames[..|frames| - 1], start), last.player)
  }

  /** A punch may start at frame m: the button is down and clicking is allowed there. */
  predicate StartsPunch(f: Frame)
  {
    f.player.Pressed(MOUSE_PRIMARY) && f.input.canClick
  }

  /** The button is held in every frame from m on. */
  predicate HeldFrom(frames: seq<Frame>, m: int)
    requires 0 <= m <= |frames|
  {
    forall k :: m <= k < |frames| ==> frames[k].player.Pressed(MOUSE_PRIMARY)
  }

  /**
   * Over any run of frames from IDLE, the player is punching exactly when a
   * punch started at some frame (button down while clicking was allowed)
   * and the button has been held in every frame since: a punch starts only
   * from IDLE with clicking allowed, and lasts exactly while the button is
   * held.
   */
  lemma {:induction false} PunchIffStartedAndHeld(frames: seq<Frame>)
    ensures ActionRun(frames, ACTION_IDLE) == ACTION_PUNCH
            <==> exists m :: 0 <= m < |frames| && StartsPunch(frames[m]) && HeldFrom(frames, m)
    decreases |frames|
  {
    if frames != [] {
      var n := |frames|;
      var front := frames[..n - 1];
      var last := frames[n - 1];
      PunchIffStartedAndHeld(front);
      if ActionRun(frames, ACTION_IDLE) == ACTION_PUNCH {
        assert last.player.Pressed(MOUSE_PRIMARY);
        if ActionRun(front, ACTION_IDLE) == ACTION_PUNCH {
          var m :| 0 <= m < |front| && StartsPunch(front[m]) && HeldFrom(front, m);
          assert frames[m] == front[m];
          assert HeldFrom(frames, m) by {
            forall k | m <= k < n ensures frames[k].player.Pressed(MOUSE_PRIMARY) {
              if k < n - 1 { assert frames[k] == front[k]; }
            }
          }
        } else {
          assert StartsPunch(frames[n - 1]) && HeldFrom(frames, n - 1);
        }
      } else if exists m :: 0 <= m < n && StartsPunch(frames[m]) && HeldFrom(frames, m) {
        var m :| 0 <= m < n && StartsPunch(frames[m]) && HeldFrom(frames, m);
        assert last.player.Pressed(MOUSE_PRIMARY);
        if m < n - 1 {
          assert front[m] == frames[m];
          assert HeldFrom(front, m) by {
            forall k | m <= k < n - 1 ensures front[k].player.Pressed(MOUSE_PRIMARY) {
              assert front[k] == frames[k];
            }
          }
          assert false;
        } else {
          assert false;
        }
      }
    }
  }
}
