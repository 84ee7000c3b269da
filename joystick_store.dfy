/**
  The joystick store of src/stores/useJoystick.js: one boolean, `jump`,
  which the on-screen jump button sets on touch start and clears on touch
  end. Store subscriptions (the re-render of subscribed components) are not
  modelled.
 */
module JoystickStore {

  /** The two actions the store offers. */
  datatype Action = Press | Release

  /** The state after one action: each action overwrites the flag, whatever it was. */
  function Apply(jump: bool, a: Action): (r: bool)
    ensures r <==> a == Press
  {
    match a
    case Press => true
    case Release => false
  }

  /** The state after a run of actions, applied in order. */
  function Replay(jump: bool, actions: seq<Action>): bool
    decreases |actions|
  {
    if |actions| == 0 then jump else Replay(Apply(jump, actions[0]), actions[1..])
  }

  /** Each action is idempotent: applying it twice is applying it once. */
  lemma ApplyIdempotent(jump: bool, a: Action)
    ensures Apply(Apply(jump, a), a) == Apply(jump, a)
  {
  }

  /**
    Only the last action matters: after a non-empty run the flag is set
    exactly when the last action was a press, and an empty run leaves it.
   */
  lemma {:induction false} LastActionWins(jump: bool, actions: seq<Action>)
    ensures Replay(jump, actions) == if |actions| == 0 then jump else actions[|actions| - 1] == Press
    decreases |actions|
  {
    if |actions| > 0 {
      LastActionWins(Apply(jump, actions[0]), actions[1..]);
    }
  }

  /** The store object; `jump` starts false. */
  class Store {
    var jump: bool

    constructor ()
      ensures !jump
    {
      jump := false;
    }

    /** `pressJump`: set the flag, from any state. */
    method PressJump()
      modifies this
      ensures jump == Apply(old(jump), Press)
    {
      jump := true;
    }

    /** `releaseJump`: clear the flag, from any state. */
    method ReleaseJump()
      modifies this
      ensures jump == Apply(old(jump), Release)
    {
      jump := false;
    }
  }
}
