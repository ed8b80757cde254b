/**
 * The LED actor of the first firmware: it keeps the LED's state and drives
 * the pin only when a message changes it. Pin errors are discarded, so the
 * state follows the message whether or not the write took.
 */
module Led {
  datatype LedMessage = On | Off | Toggle | State(state: bool)

  /** The state a message asks for, given the current one. */
  function NewState(state: bool, m: LedMessage): (r: bool)
    ensures m.On? ==> r
    ensures m.Off? ==> !r
    ensures m.State? ==> r == m.state
    ensures m.Toggle? ==> r != state
  {
    match m
    case On => true
    case Off => false
    case State(b) => b
    case Toggle => !state
  }

  /** Toggling twice leaves the state as it was. */
  lemma ToggleTwice(state: bool)
    ensures NewState(NewState(state, Toggle), Toggle) == state
  {
  }

  /** Every message but Toggle is idempotent, and `State(b)` is On or Off. */
  lemma SettersIdempotent(state: bool, m: LedMessage)
    requires !m.Toggle?
    ensures NewState(NewState(state, m), m) == NewState(state, m)
    ensures NewState(state, m) == NewState(state, if NewState(state, m) then On else Off)
  {
  }

  class LedActor {
    var state: bool
    /** The pin writes so far: true for `set_high`, false for `set_low`. */
    var pinWrites: seq<bool>

    /**
     * The pin writes alternate, starting with `set_high` because the state
     * starts off, and the last of them is the current state: so the pin,
     * once driven, shows the state, and no write repeats the one before it.
     */
    ghost predicate Valid()
      reads this
    {
      (forall i :: 0 <= i < |pinWrites| ==> pinWrites[i] == (i % 2 == 0)) &&
      (state <==> |pinWrites| % 2 == 1)
    }

    constructor ()
      ensures !state && pinWrites == []
      ensures Valid()
    {
      state := false;
      pinWrites := [];
    }

    /** One message: the pin is driven only on a change, the state always follows. */
    method OnMessage(m: LedMessage)
      requires Valid()
      modifies this
      ensures state == NewState(old(state), m)
      ensures pinWrites == old(pinWrites) + if state != old(state) then [state] else []
      ensures Valid()
      ensures pinWrites != [] ==> pinWrites[|pinWrites| - 1] == state
    {
      var newState := match m
        case On => true
        case Off => false
        case State(b) => b
        case Toggle => !state;
      if state != newState {
        pinWrites := pinWrites + [newState];
      }
      state := newState;
    }
  }
}
