/** The daemon's view of a turn: one active turn at most, numbered by a token, and
    a terminal for each turn that was not rolled back. */
module SessionTurn {

  datatype TurnState = TurnState(active: bool, cancelling: bool, token: nat)

  const NO_TURN := TurnState(false, false, 0)

  predicate CanBegin(t: TurnState) { !t.active }

  function Begin(t: TurnState): TurnState { TurnState(true, false, t.token + 1) }

  predicate CanCancel(t: TurnState) { t.active && !t.cancelling }

  function BeginCancel(t: TurnState): TurnState { t.(cancelling := true) }

  predicate CanFailCancelling(t: TurnState, token: nat) { t.active && t.cancelling && t.token == token }

  function End(t: TurnState): TurnState { t.(active := false, cancelling := false) }
}
