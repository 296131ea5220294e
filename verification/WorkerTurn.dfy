/** The worker's turn state: the fields that turnMu guards, and the operations
    each of which is one turnMu critical section. */
module WorkerTurn {
  import opened Base

  /** `ctx` and `cancel` name the turn whose context turnCtx and turnCancel hold;
      `done` is the set of turns whose context has been cancelled. */
  datatype Turn = Turn(
    inFlight: bool,
    id: nat,
    ctx: Option<nat>,
    cancel: Option<nat>,
    cancelRequested: bool,
    interruptPending: bool,
    done: set<nat>)

  const IDLE := Turn(false, 0, None, None, false, false, {})

  // The sections as functions on the guarded fields. A refused operation
  // leaves the fields alone, and its guard says when it is refused.

  predicate CanBegin(t: Turn) { !t.inFlight && !t.interruptPending }

  function Begin(t: Turn): Turn {
    Turn(true, t.id + 1, Some(t.id + 1), Some(t.id + 1), false, t.interruptPending, t.done)
  }

  predicate HasContext(t: Turn, id: nat) { t.inFlight && t.id == id && t.ctx.Some? }

  predicate CanRequest(t: Turn) { t.inFlight && !t.cancelRequested }

  function Fire(t: Turn): set<nat> { if t.cancel.Some? then t.done + {t.cancel.value} else t.done }

  function RequestInterrupt(t: Turn): Turn {
    t.(cancelRequested := true, done := Fire(t), interruptPending := true)
  }

  predicate CancelRequestedFor(t: Turn, id: nat) { t.inFlight && t.id == id && t.cancelRequested }

  predicate ShouldInterrupt(t: Turn, id: nat) { CancelRequestedFor(t, id) && t.interruptPending }

  function FinishInterrupt(t: Turn, id: nat): Turn {
    if t.id == id then t.(interruptPending := false) else t
  }

  predicate CanFinish(t: Turn, id: nat) { t.inFlight && (id == 0 || id == t.id) }

  /** cancelTurnLocked */
  function CancelActive(t: Turn): Turn {
    t.(done := Fire(t), cancel := None, ctx := None)
  }

  function Finish(t: Turn): Turn {
    CancelActive(t).(inFlight := false, cancelRequested := false)
  }

  /** What every section keeps: both context fields name the current turn or are
      cleared together, and the current turn's context is cancelled exactly when the
      turn is over, cancelled by the user or cleared by shutdown. */
  ghost predicate Consistent(t: Turn) {
    && t.ctx == t.cancel
    && (t.ctx.Some? ==> t.ctx.value == t.id && t.inFlight)
    && (t.inFlight ==> t.id >= 1)
    && (forall k :: k in t.done ==> 1 <= k <= t.id)
    && (forall k :: 1 <= k < t.id ==> k in t.done)
    && (t.id >= 1 ==> (t.id in t.done <==> !t.inFlight || t.cancelRequested || t.ctx.None?))
  }

  /** Every section keeps the fields consistent, never revives a cancelled
      context, and only Begin moves the turn number, by one. */
  lemma SectionsKeepConsistent(t: Turn, id: nat)
    requires Consistent(t)
    ensures CanBegin(t) ==> Consistent(Begin(t)) && HasContext(Begin(t), t.id + 1) && t.id + 1 !in Begin(t).done
    ensures CanRequest(t) ==> Consistent(RequestInterrupt(t)) && t.id in RequestInterrupt(t).done
    ensures Consistent(FinishInterrupt(t, id))
    ensures Consistent(CancelActive(t)) && (t.id >= 1 ==> t.id in CancelActive(t).done)
    ensures CanFinish(t, id) ==> Consistent(Finish(t)) && t.id in Finish(t).done && !HasContext(Finish(t), t.id)
    ensures forall t' :: t' in {Begin(t), RequestInterrupt(t), FinishInterrupt(t, id), CancelActive(t), Finish(t)}
                         ==> t.done <= t'.done && t.id <= t'.id
  {
  }

  /** The worker's own form: fields changed under turnMu. For a CLI other than
      Codex no turn is tracked and every operation passes. */
  class TurnGate {
    const codex: bool
    var turnInFlight: bool
    var turnID: nat
    var turnCtx: Option<nat>
    var turnCancel: Option<nat>
    var turnCancelRequested: bool
    var turnInterruptPending: bool
    var cancelledContexts: set<nat>

    ghost function Fields(): Turn
      reads this
    {
      Turn(turnInFlight, turnID, turnCtx, turnCancel, turnCancelRequested, turnInterruptPending, cancelledContexts)
    }

    constructor (codex: bool)
      ensures this.codex == codex && Fields() == IDLE
    {
      this.codex := codex;
      turnInFlight, turnID, turnCtx, turnCancel := false, 0, None, None;
      turnCancelRequested, turnInterruptPending, cancelledContexts := false, false, {};
    }

    method BeginTurnWithID() returns (id: nat, ok: bool)
      requires Consistent(Fields())
      modifies this
      ensures Consistent(Fields())
      ensures ok == (!codex || (!old(turnInFlight) && !old(turnInterruptPending)))
      ensures Fields() == if codex && ok then Begin(old(Fields())) else old(Fields())
      ensures codex && ok ==> id == old(turnID) + 1 && id !in cancelledContexts
      ensures codex && ok ==> Fields() == Turn(true, id, Some(id), Some(id), false, false, old(cancelledContexts))
      ensures !codex || !ok ==> id == 0
    {
      if !codex { return 0, true; }
      if turnInFlight || turnInterruptPending { return 0, false; }
      turnInFlight := true;
      turnID := turnID + 1;
      turnCtx, turnCancel := Some(turnID), Some(turnID);
      turnCancelRequested := false;
      return turnID, true;
    }

    method TurnContextForID(id: nat) returns (ok: bool)
      ensures ok == (!codex || (turnInFlight && turnID == id && turnCtx.Some?))
    {
      if !codex { return true; }
      if !turnInFlight || turnID != id || turnCtx == None { return false; }
      return true;
    }

    method RequestTurnInterrupt() returns (id: nat, ok: bool)
      requires Consistent(Fields())
      modifies this
      ensures Consistent(Fields())
      ensures ok == (codex && old(turnInFlight) && !old(turnCancelRequested))
      ensures Fields() == if ok then RequestInterrupt(old(Fields())) else old(Fields())
      ensures ok ==> id == turnID == old(turnID) && id in cancelledContexts && cancelledContexts <= old(cancelledContexts) + {id}
      ensures ok ==> turnInFlight && turnCancelRequested && turnInterruptPending && turnCtx == old(turnCtx)
    {
      if !codex { return 0, false; }
      if !turnInFlight || turnCancelRequested { return 0, false; }
      turnCancelRequested := true;
      if turnCancel.Some? { cancelledContexts := cancelledContexts + {turnCancel.value}; }
      turnInterruptPending := true;
      return turnID, true;
    }

    method ShouldInterruptTurn(id: nat) returns (ok: bool)
      ensures ok == (codex && turnInFlight && turnID == id && turnCancelRequested && turnInterruptPending)
    {
      if !codex { return false; }
      return turnInFlight && turnID == id && turnCancelRequested && turnInterruptPending;
    }

    method FinishTurnInterrupt(id: nat)
      modifies this
      ensures Fields() == if codex then FinishInterrupt(old(Fields()), id) else old(Fields())
      ensures turnInterruptPending == (old(turnInterruptPending) && !(codex && turnID == id))
    {
      if !codex { return; }
      if turnID == id { turnInterruptPending := false; }
    }

    method FinishTurnWithID(id: nat) returns (ok: bool)
      requires Consistent(Fields())
      modifies this
      ensures Consistent(Fields())
      ensures ok == (!codex || (old(turnInFlight) && (id == 0 || id == old(turnID))))
      ensures Fields() == if codex && ok then Finish(old(Fields())) else old(Fields())
      ensures codex && ok ==>
        Fields() == Turn(false, old(turnID), None, None, false, old(turnInterruptPending), old(cancelledContexts) + {old(turnID)})
    {
      if !codex { return true; }
      if !turnInFlight || (id != 0 && id != turnID) { return false; }
      turnInFlight := false;
      CancelTurnLocked();
      turnCancelRequested := false;
      return true;
    }

    method CancelTurnLocked()
      modifies this
      ensures Fields() == old(CancelActive(Fields())) && turnCtx.None? && turnCancel.None?
      ensures cancelledContexts ==
        old(cancelledContexts) + if old(turnCancel).Some? then {old(turnCancel).value} else {}
    {
      if turnCancel.Some? {
        cancelledContexts := cancelledContexts + {turnCancel.value};
        turnCancel := None;
      }
      turnCtx := None;
    }
  }
}
