/** Where a session's turns go over a whole run: every token is committed with one
    terminal, rolled back, or still open. */
module TurnLedger {
  import opened SessionTurn
  import SessionMeta

  /** Complete carries no token, Fail carries the token its watchdog or cancel
      sender was given, Rollback is FinishTurn after a failed send. */
  datatype Event = BeginEvent | CancelEvent | CompleteEvent | FailEvent(token: nat) | RollbackEvent

  /** `committed` and `rolledBack` list the tokens whose turn ended each way. */
  datatype Ledger = Ledger(turn: TurnState, committed: seq<nat>, rolledBack: seq<nat>)

  function Apply(l: Ledger, e: Event): Ledger {
    match e
    case BeginEvent => if CanBegin(l.turn) then l.(turn := Begin(l.turn)) else l
    case CancelEvent => if CanCancel(l.turn) then l.(turn := BeginCancel(l.turn)) else l
    case CompleteEvent => if l.turn.active then Commit(l) else l
    case FailEvent(token) => if CanFailCancelling(l.turn, token) then Commit(l) else l
    case RollbackEvent =>
      l.(turn := End(l.turn), rolledBack := if l.turn.active then l.rolledBack + [l.turn.token] else l.rolledBack)
  }

  function Commit(l: Ledger): Ledger {
    l.(turn := End(l.turn), committed := l.committed + [l.turn.token])
  }

  function Replay(events: seq<Event>): Ledger {
    if events == [] then Ledger(NO_TURN, [], [])
    else Apply(Replay(events[..|events| - 1]), events[|events| - 1])
  }

  predicate Increasing(s: seq<nat>) { forall i, j :: 0 <= i < j < |s| ==> s[i] < s[j] }

  /** How a token's turn stands. */
  predicate Accounted(l: Ledger, token: nat) {
    var open := l.turn.active && token == l.turn.token;
    && (token in l.committed ==> token !in l.rolledBack && !open)
    && (token in l.rolledBack ==> !open)
    && (token in l.committed || token in l.rolledBack || open)
  }

  ghost predicate Balanced(l: Ledger) {
    && l.turn.token == |l.committed| + |l.rolledBack| + (if l.turn.active then 1 else 0)
    && Increasing(l.committed) && Increasing(l.rolledBack)
    && (forall t :: t in l.committed || t in l.rolledBack ==> 1 <= t <= l.turn.token)
    && (forall t: nat {:trigger Accounted(l, t)} :: 1 <= t <= l.turn.token ==> Accounted(l, t))
    && (l.turn.cancelling ==> l.turn.active)
  }

  lemma Below(s: seq<nat>, t: nat)
    requires Increasing(s) && t !in s && forall x :: x in s ==> x <= t
    ensures Increasing(s + [t])
  {
    forall i | 0 <= i < |s| ensures s[i] < t {
      assert s[i] in s;
    }
  }

  lemma StepBalances(l: Ledger, e: Event)
    requires Balanced(l)
    ensures Balanced(Apply(l, e))
  {
    var l' := Apply(l, e);
    var t0 := l.turn.token;
    if l.turn.active {
      assert Accounted(l, t0);
      Below(l.committed, t0);
      Below(l.rolledBack, t0);
    }
    forall t: nat | 1 <= t <= l'.turn.token ensures Accounted(l', t) {
      if t <= t0 { assert Accounted(l, t); }
    }
  }

  /** In every run each token is committed once, rolled back once, or is the turn
      still active; so tokens begun = terminals + rollbacks + the open turn. */
  lemma {:induction false} TokensAreConserved(events: seq<Event>)
    ensures Balanced(Replay(events))
  {
    if events != [] {
      TokensAreConserved(events[..|events| - 1]);
      StepBalances(Replay(events[..|events| - 1]), events[|events| - 1]);
    }
  }

  /** A watchdog or cancel sender that still holds an older token changes nothing,
      however many turns have begun since. */
  lemma {:induction false} OldTokenNeverEndsLaterTurn(events: seq<Event>, more: seq<Event>)
    requires !Replay(events).turn.active
    ensures forall t: nat :: t <= Replay(events).turn.token ==>
              Apply(Replay(events + more), FailEvent(t)) == Replay(events + more)
    ensures Replay(events).turn.token <= Replay(events + more).turn.token
    ensures Replay(events + more).turn.active ==> Replay(events).turn.token < Replay(events + more).turn.token
    decreases |more|
  {
    if more == [] {
      assert events + more == events;
    } else {
      OldTokenNeverEndsLaterTurn(events, more[..|more| - 1]);
      assert (events + more)[..|events + more| - 1] == events + more[..|more| - 1];
    }
  }

  /** What the session's own methods do is what the ledger records: the same turn, and
      a terminal published exactly for each token committed. */
  method Perform<T>(meta: SessionMeta.SessionMeta<T>, e: Event, terminal: T, ghost l: Ledger)
    requires meta.Valid() && meta.Turn() == l.turn
    modifies meta
    ensures meta.Valid() && meta.Turn() == Apply(l, e).turn
    ensures meta.terminalLog == old(meta.terminalLog) + if |Apply(l, e).committed| > |l.committed| then [terminal] else []
    ensures meta.outputLog == old(meta.outputLog)
  {
    match e {
      case BeginEvent => var _ := meta.BeginTurn();
      case CancelEvent => var _, _ := meta.BeginTurnCancel();
      case CompleteEvent => var _ := meta.CompleteTurn(terminal);
      case FailEvent(token) => var _ := meta.FailCancellingTurn(token, terminal);
      case RollbackEvent => meta.FinishTurn();
    }
  }
}
