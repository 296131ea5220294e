/** What becomes of a Codex turn whose goroutines have ended: whether anything is left
    that can end the turn, for which inputs and which timings. */
module CodexOutcomes {
  import opened Base
  import opened InputText
  import opened WorkerTurn
  import opened CodexPty
  import opened CodexTrace
  import opened CodexTheorems

  /** The context of the turn is cancelled, or its transcript has a watcher. */
  predicate Excused(s: State, i: nat) { s.rootCancelled || i + 1 in s.turn.done || i + 1 in s.watched }

  predicate BlankTurn(s: State, i: nat)
    requires SendAt(s, i)
  {
    IsBlank(Normalize(s.sends[i].input))
  }

  predicate OutcomeFits(s: State, i: nat, o: Outcome)
    requires SendAt(s, i)
  {
    (o.Quiet? ==> BlankTurn(s, i)) && (o.Sent? ==> i + 1 in s.watched)
  }

  predicate Fits(s: State, i: nat)
    requires SendAt(s, i)
  {
    match s.sends[i].pc
    case Looping(_, _) => s.started
    case Armed(_, _) => s.started
    case Confirming(_) => s.started
    case Leaving(o) => OutcomeFits(s, i, o)
    case Returned(o) => OutcomeFits(s, i, o)
    case SendDone => Excused(s, i) || BlankTurn(s, i)
    case _ => true
  }

  predicate Later(s: State, s': State) {
    && s.turn.done <= s'.turn.done && s.watched <= s'.watched && (s.rootCancelled ==> s'.rootCancelled)
    && s'.started == s.started
  }

  lemma FitsKept(s: State, s': State, i: nat)
    requires SendAt(s, i) && SendAt(s', i) && Later(s, s') && Fits(s, i)
    requires s'.sends[i].pc == s.sends[i].pc && s'.sends[i].input == s.sends[i].input
    ensures Fits(s', i)
  {
    hide IsBlank, Normalize;
  }

  lemma EarlyLater(s: State, e: Event)
    requires Enabled(s, e) && EarlySend(e)
    ensures Later(s, Apply(s, e))
  {
    hide IsBlank, Normalize, Body;
  }

  lemma LateLater(s: State, e: Event)
    requires Enabled(s, e) && (LateSend(e) || e.SendWrite?)
    ensures Later(s, Apply(s, e))
  {
    hide SendCtxDone, TurnCtxDone;
  }

  lemma OtherLater(s: State, e: Event)
    requires Enabled(s, e) && !EarlySend(e) && !LateSend(e) && !e.SendWrite?
    ensures Later(s, Apply(s, e))
  {
    hide CancelSend, CountEsc, ShouldInterrupt, CanBegin, CanRequest;
  }

  lemma StepLater(s: State, e: Event)
    requires Enabled(s, e)
    ensures Later(s, Apply(s, e))
  {
    hide Later, Enabled, Apply;
    if EarlySend(e) { EarlyLater(s, e); }
    else if LateSend(e) || e.SendWrite? { LateLater(s, e); }
    else { OtherLater(s, e); }
  }

  /** A step of another goroutine. */
  lemma OthersFit(s: State, e: Event, i: nat)
    requires Enabled(s, e) && SendAt(s, i) && SendAt(Apply(s, e), i) && Fits(s, i)
    requires !((EarlySend(e) || LateSend(e) || e.SendWrite?) && e.i == i)
    ensures Fits(Apply(s, e), i)
  {
    StepLater(s, e);
    hide Fits, Later, IsBlank, Normalize, Body;
    SamePlace(s, e, i);
    FitsKept(s, Apply(s, e), i);
  }

  /** Goroutine i is where it was, has typed no more, and no watcher was started for it. */
  predicate SamePc(s: State, s': State, i: nat) {
    && SendAt(s, i) && SendAt(s', i) && s'.sends[i].pc == s.sends[i].pc && s'.sends[i].input == s.sends[i].input
    && s'.sends[i].tally.body == s.sends[i].tally.body && s'.sends[i].tally.enters == s.sends[i].tally.enters
    && (i + 1 in s'.watched ==> i + 1 in s.watched)
  }

  lemma EarlyElsewhere(s: State, e: Event, i: nat)
    requires Enabled(s, e) && SendAt(s, i) && EarlySend(e) && e.i != i
    ensures SamePc(s, Apply(s, e), i)
  {
    hide IsBlank, Normalize, Body;
  }

  lemma LateElsewhere(s: State, e: Event, i: nat)
    requires Enabled(s, e) && SendAt(s, i) && (LateSend(e) || e.SendWrite?) && e.i != i
    ensures SamePc(s, Apply(s, e), i)
  {
    hide Finish, CanFinish, SendCtxDone, TurnCtxDone, CancelRequestedFor;
  }

  lemma OtherEvent(s: State, e: Event, i: nat)
    requires Enabled(s, e) && SendAt(s, i) && !EarlySend(e) && !LateSend(e) && !e.SendWrite?
    ensures SamePc(s, Apply(s, e), i)
  {
    hide Finish, CancelActive, RequestInterrupt, FinishInterrupt, CancelSend, ShouldInterrupt;
  }

  lemma SamePlace(s: State, e: Event, i: nat)
    requires Enabled(s, e) && SendAt(s, i)
    requires !((EarlySend(e) || LateSend(e) || e.SendWrite?) && e.i == i)
    ensures SamePc(s, Apply(s, e), i)
  {
    hide SamePc, Enabled, Apply;
    if EarlySend(e) { EarlyElsewhere(s, e, i); }
    else if LateSend(e) || e.SendWrite? { LateElsewhere(s, e, i); }
    else { OtherEvent(s, e, i); }
  }

  lemma EarlyFits(s: State, e: Event)
    requires Enabled(s, e) && EarlySend(e) && Fits(s, e.i) && Consistent(s.turn) && |s.sends| == s.turn.id
    ensures SendAt(Apply(s, e), e.i) && Fits(Apply(s, e), e.i)
  {
    hide IsBlank, Normalize, Body;
  }

  lemma WriteFits(s: State, e: Event)
    requires Enabled(s, e) && e.SendWrite? && Fits(s, e.i)
    ensures SendAt(Apply(s, e), e.i) && Fits(Apply(s, e), e.i)
  {
    hide IsBlank, Normalize, Body;
  }

  lemma LateFits(s: State, e: Event)
    requires Enabled(s, e) && LateSend(e) && Fits(s, e.i) && Consistent(s.turn) && |s.sends| == s.turn.id
    ensures SendAt(Apply(s, e), e.i) && Fits(Apply(s, e), e.i)
  {
    if e.SendJudge? || e.SendFail? { EndFits(s, e); }
    else { hide IsBlank, Normalize, Body, Finish, CanFinish, Consistent; }
  }

  lemma EndFits(s: State, e: Event)
    requires Enabled(s, e) && (e.SendJudge? || e.SendFail?) && Fits(s, e.i) && Consistent(s.turn) && |s.sends| == s.turn.id
    ensures SendAt(Apply(s, e), e.i) && Fits(Apply(s, e), e.i)
  {
    hide IsBlank, Normalize, Body;
  }

  ghost predicate AllFit(s: State) { forall i :: 0 <= i < |s.sends| ==> Fits(s, i) }

  lemma AtTurns(s: State)
    requires Inv(s)
    ensures Consistent(s.turn) && |s.sends| == s.turn.id
  {
  }

  lemma StepFits(s: State, e: Event, i: nat)
    requires Inv(s) && AllFit(s) && Enabled(s, e) && SendAt(Apply(s, e), i)
    ensures Fits(Apply(s, e), i)
  {
    AtTurns(s);
    if SendAt(s, i) {
      hide Inv, Apply, Fits;
      if EarlySend(e) && e.i == i { EarlyFits(s, e); }
      else if LateSend(e) && e.i == i { LateFits(s, e); }
      else if e.SendWrite? && e.i == i { WriteFits(s, e); }
      else { OthersFit(s, e, i); }
    } else {
      hide Inv, AllFit;
      NewTurnFits(s, e, i);
    }
  }

  lemma NewTurnFits(s: State, e: Event, i: nat)
    requires Enabled(s, e) && !SendAt(s, i) && SendAt(Apply(s, e), i)
    ensures Fits(Apply(s, e), i)
  {
    hide Fits, IsBlank, Normalize, Body, Finish, CancelActive, RequestInterrupt;
    StepInputs(s, e);
    assert |Inputs(Apply(s, e).sends)| == |Apply(s, e).sends| && |Inputs(s.sends)| == |s.sends|;
    if e.BeginInput? { SpawnedFits(Apply(s, e), i); }
  }

  lemma SpawnedFits(s: State, i: nat)
    requires SendAt(s, i) && s.sends[i].pc.Spawned?
    ensures Fits(s, i)
  {
  }

  lemma {:induction false} RunFits(started: bool, trace: seq<Event>, states: seq<State>, k: nat)
    requires Run(started, trace, states) && k <= |trace|
    ensures AllFit(states[k])
  {
    hide Inv, Apply, Enabled, Fits;
    if k > 0 {
      RunFits(started, trace, states, k - 1);
      RunKeeps(started, trace, states, k - 1);
      forall i | 0 <= i < |states[k].sends| ensures Fits(states[k], i) {
        StepFits(states[k - 1], trace[k - 1], i);
      }
    }
  }

  // ---- blank input

  predicate QuietPc(pc: SendPc) {
    pc.Spawned? || pc.WantTurnLock? || pc.Entered? || pc.SendDone? || pc.Failing?
    || ((pc.Leaving? || pc.Returned?) && !pc.outcome.Sent?)
  }

  predicate BlankFits(s: State, i: nat)
    requires SendAt(s, i)
  {
    BlankTurn(s, i) ==>
      QuietPc(s.sends[i].pc) && s.sends[i].tally.body == 0 && s.sends[i].tally.enters == 0 && i + 1 !in s.watched
  }

  lemma EarlyBlank(s: State, e: Event)
    requires Enabled(s, e) && (EarlySend(e) || e.SendWrite?) && BlankFits(s, e.i)
    ensures SendAt(Apply(s, e), e.i) && BlankFits(Apply(s, e), e.i)
  {
    hide IsBlank, Normalize, Body, SendCtxDone, HasContext;
    if BlankTurn(s, e.i) {
      assert e.SendStart? || e.SendEnter? || e.SendPrepare?;
    } else {
      EarlyInput(s, e);
    }
  }

  lemma EarlyInput(s: State, e: Event)
    requires Enabled(s, e) && (EarlySend(e) || e.SendWrite?)
    ensures SendAt(Apply(s, e), e.i) && Apply(s, e).sends[e.i].input == s.sends[e.i].input
  {
    hide IsBlank, Normalize, Body, SendCtxDone, HasContext;
  }

  lemma LateBlank(s: State, e: Event)
    requires Enabled(s, e) && LateSend(e) && BlankFits(s, e.i)
    ensures SendAt(Apply(s, e), e.i) && BlankFits(Apply(s, e), e.i)
  {
    hide IsBlank, Normalize, Body, Finish, SendCtxDone, TurnCtxDone, CancelRequestedFor;
  }

  lemma SameBlank(s: State, s': State, i: nat)
    requires SamePc(s, s', i) && BlankFits(s, i)
    ensures BlankFits(s', i)
  {
    hide IsBlank, Normalize;
  }

  lemma StepBlank(s: State, e: Event, i: nat)
    requires Inv(s) && Enabled(s, e) && (SendAt(s, i) ==> BlankFits(s, i)) && SendAt(Apply(s, e), i)
    ensures BlankFits(Apply(s, e), i)
  {
    if SendAt(s, i) {
      hide Inv, Apply, BlankFits, SamePc;
      if (EarlySend(e) || e.SendWrite?) && e.i == i { EarlyBlank(s, e); }
      else if LateSend(e) && e.i == i { LateBlank(s, e); }
      else { SamePlace(s, e, i); SameBlank(s, Apply(s, e), i); }
    } else {
      NewBlank(s, e, i);
    }
  }

  lemma NewBlank(s: State, e: Event, i: nat)
    requires Inv(s) && Enabled(s, e) && !SendAt(s, i) && SendAt(Apply(s, e), i)
    ensures BlankFits(Apply(s, e), i)
  {
    WatchedAreSent(s);
    hide Inv, IsBlank, Normalize, Body, Finish, CancelActive, RequestInterrupt;
    StepInputs(s, e);
    assert |Inputs(Apply(s, e).sends)| == |Apply(s, e).sends| && |Inputs(s.sends)| == |s.sends|;
    if e.BeginInput? { assert Apply(s, e) == BeginTurn(s, e.input); }
  }

  lemma WatchedAreSent(s: State)
    requires Inv(s)
    ensures forall t :: t in s.watched ==> 1 <= t <= |s.sends| && SentAlready(s.sends[t - 1].pc)
    ensures s.accepted.Some? ==> s.accepted.value in s.watched
  {
  }

  /** In every run a blank input types neither paste bytes nor an Enter, and its turn is
      never watched. */
  lemma {:induction false} BlankTurnsAreNeverWatched(started: bool, trace: seq<Event>, states: seq<State>, k: nat, i: nat)
    requires Run(started, trace, states) && k <= |trace| && SendAt(states[k], i)
    ensures BlankFits(states[k], i)
  {
    hide Inv, Apply, Enabled, BlankFits;
    if k > 0 {
      if SendAt(states[k - 1], i) { BlankTurnsAreNeverWatched(started, trace, states, k - 1, i); }
      RunKeeps(started, trace, states, k - 1);
      StepBlank(states[k - 1], trace[k - 1], i);
    }
  }

  /** A watcher is there exactly when Send has returned with a session. */
  lemma WatchedMeansSent(started: bool, trace: seq<Event>, states: seq<State>, k: nat, i: nat)
    requires Run(started, trace, states) && k <= |trace| && SendAt(states[k], i)
    requires states[k].sends[i].pc.Leaving? || states[k].sends[i].pc.Returned?
    ensures i + 1 in states[k].watched <==> states[k].sends[i].pc.outcome.Sent?
  {
    RunKeeps(started, trace, states, k);
    RunFits(started, trace, states, k);
    WatchedAreSent(states[k]);
    hide Inv, Apply, Enabled;
    assert Fits(states[k], i);
  }

  // ---- continuations

  ghost predicate Leads(s: State, trace: seq<Event>, t: State)
    decreases |trace|
  {
    if trace == [] then s == t else Enabled(s, trace[0]) && Leads(Apply(s, trace[0]), trace[1..], t)
  }

  predicate NoCancel(trace: seq<Event>) { forall k :: 0 <= k < |trace| ==> !trace[k].CancelMessage? }

  /** Some continuation, with or without further cancel messages, commits a terminal for
      turn i + 1. */
  ghost predicate CanEnd(s: State, i: nat, cancels: bool) {
    exists trace, t :: Leads(s, trace, t) && (cancels || NoCancel(trace)) && i < |t.terminals|
  }

  lemma LeadsStep(s: State, e: Event, trace: seq<Event>, t: State)
    requires Enabled(s, e) && Leads(Apply(s, e), trace, t)
    ensures Leads(s, [e] + trace, t)
  {
    hide Apply, Enabled;
    assert ([e] + trace)[1..] == trace;
  }

  lemma {:induction false} LeadsThen(s: State, a: seq<Event>, t: State, b: seq<Event>, u: State)
    requires Leads(s, a, t) && Leads(t, b, u)
    ensures Leads(s, a + b, u)
    decreases |a|
  {
    hide Apply, Enabled;
    if a == [] {
      assert a + b == b;
    } else {
      LeadsThen(Apply(s, a[0]), a[1..], t, b, u);
      assert (a + b)[1..] == a[1..] + b;
    }
  }

  lemma LeadsThree(s: State, e1: Event, e2: Event, e3: Event) returns (trace: seq<Event>, t: State)
    requires Enabled(s, e1) && Enabled(Apply(s, e1), e2) && Enabled(Apply(Apply(s, e1), e2), e3)
    ensures t == Apply(Apply(Apply(s, e1), e2), e3) && Leads(s, trace, t) && trace == [e1, e2, e3]
  {
    hide Apply, Enabled;
    var s1 := Apply(s, e1);
    var s2 := Apply(s1, e2);
    t := Apply(s2, e3);
    assert Leads(t, [], t);
    LeadsStep(s2, e3, [], t);
    LeadsStep(s1, e2, [e3] + [], t);
    LeadsStep(s, e1, [e2] + ([e3] + []), t);
    trace := [e1] + ([e2] + ([e3] + []));
  }

  /** A continuation of the initial state is a run. */
  lemma {:induction false} RunFrom(s: State, trace: seq<Event>, t: State) returns (states: seq<State>)
    requires Leads(s, trace, t)
    ensures |states| == |trace| + 1 && states[0] == s && states[|trace|] == t
    ensures forall k :: 0 <= k < |trace| ==> Enabled(states[k], trace[k]) && states[k + 1] == Apply(states[k], trace[k])
    decreases |trace|
  {
    hide Apply, Enabled;
    if trace == [] {
      states := [s];
    } else {
      var rest := RunFrom(Apply(s, trace[0]), trace[1..], t);
      states := [s] + rest;
      forall k | 0 <= k < |trace| ensures Enabled(states[k], trace[k]) && states[k + 1] == Apply(states[k], trace[k]) {
        if k > 0 { assert trace[k] == trace[1..][k - 1] && states[k] == rest[k - 1]; }
      }
    }
  }

  lemma EndsNow(s: State, i: nat, cancels: bool)
    requires i < |s.terminals|
    ensures CanEnd(s, i, cancels)
  {
    assert Leads(s, [], s);
  }

  lemma EndsAfter(s: State, e: Event, i: nat, cancels: bool)
    requires Enabled(s, e) && CanEnd(Apply(s, e), i, cancels) && (cancels || !e.CancelMessage?)
    ensures CanEnd(s, i, cancels)
  {
    hide Apply, Enabled, Leads;
    var trace, t :| Leads(Apply(s, e), trace, t) && (cancels || NoCancel(trace)) && i < |t.terminals|;
    LeadsStep(s, e, trace, t);
  }

  // ---- a turn whose goroutines have ended

  /** Turn i + 1 is in flight, its Send has returned and been judged, and no interrupt
      goroutine is outstanding. */
  predicate Settled(s: State, i: nat) {
    && SendAt(s, i) && i + 1 == s.turn.id && s.turn.inFlight && s.sends[i].pc.SendDone?
    && !s.turn.interruptPending
  }

  /** When both goroutines of a turn have ended, the turn has its terminal or is settled
      in flight. */
  lemma EndedOrSettled(started: bool, trace: seq<Event>, states: seq<State>, k: nat, i: nat)
    requires Run(started, trace, states) && k <= |trace| && SendAt(states[k], i) && states[k].sends[i].pc.SendDone?
    requires forall j: nat :: Outstanding(states[k], j) ==> states[k].ints[j].turn != i + 1
    ensures Settled(states[k], i) <==> !(i < |states[k].terminals|)
  {
    RunKeeps(started, trace, states, k);
    InterruptsTargetCurrentTurn(started, trace, states, k);
  }

  /** The end of the turn may still be reported: its watcher's events pass, or one has. */
  predicate Watching(s: State, i: nat) {
    s.accepted == Some(i + 1) || (i + 1 in s.watched && s.turn.ctx.Some?)
  }

  predicate ShuttingDown(s: State) { s.rootCancelled || s.turn.ctx.None? }

  lemma AtSettled(s: State, i: nat)
    requires Inv(s) && Settled(s, i)
    ensures |s.terminals| == i && Consistent(s.turn)
    ensures forall j :: 0 <= j < |s.ints| ==> s.ints[j].pc.IntDone?
    ensures s.accepted.Some? ==> s.accepted.value >= 1 && s.accepted.value in s.watched
    ensures s.sendMu.Nobody? || (s.sendMu.Sender? && SendAt(s, s.sendMu.i) && HoldsSendLock(s.sends[s.sendMu.i].pc))
    ensures s.sendMu.Sender? ==> !s.sends[s.sendMu.i].pc.Armed? && s.sendMu.i != i && s.sendMu.i < i
  {
  }

  lemma SendStepSettled(s: State, e: Event, i: nat)
    requires Inv(s) && Settled(s, i) && !Watching(s, i) && Enabled(s, e) && (EarlySend(e) || LateSend(e) || e.SendWrite?)
    ensures Settled(Apply(s, e), i) && !Watching(Apply(s, e), i)
    ensures Apply(s, e).terminals == s.terminals && Apply(s, e).turn == s.turn
  {
    hide Inv;
    assert e.i != i;
    SamePlace(s, e, i);
    if LateSend(e) { LateSameTurn(s, e); } else { EarlySameTurn(s, e); }
  }

  predicate SameTurn(s: State, s': State) {
    s'.terminals == s.terminals && s'.turn == s.turn && s'.accepted == s.accepted
  }

  lemma EarlySameTurn(s: State, e: Event)
    requires Enabled(s, e) && (EarlySend(e) || e.SendWrite?)
    ensures SameTurn(s, Apply(s, e))
  {
    hide IsBlank, Normalize, Body, SendCtxDone, TurnCtxDone;
  }

  lemma LateSameTurn(s: State, e: Event)
    requires Enabled(s, e) && LateSend(e) && e.i + 1 != s.turn.id
    ensures SameTurn(s, Apply(s, e))
  {
    hide SendCtxDone, TurnCtxDone, Finish;
  }

  lemma OtherStepSettled(s: State, e: Event, i: nat)
    requires Inv(s) && Settled(s, i) && !Watching(s, i) && Enabled(s, e) && !e.CancelMessage?
    requires !EarlySend(e) && !LateSend(e) && !e.SendWrite?
    ensures Settled(Apply(s, e), i) && !Watching(Apply(s, e), i)
    ensures Apply(s, e).terminals == s.terminals && Apply(s, e).turn.cancelRequested == s.turn.cancelRequested
  {
    AtSettled(s, i);
    hide Inv, IsBlank, Normalize, Body, Consistent, CancelSend, CountEsc, Fire;
  }

  lemma StepSettled(s: State, e: Event, i: nat)
    requires Inv(s) && Settled(s, i) && !Watching(s, i) && Enabled(s, e)
    requires e.CancelMessage? ==> s.turn.cancelRequested
    ensures Settled(Apply(s, e), i) && !Watching(Apply(s, e), i)
    ensures Apply(s, e).terminals == s.terminals && Apply(s, e).turn.cancelRequested == s.turn.cancelRequested
  {
    hide Inv, Settled, Watching, Apply;
    if EarlySend(e) || LateSend(e) || e.SendWrite? { SendStepSettled(s, e, i); }
    else { OtherStepSettled(s, e, i); }
  }

  /** A settled turn that nothing watches stays in flight through every continuation
      without a cancel message, and through every continuation at all once it has been
      cancelled: no terminal is committed and no further input is accepted. */
  lemma {:induction false} NeverEnds(s: State, i: nat, trace: seq<Event>, t: State)
    requires Inv(s) && Settled(s, i) && !Watching(s, i) && Leads(s, trace, t)
    requires NoCancel(trace) || s.turn.cancelRequested
    ensures Settled(t, i) && !CanBegin(t.turn) && t.terminals == s.terminals
    decreases |trace|
  {
    if trace != [] {
      hide Inv, Apply, Settled, Watching;
      var s' := Apply(s, trace[0]);
      StepSettled(s, trace[0], i);
      StepKeeps(s, trace[0]);
      NeverEnds(s', i, trace[1..], t);
    }
  }

  /** What is watched can still end. */
  lemma WatchedEnds(s: State, i: nat)
    requires Inv(s) && Settled(s, i) && Watching(s, i)
    ensures CanEnd(s, i, false)
  {
    AtSettled(s, i);
    hide Inv, CanEnd;
    if s.accepted == Some(i + 1) {
      AcceptedEnds(s, i);
    } else if s.accepted.None? {
      EndsArriving(s, i);
    } else {
      var s1 := Apply(s, EventCompletes);
      assert s1 == s.(accepted := None);
      EndsArriving(s1, i);
      EndsAfter(s, EventCompletes, i, false);
    }
  }

  lemma AcceptedEnds(s: State, i: nat)
    requires s.accepted == Some(i + 1) && s.turn.inFlight && s.turn.id == i + 1 && |s.terminals| == i
    ensures CanEnd(s, i, false)
  {
    hide CanEnd;
    EndsNow(Apply(s, EventCompletes), i, false);
    EndsAfter(s, EventCompletes, i, false);
  }

  lemma EndsArriving(s: State, i: nat)
    requires s.accepted.None? && i + 1 in s.watched && HasContext(s.turn, i + 1) && |s.terminals| == i
    ensures CanEnd(s, i, false)
  {
    hide CanEnd;
    AcceptedEnds(Apply(s, EventArrives(i + 1)), i);
    EndsAfter(s, EventArrives(i + 1), i, false);
  }

  // ---- a cancellation whose Esc cannot be written

  /** Interrupt goroutine j serves the turn in flight, which has no terminal yet. */
  predicate Serves(s: State, j: nat, i: nat) {
    IntAt(s, j) && s.ints[j].turn == i + 1 == s.turn.id && s.turn.inFlight && |s.terminals| == i
  }

  lemma FailingEnds(s: State, j: nat, i: nat)
    requires Serves(s, j, i) && s.ints[j].pc.IntFailing?
    ensures CanEnd(s, i, true)
  {
    hide CanEnd;
    EndsNow(Apply(s, IntFail(j)), i, true);
    EndsAfter(s, IntFail(j), i, true);
  }

  lemma LoopingEnds(s: State, j: nat, i: nat)
    requires Serves(s, j, i) && s.ints[j].pc.IntLooping? && !s.rootCancelled
    ensures CanEnd(s, i, true)
  {
    hide CanEnd;
    var s1 := Apply(s, IntCheck(j));
    FailingEnds(Apply(s1, IntWrite(j, false, true)), j, i);
    EndsAfter(s1, IntWrite(j, false, true), i, true);
    EndsAfter(s, IntCheck(j), i, true);
  }

  lemma WantingEnds(s: State, j: nat, i: nat)
    requires Serves(s, j, i) && s.ints[j].pc.WantSendLock? && s.sendMu.Nobody? && !s.rootCancelled
    ensures CanEnd(s, i, true)
  {
    hide CanEnd;
    var s1 := Apply(s, IntAcquire(j));
    if s.closed || !s.started { FailingEnds(s1, j, i); } else { LoopingEnds(s1, j, i); }
    EndsAfter(s, IntAcquire(j), i, true);
  }

  lemma CancelEnds(s: State, i: nat)
    requires CanRequest(s.turn) && s.turn.id == i + 1 && |s.terminals| == i && s.sendMu.Nobody? && !s.rootCancelled
    ensures CanEnd(s, i, true)
  {
    hide CanEnd;
    var j := |s.ints|;
    var s1 := Apply(s, CancelMessage);
    WantingEnds(Apply(s1, IntStart(j)), j, i);
    EndsAfter(s1, IntStart(j), i, true);
    EndsAfter(s, CancelMessage, i, true);
  }

  /** The goroutine of an older turn that still holds the terminal gives it back. */
  lemma CancellationEnds(s: State, i: nat)
    requires Inv(s) && Settled(s, i) && !s.turn.cancelRequested && !s.rootCancelled
    ensures CanEnd(s, i, true)
  {
    AtSettled(s, i);
    hide Inv, CanEnd;
    if s.sendMu.Nobody? {
      CancelEnds(s, i);
    } else {
      var k := s.sendMu.i;
      assert k + 1 in s.turn.done;
      var s1 := Apply(s, SendCheck(k));
      CancelEnds(s1, i);
      EndsAfter(s, SendCheck(k), i, true);
    }
  }

  // ---- the exact conditions

  /** In every run, when both goroutines of a turn in flight have ended: something other
      than a new cancellation can end the turn iff its transcript is being watched. */
  lemma TurnCanEndIffWatched(started: bool, trace: seq<Event>, states: seq<State>, k: nat, i: nat)
    requires Run(started, trace, states) && k <= |trace| && Settled(states[k], i)
    ensures CanEnd(states[k], i, false) <==> Watching(states[k], i)
  {
    hide Apply, Enabled, CanEnd, Settled, Watching;
    RunKeeps(started, trace, states, k);
    hide Inv;
    var s := states[k];
    if Watching(s, i) { WatchedEnds(s, i); } else { Unending(s, i, false); }
  }

  lemma Unending(s: State, i: nat, cancels: bool)
    requires Inv(s) && Settled(s, i) && !Watching(s, i) && (cancels ==> s.turn.cancelRequested)
    ensures !CanEnd(s, i, cancels)
  {
    AtSettled(s, i);
    hide Inv, Settled, Watching, Leads;
    forall trace, t | Leads(s, trace, t) && (cancels || NoCancel(trace)) ensures |t.terminals| <= i {
      NeverEnds(s, i, trace, t);
    }
  }

  /** Without a shutdown: anything at all can end such a turn iff it is watched or has
      not yet been cancelled. So a turn cancelled before its Send had succeeded, with the
      Esc taken, is stuck for good. */
  lemma TurnIsStuckIffCancelledUnsent(started: bool, trace: seq<Event>, states: seq<State>, k: nat, i: nat)
    requires Run(started, trace, states) && k <= |trace| && Settled(states[k], i) && !ShuttingDown(states[k])
    ensures CanEnd(states[k], i, true) <==> i + 1 in states[k].watched || !states[k].turn.cancelRequested
  {
    hide Apply, Enabled, CanEnd, Leads;
    RunKeeps(started, trace, states, k);
    var s := states[k];
    AtSettled(s, i);
    hide Inv;
    if i + 1 in s.watched {
      WatchedEnds(s, i);
      MoreCancels(s, i);
    } else if !s.turn.cancelRequested {
      CancellationEnds(s, i);
    } else {
      Unending(s, i, true);
    }
  }

  lemma MoreCancels(s: State, i: nat)
    requires CanEnd(s, i, false)
    ensures CanEnd(s, i, true)
  {
    hide Leads;
  }

  /** Without shutdown and cancellation: a settled turn is left with nothing that can end
      it but a cancellation iff its input is blank. */
  lemma OnlyBlankTurnsNeedCancelling(started: bool, trace: seq<Event>, states: seq<State>, k: nat, i: nat)
    requires Run(started, trace, states) && k <= |trace| && Settled(states[k], i)
    requires !ShuttingDown(states[k]) && !states[k].turn.cancelRequested
    ensures CanEnd(states[k], i, false) <==> !BlankTurn(states[k], i)
  {
    hide Apply, Enabled, CanEnd;
    TurnCanEndIffWatched(started, trace, states, k, i);
    BlankTurnsAreNeverWatched(started, trace, states, k, i);
    RunFits(started, trace, states, k);
    RunKeeps(started, trace, states, k);
    var s := states[k];
    AtSettled(s, i);
    hide Inv;
    assert Fits(s, i);
  }

  // ---- runs in which it happens

  /** The worker with one turn, at rest but for the goroutines given. */
  function Solo(turn: Turn, send: SendProc, ints: seq<IntProc>): State {
    Init(true).(turn := turn, sends := [send], ints := ints)
  }

  function Fresh(input: Bytes, pc: SendPc, escs: nat): SendProc { SendProc(input, pc, Tally(0, 0, escs)) }

  lemma TurnBegins(input: Bytes) returns (trace: seq<Event>, t: State)
    ensures Leads(Init(true), trace, t)
    ensures t == Solo(Begin(IDLE), Fresh(input, Entered, 0), []).(sendTurnMu := Some(0))
    ensures trace == [BeginInput(input), SendStart(0), SendEnter(0)]
  {
    hide Leads;
    var s1 := Apply(Init(true), BeginInput(input));
    assert s1 == Solo(Begin(IDLE), Fresh(input, Spawned, 0), []);
    var s2 := Apply(s1, SendStart(0));
    assert s2 == Solo(Begin(IDLE), Fresh(input, WantTurnLock, 0), []);
    trace, t := LeadsThree(Init(true), BeginInput(input), SendStart(0), SendEnter(0));
    assert t.sends == [Fresh(input, Entered, 0)];
  }

  lemma BlankReturns(s: State, input: Bytes) returns (trace: seq<Event>, t: State)
    requires IsBlank(Normalize(input)) && |s.sends| == 1 && s.sends[0].input == input && s.sends[0].pc.Entered? && !s.closed
    ensures Leads(s, trace, t) && NoCancel(trace)
    ensures t.sends == [s.sends[0].(pc := SendDone)]
    ensures t == s.(sends := t.sends, sendTurnMu := t.sendTurnMu, sendCancelled := t.sendCancelled, activeSend := t.activeSend)
  {
    hide Leads, IsBlank, Normalize;
    var s1 := Apply(s, SendPrepare(0));
    assert s1.sends == [s.sends[0].(pc := Leaving(Quiet))];
    var s2 := Apply(s1, SendLeave(0));
    assert s2.sends == [s.sends[0].(pc := Returned(Quiet))];
    trace, t := LeadsThree(s, SendPrepare(0), SendLeave(0), SendJudge(0));
    assert t.sends == [s.sends[0].(pc := SendDone)];
  }

  /** Every blank input has a run, without any cancellation, to a settled turn that only
      a cancellation can end. */
  lemma BlankTurnStaysOpen(input: Bytes) returns (trace: seq<Event>, states: seq<State>)
    requires IsBlank(Normalize(input))
    ensures Run(true, trace, states) && NoCancel(trace)
    ensures var s := states[|trace|];
      Settled(s, 0) && s.sends[0].input == input && !ShuttingDown(s) && !s.turn.cancelRequested && !CanEnd(s, 0, false)
  {
    hide Leads, IsBlank, Normalize, CanEnd, Apply, Enabled;
    var a, s1 := TurnBegins(input);
    var b, s2 := BlankReturns(s1, input);
    LeadsThen(Init(true), a, s1, b, s2);
    trace := a + b;
    states := RunFrom(Init(true), trace, s2);
    TurnCanEndIffWatched(true, trace, states, |trace|, 0);
  }

  lemma CancelledBegins(input: Bytes) returns (trace: seq<Event>, t: State)
    ensures Leads(Init(true), trace, t)
    ensures t == Solo(RequestInterrupt(Begin(IDLE)), Fresh(input, WantTurnLock, 0), [IntProc(1, IntSpawned)])
  {
    hide Leads;
    var s1 := Apply(Init(true), BeginInput(input));
    assert s1 == Solo(Begin(IDLE), Fresh(input, Spawned, 0), []);
    var s2 := Apply(s1, SendStart(0));
    assert s2 == Solo(Begin(IDLE), Fresh(input, WantTurnLock, 0), []);
    trace, t := LeadsThree(Init(true), BeginInput(input), SendStart(0), CancelMessage);
    assert t.ints == [IntProc(1, IntSpawned)];
  }

  lemma EscApproaches(turn: Turn, send: SendProc) returns (trace: seq<Event>, t: State)
    requires ShouldInterrupt(turn, 1)
    ensures Leads(Solo(turn, send, [IntProc(1, IntSpawned)]), trace, t)
    ensures t == Solo(turn, send, [IntProc(1, IntArmed)]).(sendMu := Interrupter(0))
  {
    hide Leads;
    var s := Solo(turn, send, [IntProc(1, IntSpawned)]);
    var s1 := Apply(s, IntStart(0));
    assert s1.ints == [IntProc(1, WantSendLock)];
    var s2 := Apply(s1, IntAcquire(0));
    assert s2.ints == [IntProc(1, IntLooping)];
    trace, t := LeadsThree(s, IntStart(0), IntAcquire(0), IntCheck(0));
    assert t.ints == [IntProc(1, IntArmed)];
  }

  lemma EscTaken(turn: Turn, input: Bytes) returns (trace: seq<Event>, t: State)
    requires turn.id == 1
    ensures var s := Solo(turn, Fresh(input, WantTurnLock, 0), [IntProc(1, IntArmed)]).(sendMu := Interrupter(0));
      Leads(s, trace, t)
    ensures t == Solo(FinishInterrupt(turn, 1), Fresh(input, WantTurnLock, 1), [IntProc(1, IntDone)]).(pty := [ESC])
  {
    hide Leads;
    var s := Solo(turn, Fresh(input, WantTurnLock, 0), [IntProc(1, IntArmed)]).(sendMu := Interrupter(0));
    var s1 := Apply(s, IntWrite(0, true, false));
    assert s1.ints == [IntProc(1, EscWritten)] && s1.sends == [Fresh(input, WantTurnLock, 1)] && s1.pty == [ESC];
    var s2 := Apply(s1, IntCancelSend(0));
    assert s2.ints == [IntProc(1, IntExiting)];
    trace, t := LeadsThree(s, IntWrite(0, true, false), IntCancelSend(0), IntExit(0));
    assert t.ints == [IntProc(1, IntDone)];
  }

  /** A Send that starts after its turn was cancelled types nothing and returns an error
      that is not reported. */
  lemma CancelledReturns(s: State) returns (trace: seq<Event>, t: State)
    requires |s.sends| == 1 && s.sends[0].pc.WantTurnLock? && s.sendTurnMu.None? && s.sendMu.Nobody?
    requires !s.closed && s.started && !IsBlank(Normalize(s.sends[0].input)) && 1 in s.turn.done
    ensures Leads(s, trace, t)
    ensures t.sends == [s.sends[0].(pc := SendDone)] && t.turn == s.turn && t.ints == s.ints && t.watched == s.watched
    ensures t.rootCancelled == s.rootCancelled && t.terminals == s.terminals && t.pty == s.pty
  {
    hide Leads, IsBlank, Normalize;
    var p := s.sends[0];
    var s1 := Apply(s, SendEnter(0));
    assert s1.sends == [p.(pc := Entered)];
    var s2 := Apply(s1, SendPrepare(0));
    assert s2.sends == [p.(pc := WantWrite(Body(p.input), 0))];
    var a, s3 := LeadsThree(s, SendEnter(0), SendPrepare(0), SendAcquire(0));
    assert s3.sends == [p.(pc := Looping(Body(p.input), 0))];
    var b;
    b, t := CancelledLeaves(s3);
    LeadsThen(s, a, s3, b, t);
    trace := a + b;
  }

  lemma CancelledLeaves(s: State) returns (trace: seq<Event>, t: State)
    requires |s.sends| == 1 && s.sends[0].pc.Looping? && s.sends[0].pc.rest != [] && 1 in s.turn.done
    ensures Leads(s, trace, t)
    ensures t.sends == [s.sends[0].(pc := SendDone)] && t.turn == s.turn && t.ints == s.ints && t.watched == s.watched
    ensures t.rootCancelled == s.rootCancelled && t.terminals == s.terminals && t.pty == s.pty
  {
    hide Leads;
    var p := s.sends[0];
    var s1 := Apply(s, SendCheck(0));
    assert s1.sends == [p.(pc := Leaving(Failed))];
    var s2 := Apply(s1, SendLeave(0));
    assert s2.sends == [p.(pc := Returned(Failed))];
    trace, t := LeadsThree(s, SendCheck(0), SendLeave(0), SendJudge(0));
    assert t.sends == [p.(pc := SendDone)];
  }

  lemma BlankEnters(s: State) returns (trace: seq<Event>, t: State)
    requires |s.sends| == 1 && s.sends[0].pc.WantTurnLock? && s.sendTurnMu.None?
    ensures Leads(s, trace, t) && t == s.(sends := [s.sends[0].(pc := Entered)], sendTurnMu := Some(0))
  {
    t := Apply(s, SendEnter(0));
    assert t.sends == [s.sends[0].(pc := Entered)];
    assert Leads(t, [], t);
    LeadsStep(s, SendEnter(0), [], t);
    trace := [SendEnter(0)] + [];
  }

  /** Every input, blank or not, has a run to a turn that nothing can end any more: its
      cancellation is requested before Send has begun to type, and the Esc is taken. */
  lemma AnyTurnCanBeStuck(input: Bytes) returns (trace: seq<Event>, states: seq<State>)
    ensures Run(true, trace, states)
    ensures var s := states[|trace|];
      && Settled(s, 0) && s.sends[0].input == input && !ShuttingDown(s) && !CanEnd(s, 0, true)
      && s.pty == [ESC] && s.terminals == []
  {
    hide Leads, IsBlank, Normalize, CanEnd, Apply, Enabled;
    var t0 := RequestInterrupt(Begin(IDLE));
    var a, s1 := CancelledBegins(input);
    var b, s2 := EscApproaches(t0, Fresh(input, WantTurnLock, 0));
    var c, s3 := EscTaken(t0, input);
    LeadsThen(Init(true), a, s1, b, s2);
    LeadsThen(Init(true), a + b, s2, c, s3);
    var d, s4;
    if IsBlank(Normalize(input)) {
      var e, s5 := BlankEnters(s3);
      var f;
      f, s4 := BlankReturns(s5, input);
      LeadsThen(s3, e, s5, f, s4);
      d := e + f;
    } else {
      d, s4 := CancelledReturns(s3);
    }
    LeadsThen(Init(true), a + b, s2, c, s3);
    LeadsThen(Init(true), a + b + c, s3, d, s4);
    trace := a + b + c + d;
    states := RunFrom(Init(true), trace, s4);
    TurnIsStuckIffCancelledUnsent(true, trace, states, |trace|, 0);
  }
}
