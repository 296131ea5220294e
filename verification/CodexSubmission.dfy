/** The ordinary course of a Codex turn: typed, submitted, confirmed, reported; and when
    a submission is given up. */
module CodexSubmission {
  import opened Base
  import opened InputText
  import opened WorkerTurn
  import opened CodexPty
  import opened CodexTrace
  import opened CodexTheorems
  import opened CodexOutcomes

  /** The worker at work on one turn. */
  function Working(send: SendProc, mu: Writer, pty: Bytes, watched: set<nat>): State {
    Solo(Begin(IDLE), send, []).(sendTurnMu := Some(0), activeSend := Some(0), sendMu := mu, pty := pty, watched := watched)
  }

  lemma Opens(input: Bytes) returns (trace: seq<Event>, t: State)
    requires !IsBlank(Normalize(input))
    ensures Leads(Solo(Begin(IDLE), Fresh(input, Entered, 0), []).(sendTurnMu := Some(0)), trace, t)
    ensures t == Working(Fresh(input, Armed(Body(input), 0), 0), Sender(0), [], {})
  {
    hide Leads, IsBlank, Normalize;
    var s := Solo(Begin(IDLE), Fresh(input, Entered, 0), []).(sendTurnMu := Some(0));
    var s1 := Apply(s, SendPrepare(0));
    assert s1.sends == [Fresh(input, WantWrite(Body(input), 0), 0)];
    var s2 := Apply(s1, SendAcquire(0));
    assert s2.sends == [Fresh(input, Looping(Body(input), 0), 0)];
    trace, t := LeadsThree(s, SendPrepare(0), SendAcquire(0), SendCheck(0));
    assert t.sends == [Fresh(input, Armed(Body(input), 0), 0)];
  }

  function Typed(input: Bytes, pc: SendPc, enters: nat): SendProc {
    SendProc(input, pc, Tally(|Body(input)|, enters, 0))
  }

  lemma TypesBody(input: Bytes) returns (trace: seq<Event>, t: State)
    ensures Leads(Working(Fresh(input, Armed(Body(input), 0), 0), Sender(0), [], {}), trace, t)
    ensures t == Working(Typed(input, AttemptHead(1), 0), Nobody, Body(input), {})
  {
    hide Leads, Body;
    var b := Body(input);
    var s := Working(Fresh(input, Armed(b, 0), 0), Sender(0), [], {});
    var s1 := Apply(s, SendWrite(0, |b|, false));
    assert b != [] by { BodyNotEmpty(input); }
    assert b[..|b|] == b && b[|b|..] == [] && [] + b == b;
    assert s1.sends == [Typed(input, Looping([], 0), 0)] && s1.pty == b;
    var s2 := Apply(s1, SendCheck(0));
    assert s2.sends == [Typed(input, Pausing, 0)];
    trace, t := LeadsThree(s, SendWrite(0, |b|, false), SendCheck(0), SendPauseOver(0));
    assert t.sends == [Typed(input, AttemptHead(1), 0)];
  }

  lemma BodyNotEmpty(input: Bytes)
    ensures Body(input) != []
  {
  }

  lemma ArmsEnter(input: Bytes) returns (trace: seq<Event>, t: State)
    ensures Leads(Working(Typed(input, AttemptHead(1), 0), Nobody, Body(input), {}), trace, t)
    ensures t == Working(Typed(input, Armed([CR], 1), 0), Sender(0), Body(input), {})
  {
    hide Leads, Body;
    var s := Working(Typed(input, AttemptHead(1), 0), Nobody, Body(input), {});
    var s1 := Apply(s, SendAttempt(0));
    assert s1.sends == [Typed(input, WantWrite([CR], 1), 0)];
    var s2 := Apply(s1, SendAcquire(0));
    assert s2.sends == [Typed(input, Looping([CR], 1), 0)];
    trace, t := LeadsThree(s, SendAttempt(0), SendAcquire(0), SendCheck(0));
    assert t.sends == [Typed(input, Armed([CR], 1), 0)];
  }

  lemma EntersOnce(input: Bytes) returns (trace: seq<Event>, t: State)
    ensures Leads(Working(Typed(input, Armed([CR], 1), 0), Sender(0), Body(input), {}), trace, t)
    ensures t == Working(Typed(input, Leaving(Sent), 1), Nobody, Body(input) + [CR], {1})
  {
    hide Leads, Body;
    var s := Working(Typed(input, Armed([CR], 1), 0), Sender(0), Body(input), {});
    var s1 := Apply(s, SendWrite(0, 1, false));
    assert [CR][..1] == [CR] && [CR][1..] == [];
    assert s1.sends == [Typed(input, Looping([], 1), 1)];
    var s2 := Apply(s1, SendCheck(0));
    assert s2.sends == [Typed(input, Confirming(1), 1)];
    trace, t := LeadsThree(s, SendWrite(0, 1, false), SendCheck(0), SendConfirmed(0));
    assert t.sends == [Typed(input, Leaving(Sent), 1)];
  }

  /** Send has returned and been judged. */
  function Judged(input: Bytes, watched: set<nat>): State {
    Solo(Begin(IDLE), Typed(input, SendDone, 1), []).(pty := Body(input) + [CR], watched := watched, sendCancelled := {0})
  }

  lemma Returns(input: Bytes) returns (trace: seq<Event>, t: State)
    ensures Leads(Working(Typed(input, Leaving(Sent), 1), Nobody, Body(input) + [CR], {1}), trace, t)
    ensures t == Judged(input, {1})
  {
    hide Leads, Body, Finish, CancelRequestedFor;
    var s := Working(Typed(input, Leaving(Sent), 1), Nobody, Body(input) + [CR], {1});
    var s1 := Apply(s, SendLeave(0));
    assert s1.sends == [Typed(input, Returned(Sent), 1)];
    LeadsOne(s, SendLeave(0));
    LeadsOne(s1, SendJudge(0));
    t := Apply(s1, SendJudge(0));
    assert t.sends == [Typed(input, SendDone, 1)];
    LeadsThen(s, [SendLeave(0)], s1, [SendJudge(0)], t);
    trace := [SendLeave(0)] + [SendJudge(0)];
  }

  lemma IsReported(s: State) returns (trace: seq<Event>, t: State)
    requires s.accepted.None? && 1 in s.watched && s.turn == Begin(IDLE) && s.terminals == []
    ensures Leads(s, trace, t) && t.pty == s.pty && t.terminals == [1] && CanBegin(t.turn) && t.turn.id == 1
  {
    hide Leads;
    var s1 := Apply(s, EventArrives(1));
    LeadsOne(s, EventArrives(1));
    LeadsOne(s1, EventCompletes);
    t := Apply(s1, EventCompletes);
    LeadsThen(s, [EventArrives(1)], s1, [EventCompletes], t);
    trace := [EventArrives(1)] + [EventCompletes];
  }

  lemma LeadsOne(s: State, e: Event)
    requires Enabled(s, e)
    ensures Leads(s, [e], Apply(s, e))
  {
    hide Apply, Enabled;
    assert Leads(Apply(s, e), [], Apply(s, e));
    LeadsStep(s, e, [], Apply(s, e));
    assert [e] + [] == [e];
  }

  /** Every input that is not blank has a run in which the terminal receives its text in
      paste brackets and one Enter, and nothing else, the turn gets its terminal, and
      the next input is accepted. */
  lemma EveryInputCanBeSubmitted(input: Bytes) returns (trace: seq<Event>, states: seq<State>, text: Bytes)
    requires !IsBlank(Normalize(input))
    ensures Run(true, trace, states) && Begun(trace) == [input] && IsText(input, text)
    ensures states[|trace|].pty ==
      [0x1b, 0x5b, 0x32, 0x30, 0x30, 0x7e] + text + [0x1b, 0x5b, 0x32, 0x30, 0x31, 0x7e] + [0x0d]
    ensures states[|trace|].terminals == [1] && CanBegin(states[|trace|].turn)
  {
    hide Leads, IsBlank, Normalize, Apply, Enabled;
    var s0 := Init(true);
    var a, s1 := TurnBegins(input);
    var b, s2 := Opens(input);
    LeadsThen(s0, a, s1, b, s2);
    var c, s3 := TypesBody(input);
    LeadsThen(s0, a + b, s2, c, s3);
    var d, s4 := ArmsEnter(input);
    LeadsThen(s0, a + b + c, s3, d, s4);
    var e, s5 := EntersOnce(input);
    LeadsThen(s0, a + b + c + d, s4, e, s5);
    var f, s6 := Returns(input);
    LeadsThen(s0, a + b + c + d + e, s5, f, s6);
    var g, s7 := IsReported(s6);
    LeadsThen(s0, a + b + c + d + e + f, s6, g, s7);
    trace := a + b + c + d + e + f + g;
    states := RunFrom(s0, trace, s7);
    text := Normalize(input);
    TextIsNormalized(input, text);
    assert trace[..|trace|] == trace;
    RunInputs(true, trace, states, |trace|);
    OneInput(true, trace, states, input);
  }

  /** A turn begun at the first step, with one turn in the end, is the only one. */
  lemma OneInput(started: bool, trace: seq<Event>, states: seq<State>, input: Bytes)
    requires Run(started, trace, states) && |trace| > 0 && trace[0] == BeginInput(input) && states[|trace|].turn.id == 1
    ensures Begun(trace) == [input]
  {
    hide Apply, Enabled, Inv;
    RunInputs(started, trace, states, |trace|);
    assert trace[..|trace|] == trace;
    RunKeeps(started, trace, states, |trace|);
    AtTurn(states[|trace|]);
    FirstBegun(trace);
  }

  lemma {:induction false} FirstBegun(trace: seq<Event>)
    requires |trace| > 0 && trace[0].BeginInput?
    ensures Begun(trace) != [] && Begun(trace)[0] == trace[0].input
  {
    if |trace| > 1 { FirstBegun(trace[..|trace| - 1]); }
  }

  /** What an interrupt finds when it starts on an open terminal that nobody writes to. */
  predicate Interruptible(s: State) {
    s.started && !s.closed && !s.rootCancelled && s.turn.inFlight && !s.turn.cancelRequested && s.sendMu.Nobody?
  }

  lemma InterruptArms(s: State) returns (trace: seq<Event>, t: State)
    requires Interruptible(s)
    ensures Leads(s, trace, t) && t == SpawnInterrupt(s).(ints := s.ints + [IntProc(s.turn.id, IntArmed)], sendMu := Interrupter(|s.ints|))
  {
    hide Leads;
    var j := |s.ints|;
    var s1 := Apply(s, CancelMessage);
    var s2 := Apply(s1, IntStart(j));
    assert s2.ints == s.ints + [IntProc(s.turn.id, WantSendLock)];
    var s3 := Apply(s2, IntAcquire(j));
    assert s3.ints == s.ints + [IntProc(s.turn.id, IntLooping)];
    var a, u := LeadsThree(s, CancelMessage, IntStart(j), IntAcquire(j));
    t := Apply(s3, IntCheck(j));
    LeadsOne(s3, IntCheck(j));
    LeadsThen(s, a, s3, [IntCheck(j)], t);
    trace := a + [IntCheck(j)];
    assert t.ints == s.ints + [IntProc(s.turn.id, IntArmed)];
  }

  lemma InterruptTypes(s: State, j: nat) returns (trace: seq<Event>, t: State)
    requires IntAt(s, j) && s.ints[j] == IntProc(s.turn.id, IntArmed)
    ensures Leads(s, trace, t) && t.pty == s.pty + [0x1b] && t.sends == CountEsc(s.sends, s.turn.id)
    ensures t.sendMu.Nobody? && t.sendCancelled == (if s.activeSend.Some? then s.sendCancelled + {s.activeSend.value} else s.sendCancelled)
    ensures t.turn == s.turn.(interruptPending := false) && t.terminals == s.terminals
  {
    hide Leads;
    var s1 := Apply(s, IntWrite(j, true, false));
    assert s1.ints == s.ints[j := IntProc(s.turn.id, EscWritten)];
    var s2 := Apply(s1, IntCancelSend(j));
    assert s2.ints == s.ints[j := IntProc(s.turn.id, IntExiting)];
    trace, t := LeadsThree(s, IntWrite(j, true, false), IntCancelSend(j), IntExit(j));
  }

  /** From every reachable state a turn in flight, not cancelled yet, can be interrupted
      whenever nobody is writing to the open terminal: one Esc is typed, the turn's
      context and its Send are cancelled, and the turn stays open for its terminal. */
  lemma EveryTurnCanBeInterrupted(s: State) returns (trace: seq<Event>, t: State)
    requires Inv(s) && Interruptible(s)
    ensures Leads(s, trace, t) && t.pty == s.pty + [0x1b]
    ensures t.turn.inFlight && t.turn.id == s.turn.id && t.turn.cancelRequested && t.turn.id in t.turn.done
    ensures s.activeSend.Some? ==> s.activeSend.value in t.sendCancelled
    ensures t.sendMu.Nobody? && !t.turn.interruptPending && t.terminals == s.terminals
    ensures 0 < s.turn.id <= |t.sends| && t.sends[s.turn.id - 1].tally.escs == s.sends[s.turn.id - 1].tally.escs + 1
  {
    AtTurn(s);
    RequestCancels(s);
    hide Inv, Leads;
    var a, u := InterruptArms(s);
    var b, v := InterruptTypes(u, |s.ints|);
    LeadsThen(s, a, u, b, v);
    trace, t := a + b, v;
  }

  lemma RequestCancels(s: State)
    requires Inv(s) && s.turn.inFlight
    ensures s.turn.id > 0 && s.turn.id in RequestInterrupt(s.turn).done
  {
    SectionsKeepConsistent(s.turn, s.turn.id);
  }

  /** A Send whose context is live gives up an unconfirmed submission only after its third
      Enter. */
  lemma GivesUpAfterThreeEnters(started: bool, trace: seq<Event>, states: seq<State>, k: nat, i: nat)
    requires Run(started, trace, states) && k < |trace| && trace[k] == SendUnconfirmed(i) && !SendCtxDone(states[k], i)
    ensures SendAt(states[k + 1], i)
    ensures states[k + 1].sends[i].pc.Leaving? <==> states[k].sends[i].tally.enters == 3
  {
    RunKeeps(started, trace, states, k);
    AtProgress(states[k], i);
    hide Inv;
  }

  lemma AtProgress(s: State, i: nat)
    requires Inv(s) && SendAt(s, i)
    ensures Progress(s.sends[i])
  {
  }
}
