/** What holds in every run of the Codex turn protocol, under every interleaving. */
module CodexTheorems {
  import opened Base
  import opened InputText
  import opened WorkerTurn
  import opened CodexPty
  import opened CodexTrace

  lemma StepKeeps(s: State, e: Event)
    requires Inv(s) && Enabled(s, e)
    ensures Inv(Apply(s, e))
  {
    hide Inv, BeginTurn, SpawnInterrupt, StartTurn, EnterSend, Prepare, AcquireForWrite, CheckLoop, WriteOnce, Attempt, Confirmed;
    hide Unconfirmed, LeaveSend, Judge, FailTurn, StartInterrupt, AcquireForEsc, CheckEsc, WriteEsc, CancelAfterEsc, FailInterrupt;
    hide ExitInterrupt, Admit, CompleteAccepted, CancelActive, SetSend, SetInt, CancelSend, CanBegin, CanRequest, SendCtxDone;
    match e
    case BeginInput(input) => KeepsBegin(s, input);
    case CancelMessage => KeepsSpawn(s);
    case SendStart(i) => KeepsStart(s, i);
    case SendEnter(i) => KeepsEnter(s, i);
    case SendPrepare(i) => KeepsPrepare(s, i);
    case SendAcquire(i) => KeepsAcquire(s, i);
    case SendCheck(i) => KeepsCheck(s, i);
    case SendWrite(i, n, err) => KeepsWrite(s, i, n, err);
    case SendPauseOver(i) => KeepsPauseOver(s, i);
    case SendPauseCancelled(i) => KeepsPauseCancelled(s, i);
    case SendAttempt(i) => KeepsAttempt(s, i);
    case SendConfirmed(i) => KeepsConfirmed(s, i);
    case SendUnconfirmed(i) => KeepsUnconfirmed(s, i);
    case SendLeave(i) => KeepsLeave(s, i);
    case SendJudge(i) => KeepsJudge(s, i);
    case SendFail(i) => KeepsFailTurn(s, i);
    case IntStart(j) => KeepsStartInterrupt(s, j);
    case IntAcquire(j) => KeepsAcquireForEsc(s, j);
    case IntCheck(j) => KeepsCheckEsc(s, j);
    case IntWrite(j, took, err) => KeepsWriteEsc(s, j, took, err);
    case IntCancelSend(j) => KeepsCancelAfterEsc(s, j);
    case IntFail(j) => KeepsFailInterrupt(s, j);
    case IntGiveUp(j) => KeepsGiveUp(s, j);
    case IntExit(j) => KeepsExit(s, j);
    case EventArrives(id) => KeepsAdmit(s, id);
    case EventCompletes => KeepsEvent(s);
    case CancelActiveTurn => KeepsCancelActive(s);
    case CancelRoot => SameProcesses(s, Apply(s, e));
    case CloseAdapter => SameProcesses(s, Apply(s, e));
  }

  lemma InitHolds(started: bool)
    ensures Inv(Init(started))
  {
  }

  lemma {:induction false} RunKeeps(started: bool, trace: seq<Event>, states: seq<State>, k: nat)
    requires Run(started, trace, states) && k <= |trace|
    ensures Inv(states[k])
  {
    hide Inv, Apply, Enabled;
    if k == 0 {
      InitHolds(started);
    } else {
      RunKeeps(started, trace, states, k - 1);
      StepKeeps(states[k - 1], trace[k - 1]);
    }
  }

  // ---- the terminal trace

  /** The inputs of the turns that were begun, in order. */
  function Begun(trace: seq<Event>): seq<Bytes> {
    if trace == [] then []
    else
      var last := trace[|trace| - 1];
      Begun(trace[..|trace| - 1]) + if last.BeginInput? then [last.input] else []
  }

  /** seg is a prefix of the text of the input in paste brackets (ESC [ 2 0 0 ~ and
      ESC [ 2 0 1 ~), then Enters only after all of it and at most three, then at most
      one Esc. */
  ghost predicate IsSegment(input: Bytes, seg: Bytes) {
    exists text: Bytes, paste: Bytes, b: nat, enters: nat, escs: nat ::
      && IsText(input, text)
      && paste == [0x1b, 0x5b, 0x32, 0x30, 0x30, 0x7e] + text + [0x1b, 0x5b, 0x32, 0x30, 0x31, 0x7e]
      && b <= |paste| && enters <= 3 && escs <= 1
      && (enters > 0 ==> b == |paste|)
      && seg == paste[..b] + Repeat(CR, enters) + Repeat(ESC, escs)
  }

  /** pty is one segment for each input, in the order of the inputs. */
  ghost predicate Segmented(inputs: seq<Bytes>, pty: Bytes) {
    if inputs == [] then pty == []
    else exists cut: nat ::
      && cut <= |pty|
      && Segmented(inputs[..|inputs| - 1], pty[..cut])
      && IsSegment(inputs[|inputs| - 1], pty[cut..])
  }

  function Inputs(sends: seq<SendProc>): seq<Bytes> {
    seq(|sends|, i requires 0 <= i < |sends| => sends[i].input)
  }

  lemma {:induction false} RunInputs(started: bool, trace: seq<Event>, states: seq<State>, k: nat)
    requires Run(started, trace, states) && k <= |trace|
    ensures Inputs(states[k].sends) == Begun(trace[..k])
  {
    hide Apply, Enabled;
    if k > 0 {
      RunInputs(started, trace, states, k - 1);
      assert trace[..k][..k - 1] == trace[..k - 1];
      StepInputs(states[k - 1], trace[k - 1]);
    }
  }

  predicate EarlySend(e: Event) {
    e.SendStart? || e.SendEnter? || e.SendPrepare? || e.SendAcquire? || e.SendCheck? || e.SendPauseOver?
  }

  predicate LateSend(e: Event) {
    || e.SendPauseCancelled? || e.SendAttempt? || e.SendConfirmed? || e.SendUnconfirmed?
    || e.SendLeave? || e.SendJudge? || e.SendFail?
  }

  lemma PcChanges(a: seq<SendProc>, b: seq<SendProc>, i: nat)
    requires i < |a| == |b| && b == a[i := a[i].(pc := b[i].pc)]
    ensures SameRecords(a, b)
  {
  }

  lemma EarlySendStep(s: State, e: Event)
    requires Enabled(s, e) && EarlySend(e)
    ensures SameRecords(s.sends, Apply(s, e).sends)
  {
    hide IsBlank, Normalize, Body, HasContext, SendCtxDone, SameRecords;
    PcChanges(s.sends, Apply(s, e).sends, e.i);
  }

  lemma LateSendStep(s: State, e: Event)
    requires Enabled(s, e) && LateSend(e)
    ensures SameRecords(s.sends, Apply(s, e).sends)
  {
    hide Finish, CanFinish, SendCtxDone, TurnCtxDone, CancelRequestedFor, SameRecords;
    PcChanges(s.sends, Apply(s, e).sends, e.i);
  }

  /** Only three kinds of step change what is recorded of a turn. */
  lemma QuietStep(s: State, e: Event)
    requires Enabled(s, e) && !e.BeginInput? && !e.SendWrite? && !e.IntWrite?
    ensures SameRecords(s.sends, Apply(s, e).sends)
  {
    if EarlySend(e) {
      EarlySendStep(s, e);
    } else if LateSend(e) {
      LateSendStep(s, e);
    } else {
      hide Finish, CancelActive, RequestInterrupt, Enabled;
      assert Apply(s, e).sends == s.sends;
    }
  }

  lemma StepInputs(s: State, e: Event)
    requires Enabled(s, e)
    ensures Inputs(Apply(s, e).sends) == Inputs(s.sends) + if e.BeginInput? then [e.input] else []
  {
    hide Apply;
    match e
    case BeginInput(input) => assert Apply(s, e) == BeginTurn(s, input) by { ApplyIs(s, e); }
    case SendWrite(i, n, err) => assert Apply(s, e) == WriteOnce(s, i, n, err) by { ApplyIs(s, e); }
    case IntWrite(j, took, err) => assert Apply(s, e) == WriteEsc(s, j, took, err) by { ApplyIs(s, e); }
    case _ => QuietStep(s, e);
  }

  lemma ApplyIs(s: State, e: Event)
    requires Enabled(s, e)
    ensures e.BeginInput? ==> Apply(s, e) == BeginTurn(s, e.input)
    ensures e.SendWrite? ==> Apply(s, e) == WriteOnce(s, e.i, e.n, e.err)
    ensures e.IntWrite? ==> Apply(s, e) == WriteEsc(s, e.j, e.took, e.err)
  {
  }

  lemma RecordIsSegment(p: SendProc)
    requires SegmentOk(p)
    ensures IsSegment(p.input, SegmentBytes(p))
  {
    TextIsNormalized(p.input, Normalize(p.input));
    hide Normalize, IsText;
    var text, paste := Normalize(p.input), Body(p.input);
    assert SegmentBytes(p) == paste[..p.tally.body] + Repeat(CR, p.tally.enters) + Repeat(ESC, p.tally.escs);
  }

  lemma {:induction false} FlattenSegmented(sends: seq<SendProc>)
    requires forall i :: 0 <= i < |sends| ==> SegmentOk(sends[i])
    ensures Segmented(Inputs(sends), Flatten(sends))
  {
    hide IsSegment, SegmentOk;
    if sends != [] {
      var n := |sends| - 1;
      FlattenSegmented(sends[..n]);
      var p := sends[n];
      var f, cut := Flatten(sends), |Flatten(sends[..n])|;
      assert Inputs(sends)[..n] == Inputs(sends[..n]);
      assert f[..cut] == Flatten(sends[..n]) && f[cut..] == SegmentBytes(p);
      assert IsSegment(p.input, f[cut..]) by { RecordIsSegment(p); }
    }
  }

  /** In every interleaving the terminal has received one segment for each turn
      begun so far, in the order the turns began. */
  lemma PtyTraceIsSegmented(started: bool, trace: seq<Event>, states: seq<State>, k: nat)
    requires Run(started, trace, states) && k <= |trace|
    ensures Segmented(Begun(trace[..k]), states[k].pty)
  {
    hide Flatten, Segmented;
    RunKeeps(started, trace, states, k);
    RunInputs(started, trace, states, k);
    FlattenSegmented(states[k].sends);
  }

  lemma TextHasNoCr(input: Bytes, text: Bytes)
    requires IsText(input, text)
    ensures CR !in text
  {
    TextIsNormalized(input, text);
    NormalizeContract(input);
  }

  lemma PasteCrs(text: Bytes, paste: Bytes, b: nat, enters: nat, escs: nat)
    requires CR !in text && b <= |paste|
    requires paste == [0x1b, 0x5b, 0x32, 0x30, 0x30, 0x7e] + text + [0x1b, 0x5b, 0x32, 0x30, 0x31, 0x7e]
    ensures CR !in paste && Count(paste[..b] + Repeat(CR, enters) + Repeat(ESC, escs), CR) == enters
  {
    assert CR !in paste[..b];
    hide Count;
    CountAbsent(paste[..b], CR);
    CountRepeat(CR, enters);
    CountAbsent(Repeat(ESC, escs), CR);
    CountAppend(paste[..b] + Repeat(CR, enters), Repeat(ESC, escs), CR);
    CountAppend(paste[..b], Repeat(CR, enters), CR);
  }

  lemma SegmentCrs(input: Bytes, seg: Bytes)
    requires IsSegment(input, seg)
    ensures Count(seg, CR) <= 3
  {
    var text: Bytes, paste: Bytes, b: nat, enters: nat, escs: nat :|
      && IsText(input, text)
      && paste == [0x1b, 0x5b, 0x32, 0x30, 0x30, 0x7e] + text + [0x1b, 0x5b, 0x32, 0x30, 0x31, 0x7e]
      && b <= |paste| && enters <= 3 && escs <= 1
      && (enters > 0 ==> b == |paste|)
      && seg == paste[..b] + Repeat(CR, enters) + Repeat(ESC, escs);
    TextHasNoCr(input, text);
    PasteCrs(text, paste, b, enters, escs);
  }

  /** A segment with an Enter holds the whole text of its input, in its brackets, before
      one to three Enters. */
  lemma EnteredSegmentIsWhole(input: Bytes, seg: Bytes) returns (text: Bytes, enters: nat, escs: nat)
    requires IsSegment(input, seg) && CR in seg
    ensures IsText(input, text) && 1 <= enters <= 3 && escs <= 1
    ensures seg == [0x1b, 0x5b, 0x32, 0x30, 0x30, 0x7e] + text + [0x1b, 0x5b, 0x32, 0x30, 0x31, 0x7e]
                   + Repeat(CR, enters) + Repeat(ESC, escs)
  {
    var t: Bytes, paste: Bytes, b: nat, e: nat, x: nat :|
      && IsText(input, t)
      && paste == [0x1b, 0x5b, 0x32, 0x30, 0x30, 0x7e] + t + [0x1b, 0x5b, 0x32, 0x30, 0x31, 0x7e]
      && b <= |paste| && e <= 3 && x <= 1
      && (e > 0 ==> b == |paste|)
      && seg == paste[..b] + Repeat(CR, e) + Repeat(ESC, x);
    hide IsText;
    TextHasNoCr(input, t);
    PasteCrs(t, paste, b, e, x);
    if e == 0 { CountAbsentHere(seg); }
    text, enters, escs := t, e, x;
    assert paste[..b] == paste;
  }

  lemma {:induction false} CountAbsentHere(s: Bytes)
    requires CR in s
    ensures Count(s, CR) > 0
  {
    if s[0] != CR { CountAbsentHere(s[1..]); }
  }

  /** The end of a paste is where the first Enter stands. */
  lemma BracketedTexts(p: Bytes, t: Bytes, q: Bytes, j: nat, x: nat, u: Bytes, k: nat, y: nat)
    requires CR !in p + t + q && CR !in p + u + q && j > 0 && k > 0
    requires p + t + q + Repeat(CR, j) + Repeat(ESC, x) == p + u + q + Repeat(CR, k) + Repeat(ESC, y)
    ensures t == u
  {
    var a, b := p + t + q, p + u + q;
    var w := a + Repeat(CR, j) + Repeat(ESC, x);
    assert w == b + Repeat(CR, k) + Repeat(ESC, y);
    assert w[|a|] == CR && w[|b|] == CR;
    assert forall i :: 0 <= i < |a| ==> w[i] == a[i] && a[i] != CR;
    assert forall i :: 0 <= i < |b| ==> w[i] == b[i] && b[i] != CR;
    assert |a| == |b|;
    assert a == w[..|a|] && b == w[..|b|];
    assert t == a[|p|..|p| + |t|] && u == b[|p|..|p| + |u|];
  }

  /** A submitted segment tells the text of its input: two inputs that could have produced
      it have the same text. */
  lemma SegmentTellsText(x: Bytes, y: Bytes, seg: Bytes)
    requires IsSegment(x, seg) && IsSegment(y, seg) && CR in seg
    ensures Normalize(x) == Normalize(y)
  {
    hide IsSegment, Normalize, IsText;
    var t, j, a := EnteredSegmentIsWhole(x, seg);
    var u, k, b := EnteredSegmentIsWhole(y, seg);
    TextHasNoCr(x, t);
    TextHasNoCr(y, u);
    BracketedTexts([0x1b, 0x5b, 0x32, 0x30, 0x30, 0x7e], t, [0x1b, 0x5b, 0x32, 0x30, 0x31, 0x7e], j, a, u, k, b);
    TextIsNormalized(x, t);
    TextIsNormalized(y, u);
  }

  lemma Slices(s: Bytes, cut: nat, from: nat, to: nat)
    requires from <= to <= cut <= |s|
    ensures s[..cut][..from] == s[..from] && s[..cut][from..to] == s[from..to]
  {
  }

  lemma {:induction false} SegmentOf(inputs: seq<Bytes>, pty: Bytes, i: nat) returns (from: nat, to: nat)
    requires Segmented(inputs, pty) && i < |inputs|
    ensures from <= to <= |pty| && Segmented(inputs[..i], pty[..from]) && IsSegment(inputs[i], pty[from..to])
    decreases |inputs|
  {
    hide IsSegment;
    var n := |inputs| - 1;
    var cut: nat :| cut <= |pty| && Segmented(inputs[..n], pty[..cut]) && IsSegment(inputs[n], pty[cut..]);
    if i == n {
      from, to := cut, |pty|;
      assert pty[from..to] == pty[cut..];
    } else {
      from, to := SegmentOf(inputs[..n], pty[..cut], i);
      assert inputs[..n][..i] == inputs[..i];
      Slices(pty, cut, from, to);
    }
  }

  /** In every run, for every turn begun: its own piece of the terminal trace follows those
      of the turns before it and, once it has an Enter, holds the whole text of the input. */
  lemma SubmittedTextIsWhole(started: bool, trace: seq<Event>, states: seq<State>, k: nat, i: nat)
    returns (from: nat, to: nat, text: Bytes, enters: nat, escs: nat)
    requires Run(started, trace, states) && k <= |trace| && i < |Begun(trace[..k])|
    ensures from <= to <= |states[k].pty| && Segmented(Begun(trace[..k])[..i], states[k].pty[..from])
    ensures CR in states[k].pty[from..to] ==>
      IsText(Begun(trace[..k])[i], text) && 1 <= enters <= 3 && escs <= 1
      && states[k].pty[from..to] ==
           [0x1b, 0x5b, 0x32, 0x30, 0x30, 0x7e] + text + [0x1b, 0x5b, 0x32, 0x30, 0x31, 0x7e]
           + Repeat(CR, enters) + Repeat(ESC, escs)
  {
    hide Segmented, IsSegment, IsText, Run;
    PtyTraceIsSegmented(started, trace, states, k);
    assert |states| == |trace| + 1 by { RunShape(started, trace, states); }
    var inputs, pty := Begun(trace[..k]), states[k].pty;
    from, to := SegmentOf(inputs, pty, i);
    text, enters, escs := [], 0, 0;
    if CR in pty[from..to] { text, enters, escs := EnteredSegmentIsWhole(inputs[i], pty[from..to]); }
  }

  lemma RunShape(started: bool, trace: seq<Event>, states: seq<State>)
    requires Run(started, trace, states)
    ensures |states| == |trace| + 1
  {
  }

  /** A carriage return on the wire is always one of the counted Enters, so no run
      submits more than three times for each turn. */
  lemma {:induction false} SubmissionsBounded(inputs: seq<Bytes>, pty: Bytes)
    requires Segmented(inputs, pty)
    ensures Count(pty, CR) <= 3 * |inputs|
  {
    hide Count, IsSegment;
    if inputs == [] {
      CountAbsent(pty, CR);
    } else {
      var n := |inputs| - 1;
      var cut: nat :| cut <= |pty| && Segmented(inputs[..n], pty[..cut]) && IsSegment(inputs[n], pty[cut..]);
      SubmissionsBounded(inputs[..n], pty[..cut]);
      SegmentCrs(inputs[n], pty[cut..]);
      CountAppend(pty[..cut], pty[cut..], CR);
      assert pty == pty[..cut] + pty[cut..];
    }
  }

  /** A turn's record is sealed by its own Esc and by the beginning of the next
      turn: after either, no further byte is typed for it. */
  lemma StepRespectsSeals(s: State, e: Event, i: nat)
    requires Inv(s) && Enabled(s, e) && i < |s.sends|
    requires i + 1 < s.turn.id || s.sends[i].tally.escs == 1
    ensures i < |Apply(s, e).sends| && Apply(s, e).sends[i].tally == s.sends[i].tally
  {
    hide Inv, Apply, Enabled;
    AtTurn(s);
    if e.SendWrite? { SealedWrite(s, e, i); }
    else if e.IntWrite? { SealedEsc(s, e, i); }
    else if e.BeginInput? { ApplyIs(s, e); }
    else { QuietStep(s, e); }
  }

  lemma SealedWrite(s: State, e: Event, i: nat)
    requires Inv(s) && Enabled(s, e) && e.SendWrite? && i < |s.sends| && s.turn.id == |s.sends|
    requires i + 1 < s.turn.id || s.sends[i].tally.escs == 1
    ensures i < |Apply(s, e).sends| && Apply(s, e).sends[i].tally == s.sends[i].tally
  {
    hide Inv;
    ArmedUntouched(s, e.i);
  }

  lemma SealedEsc(s: State, e: Event, i: nat)
    requires Inv(s) && Enabled(s, e) && e.IntWrite? && i < |s.sends| && s.turn.id == |s.sends|
    requires i + 1 < s.turn.id || s.sends[i].tally.escs == 1
    ensures i < |Apply(s, e).sends| && Apply(s, e).sends[i].tally == s.sends[i].tally
  {
    AtInt(s, e.j);
    FirstEsc(s, e.j);
    hide Inv;
  }

  /** Once a turn's terminal is committed neither paste bytes nor Enters are typed
      for it; only an Esc already on its way may still follow. */
  lemma TypingStopsAtTerminal(s: State, e: Event, i: nat)
    requires Inv(s) && Enabled(s, e) && i < |s.terminals|
    ensures i < |s.sends| && i < |Apply(s, e).sends|
    ensures Apply(s, e).sends[i].tally.body == s.sends[i].tally.body
    ensures Apply(s, e).sends[i].tally.enters == s.sends[i].tally.enters
  {
    hide Inv, Apply, Enabled;
    AtTurn(s);
    if e.SendWrite? { EndedWrite(s, e, i); }
    else if e.IntWrite? || e.BeginInput? { ApplyIs(s, e); }
    else { QuietStep(s, e); }
  }

  lemma EndedWrite(s: State, e: Event, i: nat)
    requires Inv(s) && Enabled(s, e) && e.SendWrite? && i < |s.terminals| && s.turn.id == |s.sends|
    requires |s.terminals| == (if s.turn.inFlight then s.turn.id - 1 else s.turn.id)
    ensures i < |Apply(s, e).sends| && Apply(s, e).sends[i].tally == s.sends[i].tally
  {
    hide Inv;
    ArmedUntouched(s, e.i);
  }

  lemma AtTurn(s: State)
    requires Inv(s)
    ensures |s.sends| == s.turn.id
    ensures |s.terminals| == (if s.turn.inFlight then s.turn.id - 1 else s.turn.id)
  {
  }

  lemma {:induction false} SealsLast(started: bool, trace: seq<Event>, states: seq<State>, k: nat, l: nat, i: nat)
    requires Run(started, trace, states) && k <= l <= |trace| && i < |states[k].sends|
    requires i + 1 < states[k].turn.id || states[k].sends[i].tally.escs == 1
    ensures i < |states[l].sends| && states[l].sends[i].tally == states[k].sends[i].tally
    ensures i + 1 < states[l].turn.id || states[l].sends[i].tally.escs == 1
    decreases l
  {
    hide Inv, Apply, Enabled;
    if k < l {
      SealsLast(started, trace, states, k, l - 1, i);
      RunKeeps(started, trace, states, l - 1);
      StepRespectsSeals(states[l - 1], trace[l - 1], i);
      TurnGrows(states[l - 1], trace[l - 1]);
    }
  }

  lemma TurnGrows(s: State, e: Event)
    requires Enabled(s, e)
    ensures s.turn.id <= Apply(s, e).turn.id <= s.turn.id + 1
    ensures Apply(s, e).turn.id == s.turn.id + 1 <==> e.BeginInput?
  {
    match e
    case SendPrepare(i) =>
    case SendAcquire(i) =>
    case SendCheck(i) =>
    case SendWrite(i, n, err) =>
    case _ =>
  }

  // ---- interrupts and terminals

  ghost predicate Outstanding(s: State, j: nat) { IntAt(s, j) && Live(s.ints[j]) }

  /** turnInterruptPending holds iff an interrupt goroutine is outstanding; there
      is never more than one, it serves the current turn, and while it is there no
      turn can begin. */
  lemma InterruptsTargetCurrentTurn(started: bool, trace: seq<Event>, states: seq<State>, k: nat)
    requires Run(started, trace, states) && k <= |trace|
    ensures var s := states[k];
      && (s.turn.interruptPending <==> exists j: nat :: Outstanding(s, j))
      && (forall i: nat, j: nat :: Outstanding(s, i) && Outstanding(s, j) ==> i == j)
      && (forall j: nat :: Outstanding(s, j) ==> s.ints[j].turn == s.turn.id && !CanBegin(s.turn))
  {
    RunKeeps(started, trace, states, k);
    var s := states[k];
    if s.turn.interruptPending { assert Outstanding(s, |s.ints| - 1); }
  }

  /** Terminals are committed once for each turn and in turn order: when turn n + 1
      begins, turns 1..n have each had exactly one. */
  lemma OneTerminalPerTurn(started: bool, trace: seq<Event>, states: seq<State>, k: nat)
    requires Run(started, trace, states) && k <= |trace|
    ensures var s := states[k];
      && |s.terminals| == (if s.turn.inFlight then s.turn.id - 1 else s.turn.id)
      && (forall n :: 0 <= n < |s.terminals| ==> s.terminals[n] == n + 1)
  {
    RunKeeps(started, trace, states, k);
  }

  /** An adapter event with no turn, or of a turn that is not the one in flight,
      neither gets past the reader nor, if it got past earlier, ends the turn in
      flight. */
  lemma StaleEventsAreHarmless(started: bool, trace: seq<Event>, states: seq<State>, k: nat)
    requires Run(started, trace, states) && k < |trace|
    ensures var s, s' := states[k], states[k + 1];
      && (forall id :: trace[k] == EventArrives(id) && (id == 0 || id != s.turn.id || !s.turn.inFlight) ==> s' == s)
      && (trace[k].EventCompletes? && s.accepted != Some(s.turn.id) ==>
            s'.turn == s.turn && s'.terminals == s.terminals && s'.pty == s.pty)
  {
    RunKeeps(started, trace, states, k);
  }
}
