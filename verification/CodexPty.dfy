/** Who may write to the Codex terminal, and when. The worker's turn goroutines
    and interrupt goroutines share one PTY through the adapter; every mutex
    section and every Write call is one step, and any enabled step may come next. */
module CodexPty {
  import opened Base
  import opened InputText
  import opened WorkerTurn

  const PASTE_START: Bytes := [0x1b, 0x5b, 0x32, 0x30, 0x30, 0x7e]
  const PASTE_END: Bytes := [0x1b, 0x5b, 0x32, 0x30, 0x31, 0x7e]
  const MAX_ENTERS := 3

  /** The bracketed paste that Send types for an input. */
  function Body(input: Bytes): Bytes { PASTE_START + Normalize(input) + PASTE_END }

  datatype Outcome = Sent | Quiet | Failed

  /** Where handleInput is. `attempt` 0 is the paste body, 1..3 an Enter; `rest`
      is what writeAll has still to write of it. */
  datatype SendPc =
    | Spawned
    | WantTurnLock
    | Entered
    | WantWrite(rest: Bytes, attempt: nat)
    | Looping(rest: Bytes, attempt: nat)
    | Armed(rest: Bytes, attempt: nat)
    | Pausing
    | AttemptHead(attempt: nat)
    | Confirming(attempt: nat)
    | Leaving(outcome: Outcome)
    | Returned(outcome: Outcome)
    | Failing
    | SendDone

  /** Where interruptTurn is. */
  datatype IntPc = IntSpawned | WantSendLock | IntLooping | IntArmed | EscWritten | IntFailing | IntExiting | IntDone

  datatype IntProc = IntProc(turn: nat, pc: IntPc)

  datatype Writer = Nobody | Sender(i: nat) | Interrupter(j: nat)

  /** What the terminal has accepted on behalf of one turn: this many bytes of
      its body, this many Enters, this many Escs. */
  datatype Tally = Tally(body: nat, enters: nat, escs: nat)

  datatype SendProc = SendProc(input: Bytes, pc: SendPc, tally: Tally)

  datatype State = State(
    started: bool,
    turn: Turn,
    rootCancelled: bool,
    sends: seq<SendProc>,      // sends[i] serves turn i + 1
    ints: seq<IntProc>,
    watched: set<nat>,         // turns whose transcript watcher has been started
    accepted: Option<nat>,     // turn of the event readAdapterEvents has let through
    sendTurnMu: Option<nat>,
    sendMu: Writer,
    activeSend: Option<nat>,
    sendCancelled: set<nat>,
    closed: bool,
    pty: Bytes,                // everything the terminal has accepted, in order
    terminals: seq<nat>)       // turns whose terminal was committed, in order

  function Init(started: bool): State {
    State(started, IDLE, false, [], [], {}, None, None, Nobody, None, {}, false, [], [])
  }

  datatype Event =
    | BeginInput(input: Bytes)
    | CancelMessage
    | SendStart(i: nat)
    | SendEnter(i: nat)
    | SendPrepare(i: nat)
    | SendAcquire(i: nat)
    | SendCheck(i: nat)
    | SendWrite(i: nat, n: nat, err: bool)
    | SendPauseOver(i: nat)
    | SendPauseCancelled(i: nat)
    | SendAttempt(i: nat)
    | SendConfirmed(i: nat)
    | SendUnconfirmed(i: nat)
    | SendLeave(i: nat)
    | SendJudge(i: nat)
    | SendFail(i: nat)
    | IntStart(j: nat)
    | IntAcquire(j: nat)
    | IntCheck(j: nat)
    | IntWrite(j: nat, took: bool, err: bool)
    | IntCancelSend(j: nat)
    | IntFail(j: nat)
    | IntGiveUp(j: nat)
    | IntExit(j: nat)
    | EventArrives(id: nat)
    | EventCompletes
    | CancelActiveTurn
    | CancelRoot
    | CloseAdapter

  /** turnCtx.Err() != nil for turn i + 1 */
  predicate TurnCtxDone(s: State, i: nat) { s.rootCancelled || i + 1 in s.turn.done }

  /** sendCtx.Err() != nil */
  predicate SendCtxDone(s: State, i: nat) { TurnCtxDone(s, i) || i in s.sendCancelled }

  function SetSend(s: State, i: nat, pc: SendPc): State
    requires i < |s.sends|
  {
    s.(sends := s.sends[i := s.sends[i].(pc := pc)])
  }

  function SetInt(s: State, j: nat, pc: IntPc): State
    requires j < |s.ints|
  {
    s.(ints := s.ints[j := s.ints[j].(pc := pc)])
  }

  /** completeTurn: the terminal counts only if finishTurnWithID accepts the ID. */
  function Complete(s: State, id: nat): State {
    if CanFinish(s.turn, id) then s.(turn := Finish(s.turn), terminals := s.terminals + [s.turn.id]) else s
  }

  // ---- the turn goroutine: handleInput and Send

  predicate SendAt(s: State, i: nat) { i < |s.sends| }

  function StartTurn(s: State, i: nat): State
    requires SendAt(s, i)
  {
    SetSend(s, i, if HasContext(s.turn, i + 1) then WantTurnLock else SendDone)
  }

  function EnterSend(s: State, i: nat): State
    requires SendAt(s, i)
  {
    SetSend(s, i, Entered).(sendTurnMu := Some(i))
  }

  function Prepare(s: State, i: nat): State
    requires SendAt(s, i)
  {
    if s.closed then SetSend(s, i, Leaving(Failed))
    else if IsBlank(Normalize(s.sends[i].input)) then SetSend(s, i, Leaving(Quiet))
    else SetSend(s, i, WantWrite(Body(s.sends[i].input), 0)).(activeSend := Some(i))
  }

  /** Taking sendMu in writeCodexInput and finding the terminal open, or not. */
  function AcquireForWrite(s: State, i: nat): State
    requires SendAt(s, i) && s.sends[i].pc.WantWrite?
  {
    var pc := s.sends[i].pc;
    if s.closed || !s.started then SetSend(s, i, Leaving(Failed))
    else SetSend(s, i, Looping(pc.rest, pc.attempt)).(sendMu := Sender(i))
  }

  /** The head of writeAll's loop: finished, cancelled, or about to call Write. */
  function CheckLoop(s: State, i: nat): State
    requires SendAt(s, i) && s.sends[i].pc.Looping?
  {
    var pc := s.sends[i].pc;
    if pc.rest == [] then
      SetSend(s, i, if pc.attempt == 0 then Pausing else Confirming(pc.attempt)).(sendMu := Nobody)
    else if SendCtxDone(s, i) then SetSend(s, i, Leaving(Failed)).(sendMu := Nobody)
    else SetSend(s, i, Armed(pc.rest, pc.attempt))
  }

  /** Write takes the first n bytes, and may report an error as well. */
  function Took(s: State, i: nat, n: nat): State
    requires SendAt(s, i) && s.sends[i].pc.Armed? && n <= |s.sends[i].pc.rest|
  {
    var p := s.sends[i];
    var t := if p.pc.attempt == 0 then p.tally.(body := p.tally.body + n) else p.tally.(enters := p.tally.enters + n);
    s.(pty := s.pty + p.pc.rest[..n], sends := s.sends[i := SendProc(p.input, Looping(p.pc.rest[n..], p.pc.attempt), t)])
  }

  function WriteOnce(s: State, i: nat, n: nat, err: bool): State
    requires SendAt(s, i) && s.sends[i].pc.Armed? && n <= |s.sends[i].pc.rest|
  {
    var w := Took(s, i, n);
    if err || n == 0 then SetSend(w, i, Leaving(Failed)).(sendMu := Nobody) else w
  }

  function Attempt(s: State, i: nat): State
    requires SendAt(s, i) && s.sends[i].pc.AttemptHead?
  {
    if SendCtxDone(s, i) then SetSend(s, i, Leaving(Failed)) else SetSend(s, i, WantWrite([CR], s.sends[i].pc.attempt))
  }

  function Confirmed(s: State, i: nat): State
    requires SendAt(s, i)
  {
    SetSend(s, i, Leaving(Sent)).(watched := if s.started then s.watched + {i + 1} else s.watched)
  }

  function Unconfirmed(s: State, i: nat): State
    requires SendAt(s, i) && s.sends[i].pc.Confirming?
  {
    var a := s.sends[i].pc.attempt;
    if SendCtxDone(s, i) || a >= MAX_ENTERS then SetSend(s, i, Leaving(Failed)) else SetSend(s, i, AttemptHead(a + 1))
  }

  function LeaveSend(s: State, i: nat): State
    requires SendAt(s, i) && s.sends[i].pc.Leaving?
  {
    SetSend(s, i, Returned(s.sends[i].pc.outcome)).(
      sendTurnMu := None,
      sendCancelled := s.sendCancelled + {i},
      activeSend := if s.activeSend == Some(i) then None else s.activeSend)
  }

  function Judge(s: State, i: nat): State
    requires SendAt(s, i) && s.sends[i].pc.Returned?
  {
    SetSend(s, i, if !s.sends[i].pc.outcome.Failed? || TurnCtxDone(s, i) || CancelRequestedFor(s.turn, i + 1)
                  then SendDone else Failing)
  }

  function FailTurn(s: State, i: nat): State
    requires SendAt(s, i)
  {
    Complete(SetSend(s, i, SendDone), i + 1)
  }

  // ---- the interrupt goroutine: interruptTurn and Interrupt

  predicate IntAt(s: State, j: nat) { j < |s.ints| }

  function StartInterrupt(s: State, j: nat): State
    requires IntAt(s, j)
  {
    SetInt(s, j, if ShouldInterrupt(s.turn, s.ints[j].turn) then WantSendLock else IntExiting)
  }

  function AcquireForEsc(s: State, j: nat): State
    requires IntAt(s, j)
  {
    if s.closed || !s.started then SetInt(s, j, IntFailing) else SetInt(s, j, IntLooping).(sendMu := Interrupter(j))
  }

  function CheckEsc(s: State, j: nat): State
    requires IntAt(s, j)
  {
    if s.rootCancelled then SetInt(s, j, IntExiting).(sendMu := Nobody) else SetInt(s, j, IntArmed)
  }

  function CountEsc(sends: seq<SendProc>, turn: nat): seq<SendProc> {
    if 1 <= turn <= |sends| then
      var p := sends[turn - 1];
      sends[turn - 1 := p.(tally := p.tally.(escs := p.tally.escs + 1))]
    else sends
  }

  function WriteEsc(s: State, j: nat, took: bool, err: bool): State
    requires IntAt(s, j)
  {
    var w := if took then s.(pty := s.pty + [ESC], sends := CountEsc(s.sends, s.ints[j].turn)) else s;
    if took && !err then SetInt(w, j, EscWritten) else SetInt(w, j, IntFailing).(sendMu := Nobody)
  }

  function CancelSend(s: State): set<nat> {
    if s.activeSend.Some? then s.sendCancelled + {s.activeSend.value} else s.sendCancelled
  }

  function CancelAfterEsc(s: State, j: nat): State
    requires IntAt(s, j)
  {
    SetInt(s, j, IntExiting).(sendMu := Nobody, sendCancelled := CancelSend(s))
  }

  function FailInterrupt(s: State, j: nat): State
    requires IntAt(s, j)
  {
    Complete(SetInt(s, j, IntExiting), s.ints[j].turn)
  }

  function ExitInterrupt(s: State, j: nat): State
    requires IntAt(s, j)
  {
    SetInt(s, j, IntDone).(turn := FinishInterrupt(s.turn, s.ints[j].turn))
  }

  // ---- the message reader, the event reader and shutdown

  function BeginTurn(s: State, input: Bytes): State {
    s.(turn := Begin(s.turn), sends := s.sends + [SendProc(input, Spawned, Tally(0, 0, 0))])
  }

  function SpawnInterrupt(s: State): State {
    s.(turn := RequestInterrupt(s.turn), ints := s.ints + [IntProc(s.turn.id, IntSpawned)])
  }

  function Admit(s: State, id: nat): State {
    if id != 0 && HasContext(s.turn, id) then s.(accepted := Some(id)) else s
  }

  function CompleteAccepted(s: State): State
    requires s.accepted.Some?
  {
    Complete(s, s.accepted.value).(accepted := None)
  }

  predicate Enabled(s: State, e: Event) {
    match e
    case BeginInput(_) => CanBegin(s.turn)
    case CancelMessage => CanRequest(s.turn)
    case SendStart(i) => SendAt(s, i) && s.sends[i].pc.Spawned?
    case SendEnter(i) => SendAt(s, i) && s.sends[i].pc.WantTurnLock? && s.sendTurnMu.None?
    case SendPrepare(i) => SendAt(s, i) && s.sends[i].pc.Entered?
    case SendAcquire(i) => SendAt(s, i) && s.sends[i].pc.WantWrite? && s.sendMu.Nobody?
    case SendCheck(i) => SendAt(s, i) && s.sends[i].pc.Looping?
    case SendWrite(i, n, _) => SendAt(s, i) && s.sends[i].pc.Armed? && n <= |s.sends[i].pc.rest|
    case SendPauseOver(i) => SendAt(s, i) && s.sends[i].pc.Pausing?
    case SendPauseCancelled(i) => SendAt(s, i) && s.sends[i].pc.Pausing? && SendCtxDone(s, i)
    case SendAttempt(i) => SendAt(s, i) && s.sends[i].pc.AttemptHead?
    case SendConfirmed(i) => SendAt(s, i) && s.sends[i].pc.Confirming?
    case SendUnconfirmed(i) => SendAt(s, i) && s.sends[i].pc.Confirming?
    case SendLeave(i) => SendAt(s, i) && s.sends[i].pc.Leaving?
    case SendJudge(i) => SendAt(s, i) && s.sends[i].pc.Returned?
    case SendFail(i) => SendAt(s, i) && s.sends[i].pc.Failing?
    case IntStart(j) => IntAt(s, j) && s.ints[j].pc.IntSpawned?
    case IntAcquire(j) => IntAt(s, j) && s.ints[j].pc.WantSendLock? && s.sendMu.Nobody?
    case IntCheck(j) => IntAt(s, j) && s.ints[j].pc.IntLooping?
    case IntWrite(j, _, _) => IntAt(s, j) && s.ints[j].pc.IntArmed?
    case IntCancelSend(j) => IntAt(s, j) && s.ints[j].pc.EscWritten?
    case IntFail(j) => IntAt(s, j) && s.ints[j].pc.IntFailing?
    case IntGiveUp(j) => IntAt(s, j) && s.ints[j].pc.IntFailing? && s.rootCancelled
    case IntExit(j) => IntAt(s, j) && s.ints[j].pc.IntExiting?
    case EventArrives(id) => s.accepted.None? && (id == 0 || id in s.watched)
    case EventCompletes => s.accepted.Some?
    case CancelActiveTurn => true
    case CancelRoot => true
    case CloseAdapter => true
  }

  function Apply(s: State, e: Event): State
    requires Enabled(s, e)
  {
    match e
    case BeginInput(input) => BeginTurn(s, input)
    case CancelMessage => SpawnInterrupt(s)
    case SendStart(i) => StartTurn(s, i)
    case SendEnter(i) => EnterSend(s, i)
    case SendPrepare(i) => Prepare(s, i)
    case SendAcquire(i) => AcquireForWrite(s, i)
    case SendCheck(i) => CheckLoop(s, i)
    case SendWrite(i, n, err) => WriteOnce(s, i, n, err)
    case SendPauseOver(i) => SetSend(s, i, AttemptHead(1))
    case SendPauseCancelled(i) => SetSend(s, i, Leaving(Failed))
    case SendAttempt(i) => Attempt(s, i)
    case SendConfirmed(i) => Confirmed(s, i)
    case SendUnconfirmed(i) => Unconfirmed(s, i)
    case SendLeave(i) => LeaveSend(s, i)
    case SendJudge(i) => Judge(s, i)
    case SendFail(i) => FailTurn(s, i)
    case IntStart(j) => StartInterrupt(s, j)
    case IntAcquire(j) => AcquireForEsc(s, j)
    case IntCheck(j) => CheckEsc(s, j)
    case IntWrite(j, took, err) => WriteEsc(s, j, took, err)
    case IntCancelSend(j) => CancelAfterEsc(s, j)
    case IntFail(j) => FailInterrupt(s, j)
    case IntGiveUp(j) => SetInt(s, j, IntExiting)
    case IntExit(j) => ExitInterrupt(s, j)
    case EventArrives(id) => Admit(s, id)
    case EventCompletes => CompleteAccepted(s)
    case CancelActiveTurn => s.(turn := CancelActive(s.turn))
    case CancelRoot => s.(rootCancelled := true)
    case CloseAdapter => s.(closed := true, sendCancelled := CancelSend(s))
  }

  /** Reachable states: after any sequence of enabled events. */
  ghost predicate Run(started: bool, trace: seq<Event>, states: seq<State>) {
    && |states| == |trace| + 1
    && states[0] == Init(started)
    && (forall k :: 0 <= k < |trace| ==> Enabled(states[k], trace[k]) && states[k + 1] == Apply(states[k], trace[k]))
  }
}
