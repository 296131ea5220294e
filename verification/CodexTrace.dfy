/** The turn protocol's inductive invariant, and what it gives: the shape of the
    whole terminal trace, the fate of every turn and of every interrupt. */
module CodexTrace {
  import opened Base
  import opened InputText
  import opened WorkerTurn
  import opened CodexPty

  // ---- the bytes of a turn, and of all turns in order

  function SegmentBytes(p: SendProc): Bytes {
    Body(p.input)[..Min(p.tally.body, |Body(p.input)|)] + Repeat(CR, p.tally.enters) + Repeat(ESC, p.tally.escs)
  }

  function Flatten(sends: seq<SendProc>): Bytes {
    if sends == [] then [] else Flatten(sends[..|sends| - 1]) + SegmentBytes(sends[|sends| - 1])
  }

  /** A turn's segment: a prefix of its body, Enters only after the whole body, at
      most three of them, at most one Esc. */
  predicate SegmentOk(p: SendProc) {
    && p.tally.body <= |Body(p.input)|
    && p.tally.enters <= MAX_ENTERS
    && (p.tally.enters > 0 ==> p.tally.body == |Body(p.input)|)
    && p.tally.escs <= 1
  }

  ghost predicate SameRecords(a: seq<SendProc>, b: seq<SendProc>) {
    |a| == |b| && forall i :: 0 <= i < |a| ==> a[i].input == b[i].input && a[i].tally == b[i].tally
  }

  lemma {:induction false} FlattenSame(a: seq<SendProc>, b: seq<SendProc>)
    requires SameRecords(a, b)
    ensures Flatten(a) == Flatten(b)
  {
    if a != [] { FlattenSame(a[..|a| - 1], b[..|b| - 1]); }
  }

  /** Changing the last record only changes the last segment. */
  lemma FlattenLast(a: seq<SendProc>, b: seq<SendProc>, more: Bytes)
    requires |a| == |b| > 0
    requires SameRecords(a[..|a| - 1], b[..|b| - 1])
    requires SegmentBytes(b[|b| - 1]) == SegmentBytes(a[|a| - 1]) + more
    ensures Flatten(b) == Flatten(a) + more
  {
    FlattenSame(a[..|a| - 1], b[..|b| - 1]);
  }

  // ---- the invariant, one aspect at a time

  predicate HoldsSendLock(pc: SendPc) { pc.Looping? || pc.Armed? }

  predicate IntHoldsLock(pc: IntPc) { pc.IntLooping? || pc.IntArmed? || pc.EscWritten? }

  predicate InsideSend(pc: SendPc) {
    pc.Entered? || pc.WantWrite? || pc.Looping? || pc.Armed? || pc.Pausing? || pc.AttemptHead? || pc.Confirming? || pc.Leaving?
  }

  predicate SentAlready(pc: SendPc) {
    pc == Leaving(Sent) || pc == Returned(Sent) || pc == SendDone
  }

  ghost predicate Locks(s: State) {
    && (s.sendMu.Sender? ==> SendAt(s, s.sendMu.i)) && (s.sendMu.Interrupter? ==> IntAt(s, s.sendMu.j))
    && (s.sendTurnMu.Some? ==> SendAt(s, s.sendTurnMu.value))
    && (forall i :: 0 <= i < |s.sends| ==> (HoldsSendLock(s.sends[i].pc) <==> s.sendMu == Sender(i)))
    && (forall j :: 0 <= j < |s.ints| ==> (IntHoldsLock(s.ints[j].pc) <==> s.sendMu == Interrupter(j)))
    && (forall i :: 0 <= i < |s.sends| ==> (InsideSend(s.sends[i].pc) <==> s.sendTurnMu == Some(i)))
  }

  predicate Live(p: IntProc) { !p.pc.IntDone? }

  /** turnInterruptPending says exactly that the newest interrupt goroutine is
      still outstanding, and an outstanding one serves the current turn. */
  ghost predicate Interrupts(s: State) {
    && (forall j :: 0 <= j < |s.ints| ==> 1 <= s.ints[j].turn <= s.turn.id)
    && (forall j, k :: 0 <= j < k < |s.ints| ==> s.ints[j].turn < s.ints[k].turn)
    && (forall j :: 0 <= j < |s.ints| && s.ints[j].turn == s.turn.id ==>
          s.turn.id in s.turn.done && (s.turn.cancelRequested || !s.turn.inFlight))
    && (forall j :: 0 <= j < |s.ints| && Live(s.ints[j]) ==> s.ints[j].turn == s.turn.id && s.turn.interruptPending)
    && (s.turn.interruptPending ==> |s.ints| > 0 && Live(s.ints[|s.ints| - 1]))
  }

  /** A goroutine about to call Write serves the turn in flight, and no interrupt
      of that turn has yet had its chance at the terminal. */
  ghost predicate ArmedFence(s: State) {
    forall i :: 0 <= i < |s.sends| && s.sends[i].pc.Armed? ==>
      && i + 1 == s.turn.id && s.turn.inFlight
      && (forall j :: 0 <= j < |s.ints| && s.ints[j].turn == s.turn.id ==> s.ints[j].pc.IntSpawned? || s.ints[j].pc.WantSendLock?)
  }

  /** Transcript events exist only for turns whose Send has succeeded. */
  ghost predicate Watchers(s: State) {
    && (forall t :: t in s.watched ==> 1 <= t <= |s.sends| && SentAlready(s.sends[t - 1].pc))
    && (s.accepted.Some? ==> s.accepted.value in s.watched)
  }

  ghost predicate Terminals(s: State) {
    && |s.terminals| == (if s.turn.inFlight then s.turn.id - 1 else s.turn.id)
    && (forall k :: 0 <= k < |s.terminals| ==> s.terminals[k] == k + 1)
  }

  /** How far a goroutine has come fixes what its turn has typed. */
  ghost predicate Progress(p: SendProc) {
    var full := |Body(p.input)|;
    match p.pc
    case Spawned => p.tally.body == p.tally.enters == 0
    case WantTurnLock => p.tally.body == p.tally.enters == 0
    case Entered => p.tally.body == p.tally.enters == 0
    case WantWrite(rest, a) => rest != [] && Typing(p, rest, a)
    case Looping(rest, a) => Typing(p, rest, a)
    case Armed(rest, a) => rest != [] && Typing(p, rest, a)
    case Pausing => p.tally.body == full && p.tally.enters == 0
    case AttemptHead(a) => 1 <= a <= MAX_ENTERS && p.tally.body == full && p.tally.enters == a - 1
    case Confirming(a) => 1 <= a <= MAX_ENTERS && p.tally.body == full && p.tally.enters == a
    case _ => true
  }

  predicate Typing(p: SendProc, rest: Bytes, a: nat) {
    if a == 0 then
      p.tally.enters == 0 && p.tally.body <= |Body(p.input)| && rest == Body(p.input)[p.tally.body..]
    else
      && a <= MAX_ENTERS && p.tally.body == |Body(p.input)|
      && (rest == [CR] || rest == [])
      && p.tally.enters == a - |rest|
  }

  predicate MayHaveTyped(pc: IntPc) { pc.EscWritten? || pc.IntFailing? || pc.IntExiting? || pc.IntDone? }

  ghost predicate EscAccounted(s: State) {
    forall i :: 0 <= i < |s.sends| && s.sends[i].tally.escs > 0 ==>
      exists j :: 0 <= j < |s.ints| && s.ints[j].turn == i + 1 && MayHaveTyped(s.ints[j].pc)
  }

  ghost predicate Tallies(s: State) {
    && (forall i :: 0 <= i < |s.sends| ==> SegmentOk(s.sends[i]) && Progress(s.sends[i]))
    && EscAccounted(s)
  }

  ghost predicate Inv(s: State) {
    && Consistent(s.turn) && |s.sends| == s.turn.id
    && Locks(s) && Interrupts(s) && ArmedFence(s) && Watchers(s) && Terminals(s) && Tallies(s)
    && s.pty == Flatten(s.sends)
  }

  ghost predicate NoneArmed(s: State) { forall i :: 0 <= i < |s.sends| ==> !s.sends[i].pc.Armed? }

  // ---- a turn goroutine moves on

  /** s' is s after goroutine i alone moved, whatever it typed. */
  ghost predicate Moved(s: State, s': State, i: nat) {
    && SendAt(s, i) && SendAt(s', i)
    && s'.sends == s.sends[i := SendProc(s.sends[i].input, s'.sends[i].pc, s'.sends[i].tally)]
    && s'.sends[i].tally.escs == s.sends[i].tally.escs
    && s'.turn == s.turn && s'.ints == s.ints && s'.accepted == s.accepted && s'.terminals == s.terminals
  }

  predicate LockMove(s: State, s': State, i: nat)
    requires SendAt(s, i) && SendAt(s', i)
  {
    var pc, pc' := s.sends[i].pc, s'.sends[i].pc;
    && (s'.sendMu == if HoldsSendLock(pc') then Sender(i) else if HoldsSendLock(pc) then Nobody else s.sendMu)
    && (HoldsSendLock(pc') && !HoldsSendLock(pc) ==> s.sendMu == Nobody)
    && (s'.sendTurnMu == if InsideSend(pc') then Some(i) else if InsideSend(pc) then None else s.sendTurnMu)
    && (InsideSend(pc') && !InsideSend(pc) ==> s.sendTurnMu == None)
  }

  lemma MoveLocks(s: State, s': State, i: nat)
    requires Locks(s) && Moved(s, s', i) && LockMove(s, s', i)
    ensures Locks(s')
  {
  }

  lemma MoveTallies(s: State, s': State, i: nat)
    requires Tallies(s) && Moved(s, s', i) && SegmentOk(s'.sends[i]) && Progress(s'.sends[i])
    ensures Tallies(s')
  {
    assert EscAccounted(s');
  }

  lemma MoveWatchers(s: State, s': State, i: nat)
    requires Watchers(s) && Moved(s, s', i)
    requires SentAlready(s.sends[i].pc) ==> SentAlready(s'.sends[i].pc)
    requires s'.watched == s.watched || (s'.watched == s.watched + {i + 1} && SentAlready(s'.sends[i].pc))
    ensures Watchers(s')
  {
  }

  lemma MoveArmed(s: State, s': State, i: nat)
    requires ArmedFence(s) && Interrupts(s) && Moved(s, s', i)
    requires s'.sends[i].pc.Armed? ==> i + 1 == s.turn.id && s.turn.inFlight && s.turn.id !in s.turn.done
    ensures ArmedFence(s')
  {
  }

  lemma MoveKeeps(s: State, s': State, i: nat)
    requires Inv(s) && Moved(s, s', i) && LockMove(s, s', i) && SegmentOk(s'.sends[i]) && Progress(s'.sends[i])
    requires s'.sends[i].pc.Armed? ==> i + 1 == s.turn.id && s.turn.inFlight && s.turn.id !in s.turn.done
    requires SentAlready(s.sends[i].pc) ==> SentAlready(s'.sends[i].pc)
    requires s'.watched == s.watched || (s'.watched == s.watched + {i + 1} && SentAlready(s'.sends[i].pc))
    requires s'.pty == Flatten(s'.sends)
    ensures Inv(s')
  {
    hide Locks, Tallies, Watchers, Progress, SegmentOk, LockMove, Flatten;
    MoveLocks(s, s', i);
    MoveTallies(s, s', i);
    MoveWatchers(s, s', i);
    MoveArmed(s, s', i);
  }

  lemma AtSend(s: State, i: nat)
    requires Inv(s) && SendAt(s, i)
    ensures Progress(s.sends[i]) && SegmentOk(s.sends[i])
    ensures HoldsSendLock(s.sends[i].pc) <==> s.sendMu == Sender(i)
    ensures InsideSend(s.sends[i].pc) <==> s.sendTurnMu == Some(i)
  {
  }

  lemma SilentKeeps(s: State, s': State, i: nat)
    requires Inv(s) && Moved(s, s', i) && LockMove(s, s', i) && Progress(s'.sends[i])
    requires s'.pty == s.pty && s'.sends[i].tally == s.sends[i].tally
    requires s'.sends[i].pc.Armed? ==> i + 1 == s.turn.id && s.turn.inFlight && s.turn.id !in s.turn.done
    requires SentAlready(s.sends[i].pc) ==> SentAlready(s'.sends[i].pc)
    requires s'.watched == s.watched || (s'.watched == s.watched + {i + 1} && SentAlready(s'.sends[i].pc))
    ensures Inv(s')
  {
    hide Locks, Tallies, Watchers, Interrupts, Terminals, ArmedFence, Progress, LockMove;
    AtSend(s, i);
    FlattenSame(s.sends, s'.sends);
    MoveKeeps(s, s', i);
  }

  lemma KeepsStart(s: State, i: nat)
    requires Inv(s) && SendAt(s, i) && s.sends[i].pc.Spawned?
    ensures Inv(StartTurn(s, i))
  {
    hide Locks, Tallies, Watchers, Terminals, Interrupts, ArmedFence, Flatten, Normalize, IsBlank;
    AtSend(s, i);
    SilentKeeps(s, StartTurn(s, i), i);
  }

  lemma KeepsEnter(s: State, i: nat)
    requires Inv(s) && SendAt(s, i) && s.sends[i].pc.WantTurnLock? && s.sendTurnMu.None?
    ensures Inv(EnterSend(s, i))
  {
    hide Locks, Tallies, Watchers, Terminals, Interrupts, ArmedFence, Flatten, Normalize, IsBlank;
    AtSend(s, i);
    SilentKeeps(s, EnterSend(s, i), i);
  }

  lemma KeepsPrepare(s: State, i: nat)
    requires Inv(s) && SendAt(s, i) && s.sends[i].pc.Entered?
    ensures Inv(Prepare(s, i))
  {
    hide Locks, Tallies, Watchers, Terminals, Interrupts, ArmedFence, Flatten, Normalize, IsBlank;
    AtSend(s, i);
    SilentKeeps(s, Prepare(s, i), i);
  }

  lemma KeepsAcquire(s: State, i: nat)
    requires Inv(s) && SendAt(s, i) && s.sends[i].pc.WantWrite? && s.sendMu.Nobody?
    ensures Inv(AcquireForWrite(s, i))
  {
    hide Locks, Tallies, Watchers, Terminals, Interrupts, ArmedFence, Flatten, Normalize, IsBlank;
    AtSend(s, i);
    SilentKeeps(s, AcquireForWrite(s, i), i);
  }

  lemma KeepsCheck(s: State, i: nat)
    requires Inv(s) && SendAt(s, i) && s.sends[i].pc.Looping?
    ensures Inv(CheckLoop(s, i))
  {
    hide Locks, Tallies, Watchers, Terminals, Interrupts, ArmedFence, Flatten, Normalize, IsBlank;
    AtSend(s, i);
    SilentKeeps(s, CheckLoop(s, i), i);
  }

  lemma KeepsPauseOver(s: State, i: nat)
    requires Inv(s) && SendAt(s, i) && s.sends[i].pc.Pausing?
    ensures Inv(SetSend(s, i, AttemptHead(1)))
  {
    hide Locks, Tallies, Watchers, Terminals, Interrupts, ArmedFence, Flatten, Normalize, IsBlank;
    AtSend(s, i);
    SilentKeeps(s, SetSend(s, i, AttemptHead(1)), i);
  }

  lemma KeepsPauseCancelled(s: State, i: nat)
    requires Inv(s) && SendAt(s, i) && s.sends[i].pc.Pausing?
    ensures Inv(SetSend(s, i, Leaving(Failed)))
  {
    hide Locks, Tallies, Watchers, Terminals, Interrupts, ArmedFence, Flatten, Normalize, IsBlank;
    AtSend(s, i);
    SilentKeeps(s, SetSend(s, i, Leaving(Failed)), i);
  }

  lemma KeepsAttempt(s: State, i: nat)
    requires Inv(s) && SendAt(s, i) && s.sends[i].pc.AttemptHead?
    ensures Inv(Attempt(s, i))
  {
    hide Locks, Tallies, Watchers, Terminals, Interrupts, ArmedFence, Flatten, Normalize, IsBlank;
    AtSend(s, i);
    SilentKeeps(s, Attempt(s, i), i);
  }

  lemma KeepsConfirmed(s: State, i: nat)
    requires Inv(s) && SendAt(s, i) && s.sends[i].pc.Confirming?
    ensures Inv(Confirmed(s, i))
  {
    hide Locks, Tallies, Watchers, Terminals, Interrupts, ArmedFence, Flatten, Normalize, IsBlank;
    AtSend(s, i);
    SilentKeeps(s, Confirmed(s, i), i);
  }

  lemma KeepsUnconfirmed(s: State, i: nat)
    requires Inv(s) && SendAt(s, i) && s.sends[i].pc.Confirming?
    ensures Inv(Unconfirmed(s, i))
  {
    hide Locks, Tallies, Watchers, Terminals, Interrupts, ArmedFence, Flatten, Normalize, IsBlank;
    AtSend(s, i);
    SilentKeeps(s, Unconfirmed(s, i), i);
  }

  lemma KeepsLeave(s: State, i: nat)
    requires Inv(s) && SendAt(s, i) && s.sends[i].pc.Leaving?
    ensures Inv(LeaveSend(s, i))
  {
    hide Locks, Tallies, Watchers, Terminals, Interrupts, ArmedFence, Flatten, Normalize, IsBlank;
    AtSend(s, i);
    SilentKeeps(s, LeaveSend(s, i), i);
  }

  lemma KeepsJudge(s: State, i: nat)
    requires Inv(s) && SendAt(s, i) && s.sends[i].pc.Returned?
    ensures Inv(Judge(s, i))
  {
    hide Locks, Tallies, Watchers, Terminals, Interrupts, ArmedFence, Flatten, Normalize, IsBlank;
    AtSend(s, i);
    SilentKeeps(s, Judge(s, i), i);
  }

  /** At the moment of a Write the writer is the newest turn, and no Esc has been
      typed for it. */
  lemma ArmedUntouched(s: State, i: nat)
    requires Inv(s) && SendAt(s, i) && s.sends[i].pc.Armed?
    ensures i == |s.sends| - 1 && s.turn.inFlight && s.sends[i].tally.escs == 0
  {
  }

  /** n more bytes taken: exactly those bytes are appended to the turn's segment. */
  lemma TookSegment(p: SendProc, q: SendProc, n: nat)
    requires p.pc.Armed? && SegmentOk(p) && Progress(p) && p.tally.escs == 0 && n <= |p.pc.rest|
    requires q.input == p.input && q.pc == Looping(p.pc.rest[n..], p.pc.attempt)
    requires q.tally == if p.pc.attempt == 0 then p.tally.(body := p.tally.body + n) else p.tally.(enters := p.tally.enters + n)
    ensures SegmentOk(q) && Progress(q)
    ensures SegmentBytes(q) == SegmentBytes(p) + p.pc.rest[..n]
  {
    var b := Body(p.input);
    if p.pc.attempt == 0 {
      assert b[p.tally.body..][..n] == b[p.tally.body..p.tally.body + n];
      assert b[..p.tally.body + n] == b[..p.tally.body] + b[p.tally.body..][..n];
      assert b[p.tally.body..][n..] == b[p.tally.body + n..];
    } else {
      assert Repeat(CR, q.tally.enters) == Repeat(CR, p.tally.enters) + p.pc.rest[..n];
    }
  }

  lemma KeepsTook(s: State, i: nat, n: nat)
    requires Inv(s) && SendAt(s, i) && s.sends[i].pc.Armed? && n <= |s.sends[i].pc.rest|
    ensures Inv(Took(s, i, n))
  {
    hide Locks, Tallies, Watchers, Terminals, Interrupts, ArmedFence, Flatten, Progress, SegmentOk, SegmentBytes;
    var s' := Took(s, i, n);
    AtSend(s, i);
    ArmedUntouched(s, i);
    TookSegment(s.sends[i], s'.sends[i], n);
    FlattenLast(s.sends, s'.sends, s.sends[i].pc.rest[..n]);
    MoveKeeps(s, s', i);
  }

  lemma KeepsWrite(s: State, i: nat, n: nat, err: bool)
    requires Inv(s) && SendAt(s, i) && s.sends[i].pc.Armed? && n <= |s.sends[i].pc.rest|
    ensures Inv(WriteOnce(s, i, n, err))
  {
    hide Locks, Tallies, Watchers, Terminals, Interrupts, ArmedFence, Flatten, Normalize;
    var w := Took(s, i, n);
    KeepsTook(s, i, n);
    AtSend(w, i);
    if err || n == 0 {
      SilentKeeps(w, SetSend(w, i, Leaving(Failed)).(sendMu := Nobody), i);
    }
  }

  // ---- a turn ends

  lemma KeepsComplete(s: State, id: nat)
    requires Inv(s) && (CanFinish(s.turn, id) ==> NoneArmed(s))
    ensures Inv(Complete(s, id))
  {
    hide Locks, Tallies, Flatten;
    var s' := Complete(s, id);
    assert Locks(s') by { SameLocks(s, s'); }
    assert Tallies(s') by { SameTallies(s, s'); }
  }

  lemma SameLocks(s: State, s': State)
    requires Locks(s) && s'.sends == s.sends && s'.ints == s.ints && s'.sendMu == s.sendMu && s'.sendTurnMu == s.sendTurnMu
    ensures Locks(s')
  {
  }

  lemma SameTallies(s: State, s': State)
    requires Tallies(s) && s'.sends == s.sends && s'.ints == s.ints
    ensures Tallies(s')
  {
    assert EscAccounted(s');
  }

  // ---- an interrupt goroutine moves on

  /** s' is s after interrupt goroutine j alone moved. */
  ghost predicate IntMoved(s: State, s': State, j: nat) {
    && IntAt(s, j) && IntAt(s', j)
    && s'.ints == s.ints[j := IntProc(s.ints[j].turn, s'.ints[j].pc)]
    && s'.turn == s.turn && s'.terminals == s.terminals
    && s'.watched == s.watched && s'.accepted == s.accepted && s'.sendTurnMu == s.sendTurnMu
  }

  predicate IntLockMove(s: State, s': State, j: nat)
    requires IntAt(s, j) && IntAt(s', j)
  {
    var pc, pc' := s.ints[j].pc, s'.ints[j].pc;
    && (s'.sendMu == if IntHoldsLock(pc') then Interrupter(j) else if IntHoldsLock(pc) then Nobody else s.sendMu)
    && (IntHoldsLock(pc') && !IntHoldsLock(pc) ==> s.sendMu == Nobody)
  }

  lemma IntMoveLocks(s: State, s': State, j: nat)
    requires Locks(s) && IntMoved(s, s', j) && s'.sends == s.sends && IntLockMove(s, s', j)
    ensures Locks(s')
  {
  }

  lemma IntMoveTallies(s: State, s': State, j: nat)
    requires Tallies(s) && IntMoved(s, s', j) && s'.sends == s.sends
    requires MayHaveTyped(s.ints[j].pc) ==> MayHaveTyped(s'.ints[j].pc)
    ensures Tallies(s')
  {
    assert EscAccounted(s') by {
      forall i | 0 <= i < |s.sends| && s.sends[i].tally.escs > 0
        ensures exists k :: 0 <= k < |s'.ints| && s'.ints[k].turn == i + 1 && MayHaveTyped(s'.ints[k].pc)
      {
        var k :| 0 <= k < |s.ints| && s.ints[k].turn == i + 1 && MayHaveTyped(s.ints[k].pc);
        assert s'.ints[k].turn == i + 1 && MayHaveTyped(s'.ints[k].pc);
      }
    }
  }

  lemma AtInt(s: State, j: nat)
    requires Inv(s) && IntAt(s, j)
    ensures IntHoldsLock(s.ints[j].pc) <==> s.sendMu == Interrupter(j)
    ensures 1 <= s.ints[j].turn <= |s.sends|
    ensures Live(s.ints[j]) ==>
      && s.ints[j].turn == s.turn.id == |s.sends| && s.turn.interruptPending
      && j == |s.ints| - 1
      && (s.turn.cancelRequested || !s.turn.inFlight)
  {
  }

  /** Neither a free sendMu, nor one held by an interrupt, nor an interrupt past
      its turn at the terminal leaves any goroutine about to write. */
  lemma NobodyArmed(s: State, j: nat)
    requires Inv(s) && IntAt(s, j) && Live(s.ints[j])
    requires !s.sendMu.Sender? || s.ints[j].pc.IntFailing? || s.ints[j].pc.IntExiting? || !s.turn.inFlight
    ensures NoneArmed(s)
  {
    AtInt(s, j);
  }

  lemma IntMoveKeeps(s: State, s': State, j: nat)
    requires Inv(s) && IntMoved(s, s', j) && s'.sends == s.sends && s'.pty == s.pty && IntLockMove(s, s', j)
    requires Live(s.ints[j]) && Live(s'.ints[j])
    requires MayHaveTyped(s.ints[j].pc) ==> MayHaveTyped(s'.ints[j].pc)
    requires s'.ints[j].pc.WantSendLock? || NoneArmed(s)
    ensures Inv(s')
  {
    hide Locks, Tallies, IntLockMove, Flatten;
    IntMoveLocks(s, s', j);
    IntMoveTallies(s, s', j);
  }

  lemma KeepsStartInterrupt(s: State, j: nat)
    requires Inv(s) && IntAt(s, j) && s.ints[j].pc.IntSpawned?
    ensures Inv(StartInterrupt(s, j))
  {
    hide Locks, Tallies, Interrupts, ArmedFence, Watchers, Terminals, Flatten;
    AtInt(s, j);
    if !ShouldInterrupt(s.turn, s.ints[j].turn) { NobodyArmed(s, j); }
    IntMoveKeeps(s, StartInterrupt(s, j), j);
  }

  lemma KeepsAcquireForEsc(s: State, j: nat)
    requires Inv(s) && IntAt(s, j) && s.ints[j].pc.WantSendLock? && s.sendMu.Nobody?
    ensures Inv(AcquireForEsc(s, j))
  {
    hide Locks, Tallies, Interrupts, ArmedFence, Watchers, Terminals, Flatten;
    AtInt(s, j);
    NobodyArmed(s, j);
    IntMoveKeeps(s, AcquireForEsc(s, j), j);
  }

  lemma KeepsCheckEsc(s: State, j: nat)
    requires Inv(s) && IntAt(s, j) && s.ints[j].pc.IntLooping?
    ensures Inv(CheckEsc(s, j))
  {
    hide Locks, Tallies, Interrupts, ArmedFence, Watchers, Terminals, Flatten;
    AtInt(s, j);
    NobodyArmed(s, j);
    IntMoveKeeps(s, CheckEsc(s, j), j);
  }

  lemma KeepsCancelAfterEsc(s: State, j: nat)
    requires Inv(s) && IntAt(s, j) && s.ints[j].pc.EscWritten?
    ensures Inv(CancelAfterEsc(s, j))
  {
    hide Locks, Tallies, Interrupts, ArmedFence, Watchers, Terminals, Flatten;
    AtInt(s, j);
    NobodyArmed(s, j);
    IntMoveKeeps(s, CancelAfterEsc(s, j), j);
  }

  lemma KeepsGiveUp(s: State, j: nat)
    requires Inv(s) && IntAt(s, j) && s.ints[j].pc.IntFailing?
    ensures Inv(SetInt(s, j, IntExiting)) && NoneArmed(SetInt(s, j, IntExiting))
  {
    hide Locks, Tallies, Interrupts, ArmedFence, Watchers, Terminals, Flatten;
    AtInt(s, j);
    NobodyArmed(s, j);
    IntMoveKeeps(s, SetInt(s, j, IntExiting), j);
  }

  /** When an interrupt reaches its Write, its turn has no Esc yet. */
  lemma FirstEsc(s: State, j: nat)
    requires Inv(s) && IntAt(s, j) && s.ints[j].pc.IntArmed?
    ensures s.sends[s.turn.id - 1].tally.escs == 0
  {
    AtInt(s, j);
  }

  /** The Esc step seen as two moves of the record: the byte, then the goroutine. */
  lemma KeepsWriteEsc(s: State, j: nat, took: bool, err: bool)
    requires Inv(s) && IntAt(s, j) && s.ints[j].pc.IntArmed?
    ensures Inv(WriteEsc(s, j, took, err))
  {
    hide Locks, Tallies, Interrupts, ArmedFence, Watchers, Terminals, Flatten;
    AtInt(s, j);
    NobodyArmed(s, j);
    var m := SetInt(s, j, if took && !err then EscWritten else IntFailing).(
               sendMu := if took && !err then s.sendMu else Nobody);
    IntMoveKeeps(s, m, j);
    var s' := WriteEsc(s, j, took, err);
    if took {
      FirstEsc(s, j);
      EscCounted(m, s', j);
    } else {
      assert s' == m;
    }
  }

  /** One more Esc counted for the turn whose interrupt has just typed it. */
  lemma EscCounted(m: State, s': State, j: nat)
    requires Inv(m) && IntAt(m, j) && MayHaveTyped(m.ints[j].pc)
    requires m.turn.id == m.ints[j].turn == |m.sends| && m.sends[m.turn.id - 1].tally.escs == 0
    requires s' == m.(pty := m.pty + [ESC], sends := CountEsc(m.sends, m.turn.id))
    ensures Inv(s')
  {
    hide Flatten, Terminals, Interrupts, Locks, Tallies, Watchers, ArmedFence, Progress;
    AtInt(m, j);
    var i := m.turn.id - 1;
    EscSegment(m.sends[i], s'.sends[i]);
    FlattenLast(m.sends, s'.sends, [ESC]);
    EscFences(m, s');
    EscTallies(m, s', j);
    SameInterrupts(m, s');
    SameTerminals(m, s');
  }

  lemma EscSegment(p: SendProc, q: SendProc)
    requires p.tally.escs == 0 && q == p.(tally := p.tally.(escs := 1))
    ensures SegmentBytes(q) == SegmentBytes(p) + [ESC]
  {
    assert Repeat(ESC, 1) == Repeat(ESC, 0) + [ESC];
  }

  lemma EscFences(m: State, s': State)
    requires Locks(m) && ArmedFence(m) && Watchers(m)
    requires s' == m.(pty := s'.pty, sends := CountEsc(m.sends, m.turn.id))
    ensures Locks(s') && ArmedFence(s') && Watchers(s')
  {
  }

  lemma EscTallies(m: State, s': State, j: nat)
    requires Tallies(m) && IntAt(m, j) && MayHaveTyped(m.ints[j].pc)
    requires m.turn.id >= 1 && m.turn.id == m.ints[j].turn == |m.sends| && m.sends[m.turn.id - 1].tally.escs == 0
    requires s' == m.(pty := s'.pty, sends := CountEsc(m.sends, m.turn.id))
    ensures Tallies(s')
  {
    assert SegmentOk(m.sends[m.turn.id - 1]) && Progress(m.sends[m.turn.id - 1]);
    assert EscAccounted(s');
  }

  lemma SameInterrupts(s: State, s': State)
    requires Interrupts(s) && s'.turn == s.turn && s'.ints == s.ints
    ensures Interrupts(s')
  {
  }

  lemma SameTerminals(s: State, s': State)
    requires Terminals(s) && s'.turn == s.turn && s'.terminals == s.terminals
    ensures Terminals(s')
  {
  }

  lemma KeepsExit(s: State, j: nat)
    requires Inv(s) && IntAt(s, j) && s.ints[j].pc.IntExiting?
    ensures Inv(ExitInterrupt(s, j))
  {
    hide Locks, Tallies, Flatten;
    AtInt(s, j);
    NobodyArmed(s, j);
    var s' := ExitInterrupt(s, j);
    var m := s'.(turn := s.turn);
    IntMoveLocks(s, m, j);
    SameLocks(m, s');
    IntMoveTallies(s, m, j);
    SameTallies(m, s');
  }

  // ---- the readers and shutdown

  lemma KeepsBegin(s: State, input: Bytes)
    requires Inv(s) && CanBegin(s.turn)
    ensures Inv(BeginTurn(s, input))
  {
    hide Locks, Tallies, Flatten, Interrupts;
    var s' := BeginTurn(s, input);
    assert NoneArmed(s);
    BeginLocks(s, s');
    BeginTallies(s, s');
    BeginInterrupts(s, s');
    assert s'.sends[..|s'.sends| - 1] == s.sends;
    assert SegmentBytes(s'.sends[|s.sends|]) == [];
    assert Flatten(s'.sends) == Flatten(s.sends) by { FlattenEmptyLast(s.sends, s'.sends); }
  }

  lemma FlattenEmptyLast(a: seq<SendProc>, b: seq<SendProc>)
    requires |b| > 0 && b[..|b| - 1] == a && SegmentBytes(b[|b| - 1]) == []
    ensures Flatten(b) == Flatten(a)
  {
  }

  lemma BeginLocks(s: State, s': State)
    requires Locks(s) && |s'.sends| == |s.sends| + 1 && s'.sends[..|s.sends|] == s.sends
    requires s'.sends[|s.sends|].pc.Spawned?
    requires s'.ints == s.ints && s'.sendMu == s.sendMu && s'.sendTurnMu == s.sendTurnMu
    ensures Locks(s')
  {
  }

  lemma BeginTallies(s: State, s': State)
    requires Tallies(s) && |s'.sends| == |s.sends| + 1 && s'.sends[..|s.sends|] == s.sends && s'.ints == s.ints
    requires SegmentOk(s'.sends[|s.sends|]) && Progress(s'.sends[|s.sends|]) && s'.sends[|s.sends|].tally.escs == 0
    ensures Tallies(s')
  {
    hide Progress, SegmentOk;
    forall i | 0 <= i < |s.sends| ensures s'.sends[i] == s.sends[i] {
      assert s'.sends[..|s.sends|][i] == s'.sends[i];
    }
    assert EscAccounted(s');
  }

  lemma BeginInterrupts(s: State, s': State)
    requires Interrupts(s) && CanBegin(s.turn) && s'.turn == Begin(s.turn) && s'.ints == s.ints
    ensures Interrupts(s')
  {
  }

  lemma KeepsSpawn(s: State)
    requires Inv(s) && CanRequest(s.turn)
    ensures Inv(SpawnInterrupt(s))
  {
    hide Locks, Tallies, Flatten, Interrupts;
    var s' := SpawnInterrupt(s);
    SpawnLocks(s, s');
    SpawnTallies(s, s');
    SpawnInterrupts(s, s');
  }

  lemma SpawnLocks(s: State, s': State)
    requires Locks(s) && s' == SpawnInterrupt(s)
    ensures Locks(s')
  {
  }

  lemma SpawnTallies(s: State, s': State)
    requires Tallies(s) && s' == SpawnInterrupt(s)
    ensures Tallies(s')
  {
    assert EscAccounted(s') by {
      forall i | 0 <= i < |s.sends| && s.sends[i].tally.escs > 0
        ensures exists k :: 0 <= k < |s'.ints| && s'.ints[k].turn == i + 1 && MayHaveTyped(s'.ints[k].pc)
      {
        var k :| 0 <= k < |s.ints| && s.ints[k].turn == i + 1 && MayHaveTyped(s.ints[k].pc);
        assert s'.ints[k] == s.ints[k];
      }
    }
  }

  lemma SpawnInterrupts(s: State, s': State)
    requires Interrupts(s) && Consistent(s.turn) && CanRequest(s.turn) && s' == SpawnInterrupt(s)
    ensures Interrupts(s')
  {
  }

  // ---- the steps that end a turn, and shutdown

  lemma KeepsFailTurn(s: State, i: nat)
    requires Inv(s) && SendAt(s, i) && s.sends[i].pc.Failing?
    ensures Inv(FailTurn(s, i))
  {
    hide Locks, Tallies, Watchers, Terminals, Interrupts, Flatten;
    AtSend(s, i);
    var m := SetSend(s, i, SendDone);
    SilentKeeps(s, m, i);
    KeepsComplete(m, i + 1);
  }

  lemma KeepsFailInterrupt(s: State, j: nat)
    requires Inv(s) && IntAt(s, j) && s.ints[j].pc.IntFailing?
    ensures Inv(FailInterrupt(s, j))
  {
    hide Inv, NoneArmed;
    KeepsGiveUp(s, j);
    KeepsComplete(SetInt(s, j, IntExiting), s.ints[j].turn);
  }

  lemma KeepsAdmit(s: State, id: nat)
    requires Inv(s) && (id == 0 || id in s.watched)
    ensures Inv(Admit(s, id))
  {
    hide Locks, Tallies, Terminals, Interrupts, Flatten;
    SameLocks(s, Admit(s, id));
    SameTallies(s, Admit(s, id));
    SameInterrupts(s, Admit(s, id));
    SameTerminals(s, Admit(s, id));
  }

  lemma KeepsEvent(s: State)
    requires Inv(s) && s.accepted.Some?
    ensures Inv(CompleteAccepted(s))
  {
    hide Locks, Tallies, Terminals, Interrupts, Flatten;
    var t := s.accepted.value;
    KeepsComplete(s, t);
    var m := Complete(s, t);
    SameLocks(m, m.(accepted := None));
    SameTallies(m, m.(accepted := None));
    SameInterrupts(m, m.(accepted := None));
    SameTerminals(m, m.(accepted := None));
  }

  lemma SameProcesses(s: State, s': State)
    requires Inv(s)
    requires s'.turn == s.turn && s'.sends == s.sends && s'.ints == s.ints && s'.sendMu == s.sendMu
    requires s'.sendTurnMu == s.sendTurnMu && s'.watched == s.watched && s'.accepted == s.accepted
    requires s'.terminals == s.terminals && s'.pty == s.pty
    ensures Inv(s')
  {
    hide Locks, Tallies, Interrupts, Terminals, Flatten;
    SameLocks(s, s');
    SameTallies(s, s');
    SameInterrupts(s, s');
    SameTerminals(s, s');
  }

  lemma KeepsCancelActive(s: State)
    requires Inv(s)
    ensures Inv(s.(turn := CancelActive(s.turn)))
  {
    hide Locks, Tallies, Flatten;
    SameLocks(s, s.(turn := CancelActive(s.turn)));
    SameTallies(s, s.(turn := CancelActive(s.turn)));
  }
}
