/** The daemon's in-memory record of a session: two bounded logs read through
    monotone cursors, close-and-swap notification channels, and the turn fields. */
module SessionMeta {
  import opened Base
  import opened SessionTurn

  const MAX_MEMORY_OUTPUT_LINES := 2000
  const MAX_MEMORY_TERMINALS := 16

  // ---- a bounded log: `kept` is the tail of everything ever appended to `log`

  function Trim<T>(s: seq<T>, cap: nat): seq<T> { if |s| > cap then s[|s| - cap..] else s }

  ghost predicate Keeps<T>(log: seq<T>, kept: seq<T>, cap: nat) {
    && |kept| <= |log| && log[|log| - |kept|..] == kept
    && Min(|log|, cap) <= |kept|
  }

  /** What a reader at `cursor` is given: the log from the cursor on, or from the
      oldest entry still kept when the cursor is older than that. */
  function Since<T>(log: seq<T>, kept: nat, cursor: nat): (r: seq<T>)
    requires kept <= |log|
  {
    log[Min(Max(cursor, |log| - kept), |log|)..]
  }

  /** A notification channel is its identity; `closed` is the set of those closed. */
  type Chan = nat

  /** Channels handed out or current, each with the sequence number it is current for. */
  type Subscriptions = map<Chan, nat>

  /** One log's fields, with its history: everything appended, every channel. */
  datatype Ring<T> = Ring(kept: seq<T>, next: nat, current: Option<Chan>, log: seq<T>, subs: Subscriptions)

  /** The tail is kept; a handed-out channel is closed exactly when the sequence has
      passed its number, so only the current one is open. */
  ghost predicate RingOk<T>(r: Ring<T>, cap: nat, closed: set<Chan>, made: nat) {
    && Keeps(r.log, r.kept, cap) && r.next == |r.log|
    && (forall c :: c in r.subs ==> c < made && r.subs[c] <= r.next && (c in closed <==> r.subs[c] < r.next))
    && (forall c :: c in r.subs && r.subs[c] == r.next ==> r.current == Some(c))
    && (r.current.Some? ==> r.current.value in r.subs && r.subs[r.current.value] == r.next)
  }

  /** The ring after one append, `ch` being the channel made for the next one. */
  function Pushed<T>(r: Ring<T>, cap: nat, x: T, ch: Chan): Ring<T> {
    Ring(Trim(r.kept + [x], cap), r.next + 1, Some(ch), r.log + [x], r.subs[ch := r.next + 1])
  }

  /** The ring once its first channel has been made. */
  function Opened<T>(r: Ring<T>, ch: Chan): Ring<T> {
    if r.current.Some? then r else r.(current := Some(ch), subs := r.subs[ch := r.next])
  }

  lemma TrimKeeps<T>(log: seq<T>, kept: seq<T>, cap: nat, x: T)
    requires Keeps(log, kept, cap) && cap >= 1
    ensures Keeps(log + [x], Trim(kept + [x], cap), cap)
    ensures |Trim(kept + [x], cap)| <= cap
  {
    var base := |log| - |kept|;
    assert (log + [x])[base..] == kept + [x];
    var t := Trim(kept + [x], cap);
    assert (log + [x])[|log| + 1 - |t|..] == t;
  }

  /** One append wakes everyone: the channel it closes was open, every channel handed
      out before is closed then, and the other log is not affected. */
  lemma PushWakes<S, T>(r: Ring<S>, other: Ring<T>, cap: nat, otherCap: nat, closed: set<Chan>, made: nat, x: S)
    requires cap >= 1 && r.current.Some? && RingOk(r, cap, closed, made) && RingOk(other, otherCap, closed, made)
    requires r.subs.Keys !! other.subs.Keys && forall c :: c in closed ==> c < made
    ensures r.current.value !in closed && r.current.value < made
    ensures var r', closed' := Pushed(r, cap, x, made), closed + {r.current.value};
      && RingOk(r', cap, closed', made + 1) && RingOk(other, otherCap, closed', made + 1)
      && r.subs.Keys <= closed' && |r'.kept| <= cap && r'.subs.Keys !! other.subs.Keys
  {
    TrimKeeps(r.log, r.kept, cap, x);
    hide Keeps, Trim;
  }

  class SessionMeta<Terminal> {
    var LastOutput: seq<string>
    var outputSeq: nat
    var outputNotifyCh: Option<Chan>
    var turnActive: bool
    var turnCancelling: bool
    var turnToken: nat
    var terminalSeq: nat
    var terminals: seq<Terminal>
    var terminalNotifyCh: Option<Chan>

    var made: nat            // channels made so far are 0 .. made - 1
    var closed: set<Chan>
    ghost var outputLog: seq<string>
    ghost var outputSubs: Subscriptions
    ghost var terminalLog: seq<Terminal>
    ghost var terminalSubs: Subscriptions

    ghost function Output(): Ring<string>
      reads this
    {
      Ring(LastOutput, outputSeq, outputNotifyCh, outputLog, outputSubs)
    }

    ghost function Terminals(): Ring<Terminal>
      reads this
    {
      Ring(terminals, terminalSeq, terminalNotifyCh, terminalLog, terminalSubs)
    }

    ghost predicate Valid()
      reads this
    {
      && RingOk(Output(), MAX_MEMORY_OUTPUT_LINES, closed, made)
      && RingOk(Terminals(), MAX_MEMORY_TERMINALS, closed, made)
      && outputSubs.Keys !! terminalSubs.Keys
      && (forall c :: c in closed ==> c < made)
      && (turnCancelling ==> turnActive)
    }

    ghost function Turn(): TurnState
      reads this
    {
      TurnState(turnActive, turnCancelling, turnToken)
    }

    /** A registered session starts with no output (NewSession), a restored one with
        the lines of its file, which may be more than the memory cap. */
    constructor (restored: seq<string>)
      ensures Valid() && outputLog == restored == LastOutput && terminalLog == [] && Turn() == NO_TURN
    {
      LastOutput, outputSeq, terminals, terminalSeq := restored, |restored|, [], 0;
      turnActive, turnCancelling, turnToken := false, false, 0;
      outputNotifyCh, terminalNotifyCh, made, closed := Some(0), None, 1, {};
      outputLog, terminalLog, outputSubs, terminalSubs := restored, [], map[0 := |restored|], map[];
    }

    method EnsureOutputStateLocked()
      requires Valid()
      modifies this`outputNotifyCh, this`outputSeq, this`outputSubs, this`made
      ensures Valid() && outputNotifyCh.Some? && Output() == Opened(old(Output()), old(made))
    {
      if outputNotifyCh.None? {
        outputSubs := outputSubs[made := outputSeq];
        outputNotifyCh, made := Some(made), made + 1;
      }
      outputSeq := Max(outputSeq, |LastOutput|);
    }

    method EnsureTerminalStateLocked()
      requires Valid()
      modifies this`terminalNotifyCh, this`terminalSeq, this`terminalSubs, this`made
      ensures Valid() && terminalNotifyCh.Some? && Terminals() == Opened(old(Terminals()), old(made))
    {
      if terminalNotifyCh.None? {
        terminalSubs := terminalSubs[made := terminalSeq];
        terminalNotifyCh, made := Some(made), made + 1;
      }
      terminalSeq := Max(terminalSeq, |terminals|);
    }

    /** Appends to the log, drops what exceeds the cap and wakes every subscriber:
        each channel handed out so far is closed afterwards, none of them twice. */
    method AddOutput(line: string)
      requires Valid()
      modifies this`LastOutput, this`outputSeq, this`outputNotifyCh, this`outputLog, this`outputSubs, this`made, this`closed
      ensures Valid() && outputNotifyCh.Some?
      ensures Output() == Pushed(Opened(old(Output()), old(made)), MAX_MEMORY_OUTPUT_LINES, line, outputNotifyCh.value)
    {
      hide RingOk, Trim;
      EnsureOutputStateLocked();
      PushWakes(Output(), Terminals(), MAX_MEMORY_OUTPUT_LINES, MAX_MEMORY_TERMINALS, closed, made, line);
      ghost var before, ch := Output(), made;
      var notifyCh := outputNotifyCh.value;
      assert notifyCh !in closed;  // closing a closed channel would panic
      LastOutput, outputSeq := Trim(LastOutput + [line], MAX_MEMORY_OUTPUT_LINES), outputSeq + 1;
      outputLog, outputSubs := outputLog + [line], outputSubs[made := outputSeq];
      outputNotifyCh, made, closed := Some(made), made + 1, closed + {notifyCh};
      assert Output() == Pushed(before, MAX_MEMORY_OUTPUT_LINES, line, ch);
    }

    method OutputSubscription() returns (cursor: nat, ch: Chan)
      requires Valid()
      modifies this`outputNotifyCh, this`outputSeq, this`outputSubs, this`made
      ensures Valid() && cursor == |outputLog| && ch in outputSubs && outputSubs[ch] == cursor && ch !in closed
      ensures Output() == Opened(old(Output()), old(made))
    {
      EnsureOutputStateLocked();
      return outputSeq, outputNotifyCh.value;
    }

    /** Gives exactly the log from the cursor, as far back as it is kept, with the
        channel that the next append will close. */
    method SnapshotOutputSince(cursor: nat) returns (out: seq<string>, next: nat, ch: Chan)
      requires Valid()
      modifies this`outputNotifyCh, this`outputSeq, this`outputSubs, this`made
      ensures Valid() && next == |outputLog| && out == Since(outputLog, |LastOutput|, cursor)
      ensures ch in outputSubs && outputSubs[ch] == next && ch !in closed
      ensures Output() == Opened(old(Output()), old(made))
    {
      EnsureOutputStateLocked();
      next := outputSeq;
      var base := next - |LastOutput|;
      var from := cursor;
      if from < base { from := base; }
      if from > next { from := next; }
      var start := from - base;
      out := LastOutput[start..];
      assert out == outputLog[from..];
      ch := outputNotifyCh.value;
    }

    method PublishTerminalLocked(terminal: Terminal)
      requires Valid()
      modifies this`terminals, this`terminalSeq, this`terminalNotifyCh, this`terminalLog, this`terminalSubs,
               this`made, this`closed
      ensures Valid() && terminalNotifyCh.Some?
      ensures Terminals() == Pushed(Opened(old(Terminals()), old(made)), MAX_MEMORY_TERMINALS, terminal, terminalNotifyCh.value)
    {
      hide RingOk, Trim;
      EnsureTerminalStateLocked();
      PushWakes(Terminals(), Output(), MAX_MEMORY_TERMINALS, MAX_MEMORY_OUTPUT_LINES, closed, made, terminal);
      ghost var before, ch := Terminals(), made;
      var notifyCh := terminalNotifyCh.value;
      assert notifyCh !in closed;  // closing a closed channel would panic
      terminals, terminalSeq := Trim(terminals + [terminal], MAX_MEMORY_TERMINALS), terminalSeq + 1;
      terminalLog, terminalSubs := terminalLog + [terminal], terminalSubs[made := terminalSeq];
      terminalNotifyCh, made, closed := Some(made), made + 1, closed + {notifyCh};
      assert Terminals() == Pushed(before, MAX_MEMORY_TERMINALS, terminal, ch);
    }

    method TerminalSubscription() returns (cursor: nat, ch: Chan)
      requires Valid()
      modifies this`terminalNotifyCh, this`terminalSeq, this`terminalSubs, this`made
      ensures Valid() && cursor == |terminalLog| && ch in terminalSubs && terminalSubs[ch] == cursor && ch !in closed
      ensures Terminals() == Opened(old(Terminals()), old(made))
    {
      EnsureTerminalStateLocked();
      return terminalSeq, terminalNotifyCh.value;
    }

    method SnapshotTerminalsSince(cursor: nat) returns (out: seq<Terminal>, next: nat, ch: Chan)
      requires Valid()
      modifies this`terminalNotifyCh, this`terminalSeq, this`terminalSubs, this`made
      ensures Valid() && next == |terminalLog| && out == Since(terminalLog, |terminals|, cursor)
      ensures ch in terminalSubs && terminalSubs[ch] == next && ch !in closed
      ensures Terminals() == Opened(old(Terminals()), old(made))
    {
      EnsureTerminalStateLocked();
      next := terminalSeq;
      var base := next - |terminals|;
      var from := cursor;
      if from < base { from := base; }
      if from > next { from := next; }
      var start := from - base;
      out := terminals[start..];
      assert out == terminalLog[from..];
      ch := terminalNotifyCh.value;
    }

    // ---- the turn

    method BeginTurn() returns (ok: bool)
      requires Valid()
      modifies this`turnToken, this`turnActive, this`turnCancelling
      ensures Valid() && ok == !old(turnActive)
      ensures ok ==> turnActive && !turnCancelling && turnToken == old(turnToken) + 1
      ensures Turn() == if ok then Begin(old(Turn())) else old(Turn())
    {
      if turnActive { return false; }
      turnToken := turnToken + 1;
      turnActive := true;
      turnCancelling := false;
      return true;
    }

    method BeginTurnCancel() returns (token: nat, ok: bool)
      requires Valid()
      modifies this`turnCancelling
      ensures Valid() && ok == (turnActive && !old(turnCancelling))
      ensures ok ==> token == turnToken && turnCancelling
      ensures Turn() == if ok then BeginCancel(old(Turn())) else old(Turn())
    {
      if !turnActive || turnCancelling { return 0, false; }
      turnCancelling := true;
      return turnToken, true;
    }

    /** Ends the active turn with exactly one terminal, or does nothing at all. */
    method CompleteTurn(terminal: Terminal) returns (ok: bool)
      requires Valid()
      modifies this`turnActive, this`turnCancelling,
               this`terminals, this`terminalSeq, this`terminalNotifyCh, this`terminalLog, this`terminalSubs,
               this`made, this`closed
      ensures Valid() && ok == old(turnActive)
      ensures !turnActive && !turnCancelling
      ensures Turn() == if ok then End(old(Turn())) else old(Turn())
      ensures terminalLog == if ok then old(terminalLog) + [terminal] else old(terminalLog)
    {
      if !turnActive { return false; }
      FinishTurnLocked(terminal);
      return true;
    }

    method FailCancellingTurn(token: nat, terminal: Terminal) returns (ok: bool)
      requires Valid()
      modifies this`turnActive, this`turnCancelling,
               this`terminals, this`terminalSeq, this`terminalNotifyCh, this`terminalLog, this`terminalSubs,
               this`made, this`closed
      ensures Valid() && ok == (old(turnActive) && old(turnCancelling) && turnToken == token)
      ensures ok ==> !turnActive && !turnCancelling
      ensures Turn() == if ok then End(old(Turn())) else old(Turn())
      ensures terminalLog == if ok then old(terminalLog) + [terminal] else old(terminalLog)
    {
      if !turnActive || !turnCancelling || turnToken != token { return false; }
      FinishTurnLocked(terminal);
      return true;
    }

    method FinishTurnLocked(terminal: Terminal)
      requires Valid()
      modifies this`turnActive, this`turnCancelling,
               this`terminals, this`terminalSeq, this`terminalNotifyCh, this`terminalLog, this`terminalSubs,
               this`made, this`closed
      ensures Valid() && Turn() == End(old(Turn())) && terminalLog == old(terminalLog) + [terminal]
    {
      turnActive := false;
      turnCancelling := false;
      PublishTerminalLocked(terminal);
    }

    method FinishTurn()
      requires Valid()
      modifies this`turnActive, this`turnCancelling
      ensures Valid() && Turn() == End(old(Turn())) && !turnActive && !turnCancelling
    {
      turnActive := false;
      turnCancelling := false;
    }
  }
}
