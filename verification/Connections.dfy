/** The worker's connection to the daemon: who holds a dialled connection, which one
    is published, and who closes it, under reconnection, read failures and shutdown. */
module Connections {
  import opened Base

  /** A connection, told apart by its address. */
  type Conn = nat

  /** A procedure of the worker between two of its sections. */
  datatype Proc =
    | Initial(c: Conn)                  // Run: dialled, CLI starting or handshake pending
    | InitialReady(c: Conn)             // Run: handshake succeeded
    | Redialled(c: Conn)                // reconnectToDaemon: dialled, handshake pending
    | RedialledReady(c: Conn)
    | Reconnecting                      // reconnectToDaemon: between two attempts
    | Disposing(c: Conn, last: bool)    // about to close c; `last` ends reconnectToDaemon
    | Failed(c: Conn)                   // a read or write on c failed
    | Starting                          // `go reconnectToDaemon`, not yet past its flag
    | CleaningUp                        // about to enter cleanup
    | Clearing(cancels: bool)           // closed is set; about to cancel and clear
    | Done

  /** `open` holds the dialled connections the worker has not closed; `cleared` says
      that some shutdown has passed its clear step. */
  datatype State = State(
    published: Option<Conn>, connected: bool, closed: bool, ctxDone: bool, reconnecting: bool,
    dialled: set<Conn>, open: set<Conn>, procs: seq<Proc>, started: bool, cleared: bool)

  const START := State(None, false, false, false, false, {}, {}, [], false, false)

  datatype Event =
    | Dial(c: Conn)                     // connectToDaemon succeeds
    | InitialFails(i: nat)
    | Handshake(i: nat)
    | Publish(i: nat)
    | CloseHeld(i: nat)
    | WatchdogClose(i: nat)             // the handshake's watcher sees the cancelled context
    | IoFails                           // on the published connection, as captured
    | Mark(i: nat)                      // markDisconnectedIfCurrent
    | EnterReconnect(i: nat)            // the flag section of reconnectToDaemon
    | Redial(i: nat, c: Conn)
    | HandshakeRejected(i: nat)
    | HandshakeFails(i: nat)
    | GiveUp(i: nat)
    | Cancel                            // first section of Cancel
    | CleanUp                           // cleanup asked for by a message
    | EnterCleanup(i: nat)
    | Clear(i: nat)

  function Holds(p: Proc): Option<Conn> {
    match p
    case Initial(c) => Some(c)
    case InitialReady(c) => Some(c)
    case Redialled(c) => Some(c)
    case RedialledReady(c) => Some(c)
    case Disposing(c, _) => Some(c)
    case _ => None
  }

  /** Inside reconnectToDaemon, with the reconnecting flag set. */
  predicate InReconnect(p: Proc) { p.Redialled? || p.RedialledReady? || p.Reconnecting? || (p.Disposing? && p.last) }

  predicate At(s: State, i: nat) { i < |s.procs| }

  predicate Enabled(s: State, e: Event) {
    match e
    case Dial(c) => !s.started && c !in s.dialled
    case InitialFails(i) => At(s, i) && (s.procs[i].Initial? || s.procs[i].InitialReady?)
    case Handshake(i) => At(s, i) && (s.procs[i].Initial? || s.procs[i].Redialled?)
    case Publish(i) => At(s, i) && (s.procs[i].InitialReady? || s.procs[i].RedialledReady?)
    case CloseHeld(i) => At(s, i) && s.procs[i].Disposing?
    case WatchdogClose(i) => s.ctxDone && At(s, i) && (s.procs[i].Initial? || s.procs[i].Redialled?)
    case IoFails => s.published.Some?
    case Mark(i) => At(s, i) && s.procs[i].Failed?
    case EnterReconnect(i) => At(s, i) && s.procs[i].Starting?
    case Redial(i, c) => At(s, i) && s.procs[i].Reconnecting? && c !in s.dialled
    case HandshakeRejected(i) => At(s, i) && s.procs[i].Redialled?
    case HandshakeFails(i) => At(s, i) && s.procs[i].Redialled?
    case GiveUp(i) => At(s, i) && s.procs[i].Reconnecting?
    case Cancel => true
    case CleanUp => true
    case EnterCleanup(i) => At(s, i) && s.procs[i].CleaningUp?
    case Clear(i) => At(s, i) && s.procs[i].Clearing?
  }

  function SetProc(s: State, i: nat, p: Proc): State
    requires At(s, i)
  {
    s.(procs := s.procs[i := p])
  }

  function Also(s: State, p: Proc): State { s.(procs := s.procs + [p]) }

  function Close(s: State, c: Conn): State { s.(open := s.open - {c}) }

  function DialInitial(s: State, c: Conn): State {
    Also(s.(dialled := s.dialled + {c}, open := s.open + {c}, started := true), Initial(c))
  }

  function AfterHandshake(s: State, i: nat): State
    requires At(s, i) && (s.procs[i].Initial? || s.procs[i].Redialled?)
  {
    SetProc(s, i, if s.procs[i].Initial? then InitialReady(s.procs[i].c) else RedialledReady(s.procs[i].c))
  }

  /** publishConnection, and what its caller has left to close. A refused connection of
      Run is closed by its failure path, which cleans up too. */
  function PublishHeld(s: State, i: nat): State
    requires At(s, i) && (s.procs[i].InitialReady? || s.procs[i].RedialledReady?)
  {
    var c, re := s.procs[i].c, s.procs[i].RedialledReady?;
    if s.closed || s.ctxDone then
      var s' := SetProc(s, i, Disposing(c, re));
      if re then s' else Also(s', CleaningUp)
    else
      var s' := s.(published := Some(c), connected := true);
      if s.published.Some? then SetProc(s', i, Disposing(s.published.value, re))
      else SetProc(s', i, Done).(reconnecting := s.reconnecting && !re)
  }

  function CloseIt(s: State, i: nat): State
    requires At(s, i) && s.procs[i].Disposing?
  {
    SetProc(Close(s, s.procs[i].c), i, Done).(reconnecting := s.reconnecting && !s.procs[i].last)
  }

  /** A failure of the published connection marks it and starts a reconnection in a
      goroutine of its own. */
  function MarkFailed(s: State, i: nat): State
    requires At(s, i) && s.procs[i].Failed?
  {
    if s.published != Some(s.procs[i].c) then SetProc(s, i, Done)
    else SetProc(s, i, Starting).(connected := false)
  }

  /** It ends at once if another reconnection is running; whether the connection is
      down is not tested again. */
  function EnterFlag(s: State, i: nat): State
    requires At(s, i) && s.procs[i].Starting?
  {
    if s.reconnecting then SetProc(s, i, Done) else SetProc(s, i, Reconnecting).(reconnecting := true)
  }

  function RedialTo(s: State, i: nat, c: Conn): State
    requires At(s, i)
  {
    SetProc(s.(dialled := s.dialled + {c}, open := s.open + {c}), i, Redialled(c))
  }

  /** The clear step of Cancel and cleanup. */
  function ClearConn(s: State, i: nat): State
    requires At(s, i) && s.procs[i].Clearing?
  {
    var s' := s.(published := None, connected := false, cleared := true, ctxDone := s.ctxDone || s.procs[i].cancels);
    SetProc(s', i, if s.published.Some? then Disposing(s.published.value, false) else Done)
  }

  function Apply(s: State, e: Event): State
    requires Enabled(s, e)
  {
    match e
    case Dial(c) => DialInitial(s, c)
    case InitialFails(i) => Also(SetProc(s, i, Disposing(s.procs[i].c, false)), CleaningUp)
    case Handshake(i) => AfterHandshake(s, i)
    case Publish(i) => PublishHeld(s, i)
    case CloseHeld(i) => CloseIt(s, i)
    case WatchdogClose(i) => Close(s, s.procs[i].c)
    case IoFails => Also(s, Failed(s.published.value))
    case Mark(i) => MarkFailed(s, i)
    case EnterReconnect(i) => EnterFlag(s, i)
    case Redial(i, c) => RedialTo(s, i, c)
    case HandshakeRejected(i) => Also(SetProc(s, i, Disposing(s.procs[i].c, true)), CleaningUp)
    case HandshakeFails(i) => SetProc(Close(s, s.procs[i].c), i, Reconnecting)
    case GiveUp(i) => SetProc(s, i, Done).(reconnecting := false)
    case Cancel => if s.closed then s else Also(s.(closed := true), Clearing(true))
    case CleanUp => Also(s, CleaningUp)
    case EnterCleanup(i) => SetProc(s.(closed := true), i, Clearing(!s.closed))
    case Clear(i) => ClearConn(s, i)
  }

  // ---- the invariant

  /** Connections held by procedures are dialled, held once, and not the published one. */
  ghost predicate HeldOnce(s: State) {
    && (forall i :: 0 <= i < |s.procs| && Holds(s.procs[i]).Some? ==>
          Holds(s.procs[i]).value in s.dialled && s.published != Holds(s.procs[i]))
    && (forall i, j :: 0 <= i < j < |s.procs| && Holds(s.procs[i]).Some? ==> Holds(s.procs[i]) != Holds(s.procs[j]))
    && (s.published.Some? ==> s.published.value in s.dialled)
  }

  predicate HeldBySome(s: State, c: Conn) { exists i :: 0 <= i < |s.procs| && Holds(s.procs[i]) == Some(c) }

  /** No connection is lost: whatever is open is published or held. */
  ghost predicate NoneLost(s: State) {
    && s.open <= s.dialled
    && (forall c :: c in s.open ==> s.published == Some(c) || HeldBySome(s, c))
    && (s.published.Some? ==> s.published.value in s.open)
  }

  /** reconnectToDaemon runs at most once at a time. */
  ghost predicate OneReconnect(s: State) {
    && (forall i :: 0 <= i < |s.procs| && InReconnect(s.procs[i]) ==> s.reconnecting)
    && (forall i, j :: 0 <= i < j < |s.procs| && InReconnect(s.procs[i]) ==> !InReconnect(s.procs[j]))
  }

  // ---- frames: what a step does to the procedures

  /** Procedure i has gone on, and `more` that hold nothing have been started. */
  ghost predicate Moved(s: State, s': State, i: nat, more: seq<Proc>) {
    && At(s, i) && |s'.procs| == |s.procs| + |more| && s'.procs == s.procs[i := s'.procs[i]] + more
    && (forall k :: 0 <= k < |more| ==> Holds(more[k]).None? && !InReconnect(more[k]) && (more[k].Clearing? ==> s'.closed))
    && s.dialled <= s'.dialled
  }

  /** What procedure i held, what it holds now, and what is published fit together. */
  predicate Handover(s: State, s': State, h: Option<Conn>, h': Option<Conn>) {
    && (h'.None? || h' == h || h' == s.published || (h'.value !in s.dialled && h'.value in s'.dialled))
    && (s'.published.None? || s'.published == s.published || s'.published == h)
    && (h'.Some? ==> h' != s'.published)
  }

  lemma HeldMoved(s: State, s': State, i: nat, more: seq<Proc>)
    requires HeldOnce(s) && Moved(s, s', i, more) && Handover(s, s', Holds(s.procs[i]), Holds(s'.procs[i]))
    ensures HeldOnce(s')
  {
  }

  /** What stops being held or published is closed; what is new to the open ones is held. */
  predicate Accounted(s: State, s': State, h: Option<Conn>, h': Option<Conn>) {
    && s'.open <= s'.dialled
    && (h.Some? && h.value in s'.open ==> h' == h || s'.published == h)
    && (s.published.Some? && s.published.value in s'.open ==> s'.published == s.published || h' == s.published)
    && (forall c :: c in s'.open ==> c in s.open || h' == Some(c))
    && (s'.published.Some? ==> s'.published.value in s'.open)
  }

  lemma NoneLostMoved(s: State, s': State, i: nat, more: seq<Proc>)
    requires NoneLost(s) && Moved(s, s', i, more) && Accounted(s, s', Holds(s.procs[i]), Holds(s'.procs[i]))
    ensures NoneLost(s')
  {
    forall c | c in s'.open ensures s'.published == Some(c) || HeldBySome(s', c) {
      if Holds(s'.procs[i]) == Some(c) {
      } else if k :| 0 <= k < |s.procs| && Holds(s.procs[k]) == Some(c) {
        if k != i { assert Holds(s'.procs[k]) == Some(c); }
      }
    }
  }

  /** Connections past their dialling stay open until the context is done. */
  ghost predicate LiveHeld(s: State) {
    !s.ctxDone ==>
      forall i :: 0 <= i < |s.procs| && Holds(s.procs[i]).Some? && !s.procs[i].Disposing? ==>
        Holds(s.procs[i]).value in s.open
  }

  ghost predicate ShutdownFlags(s: State) {
    && (s.ctxDone ==> s.closed) && (s.cleared ==> s.closed && s.published.None?) && (s.connected ==> s.published.Some?)
    && (forall i :: 0 <= i < |s.procs| && s.procs[i].Clearing? ==> s.closed)
  }

  lemma LiveMoved(s: State, s': State, i: nat, more: seq<Proc>)
    requires HeldOnce(s) && LiveHeld(s) && Moved(s, s', i, more) && (s.ctxDone ==> s'.ctxDone)
    requires forall c :: c in s.open ==> c in s'.open || Holds(s.procs[i]) == Some(c)
    requires !s'.ctxDone && Holds(s'.procs[i]).Some? && !s'.procs[i].Disposing? ==> Holds(s'.procs[i]).value in s'.open
    ensures LiveHeld(s')
  {
  }

  lemma ShutdownMoved(s: State, s': State, i: nat, more: seq<Proc>)
    requires ShutdownFlags(s) && Moved(s, s', i, more)
    requires s.closed ==> s'.closed
    requires s'.procs[i].Clearing? ==> s'.closed
    requires (s'.ctxDone ==> s'.closed) && (s'.cleared ==> s'.closed && s'.published.None?)
    requires s'.connected ==> s'.published.Some?
    ensures ShutdownFlags(s')
  {
  }

  lemma ReconnectMoved(s: State, s': State, i: nat, more: seq<Proc>)
    requires OneReconnect(s) && Moved(s, s', i, more)
    requires InReconnect(s'.procs[i]) ==> s'.reconnecting && (InReconnect(s.procs[i]) || !s.reconnecting)
    requires s.reconnecting && !InReconnect(s.procs[i]) ==> s'.reconnecting
    ensures OneReconnect(s')
  {
  }

  ghost predicate Inv(s: State) { HeldOnce(s) && NoneLost(s) && LiveHeld(s) && ShutdownFlags(s) && OneReconnect(s) }

  lemma MovedKeeps(s: State, s': State, i: nat, more: seq<Proc>)
    requires Inv(s) && Moved(s, s', i, more)
    requires Handover(s, s', Holds(s.procs[i]), Holds(s'.procs[i])) && Accounted(s, s', Holds(s.procs[i]), Holds(s'.procs[i]))
    requires (s.ctxDone ==> s'.ctxDone) && (s.closed ==> s'.closed)
    requires forall c :: c in s.open ==> c in s'.open || Holds(s.procs[i]) == Some(c)
    requires !s'.ctxDone && Holds(s'.procs[i]).Some? && !s'.procs[i].Disposing? ==> Holds(s'.procs[i]).value in s'.open
    requires s'.procs[i].Clearing? ==> s'.closed
    requires (s'.ctxDone ==> s'.closed) && (s'.cleared ==> s'.closed && s'.published.None?)
    requires s'.connected ==> s'.published.Some?
    requires InReconnect(s'.procs[i]) ==> s'.reconnecting && (InReconnect(s.procs[i]) || !s.reconnecting)
    requires s.reconnecting && !InReconnect(s.procs[i]) ==> s'.reconnecting
    ensures Inv(s')
  {
    hide HeldOnce, NoneLost, LiveHeld, ShutdownFlags, OneReconnect, Moved, Handover, Accounted, Holds, InReconnect;
    HeldMoved(s, s', i, more);
    NoneLostMoved(s, s', i, more);
    LiveMoved(s, s', i, more);
    ShutdownMoved(s, s', i, more);
    ReconnectMoved(s, s', i, more);
  }

  /** What the invariant says of one procedure. */
  lemma AtProc(s: State, i: nat)
    requires Inv(s) && At(s, i)
    ensures var h := Holds(s.procs[i]);
      && (h.Some? ==> h.value in s.dialled && s.published != h)
      && (h.Some? && !s.procs[i].Disposing? && !s.ctxDone ==> h.value in s.open)
      && (InReconnect(s.procs[i]) ==> s.reconnecting) && (s.procs[i].Clearing? ==> s.closed)
    ensures (s.published.Some? ==> s.published.value in s.open && s.published.value in s.dialled) && s.open <= s.dialled
    ensures (s.ctxDone ==> s.closed) && (s.cleared ==> s.closed && s.published.None?) && (s.connected ==> s.published.Some?)
  {
  }

  /** Steps of a procedure before its connection is published. */
  lemma DiallingKeeps(s: State, e: Event, i: nat, more: seq<Proc>)
    requires Inv(s) && Enabled(s, e) && At(s, i)
    requires e == InitialFails(i) || e == Handshake(i) || e == HandshakeRejected(i) || e == HandshakeFails(i)
    requires more == if e.InitialFails? || e.HandshakeRejected? then [CleaningUp] else []
    ensures Inv(Apply(s, e))
  {
    hide Inv;
    AtProc(s, i);
    MovedKeeps(s, Apply(s, e), i, more);
  }

  lemma ReconnectKeeps(s: State, e: Event, i: nat)
    requires Inv(s) && Enabled(s, e) && At(s, i)
    requires e == GiveUp(i) || e == Mark(i) || e == EnterReconnect(i)
    ensures Inv(Apply(s, e))
  {
    hide Inv;
    AtProc(s, i);
    MovedKeeps(s, Apply(s, e), i, []);
  }

  lemma ClosingKeeps(s: State, e: Event, i: nat)
    requires Inv(s) && Enabled(s, e) && At(s, i)
    requires e == CloseHeld(i) || e == EnterCleanup(i) || e == Clear(i)
    ensures Inv(Apply(s, e))
  {
    hide Inv;
    AtProc(s, i);
    MovedKeeps(s, Apply(s, e), i, []);
  }

  lemma PublishKeeps(s: State, i: nat)
    requires Inv(s) && Enabled(s, Publish(i))
    ensures Inv(Apply(s, Publish(i)))
  {
    hide Inv;
    AtProc(s, i);
    MovedKeeps(s, Apply(s, Publish(i)), i, if (s.closed || s.ctxDone) && s.procs[i].InitialReady? then [CleaningUp] else []);
  }

  lemma RedialKeeps(s: State, i: nat, c: Conn)
    requires Inv(s) && Enabled(s, Redial(i, c))
    ensures Inv(Apply(s, Redial(i, c)))
  {
    hide Inv;
    AtProc(s, i);
    MovedKeeps(s, Apply(s, Redial(i, c)), i, []);
  }

  lemma WatchdogKeeps(s: State, i: nat)
    requires Inv(s) && Enabled(s, WatchdogClose(i))
    ensures Inv(Apply(s, WatchdogClose(i)))
  {
    var s' := Apply(s, WatchdogClose(i));
    forall c | c in s'.open ensures s'.published == Some(c) || HeldBySome(s', c) {
      assert s.published == Some(c) || HeldBySome(s, c);
    }
  }

  /** A procedure is added; the first one brings its connection. */
  lemma StartAccounts(s: State, e: Event)
    requires NoneLost(s) && Enabled(s, e) && (e.Dial? || e.IoFails? || e.Cancel? || e.CleanUp?)
    ensures NoneLost(Apply(s, e))
  {
    var s' := Apply(s, e);
    forall c | c in s'.open ensures s'.published == Some(c) || HeldBySome(s', c) {
      if e.Dial? && c == e.c {
        assert Holds(s'.procs[|s.procs|]) == Some(c);
      } else if s.published != Some(c) {
        var k :| 0 <= k < |s.procs| && Holds(s.procs[k]) == Some(c);
        assert Holds(s'.procs[k]) == Some(c);
      }
    }
  }

  lemma StartHolds(s: State, e: Event)
    requires HeldOnce(s) && LiveHeld(s) && Enabled(s, e) && (e.Dial? || e.IoFails? || e.Cancel? || e.CleanUp?)
    ensures HeldOnce(Apply(s, e)) && LiveHeld(Apply(s, e))
  {
    hide InReconnect;
    if e.Dial? { DialHolds(s, e.c); }
  }

  lemma DialHolds(s: State, c: Conn)
    requires HeldOnce(s) && LiveHeld(s) && c !in s.dialled
    ensures HeldOnce(DialInitial(s, c)) && LiveHeld(DialInitial(s, c))
  {
  }

  lemma StartFlags(s: State, e: Event)
    requires ShutdownFlags(s) && OneReconnect(s) && Enabled(s, e) && (e.Dial? || e.IoFails? || e.Cancel? || e.CleanUp?)
    ensures ShutdownFlags(Apply(s, e)) && OneReconnect(Apply(s, e))
  {
  }

  lemma StartKeeps(s: State, e: Event)
    requires Inv(s) && Enabled(s, e) && (e.Dial? || e.IoFails? || e.Cancel? || e.CleanUp?)
    ensures Inv(Apply(s, e))
  {
    hide HeldOnce, NoneLost, LiveHeld, ShutdownFlags, OneReconnect, Apply;
    StartAccounts(s, e);
    StartHolds(s, e);
    StartFlags(s, e);
  }

  lemma StepKeeps(s: State, e: Event)
    requires Inv(s) && Enabled(s, e)
    ensures Inv(Apply(s, e))
  {
    hide Inv, Apply;
    match e
    case Dial(_) => StartKeeps(s, e);
    case InitialFails(i) => DiallingKeeps(s, e, i, [CleaningUp]);
    case Handshake(i) => DiallingKeeps(s, e, i, []);
    case Publish(i) => PublishKeeps(s, i);
    case CloseHeld(i) => ClosingKeeps(s, e, i);
    case WatchdogClose(i) => WatchdogKeeps(s, i);
    case IoFails => StartKeeps(s, e);
    case Mark(i) => ReconnectKeeps(s, e, i);
    case EnterReconnect(i) => ReconnectKeeps(s, e, i);
    case Redial(i, c) => RedialKeeps(s, i, c);
    case HandshakeRejected(i) => DiallingKeeps(s, e, i, [CleaningUp]);
    case HandshakeFails(i) => DiallingKeeps(s, e, i, []);
    case GiveUp(i) => ReconnectKeeps(s, e, i);
    case Cancel => StartKeeps(s, e);
    case CleanUp => StartKeeps(s, e);
    case EnterCleanup(i) => ClosingKeeps(s, e, i);
    case Clear(i) => ClosingKeeps(s, e, i);
  }

  ghost predicate Run(trace: seq<Event>, states: seq<State>) {
    && |states| == |trace| + 1 && states[0] == START
    && (forall k :: 0 <= k < |trace| ==> Enabled(states[k], trace[k]) && states[k + 1] == Apply(states[k], trace[k]))
  }

  lemma {:induction false} RunKeeps(trace: seq<Event>, states: seq<State>, k: nat)
    requires Run(trace, states) && k <= |trace|
    ensures Inv(states[k])
  {
    if k == 0 {
      assert Inv(START);
    } else {
      hide Inv, Apply, Enabled;
      RunKeeps(trace, states, k - 1);
      StepKeeps(states[k - 1], trace[k - 1]);
    }
  }

  // ---- what it gives

  /** Every dialled connection is closed, published, or held by exactly one procedure,
      and the published one is open and held by none. */
  lemma ConnectionsAreConserved(trace: seq<Event>, states: seq<State>, k: nat, c: Conn)
    requires Run(trace, states) && k <= |trace| && c in states[k].dialled
    ensures var s := states[k];
      && (c in s.open ==> (s.published == Some(c) <==> !HeldBySome(s, c)))
      && (s.published == Some(c) ==> c in s.open)
      && (forall i, j ::
            0 <= i < |s.procs| && 0 <= j < |s.procs| && Holds(s.procs[i]) == Some(c) && Holds(s.procs[j]) == Some(c) ==>
              i == j)
  {
    RunKeeps(trace, states, k);
  }

  /** When a shutdown has passed its clear step and every procedure has ended, every
      connection ever dialled is closed. */
  lemma NothingLeaks(trace: seq<Event>, states: seq<State>, k: nat)
    requires Run(trace, states) && k <= |trace| && states[k].cleared
    requires forall i :: 0 <= i < |states[k].procs| ==> states[k].procs[i].Done?
    ensures states[k].open == {}
  {
    RunKeeps(trace, states, k);
  }

  /** Once closed, nothing is published any more. */
  lemma ClosedStep(s: State, e: Event)
    requires s.closed && Enabled(s, e)
    ensures Apply(s, e).closed && (s.cleared ==> Apply(s, e).cleared)
    ensures Apply(s, e).published.Some? ==> Apply(s, e).published == s.published
  {
    hide Holds;
    if e.Publish? {
    } else if e.Mark? {
    } else if e.Clear? {
    } else {
      assert Apply(s, e).published == s.published;
    }
  }

  lemma {:induction false} NonePublishedAfterClear(trace: seq<Event>, states: seq<State>, k: nat, l: nat)
    requires Run(trace, states) && k <= l <= |trace| && states[k].cleared
    ensures states[l].published.None? && !states[l].connected && states[l].cleared
    decreases l
  {
    hide Apply, Enabled;
    RunKeeps(trace, states, l);
    if k < l {
      RunKeeps(trace, states, l - 1);
      NonePublishedAfterClear(trace, states, k, l - 1);
      ClosedStep(states[l - 1], trace[l - 1]);
    }
  }

  /** c has been published or failed: only closing it is left. */
  ghost predicate Retired(s: State, c: Conn) {
    && c in s.dialled && s.published != Some(c)
    && forall i :: 0 <= i < |s.procs| && Holds(s.procs[i]) == Some(c) ==> s.procs[i].Disposing?
  }

  lemma RetiredMoved(s: State, s': State, i: nat, more: seq<Proc>, c: Conn)
    requires Retired(s, c) && Moved(s, s', i, more) && s'.published != Some(c)
    requires Holds(s'.procs[i]) == Some(c) ==> s'.procs[i].Disposing?
    ensures Retired(s', c)
  {
  }

  lemma RetiredAt(s: State, i: nat, c: Conn)
    requires Retired(s, c) && At(s, i) && Holds(s.procs[i]) == Some(c)
    ensures s.procs[i].Disposing?
  {
  }

  lemma RetiredKept(s: State, e: Event, c: Conn)
    requires Inv(s) && Enabled(s, e) && Retired(s, c)
    ensures Retired(Apply(s, e), c)
  {
    if e.Dial? || e.IoFails? || e.Cancel? || e.CleanUp? || e.WatchdogClose? {
      hide Inv, SetProc;
    } else {
      hide Inv, Retired;
      AtProc(s, e.i);
      if Holds(s.procs[e.i]) == Some(c) { RetiredAt(s, e.i, c); }
      RetiredDialled(s, c);
      if e.Publish? { RetiredPublish(s, e.i, c); }
      else if DiallingStep(e) { RetiredDialling(s, e, c); }
      else if ClosingStep(e) { RetiredClosing(s, e, c); }
      else { RetiredFailing(s, e, c); }
    }
  }

  lemma RetiredPublish(s: State, i: nat, c: Conn)
    requires Enabled(s, Publish(i)) && Retired(s, c) && c in s.dialled && s.published != Some(c) && Holds(s.procs[i]) != Some(c)
    ensures Retired(Apply(s, Publish(i)), c)
  {
    hide Retired;
    RetiredMoved(s, Apply(s, Publish(i)), i,
                 if (s.closed || s.ctxDone) && s.procs[i].InitialReady? then [CleaningUp] else [], c);
  }

  predicate DiallingStep(e: Event) {
    e.InitialFails? || e.Handshake? || e.HandshakeRejected? || e.HandshakeFails? || e.Redial?
  }

  predicate ClosingStep(e: Event) { e.CloseHeld? || e.EnterCleanup? || e.Clear? }

  lemma RetiredDialling(s: State, e: Event, c: Conn)
    requires Enabled(s, e) && Retired(s, c) && c in s.dialled && s.published != Some(c) && DiallingStep(e)
    requires Holds(s.procs[e.i]) == Some(c) ==> s.procs[e.i].Disposing?
    ensures Retired(Apply(s, e), c)
  {
    hide Retired;
    RetiredMoved(s, Apply(s, e), e.i, if e.InitialFails? || e.HandshakeRejected? then [CleaningUp] else [], c);
  }

  lemma RetiredClosing(s: State, e: Event, c: Conn)
    requires Enabled(s, e) && Retired(s, c) && c in s.dialled && s.published != Some(c) && ClosingStep(e)
    requires s.procs[e.i].Clearing? ==> s.closed
    ensures Retired(Apply(s, e), c)
  {
    hide Retired;
    RetiredMoved(s, Apply(s, e), e.i, [], c);
  }

  lemma RetiredFailing(s: State, e: Event, c: Conn)
    requires Enabled(s, e) && Retired(s, c) && (e.Mark? || e.EnterReconnect? || e.GiveUp?)
    ensures Retired(Apply(s, e), c)
  {
    hide Retired, MarkFailed, EnterFlag;
    match e
    case Mark(i) => RetiredMark(s, i, c);
    case EnterReconnect(i) => RetiredEnter(s, i, c);
    case GiveUp(i) => RetiredSet(s, s.connected, false, i, Done, c);
  }

  lemma RetiredMark(s: State, i: nat, c: Conn)
    requires At(s, i) && s.procs[i].Failed? && Retired(s, c)
    ensures Retired(MarkFailed(s, i), c)
  {
    hide Retired, Holds;
    NothingHeld();
    if s.published != Some(s.procs[i].c) { RetiredSet(s, s.connected, s.reconnecting, i, Done, c); }
    else { RetiredSet(s, false, s.reconnecting, i, Starting, c); }
  }

  lemma RetiredEnter(s: State, i: nat, c: Conn)
    requires At(s, i) && s.procs[i].Starting? && Retired(s, c)
    ensures Retired(EnterFlag(s, i), c)
  {
    hide Retired, Holds;
    NothingHeld();
    if s.reconnecting { RetiredSet(s, s.connected, s.reconnecting, i, Done, c); }
    else { RetiredSet(s, s.connected, true, i, Reconnecting, c); }
  }

  lemma NothingHeld()
    ensures Holds(Done).None? && Holds(Starting).None? && Holds(Reconnecting).None?
  {
  }

  /** Procedure i moves on to p and holds nothing; the flags may change. */
  lemma RetiredSet(s: State, connected: bool, reconnecting: bool, i: nat, p: Proc, c: Conn)
    requires Retired(s, c) && At(s, i) && Holds(p).None?
    ensures Retired(s.(procs := s.procs[i := p], connected := connected, reconnecting := reconnecting), c)
  {
    hide Holds;
  }

  lemma RetiredDialled(s: State, c: Conn)
    requires Retired(s, c)
    ensures c in s.dialled && s.published != Some(c)
  {
  }

  lemma ReplacedRetires(s: State, e: Event, c: Conn)
    requires HeldOnce(s) && Enabled(s, e) && s.published == Some(c) && Apply(s, e).published != Some(c)
    ensures Retired(Apply(s, e), c)
  {
    hide InReconnect;
    if e.Publish? { PublishRetires(s, e.i, c); }
    else if e.Clear? { ClearRetires(s, e.i, c); }
    else { hide HeldOnce, Retired, Holds; }
  }

  lemma PublishRetires(s: State, i: nat, c: Conn)
    requires HeldOnce(s) && Enabled(s, Publish(i)) && s.published == Some(c) && PublishHeld(s, i).published != Some(c)
    ensures Retired(PublishHeld(s, i), c)
  {
  }

  lemma ClearRetires(s: State, i: nat, c: Conn)
    requires HeldOnce(s) && Enabled(s, Clear(i)) && s.published == Some(c)
    ensures Retired(ClearConn(s, i), c)
  {
  }

  lemma {:induction false} RetiredForever(trace: seq<Event>, states: seq<State>, k: nat, l: nat, c: Conn)
    requires Run(trace, states) && k <= l <= |trace| && Retired(states[k], c)
    ensures Retired(states[l], c)
    decreases l
  {
    hide Apply, Enabled, Retired, Inv;
    if k < l {
      RetiredForever(trace, states, k, l - 1, c);
      RunKeeps(trace, states, l - 1);
      RetiredKept(states[l - 1], trace[l - 1], c);
    }
  }

  /** A connection that has been replaced is never published again, so its failures that
      are marked after that change no connection state: they neither mark the successor
      disconnected nor start a reconnection. */
  lemma ReplacedFailuresAreHarmless(trace: seq<Event>, states: seq<State>, k: nat, l: nat, c: Conn)
    requires Run(trace, states) && k < l < |trace|
    requires states[k].published == Some(c) && states[k + 1].published != Some(c)
    requires trace[l].Mark? && states[l].procs[trace[l].i] == Failed(c)
    ensures states[l].published != Some(c)
    ensures states[l + 1] == states[l].(procs := states[l].procs[trace[l].i := Done])
  {
    RunKeeps(trace, states, k);
    ReplacedRetires(states[k], trace[k], c);
    hide Inv;
    RetiredForever(trace, states, k + 1, l, c);
  }

  /** The published connection is marked disconnected only by its own failure or by
      the clear step of a shutdown. */
  lemma OnlyItsOwnFailure(s: State, e: Event)
    requires Inv(s) && Enabled(s, e) && s.connected && !Apply(s, e).connected
    ensures (e.Mark? && s.published == Some(s.procs[e.i].c)) || e.Clear?
  {
    hide Inv;
  }

  // ---- a reconnection that starts late

  predicate Publishes(s: State, e: Event) { e.Publish? && Enabled(s, e) && !s.closed && !s.ctxDone }

  /** A failure of the published connection is marked, or a shutdown clears it. */
  predicate Downs(s: State, e: Event) {
    || (e.Mark? && Enabled(s, e) && s.published == Some(s.procs[e.i].c))
    || (e.Clear? && Enabled(s, e))
  }

  lemma ConnectedStep(s: State, e: Event)
    requires Enabled(s, e)
    ensures Apply(s, e).connected <==> Publishes(s, e) || (s.connected && !Downs(s, e))
  {
    hide Holds, InReconnect;
    if e.Publish? {
    } else if e.Mark? {
    } else if e.Clear? {
    } else {
      assert Apply(s, e).connected == s.connected;
    }
  }

  /** Whether the worker is connected again after it was down: exactly when some
      publication came since and nothing took that one down. */
  lemma {:induction false} ConnectedAgain(trace: seq<Event>, states: seq<State>, k: nat, l: nat)
    requires Run(trace, states) && k <= l <= |trace| && !states[k].connected
    ensures states[l].connected <==>
      exists j :: k <= j < l && Publishes(states[j], trace[j]) && forall x :: j < x < l ==> !Downs(states[x], trace[x])
    decreases l
  {
    hide Apply, Enabled, Publishes, Downs;
    if k < l {
      ConnectedAgain(trace, states, k, l - 1);
      ConnectedStep(states[l - 1], trace[l - 1]);
      if Publishes(states[l - 1], trace[l - 1]) {
        assert k <= l - 1 < l;
      } else if states[l - 1].connected && !Downs(states[l - 1], trace[l - 1]) {
        var j :| k <= j < l - 1 && Publishes(states[j], trace[j]) && forall x :: j < x < l - 1 ==> !Downs(states[x], trace[x]);
        assert forall x :: j < x < l ==> !Downs(states[x], trace[x]);
      }
    }
  }

  /** A reconnection asked for by the failure marked at step k enters at step l. It then
      runs although the worker is connected exactly when a publication came between the
      two and still stands. */
  lemma LateStartFindsConnection(trace: seq<Event>, states: seq<State>, k: nat, l: nat)
    requires Run(trace, states) && k < l < |trace|
    requires trace[k].Mark? && Downs(states[k], trace[k])
    requires trace[l] == EnterReconnect(trace[k].i) && !states[l].reconnecting
    ensures states[l + 1].procs[trace[k].i].Reconnecting? && states[l + 1].connected == states[l].connected
    ensures states[l].connected <==>
      exists j :: k < j < l && Publishes(states[j], trace[j]) && forall x :: j < x < l ==> !Downs(states[x], trace[x])
  {
    hide Holds, InReconnect;
    assert !states[k + 1].connected;
    ConnectedAgain(trace, states, k + 1, l);
  }

  /** A worker that is neither closed nor cancelled. */
  function Open(published: Option<Conn>, connected: bool, reconnecting: bool, dialled: set<Conn>, open: set<Conn>, procs: seq<Proc>): State {
    State(published, connected, false, false, reconnecting, dialled, open, procs, true, false)
  }

  ghost predicate Step(s: State, e: Event, t: State) { Enabled(s, e) && Apply(s, e) == t }

  const UP1 := Open(Some(1), true, false, {1}, {1}, [Done])
  const MARKED := Open(Some(1), false, false, {1}, {1}, [Done, Starting, Starting])
  const UP2 := Open(Some(2), true, false, {1, 2}, {2}, [Done, Done, Starting])

  lemma FirstConnection()
    ensures var t1 := Open(None, false, false, {1}, {1}, [Initial(1)]);
      var t2 := Open(None, false, false, {1}, {1}, [InitialReady(1)]);
      Step(START, Dial(1), t1) && Step(t1, Handshake(0), t2) && Step(t2, Publish(0), UP1)
  {
  }

  lemma TwoFailures()
    ensures var t1 := Open(Some(1), true, false, {1}, {1}, [Done, Failed(1)]);
      var t2 := Open(Some(1), true, false, {1}, {1}, [Done, Failed(1), Failed(1)]);
      var t3 := Open(Some(1), false, false, {1}, {1}, [Done, Starting, Failed(1)]);
      Step(UP1, IoFails, t1) && Step(t1, IoFails, t2) && Step(t2, Mark(1), t3) && Step(t3, Mark(2), MARKED)
  {
  }

  lemma SecondConnection()
    ensures var t1 := Open(Some(1), false, true, {1}, {1}, [Done, Reconnecting, Starting]);
      var t2 := Open(Some(1), false, true, {1, 2}, {1, 2}, [Done, Redialled(2), Starting]);
      var t3 := Open(Some(1), false, true, {1, 2}, {1, 2}, [Done, RedialledReady(2), Starting]);
      var t4 := Open(Some(2), true, true, {1, 2}, {1, 2}, [Done, Disposing(1, true), Starting]);
      && Step(MARKED, EnterReconnect(1), t1) && Step(t1, Redial(1, 2), t2) && Step(t2, Handshake(1), t3)
      && Step(t3, Publish(1), t4) && Step(t4, CloseHeld(1), UP2)
  {
  }

  lemma ThirdConnection()
    ensures var t1 := Open(Some(2), true, true, {1, 2}, {2}, [Done, Done, Reconnecting]);
      var t2 := Open(Some(2), true, true, {1, 2, 3}, {2, 3}, [Done, Done, Redialled(3)]);
      var t3 := Open(Some(2), true, true, {1, 2, 3}, {2, 3}, [Done, Done, RedialledReady(3)]);
      var t4 := Open(Some(3), true, true, {1, 2, 3}, {2, 3}, [Done, Done, Disposing(2, true)]);
      Step(UP2, EnterReconnect(2), t1) && Step(t1, Redial(2, 3), t2) && Step(t2, Handshake(2), t3) && Step(t3, Publish(2), t4)
  {
  }

  ghost const LATE_TRACE: seq<Event> := [Dial(1), Handshake(0), Publish(0), IoFails, IoFails, Mark(1), Mark(2), EnterReconnect(1), Redial(1, 2),
    Handshake(1), Publish(1), CloseHeld(1), EnterReconnect(2), Redial(2, 3), Handshake(2), Publish(2)]

  ghost const LATE_STATES: seq<State> := [START,
    Open(None, false, false, {1}, {1}, [Initial(1)]),
    Open(None, false, false, {1}, {1}, [InitialReady(1)]),
    UP1,
    Open(Some(1), true, false, {1}, {1}, [Done, Failed(1)]),
    Open(Some(1), true, false, {1}, {1}, [Done, Failed(1), Failed(1)]),
    Open(Some(1), false, false, {1}, {1}, [Done, Starting, Failed(1)]),
    MARKED,
    Open(Some(1), false, true, {1}, {1}, [Done, Reconnecting, Starting]),
    Open(Some(1), false, true, {1, 2}, {1, 2}, [Done, Redialled(2), Starting]),
    Open(Some(1), false, true, {1, 2}, {1, 2}, [Done, RedialledReady(2), Starting]),
    Open(Some(2), true, true, {1, 2}, {1, 2}, [Done, Disposing(1, true), Starting]),
    UP2,
    Open(Some(2), true, true, {1, 2}, {2}, [Done, Done, Reconnecting]),
    Open(Some(2), true, true, {1, 2, 3}, {2, 3}, [Done, Done, Redialled(3)]),
    Open(Some(2), true, true, {1, 2, 3}, {2, 3}, [Done, Done, RedialledReady(3)]),
    Open(Some(3), true, true, {1, 2, 3}, {2, 3}, [Done, Done, Disposing(2, true)])]

  lemma LateRun()
    ensures Run(LATE_TRACE, LATE_STATES)
  {
    FirstConnection();
    TwoFailures();
    SecondConnection();
    ThirdConnection();
    var trace, states := LATE_TRACE, LATE_STATES;
    hide Step, Open, Run;
    forall x | 0 <= x < |trace| ensures Step(states[x], trace[x], states[x + 1]) { }
    StepsRun(trace, states);
  }

  /** Two reads fail on the first connection. One reconnection publishes the second
      connection and ends; the other, entering after that, replaces the second
      connection, on which nothing has failed. */
  lemma LateStartReplacesConnection() returns (trace: seq<Event>, states: seq<State>, k: nat)
    ensures Run(trace, states) && k < |trace|
    ensures states[k].published == Some(2) && states[k].connected && states[k + 1].published == Some(3)
    ensures forall x :: 0 <= x < |trace| && trace[x].IoFails? ==> states[x].published == Some(1)
    ensures forall x :: 0 <= x < |trace| ==> !trace[x].Cancel? && !trace[x].CleanUp? && !trace[x].Clear?
  {
    hide Run;
    LateRun();
    trace, states, k := LATE_TRACE, LATE_STATES, 15;
  }

  lemma StepsRun(trace: seq<Event>, states: seq<State>)
    requires |states| == |trace| + 1 && states[0] == START
    requires forall x :: 0 <= x < |trace| ==> Step(states[x], trace[x], states[x + 1])
    ensures Run(trace, states)
  {
    forall k | 0 <= k < |trace| ensures Enabled(states[k], trace[k]) && states[k + 1] == Apply(states[k], trace[k]) {
      assert Step(states[k], trace[k], states[k + 1]);
    }
  }

  // ---- the sections on the worker's own fields

  class WorkerConnection {
    var conn: Option<Conn>
    var msgReader: Option<nat>
    var connected: bool
    var closed: bool
    var ctxDone: bool

    method PublishConnection(c: Conn, reader: nat) returns (oldConn: Option<Conn>, published: bool)
      modifies this`conn, this`msgReader, this`connected
      ensures published == !(closed || ctxDone)
      ensures published ==> oldConn == old(conn) && conn == Some(c) && msgReader == Some(reader) && connected
      ensures !published ==> oldConn.None? && conn == old(conn) && msgReader == old(msgReader) && connected == old(connected)
    {
      if closed || ctxDone { return None, false; }
      oldConn := conn;
      conn, msgReader, connected := Some(c), Some(reader), true;
      published := true;
    }

    /** `reader` is None for a failed write, which has no reader to compare. */
    method MarkDisconnectedIfCurrent(c: Option<Conn>, reader: Option<nat>) returns (marked: bool)
      modifies this`connected
      ensures marked == (c.Some? && conn == c && (reader.Some? ==> msgReader == reader))
      ensures connected == (old(connected) && !marked)
    {
      if c.None? || conn != c || (reader.Some? && msgReader != reader) { return false; }
      connected := false;
      return true;
    }

    /** Returns the connection that the caller closes, at most once for each. */
    method ClearConnection() returns (toClose: Option<Conn>)
      requires closed
      modifies this`conn, this`msgReader, this`connected
      ensures toClose == old(conn) && conn.None? && msgReader.None? && !connected
    {
      toClose := conn;
      conn, msgReader, connected := None, None, false;
    }
  }
}
