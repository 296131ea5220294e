/** What the daemon's invariant gives in every run: generations of a reused ID are
    isolated from each other, the directory agrees with the registry whenever an
    ID's lock is free, and a closed session stays closed across a restart. */
module DaemonSafety {
  import opened Base
  import opened SessionTurn
  import opened DaemonRegistry
  import opened SessionStore
  import opened DaemonFencing
  import opened DaemonInvariant
  import opened DaemonTheorems

  // ---- isolation

  /** The meta an operation acts for; purges act for an ID, not for a meta. */
  function OpActor(op: Op): Option<MetaRef> {
    match op
    case PurgeWait(_) => None
    case PurgeDrop(_) => None
    case PurgeRemove(_) => None
    case Done => None
    case StopHandle(h) => Some(h.spawner)
    case ReadyHandle(h) => Some(h.spawner)
    case _ => Some(op.m)
  }

  function Actor(s: State, e: Event): Option<MetaRef> {
    match e
    case Submit(op) => OpActor(op)
    case Acquire(o) => if o < |s.ops| then OpActor(s.ops[o]) else None
    case Advance(o) => if o < |s.ops| then OpActor(s.ops[o]) else None
    case Exit(h) => Some(h.spawner)
    case Connect(_, instance, _) => Some(instance.spawner)
    case StopDaemon => None
    case _ => Some(e.m)
  }

  /** The two steps by which a meta that is not registered reaches beyond itself. */
  predicate Registering(s: State, e: Event) {
    && e.Advance? && e.o < |s.ops| && s.ops[e.o].CreateRegister? && s.ops[e.o].m.id !in s.reg.sessions
  }

  predicate RemovingFile(s: State, e: Event) { e.Advance? && e.o < |s.ops| && s.ops[e.o].RollbackRemove? }

  /** Registration and worker slots are as before, and so is everything that belongs
      to metas other than m: their fields, their workers' handles and ownership,
      their restart fences. */
  ghost predicate OwnReg(r: Registry, r': Registry, m: MetaRef) {
    && r'.sessions == r.sessions && r'.workers == r.workers
    && (forall k :: k in r.metas && k != m ==> k in r'.metas && r'.metas[k] == r.metas[k])
    && (forall h :: h in r.handles && h.spawner != m ==> h in r'.handles && r'.handles[h] == r.handles[h])
    && (forall h: HandleRef :: h.spawner != m ==> (h in r'.workerOwners <==> h in r.workerOwners))
    && (forall k: MetaRef :: k != m ==> (k in r'.pendingRestart <==> k in r.pendingRestart))
    && (forall k :: k != m && k in r.pendingRestart ==> r'.pendingRestart[k] == r.pendingRestart[k])
  }

  ghost predicate OnlyOwn(s: State, s': State, m: MetaRef) {
    OwnReg(s.reg, s'.reg, m) && s'.disk == s.disk
  }

  /** m takes a free ID, and nothing else changes. */
  ghost predicate RegistersItself(s: State, s': State, m: MetaRef) {
    && m.id !in s.reg.sessions && s'.reg == s.reg.(sessions := s.reg.sessions[m.id := m]) && s'.disk == s.disk
  }

  /** Nothing is registered under m's ID; the file under it goes, which m itself wrote. */
  ghost predicate RemovesOwnFile(s: State, s': State, m: MetaRef) {
    && m.id !in s.reg.sessions && s'.reg == s.reg && s'.disk == s.disk - {m.id}
    && (m.id in s.disk ==> s.disk[m.id].gen == m)
  }

  /** What a step for a meta that is not registered may do. */
  ghost predicate Isolated(s: State, e: Event, s': State, m: MetaRef) {
    if Registering(s, e) then RegistersItself(s, s', m)
    else if RemovingFile(s, e) then RemovesOwnFile(s, s', m)
    else OnlyOwn(s, s', m)
  }

  lemma OwnMeta(r: Registry, r': Registry, m: MetaRef)
    requires m in r'.metas && r' == r.(metas := r.metas[m := r'.metas[m]])
    ensures OwnReg(r, r', m)
  {
  }

  lemma OwnHandle(r: Registry, r': Registry, h: HandleRef)
    requires h in r'.handles && r' == r.(handles := r.handles[h := r'.handles[h]])
    ensures OwnReg(r, r', h.spawner)
  {
  }

  lemma LockedOpIsolated(s: State, o: nat, m: MetaRef)
    requires Inv(s) && CanAdvance(s, o) && OpActor(s.ops[o]) == Some(m) && !Current(s.reg, m)
    requires Holding(s.ops[o]).Some?
    ensures Isolated(s, Advance(o), AdvanceOp(s, o), m)
  {
    AtOp(s, o);
    hide Inv, WellFormed;
    var s' := AdvanceOp(s, o);
    if !s.ops[o].CreateRegister? { assert s'.reg == s.reg; }
    if !s.ops[o].RollbackRemove? { assert s'.disk == s.disk; }
  }

  lemma FreeOpIsolated(s: State, o: nat, m: MetaRef)
    requires Inv(s) && CanAdvance(s, o) && OpActor(s.ops[o]) == Some(m) && !Current(s.reg, m)
    requires Holding(s.ops[o]).None?
    ensures OnlyOwn(s, AdvanceOp(s, o), m)
  {
    hide Inv, OwnReg, WellFormed;
    AtOp(s, o);
    var r, r' := s.reg, AdvanceOp(s, o).reg;
    match s.ops[o]
    case StopHandle(h) => OwnHandle(r, r', h);
    case ReadyHandle(h) => OwnHandle(r, r', h);
    case TimedOut(_, h) => OwnMeta(r, r', m);
    case Routed(_, h, msg) => RoutedIsolated(s, o, m);
  }

  lemma RoutedIsolated(s: State, o: nat, m: MetaRef)
    requires CanAdvance(s, o) && s.ops[o].Routed? && s.ops[o].m == m && !Current(s.reg, m)
    ensures OnlyOwn(s, AdvanceRouted(s, o), m)
  {
    hide OwnReg, Holding, Current, Spawned;
    var r, r' := s.reg, AdvanceRouted(s, o).reg;
    SameOwn(r, m);
    match s.ops[o].msg
    case ReadyMsg =>
    case OutputMsg(line) => OwnMeta(r, r', m);
    case BoundMsg(id) => OwnMeta(r, r', m);
    case TurnCompletedMsg => if r.metas[m].turn.active { OwnMeta(r, r', m); }
    case CloseMsg =>
  }

  lemma ExitIsolated(r: Registry, h: HandleRef)
    requires WellFormed(r) && !Current(r, h.spawner)
    ensures OwnReg(r, WorkerExit(r, h), h.spawner)
  {
    assert WorkerExit(r, h) == r.(workerOwners := r.workerOwners - {h});
  }

  lemma WorkerStepIsolated(s: State, e: Event, m: MetaRef)
    requires Inv(s) && Enabled(s, e) && Actor(s, e) == Some(m) && !Current(s.reg, m)
    requires e.Exit? || e.Connect? || e.Spawn?
    ensures OnlyOwn(s, Apply(s, e), m)
  {
    hide Inv, OwnReg;
    WellFormedHere(s);
    match e
    case Exit(h) => ExitIsolated(s.reg, h);
    case Connect(id, instance, conn) => SameOwn(s.reg, m);
    case Spawn(_, h, pid, ok) => SameOwn(s.reg, m);
  }

  lemma SameOwn(r: Registry, m: MetaRef)
    ensures OwnReg(r, r, m)
  {
  }

  lemma SectionIsolated(s: State, e: Event, m: MetaRef)
    requires Enabled(s, e) && Actor(s, e) == Some(m) && !Current(s.reg, m)
    requires e.BeginTurn? || e.RollbackSend? || e.CancelTurn? || e.Watchdog?
      || e.CancelFailed? || e.CancelSendFailed? || e.Restart?
    ensures OnlyOwn(s, Apply(s, e), m)
  {
    hide OwnReg;
    SameOwn(s.reg, m);
    if e.RollbackSend? { OwnMeta(s.reg, Apply(s, e).reg, m); }
  }

  lemma CaptureIsolated(s: State, e: Event, m: MetaRef)
    requires Enabled(s, e) && Actor(s, e) == Some(m) && !Current(s.reg, m)
    requires e.NewMeta? || e.Submit? || e.Acquire? || e.Route? || e.ReadyTimer? || e.EchoInput?
    ensures OnlyOwn(s, Apply(s, e), m)
  {
    hide OwnReg;
    SameOwn(s.reg, m);
    match e
    case NewMeta(_, codex) => OwnMeta(s.reg, Apply(s, e).reg, m);
    case Submit(op) =>
    case Acquire(o) =>
    case Route(_, h, msg) =>
    case ReadyTimer(_, h) =>
    case EchoInput(_, line) => OwnMeta(s.reg, Apply(s, e).reg, m);
  }

  lemma OnlyOwnIsIsolated(s: State, e: Event, s': State, m: MetaRef)
    requires OnlyOwn(s, s', m) && (e.Advance? ==> e.o < |s.ops| && Holding(s.ops[e.o]).None?)
    ensures Isolated(s, e, s', m)
  {
    hide OnlyOwn;
  }

  lemma StepIsolated(s: State, e: Event, m: MetaRef)
    requires Inv(s) && Enabled(s, e) && Actor(s, e) == Some(m) && !Current(s.reg, m)
    ensures Isolated(s, e, Apply(s, e), m)
  {
    hide Inv, OnlyOwn, AdvanceOp, SpawnWorker, Isolated;
    if e.Advance? {
      if Holding(s.ops[e.o]).Some? {
        LockedOpIsolated(s, e.o, m);
      } else {
        FreeOpIsolated(s, e.o, m);
        OnlyOwnIsIsolated(s, e, Apply(s, e), m);
      }
    } else {
      if e.Exit? || e.Connect? || e.Spawn? { WorkerStepIsolated(s, e, m); }
      else if e.NewMeta? || e.Submit? || e.Acquire? || e.Route? || e.ReadyTimer? || e.EchoInput? { CaptureIsolated(s, e, m); }
      else { SectionIsolated(s, e, m); }
      OnlyOwnIsIsolated(s, e, Apply(s, e), m);
    }
  }

  /** In every run, a step taken for a meta that is not registered, or for a worker
      such a meta spawned (late message, exit, close, spawn, watchdog, restart, ready
      timeout, connection with an old instance ID), changes only that meta's own
      fields and its own workers. The two exceptions belong to its creation: it may
      take an ID nobody has, and, rolled back, removes the file it wrote itself. */
  lemma GenerationsAreIsolated(disk: Files, trace: seq<Event>, states: seq<State>, k: nat, m: MetaRef)
    requires Run(disk, trace, states) && k < |trace|
    requires Actor(states[k], trace[k]) == Some(m) && !Current(states[k].reg, m)
    ensures Isolated(states[k], trace[k], states[k + 1], m)
  {
    hide Inv, Isolated, Actor;
    RunKeeps(disk, trace, states, k);
    StepIsolated(states[k], trace[k], m);
  }

  // ---- directory and registry

  /** Whenever no operation holds an ID's file lock, a registered session has a file
      of its own generation with the same Closed flag, and an unregistered ID has no
      file or a closed one. */
  lemma DirectoryAgrees(disk: Files, trace: seq<Event>, states: seq<State>, k: nat, id: Id)
    requires Run(disk, trace, states) && k <= |trace| && id !in states[k].fileLock
    ensures var s := states[k];
      if id in s.reg.sessions then
        && s.reg.sessions[id] in s.reg.metas && id in s.disk
        && s.disk[id].gen == s.reg.sessions[id]
        && s.disk[id].closed == s.reg.metas[s.reg.sessions[id]].closed
      else
        id !in s.disk || s.disk[id].closed
  {
    hide Inv, Apply, Enabled, Restore;
    RunKeeps(disk, trace, states, k);
    AgreeHere(states[k], id);
  }

  /** At most one operation is past an ID's file lock, and the lock names it. */
  lemma OneOperationPerFile(disk: Files, trace: seq<Event>, states: seq<State>, k: nat, o: nat, p: nat)
    requires Run(disk, trace, states) && k <= |trace| && o < |states[k].ops| && p < |states[k].ops|
    requires Holding(states[k].ops[o]).Some? && Holding(states[k].ops[o]) == Holding(states[k].ops[p])
    ensures o == p
  {
    RunKeeps(disk, trace, states, k);
  }

  // ---- a closed generation

  /** Closed and not READY, no new turn, no worker connected that was not before. */
  ghost predicate StaysClosed(r: Registry, r': Registry, m: MetaRef)
    requires m in r.metas
  {
    && m in r'.metas && r'.metas[m].closed && r'.metas[m].status != Ready
    && r'.metas[m].turn.token == r.metas[m].turn.token
    && (forall h :: h in r'.handles && h.spawner == m ==>
          r'.handles[h].conn.None? || (h in r.handles && r'.handles[h].conn == r.handles[h].conn))
  }

  /** A section that changes one meta, and what it may do to that meta if closed. */
  lemma ClosedMeta(r: Registry, r': Registry, m: MetaRef, k: MetaRef)
    requires m in r.metas && r.metas[m].closed && r.metas[m].status != Ready && k in r'.metas
    requires r' == r.(metas := r.metas[k := r'.metas[k]], pendingRestart := r'.pendingRestart, sessions := r'.sessions,
                      workers := r'.workers, workerOwners := r'.workerOwners)
    requires k == m ==> r'.metas[m].closed && r'.metas[m].status != Ready && r'.metas[m].turn.token == r.metas[m].turn.token
    ensures StaysClosed(r, r', m)
  {
  }

  lemma ClosedHandle(r: Registry, r': Registry, m: MetaRef, h: HandleRef)
    requires m in r.metas && r.metas[m].closed && r.metas[m].status != Ready && h in r'.handles && h in r.handles
    requires r' == r.(handles := r.handles[h := r'.handles[h]])
    requires h.spawner != m || r'.handles[h].conn == r.handles[h].conn || r'.handles[h].conn.None?
    ensures StaysClosed(r, r', m)
  {
  }

  /** A closed meta's step never makes it READY, reopens it, begins a turn on it or
      attaches a connection to one of its workers; nor does anyone else's step. */
  lemma ClosedStep(s: State, e: Event, m: MetaRef)
    requires Inv(s) && Enabled(s, e) && m in s.reg.metas && s.reg.metas[m].closed
    ensures m in s.reg.metas && StaysClosed(s.reg, Apply(s, e).reg, m)
  {
    hide Inv, StaysClosed, AdvanceOp;
    WellFormedHere(s);
    MetaClosed(s.reg, m);
    ClosedMeta(s.reg, s.reg, m, m);
    if e.Advance? {
      ClosedAdvance(s, e.o, m);
    } else if e.Spawn? {
      ClosedSpawn(s.reg, m, e.m, e.h, e.startOk);
    } else if e.Exit? {
      ClosedExit(s.reg, m, e.h);
    } else if e.Connect? {
      ClosedConnect(s, e, m);
    } else if e.NewMeta? || e.EchoInput? {
      ClosedMeta(s.reg, Apply(s, e).reg, m, e.m);
    } else {
      ClosedSection(s, e, m);
    }
  }

  lemma ClosedConnect(s: State, e: Event, m: MetaRef)
    requires WellFormed(s.reg) && e.Connect? && Enabled(s, e)
    requires m in s.reg.metas && s.reg.metas[m].closed && s.reg.metas[m].status != Ready
    ensures StaysClosed(s.reg, Apply(s, e).reg, m)
  {
    hide StaysClosed;
    ClosedMeta(s.reg, s.reg, m, m);
    if Admits(s.reg, e.id, e.instance) { ClosedHandle(s.reg, Apply(s, e).reg, m, e.instance); }
  }

  lemma ClosedSection(s: State, e: Event, m: MetaRef)
    requires Enabled(s, e) && m in s.reg.metas && s.reg.metas[m].closed && s.reg.metas[m].status != Ready
    requires !e.Advance? && !e.Spawn? && !e.Exit? && !e.Connect? && !e.NewMeta? && !e.EchoInput?
    ensures StaysClosed(s.reg, Apply(s, e).reg, m)
  {
    hide StaysClosed, BeginCodexTurn, RollbackTurn, BeginCancelIfCurrent;
    hide WatchdogExpires, FailCancel, CommitCancelFailure, MarkRestart;
    ClosedMeta(s.reg, s.reg, m, m);
    if e.BeginTurn? || e.RollbackSend? || e.CancelTurn? { ClosedTurnSections(s.reg, m, e.m); }
    else if e.Restart? { ClosedRestart(s.reg, m, e.m); }
    else if e.Watchdog? || e.CancelFailed? { ClosedCancelSections(s.reg, m, e.m, e.token, None); }
    else if e.CancelSendFailed? { ClosedCancelSections(s.reg, m, e.m, e.token, e.tried); }
  }

  lemma ClosedTurnSections(r: Registry, m: MetaRef, k: MetaRef)
    requires m in r.metas && k in r.metas && r.metas[m].closed && r.metas[m].status != Ready
    ensures StaysClosed(r, BeginCodexTurn(r, k), m) && StaysClosed(r, RollbackTurn(r, k), m)
    ensures StaysClosed(r, BeginCancelIfCurrent(r, k), m)
  {
    hide StaysClosed, Current;
    ClosedMeta(r, BeginCodexTurn(r, k), m, k);
    ClosedMeta(r, RollbackTurn(r, k), m, k);
    ClosedMeta(r, BeginCancelIfCurrent(r, k), m, k);
  }

  lemma ClosedRestart(r: Registry, m: MetaRef, k: MetaRef)
    requires m in r.metas && k in r.metas && r.metas[m].closed && r.metas[m].status != Ready
    ensures StaysClosed(r, MarkRestart(r, k), m)
  {
    hide StaysClosed, Current;
    ClosedMeta(r, MarkRestart(r, k), m, k);
  }

  lemma ClosedCancelSections(r: Registry, m: MetaRef, k: MetaRef, token: nat, h: Option<HandleRef>)
    requires m in r.metas && k in r.metas && r.metas[m].closed && r.metas[m].status != Ready
    ensures StaysClosed(r, WatchdogExpires(r, k, token), m) && StaysClosed(r, FailCancel(r, k, token), m)
    ensures StaysClosed(r, CommitCancelFailure(r, k, token, h), m)
  {
    hide StaysClosed, Current;
    ClosedMeta(r, r, m, m);
    ClosedMeta(r, WatchdogExpires(r, k, token), m, k);
    ClosedMeta(r, FailCancel(r, k, token), m, k);
  }

  lemma ClosedSpawn(r: Registry, m: MetaRef, k: MetaRef, h: HandleRef, startOk: bool)
    requires m in r.metas && k in r.metas && r.metas[m].closed && r.metas[m].status != Ready && h !in r.handles
    ensures StaysClosed(r, Install(r, k, h, startOk), m)
  {
  }

  lemma ClosedExit(r: Registry, m: MetaRef, h: HandleRef)
    requires m in r.metas && r.metas[m].closed && r.metas[m].status != Ready
    ensures StaysClosed(r, WorkerExit(r, h), m)
  {
  }

  lemma ClosedAdvance(s: State, o: nat, m: MetaRef)
    requires CanAdvance(s, o) && m in s.reg.metas && s.reg.metas[m].closed && s.reg.metas[m].status != Ready
    ensures StaysClosed(s.reg, AdvanceOp(s, o).reg, m)
  {
    hide StaysClosed, AdvanceCreate, AdvanceRollback, AdvancePersist, AdvanceClose, AdvancePurge, AdvanceRouted, ReadyTimeout;
    var op, r := s.ops[o], s.reg;
    if op.Routed? { ClosedRouted(s, o, m); }
    else if op.TimedOut? { ClosedTimeout(r, m, op.m); }
    else if op.StopHandle? { ClosedHandle(r, CloseConn(r, op.h), m, op.h); }
    else if op.ReadyHandle? { ClosedHandle(r, MarkReady(r, op.h), m, op.h); }
    else { ClosedFileStep(s, o, m); }
  }

  lemma ClosedTimeout(r: Registry, m: MetaRef, k: MetaRef)
    requires m in r.metas && k in r.metas && r.metas[m].closed && r.metas[m].status != Ready
    ensures StaysClosed(r, ReadyTimeout(r, k), m)
  {
    hide StaysClosed;
    ClosedMeta(r, ReadyTimeout(r, k), m, k);
  }

  lemma ClosedFileStep(s: State, o: nat, m: MetaRef)
    requires CanAdvance(s, o) && m in s.reg.metas && s.reg.metas[m].closed && s.reg.metas[m].status != Ready
    requires Holding(s.ops[o]).Some?
    ensures StaysClosed(s.reg, AdvanceOp(s, o).reg, m)
  {
    hide StaysClosed, Current, Waiting, MarkClosed, Purge, Register, Rollback;
    var op, r := s.ops[o], s.reg;
    ClosedMeta(r, r, m, m);
    if op.CreateRegister? { ClosedSlots(r, m, op.m); }
    else if op.RollbackDrop? { ClosedSlots(r, m, op.m); }
    else if op.PurgeDrop? { ClosedSlots(r, m, MetaRef(op.id, 0)); }
    else if op.CloseMark? { ClosedMark(r, m, op.m, op.removeWorker); }
  }

  lemma ClosedSlots(r: Registry, m: MetaRef, k: MetaRef)
    requires m in r.metas && r.metas[m].closed && r.metas[m].status != Ready
    ensures StaysClosed(r, Register(r, k), m) && StaysClosed(r, Rollback(r, k), m) && StaysClosed(r, Purge(r, k.id), m)
  {
    hide StaysClosed, Current;
    ClosedMeta(r, Register(r, k), m, m);
    ClosedMeta(r, Rollback(r, k), m, m);
    ClosedMeta(r, Purge(r, k.id), m, m);
  }

  lemma ClosedMark(r: Registry, m: MetaRef, k: MetaRef, removeWorker: bool)
    requires m in r.metas && k in r.metas && r.metas[m].closed && r.metas[m].status != Ready
    ensures StaysClosed(r, MarkClosed(r, k, removeWorker), m)
  {
    hide StaysClosed, WorkerToClose;
    ClosedMeta(r, r, m, m);
    ClosedMeta(r, MarkClosed(r, k, removeWorker), m, k);
  }

  lemma ClosedRouted(s: State, o: nat, m: MetaRef)
    requires CanAdvance(s, o) && s.ops[o].Routed?
    requires m in s.reg.metas && s.reg.metas[m].closed && s.reg.metas[m].status != Ready
    ensures StaysClosed(s.reg, AdvanceRouted(s, o).reg, m)
  {
    hide StaysClosed, Current, Holding, Waiting, ReadyAccepted;
    var r, k := s.reg, s.ops[o].m;
    ClosedMeta(r, r, m, m);
    match s.ops[o].msg
    case ReadyMsg => ClosedMeta(r, CommitReady(r, k, s.ops[o].h), m, k);
    case OutputMsg(line) => ClosedMeta(r, AddOutput(r, k, line), m, k);
    case BoundMsg(id) => ClosedMeta(r, SetCliSession(r, k, id), m, k);
    case TurnCompletedMsg => ClosedMeta(r, CompleteTurn(r, k), m, k);
    case CloseMsg =>
  }

  /** Once closed, a generation stays closed for the rest of the run: it is never
      READY again, no further turn begins on it, and none of its workers is connected
      but on a connection it had then. */
  lemma {:induction false} ClosedIsFinal(disk: Files, trace: seq<Event>, states: seq<State>, k: nat, l: nat, m: MetaRef)
    requires Run(disk, trace, states) && k <= l <= |trace|
    requires m in states[k].reg.metas && states[k].reg.metas[m].closed
    ensures StaysClosed(states[k].reg, states[l].reg, m)
    decreases l
  {
    hide Inv, Apply, Enabled, WellFormed, Restore, StaysClosed;
    RunKeeps(disk, trace, states, l);
    WellFormedHere(states[l]);
    if k < l {
      ClosedIsFinal(disk, trace, states, k, l - 1, m);
      RunKeeps(disk, trace, states, l - 1);
      AtClosed(states[k].reg, states[l - 1].reg, m);
      ClosedStep(states[l - 1], trace[l - 1], m);
      ClosedTwice(states[k].reg, states[l - 1].reg, states[l].reg, m);
    } else {
      MetaClosed(states[l].reg, m);
      ClosedMeta(states[l].reg, states[l].reg, m, m);
    }
  }

  lemma AtClosed(r: Registry, r': Registry, m: MetaRef)
    requires m in r.metas && StaysClosed(r, r', m)
    ensures m in r'.metas && r'.metas[m].closed
  {
  }

  lemma ClosedTwice(r: Registry, r1: Registry, r2: Registry, m: MetaRef)
    requires m in r.metas && StaysClosed(r, r1, m) && m in r1.metas && StaysClosed(r1, r2, m)
    ensures StaysClosed(r, r2, m)
  {
  }

  /** Restarting restores, of the IDs whose lock is free, exactly those with a registered
      open session, each with its own kind, whatever other IDs are busy with. */
  lemma RestartRestoresOpenSessions(disk: Files, trace: seq<Event>, states: seq<State>, k: nat, id: Id)
    requires Run(disk, trace, states) && k <= |trace| && id !in states[k].fileLock
    ensures var s, r := states[k], Restore(states[k].disk);
      && (id in r.reg.sessions <==>
            id in s.reg.sessions && s.reg.sessions[id] in s.reg.metas && !s.reg.metas[s.reg.sessions[id]].closed)
      && (id in r.reg.sessions ==>
            var m, m' := s.reg.sessions[id], r.reg.sessions[id];
            m' in r.reg.metas && !r.reg.metas[m'].closed && r.reg.metas[m'].status == Created
            && r.reg.metas[m'].codex == s.reg.metas[m].codex)
  {
    hide Inv, Apply, Enabled;
    RunKeeps(disk, trace, states, k);
    AgreeHere(states[k], id);
    RestoreReads(states[k].disk, id);
    hide Restore;
  }

  lemma RestoreReads(disk: Files, id: Id)
    ensures var r := Restore(disk);
      && (id in r.reg.sessions <==> OpenIn(disk, id))
      && (OpenIn(disk, id) ==>
            var m := r.reg.sessions[id];
            m in r.reg.metas && !r.reg.metas[m].closed && r.reg.metas[m].status == Created && r.reg.metas[m].codex == disk[id].codex)
  {
  }

  lemma AgreeHere(s: State, id: Id)
    requires Inv(s) && id !in s.fileLock
    ensures Agree(s, id)
  {
    assert !DirtyAt(s, id);
  }
}
