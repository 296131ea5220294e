/** What the daemon does not keep: a closed session may have a status other than
    CLOSED, and a registered session may find an older generation's worker in its
    slot. For each, exactly the steps that cause it, and runs in which they happen. */
module DaemonLimits {
  import opened Base
  import opened SessionTurn
  import opened DaemonRegistry
  import opened SessionStore
  import opened DaemonFencing
  import opened DaemonInvariant
  import opened DaemonTheorems
  import opened DaemonSafety

  // ---- Closed without status CLOSED

  predicate Tidy(r: Registry, m: MetaRef)
    requires m in r.metas
  {
    r.metas[m].closed ==> r.metas[m].status == StatusClosed
  }

  /** spawnWorkerForSession for a meta that is closed and still registered; it tests
      only that the meta is current and the daemon not stopped. */
  predicate SpawnsClosed(s: State, e: Event, m: MetaRef)
    requires m in s.reg.metas
  {
    e.Spawn? && e.m == m && s.reg.metas[m].closed && Current(s.reg, m) && !s.stopped
  }

  lemma TidyMeta(r: Registry, r': Registry, m: MetaRef, k: MetaRef)
    requires m in r.metas && k in r'.metas && r'.metas == r.metas[k := r'.metas[k]]
    requires Tidy(r, m) && (k == m ==> Tidy(r', m))
    ensures m in r'.metas && Tidy(r', m)
  {
  }

  lemma TidySame(r: Registry, r': Registry, m: MetaRef)
    requires m in r.metas && r'.metas == r.metas && Tidy(r, m)
    ensures m in r'.metas && Tidy(r', m)
  {
  }

  lemma TidySections(r: Registry, m: MetaRef, k: MetaRef)
    requires m in r.metas && k in r.metas && Tidy(r, m)
    ensures m in BeginCodexTurn(r, k).metas && Tidy(BeginCodexTurn(r, k), m)
    ensures m in RollbackTurn(r, k).metas && Tidy(RollbackTurn(r, k), m)
    ensures m in BeginCancelIfCurrent(r, k).metas && Tidy(BeginCancelIfCurrent(r, k), m)
  {
    hide Current, TurnAdmitted, CanCancel;
  }

  lemma TidyRestart(r: Registry, m: MetaRef, k: MetaRef)
    requires m in r.metas && k in r.metas && Tidy(r, m)
    ensures m in MarkRestart(r, k).metas && Tidy(MarkRestart(r, k), m)
    ensures m in ReadyTimeout(r, k).metas && Tidy(ReadyTimeout(r, k), m)
  {
    hide Current;
  }

  lemma TidyFailCancel(r: Registry, m: MetaRef, k: MetaRef, token: nat, h: Option<HandleRef>)
    requires m in r.metas && k in r.metas && Tidy(r, m)
    ensures m in FailCancel(r, k, token).metas && Tidy(FailCancel(r, k, token), m)
    ensures m in CommitCancelFailure(r, k, token, h).metas && Tidy(CommitCancelFailure(r, k, token, h), m)
  {
    hide Current, CanFailCancelling;
  }

  lemma TidyWatchdog(r: Registry, m: MetaRef, k: MetaRef, token: nat)
    requires m in r.metas && k in r.metas && Tidy(r, m)
    ensures m in WatchdogExpires(r, k, token).metas && Tidy(WatchdogExpires(r, k, token), m)
  {
    hide Current, CanFailCancelling;
  }

  lemma TidyMessages(r: Registry, m: MetaRef, k: MetaRef, h: HandleRef, text: string)
    requires m in r.metas && k in r.metas && Tidy(r, m)
    ensures m in CommitReady(r, k, h).metas && Tidy(CommitReady(r, k, h), m)
    ensures m in AddOutput(r, k, text).metas && Tidy(AddOutput(r, k, text), m)
    ensures m in SetCliSession(r, k, text).metas && Tidy(SetCliSession(r, k, text), m)
    ensures m in CompleteTurn(r, k).metas && Tidy(CompleteTurn(r, k), m)
  {
    hide Current, ReadyAccepted;
  }

  lemma TidyWorkers(r: Registry, m: MetaRef, k: MetaRef, h: HandleRef, remove: bool)
    requires m in r.metas && k in r.metas && Tidy(r, m)
    ensures m in WorkerExit(r, h).metas && Tidy(WorkerExit(r, h), m)
    ensures m in MarkClosed(r, k, remove).metas && Tidy(MarkClosed(r, k, remove), m)
  {
  }

  lemma TidyRouted(s: State, o: nat, m: MetaRef)
    requires CanAdvance(s, o) && s.ops[o].Routed? && m in s.reg.metas && Tidy(s.reg, m)
    ensures m in AdvanceRouted(s, o).reg.metas && Tidy(AdvanceRouted(s, o).reg, m)
  {
    hide Tidy, CommitReady, AddOutput, SetCliSession, CompleteTurn, ReadyAccepted;
    var k, h := s.ops[o].m, s.ops[o].h;
    match s.ops[o].msg
    case ReadyMsg => TidyMessages(s.reg, m, k, h, "");
    case OutputMsg(line) => TidyMessages(s.reg, m, k, h, line);
    case BoundMsg(id) => TidyMessages(s.reg, m, k, h, id);
    case TurnCompletedMsg => TidyMessages(s.reg, m, k, h, "");
    case CloseMsg =>
  }

  lemma TidyAdvance(s: State, o: nat, m: MetaRef)
    requires CanAdvance(s, o) && m in s.reg.metas && Tidy(s.reg, m)
    ensures m in AdvanceOp(s, o).reg.metas && Tidy(AdvanceOp(s, o).reg, m)
  {
    hide Tidy, AdvanceRouted, AdvanceCreate, AdvanceRollback, AdvancePersist, AdvanceClose, AdvancePurge, ReadyTimeout;
    var op, r := s.ops[o], s.reg;
    if op.Routed? { TidyRouted(s, o, m); }
    else if op.TimedOut? { TidyRestart(r, m, op.m); }
    else if op.StopHandle? { TidySame(r, CloseConn(r, op.h), m); }
    else if op.ReadyHandle? { TidySame(r, MarkReady(r, op.h), m); }
    else { TidyFileStep(s, o, m); }
  }

  lemma TidyFileStep(s: State, o: nat, m: MetaRef)
    requires CanAdvance(s, o) && Holding(s.ops[o]).Some? && m in s.reg.metas && Tidy(s.reg, m)
    ensures m in AdvanceOp(s, o).reg.metas && Tidy(AdvanceOp(s, o).reg, m)
  {
    hide Tidy, MarkClosed, Purge, Register, Rollback, Current, Waiting;
    var op, r := s.ops[o], s.reg;
    if op.CloseMark? { TidyWorkers(r, m, op.m, HandleRef(op.m, 0), op.removeWorker); }
    else if op.CreateRegister? { TidySlots(r, m, op.m); }
    else if op.RollbackDrop? { TidySlots(r, m, op.m); }
    else if op.PurgeDrop? { TidySlots(r, m, MetaRef(op.id, 0)); }
    else { TidySame(r, r, m); }
  }

  lemma TidySlots(r: Registry, m: MetaRef, k: MetaRef)
    requires m in r.metas && Tidy(r, m)
    ensures Purge(r, k.id).metas == r.metas && Register(r, k).metas == r.metas && Rollback(r, k).metas == r.metas
    ensures Tidy(Purge(r, k.id), m) && Tidy(Register(r, k), m) && Tidy(Rollback(r, k), m)
  {
  }

  lemma SpawnUntidy(s: State, e: Event, m: MetaRef)
    requires Enabled(s, e) && e.Spawn? && m in s.reg.metas && Tidy(s.reg, m)
    ensures m in Apply(s, e).reg.metas
    ensures Tidy(Apply(s, e).reg, m) <==> !SpawnsClosed(s, e, m)
  {
  }

  /** A step parts Closed from CLOSED for a meta exactly when it spawns a worker for
      that meta while it is closed, registered and the daemon not stopped. */
  lemma StatusStep(s: State, e: Event, m: MetaRef)
    requires Enabled(s, e) && m in s.reg.metas && Tidy(s.reg, m)
    ensures m in Apply(s, e).reg.metas
    ensures Tidy(Apply(s, e).reg, m) <==> !SpawnsClosed(s, e, m)
  {
    hide Tidy, AdvanceOp, Current;
    var r := s.reg;
    if e.Spawn? { SpawnUntidy(s, e, m); }
    else if e.Advance? { TidyAdvance(s, e.o, m); }
    else if e.Exit? { TidyExit(r, m, e.h); }
    else if e.Connect? { if Admits(r, e.id, e.instance) { TidySame(r, Apply(s, e).reg, m); } }
    else if e.NewMeta? { TidyMeta(r, Apply(s, e).reg, m, e.m); }
    else if e.EchoInput? { TidyMessages(r, m, e.m, HandleRef(m, 0), e.line); }
    else { TidySection(s, e, m); }
  }

  lemma TidyExit(r: Registry, m: MetaRef, h: HandleRef)
    requires m in r.metas && Tidy(r, m)
    ensures m in WorkerExit(r, h).metas && Tidy(WorkerExit(r, h), m)
  {
    TidyWorkers(r, m, m, h, false);
  }

  lemma TidySection(s: State, e: Event, m: MetaRef)
    requires Enabled(s, e) && m in s.reg.metas && Tidy(s.reg, m)
    requires !e.Spawn? && !e.Advance? && !e.Exit? && !e.Connect? && !e.NewMeta? && !e.EchoInput?
    ensures m in Apply(s, e).reg.metas && Tidy(Apply(s, e).reg, m)
  {
    hide Tidy, BeginCodexTurn, RollbackTurn, BeginCancelIfCurrent, WatchdogExpires, FailCancel, CommitCancelFailure, MarkRestart;
    var r := s.reg;
    if e.BeginTurn? || e.RollbackSend? || e.CancelTurn? { TidySections(r, m, e.m); }
    else if e.Restart? { TidyRestart(r, m, e.m); }
    else if e.Watchdog? { TidyWatchdog(r, m, e.m, e.token); }
    else if e.CancelFailed? { TidyFailCancel(r, m, e.m, e.token, None); }
    else if e.CancelSendFailed? { TidyFailCancel(r, m, e.m, e.token, e.tried); }
  }

  /** In every run in which no worker is spawned for m while it is closed, m has status
      CLOSED whenever it is closed. */
  lemma {:induction false} ClosedIsClosedWithoutSpawn(disk: Files, trace: seq<Event>, states: seq<State>, k: nat, m: MetaRef)
    requires Run(disk, trace, states) && k <= |trace|
    requires forall j :: 0 <= j < k && m in states[j].reg.metas ==> !SpawnsClosed(states[j], trace[j], m)
    ensures m in states[k].reg.metas ==> Tidy(states[k].reg, m)
  {
    hide Apply, Enabled, SpawnsClosed, Tidy;
    if k == 0 {
      RestoredTidy(disk, m);
    } else {
      ClosedIsClosedWithoutSpawn(disk, trace, states, k - 1, m);
      if m in states[k - 1].reg.metas {
        StatusStep(states[k - 1], trace[k - 1], m);
      } else {
        NewTidy(states[k - 1], trace[k - 1], m);
      }
    }
  }

  lemma RestoredTidy(disk: Files, m: MetaRef)
    ensures m in Restore(disk).reg.metas ==> Tidy(Restore(disk).reg, m)
  {
  }

  /** A meta that appears is open. */
  lemma NewTidy(s: State, e: Event, m: MetaRef)
    requires Enabled(s, e) && m !in s.reg.metas
    ensures m in Apply(s, e).reg.metas ==> Tidy(Apply(s, e).reg, m)
  {
    if e.Advance? {
      hide Tidy;
      NoNewMetas(s, e.o);
    } else {
      hide Current, Admits;
    }
  }

  lemma NoNewMetas(s: State, o: nat)
    requires CanAdvance(s, o)
    ensures AdvanceOp(s, o).reg.metas.Keys == s.reg.metas.Keys
  {
    hide Current, Holding, AdvanceRouted, MarkClosed;
    var op := s.ops[o];
    if op.Routed? { RoutedFrame(s, o); }
    else if op.CloseMark? { MarkNoNewMetas(s.reg, op.m, op.removeWorker); }
  }

  lemma MarkNoNewMetas(r: Registry, m: MetaRef, remove: bool)
    requires m in r.metas
    ensures MarkClosed(r, m, remove).metas.Keys == r.metas.Keys
  {
  }

  /** Sections that leave registrations, slots and owners alone. */
  predicate SameSlots(r: Registry, r': Registry) {
    r'.sessions == r.sessions && r'.workers == r.workers && r'.workerOwners == r.workerOwners
  }

  lemma MessageFrame(r: Registry, m: MetaRef, h: HandleRef, text: string)
    requires m in r.metas
    ensures forall r' :: r' in {CommitReady(r, m, h), AddOutput(r, m, text), SetCliSession(r, m, text), CompleteTurn(r, m)} ==>
      SameSlots(r, r') && r'.metas.Keys == r.metas.Keys
  {
    hide ReadyAccepted;
  }

  lemma RoutedFrame(s: State, o: nat)
    requires CanAdvance(s, o) && s.ops[o].Routed?
    ensures SameSlots(s.reg, AdvanceRouted(s, o).reg) && AdvanceRouted(s, o).reg.metas.Keys == s.reg.metas.Keys
  {
    hide CommitReady, AddOutput, SetCliSession, CompleteTurn, ReadyAccepted, Holding, Current;
    var m, h := s.ops[o].m, s.ops[o].h;
    match s.ops[o].msg
    case ReadyMsg => MessageFrame(s.reg, m, h, "");
    case OutputMsg(line) => MessageFrame(s.reg, m, h, line);
    case BoundMsg(id) => MessageFrame(s.reg, m, h, id);
    case TurnCompletedMsg => MessageFrame(s.reg, m, h, "");
    case CloseMsg =>
  }

  // ---- continuations

  ghost predicate Leads(s: State, trace: seq<Event>, t: State)
    decreases |trace|
  {
    if trace == [] then s == t else Enabled(s, trace[0]) && Leads(Apply(s, trace[0]), trace[1..], t)
  }

  lemma LeadsStep(s: State, e: Event, trace: seq<Event>, t: State)
    requires Enabled(s, e) && Leads(Apply(s, e), trace, t)
    ensures Leads(s, [e] + trace, t)
  {
    hide Apply, Enabled;
    assert ([e] + trace)[1..] == trace;
  }

  /** Three events in a row. */
  lemma LeadsThree(s: State, e1: Event, e2: Event, e3: Event) returns (trace: seq<Event>, t: State)
    requires Enabled(s, e1) && Enabled(Apply(s, e1), e2) && Enabled(Apply(Apply(s, e1), e2), e3)
    ensures t == Apply(Apply(Apply(s, e1), e2), e3) && Leads(s, trace, t)
  {
    hide Apply, Enabled;
    var s1 := Apply(s, e1);
    var s2 := Apply(s1, e2);
    t := Apply(s2, e3);
    assert Leads(t, [], t);
    LeadsStep(s2, e3, [], t);
    LeadsStep(s1, e2, [e3] + [], t);
    LeadsStep(s, e1, [e2] + ([e3] + []), t);
    trace := [e1] + ([e2] + ([e3] + []));
  }

  lemma {:induction false} LeadsThen(s: State, a: seq<Event>, t: State, b: seq<Event>, u: State)
    requires Leads(s, a, t) && Leads(t, b, u)
    ensures Leads(s, a + b, u)
    decreases |a|
  {
    hide Apply, Enabled;
    if a == [] {
      assert a + b == b;
    } else {
      LeadsThen(Apply(s, a[0]), a[1..], t, b, u);
      assert (a + b)[1..] == a[1..] + b;
    }
  }

  /** A continuation of the restored state is a run. */
  lemma {:induction false} RunFrom(s: State, trace: seq<Event>, t: State) returns (states: seq<State>)
    requires Leads(s, trace, t)
    ensures |states| == |trace| + 1 && states[0] == s && states[|trace|] == t
    ensures forall k :: 0 <= k < |trace| ==> Enabled(states[k], trace[k]) && states[k + 1] == Apply(states[k], trace[k])
    decreases |trace|
  {
    hide Apply, Enabled;
    if trace == [] {
      states := [s];
    } else {
      var rest := RunFrom(Apply(s, trace[0]), trace[1..], t);
      states := [s] + rest;
      forall k | 0 <= k < |trace| ensures Enabled(states[k], trace[k]) && states[k + 1] == Apply(states[k], trace[k]) {
        if k > 0 { assert trace[k] == trace[1..][k - 1] && states[k] == rest[k - 1]; }
      }
    }
  }

  /** A session closed by its user while its worker stays: markSessionMetaClosed. */
  lemma Closes(s: State, m: MetaRef) returns (trace: seq<Event>, t: State)
    requires m in s.reg.metas && Current(s.reg, m) && m.id !in s.fileLock
    ensures Leads(s, trace, t)
    ensures m in t.reg.metas && t.reg.metas[m].closed && t.reg.metas[m].status == StatusClosed && Current(t.reg, m)
    ensures t.stopped == s.stopped && t.reg.handles == s.reg.handles
  {
    hide Leads;
    var o, e := |s.ops|, Submit(CloseWait(m, false));
    assert Apply(Apply(s, e), Acquire(o)).ops[o] == CloseMark(m, false);
    trace, t := LeadsThree(s, e, Acquire(o), Advance(o));
  }

  /** From any state with an open registered session whose lock is free, a run leads to
      that session being closed and yet SPAWNING. */
  lemma ClosedCanBeSpawning(s: State, m: MetaRef, h: HandleRef) returns (trace: seq<Event>, t: State)
    requires m in s.reg.metas && Current(s.reg, m) && m.id !in s.fileLock && !s.stopped
    requires h.spawner == m && h !in s.reg.handles
    ensures Leads(s, trace, t)
    ensures m in t.reg.metas && t.reg.metas[m].closed && t.reg.metas[m].status == Spawning && Current(t.reg, m)
  {
    var a, u := Closes(s, m);
    var e := Spawn(m, h, 0, true);
    t := Apply(u, e);
    SpawnStatus(u, m, h);
    assert Leads(t, [], t);
    LeadsStep(u, e, [], t);
    LeadsThen(s, a, u, [e] + [], t);
    trace := a + ([e] + []);
  }

  lemma SpawnStatus(s: State, m: MetaRef, h: HandleRef)
    requires m in s.reg.metas && Current(s.reg, m) && !s.stopped && h.spawner == m && h !in s.reg.handles
    ensures var e := Spawn(m, h, 0, true);
      Enabled(s, e) && var t := Apply(s, e);
        m in t.reg.metas && t.reg.metas[m].status == Spawning && t.reg.metas[m].closed == s.reg.metas[m].closed && Current(t.reg, m)
  {
  }

  // ---- the worker in the slot

  /** The worker in the slot of a registered session is one the session owns. */
  predicate SlotOwned(r: Registry, id: Id) {
    id in r.sessions && id in r.workers ==> OwnedBy(r, r.workers[id], r.sessions[id])
  }

  /** Registration of a new session under an ID whose slot still has a worker. */
  predicate InheritsWorker(s: State, e: Event, id: Id) {
    Registering(s, e) && s.ops[e.o].m.id == id && id in s.reg.workers && !OwnedBy(s.reg, s.reg.workers[id], s.ops[e.o].m)
  }

  /** Rollback of a session that has a worker. */
  predicate LeavesWorker(s: State, e: Event, id: Id) {
    && e.Advance? && e.o < |s.ops| && s.ops[e.o].RollbackDrop? && s.ops[e.o].m.id == id
    && Current(s.reg, s.ops[e.o].m) && id in s.reg.workers
  }

  predicate SlotFree(r: Registry, id: Id) { id !in r.sessions ==> id !in r.workers }

  lemma TurnSectionSlots(r: Registry, m: MetaRef, token: nat, h: Option<HandleRef>)
    requires m in r.metas
    ensures SameSlots(r, BeginCodexTurn(r, m)) && SameSlots(r, RollbackTurn(r, m)) && SameSlots(r, BeginCancelIfCurrent(r, m))
    ensures SameSlots(r, FailCancel(r, m, token)) && SameSlots(r, CommitCancelFailure(r, m, token, h))
  {
    hide Current, TurnAdmitted, CanCancel, CanFailCancelling;
  }

  lemma RestartSlots(r: Registry, m: MetaRef, token: nat)
    requires m in r.metas
    ensures SameSlots(r, MarkRestart(r, m)) && SameSlots(r, WatchdogExpires(r, m, token))
  {
    hide Current, CanFailCancelling;
  }

  lemma SectionSlots(s: State, e: Event)
    requires Enabled(s, e) && !e.Spawn? && !e.Advance? && !e.Exit?
    ensures SameSlots(s.reg, Apply(s, e).reg)
  {
    hide Current, Admits, BeginCodexTurn, RollbackTurn, BeginCancelIfCurrent, FailCancel, CommitCancelFailure, MarkRestart, WatchdogExpires;
    if e.BeginTurn? || e.RollbackSend? || e.CancelTurn? { TurnSectionSlots(s.reg, e.m, 0, None); }
    else if e.CancelFailed? { TurnSectionSlots(s.reg, e.m, e.token, None); }
    else if e.CancelSendFailed? { TurnSectionSlots(s.reg, e.m, e.token, e.tried); }
    else if e.Restart? { RestartSlots(s.reg, e.m, 0); }
    else if e.Watchdog? { RestartSlots(s.reg, e.m, e.token); }
  }

  lemma ExitSlots(r: Registry, h: HandleRef, id: Id)
    requires WellFormed(r)
    ensures SlotOwned(r, id) ==> SlotOwned(WorkerExit(r, h), id)
    ensures SlotFree(r, id) ==> SlotFree(WorkerExit(r, h), id)
  {
  }

  lemma InstallSlots(r: Registry, m: MetaRef, h: HandleRef, startOk: bool, id: Id)
    requires WellFormed(r) && m in r.metas && h !in r.handles && h.spawner == m
    ensures SlotOwned(r, id) ==> SlotOwned(Install(r, m, h, startOk), id)
    ensures SlotFree(r, id) ==> SlotFree(Install(r, m, h, startOk), id)
  {
  }

  lemma MarkSlots(r: Registry, m: MetaRef, remove: bool, id: Id)
    requires WellFormed(r) && m in r.metas
    ensures SlotOwned(r, id) ==> SlotOwned(MarkClosed(r, m, remove), id)
    ensures SlotFree(r, id) ==> SlotFree(MarkClosed(r, m, remove), id)
  {
  }

  lemma PurgeSlots(r: Registry, other: Id, id: Id)
    requires WellFormed(r)
    ensures SlotOwned(r, id) ==> SlotOwned(Purge(r, other), id)
    ensures SlotFree(r, id) ==> SlotFree(Purge(r, other), id)
  {
  }

  lemma OtherOpSlots(s: State, o: nat)
    requires CanAdvance(s, o) && !s.ops[o].CreateRegister? && !s.ops[o].RollbackDrop? && !s.ops[o].CloseMark? && !s.ops[o].PurgeDrop?
    ensures SameSlots(s.reg, AdvanceOp(s, o).reg)
  {
    hide Current, AdvanceRouted, SameSlots;
    if s.ops[o].Routed? { RoutedFrame(s, o); } else { PlainOpSlots(s, o); }
  }

  lemma PlainOpSlots(s: State, o: nat)
    requires CanAdvance(s, o) && !s.ops[o].CreateRegister? && !s.ops[o].RollbackDrop? && !s.ops[o].CloseMark? && !s.ops[o].PurgeDrop?
    requires !s.ops[o].Routed?
    ensures SameSlots(s.reg, AdvanceOp(s, o).reg)
  {
    hide Current;
  }

  lemma AdvanceSlots(s: State, o: nat, id: Id)
    requires WellFormed(s.reg) && CanAdvance(s, o)
    ensures SlotOwned(s.reg, id) ==> (SlotOwned(AdvanceOp(s, o).reg, id) <==> !InheritsWorker(s, Advance(o), id))
    ensures SlotFree(s.reg, id) ==> (SlotFree(AdvanceOp(s, o).reg, id) <==> !LeavesWorker(s, Advance(o), id))
  {
    hide WellFormed, AdvancePersist, AdvanceRouted, MarkClosed, Purge;
    var op, r := s.ops[o], s.reg;
    if op.CreateRegister? { RegisterSlots(s, o, id); }
    else if op.RollbackDrop? { RollbackSlots(s, o, id); }
    else if op.CloseMark? { MarkSlots(r, op.m, op.removeWorker, id); }
    else if op.PurgeDrop? { PurgeSlots(r, op.id, id); }
    else { OtherOpSlots(s, o); }
  }

  lemma RegisterSlots(s: State, o: nat, id: Id)
    requires CanAdvance(s, o) && s.ops[o].CreateRegister?
    ensures SlotOwned(s.reg, id) ==> (SlotOwned(AdvanceOp(s, o).reg, id) <==> !InheritsWorker(s, Advance(o), id))
    ensures SlotFree(s.reg, id) ==> (SlotFree(AdvanceOp(s, o).reg, id) <==> !LeavesWorker(s, Advance(o), id))
  {
  }

  lemma RollbackSlots(s: State, o: nat, id: Id)
    requires CanAdvance(s, o) && s.ops[o].RollbackDrop?
    ensures SlotOwned(s.reg, id) ==> (SlotOwned(AdvanceOp(s, o).reg, id) <==> !InheritsWorker(s, Advance(o), id))
    ensures SlotFree(s.reg, id) ==> (SlotFree(AdvanceOp(s, o).reg, id) <==> !LeavesWorker(s, Advance(o), id))
  {
  }

  /** A step leaves a registered session with a foreign worker in its slot exactly when
      it registers the session under an ID whose slot still holds one, and a step leaves
      a worker in the slot of an unregistered ID exactly when it rolls back a session
      that has one. No exit, spawn, close or purge does either. */
  lemma SlotStep(s: State, e: Event, id: Id)
    requires Inv(s) && Enabled(s, e)
    ensures SlotOwned(s.reg, id) ==> (SlotOwned(Apply(s, e).reg, id) <==> !InheritsWorker(s, e, id))
    ensures SlotFree(s.reg, id) ==> (SlotFree(Apply(s, e).reg, id) <==> !LeavesWorker(s, e, id))
  {
    WellFormedHere(s);
    hide Inv, WellFormed, AdvanceOp, Install, WorkerExit, Current;
    if e.Advance? { AdvanceSlots(s, e.o, id); }
    else if e.Spawn? { InstallSlots(s.reg, e.m, e.h, e.startOk, id); }
    else if e.Exit? { ExitSlots(s.reg, e.h, id); }
    else { SectionSlots(s, e); }
  }

  /** In every run without the rollback of a session that has a worker, the worker in a
      session's slot is its own. */
  lemma {:induction false} SlotsAreOwnedWithoutRollback(disk: Files, trace: seq<Event>, states: seq<State>, k: nat, id: Id)
    requires Run(disk, trace, states) && k <= |trace|
    requires forall j :: 0 <= j < k ==> !LeavesWorker(states[j], trace[j], id)
    ensures SlotOwned(states[k].reg, id) && SlotFree(states[k].reg, id)
  {
    hide Inv, Apply, Enabled, LeavesWorker, SlotOwned, SlotFree, InheritsWorker, Restore;
    if k == 0 {
      RestoredSlots(disk, id);
    } else {
      SlotsAreOwnedWithoutRollback(disk, trace, states, k - 1, id);
      RunKeeps(disk, trace, states, k - 1);
      SlotStep(states[k - 1], trace[k - 1], id);
      FreeIsNotInherited(states[k - 1], trace[k - 1], id);
    }
  }

  lemma RestoredSlots(disk: Files, id: Id)
    ensures SlotOwned(Restore(disk).reg, id) && SlotFree(Restore(disk).reg, id)
  {
  }

  lemma FreeIsNotInherited(s: State, e: Event, id: Id)
    requires SlotFree(s.reg, id)
    ensures !InheritsWorker(s, e, id)
  {
  }

  /** A fresh meta gets an ID that is free and not locked. */
  lemma Registers(s: State, m: MetaRef) returns (trace: seq<Event>, t: State)
    requires m !in s.reg.metas && m.id !in s.reg.sessions && m.id !in s.fileLock
    ensures Leads(s, trace, t)
    ensures m in t.reg.metas && t.reg.metas[m] == Meta(true, false, Created, NO_TURN, [], "") && Current(t.reg, m)
    ensures t.reg.metas.Keys == s.reg.metas.Keys + {m} && t.reg.handles == s.reg.handles && t.reg.workers == s.reg.workers
    ensures t.fileLock == s.fileLock && t.stopped == s.stopped && |t.ops| == |s.ops| + 1 && t.ops[..|s.ops|] == s.ops
  {
    hide Leads, Phase;
    var o, e := |s.ops|, NewMeta(m, true);
    var s1 := Apply(s, e);
    assert Enabled(s1, Acquire(o));
    var s2 := Apply(s1, Acquire(o));
    assert s2.ops[o] == CreateRegister(m);
    assert Enabled(s2, Advance(o));
    var a, s3 := LeadsThree(s, e, Acquire(o), Advance(o));
    var b;
    b, t := SavesSession(s3, m, o);
    LeadsThen(s, a, s3, b, t);
    trace := a + b;
  }

  lemma SavesSession(s: State, m: MetaRef, o: nat) returns (trace: seq<Event>, t: State)
    requires o < |s.ops| && s.ops[o] == CreateSave(m) && m in s.reg.metas
    ensures Leads(s, trace, t) && t.reg == s.reg && t.fileLock == s.fileLock - {m.id} && t.stopped == s.stopped
    ensures t.ops == s.ops[o := Done]
  {
    t := Apply(s, Advance(o));
    assert Leads(t, [], t);
    LeadsStep(s, Advance(o), [], t);
    trace := [Advance(o)] + [];
  }

  /** Rolling back a session while the daemon stops: the worker stays in its slot. */
  lemma RollsBack(s: State, m: MetaRef) returns (trace: seq<Event>, t: State)
    requires m in s.reg.metas && Current(s.reg, m) && m.id !in s.fileLock && s.stopped
    ensures Leads(s, trace, t)
    ensures t.reg == s.reg.(sessions := s.reg.sessions - {m.id}) && t.fileLock == s.fileLock && t.stopped
    ensures |t.ops| == |s.ops| + 1 && t.ops[..|s.ops|] == s.ops
  {
    hide Leads;
    var o, e := |s.ops|, Submit(RollbackWait(m));
    var s1 := Apply(s, e);
    assert Enabled(s1, Acquire(o));
    var s2 := Apply(s1, Acquire(o));
    assert s2.ops[o] == RollbackDrop(m);
    var a, s3 := LeadsThree(s, e, Acquire(o), Advance(o));
    var b;
    b, t := RemovesFile(s3, m, o);
    LeadsThen(s, a, s3, b, t);
    trace := a + b;
  }

  lemma RemovesFile(s: State, m: MetaRef, o: nat) returns (trace: seq<Event>, t: State)
    requires o < |s.ops| && s.ops[o] == RollbackRemove(m) && m in s.reg.metas
    ensures Leads(s, trace, t) && t.reg == s.reg && t.fileLock == s.fileLock - {m.id} && t.stopped == s.stopped
    ensures t.ops == s.ops[o := Done]
  {
    t := Apply(s, Advance(o));
    assert Leads(t, [], t);
    LeadsStep(s, Advance(o), [], t);
    trace := [Advance(o)] + [];
  }

  /** A creation that was waiting takes the ID. */
  lemma TakesId(s: State, m: MetaRef, o: nat) returns (trace: seq<Event>, t: State)
    requires o < |s.ops| && s.ops[o] == CreateWait(m) && m in s.reg.metas && m.id !in s.reg.sessions && m.id !in s.fileLock
    ensures Leads(s, trace, t) && t.reg == s.reg.(sessions := s.reg.sessions[m.id := m])
  {
    var s1 := Apply(s, Acquire(o));
    t := Apply(s1, Advance(o));
    assert Leads(t, [], t);
    LeadsStep(s1, Advance(o), [], t);
    LeadsStep(s, Acquire(o), [Advance(o)] + [], t);
    trace := [Acquire(o)] + ([Advance(o)] + []);
  }

  /** A worker is started for m while m2 waits to be created, and the daemon stops. */
  lemma SpawnsAndStops(s: State, m: MetaRef, m2: MetaRef, h: HandleRef) returns (trace: seq<Event>, t: State)
    requires m in s.reg.metas && Current(s.reg, m) && m2 !in s.reg.metas && m2.id == m.id && !s.stopped
    requires h.spawner == m && h !in s.reg.handles
    ensures Leads(s, trace, t)
    ensures t.stopped && t.fileLock == s.fileLock && m in t.reg.metas && m2 in t.reg.metas && Current(t.reg, m)
    ensures m.id in t.reg.workers && t.reg.workers[m.id] == h && OwnedBy(t.reg, h, m)
    ensures |s.ops| < |t.ops| && t.ops[|s.ops|] == CreateWait(m2)
  {
    hide Leads;
    var s1 := Apply(s, NewMeta(m2, true));
    SpawnBinds(s1, m, h);
    hide Install;
    trace, t := LeadsThree(s, NewMeta(m2, true), Spawn(m, h, 0, true), StopDaemon);
  }

  lemma SpawnBinds(s: State, m: MetaRef, h: HandleRef)
    requires m in s.reg.metas && Current(s.reg, m)
    ensures var r := Install(s.reg, m, h, true);
      && r.metas.Keys == s.reg.metas.Keys && Current(r, m) && m.id in r.workers && r.workers[m.id] == h && OwnedBy(r, h, m)
  {
  }

  /** Under any free ID a run leads to a registered session that finds in its slot the
      worker of a session that was rolled back. */
  lemma SlotCanBeForeign(s: State, m: MetaRef, m2: MetaRef, h: HandleRef) returns (trace: seq<Event>, t: State)
    requires m !in s.reg.metas && m2 !in s.reg.metas && m != m2 && m.id == m2.id && !s.stopped
    requires m.id !in s.reg.sessions && m.id !in s.fileLock && h.spawner == m && h !in s.reg.handles
    ensures Leads(s, trace, t)
    ensures Current(t.reg, m2) && m.id in t.reg.workers && t.reg.workers[m.id] == h && OwnedBy(t.reg, h, m)
    ensures !SlotOwned(t.reg, m.id)
  {
    hide Leads;
    var a, s1 := Registers(s, m);
    var b, s2 := SpawnsAndStops(s1, m, m2, h);
    var c, s3 := RollsBack(s2, m);
    assert s3.ops[|s1.ops|] == s3.ops[..|s2.ops|][|s1.ops|] == CreateWait(m2);
    var d, s4 := TakesId(s3, m2, |s1.ops|);
    LeadsThen(s2, c, s3, d, s4);
    LeadsThen(s1, b, s2, c + d, s4);
    LeadsThen(s, a, s1, b + (c + d), s4);
    trace, t := a + (b + (c + d)), s4;
  }

  lemma EmptyStart()
    ensures var s := Restore(map[]);
      s.reg.sessions == map[] && s.reg.metas == map[] && s.reg.handles == map[] && s.fileLock == map[] && !s.stopped
  {
  }

  /** A daemon started on an empty directory has, under any ID, a run to a closed
      session with status SPAWNING. */
  lemma ClosedSpawningRun(id: Id) returns (trace: seq<Event>, states: seq<State>)
    ensures Run(map[], trace, states)
    ensures var r := states[|trace|].reg;
      id in r.sessions && r.sessions[id] in r.metas && r.metas[r.sessions[id]].closed && r.metas[r.sessions[id]].status == Spawning
  {
    hide Leads, Enabled, Apply, Restore;
    EmptyStart();
    var m := MetaRef(id, 0);
    var a, s1 := Registers(Restore(map[]), m);
    var b, s2 := ClosedCanBeSpawning(s1, m, HandleRef(m, 0));
    LeadsThen(Restore(map[]), a, s1, b, s2);
    trace := a + b;
    states := RunFrom(Restore(map[]), trace, s2);
  }

  /** ... and one to a session with a foreign worker in its slot. */
  lemma ForeignWorkerRun(id: Id) returns (trace: seq<Event>, states: seq<State>)
    ensures Run(map[], trace, states) && !SlotOwned(states[|trace|].reg, id)
  {
    hide Leads, Enabled, Apply, Restore, SlotOwned;
    EmptyStart();
    var m := MetaRef(id, 0);
    var s;
    trace, s := SlotCanBeForeign(Restore(map[]), m, MetaRef(id, 1), HandleRef(m, 0));
    states := RunFrom(Restore(map[]), trace, s);
  }
}
