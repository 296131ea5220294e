/** What holds in every run of the daemon: isolation between the generations of a
    session ID, agreement of registry and directory, and the end of a closed one. */
module DaemonTheorems {
  import opened Base
  import opened SessionTurn
  import opened DaemonRegistry
  import opened SessionStore
  import opened DaemonFencing
  import opened DaemonInvariant

  // ---- every step keeps the invariant

  lemma AtOp(s: State, o: nat)
    requires Inv(s) && o < |s.ops|
    ensures WellFormed(s.reg) && Allocated(s, s.ops[o]) && Phase(s, s.ops[o])
    ensures Holding(s.ops[o]).Some? ==> var id := Holding(s.ops[o]).value;
      id in s.fileLock && s.fileLock[id] == o && (!Dirty(s.ops[o]) ==> Agree(s, id))
  {
    if Holding(s.ops[o]).Some? && !Dirty(s.ops[o]) {
      assert !DirtyAt(s, Holding(s.ops[o]).value);
    }
  }

  lemma KeepsTurnSection(s: State, e: Event)
    requires Inv(s) && Enabled(s, e)
    requires e.BeginTurn? || e.RollbackSend? || e.CancelTurn? || e.Restart?
    ensures Inv(Apply(s, e))
  {
    hide Inv, QuietReg, MarkRestart, BeginCodexTurn, BeginCancelIfCurrent, RollbackTurn;
    WellFormedHere(s);
    match e {
      case BeginTurn(m) => QuietTurnSections(s.reg, m);
      case RollbackSend(m) => QuietTurnSections(s.reg, m);
      case CancelTurn(m) => QuietTurnSections(s.reg, m);
      case Restart(m) => QuietStatusSections(s.reg, m, HandleRef(m, 0));
    }
    QuietKeeps(s, Apply(s, e));
  }

  lemma KeepsCancelSection(s: State, e: Event)
    requires Inv(s) && Enabled(s, e)
    requires e.Watchdog? || e.CancelFailed? || e.CancelSendFailed?
    ensures Inv(Apply(s, e))
  {
    hide Inv, QuietReg, WatchdogExpires, FailCancel, CommitCancelFailure;
    WellFormedHere(s);
    match e {
      case Watchdog(m, token) => QuietWatchdog(s.reg, m, token);
      case CancelFailed(m, token) => QuietCancelSections(s.reg, m, token, None);
      case CancelSendFailed(m, token, tried) => QuietCancelSections(s.reg, m, token, tried);
    }
    QuietKeeps(s, Apply(s, e));
  }

  lemma WellFormedHere(s: State)
    requires Inv(s)
    ensures WellFormed(s.reg)
  {
  }

  lemma KeepsNewMeta(s: State, e: Event)
    requires Inv(s) && Enabled(s, e) && e.NewMeta?
    ensures Inv(Apply(s, e))
  {
    var s' := Apply(s, e);
    assert QuietReg(s.reg, s'.reg) by { hide LocksOk, OpsOk, DiskOk; }
    hide Inv, QuietReg;
    QuietKeeps(s, s');
  }

  lemma KeepsEcho(s: State, e: Event)
    requires Inv(s) && Enabled(s, e) && e.EchoInput?
    ensures Inv(Apply(s, e))
  {
    hide Inv, QuietReg;
    WellFormedHere(s);
    QuietLogSections(s.reg, e.m, e.line);
    QuietKeeps(s, Apply(s, e));
  }

  lemma KeepsSpawn(s: State, e: Event)
    requires Inv(s) && Enabled(s, e) && e.Spawn?
    ensures Inv(Apply(s, e))
  {
    WellFormedHere(s);
    if Apply(s, e) != s {
      QuietInstall(s.reg, e.m, e.h, e.startOk);
      SpawnOps(s, e);
      hide Inv, QuietReg, QuietStep;
      QuietKeeps(s, Apply(s, e));
    }
  }

  lemma SpawnOps(s: State, e: Event)
    requires WellFormed(s.reg) && Enabled(s, e) && e.Spawn? && !s.stopped && Current(s.reg, e.m)
    requires QuietReg(s.reg, Install(s.reg, e.m, e.h, e.startOk))
    requires e.m.id in s.reg.workers ==> !Bound(Install(s.reg, e.m, e.h, e.startOk), s.reg.workers[e.m.id])
    ensures QuietStep(s, Apply(s, e))
  {
    hide QuietReg, Bound, Install;
    NothingLost(s.reg, Apply(s, e).reg);
  }

  lemma NothingLost(r: Registry, r': Registry)
    requires QuietReg(r, r')
    ensures r.handles.Keys <= r'.handles.Keys && r.metas.Keys <= r'.metas.Keys
  {
  }

  lemma KeepsExit(s: State, e: Event)
    requires Inv(s) && Enabled(s, e) && e.Exit?
    ensures Inv(Apply(s, e))
  {
    hide Inv, QuietReg, WorkerExit, Bound;
    WellFormedHere(s);
    QuietExit(s.reg, e.h);
    NothingLost(s.reg, Apply(s, e).reg);
    QuietKeeps(s, Apply(s, e));
  }

  lemma SameQuiet(r: Registry)
    requires WellFormed(r)
    ensures QuietReg(r, r)
  {
  }

  lemma KeepsConnect(s: State, e: Event)
    requires Inv(s) && Enabled(s, e) && e.Connect?
    ensures Inv(Apply(s, e))
  {
    hide Inv, QuietReg, SetConn;
    WellFormedHere(s);
    if Admits(s.reg, e.id, e.instance) {
      QuietHandleSections(s.reg, e.instance, e.conn);
      QuietKeeps(s, Apply(s, e));
    }
  }

  lemma KeepsCapture(s: State, e: Event)
    requires Inv(s) && Enabled(s, e) && (e.Route? || e.ReadyTimer?)
    ensures Inv(Apply(s, e))
  {
    hide QuietReg, LocksOk, DiskOk, OpsOk;
    SameQuiet(s.reg);
    hide Inv;
    QuietKeeps(s, Apply(s, e));
  }

  lemma KeepsSubmit(s: State, e: Event)
    requires Inv(s) && Enabled(s, e) && (e.Submit? || e.StopDaemon?)
    ensures Inv(Apply(s, e))
  {
    hide QuietReg, Inv;
    WellFormedHere(s);
    SameQuiet(s.reg);
    QuietKeeps(s, Apply(s, e));
  }

  // ---- the file lock

  lemma GrantLocks(s: State, s': State, o: nat, id: Id)
    requires LocksOk(s) && o < |s.ops| && Waiting(s.ops[o]) == Some(id) && id !in s.fileLock
    requires |s'.ops| == |s.ops| && s'.ops == s.ops[o := s'.ops[o]] && Holding(s'.ops[o]) == Some(id)
    requires s'.fileLock == s.fileLock[id := o]
    ensures LocksOk(s') && forall i :: DirtyAt(s, i) ==> DirtyAt(s', i)
  {
    assert Holding(s.ops[o]).None?;
  }

  lemma FinishLocks(s: State, s': State, o: nat, id: Id)
    requires LocksOk(s) && o < |s.ops| && Holding(s.ops[o]) == Some(id)
    requires s'.ops == s.ops[o := Done] && s'.fileLock == s.fileLock - {id}
    ensures LocksOk(s') && forall i :: i != id && DirtyAt(s, i) ==> DirtyAt(s', i)
  {
  }

  lemma MoveLocks(s: State, s': State, o: nat, id: Id, more: seq<Op>)
    requires LocksOk(s) && o < |s.ops| && Holding(s.ops[o]) == Some(id)
    requires |s'.ops| == |s.ops| + |more| && s'.ops == s.ops[o := s'.ops[o]] + more && Holding(s'.ops[o]) == Some(id)
    requires s'.fileLock == s.fileLock && forall k :: 0 <= k < |more| ==> Holding(more[k]).None?
    ensures LocksOk(s') && (forall i :: i != id && DirtyAt(s, i) ==> DirtyAt(s', i))
    ensures Dirty(s'.ops[o]) ==> DirtyAt(s', id)
  {
  }

  lemma KeepsAcquire(s: State, e: Event)
    requires Inv(s) && Enabled(s, e) && e.Acquire?
    ensures Inv(Apply(s, e))
  {
    var s' := Apply(s, e);
    AtOp(s, e.o);
    GrantLocks(s, s', e.o, Waiting(s.ops[e.o]).value);
    assert forall id :: SameOn(s, s', id);
    assert Phase(s', s'.ops[e.o]) && Allocated(s', s'.ops[e.o]);
    hide Inv, LocksOk, SameOn, DirtyAt, Agree, Phase, Allocated, WellFormed;
    WellFormedHere(s);
    StepFrame(s, s', None);
  }

  // ---- the operations that hold it

  /** An operation that ends, leaving its own ID in agreement and the others alone. */
  lemma FinishKeeps(s: State, s': State, o: nat, id: Id)
    requires Inv(s) && o < |s.ops| && Holding(s.ops[o]) == Some(id)
    requires s' == Finish(s, o, id).(disk := s'.disk)
    requires forall i :: i != id ==> (i in s'.disk <==> i in s.disk) && (i in s.disk ==> s'.disk[i] == s.disk[i])
    requires Agree(s', id)
    ensures Inv(s')
  {
    WellFormedHere(s);
    SameQuiet(s.reg);
    FinishOps(s, s', o, id);
    OthersSame(s, s', id);
    assert LocksOk(s) by { LocksHere(s); }
    FinishLocks(s, s', o, id);
    hide Inv, LocksOk, SameOn, DirtyAt, Agree, WellFormed, OpsStep;
    StepFrame(s, s', Some(id));
  }

  lemma LocksHere(s: State)
    requires Inv(s)
    ensures LocksOk(s)
  {
  }

  lemma FinishOps(s: State, s': State, o: nat, id: Id)
    requires Inv(s) && o < |s.ops| && Holding(s.ops[o]) == Some(id)
    requires s'.ops == s.ops[o := Done]
    ensures OpsStep(s, s', Some(id))
  {
    LocksAlone(s, o, id);
    hide Inv, Phase, Allocated;
    assert Phase(s', Done) && Allocated(s', Done) by { PhaseDone(s'); }
  }

  lemma PhaseDone(s: State)
    ensures Phase(s, Done) && Allocated(s, Done)
  {
  }

  lemma OthersSame(s: State, s': State, id: Id)
    requires s'.reg == s.reg
    requires forall i :: i != id ==> (i in s'.disk <==> i in s.disk) && (i in s.disk ==> s'.disk[i] == s.disk[i])
    ensures forall i :: i != id ==> SameOn(s, s', i)
  {
  }

  /** No other operation holds the lock of the same ID. */
  lemma LocksAlone(s: State, o: nat, id: Id)
    requires Inv(s) && o < |s.ops| && Holding(s.ops[o]) == Some(id)
    ensures forall k :: 0 <= k < |s.ops| && k != o ==> Holding(s.ops[k]) != Some(id)
  {
  }

  /** An operation that goes on, its own ID dirty or in agreement, the others alone. */
  lemma MoveKeeps(s: State, s': State, o: nat, id: Id, more: seq<Op>)
    requires Inv(s) && o < |s.ops| && Holding(s.ops[o]) == Some(id)
    requires |s'.ops| == |s.ops| + |more| && s'.ops == s.ops[o := s'.ops[o]] + more && Holding(s'.ops[o]) == Some(id)
    requires s'.fileLock == s.fileLock && s'.disk == s.disk
    requires forall k :: 0 <= k < |more| ==> Holding(more[k]).None? && Allocated(s', more[k]) && Phase(s', more[k])
    requires WellFormed(s'.reg) && Grows(s.reg, s'.reg)
    requires forall i :: i != id ==> SameOn(s, s', i)
    requires Allocated(s', s'.ops[o]) && Phase(s', s'.ops[o])
    requires Dirty(s'.ops[o]) || Agree(s', id)
    ensures Inv(s')
  {
    MoveLocks(s, s', o, id, more);
    LocksAlone(s, o, id);
    hide Inv, LocksOk, SameOn, DirtyAt, Agree, Phase, WellFormed, Grows, Allocated;
    assert OpsStep(s, s', Some(id));
    StepFrame(s, s', Some(id));
  }

  lemma KeepsCreate(s: State, o: nat)
    requires Inv(s) && CanAdvance(s, o) && (s.ops[o].CreateRegister? || s.ops[o].CreateSave?)
    ensures Inv(AdvanceCreate(s, o))
  {
    var s', m := AdvanceCreate(s, o), s.ops[o].m;
    AtOp(s, o);
    hide Inv, LocksOk, OpsOk, DiskOk;
    if s.ops[o].CreateRegister? && m.id !in s.reg.sessions {
      assert WellFormed(s'.reg) && Grows(s.reg, s'.reg);
      assert forall i :: i != m.id ==> SameOn(s, s', i);
      MoveKeeps(s, s', o, m.id, []);
    } else {
      assert Agree(s', m.id);
      FinishKeeps(s, s', o, m.id);
    }
  }

  lemma KeepsRollback(s: State, o: nat)
    requires Inv(s) && CanAdvance(s, o) && (s.ops[o].RollbackDrop? || s.ops[o].RollbackRemove?)
    ensures Inv(AdvanceRollback(s, o))
  {
    var s', m := AdvanceRollback(s, o), s.ops[o].m;
    AtOp(s, o);
    hide Inv, LocksOk, OpsOk, DiskOk;
    if s.ops[o].RollbackDrop? && Current(s.reg, m) {
      assert WellFormed(s'.reg) && Grows(s.reg, s'.reg);
      assert forall i :: i != m.id ==> SameOn(s, s', i);
      MoveKeeps(s, s', o, m.id, []);
    } else {
      assert Agree(s', m.id);
      FinishKeeps(s, s', o, m.id);
    }
  }

  lemma KeepsPersist(s: State, o: nat)
    requires Inv(s) && CanAdvance(s, o) && (s.ops[o].PersistCheck? || s.ops[o].PersistWrite?)
    ensures Inv(AdvancePersist(s, o))
  {
    var s', m := AdvancePersist(s, o), s.ops[o].m;
    AtOp(s, o);
    SameQuiet(s.reg);
    hide Inv, LocksOk, OpsOk, DiskOk, Trimmed;
    if s.ops[o].PersistCheck? && Current(s.reg, m) && !s.reg.metas[m].closed {
      assert forall i :: i != m.id ==> SameOn(s, s', i);
      assert Agree(s', m.id);
      MoveKeeps(s, s', o, m.id, []);
    } else {
      assert Agree(s', m.id);
      FinishKeeps(s, s', o, m.id);
    }
  }

  lemma KeepsMark(s: State, o: nat)
    requires Inv(s) && CanAdvance(s, o) && s.ops[o].CloseMark? && Current(s.reg, s.ops[o].m)
    ensures Inv(AdvanceClose(s, o))
  {
    hide Inv, MarkClosed, WellFormed, Bound, WorkerToClose;
    var s', m := AdvanceClose(s, o), s.ops[o].m;
    AtOp(s, o);
    CloseMarked(s.reg, m, s.ops[o].removeWorker);
    var more := if s.ops[o].removeWorker then StopIf(WorkerToClose(s.reg, m)) else [];
    MoveKeeps(s, s', o, m.id, more);
  }

  lemma KeepsClose(s: State, o: nat)
    requires Inv(s) && CanAdvance(s, o) && (s.ops[o].CloseMark? || s.ops[o].CloseWrite?)
    ensures Inv(AdvanceClose(s, o))
  {
    var s', m := AdvanceClose(s, o), s.ops[o].m;
    if s.ops[o].CloseMark? && Current(s.reg, m) {
      KeepsMark(s, o);
    } else {
      hide Inv, WellFormed;
      AtOp(s, o);
      assert Agree(s', m.id);
      FinishKeeps(s, s', o, m.id);
    }
  }

  /** Closing a meta, and taking its worker out of the slot when asked to. */
  lemma CloseMarked(r: Registry, m: MetaRef, removeWorker: bool)
    requires WellFormed(r) && m in r.metas && Current(r, m)
    ensures var r' := MarkClosed(r, m, removeWorker);
      && WellFormed(r') && Grows(r, r') && r'.sessions == r.sessions && r'.metas.Keys == r.metas.Keys
      && r'.handles == r.handles
      && r'.metas[m].closed && r'.metas[m].codex == r.metas[m].codex
      && (forall k :: k in r.metas && k != m ==> r'.metas[k] == r.metas[k])
      && (removeWorker && WorkerToClose(r, m).Some? ==>
            WorkerToClose(r, m).value in r.handles && !Bound(r', WorkerToClose(r, m).value))
  {
  }

  lemma KeepsPurgeDrop(s: State, o: nat)
    requires Inv(s) && CanAdvance(s, o) && s.ops[o].PurgeDrop?
    ensures Inv(AdvancePurge(s, o))
  {
    hide Inv, Purge, WellFormed, Bound;
    var s', id := AdvancePurge(s, o), s.ops[o].id;
    AtOp(s, o);
    Purged(s.reg, id);
    MoveKeeps(s, s', o, id, if id in s.reg.workers then [StopHandle(s.reg.workers[id])] else []);
  }

  lemma KeepsPurge(s: State, o: nat)
    requires Inv(s) && CanAdvance(s, o) && (s.ops[o].PurgeDrop? || s.ops[o].PurgeRemove?)
    ensures Inv(AdvancePurge(s, o))
  {
    var s', id := AdvancePurge(s, o), s.ops[o].id;
    if s.ops[o].PurgeDrop? {
      KeepsPurgeDrop(s, o);
    } else {
      hide Inv, WellFormed;
      AtOp(s, o);
      assert Agree(s', id);
      FinishKeeps(s, s', o, id);
    }
  }

  lemma Purged(r: Registry, id: Id)
    requires WellFormed(r)
    ensures var r' := Purge(r, id);
      && WellFormed(r') && Grows(r, r') && r'.metas == r.metas && r'.handles == r.handles
      && r'.sessions == r.sessions - {id}
      && (id in r.workers ==> r.workers[id] in r.handles && !Bound(r', r.workers[id]))
  {
  }

  lemma RoutedQuiet(s: State, o: nat)
    requires WellFormed(s.reg) && CanAdvance(s, o) && s.ops[o].Routed?
    ensures QuietReg(s.reg, AdvanceRouted(s, o).reg)
  {
    hide WellFormed, QuietReg, CommitReady, AddOutput, SetCliSession, CompleteTurn;
    var m := s.ops[o].m;
    SameQuiet(s.reg);
    match s.ops[o].msg
    case ReadyMsg => QuietStatusSections(s.reg, m, s.ops[o].h);
    case OutputMsg(line) => QuietLogSections(s.reg, m, line);
    case BoundMsg(id) => QuietLogSections(s.reg, m, id);
    case TurnCompletedMsg => QuietComplete(s.reg, m);
    case CloseMsg =>
  }

  /** An operation without a lock goes on as `op` and leaves `more` behind. */
  lemma QuietTurnover(s: State, s': State, o: nat, op: Op, more: seq<Op>)
    requires Inv(s) && o < |s.ops| && Holding(s.ops[o]).None? && Holding(op).None?
    requires s'.ops == s.ops[o := op] + more && s'.disk == s.disk && s'.fileLock == s.fileLock
    requires QuietReg(s.reg, s'.reg) && Allocated(s', op) && Phase(s', op)
    requires forall k :: 0 <= k < |more| ==> Holding(more[k]).None? && Allocated(s', more[k]) && Phase(s', more[k])
    ensures Inv(s')
  {
    hide Inv, QuietReg, Allocated, Phase, Holding;
    QuietKeeps(s, s');
  }

  lemma KeepsRouted(s: State, o: nat)
    requires Inv(s) && CanAdvance(s, o) && s.ops[o].Routed?
    ensures Inv(AdvanceRouted(s, o))
  {
    hide Inv, QuietReg, WellFormed, CommitReady, AddOutput, SetCliSession, CompleteTurn, ReadyAccepted, Agree, Current;
    AtOp(s, o);
    RoutedQuiet(s, o);
    var s', m, h := AdvanceRouted(s, o), s.ops[o].m, s.ops[o].h;
    NothingLost(s.reg, s'.reg);
    match s.ops[o].msg
    case ReadyMsg =>
      if ReadyAccepted(s.reg, m, h) { QuietTurnover(s, s', o, ReadyHandle(h), [PersistWait(m, PutActivity)]); }
      else { QuietTurnover(s, s', o, Done, []); }
    case OutputMsg(line) => QuietTurnover(s, s', o, PersistWait(m, PutOutput(line)), []);
    case BoundMsg(id) => QuietTurnover(s, s', o, PersistWait(m, PutCliSession(id)), []);
    case TurnCompletedMsg => QuietTurnover(s, s', o, Done, []);
    case CloseMsg => QuietTurnover(s, s', o, CloseWait(m, true), []);
  }

  lemma KeepsHandleOps(s: State, o: nat)
    requires Inv(s) && CanAdvance(s, o) && (s.ops[o].StopHandle? || s.ops[o].TimedOut? || s.ops[o].ReadyHandle?)
    ensures Inv(AdvanceOp(s, o))
  {
    hide Inv, QuietReg, CloseConn, MarkReady, ReadyTimeout;
    AtOp(s, o);
    var op := s.ops[o];
    if op.TimedOut? { QuietStatusSections(s.reg, op.m, op.h); } else { QuietHandleSections(s.reg, op.h, 0); }
    QuietKeeps(s, AdvanceOp(s, o));
  }

  lemma KeepsAdvance(s: State, o: nat)
    requires Inv(s) && CanAdvance(s, o)
    ensures Inv(AdvanceOp(s, o))
  {
    hide Inv, AdvanceCreate, AdvanceRollback, AdvancePersist, AdvanceClose, AdvancePurge, AdvanceRouted;
    var op := s.ops[o];
    if op.CreateRegister? || op.CreateSave? { KeepsCreate(s, o); }
    else if op.RollbackDrop? || op.RollbackRemove? { KeepsRollback(s, o); }
    else if op.PersistCheck? || op.PersistWrite? { KeepsPersist(s, o); }
    else if op.CloseMark? || op.CloseWrite? { KeepsClose(s, o); }
    else if op.PurgeDrop? || op.PurgeRemove? { KeepsPurge(s, o); }
    else if op.Routed? { KeepsRouted(s, o); }
    else { KeepsHandleOps(s, o); }
  }

  lemma StepKeeps(s: State, e: Event)
    requires Inv(s) && Enabled(s, e)
    ensures Inv(Apply(s, e))
  {
    hide Inv, AdvanceOp, SpawnWorker;
    match e
    case NewMeta(_, _) => KeepsNewMeta(s, e);
    case Submit(_) => KeepsSubmit(s, e);
    case Acquire(_) => KeepsAcquire(s, e);
    case Advance(o) => KeepsAdvance(s, o);
    case Spawn(_, _, _, _) => KeepsSpawn(s, e);
    case Exit(_) => KeepsExit(s, e);
    case Connect(_, _, _) => KeepsConnect(s, e);
    case Route(_, _, _) => KeepsCapture(s, e);
    case ReadyTimer(_, _) => KeepsCapture(s, e);
    case BeginTurn(_) => KeepsTurnSection(s, e);
    case RollbackSend(_) => KeepsTurnSection(s, e);
    case EchoInput(_, _) => KeepsEcho(s, e);
    case CancelTurn(_) => KeepsTurnSection(s, e);
    case Watchdog(_, _) => KeepsCancelSection(s, e);
    case CancelFailed(_, _) => KeepsCancelSection(s, e);
    case CancelSendFailed(_, _, _) => KeepsCancelSection(s, e);
    case Restart(_) => KeepsTurnSection(s, e);
    case StopDaemon => KeepsSubmit(s, e);
  }

  /** A daemon started on any directory satisfies the invariant. */
  lemma RestoreHolds(disk: Files)
    ensures Inv(Restore(disk))
  {
    var s := Restore(disk);
    assert LocksOk(s) && OpsOk(s);
    assert WellFormed(s.reg);
    forall id | !DirtyAt(s, id) ensures Agree(s, id) { }
  }

  /** A run: the daemon restores a directory, then any enabled steps follow. */
  ghost predicate Run(disk: Files, trace: seq<Event>, states: seq<State>) {
    && |states| == |trace| + 1 && states[0] == Restore(disk)
    && (forall k :: 0 <= k < |trace| ==> Enabled(states[k], trace[k]) && states[k + 1] == Apply(states[k], trace[k]))
  }

  lemma {:induction false} RunKeeps(disk: Files, trace: seq<Event>, states: seq<State>, k: nat)
    requires Run(disk, trace, states) && k <= |trace|
    ensures Inv(states[k])
  {
    hide Inv, Apply, Enabled, Restore;
    if k == 0 {
      RestoreHolds(disk);
    } else {
      RunKeeps(disk, trace, states, k - 1);
      StepKeeps(states[k - 1], trace[k - 1]);
    }
  }
}
