/** The restart fence: a worker marked for a restart cannot reopen its session with
    a READY message that was already under way, until a new worker is spawned. */
module RestartFence {
  import opened Base
  import opened SessionTurn
  import opened DaemonRegistry
  import opened SessionStore
  import opened DaemonFencing
  import opened DaemonInvariant
  import opened DaemonTheorems

  // ---- the events

  /** Worker h, in the slot of the open registered session m, is to be restarted. */
  predicate Fences(s: State, e: Event, m: MetaRef, h: HandleRef) {
    && m in s.reg.metas && !s.reg.metas[m].closed
    && m.id in s.reg.sessions && s.reg.sessions[m.id] == m
    && m.id in s.reg.workers && s.reg.workers[m.id] == h
    && (|| e == Restart(m)
        || (e.Watchdog? && e.m == m && s.reg.metas[m].turn.active && s.reg.metas[m].turn.cancelling
            && s.reg.metas[m].turn.token == e.token))
  }

  /** A spawn for m that takes effect. */
  predicate Replaces(s: State, e: Event, m: MetaRef) {
    e.Spawn? && e.m == m && !s.stopped && m.id in s.reg.sessions && s.reg.sessions[m.id] == m
  }

  /** h was marked for a restart before step k, and m has not been given a worker since. */
  ghost predicate MarkedSince(trace: seq<Event>, states: seq<State>, k: nat, m: MetaRef, h: HandleRef)
    requires |states| > |trace| && k <= |trace|
  {
    exists i: nat :: i < k && Fences(states[i], trace[i], m, h)
      && forall j: nat :: i < j < k ==> !Replaces(states[j], trace[j], m)
  }

  // ---- invariant

  predicate Creating(op: Op, m: MetaRef) { (op.CreateWait? || op.CreateRegister?) && op.m == m }

  ghost predicate NoCreate(s: State, m: MetaRef) {
    forall o: nat :: o < |s.ops| ==> !Creating(s.ops[o], m)
  }

  /** A meta is created by one operation at most, and by none once it is registered. */
  ghost predicate CreateOnce(s: State) {
    && (forall m, o: nat, p: nat :: o < |s.ops| && p < |s.ops| && Creating(s.ops[o], m) && Creating(s.ops[p], m) ==> o == p)
    && (forall m, o: nat :: o < |s.ops| && Creating(s.ops[o], m) ==> !Current(s.reg, m))
  }

  /** A fenced worker is the only one its registered session may have in its slot. */
  ghost predicate FenceAt(s: State, m: MetaRef) {
    m in s.reg.pendingRestart ==>
      && m in s.reg.metas && NoCreate(s, m)
      && (Current(s.reg, m) && m.id in s.reg.workers ==> s.reg.workers[m.id] == s.reg.pendingRestart[m])
  }

  ghost predicate FenceInv(s: State) { CreateOnce(s) && forall m :: FenceAt(s, m) }

  predicate Pending(r: Registry, m: MetaRef, h: HandleRef) { m in r.pendingRestart && r.pendingRestart[m] == h }

  // ---- steps that mark nothing

  /** Creates nothing anew, fences nothing, registers nobody whose creation is not
      under way, and fills no slot. */
  ghost predicate Narrows(s: State, s': State) {
    && s'.reg.pendingRestart == s.reg.pendingRestart
    && s.reg.metas.Keys <= s'.reg.metas.Keys
    && (forall o: nat, m :: o < |s'.ops| && Creating(s'.ops[o], m) ==> o < |s.ops| && Creating(s.ops[o], m))
    && (forall m :: Current(s'.reg, m) ==> Current(s.reg, m) || (!NoCreate(s, m) && NoCreate(s', m)))
    && (forall id :: id in s'.reg.workers ==> id in s.reg.workers && s'.reg.workers[id] == s.reg.workers[id])
  }

  lemma NarrowsKeeps(s: State, s': State)
    requires FenceInv(s) && Narrows(s, s')
    ensures FenceInv(s')
  {
    hide Current;
    forall m ensures FenceAt(s', m) {
      if m in s'.reg.pendingRestart { NarrowsAt(s, s', m); }
    }
    assert CreateOnce(s) && FenceAt(s, MetaRef("", 0));
    forall m, o: nat | o < |s'.ops| && Creating(s'.ops[o], m) ensures !Current(s'.reg, m) {
      assert !NoCreate(s', m);
    }
  }

  lemma NarrowsAt(s: State, s': State, m: MetaRef)
    requires FenceAt(s, m) && Narrows(s, s')
    ensures FenceAt(s', m)
  {
    hide Current;
  }

  /** Fences are as they were, and registrations and slots at most removed. */
  predicate OnlyRemoves(r: Registry, r': Registry) {
    && r'.pendingRestart == r.pendingRestart && r.metas.Keys <= r'.metas.Keys
    && (forall id :: id in r'.sessions ==> id in r.sessions && r'.sessions[id] == r.sessions[id])
    && (forall id :: id in r'.workers ==> id in r.workers && r'.workers[id] == r.workers[id])
  }

  /** The operations are those of before, one possibly moved on, and others begun that
      create nothing. */
  ghost predicate OpsNarrow(s: State, s': State) {
    && |s.ops| <= |s'.ops|
    && (forall o: nat :: o < |s'.ops| ==>
          (o < |s.ops| && s'.ops[o] == s.ops[o]) || !(s'.ops[o].CreateWait? || s'.ops[o].CreateRegister?)
          || (o < |s.ops| && s.ops[o].CreateWait? && s'.ops[o] == CreateRegister(s.ops[o].m)))
  }

  lemma RemovalNarrows(s: State, s': State)
    requires OpsNarrow(s, s') && OnlyRemoves(s.reg, s'.reg)
    ensures Narrows(s, s')
  {
  }

  lemma SameRemoves(r: Registry, r': Registry)
    requires r'.sessions == r.sessions && r'.workers == r.workers && r'.pendingRestart == r.pendingRestart
    requires r.metas.Keys <= r'.metas.Keys
    ensures OnlyRemoves(r, r')
  {
  }

  lemma TurnRemoves(r: Registry, m: MetaRef)
    requires m in r.metas
    ensures OnlyRemoves(r, BeginCodexTurn(r, m)) && OnlyRemoves(r, RollbackTurn(r, m)) && OnlyRemoves(r, BeginCancelIfCurrent(r, m))
  {
    hide Current, TurnAdmitted, CanCancel, OnlyRemoves;
    SameRemoves(r, BeginCodexTurn(r, m));
    SameRemoves(r, RollbackTurn(r, m));
    SameRemoves(r, BeginCancelIfCurrent(r, m));
  }

  lemma CancelRemoves(r: Registry, m: MetaRef, token: nat, h: Option<HandleRef>)
    requires m in r.metas
    ensures OnlyRemoves(r, FailCancel(r, m, token)) && OnlyRemoves(r, CommitCancelFailure(r, m, token, h))
  {
    hide Current, CanFailCancelling, OnlyRemoves;
    SameRemoves(r, FailCancel(r, m, token));
    SameRemoves(r, CommitCancelFailure(r, m, token, h));
  }

  lemma StatusRemoves(r: Registry, m: MetaRef, h: HandleRef)
    requires m in r.metas
    ensures OnlyRemoves(r, CommitReady(r, m, h)) && OnlyRemoves(r, ReadyTimeout(r, m)) && OnlyRemoves(r, CompleteTurn(r, m))
  {
    hide ReadyAccepted, OnlyRemoves;
    SameRemoves(r, CommitReady(r, m, h));
    SameRemoves(r, ReadyTimeout(r, m));
    SameRemoves(r, CompleteTurn(r, m));
  }

  lemma LogRemoves(r: Registry, m: MetaRef, text: string)
    requires m in r.metas
    ensures OnlyRemoves(r, AddOutput(r, m, text)) && OnlyRemoves(r, SetCliSession(r, m, text))
  {
    hide OnlyRemoves;
    SameRemoves(r, AddOutput(r, m, text));
    SameRemoves(r, SetCliSession(r, m, text));
  }

  lemma HandleRemoves(r: Registry, h: HandleRef, conn: nat)
    requires h in r.handles
    ensures OnlyRemoves(r, SetConn(r, h, conn)) && OnlyRemoves(r, CloseConn(r, h)) && OnlyRemoves(r, MarkReady(r, h))
  {
    hide OnlyRemoves;
    SameRemoves(r, SetConn(r, h, conn));
    SameRemoves(r, CloseConn(r, h));
    SameRemoves(r, MarkReady(r, h));
  }

  lemma DeleteRemoves(r: Registry, id: Id, h: HandleRef)
    ensures OnlyRemoves(r, DeleteWorker(r, id, h))
  {
  }

  lemma ExitRemoves(r: Registry, h: HandleRef)
    ensures OnlyRemoves(r, WorkerExit(r, h))
  {
    DeleteRemoves(r, h.spawner.id, h);
    hide DeleteWorker, InSlot, Current;
  }

  lemma RollbackRemoves(r: Registry, m: MetaRef)
    ensures OnlyRemoves(r, Rollback(r, m))
  {
    hide Current;
  }

  lemma PurgeRemoves(r: Registry, id: Id)
    ensures OnlyRemoves(r, Purge(r, id))
  {
    if id in r.workers { DeleteRemoves(r, id, r.workers[id]); }
    hide DeleteWorker;
  }

  lemma CloseRemoves(r: Registry, m: MetaRef, removeWorker: bool)
    requires m in r.metas
    ensures OnlyRemoves(r, MarkClosed(r, m, removeWorker))
  {
    var a := r.(metas := r.metas[m := r.metas[m].(closed := true, status := StatusClosed)]);
    var w := WorkerToClose(r, m);
    if w.Some? { DeleteRemoves(a, m.id, w.value); }
    hide DeleteWorker, WorkerToClose, Current;
  }

  lemma RoutedReg(s: State, o: nat)
    requires CanAdvance(s, o) && s.ops[o].Routed?
    ensures OnlyRemoves(s.reg, AdvanceRouted(s, o).reg)
  {
    hide CommitReady, AddOutput, SetCliSession, CompleteTurn, ReadyAccepted, OnlyRemoves, Waiting, Holding;
    var m, h := s.ops[o].m, s.ops[o].h;
    SameRemoves(s.reg, s.reg);
    match s.ops[o].msg
    case ReadyMsg => StatusRemoves(s.reg, m, h);
    case OutputMsg(line) => LogRemoves(s.reg, m, line);
    case BoundMsg(id) => LogRemoves(s.reg, m, id);
    case TurnCompletedMsg => StatusRemoves(s.reg, m, h);
    case CloseMsg =>
  }

  lemma RoutedOps(s: State, o: nat)
    requires CanAdvance(s, o) && s.ops[o].Routed?
    ensures OpsNarrow(s, AdvanceRouted(s, o))
  {
    hide CommitReady, AddOutput, SetCliSession, CompleteTurn, ReadyAccepted, Waiting, Holding;
  }

  /** Registering a meta ends its only creation. */
  lemma CreateNarrows(s: State, o: nat)
    requires CanAdvance(s, o) && s.ops[o].CreateRegister? && CreateOnce(s)
    ensures Narrows(s, AdvanceCreate(s, o))
  {
    var m, s' := s.ops[o].m, AdvanceCreate(s, o);
    assert Creating(s.ops[o], m);
    assert NoCreate(s', m);
    assert s'.reg.workers == s.reg.workers;
  }

  lemma LockedReg(s: State, o: nat)
    requires CanAdvance(s, o) && Holding(s.ops[o]).Some? && !s.ops[o].CreateRegister?
    ensures OnlyRemoves(s.reg, AdvanceOp(s, o).reg)
  {
    hide MarkClosed, Purge, Rollback, Current, OnlyRemoves, Waiting, StopIf, WorkerToClose;
    var op, r := s.ops[o], s.reg;
    SameRemoves(r, r);
    if op.PurgeDrop? { PurgeRemoves(r, op.id); }
    else if op.CloseMark? { CloseRemoves(r, op.m, op.removeWorker); }
    else if op.RollbackDrop? { RollbackRemoves(r, op.m); }
  }

  lemma LockedOps(s: State, o: nat)
    requires CanAdvance(s, o) && Holding(s.ops[o]).Some? && !s.ops[o].CreateRegister?
    ensures OpsNarrow(s, AdvanceOp(s, o))
  {
    hide MarkClosed, Purge, Rollback, Current, Waiting, WorkerToClose;
  }

  lemma AdvanceNarrows(s: State, o: nat)
    requires CanAdvance(s, o) && CreateOnce(s)
    ensures Narrows(s, AdvanceOp(s, o))
  {
    hide Narrows, CreateOnce, AdvanceRouted, ReadyTimeout, CloseConn, MarkReady, OnlyRemoves, OpsNarrow;
    hide AdvanceCreate, AdvanceRollback, AdvancePersist, AdvanceClose, AdvancePurge;
    var op, r := s.ops[o], s.reg;
    if op.CreateRegister? { CreateNarrows(s, o); }
    else {
      if Holding(op).Some? { LockedReg(s, o); LockedOps(s, o); }
      else if op.Routed? { RoutedReg(s, o); RoutedOps(s, o); }
      else { HandleNarrows(s, o); }
      RemovalNarrows(s, AdvanceOp(s, o));
    }
  }

  lemma HandleNarrows(s: State, o: nat)
    requires CanAdvance(s, o) && (s.ops[o].StopHandle? || s.ops[o].TimedOut? || s.ops[o].ReadyHandle?)
    ensures OnlyRemoves(s.reg, AdvanceOp(s, o).reg) && OpsNarrow(s, AdvanceOp(s, o))
  {
    hide ReadyTimeout, CloseConn, MarkReady, OnlyRemoves, Waiting, Holding;
    var op, r := s.ops[o], s.reg;
    if op.TimedOut? { StatusRemoves(r, op.m, op.h); } else { HandleRemoves(r, op.h, 0); }
  }

  lemma TurnStepNarrows(s: State, e: Event)
    requires Enabled(s, e) && (e.BeginTurn? || e.RollbackSend? || e.CancelTurn? || e.CancelFailed? || e.CancelSendFailed?)
    ensures Narrows(s, Apply(s, e))
  {
    hide Narrows, OnlyRemoves, BeginCodexTurn, RollbackTurn, BeginCancelIfCurrent, FailCancel, CommitCancelFailure;
    if e.CancelFailed? { CancelRemoves(s.reg, e.m, e.token, None); }
    else if e.CancelSendFailed? { CancelRemoves(s.reg, e.m, e.token, e.tried); }
    else { TurnRemoves(s.reg, e.m); }
    RemovalNarrows(s, Apply(s, e));
  }

  lemma OtherStepNarrows(s: State, e: Event)
    requires Enabled(s, e) && (e.Exit? || e.Connect? || e.EchoInput?)
    ensures Narrows(s, Apply(s, e))
  {
    hide Narrows, OnlyRemoves, WorkerExit, SetConn, AddOutput;
    SameRemoves(s.reg, s.reg);
    if e.Exit? { ExitRemoves(s.reg, e.h); }
    else if e.EchoInput? { LogRemoves(s.reg, e.m, e.line); }
    else if Admits(s.reg, e.id, e.instance) { HandleRemoves(s.reg, e.instance, e.conn); }
    RemovalNarrows(s, Apply(s, e));
  }

  lemma CaptureNarrows(s: State, e: Event)
    requires Enabled(s, e) && (e.Submit? || e.Acquire? || e.Route? || e.ReadyTimer? || e.StopDaemon?)
    ensures Narrows(s, Apply(s, e))
  {
    hide Narrows, OnlyRemoves, Allocated;
    SameRemoves(s.reg, s.reg);
    RemovalNarrows(s, Apply(s, e));
  }

  // ---- steps that create, fence or replace

  lemma NewMetaKeeps(s: State, e: Event)
    requires Inv(s) && FenceInv(s) && Enabled(s, e) && e.NewMeta?
    ensures FenceInv(Apply(s, e))
  {
    var s' := Apply(s, e);
    forall m ensures FenceAt(s', m) { assert FenceAt(s, m); }
    assert NoCreate(s, e.m) by {
      forall o: nat | o < |s.ops| ensures !Creating(s.ops[o], e.m) { assert Allocated(s, s.ops[o]); }
    }
    assert forall m :: Current(s'.reg, m) <==> Current(s.reg, m);
    assert !Current(s.reg, e.m);
  }

  /** The worker in the slot is fenced. */
  lemma FenceKeeps(s: State, s': State, m: MetaRef)
    requires FenceInv(s) && m in s.reg.metas && Current(s.reg, m)
    requires s'.ops == s.ops && s'.reg.sessions == s.reg.sessions && s'.reg.workers == s.reg.workers
    requires s'.reg.metas.Keys == s.reg.metas.Keys
    requires s'.reg.pendingRestart ==
      if m.id in s.reg.workers then s.reg.pendingRestart[m := s.reg.workers[m.id]] else s.reg.pendingRestart
    ensures FenceInv(s')
  {
    assert CreateOnce(s) && NoCreate(s, m);
    assert forall k :: Current(s'.reg, k) <==> Current(s.reg, k);
    hide Current;
    forall k ensures FenceAt(s', k) { assert FenceAt(s, k); }
  }

  lemma MarkKeeps(s: State, e: Event)
    requires FenceInv(s) && Enabled(s, e) && (e.Restart? || e.Watchdog?)
    ensures FenceInv(Apply(s, e))
  {
    hide FenceInv;
    if Apply(s, e) != s { FenceKeeps(s, Apply(s, e), e.m); }
  }

  lemma SpawnKeeps(s: State, e: Event)
    requires FenceInv(s) && Enabled(s, e) && e.Spawn?
    ensures FenceInv(Apply(s, e))
  {
    var s' := Apply(s, e);
    if !s.stopped && Current(s.reg, e.m) {
      SpawnReg(s.reg, e.m, e.h, e.startOk);
      hide Install;
      assert forall o: nat :: o < |s'.ops| && (s'.ops[o].CreateWait? || s'.ops[o].CreateRegister?) ==>
          o < |s.ops| && s'.ops[o] == s.ops[o];
      forall k ensures FenceAt(s', k) { assert FenceAt(s, k); }
      assert forall m :: Current(s'.reg, m) <==> Current(s.reg, m);
    }
  }

  /** Of the slots and fences, a spawn changes those of its own session only. */
  lemma SpawnReg(r: Registry, m: MetaRef, h: HandleRef, startOk: bool)
    requires m in r.metas && Current(r, m)
    ensures var r' := Install(r, m, h, startOk);
      && r'.pendingRestart == r.pendingRestart - {m} && r'.sessions == r.sessions && r.metas.Keys <= r'.metas.Keys
      && forall id :: id != m.id ==> (id in r'.workers <==> id in r.workers) && (id in r.workers ==> r'.workers[id] == r.workers[id])
  {
  }

  lemma FenceStepKeeps(s: State, e: Event)
    requires Inv(s) && FenceInv(s) && Enabled(s, e)
    ensures FenceInv(Apply(s, e))
  {
    if e.NewMeta? { NewMetaKeeps(s, e); }
    else if e.Restart? || e.Watchdog? { MarkKeeps(s, e); }
    else if e.Spawn? { SpawnKeeps(s, e); }
    else {
      QuietNarrows(s, e);
      NarrowsKeeps(s, Apply(s, e));
    }
  }

  lemma QuietNarrows(s: State, e: Event)
    requires FenceInv(s) && Enabled(s, e) && !e.NewMeta? && !e.Restart? && !e.Watchdog? && !e.Spawn?
    ensures Narrows(s, Apply(s, e))
  {
    hide Narrows, AdvanceOp;
    if e.Advance? {
      assert CreateOnce(s);
      hide FenceInv, CreateOnce;
      AdvanceNarrows(s, e.o);
    }
    else if e.BeginTurn? || e.RollbackSend? || e.CancelTurn? || e.CancelFailed? || e.CancelSendFailed? { TurnStepNarrows(s, e); }
    else if e.Exit? || e.Connect? || e.EchoInput? { OtherStepNarrows(s, e); }
    else { CaptureNarrows(s, e); }
  }

  // ---- the fence over runs

  /** Which worker is fenced after a step: the one it marks, or the one fenced before
      if the step does not replace it. */
  lemma PendingStep(s: State, e: Event, m: MetaRef, h: HandleRef)
    requires Inv(s) && FenceInv(s) && Enabled(s, e)
    ensures Pending(Apply(s, e).reg, m, h) <==> Fences(s, e, m, h) || (Pending(s.reg, m, h) && !Replaces(s, e, m))
  {
    assert FenceAt(s, m);
    if e.Restart? || e.Watchdog? { PendingMark(s, e, m, h); }
    else if e.Spawn? { PendingSpawn(s, e, m, h); }
    else if !e.NewMeta? { QuietNarrows(s, e); hide Apply; }
  }

  lemma PendingMark(s: State, e: Event, m: MetaRef, h: HandleRef)
    requires FenceAt(s, m) && Enabled(s, e) && (e.Restart? || e.Watchdog?)
    ensures Pending(Apply(s, e).reg, m, h) <==> Fences(s, e, m, h) || Pending(s.reg, m, h)
  {
  }

  lemma PendingSpawn(s: State, e: Event, m: MetaRef, h: HandleRef)
    requires Enabled(s, e) && e.Spawn?
    ensures Pending(Apply(s, e).reg, m, h) <==> Pending(s.reg, m, h) && !Replaces(s, e, m)
  {
    if !s.stopped && Current(s.reg, e.m) { SpawnReg(s.reg, e.m, e.h, e.startOk); }
    hide Install;
  }

  lemma {:induction false} FenceHolds(disk: Files, trace: seq<Event>, states: seq<State>, k: nat)
    requires Run(disk, trace, states) && k <= |trace|
    ensures FenceInv(states[k])
  {
    if k == 0 {
      hide Inv, Apply, Enabled;
      assert states[0].ops == [] && states[0].reg.pendingRestart == map[];
    } else {
      hide Inv, FenceInv, Apply, Enabled, Restore;
      FenceHolds(disk, trace, states, k - 1);
      RunKeeps(disk, trace, states, k - 1);
      FenceStepKeeps(states[k - 1], trace[k - 1]);
    }
  }

  /** In every run the workers fenced are those marked for a restart since which their
      session has not been given another worker. */
  lemma {:induction false} PendingIsMarked(disk: Files, trace: seq<Event>, states: seq<State>, k: nat, m: MetaRef, h: HandleRef)
    requires Run(disk, trace, states) && k <= |trace|
    ensures Pending(states[k].reg, m, h) <==> MarkedSince(trace, states, k, m, h)
  {
    hide Inv, FenceInv, Apply, Enabled, Fences, Replaces;
    if k == 0 {
      assert states[0].reg.pendingRestart == map[];
    } else {
      hide Restore, Pending;
      PendingIsMarked(disk, trace, states, k - 1, m, h);
      RunKeeps(disk, trace, states, k - 1);
      FenceHolds(disk, trace, states, k - 1);
      PendingStep(states[k - 1], trace[k - 1], m, h);
      MarkedStep(trace, states, k, m, h);
    }
  }

  lemma MarkedStep(trace: seq<Event>, states: seq<State>, k: nat, m: MetaRef, h: HandleRef)
    requires |states| > |trace| && 0 < k <= |trace|
    ensures MarkedSince(trace, states, k, m, h) <==>
      Fences(states[k - 1], trace[k - 1], m, h)
      || (MarkedSince(trace, states, k - 1, m, h) && !Replaces(states[k - 1], trace[k - 1], m))
  {
    assert Fences(states[k - 1], trace[k - 1], m, h) ==> !Replaces(states[k - 1], trace[k - 1], m);
    hide Fences, Replaces;
    if MarkedSince(trace, states, k - 1, m, h) && !Replaces(states[k - 1], trace[k - 1], m) {
      var i: nat :| i < k - 1 && Fences(states[i], trace[i], m, h)
        && forall j: nat :: i < j < k - 1 ==> !Replaces(states[j], trace[j], m);
      assert MarkedSince(trace, states, k, m, h);
    }
  }

  /** In every run, what becomes of a READY message past its staleness test. Its worker
      was marked for a restart (by a restart or an expired watchdog) and its session has
      no new worker yet, or the session is not registered any more: nothing happens.
      Otherwise an open session becomes READY, and its worker is about to be. */
  lemma ReadyIsFenced(disk: Files, trace: seq<Event>, states: seq<State>, k: nat, o: nat, m: MetaRef, h: HandleRef)
    requires Run(disk, trace, states) && k < |trace| && trace[k] == Advance(o)
    requires o < |states[k].ops| && states[k].ops[o] == Routed(m, h, ReadyMsg)
    ensures m in states[k].reg.metas && m in states[k + 1].reg.metas
    ensures var s, s' := states[k], states[k + 1];
      if m.id !in s.reg.sessions || s.reg.sessions[m.id] != m || MarkedSince(trace, states, k, m, h) then
        s' == s.(ops := s.ops[o := Done])
      else
        && s'.ops == s.ops[o := ReadyHandle(h)] + [PersistWait(m, PutActivity)]
        && s'.reg.metas[m].status == (if s.reg.metas[m].closed then s.reg.metas[m].status else Ready)
  {
    PendingIsMarked(disk, trace, states, k, m, h);
    hide MarkedSince;
  }
}
