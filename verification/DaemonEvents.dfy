/** The daemon's own methods and its store, run event by event: they do what the steps
    of the operations in flight say, on the same maps and the same directory. */
module DaemonEvents {
  import opened Base
  import opened SessionTurn
  import opened DaemonRegistry
  import SessionStore
  import opened DaemonFencing
  import opened DaemonInvariant

  /** The objects hold what the state says. */
  ghost predicate Shows(d: Daemon, store: SessionStore.SessionStore, s: State)
    reads d, store
  {
    d.View() == s.reg && store.files == s.disk
  }

  /** Sections that change a meta's turn or status, or the restart fences. */
  method PerformSection(d: Daemon, ghost s: State, e: Event)
    requires d.View() == s.reg && Enabled(s, e)
    requires e.BeginTurn? || e.RollbackSend? || e.EchoInput? || e.CancelTurn? || e.Watchdog? || e.CancelFailed?
      || e.CancelSendFailed? || e.Restart?
    modifies d
    ensures d.View() == Apply(s, e).reg
  {
    hide BeginCodexTurn, BeginCancelIfCurrent, WatchdogExpires, FailCancel, CommitCancelFailure, MarkRestart;
    match e {
      case BeginTurn(m) => var _ := d.BeginCodexTurnIfReady(m);
      case RollbackSend(m) =>
        d.metas := d.metas[m := d.metas[m].(turn := d.metas[m].turn.(active := false, cancelling := false))];
      case EchoInput(m, line) => d.metas := d.metas[m := d.metas[m].(output := d.metas[m].output + [line])];
      case CancelTurn(m) => var _, _ := d.BeginTurnCancelIfCurrent(m);
      case Watchdog(m, token) => var _ := d.WatchCancelledTurn(m, token);
      case CancelFailed(m, token) => var _ := d.FinishCancelWithFailure(m, token);
      case CancelSendFailed(m, token, tried) => var _, _ := d.CommitCancelSendFailureIfCurrent(m, token, tried);
      case Restart(m) => var _, _ := d.MarkCurrentWorkerRestartPending(m);
    }
  }

  /** A spawn, an exit or a connection of a worker. */
  method PerformWorker(d: Daemon, ghost s: State, e: Event, stopped: bool)
    requires d.View() == s.reg && Enabled(s, e) && WellFormed(s.reg) && stopped == s.stopped
    requires e.Spawn? || e.Exit? || e.Connect?
    modifies d
    ensures d.View() == Apply(s, e).reg
  {
    hide Install, WorkerExit, SetConn, Admits;
    match e {
      case Spawn(m, h, _, startOk) => if !stopped { var _, _ := d.InstallWorker(m, h, startOk); NotCurrent(s.reg, m, h, startOk); }
      case Exit(h) => var _ := d.ExitWorker(h);
      case Connect(id, instance, conn) => var _ := d.AdmitWorker(id, instance, conn);
    }
  }

  lemma NotCurrent(r: Registry, m: MetaRef, h: HandleRef, startOk: bool)
    requires m in r.metas
    ensures !Current(r, m) ==> Install(r, m, h, startOk) == r
  {
  }

  /** The next step of an operation that holds a file's lock. */
  method PerformFileStep(d: Daemon, store: SessionStore.SessionStore, ghost s: State, o: nat, op: Op)
    requires Shows(d, store, s) && CanAdvance(s, o) && op == s.ops[o] && Holding(op).Some?
    modifies d, store
    ensures Shows(d, store, AdvanceOp(s, o))
  {
    CloseRefused(s, o);
    hide MarkClosed, Purge, WorkerToClose, Waiting, SessionStore.Updated;
    match op {
      case CreateRegister(m) => if m.id !in d.sessions { d.sessions := d.sessions[m.id := m]; }
      case CreateSave(m) =>
        var meta := d.metas[m];
        store.Save(m.id, SessionStore.Record(m, meta.codex, meta.closed, meta.output, meta.cliSession, 0));
      case RollbackDrop(m) => if m.id in d.sessions && d.sessions[m.id] == m { d.sessions := d.sessions - {m.id}; }
      case RollbackRemove(m) => store.Remove(m.id);
      case PersistCheck(m, u) =>
      case PersistWrite(m, u) => var _ := store.UpdateRecord(m.id, u);
      case CloseMark(m, remove) => var _, _ := d.MarkSessionMetaClosed(m, remove);
      case CloseWrite(m) => var _ := store.MarkClosed(m.id);
      case PurgeDrop(id) => var _ := d.PurgeMaps(id);
      case PurgeRemove(id) => store.Remove(id);
    }
  }

  lemma CloseRefused(s: State, o: nat)
    requires CanAdvance(s, o)
    ensures s.ops[o].CloseMark? && !Current(s.reg, s.ops[o].m) ==>
      MarkClosed(s.reg, s.ops[o].m, s.ops[o].removeWorker) == s.reg
  {
  }

  /** What else was under way: a worker to stop or to call ready, a ready timer, or a
      message of a worker. */
  method PerformFreeStep(d: Daemon, ghost s: State, o: nat, op: Op)
    requires d.View() == s.reg && CanAdvance(s, o) && op == s.ops[o]
    requires op.StopHandle? || op.ReadyHandle? || op.TimedOut? || op.Routed?
    modifies d
    ensures d.View() == AdvanceOp(s, o).reg
  {
    match op {
      case StopHandle(h) => d.handles := d.handles[h := Handle(d.handles[h].ready, true, None)];
      case ReadyHandle(h) => d.handles := d.handles[h := d.handles[h].(ready := true)];
      case TimedOut(m, _) => var _ := d.MonitorReady(m);
      case Routed(m, h, msg) => PerformMessage(d, s, o, m, h, msg);
    }
  }

  /** routeMessage past its staleness test. */
  method PerformMessage(d: Daemon, ghost s: State, o: nat, m: MetaRef, h: HandleRef, msg: WorkerMessage)
    requires d.View() == s.reg && CanAdvance(s, o) && s.ops[o] == Routed(m, h, msg)
    modifies d
    ensures d.View() == AdvanceRouted(s, o).reg
  {
    hide CommitReady, ReadyAccepted, Holding, Waiting;
    match msg {
      case ReadyMsg => var _ := d.ReadyMessage(m, h); ReadyRefused(s.reg, m, h);
      case OutputMsg(line) => d.metas := d.metas[m := d.metas[m].(output := d.metas[m].output + [line])];
      case BoundMsg(id) => d.metas := d.metas[m := d.metas[m].(cliSession := id)];
      case TurnCompletedMsg =>
        if d.metas[m].turn.active {
          d.metas := d.metas[m := d.metas[m].(turn := d.metas[m].turn.(active := false, cancelling := false))];
        }
      case CloseMsg =>
    }
  }

  lemma ReadyRefused(r: Registry, m: MetaRef, h: HandleRef)
    requires m in r.metas
    ensures !ReadyAccepted(r, m, h) ==> CommitReady(r, m, h) == r
  {
  }

  /** Every step of the daemon, on its own objects. */
  method Perform(d: Daemon, store: SessionStore.SessionStore, ghost s: State, e: Event, op: Op, stopped: bool)
    requires Shows(d, store, s) && Enabled(s, e) && Inv(s) && stopped == s.stopped
    requires e.Advance? ==> op == s.ops[e.o]
    modifies d, store
    ensures Shows(d, store, Apply(s, e))
  {
    hide AdvanceOp, SpawnWorker, WorkerExit, Admits, BeginCodexTurn, RollbackTurn, BeginCancelIfCurrent, WatchdogExpires,
      FailCancel, CommitCancelFailure, MarkRestart, AddOutput, DiskOk, LocksOk, OpsOk;
    match e {
      case Advance(o) => PerformOp(d, store, s, o, op);
      case NewMeta(m, codex) => d.metas := d.metas[m := Meta(codex, false, Created, TurnState(false, false, 0), [], "")];
      case Submit(_) =>
      case Acquire(_) =>
      case Route(_, _, _) =>
      case ReadyTimer(_, _) =>
      case StopDaemon =>
      case Spawn(m, _, _, _) =>
        SpawnKeepsDisk(s, e);
        PerformWorker(d, s, e, stopped);
      case Exit(_) => PerformWorker(d, s, e, stopped);
      case Connect(_, _, _) => PerformWorker(d, s, e, stopped);
      case _ => PerformSection(d, s, e);
    }
  }

  lemma SpawnKeepsDisk(s: State, e: Event)
    requires Enabled(s, e) && e.Spawn?
    ensures Apply(s, e).disk == s.disk
  {
  }

  method PerformOp(d: Daemon, store: SessionStore.SessionStore, ghost s: State, o: nat, op: Op)
    requires Shows(d, store, s) && CanAdvance(s, o) && op == s.ops[o]
    modifies d, store
    ensures Shows(d, store, AdvanceOp(s, o))
  {
    hide AdvanceOp;
    if op.StopHandle? || op.ReadyHandle? || op.TimedOut? || op.Routed? {
      PerformFreeStep(d, s, o, op);
      FreeKeepsDisk(s, o);
    } else {
      PerformFileStep(d, store, s, o, op);
    }
  }

  lemma FreeKeepsDisk(s: State, o: nat)
    requires CanAdvance(s, o)
    requires s.ops[o].StopHandle? || s.ops[o].ReadyHandle? || s.ops[o].TimedOut? || s.ops[o].Routed?
    ensures AdvanceOp(s, o).disk == s.disk
  {
  }
}
