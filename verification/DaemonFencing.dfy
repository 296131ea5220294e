/** The daemon's session operations as they interleave: which operation holds a
    session's file lock, what each has still to do, and every section that may run
    in between, with the pointers it captured earlier. */
module DaemonFencing {
  import opened Base
  import opened SessionTurn
  import opened DaemonRegistry
  import opened SessionStore

  datatype WorkerMessage = ReadyMsg | OutputMsg(line: string) | BoundMsg(id: string) | TurnCompletedMsg | CloseMsg

  /** An operation in flight. `...Wait` has not yet been given the file lock of its
      ID; the next states hold it up to the store access that releases it. */
  datatype Op =
    | CreateWait(m: MetaRef) | CreateRegister(m: MetaRef) | CreateSave(m: MetaRef)
    | RollbackWait(m: MetaRef) | RollbackDrop(m: MetaRef) | RollbackRemove(m: MetaRef)
    | PersistWait(m: MetaRef, u: Update) | PersistCheck(m: MetaRef, u: Update) | PersistWrite(m: MetaRef, u: Update)
    | CloseWait(m: MetaRef, removeWorker: bool) | CloseMark(m: MetaRef, removeWorker: bool) | CloseWrite(m: MetaRef)
    | PurgeWait(id: Id) | PurgeDrop(id: Id) | PurgeRemove(id: Id)
    | StopHandle(h: HandleRef)                                  // CloseConn of a replaced or removed worker
    | Routed(m: MetaRef, h: HandleRef, msg: WorkerMessage)      // past routeMessage's staleness test
    | TimedOut(m: MetaRef, h: HandleRef)                        // past monitorReady's test
    | ReadyHandle(h: HandleRef)                                 // about to mark the handle ready
    | Done

  datatype State = State(reg: Registry, disk: Files, fileLock: map<Id, nat>, ops: seq<Op>, stopped: bool)

  datatype Event =
    | NewMeta(m: MetaRef, codex: bool)
    | Submit(op: Op)
    | Acquire(o: nat)
    | Advance(o: nat)
    | Spawn(m: MetaRef, h: HandleRef, pid: nat, startOk: bool)
    | Exit(h: HandleRef)
    | Connect(id: Id, instance: HandleRef, conn: nat)
    | Route(m: MetaRef, h: HandleRef, msg: WorkerMessage)
    | ReadyTimer(m: MetaRef, h: HandleRef)
    | BeginTurn(m: MetaRef)
    | RollbackSend(m: MetaRef)
    | EchoInput(m: MetaRef, line: string)
    | CancelTurn(m: MetaRef)
    | Watchdog(m: MetaRef, token: nat)
    | CancelFailed(m: MetaRef, token: nat)
    | CancelSendFailed(m: MetaRef, token: nat, tried: Option<HandleRef>)
    | Restart(m: MetaRef)
    | StopDaemon

  // ---- the file lock

  function Waiting(op: Op): Option<Id> {
    match op
    case CreateWait(m) => Some(m.id)
    case RollbackWait(m) => Some(m.id)
    case PersistWait(m, _) => Some(m.id)
    case CloseWait(m, _) => Some(m.id)
    case PurgeWait(id) => Some(id)
    case _ => None
  }

  function Holding(op: Op): Option<Id> {
    match op
    case CreateRegister(m) => Some(m.id)
    case CreateSave(m) => Some(m.id)
    case RollbackDrop(m) => Some(m.id)
    case RollbackRemove(m) => Some(m.id)
    case PersistCheck(m, _) => Some(m.id)
    case PersistWrite(m, _) => Some(m.id)
    case CloseMark(m, _) => Some(m.id)
    case CloseWrite(m) => Some(m.id)
    case PurgeDrop(id) => Some(id)
    case PurgeRemove(id) => Some(id)
    case _ => None
  }

  /** With the lock: the operation's next state. */
  function Granted(op: Op): Op
    requires Waiting(op).Some?
  {
    match op
    case CreateWait(m) => CreateRegister(m)
    case RollbackWait(m) => RollbackDrop(m)
    case PersistWait(m, u) => PersistCheck(m, u)
    case CloseWait(m, r) => CloseMark(m, r)
    case PurgeWait(id) => PurgeDrop(id)
  }

  function SetOp(s: State, o: nat, op: Op): State
    requires o < |s.ops|
  {
    s.(ops := s.ops[o := op])
  }

  /** The operation ends and gives its lock back. */
  function Finish(s: State, o: nat, id: Id): State
    requires o < |s.ops|
  {
    SetOp(s, o, Done).(fileLock := s.fileLock - {id})
  }

  /** Further work that a step leaves behind. */
  function Spawned(s: State, more: seq<Op>): State { s.(ops := s.ops + more) }

  function StopIf(h: Option<HandleRef>): seq<Op> { if h.Some? then [StopHandle(h.value)] else [] }

  // ---- advancing an operation

  predicate Allocated(s: State, op: Op) {
    match op
    case PurgeWait(_) => true
    case PurgeDrop(_) => true
    case PurgeRemove(_) => true
    case StopHandle(h) => h in s.reg.handles
    case Routed(m, h, _) => m in s.reg.metas && h in s.reg.handles
    case TimedOut(m, h) => m in s.reg.metas && h in s.reg.handles
    case ReadyHandle(h) => h in s.reg.handles
    case Done => true
    case _ => op.m in s.reg.metas
  }

  function AdvanceCreate(s: State, o: nat): State
    requires o < |s.ops| && Allocated(s, s.ops[o]) && (s.ops[o].CreateRegister? || s.ops[o].CreateSave?)
  {
    var m := s.ops[o].m;
    if s.ops[o].CreateRegister? then
      if m.id in s.reg.sessions then Finish(s, o, m.id)
      else SetOp(s, o, CreateSave(m)).(reg := Register(s.reg, m))
    else Finish(s, o, m.id).(disk := s.disk[m.id := ToRecord(m, s.reg.metas[m])])
  }

  function AdvanceRollback(s: State, o: nat): State
    requires o < |s.ops| && Allocated(s, s.ops[o]) && (s.ops[o].RollbackDrop? || s.ops[o].RollbackRemove?)
  {
    var m := s.ops[o].m;
    if s.ops[o].RollbackDrop? then
      if !Current(s.reg, m) then Finish(s, o, m.id)
      else SetOp(s, o, RollbackRemove(m)).(reg := Rollback(s.reg, m))
    else Finish(s, o, m.id).(disk := s.disk - {m.id})
  }

  function AdvancePersist(s: State, o: nat): State
    requires o < |s.ops| && Allocated(s, s.ops[o]) && (s.ops[o].PersistCheck? || s.ops[o].PersistWrite?)
  {
    var m, u := s.ops[o].m, s.ops[o].u;
    if s.ops[o].PersistCheck? then
      if Current(s.reg, m) && !s.reg.metas[m].closed then SetOp(s, o, PersistWrite(m, u)) else Finish(s, o, m.id)
    else Finish(s, o, m.id).(disk := Modify(s.disk, m.id, u))
  }

  function AdvanceClose(s: State, o: nat): State
    requires o < |s.ops| && Allocated(s, s.ops[o]) && (s.ops[o].CloseMark? || s.ops[o].CloseWrite?)
  {
    var m := s.ops[o].m;
    if s.ops[o].CloseMark? then
      if !Current(s.reg, m) then Finish(s, o, m.id)
      else
        var remove := s.ops[o].removeWorker;
        Spawned(SetOp(s, o, CloseWrite(m)).(reg := MarkClosed(s.reg, m, remove)),
                if remove then StopIf(WorkerToClose(s.reg, m)) else [])
    else Finish(s, o, m.id).(disk := CloseRecord(s.disk, m.id))
  }

  function AdvancePurge(s: State, o: nat): State
    requires o < |s.ops| && (s.ops[o].PurgeDrop? || s.ops[o].PurgeRemove?)
  {
    var id := s.ops[o].id;
    if s.ops[o].PurgeDrop? then
      Spawned(SetOp(s, o, PurgeRemove(id)).(reg := Purge(s.reg, id)),
              if id in s.reg.workers then [StopHandle(s.reg.workers[id])] else [])
    else Finish(s, o, id).(disk := s.disk - {id})
  }

  /** routeMessage after its staleness test. */
  function AdvanceRouted(s: State, o: nat): State
    requires o < |s.ops| && Allocated(s, s.ops[o]) && s.ops[o].Routed?
  {
    var m, h := s.ops[o].m, s.ops[o].h;
    match s.ops[o].msg
    case ReadyMsg =>
      if ReadyAccepted(s.reg, m, h)
      then Spawned(SetOp(s, o, ReadyHandle(h)).(reg := CommitReady(s.reg, m, h)), [PersistWait(m, PutActivity)])
      else SetOp(s, o, Done)
    case OutputMsg(line) => SetOp(s, o, PersistWait(m, PutOutput(line))).(reg := AddOutput(s.reg, m, line))
    case BoundMsg(id) => SetOp(s, o, PersistWait(m, PutCliSession(id))).(reg := SetCliSession(s.reg, m, id))
    case TurnCompletedMsg => SetOp(s, o, Done).(reg := CompleteTurn(s.reg, m))
    case CloseMsg => SetOp(s, o, CloseWait(m, true))
  }

  predicate CanAdvance(s: State, o: nat) {
    && o < |s.ops| && Allocated(s, s.ops[o])
    && (Holding(s.ops[o]).Some? || s.ops[o].StopHandle? || s.ops[o].Routed? || s.ops[o].TimedOut? || s.ops[o].ReadyHandle?)
  }

  function AdvanceOp(s: State, o: nat): State
    requires CanAdvance(s, o)
  {
    var op := s.ops[o];
    if op.CreateRegister? || op.CreateSave? then AdvanceCreate(s, o)
    else if op.RollbackDrop? || op.RollbackRemove? then AdvanceRollback(s, o)
    else if op.PersistCheck? || op.PersistWrite? then AdvancePersist(s, o)
    else if op.CloseMark? || op.CloseWrite? then AdvanceClose(s, o)
    else if op.PurgeDrop? || op.PurgeRemove? then AdvancePurge(s, o)
    else if op.Routed? then AdvanceRouted(s, o)
    else if op.StopHandle? then SetOp(s, o, Done).(reg := CloseConn(s.reg, op.h))
    else if op.TimedOut? then SetOp(s, o, Done).(reg := ReadyTimeout(s.reg, op.m))
    else SetOp(s, o, Done).(reg := MarkReady(s.reg, op.h))
  }

  // ---- the other steps

  function SpawnWorker(s: State, m: MetaRef, h: HandleRef, pid: nat, startOk: bool): State
    requires m in s.reg.metas
  {
    if s.stopped || !Current(s.reg, m) then s
    else
      Spawned(s.(reg := Install(s.reg, m, h, startOk)),
              StopIf(if m.id in s.reg.workers then Some(s.reg.workers[m.id]) else None)
              + if startOk then [PersistWait(m, PutPid(pid))] else [])
  }

  predicate Submittable(s: State, op: Op) {
    && Allocated(s, op)
    && (op.CloseWait? || op.PurgeWait? || op.PersistWait? || (op.RollbackWait? && s.stopped))
  }

  predicate Enabled(s: State, e: Event) {
    match e
    case NewMeta(m, _) => m !in s.reg.metas
    case Submit(op) => Submittable(s, op)
    case Acquire(o) => o < |s.ops| && Waiting(s.ops[o]).Some? && Waiting(s.ops[o]).value !in s.fileLock
    case Advance(o) => CanAdvance(s, o)
    case Spawn(m, h, _, _) => m in s.reg.metas && h.spawner == m && h !in s.reg.handles
    case Exit(h) => h in s.reg.handles
    case Connect(_, _, _) => true
    case Route(m, h, _) => m in s.reg.metas && h in s.reg.handles && CurrentWorker(s.reg, m, h)
    case ReadyTimer(m, h) => m in s.reg.metas && h in s.reg.handles && h.spawner == m && InSlot(s.reg, h)
    case StopDaemon => true
    case _ => e.m in s.reg.metas
  }

  function Apply(s: State, e: Event): State
    requires Enabled(s, e)
  {
    match e
    case NewMeta(m, codex) =>
      Spawned(s.(reg := s.reg.(metas := s.reg.metas[m := Meta(codex, false, Created, NO_TURN, [], "")])), [CreateWait(m)])
    case Submit(op) => Spawned(s, [op])
    case Acquire(o) => SetOp(s, o, Granted(s.ops[o])).(fileLock := s.fileLock[Waiting(s.ops[o]).value := o])
    case Advance(o) => AdvanceOp(s, o)
    case Spawn(m, h, pid, startOk) => SpawnWorker(s, m, h, pid, startOk)
    case Exit(h) => Spawned(s.(reg := WorkerExit(s.reg, h)), [StopHandle(h)])
    case Connect(id, instance, conn) => if Admits(s.reg, id, instance) then s.(reg := SetConn(s.reg, instance, conn)) else s
    case Route(m, h, msg) => Spawned(s, [Routed(m, h, msg)])
    case ReadyTimer(m, h) => Spawned(s, [TimedOut(m, h)])
    case BeginTurn(m) => s.(reg := BeginCodexTurn(s.reg, m))
    case RollbackSend(m) => s.(reg := RollbackTurn(s.reg, m))
    case EchoInput(m, line) => Spawned(s.(reg := AddOutput(s.reg, m, line)), [PersistWait(m, PutOutput(line))])
    case CancelTurn(m) => s.(reg := BeginCancelIfCurrent(s.reg, m))
    case Watchdog(m, token) => s.(reg := WatchdogExpires(s.reg, m, token))
    case CancelFailed(m, token) => s.(reg := FailCancel(s.reg, m, token))
    case CancelSendFailed(m, token, tried) => s.(reg := CommitCancelFailure(s.reg, m, token, tried))
    case Restart(m) => s.(reg := MarkRestart(s.reg, m))
    case StopDaemon => s.(stopped := true)
  }

  /** restoreSessions on start-up: a new meta for every open record, nothing else. */
  function Restore(disk: Files): State {
    var open := map id | id in disk && !disk[id].closed :: MetaRef(id, 0);
    State(
      Registry(open, map[], map[], map[],
               map m: MetaRef | m in (set id | id in disk && !disk[id].closed :: MetaRef(id, 0)) && m.id in disk
                 :: FromRecord(disk[m.id]),
               map[]),
      map id | id in disk :: if disk[id].closed then disk[id] else disk[id].(gen := MetaRef(id, 0)),
      map[], [], false)
  }
}
