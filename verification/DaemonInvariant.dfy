/** The inductive invariant of the daemon's session operations. */
module DaemonInvariant {
  import opened Base
  import opened SessionTurn
  import opened DaemonRegistry
  import opened SessionStore
  import opened DaemonFencing

  /** Pointers are consistent with the IDs they carry, and a closed meta is not READY. */
  ghost predicate WellFormed(r: Registry) {
    && (forall id :: id in r.sessions ==> r.sessions[id].id == id && r.sessions[id] in r.metas)
    && (forall id :: id in r.workers ==> r.workers[id].spawner.id == id && r.workers[id] in r.handles)
    && (forall h :: h in r.workerOwners ==> r.workerOwners[h] == h.spawner && h in r.handles)
    && (forall h :: h in r.handles ==> h.spawner in r.metas)
    && (forall m :: m in r.metas ==> (r.metas[m].closed ==> r.metas[m].status != Ready))
  }

  /** The worker in its slot, still owned by the meta that spawned it. */
  predicate Bound(r: Registry, h: HandleRef) { InSlot(r, h) && h in r.workerOwners }

  ghost predicate LocksOk(s: State) {
    && (forall o :: 0 <= o < |s.ops| && Holding(s.ops[o]).Some? ==>
          Holding(s.ops[o]).value in s.fileLock && s.fileLock[Holding(s.ops[o]).value] == o)
    && (forall id :: id in s.fileLock ==> s.fileLock[id] < |s.ops| && Holding(s.ops[s.fileLock[id]]) == Some(id))
  }

  /** What an operation may rely on at its stage. */
  predicate Phase(s: State, op: Op) {
    match op
    case CreateSave(m) => Current(s.reg, m)
    case RollbackRemove(m) => m.id !in s.reg.sessions && (m.id in s.disk ==> s.disk[m.id].gen == m)
    case PersistWrite(m, _) => Current(s.reg, m) && m in s.reg.metas && !s.reg.metas[m].closed
    case CloseWrite(m) =>
      && Current(s.reg, m) && m in s.reg.metas && s.reg.metas[m].closed
      && m.id in s.disk && s.disk[m.id].gen == m && s.disk[m.id].codex == s.reg.metas[m].codex
    case PurgeRemove(id) => id !in s.reg.sessions
    case StopHandle(h) => !Bound(s.reg, h)
    case Routed(m, h, _) => h.spawner == m
    case TimedOut(m, h) => h.spawner == m
    case _ => true
  }

  ghost predicate OpsOk(s: State) {
    forall o :: 0 <= o < |s.ops| ==> Allocated(s, s.ops[o]) && Phase(s, s.ops[o])
  }

  /** Between the change of the registry and the store access that completes it. */
  predicate Dirty(op: Op) { op.CreateSave? || op.RollbackRemove? || op.CloseWrite? || op.PurgeRemove? }

  predicate DirtyAt(s: State, id: Id) {
    id in s.fileLock && s.fileLock[id] < |s.ops| && Dirty(s.ops[s.fileLock[id]])
  }

  /** Registry and directory tell the same about an ID. */
  predicate Agree(s: State, id: Id) {
    if id in s.reg.sessions then
      var m := s.reg.sessions[id];
      && m in s.reg.metas && id in s.disk
      && s.disk[id].gen == m && s.disk[id].closed == s.reg.metas[m].closed && s.disk[id].codex == s.reg.metas[m].codex
    else
      id !in s.disk || s.disk[id].closed
  }

  ghost predicate DiskOk(s: State) {
    forall id :: !DirtyAt(s, id) ==> Agree(s, id)
  }

  ghost predicate Inv(s: State) { WellFormed(s.reg) && LocksOk(s) && OpsOk(s) && DiskOk(s) }

  // ---- how a step may change things

  /** Nothing allocated disappears, and no old handle becomes bound to its slot. */
  ghost predicate Grows(r: Registry, r': Registry) {
    && r.metas.Keys <= r'.metas.Keys && r.handles.Keys <= r'.handles.Keys
    && (forall h :: h in r.handles && Bound(r', h) ==> Bound(r, h))
  }

  /** An ID's registration, its metas' Closed flags and its file are as before. */
  ghost predicate SameOn(s: State, s': State, id: Id) {
    && (id in s'.reg.sessions <==> id in s.reg.sessions)
    && (id in s.reg.sessions ==> s'.reg.sessions[id] == s.reg.sessions[id])
    && (id in s'.disk <==> id in s.disk)
    && (id in s.disk ==> s'.disk[id] == s.disk[id])
    && (forall m :: m in s.reg.metas && m in s'.reg.metas && m.id == id ==>
          s'.reg.metas[m].closed == s.reg.metas[m].closed && s'.reg.metas[m].codex == s.reg.metas[m].codex)
  }

  ghost predicate OpsStep(s: State, s': State, touched: Option<Id>) {
    && |s.ops| <= |s'.ops|
    && (forall o :: 0 <= o < |s'.ops| ==>
          || (o < |s.ops| && s'.ops[o] == s.ops[o] && (Holding(s.ops[o]).None? || Holding(s.ops[o]) != touched))
          || (Allocated(s', s'.ops[o]) && Phase(s', s'.ops[o])))
  }

  lemma PhaseKept(s: State, s': State, op: Op)
    requires WellFormed(s.reg) && Grows(s.reg, s'.reg) && Allocated(s, op) && Phase(s, op)
    requires Holding(op).Some? ==> SameOn(s, s', Holding(op).value)
    ensures Allocated(s', op) && Phase(s', op)
  {
  }

  lemma AgreeKept(s: State, s': State, id: Id)
    requires WellFormed(s.reg) && Grows(s.reg, s'.reg) && SameOn(s, s', id) && Agree(s, id)
    ensures Agree(s', id)
  {
  }

  /** A step that leaves every ID but at most one as it was, and that one either
      dirty or in agreement, keeps the invariant. */
  lemma StepFrame(s: State, s': State, touched: Option<Id>)
    requires Inv(s) && WellFormed(s'.reg) && Grows(s.reg, s'.reg) && LocksOk(s') && OpsStep(s, s', touched)
    requires forall id :: touched != Some(id) ==> SameOn(s, s', id) && (DirtyAt(s, id) ==> DirtyAt(s', id))
    requires touched.Some? ==> DirtyAt(s', touched.value) || Agree(s', touched.value)
    ensures Inv(s')
  {
    hide Agree, SameOn, DirtyAt, Phase, Allocated, Grows, WellFormed;
    forall o | 0 <= o < |s'.ops| ensures Allocated(s', s'.ops[o]) && Phase(s', s'.ops[o]) {
      if !(Allocated(s', s'.ops[o]) && Phase(s', s'.ops[o])) {
        if Holding(s.ops[o]).Some? { assert SameOn(s, s', Holding(s.ops[o]).value); }
        PhaseKept(s, s', s.ops[o]);
      }
    }
    forall id | !DirtyAt(s', id) ensures Agree(s', id) {
      if touched != Some(id) { AgreeKept(s, s', id); }
    }
  }

  // ---- sections that leave every ID as it was

  /** Sections that only touch workers, statuses, turns or logs. */
  ghost predicate QuietReg(r: Registry, r': Registry) {
    && WellFormed(r') && Grows(r, r') && r'.sessions == r.sessions
    && (forall m :: m in r.metas ==> r'.metas[m].closed == r.metas[m].closed && r'.metas[m].codex == r.metas[m].codex)
  }

  lemma QuietMeta(r: Registry, r': Registry, m: MetaRef)
    requires WellFormed(r) && m in r.metas && m in r'.metas
    requires r' == r.(metas := r.metas[m := r'.metas[m]], pendingRestart := r'.pendingRestart)
    requires r'.metas[m].closed == r.metas[m].closed && r'.metas[m].codex == r.metas[m].codex
    requires r'.metas[m].closed ==> r'.metas[m].status != Ready
    ensures QuietReg(r, r')
  {
  }

  lemma QuietHandle(r: Registry, r': Registry, h: HandleRef)
    requires WellFormed(r) && h in r.handles && h in r'.handles
    requires r' == r.(handles := r.handles[h := r'.handles[h]])
    ensures QuietReg(r, r')
  {
  }

  lemma MetaClosed(r: Registry, m: MetaRef)
    requires WellFormed(r) && m in r.metas
    ensures r.metas[m].closed ==> r.metas[m].status != Ready
  {
  }

  lemma QuietStatusSections(r: Registry, m: MetaRef, h: HandleRef)
    requires WellFormed(r) && m in r.metas
    ensures QuietReg(r, CommitReady(r, m, h))
    ensures QuietReg(r, ReadyTimeout(r, m))
    ensures QuietReg(r, MarkRestart(r, m))
  {
    hide WellFormed, QuietReg;
    MetaClosed(r, m);
    QuietMeta(r, CommitReady(r, m, h), m);
    QuietMeta(r, ReadyTimeout(r, m), m);
    QuietMeta(r, MarkRestart(r, m), m);
  }

  lemma QuietWatchdog(r: Registry, m: MetaRef, token: nat)
    requires WellFormed(r) && m in r.metas
    ensures QuietReg(r, WatchdogExpires(r, m, token))
  {
    hide WellFormed, QuietReg;
    MetaClosed(r, m);
    QuietMeta(r, WatchdogExpires(r, m, token), m);
  }

  lemma QuietCancelSections(r: Registry, m: MetaRef, token: nat, tried: Option<HandleRef>)
    requires WellFormed(r) && m in r.metas
    ensures QuietReg(r, FailCancel(r, m, token))
    ensures QuietReg(r, CommitCancelFailure(r, m, token, tried))
  {
    hide WellFormed, QuietReg;
    MetaClosed(r, m);
    QuietMeta(r, FailCancel(r, m, token), m);
    QuietMeta(r, CommitCancelFailure(r, m, token, tried), m);
  }

  lemma QuietTurnSections(r: Registry, m: MetaRef)
    requires WellFormed(r) && m in r.metas
    ensures QuietReg(r, BeginCodexTurn(r, m))
    ensures QuietReg(r, BeginCancelIfCurrent(r, m))
    ensures QuietReg(r, RollbackTurn(r, m))
  {
    hide WellFormed, QuietReg;
    MetaClosed(r, m);
    QuietMeta(r, BeginCodexTurn(r, m), m);
    QuietMeta(r, BeginCancelIfCurrent(r, m), m);
    QuietMeta(r, RollbackTurn(r, m), m);
  }

  lemma QuietComplete(r: Registry, m: MetaRef)
    requires WellFormed(r) && m in r.metas
    ensures QuietReg(r, CompleteTurn(r, m))
  {
    hide WellFormed, QuietReg;
    MetaClosed(r, m);
    QuietMeta(r, CompleteTurn(r, m), m);
  }

  lemma QuietLogSections(r: Registry, m: MetaRef, text: string)
    requires WellFormed(r) && m in r.metas
    ensures QuietReg(r, AddOutput(r, m, text))
    ensures QuietReg(r, SetCliSession(r, m, text))
  {
    hide WellFormed, QuietReg;
    MetaClosed(r, m);
    QuietMeta(r, AddOutput(r, m, text), m);
    QuietMeta(r, SetCliSession(r, m, text), m);
  }

  lemma QuietHandleSections(r: Registry, h: HandleRef, conn: nat)
    requires WellFormed(r) && h in r.handles
    ensures QuietReg(r, SetConn(r, h, conn)) && QuietReg(r, CloseConn(r, h)) && QuietReg(r, MarkReady(r, h))
  {
    hide WellFormed, QuietReg;
    QuietHandle(r, SetConn(r, h, conn), h);
    QuietHandle(r, CloseConn(r, h), h);
    QuietHandle(r, MarkReady(r, h), h);
  }

  lemma QuietExit(r: Registry, h: HandleRef)
    requires WellFormed(r) && h in r.handles
    ensures QuietReg(r, WorkerExit(r, h)) && !Bound(WorkerExit(r, h), h)
  {
  }

  /** A spawn may only bind the handle it has just made; the worker it replaces is
      out of its slot for good. */
  lemma QuietInstall(r: Registry, m: MetaRef, h: HandleRef, startOk: bool)
    requires WellFormed(r) && m in r.metas && h.spawner == m && h !in r.handles && Current(r, m)
    ensures QuietReg(r, Install(r, m, h, startOk))
    ensures m.id in r.workers ==> !Bound(Install(r, m, h, startOk), r.workers[m.id])
  {
  }

  // ---- steps that change no ID's registration, Closed flag or file

  /** The step changes the registry quietly, possibly ends or moves one operation
      without touching the locks, and starts others that hold none. */
  ghost predicate QuietStep(s: State, s': State) {
    && QuietReg(s.reg, s'.reg) && s'.disk == s.disk && s'.fileLock == s.fileLock
    && |s.ops| <= |s'.ops|
    && (forall o :: 0 <= o < |s'.ops| ==>
          || (o < |s.ops| && s'.ops[o] == s.ops[o])
          || (Holding(s'.ops[o]).None? && (o < |s.ops| ==> Holding(s.ops[o]).None?)
              && Allocated(s', s'.ops[o]) && Phase(s', s'.ops[o])))
  }

  lemma QuietKeeps(s: State, s': State)
    requires Inv(s) && QuietStep(s, s')
    ensures Inv(s')
  {
    QuietLocks(s, s');
    QuietFrame(s, s');
    hide Inv, QuietReg, LocksOk, SameOn, DirtyAt, Agree, Phase, Allocated;
    StepFrame(s, s', None);
  }

  lemma QuietLocks(s: State, s': State)
    requires LocksOk(s) && QuietStep(s, s')
    ensures LocksOk(s') && forall id :: DirtyAt(s, id) ==> DirtyAt(s', id)
  {
  }

  lemma QuietFrame(s: State, s': State)
    requires QuietReg(s.reg, s'.reg) && s'.disk == s.disk
    ensures forall id :: SameOn(s, s', id)
  {
  }
}
