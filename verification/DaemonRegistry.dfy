/** The daemon's shared maps and the critical sections that change them. A
    SessionMeta or WorkerHandle pointer is an identity that outlives its ID: IDs are
    purged and reused, identities are not. */
module DaemonRegistry {
  import opened Base
  import opened SessionTurn

  type Id = string

  /** One SessionMeta object. */
  datatype MetaRef = MetaRef(id: Id, n: nat)

  /** One WorkerHandle object, with the meta that spawned it and the random instance
      ID it was given; instance IDs do not repeat. */
  datatype HandleRef = HandleRef(spawner: MetaRef, nonce: nat)

  datatype Status = Created | Spawning | Ready | Recovering | StatusClosed

  datatype Meta = Meta(codex: bool, closed: bool, status: Status, turn: TurnState, output: seq<string>, cliSession: string)

  datatype Handle = Handle(ready: bool, closed: bool, conn: Option<nat>)

  datatype Registry = Registry(
    sessions: map<Id, MetaRef>,
    workers: map<Id, HandleRef>,
    workerOwners: map<HandleRef, MetaRef>,
    pendingRestart: map<MetaRef, HandleRef>,
    metas: map<MetaRef, Meta>,
    handles: map<HandleRef, Handle>)

  // ---- tests

  /** isCurrentSessionLocked */
  predicate Current(r: Registry, m: MetaRef) { m.id in r.sessions && r.sessions[m.id] == m }

  predicate InSlot(r: Registry, h: HandleRef) { h.spawner.id in r.workers && r.workers[h.spawner.id] == h }

  predicate OwnedBy(r: Registry, h: HandleRef, m: MetaRef) { h in r.workerOwners && r.workerOwners[h] == m }

  /** isCurrentSessionWorker */
  predicate CurrentWorker(r: Registry, m: MetaRef, h: HandleRef) {
    m.id in r.workers && r.workers[m.id] == h && OwnedBy(r, h, m) && Current(r, m)
  }

  /** handleConn's isExpected, for a ready message of session id. */
  predicate Expected(r: Registry, id: Id) {
    && id in r.sessions && r.sessions[id] in r.metas && !r.metas[r.sessions[id]].closed
    && id in r.workers && OwnedBy(r, r.workers[id], r.sessions[id])
  }

  /** ... and the instance ID it presents is that of the expected worker. */
  predicate Admits(r: Registry, id: Id, instance: HandleRef) {
    Expected(r, id) && r.workers[id] == instance && instance in r.handles
  }

  // ---- sections

  function SetStatus(r: Registry, m: MetaRef, status: Status): Registry
    requires m in r.metas
  {
    r.(metas := r.metas[m := r.metas[m].(status := status)])
  }

  function SetTurn(r: Registry, m: MetaRef, turn: TurnState): Registry
    requires m in r.metas
  {
    r.(metas := r.metas[m := r.metas[m].(turn := turn)])
  }

  function Register(r: Registry, m: MetaRef): Registry {
    if m.id in r.sessions then r else r.(sessions := r.sessions[m.id := m])
  }

  function Rollback(r: Registry, m: MetaRef): Registry {
    if Current(r, m) then r.(sessions := r.sessions - {m.id}) else r
  }

  /** deleteWorkerIfCurrentLocked */
  function DeleteWorker(r: Registry, id: Id, h: HandleRef): Registry {
    if id in r.workers && r.workers[id] == h
    then r.(workers := r.workers - {id}, workerOwners := r.workerOwners - {h})
    else r
  }

  /** spawnWorkerForSession's section for a meta that is current; a process that
      fails to start is taken out of the slot again. */
  function Install(r: Registry, m: MetaRef, h: HandleRef, startOk: bool): Registry
    requires m in r.metas
  {
    if !Current(r, m) then r
    else
      var a := SetStatus(r, m, Spawning).(
        pendingRestart := r.pendingRestart - {m},
        workers := r.workers[m.id := h],
        workerOwners := r.workerOwners[h := m],
        handles := r.handles[h := Handle(false, false, None)]);
      if startOk then a else SetStatus(DeleteWorker(a, m.id, h), m, Recovering)
  }

  /** The section of waitWorkerExit. */
  function WorkerExit(r: Registry, h: HandleRef): Registry {
    if InSlot(r, h) && h in r.workerOwners && Current(r, r.workerOwners[h]) && r.workerOwners[h] in r.metas then
      var owner := r.workerOwners[h];
      var a := DeleteWorker(r, h.spawner.id, h);
      if r.metas[owner].closed then a else SetStatus(a, owner, Recovering)
    else r.(workerOwners := r.workerOwners - {h})
  }

  /** The worker that closing a meta finds: the one in its slot, if it owns it. */
  function WorkerToClose(r: Registry, m: MetaRef): Option<HandleRef> {
    if m.id in r.workers && OwnedBy(r, r.workers[m.id], m) then Some(r.workers[m.id]) else None
  }

  /** The section of markSessionMetaClosed. */
  function MarkClosed(r: Registry, m: MetaRef, removeWorker: bool): Registry
    requires m in r.metas
  {
    if !Current(r, m) then r
    else
      var a := r.(metas := r.metas[m := r.metas[m].(closed := true, status := StatusClosed)]);
      if removeWorker && WorkerToClose(r, m).Some? then DeleteWorker(a, m.id, WorkerToClose(r, m).value) else a
  }

  /** The section of PurgeSession. */
  function Purge(r: Registry, id: Id): Registry {
    var a := if id in r.workers then DeleteWorker(r, id, r.workers[id]) else r;
    a.(sessions := r.sessions - {id})
  }

  function SetConn(r: Registry, h: HandleRef, conn: nat): Registry
    requires h in r.handles
  {
    r.(handles := r.handles[h := r.handles[h].(conn := Some(conn))])
  }

  function CloseConn(r: Registry, h: HandleRef): Registry
    requires h in r.handles
  {
    r.(handles := r.handles[h := r.handles[h].(closed := true, conn := None)])
  }

  function MarkReady(r: Registry, h: HandleRef): Registry
    requires h in r.handles
  {
    r.(handles := r.handles[h := r.handles[h].(ready := true)])
  }

  predicate ReadyAccepted(r: Registry, m: MetaRef, h: HandleRef) {
    Current(r, m) && !(m in r.pendingRestart && r.pendingRestart[m] == h)
  }

  /** The section that a worker's ready message reaches. */
  function CommitReady(r: Registry, m: MetaRef, h: HandleRef): Registry
    requires m in r.metas
  {
    if ReadyAccepted(r, m, h) && !r.metas[m].closed then SetStatus(r, m, Ready) else r
  }

  /** monitorReady's section: it touches its own meta whether or not it is current. */
  function ReadyTimeout(r: Registry, m: MetaRef): Registry
    requires m in r.metas
  {
    if !r.metas[m].closed && r.metas[m].status != Ready then SetStatus(r, m, Recovering) else r
  }

  /** markCurrentWorkerRestartPending */
  function MarkRestart(r: Registry, m: MetaRef): Registry
    requires m in r.metas
  {
    if !Current(r, m) || r.metas[m].closed then r
    else SetStatus(r, m, Recovering).(
      pendingRestart := if m.id in r.workers then r.pendingRestart[m := r.workers[m.id]] else r.pendingRestart)
  }

  /** watchCancelledTurn's section when its timer has fired. */
  function WatchdogExpires(r: Registry, m: MetaRef, token: nat): Registry
    requires m in r.metas
  {
    if Current(r, m) && !r.metas[m].closed && CanFailCancelling(r.metas[m].turn, token)
    then MarkRestart(SetTurn(r, m, End(r.metas[m].turn)), m)
    else r
  }

  /** finishCancelWithFailure */
  function FailCancel(r: Registry, m: MetaRef, token: nat): Registry
    requires m in r.metas
  {
    if Current(r, m) && CanFailCancelling(r.metas[m].turn, token) then SetTurn(r, m, End(r.metas[m].turn)) else r
  }

  /** commitCancelSendFailureIfCurrent, for the handle the send was tried on. */
  function CommitCancelFailure(r: Registry, m: MetaRef, token: nat, h: Option<HandleRef>): Registry
    requires m in r.metas
  {
    if (if m.id in r.workers then Some(r.workers[m.id]) else None) != h then r else FailCancel(r, m, token)
  }

  predicate TurnAdmitted(r: Registry, m: MetaRef)
    requires m in r.metas
  {
    Current(r, m) && !r.metas[m].closed && r.metas[m].status == Ready && CanBegin(r.metas[m].turn)
  }

  /** beginCodexTurnIfReady */
  function BeginCodexTurn(r: Registry, m: MetaRef): Registry
    requires m in r.metas
  {
    if TurnAdmitted(r, m) then SetTurn(r, m, Begin(r.metas[m].turn)) else r
  }

  /** beginTurnCancelIfCurrent */
  function BeginCancelIfCurrent(r: Registry, m: MetaRef): Registry
    requires m in r.metas
  {
    if Current(r, m) && !r.metas[m].closed && r.metas[m].codex && CanCancel(r.metas[m].turn)
    then SetTurn(r, m, BeginCancel(r.metas[m].turn)) else r
  }

  function CompleteTurn(r: Registry, m: MetaRef): Registry
    requires m in r.metas
  {
    if r.metas[m].turn.active then SetTurn(r, m, End(r.metas[m].turn)) else r
  }

  function RollbackTurn(r: Registry, m: MetaRef): Registry
    requires m in r.metas
  {
    SetTurn(r, m, End(r.metas[m].turn))
  }

  function AddOutput(r: Registry, m: MetaRef, line: string): Registry
    requires m in r.metas
  {
    r.(metas := r.metas[m := r.metas[m].(output := r.metas[m].output + [line])])
  }

  function SetCliSession(r: Registry, m: MetaRef, s: string): Registry
    requires m in r.metas
  {
    r.(metas := r.metas[m := r.metas[m].(cliSession := s)])
  }

  // ---- the same sections as the daemon runs them, on its own fields

  class Daemon {
    var sessions: map<Id, MetaRef>
    var workers: map<Id, HandleRef>
    var workerOwners: map<HandleRef, MetaRef>
    var pendingRestart: map<MetaRef, HandleRef>
    var metas: map<MetaRef, Meta>
    var handles: map<HandleRef, Handle>

    ghost function View(): Registry
      reads this
    {
      Registry(sessions, workers, workerOwners, pendingRestart, metas, handles)
    }

    method DeleteWorkerIfCurrentLocked(id: Id, h: HandleRef) returns (ok: bool)
      modifies this`workers, this`workerOwners
      ensures View() == DeleteWorker(old(View()), id, h)
      ensures ok == (id in old(workers) && old(workers)[id] == h)
      ensures workers == (if ok then old(workers) - {id} else old(workers))
      ensures workerOwners == (if ok then old(workerOwners) - {h} else old(workerOwners))
    {
      if id !in workers || workers[id] != h { return false; }
      workers := workers - {id};
      workerOwners := workerOwners - {h};
      return true;
    }

    /** Reports the worker it replaced, which the caller stops afterwards. */
    method InstallWorker(m: MetaRef, h: HandleRef, startOk: bool) returns (ok: bool, existing: Option<HandleRef>)
      requires m in metas
      modifies this
      ensures View() == Install(old(View()), m, h, startOk)
      ensures ok == (m.id in old(sessions) && old(sessions)[m.id] == m && startOk)
      ensures existing ==
        if m.id in old(sessions) && old(sessions)[m.id] == m && m.id in old(workers) then Some(old(workers)[m.id]) else None
      ensures m.id !in old(sessions) || old(sessions)[m.id] != m ==> View() == old(View())
      ensures m.id in old(sessions) && old(sessions)[m.id] == m ==>
        && sessions == old(sessions) && pendingRestart == old(pendingRestart) - {m}
        && handles == old(handles)[h := Handle(false, false, None)]
        && workers == (if ok then old(workers)[m.id := h] else old(workers) - {m.id})
        && workerOwners == (if ok then old(workerOwners)[h := m] else old(workerOwners) - {h})
        && metas == old(metas)[m := old(metas)[m].(status := if ok then Spawning else Recovering)]
    {
      if m.id !in sessions || sessions[m.id] != m { return false, None; }
      metas := metas[m := metas[m].(status := Spawning)];
      pendingRestart := pendingRestart - {m};
      existing := if m.id in workers then Some(workers[m.id]) else None;
      workers, workerOwners := workers[m.id := h], workerOwners[h := m];
      handles := handles[h := Handle(false, false, None)];
      if !startOk {
        var _ := DeleteWorkerIfCurrentLocked(m.id, h);
        metas := metas[m := metas[m].(status := Recovering)];
      }
      return startOk, existing;
    }

    /** Reports the owner whose onClose callbacks then run. */
    method ExitWorker(h: HandleRef) returns (owned: Option<MetaRef>)
      requires forall k :: k in workerOwners ==> workerOwners[k] in metas
      modifies this
      ensures View() == WorkerExit(old(View()), h)
      ensures owned.Some? <==>
        && h.spawner.id in old(workers) && old(workers)[h.spawner.id] == h && h in old(workerOwners)
        && old(workerOwners)[h].id in old(sessions) && old(sessions)[old(workerOwners)[h].id] == old(workerOwners)[h]
      ensures owned.Some? ==>
        && owned.value == old(workerOwners)[h] && workers == old(workers) - {h.spawner.id}
        && metas == if old(metas)[owned.value].closed then old(metas)
                    else old(metas)[owned.value := old(metas)[owned.value].(status := Recovering)]
      ensures owned.None? ==> workers == old(workers) && metas == old(metas)
      ensures workerOwners == old(workerOwners) - {h}
      ensures sessions == old(sessions) && pendingRestart == old(pendingRestart) && handles == old(handles)
    {
      var id := h.spawner.id;
      if id in workers && workers[id] == h && h in workerOwners {
        var owner := workerOwners[h];
        if owner.id in sessions && sessions[owner.id] == owner {
          var _ := DeleteWorkerIfCurrentLocked(id, h);
          if !metas[owner].closed { metas := metas[owner := metas[owner].(status := Recovering)]; }
          return Some(owner);
        }
      }
      workerOwners := workerOwners - {h};
      return None;
    }

    method MarkSessionMetaClosed(m: MetaRef, removeWorker: bool) returns (h: Option<HandleRef>, ok: bool)
      requires m in metas
      modifies this
      ensures View() == MarkClosed(old(View()), m, removeWorker)
      ensures ok == (m.id in old(sessions) && old(sessions)[m.id] == m)
      ensures h == if ok && m.id in old(workers) && old(workers)[m.id] in old(workerOwners)
                      && old(workerOwners)[old(workers)[m.id]] == m then Some(old(workers)[m.id]) else None
      ensures metas == if ok then old(metas)[m := old(metas)[m].(closed := true, status := StatusClosed)] else old(metas)
      ensures workers == (if h.Some? && removeWorker then old(workers) - {m.id} else old(workers))
      ensures workerOwners == (if h.Some? && removeWorker then old(workerOwners) - {h.value} else old(workerOwners))
    {
      if m.id !in sessions || sessions[m.id] != m { return None, false; }
      metas := metas[m := metas[m].(closed := true, status := StatusClosed)];
      h := if m.id in workers then Some(workers[m.id]) else None;
      if h.None? || h.value !in workerOwners || workerOwners[h.value] != m {
        h := None;
      } else if removeWorker {
        var _ := DeleteWorkerIfCurrentLocked(m.id, h.value);
      }
      ok := true;
    }

    method PurgeMaps(id: Id) returns (h: Option<HandleRef>)
      modifies this`sessions, this`workers, this`workerOwners
      ensures View() == Purge(old(View()), id)
      ensures h == if id in old(workers) then Some(old(workers)[id]) else None
      ensures sessions == old(sessions) - {id} && workers == old(workers) - {id}
      ensures workerOwners == if h.Some? then old(workerOwners) - {h.value} else old(workerOwners)
    {
      h := if id in workers then Some(workers[id]) else None;
      if h.Some? { var _ := DeleteWorkerIfCurrentLocked(id, h.value); }
      sessions := sessions - {id};
    }

    /** The admission test of handleConn; true once the connection is attached. */
    method AdmitWorker(id: Id, instance: HandleRef, conn: nat) returns (ok: bool)
      requires forall i :: i in sessions ==> sessions[i] in metas
      requires forall i :: i in workers ==> workers[i] in handles
      modifies this`handles
      ensures ok == old(Admits(View(), id, instance))
      ensures ok <==>
        && id in sessions && !metas[sessions[id]].closed && id in workers && workers[id] == instance
        && instance in workerOwners && workerOwners[instance] == sessions[id]
      ensures handles == if ok then old(handles)[instance := old(handles)[instance].(conn := Some(conn))] else old(handles)
      ensures View() == if ok then SetConn(old(View()), instance, conn) else old(View())
    {
      if id !in sessions || metas[sessions[id]].closed || id !in workers { return false; }
      var h := workers[id];
      if h !in workerOwners || workerOwners[h] != sessions[id] { return false; }
      if instance != h { return false; }
      handles := handles[h := handles[h].(conn := Some(conn))];
      return true;
    }

    method ReadyMessage(m: MetaRef, h: HandleRef) returns (ok: bool)
      requires m in metas
      modifies this`metas
      ensures ok == old(ReadyAccepted(View(), m, h)) && View() == CommitReady(old(View()), m, h)
      ensures ok <==> m.id in sessions && sessions[m.id] == m && (m in pendingRestart ==> pendingRestart[m] != h)
      ensures metas == if ok && !old(metas)[m].closed then old(metas)[m := old(metas)[m].(status := Ready)] else old(metas)
    {
      if m.id !in sessions || sessions[m.id] != m { return false; }
      if m in pendingRestart && pendingRestart[m] == h { return false; }
      if !metas[m].closed { metas := metas[m := metas[m].(status := Ready)]; }
      return true;
    }

    method MarkCurrentWorkerRestartPending(m: MetaRef) returns (h: Option<HandleRef>, ok: bool)
      requires m in metas
      modifies this`metas, this`pendingRestart
      ensures View() == MarkRestart(old(View()), m)
      ensures ok <==> m.id in sessions && sessions[m.id] == m && !old(metas)[m].closed
      ensures h == if ok && m.id in workers then Some(workers[m.id]) else None
      ensures metas == if ok then old(metas)[m := old(metas)[m].(status := Recovering)] else old(metas)
      ensures pendingRestart == if h.Some? then old(pendingRestart)[m := h.value] else old(pendingRestart)
    {
      h := if m.id in workers then Some(workers[m.id]) else None;
      if m.id !in sessions || sessions[m.id] != m || metas[m].closed { return None, false; }
      metas := metas[m := metas[m].(status := Recovering)];
      if h.Some? { pendingRestart := pendingRestart[m := h.value]; }
      ok := true;
    }

    /** True when the token still named a turn being cancelled, which has then
        failed and whose worker must be restarted. */
    method WatchCancelledTurn(m: MetaRef, token: nat) returns (restart: bool)
      requires m in metas
      modifies this`metas, this`pendingRestart
      ensures View() == WatchdogExpires(old(View()), m, token)
      ensures var was := old(metas)[m];
        && restart == (m.id in sessions && sessions[m.id] == m && !was.closed
                       && was.turn.active && was.turn.cancelling && was.turn.token == token)
        && metas == (if restart then old(metas)[m := was.(status := Recovering, turn := TurnState(false, false, token))]
                     else old(metas))
        && pendingRestart == (if restart && m.id in workers then old(pendingRestart)[m := workers[m.id]] else old(pendingRestart))
    {
      restart := false;
      if m.id in sessions && sessions[m.id] == m && !metas[m].closed {
        var t := metas[m].turn;
        if t.active && t.cancelling && t.token == token {
          metas := metas[m := metas[m].(turn := t.(active := false, cancelling := false))];
          restart := true;
        }
      }
      if restart {
        metas := metas[m := metas[m].(status := Recovering)];
        if m.id in workers { pendingRestart := pendingRestart[m := workers[m.id]]; }
      }
    }

    method BeginCodexTurnIfReady(m: MetaRef) returns (ok: bool)
      requires m in metas
      modifies this`metas
      ensures ok == old(TurnAdmitted(View(), m)) && View() == BeginCodexTurn(old(View()), m)
      ensures var was := old(metas)[m];
        && (ok <==> m.id in sessions && sessions[m.id] == m && !was.closed && was.status == Ready && !was.turn.active)
        && metas == if ok then old(metas)[m := was.(turn := TurnState(true, false, was.turn.token + 1))] else old(metas)
    {
      if m.id !in sessions || sessions[m.id] != m { return false; }
      if metas[m].closed { return false; }
      if metas[m].status != Ready { return false; }
      var t := metas[m].turn;
      if t.active { return false; }
      metas := metas[m := metas[m].(turn := TurnState(true, false, t.token + 1))];
      return true;
    }

    /** monitorReady after its timeout; the meta need not be current. */
    method MonitorReady(m: MetaRef) returns (failed: bool)
      requires m in metas
      modifies this`metas
      ensures failed == (!old(metas)[m].closed && old(metas)[m].status != Ready) && View() == ReadyTimeout(old(View()), m)
      ensures metas == if failed then old(metas)[m := old(metas)[m].(status := Recovering)] else old(metas)
    {
      failed := !metas[m].closed && metas[m].status != Ready;
      if failed { metas := metas[m := metas[m].(status := Recovering)]; }
    }

    method BeginTurnCancelIfCurrent(m: MetaRef) returns (token: nat, ok: bool)
      requires m in metas
      modifies this`metas
      ensures View() == BeginCancelIfCurrent(old(View()), m)
      ensures var was := old(metas)[m];
        && ok == (m.id in sessions && sessions[m.id] == m && !was.closed && was.codex && was.turn.active && !was.turn.cancelling)
        && (ok ==> token == was.turn.token)
        && metas == if ok then old(metas)[m := was.(turn := TurnState(true, true, token))] else old(metas)
    {
      if m.id !in sessions || sessions[m.id] != m || metas[m].closed || !metas[m].codex { return 0, false; }
      var t := metas[m].turn;
      if !t.active || t.cancelling { return 0, false; }
      metas := metas[m := metas[m].(turn := t.(cancelling := true))];
      return t.token, true;
    }

    method FinishCancelWithFailure(m: MetaRef, token: nat) returns (ok: bool)
      requires m in metas
      modifies this`metas
      ensures View() == FailCancel(old(View()), m, token)
      ensures var was := old(metas)[m];
        && ok == (m.id in sessions && sessions[m.id] == m && was.turn.active && was.turn.cancelling && was.turn.token == token)
        && metas == if ok then old(metas)[m := was.(turn := TurnState(false, false, token))] else old(metas)
    {
      if m.id !in sessions || sessions[m.id] != m { return false; }
      var t := metas[m].turn;
      if !t.active || !t.cancelling || t.token != token { return false; }
      metas := metas[m := metas[m].(turn := t.(active := false, cancelling := false))];
      return true;
    }

    /** Another worker in the slot than the one the send was tried on asks for a retry. */
    method CommitCancelSendFailureIfCurrent(m: MetaRef, token: nat, tried: Option<HandleRef>) returns (retry: bool, ok: bool)
      requires m in metas
      modifies this`metas
      ensures View() == CommitCancelFailure(old(View()), m, token, tried)
      ensures retry == (if m.id in workers then tried != Some(workers[m.id]) else tried.Some?)
      ensures retry ==> !ok && metas == old(metas)
    {
      if (if m.id in workers then Some(workers[m.id]) else None) != tried { return true, false; }
      ok := FinishCancelWithFailure(m, token);
      retry := false;
    }
  }
}
