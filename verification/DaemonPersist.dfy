/** What the daemon is told about a session reaches its file: every update queued is
    carried out once its turn at the file comes, unless the session has gone or is
    closed by then. */
module DaemonPersist {
  import opened Base
  import opened SessionTurn
  import opened DaemonRegistry
  import opened SessionStore
  import opened DaemonFencing
  import opened DaemonInvariant
  import opened DaemonTheorems

  /** Operation o is the update u for m, waiting, checking or writing. */
  predicate Updates(s: State, o: nat, m: MetaRef, u: Update) {
    o < |s.ops| && s.ops[o] in {PersistWait(m, u), PersistCheck(m, u), PersistWrite(m, u)}
  }

  predicate RegisteredOpen(s: State, m: MetaRef) {
    m in s.reg.metas && !s.reg.metas[m].closed && m.id in s.reg.sessions && s.reg.sessions[m.id] == m
  }

  /** The file is m's own and open, and gets the update; no other file changes. */
  ghost predicate Written(was: Files, files: Files, m: MetaRef, u: Update) {
    && m.id in was && was[m.id].gen == m && !was[m.id].closed
    && files.Keys == was.Keys && (forall i :: i in was && i != m.id ==> files[i] == was[i])
    && match u
       case PutOutput(line) =>
         var all := was[m.id].output + [line];
         files[m.id] == was[m.id].(output := if |all| > 5000 then all[|all| - 5000..] else all)
       case PutPid(pid) => files[m.id] == was[m.id].(pid := pid)
       case PutCliSession(id) => files[m.id] == was[m.id].(cliSession := id)
       case PutActivity => files[m.id] == was[m.id]
  }

  /** The step ends operation o: with the update written if its session is registered and
      open, and without it otherwise. */
  ghost predicate Ends(s: State, e: Event, s': State, o: nat, m: MetaRef, u: Update) {
    && e == Advance(o) && o < |s'.ops| && s'.ops[o] == Done
    && if RegisteredOpen(s, m) then Written(s.disk, s'.disk, m, u) else s'.disk == s.disk
  }

  /** A step that is not the operation's own leaves it alone. */
  lemma OthersStay(s: State, e: Event, o: nat)
    requires Enabled(s, e) && o < |s.ops| && e != Advance(o) && e != Acquire(o)
    ensures o < |Apply(s, e).ops| && Apply(s, e).ops[o] == s.ops[o]
  {
    if e.Advance? {
      AdvanceStays(s, e.o, o);
    } else {
      hide Current, Admits, WorkerExit, MarkRestart, WatchdogExpires, Install;
    }
  }

  lemma AdvanceStays(s: State, p: nat, o: nat)
    requires CanAdvance(s, p) && o < |s.ops| && o != p
    ensures o < |AdvanceOp(s, p).ops| && AdvanceOp(s, p).ops[o] == s.ops[o]
  {
    hide AdvanceRouted, AdvanceClose, AdvancePurge, AdvanceCreate, AdvanceRollback, AdvancePersist, Waiting, Holding;
    if s.ops[p].Routed? { RoutedStays(s, p, o); }
    else if s.ops[p].CloseMark? || s.ops[p].CloseWrite? || s.ops[p].PurgeDrop? || s.ops[p].PurgeRemove? { RemovalStays(s, p, o); }
    else if Holding(s.ops[p]).Some? { StoreStays(s, p, o); }
  }

  lemma RoutedStays(s: State, p: nat, o: nat)
    requires CanAdvance(s, p) && s.ops[p].Routed? && o < |s.ops| && o != p
    ensures o < |AdvanceRouted(s, p).ops| && AdvanceRouted(s, p).ops[o] == s.ops[o]
  {
    hide CommitReady, ReadyAccepted, AddOutput, SetCliSession, CompleteTurn, Waiting, Holding;
  }

  lemma RemovalStays(s: State, p: nat, o: nat)
    requires CanAdvance(s, p) && o < |s.ops| && o != p
    ensures s.ops[p].CloseMark? || s.ops[p].CloseWrite? ==>
      o < |AdvanceClose(s, p).ops| && AdvanceClose(s, p).ops[o] == s.ops[o]
    ensures s.ops[p].PurgeDrop? || s.ops[p].PurgeRemove? ==>
      o < |AdvancePurge(s, p).ops| && AdvancePurge(s, p).ops[o] == s.ops[o]
  {
    hide MarkClosed, Purge, Current, WorkerToClose, Waiting, Holding;
  }

  lemma StoreStays(s: State, p: nat, o: nat)
    requires CanAdvance(s, p) && o < |s.ops| && o != p
    ensures s.ops[p].CreateRegister? || s.ops[p].CreateSave? ==>
      o < |AdvanceCreate(s, p).ops| && AdvanceCreate(s, p).ops[o] == s.ops[o]
    ensures s.ops[p].RollbackDrop? || s.ops[p].RollbackRemove? ==>
      o < |AdvanceRollback(s, p).ops| && AdvanceRollback(s, p).ops[o] == s.ops[o]
    ensures s.ops[p].PersistCheck? || s.ops[p].PersistWrite? ==>
      o < |AdvancePersist(s, p).ops| && AdvancePersist(s, p).ops[o] == s.ops[o]
  {
    hide Register, Rollback, Current, Modify, Waiting, Holding;
  }

  lemma OwnStep(s: State, e: Event, o: nat, m: MetaRef, u: Update)
    requires Inv(s) && Enabled(s, e) && Updates(s, o, m, u) && (e == Advance(o) || e == Acquire(o))
    ensures Updates(Apply(s, e), o, m, u) || Ends(s, e, Apply(s, e), o, m, u)
  {
    if e.Acquire? { hide Inv; }
    else if s.ops[o].PersistWrite? {
      OwnFile(s, o);
      hide Inv;
      WriteEnds(s, o, m, u);
    } else {
      hide Inv;
      assert Apply(s, e) == AdvancePersist(s, o);
    }
  }

  lemma WriteEnds(s: State, o: nat, m: MetaRef, u: Update)
    requires CanAdvance(s, o) && s.ops[o] == PersistWrite(m, u) && RegisteredOpen(s, m)
    requires m.id in s.disk && s.disk[m.id].gen == m && !s.disk[m.id].closed
    ensures Ends(s, Advance(o), AdvanceOp(s, o), o, m, u)
  {
    assert AdvanceOp(s, o).disk == Modify(s.disk, m.id, u);
  }

  /** An update about to be written finds the file of its own session, open. */
  lemma OwnFile(s: State, o: nat)
    requires Inv(s) && o < |s.ops| && s.ops[o].PersistWrite?
    ensures var m := s.ops[o].m; RegisteredOpen(s, m) && m.id in s.disk && s.disk[m.id].gen == m && !s.disk[m.id].closed
  {
    var m := s.ops[o].m;
    assert Phase(s, s.ops[o]) && Holding(s.ops[o]) == Some(m.id);
    assert !DirtyAt(s, m.id);
    assert Agree(s, m.id);
  }

  /** In every run an update once queued stays under way until it ends as it should. */
  lemma {:induction false} UpdatesAreCarriedOut(disk: Files, trace: seq<Event>, states: seq<State>, k: nat, l: nat, o: nat,
                                                m: MetaRef, u: Update)
    requires Run(disk, trace, states) && k <= l <= |trace| && o < |states[k].ops| && states[k].ops[o] == PersistWait(m, u)
    ensures Updates(states[l], o, m, u)
      || exists i: nat :: k <= i < l && Ends(states[i], trace[i], states[i + 1], o, m, u)
    decreases l
  {
    hide Inv, Apply, Enabled, Ends, Restore;
    if k < l {
      UpdatesAreCarriedOut(disk, trace, states, k, l - 1, o, m, u);
      if Updates(states[l - 1], o, m, u) {
        RunKeeps(disk, trace, states, l - 1);
        if trace[l - 1] == Advance(o) || trace[l - 1] == Acquire(o) {
          OwnStep(states[l - 1], trace[l - 1], o, m, u);
        } else {
          OthersStay(states[l - 1], trace[l - 1], o);
        }
      } else {
        var i: nat :| k <= i < l - 1 && Ends(states[i], trace[i], states[i + 1], o, m, u);
      }
    }
  }

  /** A worker's output and CLI session change the session's own meta at once, however
      late they are handled, and queue the update of its file in the place of the message;
      the end of a turn ends the active turn; a close queues the close. */
  lemma MessagesAreKept(s: State, o: nat, m: MetaRef, h: HandleRef, msg: WorkerMessage)
    requires Enabled(s, Advance(o)) && s.ops[o] == Routed(m, h, msg) && !msg.ReadyMsg?
    ensures m in s.reg.metas
    ensures var s', was := Apply(s, Advance(o)), s.reg.metas[m];
      match msg
      case OutputMsg(line) =>
        s'.reg == s.reg.(metas := s.reg.metas[m := was.(output := was.output + [line])])
        && s'.ops == s.ops[o := PersistWait(m, PutOutput(line))]
      case BoundMsg(id) =>
        s'.reg == s.reg.(metas := s.reg.metas[m := was.(cliSession := id)]) && s'.ops == s.ops[o := PersistWait(m, PutCliSession(id))]
      case TurnCompletedMsg =>
        s'.reg.metas[m] == was.(turn := if was.turn.active then TurnState(false, false, was.turn.token) else was.turn)
        && s'.ops == s.ops[o := Done]
      case CloseMsg => s'.reg == s.reg && s'.ops == s.ops[o := CloseWait(m, true)]
      case ReadyMsg => true
  {
  }

  /** Nobody waits for nothing: an operation that wants a file can have it, or the
      operation that has it can go on. */
  lemma FilesAreNeverStuck(disk: Files, trace: seq<Event>, states: seq<State>, k: nat, o: nat, id: Id)
    requires Run(disk, trace, states) && k <= |trace| && o < |states[k].ops| && Waiting(states[k].ops[o]) == Some(id)
    ensures var s := states[k];
      Enabled(s, Acquire(o)) || (id in s.fileLock && Enabled(s, Advance(s.fileLock[id])))
  {
    RunKeeps(disk, trace, states, k);
    if id in states[k].fileLock { HolderAt(states[k], id); }
    hide Inv, Run;
  }

  lemma HolderAt(s: State, id: Id)
    requires Inv(s) && id in s.fileLock
    ensures CanAdvance(s, s.fileLock[id])
  {
    assert Allocated(s, s.ops[s.fileLock[id]]);
  }
}
