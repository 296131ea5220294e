/** The session directory: one record for each ID, changed by load-modify-save
    under the store's own mutex. */
module SessionStore {
  import opened Base
  import opened DaemonRegistry
  import SessionTurn

  const MAX_PERSISTED_OUTPUT_LINES := 5000

  /** A stored session. `gen` records which meta object wrote the file or was
      restored from it; the daemon does not store it. */
  datatype Record = Record(gen: MetaRef, codex: bool, closed: bool, output: seq<string>, cliSession: string, pid: nat)

  type Files = map<Id, Record>

  datatype Update = PutOutput(line: string) | PutPid(pid: nat) | PutCliSession(id: string) | PutActivity

  function ToRecord(m: MetaRef, meta: Meta): Record {
    Record(m, meta.codex, meta.closed, meta.output, meta.cliSession, 0)
  }

  /** SessionMetaFromPersisted */
  function FromRecord(rec: Record): Meta {
    Meta(rec.codex, rec.closed, if rec.closed then StatusClosed else Created, SessionTurn.NO_TURN, rec.output, rec.cliSession)
  }

  function Trimmed(output: seq<string>): seq<string> {
    if |output| > MAX_PERSISTED_OUTPUT_LINES then output[|output| - MAX_PERSISTED_OUTPUT_LINES..] else output
  }

  function Updated(rec: Record, u: Update): Record {
    match u
    case PutOutput(line) => rec.(output := Trimmed(rec.output + [line]))
    case PutPid(pid) => rec.(pid := pid)
    case PutCliSession(id) => rec.(cliSession := id)
    case PutActivity => rec
  }

  /** The four update operations: nothing is stored for a missing or closed record. */
  function Modify(files: Files, id: Id, u: Update): Files {
    if id in files && !files[id].closed then files[id := Updated(files[id], u)] else files
  }

  function CloseRecord(files: Files, id: Id): Files {
    if id in files then files[id := files[id].(closed := true)] else files
  }

  predicate OpenIn(files: Files, id: Id) { id in files && !files[id].closed }

  // ---- a record over its life

  function ModifyAll(files: Files, id: Id, us: seq<Update>): Files
    decreases |us|
  {
    if us == [] then files else Modify(ModifyAll(files, id, us[..|us| - 1]), id, us[|us| - 1])
  }

  /** The lines among some updates, in order. */
  function LinesOf(us: seq<Update>): seq<string>
    decreases |us|
  {
    if us == [] then []
    else LinesOf(us[..|us| - 1]) + if us[|us| - 1].PutOutput? then [us[|us| - 1].line] else []
  }

  /** The CLI session and the process stored last, if any. */
  function CliSessionOf(us: seq<Update>, first: string): string
    decreases |us|
  {
    if us == [] then first
    else if us[|us| - 1].PutCliSession? then us[|us| - 1].id
    else CliSessionOf(us[..|us| - 1], first)
  }

  function PidOf(us: seq<Update>, first: nat): nat
    decreases |us|
  {
    if us == [] then first
    else if us[|us| - 1].PutPid? then us[|us| - 1].pid
    else PidOf(us[..|us| - 1], first)
  }

  lemma TrimmedTwice(a: seq<string>, b: seq<string>)
    ensures Trimmed(Trimmed(a) + b) == Trimmed(a + b)
  {
    if |a| > MAX_PERSISTED_OUTPUT_LINES {
      var cut := |a| - MAX_PERSISTED_OUTPUT_LINES;
      assert Trimmed(a) + b == (a + b)[cut..];
    }
  }

  /** The output of a record once some lines have been stored in it. */
  function Stored(output: seq<string>, lines: seq<string>): seq<string> {
    if lines == [] then output else Trimmed(output + lines)
  }

  lemma StoredNext(output: seq<string>, lines: seq<string>, line: string)
    ensures Trimmed(Stored(output, lines) + [line]) == Stored(output, lines + [line])
  {
    TrimmedTwice(output + lines, [line]);
    assert output + lines + [line] == output + (lines + [line]);
    hide Trimmed;
  }

  /** Whatever updates an open record receives, it stays that session's open record, its
      output is the tail of all lines ever stored, its CLI session and process are those
      stored last, and no other record changes. */
  lemma {:induction false} UpdatesAccumulate(files: Files, id: Id, us: seq<Update>)
    requires OpenIn(files, id)
    ensures var after := ModifyAll(files, id, us);
      && OpenIn(after, id) && after.Keys == files.Keys && (forall i :: i in files && i != id ==> after[i] == files[i])
      && after[id].gen == files[id].gen && after[id].codex == files[id].codex
      && after[id].output == Stored(files[id].output, LinesOf(us))
      && after[id].cliSession == CliSessionOf(us, files[id].cliSession) && after[id].pid == PidOf(us, files[id].pid)
    decreases |us|
  {
    if us != [] {
      var init, u := us[..|us| - 1], us[|us| - 1];
      UpdatesAccumulate(files, id, init);
      hide Trimmed, Stored;
      if u.PutOutput? {
        StoredNext(files[id].output, LinesOf(init), u.line);
      } else {
        assert LinesOf(us) == LinesOf(init);
      }
    }
  }

  /** A closed record is final: no update changes it any more. */
  lemma {:induction false} ClosedRecordIsFinal(files: Files, id: Id, us: seq<Update>)
    ensures ModifyAll(CloseRecord(files, id), id, us) == CloseRecord(files, id)
    decreases |us|
  {
    if us != [] { ClosedRecordIsFinal(files, id, us[..|us| - 1]); }
  }

  /** What a restart reads back of a session saved open and updated since: its kind, the
      last lines of its output and the last CLI session, but neither status nor turn. */
  lemma RestartReadsBack(files: Files, m: MetaRef, meta: Meta, us: seq<Update>)
    requires !meta.closed && |meta.output| <= MAX_PERSISTED_OUTPUT_LINES
    ensures var after := ModifyAll(files[m.id := ToRecord(m, meta)], m.id, us);
      && m.id in after
      && var back := FromRecord(after[m.id]);
         back.codex == meta.codex && !back.closed && back.status == Created && back.turn == SessionTurn.NO_TURN
         && back.cliSession == CliSessionOf(us, meta.cliSession) && after[m.id].pid == PidOf(us, 0)
         && var all := meta.output + LinesOf(us);
            back.output == if |all| > 5000 then all[|all| - 5000..] else all
  {
    UpdatesAccumulate(files[m.id := ToRecord(m, meta)], m.id, us);
    assert LinesOf(us) == [] ==> meta.output + LinesOf(us) == meta.output;
  }

  class SessionStore {
    var files: Files

    method Save(id: Id, rec: Record)
      modifies this
      ensures files == old(files)[id := rec]
    {
      files := files[id := rec];
    }

    method UpdateRecord(id: Id, u: Update) returns (ok: bool)
      modifies this
      ensures ok == (id in old(files)) && files == Modify(old(files), id, u)
      ensures id !in old(files) || old(files)[id].closed ==> files == old(files)
      ensures id in old(files) && !old(files)[id].closed ==>
        && files.Keys == old(files).Keys && (forall i :: i in files && i != id ==> files[i] == old(files)[i])
        && match u
           case PutOutput(line) =>
             var all := old(files)[id].output + [line];
             files[id] == old(files)[id].(output := if |all| > 5000 then all[|all| - 5000..] else all)
           case PutPid(pid) => files[id] == old(files)[id].(pid := pid)
           case PutCliSession(s) => files[id] == old(files)[id].(cliSession := s)
           case PutActivity => files[id] == old(files)[id]
    {
      if id !in files { return false; }
      var ps := files[id];
      if ps.closed { return true; }
      ps := Updated(ps, u);
      files := files[id := ps];
      return true;
    }

    method MarkClosed(id: Id) returns (ok: bool)
      modifies this
      ensures ok == (id in old(files)) && files == CloseRecord(old(files), id)
      ensures files.Keys == old(files).Keys && forall i :: i in files ==>
        files[i] == if i == id then old(files)[i].(closed := true) else old(files)[i]
    {
      if id !in files { return false; }
      files := files[id := files[id].(closed := true)];
      return true;
    }

    method Remove(id: Id)
      modifies this
      ensures files == old(files) - {id}
    {
      files := files - {id};
    }

    /** Every open record once, and no closed one. */
    method List() returns (result: seq<(Id, Record)>)
      ensures forall k :: 0 <= k < |result| ==> OpenIn(files, result[k].0) && result[k].1 == files[result[k].0]
      ensures forall id :: OpenIn(files, id) ==> exists k :: 0 <= k < |result| && result[k].0 == id
      ensures forall j, k :: 0 <= j < k < |result| ==> result[j].0 != result[k].0
    {
      result := [];
      var entries := files.Keys;
      while entries != {}
        invariant entries <= files.Keys
        invariant forall k :: 0 <= k < |result| ==>
          result[k].0 !in entries && OpenIn(files, result[k].0) && result[k].1 == files[result[k].0]
        invariant forall id :: OpenIn(files, id) && id !in entries ==> exists k :: 0 <= k < |result| && result[k].0 == id
        invariant forall j, k :: 0 <= j < k < |result| ==> result[j].0 != result[k].0
        decreases entries
      {
        var id :| id in entries;
        ghost var before, left := result, entries;
        entries := entries - {id};
        if !files[id].closed { result := result + [(id, files[id])]; }
        forall i | OpenIn(files, i) && i !in entries ensures exists k :: 0 <= k < |result| && result[k].0 == i {
          if i == id {
            assert result[|result| - 1].0 == i;
          } else {
            var k :| 0 <= k < |before| && before[k].0 == i;
            assert result[k].0 == i;
          }
        }
      }
    }
  }
}
