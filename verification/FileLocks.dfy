/** The per-session file lock: entries are created and deleted on the fly under the
    registry's own mutex, while operations wait on the mutex inside an entry. */
module FileLocks {
  import opened Base

  type Id = string

  /** A lock entry, told apart by its address; its `mu` is free or held by a thread. */
  datatype Entry = Entry(refs: nat, holder: Option<Thread>)

  type EntryRef = nat
  type Thread = nat

  /** An operation inside lockSessionFile or its release function. */
  datatype Stage = Waiting | Holding | Releasing

  datatype Operation = Operation(id: Id, entry: EntryRef, stage: Stage)

  datatype State = State(registry: map<Id, EntryRef>, entries: map<EntryRef, Entry>, threads: map<Thread, Operation>)

  /** Enter and Drop are the two sections under sessionFileLocksMu; Lock and Unlock
      are the entry's own mutex. `addr` is the address a new entry would get. */
  datatype Event = Enter(t: Thread, id: Id, addr: EntryRef) | Lock(t: Thread) | Unlock(t: Thread) | Drop(t: Thread)

  const START := State(map[], map[], map[])

  predicate At(s: State, t: Thread, stage: Stage) {
    t in s.threads && s.threads[t].stage == stage && s.threads[t].entry in s.entries
  }

  predicate Enabled(s: State, e: Event) {
    match e
    case Enter(t, id, addr) =>
      t !in s.threads && addr !in s.entries && (id in s.registry ==> s.registry[id] in s.entries)
    case Lock(t) => At(s, t, Waiting) && s.entries[s.threads[t].entry].holder.None?
    case Unlock(t) => At(s, t, Holding)
    case Drop(t) => At(s, t, Releasing) && s.entries[s.threads[t].entry].refs > 0
  }

  function EntryFor(s: State, id: Id, addr: EntryRef): EntryRef {
    if id in s.registry then s.registry[id] else addr
  }

  function Refer(s: State, id: Id, addr: EntryRef): State
    requires id in s.registry ==> s.registry[id] in s.entries
  {
    if id in s.registry then
      var e := s.registry[id];
      s.(entries := s.entries[e := s.entries[e].(refs := s.entries[e].refs + 1)])
    else
      s.(registry := s.registry[id := addr], entries := s.entries[addr := Entry(1, None)])
  }

  /** A deleted entry stays allocated as long as anyone points to it. */
  function Unrefer(s: State, id: Id, e: EntryRef): State
    requires e in s.entries && s.entries[e].refs > 0
  {
    var s' := s.(entries := s.entries[e := s.entries[e].(refs := s.entries[e].refs - 1)]);
    if s'.entries[e].refs == 0 && id in s.registry && s.registry[id] == e
    then s'.(registry := s.registry - {id}) else s'
  }

  function SetHolder(s: State, e: EntryRef, holder: Option<Thread>): State
    requires e in s.entries
  {
    s.(entries := s.entries[e := s.entries[e].(holder := holder)])
  }

  function Apply(s: State, e: Event): State
    requires Enabled(s, e)
  {
    match e
    case Enter(t, id, addr) =>
      Refer(s, id, addr).(threads := s.threads[t := Operation(id, EntryFor(s, id, addr), Waiting)])
    case Lock(t) =>
      SetHolder(s, s.threads[t].entry, Some(t)).(threads := s.threads[t := s.threads[t].(stage := Holding)])
    case Unlock(t) =>
      SetHolder(s, s.threads[t].entry, None).(threads := s.threads[t := s.threads[t].(stage := Releasing)])
    case Drop(t) =>
      Unrefer(s, s.threads[t].id, s.threads[t].entry).(threads := s.threads - {t})
  }

  // ---- the invariant

  /** Operations that have counted themselves in on an entry and not yet out. */
  function Users(s: State, e: EntryRef): set<Thread> {
    set t | t in s.threads && s.threads[t].entry == e
  }

  ghost predicate Shared(s: State) {
    && (forall t :: t in s.threads ==> s.threads[t].id in s.registry && s.registry[s.threads[t].id] == s.threads[t].entry)
    && (forall id :: id in s.registry ==> s.registry[id] in s.entries && s.entries[s.registry[id]].refs > 0)
    && (forall i, j :: i in s.registry && j in s.registry && s.registry[i] == s.registry[j] ==> i == j)
  }

  ghost predicate Counted(s: State) {
    forall e :: e in s.entries ==> s.entries[e].refs == |Users(s, e)|
  }

  ghost predicate Exclusive(s: State) {
    && (forall t :: t in s.threads && s.threads[t].stage == Holding ==>
          s.threads[t].entry in s.entries && s.entries[s.threads[t].entry].holder == Some(t))
    && (forall e :: e in s.entries && s.entries[e].holder.Some? ==>
          var t := s.entries[e].holder.value;
          t in s.threads && s.threads[t].stage == Holding && s.threads[t].entry == e)
  }

  ghost predicate Inv(s: State) { Shared(s) && Counted(s) && Exclusive(s) }

  lemma SharedKept(s: State, e: Event)
    requires Shared(s) && Enabled(s, e)
    requires e.Drop? ==> s.entries[s.threads[e.t].entry].refs == 1 ==> Users(s, s.threads[e.t].entry) == {e.t}
    ensures Shared(Apply(s, e))
  {
    if e.Drop? {
      var f := s.threads[e.t].entry;
      if s.entries[f].refs == 1 {
        assert forall t :: t in s.threads && t != e.t ==> t !in Users(s, f);
      }
    }
  }

  lemma ExclusiveKept(s: State, e: Event)
    requires Shared(s) && Exclusive(s) && Enabled(s, e)
    ensures Exclusive(Apply(s, e))
  {
    hide Shared, Exclusive, Apply, Enabled;
    if e.Enter? { EnterExclusive(s, e); }
    else if e.Drop? { DropExclusive(s, e); }
    else { MutexExclusive(s, e); }
  }

  lemma EnterExclusive(s: State, e: Event)
    requires Shared(s) && Exclusive(s) && Enabled(s, e) && e.Enter?
    ensures Exclusive(Apply(s, e))
  {
  }

  lemma DropExclusive(s: State, e: Event)
    requires Exclusive(s) && Enabled(s, e) && e.Drop?
    ensures Exclusive(Apply(s, e))
  {
  }

  lemma MutexExclusive(s: State, e: Event)
    requires Exclusive(s) && Enabled(s, e) && (e.Lock? || e.Unlock?)
    ensures Exclusive(Apply(s, e))
  {
  }

  lemma EnterUsers(s: State, e: Event, k: EntryRef)
    requires Enabled(s, e) && e.Enter?
    ensures Users(Apply(s, e), k) == if k == EntryFor(s, e.id, e.addr) then Users(s, k) + {e.t} else Users(s, k)
  {
  }

  lemma DropUsers(s: State, e: Event, k: EntryRef)
    requires Enabled(s, e) && e.Drop?
    ensures Users(Apply(s, e), k) == if k == s.threads[e.t].entry then Users(s, k) - {e.t} else Users(s, k)
  {
  }

  lemma MutexUsers(s: State, e: Event, k: EntryRef)
    requires Enabled(s, e) && (e.Lock? || e.Unlock?)
    ensures Users(Apply(s, e), k) == Users(s, k)
  {
  }

  lemma EnterCounted(s: State, e: Event)
    requires Shared(s) && Counted(s) && Enabled(s, e) && e.Enter?
    ensures Counted(Apply(s, e))
  {
    var s', f := Apply(s, e), EntryFor(s, e.id, e.addr);
    assert e.t !in Users(s, f);
    assert e.id !in s.registry ==> Users(s, f) == {};
    hide Users;
    forall k | k in s'.entries ensures s'.entries[k].refs == |Users(s', k)| {
      EnterUsers(s, e, k);
    }
  }

  lemma DropCounted(s: State, e: Event)
    requires Counted(s) && Enabled(s, e) && e.Drop?
    ensures Counted(Apply(s, e))
  {
    var s', f := Apply(s, e), s.threads[e.t].entry;
    assert e.t in Users(s, f);
    hide Users;
    forall k | k in s'.entries ensures s'.entries[k].refs == |Users(s', k)| {
      DropUsers(s, e, k);
    }
  }

  lemma MutexCounted(s: State, e: Event)
    requires Counted(s) && Enabled(s, e) && (e.Lock? || e.Unlock?)
    ensures Counted(Apply(s, e))
  {
    hide Users;
    var s' := Apply(s, e);
    forall k | k in s'.entries ensures s'.entries[k].refs == |Users(s', k)| {
      MutexUsers(s, e, k);
    }
  }

  /** The last operation on an entry is alone on it. */
  lemma LastUser(s: State, t: Thread)
    requires Counted(s) && t in s.threads && s.threads[t].entry in s.entries
    requires s.entries[s.threads[t].entry].refs == 1
    ensures Users(s, s.threads[t].entry) == {t}
  {
    var f := s.threads[t].entry;
    assert t in Users(s, f);
    assert |Users(s, f) - {t}| == 0;
    assert Users(s, f) == (Users(s, f) - {t}) + {t};
  }

  lemma StepKeeps(s: State, e: Event)
    requires Inv(s) && Enabled(s, e)
    ensures Inv(Apply(s, e))
  {
    hide Shared, Counted, Exclusive, Apply, Users;
    ExclusiveKept(s, e);
    match e {
      case Enter(_, _, _) => EnterCounted(s, e);
      case Lock(_) => MutexCounted(s, e);
      case Unlock(_) => MutexCounted(s, e);
      case Drop(t) => DropCounted(s, e); if s.entries[s.threads[t].entry].refs == 1 { LastUser(s, t); }
    }
    SharedKept(s, e);
  }

  ghost predicate Run(trace: seq<Event>, states: seq<State>) {
    && |states| == |trace| + 1 && states[0] == START
    && (forall k :: 0 <= k < |trace| ==> Enabled(states[k], trace[k]) && states[k + 1] == Apply(states[k], trace[k]))
  }

  lemma {:induction false} RunKeeps(trace: seq<Event>, states: seq<State>, k: nat)
    requires Run(trace, states) && k <= |trace|
    ensures Inv(states[k])
  {
    if k == 0 {
      assert Inv(START);
    } else {
      hide Inv, Apply, Enabled;
      RunKeeps(trace, states, k - 1);
      StepKeeps(states[k - 1], trace[k - 1]);
    }
  }

  // ---- what it gives

  /** Every operation in flight on an ID uses the one entry registered for it, and at
      most one of them is past the lock. */
  lemma LocksArePerSession(trace: seq<Event>, states: seq<State>, k: nat, t: Thread, u: Thread)
    requires Run(trace, states) && k <= |trace| && t in states[k].threads && u in states[k].threads
    ensures var a, b := states[k].threads[t], states[k].threads[u];
      && (a.id == b.id <==> a.entry == b.entry)
      && a.id in states[k].registry && states[k].registry[a.id] == a.entry
      && (a.id == b.id && a.stage == Holding && b.stage == Holding ==> t == u)
  {
    RunKeeps(trace, states, k);
  }

  /** refs counts the operations on an entry, whether they wait, hold or are about to
      count themselves out, and an ID is registered exactly while one is in flight. */
  lemma RefsCountOperations(trace: seq<Event>, states: seq<State>, k: nat, id: Id)
    requires Run(trace, states) && k <= |trace|
    ensures var s := states[k];
      && (id in s.registry <==> exists t :: t in s.threads && s.threads[t].id == id)
      && (id in s.registry ==>
            s.registry[id] in s.entries
            && s.entries[s.registry[id]].refs == |set t | t in s.threads && s.threads[t].id == id|)
  {
    RunKeeps(trace, states, k);
    var s := states[k];
    if id in s.registry {
      var e := s.registry[id];
      assert (set t | t in s.threads && s.threads[t].id == id) == Users(s, e);
      assert Users(s, e) != {};
      var t :| t in Users(s, e);
      assert s.threads[t].id == id;
    }
  }

  lemma IdleRegistryIsEmpty(trace: seq<Event>, states: seq<State>, k: nat)
    requires Run(trace, states) && k <= |trace|
    ensures states[k].threads == map[] <==> states[k].registry == map[]
  {
    RunKeeps(trace, states, k);
    var s := states[k];
    if s.registry != map[] {
      var id :| id in s.registry;
      RefsCountOperations(trace, states, k, id);
    }
    if s.threads != map[] {
      var t :| t in s.threads;
    }
  }

  /** No operation waits for nothing: its entry is free, so it can lock, or the entry's
      holder is on the same ID and can unlock. The counts never underflow either. */
  lemma NobodyIsStuck(trace: seq<Event>, states: seq<State>, k: nat, t: Thread)
    requires Run(trace, states) && k <= |trace| && t in states[k].threads
    ensures var s, a := states[k], states[k].threads[t];
      match a.stage
      case Holding => Enabled(s, Unlock(t))
      case Releasing => Enabled(s, Drop(t))
      case Waiting =>
        Enabled(s, Lock(t))
        || exists u :: u in s.threads && s.threads[u].id == a.id && s.threads[u].stage == Holding && Enabled(s, Unlock(u))
  {
    RunKeeps(trace, states, k);
    var s := states[k];
    var e := s.threads[t].entry;
    assert t in Users(s, e);
    if s.threads[t].stage == Waiting && s.entries[e].holder.Some? {
      var u := s.entries[e].holder.value;
      assert s.threads[u].id == s.threads[t].id;
      assert Enabled(s, Unlock(u));
    }
  }

  // ---- it is one lock for each ID

  predicate Holds(s: State, t: Thread, id: Id) {
    t in s.threads && s.threads[t].stage == Holding && s.threads[t].id == id
  }

  /** The lock as its users see it: which operation holds each ID. */
  ghost predicate IsHeld(s: State, held: map<Id, Thread>) {
    && (forall id :: id in held ==> Holds(s, held[id], id))
    && (forall t :: t in s.threads && s.threads[t].stage == Holding ==> s.threads[t].id in held)
  }

  lemma OneHolder(s: State, t: Thread, u: Thread, id: Id)
    requires Inv(s) && Holds(s, t, id) && Holds(s, u, id)
    ensures t == u
  {
  }

  lemma FreeIsUnheld(s: State, t: Thread)
    requires Inv(s) && Enabled(s, Lock(t))
    ensures forall u :: !Holds(s, u, s.threads[t].id)
  {
  }

  lemma LockTakesId(s: State, t: Thread, held: map<Id, Thread>)
    requires Inv(s) && Enabled(s, Lock(t)) && IsHeld(s, held)
    ensures s.threads[t].id !in held && IsHeld(Apply(s, Lock(t)), held[s.threads[t].id := t])
  {
    FreeIsUnheld(s, t);
    assert Apply(s, Lock(t)).threads == s.threads[t := s.threads[t].(stage := Holding)];
    hide Inv, Apply, Enabled;
  }

  lemma UnlockFreesId(s: State, t: Thread, held: map<Id, Thread>)
    requires Inv(s) && Enabled(s, Unlock(t)) && IsHeld(s, held)
    ensures s.threads[t].id in held && held[s.threads[t].id] == t
    ensures IsHeld(Apply(s, Unlock(t)), held - {s.threads[t].id})
  {
    var s', id := Apply(s, Unlock(t)), s.threads[t].id;
    assert s'.threads == s.threads[t := s.threads[t].(stage := Releasing)];
    assert At(s, t, Holding);
    hide Inv, Apply, Enabled;
    OneHolder(s, held[id], t, id);
    forall u | u in s'.threads && s'.threads[u].stage == Holding ensures s'.threads[u].id in held - {id} {
      if s'.threads[u].id == id { OneHolder(s, u, t, id); }
    }
  }

  lemma BookkeepingIsInvisible(s: State, e: Event, held: map<Id, Thread>)
    requires Enabled(s, e) && IsHeld(s, held) && (e.Enter? || e.Drop?)
    ensures IsHeld(Apply(s, e), held)
  {
    if e.Drop? {
      assert Apply(s, e).threads == s.threads - {e.t};
      assert At(s, e.t, Releasing);
    } else {
      assert e.t !in s.threads;
      assert Apply(s, e).threads == s.threads[e.t := Operation(e.id, EntryFor(s, e.id, e.addr), Waiting)];
    }
    hide Apply, Enabled;
  }

  /** Each step is a step of a plain lock per ID: Lock takes an ID that nobody holds,
      Unlock gives back one's own, and the bookkeeping of entries is invisible. */
  lemma RefinesLockPerId(s: State, e: Event, held: map<Id, Thread>)
    requires Inv(s) && Enabled(s, e) && IsHeld(s, held)
    ensures match e
      case Lock(t) => s.threads[t].id !in held && IsHeld(Apply(s, e), held[s.threads[t].id := t])
      case Unlock(t) =>
        && s.threads[t].id in held && held[s.threads[t].id] == t
        && IsHeld(Apply(s, e), held - {s.threads[t].id})
      case Enter(_, _, _) => IsHeld(Apply(s, e), held)
      case Drop(_) => IsHeld(Apply(s, e), held)
  {
    hide Inv, Apply, IsHeld;
    match e
    case Lock(t) => LockTakesId(s, t, held);
    case Unlock(t) => UnlockFreesId(s, t, held);
    case Enter(_, _, _) => BookkeepingIsInvisible(s, e, held);
    case Drop(_) => BookkeepingIsInvisible(s, e, held);
  }

  // ---- one operation after another

  lemma FreeEntry(s: State, id: Id)
    requires Inv(s) && forall u :: !Holds(s, u, id)
    ensures id in s.registry ==> s.registry[id] in s.entries && s.entries[s.registry[id]].holder.None?
  {
    if id in s.registry && s.entries[s.registry[id]].holder.Some? {
      assert Holds(s, s.entries[s.registry[id]].holder.value, id);
    }
  }

  /** The entry of an ID with one more operation counted in. */
  function Counting(s: State, id: Id): Entry
    requires id in s.registry ==> s.registry[id] in s.entries
  {
    if id in s.registry then s.entries[s.registry[id]].(refs := s.entries[s.registry[id]].refs + 1) else Entry(1, None)
  }

  lemma EnterRegisters(s: State, t: Thread, id: Id, addr: EntryRef)
    requires Inv(s) && t !in s.threads && addr !in s.entries
    ensures Enabled(s, Enter(t, id, addr))
    ensures var e := if id in s.registry then s.registry[id] else addr;
      Apply(s, Enter(t, id, addr)) ==
        State(s.registry[id := e], s.entries[e := Counting(s, id)], s.threads[t := Operation(id, e, Waiting)])
  {
  }

  lemma LocksAndUnlocks(s: State, t: Thread)
    requires t in s.threads && s.threads[t].stage == Waiting && s.threads[t].entry in s.entries
    requires s.entries[s.threads[t].entry].holder.None?
    ensures Enabled(s, Lock(t)) && Enabled(Apply(s, Lock(t)), Unlock(t))
    ensures Apply(s, Lock(t)).threads == s.threads[t := s.threads[t].(stage := Holding)]
    ensures Apply(s, Lock(t)).registry == s.registry
    ensures Apply(Apply(s, Lock(t)), Unlock(t)) == s.(threads := s.threads[t := s.threads[t].(stage := Releasing)])
  {
    var e, s1 := s.threads[t].entry, Apply(s, Lock(t));
    var s2 := Apply(s1, Unlock(t));
    assert s2.entries == s.entries;
    assert s2.threads == s.threads[t := s.threads[t].(stage := Releasing)];
  }

  lemma DropRestores(s: State, t: Thread, id: Id, e: EntryRef, was: map<Id, EntryRef>, threads: map<Thread, Operation>)
    requires t in s.threads && s.threads[t] == Operation(id, e, Releasing) && e in s.entries && s.entries[e].refs > 0
    requires s.registry == was[id := e] && (id in was ==> was[id] == e && s.entries[e].refs > 1)
    requires id !in was ==> s.entries[e].refs == 1
    requires threads == s.threads - {t}
    ensures Enabled(s, Drop(t)) && Apply(s, Drop(t)).registry == was && Apply(s, Drop(t)).threads == threads
    ensures Apply(s, Drop(t)).entries == s.entries[e := s.entries[e].(refs := s.entries[e].refs - 1)]
  {
  }

  /** An operation on an ID that nobody holds can go in, lock, unlock and come out. It
      holds the ID in between, and leaves the registry and the other operations as they
      were. */
  lemma LockingIsRoundTrip(s: State, t: Thread, id: Id, addr: EntryRef) returns (s1: State, s2: State, s3: State, s4: State)
    requires Inv(s) && t !in s.threads && addr !in s.entries && forall u :: !Holds(s, u, id)
    ensures Enabled(s, Enter(t, id, addr)) && s1 == Apply(s, Enter(t, id, addr))
    ensures Enabled(s1, Lock(t)) && s2 == Apply(s1, Lock(t))
    ensures Enabled(s2, Unlock(t)) && s3 == Apply(s2, Unlock(t))
    ensures Enabled(s3, Drop(t)) && s4 == Apply(s3, Drop(t))
    ensures t in s2.threads && s2.threads[t].id == id && s2.threads[t].stage == Holding && id in s2.registry
    ensures s4.registry == s.registry && s4.threads == s.threads
    ensures forall i :: i in s.registry ==> s4.entries[s.registry[i]] == s.entries[s.registry[i]]
  {
    hide Apply, Enabled, Inv, Holds;
    FreeEntry(s, id);
    var e := if id in s.registry then s.registry[id] else addr;
    s1, s2, s3 := GoesThrough(s, t, id, addr, e);
    s4 := ComesOut(s, s3, t, id, e);
  }

  lemma GoesThrough(s: State, t: Thread, id: Id, addr: EntryRef, e: EntryRef) returns (s1: State, s2: State, s3: State)
    requires Inv(s) && t !in s.threads && addr !in s.entries && e == if id in s.registry then s.registry[id] else addr
    requires id in s.registry ==> s.registry[id] in s.entries && s.entries[s.registry[id]].holder.None?
    ensures Enabled(s, Enter(t, id, addr)) && s1 == Apply(s, Enter(t, id, addr))
    ensures Enabled(s1, Lock(t)) && s2 == Apply(s1, Lock(t))
    ensures Enabled(s2, Unlock(t)) && s3 == Apply(s2, Unlock(t))
    ensures t in s2.threads && s2.threads[t].id == id && s2.threads[t].stage == Holding && id in s2.registry
    ensures s3.registry == s.registry[id := e] && s3.entries == s.entries[e := Counting(s, id)]
    ensures s3.threads == s.threads[t := Operation(id, e, Releasing)]
  {
    EnterRegisters(s, t, id, addr);
    hide Apply, Enabled, Inv, Holds;
    s1 := Apply(s, Enter(t, id, addr));
    LocksAndUnlocks(s1, t);
    s2 := Apply(s1, Lock(t));
    s3 := Apply(s2, Unlock(t));
  }

  lemma ComesOut(s: State, s3: State, t: Thread, id: Id, e: EntryRef) returns (s4: State)
    requires Inv(s) && t !in s.threads && (if id in s.registry then e == s.registry[id] && e in s.entries else e !in s.entries)
    requires s3.registry == s.registry[id := e] && s3.entries == s.entries[e := Counting(s, id)]
    requires s3.threads == s.threads[t := Operation(id, e, Releasing)]
    ensures Enabled(s3, Drop(t)) && s4 == Apply(s3, Drop(t))
    ensures s4.registry == s.registry && s4.threads == s.threads
    ensures forall i :: i in s.registry ==> s.registry[i] in s.entries && s4.entries[s.registry[i]] == s.entries[s.registry[i]]
  {
    RegisteredEntries(s);
    hide Apply, Enabled, Inv;
    AddedAndRemoved(s.threads, t, Operation(id, e, Releasing));
    DropRestores(s3, t, id, e, s.registry, s.threads);
    s4 := Apply(s3, Drop(t));
    EntriesBack(s, s4, id, e);
  }

  lemma AddedAndRemoved(threads: map<Thread, Operation>, t: Thread, op: Operation)
    requires t !in threads
    ensures threads[t := op] - {t} == threads
  {
  }

  lemma EntriesBack(s: State, s4: State, id: Id, e: EntryRef)
    requires forall i :: i in s.registry ==> s.registry[i] in s.entries
    requires if id in s.registry then e == s.registry[id] else e !in s.entries
    requires var was := s.entries[e := Counting(s, id)]; s4.entries == was[e := was[e].(refs := was[e].refs - 1)]
    ensures forall i :: i in s.registry ==> s.registry[i] in s4.entries && s4.entries[s.registry[i]] == s.entries[s.registry[i]]
  {
  }

  lemma RegisteredEntries(s: State)
    requires Inv(s)
    ensures forall id :: id in s.registry ==> s.registry[id] in s.entries && s.entries[s.registry[id]].refs > 0
    ensures forall i, j :: i in s.registry && j in s.registry && s.registry[i] == s.registry[j] ==> i == j
  {
  }

  // ---- the two registry sections, on the daemon's own fields

  class SessionFileLocks {
    var registry: map<Id, EntryRef>
    var entries: map<EntryRef, Entry>
    ghost var threads: map<Thread, Operation>

    ghost function View(): State
      reads this
    {
      State(registry, entries, threads)
    }

    method Enter(id: Id, addr: EntryRef) returns (e: EntryRef)
      requires addr !in entries && (id in registry ==> registry[id] in entries)
      modifies this`registry, this`entries
      ensures View() == Refer(old(View()), id, addr) && e == EntryFor(old(View()), id, addr)
      ensures registry == old(registry)[id := e] && e == if id in old(registry) then old(registry)[id] else addr
      ensures entries == old(entries)[e :=
        if e in old(entries) then old(entries)[e].(refs := old(entries)[e].refs + 1) else Entry(1, None)]
    {
      if id in registry {
        e := registry[id];
      } else {
        e := addr;
        entries := entries[e := Entry(0, None)];
        registry := registry[id := e];
      }
      entries := entries[e := entries[e].(refs := entries[e].refs + 1)];
    }

    method Drop(id: Id, e: EntryRef)
      requires e in entries && entries[e].refs > 0
      modifies this`registry, this`entries
      ensures View() == Unrefer(old(View()), id, e)
      ensures entries == old(entries)[e := old(entries)[e].(refs := old(entries)[e].refs - 1)]
      ensures registry ==
        if old(entries)[e].refs == 1 && id in old(registry) && old(registry)[id] == e then old(registry) - {id} else old(registry)
    {
      entries := entries[e := entries[e].(refs := entries[e].refs - 1)];
      if entries[e].refs == 0 && id in registry && registry[id] == e {
        registry := registry - {id};
      }
    }
  }
}
