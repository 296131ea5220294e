/** The daemon's mutexes, the order its operations take them in, and why that order
    lets every section in progress run to its end. */
module LockOrder {
  import opened Base

  datatype Lock =
    | FileLock(id: string)   // the entry mutex behind lockSessionFile
    | CloseMu | WorkersMu | SessionsMu
    | HandleMu(handle: nat) | MetaMu(meta: nat)
    | StoreMu | MonitorMu | RegistryMu | ConnMapMu

  /** Locks of one rank are never held together by one goroutine. */
  function Rank(l: Lock): int {
    match l
    case FileLock(_) => 0
    case CloseMu => 0
    case WorkersMu => 1
    case SessionsMu => 2
    case HandleMu(_) => 3
    case MetaMu(_) => 3
    case _ => 4
  }

  datatype Mode = Shared | Exclusive

  // ---- sections of the source

  /** Lock regions in program order: `inner` runs with the lock held, `next` after
      its release. */
  datatype Regions = End | In(lock: Lock, mode: Mode, inner: Regions, next: Regions)

  function Only(l: Lock): (rs: Regions)
    ensures forall above :: Rank(l) > above ==> Ascending(rs, above)
  {
    In(l, Exclusive, End, End)
  }

  /** A lock with others taken under it. */
  function Under(l: Lock, mode: Mode, inner: Regions): (rs: Regions)
    ensures forall above :: Rank(l) > above && Ascending(inner, Rank(l)) ==> Ascending(rs, above)
  {
    In(l, mode, inner, End)
  }

  function Reading(l: Lock, inner: Regions): Regions { Under(l, Shared, inner) }

  function Writing(l: Lock, inner: Regions): Regions { Under(l, Exclusive, inner) }

  /** One region, and after it another. */
  function Before(first: Regions, next: Regions): (rs: Regions)
    requires first.In? && first.next == End
    ensures forall above :: Ascending(first, above) && Ascending(next, above) ==> Ascending(rs, above)
  {
    In(first.lock, first.mode, first.inner, next)
  }

  /** lockSessionFile, the work, and the release function. */
  function UnderFile(id: string, work: Regions): (rs: Regions)
    ensures Ascending(work, 0) ==> Ascending(rs, -1)
  {
    Before(Only(RegistryMu), Before(Under(FileLock(id), Exclusive, work), Only(RegistryMu)))
  }

  /** What a goroutine of the daemon may do between two points where it holds no
      lock. `current` and the like choose among the branches of the source. */
  datatype Section =
    | IsClosed
    | Register(id: string, meta: nat, isNew: bool)
    | RollbackNew(id: string, current: bool)
    | Spawn(closed: bool)
    | StopWorker(h: nat)
    | ReadyTimeout
    | RestoreOne
    | WorkerExit
    | MarkClosed(id: string, current: bool)
    | Purge(id: string)
    | ReadSessions
    | ReadWorkers
    | Watchdog(meta: nat)
    | FinishCancel(meta: nat)
    | CommitCancelFailure(meta: nat, sameWorker: bool, current: bool)
    | Persist(id: string, current: bool)
    | CurrentWorker(sameWorker: bool)
    | HasReadyWorker(h: nat, ready: bool)
    | BeginTurnOrCancel(meta: nat)
    | MarkRestart
    | Admit(h: nat, expected: bool)
    | ConnMap
    | CollectGarbage(h: nat)
    | CommitReady
    | TouchMeta(meta: nat)
    | TouchHandle(h: nat)
    | SpawnFailures
    | ListStore

  function Locking(sec: Section): Regions {
    match sec
    case IsClosed => Only(CloseMu)
    case Register(id, meta, isNew) =>
      UnderFile(id, Before(Only(SessionsMu), if isNew then Before(Only(MetaMu(meta)), Only(StoreMu)) else End))
    case RollbackNew(id, current) => UnderFile(id, Before(Only(SessionsMu), if current then Only(StoreMu) else End))
    case Spawn(closed) => Writing(CloseMu, if closed then End else Writing(WorkersMu, Only(SessionsMu)))
    case StopWorker(h) => Only(HandleMu(h))
    case ReadyTimeout => Only(SessionsMu)
    case RestoreOne => Only(SessionsMu)
    case WorkerExit => Writing(WorkersMu, Only(SessionsMu))
    case MarkClosed(id, current) =>
      UnderFile(id, Before(Writing(WorkersMu, Only(SessionsMu)), if current then Only(StoreMu) else End))
    case Purge(id) => UnderFile(id, Before(Writing(WorkersMu, Only(SessionsMu)), Only(StoreMu)))
    case ReadSessions => Reading(SessionsMu, End)
    case ReadWorkers => Reading(WorkersMu, End)
    case Watchdog(meta) => Reading(WorkersMu, Writing(SessionsMu, Only(MetaMu(meta))))
    case FinishCancel(meta) => Reading(SessionsMu, Only(MetaMu(meta)))
    case CommitCancelFailure(meta, sameWorker, current) =>
      Writing(WorkersMu, if sameWorker then Reading(SessionsMu, if current then Only(MetaMu(meta)) else End) else End)
    case Persist(id, current) =>
      UnderFile(id, Before(Reading(SessionsMu, End), if current then Only(StoreMu) else End))
    case CurrentWorker(sameWorker) => Reading(WorkersMu, if sameWorker then Reading(SessionsMu, End) else End)
    case HasReadyWorker(h, ready) =>
      Reading(WorkersMu, Before(Only(HandleMu(h)), if ready then Reading(SessionsMu, End) else End))
    case BeginTurnOrCancel(meta) => Reading(SessionsMu, Only(MetaMu(meta)))
    case MarkRestart => Reading(WorkersMu, Only(SessionsMu))
    case Admit(h, expected) =>
      Writing(WorkersMu, Reading(SessionsMu, if expected then Only(HandleMu(h)) else End))
    case ConnMap => Only(ConnMapMu)
    case CollectGarbage(h) => Reading(WorkersMu, Only(HandleMu(h)))
    case CommitReady => Only(SessionsMu)
    case TouchMeta(meta) => Only(MetaMu(meta))
    case TouchHandle(h) => Only(HandleMu(h))
    case SpawnFailures => Only(MonitorMu)
    case ListStore => Only(StoreMu)
  }

  /** Every lock taken ranks above all locks held. */
  predicate Ascending(rs: Regions, above: int) {
    match rs
    case End => true
    case In(l, _, inner, next) => Rank(l) > above && Ascending(inner, Rank(l)) && Ascending(next, above)
  }

  predicate OnFile(sec: Section) {
    sec.Register? || sec.RollbackNew? || sec.MarkClosed? || sec.Purge? || sec.Persist?
  }

  lemma FileSectionsAscend(sec: Section)
    requires OnFile(sec)
    ensures Ascending(Locking(sec), -1)
  {
    hide UnderFile;
    match sec
    case Register(id, meta, isNew) =>
      assert Ascending(Before(Only(SessionsMu), if isNew then Before(Only(MetaMu(meta)), Only(StoreMu)) else End), 0);
    case RollbackNew(_, current) =>
      assert Ascending(Before(Only(SessionsMu), if current then Only(StoreMu) else End), 0);
    case MarkClosed(_, current) =>
      assert Ascending(Before(Writing(WorkersMu, Only(SessionsMu)), if current then Only(StoreMu) else End), 0);
    case Purge(_) => assert Ascending(Before(Writing(WorkersMu, Only(SessionsMu)), Only(StoreMu)), 0);
    case Persist(_, current) =>
      assert Ascending(Before(Reading(SessionsMu, End), if current then Only(StoreMu) else End), 0);
  }

  lemma OtherSectionsAscend(sec: Section)
    requires !OnFile(sec)
    ensures Ascending(Locking(sec), -1)
  {
    hide UnderFile, Before, Only;
  }

  /** The lock order of the source, section by section. */
  lemma SectionsAscend(sec: Section)
    ensures Ascending(Locking(sec), -1)
  {
    if OnFile(sec) { FileSectionsAscend(sec); } else { OtherSectionsAscend(sec); }
  }

  // ---- the calls of the source, in program order

  datatype Action = Acquire(l: Lock, mode: Mode) | Release(l: Lock)

  function Actions(rs: Regions): seq<Action> {
    match rs
    case End => []
    case In(l, mode, inner, next) => [Acquire(l, mode)] + Actions(inner) + [Release(l)] + Actions(next)
  }

  lemma OnlyActions(l: Lock)
    ensures Actions(Only(l)) == [Acquire(l, Exclusive), Release(l)]
  {
    assert Actions(End) == [];
  }

  lemma UnderActions(l: Lock, mode: Mode, inner: Regions)
    ensures Actions(Under(l, mode, inner)) == [Acquire(l, mode)] + Actions(inner) + [Release(l)]
  {
    assert Actions(End) == [];
  }

  lemma BeforeActions(first: Regions, next: Regions)
    requires first.In? && first.next == End
    ensures Actions(Before(first, next)) == Actions(first) + Actions(next)
  {
    assert Actions(End) == [];
  }

  /** The calls of an operation on a session's file: it takes the mutex of the file's
      entry, does its work, and gives the mutex back last. */
  function ByFile(id: string, work: seq<Action>): seq<Action> {
    [Acquire(RegistryMu, Exclusive), Release(RegistryMu), Acquire(FileLock(id), Exclusive)] + work
    + [Release(FileLock(id)), Acquire(RegistryMu, Exclusive), Release(RegistryMu)]
  }

  lemma FileActions(id: string, work: Regions)
    ensures Actions(UnderFile(id, work)) == ByFile(id, Actions(work))
  {
    var file := Under(FileLock(id), Exclusive, work);
    BeforeActions(Only(RegistryMu), Before(file, Only(RegistryMu)));
    BeforeActions(file, Only(RegistryMu));
    UnderActions(FileLock(id), Exclusive, work);
    OnlyActions(RegistryMu);
  }

  /** The registry is looked at and the store changed while the file is locked, and the
      store only if the registry still has the session. */
  lemma RegisterActions(id: string, meta: nat, isNew: bool)
    ensures Actions(Locking(Register(id, meta, isNew))) == ByFile(id,
      [Acquire(SessionsMu, Exclusive), Release(SessionsMu)]
      + if isNew then [Acquire(MetaMu(meta), Exclusive), Release(MetaMu(meta)), Acquire(StoreMu, Exclusive), Release(StoreMu)] else [])
  {
    hide UnderFile, ByFile;
    var rest := if isNew then Before(Only(MetaMu(meta)), Only(StoreMu)) else End;
    OnlyActions(SessionsMu);
    OnlyActions(StoreMu);
    OnlyActions(MetaMu(meta));
    BeforeActions(Only(MetaMu(meta)), Only(StoreMu));
    BeforeActions(Only(SessionsMu), rest);
    assert Actions(rest) == if isNew
      then [Acquire(MetaMu(meta), Exclusive), Release(MetaMu(meta)), Acquire(StoreMu, Exclusive), Release(StoreMu)] else [];
    FileActions(id, Before(Only(SessionsMu), rest));
  }

  lemma RollbackActions(id: string, current: bool)
    ensures Actions(Locking(RollbackNew(id, current))) == ByFile(id,
      [Acquire(SessionsMu, Exclusive), Release(SessionsMu)]
      + if current then [Acquire(StoreMu, Exclusive), Release(StoreMu)] else [])
  {
    hide UnderFile, ByFile;
    var rest := if current then Only(StoreMu) else End;
    OnlyActions(SessionsMu);
    OnlyActions(StoreMu);
    BeforeActions(Only(SessionsMu), rest);
    FileActions(id, Before(Only(SessionsMu), rest));
  }

  lemma PersistActions(id: string, current: bool)
    ensures Actions(Locking(Persist(id, current))) == ByFile(id,
      [Acquire(SessionsMu, Shared), Release(SessionsMu)]
      + if current then [Acquire(StoreMu, Exclusive), Release(StoreMu)] else [])
  {
    hide UnderFile, ByFile;
    var rest := if current then Only(StoreMu) else End;
    OnlyActions(StoreMu);
    UnderActions(SessionsMu, Shared, End);
    assert Actions(Reading(SessionsMu, End)) == [Acquire(SessionsMu, Shared), Release(SessionsMu)];
    BeforeActions(Reading(SessionsMu, End), rest);
    FileActions(id, Before(Reading(SessionsMu, End), rest));
  }

  lemma CloseActions(id: string, current: bool)
    ensures Actions(Locking(MarkClosed(id, current))) == ByFile(id,
      Nested(WorkersMu, Exclusive, SessionsMu, Exclusive)
      + if current then [Acquire(StoreMu, Exclusive), Release(StoreMu)] else [])
  {
    hide UnderFile, ByFile;
    var rest := if current then Only(StoreMu) else End;
    OnlyActions(StoreMu);
    NestedActions(WorkersMu, Exclusive, SessionsMu, Exclusive);
    BeforeActions(Writing(WorkersMu, Only(SessionsMu)), rest);
    FileActions(id, Before(Writing(WorkersMu, Only(SessionsMu)), rest));
  }

  lemma PurgeActions(id: string)
    ensures Actions(Locking(Purge(id))) ==
      ByFile(id, Nested(WorkersMu, Exclusive, SessionsMu, Exclusive) + [Acquire(StoreMu, Exclusive), Release(StoreMu)])
  {
    hide UnderFile, ByFile;
    OnlyActions(StoreMu);
    NestedActions(WorkersMu, Exclusive, SessionsMu, Exclusive);
    BeforeActions(Writing(WorkersMu, Only(SessionsMu)), Only(StoreMu));
    FileActions(id, Before(Writing(WorkersMu, Only(SessionsMu)), Only(StoreMu)));
  }

  /** Two locks, one inside the other. */
  function Nested(l: Lock, lm: Mode, k: Lock, km: Mode): seq<Action> {
    [Acquire(l, lm), Acquire(k, km), Release(k), Release(l)]
  }

  lemma NestedActions(l: Lock, lm: Mode, k: Lock, km: Mode)
    ensures Actions(Under(l, lm, Under(k, km, End))) == Nested(l, lm, k, km)
  {
    UnderActions(l, lm, Under(k, km, End));
    UnderActions(k, km, End);
    assert Actions(End) == [];
  }

  /** The sections that change workers and sessions together hold both mutexes. */
  lemma WorkerSectionsNest(h: nat)
    ensures Actions(Locking(Spawn(false))) ==
      [Acquire(CloseMu, Exclusive)] + Nested(WorkersMu, Exclusive, SessionsMu, Exclusive) + [Release(CloseMu)]
    ensures Actions(Locking(WorkerExit)) == Nested(WorkersMu, Exclusive, SessionsMu, Exclusive)
    ensures Actions(Locking(MarkRestart)) == Nested(WorkersMu, Shared, SessionsMu, Exclusive)
    ensures Actions(Locking(CurrentWorker(true))) == Nested(WorkersMu, Shared, SessionsMu, Shared)
    ensures Actions(Locking(CollectGarbage(h))) == Nested(WorkersMu, Shared, HandleMu(h), Exclusive)
  {
    hide Actions, Nested, UnderFile, Before;
    NestedActions(WorkersMu, Exclusive, SessionsMu, Exclusive);
    UnderActions(CloseMu, Exclusive, Writing(WorkersMu, Only(SessionsMu)));
    NestedActions(WorkersMu, Shared, SessionsMu, Exclusive);
    NestedActions(WorkersMu, Shared, SessionsMu, Shared);
    NestedActions(WorkersMu, Shared, HandleMu(h), Exclusive);
  }

  /** The turn of a session is only changed under its own mutex, inside that of the
      registry, and with the workers fixed where one of them is looked at. */
  lemma TurnSectionsNest(meta: nat, h: nat)
    ensures Actions(Locking(BeginTurnOrCancel(meta))) == Nested(SessionsMu, Shared, MetaMu(meta), Exclusive)
    ensures Actions(Locking(FinishCancel(meta))) == Nested(SessionsMu, Shared, MetaMu(meta), Exclusive)
    ensures Actions(Locking(Watchdog(meta))) ==
      [Acquire(WorkersMu, Shared)] + Nested(SessionsMu, Exclusive, MetaMu(meta), Exclusive) + [Release(WorkersMu)]
    ensures Actions(Locking(CommitCancelFailure(meta, true, true))) ==
      [Acquire(WorkersMu, Exclusive)] + Nested(SessionsMu, Shared, MetaMu(meta), Exclusive) + [Release(WorkersMu)]
    ensures Actions(Locking(Admit(h, true))) ==
      [Acquire(WorkersMu, Exclusive)] + Nested(SessionsMu, Shared, HandleMu(h), Exclusive) + [Release(WorkersMu)]
  {
    hide Actions, Nested, UnderFile, Before;
    NestedActions(SessionsMu, Shared, MetaMu(meta), Exclusive);
    NestedActions(SessionsMu, Exclusive, MetaMu(meta), Exclusive);
    NestedActions(SessionsMu, Shared, HandleMu(h), Exclusive);
    UnderActions(WorkersMu, Shared, Writing(SessionsMu, Only(MetaMu(meta))));
    UnderActions(WorkersMu, Exclusive, Reading(SessionsMu, Only(MetaMu(meta))));
    UnderActions(WorkersMu, Exclusive, Reading(SessionsMu, Only(HandleMu(h))));
  }

  // ---- goroutines interleaving

  /** A goroutine: what it holds, what is left of its section, and whether it has
      announced itself as a writer on the lock it wants, which keeps others away. */
  datatype Thread = Thread(held: map<Lock, Mode>, todo: seq<Action>, announced: bool)

  type State = seq<Thread>

  datatype Event = Start(i: nat, sec: Section) | Announce(i: nat) | Act(i: nat)

  predicate Busy(s: State, i: nat) { i < |s| && s[i].todo != [] }

  predicate Announced(t: Thread, l: Lock) { t.announced && t.todo != [] && t.todo[0] == Acquire(l, Exclusive) }

  ghost predicate Enabled(s: State, e: Event) {
    match e
    case Start(i, _) => i == |s| || (i < |s| && s[i].todo == [])
    case Announce(i) =>
      Busy(s, i) && !s[i].announced && s[i].todo[0].Acquire? && s[i].todo[0].mode == Exclusive
      && forall j :: 0 <= j < |s| ==>
           !Announced(s[j], s[i].todo[0].l) && !(s[i].todo[0].l in s[j].held && s[j].held[s[i].todo[0].l] == Exclusive)
    case Act(i) =>
      Busy(s, i) &&
      match s[i].todo[0]
      case Release(_) => true
      case Acquire(l, Exclusive) => s[i].announced && forall j :: 0 <= j < |s| ==> l !in s[j].held
      case Acquire(l, Shared) =>
        forall j :: 0 <= j < |s| ==> !Announced(s[j], l) && !(l in s[j].held && s[j].held[l] == Exclusive)
  }

  function Take(t: Thread): Thread
    requires t.todo != []
  {
    match t.todo[0]
    case Acquire(l, mode) => Thread(t.held[l := mode], t.todo[1..], false)
    case Release(l) => Thread(t.held - {l}, t.todo[1..], false)
  }

  ghost function Apply(s: State, e: Event): State
    requires Enabled(s, e)
  {
    match e
    case Start(i, sec) =>
      var t := Thread(map[], Actions(Locking(sec)), false);
      if i == |s| then s + [t] else s[i := t]
    case Announce(i) => s[i := s[i].(announced := true)]
    case Act(i) => s[i := Take(s[i])]
  }

  // ---- the invariant

  /** Running `todo` from `held` takes locks in ascending rank and ends with none. */
  ghost predicate Ordered(held: map<Lock, Mode>, todo: seq<Action>)
    decreases |todo|
  {
    if todo == [] then held == map[]
    else match todo[0]
      case Acquire(l, mode) => (forall k :: k in held ==> Rank(k) < Rank(l)) && Ordered(held[l := mode], todo[1..])
      case Release(l) => l in held && Ordered(held - {l}, todo[1..])
  }

  /** Exclusively held locks have one holder, and one writer is announced at most. */
  ghost predicate Excluding(s: State) {
    && (forall i, j, l :: 0 <= i < j < |s| && l in s[i].held && l in s[j].held ==>
          s[i].held[l] == Shared && s[j].held[l] == Shared)
    && (forall i, j, l :: 0 <= i < j < |s| && Announced(s[i], l) ==> !Announced(s[j], l))
  }

  ghost predicate AllOrdered(s: State) {
    forall i :: 0 <= i < |s| ==>
      && Ordered(s[i].held, s[i].todo)
      && (s[i].announced ==> s[i].todo != [] && s[i].todo[0].Acquire? && s[i].todo[0].mode == Exclusive)
  }

  ghost predicate Inv(s: State) { AllOrdered(s) && Excluding(s) }

  lemma AcquireOrdered(held: map<Lock, Mode>, l: Lock, mode: Mode, rest: seq<Action>)
    requires (forall k :: k in held ==> Rank(k) < Rank(l)) && Ordered(held[l := mode], rest)
    ensures Ordered(held, [Acquire(l, mode)] + rest)
  {
    assert ([Acquire(l, mode)] + rest)[1..] == rest;
  }

  lemma ReleaseOrdered(held: map<Lock, Mode>, l: Lock, mode: Mode, rest: seq<Action>)
    requires l !in held && Ordered(held, rest)
    ensures Ordered(held[l := mode], [Release(l)] + rest)
  {
    assert ([Release(l)] + rest)[1..] == rest && held[l := mode] - {l} == held;
  }

  lemma {:induction false} RegionsOrdered(held: map<Lock, Mode>, rs: Regions, above: int, rest: seq<Action>)
    requires Ascending(rs, above) && (forall k :: k in held ==> Rank(k) <= above)
    requires Ordered(held, rest)
    ensures Ordered(held, Actions(rs) + rest)
    decreases rs
  {
    hide Ordered, Rank;
    match rs
    case End =>
      assert Actions(rs) + rest == rest;
    case In(l, mode, inner, next) =>
      RegionsOrdered(held, next, above, rest);
      ReleaseOrdered(held, l, mode, Actions(next) + rest);
      var after := [Release(l)] + (Actions(next) + rest);
      RegionsOrdered(held[l := mode], inner, Rank(l), after);
      AcquireOrdered(held, l, mode, Actions(inner) + after);
      assert Actions(rs) + rest == [Acquire(l, mode)] + (Actions(inner) + after);
  }

  lemma SectionOrdered(sec: Section)
    ensures Ordered(map[], Actions(Locking(sec)))
  {
    SectionsAscend(sec);
    RegionsOrdered(map[], Locking(sec), -1, []);
    assert Actions(Locking(sec)) + [] == Actions(Locking(sec));
  }

  lemma OrderedKept(s: State, e: Event)
    requires AllOrdered(s) && Enabled(s, e)
    ensures AllOrdered(Apply(s, e))
  {
    hide Actions, Locking;
    if e.Start? { SectionOrdered(e.sec); }
  }

  lemma ExclusionKept(s: State, e: Event)
    requires Excluding(s) && AllOrdered(s) && Enabled(s, e)
    ensures Excluding(Apply(s, e))
  {
    hide Actions, Locking, Ordered;
  }

  lemma StepKeeps(s: State, e: Event)
    requires Inv(s) && Enabled(s, e)
    ensures Inv(Apply(s, e))
  {
    hide AllOrdered, Excluding, Apply, Enabled;
    OrderedKept(s, e);
    ExclusionKept(s, e);
  }

  ghost predicate Run(trace: seq<Event>, states: seq<State>) {
    && |states| == |trace| + 1 && states[0] == []
    && (forall k :: 0 <= k < |trace| ==> Enabled(states[k], trace[k]) && states[k + 1] == Apply(states[k], trace[k]))
  }

  lemma {:induction false} RunKeeps(trace: seq<Event>, states: seq<State>, k: nat)
    requires Run(trace, states) && k <= |trace|
    ensures Inv(states[k])
  {
    if k > 0 {
      hide Inv, Apply, Enabled;
      RunKeeps(trace, states, k - 1);
      StepKeeps(states[k - 1], trace[k - 1]);
    }
  }

  // ---- progress

  predicate Wants(s: State, i: nat) { Busy(s, i) && s[i].todo[0].Acquire? }

  function Wanted(s: State, i: nat): Lock
    requires Wants(s, i)
  {
    s[i].todo[0].l
  }

  /** Of the goroutines waiting for a lock, one that wants the highest rank. */
  lemma {:induction false} HighestWaiter(s: State, n: nat) returns (m: nat)
    requires n <= |s| && exists i :: 0 <= i < n && Wants(s, i)
    ensures m < n && Wants(s, m)
    ensures forall i :: 0 <= i < n && Wants(s, i) ==> Rank(Wanted(s, i)) <= Rank(Wanted(s, m))
  {
    if exists i :: 0 <= i < n - 1 && Wants(s, i) {
      m := HighestWaiter(s, n - 1);
      if Wants(s, n - 1) && Rank(Wanted(s, n - 1)) > Rank(Wanted(s, m)) { m := n - 1; }
    } else {
      m := n - 1;
    }
  }

  predicate HeldBySome(s: State, l: Lock) { exists j :: 0 <= j < |s| && l in s[j].held }

  /** A holder of a lock either can release or wants a lock of higher rank. */
  lemma HolderGoesOn(s: State, l: Lock)
    requires AllOrdered(s) && HeldBySome(s, l)
    ensures exists j :: 0 <= j < |s| && Busy(s, j) && (Enabled(s, Act(j)) || (Wants(s, j) && Rank(Wanted(s, j)) > Rank(l)))
  {
    var j :| 0 <= j < |s| && l in s[j].held;
    assert Ordered(s[j].held, s[j].todo);
    assert Busy(s, j);
    if s[j].todo[0].Release? { assert Enabled(s, Act(j)); }
  }

  ghost predicate CanStep(s: State, i: nat) { Enabled(s, Act(i)) || Enabled(s, Announce(i)) }

  /** Someone who waits can go on, or the lock is held by somebody, or a writer of the
      same lock can go on. */
  lemma WaiterOrHolder(s: State, i: nat)
    requires Inv(s) && Wants(s, i)
    ensures (exists j :: 0 <= j < |s| && CanStep(s, j)) || HeldBySome(s, Wanted(s, i))
  {
    hide Ordered;
    var l := Wanted(s, i);
    if !HeldBySome(s, l) {
      if j :| 0 <= j < |s| && Announced(s[j], l) {
        assert CanStep(s, j);
      } else {
        assert CanStep(s, i);
      }
    }
  }

  /** Whenever some goroutine is inside a section, one of them can take its next step:
      the daemon's locks never deadlock. */
  lemma SomeoneCanStep(s: State)
    requires Inv(s) && exists i :: 0 <= i < |s| && Busy(s, i)
    ensures exists j :: 0 <= j < |s| && CanStep(s, j)
  {
    var i :| 0 <= i < |s| && Busy(s, i);
    if !Wants(s, i) {
      assert CanStep(s, i);
    } else {
      var m := HighestWaiter(s, |s|);
      WaiterOrHolder(s, m);
      if HeldBySome(s, Wanted(s, m)) {
        HolderGoesOn(s, Wanted(s, m));
        var j :| 0 <= j < |s| && Busy(s, j) && (Enabled(s, Act(j)) || (Wants(s, j) && Rank(Wanted(s, j)) > Rank(Wanted(s, m))));
        assert CanStep(s, j);
      }
    }
  }

  lemma NoDeadlock(trace: seq<Event>, states: seq<State>, k: nat, i: nat)
    requires Run(trace, states) && k <= |trace| && Busy(states[k], i)
    ensures exists j :: 0 <= j < |states[k]| && CanStep(states[k], j)
  {
    RunKeeps(trace, states, k);
    SomeoneCanStep(states[k]);
  }

  // ---- every section can finish

  /** Steps left if no goroutine starts another section. */
  function Work(s: State): nat {
    if s == [] then 0
    else Work(s[..|s| - 1]) + ThreadWork(s[|s| - 1])
  }

  function ThreadWork(t: Thread): nat {
    2 * |t.todo| + (if t.announced || t.todo == [] then 0 else 1)
  }

  lemma {:induction false} WorkChange(s: State, i: nat, t: Thread)
    requires i < |s|
    ensures Work(s[i := t]) == Work(s) - ThreadWork(s[i]) + ThreadWork(t)
  {
    var s' := s[i := t];
    if i == |s| - 1 {
      assert s'[..|s| - 1] == s[..|s| - 1];
    } else {
      assert s'[..|s| - 1] == s[..|s| - 1][i := t];
      WorkChange(s[..|s| - 1], i, t);
    }
  }

  /** A finite continuation in which nobody starts a section and after which nobody
      is inside one. */
  ghost predicate Drains(s: State, trace: seq<Event>, states: seq<State>) {
    && |states| == |trace| + 1 && states[0] == s
    && (forall k :: 0 <= k < |trace| ==>
          !trace[k].Start? && Enabled(states[k], trace[k]) && states[k + 1] == Apply(states[k], trace[k]))
    && (forall i :: 0 <= i < |states[|trace|]| ==> !Busy(states[|trace|], i))
  }

  lemma DrainsAfter(s: State, e: Event, trace: seq<Event>, states: seq<State>)
    requires Enabled(s, e) && !e.Start? && Drains(Apply(s, e), trace, states)
    ensures Drains(s, [e] + trace, [s] + states)
  {
    hide Inv, Apply, Enabled, Work, Busy;
    var trace', states' := [e] + trace, [s] + states;
    assert states'[|trace'|] == states[|trace|];
    forall k | 0 <= k < |trace'|
      ensures !trace'[k].Start? && Enabled(states'[k], trace'[k]) && states'[k + 1] == Apply(states'[k], trace'[k])
    {
      if k > 0 { assert trace'[k] == trace[k - 1] && states'[k] == states[k - 1]; }
    }
  }

  lemma StepWorks(s: State, e: Event)
    requires Inv(s) && Enabled(s, e) && !e.Start?
    ensures Work(Apply(s, e)) < Work(s)
  {
    hide Inv, Work;
    WorkChange(s, e.i, Apply(s, e)[e.i]);
  }

  /** From every reachable state all sections in progress can be completed. */
  lemma {:induction false} SectionsCanFinish(s: State) returns (trace: seq<Event>, states: seq<State>)
    requires Inv(s)
    ensures Drains(s, trace, states)
    decreases Work(s)
  {
    if exists i :: 0 <= i < |s| && Busy(s, i) {
      SomeoneCanStep(s);
      var j :| 0 <= j < |s| && CanStep(s, j);
      var e := if Enabled(s, Act(j)) then Act(j) else Announce(j);
      StepKeeps(s, e);
      StepWorks(s, e);
      hide Inv, Apply, Enabled, Drains, Work;
      var trace', states' := SectionsCanFinish(Apply(s, e));
      DrainsAfter(s, e, trace', states');
      trace, states := [e] + trace', [s] + states';
    } else {
      trace, states := [], [s];
    }
  }
}
