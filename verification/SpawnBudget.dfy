/** How often the session monitor may start workers for one session ID: failures are
    counted once for each worker, and too many of them slow the monitor down. */
module SpawnBudget {
  import opened Base

  const MAX_SPAWN_RETRIES := 5
  const SPAWN_RETRY_COOLDOWN: nat := 60_000_000_000   // nanoseconds

  // ---- worker handles

  /** What the budget reads of a worker generation. */
  datatype Generation = Generation(isReady: bool, startupFailureRecorded: bool)

  /** markStartupFailure reports a failure for this state. */
  predicate CountsFailure(g: Generation) { !g.isReady && !g.startupFailureRecorded }

  class WorkerHandle {
    var conn: Option<nat>
    var hbSeen: nat
    var isReady: bool
    var readyClosed: bool   // the Ready channel
    var closed: bool
    var startupFailureRecorded: bool

    predicate Valid()
      reads this
    {
      readyClosed == isReady
    }

    ghost function View(): Generation
      reads this
    {
      Generation(isReady, startupFailureRecorded)
    }

    constructor (now: nat)
      ensures Valid() && View() == Generation(false, false) && conn.None? && !closed && hbSeen == now
    {
      conn, hbSeen, isReady, readyClosed, closed, startupFailureRecorded := None, now, false, false, false, false;
    }

    /** The Ready channel is closed the first time only. */
    method MarkReady()
      requires Valid()
      modifies this`isReady, this`readyClosed
      ensures Valid() && View() == old(View()).(isReady := true)
    {
      if !isReady {
        isReady := true;
        assert !readyClosed;
        readyClosed := true;
      }
    }

    method MarkStartupFailure() returns (counts: bool)
      modifies this`startupFailureRecorded
      ensures counts == old(CountsFailure(View())) == (!isReady && !old(startupFailureRecorded))
      ensures View() == old(View()).(startupFailureRecorded := old(startupFailureRecorded) || counts)
    {
      if isReady || startupFailureRecorded { return false; }
      startupFailureRecorded := true;
      return true;
    }

    method SetConn(c: nat, now: nat) returns (oldConn: Option<nat>)
      modifies this`conn, this`hbSeen
      ensures oldConn == old(conn) && conn == Some(c) && hbSeen == now
    {
      oldConn := conn;
      conn, hbSeen := Some(c), now;
    }

    method CloseConn() returns (toClose: Option<nat>)
      modifies this`conn, this`closed
      ensures toClose == old(conn) && conn.None? && closed
    {
      toClose := conn;
      closed, conn := true, None;
    }
  }

  // ---- the failure entry of one ID

  datatype Failure = Failure(count: nat, lastRetry: nat)

  function FailCount(f: Option<Failure>): nat { if f.None? then 0 else f.value.count }

  function LastRetry(f: Option<Failure>): nat { if f.None? then 0 else f.value.lastRetry }

  /** recordSpawnFailure */
  function Recorded(f: Option<Failure>, now: nat): Option<Failure> { Some(Failure(FailCount(f) + 1, now)) }

  /** reconcileSessions lets a session that needs a worker have one. */
  predicate Admitted(f: Option<Failure>, now: nat) {
    !(FailCount(f) >= MAX_SPAWN_RETRIES && now - LastRetry(f) < SPAWN_RETRY_COOLDOWN)
  }

  function Decided(f: Option<Failure>, now: nat): Option<Failure> {
    Some(Failure(FailCount(f), if Admitted(f, now) then now else LastRetry(f)))
  }

  class SpawnFailures {
    var failure: Option<Failure>

    method RecordSpawnFailure(now: nat) returns (count: nat)
      modifies this
      ensures failure == Recorded(old(failure), now) && failure == Some(Failure(count, now))
      ensures count == if old(failure).None? then 1 else old(failure).value.count + 1
    {
      var sf := if failure.None? then Failure(0, 0) else failure.value;
      sf := Failure(sf.count + 1, now);
      failure := Some(sf);
      return sf.count;
    }

    method ClearSpawnFailure()
      modifies this
      ensures failure.None?
    {
      failure := None;
    }

    method Reconcile(now: nat) returns (spawn: bool)
      modifies this
      ensures spawn == Admitted(old(failure), now) && failure == Decided(old(failure), now)
      ensures old(failure).None? ==> spawn && failure == Some(Failure(0, now))
      ensures old(failure).Some? ==>
        && spawn == (old(failure).value.count < 5 || now - old(failure).value.lastRetry >= 60_000_000_000)
        && failure == Some(if spawn then Failure(old(failure).value.count, now) else old(failure).value)
    {
      var sf := if failure.None? then Failure(0, 0) else failure.value;
      failure := Some(sf);
      if sf.count >= MAX_SPAWN_RETRIES && now - sf.lastRetry < SPAWN_RETRY_COOLDOWN { return false; }
      failure := Some(sf.(lastRetry := now));
      return true;
    }
  }

  // ---- the protocol

  /** `look` is the time the monitor has read before it takes its mutex; `owed` counts
      failures marked or met but not yet recorded; `charged` logs the generations
      charged so far and `met` counts the spawns that failed outright. */
  datatype State = State(
    now: nat, failure: Option<Failure>, look: Option<nat>,
    generations: seq<Generation>, owed: nat, recorded: nat, charged: seq<nat>, met: nat)

  const START := State(0, None, None, [], 0, 0, [], 0)

  datatype Event =
    | Tick(dt: nat)
    | Look                       // the monitor finds that a worker is needed and reads the clock
    | Decide                     // and decides under its mutex
    | Started                    // a worker process has started, for the monitor or for a client
    | SpawnFails                 // starting one failed
    | StartupFails(g: nat)       // exit or ready timeout: markStartupFailure
    | Record                     // recordSpawnFailure
    | Ready(g: nat)              // markReady
    | Clear                      // clearSpawnFailure

  predicate Enabled(s: State, e: Event) {
    match e
    case Tick(_) => true
    case Look => true
    case Decide => s.look.Some?
    case Started => true
    case SpawnFails => true
    case StartupFails(g) => g < |s.generations|
    case Record => s.owed > 0
    case Ready(g) => g < |s.generations|
    case Clear => true
  }

  function Charge(s: State, g: nat): State
    requires g < |s.generations|
  {
    if CountsFailure(s.generations[g]) then
      s.(generations := s.generations[g := s.generations[g].(startupFailureRecorded := true)],
         owed := s.owed + 1, charged := s.charged + [g])
    else s
  }

  function Apply(s: State, e: Event): State
    requires Enabled(s, e)
  {
    match e
    case Tick(dt) => s.(now := s.now + dt)
    case Look => s.(look := Some(s.now))
    case Decide => s.(failure := Decided(s.failure, s.look.value), look := None)
    case Started => s.(generations := s.generations + [Generation(false, false)])
    case SpawnFails => s.(owed := s.owed + 1, met := s.met + 1)
    case StartupFails(g) => Charge(s, g)
    case Record => s.(failure := Recorded(s.failure, s.now), owed := s.owed - 1, recorded := s.recorded + 1)
    case Ready(g) => s.(generations := s.generations[g := s.generations[g].(isReady := true)])
    case Clear => s.(failure := None)
  }

  ghost predicate Run(trace: seq<Event>, states: seq<State>) {
    && |states| == |trace| + 1 && states[0] == START
    && (forall k :: 0 <= k < |trace| ==> Enabled(states[k], trace[k]) && states[k + 1] == Apply(states[k], trace[k]))
  }

  // ---- one failure for each generation

  ghost predicate Inv(s: State) {
    && (forall g :: g in s.charged ==> g < |s.generations| && s.generations[g].startupFailureRecorded)
    && (forall i, j :: 0 <= i < j < |s.charged| ==> s.charged[i] != s.charged[j])
    && |s.charged| + s.met == s.recorded + s.owed
    && FailCount(s.failure) <= s.recorded
    && LastRetry(s.failure) <= s.now && (s.look.Some? ==> s.look.value <= s.now)
  }

  lemma StepKeeps(s: State, e: Event)
    requires Inv(s) && Enabled(s, e)
    ensures Inv(Apply(s, e))
  {
  }

  lemma {:induction false} RunKeeps(trace: seq<Event>, states: seq<State>, k: nat)
    requires Run(trace, states) && k <= |trace|
    ensures Inv(states[k])
  {
    if k > 0 {
      hide Inv, Apply, Enabled;
      RunKeeps(trace, states, k - 1);
      StepKeeps(states[k - 1], trace[k - 1]);
    }
  }

  lemma {:induction false} DistinctBound(s: seq<nat>, n: nat)
    requires forall i :: 0 <= i < |s| ==> s[i] < n
    requires forall i, j :: 0 <= i < j < |s| ==> s[i] != s[j]
    ensures |s| <= n
  {
    if s != [] {
      assert s[0] < n;
      if k :| 0 <= k < |s| && s[k] == n - 1 {
        DistinctBound(s[..k] + s[k + 1..], n - 1);
      } else {
        DistinctBound(s, n - 1);
      }
    }
  }

  /** Failures recorded are charged to distinct generations or met in failed starts, so
      the count is bounded by the workers started and the starts that failed. */
  lemma OneFailurePerGeneration(trace: seq<Event>, states: seq<State>, k: nat)
    requires Run(trace, states) && k <= |trace|
    ensures var s := states[k];
      && FailCount(s.failure) <= s.recorded
      && s.recorded + s.owed == |s.charged| + s.met
      && |s.charged| <= |s.generations|
      && forall i, j :: 0 <= i < j < |s.charged| ==> s.charged[i] != s.charged[j]
  {
    RunKeeps(trace, states, k);
    var charged := states[k].charged;
    assert forall i :: 0 <= i < |charged| ==> charged[i] in charged;
    DistinctBound(charged, |states[k].generations|);
  }

  lemma {:induction false} ReadyIsNotCharged(trace: seq<Event>, states: seq<State>, k: nat, l: nat, g: nat)
    requires Run(trace, states) && k <= l <= |trace| && g < |states[k].generations| && states[k].generations[g].isReady
    ensures g < |states[l].generations| && states[l].generations[g].isReady
    ensures Charges(states[l].charged, g) == Charges(states[k].charged, g)
    decreases l
  {
    if k < l {
      ReadyIsNotCharged(trace, states, k, l - 1, g);
      ReadyStep(states[l - 1], trace[l - 1], g);
      assert states[l] == Apply(states[l - 1], trace[l - 1]);
    }
  }

  /** How often g has been charged. */
  function Charges(charged: seq<nat>, g: nat): nat { multiset(charged)[g] }

  lemma ReadyStep(s: State, e: Event, g: nat)
    requires Enabled(s, e) && g < |s.generations| && s.generations[g].isReady
    ensures var s' := Apply(s, e);
      g < |s'.generations| && s'.generations[g].isReady && Charges(s'.charged, g) == Charges(s.charged, g)
  {
  }

  // ---- spacing

  /** The step is a decision that lets the monitor spawn: fewer than five failures, or a
      minute since the last one and since the last decision of this kind. */
  predicate Spawns(s: State, e: Event) {
    && e.Decide? && s.look.Some?
    && (s.failure.None? || s.failure.value.count < 5 || s.look.value - s.failure.value.lastRetry >= 60_000_000_000)
  }

  /** Failures recorded in steps 0 to k since the last READY cleared them. */
  function RecordedSinceClear(trace: seq<Event>, k: nat): nat
    requires k <= |trace|
  {
    if k == 0 || trace[k - 1].Clear? then 0
    else RecordedSinceClear(trace, k - 1) + if trace[k - 1].Record? then 1 else 0
  }

  /** The time of the last failure recorded or spawn decided in steps 0 to k since then,
      0 if there was none. */
  function LastMark(trace: seq<Event>, states: seq<State>, k: nat): nat
    requires k <= |trace| && |states| > |trace|
  {
    if k == 0 || trace[k - 1].Clear? then 0
    else if trace[k - 1].Record? then states[k - 1].now
    else if Spawns(states[k - 1], trace[k - 1]) then states[k - 1].look.value
    else LastMark(trace, states, k - 1)
  }

  /** What the entry of an ID holds in every run. */
  lemma {:induction false} EntryCounts(trace: seq<Event>, states: seq<State>, k: nat)
    requires Run(trace, states) && k <= |trace|
    ensures FailCount(states[k].failure) == RecordedSinceClear(trace, k)
    ensures LastRetry(states[k].failure) == LastMark(trace, states, k)
  {
    if k > 0 {
      EntryCounts(trace, states, k - 1);
      assert states[k] == Apply(states[k - 1], trace[k - 1]);
    }
  }

  /** When the monitor may spawn: with fewer than five failures recorded since the last
      READY always, and otherwise once a minute after the last failure or decision. */
  lemma SpawnsExactlyWhen(trace: seq<Event>, states: seq<State>, k: nat)
    requires Run(trace, states) && k < |trace| && trace[k].Decide?
    ensures states[k].look.Some? && states[k].look.value <= states[k].now
    ensures Spawns(states[k], trace[k]) <==>
      RecordedSinceClear(trace, k) < 5 || states[k].look.value - LastMark(trace, states, k) >= 60_000_000_000
  {
    EntryCounts(trace, states, k);
    RunKeeps(trace, states, k);
  }

  predicate NoClear(trace: seq<Event>, a: nat, b: nat)
    requires a <= b <= |trace|
  {
    forall k :: a <= k < b ==> !trace[k].Clear?
  }

  /** Without a READY clearing it, the entry keeps its count, and its last retry is not
      before any earlier spawn decision. */
  lemma {:induction false} RetryAdvances(trace: seq<Event>, states: seq<State>, i: nat, j: nat, t: nat)
    requires Run(trace, states) && i <= j <= |trace| && NoClear(trace, i, j)
    requires LastRetry(states[i].failure) >= t && t <= states[i].now && (states[i].look.Some? ==> states[i].look.value >= t)
    ensures LastRetry(states[j].failure) >= t && t <= states[j].now && (states[j].look.Some? ==> states[j].look.value >= t)
    ensures FailCount(states[j].failure) >= FailCount(states[i].failure)
    decreases j
  {
    if i < j {
      RetryAdvances(trace, states, i, j - 1, t);
      assert !trace[j - 1].Clear?;
      assert states[j] == Apply(states[j - 1], trace[j - 1]);
    }
  }

  /** Two spawn decisions with the second at five failures or more, and no READY clearing
      the count in between, are a cooldown apart. */
  lemma SpawnsAreSpaced(trace: seq<Event>, states: seq<State>, i: nat, j: nat)
    requires Run(trace, states) && i < j < |trace| && NoClear(trace, i, j)
    requires Spawns(states[i], trace[i]) && Spawns(states[j], trace[j])
    requires FailCount(states[j].failure) >= MAX_SPAWN_RETRIES
    ensures states[j].look.value - states[i].look.value >= SPAWN_RETRY_COOLDOWN
  {
    RunKeeps(trace, states, i);
    RetryAdvances(trace, states, i + 1, j, states[i].look.value);
  }

  /** The times of the spawn decisions in steps a to b. */
  function SpawnTimes(trace: seq<Event>, states: seq<State>, a: nat, b: nat): seq<nat>
    requires a <= b <= |trace| && |states| == |trace| + 1
    decreases b
  {
    if a == b then []
    else
      var before := SpawnTimes(trace, states, a, b - 1);
      if Spawns(states[b - 1], trace[b - 1]) then before + [states[b - 1].look.value] else before
  }

  /** The last spawn decision in steps a to b. */
  function LastSpawn(trace: seq<Event>, states: seq<State>, a: nat, b: nat): (k: nat)
    requires a <= b <= |trace| && |states| == |trace| + 1 && SpawnTimes(trace, states, a, b) != []
    ensures a <= k < b && Spawns(states[k], trace[k])
    ensures var times := SpawnTimes(trace, states, a, b); times[|times| - 1] == states[k].look.value
    decreases b
  {
    if Spawns(states[b - 1], trace[b - 1]) then b - 1 else LastSpawn(trace, states, a, b - 1)
  }

  predicate Apart(times: seq<nat>, d: nat) {
    forall i :: 0 <= i < |times| - 1 ==> times[i + 1] - times[i] >= d
  }

  lemma {:induction false} TimesAreApart(trace: seq<Event>, states: seq<State>, a: nat, b: nat)
    requires Run(trace, states) && a <= b <= |trace| && NoClear(trace, a, b)
    requires FailCount(states[a].failure) >= MAX_SPAWN_RETRIES
    ensures Apart(SpawnTimes(trace, states, a, b), SPAWN_RETRY_COOLDOWN)
    decreases b
  {
    if a < b {
      TimesAreApart(trace, states, a, b - 1);
      var before := SpawnTimes(trace, states, a, b - 1);
      if Spawns(states[b - 1], trace[b - 1]) && before != [] {
        CountStays(trace, states, a, b - 1);
        SpawnsAreSpaced(trace, states, LastSpawn(trace, states, a, b - 1), b - 1);
      }
    }
  }

  lemma {:induction false} CountStays(trace: seq<Event>, states: seq<State>, i: nat, j: nat)
    requires Run(trace, states) && i <= j <= |trace| && NoClear(trace, i, j)
    ensures FailCount(states[j].failure) >= FailCount(states[i].failure)
    decreases j
  {
    if i < j {
      CountStays(trace, states, i, j - 1);
      assert !trace[j - 1].Clear? && states[j] == Apply(states[j - 1], trace[j - 1]);
    }
  }

  lemma {:induction false} ApartSpan(times: seq<nat>, d: nat)
    requires Apart(times, d) && times != []
    ensures times[|times| - 1] - times[0] >= (|times| - 1) * d
  {
    if |times| > 1 {
      var n := |times|;
      assert times[n - 2 + 1] - times[n - 2] >= d;
      ApartSpan(times[..n - 1], d);
      assert (n - 1) * d == (n - 2) * d + d;
    }
  }

  /** At five failures or more, and until a READY clears them, a window of w nanoseconds
      holds at most w / cooldown + 1 spawn decisions. */
  lemma SpawnBudgetHolds(trace: seq<Event>, states: seq<State>, a: nat, b: nat, w: nat)
    requires Run(trace, states) && a <= b <= |trace| && NoClear(trace, a, b)
    requires FailCount(states[a].failure) >= MAX_SPAWN_RETRIES
    requires var times := SpawnTimes(trace, states, a, b); times != [] ==> times[|times| - 1] - times[0] <= w
    ensures |SpawnTimes(trace, states, a, b)| <= w / SPAWN_RETRY_COOLDOWN + 1
  {
    var times := SpawnTimes(trace, states, a, b);
    TimesAreApart(trace, states, a, b);
    if times != [] {
      ApartSpan(times, SPAWN_RETRY_COOLDOWN);
    }
  }
}
