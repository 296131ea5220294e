/** Finding which rollout a Codex process wrote: the process tree below it, the
    rollouts those processes hold open, and the history line of a submission. */
module CodexHistory {
  import opened Base
  import opened InputText
  import Transcript

  type Pid = int

  // ---- the process tree

  /** One look at the process table: the children of a process, None if it could not
      be listed. `table` bounds the processes there are. */
  datatype Processes = Processes(table: set<Pid>, children: Pid -> Option<seq<Pid>>)

  ghost predicate FiniteTable(ps: Processes) {
    forall p, c :: ps.children(p).Some? && c in ps.children(p).value ==> c in ps.table
  }

  predicate Child(ps: Processes, p: Pid, c: Pid) { ps.children(p).Some? && c in ps.children(p).value }

  ghost predicate Path(ps: Processes, path: seq<Pid>) {
    path != [] && forall i :: 0 <= i < |path| - 1 ==> Child(ps, path[i], path[i + 1])
  }

  ghost predicate PathTo(ps: Processes, path: seq<Pid>, root: Pid, p: Pid) {
    Path(ps, path) && path[0] == root && path[|path| - 1] == p
  }

  ghost predicate Reachable(ps: Processes, root: Pid, p: Pid) { exists path :: PathTo(ps, path, root, p) }

  lemma RootReachable(ps: Processes, root: Pid)
    ensures Reachable(ps, root, root)
  {
    assert PathTo(ps, [root], root, root);
  }

  lemma ChildReachable(ps: Processes, root: Pid, p: Pid, c: Pid)
    requires Reachable(ps, root, p) && Child(ps, p, c)
    ensures Reachable(ps, root, c)
  {
    var path :| PathTo(ps, path, root, p);
    assert PathTo(ps, path + [c], root, c);
  }

  /** A set that holds the root and all children of its members holds everything reachable. */
  lemma {:induction false} ClosedHolds(ps: Processes, s: set<Pid>, path: seq<Pid>)
    requires Path(ps, path) && path[0] in s && forall p, c :: p in s && Child(ps, p, c) ==> c in s
    ensures path[|path| - 1] in s
    decreases |path|
  {
    if |path| > 1 {
      assert Child(ps, path[0], path[1]);
      assert Path(ps, path[1..]) by {
        forall i | 0 <= i < |path[1..]| - 1 ensures Child(ps, path[1..][i], path[1..][i + 1]) {
          assert Child(ps, path[i + 1], path[i + 2]);
        }
      }
      ClosedHolds(ps, s, path[1..]);
    }
  }

  predicate Distinct(s: seq<Pid>) { forall i, j :: 0 <= i < j < |s| ==> s[i] != s[j] }

  /** Listed positions below n have all their children listed. */
  ghost predicate Expanded(ps: Processes, pids: seq<Pid>, n: nat) {
    n <= |pids| && forall i, c :: 0 <= i < n && Child(ps, pids[i], c) ==> c in pids
  }

  /** codexProcessTreePIDs: the list grows while it is walked. It ends with exactly the
      processes reachable from the root, each once, or, when one of those cannot be
      listed, with None. */
  method ProcessTree(ps: Processes, root: Pid) returns (r: Option<seq<Pid>>)
    requires FiniteTable(ps)
    ensures r.Some? ==> Distinct(r.value) && r.value != [] && r.value[0] == root
    ensures r.Some? ==> forall p :: p in r.value <==> Reachable(ps, root, p)
    ensures r.Some? <==> forall p :: Reachable(ps, root, p) ==> ps.children(p).Some?
  {
    hide Reachable;
    RootReachable(ps, root);
    var pids, seen := [root], {root};
    var index := 0;
    while index < |pids|
      invariant 0 <= index <= |pids| && pids != [] && pids[0] == root && Tracks(seen, pids)
      invariant seen <= ps.table + {root}
      invariant forall p :: p in seen ==> Reachable(ps, root, p)
      invariant Expanded(ps, pids, index)
      invariant forall i :: 0 <= i < index ==> ps.children(pids[i]).Some?
      decreases |ps.table + {root}| - |seen|, |pids| - index
    {
      var children := ps.children(pids[index]);
      if children.None? {
        assert Reachable(ps, root, pids[index]);
        return None;
      }
      ghost var was, before := seen, pids;
      seen, pids := AddChildren(ps, root, pids[index], children.value, seen, pids);
      forall c | c in children.value ensures c in ps.table { assert ps.children(before[index]).Some?; }
      SubsetSize(was, seen);
      forall p | p in seen ensures p in ps.table + {root} { assert p in was || p in children.value; }
      SubsetSize(seen, ps.table + {root});
      index := index + 1;
    }
    ReachedAll(ps, pids, root);
    return Some(pids);
  }

  /** The seen set and the growing list hold the same processes, each once. */
  ghost predicate Tracks(seen: set<Pid>, pids: seq<Pid>) {
    Distinct(pids) && (forall p :: p in seen <==> p in pids) && |pids| == |seen|
  }

  lemma TracksNext(seen: set<Pid>, pids: seq<Pid>, p: Pid)
    requires Tracks(seen, pids) && p !in seen
    ensures Tracks(seen + {p}, pids + [p])
  {
  }

  /** The inner loop: children not seen before are appended. */
  method AddChildren(ps: Processes, ghost root: Pid, ghost parent: Pid, children: seq<Pid>, seen0: set<Pid>, pids0: seq<Pid>)
    returns (seen: set<Pid>, pids: seq<Pid>)
    requires Tracks(seen0, pids0)
    requires ps.children(parent) == Some(children) && Reachable(ps, root, parent)
    requires forall p :: p in seen0 ==> Reachable(ps, root, p)
    ensures pids0 <= pids && Tracks(seen, pids)
    ensures seen0 <= seen && forall p :: p in seen ==> p in seen0 || p in children
    ensures forall p :: p in seen ==> Reachable(ps, root, p)
    ensures forall c :: c in children ==> c in seen
  {
    hide Reachable, Tracks;
    seen, pids := seen0, pids0;
    var k := 0;
    while k < |children|
      invariant 0 <= k <= |children|
      invariant pids0 <= pids && Tracks(seen, pids)
      invariant seen0 <= seen && forall p :: p in seen ==> p in seen0 || p in children
      invariant forall p :: p in seen ==> Reachable(ps, root, p)
      invariant forall i :: 0 <= i < k ==> children[i] in seen
    {
      var child := children[k];
      if child !in seen {
        ChildReachable(ps, root, parent, child);
        TracksNext(seen, pids, child);
        seen := seen + {child};
        pids := pids + [child];
      }
      k := k + 1;
    }
  }

  lemma SubsetSize(a: set<Pid>, b: set<Pid>)
    requires a <= b
    ensures |a| <= |b|
  {
    assert b == a + (b - a);
  }

  lemma ReachedAll(ps: Processes, pids: seq<Pid>, root: Pid)
    requires root in pids && Expanded(ps, pids, |pids|)
    ensures forall p :: Reachable(ps, root, p) ==> p in pids
  {
    var s := set p | p in pids;
    forall p, c | p in s && Child(ps, p, c) ensures c in s {
      var i :| 0 <= i < |pids| && pids[i] == p;
    }
    forall p | Reachable(ps, root, p) ensures p in pids {
      var path :| PathTo(ps, path, root, p);
      ClosedHolds(ps, s, path);
    }
  }

  // ---- open rollouts

  /** The paths a process holds open, None if they could not be listed; the session
      ID in a rollout path; and lower-casing. */
  datatype OpenFiles = OpenFiles(
    targets: Pid -> Option<seq<string>>, sessionOf: string -> Option<string>, lower: string -> string)

  predicate Names(o: OpenFiles, target: string, id: string) {
    o.sessionOf(target).Some? && o.lower(o.sessionOf(target).value) == id
  }

  predicate Owns(o: OpenFiles, p: Pid, id: string) {
    o.targets(p).Some? && exists t :: t in o.targets(p).value && Names(o, t, id)
  }

  /** codexRolloutsOwnedByPIDs: the union over the processes that could be listed;
      None only when there are some and none of them could. */
  method RolloutsOwned(o: OpenFiles, pids: seq<Pid>) returns (r: Option<set<string>>)
    ensures r.None? <==> pids != [] && forall i :: 0 <= i < |pids| ==> o.targets(pids[i]).None?
    ensures r.Some? ==> forall id :: id in r.value <==>
      exists i, t :: 0 <= i < |pids| && o.targets(pids[i]).Some? && t in o.targets(pids[i]).value
        && o.sessionOf(t).Some? && o.lower(o.sessionOf(t).value) == id
  {
    hide Owns;
    var owned: set<string> := {};
    var failed, successes := false, 0;
    var k := 0;
    while k < |pids|
      invariant 0 <= k <= |pids|
      invariant failed <==> exists i :: 0 <= i < k && o.targets(pids[i]).None?
      invariant successes == 0 <==> forall i :: 0 <= i < k ==> o.targets(pids[i]).None?
      invariant successes >= 0 && (k > 0 ==> failed || successes > 0)
      invariant forall id :: id in owned <==> exists i :: 0 <= i < k && Owns(o, pids[i], id)
    {
      ghost var before := owned;
      var targets := o.targets(pids[k]);
      if targets.None? {
        failed := true;
      } else {
        successes := successes + 1;
        owned := AddTargets(o, targets.value, owned);
      }
      assert forall id :: id in owned <==> id in before || Owns(o, pids[k], id) by { OwnsByTargets(o, pids[k]); }
      k := k + 1;
    }
    if successes == 0 && failed { return None; }
    OwnsSpelledOut(o, pids, owned);
    return Some(owned);
  }

  lemma OwnsByTargets(o: OpenFiles, p: Pid)
    ensures o.targets(p).None? ==> forall id :: !Owns(o, p, id)
    ensures o.targets(p).Some? ==> forall id :: Owns(o, p, id) <==> exists t :: t in o.targets(p).value && Names(o, t, id)
  {
  }

  lemma OwnsSpelledOut(o: OpenFiles, pids: seq<Pid>, owned: set<string>)
    requires forall id :: id in owned <==> exists i :: 0 <= i < |pids| && Owns(o, pids[i], id)
    ensures forall id :: id in owned <==>
      exists i, t :: 0 <= i < |pids| && o.targets(pids[i]).Some? && t in o.targets(pids[i]).value
        && o.sessionOf(t).Some? && o.lower(o.sessionOf(t).value) == id
  {
  }

  method AddTargets(o: OpenFiles, targets: seq<string>, owned: set<string>) returns (r: set<string>)
    ensures forall id :: id in r <==> id in owned || exists t :: t in targets && Names(o, t, id)
  {
    r := owned;
    var k := 0;
    while k < |targets|
      invariant 0 <= k <= |targets|
      invariant forall id :: id in r <==> id in owned || exists t :: t in targets[..k] && Names(o, t, id)
    {
      ghost var before := r;
      var id := o.sessionOf(targets[k]);
      if id.Some? { r := r + {o.lower(id.value)}; }
      assert forall i :: i in r <==> i in before || Names(o, targets[k], i);
      assert targets[..k + 1] == targets[..k] + [targets[k]];
      k := k + 1;
    }
    assert targets[..k] == targets;
  }

  /** codexRolloutsOwnedByPID: what some process of the tree holds open, provided the
      whole tree could be listed and the files of at least one process. */
  method RolloutsOwnedByTree(ps: Processes, o: OpenFiles, pid: Pid) returns (r: Option<set<string>>)
    requires FiniteTable(ps)
    ensures r.Some? ==> pid > 0 && forall p :: Reachable(ps, pid, p) ==> ps.children(p).Some?
    ensures r.Some? ==> forall id :: id in r.value <==>
      exists p, t :: Reachable(ps, pid, p) && o.targets(p).Some? && t in o.targets(p).value
        && o.sessionOf(t).Some? && o.lower(o.sessionOf(t).value) == id
    ensures pid > 0 && (forall p :: Reachable(ps, pid, p) ==> ps.children(p).Some? && o.targets(p).Some?) ==> r.Some?
  {
    hide Reachable;
    if pid <= 0 { return None; }
    var pids := ProcessTree(ps, pid);
    if pids.None? { return None; }
    r := RolloutsOwned(o, pids.value);
    if r.None? { assert pids.value[0] in pids.value; }
  }

  // ---- the history line of a submission

  datatype Entry = Entry(sessionID: string, text: Bytes)

  /** The history decoder, and the acceptance test where the caller gives one. */
  datatype Search = Search(decode: Bytes -> Option<Entry>, expected: Bytes, accept: Option<string -> bool>)

  /** The session of a line that confirms the submission. */
  function Confirms(q: Search, line: Bytes): Option<string> {
    var e := q.decode(line);
    if e.None? || Normalize(e.value.text) != Normalize(q.expected) then None
    else if q.accept.Some? && !q.accept.value(e.value.sessionID) then None
    else if e.value.sessionID == "" then None
    else Some(e.value.sessionID)
  }

  /** The first confirming line from k on, or the end. */
  function ConfirmingIndex(q: Search, lines: seq<Bytes>, k: nat): (i: nat)
    requires k <= |lines|
    ensures k <= i <= |lines| && (i < |lines| ==> Confirms(q, lines[i]).Some?)
    ensures forall j :: k <= j < i ==> Confirms(q, lines[j]).None?
    decreases |lines| - k
  {
    if k == |lines| || Confirms(q, lines[k]).Some? then k else ConfirmingIndex(q, lines, k + 1)
  }

  function FirstConfirmed(q: Search, lines: seq<Bytes>): Option<string> {
    var i := ConfirmingIndex(q, lines, 0);
    if i == |lines| then None else Confirms(q, lines[i])
  }

  function Matched(q: Search, data: Bytes, from: int): Option<string> {
    if |data| <= from then None
    else FirstConfirmed(q, Transcript.LinesFrom(data, if from < 0 then 0 else from))
  }

  /** A line of the history that confirms the submission in a session: the same text,
      line breaks and trailing ones apart, and an accepted session with a name. */
  ghost predicate Confirming(q: Search, line: Bytes, id: string) {
    && q.decode(line).Some? && q.decode(line).value.sessionID == id && id != ""
    && (exists text :: IsText(q.decode(line).value.text, text) && IsText(q.expected, text))
    && (q.accept.Some? ==> q.accept.value(id))
  }

  ghost predicate NoneBefore(q: Search, lines: seq<Bytes>, k: nat) {
    forall j: nat, id :: j < k && j < |lines| ==> !Confirming(q, lines[j], id)
  }

  /** The session of the first confirming line, if there is one. */
  ghost predicate AnswerOf(q: Search, lines: seq<Bytes>, r: Option<string>) {
    forall id :: r == Some(id) <==> exists k: nat :: k < |lines| && Confirming(q, lines[k], id) && NoneBefore(q, lines, k)
  }

  /** What a search of the history from an offset must find in its complete lines. */
  ghost predicate Confirmed(q: Search, data: Bytes, from: int, r: Option<string>) {
    if |data| <= from then r.None?
    else forall lines :: Transcript.CompleteLines(data[if from < 0 then 0 else from..], lines) ==> AnswerOf(q, lines, r)
  }

  lemma ConfirmsIsConfirming(q: Search, line: Bytes)
    ensures forall id :: Confirms(q, line) == Some(id) <==> Confirming(q, line, id)
  {
    var e := q.decode(line);
    TextIsNormalized(q.expected, Normalize(q.expected));
    if e.Some? { TextIsNormalized(e.value.text, Normalize(e.value.text)); }
    hide IsText, Normalize;
    forall id | Confirming(q, line, id) ensures Confirms(q, line) == Some(id) {
      var text :| IsText(e.value.text, text) && IsText(q.expected, text);
      TextIsNormalized(e.value.text, text);
      TextIsNormalized(q.expected, text);
    }
  }

  lemma FirstIsAnswer(q: Search, lines: seq<Bytes>)
    ensures AnswerOf(q, lines, FirstConfirmed(q, lines))
  {
    hide Confirms, Confirming;
    forall k: nat | k < |lines| ensures forall id :: Confirms(q, lines[k]) == Some(id) <==> Confirming(q, lines[k], id) {
      ConfirmsIsConfirming(q, lines[k]);
    }
    var i, r := ConfirmingIndex(q, lines, 0), FirstConfirmed(q, lines);
    if i < |lines| {
      assert Confirming(q, lines[i], r.value) && NoneBefore(q, lines, i);
    }
    forall id, k: nat | k < |lines| && Confirming(q, lines[k], id) && NoneBefore(q, lines, k) ensures r == Some(id) {
      assert i <= k;
      assert Confirming(q, lines[i], r.value);
    }
  }

  /** There is one right answer, and the search by index finds it. */
  lemma MatchedIsConfirmed(q: Search, data: Bytes, from: int, r: Option<string>)
    ensures Confirmed(q, data, from, r) <==> r == Matched(q, data, from)
  {
    hide AnswerOf, Transcript.CompleteLines, Transcript.LinesFrom, FirstConfirmed;
    if |data| > from {
      var o := if from < 0 then 0 else from;
      var lines := Transcript.LinesFrom(data, o);
      Transcript.LinesFromAreComplete(data, o);
      FirstIsAnswer(q, lines);
      forall other | Transcript.CompleteLines(data[o..], other) ensures other == lines {
        Transcript.CompleteLinesAreUnique(data[o..], other, lines);
      }
      if AnswerOf(q, lines, r) { AnswersAgree(q, lines, r, FirstConfirmed(q, lines)); }
    }
  }

  lemma AnswersAgree(q: Search, lines: seq<Bytes>, r: Option<string>, other: Option<string>)
    requires AnswerOf(q, lines, r) && AnswerOf(q, lines, other)
    ensures r == other
  {
    hide Confirming, NoneBefore;
    if r.Some? { assert other == Some(r.value); } else if other.Some? { assert r == Some(other.value); }
  }

  lemma NothingToScan(q: Search)
    ensures FirstConfirmed(q, []) == None
  {
  }

  lemma ScanEnds(q: Search, lines: seq<Bytes>, k: nat)
    requires k <= |lines| && forall j :: 0 <= j < k ==> Confirms(q, lines[j]).None?
    requires k < |lines| ==> Confirms(q, lines[k]).Some?
    ensures FirstConfirmed(q, lines) == if k == |lines| then None else Confirms(q, lines[k])
  {
    hide Confirms;
  }

  /** matchCodexHistoryDelta: the session of the first complete line from the offset on
      that carries the submitted text in an accepted session; None if no line does, or
      if the file cannot be read or is not longer than the offset. */
  method MatchDelta(q: Search, file: Option<Bytes>, from: int) returns (r: Option<string>)
    ensures file.None? ==> r.None?
    ensures file.Some? ==> Confirmed(q, file.value, from, r)
  {
    hide Confirmed, Normalize, FirstConfirmed, Transcript.Split, Transcript.LastIndexLf;
    if file.None? { return None; }
    var data := file.value;
    MatchedIsConfirmed(q, data, from, Matched(q, data, from));
    if |data| <= from { return None; }
    var start := if from < 0 then 0 else from;
    var delta := data[start..];
    var lastNewline := Transcript.LastIndexLf(delta);
    if lastNewline < 0 {
      NothingToScan(q);
      return None;
    }
    var lines := Transcript.Split(delta[..lastNewline]);
    assert Matched(q, data, from) == FirstConfirmed(q, lines);
    hide Matched;
    var k := 0;
    while k < |lines|
      invariant 0 <= k <= |lines|
      invariant forall j :: 0 <= j < k ==> Confirms(q, lines[j]).None?
    {
      var entry := q.decode(lines[k]);
      if entry.None? || Normalize(entry.value.text) != Normalize(q.expected) {
        k := k + 1;
        continue;
      }
      if q.accept.Some? && !q.accept.value(entry.value.sessionID) {
        k := k + 1;
        continue;
      }
      if entry.value.sessionID == "" {
        k := k + 1;
        continue;
      }
      ScanEnds(q, lines, k);
      return Some(entry.value.sessionID);
    }
    ScanEnds(q, lines, k);
    return None;
  }


  /** Once a submission is confirmed, every later reading of the append-only history
      confirms the same session: the answer does not depend on when one polls. */
  lemma ConfirmationIsStable(q: Search, f: Bytes, g: Bytes, from: int, r: Option<string>)
    requires f <= g && r.Some? && Confirmed(q, f, from, r)
    ensures Confirmed(q, g, from, r)
  {
    MatchedIsConfirmed(q, f, from, r);
    MatchedIsConfirmed(q, g, from, r);
    hide Confirmed;
    MatchedIsStable(q, f, g, from);
  }

  lemma MatchedIsStable(q: Search, f: Bytes, g: Bytes, from: int)
    requires f <= g && Matched(q, f, from).Some?
    ensures Matched(q, g, from) == Matched(q, f, from)
  {
    var o := if from < 0 then 0 else from;
    LinesGrow(f, g, o);
    var a, b := Transcript.LinesFrom(f, o), Transcript.LinesFrom(g, o);
    hide Confirms;
    var i := ConfirmingIndex(q, a, 0);
    assert a[i] == b[i];
    assert forall j :: 0 <= j < i ==> a[j] == b[j];
    assert ConfirmingIndex(q, b, 0) == i;
  }

  /** The complete lines of a grown file begin with those of the old one. */
  lemma LinesGrow(f: Bytes, g: Bytes, o: nat)
    requires f <= g && o <= |f|
    ensures Transcript.LinesFrom(f, o) <= Transcript.LinesFrom(g, o)
  {
    var d, d' := f[o..], g[o..];
    assert d <= d';
    var i, j := Transcript.LastIndexLf(d), Transcript.LastIndexLf(d');
    hide Transcript.LastIndexLf, Transcript.Split;
    if i >= 0 {
      assert d' == d[..i + 1] + d'[i + 1..];
      Transcript.CompleteAppend(d[..i + 1], d'[i + 1..]);
      assert |Transcript.Complete(d')| == j + 1;
      if i < j {
        assert d'[..j] == d[..i] + [LF] + d'[i + 1..j];
        SplitGrows(d[..i], d'[i + 1..j]);
      } else {
        assert d'[..j] == d[..i];
      }
    }
  }

  lemma {:induction false} SplitGrows(a: Bytes, b: Bytes)
    ensures Transcript.Split(a) <= Transcript.Split(a + [LF] + b)
    decreases |a|
  {
    var text, i := a + [LF] + b, Transcript.IndexLf(a);
    Transcript.FirstLf(text, i);
    assert text[..i] == a[..i];
    if i < |a| {
      assert text[i + 1..] == a[i + 1..] + [LF] + b;
      SplitGrows(a[i + 1..], b);
    } else {
      assert a[..i] == a;
    }
  }
}
