/** A client that follows a bounded log by cursor while lines keep arriving: which
    entries it is given, and in what order. */
module LogReaders {
  import opened Base
  import opened SessionMeta

  datatype Move<T> = Append(x: T) | Read

  /** A log under a cap, and one reader: its cursor, and the entries it was given
      with their positions in the log. */
  datatype Reader<T> = Reader(log: seq<T>, kept: seq<T>, cursor: nat, got: seq<T>, places: seq<nat>)

  function Range(from: nat, to: nat): (r: seq<nat>)
    requires from <= to
    ensures |r| == to - from && forall i :: 0 <= i < |r| ==> r[i] == from + i
  {
    seq(to - from, i requires 0 <= i => from + i)
  }

  function Play<T>(start: Reader<T>, cap: nat, moves: seq<Move<T>>): Reader<T> {
    if moves == [] then start
    else
      var r := Play(start, cap, moves[..|moves| - 1]);
      match moves[|moves| - 1]
      case Append(x) => r.(log := r.log + [x], kept := Trim(r.kept + [x], cap))
      case Read =>
        // SnapshotOutputSince, then the cursor moves to the sequence it returned
        if |r.kept| <= |r.log| then
          var from := Min(Max(r.cursor, |r.log| - |r.kept|), |r.log|);
          r.(cursor := |r.log|, got := r.got + Since(r.log, |r.kept|, r.cursor), places := r.places + Range(from, |r.log|))
        else r
  }

  /** What arrives, in order. */
  function Arrivals<T>(moves: seq<Move<T>>): seq<T> {
    if moves == [] then []
    else Arrivals(moves[..|moves| - 1]) + match moves[|moves| - 1] case Append(x) => [x] case Read => []
  }

  ghost predicate Starts<T>(r: Reader<T>, cap: nat) {
    Keeps(r.log, r.kept, cap) && r.cursor <= |r.log| && r.got == [] && r.places == []
  }

  /** At every read the reader is at most cap entries behind. */
  ghost predicate KeepsUp<T>(start: Reader<T>, cap: nat, moves: seq<Move<T>>) {
    moves == [] || (
      var r := Play(start, cap, moves[..|moves| - 1]);
      && KeepsUp(start, cap, moves[..|moves| - 1])
      && (moves[|moves| - 1].Read? ==> |r.log| - r.cursor <= cap))
  }

  ghost predicate Ordered<T>(r: Reader<T>) {
    && |r.got| == |r.places|
    && (forall i :: 0 <= i < |r.places| ==> r.places[i] < r.cursor && r.places[i] < |r.log| && r.got[i] == r.log[r.places[i]])
    && (forall i, j :: 0 <= i < j < |r.places| ==> r.places[i] < r.places[j])
  }

  /** However far behind it falls, a reader is given each entry at most once, in log
      order. */
  lemma {:induction false} ReadsAreOrdered<T>(start: Reader<T>, cap: nat, moves: seq<Move<T>>)
    requires cap >= 1 && Starts(start, cap)
    ensures Ordered(Play(start, cap, moves))
    ensures var r := Play(start, cap, moves); Keeps(r.log, r.kept, cap) && r.cursor <= |r.log|
  {
    if moves != [] {
      ReadsAreOrdered(start, cap, moves[..|moves| - 1]);
      var r := Play(start, cap, moves[..|moves| - 1]);
      match moves[|moves| - 1]
      case Append(x) => TrimKeeps(r.log, r.kept, cap, x);
      case Read =>
    }
  }

  lemma Kept<T>(log: seq<T>, kept: seq<T>, cap: nat)
    requires Keeps(log, kept, cap)
    ensures |kept| <= |log| && Min(|log|, cap) <= |kept|
  {
  }

  /** The log is all that has arrived, and a read takes the cursor to its end. */
  lemma {:induction false} ReadsReachTheEnd<T>(start: Reader<T>, cap: nat, moves: seq<Move<T>>)
    requires cap >= 1 && Starts(start, cap)
    ensures var r := Play(start, cap, moves);
      r.log == start.log + Arrivals(moves) && (moves != [] && moves[|moves| - 1].Read? ==> r.cursor == |r.log|)
  {
    hide Keeps, Trim, Ordered, Since;
    if moves != [] {
      var before := moves[..|moves| - 1];
      ReadsReachTheEnd(start, cap, before);
      ReadsAreOrdered(start, cap, before);
      var r := Play(start, cap, before);
      Kept(r.log, r.kept, cap);
      assert moves[|moves| - 1].Append? ==>
        start.log + Arrivals(before) + [moves[|moves| - 1].x] == start.log + (Arrivals(before) + [moves[|moves| - 1].x]);
    }
  }

  lemma Slices<T>(s: seq<T>, a: nat, b: nat, more: seq<T>)
    requires a <= b <= |s|
    ensures (s + more)[a..b] == s[a..b]
    ensures s[a..b] + s[b..] == s[a..|s|]
  {
  }

  /** A reader that never falls more than the cap behind is given every entry from
      its first cursor on, exactly once. */
  lemma {:induction false} ReaderMissesNothing<T>(start: Reader<T>, cap: nat, moves: seq<Move<T>>)
    requires cap >= 1 && Starts(start, cap) && KeepsUp(start, cap, moves)
    ensures var r := Play(start, cap, moves);
      start.cursor <= r.cursor <= |r.log| && r.got == r.log[start.cursor..r.cursor]
  {
    hide Keeps, Trim, Ordered;
    ReadsAreOrdered(start, cap, moves);
    if moves != [] {
      ReaderMissesNothing(start, cap, moves[..|moves| - 1]);
      ReadsAreOrdered(start, cap, moves[..|moves| - 1]);
      var r := Play(start, cap, moves[..|moves| - 1]);
      assert |r.kept| <= |r.log| && Min(|r.log|, cap) <= |r.kept| by { Kept(r.log, r.kept, cap); }
      match moves[|moves| - 1]
      case Append(x) => Slices(r.log, start.cursor, r.cursor, [x]);
      case Read => Slices(r.log, start.cursor, r.cursor, []);
    }
  }
}
