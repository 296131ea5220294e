/** Suppressing a status line that repeats one shown recently. */
module LineDeduper {
  import opened Base
  import opened AnsiScanner

  const DEFAULT_SIZE := 200

  /** Trimming, the test for a status line and its normal form are regular expressions
      and Unicode tables; nothing here depends on what they are. */
  datatype Rules = Rules(trim: Bytes -> Bytes, isStatus: Bytes -> bool, normalize: Bytes -> Bytes)

  function Visible(ru: Rules, raw: Bytes): Bytes { ru.trim(Stripped(raw)) }

  // ---- the sliding window

  /** The last n entries of a history. */
  function Last(history: seq<Bytes>, n: nat): seq<Bytes> {
    if |history| <= n then history else history[|history| - n..]
  }

  /** The keys admitted after one more status line. */
  function Admitted(history: seq<Bytes>, key: Bytes, n: nat): seq<Bytes> {
    if key in Last(history, n) then history else history + [key]
  }

  predicate Distinct(s: seq<Bytes>) { forall i, j :: 0 <= i < j < |s| ==> s[i] != s[j] }

  /** Equal keys are at least n admissions apart. */
  predicate SpacedBy(history: seq<Bytes>, n: nat) {
    forall i, j :: 0 <= i < j < |history| && j - i < n ==> history[i] != history[j]
  }

  lemma InLast(history: seq<Bytes>, n: nat, key: Bytes)
    ensures key in Last(history, n) <==> exists i :: Max(0, |history| - n) <= i < |history| && history[i] == key
  {
    var cut := Max(0, |history| - n);
    assert Last(history, n) == history[cut..];
    if i :| cut <= i < |history| && history[i] == key { assert history[cut..][i - cut] == key; }
  }

  lemma SpacedKept(history: seq<Bytes>, key: Bytes, n: nat)
    requires SpacedBy(history, n)
    ensures SpacedBy(Admitted(history, key, n), n)
  {
    var h := Admitted(history, key, n);
    if h != history {
      forall i | 0 <= i < |history| && |history| - i < n ensures history[i] != key {
        assert history[i] == Last(history, n)[i - Max(0, |history| - n)];
      }
    }
  }

  lemma SpacedWindow(history: seq<Bytes>, n: nat)
    requires SpacedBy(history, n)
    ensures Distinct(Last(history, n)) && |Last(history, n)| <= n
  {
  }

  /** Keys admitted by a run of status lines since a reset, and which of the lines were shown. */
  function Shown(history: seq<Bytes>, keys: seq<Bytes>, n: nat): (r: (seq<Bytes>, seq<bool>))
    decreases |keys|
  {
    if keys == [] then (history, [])
    else
      var rest := Shown(Admitted(history, keys[0], n), keys[1..], n);
      (rest.0, [keys[0] !in Last(history, n)] + rest.1)
  }

  /** In every run the keys shown are the history, so equal ones are n apart. */
  lemma {:induction false} RunsAreSpaced(history: seq<Bytes>, keys: seq<Bytes>, n: nat)
    requires SpacedBy(history, n)
    ensures SpacedBy(Shown(history, keys, n).0, n) && history <= Shown(history, keys, n).0
    decreases |keys|
  {
    if keys != [] {
      SpacedKept(history, keys[0], n);
      RunsAreSpaced(Admitted(history, keys[0], n), keys[1..], n);
    }
  }

  // ---- the deduper

  class LineDeduper {
    const rules: Rules
    const maxSize: nat
    var seen: map<Bytes, int>
    var order: seq<Bytes>
    ghost var admitted: seq<Bytes>   // since the last reset

    ghost predicate Valid()
      reads this
    {
      && maxSize >= 1
      && SpacedBy(admitted, maxSize) && order == Last(admitted, maxSize)
      && (forall k :: k in seen <==> k in order)
    }

    constructor (ru: Rules, size: int)
      ensures Valid() && admitted == [] && rules == ru && maxSize == if size <= 0 then 200 else size
    {
      rules, maxSize := ru, if size <= 0 then DEFAULT_SIZE else size;
      seen, order, admitted := map[], [], [];
    }

    /** Lines without visible text are dropped, other lines than status lines pass, and
        a status line passes exactly when its key is non-empty and not among the last
        maxSize admitted. */
    method Check(raw: Bytes) returns (shown: Bytes)
      requires Valid()
      modifies this
      ensures Valid()
      ensures var visible := rules.trim(Stripped(raw)); var key := rules.normalize(visible);
        var recent := exists i :: Max(0, |old(admitted)| - maxSize) <= i < |old(admitted)| && old(admitted)[i] == key;
        if visible == [] then shown == [] && admitted == old(admitted)
        else if !rules.isStatus(visible) then shown == raw && admitted == old(admitted)
        else if key == [] || recent then shown == [] && admitted == old(admitted)
        else shown == raw && admitted == old(admitted) + [key]
    {
      hide Stripped;
      var visible := Visible(rules, raw);
      if visible == [] { return []; }
      if !rules.isStatus(visible) { return raw; }
      var key := rules.normalize(visible);
      if key == [] { return []; }
      InLast(admitted, maxSize, key);
      if key in seen { return []; }
      SpacedKept(admitted, key, maxSize);
      SpacedWindow(admitted, maxSize);
      Slides(admitted, key, maxSize);
      if |order| >= maxSize {
        var oldest := order[0];
        order := order[1..];
        seen := seen - {oldest};
      }
      seen := seen[key := 1];
      order := order + [key];
      admitted := admitted + [key];
      return raw;
    }

    method Reset()
      requires Valid()
      modifies this
      ensures Valid() && admitted == []
    {
      seen, order, admitted := map[], [], [];
    }

    /** No key is in the window twice, and the map holds exactly the window. */
    lemma WindowIsSet()
      requires Valid()
      ensures Distinct(order) && |order| <= maxSize && seen.Keys == (set k | k in order)
    {
      SpacedWindow(admitted, maxSize);
    }
  }

  lemma Slides(history: seq<Bytes>, key: Bytes, n: nat)
    requires n >= 1
    ensures var w := Last(history, n); Last(history + [key], n) == (if |w| >= n then w[1..] else w) + [key]
  {
  }
}
