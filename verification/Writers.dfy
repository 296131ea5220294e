/** Writing to a terminal that may take less than it is offered, fail, or both. */
module Writers {
  import opened Base

  datatype Answer = Answer(n: int, err: bool)

  /** A write that failed or made no progress. */
  predicate Failing(a: Answer) { a.err || a.n == 0 }

  datatype Outcome = Written | Cancelled | InvalidCount | Failed

  /** An io.Writer with arbitrary answers. It has taken exactly what it reports when
      the count it reports is possible at all; an honest one reports no other. */
  class Writer {
    const honest: bool
    var accepted: Bytes
    var log: seq<Answer>

    constructor (honest: bool)
      ensures this.honest == honest && accepted == [] && log == []
    {
      this.honest, accepted, log := honest, [], [];
    }

    method Write(data: Bytes) returns (n: int, err: bool)
      modifies this
      ensures log == old(log) + [Answer(n, err)]
      ensures old(accepted) <= accepted <= old(accepted) + data
      ensures 0 <= n <= |data| ==> accepted == old(accepted) + data[..n]
      ensures honest ==> 0 <= n <= |data|
    {
      n, err := *, *;
      if honest && !(0 <= n <= |data|) { n := 0; }
      var taken: int := *;
      if 0 <= n <= |data| { taken := n; } else if !(0 <= taken <= |data|) { taken := 0; }
      accepted := accepted + data[..taken];
      log := log + [Answer(n, err)];
    }
  }

  predicate AllFailing(log: seq<Answer>) { forall j :: 0 <= j < |log| ==> Failing(log[j]) }

  /** The last k answers are failures. */
  predicate FailingTail(log: seq<Answer>, k: nat) { k <= |log| && AllFailing(log[|log| - k..]) }

  predicate FailingRow(log: seq<Answer>, i: nat, k: nat) { i + k <= |log| && AllFailing(log[i..i + k]) }

  /** No k answers in a row are failures. */
  predicate NeverFails(log: seq<Answer>, k: nat) { forall i: nat :: i < |log| ==> !FailingRow(log, i, k) }

  /** The failures counted are the last answers, and never were there k in a row. */
  predicate Counted(log: seq<Answer>, failures: nat, k: nat) {
    && failures < k && FailingTail(log, failures) && NeverFails(log, k)
    && (failures < |log| ==> !Failing(log[|log| - failures - 1]))
  }

  lemma CountClean(log: seq<Answer>, failures: nat, a: Answer, k: nat)
    requires Counted(log, failures, k) && !Failing(a)
    ensures Counted(log + [a], 0, k)
  {
    var l := log + [a];
    forall i: nat | i < |l| && i + k <= |l| ensures !FailingRow(l, i, k) {
      var w := l[i..i + k];
      if i + k <= |log| {
        assert w == log[i..i + k] && !FailingRow(log, i, k);
      } else {
        assert w[|w| - 1] == a;
      }
    }
  }

  lemma CountFailure(log: seq<Answer>, failures: nat, a: Answer, k: nat)
    requires Counted(log, failures, k) && Failing(a)
    ensures if failures + 1 < k then Counted(log + [a], failures + 1, k)
      else failures + 1 == k && FailingTail(log + [a], k)
  {
    var l := log + [a];
    assert l[|log| - failures..] == log[|log| - failures..] + [a];
    if failures + 1 < k {
      forall i: nat | i < |l| && i + k <= |l| ensures !FailingRow(l, i, k) {
        var w := l[i..i + k];
        if i + k <= |log| {
          assert w == log[i..i + k] && !FailingRow(log, i, k);
        } else {
          assert w[|w| - failures - 2] == log[|log| - failures - 1];
        }
      }
    }
  }

  lemma NothingCounted(k: nat)
    requires k > 0
    ensures Counted([], 0, k)
  {
  }

  lemma CountedNever(log: seq<Answer>, failures: nat, k: nat)
    requires Counted(log, failures, k)
    ensures failures < k && NeverFails(log, k)
  {
  }

  /** The writer took a front of the text, `data` is left. */
  predicate TakenSoFar(before: Bytes, text: Bytes, data: Bytes, accepted: Bytes) {
    |data| <= |text| && data == text[|text| - |data|..] && accepted == before + text[..|text| - |data|]
  }

  lemma NothingTaken(before: Bytes, text: Bytes)
    ensures TakenSoFar(before, text, text, before)
  {
  }

  lemma TakesMore(before: Bytes, text: Bytes, data: Bytes, accepted: Bytes, n: nat)
    requires TakenSoFar(before, text, data, accepted) && n <= |data|
    ensures TakenSoFar(before, text, data[n..], accepted + data[..n])
  {
    var k := |text| - |data|;
    assert text[k..][..n] == text[k..k + n];
    assert text[..k] + text[k..k + n] == text[..k + n];
    assert before + text[..k] + text[k..k + n] == before + text[..k + n];
    assert data[n..] == text[k + n..];
  }

  lemma TakenWithin(before: Bytes, text: Bytes, data: Bytes, accepted: Bytes, now: Bytes)
    requires TakenSoFar(before, text, data, accepted) && accepted <= now <= accepted + data
    ensures before <= now <= before + text && (|data| == 0 ==> now == before + text)
    ensures |data| >= |before| + |text| - |now|
  {
    assert accepted + data == before + text;
  }

  /** Codex's writeAll: everything is taken, or a prefix and the first failing write
      is the last. */
  method WriteAll(writer: Writer, text: Bytes, mayCancel: bool) returns (r: Outcome)
    requires writer.honest
    modifies writer
    ensures old(writer.accepted) <= writer.accepted <= old(writer.accepted) + text
    ensures r.Written? ==> writer.accepted == old(writer.accepted) + text
    ensures old(writer.log) <= writer.log
    ensures forall i :: |old(writer.log)| <= i < |writer.log| - 1 ==> !writer.log[i].err && writer.log[i].n != 0
    ensures r.Failed? <==>
      |writer.log| > |old(writer.log)| && (writer.log[|writer.log| - 1].err || writer.log[|writer.log| - 1].n == 0)
    ensures !r.InvalidCount? && (r.Cancelled? ==> mayCancel)
  {
    var data := text;
    while |data| > 0
      invariant old(writer.log) <= writer.log
      invariant forall i :: |old(writer.log)| <= i < |writer.log| ==> !Failing(writer.log[i])
      invariant |data| <= |text| && data == text[|text| - |data|..]
      invariant writer.accepted == old(writer.accepted) + text[..|text| - |data|]
      decreases |data|
    {
      var done: bool := *;
      if done && mayCancel { return Cancelled; }
      ghost var left := data;
      var n, err := writer.Write(data);
      assert text[..|text| - |left|] + left[..n] == text[..|text| - |left| + n];
      if n > 0 { data := data[n..]; }
      if err { return Failed; }
      if n == 0 { return Failed; }
    }
    assert text[..|text|] == text;
    return Written;
  }

  /** A limit that is not positive counts as one. */
  function Attempts(maxAttempts: int): (n: nat)
    ensures n >= 1 && (maxAttempts >= 1 ==> n == maxAttempts) && (maxAttempts <= 0 ==> n == 1)
  {
    if maxAttempts <= 0 then 1 else maxAttempts
  }

  /** Aiden's writeAllWithRetry. Failures in a row are counted and a clean write starts
      the count again, so the loop gives up exactly when that many writes in a row have
      failed, or when the write that took the last byte also reported an error. */
  method WriteAllWithRetry(writer: Writer, text: Bytes, maxAttempts: int, mayCancel: bool) returns (r: Outcome, ghost answers: seq<Answer>)
    modifies writer
    ensures old(writer.accepted) <= writer.accepted <= old(writer.accepted) + text
    ensures r.Written? ==> writer.accepted == old(writer.accepted) + text
    ensures writer.log == old(writer.log) + answers
    ensures |text| == 0 ==> r.Written? && |answers| == 0
    ensures r.Written? && |text| > 0 ==> |answers| > 0 && !answers[|answers| - 1].err && answers[|answers| - 1].n > 0
    ensures r.Written? || r.Cancelled? ==> NeverFails(answers, Attempts(maxAttempts))
    ensures r.Failed? ==>
      || (|answers| > 0 && writer.accepted == old(writer.accepted) + text && answers[|answers| - 1].err)
      || FailingTail(answers, Attempts(maxAttempts))
    ensures r.InvalidCount? ==>
      !writer.honest && |answers| > 0 && !(0 <= answers[|answers| - 1].n <= |old(writer.accepted)| + |text| - |writer.accepted|)
    ensures r.Cancelled? ==> mayCancel
  {
    hide Counted, NeverFails, FailingTail, TakenSoFar;
    var attempts := Attempts(maxAttempts);
    var failures := 0;
    var data := text;
    answers := [];
    NothingCounted(attempts);
    NothingTaken(writer.accepted, text);
    while |data| > 0
      invariant writer.log == old(writer.log) + answers
      invariant 0 <= failures < attempts && Counted(answers, failures, attempts)
      invariant TakenSoFar(old(writer.accepted), text, data, writer.accepted)
      invariant |data| == 0 < |text| ==> |answers| > 0 && !answers[|answers| - 1].err && answers[|answers| - 1].n > 0
      invariant |text| == 0 ==> |data| == 0 && |answers| == 0
      decreases |data|, attempts - failures
    {
      CountedNever(answers, failures, attempts);
      TakenWithin(old(writer.accepted), text, data, writer.accepted, writer.accepted);
      var done: bool := *;
      if done && mayCancel { return Cancelled, answers; }
      ghost var was, taken := answers, writer.accepted;
      var n, err := writer.Write(data);
      ghost var now := writer.accepted;
      answers := was + [Answer(n, err)];
      assert old(writer.log) + was + [Answer(n, err)] == old(writer.log) + answers;
      TakenWithin(old(writer.accepted), text, data, taken, now);
      if n < 0 || n > |data| { return InvalidCount, answers; }
      TakesMore(old(writer.accepted), text, data, taken, n);
      if n > 0 { data := data[n..]; }
      if !err && n > 0 {
        CountClean(was, failures, Answer(n, err), attempts);
        failures := 0;
        continue;
      }
      TakenWithin(old(writer.accepted), text, data, writer.accepted, writer.accepted);
      if |data| == 0 { return Failed, answers; }
      CountFailure(was, failures, Answer(n, err), attempts);
      failures := failures + 1;
      if failures >= attempts { return Failed, answers; }
      CountedNever(answers, failures, attempts);
      var cancelled: bool := *;
      if cancelled && mayCancel { return Cancelled, answers; }
    }
    CountedNever(answers, failures, attempts);
    TakenWithin(old(writer.accepted), text, data, writer.accepted, writer.accepted);
    return Written, answers;
  }
}
