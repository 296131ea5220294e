/** Submitting input to Aiden: the text in chunks, then Enter until the terminal
    answers, over a writer that may fail at any byte. */
module Aiden {
  import opened Base
  import opened InputText
  import opened Writers
  import opened Utf8Chunks

  type Chan = nat

  datatype SendResult = Sent | NotOpen | WriteFailed | NotConfirmed | Stopped

  datatype Waited = Confirmed | TimedOut | Interrupted

  /** Which case of waitForOutput's select fires. */
  datatype Fired = Output | Timer | ContextDone

  /** The waits after the Enters of one submission: only the last may have had another
      answer than a timeout. */
  predicate WaitedThrough(waits: seq<Waited>) {
    forall i :: 0 <= i < |waits| - 1 ==> waits[i] == TimedOut
  }

  /** The writer has answered since, last with a failure or with an impossible count. */
  predicate BadAnswer(writer: Writer, since: nat)
    reads writer
  {
    |writer.log| > since && (Failing(writer.log[|writer.log| - 1]) || !writer.honest)
  }

  class AidenAdapter {
    var closed: bool
    var writer: Writer?
    var chunkBytes: int
    var writeRetryAttempts: int
    var maxEnterAttempts: int
    var confirmTimeout: int

    var activitySeq: nat
    var activityNotify: Option<Chan>
    var closedChans: set<Chan>
    var nextChan: Chan
    ghost var issued: map<Chan, nat>   // subscriptions handed out, with their baselines

    /** A subscription's channel is closed exactly when output has arrived since. */
    ghost predicate Valid()
      reads this
    {
      && (activityNotify.Some? ==> activityNotify.value < nextChan && activityNotify.value !in closedChans)
      && (forall c :: c in closedChans ==> c < nextChan)
      && (forall c :: c in issued ==> c < nextChan && issued[c] <= activitySeq && (c in closedChans <==> activitySeq > issued[c]))
      && (forall c :: c in issued && c !in closedChans ==> activityNotify == Some(c))
    }

    /** Closes every channel handed out so far, each for the first time. */
    method NotifyOutput()
      requires Valid()
      modifies this`activitySeq, this`activityNotify, this`closedChans, this`nextChan
      ensures Valid() && activitySeq == old(activitySeq) + 1
      ensures forall c :: c in issued ==> c in closedChans
      ensures closedChans == old(closedChans) + (if old(activityNotify).Some? then {old(activityNotify).value} else {})
      ensures old(activityNotify).Some? ==> old(activityNotify).value !in old(closedChans)
    {
      var notify := activityNotify;
      activitySeq := activitySeq + 1;
      activityNotify, nextChan := Some(nextChan), nextChan + 1;
      if notify.Some? { closedChans := closedChans + {notify.value}; }
    }

    method OutputSubscription() returns (seen: nat, ch: Chan)
      requires Valid()
      modifies this`activityNotify, this`nextChan, this`issued
      ensures Valid() && seen == activitySeq && ch !in closedChans && ch in issued && issued[ch] == seen
      ensures forall c :: c in old(issued) ==> c in issued && issued[c] == old(issued)[c]
    {
      if activityNotify.None? {
        activityNotify, nextChan := Some(nextChan), nextChan + 1;
      }
      ch, seen := activityNotify.value, activitySeq;
      issued := issued[ch := seen];
    }

    /** Some output may arrive while waiting. With a timeout, output since the
        subscription confirms and nothing else does; without, no wait happens. */
    method WaitForOutput(baseline: nat, ch: Chan, timeout: int, arrivals: nat, fired: Fired) returns (w: Waited)
      requires Valid() && ch in issued && issued[ch] == baseline
      modifies this`activitySeq, this`activityNotify, this`closedChans, this`nextChan
      ensures Valid() && activitySeq == old(activitySeq) + if timeout <= 0 then 0 else arrivals
      ensures w.Confirmed? <==> timeout <= 0 || (fired.Output? && activitySeq > baseline)
      ensures w.Interrupted? <==> timeout > 0 && fired.ContextDone?
    {
      if timeout <= 0 { return Confirmed; }
      var left := arrivals;
      while left > 0
        invariant Valid() && left >= 0 && activitySeq == old(activitySeq) + arrivals - left
      {
        NotifyOutput();
        left := left - 1;
      }
      match fired {
        case Output => w := if ch in closedChans && activitySeq > baseline then Confirmed else TimedOut;
        case Timer => w := TimedOut;
        case ContextDone => w := Interrupted;
      }
    }

    /** The text of the input goes on the wire once, then an Enter for each wait. It
        succeeds exactly when a wait confirms, all earlier ones having timed out, and
        gives up unconfirmed when all the waits allowed have timed out. After a failed
        write or a cancellation the wire has a prefix of the text, or the text, an Enter
        for each wait and perhaps one more. Blank input and a closed or unstarted
        adapter write nothing. */
    method Send(input: Bytes, mayCancel: bool) returns (r: SendResult, ghost text: Bytes, ghost waits: seq<Waited>)
      requires Valid()
      modifies this`activitySeq, this`activityNotify, this`closedChans, this`nextChan, this`issued, writer
      ensures Valid() && IsText(input, text)
      ensures r.NotOpen? <==> closed || writer == null
      ensures writer != null && (r.NotOpen? || IsBlank(text)) ==> writer.accepted == old(writer.accepted) && waits == []
      ensures !r.NotOpen? && IsBlank(text) ==> r.Sent?
      ensures writer != null && !IsBlank(text) && (r.Sent? || r.NotConfirmed?) ==>
        writer.accepted == old(writer.accepted) + text + Repeat(0x0d, |waits|)
      ensures r.Sent? && !IsBlank(text) ==> waits != [] && waits[|waits| - 1].Confirmed?
      ensures !r.Sent? ==> Confirmed !in waits
      ensures WaitedThrough(waits) && |waits| <= Attempts(maxEnterAttempts)
      ensures r.NotConfirmed? ==> |waits| == Attempts(maxEnterAttempts) && waits[|waits| - 1].TimedOut?
      ensures confirmTimeout <= 0 ==> !r.NotConfirmed? && |waits| <= 1
      ensures writer != null && (r.WriteFailed? || r.Stopped?) ==>
        || (waits == [] && old(writer.accepted) <= writer.accepted <= old(writer.accepted) + text)
        || writer.accepted == old(writer.accepted) + text + Repeat(0x0d, |waits|)
        || writer.accepted == old(writer.accepted) + text + Repeat(0x0d, |waits| + 1)
      ensures writer != null && r.WriteFailed? ==> BadAnswer(writer, |old(writer.log)|)
      ensures r.Stopped? ==> mayCancel
    {
      text, waits := Normalize(input), [];
      TextIsNormalized(input, text);
      hide IsBlank, Normalize, IsText;
      if closed || writer == null { return NotOpen, text, waits; }
      var normalized := Normalize(input);
      if IsBlank(normalized) { return Sent, text, waits; }
      r := SendText(writer, normalized, mayCancel);
      if !r.Sent? { return; }
      r, waits := PressEnter(writer, mayCancel);
    }

    method SendText(writer: Writer, text: Bytes, mayCancel: bool) returns (r: SendResult)
      modifies writer
      ensures r.Sent? || r.WriteFailed? || r.Stopped?
      ensures old(writer.accepted) <= writer.accepted <= old(writer.accepted) + text
      ensures r.Sent? ==> writer.accepted == old(writer.accepted) + text
      ensures |writer.log| >= |old(writer.log)|
      ensures r.WriteFailed? ==> BadAnswer(writer, |old(writer.log)|)
      ensures r.Stopped? ==> mayCancel
    {
      var chunks := Split(text, chunkBytes);
      ChunksAreLossless(text, Limit(chunkBytes));
      hide Chunks, NeverFails;
      var i := 0;
      assert chunks[0..] == chunks;
      while i < |chunks|
        invariant 0 <= i <= |chunks| && Joined(chunks) == text
        invariant old(writer.accepted) <= writer.accepted && |writer.log| >= |old(writer.log)|
        invariant writer.accepted + Joined(chunks[i..]) == old(writer.accepted) + text
      {
        ghost var before := writer.accepted;
        assert Joined(chunks[i..]) == chunks[i] + Joined(chunks[i + 1..]) by { assert chunks[i..][1..] == chunks[i + 1..]; }
        assert before + chunks[i] + Joined(chunks[i + 1..]) == old(writer.accepted) + text;
        var w, answers := WriteAllWithRetry(writer, chunks[i], writeRetryAttempts, mayCancel);
        if !w.Written? { return if w.Cancelled? then Stopped else WriteFailed; }
        if i < |chunks| - 1 {
          var cancelled: bool := *;
          if cancelled && mayCancel { return Stopped; }
        }
        i := i + 1;
      }
      assert Joined(chunks[i..]) == [];
      var cancelled: bool := *;
      return if cancelled && mayCancel then Stopped else Sent;
    }

    /** Presses Enter until a wait confirms: one Enter for each wait, and one without a
        wait when its write failed or was cancelled after the byte was taken. */
    method PressEnter(writer: Writer, mayCancel: bool) returns (r: SendResult, ghost waits: seq<Waited>)
      requires Valid()
      modifies this`activitySeq, this`activityNotify, this`closedChans, this`nextChan, this`issued, writer
      ensures Valid() && !r.NotOpen? && |writer.log| >= |old(writer.log)|
      ensures r.Sent? || r.NotConfirmed? ==> writer.accepted == old(writer.accepted) + Repeat(0x0d, |waits|)
      ensures r.Sent? ==> waits != [] && waits[|waits| - 1].Confirmed?
      ensures !r.Sent? ==> Confirmed !in waits
      ensures WaitedThrough(waits) && |waits| <= Attempts(maxEnterAttempts)
      ensures r.NotConfirmed? ==> |waits| == Attempts(maxEnterAttempts) && waits[|waits| - 1].TimedOut?
      ensures confirmTimeout <= 0 ==> !r.NotConfirmed? && |waits| <= 1
      ensures r.WriteFailed? || r.Stopped? ==>
        || writer.accepted == old(writer.accepted) + Repeat(0x0d, |waits|)
        || writer.accepted == old(writer.accepted) + Repeat(0x0d, |waits| + 1)
      ensures r.WriteFailed? ==> BadAnswer(writer, |old(writer.log)|)
      ensures r.Stopped? ==> mayCancel
    {
      hide NeverFails;
      var limit := Attempts(maxEnterAttempts);
      var attempt := 1;
      waits := [];
      while attempt <= limit
        invariant 1 <= attempt <= limit + 1 && Valid() && |writer.log| >= |old(writer.log)|
        invariant |waits| == attempt - 1 && forall i :: 0 <= i < |waits| ==> waits[i] == TimedOut
        invariant writer.accepted == old(writer.accepted) + Repeat(CR, attempt - 1)
        invariant confirmTimeout <= 0 ==> attempt == 1
      {
        var seen, ch := OutputSubscription();
        ghost var was := writer.accepted;
        var w, answers := WriteAllWithRetry(writer, [CR], writeRetryAttempts, mayCancel);
        assert was + [CR] == old(writer.accepted) + Repeat(CR, attempt);
        if !w.Written? {
          assert writer.accepted == was || writer.accepted == was + [CR];
          return if w.Cancelled? then Stopped else WriteFailed, waits;
        }
        var arrivals: nat, fired: Fired := *, *;
        if fired.ContextDone? && !mayCancel { fired := Timer; }
        var c := WaitForOutput(seen, ch, confirmTimeout, arrivals, fired);
        waits := waits + [c];
        if c.Interrupted? { return Stopped, waits; }
        if c.Confirmed? { return Sent, waits; }
        if attempt < limit {
          var cancelled: bool := *;
          if cancelled && mayCancel { return Stopped, waits; }
        }
        attempt := attempt + 1;
      }
      return NotConfirmed, waits;
    }
  }

  // ---- reading the wire back

  lemma EntersCount(a: Bytes, j: nat)
    requires CR !in a
    ensures Count(a + Repeat(CR, j), CR) == j
  {
    CountAppend(a, Repeat(CR, j), CR);
    CountAbsent(a, CR);
    CountRepeat(CR, j);
  }

  /** What a submission put on the wire tells the text and the number of Enters, and
      two submissions look alike only if their inputs normalise alike. */
  lemma WireTellsSubmission(before: Bytes, after: Bytes, x: Bytes, s: Bytes, j: nat, y: Bytes, t: Bytes, k: nat)
    requires IsText(x, s) && IsText(y, t)
    requires after == before + s + Repeat(0x0d, j) == before + t + Repeat(0x0d, k)
    ensures s == t && j == k && Count(after[|before|..], 0x0d) == k
  {
    TextIsNormalized(x, s);
    TextIsNormalized(y, t);
    NormalizeContract(x);
    NormalizeContract(y);
    hide Normalize, IsText;
    var wire := after[|before|..];
    assert wire == s + Repeat(CR, j);
    assert wire == t + Repeat(CR, k);
    EntersCount(s, j);
    EntersCount(t, k);
    assert wire[..|wire| - j] == s && wire[..|wire| - k] == t;
  }
}
