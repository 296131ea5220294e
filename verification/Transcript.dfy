/** The rollout cursor that watches a Codex transcript: it is polled while the file
    grows and must report what one reading of the final file would. */
module Transcript {
  import opened Base

  // ---- lines as records

  datatype Payload = TaskComplete(final: string) | TurnAborted(reason: string) | OtherPayload

  /** A decoded rollout line. Malformed covers every line parseLine cannot decode. */
  datatype Record =
    | Malformed
    | UserMessage(text: string)
    | EventMsg(turnID: string, payload: Payload)
    | OtherItem

  datatype AdapterEvent = Output(text: string) | Completed | Aborted(detail: string) | Failed(code: string)

  predicate IsTerminal(e: AdapterEvent) { !e.Output? }

  /** An outcome followed by that of what comes after it. */
  function Join(first: Outcome, rest: Outcome): Outcome { Outcome(rest.cursor, first.events + rest.events) }

  lemma JoinNothing(a: Outcome)
    ensures Join(a, Outcome(a.cursor, [])) == a
  {
  }

  lemma JoinTwice(a: Outcome, b: Outcome, c: Outcome)
    ensures Join(Join(a, b), c) == Join(a, Join(b, c))
  {
    assert (a.events + b.events) + c.events == a.events + (b.events + c.events);
  }

  /** What the cursor takes from elsewhere: the JSON decoder, the comparison of a user
      line with the submitted input, and the shortening of an abort reason. */
  datatype Rules = Rules(decode: Bytes -> Record, isInput: string -> bool, safe: string -> string)

  datatype Cursor = Cursor(offset: int, armed: bool, terminal: bool)

  /** The outcome of some reading: the cursor it leaves and the events it returns. */
  datatype Outcome = Outcome(cursor: Cursor, events: seq<AdapterEvent>)

  predicate Arms(ru: Rules, r: Record) { r.UserMessage? && ru.isInput(r.text) }

  predicate Ends(r: Record) { r.EventMsg? && r.turnID != "" && !r.payload.OtherPayload? }

  function Report(ru: Rules, r: Record): seq<AdapterEvent>
    requires Ends(r)
  {
    if r.payload.TaskComplete? then [Output(r.payload.final), Completed] else [Aborted(ru.safe(r.payload.reason))]
  }

  /** parseLine */
  function Line(ru: Rules, c: Cursor, line: Bytes): Outcome {
    var r := ru.decode(line);
    if Arms(ru, r) then Outcome(c.(armed := true), [])
    else if c.armed && !c.terminal && Ends(r) then Outcome(c.(terminal := true), Report(ru, r))
    else Outcome(c, [])
  }

  // ---- reading bytes

  predicate NoLf(b: Bytes, from: nat, to: nat)
    requires from <= to <= |b|
  {
    forall k :: from <= k < to ==> b[k] != LF
  }

  /** The first line feed from k on, or the end. */
  function NextLf(b: Bytes, k: nat): (i: nat)
    requires k <= |b|
    ensures k <= i <= |b| && NoLf(b, k, i) && (i < |b| ==> b[i] == LF)
    decreases |b| - k
  {
    if k == |b| || b[k] == LF then k else NextLf(b, k + 1)
  }

  function IndexLf(b: Bytes): (i: nat)
    ensures i <= |b| && NoLf(b, 0, i) && (i < |b| ==> b[i] == LF)
  {
    NextLf(b, 0)
  }

  /** The last line feed before k, or -1. */
  function PreviousLf(b: Bytes, k: nat): (i: int)
    requires k <= |b|
    ensures -1 <= i < k && NoLf(b, i + 1, k) && (i >= 0 ==> b[i] == LF)
  {
    if k == 0 then -1 else if b[k - 1] == LF then k - 1 else PreviousLf(b, k - 1)
  }

  /** bytes.LastIndexByte(b, '\n') */
  function LastIndexLf(b: Bytes): (i: int)
    ensures -1 <= i < |b| && NoLf(b, i + 1, |b|) && (i >= 0 ==> b[i] == LF)
  {
    PreviousLf(b, |b|)
  }

  /** The two searches find the one position that fits. */
  lemma FirstLf(b: Bytes, i: nat)
    requires i <= |b| && NoLf(b, 0, i) && (i < |b| ==> b[i] == LF)
    ensures IndexLf(b) == i
  {
    hide IndexLf;
  }

  lemma LastLf(b: Bytes, i: int)
    requires -1 <= i < |b| && NoLf(b, i + 1, |b|) && (i >= 0 ==> b[i] == LF)
    ensures LastIndexLf(b) == i
  {
    hide LastIndexLf;
  }

  /** Made of complete lines. */
  predicate Whole(a: Bytes) { a == [] || a[|a| - 1] == LF }

  /** bytes.Split(b, "\n") */
  function Split(b: Bytes): seq<Bytes>
    decreases |b|
  {
    var i := IndexLf(b);
    if i == |b| then [b] else [b[..i]] + Split(b[i + 1..])
  }

  function Lines(ru: Rules, c: Cursor, lines: seq<Bytes>): Outcome
    decreases |lines|
  {
    if lines == [] then Outcome(c, [])
    else
      var first := Line(ru, c, lines[0]);
      Join(first, Lines(ru, first.cursor, lines[1..]))
  }

  /** The complete lines of a text, in order; a last line without its line feed is
      left for later. */
  function Feed(ru: Rules, c: Cursor, text: Bytes): Outcome
    decreases |text|
  {
    var i := IndexLf(text);
    if i == |text| then Outcome(c, [])
    else
      var first := Line(ru, c, text[..i]);
      Join(first, Feed(ru, first.cursor, text[i + 1..]))
  }

  /** Where reading starts: a position outside the file means its beginning. */
  function Start(c: Cursor, data: Bytes): (o: nat)
    ensures o <= |data|
  {
    if c.offset < 0 || c.offset > |data| then 0 else c.offset
  }

  /** One reading of a file, as a function. */
  function Read(ru: Rules, c: Cursor, data: Bytes): Outcome {
    var o := Start(c, data);
    Feed(ru, c.(offset := o + LastIndexLf(data[o..]) + 1), data[o..])
  }

  // ---- the cursor as the source runs it

  lemma {:induction false} SplitIsFeed(ru: Rules, c: Cursor, complete: Bytes, tail: Bytes)
    requires NoLf(tail, 0, |tail|)
    ensures Lines(ru, c, Split(complete)) == Feed(ru, c, complete + [LF] + tail)
    decreases |complete|
  {
    var text, i := complete + [LF] + tail, IndexLf(complete);
    FirstLf(text, i);
    assert text[..i] == complete[..i];
    var first := Line(ru, c, complete[..i]);
    if i == |complete| {
      assert text[i + 1..] == tail && complete[..i] == complete;
      FirstLf(tail, |tail|);
    } else {
      assert text[i + 1..] == complete[i + 1..] + [LF] + tail;
      SplitIsFeed(ru, first.cursor, complete[i + 1..], tail);
      assert Split(complete)[1..] == Split(complete[i + 1..]);
    }
  }

  lemma NoLines(ru: Rules, c: Cursor)
    ensures Lines(ru, c, []) == Outcome(c, [])
  {
  }

  lemma LinesStep(ru: Rules, c: Cursor, lines: seq<Bytes>)
    requires lines != []
    ensures var first := Line(ru, c, lines[0]); Lines(ru, c, lines) == Join(first, Lines(ru, first.cursor, lines[1..]))
  {
  }

  lemma FeedStep(ru: Rules, c: Cursor, text: Bytes, i: nat)
    requires i < |text| && NoLf(text, 0, i) && text[i] == LF
    ensures var first := Line(ru, c, text[..i]); Feed(ru, c, text) == Join(first, Feed(ru, first.cursor, text[i + 1..]))
  {
    FirstLf(text, i);
  }

  lemma FeedNothing(ru: Rules, c: Cursor, text: Bytes)
    requires NoLf(text, 0, |text|)
    ensures Feed(ru, c, text) == Outcome(c, [])
  {
    FirstLf(text, |text|);
  }

  /** The complete lines from the start position of a reading. */
  function LinesFrom(data: Bytes, o: nat): seq<Bytes>
    requires o <= |data|
  {
    var last := LastIndexLf(data[o..]);
    if last < 0 then [] else Split(data[o..][..last])
  }

  // ---- what the lines of a text are

  /** Lines, each with its line feed. */
  ghost function WithBreaks(lines: seq<Bytes>): Bytes {
    if lines == [] then [] else WithBreaks(lines[..|lines| - 1]) + lines[|lines| - 1] + [LF]
  }

  /** Lines without line feeds that make up the text with their breaks, but for a tail
      that has none. */
  ghost predicate CompleteLines(text: Bytes, lines: seq<Bytes>) {
    && (forall i :: 0 <= i < |lines| ==> NoLf(lines[i], 0, |lines[i]|))
    && WithBreaks(lines) <= text && NoLf(text, |WithBreaks(lines)|, |text|)
  }

  lemma {:induction false} BreaksAppend(a: seq<Bytes>, b: seq<Bytes>)
    ensures WithBreaks(a + b) == WithBreaks(a) + WithBreaks(b)
    decreases |b|
  {
    if b == [] {
      assert a + b == a;
    } else {
      assert (a + b)[..|a + b| - 1] == a + b[..|b| - 1];
      BreaksAppend(a, b[..|b| - 1]);
    }
  }

  lemma OneBreak(line: Bytes)
    ensures WithBreaks([line]) == line + [LF]
  {
    assert [line][..0] == [];
  }

  lemma {:induction false} SplitBreaks(b: Bytes)
    ensures WithBreaks(Split(b)) == b + [LF]
    ensures forall i :: 0 <= i < |Split(b)| ==> NoLf(Split(b)[i], 0, |Split(b)[i]|)
    decreases |b|
  {
    var i := IndexLf(b);
    if i == |b| {
      OneBreak(b);
    } else {
      SplitBreaks(b[i + 1..]);
      OneBreak(b[..i]);
      BreaksAppend([b[..i]], Split(b[i + 1..]));
      assert b == b[..i] + [LF] + b[i + 1..];
    }
  }

  /** What a reading takes as lines are the complete lines from its start position. */
  lemma LinesFromAreComplete(data: Bytes, o: nat)
    requires o <= |data|
    ensures CompleteLines(data[o..], LinesFrom(data, o))
  {
    hide Split, LastIndexLf;
    var d := data[o..];
    var last := LastIndexLf(d);
    if last >= 0 {
      SplitBreaks(d[..last]);
      CutAtLf(d, last);
    }
  }

  /** A text has only one reading as complete lines. */
  lemma {:induction false} CompleteLinesAreUnique(text: Bytes, a: seq<Bytes>, b: seq<Bytes>)
    requires CompleteLines(text, a) && CompleteLines(text, b)
    ensures a == b
    decreases |a| + |b|
  {
    if a == [] || b == [] {
      LastIsBreak(a);
      LastIsBreak(b);
    } else {
      LastIsBreak(a);
      LastIsBreak(b);
      var wa, wb := WithBreaks(a), WithBreaks(b);
      assert text[|wa| - 1] == LF && text[|wb| - 1] == LF;
      assert |wa| == |wb| && wa == wb;
      LastLines(a, b);
      var n := |wa| - |a[|a| - 1]| - 1;
      var rest := text[..n];
      assert WithBreaks(a[..|a| - 1]) == rest && WithBreaks(b[..|b| - 1]) == rest;
      CompleteLinesAreUnique(rest, a[..|a| - 1], b[..|b| - 1]);
    }
  }

  lemma LastIsBreak(a: seq<Bytes>)
    ensures a == [] ==> WithBreaks(a) == []
    ensures a != [] ==> WithBreaks(a) != [] && WithBreaks(a)[|WithBreaks(a)| - 1] == LF
  {
  }

  /** The last line reaches back to the line feed before it. */
  lemma LastLines(a: seq<Bytes>, b: seq<Bytes>)
    requires a != [] && b != [] && WithBreaks(a) == WithBreaks(b)
    requires NoLf(a[|a| - 1], 0, |a[|a| - 1]|) && NoLf(b[|b| - 1], 0, |b[|b| - 1]|)
    ensures a[|a| - 1] == b[|b| - 1]
  {
    var w, x, y := WithBreaks(a), a[|a| - 1], b[|b| - 1];
    var p, q := WithBreaks(a[..|a| - 1]), WithBreaks(b[..|b| - 1]);
    LastIsBreak(a[..|a| - 1]);
    LastIsBreak(b[..|b| - 1]);
    assert w == p + x + [LF] && w == q + y + [LF];
    SuffixAfterLf(w, p, x, q, y);
  }

  lemma SuffixAfterLf(w: Bytes, p: Bytes, x: Bytes, q: Bytes, y: Bytes)
    requires w == p + x + [LF] && w == q + y + [LF]
    requires Whole(p) && Whole(q) && NoLf(x, 0, |x|) && NoLf(y, 0, |y|)
    ensures x == y && p == q
  {
    assert forall i :: |p| <= i < |w| - 1 ==> w[i] == x[i - |p|] && w[i] != LF;
    assert forall i :: |q| <= i < |w| - 1 ==> w[i] == y[i - |q|] && w[i] != LF;
    assert p != [] ==> w[|p| - 1] == LF;
    assert q != [] ==> w[|q| - 1] == LF;
    assert |p| == |q|;
    assert p == w[..|p|] && q == w[..|q|];
    assert x == w[|p|..|w| - 1] && y == w[|q|..|w| - 1];
  }

  lemma TailNoLf(d: Bytes, k: nat)
    requires k <= |d| && NoLf(d, k, |d|)
    ensures NoLf(d[k..], 0, |d[k..]|)
  {
  }

  lemma CutAtLf(d: Bytes, i: nat)
    requires i < |d| && d[i] == LF
    ensures d == d[..i] + [LF] + d[i + 1..]
  {
  }

  /** A reading parses the complete lines and moves behind the last of them. */
  lemma ReadByLines(ru: Rules, c: Cursor, data: Bytes)
    ensures var o := Start(c, data);
      Read(ru, c, data) == Lines(ru, c.(offset := o + LastIndexLf(data[o..]) + 1), LinesFrom(data, o))
  {
    hide Lines, Feed, Line, Split, LastIndexLf, NoLf;
    var o := Start(c, data);
    var d := data[o..];
    var last := LastIndexLf(d);
    var c' := c.(offset := o + last + 1);
    if last < 0 {
      FeedNothing(ru, c', d);
      NoLines(ru, c');
    } else {
      TailNoLf(d, last + 1);
      CutAtLf(d, last);
      SplitIsFeed(ru, c', d[..last], d[last + 1..]);
    }
  }

  class TranscriptCursor {
    const rules: Rules
    var Offset: int
    var Armed: bool
    var terminal: bool

    ghost function View(): Cursor
      reads this
    {
      Cursor(Offset, Armed, terminal)
    }

    constructor (ru: Rules, offset: int)
      ensures rules == ru && View() == Cursor(offset, false, false)
    {
      rules, Offset, Armed, terminal := ru, offset, false, false;
    }

    method ParseLine(line: Bytes) returns (events: seq<AdapterEvent>, ok: bool)
      modifies this`Armed, this`terminal
      ensures Outcome(View(), events) == Line(rules, old(View()), line)
      ensures ok == (events != [])
      ensures match rules.decode(line)
        case UserMessage(text) => events == [] && Armed == (old(Armed) || rules.isInput(text)) && terminal == old(terminal)
        case EventMsg(id, TaskComplete(final)) =>
          if old(Armed) && !old(terminal) && id != "" then events == [Output(final), Completed] && terminal && Armed
          else events == [] && terminal == old(terminal) && Armed == old(Armed)
        case EventMsg(id, TurnAborted(reason)) =>
          if old(Armed) && !old(terminal) && id != "" then events == [Aborted(rules.safe(reason))] && terminal && Armed
          else events == [] && terminal == old(terminal) && Armed == old(Armed)
        case _ => events == [] && terminal == old(terminal) && Armed == old(Armed)
    {
      var r := rules.decode(line);
      if r.Malformed? { return [], false; }
      if r.UserMessage? {
        if rules.isInput(r.text) { Armed := true; }
        return [], false;
      }
      if !Armed || terminal || !r.EventMsg? { return [], false; }
      if r.turnID == "" { return [], false; }
      match r.payload
      case TaskComplete(final) =>
        terminal := true;
        return [Output(final), Completed], true;
      case TurnAborted(reason) =>
        terminal := true;
        return [Aborted(rules.safe(reason))], true;
      case OtherPayload =>
        return [], false;
    }

    /** `file` is None when the file cannot be read. */
    method ReadNew(file: Option<Bytes>) returns (events: seq<AdapterEvent>, err: bool)
      modifies this
      ensures err == file.None?
      ensures Outcome(View(), events) ==
        if file.None? then Outcome(old(View()), []) else Read(rules, old(View()), file.value)
    {
      hide Read, Lines, LastIndexLf, Split;
      if file.None? { return [], true; }
      var data := file.value;
      ReadByLines(rules, View(), data);
      NoLines(rules, View().(offset := Start(View(), data)));
      if Offset < 0 || Offset > |data| { Offset := 0; }
      var delta := data[Offset..];
      var lastNewline := LastIndexLf(delta);
      if lastNewline < 0 { return [], false; }
      var complete := delta[..lastNewline];
      Offset := Offset + lastNewline + 1;
      events := ParseLines(Split(complete));
      err := false;
    }

    method ParseLines(lines: seq<Bytes>) returns (events: seq<AdapterEvent>)
      modifies this`Armed, this`terminal
      ensures Outcome(View(), events) == Lines(rules, old(View()), lines)
    {
      hide Line, Lines;
      events := [];
      var k := 0;
      assert lines[0..] == lines;
      while k < |lines|
        invariant 0 <= k <= |lines|
        invariant Join(Outcome(View(), events), Lines(rules, View(), lines[k..])) == Lines(rules, old(View()), lines)
      {
        ghost var before := Outcome(View(), events);
        LinesStep(rules, View(), lines[k..]);
        assert lines[k..][0] == lines[k] && lines[k..][1..] == lines[k + 1..];
        var event, ok := ParseLine(lines[k]);
        JoinTwice(before, Outcome(View(), event), Lines(rules, View(), lines[k + 1..]));
        if ok { events := events + event; }
        assert Outcome(View(), events) == Join(before, Outcome(View(), event));
        k := k + 1;
      }
      assert lines[k..] == [];
      NoLines(rules, View());
    }
  }

  // ---- polling a growing file

  /** The part of a text up to its last line feed. */
  function Complete(text: Bytes): Bytes { text[..LastIndexLf(text) + 1] }

  /** Text after complete lines is read as if it came in a text of its own. */
  lemma {:induction false} FeedAppend(ru: Rules, c: Cursor, a: Bytes, b: Bytes)
    requires Whole(a)
    ensures Feed(ru, c, a + b) == Join(Feed(ru, c, a), Feed(ru, Feed(ru, c, a).cursor, b))
    decreases |a|
  {
    hide Feed, Line;
    if a == [] {
      FeedNothing(ru, c, a);
      assert a + b == b;
    } else {
      var i := IndexLf(a);
      assert (a + b)[..i] == a[..i] && (a + b)[i + 1..] == a[i + 1..] + b;
      FeedStep(ru, c, a + b, i);
      FeedStep(ru, c, a, i);
      var first := Line(ru, c, a[..i]);
      FeedAppend(ru, first.cursor, a[i + 1..], b);
      var one := Feed(ru, first.cursor, a[i + 1..]);
      JoinTwice(first, one, Feed(ru, one.cursor, b));
    }
  }

  /** The position of the cursor has no influence on the lines it parses. */
  lemma {:induction false} FeedMoves(ru: Rules, c: Cursor, o: int, text: Bytes)
    ensures Feed(ru, c.(offset := o), text) == Outcome(Feed(ru, c, text).cursor.(offset := o), Feed(ru, c, text).events)
    decreases |text|
  {
    var i := IndexLf(text);
    if i < |text| { FeedMoves(ru, Line(ru, c, text[..i]).cursor, o, text[i + 1..]); }
  }

  lemma {:induction false} FeedKeepsOffset(ru: Rules, c: Cursor, text: Bytes)
    ensures Feed(ru, c, text).cursor.offset == c.offset
    decreases |text|
  {
    var i := IndexLf(text);
    if i < |text| { FeedKeepsOffset(ru, Line(ru, c, text[..i]).cursor, text[i + 1..]); }
  }

  lemma FeedComplete(ru: Rules, c: Cursor, a: Bytes, tail: Bytes)
    requires Whole(a) && NoLf(tail, 0, |tail|)
    ensures Feed(ru, c, a + tail) == Feed(ru, c, a)
  {
    hide Feed;
    FeedAppend(ru, c, a, tail);
    FeedNothing(ru, Feed(ru, c, a).cursor, tail);
  }

  lemma ReadComplete(ru: Rules, c: Cursor, f: Bytes, a: Bytes, tail: Bytes)
    requires 0 <= c.offset <= |f| && f[c.offset..] == a + tail
    requires Whole(a) && NoLf(tail, 0, |tail|) && LastIndexLf(a + tail) == |a| - 1
    ensures Read(ru, c, f) == Feed(ru, c.(offset := c.offset + |a|), a)
  {
    hide Feed, LastIndexLf;
    FeedComplete(ru, c.(offset := c.offset + |a|), a, tail);
  }

  /** A reading that starts inside the file parses its complete lines and stops
      behind the last of them. */
  lemma ReadShape(ru: Rules, c: Cursor, f: Bytes)
    requires 0 <= c.offset <= |f|
    ensures var a := Complete(f[c.offset..]);
      && Read(ru, c, f) == Feed(ru, c.(offset := c.offset + |a|), a)
      && Read(ru, c, f).cursor.offset == c.offset + |a|
  {
    var d := f[c.offset..];
    CompleteEnds(d);
    hide Feed, Read, LastIndexLf, Complete;
    var a := Complete(d);
    assert d == a + d[|a|..];
    ReadComplete(ru, c, f, a, d[|a|..]);
    FeedKeepsOffset(ru, c.(offset := c.offset + |a|), a);
  }

  lemma CompleteEnds(b: Bytes)
    ensures Complete(b) <= b && |Complete(b)| == LastIndexLf(b) + 1
    ensures Whole(Complete(b)) && NoLf(b[|Complete(b)|..], 0, |b[|Complete(b)|..]|)
  {
    hide LastIndexLf, NoLf;
    TailNoLf(b, LastIndexLf(b) + 1);
  }

  lemma LastLfAppend(a: Bytes, b: Bytes)
    requires Whole(a)
    ensures LastIndexLf(a + b) == |a| + LastIndexLf(b)
  {
    hide LastIndexLf;
    var w, n, l := a + b, |a|, LastIndexLf(b);
    assert n + l >= 0 ==> w[n + l] == LF by {
      if l >= 0 { assert w[n + l] == b[l]; }
    }
    forall k | n + l + 1 <= k < |w| ensures w[k] != LF { assert w[k] == b[k - n]; }
    LastLf(w, n + l);
  }

  lemma TakeAppend(a: Bytes, b: Bytes, k: nat)
    requires k <= |b|
    ensures (a + b)[..|a| + k] == a + b[..k]
  {
  }

  lemma CompleteAppend(a: Bytes, b: Bytes)
    requires Whole(a)
    ensures Complete(a + b) == a + Complete(b)
  {
    hide LastIndexLf, Whole;
    LastLfAppend(a, b);
    TakeAppend(a, b, LastIndexLf(b) + 1);
  }

  lemma FeedTwice(ru: Rules, c: Cursor, o1: int, end: int, a: Bytes, b: Bytes)
    requires Whole(a)
    ensures var one := Feed(ru, c.(offset := o1), a);
      Join(one, Feed(ru, one.cursor.(offset := end), b)) == Feed(ru, c.(offset := end), a + b)
  {
    hide Feed;
    FeedAppend(ru, c.(offset := end), a, b);
    FeedMoves(ru, c.(offset := o1), end, a);
  }

  /** A reading followed by another after the file has grown is one reading. */
  lemma TwoReadingsAreOne(ru: Rules, c: Cursor, f: Bytes, g: Bytes)
    requires f <= g && 0 <= c.offset <= |f|
    ensures Join(Read(ru, c, f), Read(ru, Read(ru, c, f).cursor, g)) == Read(ru, c, g)
  {
    hide Feed, Read, Complete, Join;
    var o, a, one := c.offset, Complete(f[c.offset..]), Read(ru, c, f);
    CompleteEnds(f[o..]);
    var o1 := o + |a|;
    var b := Complete(g[o1..]);
    ReadShape(ru, c, f);
    ReadShape(ru, one.cursor, g);
    ReadShape(ru, c, g);
    assert g[o..] == a + g[o1..] by { assert g[o..][..|a|] == f[o..][..|a|]; }
    CompleteAppend(a, g[o1..]);
    FeedTwice(ru, c, o1, o1 + |b|, a, b);
  }

  /** Readings of successive states of the file, their events joined. */
  function Polls(ru: Rules, c: Cursor, files: seq<Bytes>): Outcome
    decreases |files|
  {
    if files == [] then Outcome(c, [])
    else
      var first := Read(ru, c, files[0]);
      Join(first, Polls(ru, first.cursor, files[1..]))
  }

  ghost predicate AppendOnly(files: seq<Bytes>) {
    forall i, j :: 0 <= i <= j < |files| ==> files[i] <= files[j]
  }

  lemma ReadStaysInside(ru: Rules, c: Cursor, data: Bytes)
    ensures 0 <= Read(ru, c, data).cursor.offset <= |data|
  {
    var o := Start(c, data);
    FeedKeepsOffset(ru, c.(offset := o + LastIndexLf(data[o..]) + 1), data[o..]);
  }

  lemma {:induction false} PollsFromInside(ru: Rules, c: Cursor, files: seq<Bytes>)
    requires files != [] && AppendOnly(files) && 0 <= c.offset <= |files[0]|
    ensures Polls(ru, c, files) == Read(ru, c, files[|files| - 1])
    decreases |files|
  {
    hide Read, Join;
    var first, last := Read(ru, c, files[0]), files[|files| - 1];
    if |files| == 1 {
      JoinNothing(first);
      assert Polls(ru, first.cursor, files[1..]) == Outcome(first.cursor, []);
    } else {
      ReadStaysInside(ru, c, files[0]);
      assert files[0] <= files[1];
      forall i, j | 0 <= i <= j < |files[1..]| ensures files[1..][i] <= files[1..][j] {
        assert files[i + 1] <= files[j + 1];
      }
      PollsFromInside(ru, first.cursor, files[1..]);
      TwoReadingsAreOne(ru, c, files[0], last);
    }
  }

  /** Only the restart position of a stale offset matters to a reading. */
  lemma ReadFromStart(ru: Rules, c: Cursor, data: Bytes)
    ensures Read(ru, c, data) == Read(ru, c.(offset := Start(c, data)), data)
  {
  }

  /** The position a watch starts from is at most the length of the first file it
      sees, or more than the length of the last one. */
  predicate OffsetFits(offset: int, first: nat, last: nat) { offset <= first || offset > last }

  lemma PollingIsBatch(ru: Rules, c: Cursor, files: seq<Bytes>)
    requires files != [] && AppendOnly(files)
    requires OffsetFits(c.offset, |files[0]|, |files[|files| - 1]|)
    ensures Polls(ru, c, files) == Read(ru, c, files[|files| - 1])
  {
    var o := Start(c, files[0]);
    assert files[0] <= files[|files| - 1];
    ReadFromStart(ru, c, files[0]);
    ReadFromStart(ru, c, files[|files| - 1]);
    PollsFromInside(ru, c.(offset := o), files);
  }

  function Blank(n: nat): Bytes { Repeat(0, n) }

  lemma BlankHasNoLf(n: nat)
    ensures LastIndexLf(Blank(n)) == -1 && forall o :: 0 <= o <= n ==> LastIndexLf(Blank(n)[o..]) == -1
  {
    forall o | 0 <= o <= n ensures LastIndexLf(Blank(n)[o..]) == -1 { LastLf(Blank(n)[o..], -1); }
    assert Blank(n)[0..] == Blank(n);
  }

  /** Polling equals one reading of the final file for all files of given first and
      last lengths exactly when the starting offset fits those lengths. When the
      offset lies between them, the first poll goes back to the beginning although
      the final file would be read from the offset. */
  lemma PollingIsBatchExactly(ru: Rules, c: Cursor, first: nat, last: nat)
    requires first <= last
    ensures OffsetFits(c.offset, first, last) <==>
      forall f, g :: |f| == first && |g| == last && f <= g ==> Polls(ru, c, [f, g]) == Read(ru, c, g)
  {
    if OffsetFits(c.offset, first, last) {
      forall f, g | |f| == first && |g| == last && f <= g ensures Polls(ru, c, [f, g]) == Read(ru, c, g) {
        PollingIsBatch(ru, c, [f, g]);
      }
    } else {
      var f, g := Blank(first), Blank(last);
      assert f <= g;
      BlankHasNoLf(first);
      BlankHasNoLf(last);
      NothingRead(ru, c, g, c.offset);
      NothingRead(ru, c, f, 0);
      NothingRead(ru, c.(offset := 0), g, 0);
      var one := Read(ru, c, f);
      assert [f, g][1..] == [g];
      var two := Read(ru, one.cursor, g);
      OnePoll(ru, one.cursor, g);
      assert Polls(ru, c, [f, g]) != Read(ru, c, g);
    }
  }

  lemma OnePoll(ru: Rules, c: Cursor, g: Bytes)
    ensures Polls(ru, c, [g]) == Read(ru, c, g)
  {
    var files: seq<Bytes> := [g];
    assert files[1..] == [];
  }

  lemma NothingRead(ru: Rules, c: Cursor, data: Bytes, o: nat)
    requires Start(c, data) == o && LastIndexLf(data[o..]) == -1
    ensures Read(ru, c, data) == Outcome(c.(offset := o), [])
  {
    FirstLf(data[o..], |data| - o);
  }

  // ---- what a reading reports

  /** The first position from k on of a line that arms the cursor, or the end. */
  function FirstInput(ru: Rules, lines: seq<Bytes>, k: nat): (i: nat)
    requires k <= |lines|
    ensures k <= i <= |lines| && (i < |lines| ==> Arms(ru, ru.decode(lines[i])))
    ensures forall j :: k <= j < i ==> !Arms(ru, ru.decode(lines[j]))
    decreases |lines| - k
  {
    if k == |lines| || Arms(ru, ru.decode(lines[k])) then k else FirstInput(ru, lines, k + 1)
  }

  /** The first position from k on of a terminal record, or the end. */
  function FirstTerminal(ru: Rules, lines: seq<Bytes>, k: nat): (i: nat)
    requires k <= |lines|
    ensures k <= i <= |lines| && (i < |lines| ==> Ends(ru.decode(lines[i])))
    ensures forall j :: k <= j < i ==> !Ends(ru.decode(lines[j]))
    decreases |lines| - k
  {
    if k == |lines| || Ends(ru.decode(lines[k])) then k else FirstTerminal(ru, lines, k + 1)
  }

  /** The report of the first terminal record from k on. */
  function ReportFrom(ru: Rules, lines: seq<Bytes>, k: nat): seq<AdapterEvent>
    requires k <= |lines|
  {
    var b := FirstTerminal(ru, lines, k);
    if b == |lines| then [] else Report(ru, ru.decode(lines[b]))
  }

  /** Reference: the report of the first terminal record after the first line from k
      on that carries the submitted input. */
  function Expected(ru: Rules, lines: seq<Bytes>, k: nat): seq<AdapterEvent>
    requires k <= |lines|
  {
    var a := FirstInput(ru, lines, k);
    if a == |lines| then [] else ReportFrom(ru, lines, a + 1)
  }

  lemma {:induction false} DoneIsSilent(ru: Rules, c: Cursor, lines: seq<Bytes>)
    requires c.terminal
    ensures Lines(ru, c, lines).events == []
    decreases lines
  {
    if lines != [] { DoneIsSilent(ru, Line(ru, c, lines[0]).cursor, lines[1..]); }
  }

  lemma {:induction false} ArmedReports(ru: Rules, c: Cursor, lines: seq<Bytes>, k: nat)
    requires k <= |lines| && c.armed && !c.terminal
    ensures Lines(ru, c, lines[k..]).events == ReportFrom(ru, lines, k)
    decreases |lines| - k
  {
    if k < |lines| {
      LinesStep(ru, c, lines[k..]);
      assert lines[k..][0] == lines[k] && lines[k..][1..] == lines[k + 1..];
      hide Lines;
      if Ends(ru.decode(lines[k])) {
        DoneIsSilent(ru, c.(terminal := true), lines[k + 1..]);
      } else {
        ArmedReports(ru, c, lines, k + 1);
      }
    }
  }

  lemma {:induction false} UnarmedReports(ru: Rules, c: Cursor, lines: seq<Bytes>, k: nat)
    requires k <= |lines| && !c.armed && !c.terminal
    ensures Lines(ru, c, lines[k..]).events == Expected(ru, lines, k)
    decreases |lines| - k
  {
    if k < |lines| {
      LinesStep(ru, c, lines[k..]);
      assert lines[k..][0] == lines[k] && lines[k..][1..] == lines[k + 1..];
      hide Lines, ReportFrom;
      if Arms(ru, ru.decode(lines[k])) {
        ArmedReports(ru, c.(armed := true), lines, k + 1);
      } else {
        UnarmedReports(ru, c, lines, k + 1);
      }
    }
  }

  /** What one reading of a file by a new cursor reports. */
  lemma FreshReadReports(ru: Rules, c: Cursor, data: Bytes)
    requires !c.armed && !c.terminal
    ensures Read(ru, c, data).events == Expected(ru, LinesFrom(data, Start(c, data)), 0)
  {
    hide Read, Lines, Expected, LinesFrom, LastIndexLf;
    ReadByLines(ru, c, data);
    var o := Start(c, data);
    var lines := LinesFrom(data, o);
    assert lines[0..] == lines;
    UnarmedReports(ru, c.(offset := o + LastIndexLf(data[o..]) + 1), lines, 0);
  }

  /** A watch of an append-only file reports exactly what the reference says of the
      final file, so nothing, output then completion, or one abort, and never before
      the submitted line, however the polls cut the file. */
  lemma WatchReportsExpected(ru: Rules, files: seq<Bytes>, offset: int)
    requires files != [] && AppendOnly(files) && OffsetFits(offset, |files[0]|, |files[|files| - 1]|)
    ensures var c, last := Cursor(offset, false, false), files[|files| - 1];
      Polls(ru, c, files).events == Expected(ru, LinesFrom(last, Start(c, last)), 0)
  {
    hide AppendOnly, Read, Polls, Lines, Expected, LinesFrom;
    var c := Cursor(offset, false, false);
    PollingIsBatch(ru, c, files);
    FreshReadReports(ru, c, files[|files| - 1]);
  }

  // ---- what is published, said of the decoded lines

  /** Line a is the first that carries the submitted input. */
  ghost predicate FirstInputAt(ru: Rules, lines: seq<Bytes>, a: nat) {
    && a < |lines| && ru.decode(lines[a]).UserMessage? && ru.isInput(ru.decode(lines[a]).text)
    && forall j :: 0 <= j < a ==> !(ru.decode(lines[j]).UserMessage? && ru.isInput(ru.decode(lines[j]).text))
  }

  ghost predicate EndsTurn(ru: Rules, line: Bytes) {
    && ru.decode(line).EventMsg? && ru.decode(line).turnID != ""
    && (ru.decode(line).payload.TaskComplete? || ru.decode(line).payload.TurnAborted?)
  }

  /** Line b is the first after line a that ends a turn. */
  ghost predicate FirstEndAt(ru: Rules, lines: seq<Bytes>, a: nat, b: nat) {
    a < b < |lines| && EndsTurn(ru, lines[b]) && forall j :: a < j < b ==> !EndsTurn(ru, lines[j])
  }

  /** The final message and completion, or the abort, of the first end of a turn after
      the first line with the input; nothing if there is none. */
  ghost predicate PublishedFor(ru: Rules, lines: seq<Bytes>, events: seq<AdapterEvent>) {
    && (forall a: nat, b: nat :: FirstInputAt(ru, lines, a) && FirstEndAt(ru, lines, a, b) ==>
          match ru.decode(lines[b]).payload
          case TaskComplete(final) => events == [Output(final), Completed]
          case TurnAborted(reason) => events == [Aborted(ru.safe(reason))]
          case OtherPayload => false)
    && ((forall a: nat, b: nat :: !(FirstInputAt(ru, lines, a) && FirstEndAt(ru, lines, a, b))) ==> events == [])
  }

  lemma ExpectedIsPublished(ru: Rules, lines: seq<Bytes>)
    ensures PublishedFor(ru, lines, Expected(ru, lines, 0))
  {
    var x := FirstInput(ru, lines, 0);
    forall a: nat, b: nat | FirstInputAt(ru, lines, a) && FirstEndAt(ru, lines, a, b)
      ensures x == a && FirstTerminal(ru, lines, a + 1) == b
    {
      InputIsFirst(ru, lines, a);
      EndIsFirst(ru, lines, a, b);
    }
    if x < |lines| {
      assert FirstInputAt(ru, lines, x);
      var y := FirstTerminal(ru, lines, x + 1);
      if y < |lines| { assert FirstEndAt(ru, lines, x, y); }
    }
  }

  lemma InputIsFirst(ru: Rules, lines: seq<Bytes>, a: nat)
    requires FirstInputAt(ru, lines, a)
    ensures FirstInput(ru, lines, 0) == a
  {
    var x := FirstInput(ru, lines, 0);
    assert Arms(ru, ru.decode(lines[a]));
    assert x < |lines| ==> Arms(ru, ru.decode(lines[x]));
  }

  lemma EndIsFirst(ru: Rules, lines: seq<Bytes>, a: nat, b: nat)
    requires FirstEndAt(ru, lines, a, b)
    ensures FirstTerminal(ru, lines, a + 1) == b
  {
    var y := FirstTerminal(ru, lines, a + 1);
    assert Ends(ru.decode(lines[b]));
    assert y < |lines| ==> EndsTurn(ru, lines[y]);
  }

  /** Every watch of an append-only file whose offset fits publishes what the complete
      lines of the final file call for, however the polls cut it. */
  lemma WatchPublishes(ru: Rules, files: seq<Bytes>, offset: int, lines: seq<Bytes>)
    requires files != [] && AppendOnly(files) && OffsetFits(offset, |files[0]|, |files[|files| - 1]|)
    requires var last := files[|files| - 1];
      CompleteLines(if offset < 0 || offset > |last| then last else last[offset..], lines)
    ensures PublishedFor(ru, lines, Polls(ru, Cursor(offset, false, false), files).events)
  {
    hide Polls, Expected, PublishedFor, CompleteLines, LinesFrom, AppendOnly;
    WatchReportsExpected(ru, files, offset);
    var c, last := Cursor(offset, false, false), files[|files| - 1];
    var o := Start(c, last);
    assert last[0..] == last;
    LinesFromAreComplete(last, o);
    CompleteLinesAreUnique(last[o..], lines, LinesFrom(last, o));
    ExpectedIsPublished(ru, lines);
  }

  // ---- the watcher

  /** Output then completion, or one abort. */
  predicate IsReport(events: seq<AdapterEvent>) {
    || (|events| == 2 && events[0].Output? && events[1].Completed?)
    || (|events| == 1 && events[0].Aborted?)
  }

  lemma {:induction false} FeedReports(ru: Rules, c: Cursor, text: Bytes)
    ensures var r := Feed(ru, c, text);
      if c.terminal then r.cursor.terminal && r.events == []
      else if r.cursor.terminal then IsReport(r.events)
      else r.events == []
    decreases |text|
  {
    var i := IndexLf(text);
    if i < |text| {
      FeedStep(ru, c, text, i);
      FeedReports(ru, Line(ru, c, text[..i]).cursor, text[i + 1..]);
    } else {
      FeedNothing(ru, c, text);
    }
  }

  lemma ReadReports(ru: Rules, c: Cursor, data: Bytes)
    ensures var r := Read(ru, c, data);
      if c.terminal then r.cursor.terminal && r.events == []
      else if r.cursor.terminal then IsReport(r.events)
      else r.events == []
  {
    hide Feed;
    var o := Start(c, data);
    FeedReports(ru, c.(offset := o + LastIndexLf(data[o..]) + 1), data[o..]);
  }

  lemma {:induction false} PollsAfterTerminal(ru: Rules, c: Cursor, files: seq<Bytes>)
    requires c.terminal
    ensures Polls(ru, c, files).events == []
    decreases |files|
  {
    if files != [] {
      hide Read;
      ReadReports(ru, c, files[0]);
      PollsAfterTerminal(ru, Read(ru, c, files[0]).cursor, files[1..]);
    }
  }

  /** What was read of the file, up to the first reading that failed (None). */
  function Readable(polls: seq<Option<Bytes>>): (files: seq<Bytes>)
    ensures |files| <= |polls| && forall k :: 0 <= k < |files| ==> polls[k] == Some(files[k])
    ensures |files| < |polls| ==> polls[|files|].None?
  {
    if polls == [] || polls[0].None? then [] else [polls[0].value] + Readable(polls[1..])
  }

  lemma ReadableStep(polls: seq<Option<Bytes>>, k: nat)
    requires k < |polls|
    ensures Readable(polls[k..]) == if polls[k].None? then [] else [polls[k].value] + Readable(polls[k + 1..])
  {
    assert polls[k..][1..] == polls[k + 1..];
  }

  /** What a watch publishes of a file with these lines; a failed reading is reported if
      it comes before the end of the turn. */
  ghost predicate WatchTells(ru: Rules, lines: seq<Bytes>, failed: bool, published: seq<AdapterEvent>) {
    if failed && PublishedFor(ru, lines, []) then published == [Failed("codex_rollout_read_error")]
    else PublishedFor(ru, lines, published)
  }

  /** watchTranscript for one submission: `polls` are the readings of the file up to
      the moment the watch is cancelled, None standing for a failed one. At most one
      terminal is published, as the last event. What is published of an append-only
      file is what its complete lines call for, as last read. */
  method WatchTranscript(ru: Rules, discovered: bool, offset: int, polls: seq<Option<Bytes>>)
    returns (published: seq<AdapterEvent>)
    ensures published == [] || IsReport(published) || (exists code :: published == [Failed(code)])
    ensures !discovered ==> published == [Failed("codex_rollout_missing")]
    ensures discovered ==>
      var told := Polls(ru, Cursor(offset, false, false), Readable(polls)).events;
      published == if told == [] && |Readable(polls)| < |polls| then [Failed("codex_rollout_read_error")] else told
    ensures discovered && Readable(polls) != [] && AppendOnly(Readable(polls)) ==>
      var first, last := Readable(polls)[0], Readable(polls)[|Readable(polls)| - 1];
      var text, failed := if offset < 0 || offset > |last| then last else last[offset..], |Readable(polls)| < |polls|;
      offset <= |first| || offset > |last| ==>
        forall lines :: CompleteLines(text, lines) ==> WatchTells(ru, lines, failed, published)
  {
    WatchesExpected(ru, offset, polls);
    hide Read, Expected, LinesFrom, WatchTells, CompleteLines, Readable;
    if !discovered { return [Failed("codex_rollout_missing")]; }
    var cursor := new TranscriptCursor(ru, offset);
    ghost var start := cursor.View();
    published := [];
    var k := 0;
    assert polls[0..] == polls;
    while k < |polls|
      invariant 0 <= k <= |polls| && cursor.rules == ru && fresh(cursor)
      invariant published == [] && !cursor.terminal
      invariant Polls(ru, start, Readable(polls)).events == Polls(ru, cursor.View(), Readable(polls[k..])).events
      invariant |Readable(polls)| == k + |Readable(polls[k..])|
    {
      ghost var before := cursor.View();
      ReadableStep(polls, k);
      var events, err := cursor.ReadNew(polls[k]);
      if err {
        assert Readable(polls[k..]) == [];
        return [Failed("codex_rollout_read_error")];
      }
      ReadReports(ru, before, polls[k].value);
      assert Readable(polls[k..])[1..] == Readable(polls[k + 1..]);
      var i := 0;
      while i < |events|
        invariant 0 <= i <= |events| && published == events[..i]
        invariant forall j :: 0 <= j < i ==> !IsTerminal(events[j])
      {
        published := published + [events[i]];
        if IsTerminal(events[i]) {
          assert published == events;
          PollsAfterTerminal(ru, cursor.View(), Readable(polls[k + 1..]));
          return;
        }
        i := i + 1;
      }
      assert events == [];
      k := k + 1;
    }
    assert Readable(polls[k..]) == [];
  }

  lemma WatchesExpected(ru: Rules, offset: int, polls: seq<Option<Bytes>>)
    ensures var files := Readable(polls);
      files != [] && AppendOnly(files) && OffsetFits(offset, |files[0]|, |files[|files| - 1]|) ==>
        var last, failed := files[|files| - 1], |files| < |polls|;
        var told := Polls(ru, Cursor(offset, false, false), files).events;
        var text := if offset < 0 || offset > |last| then last else last[offset..];
        var published := if told == [] && failed then [Failed("codex_rollout_read_error")] else told;
        forall lines :: CompleteLines(text, lines) ==> WatchTells(ru, lines, failed, published)
  {
    hide PublishedFor, Polls, CompleteLines, Readable, AppendOnly;
    var files := Readable(polls);
    if files != [] && AppendOnly(files) && OffsetFits(offset, |files[0]|, |files[|files| - 1]|) {
      var last, failed := files[|files| - 1], |files| < |polls|;
      var told := Polls(ru, Cursor(offset, false, false), files).events;
      var text := if offset < 0 || offset > |last| then last else last[offset..];
      var published := if told == [] && failed then [Failed("codex_rollout_read_error")] else told;
      forall lines | CompleteLines(text, lines) ensures WatchTells(ru, lines, failed, published) {
        WatchPublishes(ru, files, offset, lines);
        if told != [] { NotBoth(ru, lines, told); }
      }
    }
  }

  /** Lines that call for a report do not call for none. */
  lemma NotBoth(ru: Rules, lines: seq<Bytes>, events: seq<AdapterEvent>)
    requires PublishedFor(ru, lines, events) && events != []
    ensures !PublishedFor(ru, lines, [])
  {
    var a: nat, b: nat :| FirstInputAt(ru, lines, a) && FirstEndAt(ru, lines, a, b);
    hide FirstInputAt, FirstEndAt;
  }
}
