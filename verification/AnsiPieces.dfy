/** What a line of terminal output is made of, and that stripping it leaves what its
    pieces show. */
module AnsiPieces {
  import opened Base
  import opened AnsiScanner

  /** A byte of text, a control byte, a control sequence, a control string ended by BEL
      or by ESC \, a character-set designation, or another escape pair. */
  datatype Piece =
    | Text(b: Byte)
    | Control(b: Byte)
    | Sequence(params: Bytes, final: Byte)
    | ControlString(opener: Byte, body: Bytes, bell: bool)
    | Designation(kind: Byte, charset: Byte)
    | Pair(b: Byte)

  predicate IsOpener(b: Byte) { b in [0x5d, 0x50, 0x58, 0x5e, 0x5f] }    // ] P X ^ _

  predicate IsDesignator(b: Byte) { 0x28 <= b <= 0x2b }                   // ( ) * +

  predicate IsText(b: Byte) { b in [0x09, 0x0a, 0x0d] || (b >= 0x20 && b != 0x7f) }

  /** Holds neither BEL nor ESC \. */
  predicate Unended(body: Bytes) {
    0x07 !in body && forall i :: 0 <= i < |body| - 1 ==> !(body[i] == 0x1b && body[i + 1] == 0x5c)
  }

  predicate IsPiece(p: Piece) {
    match p
    case Text(b) => IsText(b)
    case Control(b) => !IsText(b) && b != 0x1b
    case Sequence(params, final) => 0x40 <= final <= 0x7e && forall b :: b in params ==> !(0x40 <= b <= 0x7e)
    case ControlString(opener, body, _) => IsOpener(opener) && Unended(body)
    case Designation(kind, _) => IsDesignator(kind)
    case Pair(b) => b != 0x5b && !IsOpener(b) && !IsDesignator(b)
  }

  function Wire(p: Piece): (s: Bytes)
    ensures s != []
  {
    match p
    case Text(b) => [b]
    case Control(b) => [b]
    case Sequence(params, final) => [0x1b, 0x5b] + params + [final]
    case ControlString(opener, body, bell) => [0x1b, opener] + body + if bell then [0x07] else [0x1b, 0x5c]
    case Designation(kind, charset) => [0x1b, kind, charset]
    case Pair(b) => [0x1b, b]
  }

  /** Text is shown, cursor-forward is shown as spaces, and nothing else is. */
  function Shows(p: Piece): Bytes {
    match p
    case Text(b) => [b]
    case Sequence(params, final) => if final == 0x43 then Repeat(0x20, CsiCount(params)) else []
    case _ => []
  }

  /** A piece that the line ends in the middle of: of an escape pair, a control sequence,
      a control string or a designation. */
  predicate IsCut(tail: Bytes) {
    || tail == [] || tail == [0x1b]
    || (|tail| >= 2 && tail[0] == 0x1b
        && (|| (tail[1] == 0x5b && forall i :: 2 <= i < |tail| ==> !(0x40 <= tail[i] <= 0x7e))
            || (IsOpener(tail[1]) && Unended(tail[2..]))
            || (IsDesignator(tail[1]) && |tail| == 2)))
  }

  function AllWire(ps: seq<Piece>): Bytes { if ps == [] then [] else Wire(ps[0]) + AllWire(ps[1..]) }

  function AllShown(ps: seq<Piece>): Bytes { if ps == [] then [] else Shows(ps[0]) + AllShown(ps[1..]) }

  ghost predicate Parses(s: Bytes, ps: seq<Piece>, tail: Bytes) {
    s == AllWire(ps) + tail && IsCut(tail) && forall i :: 0 <= i < |ps| ==> IsPiece(ps[i])
  }

  // ---- one piece

  /** A control string runs to its end, whatever its body is. */
  lemma {:induction false} StringSkips(s: Bytes, i: nat, end: nat)
    requires i <= end <= |s| && forall j :: i <= j < end ==> s[j] != BEL
    requires forall j :: i <= j < end && j + 1 < |s| ==> !(s[j] == ESC && s[j + 1] == BACKSLASH)
    ensures Run(InString, s[i..]).out == Run(InString, s[end..]).out
    decreases end - i
  {
    if i < end {
      hide Run, Step;
      StringStep(s, i);
      StringSkips(s, i + 1, end);
    }
  }

  lemma StringPiece(p: Piece, rest: Bytes)
    requires IsPiece(p) && p.ControlString?
    ensures Stripped(Wire(p) + rest) == Stripped(rest)
  {
    hide Run, Step;
    var s, end := Wire(p) + rest, 2 + |p.body|;
    EscapeStep(s, 0);
    assert s[0..] == s;
    assert forall j :: 2 <= j < end ==> s[j] == p.body[j - 2];
    StringSkips(s, 2, end);
    StringStep(s, end);
    if p.bell { assert s[end + 1..] == rest; } else { assert s[end + 2..] == rest; }
  }

  lemma SequencePiece(p: Piece, rest: Bytes)
    requires IsPiece(p) && p.Sequence?
    ensures Stripped(Wire(p) + rest) == Shows(p) + Stripped(rest)
  {
    hide Run, Step, CsiCount;
    var s, final := Wire(p) + rest, 2 + |p.params|;
    assert s[0..] == s;
    forall j | 2 <= j < final ensures !Final(s[j]) { assert s[j] == p.params[j - 2] && p.params[j - 2] in p.params; }
    CsiStep(s, 0, final);
    assert s[2..final] == p.params && s[final + 1..] == rest;
  }

  lemma ShortPiece(p: Piece, rest: Bytes)
    requires IsPiece(p) && !p.ControlString? && !p.Sequence?
    ensures Stripped(Wire(p) + rest) == Shows(p) + Stripped(rest)
  {
    hide Run, Step;
    var s := Wire(p) + rest;
    assert s[0..] == s && s[|Wire(p)|..] == rest;
    if p.Text? || p.Control? { TextStep(s, 0); } else { EscapeStep(s, 0); }
  }

  lemma PieceStrips(p: Piece, rest: Bytes)
    requires IsPiece(p)
    ensures Stripped(Wire(p) + rest) == Shows(p) + Stripped(rest)
  {
    if p.ControlString? { StringPiece(p, rest); }
    else if p.Sequence? { SequencePiece(p, rest); }
    else { ShortPiece(p, rest); }
  }

  /** An unfinished piece shows nothing. */
  lemma CutStrips(tail: Bytes)
    requires IsCut(tail)
    ensures Stripped(tail) == []
  {
    if tail == [] { return; }
    hide Run, Step;
    assert tail[0..] == tail;
    EscapeStep(tail, 0);
    if |tail| >= 2 {
      if tail[1] == 0x5b { CsiStep(tail, 0, -1); }
      else if IsOpener(tail[1]) {
        assert forall j :: 2 <= j < |tail| ==> tail[j] == tail[2..][j - 2];
        StringSkips(tail, 2, |tail|);
        NoString();
        assert tail[|tail|..] == [];
      } else {
        NothingLeft();
        assert tail[2..] == [];
      }
    }
  }

  lemma NoString()
    ensures Run(InString, []).out == []
  {
  }

  // ---- a line

  /** Whatever pieces a line is made of, stripping it leaves what they show. */
  lemma {:induction false} PiecesStrip(s: Bytes, ps: seq<Piece>, tail: Bytes)
    requires Parses(s, ps, tail)
    ensures Stripped(s) == AllShown(ps)
    decreases |ps|
  {
    hide Stripped, Wire, Shows, IsCut, IsPiece;
    if ps == [] {
      assert s == tail;
      CutStrips(tail);
    } else {
      var rest := AllWire(ps[1..]) + tail;
      assert s == Wire(ps[0]) + rest;
      assert forall i :: 0 <= i < |ps[1..]| ==> ps[1..][i] == ps[i + 1];
      PieceStrips(ps[0], rest);
      PiecesStrip(rest, ps[1..], tail);
    }
  }

  /** Every line is made of pieces. */
  lemma {:induction false} EveryLineParses(s: Bytes) returns (ps: seq<Piece>, tail: Bytes)
    ensures Parses(s, ps, tail)
    decreases |s|
  {
    if IsCut(s) {
      ps, tail := [], s;
    } else {
      var p, rest := FirstPiece(s);
      var qs, t := EveryLineParses(rest);
      ps, tail := [p] + qs, t;
      assert ps[1..] == qs;
      assert Wire(p) + (AllWire(qs) + t) == (Wire(p) + AllWire(qs)) + t;
    }
  }

  lemma FirstPiece(s: Bytes) returns (p: Piece, rest: Bytes)
    requires !IsCut(s)
    ensures IsPiece(p) && s == Wire(p) + rest && |rest| < |s|
  {
    if s[0] != 0x1b {
      p, rest := if IsText(s[0]) then Text(s[0]) else Control(s[0]), s[1..];
    } else if s[1] == 0x5b {
      p, rest := FirstSequence(s);
    } else if IsOpener(s[1]) {
      p, rest := FirstString(s);
    } else if IsDesignator(s[1]) {
      p, rest := Designation(s[1], s[2]), s[3..];
    } else {
      p, rest := Pair(s[1]), s[2..];
    }
  }

  lemma FirstSequence(s: Bytes) returns (p: Piece, rest: Bytes)
    requires !IsCut(s) && s[0] == 0x1b && s[1] == 0x5b
    ensures IsPiece(p) && s == Wire(p) + rest && |rest| < |s|
  {
    var k := 2;
    while !(0x40 <= s[k] <= 0x7e)
      invariant 2 <= k < |s| && forall i :: 2 <= i < k ==> !(0x40 <= s[i] <= 0x7e)
      decreases |s| - k
    {
      assert exists i :: 2 <= i < |s| && 0x40 <= s[i] <= 0x7e;
      k := k + 1;
    }
    p, rest := Sequence(s[2..k], s[k]), s[k + 1..];
  }

  /** Where the body of a control string ends. */
  lemma StringEnd(s: Bytes) returns (k: nat)
    requires |s| >= 2 && !Unended(s[2..])
    ensures 2 <= k < |s| && Unended(s[2..k])
    ensures s[k] == 0x07 || (k + 1 < |s| && s[k] == 0x1b && s[k + 1] == 0x5c)
  {
    k := 2;
    while k < |s| && s[k] != 0x07 && !(k + 1 < |s| && s[k] == 0x1b && s[k + 1] == 0x5c)
      invariant 2 <= k <= |s| && Unended(s[2..k])
      invariant k < |s| && k > 2 ==> !(s[k - 1] == 0x1b && s[k] == 0x5c)
    {
      assert s[2..k + 1] == s[2..k] + [s[k]];
      k := k + 1;
    }
    assert k < |s| by { assert s[2..|s|] == s[2..]; }
  }

  lemma FirstString(s: Bytes) returns (p: Piece, rest: Bytes)
    requires !IsCut(s) && s[0] == 0x1b && IsOpener(s[1])
    ensures IsPiece(p) && s == Wire(p) + rest && |rest| < |s|
  {
    var k := StringEnd(s);
    hide Unended;
    p := ControlString(s[1], s[2..k], s[k] == 0x07);
    var end := if s[k] == 0x07 then k + 1 else k + 2;
    rest := s[end..];
    assert s[k..end] == if s[k] == 0x07 then [0x07] else [0x1b, 0x5c];
    assert s[..2] == [0x1b, s[1]];
    assert s == s[..2] + s[2..k] + s[k..end] + s[end..];
  }

  // ---- cursor-forward

  /** n as it is written. */
  function Decimal(n: nat): (s: Bytes)
    ensures s != []
  {
    (if n < 10 then [] else Decimal(n / 10)) + [0x30 + n % 10]
  }

  lemma {:induction false} DecimalValue(n: nat)
    ensures AllDigits(Decimal(n)) && Value(Decimal(n)) == n
  {
    var s := Decimal(n);
    if n >= 10 { DecimalValue(n / 10); }
    assert s[..|s| - 1] == if n < 10 then [] else Decimal(n / 10);
  }

  predicate IsPrivate(b: Byte) { b in [0x3c, 0x3d, 0x3e, 0x3f] }   // < = > ?

  lemma {:induction false} BeforeReads(word: Bytes, rest: Bytes)
    requires 0x3b !in word && (rest == [] || rest[0] == 0x3b)
    ensures BeforeSemicolon(word + rest) == word
    decreases |word|
  {
    if word == [] {
      assert word + rest == rest;
    } else {
      assert (word + rest)[1..] == word[1..] + rest;
      BeforeReads(word[1..], rest);
    }
  }

  lemma {:induction false} TrimReads(private: Bytes, word: Bytes)
    requires forall i :: 0 <= i < |private| ==> IsPrivate(private[i])
    requires word == [] || !IsPrivate(word[0])
    ensures TrimPrivate(private + word) == word
    decreases |private|
  {
    if private == [] {
      assert private + word == word;
    } else {
      assert (private + word)[1..] == private[1..] + word;
      TrimReads(private[1..], word);
    }
  }

  /** The first parameter, after private markers, is what counts. */
  lemma FirstParameter(private: Bytes, word: Bytes, rest: Bytes)
    requires forall i :: 0 <= i < |private| ==> IsPrivate(private[i])
    requires 0x3b !in word && (word == [] || !IsPrivate(word[0])) && (rest == [] || rest[0] == 0x3b)
    ensures var count := Atoi(word);
      CsiCount(private + word + rest) == if count.None? || count.value <= 0 then 1 else Min(count.value, 1000)
  {
    TrimReads(private, word);
    BeforeReads(private + word, rest);
  }

  /** A number moves by itself, at most 1000, and by 1 if it is 0 or takes more than 64 bits. */
  lemma CountReads(private: Bytes, n: nat, rest: Bytes)
    requires forall i :: 0 <= i < |private| ==> IsPrivate(private[i])
    requires rest == [] || rest[0] == 0x3b
    ensures CsiCount(private + Decimal(n) + rest) ==
      if n == 0 || n > 0x7fff_ffff_ffff_ffff then 1 else if n > 1000 then 1000 else n
  {
    DecimalValue(n);
    hide Decimal, CsiCount, Atoi, Value;
    var word := Decimal(n);
    forall i | 0 <= i < |word| ensures Digit(word[i]) && word[i] != 0x3b { }
    FirstParameter(private, word, rest);
    NumberIsRead(word);
  }

  lemma NumberIsRead(word: Bytes)
    requires word != [] && AllDigits(word)
    ensures Atoi(word) == if Value(word) > MAX_INT64 then None else Some(Value(word))
  {
    assert Digit(word[0]);
    hide Value;
  }

  /** Without a number, or with something else in its place, the cursor moves by 1. */
  lemma CountDefaults(private: Bytes, word: Bytes, rest: Bytes)
    requires forall i :: 0 <= i < |private| ==> IsPrivate(private[i])
    requires 0x3b !in word && (word == [] || !IsPrivate(word[0])) && (rest == [] || rest[0] == 0x3b)
    requires word == [] || exists i :: 0 <= i < |word| && !Digit(word[i]) && (i == 0 ==> word[0] != 0x2b)
    ensures CsiCount(private + word + rest) == 1
  {
    FirstParameter(private, word, rest);
    if word != [] && AllDigits(word[1..]) {
      var i :| 0 <= i < |word| && !Digit(word[i]) && (i == 0 ==> word[0] != 0x2b);
      assert i > 0 ==> word[1..][i - 1] == word[i];
    }
  }
}
