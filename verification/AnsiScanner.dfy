/** Removing terminal control sequences from a line of output. The scanner jumps by
    index; the reference is an automaton that sees one byte at a time. */
module AnsiScanner {
  import opened Base

  const BEL: Byte := 0x07
  const TAB: Byte := 0x09
  const SPACE: Byte := 0x20
  const BACKSLASH: Byte := 0x5c
  const MAX_INT64 := 0x7fff_ffff_ffff_ffff

  // ---- cursor-forward counts

  predicate Digit(b: Byte) { '0' as int <= b <= '9' as int }

  predicate AllDigits(s: Bytes) { forall i :: 0 <= i < |s| ==> Digit(s[i]) }

  function Value(s: Bytes): nat
    requires AllDigits(s)
  {
    if s == [] then 0 else Value(s[..|s| - 1]) * 10 + (s[|s| - 1] - '0' as int)
  }

  /** strconv.Atoi; None is an error, also for a number that needs more than 64 bits. */
  function Atoi(s: Bytes): Option<int> {
    var signed := s != [] && (s[0] == '+' as int || s[0] == '-' as int);
    var negative := s != [] && s[0] == '-' as int;
    var digits := if signed then s[1..] else s;
    if digits == [] || !AllDigits(digits) then None
    else if negative then
      if Value(digits) > MAX_INT64 + 1 then None else Some(0 - Value(digits))
    else
      if Value(digits) > MAX_INT64 then None else Some(Value(digits))
  }

  /** strings.SplitN(s, ";", 2)[0] */
  function BeforeSemicolon(s: Bytes): Bytes {
    if s == [] || s[0] == ';' as int then [] else [s[0]] + BeforeSemicolon(s[1..])
  }

  /** strings.TrimLeft(s, "?><=") */
  function TrimPrivate(s: Bytes): Bytes {
    if s != [] && s[0] in ['?' as int, '>' as int, '<' as int, '=' as int] then TrimPrivate(s[1..]) else s
  }

  function CsiCount(params: Bytes): (n: nat)
    ensures 1 <= n <= 1000
  {
    var count := Atoi(TrimPrivate(BeforeSemicolon(params)));
    if count.None? || count.value <= 0 then 1 else Min(count.value, 1000)
  }

  // ---- the automaton

  /** Where a byte stands: in text, after ESC, in the parameters of a control sequence
      (section 5.4 of ECMA-48), in a control string (section 5.6) or after an ESC in
      it, or in the second byte of a character-set designation. */
  datatype Mode = Ground | Escape | Csi(params: Bytes) | InString | StringEscape | Charset

  datatype Result = Result(mode: Mode, out: Bytes)

  predicate Final(b: Byte) { 0x40 <= b <= 0x7e }

  /** The bytes that text keeps: everything but controls, except tab, CR and LF. */
  predicate Kept(b: Byte) { (b >= 0x20 && b != 0x7f) || b == TAB || b == LF || b == CR }

  predicate OpensString(b: Byte) { b in [']' as int, 'P' as int, 'X' as int, '^' as int, '_' as int] }

  predicate OpensCharset(b: Byte) { b in ['(' as int, ')' as int, '*' as int, '+' as int] }

  function Step(m: Mode, b: Byte): Result {
    match m
    case Ground => if b == ESC then Result(Escape, []) else Result(Ground, if Kept(b) then [b] else [])
    case Escape =>
      if b == '[' as int then Result(Csi([]), [])
      else if OpensString(b) then Result(InString, [])
      else if OpensCharset(b) then Result(Charset, [])
      else Result(Ground, [])
    case Csi(params) =>
      if !Final(b) then Result(Csi(params + [b]), [])
      else Result(Ground, if b == 'C' as int then Repeat(SPACE, CsiCount(params)) else [])
    case InString =>
      if b == BEL then Result(Ground, []) else Result(if b == ESC then StringEscape else InString, [])
    case StringEscape =>
      if b == BEL || b == BACKSLASH then Result(Ground, []) else Result(if b == ESC then StringEscape else InString, [])
    case Charset => Result(Ground, [])
  }

  function Run(m: Mode, s: Bytes): Result
    decreases |s|
  {
    if s == [] then Result(m, [])
    else
      var first := Step(m, s[0]);
      var rest := Run(first.mode, s[1..]);
      Result(rest.mode, first.out + rest.out)
  }

  /** What is left of a line. */
  function Stripped(s: Bytes): Bytes { Run(Ground, s).out }

  // ---- runs over slices

  lemma RunStep(m: Mode, s: Bytes, i: nat)
    requires i < |s|
    ensures var first := Step(m, s[i]); var rest := Run(first.mode, s[i + 1..]);
      Run(m, s[i..]) == Result(rest.mode, first.out + rest.out)
  {
    assert s[i..][0] == s[i] && s[i..][1..] == s[i + 1..];
  }

  /** Parameter bytes are collected up to the final byte. */
  lemma {:induction false} RunParams(params: Bytes, s: Bytes, i: nat, k: nat)
    requires i <= k <= |s| && forall j :: i <= j < k ==> !Final(s[j])
    ensures Run(Csi(params), s[i..]) == Run(Csi(params + s[i..k]), s[k..])
    decreases k - i
  {
    if i == k {
      assert params + s[i..k] == params;
    } else {
      RunStep(Csi(params), s, i);
      RunParams(params + [s[i]], s, i + 1, k);
      assert params + [s[i]] + s[i + 1..k] == params + s[i..k];
    }
  }

  // ---- the scanner

  method FindCsiFinal(s: Bytes, start: nat) returns (final: int)
    requires start <= |s|
    ensures final == -1 ==> forall j :: start <= j < |s| ==> !Final(s[j])
    ensures final != -1 ==> start <= final < |s| && Final(s[final]) && forall j :: start <= j < final ==> !Final(s[j])
  {
    var i := start;
    while i < |s|
      invariant start <= i <= |s| && forall j :: start <= j < i ==> !Final(s[j])
    {
      if Final(s[i]) { return i; }
      i := i + 1;
    }
    return -1;
  }

  method SkipControlString(s: Bytes, start: nat) returns (next: nat)
    requires start <= |s|
    ensures start <= next <= |s|
    ensures Run(InString, s[start..]).out == Stripped(s[next..])
  {
    hide Step;
    var i := start;
    while i < |s|
      invariant start <= i <= |s|
      invariant Run(InString, s[i..]).out == Run(InString, s[start..]).out
    {
      StringStep(s, i);
      if s[i] == BEL {
        return i + 1;
      } else if s[i] == ESC {
        if i + 1 < |s| && s[i + 1] == BACKSLASH { return i + 2; }
      }
      i := i + 1;
    }
    assert s[i..] == [];
    return |s|;
  }

  /** One turn of the scanner's loop over a control string: an ESC that no backslash
      follows leaves the string open. */
  lemma StringStep(s: Bytes, i: nat)
    requires i < |s|
    ensures Run(InString, s[i..]).out ==
      if s[i] == BEL then Stripped(s[i + 1..])
      else if s[i] == ESC && i + 1 < |s| && s[i + 1] == BACKSLASH then Stripped(s[i + 2..])
      else Run(InString, s[i + 1..]).out
  {
    RunStep(InString, s, i);
    if s[i] == ESC {
      if i + 1 < |s| {
        RunStep(StringEscape, s, i + 1);
        RunStep(InString, s, i + 1);
      } else {
        assert s[i + 1..] == [];
      }
    }
  }

  method StripAnsi(s: Bytes) returns (out: Bytes)
    ensures out == Stripped(s)
  {
    NothingLeft();
    hide Run, Step, CsiCount, Stripped, OpensString, OpensCharset;
    out := [];
    var i := 0;
    assert s[0..] == s;
    while i < |s|
      invariant 0 <= i <= |s|
      invariant out + Stripped(s[i..]) == Stripped(s)
      decreases |s| - i
    {
      if s[i] == ESC {
        EscapeStep(s, i);
        if i + 1 >= |s| { return out; }
        if s[i + 1] == '[' as int {
          var final := FindCsiFinal(s, i + 2);
          CsiStep(s, i, final);
          if final < 0 { return out; }
          if s[final] == 'C' as int {
            out := out + Repeat(SPACE, CsiCount(s[i + 2..final]));
          }
          i := final + 1;
        } else if OpensString(s[i + 1]) {
          i := SkipControlString(s, i + 2);
        } else if OpensCharset(s[i + 1]) {
          i := i + Min(3, |s| - i);
        } else {
          i := i + 2;
        }
      } else {
        TextStep(s, i);
        var b := s[i];
        if (b < 0x20 && b != TAB && b != LF && b != CR) || b == 0x7f {
          i := i + 1;
          continue;
        }
        assert out + Stripped(s[i..]) == (out + [b]) + Stripped(s[i + 1..]);
        out := out + [b];
        i := i + 1;
      }
    }
    assert s[i..] == [];
  }

  lemma NothingLeft()
    ensures Stripped([]) == []
  {
  }

  lemma TextStep(s: Bytes, i: nat)
    requires i < |s| && s[i] != ESC
    ensures Stripped(s[i..]) == (if Kept(s[i]) then [s[i]] else []) + Stripped(s[i + 1..])
  {
    RunStep(Ground, s, i);
  }

  lemma EscapeStep(s: Bytes, i: nat)
    requires i < |s| && s[i] == ESC
    ensures i + 1 == |s| ==> Stripped(s[i..]) == []
    ensures i + 1 < |s| && s[i + 1] != '[' as int ==>
      (Stripped(s[i..]) ==
       if OpensString(s[i + 1]) then Run(InString, s[i + 2..]).out
       else if OpensCharset(s[i + 1]) then Stripped(s[i + Min(3, |s| - i)..])
       else Stripped(s[i + 2..]))
  {
    RunStep(Ground, s, i);
    if i + 1 < |s| {
      RunStep(Escape, s, i + 1);
      if OpensCharset(s[i + 1]) {
        if i + 2 < |s| { RunStep(Charset, s, i + 2); }
      }
    }
  }

  lemma CsiStep(s: Bytes, i: nat, final: int)
    requires i + 1 < |s| && s[i] == ESC && s[i + 1] == '[' as int
    requires final == -1 ==> forall j :: i + 2 <= j < |s| ==> !Final(s[j])
    requires final != -1 ==> i + 2 <= final < |s| && Final(s[final]) && forall j :: i + 2 <= j < final ==> !Final(s[j])
    ensures Stripped(s[i..]) ==
      if final == -1 then []
      else (if s[final] == 'C' as int then Repeat(SPACE, CsiCount(s[i + 2..final])) else []) + Stripped(s[final + 1..])
  {
    hide CsiCount;
    RunStep(Ground, s, i);
    RunStep(Escape, s, i + 1);
    var k := if final == -1 then |s| else final;
    RunParams([], s, i + 2, k);
    assert [] + s[i + 2..k] == s[i + 2..k];
    if final != -1 { RunStep(Csi(s[i + 2..k]), s, k); }
  }

  // ---- what it guarantees

  predicate Clean(s: Bytes) { forall i :: 0 <= i < |s| ==> Kept(s[i]) }

  lemma {:induction false} OutputIsClean(m: Mode, s: Bytes)
    ensures Clean(Run(m, s).out)
    decreases |s|
  {
    if s != [] {
      hide CsiCount;
      assert Clean(Step(m, s[0]).out);
      OutputIsClean(Step(m, s[0]).mode, s[1..]);
    }
  }

  lemma {:induction false} CleanIsKept(s: Bytes)
    requires Clean(s)
    ensures Run(Ground, s) == Result(Ground, s)
    decreases |s|
  {
    if s != [] { CleanIsKept(s[1..]); }
  }

  /** No control byte but tab, CR and LF survives, no ESC in particular, and a second
      pass changes nothing. */
  lemma StrippingIsIdempotent(s: Bytes)
    ensures Clean(Stripped(s)) && ESC !in Stripped(s) && Stripped(Stripped(s)) == Stripped(s)
  {
    OutputIsClean(Ground, s);
    CleanIsKept(Stripped(s));
  }

  lemma {:induction false} RunAppend(m: Mode, a: Bytes, b: Bytes)
    ensures var one := Run(m, a); var two := Run(one.mode, b); Run(m, a + b) == Result(two.mode, one.out + two.out)
    decreases |a|
  {
    if a == [] {
      assert a + b == b;
    } else {
      var first := Step(m, a[0]);
      assert (a + b)[1..] == a[1..] + b;
      RunAppend(first.mode, a[1..], b);
      var one := Run(first.mode, a[1..]);
      assert first.out + (one.out + Run(one.mode, b).out) == (first.out + one.out) + Run(one.mode, b).out;
    }
  }

  /** A digit is kept in text and belongs to the sequence everywhere else. */
  lemma DigitKept(m: Mode)
    ensures Run(m, ['0' as int]).out == if m == Ground then ['0' as int] else []
  {
    var b: Bytes := ['0' as int];
    RunStep(m, b, 0);
    assert b[1..] == [] && b[0..] == b;
  }

  /** A line may be stripped piece by piece exactly when it is cut outside control
      sequences. */
  lemma SplitsExactlyAtGround(a: Bytes)
    ensures Run(Ground, a).mode == Ground <==> forall b :: Stripped(a + b) == Stripped(a) + Stripped(b)
  {
    hide Run, Step;
    if Run(Ground, a).mode == Ground {
      forall b ensures Stripped(a + b) == Stripped(a) + Stripped(b) { RunAppend(Ground, a, b); }
    } else {
      var b: Bytes := ['0' as int];
      RunAppend(Ground, a, b);
      DigitKept(Run(Ground, a).mode);
      DigitKept(Ground);
      assert |Stripped(a + b)| != |Stripped(a) + Stripped(b)|;
    }
  }

  lemma {:induction false} OutputIsBounded(m: Mode, s: Bytes)
    ensures |Run(m, s).out| <= 1000 * |s|
    decreases |s|
  {
    if s != [] { OutputIsBounded(Step(m, s[0]).mode, s[1..]); }
  }
}
