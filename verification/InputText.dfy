/** Text preparation that both adapters apply to user input before it is typed
    into a terminal: line-break normalisation and the blank test. */
module InputText {
  import opened Base

  /** strings.ReplaceAll(s, "\r\n", "\n") */
  function ReplaceCrLf(s: Bytes): Bytes {
    if s == [] then []
    else if |s| >= 2 && s[0] == CR && s[1] == LF then [LF] + ReplaceCrLf(s[2..])
    else [s[0]] + ReplaceCrLf(s[1..])
  }

  /** strings.ReplaceAll(s, "\r", "\n") */
  function ReplaceCr(s: Bytes): Bytes {
    if s == [] then []
    else [if s[0] == CR then LF else s[0]] + ReplaceCr(s[1..])
  }

  /** strings.TrimRight(s, "\n") */
  function TrimRightLf(s: Bytes): Bytes {
    if s != [] && s[|s| - 1] == LF then TrimRightLf(s[..|s| - 1]) else s
  }

  /** normalizeAidenInput and normalizeCodexInput have the same body. */
  function Normalize(s: Bytes): Bytes {
    TrimRightLf(ReplaceCr(ReplaceCrLf(s)))
  }

  /** Reference reading: a line break is CR LF, CR or LF, and each becomes one LF. */
  function LineBreaks(s: Bytes): Bytes {
    if s == [] then []
    else if s[0] == CR then [LF] + LineBreaks(if |s| >= 2 && s[1] == LF then s[2..] else s[1..])
    else [s[0]] + LineBreaks(s[1..])
  }

  lemma {:induction false} ReplacementIsLineBreaks(s: Bytes)
    ensures ReplaceCr(ReplaceCrLf(s)) == LineBreaks(s)
  {
    if s != [] {
      var rest := if |s| >= 2 && s[0] == CR && s[1] == LF then s[2..] else s[1..];
      var head: Byte := if |s| >= 2 && s[0] == CR && s[1] == LF then LF else s[0];
      assert ReplaceCrLf(s) == [head] + ReplaceCrLf(rest);
      assert ([head] + ReplaceCrLf(rest))[1..] == ReplaceCrLf(rest);
      ReplacementIsLineBreaks(rest);
    }
  }

  lemma {:induction false} ReplaceCrRemovesCr(s: Bytes)
    ensures CR !in ReplaceCr(s)
  {
    if s != [] { ReplaceCrRemovesCr(s[1..]); }
  }

  lemma {:induction false} TrimRightShape(s: Bytes)
    ensures TrimRightLf(s) <= s
    ensures TrimRightLf(s) == [] || TrimRightLf(s)[|TrimRightLf(s)| - 1] != LF
    ensures forall i :: |TrimRightLf(s)| <= i < |s| ==> s[i] == LF
  {
    if s != [] && s[|s| - 1] == LF {
      TrimRightShape(s[..|s| - 1]);
    }
  }

  lemma {:induction false} CleanIsFixed(s: Bytes)
    requires CR !in s
    ensures ReplaceCrLf(s) == s && ReplaceCr(s) == s
  {
    if s != [] { CleanIsFixed(s[1..]); }
  }

  /** What normalisation promises: the text with every line break written LF and
      the trailing breaks removed; in particular it holds no CR, so a CR on the
      wire is always a submitted Enter. */
  lemma NormalizeContract(s: Bytes)
    ensures CR !in Normalize(s)
    ensures Normalize(s) <= LineBreaks(s)
    ensures forall i :: |Normalize(s)| <= i < |LineBreaks(s)| ==> LineBreaks(s)[i] == LF
    ensures Normalize(s) == [] || Normalize(s)[|Normalize(s)| - 1] != LF
    ensures Normalize(Normalize(s)) == Normalize(s)
  {
    ReplacementIsLineBreaks(s);
    ReplaceCrRemovesCr(ReplaceCrLf(s));
    TrimRightShape(LineBreaks(s));
    var t := Normalize(s);
    hide ReplaceCr, ReplaceCrLf, LineBreaks, TrimRightLf;
    NormalIsFixed(t);
  }

  lemma NormalIsFixed(t: Bytes)
    requires CR !in t && (t == [] || t[|t| - 1] != LF)
    ensures Normalize(t) == t
  {
    CleanIsFixed(t);
    hide ReplaceCr, ReplaceCrLf;
  }

  /** t is the text of an input: its lines with LF breaks, without the trailing breaks. */
  predicate IsText(s: Bytes, t: Bytes) {
    && t <= LineBreaks(s) && (t == [] || t[|t| - 1] != LF)
    && forall i :: |t| <= i < |LineBreaks(s)| ==> LineBreaks(s)[i] == LF
  }

  /** Every input has exactly one text, and normalisation finds it. */
  lemma TextIsNormalized(s: Bytes, t: Bytes)
    ensures IsText(s, t) <==> t == Normalize(s)
  {
    NormalizeContract(s);
    var n, l := Normalize(s), LineBreaks(s);
    hide Normalize, LineBreaks;
    assert n != [] ==> l[|n| - 1] != LF;
    if IsText(s, t) {
      assert t != [] ==> l[|t| - 1] != LF;
      assert |t| == |n|;
    }
  }

  /** What a reading of line breaks is: text up to a break stays, CR LF is one break, and
      so is a CR that no LF follows. */
  lemma {:induction false} LineBreaksReads(a: Bytes, rest: Bytes)
    requires CR !in a
    ensures LineBreaks(a) == a
    ensures LineBreaks(a + [CR, LF] + rest) == a + [LF] + LineBreaks(rest)
    ensures rest == [] || rest[0] != LF ==> LineBreaks(a + [CR] + rest) == a + [LF] + LineBreaks(rest)
  {
    if a == [] {
      assert [] + [CR, LF] + rest == [CR] + ([LF] + rest) && ([CR] + ([LF] + rest))[2..] == rest;
      assert [] + [CR] + rest == [CR] + rest && ([CR] + rest)[1..] == rest;
    } else {
      LineBreaksReads(a[1..], rest);
      assert (a + [CR, LF] + rest)[1..] == a[1..] + [CR, LF] + rest;
      assert (a + [CR] + rest)[1..] == a[1..] + [CR] + rest;
    }
  }

  /** Length of the white-space character s starts with, 0 if none: the code
      points of unicode.IsSpace in their UTF-8 form. */
  function SpacePrefix(s: Bytes): (n: nat)
    ensures n <= |s| && n <= 3
  {
    if s == [] then 0
    else if 0x09 <= s[0] <= 0x0d || s[0] == 0x20 then 1
    else if |s| >= 2 && s[0] == 0xc2 && (s[1] == 0x85 || s[1] == 0xa0) then 2
    else if |s| >= 3 && s[..3] == [0xe1, 0x9a, 0x80] then 3
    else if |s| >= 3 && s[0] == 0xe2 && s[1] == 0x80
         && (0x80 <= s[2] <= 0x8a || s[2] == 0xa8 || s[2] == 0xa9 || s[2] == 0xaf) then 3
    else if |s| >= 3 && s[..3] == [0xe2, 0x81, 0x9f] then 3
    else if |s| >= 3 && s[..3] == [0xe3, 0x80, 0x80] then 3
    else 0
  }

  /** strings.TrimSpace(s) == "" */
  predicate IsBlank(s: Bytes) {
    s == [] || (SpacePrefix(s) > 0 && IsBlank(s[SpacePrefix(s)..]))
  }
}
