/** What the byte syntax of UTF-8 and the blank test mean for characters. */
module Utf8Text {
  import opened Base
  import opened InputText
  import opened Utf8Chunks

  /** A Unicode scalar value. */
  predicate Scalar(c: int) { 0 <= c <= 0x10ffff && !(0xd800 <= c <= 0xdfff) }

  type Char = c: int | 0 <= c <= 0x10ffff && !(0xd800 <= c <= 0xdfff)

  /** Section 3 of RFC 3629. */
  function Encode(c: Char): (s: Bytes)
    ensures s != []
  {
    if c < 0x80 then [c]
    else if c < 0x800 then [0xc0 + c / 0x40, 0x80 + c % 0x40]
    else if c < 0x10000 then [0xe0 + c / 0x40 / 0x40, 0x80 + c / 0x40 % 0x40, 0x80 + c % 0x40]
    else [0xf0 + c / 0x40 / 0x40 / 0x40, 0x80 + c / 0x40 / 0x40 % 0x40, 0x80 + c / 0x40 % 0x40, 0x80 + c % 0x40]
  }

  /** The number that the bytes of one character stand for. */
  function Decode(s: Bytes): int
    requires 1 <= |s| <= 4
  {
    var lead: int := s[0];
    if |s| == 1 then lead
    else
      var b: int := s[1];
      if |s| == 2 then (lead - 0xc0) * 0x40 + (b - 0x80)
      else
        var c: int := s[2];
        if |s| == 3 then ((lead - 0xe0) * 0x40 + (b - 0x80)) * 0x40 + (c - 0x80)
        else
          var d: int := s[3];
          (((lead - 0xf0) * 0x40 + (b - 0x80)) * 0x40 + (c - 0x80)) * 0x40 + (d - 0x80)
  }

  /** Every character is written in the syntax, and read back. */
  lemma EncodedIsChar(c: Char, rest: Bytes)
    ensures CharLength(Encode(c) + rest) == |Encode(c)|
    ensures |Encode(c)| <= 4 && Decode(Encode(c)) == c
  {
    Sixes(c);
    if c < 0x800 {
    } else if c < 0x10000 {
      Sixes(c / 0x40);
    } else {
      Sixes(c / 0x40);
      Sixes(c / 0x40 / 0x40);
    }
  }

  lemma Sixes(n: nat)
    ensures n == n / 0x40 * 0x40 + n % 0x40 && 0 <= n % 0x40 < 0x40
  {
  }

  /** What the syntax admits is a character, written the only way it may be. */
  lemma CharIsEncoded(s: Bytes)
    requires CharLength(s) > 0
    ensures var c := s[..CharLength(s)]; Scalar(Decode(c)) && Encode(Decode(c)) == c
  {
    var n := CharLength(s);
    if n == 2 { TwoBytes(s[..2]); }
    else if n == 3 { ThreeBytes(s[..3]); }
    else if n == 4 { FourBytes(s[..4]); }
  }

  lemma TwoBytes(s: Bytes)
    requires |s| == 2 && CharLength(s) == 2
    ensures 0x80 <= Decode(s) < 0x800 && Encode(Decode(s)) == s
  {
    SixesBack(s[0] as int - 0xc0, s[1] as int - 0x80);
  }

  lemma SixesBack(q: nat, r: nat)
    requires r < 0x40
    ensures (q * 0x40 + r) / 0x40 == q && (q * 0x40 + r) % 0x40 == r
  {
  }

  lemma ThreeBytes(s: Bytes)
    requires |s| == 3 && CharLength(s) == 3
    ensures 0x800 <= Decode(s) < 0x10000 && Scalar(Decode(s)) && Encode(Decode(s)) == s
  {
    var q := (s[0] as int - 0xe0) * 0x40 + (s[1] as int - 0x80);
    SixesBack(s[0] as int - 0xe0, s[1] as int - 0x80);
    SixesBack(q, s[2] as int - 0x80);
  }

  lemma FourBytes(s: Bytes)
    requires |s| == 4 && CharLength(s) == 4
    ensures 0x10000 <= Decode(s) <= 0x10ffff && Encode(Decode(s)) == s
  {
    var q := (s[0] as int - 0xf0) * 0x40 + (s[1] as int - 0x80);
    var q' := q * 0x40 + (s[2] as int - 0x80);
    SixesBack(s[0] as int - 0xf0, s[1] as int - 0x80);
    SixesBack(q, s[2] as int - 0x80);
    SixesBack(q', s[3] as int - 0x80);
  }

  function EncodeAll(cs: seq<Char>): Bytes { if cs == [] then [] else Encode(cs[0]) + EncodeAll(cs[1..]) }

  /** Well-formed text is exactly encoded characters. */
  lemma {:induction false} EncodedIsWellFormed(cs: seq<Char>)
    ensures WellFormed(EncodeAll(cs))
    decreases |cs|
  {
    if cs != [] {
      var s, rest := EncodeAll(cs), EncodeAll(cs[1..]);
      EncodedIsChar(cs[0], rest);
      EncodedIsWellFormed(cs[1..]);
      hide Encode, CharLength;
      assert s[|Encode(cs[0])|..] == rest;
    }
  }

  lemma EncodeFirst(s: Bytes, n: nat, c: Char, cs: seq<Char>) returns (r: seq<Char>)
    requires n <= |s| && Encode(c) == s[..n] && EncodeAll(cs) == s[n..]
    ensures EncodeAll(r) == s
  {
    hide Encode;
    r := [c] + cs;
    assert r[1..] == cs;
    assert s[..n] + s[n..] == s;
  }

  lemma FirstChar(s: Bytes) returns (c: Char)
    requires CharLength(s) > 0
    ensures Encode(c) == s[..CharLength(s)]
  {
    CharIsEncoded(s);
    c := Decode(s[..CharLength(s)]);
  }

  lemma RestIsWellFormed(s: Bytes)
    requires WellFormed(s) && s != []
    ensures 0 < CharLength(s) <= |s| && WellFormed(s[CharLength(s)..])
  {
  }

  lemma {:induction false} WellFormedIsEncoded(s: Bytes) returns (cs: seq<Char>)
    requires WellFormed(s)
    ensures EncodeAll(cs) == s
    decreases |s|
  {
    cs := [];
    assert EncodeAll(cs) == [];
    hide CharLength, WellFormed, Encode, EncodeAll;
    if s != [] {
      var n := CharLength(s);
      RestIsWellFormed(s);
      var c := FirstChar(s);
      cs := WellFormedIsEncoded(s[n..]);
      cs := EncodeFirst(s, n, c, cs);
    }
  }

  /** White space to unicode.IsSpace. */
  predicate IsSpace(c: Char) {
    || 0x09 <= c <= 0x0d || c == 0x20 || c == 0x85 || c == 0xa0 || c == 0x1680 || 0x2000 <= c <= 0x200a
    || c == 0x2028 || c == 0x2029 || c == 0x202f || c == 0x205f || c == 0x3000
  }

  lemma SpaceIsPrefix(c: Char, rest: Bytes)
    ensures SpacePrefix(Encode(c) + rest) == if IsSpace(c) then |Encode(c)| else 0
  {
  }

  /** Text is blank exactly when all its characters are white space. */
  lemma {:induction false} BlankIsAllSpace(cs: seq<Char>)
    ensures IsBlank(EncodeAll(cs)) <==> forall i :: 0 <= i < |cs| ==> IsSpace(cs[i])
    decreases |cs|
  {
    if cs != [] {
      var s, rest := EncodeAll(cs), EncodeAll(cs[1..]);
      SpaceIsPrefix(cs[0], rest);
      BlankIsAllSpace(cs[1..]);
      hide Encode, SpacePrefix, IsSpace;
      assert s[|Encode(cs[0])|..] == rest;
      assert forall i :: 0 <= i < |cs[1..]| ==> cs[1..][i] == cs[i + 1];
      assert forall i :: 1 <= i < |cs| ==> cs[i] == cs[1..][i - 1];
    }
  }

  lemma {:induction false} BlankIsWellFormed(s: Bytes)
    requires IsBlank(s)
    ensures WellFormed(s)
    decreases |s|
  {
    if s != [] {
      assert CharLength(s) == SpacePrefix(s);
      hide CharLength, SpacePrefix;
      BlankIsWellFormed(s[SpacePrefix(s)..]);
    }
  }

  /** So the blank inputs, whatever bytes an input may hold, are the white space. */
  lemma BlankIsSpaces(s: Bytes)
    ensures IsBlank(s) <==> exists cs: seq<Char> :: EncodeAll(cs) == s && forall i :: 0 <= i < |cs| ==> IsSpace(cs[i])
  {
    hide IsBlank, IsSpace, Encode;
    if IsBlank(s) {
      BlankIsWellFormed(s);
      var cs := WellFormedIsEncoded(s);
      BlankIsAllSpace(cs);
    } else if cs: seq<Char> :| EncodeAll(cs) == s && forall i :: 0 <= i < |cs| ==> IsSpace(cs[i]) {
      BlankIsAllSpace(cs);
    }
  }
}
