/** Cutting input into chunks for the terminal without cutting a character. */
module Utf8Chunks {
  import opened Base

  const INPUT_CHUNK_BYTES := 4096

  // ---- UTF-8

  predicate Tail(b: Byte) { 0x80 <= b < 0xc0 }

  /** utf8.RuneStart */
  predicate RuneStart(b: Byte) { !Tail(b) }

  /** Length of the character s starts with, 0 if its bytes form none: the syntax of
      section 4 of RFC 3629. */
  function CharLength(s: Bytes): (n: nat)
    ensures n <= |s| && n <= 4
    ensures n > 0 ==> RuneStart(s[0]) && forall i :: 0 < i < n ==> Tail(s[i])
  {
    if s == [] then 0
    else if s[0] < 0x80 then 1
    else if 0xc2 <= s[0] < 0xe0 then
      if |s| >= 2 && Tail(s[1]) then 2 else 0
    else if 0xe0 <= s[0] < 0xf0 then
      var low := if s[0] == 0xe0 then 0xa0 else 0x80;
      var high := if s[0] == 0xed then 0x9f else 0xbf;
      if |s| >= 3 && low <= s[1] <= high && Tail(s[2]) then 3 else 0
    else if 0xf0 <= s[0] < 0xf5 then
      var low := if s[0] == 0xf0 then 0x90 else 0x80;
      var high := if s[0] == 0xf4 then 0x8f else 0xbf;
      if |s| >= 4 && low <= s[1] <= high && Tail(s[2]) && Tail(s[3]) then 4 else 0
    else 0
  }

  /** The size utf8.DecodeRuneInString reports: 1 for a byte that starts no character. */
  function RuneSize(s: Bytes): (n: nat)
    requires s != []
    ensures 1 <= n <= |s| && n <= 4
  {
    if CharLength(s) > 0 then CharLength(s) else 1
  }

  predicate WellFormed(s: Bytes)
    decreases |s|
  {
    s == [] || (CharLength(s) > 0 && WellFormed(s[CharLength(s)..]))
  }

  /** A character boundary: the end, or a byte that is not a continuation. */
  predicate Boundary(s: Bytes, k: nat) { k == |s| || (k < |s| && RuneStart(s[k])) }

  lemma PrefixLength(s: Bytes, k: nat)
    requires 0 < CharLength(s) <= k <= |s|
    ensures CharLength(s[..k]) == CharLength(s)
  {
  }

  /** Well-formed text may be cut at any boundary, and only there: elsewhere neither
      side is well-formed. */
  lemma {:induction false} CutWellFormed(s: Bytes, k: nat)
    requires WellFormed(s) && k <= |s|
    ensures Boundary(s, k) <==> WellFormed(s[..k])
    ensures Boundary(s, k) <==> WellFormed(s[k..])
    decreases |s|
  {
    var n := CharLength(s);
    if k == 0 {
      assert s[..k] == [] && s[k..] == s;
    } else if k < n {
      PrefixCut(s, k);
    } else {
      CutWellFormed(s[n..], k - n);
      PrefixLength(s, k);
      assert s[..k][n..] == s[n..][..k - n] && s[k..] == s[n..][k - n..];
    }
  }

  /** A character cut short is no character. */
  lemma PrefixCut(s: Bytes, k: nat)
    requires 0 < k < CharLength(s)
    ensures CharLength(s[..k]) == 0 && CharLength(s[k..]) == 0
  {
  }

  // ---- the cut

  /** Effective chunk size. */
  function Limit(maxBytes: int): (n: nat)
    ensures n >= 1
  {
    if maxBytes <= 0 then INPUT_CHUNK_BYTES else maxBytes
  }

  /** The highest boundary in 1..k, or 0. */
  function BoundaryUpTo(s: Bytes, k: nat): (n: nat)
    requires k <= |s|
    ensures n <= k && (n > 0 ==> Boundary(s, n)) && forall i :: n < i <= k ==> !Boundary(s, i)
  {
    if k == 0 || Boundary(s, k) then k else BoundaryUpTo(s, k - 1)
  }

  /** Length of the next chunk: up to the highest boundary within the limit, or else
      the character or stray byte at the front. */
  function ChunkLength(s: Bytes, limit: nat): (n: nat)
    requires s != [] && limit >= 1
    ensures 1 <= n <= |s| && n <= Max(limit, 4)
  {
    var n := BoundaryUpTo(s, Min(limit, |s|));
    if n == 0 then RuneSize(s) else n
  }

  function Chunks(s: Bytes, limit: nat): seq<Bytes>
    requires limit >= 1
    decreases |s|
  {
    if s == [] then []
    else
      var n := ChunkLength(s, limit);
      [s[..n]] + Chunks(s[n..], limit)
  }

  lemma ChunksStep(s: Bytes, limit: nat)
    requires s != [] && limit >= 1
    ensures var n := ChunkLength(s, limit); Chunks(s, limit) == [s[..n]] + Chunks(s[n..], limit)
  {
  }

  lemma NextChunk(input: Bytes, start: nat, end: nat, limit: nat)
    requires start < |input| && limit >= 1 && end == start + ChunkLength(input[start..], limit)
    ensures end <= |input| && Chunks(input[start..], limit) == [input[start..end]] + Chunks(input[end..], limit)
  {
    hide Chunks, ChunkLength;
    var rest := input[start..];
    ChunksStep(rest, limit);
    assert rest[..end - start] == input[start..end] && rest[end - start..] == input[end..];
  }

  /** splitUTF8Chunks */
  method Split(input: Bytes, maxBytes: int) returns (chunks: seq<Bytes>)
    ensures chunks == Chunks(input, if maxBytes <= 0 then 4096 else maxBytes)
  {
    hide CharLength, RuneSize, Chunks;
    var limit := Limit(maxBytes);
    NoChunks(limit);
    chunks := [];
    if input == [] { return; }
    assert input[0..] == input;
    var start := 0;
    while start < |input|
      invariant 0 <= start <= |input|
      invariant chunks + Chunks(input[start..], limit) == Chunks(input, limit)
    {
      ghost var rest := input[start..];
      var end := Min(start + limit, |input|);
      while end < |input| && end > start && Tail(input[end])
        invariant start <= end <= Min(start + limit, |input|)
        invariant BoundaryUpTo(rest, end - start) == BoundaryUpTo(rest, Min(limit, |rest|))
        decreases end
      {
        end := end - 1;
      }
      if end == start {
        var size := RuneSize(input[start..]);
        end := start + size;
      }
      assert end - start == ChunkLength(rest, limit);
      NextChunk(input, start, end, limit);
      assert chunks + Chunks(rest, limit) == (chunks + [input[start..end]]) + Chunks(input[end..], limit);
      chunks := chunks + [input[start..end]];
      start := end;
    }
    assert input[start..] == [];
  }

  lemma NoChunks(limit: nat)
    requires limit >= 1
    ensures Chunks([], limit) == []
  {
  }

  // ---- what the chunks are

  function Joined(chunks: seq<Bytes>): Bytes {
    if chunks == [] then [] else chunks[0] + Joined(chunks[1..])
  }

  /** For any bytes: the chunks are non-empty, bounded, and the input again when joined. */
  lemma {:induction false} ChunksAreLossless(s: Bytes, limit: nat)
    requires limit >= 1
    ensures Joined(Chunks(s, limit)) == s
    ensures forall i :: 0 <= i < |Chunks(s, limit)| ==> 1 <= |Chunks(s, limit)[i]| <= Max(limit, 4)
    decreases |s|
  {
    if s != [] {
      var n := ChunkLength(s, limit);
      ChunksAreLossless(s[n..], limit);
      assert Chunks(s, limit)[1..] == Chunks(s[n..], limit);
      assert s == s[..n] + s[n..];
    }
  }

  /** A well-formed text is cut at a character boundary, and with room for any
      character within the limit too. */
  lemma ChunkIsWellFormed(s: Bytes, limit: nat)
    requires s != [] && WellFormed(s) && limit >= 1
    ensures var n := ChunkLength(s, limit);
      WellFormed(s[..n]) && WellFormed(s[n..]) && (limit >= 4 ==> n <= limit)
  {
    var n, c := ChunkLength(s, limit), CharLength(s);
    assert Boundary(s, c) by {
      if c < |s| { assert CharLength(s[c..]) > 0; }
    }
    if BoundaryUpTo(s, Min(limit, |s|)) == 0 {
      assert n == c;
    }
    CutWellFormed(s, n);
  }

  /** For well-formed text every chunk is well-formed, and within the limit if the
      limit leaves room for any character. */
  lemma {:induction false} ChunksAreWellFormed(s: Bytes, limit: nat)
    requires WellFormed(s) && limit >= 1
    ensures forall i :: 0 <= i < |Chunks(s, limit)| ==>
      WellFormed(Chunks(s, limit)[i]) && (limit >= 4 ==> |Chunks(s, limit)[i]| <= limit)
    decreases |s|
  {
    if s != [] {
      ChunkIsWellFormed(s, limit);
      ChunksAreWellFormed(s[ChunkLength(s, limit)..], limit);
    }
  }

  /** No chunk could have been longer: with the next character it would exceed the limit. */
  lemma {:induction false} ChunksAreGreedy(s: Bytes, limit: nat, i: nat)
    requires WellFormed(s) && limit >= 4 && i + 1 < |Chunks(s, limit)|
    ensures |Chunks(s, limit)[i]| + CharLength(Chunks(s, limit)[i + 1]) > limit
    decreases |s|
  {
    var n := ChunkLength(s, limit);
    ChunkIsWellFormed(s, limit);
    if i > 0 {
      ChunksAreGreedy(s[n..], limit, i - 1);
    } else {
      var rest := s[n..];
      ChunkIsWellFormed(rest, limit);
      var c := CharLength(rest);
      var chunk := rest[..ChunkLength(rest, limit)];
      assert CharLength(chunk) == c by { FirstCharFits(rest, limit); }
      if c < |rest| { assert CharLength(rest[c..]) > 0; }
      assert Boundary(s, n + c);
    }
  }

  lemma FirstCharFits(s: Bytes, limit: nat)
    requires s != [] && WellFormed(s) && limit >= 4
    ensures CharLength(s[..ChunkLength(s, limit)]) == CharLength(s)
  {
    var c, n := CharLength(s), ChunkLength(s, limit);
    if c < |s| { assert CharLength(s[c..]) > 0; }
    assert Boundary(s, c);
    PrefixLength(s, n);
  }
}
