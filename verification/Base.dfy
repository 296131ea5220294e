/** Vocabulary shared by every module: optional values and raw bytes. */
module Base {

  datatype Option<+T> = None | Some(value: T)

  /** One octet of a Go string or []byte. */
  type Byte = b: int | 0 <= b < 256

  type Bytes = seq<Byte>

  const LF: Byte := 0x0a
  const CR: Byte := 0x0d
  const ESC: Byte := 0x1b

  function Min(a: int, b: int): int { if a <= b then a else b }

  function Max(a: int, b: int): int { if a <= b then b else a }

  /** n copies of one byte. */
  function Repeat(b: Byte, n: nat): (r: Bytes)
    ensures |r| == n && forall i :: 0 <= i < n ==> r[i] == b
  {
    seq(n, _ => b)
  }

  /** How often b occurs in s. */
  function Count(s: Bytes, b: Byte): nat {
    if s == [] then 0 else (if s[0] == b then 1 else 0) + Count(s[1..], b)
  }

  lemma {:induction false} CountAppend(s: Bytes, t: Bytes, b: Byte)
    ensures Count(s + t, b) == Count(s, b) + Count(t, b)
  {
    if s == [] {
      assert s + t == t;
    } else {
      assert (s + t)[1..] == s[1..] + t;
      CountAppend(s[1..], t, b);
    }
  }

  lemma {:induction false} CountRepeat(b: Byte, n: nat)
    ensures Count(Repeat(b, n), b) == n
  {
    if n > 0 {
      assert Repeat(b, n)[1..] == Repeat(b, n - 1);
      CountRepeat(b, n - 1);
    }
  }

  lemma {:induction false} CountAbsent(s: Bytes, b: Byte)
    requires b !in s
    ensures Count(s, b) == 0
  {
    if s != [] {
      CountAbsent(s[1..], b);
    }
  }
}
