/** `hex.EncodeToString`, and why a hex text followed by the 0x1f delimiter can
    be split off again without ambiguity. */
module Hex {
  import opened Common

  const DELIMITER: byte := 0x1f

  function Digit(n: int): (d: byte)
    requires 0 <= n < 16
    ensures d != DELIMITER
  {
    if n < 10 then (48 + n) as byte else (87 + n) as byte
  }

  function Encode(s: bytes): bytes {
    if s == [] then []
    else [Digit(s[0] as int / 16), Digit(s[0] as int % 16)] + Encode(s[1..])
  }

  const DIGITS := "0123456789abcdef"

  lemma DigitIs(n: int)
    requires 0 <= n < 16
    ensures Digit(n) as int == DIGITS[n] as int
  {}

  /** Two lower-case digits for every byte, the high one first. */
  lemma {:induction false} EncodeAt(s: bytes, i: nat)
    requires i < |s|
    ensures |Encode(s)| == 2 * |s|
    ensures Encode(s)[2 * i] as int == DIGITS[s[i] as int / 16] as int
    ensures Encode(s)[2 * i + 1] as int == DIGITS[s[i] as int % 16] as int
  {
    DigitIs(s[i] as int / 16);
    DigitIs(s[i] as int % 16);
    EncodeLength(s);
    if i > 0 {
      EncodeAt(s[1..], i - 1);
    }
  }

  lemma {:induction false} EncodeLength(s: bytes)
    ensures |Encode(s)| == 2 * |s|
  {
    if s != [] {
      EncodeLength(s[1..]);
    }
  }

  lemma {:induction false} EncodeHasNoDelimiter(s: bytes)
    ensures DELIMITER !in Encode(s)
  {
    if s != [] {
      EncodeHasNoDelimiter(s[1..]);
    }
  }

  lemma {:induction false} EncodeInjective(s: bytes, t: bytes)
    requires Encode(s) == Encode(t)
    ensures s == t
  {
    if s == [] || t == [] {
      assert s == t;
    } else {
      var es, et := Encode(s), Encode(t);
      assert es[0] == et[0] && es[1] == et[1];
      assert s[0] as int / 16 == t[0] as int / 16 && s[0] as int % 16 == t[0] as int % 16;
      assert s[0] == t[0];
      assert es[2..] == Encode(s[1..]) && et[2..] == Encode(t[1..]);
      EncodeInjective(s[1..], t[1..]);
      assert s == [s[0]] + s[1..] && t == [t[0]] + t[1..];
    }
  }

  /** Reads a preimage back: everything before the first delimiter, and
      everything after it. */
  function Split(s: bytes): (bytes, bytes) {
    if s == [] then ([], [])
    else if s[0] == DELIMITER then ([], s[1..])
    else var (head, body) := Split(s[1..]); ([s[0]] + head, body)
  }

  /** `head + [0x1f] + body` decodes to its two parts as long as the head has no
      delimiter of its own; the body may contain anything. */
  lemma {:induction false} SplitJoin(head: bytes, body: bytes)
    requires DELIMITER !in head
    ensures Split(head + [DELIMITER] + body) == (head, body)
  {
    var s := head + [DELIMITER] + body;
    if head == [] {
      assert s[1..] == body;
    } else {
      assert s[1..] == head[1..] + [DELIMITER] + body;
      SplitJoin(head[1..], body);
      assert s[0] == head[0] && head == [head[0]] + head[1..];
    }
  }
}
