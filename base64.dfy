/**
 * Base 64 encoding with the standard alphabet and `=` padding (section 4
 * of RFC 4648), as `Buffer.prototype.toString("base64")` writes it, and
 * the decoder that reads it back.
 */
module Base64 {
  import opened Wrappers
  import opened Utf8

  /** The character for a six-bit value (Table 1 of RFC 4648). */
  function Char(d: int): (c: char)
    requires 0 <= d < 64
    ensures IsAlphabet(c) && Index(c) == d
  {
    if d < 26 then ('A' as int + d) as char
    else if d < 52 then ('a' as int + d - 26) as char
    else if d < 62 then ('0' as int + d - 52) as char
    else if d == 62 then '+'
    else '/'
  }

  predicate IsAlphabet(c: char)
  {
    ('A' <= c <= 'Z') || ('a' <= c <= 'z') || ('0' <= c <= '9') || c == '+' || c == '/'
  }

  /** The six-bit value of an alphabet character. */
  function Index(c: char): (d: int)
    requires IsAlphabet(c)
    ensures 0 <= d < 64
  {
    if 'A' <= c <= 'Z' then c as int - 'A' as int
    else if 'a' <= c <= 'z' then c as int - 'a' as int + 26
    else if '0' <= c <= '9' then c as int - '0' as int + 52
    else if c == '+' then 62
    else 63
  }

  /** Three bytes as four characters. */
  function EncodeGroup(b0: Byte, b1: Byte, b2: Byte): (r: string)
    ensures |r| == 4
  {
    [Char(b0 / 4), Char(b0 % 4 * 16 + b1 / 16), Char(b1 % 16 * 4 + b2 / 64), Char(b2 % 64)]
  }

  /** The final one or two bytes, padded with `=` to four characters. */
  function EncodeTail(b: seq<Byte>): (r: string)
    requires 1 <= |b| <= 2
    ensures |r| == 4
  {
    if |b| == 1 then [Char(b[0] / 4), Char(b[0] % 4 * 16), '=', '=']
    else [Char(b[0] / 4), Char(b[0] % 4 * 16 + b[1] / 16), Char(b[1] % 16 * 4), '=']
  }

  /** The encoding of a byte string. */
  function Encode(b: seq<Byte>): (r: string)
    ensures |r| == (|b| + 2) / 3 * 4
  {
    if |b| == 0 then []
    else if |b| < 3 then EncodeTail(b)
    else EncodeGroup(b[0], b[1], b[2]) + Encode(b[3..])
  }

  /** Four alphabet characters as three bytes. */
  function DecodeGroup(s: string): (r: seq<Byte>)
    requires |s| == 4 && forall i :: 0 <= i < 4 ==> IsAlphabet(s[i])
    ensures |r| == 3
  {
    var c0, c1, c2, c3 := Index(s[0]), Index(s[1]), Index(s[2]), Index(s[3]);
    [c0 * 4 + c1 / 16, c1 % 16 * 16 + c2 / 4, c2 % 4 * 64 + c3]
  }

  /**
   * The bytes of a padded encoding, `None` when its length is not a
   * multiple of four, a character is outside the alphabet, or padding
   * appears other than at the end of the last group.
   */
  function Decode(s: string): (r: Option<seq<Byte>>)
  {
    if |s| == 0 then Some([])
    else if |s| < 4 then None
    else if |s| == 4 && s[2] == '=' && s[3] == '=' && IsAlphabet(s[0]) && IsAlphabet(s[1]) then
      Some([Index(s[0]) * 4 + Index(s[1]) / 16])
    else if |s| == 4 && s[3] == '=' && IsAlphabet(s[0]) && IsAlphabet(s[1]) && IsAlphabet(s[2]) then
      Some([Index(s[0]) * 4 + Index(s[1]) / 16, Index(s[1]) % 16 * 16 + Index(s[2]) / 4])
    else if forall i :: 0 <= i < 4 ==> IsAlphabet(s[i]) then
      match Decode(s[4..])
      case None => None
      case Some(rest) => Some(DecodeGroup(s[..4]) + rest)
    else None
  }

  lemma DecodeEncodeGroup(b0: Byte, b1: Byte, b2: Byte)
    ensures DecodeGroup(EncodeGroup(b0, b1, b2)) == [b0, b1, b2]
  {
    var c0, c1, c2, c3 := b0 / 4, b0 % 4 * 16 + b1 / 16, b1 % 16 * 4 + b2 / 64, b2 % 64;
    assert c1 / 16 == b0 % 4 && c1 % 16 == b1 / 16;
    assert c2 / 4 == b1 % 16 && c2 % 4 == b2 / 64;
  }

  lemma DecodeEncodeTail(b: seq<Byte>)
    requires 1 <= |b| <= 2
    ensures Decode(EncodeTail(b)) == Some(b)
  {
    if |b| == 2 {
      var c1, c2 := b[0] % 4 * 16 + b[1] / 16, b[1] % 16 * 4;
      assert c1 / 16 == b[0] % 4 && c1 % 16 == b[1] / 16;
      assert c2 / 4 == b[1] % 16;
      var s := EncodeTail(b);
      assert Index(s[0]) == b[0] / 4 && Index(s[1]) == c1 && Index(s[2]) == c2;
      assert s[2] != '=';
      assert Decode(s) == Some([b[0], b[1]]);
      assert [b[0], b[1]] == b;
    } else {
      var s := EncodeTail(b);
      assert Index(s[0]) == b[0] / 4 && Index(s[1]) == b[0] % 4 * 16;
      assert b[0] % 4 * 16 / 16 == b[0] % 4;
      assert Decode(s) == Some([b[0]]);
      assert [b[0]] == b;
    }
  }

  /** A full group of alphabet characters followed by more text decodes group by group. */
  lemma DecodeFullGroup(g: string, rest: string)
    requires |g| == 4 && IsAlphabet(g[0]) && IsAlphabet(g[1]) && IsAlphabet(g[2]) && IsAlphabet(g[3])
    ensures Decode(g + rest) == match Decode(rest)
      case None => None
      case Some(tail) => Some(DecodeGroup(g) + tail)
  {
    var s := g + rest;
    assert s[..4] == g && s[4..] == rest;
    assert s[0] == g[0] && s[1] == g[1] && s[2] == g[2] && s[3] == g[3];
  }

  /** Decoding reads back every byte string encoding wrote. */
  lemma {:induction false} DecodeEncode(b: seq<Byte>)
    ensures Decode(Encode(b)) == Some(b)
    decreases |b|
  {
    if |b| == 0 {
    } else if |b| < 3 {
      DecodeEncodeTail(b);
    } else {
      DecodeEncode(b[3..]);
      DecodeEncodeStep(b);
    }
  }

  /** One full group more: the first three bytes come back ahead of the rest. */
  lemma DecodeEncodeStep(b: seq<Byte>)
    requires |b| >= 3 && Decode(Encode(b[3..])) == Some(b[3..])
    ensures Decode(Encode(b)) == Some(b)
  {
    var g, rest := EncodeGroup(b[0], b[1], b[2]), Encode(b[3..]);
    assert Encode(b) == g + rest;
    DecodeFullGroup(g, rest);
    DecodeEncodeGroup(b[0], b[1], b[2]);
    SplitThree(b);
  }

  /** A byte string is its first three bytes followed by the rest. */
  lemma SplitThree(b: seq<Byte>)
    requires |b| >= 3
    ensures [b[0], b[1], b[2]] + b[3..] == b
  {
    assert b[..3] == [b[0], b[1], b[2]];
    assert b[..3] + b[3..] == b;
  }

  /** Every character of an encoding is in the alphabet or is padding, and padding only ends it. */
  lemma {:induction false} EncodeAlphabet(b: seq<Byte>)
    ensures forall i :: 0 <= i < |Encode(b)| ==> IsAlphabet(Encode(b)[i]) || Encode(b)[i] == '='
    ensures forall i :: 0 <= i < |Encode(b)| && Encode(b)[i] == '=' ==> i >= |Encode(b)| - 2
    decreases |b|
  {
    if |b| >= 3 {
      EncodeAlphabet(b[3..]);
      var g, rest := EncodeGroup(b[0], b[1], b[2]), Encode(b[3..]);
      assert Encode(b) == g + rest;
      forall i | 0 <= i < |g + rest|
        ensures IsAlphabet((g + rest)[i]) || (g + rest)[i] == '='
        ensures (g + rest)[i] == '=' ==> i >= |g + rest| - 2
      {
        if i >= 4 {
          assert (g + rest)[i] == rest[i - 4];
        }
      }
    }
  }
}
