/**
 * `encodeURIComponent` and `decodeURIComponent` (ECMAScript): every
 * character outside the unreserved marks is written as the percent
 * escapes of its UTF-8 bytes, two upper-case hexadecimal digits each
 * (section 2.1 of RFC 3986).
 */
module Uri {
  import opened Wrappers
  import opened Utf8

  /** The characters `encodeURIComponent` leaves as they are. */
  predicate IsUnreserved(c: char)
  {
    ('A' <= c <= 'Z') || ('a' <= c <= 'z') || ('0' <= c <= '9')
    || c == '-' || c == '_' || c == '.' || c == '!' || c == '~' || c == '*' || c == '\'' || c == '(' || c == ')'
  }

  /** An upper-case hexadecimal digit. */
  function HexChar(d: int): (c: char)
    requires 0 <= d < 16
    ensures IsHex(c) && HexValue(c) == d
  {
    if d < 10 then ('0' as int + d) as char else ('A' as int + d - 10) as char
  }

  predicate IsHex(c: char)
  {
    ('0' <= c <= '9') || ('A' <= c <= 'F') || ('a' <= c <= 'f')
  }

  function HexValue(c: char): (d: int)
    requires IsHex(c)
    ensures 0 <= d < 16
  {
    if '0' <= c <= '9' then c as int - '0' as int
    else if 'A' <= c <= 'F' then c as int - 'A' as int + 10
    else c as int - 'a' as int + 10
  }

  /** The percent escapes of a byte string. */
  function Escapes(b: seq<Byte>): (r: string)
    ensures |r| == 3 * |b|
  {
    if b == [] then [] else ['%', HexChar(b[0] / 16), HexChar(b[0] % 16)] + Escapes(b[1..])
  }

  /** One character as `encodeURIComponent` writes it. */
  function EncodeChar(c: char): string
  {
    if IsUnreserved(c) then [c] else Escapes(Utf8.EncodeChar(c))
  }

  /** `encodeURIComponent(s)`. */
  function Encode(s: string): string
  {
    if s == [] then [] else EncodeChar(s[0]) + Encode(s[1..])
  }

  /**
   * The bytes a component stands for: an escape is its byte, any other
   * character its UTF-8 bytes; `None` for a `%` not followed by two
   * hexadecimal digits.
   */
  function Bytes(s: string): Option<seq<Byte>>
    decreases |s|
  {
    if s == [] then Some([])
    else if s[0] == '%' then
      if |s| >= 3 && IsHex(s[1]) && IsHex(s[2]) then
        match Bytes(s[3..])
        case None => None
        case Some(rest) => Some([HexValue(s[1]) * 16 + HexValue(s[2])] + rest)
      else None
    else
      match Bytes(s[1..])
      case None => None
      case Some(rest) => Some(Utf8.EncodeChar(s[0]) + rest)
  }

  /** `decodeURIComponent(s)`, `None` where it throws a `URIError`. */
  function Decode(s: string): Option<string>
  {
    match Bytes(s)
    case None => None
    case Some(b) => Utf8.Decode(b)
  }

  lemma {:induction false} BytesOfEscapes(b: seq<Byte>, rest: string)
    ensures Bytes(Escapes(b) + rest) ==
      match Bytes(rest)
      case None => None
      case Some(r) => Some(b + r)
  {
    if b != [] {
      var t := Escapes(b) + rest;
      assert t[..3] == ['%', HexChar(b[0] / 16), HexChar(b[0] % 16)];
      assert t[3..] == Escapes(b[1..]) + rest;
      assert t[0] == '%' && IsHex(t[1]) && IsHex(t[2]);
      BytesOfEscapes(b[1..], rest);
      assert HexValue(t[1]) * 16 + HexValue(t[2]) == b[0];
      match Bytes(rest)
      case None =>
      case Some(r) =>
        assert [b[0]] + (b[1..] + r) == b + r;
    } else {
      assert Escapes(b) + rest == rest;
      assert forall r: seq<Byte> :: b + r == r;
    }
  }

  /** Reading an encoded component back gives the UTF-8 bytes of the text. */
  lemma {:induction false} BytesOfEncode(s: string)
    ensures Bytes(Encode(s)) == Some(Utf8.Encode(s))
  {
    if s != [] {
      var c := s[0];
      BytesOfEncode(s[1..]);
      if IsUnreserved(c) {
        assert ([c] + Encode(s[1..]))[1..] == Encode(s[1..]);
      } else {
        BytesOfEscapes(Utf8.EncodeChar(c), Encode(s[1..]));
      }
    }
  }

  /** `decodeURIComponent(encodeURIComponent(s)) === s`. */
  lemma DecodeEncode(s: string)
    ensures Decode(Encode(s)) == Some(s)
  {
    BytesOfEncode(s);
    Utf8.DecodeEncode(s);
  }

  /** An encoded component holds only unreserved characters, `%` and hexadecimal digits. */
  lemma {:induction false} EncodeIsSafe(s: string)
    ensures forall i :: 0 <= i < |Encode(s)| ==> IsUnreserved(Encode(s)[i]) || Encode(s)[i] == '%'
  {
    if s != [] {
      EncodeIsSafe(s[1..]);
      var e := EncodeChar(s[0]);
      EscapesAreSafe(Utf8.EncodeChar(s[0]));
      assert forall i :: 0 <= i < |e| ==> IsUnreserved(e[i]) || e[i] == '%';
      var r := Encode(s[1..]);
      assert forall i :: 0 <= i < |e + r| ==> (e + r)[i] == if i < |e| then e[i] else r[i - |e|];
    }
  }

  lemma {:induction false} EscapesAreSafe(b: seq<Byte>)
    ensures forall i :: 0 <= i < |Escapes(b)| ==> IsUnreserved(Escapes(b)[i]) || Escapes(b)[i] == '%'
  {
    if b != [] {
      EscapesAreSafe(b[1..]);
      var h := ['%', HexChar(b[0] / 16), HexChar(b[0] % 16)];
      var r := Escapes(b[1..]);
      assert forall i :: 0 <= i < |h + r| ==> (h + r)[i] == if i < 3 then h[i] else r[i - 3];
    }
  }
}
