/**
 * `JSON.stringify` on the values the tools serialise (RFC 8259 text as
 * ECMAScript produces it), and the string-content grammar of section 7 of
 * RFC 8259 read back, so that quoting a string is shown to lose nothing.
 */
module Json {
  import opened Wrappers
  import opened JsValue
  import Text

  /** A lower-case hexadecimal digit, as `JSON.stringify`'s `\u00XX` escapes use. */
  function HexDigit(d: nat): (c: char)
    requires d < 16
    ensures IsHexDigit(c) && HexValue(c) == d
  {
    if d < 10 then ('0' as int + d) as char else ('a' as int + d - 10) as char
  }

  predicate IsHexDigit(c: char)
  {
    ('0' <= c <= '9') || ('a' <= c <= 'f') || ('A' <= c <= 'F')
  }

  function HexValue(c: char): (d: nat)
    requires IsHexDigit(c)
    ensures d < 16
  {
    if '0' <= c <= '9' then c as int - '0' as int
    else if 'a' <= c <= 'f' then c as int - 'a' as int + 10
    else c as int - 'A' as int + 10
  }

  /** The escape `JSON.stringify` writes for one character of a string. */
  function EscapeChar(c: char): (r: string)
    ensures |r| >= 1
  {
    if c == '"' then "\\\""
    else if c == '\\' then "\\\\"
    else if c as int == 0x08 then "\\b"
    else if c as int == 0x0C then "\\f"
    else if c == '\n' then "\\n"
    else if c == '\r' then "\\r"
    else if c == '\t' then "\\t"
    else if c as int < 0x20 then ['\\', 'u', '0', '0', HexDigit(c as int / 16), HexDigit(c as int % 16)]
    else [c]
  }

  /** The characters of a string literal between its quotes. */
  function EscapeString(s: string): string
  {
    if s == [] then [] else EscapeChar(s[0]) + EscapeString(s[1..])
  }

  /** A JSON string literal. */
  function Quote(s: string): string
  {
    "\"" + EscapeString(s) + "\""
  }

  /** The character a one-letter escape stands for (RFC 8259, section 7). */
  function SimpleEscape(c: char): Option<char>
  {
    if c == '"' then Some('"')
    else if c == '\\' then Some('\\')
    else if c == '/' then Some('/')
    else if c == 'b' then Some(0x08 as char)
    else if c == 'f' then Some(0x0C as char)
    else if c == 'n' then Some('\n')
    else if c == 'r' then Some('\r')
    else if c == 't' then Some('\t')
    else None
  }

  /**
   * The content of a JSON string literal read back: escapes decoded, a
   * bare quote, a bare control character or a malformed escape refused.
   * A `\u` escape naming a surrogate half is refused too.
   */
  function Unescape(t: string): Option<string>
    decreases |t|
  {
    if t == [] then Some([])
    else if t[0] == '\\' then
      if |t| >= 2 && SimpleEscape(t[1]).Some? then
        match Unescape(t[2..])
        case None => None
        case Some(rest) => Some([SimpleEscape(t[1]).value] + rest)
      else if |t| >= 6 && t[1] == 'u' && IsHexDigit(t[2]) && IsHexDigit(t[3]) && IsHexDigit(t[4]) && IsHexDigit(t[5]) then
        var cp := ((HexValue(t[2]) * 16 + HexValue(t[3])) * 16 + HexValue(t[4])) * 16 + HexValue(t[5]);
        if 0xD800 <= cp < 0xE000 then None
        else
          match Unescape(t[6..])
          case None => None
          case Some(rest) => Some([cp as char] + rest)
      else None
    else if t[0] == '"' || t[0] as int < 0x20 then None
    else
      match Unescape(t[1..])
      case None => None
      case Some(rest) => Some([t[0]] + rest)
  }

  /** Reading one escaped character back yields that character. */
  lemma UnescapeChar(c: char, rest: string)
    ensures Unescape(EscapeChar(c) + rest) ==
      match Unescape(rest)
      case None => None
      case Some(r) => Some([c] + r)
  {
    var t := EscapeChar(c) + rest;
    if c as int < 0x20 && c != '\n' && c != '\r' && c != '\t' && c as int != 0x08 && c as int != 0x0C {
      var hi, lo := c as int / 16, c as int % 16;
      assert t[..6] == ['\\', 'u', '0', '0', HexDigit(hi), HexDigit(lo)];
      assert t[6..] == rest;
      assert ((HexValue(t[2]) * 16 + HexValue(t[3])) * 16 + HexValue(t[4])) * 16 + HexValue(t[5]) == c as int;
    } else if |EscapeChar(c)| == 2 {
      assert t[2..] == rest;
    } else {
      assert t[1..] == rest;
    }
  }

  /** Quoting loses nothing: the content of `Quote(s)` reads back as `s`. */
  lemma {:induction false} EscapeRoundTrip(s: string)
    ensures Unescape(EscapeString(s)) == Some(s)
  {
    if s != [] {
      EscapeRoundTrip(s[1..]);
      UnescapeChar(s[0], EscapeString(s[1..]));
      assert [s[0]] + s[1..] == s;
    }
  }

  /** The escaped content never holds a bare quote, so the literal ends at its closing quote. */
  lemma {:induction false} EscapedHasNoBareQuote(s: string)
    ensures forall i :: 0 <= i < |EscapeString(s)| && EscapeString(s)[i] == '"' ==>
      i > 0 && EscapeString(s)[i - 1] == '\\'
  {
    if s != [] {
      EscapedHasNoBareQuote(s[1..]);
      var e, rest := EscapeChar(s[0]), EscapeString(s[1..]);
      assert EscapeString(s) == e + rest;
      forall i | 0 <= i < |e + rest| && (e + rest)[i] == '"'
        ensures i > 0 && (e + rest)[i - 1] == '\\'
      {
        if i >= |e| {
          assert rest[i - |e|] == '"';
          if i - |e| == 0 {
            assert false;
          }
          assert (e + rest)[i - 1] == rest[i - |e| - 1];
        }
      }
    }
  }

  /** The texts that are there, in order. */
  function Present(ts: seq<Option<string>>): (r: seq<string>)
    ensures |r| <= |ts|
  {
    if ts == [] then []
    else match ts[0]
      case None => Present(ts[1..])
      case Some(t) => [t] + Present(ts[1..])
  }

  /**
   * `JSON.stringify(v)`: `None` for `undefined` (the call returns
   * `undefined`), the JSON text otherwise. Array holes and `undefined`
   * elements print as `null`; `undefined` properties are omitted.
   */
  function Stringify(v: Value): (r: Option<string>)
    ensures r.None? <==> v.Undefined?
    decreases v
  {
    match v
    case Undefined => None
    case Null => Some("null")
    case Bool(b) => Some(if b then "true" else "false")
    case Num(n) => Some(NumberToString(n))
    case Str(s) => Some(Quote(s))
    case Arr(items) =>
      Some("[" + Text.Join(seq(|items|, i requires 0 <= i < |items| => ElementText(items[i], v)), ",") + "]")
    case Obj(props, _) =>
      Some("{" + Text.Join(Present(seq(|props|, i requires 0 <= i < |props| => MemberText(props[i], v))), ",") + "}")
  }

  /** An array element: its JSON text, `null` for `undefined`. */
  function ElementText(item: Value, ghost parent: Value): string
    requires item < parent
    decreases parent, 0
  {
    match Stringify(item)
    case None => "null"
    case Some(t) => t
  }

  /** An object member: the quoted key, a colon and the value's JSON text; nothing for `undefined`. */
  function MemberText(p: Property, ghost parent: Value): Option<string>
    requires p < parent
    decreases parent, 0
  {
    match Stringify(p.value)
    case None => None
    case Some(t) => Some(Quote(p.key) + ":" + t)
  }

  /** A property holding `undefined` leaves the JSON text as if it were absent. */
  lemma StringifySkipsUndefined(props: seq<Property>, key: string, kind: ObjectKind)
    ensures Stringify(Obj(props + [Property(key, Undefined)], kind)) == Stringify(Obj(props, kind))
  {
    var a, b := Obj(props + [Property(key, Undefined)], kind), Obj(props, kind);
    var q := props + [Property(key, Undefined)];
    var ta := seq(|q|, i requires 0 <= i < |q| => MemberText(q[i], a));
    var tb := seq(|props|, i requires 0 <= i < |props| => MemberText(props[i], b));
    assert ta == tb + [None];
    PresentSnocNone(tb);
  }

  lemma {:induction false} PresentSnocNone(ts: seq<Option<string>>)
    ensures Present(ts + [None]) == Present(ts)
  {
    var none: seq<Option<string>> := [None];
    if ts == [] {
      assert none[1..] == [];
    } else {
      assert (ts + [None])[1..] == ts[1..] + [None];
      PresentSnocNone(ts[1..]);
    }
  }
}
