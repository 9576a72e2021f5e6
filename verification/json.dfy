/**
  A JSON value tree and its compact text form, standing in for
  `serde_json::Value` and for the output of `serde_json::to_string` /
  `Value::to_string` (no whitespace between tokens). Numbers are integers
  only; string escaping follows serde_json: the two-character escapes for
  `"`, `\`, backspace, tab, line feed, form feed and carriage return, and
  `\u00xx` with lower-case hex digits for the other control characters.
 */
module Json {
  import opened Wrappers
  import opened Text

  datatype Json =
    | JNull
    | JBool(b: bool)
    | JInt(i: int)
    | JString(s: string)
    | JArray(items: seq<Json>)
    | JObject(members: seq<Member>)

  /** One `"key": value` pair of an object, in the order it is written. */
  datatype Member = Member(key: string, value: Json)

  /** The keys of an object in written order; empty for anything else. */
  function Keys(j: Json): seq<string> {
    if j.JObject? then seq(|j.members|, i requires 0 <= i < |j.members| => j.members[i].key) else []
  }

  /** Characters that serde_json never writes literally inside a string. */
  predicate NeedsEscape(c: char) {
    c == '"' || c == '\\' || c as int < 0x20
  }

  function HexDigit(d: nat): char
    requires d < 16
  {
    if d < 10 then DigitChar(d) else (d - 10 + 'a' as int) as char
  }

  function HexValue(c: char): (r: Option<nat>)
    ensures r.Some? ==> r.value < 16
  {
    if '0' <= c <= '9' then Some(c as int - '0' as int)
    else if 'a' <= c <= 'f' then Some(c as int - 'a' as int + 10)
    else if 'A' <= c <= 'F' then Some(c as int - 'A' as int + 10)
    else None
  }

  function EscapeChar(c: char): (r: string)
    ensures |r| >= 1
    ensures !NeedsEscape(c) <==> r == [c]
  {
    if c == '"' then "\\\""
    else if c == '\\' then "\\\\"
    else if c as int == 8 then "\\b"
    else if c == '\t' then "\\t"
    else if c == '\n' then "\\n"
    else if c as int == 12 then "\\f"
    else if c == '\r' then "\\r"
    else if c as int < 0x20 then "\\u00" + [HexDigit(c as int / 16), HexDigit(c as int % 16)]
    else [c]
  }

  /** The body of a JSON string literal for `s` (without the surrounding quotes). */
  function Escape(s: string): string {
    if |s| == 0 then "" else EscapeChar(s[0]) + Escape(s[1..])
  }

  /** The JSON string literal for `s`. */
  function Quote(s: string): string {
    "\"" + Escape(s) + "\""
  }

  function Prepend(c: char, o: Option<string>): Option<string> {
    match o
    case None => None
    case Some(t) => Some([c] + t)
  }

  /** The character written as `\uXXXX`, when the four characters are hex digits naming a non-surrogate code point. */
  function UnicodeEscape(h: string): Option<char>
    requires |h| == 4
  {
    var a, b, c, d := HexValue(h[0]), HexValue(h[1]), HexValue(h[2]), HexValue(h[3]);
    if a.None? || b.None? || c.None? || d.None? then None
    else
      var v := ((a.value * 16 + b.value) * 16 + c.value) * 16 + d.value;
      if 0xD800 <= v < 0xE000 || v >= 0x10000 then None else Some(v as char)
  }

  /** Decodes the body of a JSON string literal; None when it is not a valid body. */
  function Unescape(t: string): Option<string>
    decreases |t|
  {
    if |t| == 0 then Some("")
    else if t[0] == '\\' then
      if |t| < 2 then None
      else if t[1] == '"' then Prepend('"', Unescape(t[2..]))
      else if t[1] == '\\' then Prepend('\\', Unescape(t[2..]))
      else if t[1] == '/' then Prepend('/', Unescape(t[2..]))
      else if t[1] == 'b' then Prepend(8 as char, Unescape(t[2..]))
      else if t[1] == 't' then Prepend('\t', Unescape(t[2..]))
      else if t[1] == 'n' then Prepend('\n', Unescape(t[2..]))
      else if t[1] == 'f' then Prepend(12 as char, Unescape(t[2..]))
      else if t[1] == 'r' then Prepend('\r', Unescape(t[2..]))
      else if t[1] == 'u' && |t| >= 6 then
        match UnicodeEscape(t[2..6])
        case Some(c) => Prepend(c, Unescape(t[6..]))
        case None => None
      else None
    else if NeedsEscape(t[0]) then None
    else Prepend(t[0], Unescape(t[1..]))
  }

  /** Decodes a complete JSON string literal. */
  function ParseStringLiteral(t: string): Option<string> {
    if |t| >= 2 && t[0] == '"' && t[|t| - 1] == '"' then Unescape(t[1..|t| - 1]) else None
  }

  lemma HexRoundTrip(d: nat)
    requires d < 16
    ensures HexValue(HexDigit(d)) == Some(d)
  {
  }

  /** A two-character escape `\x` decodes to the character it stands for. */
  lemma UnescapeShortEscape(x: char, c: char, rest: string)
    requires (x == '"' && c == '"') || (x == '\\' && c == '\\') || (x == 'b' && c as int == 8)
             || (x == 't' && c == '\t') || (x == 'n' && c == '\n') || (x == 'f' && c as int == 12)
             || (x == 'r' && c == '\r')
    ensures Unescape(['\\', x] + rest) == Prepend(c, Unescape(rest))
  {
    var t := ['\\', x] + rest;
    assert t[2..] == rest;
  }

  /** A control character written as `\u00XY` decodes back to itself. */
  lemma UnescapeControl(c: char, rest: string)
    requires c as int < 0x20
    ensures Unescape("\\u00" + [HexDigit(c as int / 16), HexDigit(c as int % 16)] + rest) == Prepend(c, Unescape(rest))
  {
    var hi, lo := c as int / 16, c as int % 16;
    var t := "\\u00" + [HexDigit(hi), HexDigit(lo)] + rest;
    HexRoundTrip(hi);
    HexRoundTrip(lo);
    assert t[0] == '\\' && t[1] == 'u';
    assert t[2..6] == ['0', '0', HexDigit(hi), HexDigit(lo)];
    assert UnicodeEscape(t[2..6]) == Some(c);
    assert t[6..] == rest;
  }

  lemma UnescapeOfEscapeChar(c: char, rest: string)
    ensures Unescape(EscapeChar(c) + rest) == Prepend(c, Unescape(rest))
  {
    if !NeedsEscape(c) {
      assert ([c] + rest)[1..] == rest;
    } else if c == '"' {
      UnescapeShortEscape('"', c, rest);
    } else if c == '\\' {
      UnescapeShortEscape('\\', c, rest);
    } else if c as int == 8 {
      UnescapeShortEscape('b', c, rest);
    } else if c == '\t' {
      UnescapeShortEscape('t', c, rest);
    } else if c == '\n' {
      UnescapeShortEscape('n', c, rest);
    } else if c as int == 12 {
      UnescapeShortEscape('f', c, rest);
    } else if c == '\r' {
      UnescapeShortEscape('r', c, rest);
    } else {
      UnescapeControl(c, rest);
    }
  }

  /** Escaping then unescaping gives the original text back. */
  lemma {:induction false} UnescapeEscape(s: string)
    ensures Unescape(Escape(s)) == Some(s)
  {
    if |s| > 0 {
      UnescapeEscape(s[1..]);
      UnescapeOfEscapeChar(s[0], Escape(s[1..]));
      assert [s[0]] + s[1..] == s;
    }
  }

  /** A string needing no escapes is written between quotes verbatim. */
  lemma {:induction false} EscapeOfPlain(s: string)
    requires forall k :: 0 <= k < |s| ==> !NeedsEscape(s[k])
    ensures Escape(s) == s
    ensures Quote(s) == "\"" + s + "\""
  {
    if |s| > 0 {
      EscapeOfPlain(s[1..]);
      assert [s[0]] + s[1..] == s;
    }
  }

  /** A string value needing no escapes is rendered as the string between quotes. */
  lemma RenderPlainString(s: string)
    requires forall k :: 0 <= k < |s| ==> !NeedsEscape(s[k])
    ensures Render(JString(s)) == "\"" + s + "\""
  {
    EscapeOfPlain(s);
  }

  /** Compact JSON text of a value. */
  function Render(j: Json): string
    decreases j
  {
    match j
    case JNull => "null"
    case JBool(b) => if b then "true" else "false"
    case JInt(i) => if i < 0 then "-" + NatToDecimal(-i) else NatToDecimal(i)
    case JString(s) => Quote(s)
    case JArray(xs) => "[" + RenderItems(xs) + "]"
    case JObject(ms) => "{" + RenderMembers(ms) + "}"
  }

  /** Array elements, comma separated. */
  function RenderItems(xs: seq<Json>): string
    decreases xs
  {
    if |xs| == 0 then ""
    else Render(xs[0]) + (if |xs| == 1 then "" else "," + RenderItems(xs[1..]))
  }

  /** Object members as `"key":value`, comma separated. */
  function RenderMembers(ms: seq<Member>): string
    decreases ms
  {
    if |ms| == 0 then ""
    else Quote(ms[0].key) + ":" + Render(ms[0].value) + (if |ms| == 1 then "" else "," + RenderMembers(ms[1..]))
  }

  /** The text of a rendered string value reads back as that string. */
  lemma RenderStringRoundTrip(s: string)
    ensures ParseStringLiteral(Render(JString(s))) == Some(s)
  {
    var t := Render(JString(s));
    assert t[1..|t| - 1] == Escape(s);
    UnescapeEscape(s);
  }
}
