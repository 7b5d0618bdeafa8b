/** The part of `JSON.stringify` the relay's payloads need: quoting a string
    (QuoteJSONString of ECMA-262), and the matching reader for quoted text. */
module Json {
  import opened Base

  function LowerHexDigit(d: nat): char
    requires d < 16
  {
    "0123456789abcdef"[d]
  }

  function HexValue(c: char): Option<nat>
  {
    if '0' <= c <= '9' then Some(c as int - '0' as int)
    else if 'a' <= c <= 'f' then Some(c as int - 'a' as int + 10)
    else if 'A' <= c <= 'F' then Some(c as int - 'A' as int + 10)
    else None
  }

  /** The escape `JSON.stringify` writes for one character. */
  function EscapeChar(c: char): (r: string)
    ensures |r| >= 1
    ensures forall i :: 0 <= i < |r| ==> r[i] as int >= 0x20
  {
    var n := c as int;
    if n == 0x08 then "\\b"
    else if n == 0x09 then "\\t"
    else if n == 0x0A then "\\n"
    else if n == 0x0C then "\\f"
    else if n == 0x0D then "\\r"
    else if c == '"' then "\\\""
    else if c == '\\' then "\\\\"
    else if n < 0x20 then "\\u00" + [LowerHexDigit(n / 16), LowerHexDigit(n % 16)]
    else [c]
  }

  /** The body of a JSON string literal for `s`. No character of it is a
      control character, so in particular it holds no line break. */
  function Escape(s: string): (r: string)
    ensures forall i :: 0 <= i < |r| ==> r[i] as int >= 0x20
    ensures '\n' !in r
  {
    if s == [] then "" else EscapeChar(s[0]) + Escape(s[1..])
  }

  /** `JSON.stringify(s)` for a string `s`. */
  function Quote(s: string): (r: string)
    ensures |r| >= 2 && r[0] == '"' && r[|r| - 1] == '"'
    ensures forall i :: 0 <= i < |r| ==> r[i] as int >= 0x20
    ensures '\n' !in r
  {
    "\"" + Escape(s) + "\""
  }

  /** Reads the body of a JSON string literal back into the string it denotes;
      None when the body is not well formed. */
  function Unescape(e: string): Option<string>
    decreases |e|
  {
    if e == [] then Some("")
    else if e[0] == '\\' then
      if |e| < 2 then None
      else
        var simple :=
          if e[1] == 'b' then Some(0x08 as char)
          else if e[1] == 't' then Some('\t')
          else if e[1] == 'n' then Some('\n')
          else if e[1] == 'f' then Some(0x0C as char)
          else if e[1] == 'r' then Some('\r')
          else if e[1] == '"' then Some('"')
          else if e[1] == '\\' then Some('\\')
          else if e[1] == '/' then Some('/')
          else None;
        if simple.Some? then Prepend(simple.value, Unescape(e[2..]))
        else if e[1] == 'u' && |e| >= 6 then
          var h0, h1, h2, h3 := HexValue(e[2]), HexValue(e[3]), HexValue(e[4]), HexValue(e[5]);
          if h0.Some? && h1.Some? && h2.Some? && h3.Some? then
            var v := ((h0.value * 16 + h1.value) * 16 + h2.value) * 16 + h3.value;
            if v < 0xD800 then Prepend(v as char, Unescape(e[6..])) else None
          else None
        else None
    else if e[0] == '"' || e[0] as int < 0x20 then None
    else Prepend(e[0], Unescape(e[1..]))
  }

  function Prepend(c: char, r: Option<string>): Option<string>
  {
    if r.Some? then Some([c] + r.value) else None
  }

  /** Characters written as a backslash and one letter. */
  predicate ShortEscaped(c: char)
  {
    var n := c as int;
    n == 0x08 || n == 0x09 || n == 0x0A || n == 0x0C || n == 0x0D || c == '"' || c == '\\'
  }

  lemma UnescapePlain(c: char, rest: string)
    requires c as int >= 0x20 && !ShortEscaped(c)
    ensures Unescape(EscapeChar(c) + rest) == Prepend(c, Unescape(rest))
  {
    assert ([c] + rest)[1..] == rest;
  }

  lemma UnescapeShort(c: char, rest: string)
    requires ShortEscaped(c)
    ensures Unescape(EscapeChar(c) + rest) == Prepend(c, Unescape(rest))
  {
    var e := EscapeChar(c) + rest;
    assert e[2..] == rest;
  }

  lemma UnescapeUnicode(c: char, rest: string)
    requires c as int < 0x20 && !ShortEscaped(c)
    ensures Unescape(EscapeChar(c) + rest) == Prepend(c, Unescape(rest))
  {
    var e := EscapeChar(c) + rest;
    assert e[1] == 'u' && e[2] == '0' && e[3] == '0';
    assert e[6..] == rest;
  }

  lemma UnescapeChar(c: char, rest: string)
    ensures Unescape(EscapeChar(c) + rest) == Prepend(c, Unescape(rest))
  {
    if ShortEscaped(c) {
      UnescapeShort(c, rest);
    } else if c as int < 0x20 {
      UnescapeUnicode(c, rest);
    } else {
      UnescapePlain(c, rest);
    }
  }

  /** Reading back an escaped string gives the original. */
  lemma {:induction false} UnescapeEscape(s: string)
    ensures Unescape(Escape(s)) == Some(s)
  {
    if s != [] {
      UnescapeEscape(s[1..]);
      UnescapeChar(s[0], Escape(s[1..]));
      assert [s[0]] + s[1..] == s;
    }
  }
}
