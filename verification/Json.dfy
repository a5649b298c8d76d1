/** JSON string literals as serde_json writes them (section 7 of RFC 8259), and readers for the
    pieces of the canonical format. */
module Json {
  import opened Text

  function HexChar(d: nat): (c: char)
    requires d < 16
    ensures HexValue(c) == Some(d)
  {
    if d < 10 then ('0' as int + d) as char else ('a' as int + d - 10) as char
  }

  function HexValue(c: char): Option<nat> {
    if '0' <= c <= '9' then Some(c as int - '0' as int)
    else if 'a' <= c <= 'f' then Some(c as int - 'a' as int + 10)
    else None
  }

  /** Short escapes where RFC 8259 has one, `\u00xx` for the other control characters, the
      character itself otherwise. */
  function EscapeChar(c: char): (s: string)
    ensures |s| >= 1
  {
    if c == '\"' then ['\\', '\"']
    else if c == '\\' then ['\\', '\\']
    else if c == 8 as char then ['\\', 'b']
    else if c == 9 as char then ['\\', 't']
    else if c == 10 as char then ['\\', 'n']
    else if c == 12 as char then ['\\', 'f']
    else if c == 13 as char then ['\\', 'r']
    else if c < 32 as char then ['\\', 'u', '0', '0', HexChar(c as int / 16), HexChar(c as int % 16)]
    else [c]
  }

  function Escape(s: string): string {
    if s == "" then "" else EscapeChar(s[0]) + Escape(s[1..])
  }

  /** `serde_json::to_string` on a string. */
  function StringLiteral(s: string): string {
    ['\"'] + Escape(s) + ['\"']
  }

  /** Reads one character in the one form serde_json writes it in; the closing quote is not one. A
      control character never stands for itself, and nothing is escaped without need. */
  function ReadChar(s: string): (r: Option<(char, string)>)
    ensures r.Some? ==> |r.value.1| < |s|
  {
    if s == "" || s[0] == '\"' then None
    else if s[0] != '\\' then (if s[0] < 32 as char then None else Some((s[0], s[1..])))
    else if |s| < 2 then None
    else if s[1] == '\"' || s[1] == '\\' then Some((s[1], s[2..]))
    else if s[1] == 'b' then Some((8 as char, s[2..]))
    else if s[1] == 't' then Some((9 as char, s[2..]))
    else if s[1] == 'n' then Some((10 as char, s[2..]))
    else if s[1] == 'f' then Some((12 as char, s[2..]))
    else if s[1] == 'r' then Some((13 as char, s[2..]))
    else if s[1] == 'u' && |s| >= 6 && s[2] == '0' && s[3] == '0' && HexValue(s[4]).Some? && HexValue(s[5]).Some? then
      var n := 16 * HexValue(s[4]).value + HexValue(s[5]).value;
      if n < 32 && n !in {8, 9, 10, 12, 13} then Some((n as char, s[6..])) else None
    else None
  }

  /** Reads up to and including the closing quote. */
  function ReadChars(s: string): (r: Option<(string, string)>)
    ensures r.Some? ==> |r.value.1| < |s|
  {
    if s != "" && s[0] == '\"' then Some(("", s[1..]))
    else match ReadChar(s)
      case None => None
      case Some((c, rest)) =>
        match ReadChars(rest)
        case None => None
        case Some((text, rest')) => Some(([c] + text, rest'))
  }

  function ReadString(s: string): (r: Option<(string, string)>)
    ensures r.Some? ==> |r.value.1| < |s|
  {
    if s != "" && s[0] == '\"' then ReadChars(s[1..]) else None
  }

  lemma CharReadsBack(c: char, rest: string)
    ensures ReadChar(EscapeChar(c) + rest) == Some((c, rest))
    ensures EscapeChar(c)[0] != '\"'
  {
    var s := EscapeChar(c) + rest;
    assert s[|EscapeChar(c)|..] == rest;
  }

  lemma {:induction false} CharsReadBack(text: string, rest: string)
    ensures ReadChars(Escape(text) + ['\"'] + rest) == Some((text, rest))
  {
    var s := Escape(text) + ['\"'] + rest;
    if text == "" {
      assert s == ['\"'] + rest;
      assert s[1..] == rest;
    } else {
      var tail := Escape(text[1..]) + ['\"'] + rest;
      assert s == EscapeChar(text[0]) + tail;
      CharReadsBack(text[0], tail);
      CharsReadBack(text[1..], rest);
      assert text == [text[0]] + text[1..];
    }
  }

  /** Every string literal is read back exactly, whatever follows it, by a reader that takes each
      character in one form only. */
  lemma StringReadsBack(text: string, rest: string)
    ensures ReadString(StringLiteral(text) + rest) == Some((text, rest))
  {
    CharsReadBack(text, rest);
    assert (StringLiteral(text) + rest)[1..] == Escape(text) + ['\"'] + rest;
  }

  /** Removes an expected prefix. */
  function Strip(s: string, prefix: string): (r: Option<string>)
    ensures r.Some? ==> |r.value| == |s| - |prefix|
  {
    if prefix <= s then Some(s[|prefix|..]) else None
  }

  lemma StripAppend(prefix: string, rest: string)
    ensures Strip(prefix + rest, prefix) == Some(rest)
  {
    assert (prefix + rest)[|prefix|..] == rest;
  }

  /** Reads up to a delimiter, which it leaves out. */
  function ReadUntil(s: string, stop: char): (r: Option<(string, string)>)
    ensures r.Some? ==> |r.value.1| < |s|
  {
    if s == "" then None
    else if s[0] == stop then Some(("", s[1..]))
    else match ReadUntil(s[1..], stop)
      case None => None
      case Some((text, rest)) => Some(([s[0]] + text, rest))
  }

  lemma {:induction false} ReadUntilAppend(text: string, stop: char, rest: string)
    requires stop !in text
    ensures ReadUntil(text + [stop] + rest, stop) == Some((text, rest))
  {
    var s := text + [stop] + rest;
    if text == "" {
      assert s[1..] == rest;
    } else {
      assert s[1..] == text[1..] + [stop] + rest;
      ReadUntilAppend(text[1..], stop, rest);
      assert text == [text[0]] + text[1..];
    }
  }
}
