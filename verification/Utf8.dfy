/** UTF-8, as far as the canonical payload needs it: the byte string determines the text. */
module Utf8 {
  type Byte = x: int | 0 <= x < 256

  function EncodeChar(c: char): (bytes: seq<Byte>)
    ensures 1 <= |bytes| <= 4
  {
    var c0 := c as int;
    var c1 := c0 / 64;
    var c2 := c1 / 64;
    if c0 < 0x80 then [c0]
    else if c0 < 0x800 then [0xC0 + c1, 0x80 + c0 % 64]
    else if c0 < 0x10000 then [0xE0 + c2, 0x80 + c1 % 64, 0x80 + c0 % 64]
    else [0xF0 + c2 / 64, 0x80 + c2 % 64, 0x80 + c1 % 64, 0x80 + c0 % 64]
  }

  function Encode(text: string): (bytes: seq<Byte>)
    ensures |bytes| >= |text|
  {
    if text == "" then [] else EncodeChar(text[0]) + Encode(text[1..])
  }

  /** The code point a well-formed sequence spells: the inverse of `EncodeChar`. */
  function CodePoint(bytes: seq<Byte>): int
    requires 1 <= |bytes| <= 4
  {
    var lead := bytes[0] as int;
    if |bytes| == 1 then lead
    else if |bytes| == 2 then (lead - 0xC0) * 64 + bytes[1] - 0x80
    else if |bytes| == 3 then ((lead - 0xE0) * 64 + bytes[1] - 0x80) * 64 + bytes[2] - 0x80
    else (((lead - 0xF0) * 64 + bytes[1] - 0x80) * 64 + bytes[2] - 0x80) * 64 + bytes[3] - 0x80
  }

  /** The length of a sequence, read off its first byte. */
  function Width(lead: Byte): nat {
    if lead < 0x80 then 1 else if lead < 0xE0 then 2 else if lead < 0xF0 then 3 else 4
  }

  lemma CharRoundTrip(c: char)
    ensures CodePoint(EncodeChar(c)) == c as int
    ensures Width(EncodeChar(c)[0]) == |EncodeChar(c)|
  {
  }

  lemma CharPrefixFree(c: char, rest: seq<Byte>, d: char, rest': seq<Byte>)
    requires EncodeChar(c) + rest == EncodeChar(d) + rest'
    ensures c == d && rest == rest'
  {
    var whole := EncodeChar(c) + rest;
    CharRoundTrip(c);
    CharRoundTrip(d);
    assert whole[0] == EncodeChar(c)[0] && whole[0] == (EncodeChar(d) + rest')[0] == EncodeChar(d)[0];
    var n := |EncodeChar(c)|;
    assert whole[..n] == EncodeChar(c) && whole[n..] == rest;
    assert (EncodeChar(d) + rest')[..n] == EncodeChar(d) && (EncodeChar(d) + rest')[n..] == rest';
  }

  lemma {:induction false} Injective(s: string, t: string)
    requires Encode(s) == Encode(t)
    ensures s == t
  {
    if s != "" && t != "" {
      CharPrefixFree(s[0], Encode(s[1..]), t[0], Encode(t[1..]));
      Injective(s[1..], t[1..]);
      assert s == [s[0]] + s[1..] && t == [t[0]] + t[1..];
    }
  }
}
