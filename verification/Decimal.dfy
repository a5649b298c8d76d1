/** `format_decimal`: exact decimal text of an integer and a scale. */
module Decimal {
  import opened Text

  function Abs(i: int): nat { if i < 0 then -i else i }

  function Pow10(n: nat): (p: nat)
    ensures p >= 1
  {
    if n == 0 then 1 else 10 * Pow10(n - 1)
  }

  /** The digits of `n`, zero-padded on the left to at least `width` digits. */
  function PaddedDigits(n: nat, width: nat): (s: string)
    ensures AllDigits(s) && |s| >= width && |s| >= 1
  {
    var d := NatText(n);
    if |d| < width then Zeros(width - |d|) + d else d
  }

  /** The text by one uniform rule: pad to `scale + 1` digits, put the point `scale` digits from
      the right. */
  function DecimalText(raw: int, scale: nat): string {
    var sign := if raw < 0 then "-" else "";
    var digits := PaddedDigits(Abs(raw), scale + 1);
    var split := |digits| - scale;
    sign + (if scale == 0 then digits else digits[..split] + "." + digits[split..])
  }

  method FormatDecimal(raw: int, scale: nat) returns (out: string)
    ensures out == DecimalText(raw, scale)
  {
    hide NatText, PaddedDigits;
    if scale == 0 {
      WholeText(raw);
      return IntText(raw);
    }
    var negative := raw < 0;
    var digits := NatText(if raw < 0 then -raw else raw);
    out := "";
    if negative {
      out := out + "-";
    }
    ghost var sign := out;
    if |digits| <= scale {
      out := out + "0.";
      for i := 0 to scale - |digits|
        invariant out == sign + "0." + Zeros(i)
      {
        out := out + "0";
      }
      out := out + digits;
      ShortText(raw, scale);
    } else {
      var split := |digits| - scale;
      out := out + digits[..split];
      out := out + ".";
      out := out + digits[split..];
      LongText(raw, scale);
    }
  }

  lemma WholeText(raw: int)
    ensures DecimalText(raw, 0) == IntText(raw)
  {
  }

  /** The branch for magnitudes with digits left of the point. */
  lemma LongText(raw: int, scale: nat)
    requires scale > 0 && |NatText(Abs(raw))| > scale
    ensures var digits := NatText(Abs(raw));
            DecimalText(raw, scale)
            == (if raw < 0 then "-" else "") + digits[..|digits| - scale] + "." + digits[|digits| - scale..]
  {
    hide NatText;
  }

  /** The branch for magnitudes with no digit left of the point. */
  lemma ShortText(raw: int, scale: nat)
    requires |NatText(Abs(raw))| <= scale
    ensures DecimalText(raw, scale)
         == (if raw < 0 then "-" else "") + "0." + Zeros(scale - |NatText(Abs(raw))|) + NatText(Abs(raw))
  {
    var d := NatText(Abs(raw));
    var pad := Zeros(scale - |d|);
    var digits := PaddedDigits(Abs(raw), scale + 1);
    assert digits == Zeros(scale + 1 - |d|) + d;
    assert digits[..1] == "0" && digits[1..] == pad + d;
    assert "0" + "." == "0.";
  }

  /** Position of the decimal point, or `|s|` when there is none. */
  function PointAt(s: string): (i: nat)
    ensures i <= |s|
    ensures i < |s| ==> s[i] == '.'
    ensures forall k :: 0 <= k < i ==> s[k] != '.'
  {
    if s == "" then 0 else if s[0] == '.' then 0 else 1 + PointAt(s[1..])
  }

  /** Whole and fractional digit strings of an unsigned decimal text. */
  function SplitPoint(s: string): (string, string) {
    var i := PointAt(s);
    if i < |s| then (s[..i], s[i + 1..]) else (s, "")
  }

  function Unsign(s: string): (bool, string) {
    if s != "" && s[0] == '-' then (true, s[1..]) else (false, s)
  }

  /** The integer and scale read off the two digit groups. */
  function ReadGroups(negative: bool, whole: string, frac: string): Option<(int, nat)> {
    if whole == "" || !AllDigits(whole + frac) then None
    else if negative then Some((0 - ParseNat(whole + frac), |frac|))
    else Some((ParseNat(whole + frac), |frac|))
  }

  /** The rational read off the two digit groups. */
  function GroupsValue(negative: bool, whole: string, frac: string): Option<real> {
    if !AllDigits(whole) || !AllDigits(frac) then None
    else
      var v := ParseNat(whole) as real + ParseNat(frac) as real / Pow10(|frac|) as real;
      Some(if negative then -v else v)
  }

  /** Reads a decimal text back as (raw, scale): the inverse of `DecimalText`. */
  function ParseDecimal(s: string): Option<(int, nat)> {
    var body := Unsign(s).1;
    var groups := SplitPoint(body);
    if PointAt(body) < |body| && groups.1 == "" then None
    else ReadGroups(Unsign(s).0, groups.0, groups.1)
  }

  /** The rational a decimal text denotes. */
  function DecimalValue(s: string): Option<real> {
    var groups := SplitPoint(Unsign(s).1);
    GroupsValue(Unsign(s).0, groups.0, groups.1)
  }

  lemma ParsePadded(n: nat, width: nat)
    ensures ParseNat(PaddedDigits(n, width)) == n
  {
    ParseNatText(n);
    var d := NatText(n);
    if |d| < width {
      ParseLeadingZeros(width - |d|, d);
    }
  }

  lemma PointFound(whole: string, frac: string)
    requires AllDigits(whole)
    ensures PointAt(whole + "." + frac) == |whole|
  {
    var s := whole + "." + frac;
    assert s[|whole|] == '.';
    assert forall k :: 0 <= k < |whole| ==> s[k] == whole[k];
  }

  lemma {:induction false} ParseSplit(s: string, k: nat)
    requires AllDigits(s) && k <= |s|
    ensures ParseNat(s) == ParseNat(s[..k]) * Pow10(|s| - k) + ParseNat(s[k..])
  {
    if k == |s| {
      assert s[..k] == s && s[k..] == "";
    } else {
      var t := s[..|s| - 1];
      ParseSplit(t, k);
      assert t[..k] == s[..k];
      assert s[k..][..|s| - k - 1] == t[k..];
      ShiftDigit(ParseNat(s[..k]), Pow10(|s| - k - 1), ParseNat(t[k..]), DigitValue(s[|s| - 1]));
    }
  }

  lemma ShiftDigit(a: nat, p: nat, q: nat, d: nat)
    ensures (a * p + q) * 10 + d == a * (10 * p) + (q * 10 + d)
  {
    assert a * (10 * p) == 10 * (a * p);
  }

  /** `DecimalText` is a sign and a body, and splitting the body at its point gives the digits. */
  lemma TextParts(raw: int, scale: nat, digits: string, body: string)
    requires digits == PaddedDigits(Abs(raw), scale + 1)
    requires body == if scale == 0 then digits else digits[..|digits| - scale] + "." + digits[|digits| - scale..]
    ensures Unsign(DecimalText(raw, scale)) == (raw < 0, body)
    ensures SplitPoint(body) == (digits[..|digits| - scale], digits[|digits| - scale..])
    ensures PointAt(body) == |digits| - scale
  {
    hide NatText, PointAt;
    var split := |digits| - scale;
    var whole, frac := digits[..split], digits[split..];
    assert IsDigit(digits[0]) && body[0] == digits[0];
    SignFound(raw < 0, body);
    if scale > 0 {
      PointFound(whole, frac);
      assert body[..split] == whole && body[split + 1..] == frac;
    } else {
      assert whole == digits && frac == "";
      assert forall k :: 0 <= k < |body| ==> IsDigit(body[k]);
    }
  }

  lemma SignFound(negative: bool, body: string)
    requires body != "" && IsDigit(body[0])
    ensures Unsign((if negative then "-" else "") + body) == (negative, body)
  {
    var text := (if negative then "-" else "") + body;
    if negative {
      assert text[1..] == body;
    } else {
      assert text == body;
    }
  }

  lemma GroupsRoundTrip(raw: int, scale: nat, digits: string)
    requires digits == PaddedDigits(Abs(raw), scale + 1)
    ensures ReadGroups(raw < 0, digits[..|digits| - scale], digits[|digits| - scale..]) == Some((raw, scale))
  {
    assert digits[..|digits| - scale] + digits[|digits| - scale..] == digits;
    ParsePadded(Abs(raw), scale + 1);
  }

  /** Reading the text back gives the integer and the scale, so the text determines both. */
  lemma DecimalRoundTrip(raw: int, scale: nat)
    ensures ParseDecimal(DecimalText(raw, scale)) == Some((raw, scale))
  {
    var digits := PaddedDigits(Abs(raw), scale + 1);
    var split := |digits| - scale;
    var body := if scale == 0 then digits else digits[..split] + "." + digits[split..];
    TextParts(raw, scale, digits, body);
    GroupsRoundTrip(raw, scale, digits);
    var text := DecimalText(raw, scale);
    assert Unsign(text).0 == (raw < 0) && Unsign(text).1 == body;
  }

  lemma DecimalTextInjective(raw: int, scale: nat, raw': int, scale': nat)
    requires DecimalText(raw, scale) == DecimalText(raw', scale')
    ensures raw == raw' && scale == scale'
  {
    DecimalRoundTrip(raw, scale);
    DecimalRoundTrip(raw', scale');
  }

  lemma GroupsExact(raw: int, scale: nat, digits: string)
    requires digits == PaddedDigits(Abs(raw), scale + 1)
    ensures GroupsValue(raw < 0, digits[..|digits| - scale], digits[|digits| - scale..])
         == Some(raw as real / Pow10(scale) as real)
  {
    hide PaddedDigits, Pow10, ParseNat;
    var whole, frac := digits[..|digits| - scale], digits[|digits| - scale..];
    ParsePadded(Abs(raw), scale + 1);
    ParseSplit(digits, |digits| - scale);
    assert |frac| == scale;
    SignedQuotient(raw, ParseNat(whole), ParseNat(frac), Pow10(scale));
  }

  /** The text denotes raw / 10^scale exactly. */
  lemma DecimalExact(raw: int, scale: nat)
    ensures DecimalValue(DecimalText(raw, scale)) == Some(raw as real / Pow10(scale) as real)
  {
    var digits := PaddedDigits(Abs(raw), scale + 1);
    var split := |digits| - scale;
    var body := if scale == 0 then digits else digits[..split] + "." + digits[split..];
    TextParts(raw, scale, digits, body);
    GroupsExact(raw, scale, digits);
    var text := DecimalText(raw, scale);
    assert Unsign(text).0 == (raw < 0) && Unsign(text).1 == body;
  }

  lemma SignedQuotient(raw: int, w: nat, f: nat, p: nat)
    requires p >= 1 && Abs(raw) == w * p + f
    ensures (if raw < 0 then -(w as real + f as real / p as real) else w as real + f as real / p as real)
         == raw as real / p as real
  {
    var wr, fr, pr := w as real, f as real, p as real;
    assert (w * p + f) as real == wr * pr + fr;
    assert raw as real == if raw < 0 then -(wr * pr + fr) else wr * pr + fr;
    assert (wr * pr + fr) / pr == wr + fr / pr;
    assert -(wr * pr + fr) / pr == -(wr + fr / pr);
  }
}
