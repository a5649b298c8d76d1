/** Decimal text as Rust prints it (`to_string` on integers), and saturating machine arithmetic. */
module Text {

  datatype Option<+T> = None | Some(value: T) {
    predicate IsFailure() { None? }
    function PropagateFailure<U>(): Option<U> requires None? { None }
    function Extract(): T requires Some? { value }
  }

  /** The largest `usize`/`u64` on the 64-bit targets the extension supports. */
  const USIZE_MAX: nat := 0xFFFF_FFFF_FFFF_FFFF

  function SaturatingAdd(a: nat, b: nat): (r: nat)
    ensures r <= USIZE_MAX
    ensures a + b <= USIZE_MAX ==> r == a + b
  {
    if a + b <= USIZE_MAX then a + b else USIZE_MAX
  }

  function SaturatingMul(a: nat, b: nat): (r: nat)
    ensures r <= USIZE_MAX
  {
    if a * b <= USIZE_MAX then a * b else USIZE_MAX
  }

  /** A number as saturating arithmetic holds it. */
  ghost function Capped(n: nat): nat { if n <= USIZE_MAX then n else USIZE_MAX }

  function SaturatingSub(a: nat, b: nat): nat {
    if b <= a then a - b else 0
  }

  predicate IsDigit(c: char) {
    '0' <= c <= '9'
  }

  predicate AllDigits(s: string) {
    forall i :: 0 <= i < |s| ==> IsDigit(s[i])
  }

  function DigitChar(d: nat): (c: char)
    requires d < 10
    ensures IsDigit(c) && DigitValue(c) == d
  {
    ('0' as int + d) as char
  }

  function DigitValue(c: char): nat
    requires IsDigit(c)
  {
    c as int - '0' as int
  }

  /** The decimal digits of `n`, most significant first, no leading zero. */
  function NatText(n: nat): (s: string)
    ensures |s| >= 1 && AllDigits(s)
  {
    if n < 10 then [DigitChar(n)] else NatText(n / 10) + [DigitChar(n % 10)]
  }

  function IntText(i: int): (s: string)
    ensures |s| >= 1
  {
    if i < 0 then "-" + NatText(-i) else NatText(i)
  }

  /** The number a digit string denotes; leading zeros are allowed. */
  function ParseNat(s: string): nat
    requires AllDigits(s)
  {
    if s == "" then 0 else ParseNat(s[..|s| - 1]) * 10 + DigitValue(s[|s| - 1])
  }

  function ParseInt(s: string): Option<int> {
    if |s| >= 2 && s[0] == '-' && AllDigits(s[1..]) then Some(0 - ParseNat(s[1..]))
    else if |s| >= 1 && AllDigits(s) then Some(ParseNat(s))
    else None
  }

  lemma {:induction false} ParseNatText(n: nat)
    ensures ParseNat(NatText(n)) == n
  {
    if n >= 10 {
      ParseNatText(n / 10);
      var s := NatText(n);
      assert s[..|s| - 1] == NatText(n / 10);
    }
  }

  lemma ParseNegative(digits: string)
    requires digits != "" && AllDigits(digits)
    ensures ParseInt("-" + digits) == Some(0 - ParseNat(digits))
  {
    hide ParseNat, AllDigits;
    var text := "-" + digits;
    assert text[0] == '-' && text[1..] == digits;
  }

  lemma ParsePositive(digits: string)
    requires digits != "" && AllDigits(digits)
    ensures ParseInt(digits) == Some(ParseNat(digits))
  {
    assert IsDigit(digits[0]) && digits[0] != '-';
    hide ParseNat, AllDigits;
  }

  lemma ParseIntText(i: int)
    ensures ParseInt(IntText(i)) == Some(i)
  {
    hide NatText, ParseInt, AllDigits, ParseNat;
    if i < 0 {
      ParseNatText(-i);
      ParseNegative(NatText(-i));
    } else {
      ParseNatText(i);
      ParsePositive(NatText(i));
    }
  }

  lemma {:induction false} NatTextLengthMonotone(a: nat, b: nat)
    requires a <= b
    ensures |NatText(a)| <= |NatText(b)|
  {
    if a >= 10 {
      NatTextLengthMonotone(a / 10, b / 10);
    }
  }

  lemma NatTextInjective(a: nat, b: nat)
    requires NatText(a) == NatText(b)
    ensures a == b
  {
    ParseNatText(a);
    ParseNatText(b);
  }

  function Zeros(n: nat): (s: string)
    ensures |s| == n && AllDigits(s) && forall i :: 0 <= i < n ==> s[i] == '0'
  {
    if n == 0 then "" else Zeros(n - 1) + "0"
  }

  lemma {:induction false} ParseLeadingZeros(n: nat, s: string)
    requires AllDigits(s)
    ensures ParseNat(Zeros(n) + s) == ParseNat(s)
  {
    if s == "" {
      assert Zeros(n) + s == Zeros(n);
      if n > 0 {
        ParseLeadingZeros(n - 1, "");
        assert Zeros(n)[..n - 1] == Zeros(n - 1) == Zeros(n - 1) + "";
      }
    } else {
      ParseLeadingZeros(n, s[..|s| - 1]);
      var t := Zeros(n) + s;
      assert t[..|t| - 1] == Zeros(n) + s[..|s| - 1];
    }
  }
}
