/** Decimal digit strings: reading them as natural numbers and writing numbers zero-padded to a width. */
module Numerals {

  predicate IsDigit(c: char) {
    '0' <= c <= '9'
  }

  predicate AllDigits(s: string) {
    forall i :: 0 <= i < |s| ==> IsDigit(s[i])
  }

  function DigitChar(n: int): (c: char)
    requires 0 <= n < 10
    ensures IsDigit(c) && c as int - '0' as int == n
  {
    ('0' as int + n) as char
  }

  function Pow10(w: nat): (p: nat)
    ensures p >= 1
  {
    if w == 0 then 1 else 10 * Pow10(w - 1)
  }

  /** The number a digit string denotes, most significant digit first. */
  function DigitsValue(s: string): (n: nat)
    requires AllDigits(s)
    ensures n < Pow10(|s|)
    decreases |s|
  {
    if s == [] then 0
    else DigitsValue(s[..|s| - 1]) * 10 + (s[|s| - 1] as int - '0' as int)
  }

  /** The w-digit decimal numeral of n, with leading zeros. */
  function Pad(n: nat, w: nat): (s: string)
    requires n < Pow10(w)
    ensures |s| == w && AllDigits(s)
    decreases w
  {
    if w == 0 then []
    else Pad(n / 10, w - 1) + [DigitChar(n % 10)]
  }

  /** Writing a number and reading it back gives the number. */
  lemma {:induction false} DigitsValuePad(n: nat, w: nat)
    requires n < Pow10(w)
    ensures DigitsValue(Pad(n, w)) == n
    decreases w
  {
    if w > 0 {
      var s := Pad(n, w);
      assert s[..|s| - 1] == Pad(n / 10, w - 1);
      DigitsValuePad(n / 10, w - 1);
    }
  }

  /** Reading a digit string and writing it back at its own width gives the string. */
  lemma {:induction false} PadDigitsValue(s: string)
    requires AllDigits(s)
    ensures Pad(DigitsValue(s), |s|) == s
    decreases |s|
  {
    if s != [] {
      var init := s[..|s| - 1];
      PadDigitsValue(init);
      var n := DigitsValue(s);
      assert n / 10 == DigitsValue(init);
      assert n % 10 == s[|s| - 1] as int - '0' as int;
      assert s == init + [s[|s| - 1]];
    }
  }
}
