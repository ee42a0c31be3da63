/** `Number.prototype.toString(radix)` on non-negative integers, and the reading of such digits back. */
module Numerals {

  const DigitChars: string := "0123456789abcdef"

  type Radix = b: int | 2 <= b <= 16 witness 10

  /** The numeric value of a lowercase digit character; 16 for any other character. */
  function DigitValue(c: char): (v: nat)
    ensures v <= 16
  {
    if '0' <= c <= '9' then (c as int) - ('0' as int)
    else if 'a' <= c <= 'f' then (c as int) - ('a' as int) + 10
    else 16
  }

  lemma DigitValueOfDigitChar(d: nat)
    requires d < 16
    ensures DigitValue(DigitChars[d]) == d
  {
  }

  /** Only the sixteen digit characters have a digit value. */
  lemma DigitOfValue(c: char)
    requires DigitValue(c) < 16
    ensures c in DigitChars && DigitChars[DigitValue(c)] == c
  {
  }

  predicate IsDigit(c: char, base: Radix)
  {
    DigitValue(c) < base
  }

  /** `n` written in `base` with lowercase digits and no leading zeros; "0" for zero. */
  function ToDigits(n: nat, base: Radix): (r: string)
    ensures |r| >= 1
    ensures forall i :: 0 <= i < |r| ==> IsDigit(r[i], base)
    ensures |r| > 1 ==> r[0] != '0'
    ensures n == 0 <==> r == "0"
    decreases n
  {
    if n < base then
      DigitValueOfDigitChar(n);
      [DigitChars[n]]
    else
      DivBounds(n, base);
      DigitValueOfDigitChar(n % base);
      ToDigits(n / base, base) + [DigitChars[n % base]]
  }

  lemma DivBounds(n: nat, base: Radix)
    requires n >= base
    ensures 1 <= n / base < n && 0 <= n % base < base
  {
  }

  /** The value of a digit string, most significant digit first. */
  function ValueOf(ds: string, base: Radix): nat
    requires forall i :: 0 <= i < |ds| ==> IsDigit(ds[i], base)
  {
    if ds == [] then 0
    else ValueOf(ds[..|ds| - 1], base) * base + DigitValue(ds[|ds| - 1])
  }

  /** Reading the digits back gives the number: `toString(radix)` loses nothing. */
  lemma {:induction false} ValueOfToDigits(n: nat, base: Radix)
    ensures ValueOf(ToDigits(n, base), base) == n
    decreases n
  {
    if n < base {
      DigitValueOfDigitChar(n);
    } else {
      ValueOfToDigits(n / base, base);
      ValueOfToDigitsStep(n, base);
    }
  }

  lemma ValueOfToDigitsStep(n: nat, base: Radix)
    requires n >= base
    requires ValueOf(ToDigits(n / base, base), base) == n / base
    ensures ValueOf(ToDigits(n, base), base) == n
  {
    var q, d := n / base, n % base;
    DigitValueOfDigitChar(d);
    assert ToDigits(n, base) == ToDigits(q, base) + [DigitChars[d]];
    ValueOfSnoc(ToDigits(q, base), DigitChars[d], base);
    DivMod(n, base);
  }

  lemma ValueOfSnoc(ds: string, c: char, base: Radix)
    requires forall i :: 0 <= i < |ds| ==> IsDigit(ds[i], base)
    requires IsDigit(c, base)
    ensures ValueOf(ds + [c], base) == ValueOf(ds, base) * base + DigitValue(c)
  {
    assert (ds + [c])[..|ds|] == ds;
  }

  lemma DivMod(n: nat, base: Radix)
    ensures (n / base) * base + n % base == n
  {
  }

  /** The number of digit characters at the front of `s`. */
  function LeadingDigits(s: string, base: Radix): (k: nat)
    ensures k <= |s|
    ensures forall i :: 0 <= i < k ==> IsDigit(s[i], base)
    ensures k < |s| ==> !IsDigit(s[k], base)
  {
    if s == [] || !IsDigit(s[0], base) then 0
    else 1 + LeadingDigits(s[1..], base)
  }

  /** The digits of a number end where the text after them starts with a non-digit. */
  lemma LeadingDigitsOfNumeral(n: nat, base: Radix, rest: string)
    requires rest == [] || !IsDigit(rest[0], base)
    ensures LeadingDigits(ToDigits(n, base) + rest, base) == |ToDigits(n, base)|
  {
    var d := ToDigits(n, base);
    var s := d + rest;
    assert forall i :: 0 <= i < |d| ==> s[i] == d[i];
    if |d| < |s| {
      assert s[|d|] == rest[0];
    }
  }
}
