/**
 * Decimal digits and numerals: the `[0-9]+` test the source applies with
 * `String.matches`, the value `Integer.parseInt` / `new BigInteger` read from
 * such a run, and the decimal text that `""+n` / `toString()` write.
 */
module Digits {
  import opened Wrappers

  predicate IsDigit(c: char) {
    '0' <= c <= '9'
  }

  predicate AllDigits(s: string) {
    forall i :: 0 <= i < |s| ==> IsDigit(s[i])
  }

  predicate NoDigits(s: string) {
    forall i :: 0 <= i < |s| ==> !IsDigit(s[i])
  }

  /** `s.matches("[0-9]+")` */
  predicate IsNumeric(s: string) {
    |s| > 0 && AllDigits(s)
  }

  function DigitValue(c: char): (d: nat)
    requires IsDigit(c)
    ensures d < 10
  {
    (c as int) - ('0' as int)
  }

  function DigitChar(d: nat): (c: char)
    requires d < 10
    ensures IsDigit(c) && DigitValue(c) == d
  {
    (('0' as int) + d) as char
  }

  /** The value of a run of decimal digits (leading zeros allowed). */
  function Value(s: string): nat
    requires AllDigits(s)
  {
    if s == [] then 0 else Value(s[..|s| - 1]) * 10 + DigitValue(s[|s| - 1])
  }

  /** Plain decimal rendering of a non-negative number, no leading zeros. */
  function Decimal(n: nat): (s: string)
    ensures IsNumeric(s) && Value(s) == n
    ensures s[0] == '0' ==> s == "0"
    ensures '-' !in s
  {
    if n < 10 then [DigitChar(n)]
    else
      var init := Decimal(n / 10);
      var s := init + [DigitChar(n % 10)];
      assert s[..|s| - 1] == init;
      s
  }

  /** Java's `""+n` for an `int`: a minus sign before the magnitude. */
  function IntString(n: int): string {
    if n < 0 then "-" + Decimal(-n) else Decimal(n)
  }

  /** `Integer.parseInt` without its range limit: optional minus, then digits. */
  function ParseInt(s: string): Option<int> {
    if IsNumeric(s) then Some(Value(s))
    else if |s| > 1 && s[0] == '-' && IsNumeric(s[1..]) then Some(-(Value(s[1..]) as int))
    else None
  }

  /** Reading back what `""+n` wrote gives `n`, for every `int`. */
  lemma ParseIntString(n: int)
    ensures ParseInt(IntString(n)) == Some(n)
  {
    if n < 0 {
      var s := IntString(n);
      assert s[1..] == Decimal(-n);
      assert !IsDigit(s[0]);
    }
  }
}
