/**
 Decimal rendering of a port number, as JavaScript does when a number is
 concatenated to a string (`'http://localhost:' + port + '/'`), together with
 its inverse so that the rendering is known to lose nothing.
 */
module Decimal {

  predicate IsDigit(c: char) {
    '0' <= c <= '9'
  }

  predicate IsDigits(s: string) {
    forall i :: 0 <= i < |s| ==> IsDigit(s[i])
  }

  function DigitChar(d: nat): (c: char)
    requires d < 10
    ensures IsDigit(c)
    ensures c as int - '0' as int == d
  {
    ('0' as int + d) as char
  }

  /** Reads a string of decimal digits back into the number it denotes. */
  function FromDecimal(s: string): nat
    requires IsDigits(s)
    decreases |s|
  {
    if |s| == 0 then 0
    else FromDecimal(s[..|s| - 1]) * 10 + (s[|s| - 1] as int - '0' as int)
  }

  /** The shortest decimal rendering of `n` (no leading zero). */
  function ToDecimal(n: nat): (s: string)
    ensures 1 <= |s|
    ensures IsDigits(s)
    ensures 1 < |s| ==> s[0] != '0'
    ensures FromDecimal(s) == n
    decreases n
  {
    if n < 10 then [DigitChar(n)]
    else
      var prefix := ToDecimal(n / 10);
      var s := prefix + [DigitChar(n % 10)];
      assert s[..|s| - 1] == prefix;
      s
  }

  /** Distinct numbers render to distinct strings. */
  lemma ToDecimalInjective(a: nat, b: nat)
    ensures ToDecimal(a) == ToDecimal(b) <==> a == b
  {
    if ToDecimal(a) == ToDecimal(b) {
      assert FromDecimal(ToDecimal(a)) == FromDecimal(ToDecimal(b));
    }
  }

}
