/** Lower-case hexadecimal rendering of addresses, as produced by `std::hex` and `%x`. */
module Hex {
  import opened Wrappers

  predicate IsHexDigit(c: char) {
    '0' <= c <= '9' || 'a' <= c <= 'f'
  }

  predicate AllHexDigits(s: string) {
    forall i :: 0 <= i < |s| ==> IsHexDigit(s[i])
  }

  function Digit(d: nat): (c: char)
    requires d < 16
    ensures IsHexDigit(c)
    ensures d == 0 <==> c == '0'
  {
    if d < 10 then ('0' as int + d) as char else ('a' as int + d - 10) as char
  }

  function DigitValue(c: char): (d: nat)
    requires IsHexDigit(c)
    ensures d < 16
    ensures Digit(d) == c
  {
    if '0' <= c <= '9' then c as int - '0' as int else c as int - 'a' as int + 10
  }

  /** The shortest lower-case hexadecimal numeral for n, without prefix. */
  function ToHex(n: nat): (s: string)
    ensures 1 <= |s|
    ensures AllHexDigits(s)
    ensures n > 0 ==> s[0] != '0'
    decreases n
  {
    if n < 16 then [Digit(n)] else ToHex(n / 16) + [Digit(n % 16)]
  }

  /** The value of a hexadecimal numeral; the reference reading of ToHex's output. */
  function FromHex(s: string): nat
    requires AllHexDigits(s)
  {
    if |s| == 0 then 0 else 16 * FromHex(s[..|s| - 1]) + DigitValue(s[|s| - 1])
  }

  /** Reading back a rendered numeral yields the number that was rendered. */
  lemma {:induction false} FromHexToHex(n: nat)
    ensures FromHex(ToHex(n)) == n
    decreases n
  {
    if n >= 16 {
      var s := ToHex(n);
      assert s[..|s| - 1] == ToHex(n / 16);
      FromHexToHex(n / 16);
    }
  }

  /** Distinct numbers render to distinct numerals. */
  lemma ToHexInjective(a: nat, b: nat)
    requires ToHex(a) == ToHex(b)
    ensures a == b
  {
    FromHexToHex(a);
    FromHexToHex(b);
  }

  /** A synthesized name: a fixed prefix followed by the hexadecimal numeral of n. */
  function Prefixed(prefix: string, n: nat): (s: string)
    ensures |s| > |prefix| && s[..|prefix|] == prefix
    ensures AllHexDigits(s[|prefix|..])
  {
    prefix + ToHex(n)
  }

  /** Reads the number back out of a name made by Prefixed with the same prefix. */
  function ParsePrefixed(prefix: string, s: string): Option<nat> {
    if |s| > |prefix| && s[..|prefix|] == prefix && AllHexDigits(s[|prefix|..])
    then Some(FromHex(s[|prefix|..]))
    else None
  }

  /** A synthesized name identifies the number it was made from. */
  lemma PrefixedRoundTrip(prefix: string, n: nat)
    ensures ParsePrefixed(prefix, Prefixed(prefix, n)) == Some(n)
  {
    assert Prefixed(prefix, n)[|prefix|..] == ToHex(n);
    FromHexToHex(n);
  }

  /** Two numbers never share a synthesized name under the same prefix. */
  lemma PrefixedInjective(prefix: string, a: nat, b: nat)
    requires Prefixed(prefix, a) == Prefixed(prefix, b)
    ensures a == b
  {
    PrefixedRoundTrip(prefix, a);
    PrefixedRoundTrip(prefix, b);
  }
}
