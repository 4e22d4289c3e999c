/** Decimal numerals, as Python prints and reads them. */
module Decimal {
  import opened Wrappers

  predicate IsDigit(c: char) { '0' <= c <= '9' }

  function Digit(d: nat): (c: char)
    requires d < 10
    ensures IsDigit(c) && DigitValue(c) == d
  {
    '0' + d as char
  }

  function DigitValue(c: char): nat { if IsDigit(c) then (c - '0') as nat else 0 }

  /** The numeral of `n`, without leading zeros. */
  function Numeral(n: nat): string { if n < 10 then [Digit(n)] else Numeral(n / 10) + [Digit(n % 10)] }

  predicate AllDigits(s: string) { forall i :: 0 <= i < |s| ==> IsDigit(s[i]) }

  function Value(s: string): nat {
    if s == [] then 0 else 10 * Value(s[..|s| - 1]) + DigitValue(s[|s| - 1])
  }

  /** `int(s)` for a string of decimal digits; anything else is an error. */
  function Parse(s: string): Option<nat> { if s != [] && AllDigits(s) then Some(Value(s)) else None }

  lemma {:induction false} ParseNumeral(n: nat)
    ensures Parse(Numeral(n)) == Some(n)
    ensures n > 0 ==> Numeral(n)[0] != '0'
  {
    if n < 10 {
      ParseDigit(n);
    } else {
      ParseNumeral(n / 10);
      ParseOneMore(Numeral(n / 10), n % 10);
    }
  }

  lemma ParseDigit(d: nat)
    requires d < 10
    ensures Parse([Digit(d)]) == Some(d) && (d > 0 ==> Digit(d) != '0')
  {
    assert [Digit(d)][..0] == [];
    assert Value([]) == 0;
  }

  lemma ParseOneMore(s: string, d: nat)
    requires Parse(s).Some? && d < 10
    ensures Parse(s + [Digit(d)]) == Some(10 * Parse(s).value + d)
  {
    assert (s + [Digit(d)])[..|s|] == s;
  }

  /** The length of the longest prefix of digits. */
  function DigitPrefix(s: string): (k: nat)
    ensures k <= |s| && AllDigits(s[..k]) && (k < |s| ==> !IsDigit(s[k]))
  {
    if s == [] || !IsDigit(s[0]) then 0
    else
      var k := DigitPrefix(s[1..]);
      assert forall i :: 0 <= i < k ==> s[..k + 1][i + 1] == s[1..][..k][i];
      k + 1
  }

  /** A numeral ends where the digits end. */
  lemma NumeralEnds(n: nat, rest: string)
    requires rest == [] || !IsDigit(rest[0])
    ensures DigitPrefix(Numeral(n) + rest) == |Numeral(n)|
  {
    ParseNumeral(n);
    DigitsEndAt(Numeral(n) + rest, |Numeral(n)|);
  }

  lemma {:induction false} DigitsEndAt(s: string, m: nat)
    requires m <= |s| && (forall i :: 0 <= i < m ==> IsDigit(s[i])) && (m < |s| ==> !IsDigit(s[m]))
    ensures DigitPrefix(s) == m
  {
    if m == 0 {
    } else {
      DigitsEndAt(s[1..], m - 1);
    }
  }
}
