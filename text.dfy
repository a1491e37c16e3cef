/**
 * Decimal rendering of integers, as a JavaScript template literal renders an
 * integral `number` (`${1450}` is "1450", `${-3}` is "-3").  The stores use
 * it for generated ids (`NT-${Date.now()}`) and for message text.
 */
module Text {

  function DigitChar(d: nat): (c: char)
    requires d < 10
    ensures '0' <= c <= '9'
    ensures c as int - '0' as int == d
  {
    "0123456789"[d]
  }

  /** The number a string of decimal digits denotes, most significant digit first. */
  function Value(s: string): int {
    if s == [] then 0 else Value(s[..|s| - 1]) * 10 + (s[|s| - 1] as int - '0' as int)
  }

  /** `${n}` for a whole number: its decimal numeral, with no leading zero. */
  function NatText(n: nat): (r: string)
    ensures |r| >= 1
    ensures forall i :: 0 <= i < |r| ==> '0' <= r[i] <= '9'
    ensures (r[0] == '0') <==> n == 0
    decreases n
  {
    if n < 10 then [DigitChar(n)] else NatText(n / 10) + [DigitChar(n % 10)]
  }

  /** The numeral `NatText` writes denotes the number it was given. */
  lemma {:induction false} NatTextValue(n: nat)
    ensures Value(NatText(n)) == n
    decreases n
  {
    var r := NatText(n);
    if n < 10 {
      assert r[..0] == [];
    } else {
      NatTextValue(n / 10);
      assert r[..|r| - 1] == NatText(n / 10);
    }
  }

  /** `${i}` for an integer: a `-` in front of the numeral of its magnitude when it is negative. */
  function IntText(i: int): (r: string)
    ensures |r| >= 1
    ensures (r[0] == '-') <==> i < 0
  {
    if i < 0 then "-" + NatText(-i) else NatText(i)
  }

  /** After the sign, `IntText` writes the numeral of the number's magnitude. */
  lemma IntTextValue(i: int)
    ensures i >= 0 ==> Value(IntText(i)) == i
    ensures i < 0 ==> Value(IntText(i)[1..]) == -i
  {
    if i < 0 {
      NatTextValue(-i);
      assert IntText(i)[1..] == NatText(-i);
    } else {
      NatTextValue(i);
    }
  }
}
