/**
 * Text form of JavaScript bigints: `n.toString()` (what the dust-data route
 * writes into the allowance field) and `BigInt(s)` (how the components read
 * allowances and transaction values back).
 */
module BigIntText {
  import opened Wrappers
  import Hex

  predicate IsDecDigit(c: char)
  {
    '0' <= c <= '9'
  }

  predicate AllDecDigits(s: string)
  {
    forall k :: 0 <= k < |s| ==> IsDecDigit(s[k])
  }

  predicate AllHexDigits(s: string)
  {
    forall k :: 0 <= k < |s| ==> Hex.IsHexDigit(s[k])
  }

  function DigitChar(d: nat): (c: char)
    requires d < 10
    ensures IsDecDigit(c)
  {
    (d + '0' as int) as char
  }

  function DigitValue(c: char): (d: nat)
    requires IsDecDigit(c)
    ensures d < 10 && DigitChar(d) == c
  {
    c as int - '0' as int
  }

  /** `n.toString()`: decimal digits without sign and without leading zeros. */
  function ToDecimal(n: nat): (s: string)
    ensures |s| >= 1 && AllDecDigits(s)
    ensures |s| > 1 ==> s[0] != '0'
    decreases n
  {
    if n < 10 then [DigitChar(n)] else ToDecimal(n / 10) + [DigitChar(n % 10)]
  }

  /** The number a string of decimal digits denotes (most significant digit first). */
  function DecimalValue(s: string): nat
    requires AllDecDigits(s)
    decreases |s|
  {
    if s == [] then 0 else DecimalValue(s[..|s| - 1]) * 10 + DigitValue(s[|s| - 1])
  }

  /** The number a string of hex digits denotes (most significant digit first). */
  function HexValue(s: string): nat
    requires AllHexDigits(s)
    decreases |s|
  {
    if s == [] then 0 else HexValue(s[..|s| - 1]) * 16 + Hex.HexDigitValue(s[|s| - 1])
  }

  /**
   * `BigInt(s)`: the empty string is 0, a run of decimal digits is its value,
   * `0x`/`0X` followed by hex digits is its hex value; anything else throws
   * (`None`).
   */
  function ParseBigInt(s: string): Option<nat>
  {
    if s == "" then Some(0)
    else if |s| >= 2 && s[0] == '0' && (s[1] == 'x' || s[1] == 'X') then
      if |s| > 2 && AllHexDigits(s[2..]) then Some(HexValue(s[2..])) else None
    else if AllDecDigits(s) then Some(DecimalValue(s))
    else None
  }

  lemma {:induction false} DecimalValueOfToDecimal(n: nat)
    ensures DecimalValue(ToDecimal(n)) == n
    decreases n
  {
    if n >= 10 {
      var s := ToDecimal(n);
      assert s[..|s| - 1] == ToDecimal(n / 10);
      DecimalValueOfToDecimal(n / 10);
    }
  }

  /** Reading back what `toString()` wrote gives the same bigint: the text form never throws. */
  lemma ParseToDecimal(n: nat)
    ensures ParseBigInt(ToDecimal(n)) == Some(n)
  {
    var s := ToDecimal(n);
    assert |s| >= 2 ==> IsDecDigit(s[1]);
    DecimalValueOfToDecimal(n);
  }

  /** Two values are equal exactly when their text forms are. */
  lemma ToDecimalInjective(m: nat, n: nat)
    ensures ToDecimal(m) == ToDecimal(n) <==> m == n
  {
    if ToDecimal(m) == ToDecimal(n) {
      ParseToDecimal(m);
      ParseToDecimal(n);
    }
  }
}
