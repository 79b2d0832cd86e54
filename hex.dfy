/** Hexadecimal digits and the `/^0x[a-fA-F0-9]{40}$/` address check. */
module Hex {

  predicate IsHexDigit(c: char)
  {
    '0' <= c <= '9' || 'a' <= c <= 'f' || 'A' <= c <= 'F'
  }

  function HexDigitValue(c: char): (v: nat)
    requires IsHexDigit(c)
    ensures v < 16
  {
    if '0' <= c <= '9' then c as int - '0' as int
    else if 'a' <= c <= 'f' then c as int - 'a' as int + 10
    else c as int - 'A' as int + 10
  }

  /** Scans `s` from position `i` to the end, accepting hex digits only. */
  function AllHexFrom(s: string, i: nat): (ok: bool)
    requires i <= |s|
    ensures ok <==> forall k :: i <= k < |s| ==> IsHexDigit(s[k])
    decreases |s| - i
  {
    i == |s| || (IsHexDigit(s[i]) && AllHexFrom(s, i + 1))
  }

  /**
   * `isHexAddress` in the transaction card and the address guard of the
   * dust-data route: `0x` followed by exactly forty hex digits of either case.
   */
  function IsHexAddress(s: string): (ok: bool)
    ensures ok <==> |s| == 42 && s[..2] == "0x" && forall k :: 2 <= k < 42 ==> IsHexDigit(s[k])
  {
    |s| == 42 && s[0] == '0' && s[1] == 'x' && AllHexFrom(s, 2)
  }

  /** The ASCII lower-case form of a character. */
  function LowerAscii(c: char): char
  {
    if 'A' <= c <= 'Z' then (c as int - 'A' as int + 'a' as int) as char else c
  }

  /** `t` spells the same address as `s`, with the case of the forty digits changed at will. */
  predicate DigitCaseVariant(s: string, t: string)
  {
    |s| == |t| && |s| >= 2 && s[..2] == t[..2] &&
    forall k :: 2 <= k < |s| ==> LowerAscii(s[k]) == LowerAscii(t[k])
  }

  /** The check is insensitive to the case of the hex digits (but not of the `x`). */
  lemma CaseOfDigitsIrrelevant(s: string, t: string)
    requires DigitCaseVariant(s, t)
    ensures IsHexAddress(s) <==> IsHexAddress(t)
  {
    forall k | 2 <= k < |s|
      ensures IsHexDigit(s[k]) <==> IsHexDigit(t[k])
    {
      assert LowerAscii(s[k]) == LowerAscii(t[k]);
    }
  }

  /** Any forty hex digits behind `0x` form an accepted address. */
  lemma {:induction false} PrefixedDigitsAccepted(digits: string)
    requires |digits| == 40
    requires forall k :: 0 <= k < 40 ==> IsHexDigit(digits[k])
    ensures IsHexAddress("0x" + digits)
  {
    var s := "0x" + digits;
    assert s[..2] == "0x";
    forall k | 2 <= k < 42 ensures IsHexDigit(s[k]) {
      assert s[k] == digits[k - 2];
    }
  }
}
