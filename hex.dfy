/**
 * Hex strings as ethers.js (version 5) treats them: `isHexString`, `hexZeroPad` and
 * JavaScript's `toLowerCase` on ASCII, plus the numeric value a string of
 * hex digits denotes, which is what padding and case folding must preserve.
 */
module Hex {
  import opened Basics

  predicate IsHexDigit(c: char) {
    '0' <= c <= '9' || 'a' <= c <= 'f' || 'A' <= c <= 'F'
  }

  predicate IsLowerHexDigit(c: char) {
    '0' <= c <= '9' || 'a' <= c <= 'f'
  }

  predicate AllHexDigits(s: string) {
    forall i :: 0 <= i < |s| ==> IsHexDigit(s[i])
  }

  /** ethers' isHexString: the literal prefix "0x" followed by hex digits of either case. */
  predicate IsHexString(s: string) {
    |s| >= 2 && s[0] == '0' && s[1] == 'x' && AllHexDigits(s[2..])
  }

  /** A 20-byte address as a hex string: "0x" and 40 hex digits. */
  predicate IsAddressString(s: string) {
    IsHexString(s) && |s| == 42
  }

  function DigitValue(c: char): (v: nat)
    requires IsHexDigit(c)
    ensures v < 16
  {
    if '0' <= c <= '9' then c as int - '0' as int
    else if 'a' <= c <= 'f' then c as int - 'a' as int + 10
    else c as int - 'A' as int + 10
  }

  function Pow16(n: nat): nat {
    if n == 0 then 1 else 16 * Pow16(n - 1)
  }

  /**
   * The number a string of hex digits denotes, most significant digit
   * first; n digits hold n half-bytes, so the value is below 16^n.
   */
  function HexValue(digits: string): (v: nat)
    requires AllHexDigits(digits)
    ensures v < Pow16(|digits|)
  {
    if digits == [] then 0
    else
      var top := Pow16(|digits| - 1);
      LeadingDigitBound(DigitValue(digits[0]), top, HexValue(digits[1..]));
      DigitValue(digits[0]) * top + HexValue(digits[1..])
  }

  /** A digit below 16 in front of a value below 16^k gives a value below 16^(k+1). */
  lemma LeadingDigitBound(d: nat, top: nat, rest: nat)
    requires d < 16 && rest < top
    ensures d * top + rest < 16 * top
  {
    assert d * top <= 15 * top;
  }

  function Zeros(n: nat): (z: string)
    ensures |z| == n && forall i :: 0 <= i < n ==> z[i] == '0'
  {
    seq(n, _ => '0')
  }

  /** Leading zero digits do not change the value of a hex number. */
  lemma {:induction false} ZeroPrefixKeepsValue(n: nat, digits: string)
    requires AllHexDigits(digits)
    ensures AllHexDigits(Zeros(n) + digits)
    ensures HexValue(Zeros(n) + digits) == HexValue(digits)
  {
    var padded := Zeros(n) + digits;
    assert AllHexDigits(padded) by {
      forall i | 0 <= i < |padded| ensures IsHexDigit(padded[i]) {
        if i >= n { assert padded[i] == digits[i - n]; }
      }
    }
    if n == 0 {
      assert padded == digits;
    } else {
      assert padded[0] == '0' && padded[1..] == Zeros(n - 1) + digits;
      ZeroPrefixKeepsValue(n - 1, digits);
      assert HexValue(padded) == 0 * Pow16(|padded| - 1) + HexValue(padded[1..]);
    }
  }

  datatype PadError = InvalidHexString | ValueOutOfRange

  /**
   * ethers v5's hexZeroPad(value, length): refuses a value that is not a hex
   * string or that has more than 2*length digits, and otherwise inserts
   * zero digits after "0x" until there are exactly 2*length of them.
   */
  function HexZeroPad(value: string, length: nat): (r: Result<string, PadError>)
    ensures r.Err? <==> !IsHexString(value) || |value| > 2 * length + 2
    ensures !IsHexString(value) ==> r == Err(InvalidHexString)
    ensures r.Ok? ==> IsHexString(r.value) && |r.value| == 2 * length + 2
    ensures r.Ok? ==> r.value[2 * length + 4 - |value|..] == value[2..]
    ensures r.Ok? ==> r.value[2..2 * length + 4 - |value|] == Zeros(2 * length + 2 - |value|)
    ensures r.Ok? ==> HexValue(r.value[2..]) == HexValue(value[2..])
  {
    if !IsHexString(value) then Err(InvalidHexString)
    else if |value| > 2 * length + 2 then Err(ValueOutOfRange)
    else
      var zeros := Zeros(2 * length + 2 - |value|);
      ZeroPrefixKeepsValue(|zeros|, value[2..]);
      var padded := "0x" + zeros + value[2..];
      assert padded[2..] == zeros + value[2..];
      Ok(padded)
  }

  /** JavaScript's toLowerCase restricted to ASCII letters. */
  function LowerChar(c: char): char {
    if 'A' <= c <= 'Z' then (c as int + 32) as char else c
  }

  function ToLower(s: string): (r: string)
    ensures |r| == |s| && forall i :: 0 <= i < |s| ==> r[i] == LowerChar(s[i])
  {
    seq(|s|, i requires 0 <= i < |s| => LowerChar(s[i]))
  }

  /** Lower-casing keeps a string of hex digits a string of (lower-case) hex digits with the same value. */
  lemma {:induction false} LowerKeepsHexValue(digits: string)
    requires AllHexDigits(digits)
    ensures AllHexDigits(ToLower(digits))
    ensures forall i :: 0 <= i < |digits| ==> IsLowerHexDigit(ToLower(digits)[i])
    ensures HexValue(ToLower(digits)) == HexValue(digits)
  {
    var low := ToLower(digits);
    assert forall i :: 0 <= i < |digits| ==> IsLowerHexDigit(low[i]) && DigitValue(low[i]) == DigitValue(digits[i]);
    if digits != [] {
      assert low[1..] == ToLower(digits[1..]);
      LowerKeepsHexValue(digits[1..]);
    }
  }
}
