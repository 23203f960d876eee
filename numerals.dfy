/** Integers as text: Swift's `UInt64(_ text:, radix:)` parser, which `parseBlockNumber` uses
    (BRBlockChainDB.swift, lines 1199-1203), and the digit strings that `description` prints. */
module Numerals {
  import opened Wrappers
  import opened Json

  /** The value of one digit character in bases up to 36: `0`-`9`, then `a`-`z` or `A`-`Z`. */
  function DigitValue(c: char): (r: Option<nat>)
    ensures r.Some? ==> r.value < 36
  {
    if '0' <= c <= '9' then Some(c as int - '0' as int)
    else if 'a' <= c <= 'z' then Some(c as int - 'a' as int + 10)
    else if 'A' <= c <= 'Z' then Some(c as int - 'A' as int + 10)
    else None
  }

  /** The lower-case character for a digit value. */
  function DigitChar(v: nat): (c: char)
    requires v < 36
    ensures DigitValue(c) == Some(v)
  {
    if v < 10 then ('0' as int + v) as char else ('a' as int + v - 10) as char
  }

  /** The value of a non-empty run of digits in base `radix`, most significant first; absent
      when the run is empty or holds a character that is not a digit below `radix`. */
  function DigitsValue(s: string, radix: nat): Option<nat>
    requires 2 <= radix <= 36
    decreases |s|
  {
    if s == [] then None
    else
      var low :- DigitValue(s[|s| - 1]);
      if low >= radix then None
      else if |s| == 1 then Some(low)
      else
        var high :- DigitsValue(s[..|s| - 1], radix);
        Some(high * radix + low)
  }

  lemma DivModDigit(n: nat, radix: nat)
    requires 2 <= radix <= n
    ensures n / radix < n && n % radix < radix && (n / radix) * radix + n % radix == n
  {
  }

  /** The digits of `n` in base `radix`, most significant first, without leading zeros. */
  function Numeral(n: nat, radix: nat): (s: string)
    requires 2 <= radix <= 36
    ensures |s| >= 1
    ensures forall i :: 0 <= i < |s| ==> DigitValue(s[i]).Some? && DigitValue(s[i]).value < radix
    ensures s[0] == '0' <==> n == 0
    ensures |s| > 1 ==> s[0] != '0'
    decreases n
  {
    if n < radix then [DigitChar(n)]
    else
      DivModDigit(n, radix);
      Numeral(n / radix, radix) + [DigitChar(n % radix)]
  }

  /** Printing and then reading back a numeral gives the number. */
  lemma {:induction false} NumeralRoundTrip(n: nat, radix: nat)
    requires 2 <= radix <= 36
    ensures DigitsValue(Numeral(n, radix), radix) == Some(n)
    decreases n
  {
    if n >= radix {
      var s := Numeral(n, radix);
      DivModDigit(n, radix);
      NumeralRoundTrip(n / radix, radix);
      assert s[..|s| - 1] == Numeral(n / radix, radix);
      assert s[|s| - 1] == DigitChar(n % radix);
    }
  }

  /** Keep a parsed value only when it fits in 64 bits (the parser reports overflow as nil). */
  function FitUInt64(v: Option<nat>): (r: Option<UInt64>)
    ensures r.Some? <==> v.Some? && v.value < UINT64_LIMIT
    ensures r.Some? ==> r.value == v.value
  {
    if v.Some? && v.value < UINT64_LIMIT then Some(v.value) else None
  }

  /** Swift's `UInt64(text, radix: radix)`: an optional `+` or `-` sign and then one or more
      digits; a value of 2^64 or more is rejected. For an unsigned type a `-` is accepted only
      before digits that are all zero, since any other digit underflows. */
  function ParseUInt64(text: string, radix: nat): (r: Option<UInt64>)
    requires 2 <= radix <= 36
    ensures r.Some? ==> text != []
    ensures r.Some? && text[0] == '-' ==> r.value == 0 && DigitsValue(text[1..], radix) == Some(0)
    ensures r.Some? && text[0] == '+' ==> DigitsValue(text[1..], radix) == Some(r.value)
    ensures r.Some? && text[0] != '+' && text[0] != '-' ==> DigitsValue(text, radix) == Some(r.value)
    ensures (text != [] && text[0] == '+' && DigitsValue(text[1..], radix).Some?
             && DigitsValue(text[1..], radix).value < UINT64_LIMIT) ==> r == Some(DigitsValue(text[1..], radix).value)
    ensures text != [] && text[0] == '-' && DigitsValue(text[1..], radix) == Some(0) ==> r == Some(0)
    ensures (text != [] && text[0] != '+' && text[0] != '-' && DigitsValue(text, radix).Some?
             && DigitsValue(text, radix).value < UINT64_LIMIT) ==> r == Some(DigitsValue(text, radix).value)
  {
    if text == [] then None
    else if text[0] == '+' then FitUInt64(DigitsValue(text[1..], radix))
    else if text[0] == '-' then (if DigitsValue(text[1..], radix) == Some(0) then Some(0) else None)
    else FitUInt64(DigitsValue(text, radix))
  }

  /** Every 64-bit value printed in any base parses back to itself. */
  lemma ParseNumeral(n: UInt64, radix: nat)
    requires 2 <= radix <= 36
    ensures ParseUInt64(Numeral(n, radix), radix) == Some(n)
  {
    var s := Numeral(n, radix);
    assert DigitValue(s[0]).Some?;
    NumeralRoundTrip(n, radix);
  }

  /** Swift's `Int.description`: a minus sign for negatives and the decimal digits, with no
      leading zero. */
  function Decimal(i: int): (s: string)
    ensures |s| >= 1
    ensures i >= 0 ==> DigitsValue(s, 10) == Some(i) && (|s| > 1 ==> s[0] != '0')
    ensures i < 0 ==> |s| >= 2 && s[0] == '-' && s[1] != '0' && DigitsValue(s[1..], 10) == Some(-i)
  {
    NumeralRoundTrip(if i < 0 then -i else i, 10);
    if i < 0 then "-" + Numeral(-i, 10) else Numeral(i, 10)
  }
}
