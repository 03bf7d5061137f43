/**
 * Number text as the programs read and write it: `parse_num<int>` of surface_viewer.cpp
 * (`std::from_chars` into a value-initialised `int`, its error result ignored), the decimal
 * form `std::stringstream << int` produces, and `from_chars` for `double`, which is kept as an
 * oracle that answers a value and whether parsing succeeded (`parse_double` in slice_direction.cpp).
 */
module Decimal {
  /** The range of a 32-bit `int`. */
  const INT_MIN: int := -0x8000_0000
  const INT_MAX: int := 0x7fff_ffff

  predicate IsDigit(c: char) {
    '0' <= c <= '9'
  }

  predicate AllDigits(s: string) {
    forall k :: 0 <= k < |s| ==> IsDigit(s[k])
  }

  function DigitChar(d: nat): char
    requires d < 10
  {
    ('0' as int + d) as char
  }

  function DigitValue(c: char): nat
    requires IsDigit(c)
  {
    c as int - '0' as int
  }

  /** Number of digits at the start of `s`. */
  function DigitRun(s: string): (n: nat)
    ensures n <= |s| && AllDigits(s[..n])
    ensures n < |s| ==> !IsDigit(s[n])
  {
    if |s| == 0 || !IsDigit(s[0]) then 0
    else
      var n := 1 + DigitRun(s[1..]);
      assert s[..n] == [s[0]] + s[1..][..n - 1];
      n
  }

  /** The value of a string of decimal digits, most significant first. */
  function DigitsValue(s: string): nat
    requires AllDigits(s)
  {
    if |s| == 0 then 0 else DigitsValue(s[..|s| - 1]) * 10 + DigitValue(s[|s| - 1])
  }

  /** `from_chars` for `int` sees a number: a digit, or a minus sign followed by a digit. */
  predicate HasLeadingNumber(token: string) {
    (|token| > 0 && IsDigit(token[0])) || (|token| > 1 && token[0] == '-' && IsDigit(token[1]))
  }

  /**
   * `parse_num<int>(token)`: an optional minus sign and the longest run of digits after it.
   * `from_chars` leaves the value-initialised result (0) alone when there is no number and
   * when the number does not fit in 32 bits; the error code is ignored by the caller.
   */
  function ParseInt(token: string): (r: int)
    ensures INT_MIN <= r <= INT_MAX
    ensures !HasLeadingNumber(token) ==> r == 0
  {
    var neg := |token| > 0 && token[0] == '-';
    var body := if neg then token[1..] else token;
    var n := DigitRun(body);
    if n == 0 then 0
    else
      var magnitude: int := DigitsValue(body[..n]);
      var v := if neg then -magnitude else magnitude;
      if INT_MIN <= v <= INT_MAX then v else 0
  }

  /** Decimal digits of `n` without leading zeros, as an output stream writes them. */
  function NatToString(n: nat): (s: string)
    ensures |s| > 0 && AllDigits(s)
    ensures |s| > 1 ==> s[0] != '0'
  {
    if n < 10 then [DigitChar(n)]
    else
      var s := NatToString(n / 10) + [DigitChar(n % 10)];
      assert s[0] == NatToString(n / 10)[0];
      s
  }

  /** `ss << i` for an `int`: a minus sign for negative values, then the digits of the magnitude. */
  function IntToString(i: int): string {
    if i < 0 then "-" + NatToString(-i) else NatToString(i)
  }

  /** What `<<` writes for an `int` is digits and at most a leading minus sign. */
  lemma IntToStringAlphabet(i: int)
    ensures forall k :: 0 <= k < |IntToString(i)| ==> IsDigit(IntToString(i)[k]) || IntToString(i)[k] == '-'
  {
    if i < 0 {
      var digits := NatToString(-i);
      assert forall k :: 1 <= k < |IntToString(i)| ==> IntToString(i)[k] == digits[k - 1];
    }
  }

  lemma {:induction false} NatToStringValue(n: nat)
    ensures DigitsValue(NatToString(n)) == n
  {
    if n >= 10 {
      NatToStringValue(n / 10);
      var s := NatToString(n);
      assert s[..|s| - 1] == NatToString(n / 10);
    }
  }

  lemma {:induction false} DigitRunOfDigits(s: string, tail: string)
    requires AllDigits(s)
    requires tail == [] || !IsDigit(tail[0])
    ensures DigitRun(s + tail) == |s|
  {
    if |s| > 0 {
      assert (s + tail)[1..] == s[1..] + tail;
      DigitRunOfDigits(s[1..], tail);
    } else {
      assert s + tail == tail;
    }
  }

  /**
   * Round trip: what `<<` writes for a 32-bit `int`, followed by anything that does not start
   * with a digit, is read back by `parse_num<int>` as the same value.
   */
  lemma ParseIntRoundTrip(i: int, tail: string)
    requires INT_MIN <= i <= INT_MAX
    requires tail == [] || !IsDigit(tail[0])
    ensures ParseInt(IntToString(i) + tail) == i
  {
    var m: nat := if i < 0 then -i else i;
    var digits := NatToString(m);
    NatToStringValue(m);
    DigitRunOfDigits(digits, tail);
    assert (digits + tail)[..|digits|] == digits;
    if i < 0 {
      assert ("-" + digits + tail)[1..] == digits + tail;
    }
  }

  /** The oracle's answer for one token: the parsed value and whether `from_chars` succeeded. */
  datatype DoubleResult = DoubleResult(value: real, ok: bool)

  /** `std::from_chars` for `double`, left uninterpreted. */
  type DoubleParser = string -> DoubleResult

  /** `parse_num<double>(token)`: the parsed value, or the value-initialised 0.0 on failure. */
  function ParseDouble(parse: DoubleParser, token: string): real {
    if parse(token).ok then parse(token).value else 0.0
  }
}
