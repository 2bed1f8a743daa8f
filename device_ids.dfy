/**
 * Device identifiers. The metering library reports a device's gid as an integer;
 * the worker keeps it as text (`str(devices[0].device_gid)`, persisted under the
 * `device_gid` configuration key) and turns it back into an integer for every poll
 * (`int(device_gid)`), which raises on text that is not a number.
 */
module DeviceIds {
  import opened Wrappers

  predicate IsDigit(c: char) {
    '0' <= c <= '9'
  }

  predicate AllDigits(s: string) {
    forall i :: 0 <= i < |s| ==> IsDigit(s[i])
  }

  function DigitChar(d: nat): (c: char)
    requires d < 10
    ensures IsDigit(c)
  {
    ('0' as int + d) as char
  }

  /** Decimal text of a natural number, most significant digit first, no leading zeros. */
  function NatToDecimal(n: nat): (s: string)
    ensures |s| > 0 && AllDigits(s)
    ensures n > 0 ==> s[0] != '0'
  {
    if n < 10 then [DigitChar(n)] else NatToDecimal(n / 10) + [DigitChar(n % 10)]
  }

  /** Python's `str(n)` for an integer. */
  function IntToDecimal(n: int): (s: string)
    ensures |s| > 0
    ensures n < 0 <==> s[0] == '-'
    ensures n < 0 ==> |s| > 1 && AllDigits(s[1..]) && s[1] != '0'
    ensures n >= 0 ==> AllDigits(s) && (n > 0 ==> s[0] != '0')
    ensures n == 0 ==> s == "0"
  {
    if n < 0 then "-" + NatToDecimal(-n) else NatToDecimal(n)
  }

  /** The value of a run of decimal digits (leading zeros allowed, as `int()` allows them). */
  function DigitsValue(s: string): nat
    requires AllDigits(s)
  {
    if s == [] then 0 else DigitsValue(s[..|s| - 1]) * 10 + (s[|s| - 1] as int - '0' as int)
  }

  /** Text `int()` reads as a decimal number in this model: one or more digits, optionally after a sign. */
  predicate IsDecimalText(text: string) {
    || (|text| > 0 && AllDigits(text))
    || (|text| > 1 && (text[0] == '-' || text[0] == '+') && AllDigits(text[1..]))
  }

  /** Python's `int(text)`: an optional sign followed by one or more decimal digits; any other text raises. */
  function ParseInt(text: string): (r: Option<int>)
    ensures r.Some? <==> IsDecimalText(text)
    ensures |text| > 0 && AllDigits(text) ==> r == Some(DigitsValue(text))
    ensures |text| > 1 && text[0] == '+' && AllDigits(text[1..]) ==> r == Some(DigitsValue(text[1..]))
    ensures |text| > 1 && text[0] == '-' && AllDigits(text[1..]) ==> r == Some(-(DigitsValue(text[1..]) as int))
  {
    if |text| > 0 && (text[0] == '-' || text[0] == '+') then
      var digits := text[1..];
      if |digits| > 0 && AllDigits(digits) then
        var v: int := DigitsValue(digits);
        Some(if text[0] == '-' then -v else v)
      else None
    else if |text| > 0 && AllDigits(text) then Some(DigitsValue(text))
    else None
  }

  lemma {:induction false} NatRoundTrip(n: nat)
    ensures DigitsValue(NatToDecimal(n)) == n
  {
    var s := NatToDecimal(n);
    if n >= 10 {
      NatRoundTrip(n / 10);
      assert s[..|s| - 1] == NatToDecimal(n / 10);
    }
  }

  /** A gid saved from discovery always reads back as the same integer: `int(str(n)) == n`. */
  lemma {:induction false} IntRoundTrip(n: int)
    ensures ParseInt(IntToDecimal(n)) == Some(n)
  {
    if n < 0 {
      var digits := NatToDecimal(-n);
      var text := "-" + digits;
      assert IntToDecimal(n) == text;
      assert text[0] == '-' && text[1..] == digits;
      NatRoundTrip(-n);
    } else {
      var text := NatToDecimal(n);
      assert IsDigit(text[0]);
      NatRoundTrip(n);
    }
  }

  /**
   * A character `int()` never accepts in decimal text: ASCII, and neither a digit,
   * a sign, an underscore nor whitespace.
   */
  predicate IsForeignChar(c: char) {
    (c as int) < 128 && !IsDigit(c) && c != '+' && c != '-' && c != '_' && c != ' ' && !('\t' <= c <= '\r')
  }

  /** The empty text, and text holding a character `int()` never accepts, are rejected, as `int()` raises on them. */
  lemma ParseIntRejects(text: string)
    requires text == [] || exists i :: 0 <= i < |text| && IsForeignChar(text[i])
    ensures ParseInt(text) == None
  {
    if text != [] {
      var i :| 0 <= i < |text| && IsForeignChar(text[i]);
      if text[0] == '-' || text[0] == '+' {
        assert text[1..][i - 1] == text[i];
      }
    }
  }
}
