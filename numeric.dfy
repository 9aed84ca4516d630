/** Rust's `str::parse` for `u64`, `usize` (64-bit targets) and `i64`: an
    optional sign, then one or more ASCII decimal digits, and a value that fits
    the type. Leading zeros are allowed; nothing else is, white space included. */
module Numeric {
  import opened Base
  import opened Text

  predicate IsDigit(c: char) {
    '0' <= c <= '9'
  }

  predicate AllDigits(s: string) {
    forall i :: 0 <= i < |s| ==> IsDigit(s[i])
  }

  function DigitValue(c: char): nat
    requires IsDigit(c)
  {
    c as int - '0' as int
  }

  /** The value of a string of decimal digits, most significant first. */
  function DecimalValue(s: string): nat
    requires AllDigits(s)
  {
    if s == [] then 0 else 10 * DecimalValue(s[..|s| - 1]) + DigitValue(s[|s| - 1])
  }

  /** `<u64 as FromStr>::from_str`: an optional `+`, then digits; a lone `+` and
      any `-` are refused. */
  function ParseU64(s: string): (r: Option<nat>)
    ensures r.Some? ==> IsU64(r.value)
    ensures s == [] ==> r.None?
    ensures r.Some? ==> exists i :: 0 <= i < |s| && IsDigit(s[i])
  {
    var digits := if s != [] && s[0] == '+' then s[1..] else s;
    if digits == [] || !AllDigits(digits) then None
    else
      var v := DecimalValue(digits);
      if v <= U64Max then
        assert IsDigit(s[|s| - |digits|]);
        Some(v)
      else None
  }

  /** `<i64 as FromStr>::from_str`: an optional `+` or `-`, then digits; a lone
      sign is refused. */
  function ParseI64(s: string): (r: Option<int>)
    ensures r.Some? ==> I64Min <= r.value <= I64Max
    ensures r.Some? ==> s != [] && (r.value < 0 ==> s[0] == '-')
  {
    if s == [] then None
    else
      var signed := s[0] == '+' || s[0] == '-';
      var digits := if signed then s[1..] else s;
      if digits == [] || !AllDigits(digits) then None
      else
        var magnitude: int := DecimalValue(digits);
        var v: int := if s[0] == '-' then -magnitude else magnitude;
        if I64Min <= v <= I64Max then Some(v) else None
  }

  // ------------------------------------------------------------ decimal rendering

  /** The decimal rendering of `n` without leading zeros (what the kernel writes). */
  function Decimal(n: nat): (s: string)
    ensures s != [] && AllDigits(s)
    ensures n > 0 ==> s[0] != '0'
  {
    var d := ['0' + ((n % 10) as char)];
    if n < 10 then d else Decimal(n / 10) + d
  }

  /** The decimal rendering of an integer, with a minus sign when negative. */
  function IntText(n: int): (s: string)
    ensures s != []
  {
    if n < 0 then "-" + Decimal(-n) else Decimal(n)
  }

  /** Reading back a decimal rendering gives the number. */
  lemma {:induction false} DecimalValueOfDecimal(n: nat)
    ensures DecimalValue(Decimal(n)) == n
  {
    var s := Decimal(n);
    if n >= 10 {
      DecimalValueOfDecimal(n / 10);
      assert s[..|s| - 1] == Decimal(n / 10);
    }
  }

  /** `parse::<u64>` inverts the kernel's rendering of every `u64`. */
  lemma ParseU64OfDecimal(n: nat)
    requires IsU64(n)
    ensures ParseU64(Decimal(n)) == Some(n)
  {
    DecimalValueOfDecimal(n);
  }

  /** `parse::<i64>` inverts the rendering of every non-negative `i64`, and of
      every negative one written with a leading minus sign. */
  lemma ParseI64OfDecimal(n: int)
    requires I64Min <= n <= I64Max
    ensures ParseI64(IntText(n)) == Some(n)
  {
    if n < 0 {
      DecimalValueOfDecimal(-n);
      assert ("-" + Decimal(-n))[1..] == Decimal(-n);
    } else {
      DecimalValueOfDecimal(n);
    }
  }

  /** A rendered integer is one word, and not the word `max`. */
  lemma IntTextIsWord(n: int)
    ensures NoSpace(IntText(n)) && IntText(n) != "max"
  {
    var s := IntText(n);
    var d := if n < 0 then Decimal(-n) else Decimal(n);
    assert forall i :: 0 <= i < |d| ==> IsDigit(d[i]);
    if n < 0 {
      assert forall i :: 1 <= i < |s| ==> s[i] == d[i - 1];
    }
    assert s[0] == '-' || IsDigit(s[0]);
  }

  /** The sentinel word `max` is not a number for either parse. */
  lemma MaxIsNotANumber()
    ensures ParseU64("max") == None
    ensures ParseI64("max") == None
  {
    assert !IsDigit("max"[0]);
  }
}
