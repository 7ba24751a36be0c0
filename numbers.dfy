/** Kotlin's decimal conversions between `Int` and `String`: `String.toIntOrNull()`
    (used for the global `samples` property) and `Int.toString()` (used to write and
    compare the hash record). `Int` is 32-bit signed. */
module Numbers {
  import opened Results

  const INT_MIN: int := -0x8000_0000
  const INT_MAX: int := 0x7FFF_FFFF

  predicate InInt32(n: int) {
    INT_MIN <= n <= INT_MAX
  }

  predicate IsDigit(c: char) {
    '0' <= c <= '9'
  }

  predicate AllDigits(s: string) {
    forall i :: 0 <= i < |s| ==> IsDigit(s[i])
  }

  function DigitValue(c: char): nat
    requires IsDigit(c)
  {
    c as int - '0' as int
  }

  function DigitChar(d: nat): (c: char)
    requires d < 10
    ensures IsDigit(c) && DigitValue(c) == d
  {
    ('0' as int + d) as char
  }

  /** The value of a run of decimal digits, most significant digit first. */
  function DigitsValue(s: string): nat
    requires AllDigits(s)
  {
    if s == [] then 0 else DigitsValue(s[..|s| - 1]) * 10 + DigitValue(s[|s| - 1])
  }

  /** `String.toIntOrNull()`: an optional `-` or `+`, then at least one decimal
      digit, and a value that fits in an `Int`; anything else is null. */
  function ParseIntOrNull(s: string): (r: Option<int>)
    ensures r.Some? ==> InInt32(r.value)
  {
    if |s| == 0 then None
    else
      var digits := if s[0] == '-' || s[0] == '+' then s[1..] else s;
      if |digits| == 0 || !AllDigits(digits) then None
      else
        var v: int := if s[0] == '-' then -(DigitsValue(digits) as int) else DigitsValue(digits);
        if InInt32(v) then Some(v) else None
  }

  /** Decimal digits of a natural number, without leading zeros. */
  function NatToString(n: nat): (s: string)
    ensures |s| > 0 && AllDigits(s)
    ensures s[0] == '0' ==> n == 0
  {
    if n < 10 then [DigitChar(n)] else NatToString(n / 10) + [DigitChar(n % 10)]
  }

  /** `Int.toString()`: a `-` for negative numbers, then the digits of the magnitude. */
  function IntToString(n: int): string {
    if n < 0 then "-" + NatToString(-n) else NatToString(n)
  }

  lemma {:induction false} NatToStringValue(n: nat)
    ensures DigitsValue(NatToString(n)) == n
  {
    if n >= 10 {
      NatToStringValue(n / 10);
      var s := NatToString(n);
      assert s[..|s| - 1] == NatToString(n / 10);
    }
  }

  /** Every `Int` written by `toString` is read back by `toIntOrNull`. */
  lemma ParseIntToString(n: int)
    requires InInt32(n)
    ensures ParseIntOrNull(IntToString(n)) == Some(n)
  {
    var s := IntToString(n);
    if n < 0 {
      NatToStringValue(-n);
      assert s[1..] == NatToString(-n);
    } else {
      NatToStringValue(n);
    }
  }

  lemma NatToStringInjective(a: nat, b: nat)
    requires NatToString(a) == NatToString(b)
    ensures a == b
  {
    NatToStringValue(a);
    NatToStringValue(b);
  }

  /** Distinct numbers have distinct decimal strings, so a hash that changed is
      seen as changed when it is compared as text. */
  lemma IntToStringInjective(a: int, b: int)
    requires IntToString(a) == IntToString(b)
    ensures a == b
  {
    var s := IntToString(a);
    if a < 0 {
      assert s[0] == '-';
      assert b < 0;
      assert s[1..] == NatToString(-a);
      assert IntToString(b)[1..] == NatToString(-b);
      NatToStringInjective(-a, -b);
    } else {
      assert IsDigit(s[0]);
      assert b >= 0;
      NatToStringInjective(a, b);
    }
  }

  /** `toIntOrNull` makes no sign or positivity demand: "-5" is the Int -5. */
  lemma ParseNegativeSample()
    ensures ParseIntOrNull("-5") == Some(-5)
  {
    assert "-5"[1..] == "5";
    assert "5"[..0] == [];
  }
}
