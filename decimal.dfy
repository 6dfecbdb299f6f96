/** Java's decimal conversions between `int` and `String`:
    `Integer.parseInt(s)` and the string concatenation `"" + n`. */
module Decimal {
  import opened Wrappers

  /** Bounds of Java's 32-bit `int`. */
  const MinInt: int := -0x8000_0000
  const MaxInt: int := 0x7FFF_FFFF

  predicate IsDigit(c: char) { '0' <= c <= '9' }

  predicate AllDigits(s: string) { forall i :: 0 <= i < |s| ==> IsDigit(s[i]) }

  function DigitValue(c: char): nat
    requires IsDigit(c)
  {
    (c as int) - ('0' as int)
  }

  function DigitChar(d: nat): (c: char)
    requires d < 10
    ensures IsDigit(c) && DigitValue(c) == d
  {
    ('0' as int + d) as char
  }

  /** The value of a run of decimal digits, most significant digit first. */
  function DigitsValue(s: string): nat
    requires AllDigits(s)
  {
    if |s| == 0 then 0 else DigitsValue(s[..|s| - 1]) * 10 + DigitValue(s[|s| - 1])
  }

  /** Decimal digits of `n`, without leading zeros. */
  function NatToString(n: nat): string
  {
    if n < 10 then [DigitChar(n)] else NatToString(n / 10) + [DigitChar(n % 10)]
  }

  function Pow10(k: nat): nat
  {
    if k == 0 then 1 else 10 * Pow10(k - 1)
  }

  /** A decimal numeral as `Integer.parseInt` reads one: an optional `-` or
      `+`, then at least one digit. */
  predicate Numeral(s: string)
  {
    0 < |s| && (IsDigit(s[0]) || (1 < |s| && (s[0] == '-' || s[0] == '+'))) && AllDigits(s[1..])
  }

  /** Digits read left to right onto the running value `acc`. */
  function Horner(acc: nat, s: string): nat
    requires AllDigits(s)
    decreases |s|
  {
    if |s| == 0 then acc else Horner(acc * 10 + DigitValue(s[0]), s[1..])
  }

  /** The number a numeral denotes, read left to right after its sign. */
  function NumeralValue(s: string): int
    requires Numeral(s)
  {
    var magnitude := if IsDigit(s[0]) then Horner(DigitValue(s[0]), s[1..]) else Horner(0, s[1..]);
    if s[0] == '-' then -magnitude else magnitude
  }

  /** Java's `"" + n`: a minus sign for a negative number, then its digits,
      with no `+` and no leading zero. */
  function IntToString(n: int): (r: string)
    ensures Numeral(r) && NumeralValue(r) == n
    ensures r[0] == '-' <==> n < 0
    ensures r[0] != '+' && (|r| > 1 ==> r[0] != '0' && (r[0] == '-' ==> r[1] != '0'))
  {
    var m := if n < 0 then -n else n;
    NatToStringDigits(m);
    NatToStringLeading(m);
    if n < 0 then
      var digits := NatToString(-n);
      assert ("-" + digits)[1..] == digits;
      NumeralReading("-" + digits);
      "-" + digits
    else
      NumeralReading(NatToString(n));
      NatToString(n)
  }

  /** Java's `Integer.parseInt(s)`, None where it throws NumberFormatException:
      an optional `-` or `+`, then at least one digit, and a value that fits in
      an `int`. */
  function ParseInt(s: string): (r: Option<int>)
    ensures r.Some? <==> Numeral(s) && MinInt <= NumeralValue(s) <= MaxInt
    ensures r.Some? ==> r.value == NumeralValue(s)
  {
    if |s| == 0 then None
    else
      var signed := s[0] == '-' || s[0] == '+';
      var digits := if signed then s[1..] else s;
      LeadingDigit(s);
      if |digits| == 0 || !AllDigits(digits) then None
      else
        var magnitude := DigitsValue(digits);
        var v: int := if s[0] == '-' then -(magnitude as int) else magnitude;
        NumeralReading(s);
        if MinInt <= v <= MaxInt then Some(v) else None
  }

  /** Reading a digit run left to right agrees with reading it right to left. */
  lemma {:induction false} HornerValue(acc: nat, s: string)
    requires AllDigits(s)
    ensures Horner(acc, s) == acc * Pow10(|s|) + DigitsValue(s)
    decreases |s|
  {
    if |s| > 0 {
      var d := DigitValue(s[0]);
      var p := Pow10(|s| - 1);
      HornerValue(acc * 10 + d, s[1..]);
      DigitsValueFront(s);
      Distribute(acc, d, p);
    }
  }

  lemma Distribute(acc: int, d: int, p: int)
    ensures (acc * 10 + d) * p == acc * (10 * p) + d * p
  {
  }

  /** The value of a numeral is its digits' value, negated after a `-`. */
  lemma NumeralReading(s: string)
    requires Numeral(s)
    ensures !IsDigit(s[0]) ==> NumeralValue(s) == if s[0] == '-' then -(DigitsValue(s[1..]) as int) else DigitsValue(s[1..])
    ensures IsDigit(s[0]) ==> AllDigits(s) && NumeralValue(s) == DigitsValue(s)
  {
    LeadingDigit(s);
    if IsDigit(s[0]) {
      HornerValue(DigitValue(s[0]), s[1..]);
      DigitsValueFront(s);
    } else {
      HornerValue(0, s[1..]);
    }
  }

  /** A string is all digits exactly when its first character is a digit
      and the rest are digits. */
  lemma LeadingDigit(s: string)
    requires 0 < |s|
    ensures AllDigits(s) <==> IsDigit(s[0]) && AllDigits(s[1..])
  {
    if IsDigit(s[0]) && AllDigits(s[1..]) {
      forall i | 0 < i < |s|
        ensures IsDigit(s[i])
      {
        assert s[i] == s[1..][i - 1];
      }
    }
  }

  /** The value of a digit run, split at its most significant digit. */
  lemma {:induction false} DigitsValueFront(s: string)
    requires 0 < |s| && AllDigits(s)
    ensures AllDigits(s[1..])
    ensures DigitsValue(s) == DigitValue(s[0]) * Pow10(|s| - 1) + DigitsValue(s[1..])
  {
    LeadingDigit(s);
    var n := |s|;
    if n == 1 {
      assert s[1..] == [];
    } else {
      var front := s[..n - 1];
      DigitsValueFront(front);
      assert front[0] == s[0];
      assert front[1..] == s[1..][..n - 2];
      var d := DigitValue(s[0]);
      var p := Pow10(n - 2);
      var mid := DigitsValue(front[1..]);
      var last := DigitValue(s[n - 1]);
      assert DigitsValue(s) == DigitsValue(front) * 10 + last;
      assert DigitsValue(front) == d * p + mid;
      assert DigitsValue(s[1..]) == mid * 10 + last by {
        assert s[1..][n - 2] == s[n - 1];
      }
      assert Pow10(n - 1) == 10 * p;
      Regroup(d, p, mid, last);
    }
  }

  lemma Regroup(d: int, p: int, mid: int, last: int)
    ensures (d * p + mid) * 10 + last == d * (10 * p) + (mid * 10 + last)
  {
  }

  lemma {:induction false} NatToStringDigits(n: nat)
    ensures 0 < |NatToString(n)| && AllDigits(NatToString(n))
    ensures DigitsValue(NatToString(n)) == n
  {
    if n >= 10 {
      NatToStringDigits(n / 10);
      var s := NatToString(n);
      assert s[..|s| - 1] == NatToString(n / 10);
    }
  }

  /** The decimal string of a positive number does not start with `0`. */
  lemma {:induction false} NatToStringLeading(n: nat)
    ensures n == 0 ==> NatToString(n) == "0"
    ensures n > 0 ==> NatToString(n)[0] != '0'
  {
    if n >= 10 {
      NatToStringLeading(n / 10);
      NatToStringDigits(n / 10);
    }
  }

  /** Parsing the decimal string of an `int` gives that `int` back. */
  lemma ParseIntToString(n: int)
    requires MinInt <= n <= MaxInt
    ensures ParseInt(IntToString(n)) == Some(n)
  {
  }
}
