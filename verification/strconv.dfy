/** The part of Go's `strconv.Atoi` that `ua.go` relies on: an optional `+`
    or `-`, then one or more ASCII digits, whose value must fit Go's `int`.
    The model fixes `int` at 64 bits. */
module Strconv {
  import opened Text
  import opened Results

  const IntMin: int := -0x8000_0000_0000_0000
  const IntMax: int := 0x7FFF_FFFF_FFFF_FFFF

  predicate AllDigits(d: String) {
    forall i :: 0 <= i < |d| ==> IsDigit(d[i])
  }

  /** Decimal value of a digit run, read most significant digit first. */
  function DigitsValue(d: String): nat
    requires AllDigits(d)
  {
    if |d| == 0 then 0
    else DigitsValue(d[..|d| - 1]) * 10 + (d[|d| - 1] as int - '0' as int)
  }

  function Pow10(n: nat): nat {
    if n == 0 then 1 else 10 * Pow10(n - 1)
  }

  /** The text after an optional leading sign. */
  function Unsigned(t: String): String {
    if |t| > 0 && (t[0] == '+' || t[0] == '-') then t[1..] else t
  }

  /** `strconv.Atoi`: `None` stands for its syntax and range errors. */
  function Atoi(t: String): (r: Option<int>)
    ensures r.Some? ==> |t| > 0 && (IsDigit(t[0]) || t[0] == '+' || t[0] == '-')
    ensures r.Some? ==> |t| > 1 || IsDigit(t[0])
    ensures r.Some? ==> forall i :: 0 < i < |t| ==> IsDigit(t[i])
    ensures r.Some? ==> IntMin <= r.value <= IntMax
  {
    var d := Unsigned(t);
    if !IsDigits(d) then None
    else
      var m: int := DigitsValue(d);
      var v := if t[0] == '-' then -m else m;
      if IntMin <= v <= IntMax then Some(v) else None
  }

  /** A run of n digits is worth less than 10^n. */
  lemma {:induction false} DigitsValueBound(d: String)
    requires AllDigits(d)
    ensures DigitsValue(d) < Pow10(|d|)
    decreases |d|
  {
    if |d| > 0 {
      DigitsValueBound(d[..|d| - 1]);
    }
  }

  /** Up to eighteen digits, with or without a sign, always fit a 64-bit
      `int`, so for them Atoi is a pure syntax check that returns the
      signed decimal value. */
  lemma AtoiShort(sign: String, d: String)
    requires sign == "" || sign == "+" || sign == "-"
    requires IsDigits(d) && |d| <= 18
    ensures var m: int := DigitsValue(d);
            Atoi(sign + d) == Some(if sign == "-" then -m else m)
  {
    if sign == "" {
      assert sign + d == d;
      AtoiDigits(d);
    } else {
      AtoiSigned(sign, d);
    }
  }

  lemma AtoiSigned(sign: String, d: String)
    requires sign == "+" || sign == "-"
    requires IsDigits(d) && |d| <= 18
    ensures var m: int := DigitsValue(d);
            Atoi(sign + d) == Some(if sign == "-" then -m else m)
  {
    DigitsFit(d);
    assert Unsigned(sign + d) == d;
  }

  /** Eighteen digits are worth less than 10^18, well inside the range. */
  lemma DigitsFit(d: String)
    requires AllDigits(d) && |d| <= 18
    ensures DigitsValue(d) < 1_000_000_000_000_000_000
  {
    DigitsValueBound(d);
    Pow10Monotone(|d|, 18);
    Pow10Eighteen();
  }

  lemma Pow10Eighteen()
    ensures Pow10(18) == 1_000_000_000_000_000_000
  {
    assert Pow10(9) == 1_000_000_000;
  }

  lemma {:induction false} Pow10Monotone(m: nat, n: nat)
    requires m <= n
    ensures Pow10(m) <= Pow10(n)
    decreases n
  {
    if m < n {
      Pow10Monotone(m, n - 1);
    }
  }

  /** An unsigned run of up to eighteen digits is a number. */
  lemma AtoiDigits(t: String)
    requires IsDigits(t) && |t| <= 18
    ensures Atoi(t) == Some(DigitsValue(t))
  {
    DigitsFit(t);
  }

  /** A run of n digits that starts with a non-zero digit is worth at least
      10^(n-1). */
  lemma {:induction false} DigitsValueLower(d: String)
    requires AllDigits(d) && |d| > 0 && d[0] != '0'
    ensures DigitsValue(d) >= Pow10(|d| - 1)
    decreases |d|
  {
    if |d| > 1 {
      var init := d[..|d| - 1];
      assert init[0] == d[0];
      DigitsValueLower(init);
    }
  }

  /** Twenty or more digits without leading zeros never fit a 64-bit
      `int`: Atoi reports a range error for them. */
  lemma AtoiTooLong(t: String)
    requires IsDigits(t) && |t| >= 20 && t[0] != '0'
    ensures Atoi(t) == None
  {
    DigitsValueLower(t);
    Pow10Eighteen();
    assert Pow10(19) == 10_000_000_000_000_000_000;
    Pow10Monotone(19, |t| - 1);
  }
}
