/**
 * The currency cells of the invoice table. The generator renders every price
 * `x` (in naira) with the format `N{x:.2f}`: the letter N, the whole part in
 * decimal, a point and exactly two decimals. Amounts are modelled as exact
 * whole numbers of kobo (hundredths of a naira), so `x` is `amount / 100`.
 */
module Currency {
  import opened Wrappers

  /** An amount of money in kobo, one hundredth of a naira. */
  type Kobo = nat

  predicate IsDigit(c: char) {
    '0' <= c <= '9'
  }

  predicate AllDigits(s: string) {
    forall i :: 0 <= i < |s| ==> IsDigit(s[i])
  }

  function DigitValue(c: char): (d: nat)
    requires IsDigit(c)
    ensures d < 10
  {
    c as int - '0' as int
  }

  function DigitChar(d: nat): (c: char)
    requires d < 10
    ensures IsDigit(c) && DigitValue(c) == d
  {
    ('0' as int + d) as char
  }

  /** The decimal numeral of `n` without leading zeros, as Python prints an int. */
  function Decimal(n: nat): (s: string)
    ensures |s| > 0 && AllDigits(s)
    ensures s[0] == '0' <==> n == 0
    decreases n
  {
    if n < 10 then [DigitChar(n)] else Decimal(n / 10) + [DigitChar(n % 10)]
  }

  /** The number a string of decimal digits stands for. */
  function ValueOf(s: string): (n: nat)
    requires AllDigits(s)
  {
    if s == [] then 0 else ValueOf(s[..|s| - 1]) * 10 + DigitValue(s[|s| - 1])
  }

  /**
   * `f"N{x:.2f}"` for `x == amount / 100` naira. Below about 2^46 naira the
   * nearest float to `x` rounds back to these two decimals.
   */
  function Naira(amount: Kobo): (s: string)
    ensures |s| >= 5 && s[0] == 'N' && s[|s| - 3] == '.'
  {
    "N" + Decimal(amount / 100) + "." + [DigitChar(amount % 100 / 10), DigitChar(amount % 10)]
  }

  /** Reads a currency cell back: the inverse of `Naira` on its image. */
  function ParseNaira(s: string): (r: Option<Kobo>)
    ensures r.Some? ==> |s| >= 5 && s[0] == 'N' && s[|s| - 3] == '.'
                        && AllDigits(s[1..|s| - 3]) && AllDigits(s[|s| - 2..])
  {
    if |s| >= 5 && s[0] == 'N' && s[|s| - 3] == '.'
       && AllDigits(s[1..|s| - 3]) && AllDigits(s[|s| - 2..])
    then Some(ValueOf(s[1..|s| - 3]) * 100 + ValueOf(s[|s| - 2..]))
    else None
  }

  /**
   * A cell is "N", the whole naira without leading zeros, a point and two
   * decimal digits.
   */
  lemma NairaForm(amount: Kobo)
    ensures var s := Naira(amount);
      && |s| >= 5 && s[0] == 'N' && s[|s| - 3] == '.'
      && AllDigits(s[1..|s| - 3]) && AllDigits(s[|s| - 2..])
      && (s[1] == '0' <==> amount < 100)
      && (amount < 100 ==> |s| == 5)
  {
    var whole := Decimal(amount / 100);
    assert Naira(amount)[1..|Naira(amount)| - 3] == whole;
  }

  lemma {:induction false} ValueOfDecimal(n: nat)
    ensures ValueOf(Decimal(n)) == n
    decreases n
  {
    var s := Decimal(n);
    if n >= 10 {
      assert s[..|s| - 1] == Decimal(n / 10);
      ValueOfDecimal(n / 10);
    } else {
      assert s[..|s| - 1] == [];
    }
  }

  lemma TwoDigitValue(a: char, b: char)
    requires IsDigit(a) && IsDigit(b)
    ensures ValueOf([a, b]) == DigitValue(a) * 10 + DigitValue(b)
  {
    assert [a, b][..1] == [a];
    assert [a][..0] == [];
    assert ValueOf([a]) == DigitValue(a);
    assert ValueOf([a, b]) == ValueOf([a]) * 10 + DigitValue(b);
  }

  /** Every rendered amount reads back as itself. */
  lemma ParseNairaRoundTrip(amount: Kobo)
    ensures ParseNaira(Naira(amount)) == Some(amount)
  {
    var s := Naira(amount);
    var whole := Decimal(amount / 100);
    var a, b := DigitChar(amount % 100 / 10), DigitChar(amount % 10);
    assert s == "N" + whole + "." + [a, b];
    assert s[1..|s| - 3] == whole;
    assert s[|s| - 2..] == [a, b];
    ValueOfDecimal(amount / 100);
    TwoDigitValue(a, b);
  }

  /** Two different amounts never share a cell text. */
  lemma NairaInjective(a: Kobo, b: Kobo)
    ensures Naira(a) == Naira(b) <==> a == b
  {
    if Naira(a) == Naira(b) {
      ParseNairaRoundTrip(a);
      ParseNairaRoundTrip(b);
    }
  }
}
