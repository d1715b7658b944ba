/**
 * The rate table and the conversion function of App.tsx.
 *
 * A rate says how many units of a currency buy one US dollar; USD is the
 * pivot of every conversion. Amounts are exact reals, so the model has no
 * floating-point drift, no NaN and no `-0`.
 */
module Currency {
  import opened Wrappers

  type RateTable = map<string, real>

  /** The static table the rate state starts from. */
  const DefaultRates: RateTable :=
    map["USD" := 1.0, "RUB" := 96.5, "EUR" := 0.92, "KZT" := 490.0, "BYN" := 3.25]

  /** JavaScript truthiness of `table[code]`: a missing entry is `undefined`, and 0 is falsy. */
  predicate Truthy(table: RateTable, code: string)
  {
    code in table && table[code] != 0.0
  }

  /** Every entry of the table is a usable (positive) rate. */
  ghost predicate RatesPositive(table: RateTable)
  {
    forall code :: code in table ==> table[code] > 0.0
  }

  /**
   * The fallback chain `rates[code] || DEFAULT_RATES[code] || 1`.
   * Whatever the table holds, the resolved rate is never 0, so a conversion
   * never divides by zero.
   */
  function Rate(rates: RateTable, code: string): (r: real)
    ensures r != 0.0
    ensures r in rates.Values || r in DefaultRates.Values || r == 1.0
    ensures RatesPositive(rates) ==> r > 0.0
  {
    if Truthy(rates, code) then rates[code]
    else if Truthy(DefaultRates, code) then DefaultRates[code]
    else 1.0
  }

  /**
   * The refresh result spread over the previous table (`{...prev, ...data.rates}`).
   * `None` stands for a failed fetch or a response without a `rates` field:
   * the table is then left alone.
   */
  function MergeRates(prev: RateTable, fetched: Option<RateTable>): (r: RateTable)
    ensures fetched.None? ==> r == prev
    ensures fetched.Some? ==> r.Keys == prev.Keys + fetched.value.Keys
    ensures fetched.Some? ==> forall code :: code in fetched.value ==> r[code] == fetched.value[code]
    ensures fetched.Some? ==> forall code :: code in prev && code !in fetched.value ==> r[code] == prev[code]
  {
    match fetched
    case None => prev
    case Some(f) => prev + f
  }

  /** `x` is a whole number of cents. */
  predicate IsCents(x: real)
  {
    (x * 100.0).Floor as real == x * 100.0
  }

  /**
   * `Math.round(x * 100) / 100`: half-up rounding to cents (ties go toward
   * +infinity, as `Math.round` does). The result is the one cent value in
   * the half-open window around `x`.
   */
  function RoundCents(x: real): (r: real)
    ensures IsCents(r)
    ensures r - 0.005 <= x < r + 0.005
  {
    ((x * 100.0 + 0.5).Floor as real) / 100.0
  }

  /** The window of RoundCents determines its result: no other cent value lies in it. */
  lemma RoundCentsUnique(x: real, c: real)
    requires IsCents(c)
    requires c - 0.005 <= x < c + 0.005
    ensures RoundCents(x) == c
  {
    var n := (c * 100.0).Floor;
    var m := (x * 100.0 + 0.5).Floor;
    assert n as real <= x * 100.0 + 0.5 < n as real + 1.0;
    assert m == n;
  }

  /** Rounding a value that already is a whole number of cents changes nothing. */
  lemma RoundCentsIdempotent(c: real)
    requires IsCents(c)
    ensures RoundCents(c) == c
  {
    RoundCentsUnique(c, c);
  }

  /** Rounding never flips a sign: it maps non-negatives to non-negatives and non-positives to non-positives. */
  lemma RoundCentsSign(x: real)
    ensures x >= 0.0 ==> RoundCents(x) >= 0.0
    ensures x <= 0.0 ==> RoundCents(x) <= 0.0
  {
    var n := (x * 100.0 + 0.5).Floor;
    assert n as real <= x * 100.0 + 0.5 < n as real + 1.0;
  }

  /** Rounding is monotone. */
  lemma RoundCentsMonotone(x: real, y: real)
    requires x <= y
    ensures RoundCents(x) <= RoundCents(y)
  {
    var n := (x * 100.0 + 0.5).Floor;
    var m := (y * 100.0 + 0.5).Floor;
    assert n as real <= x * 100.0 + 0.5 < n as real + 1.0;
    assert m as real <= y * 100.0 + 0.5 < m as real + 1.0;
    assert n <= m;
  }

  /**
   * `convertValue(amount, fromCode, toCode)`: equal codes return the amount
   * untouched (no rounding at all); otherwise the amount goes to USD through
   * the source rate, to the target through the target rate, and the result
   * is rounded half-up to cents.
   */
  function Convert(amount: real, from: string, to: string, rates: RateTable): (r: real)
    ensures from == to ==> r == amount
    ensures from != to ==> IsCents(r)
    ensures from != to ==> r - 0.005 <= amount / Rate(rates, from) * Rate(rates, to) < r + 0.005
  {
    if from == to then amount
    else RoundCents(amount / Rate(rates, from) * Rate(rates, to))
  }

  /** Converting into the same code is the identity, for every amount and every table. */
  lemma ConvertIdentity(amount: real, code: string, rates: RateTable)
    ensures Convert(amount, code, code, rates) == amount
  {
  }

  /** Scaling by a positive ratio keeps the sign (non-linear step, kept apart). */
  lemma ScaleSign(a: real, rf: real, rt: real)
    requires rf > 0.0 && rt > 0.0
    ensures a >= 0.0 ==> a / rf * rt >= 0.0
    ensures a <= 0.0 ==> a / rf * rt <= 0.0
  {
    var q := a / rf;
    assert q * rf == a;
    assert a >= 0.0 ==> q >= 0.0;
    assert a <= 0.0 ==> q <= 0.0;
  }

  /** Scaling by a positive ratio is monotone. */
  lemma ScaleMonotone(a: real, b: real, rf: real, rt: real)
    requires rf > 0.0 && rt > 0.0 && a <= b
    ensures a / rf * rt <= b / rf * rt
  {
    ScaleSign(b - a, rf, rt);
    assert (b - a) / rf * rt == b / rf * rt - a / rf * rt;
  }

  /** Scaling back an error of at most half a cent multiplies it by the inverse ratio. */
  lemma ScaleBackError(amount: real, b: real, r1: real, r2: real)
    requires r1 > 0.0 && r2 > 0.0
    requires -0.005 <= b - amount / r1 * r2 <= 0.005
    ensures amount - r1 / r2 * 0.005 <= b / r2 * r1 <= amount + r1 / r2 * 0.005
  {
    var x := amount / r1 * r2;
    var k := r1 / r2;
    assert k > 0.0;
    assert b / r2 * r1 == b * k;
    assert x * k == amount;
    var d := b - x;
    assert b * k - amount == d * k;
    if d >= 0.0 { assert d * k <= 0.005 * k; } else { assert d * k >= -0.005 * k; }
  }

  /** A whole number of cents within half a cent of a positively scaled amount has the amount's sign. */
  lemma WindowSign(amount: real, rf: real, rt: real, c: real)
    requires rf > 0.0 && rt > 0.0
    requires IsCents(c) && c - 0.005 <= amount / rf * rt < c + 0.005
    ensures amount >= 0.0 ==> c >= 0.0
    ensures amount <= 0.0 ==> c <= 0.0
  {
    var x := amount / rf * rt;
    ScaleSign(amount, rf, rt);
    RoundCentsSign(x);
    RoundCentsUnique(x, c);
  }

  /** The cent values in the windows of two positively scaled amounts are ordered as the amounts are. */
  lemma WindowMonotone(a: real, b: real, rf: real, rt: real, ca: real, cb: real)
    requires rf > 0.0 && rt > 0.0 && a <= b
    requires IsCents(ca) && ca - 0.005 <= a / rf * rt < ca + 0.005
    requires IsCents(cb) && cb - 0.005 <= b / rf * rt < cb + 0.005
    ensures ca <= cb
  {
    ScaleMonotone(a, b, rf, rt);
    RoundCentsMonotone(a / rf * rt, b / rf * rt);
    RoundCentsUnique(a / rf * rt, ca);
    RoundCentsUnique(b / rf * rt, cb);
  }

  /** With both resolved rates above 0, conversion preserves the sign non-strictly. */
  lemma ConvertSign(amount: real, from: string, to: string, rates: RateTable)
    requires Rate(rates, from) > 0.0 && Rate(rates, to) > 0.0
    ensures amount >= 0.0 ==> Convert(amount, from, to, rates) >= 0.0
    ensures amount <= 0.0 ==> Convert(amount, from, to, rates) <= 0.0
  {
    if from != to {
      WindowSign(amount, Rate(rates, from), Rate(rates, to), Convert(amount, from, to, rates));
    }
  }

  /** With both resolved rates above 0, conversion is monotone in the amount. */
  lemma ConvertMonotone(a: real, b: real, from: string, to: string, rates: RateTable)
    requires Rate(rates, from) > 0.0 && Rate(rates, to) > 0.0
    requires a <= b
    ensures Convert(a, from, to, rates) <= Convert(b, from, to, rates)
  {
    if from != to {
      WindowMonotone(a, b, Rate(rates, from), Rate(rates, to),
                     Convert(a, from, to, rates), Convert(b, from, to, rates));
    }
  }

  /**
   * A conversion there and back stays within half a cent, plus half a cent
   * of the intermediate currency scaled back, of the original amount: each
   * leg rounds once.
   */
  lemma ConvertRoundTrip(amount: real, c1: string, c2: string, rates: RateTable)
    requires Rate(rates, c1) > 0.0 && Rate(rates, c2) > 0.0
    ensures var back := Convert(Convert(amount, c1, c2, rates), c2, c1, rates);
            var slack := (1.0 + Rate(rates, c1) / Rate(rates, c2)) * 0.005;
            amount - slack <= back <= amount + slack
  {
    if c1 != c2 {
      var r1, r2 := Rate(rates, c1), Rate(rates, c2);
      var b := Convert(amount, c1, c2, rates);
      ScaleBackError(amount, b, r1, r2);
    }
  }

  /**
   * The round trip can lose whole units: with the default table, 1 KZT goes
   * to 0.00 USD and comes back as 0 KZT.
   */
  lemma RoundTripLosesSmallAmounts()
    ensures Convert(1.0, "KZT", "USD", DefaultRates) == 0.0
    ensures Convert(Convert(1.0, "KZT", "USD", DefaultRates), "USD", "KZT", DefaultRates) == 0.0
  {
    assert Rate(DefaultRates, "KZT") == 490.0;
    assert Rate(DefaultRates, "USD") == 1.0;
    RoundCentsUnique(1.0 / 490.0 * 1.0, 0.0);
    RoundCentsUnique(0.0 / 1.0 * 490.0, 0.0);
  }

  /** A non-zero amount can convert to exactly 0: 0.01 RUB becomes 0.00 USD with the default table. */
  lemma ConversionCanReachZero()
    ensures Convert(0.01, "RUB", "USD", DefaultRates) == 0.0
  {
    assert Rate(DefaultRates, "RUB") == 96.5;
    assert Rate(DefaultRates, "USD") == 1.0;
    RoundCentsUnique(0.01 / 96.5 * 1.0, 0.0);
  }

  /** The worked migration: -1000 RUB under {USD: 1, RUB: 96.5} is -10.36 USD. */
  lemma ConvertRubExpenseToUsd()
    ensures Convert(-1000.0, "RUB", "USD", map["USD" := 1.0, "RUB" := 96.5]) == -10.36
  {
    var rates := map["USD" := 1.0, "RUB" := 96.5];
    assert Rate(rates, "RUB") == 96.5;
    assert Rate(rates, "USD") == 1.0;
    assert IsCents(-10.36) by {
      assert -10.36 * 100.0 == -1036.0;
    }
    RoundCentsUnique(-1000.0 / 96.5 * 1.0, -10.36);
  }

  /**
   * The resolved rate after a successful refresh: a truthy fetched value wins,
   * an absent or zero one falls back to the default, and an unknown code reads as 1.
   */
  lemma RateAfterRefresh(fetched: RateTable, code: string)
    ensures Rate(MergeRates(DefaultRates, Some(fetched)), code) ==
              if Truthy(fetched, code) then fetched[code]
              else if code in DefaultRates then DefaultRates[code]
              else 1.0
  {
    var merged := MergeRates(DefaultRates, Some(fetched));
    if !Truthy(fetched, code) && code in DefaultRates {
      assert DefaultRates[code] != 0.0;
    }
  }

  /** Without a refresh the defaults apply as they stand, and unknown codes read as 1. */
  lemma RateWithoutRefresh(code: string)
    ensures Rate(MergeRates(DefaultRates, None), code) ==
              if code in DefaultRates then DefaultRates[code] else 1.0
  {
  }

  /** Merging positive fetched rates over a positive table keeps every rate positive. */
  lemma MergedRatesPositive(prev: RateTable, fetched: Option<RateTable>)
    requires RatesPositive(prev)
    requires fetched.Some? ==> RatesPositive(fetched.value)
    ensures RatesPositive(MergeRates(prev, fetched))
  {
  }

  /** The five default rates are positive. */
  lemma DefaultRatesPositive()
    ensures RatesPositive(DefaultRates)
  {
  }
}
