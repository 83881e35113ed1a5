/** The BTC price feed: a two-place dollar price and its eight-place inverse. */
module ExchangeRate {
  import opened Wrappers
  import opened Rounding
  import opened MoneyModel

  datatype RateError = UnsupportedPair(from: Currency, to: Currency) | MissingPrice | ZeroPrice

  /** `get_rate`, with `usd` the price the feed answered. */
  function GetRate(from: Currency, to: Currency, usd: Option<real>): Result<real, RateError> {
    if !((from == Btc && to == Usd) || (from == Usd && to == Btc)) then Err(UnsupportedPair(from, to))
    else if usd.None? then Err(MissingPrice)
    else
      var price := RoundTo(HalfToEven, usd.value, 100.0);
      if from == Btc then Ok(price)
      else if price == 0.0 then Err(ZeroPrice)
      else Ok(RoundTo(HalfToEven, 1.0 / price, 100000000.0))
  }

  /** Only bitcoin against the dollar has a rate; the other pairs are refused before any price is looked at. */
  lemma SupportedIff(from: Currency, to: Currency, usd: Option<real>)
    ensures GetRate(from, to, usd) == Err(UnsupportedPair(from, to)) <==> {from, to} != {Btc, Usd}
    ensures GetRate(from, to, usd) == Err(MissingPrice) <==> {from, to} == {Btc, Usd} && usd.None?
    ensures GetRate(Btc, Usd, usd).Ok? <==> usd.Some?
  {
  }

  /** The price has two places and its inverse eight, both the nearest, ties to even. */
  lemma RateIff(usd: real, p: real, cents: int, sats: int)
    requires GetRate(Btc, Usd, Some(usd)) == Ok(p)
    ensures p == cents as real / 100.0 <==> IsNearestEven(usd * 100.0, cents)
    ensures p != 0.0 ==>
      (GetRate(Usd, Btc, Some(usd)) == Ok(sats as real / 100000000.0) <==> IsNearestEven(1.0 / p * 100000000.0, sats))
  {
    RoundToIff(HalfToEven, usd, 100.0, cents);
    RoundIff(HalfToEven, usd * 100.0, cents);
    if p != 0.0 {
      RoundToIff(HalfToEven, 1.0 / p, 100000000.0, sats);
      RoundIff(HalfToEven, 1.0 / p * 100000000.0, sats);
    }
  }

  // Half of the eighth decimal place.
  const HALF_SATOSHI: real := 0.000000005

  /** The inverse rate times the price misses one by at most half a satoshi per dollar of price. */
  lemma InverseError(usd: Option<real>, p: real, r: real)
    requires GetRate(Btc, Usd, usd) == Ok(p) && GetRate(Usd, Btc, usd) == Ok(r)
    ensures p != 0.0 && Abs(p * r - 1.0) <= Abs(p) * HALF_SATOSHI
  {
    NearestError(HalfToEven, 1.0 / p, 100000000.0);
    Product(p, r, 1.0 / p);
  }

  lemma Product(p: real, r: real, inverse: real)
    requires p != 0.0 && inverse == 1.0 / p && Abs(r - inverse) <= HALF_SATOSHI
    ensures Abs(p * r - 1.0) <= Abs(p) * HALF_SATOSHI
  {
    DivMul(1.0, p);
    var e := r - inverse;
    assert p * r - 1.0 == p * e;
    AbsProduct(p, e, HALF_SATOSHI);
  }

  lemma AbsProduct(x: real, y: real, bound: real)
    requires Abs(y) <= bound
    ensures Abs(x * y) <= Abs(x) * bound
  {
    if x >= 0.0 {
      assert x * y <= x * bound && x * -bound <= x * y;
    } else {
      assert -x * y <= -x * bound && -x * -bound <= -x * y;
    }
  }

  /** The inverse is refused exactly for prices that round to nothing. */
  lemma InverseRefusedIff(usd: real)
    ensures GetRate(Usd, Btc, Some(usd)) == Err(ZeroPrice) <==> Abs(usd) <= 0.005
  {
    HalfEvenBounds(usd * 100.0);
    RoundToTicks(HalfToEven, usd, 100.0);
  }

  /** The inverse itself is zero exactly when a dollar buys no more than half a satoshi. */
  lemma InverseVanishesIff(usd: Option<real>, p: real, r: real)
    requires GetRate(Btc, Usd, usd) == Ok(p) && GetRate(Usd, Btc, usd) == Ok(r)
    ensures r == 0.0 <==> Abs(p) >= 200000000.0
  {
    var x := ExactInverse(usd, p, r);
    RoundsToNothing(x);
    AtMostHalf(x, p);
  }

  lemma ExactInverse(usd: Option<real>, p: real, r: real) returns (x: real)
    requires GetRate(Btc, Usd, usd) == Ok(p) && GetRate(Usd, Btc, usd) == Ok(r)
    ensures x * p == 1.0 && r == RoundTo(HalfToEven, x, 100000000.0)
  {
    x := 1.0 / p;
    DivMul(1.0, p);
  }

  lemma RoundsToNothing(x: real)
    ensures RoundTo(HalfToEven, x, 100000000.0) == 0.0 <==> Abs(x) <= HALF_SATOSHI
  {
    HalfEvenBounds(x * 100000000.0);
    RoundToTicks(HalfToEven, x, 100000000.0);
  }

  lemma AtMostHalf(x: real, p: real)
    requires x * p == 1.0
    ensures Abs(x) <= HALF_SATOSHI <==> Abs(p) >= 200000000.0
  {
    if p > 0.0 {
      Reciprocal(x, p);
    } else if p < 0.0 {
      Reciprocal(-x, -p);
    }
  }

  lemma Reciprocal(x: real, p: real)
    requires x * p == 1.0 && p > 0.0
    ensures x > 0.0 && (x <= HALF_SATOSHI <==> p >= 200000000.0)
  {
    assert x > 0.0;
    if x <= HALF_SATOSHI {
      ScaleUp(x, HALF_SATOSHI, p);
    } else if p >= 200000000.0 {
      ScaleUp(200000000.0, p, x);
    }
  }

  lemma ScaleUp(x: real, y: real, z: real)
    requires x <= y && z > 0.0
    ensures x * z <= y * z
  {
  }

  /** Half a dollar tick at the inverse rate, the inverse's own error, and half a bitcoin tick. */
  function RoundTripBound(x: real, p: real, r: real): real {
    0.005 * Abs(r) + Abs(x) * (Abs(p) * HALF_SATOSHI) + HALF_SATOSHI
  }

  /** Converting bitcoin to dollars and back misses the start by a bounded amount. */
  lemma RoundTripError(m: Money, usd: Option<real>, p: real, r: real)
    requires m.currency == Btc && ToUnit(m, Major).Ok?
    requires GetRate(Btc, Usd, usd) == Ok(p) && GetRate(Usd, Btc, usd) == Ok(r)
    ensures var x := ToUnit(m, Major).value.amount;
      Abs(Convert(Convert(m, Usd, p), Btc, r).amount - x) <= RoundTripBound(x, p, r)
  {
    InverseError(usd, p, r);
    RoundTrip(m, p, r);
  }

  lemma RoundTrip(m: Money, p: real, r: real)
    requires m.currency == Btc && ToUnit(m, Major).Ok?
    requires Abs(p * r - 1.0) <= Abs(p) * HALF_SATOSHI
    ensures var x := ToUnit(m, Major).value.amount;
      Abs(Convert(Convert(m, Usd, p), Btc, r).amount - x) <= RoundTripBound(x, p, r)
  {
    var x, y, z, xp, yr := ThereAndBack(m, p, r);
    Chain(x, p, r, y, z, y - xp, z - yr, p * r - 1.0);
  }

  lemma ThereAndBack(m: Money, p: real, r: real) returns (x: real, y: real, z: real, xp: real, yr: real)
    requires m.currency == Btc && ToUnit(m, Major).Ok?
    ensures x == ToUnit(m, Major).value.amount && z == Convert(Convert(m, Usd, p), Btc, r).amount
    ensures xp == x * p && Abs(y - xp) <= 0.005 && yr == y * r && Abs(z - yr) <= HALF_SATOSHI
  {
    x := InMajor(m, Usd, p);
    y := AtRate(x, p, Usd);
    xp := AtRateError(x, p, Usd);
    var y' := InMajor(Money(y, Usd, Major), Btc, r);
    yr := AtRateError(y, r, Btc);
    z := AtRate(y, r, Btc);
  }

  /** The error of the way out is carried back at the inverse rate; the rest is the inverse's own. */
  lemma Chain(x: real, p: real, r: real, y: real, z: real, out: real, back: real, drift: real)
    requires y == x * p + out && z == y * r + back && p * r == 1.0 + drift
    requires Abs(out) <= 0.005 && Abs(back) <= HALF_SATOSHI && Abs(drift) <= Abs(p) * HALF_SATOSHI
    ensures Abs(z - x) <= RoundTripBound(x, p, r)
  {
    assert z - x == out * r + x * drift + back by {
      Carried(x, p, r, y, out, drift);
    }
    Total(x, p, r, z, out, back, drift);
  }

  lemma Carried(x: real, p: real, r: real, y: real, out: real, drift: real)
    requires y == x * p + out && p * r == 1.0 + drift
    ensures y * r == x + x * drift + out * r
  {
    var xp, pr := x * p, p * r;
    assert y * r == xp * r + out * r;
    assert xp * r == x * pr;
    assert x * pr == x + x * drift;
  }

  lemma Total(x: real, p: real, r: real, z: real, out: real, back: real, drift: real)
    requires z - x == out * r + x * drift + back
    requires Abs(out) <= 0.005 && Abs(back) <= HALF_SATOSHI && Abs(drift) <= Abs(p) * HALF_SATOSHI
    ensures Abs(z - x) <= RoundTripBound(x, p, r)
  {
    var a, boundA := Spread(out, r, 0.005);
    var b, boundB := Spread(drift, x, Abs(p) * HALF_SATOSHI);
    assert Abs(z - x) <= boundA + boundB + HALF_SATOSHI;
  }

  lemma Spread(e: real, factor: real, bound: real) returns (product: real, limit: real)
    requires Abs(e) <= bound
    ensures product == factor * e && limit == Abs(factor) * bound && Abs(product) <= limit
  {
    product, limit := factor * e, Abs(factor) * bound;
    AbsProduct(factor, e, bound);
  }
}
