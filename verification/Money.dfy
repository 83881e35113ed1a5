/** Amounts of money, their units, and the arithmetic that rounds. */
module MoneyModel {
  import opened Wrappers
  import opened Rounding

  datatype Currency = Btc | Usd | Usdb
  datatype Unit = Sat | Msat | Cent | Major

  datatype MoneyError = IncompatibleUnit(currency: Currency, unit: Unit)

  datatype Money = Money(amount: real, currency: Currency, unit: Unit)

  /** Sub-units are whole numbers; BTC keeps eight decimal places and dollars two. */
  function UnitGrid(c: Currency, u: Unit): Grid {
    if u != Major then 1.0 else if c == Btc then 100000000.0 else 100.0
  }

  /** Major units per unit. */
  function UnitFactor(c: Currency, u: Unit): (factor: Result<real, MoneyError>)
    ensures factor.Ok? ==> factor.value > 0.0
  {
    match (c, u)
    case (_, Major) => Ok(1.0)
    case (Btc, Sat) => Ok(0.00000001)
    case (Btc, Msat) => Ok(0.00000000001)
    case (Usd, Cent) => Ok(0.01)
    case (Usdb, Cent) => Ok(0.01)
    case _ => Err(IncompatibleUnit(c, u))
  }

  function ToUnit(m: Money, target: Unit): Result<Money, MoneyError> {
    if m.unit == target then Ok(m)
    else
      match UnitFactor(m.currency, m.unit)
      case Err(e) => Err(e)
      case Ok(from) =>
        match UnitFactor(m.currency, target)
        case Err(e) => Err(e)
        case Ok(to) =>
          Ok(Money(RoundTo(TowardZero, Rescale(m.amount, from, to), UnitGrid(m.currency, target)), m.currency, target))
  }

  function Rescale(amount: real, from: real, to: real): real
    requires to > 0.0
  {
    amount * from / to
  }

  function Divide(m: Money, divisor: real): Money
    requires divisor != 0.0
  {
    m.(amount := RoundTo(TowardZero, m.amount / divisor, UnitGrid(m.currency, m.unit)))
  }

  /** Converts at `rate` target major units per source major unit. */
  function Convert(m: Money, target: Currency, rate: real): Money
    requires ToUnit(m, Major).Ok?
  {
    Money(AtRate(ToUnit(m, Major).value.amount, rate, target), target, Major)
  }

  function AtRate(amount: real, rate: real, target: Currency): real {
    RoundTo(HalfAwayFromZero, amount * rate, UnitGrid(target, Major))
  }

  // ----- Units -----------------------------------------------------------------

  /** Bitcoin counts in sat and msat, both dollars in cent, and each in its major unit. */
  predicate Belongs(c: Currency, u: Unit) {
    match u
    case Major => true
    case Cent => c == Usd || c == Usdb
    case Sat => c == Btc
    case Msat => c == Btc
  }

  /**
   * A change of unit succeeds exactly between units of the currency, or when there is
   * nothing to change; otherwise the error names the amount's own unit if that is the
   * foreign one, and else the target.
   */
  lemma ToUnitIff(m: Money, target: Unit)
    ensures ToUnit(m, target).Ok? <==> m.unit == target || (Belongs(m.currency, m.unit) && Belongs(m.currency, target))
    ensures ToUnit(m, target).Err? ==>
            ToUnit(m, target) == Err(IncompatibleUnit(m.currency, if Belongs(m.currency, m.unit) then target else m.unit))
  {
  }

  /** The least positive amount of this unit, in major units. */
  function Quantum(c: Currency, u: Unit): real
    requires Belongs(c, u)
  {
    if c != Btc then 0.01 else if u == Msat then 0.00000000001 else 0.00000001
  }

  /** The amount counted in its unit's least amounts. */
  function Ticks(m: Money): real {
    m.amount * UnitGrid(m.currency, m.unit)
  }

  /** The amount has no more decimals than its unit carries. */
  predicate Whole(m: Money) {
    IsWhole(Ticks(m))
  }

  /** Equal ticks of the same unit are equal amounts. */
  lemma TicksDecide(m: Money, n: Money)
    requires m.currency == n.currency && m.unit == n.unit && Ticks(m) == Ticks(n)
    ensures m == n
  {
  }

  /** How many ticks of `to` make one of `from`: 1, 1000 or a thousandth. */
  function Ratio(c: Currency, from: Unit, to: Unit): (ratio: real)
    requires Belongs(c, from) && Belongs(c, to)
    ensures ratio == Quantum(c, from) / Quantum(c, to)
  {
    if (from == Msat) == (to == Msat) then 1.0 else if to == Msat then 1000.0 else 0.001
  }

  function TruncScaled(ticks: real, ratio: real): int {
    Trunc(ticks * ratio)
  }

  /** The factors the code multiplies and divides by amount to a ratio of ticks. */
  lemma FactorsAreRatio(c: Currency, from: Unit, to: Unit, x: real)
    requires Belongs(c, from) && Belongs(c, to)
    ensures Rescale(x, UnitFactor(c, from).value, UnitFactor(c, to).value) * UnitGrid(c, to) ==
            x * UnitGrid(c, from) * Ratio(c, from, to)
  {
    if c == Btc {
      match (from, to)
      case (Sat, Msat) =>
      case (Msat, Sat) =>
      case (Major, Msat) =>
      case (Msat, Major) =>
      case _ =>
    }
  }

  lemma Unrounded(m: Money, target: Unit) returns (x: real)
    requires Belongs(m.currency, m.unit) && Belongs(m.currency, target) && m.unit != target
    ensures ToUnit(m, target) ==
            Ok(Money(RoundTo(TowardZero, x, UnitGrid(m.currency, target)), m.currency, target))
    ensures x * UnitGrid(m.currency, target) == Ticks(m) * Ratio(m.currency, m.unit, target)
  {
    x := Rescale(m.amount, UnitFactor(m.currency, m.unit).value, UnitFactor(m.currency, target).value);
    FactorsAreRatio(m.currency, m.unit, target, m.amount);
  }

  /** A change of unit truncates the ticks, scaled by their ratio. */
  lemma ToUnitTicks(m: Money, target: Unit)
    requires Belongs(m.currency, m.unit) && Belongs(m.currency, target) && m.unit != target
    ensures ToUnit(m, target).Ok?
    ensures var r := ToUnit(m, target).value;
      && r.currency == m.currency && r.unit == target
      && Ticks(r) == TruncScaled(Ticks(m), Ratio(m.currency, m.unit, target)) as real
  {
    var x := Unrounded(m, target);
    ScaledTicks(m, target, x);
  }

  lemma ScaledTicks(m: Money, target: Unit, x: real)
    requires ToUnit(m, target) ==
             Ok(Money(RoundTo(TowardZero, x, UnitGrid(m.currency, target)), m.currency, target))
    ensures Ticks(ToUnit(m, target).value) == Trunc(x * UnitGrid(m.currency, target)) as real
  {
    RoundToTicks(TowardZero, x, UnitGrid(m.currency, target));
  }

  /** Going to a unit at least as fine and back is the identity on whole amounts, and on no others. */
  lemma FinerAndBack(m: Money, target: Unit)
    requires Belongs(m.currency, m.unit) && Belongs(m.currency, target)
    requires Quantum(m.currency, target) <= Quantum(m.currency, m.unit)
    ensures ToUnit(m, target).Ok?
    ensures ToUnit(ToUnit(m, target).value, m.unit) == Ok(m) <==> m.unit == target || Whole(m)
  {
    if m.unit != target {
      ToUnitTicks(m, target);
      var there := ToUnit(m, target).value;
      ToUnitTicks(there, m.unit);
      var back := ToUnit(there, m.unit).value;
      if Whole(m) {
        UpAndDown(Ticks(m), Ratio(m.currency, m.unit, target), Ratio(m.currency, target, m.unit));
        TicksDecide(back, m);
      } else {
        assert Whole(back);
      }
    }
  }

  lemma UpAndDown(x: real, up: real, down: real)
    requires IsWhole(x) && ((up == 1.0 && down == 1.0) || (up == 1000.0 && down == 0.001))
    ensures TruncScaled(TruncScaled(x, up) as real, down) as real == x
  {
    WholeTimesRatio(x, up);
    TruncBounds(x);
  }

  /** Whole ticks stay whole when there are 1 or 1000 times as many. */
  lemma WholeTimesRatio(x: real, ratio: real)
    requires IsWhole(x) && (ratio == 1.0 || ratio == 1000.0)
    ensures TruncScaled(x, ratio) as real == x * ratio
  {
    var n := x.Floor;
    if ratio == 1000.0 {
      assert x * ratio == (1000 * n) as real;
      TruncOfInt(1000 * n);
    } else {
      TruncOfInt(n);
    }
  }

  /**
   * Path independence: on the way to a final unit, a stop at any unit at least as
   * fine makes no difference.  The one exception is an amount with stray decimals
   * coming home to the unit it started in, which the direct conversion leaves alone.
   */
  lemma PathIndependence(m: Money, middle: Unit, final: Unit)
    requires Belongs(m.currency, m.unit) && Belongs(m.currency, middle) && Belongs(m.currency, final)
    requires Quantum(m.currency, middle) <= Quantum(m.currency, final)
    ensures ToUnit(m, middle).Ok?
    ensures ToUnit(ToUnit(m, middle).value, final) == ToUnit(m, final) <==>
            m.unit != final || middle == final || Whole(m)
  {
    if m.unit == final {
      FinerAndBack(m, middle);
    } else if m.unit != middle {
      ToUnitTicks(m, middle);
      if middle != final {
        ThroughMiddle(m, middle, final);
      }
    }
  }

  lemma ThroughMiddle(m: Money, middle: Unit, final: Unit)
    requires Belongs(m.currency, m.unit) && Belongs(m.currency, middle) && Belongs(m.currency, final)
    requires Quantum(m.currency, middle) <= Quantum(m.currency, final)
    requires m.unit != middle && middle != final && final != m.unit
    ensures ToUnit(m, middle).Ok? && ToUnit(ToUnit(m, middle).value, final) == ToUnit(m, final)
  {
    ToUnitTicks(m, middle);
    var there := ToUnit(m, middle).value;
    ToUnitTicks(there, final);
    ToUnitTicks(m, final);
    SameTicks(m, there, ToUnit(there, final).value, ToUnit(m, final).value);
  }

  lemma SameTicks(m: Money, there: Money, onward: Money, direct: Money)
    requires Belongs(m.currency, m.unit) && Belongs(m.currency, there.unit) && Belongs(m.currency, direct.unit)
    requires m.currency == there.currency == onward.currency == direct.currency && onward.unit == direct.unit
    requires Quantum(m.currency, there.unit) <= Quantum(m.currency, direct.unit)
    requires Ticks(there) == TruncScaled(Ticks(m), Ratio(m.currency, m.unit, there.unit)) as real
    requires Ticks(onward) == TruncScaled(Ticks(there), Ratio(m.currency, there.unit, direct.unit)) as real
    requires Ticks(direct) == TruncScaled(Ticks(m), Ratio(m.currency, m.unit, direct.unit)) as real
    ensures onward == direct
  {
    TruncThroughRatio(Ticks(m), m.currency, m.unit, there.unit, direct.unit);
    TicksDecide(onward, direct);
  }

  lemma TruncThroughRatio(x: real, c: Currency, from: Unit, middle: Unit, final: Unit)
    requires Belongs(c, from) && Belongs(c, middle) && Belongs(c, final)
    requires Quantum(c, middle) <= Quantum(c, final)
    ensures TruncScaled(TruncScaled(x, Ratio(c, from, middle)) as real, Ratio(c, middle, final)) ==
            TruncScaled(x, Ratio(c, from, final))
  {
    var k := if (middle == Msat) == (final == Msat) then 1 else 1000;
    TruncInTwoSteps(x, Ratio(c, from, middle), Ratio(c, middle, final), Ratio(c, from, final), k);
  }

  lemma TruncInTwoSteps(x: real, first: real, second: real, direct: real, k: int)
    requires direct == 1.0 || direct == 1000.0 || direct == 0.001
    requires (k == 1 && first == direct && second == 1.0) || (k == 1000 && first == 1000.0 * direct && second == 0.001)
    ensures TruncScaled(TruncScaled(x, first) as real, second) == TruncScaled(x, direct)
  {
    Thousandfold(x, direct, first, k);
    if k == 1 {
      TruncOfInt(TruncScaled(x, first));
    } else {
      TruncByThousand(x * direct, x * first);
    }
  }

  lemma Thousandfold(x: real, direct: real, first: real, k: int)
    requires direct == 1.0 || direct == 1000.0 || direct == 0.001
    requires (k == 1 && first == direct) || (k == 1000 && first == 1000.0 * direct)
    ensures x * first == if k == 1 then x * direct else 1000.0 * (x * direct)
  {
  }

  lemma TruncByThousand(coarse: real, fine: real)
    requires fine == 1000.0 * coarse
    ensures TruncScaled(Trunc(fine) as real, 0.001) == Trunc(coarse)
  {
    TruncThroughFinerGrid(coarse, 1000);
  }

  /** Going to a unit at least as coarse and back loses less than one of it, toward zero. */
  lemma CoarserAndBack(m: Money, target: Unit)
    requires Belongs(m.currency, m.unit) && Belongs(m.currency, target)
    requires Quantum(m.currency, m.unit) <= Quantum(m.currency, target)
    ensures ToUnit(m, target).Ok? && ToUnit(ToUnit(m, target).value, m.unit).Ok?
    ensures var back := ToUnit(ToUnit(m, target).value, m.unit).value;
      && Abs(Ticks(back)) <= Abs(Ticks(m)) < Abs(Ticks(back)) + Ratio(m.currency, target, m.unit)
      && (m.amount >= 0.0 ==> back.amount >= 0.0) && (m.amount <= 0.0 ==> back.amount <= 0.0)
  {
    if m.unit != target {
      ToUnitTicks(m, target);
      var there := ToUnit(m, target).value;
      ToUnitTicks(there, m.unit);
      LessThanOneLost(m, there, ToUnit(there, m.unit).value);
    }
  }

  lemma LessThanOneLost(m: Money, there: Money, back: Money)
    requires Belongs(m.currency, m.unit) && Belongs(m.currency, there.unit)
    requires m.currency == there.currency == back.currency && back.unit == m.unit
    requires Quantum(m.currency, m.unit) <= Quantum(m.currency, there.unit)
    requires Ticks(there) == TruncScaled(Ticks(m), Ratio(m.currency, m.unit, there.unit)) as real
    requires Ticks(back) == TruncScaled(Ticks(there), Ratio(m.currency, there.unit, m.unit)) as real
    ensures Abs(Ticks(back)) <= Abs(Ticks(m)) < Abs(Ticks(back)) + Ratio(m.currency, there.unit, m.unit)
    ensures (m.amount >= 0.0 ==> back.amount >= 0.0) && (m.amount <= 0.0 ==> back.amount <= 0.0)
  {
    DownAndUp(Ticks(m), Ratio(m.currency, m.unit, there.unit), Ratio(m.currency, there.unit, m.unit));
    TicksSign(m);
    TicksSign(back);
  }

  lemma TicksSign(m: Money)
    ensures Ticks(m) >= 0.0 <==> m.amount >= 0.0
    ensures Ticks(m) <= 0.0 <==> m.amount <= 0.0
  {
  }

  lemma DownAndUp(x: real, down: real, up: real)
    requires (down == 1.0 && up == 1.0) || (down == 0.001 && up == 1000.0)
    ensures var back := TruncScaled(TruncScaled(x, down) as real, up) as real;
      && Abs(back) <= Abs(x) < Abs(back) + up
      && (x >= 0.0 ==> back >= 0.0) && (x <= 0.0 ==> back <= 0.0)
  {
    TruncBounds(x * down);
    var n := TruncScaled(x, down);
    WholeTimesRatio(n as real, up);
    if up == 1000.0 {
      assert n as real * up == 1000.0 * n as real;
    }
  }

  // ----- Shares ----------------------------------------------------------------

  lemma DivideError(m: Money, divisor: real)
    requires divisor != 0.0
    ensures Divide(m, divisor).currency == m.currency && Divide(m, divisor).unit == m.unit
    ensures var q, exact := Divide(m, divisor).amount, m.amount / divisor;
      && Abs(q) <= Abs(exact) && Abs(exact) - Abs(q) < 1.0 / UnitGrid(m.currency, m.unit)
      && (exact >= 0.0 ==> q >= 0.0) && (exact <= 0.0 ==> q <= 0.0)
  {
    TruncError(m.amount / divisor, UnitGrid(m.currency, m.unit));
  }

  /** `n` shares of a non-negative amount never exceed it, and leave less than `n` of its least amounts. */
  lemma SharesFit(m: Money, n: real)
    requires m.amount >= 0.0 && n > 0.0
    ensures 0.0 <= m.amount - n * Divide(m, n).amount < n / UnitGrid(m.currency, m.unit)
  {
    DivideError(m, n);
    Shares(m.amount, n, Divide(m, n).amount, 1.0 / UnitGrid(m.currency, m.unit));
    DivMul(1.0, UnitGrid(m.currency, m.unit));
    Regroup(n, UnitGrid(m.currency, m.unit));
  }

  lemma Regroup(n: real, grid: Grid)
    ensures n * (1.0 / grid) == n / grid
  {
  }

  lemma Shares(amount: real, n: real, q: real, step: real)
    requires amount >= 0.0 && n > 0.0 && Abs(q) <= Abs(amount / n) && Abs(amount / n) - Abs(q) < step
    requires amount / n >= 0.0 ==> q >= 0.0
    ensures 0.0 <= amount - n * q < n * step
  {
    var exact := amount / n;
    DivMul(amount, n);
    QuotientSign(amount, n);
    TimesShare(n, exact, q, step);
  }

  lemma QuotientSign(x: real, y: real)
    requires x >= 0.0 && y > 0.0
    ensures x / y >= 0.0
  {
  }

  lemma TimesShare(n: real, exact: real, q: real, step: real)
    requires n > 0.0 && 0.0 <= exact - q < step
    ensures 0.0 <= exact * n - n * q < n * step
  {
    assert n * (exact - q) == exact * n - n * q;
    assert 0.0 <= n * (exact - q) < n * step;
  }

  /**
   * `divide` is described as flooring.  It rounds toward zero, which is flooring
   * exactly when the quotient is not negative or needs no rounding.
   */
  lemma DivideFloorsIff(m: Money, divisor: real)
    requires divisor != 0.0
    ensures var exact, grid := m.amount / divisor, UnitGrid(m.currency, m.unit);
      Divide(m, divisor).amount == (exact * grid).Floor as real / grid <==> exact >= 0.0 || IsWhole(exact * grid)
  {
    TruncFloorsIff(m.amount / divisor, UnitGrid(m.currency, m.unit));
  }

  lemma TruncFloorsIff(exact: real, grid: Grid)
    ensures RoundTo(TowardZero, exact, grid) == (exact * grid).Floor as real / grid <==>
            exact >= 0.0 || IsWhole(exact * grid)
  {
    var scaled := Scaled(exact, grid);
    SameQuotient(Trunc(scaled), scaled.Floor, grid);
    FloorIsTruncIff(scaled);
  }

  lemma Scaled(x: real, grid: Grid) returns (scaled: real)
    ensures scaled == x * grid && (scaled >= 0.0 <==> x >= 0.0)
  {
    scaled := x * grid;
    SignOfScaled(x, grid);
  }

  lemma SameQuotient(a: int, b: int, grid: Grid)
    ensures a as real / grid == b as real / grid <==> a == b
  {
    DivMul(a as real, grid);
    DivMul(b as real, grid);
  }

  lemma FloorIsTruncIff(x: real)
    ensures Trunc(x) == x.Floor <==> x >= 0.0 || IsWhole(x)
  {
    TruncBounds(x);
  }

  // ----- Conversion ------------------------------------------------------------

  /** A conversion misses the exact product by at most half the target's least amount. */
  lemma ConvertError(m: Money, target: Currency, rate: real) returns (x: real, product: real)
    requires ToUnit(m, Major).Ok?
    ensures ToUnit(m, Major).value.amount == x && product == x * rate
    ensures Abs(Convert(m, target, rate).amount - product) <= 0.5 / UnitGrid(target, Major)
  {
    x := InMajor(m, target, rate);
    product := AtRateError(x, rate, target);
  }

  /** It is the nearest amount of the target, ties away from zero. */
  lemma ConvertIff(m: Money, target: Currency, rate: real, n: int) returns (product: real)
    requires ToUnit(m, Major).Ok?
    ensures product == ToUnit(m, Major).value.amount * rate
    ensures Convert(m, target, rate) == Money(n as real / UnitGrid(target, Major), target, Major) <==>
            IsNearestAway(product * UnitGrid(target, Major), n)
  {
    var x := InMajor(m, target, rate);
    product := AtRateIff(x, rate, target, n);
  }

  lemma AtRateIff(amount: real, rate: real, target: Currency, n: int) returns (product: real)
    ensures product == amount * rate
    ensures AtRate(amount, rate, target) == n as real / UnitGrid(target, Major) <==>
            IsNearestAway(product * UnitGrid(target, Major), n)
  {
    product := amount * rate;
    RoundToIff(HalfAwayFromZero, product, UnitGrid(target, Major), n);
    RoundIff(HalfAwayFromZero, product * UnitGrid(target, Major), n);
  }

  lemma InMajor(m: Money, target: Currency, rate: real) returns (x: real)
    requires ToUnit(m, Major).Ok?
    ensures ToUnit(m, Major).value.amount == x
    ensures Convert(m, target, rate) == Money(AtRate(x, rate, target), target, Major)
  {
    x := ToUnit(m, Major).value.amount;
  }

  lemma AtRateError(amount: real, rate: real, target: Currency) returns (product: real)
    ensures product == amount * rate
    ensures Abs(AtRate(amount, rate, target) - product) <= 0.5 / UnitGrid(target, Major)
  {
    product := amount * rate;
    NearestError(HalfAwayFromZero, product, UnitGrid(target, Major));
  }
}
