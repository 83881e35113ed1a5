/** The three rounding modes the money code uses, on exact decimals. */
module Rounding {

  function Abs(x: real): real {
    if x < 0.0 then -x else x
  }

  /** Toward zero. */
  function Trunc(x: real): int {
    if x >= 0.0 then x.Floor else -((-x).Floor)
  }

  /** To the nearest integer, halves away from zero. */
  function HalfAway(x: real): int {
    if x >= 0.0 then (x + 0.5).Floor else -((-x + 0.5).Floor)
  }

  /** To the nearest integer, halves to the even neighbour. */
  function HalfEven(x: real): int {
    var below := x.Floor;
    var rest := x - below as real;
    if rest < 0.5 || (rest == 0.5 && below % 2 == 0) then below else below + 1
  }

  datatype Mode = TowardZero | HalfAwayFromZero | HalfToEven

  function Round(mode: Mode, x: real): int {
    match mode
    case TowardZero => Trunc(x)
    case HalfAwayFromZero => HalfAway(x)
    case HalfToEven => HalfEven(x)
  }

  // One over the least decimal place kept: 100.0 keeps two places.
  type Grid = g: real | g >= 1.0 witness 1.0

  /** `x` rounded to a grid of decimals. */
  function RoundTo(mode: Mode, x: real, grid: Grid): real {
    Round(mode, x * grid) as real / grid
  }

  predicate IsWhole(x: real) {
    x == x.Floor as real
  }

  // ----- What each mode means --------------------------------------------------

  /** The integer between zero and `x` that is less than one away. */
  predicate IsTowardZero(x: real, n: int) {
    Abs(n as real) <= Abs(x) < Abs(n as real) + 1.0 && (n > 0 ==> x > 0.0) && (n < 0 ==> x < 0.0)
  }

  /** The nearest integer, and of two equally near ones the farther from zero. */
  predicate IsNearestAway(x: real, n: int) {
    var miss := Abs(n as real - x);
    miss < 0.5 || (miss == 0.5 && Abs(n as real) > Abs(x))
  }

  /** The nearest integer, and of two equally near ones the even one. */
  predicate IsNearestEven(x: real, n: int) {
    var miss := Abs(n as real - x);
    miss < 0.5 || (miss == 0.5 && n % 2 == 0)
  }

  /** Each mode gives the one integer it is meant to. */
  lemma RoundIff(mode: Mode, x: real, n: int)
    ensures n == Round(mode, x) <==>
            match mode
            case TowardZero => IsTowardZero(x, n)
            case HalfAwayFromZero => IsNearestAway(x, n)
            case HalfToEven => IsNearestEven(x, n)
  {
    match mode
    case TowardZero => TruncIff(x, n);
    case HalfAwayFromZero => HalfAwayIff(x, n);
    case HalfToEven => HalfEvenIff(x, n);
  }

  lemma TruncIff(x: real, n: int)
    ensures n == Trunc(x) <==> IsTowardZero(x, n)
  {
    TruncBounds(x);
  }

  lemma HalfAwayIff(x: real, n: int)
    ensures n == HalfAway(x) <==> IsNearestAway(x, n)
  {
    HalfAwayBounds(x);
  }

  lemma HalfEvenIff(x: real, n: int)
    ensures n == HalfEven(x) <==> IsNearestEven(x, n)
  {
    HalfEvenBounds(x);
  }

  lemma RoundToIff(mode: Mode, x: real, grid: Grid, n: int)
    ensures RoundTo(mode, x, grid) == n as real / grid <==> n == Round(mode, x * grid)
  {
    DivMul(n as real, grid);
    RoundToTicks(mode, x, grid);
  }

  // ----- Bounds ----------------------------------------------------------------

  /** Truncation keeps the sign and drops less than one. */
  lemma TruncBounds(x: real)
    ensures Abs(Trunc(x) as real) <= Abs(x) < Abs(Trunc(x) as real) + 1.0
    ensures x >= 0.0 ==> Trunc(x) >= 0
    ensures x <= 0.0 ==> Trunc(x) <= 0
    ensures Trunc(x) as real == x <==> IsWhole(x)
  {
    if IsWhole(-x) {
      assert x == (-((-x).Floor)) as real;
    }
  }

  lemma TruncOfInt(n: int)
    ensures Trunc(n as real) == n
  {
  }

  lemma TruncOdd(x: real)
    ensures Trunc(-x) == -Trunc(x)
  {
  }

  lemma DivMul(x: real, y: real)
    requires y != 0.0
    ensures x / y * y == x && -x / y == -(x / y)
  {
  }

  lemma RoundToTicks(mode: Mode, x: real, grid: Grid)
    ensures RoundTo(mode, x, grid) * grid == Round(mode, x * grid) as real
  {
    DivMul(Round(mode, x * grid) as real, grid);
  }

  /** Truncating twice, through a grid `k` times finer, is truncating once. */
  lemma TruncThroughFinerGrid(x: real, k: int)
    requires k >= 1
    ensures Trunc(Trunc(x * k as real) as real / k as real) == Trunc(x)
  {
    if x >= 0.0 {
      FloorThroughFinerGrid(x, k);
    } else {
      var y := -x;
      var scaled := y * k as real;
      FloorThroughFinerGrid(y, k);
      var fine := scaled.Floor;
      NegMul(x, k as real);
      TruncOdd(scaled);
      assert Trunc(x * k as real) == -fine;
      TruncOfQuotient(fine, k);
    }
  }

  lemma NegMul(x: real, y: real)
    ensures x * y == -(-x * y)
  {
  }

  lemma TruncOfQuotient(n: int, k: int)
    requires n >= 0 && k >= 1
    ensures Trunc((-n) as real / k as real) == -(n as real / k as real).Floor
  {
    DivMul(n as real, k as real);
    TruncOdd(n as real / k as real);
  }

  lemma FloorThroughFinerGrid(x: real, k: int)
    requires x >= 0.0 && k >= 1
    ensures ((x * k as real).Floor as real / k as real).Floor == x.Floor
    ensures (x * k as real).Floor >= 0
  {
    var n, fine := x.Floor, (x * k as real).Floor;
    assert n as real * k as real <= x * k as real < (n as real + 1.0) * k as real;
    assert (n * k) as real == n as real * k as real;
    assert n * k <= fine;
    var q := fine as real / k as real;
    DivMul(fine as real, k as real);
    Cancel(n as real, q, k as real);
    Cancel(q, x, k as real);
  }

  lemma Cancel(x: real, y: real, k: real)
    requires x * k <= y * k && k > 0.0
    ensures x <= y
  {
  }

  lemma HalfAwayBounds(x: real)
    ensures Abs(HalfAway(x) as real - x) <= 0.5
  {
  }

  lemma HalfEvenBounds(x: real)
    ensures Abs(HalfEven(x) as real - x) <= 0.5
    ensures HalfEven(x) == 0 <==> Abs(x) <= 0.5
  {
    if Abs(x) <= 0.5 {
      assert x.Floor == 0 || x.Floor == -1;
    }
  }

  lemma ScaledAbs(x: real, grid: Grid)
    ensures Abs(x * grid) == Abs(x) * grid
  {
  }

  lemma Unscaled(x: real, y: real, grid: Grid)
    requires x * grid <= y
    ensures x <= y / grid
  {
  }

  lemma UnscaledStrictly(x: real, y: real, grid: Grid)
    requires x * grid < y
    ensures x < y / grid
  {
  }

  /** Rounding to the nearest misses by at most half a step of the grid. */
  lemma NearestError(mode: Mode, x: real, grid: Grid)
    requires mode != TowardZero
    ensures Abs(RoundTo(mode, x, grid) - x) <= 0.5 / grid
  {
    RoundToTicks(mode, x, grid);
    HalfAwayBounds(x * grid);
    HalfEvenBounds(x * grid);
    WithinHalf(RoundTo(mode, x, grid), x, grid);
  }

  lemma WithinHalf(y: real, x: real, grid: Grid)
    requires Abs(y * grid - x * grid) <= 0.5
    ensures Abs(y - x) <= 0.5 / grid
  {
    assert (y - x) * grid == y * grid - x * grid;
    ScaledAbs(y - x, grid);
    Unscaled(Abs(y - x), 0.5, grid);
  }

  /** Rounding toward zero keeps the sign and drops less than a step of the grid. */
  lemma TruncError(x: real, grid: Grid)
    ensures var y := RoundTo(TowardZero, x, grid);
      && Abs(y) <= Abs(x) && Abs(x) - Abs(y) < 1.0 / grid
      && (x >= 0.0 ==> y >= 0.0) && (x <= 0.0 ==> y <= 0.0)
  {
    var y := RoundTo(TowardZero, x, grid);
    RoundToTicks(TowardZero, x, grid);
    TruncBounds(x * grid);
    ScaledAbs(x, grid);
    ScaledAbs(y, grid);
    SignOfScaled(x, grid);
    SignOfScaled(y, grid);
    AbsCompare(Abs(y), Abs(x), grid);
  }

  lemma SignOfScaled(x: real, grid: Grid)
    ensures (x * grid >= 0.0 <==> x >= 0.0) && (x * grid <= 0.0 <==> x <= 0.0)
  {
  }

  lemma AbsCompare(y: real, x: real, grid: Grid)
    requires y * grid <= x * grid < y * grid + 1.0
    ensures y <= x && x - y < 1.0 / grid
  {
    assert (x - y) * grid == x * grid - y * grid;
    UnscaledStrictly(x - y, 1.0, grid);
    SignOfScaled(x - y, grid);
  }
}
