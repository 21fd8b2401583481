/** Decimal arithmetic as the gateway uses it: Add, Sub and Mul are exact, Div rounds its exact
    quotient to the nearest multiple of a grid step, halves away from zero.

    The step is a parameter: `10^-16` is the default of the gateway's decimal library, and the step
    `0.0` stands for exact division, so that one definition serves both readings. */
module Decimals {

  type Grid = g: real | 0.0 <= g witness 0.0

  function Abs(x: real): real {
    if x < 0.0 then -x else x
  }

  /** The profit of a quantity bought at a cost, at a price. */
  function Markup(price: real, cost: real, quantity: real): real {
    (price - cost) * quantity
  }

  function Min(x: real, y: real): real {
    if x <= y then x else y
  }

  /** The integer nearest to x; a half rounds away from zero. */
  function RoundHalfAway(x: real): int {
    if x < 0.0 then -(0.5 - x).Floor else (x + 0.5).Floor
  }

  function Div(a: real, b: real, g: Grid): real
    requires b != 0.0
  {
    if g == 0.0 then a / b else Steps(RoundHalfAway(a / b / g), g)
  }

  function Steps(k: int, g: real): real {
    k as real * g
  }

  ghost predicate OnGrid(x: real, g: Grid) {
    g == 0.0 || exists k: int :: x == Steps(k, g)
  }

  lemma Scale(x: real, y: real, m: real)
    requires x <= y && 0.0 <= m
    ensures x * m <= y * m && m * x <= m * y
  {}

  lemma Cancel(x: real, m: real)
    requires m != 0.0
    ensures x / m * m == x
  {}

  lemma OrderOfQuotients(x: real, y: real, m: real)
    requires 0.0 < m
    ensures x <= y * m <==> x / m <= y
    ensures y * m <= x <==> y <= x / m
  {
    var q := x / m;
    Cancel(x, m);
    if q < y {
      StrictScale(q, y, m);
    } else if y < q {
      StrictScale(y, q, m);
    }
  }

  lemma StrictScale(x: real, y: real, m: real)
    requires x < y && 0.0 < m
    ensures x * m < y * m
  {}

  lemma StepError(k: real, x: real, g: Grid)
    requires -0.5 <= k - x <= 0.5
    ensures Abs(k * g - x * g) <= g / 2.0
  {
    HalfStep(k - x, g);
    Distributes(k, x, g);
  }

  lemma HalfStep(d: real, g: Grid)
    requires -0.5 <= d <= 0.5
    ensures Abs(d * g) <= g / 2.0
  {
    var e := d * g;
    assert -0.5 * g <= e by { Scale(-0.5, d, g); }
    assert e <= 0.5 * g by { Scale(d, 0.5, g); }
  }

  lemma Distributes(x: real, y: real, m: real)
    ensures (x - y) * m == x * m - y * m
  {}

  lemma RoundError(x: real)
    ensures -0.5 <= RoundHalfAway(x) as real - x <= 0.5
  {}

  lemma NearestStep(y: real, g: Grid)
    requires g != 0.0
    ensures Abs(Steps(RoundHalfAway(y / g), g) - y) <= g / 2.0
  {
    var x := y / g;
    var k := RoundHalfAway(x);
    assert x * g == y by { Cancel(y, g); }
    RoundError(x);
    StepError(k as real, x, g);
    assert Steps(k, g) == k as real * g;
  }

  /** Rounding is off by at most half a step, and what it returns is on the grid. */
  lemma DivError(a: real, b: real, g: Grid)
    requires b != 0.0
    ensures Abs(Div(a, b, g) - a / b) <= g / 2.0
    ensures OnGrid(Div(a, b, g), g)
  {
    if g != 0.0 {
      NearestStep(a / b, g);
    }
  }

  /** No other integer is as near; of two that are, the one further from zero is taken. */
  lemma NearestInteger(x: real, k: int)
    ensures Abs(RoundHalfAway(x) as real - x) <= Abs(k as real - x)
    ensures Abs(RoundHalfAway(x) as real - x) == Abs(k as real - x) && k != RoundHalfAway(x) ==>
      Abs(k as real) < Abs(RoundHalfAway(x) as real)
  {
    var n := RoundHalfAway(x);
    RoundError(x);
    if k < n {
      assert k as real <= n as real - 1.0;
    } else if n < k {
      assert n as real + 1.0 <= k as real;
    }
  }

  /** The error of a division, multiplied back. */
  lemma DivResidue(a: real, b: real, g: Grid)
    requires 0.0 < b
    ensures Abs(Div(a, b, g) * b - a) <= g / 2.0 * b
  {
    DivError(a, b, g);
    var e := Div(a, b, g) - a / b;
    Cancel(a, b);
    assert Div(a, b, g) * b - a == e * b by { assert (Div(a, b, g) - a / b) * b == Div(a, b, g) * b - a / b * b; }
    Scale(e, g / 2.0, b);
    Scale(-(g / 2.0), e, b);
  }

  lemma RoundMonotone(x: real, y: real)
    requires x <= y
    ensures RoundHalfAway(x) <= RoundHalfAway(y)
  {}

  lemma DivMonotone(a: real, c: real, b: real, g: Grid)
    requires 0.0 < b && a <= c
    ensures Div(a, b, g) <= Div(c, b, g)
  {
    Cancel(c, b);
    OrderOfQuotients(a, c / b, b);
    if g != 0.0 {
      Cancel(c / b, g);
      OrderOfQuotients(a / b, c / b / g, g);
      RoundMonotone(a / b / g, c / b / g);
      Scale(RoundHalfAway(a / b / g) as real, RoundHalfAway(c / b / g) as real, g);
    }
  }

  /** A grid point is a fixed point of rounding. */
  lemma DivExactOnGrid(x: real, b: real, g: Grid)
    requires 0.0 < b && OnGrid(x, g)
    ensures Div(x * b, b, g) == x
  {
    assert x * b / b == x;
    if g != 0.0 {
      var k: int :| x == Steps(k, g);
      assert k as real * g / g == k as real;
    }
  }

  /** Rounding never leaves an interval whose ends lie on the grid. */
  lemma DivBetween(a: real, b: real, lo: real, hi: real, g: Grid)
    requires 0.0 < b && lo * b <= a <= hi * b
    requires OnGrid(lo, g) && OnGrid(hi, g)
    ensures lo <= Div(a, b, g) <= hi
  {
    DivExactOnGrid(lo, b, g);
    DivExactOnGrid(hi, b, g);
    DivMonotone(lo * b, a, b, g);
    DivMonotone(a, hi * b, b, g);
  }
}
