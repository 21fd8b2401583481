/** How far the running average of an order can drift from its exact VWAP. */
module OrderVwap {
  import opened Decimals
  import opened Orders

  lemma {:induction false} FillKeepsSound(o: OrderState, f: Fill, g: Grid)
    requires Sound(o) && 0.0 < f.quantity
    ensures Sound(AfterFill(o, f, g))
    ensures AfterFill(o, f, g).fills == if Fillability(o, f).Pass? then o.fills + [f] else o.fills
  {
    assert (o.fills + [f])[..|o.fills|] == o.fills;
  }

  lemma TransitionKeepsSound(o: OrderState, to: Status)
    requires Sound(o) && to != Filled && (to == PartiallyFilled ==> o.status != Acknowledged)
    ensures Sound(Transition(o, to))
    ensures Transition(o, to).fills == o.fills
  {}

  /** The drift of the average, multiplied by the filled quantity. */
  ghost function Drift(o: OrderState): real {
    o.average * o.filled - CostOf(o.fills)
  }

  /** Half a grid step for every fill after the first. */
  function Slack(fills: int, g: Grid): real {
    (fills - 1) as real * (g / 2.0)
  }

  ghost predicate DriftBounded(o: OrderState, g: Grid) {
    o.fills != [] ==> Abs(Drift(o)) <= Slack(|o.fills|, g) * o.filled
  }

  lemma SlackStep(n: int, g: Grid)
    requires 1 <= n
    ensures Slack(n + 1, g) == Slack(n, g) + g / 2.0 && 0.0 <= Slack(n, g)
  {
    Scale(0.0, (n - 1) as real, g / 2.0);
  }

  lemma ProductStep(s: real, h: real, residue: real, drift: real, q: real, q': real)
    requires 0.0 <= s && q <= q' && Abs(residue) <= h * q' && Abs(drift) <= s * q
    ensures Abs(residue + drift) <= (s + h) * q'
  {
    Scale(q, q', s);
    assert (s + h) * q' == s * q' + h * q';
  }

  lemma DriftStep(n: int, g: Grid, residue: real, drift: real, q: real, q': real)
    requires 1 <= n && q <= q'
    requires Abs(residue) <= g / 2.0 * q' && Abs(drift) <= Slack(n, g) * q
    ensures Abs(residue + drift) <= Slack(n + 1, g) * q'
  {
    SlackStep(n, g);
    ProductStep(Slack(n, g), g / 2.0, residue, drift, q, q');
  }

  lemma DriftOfNext(o: OrderState, f: Fill, g: Grid) returns (residue: real)
    requires Sound(o) && 0.0 < f.quantity && Fillability(o, f).Pass? && o.fills != []
    ensures Drift(AfterFill(o, f, g)) == residue + Drift(o)
    ensures Abs(residue) <= g / 2.0 * AfterFill(o, f, g).filled
  {
    var o' := AfterFill(o, f, g);
    assert o'.fills[..|o.fills|] == o.fills;
    var a := TotalCost(o.average, o.filled, f.price, f.quantity);
    residue := o'.average * o'.filled - a;
    DivResidue(a, o'.filled, g);
  }

  lemma CostOfOne(f: Fill)
    ensures CostOf([f]) == f.price * f.quantity
  {
    assert [f][..0] == [] && CostOf([f][..0]) == 0.0;
  }

  lemma NoSlack(g: Grid, q: real)
    ensures Slack(1, g) * q == 0.0
  {
    var n := (1 - 1) as real;
    assert n == 0.0;
    assert n * (g / 2.0) == 0.0;
  }

  lemma FirstDrift(o: OrderState, f: Fill, g: Grid)
    requires Sound(o) && 0.0 < f.quantity && Fillability(o, f).Pass? && o.fills == []
    ensures DriftBounded(AfterFill(o, f, g), g)
  {
    var o' := AfterFill(o, f, g);
    assert o'.fills == [f] && o'.average == f.price && o'.filled == f.quantity;
    CostOfOne(f);
    NoSlack(g, f.quantity);
  }

  lemma NextDrift(o: OrderState, f: Fill, g: Grid)
    requires Sound(o) && 0.0 < f.quantity && Fillability(o, f).Pass? && o.fills != [] && DriftBounded(o, g)
    ensures DriftBounded(AfterFill(o, f, g), g)
  {
    var residue := DriftOfNext(o, f, g);
    DriftStep(|o.fills|, g, residue, Drift(o), o.filled, AfterFill(o, f, g).filled);
  }

  lemma FillDrift(o: OrderState, f: Fill, g: Grid)
    requires Sound(o) && 0.0 < f.quantity && DriftBounded(o, g)
    ensures DriftBounded(AfterFill(o, f, g), g)
  {
    if Fillability(o, f).Pass? {
      if o.fills == [] {
        FirstDrift(o, f, g);
      } else {
        NextDrift(o, f, g);
      }
    }
  }

  ghost predicate InBand(o: OrderState, lo: real, hi: real, g: Grid) {
    o.fills != [] ==> lo <= o.average <= hi
  }

  lemma Blend(lo: real, x: real, p: real, y: real, q: real)
    requires lo <= x && lo <= y && 0.0 <= p && 0.0 <= q
    ensures lo * (p + q) <= x * p + y * q
  {
    Scale(lo, x, p);
    Scale(lo, y, q);
    assert lo * (p + q) == lo * p + lo * q;
  }

  lemma Negate(x: real, y: real)
    ensures -x * y == -(x * y)
  {}

  lemma FillBand(o: OrderState, f: Fill, lo: real, hi: real, g: Grid)
    requires Sound(o) && 0.0 < f.quantity && InBand(o, lo, hi, g)
    requires lo <= f.price <= hi && OnGrid(lo, g) && OnGrid(hi, g)
    ensures InBand(AfterFill(o, f, g), lo, hi, g)
  {
    if Fillability(o, f).Pass? && o.fills != [] {
      Blend(lo, o.average, o.filled, f.price, f.quantity);
      Blend(-hi, -o.average, o.filled, -f.price, f.quantity);
      Negate(o.average, o.filled);
      Negate(f.price, f.quantity);
      Negate(hi, o.filled + f.quantity);
      DivBetween(TotalCost(o.average, o.filled, f.price, f.quantity), o.filled + f.quantity, lo, hi, g);
    }
  }

  /** An order that has been acknowledged and not filled. */
  ghost predicate Fresh(o: OrderState) {
    Sound(o) && o.status == Acknowledged
  }

  lemma {:induction false} RunKeeps(o: OrderState, attempts: seq<Fill>, g: Grid)
    requires Fresh(o) && PositiveFills(attempts)
    ensures Sound(AfterFills(o, attempts, g)) && DriftBounded(AfterFills(o, attempts, g), g)
  {
    if attempts != [] {
      var rest := attempts[..|attempts| - 1];
      assert PositiveFills(rest);
      RunKeeps(o, rest, g);
      FillKeepsSound(AfterFills(o, rest, g), attempts[|attempts| - 1], g);
      FillDrift(AfterFills(o, rest, g), attempts[|attempts| - 1], g);
    }
  }

  lemma {:induction false} RunInBand(o: OrderState, attempts: seq<Fill>, lo: real, hi: real, g: Grid)
    requires Fresh(o) && PositiveFills(attempts)
    requires OnGrid(lo, g) && OnGrid(hi, g)
    requires forall f | f in AfterFills(o, attempts, g).fills :: lo <= f.price <= hi
    ensures InBand(AfterFills(o, attempts, g), lo, hi, g)
  {
    if attempts != [] {
      var rest, f := attempts[..|attempts| - 1], attempts[|attempts| - 1];
      assert PositiveFills(rest);
      var before := AfterFills(o, rest, g);
      RunKeeps(o, rest, g);
      FillKeepsSound(before, f, g);
      RunInBand(o, rest, lo, hi, g);
      if Fillability(before, f).Pass? {
        assert f in AfterFills(o, attempts, g).fills;
        FillBand(before, f, lo, hi, g);
      }
    }
  }

  lemma PerUnit(a: real, q: real, c: real, e: real)
    requires 0.0 < q && Abs(a * q - c) <= e * q
    ensures Abs(a - c / q) <= e
  {
    OrderOfQuotients(c, a + e, q);
    OrderOfQuotients(c, a - e, q);
    assert (a + e) * q == a * q + e * q && (a - e) * q == a * q - e * q;
  }

  /** After n accepted fills the average is within (n - 1) half steps of the exact VWAP. */
  lemma VwapWithinRounding(o: OrderState, attempts: seq<Fill>, g: Grid)
    requires Fresh(o) && PositiveFills(attempts)
    ensures var r := AfterFills(o, attempts, g);
      r.fills != [] ==>
        QuantityOf(r.fills) > 0.0 &&
        Abs(r.average - CostOf(r.fills) / QuantityOf(r.fills)) <= Slack(|r.fills|, g)
  {
    RunKeeps(o, attempts, g);
    if AfterFills(o, attempts, g).fills != [] {
      BoundOfSound(AfterFills(o, attempts, g), g);
    }
  }

  lemma BoundOfSound(r: OrderState, g: Grid)
    requires Sound(r) && DriftBounded(r, g) && r.fills != []
    ensures QuantityOf(r.fills) > 0.0
    ensures Abs(r.average - CostOf(r.fills) / QuantityOf(r.fills)) <= Slack(|r.fills|, g)
  {
    PerUnit(r.average, r.filled, CostOf(r.fills), Slack(|r.fills|, g));
  }

  /** With exact division the average is the VWAP. */
  lemma VwapExact(o: OrderState, attempts: seq<Fill>)
    requires Fresh(o) && PositiveFills(attempts)
    ensures var r := AfterFills(o, attempts, 0.0);
      r.fills != [] ==> QuantityOf(r.fills) > 0.0 && r.average == CostOf(r.fills) / QuantityOf(r.fills)
  {
    VwapWithinRounding(o, attempts, 0.0);
  }

  /** The rounded average never leaves the range of the fill prices, provided these are on the grid. */
  lemma VwapBetweenFillPrices(o: OrderState, attempts: seq<Fill>, g: Grid)
    requires Fresh(o) && PositiveFills(attempts)
    requires forall f | f in AfterFills(o, attempts, g).fills :: OnGrid(f.price, g)
    ensures var r := AfterFills(o, attempts, g);
      r.fills != [] ==> exists low, high :: low in r.fills && high in r.fills && low.price <= r.average <= high.price
  {
    var fs := AfterFills(o, attempts, g).fills;
    if fs != [] {
      var low, high := Extremes(fs);
      RunInBand(o, attempts, low.price, high.price, g);
      assert low in fs && high in fs && low.price <= AfterFills(o, attempts, g).average <= high.price;
    }
  }

  lemma {:induction false} Extremes(fs: seq<Fill>) returns (low: Fill, high: Fill)
    requires fs != []
    ensures low in fs && high in fs
    ensures forall f | f in fs :: low.price <= f.price <= high.price
  {
    var last := fs[|fs| - 1];
    low, high := last, last;
    if |fs| > 1 {
      var rest := fs[..|fs| - 1];
      assert fs == rest + [last];
      var l, h := Extremes(rest);
      low := if l.price < last.price then l else last;
      high := if h.price > last.price then h else last;
    }
  }
}
