/** Proportional order splitting of gateway/internal/router/splitter.go. */
module Splitter {
  import opened Routing
  import opened Decimals

  function DepthAt(depths: map<VenueId, real>, v: VenueId): real {
    if v in depths then depths[v] else 0.0
  }

  function TotalDepth(ranked: seq<VenueId>, depths: map<VenueId, real>): real {
    if ranked == [] then 0.0
    else TotalDepth(ranked[..|ranked| - 1], depths) + DepthAt(depths, ranked[|ranked| - 1])
  }

  /** A proportion of the order, counted in lots. */
  function ShareInLots(proportion: real, orderQty: real, lotSize: real, g: Grid): real
    requires lotSize != 0.0
  {
    Div(proportion * orderQty, lotSize, g)
  }

  /** A share in whole lots, rounded down. */
  function LotsOf(depth: real, total: real, orderQty: real, lotSize: real, g: Grid): int
    requires total != 0.0 && lotSize != 0.0
  {
    ShareInLots(Div(depth, total, g), orderQty, lotSize, g).Floor
  }

  function InLots(lots: int, lotSize: real): real {
    lots as real * lotSize
  }

  /** One allocation per venue whose share reaches a lot. */
  function Proportional(
      ranked: seq<VenueId>, depths: map<VenueId, real>, total: real,
      orderQty: real, lotSize: real, g: Grid): seq<Allocation>
    requires total != 0.0 && lotSize != 0.0
  {
    if ranked == [] then []
    else
      var v := ranked[|ranked| - 1];
      var qty := InLots(LotsOf(DepthAt(depths, v), total, orderQty, lotSize, g), lotSize);
      Proportional(ranked[..|ranked| - 1], depths, total, orderQty, lotSize, g)
        + if qty < lotSize then [] else [Allocation(v, qty, DepthProportion)]
  }

  function Sum(allocations: seq<Allocation>): real {
    if allocations == [] then 0.0
    else Sum(allocations[..|allocations| - 1]) + allocations[|allocations| - 1].quantity
  }

  /** A positive residual goes to the best venue: onto its allocation if that comes first, else in front. */
  function WithResidual(allocations: seq<Allocation>, best: VenueId, residual: real): seq<Allocation> {
    if residual <= 0.0 then allocations
    else if allocations != [] && allocations[0].venue == best then
      allocations[0 := allocations[0].(quantity := allocations[0].quantity + residual)]
    else [Allocation(best, residual, ResidualToBest)] + allocations
  }

  predicate Splits(orderQty: real, ranked: seq<VenueId>, depths: map<VenueId, real>) {
    |ranked| > 1 && orderQty > DepthAt(depths, ranked[0]) * 0.5
  }

  function Split(
      orderQty: real, ranked: seq<VenueId>, depths: map<VenueId, real>, lotSize: real, g: Grid): seq<Allocation>
    requires Splits(orderQty, ranked, depths) ==> TotalDepth(ranked, depths) != 0.0 && lotSize != 0.0
  {
    if ranked == [] then []
    else if |ranked| == 1 then [Allocation(ranked[0], orderQty, SingleVenue)]
    else if orderQty <= DepthAt(depths, ranked[0]) * 0.5 then [Allocation(ranked[0], orderQty, WithinThreshold)]
    else
      var lots := Proportional(ranked, depths, TotalDepth(ranked, depths), orderQty, lotSize, g);
      WithResidual(lots, ranked[0], orderQty - Sum(lots))
  }

  method SumDepth(ranked: seq<VenueId>, depths: map<VenueId, real>) returns (totalDepth: real)
    ensures totalDepth == TotalDepth(ranked, depths)
  {
    totalDepth := 0.0;
    for k := 0 to |ranked|
      invariant totalDepth == TotalDepth(ranked[..k], depths)
    {
      assert ranked[..k + 1][..k] == ranked[..k];
      if ranked[k] in depths {
        totalDepth := totalDepth + depths[ranked[k]];
      }
    }
    assert ranked[..|ranked|] == ranked;
  }

  method AllocateLots(
      ranked: seq<VenueId>, depths: map<VenueId, real>, totalDepth: real, orderQty: real, lotSize: real, g: Grid)
    returns (allocations: seq<Allocation>, placed: real)
    requires totalDepth != 0.0 && lotSize != 0.0
    ensures allocations == Proportional(ranked, depths, totalDepth, orderQty, lotSize, g)
    ensures placed == Sum(allocations)
  {
    allocations, placed := [], 0.0;
    for k := 0 to |ranked|
      invariant allocations == Proportional(ranked[..k], depths, totalDepth, orderQty, lotSize, g)
      invariant placed == Sum(allocations)
    {
      assert ranked[..k + 1][..k] == ranked[..k];
      var lots := LotsOf(DepthAt(depths, ranked[k]), totalDepth, orderQty, lotSize, g);
      var qty := InLots(lots, lotSize);
      if qty < lotSize {
        continue;
      }
      assert (allocations + [Allocation(ranked[k], qty, DepthProportion)])[..|allocations|] == allocations;
      allocations := allocations + [Allocation(ranked[k], qty, DepthProportion)];
      placed := placed + qty;
    }
    assert ranked[..|ranked|] == ranked;
  }

  method SplitOrder(orderQty: real, ranked: seq<VenueId>, depths: map<VenueId, real>, lotSize: real, g: Grid)
    returns (allocations: seq<Allocation>)
    requires Splits(orderQty, ranked, depths) ==> TotalDepth(ranked, depths) != 0.0 && lotSize != 0.0
    ensures allocations == Split(orderQty, ranked, depths, lotSize, g)
  {
    if |ranked| == 0 {
      return [];
    }
    var best := ranked[0];
    if |ranked| == 1 {
      return [Allocation(best, orderQty, SingleVenue)];
    }
    var threshold := DepthAt(depths, best) * 0.5;
    if orderQty <= threshold {
      return [Allocation(best, orderQty, WithinThreshold)];
    }
    var totalDepth := SumDepth(ranked, depths);
    var placed;
    allocations, placed := AllocateLots(ranked, depths, totalDepth, orderQty, lotSize, g);
    var residual := orderQty - placed;
    if residual > 0.0 {
      if |allocations| > 0 && allocations[0].venue == best {
        allocations := allocations[0 := allocations[0].(quantity := allocations[0].quantity + residual)];
      } else {
        allocations := [Allocation(best, residual, ResidualToBest)] + allocations;
      }
    }
  }

  // ---------------------------------------------------------------- sums

  lemma {:induction false} SumConcat(a: seq<Allocation>, b: seq<Allocation>)
    ensures Sum(a + b) == Sum(a) + Sum(b)
  {
    if b == [] {
      assert a + b == a;
    } else {
      assert (a + b)[..|a + b| - 1] == a + b[..|b| - 1];
      SumConcat(a, b[..|b| - 1]);
    }
  }

  lemma ResidualCompletes(lots: seq<Allocation>, best: VenueId, orderQty: real)
    requires Sum(lots) <= orderQty
    ensures Sum(WithResidual(lots, best, orderQty - Sum(lots))) == orderQty
  {
    var residual := orderQty - Sum(lots);
    if residual > 0.0 {
      if lots != [] && lots[0].venue == best {
        HeadSum(lots, lots[0].(quantity := lots[0].quantity + residual));
      } else {
        SumCons(Allocation(best, residual, ResidualToBest), lots);
      }
    }
  }

  lemma SumCons(a: Allocation, lots: seq<Allocation>)
    ensures Sum([a] + lots) == a.quantity + Sum(lots)
  {
    SumConcat([a], lots);
    assert [a][..0] == [];
  }

  lemma HeadSum(lots: seq<Allocation>, a: Allocation)
    requires lots != []
    ensures Sum(lots[0 := a]) == Sum(lots) + a.quantity - lots[0].quantity
  {
    assert lots == [lots[0]] + lots[1..] && lots[0 := a] == [a] + lots[1..];
    SumCons(lots[0], lots[1..]);
    SumCons(a, lots[1..]);
  }

  // ---------------------------------------------------------------- the shares fit

  /** Lots placed to a prefix of the ranking, dropped venues counting zero. */
  function LotCount(
      ranked: seq<VenueId>, depths: map<VenueId, real>, total: real, orderQty: real, lotSize: real, g: Grid): int
    requires total != 0.0 && lotSize != 0.0
  {
    if ranked == [] then 0
    else
      var lots := LotsOf(DepthAt(depths, ranked[|ranked| - 1]), total, orderQty, lotSize, g);
      LotCount(ranked[..|ranked| - 1], depths, total, orderQty, lotSize, g) + if lots < 1 then 0 else lots
  }

  lemma LotThreshold(lots: int, lotSize: real)
    requires 0.0 < lotSize
    ensures InLots(lots, lotSize) < lotSize <==> lots < 1
  {
    if lots < 1 {
      Scale(lots as real, 0.0, lotSize);
    } else {
      Scale(1.0, lots as real, lotSize);
    }
  }

  lemma InLotsAdd(a: int, b: int, lotSize: real)
    ensures InLots(a + b, lotSize) == InLots(a, lotSize) + InLots(b, lotSize)
  {
    var x, y := a as real, b as real;
    assert (a + b) as real == x + y;
    assert (x + y) * lotSize == x * lotSize + y * lotSize;
  }

  /** Every proportional allocation is a whole positive number of lots. */
  ghost predicate WholeLots(a: Allocation, lotSize: real) {
    exists lots: int :: 1 <= lots && a.quantity == InLots(lots, lotSize)
  }

  ghost predicate AllWhole(lots: seq<Allocation>, lotSize: real) {
    forall a | a in lots :: WholeLots(a, lotSize)
  }

  lemma OneMoreLots(before: seq<Allocation>, v: VenueId, count: int, lots: int, lotSize: real)
    requires AllWhole(before, lotSize) && Sum(before) == InLots(count, lotSize) && 1 <= lots
    ensures var after := before + [Allocation(v, InLots(lots, lotSize), DepthProportion)];
      AllWhole(after, lotSize) && Sum(after) == InLots(count + lots, lotSize)
  {
    var a := Allocation(v, InLots(lots, lotSize), DepthProportion);
    assert WholeLots(a, lotSize);
    assert (before + [a])[..|before|] == before;
    InLotsAdd(count, lots, lotSize);
  }

  lemma {:induction false} ProportionalLots(
      ranked: seq<VenueId>, depths: map<VenueId, real>, total: real, orderQty: real, lotSize: real, g: Grid)
    requires total != 0.0 && 0.0 < lotSize
    ensures var lots := Proportional(ranked, depths, total, orderQty, lotSize, g);
      AllWhole(lots, lotSize) && Sum(lots) == InLots(LotCount(ranked, depths, total, orderQty, lotSize, g), lotSize)
  {
    if ranked == [] {
      var z := 0 as real;
      assert z == 0.0;
    } else {
      var n := |ranked| - 1;
      ProportionalLots(ranked[..n], depths, total, orderQty, lotSize, g);
      var lots := LotsOf(DepthAt(depths, ranked[n]), total, orderQty, lotSize, g);
      var before := Proportional(ranked[..n], depths, total, orderQty, lotSize, g);
      LotThreshold(lots, lotSize);
      if lots < 1 {
        assert before + [] == before;
      } else {
        OneMoreLots(before, ranked[n], LotCount(ranked[..n], depths, total, orderQty, lotSize, g), lots, lotSize);
      }
    }
  }

  ghost predicate NonNegative(depths: map<VenueId, real>) {
    forall v | v in depths :: 0.0 <= depths[v]
  }

  function Scaled(x: real, q: real, m: real): real
    requires m != 0.0
  {
    x * q / m
  }

  /** A venue's exact share of the order, in lots. */
  function Quota(depth: real, total: real, orderQty: real, lotSize: real): real
    requires total != 0.0 && lotSize != 0.0
  {
    Scaled(depth / total, orderQty, lotSize)
  }

  /** Half a grid step for an order of so many lots, and half for the division by the lot size. */
  function HalfSteps(lots: real, g: Grid): real {
    g / 2.0 * (lots + 1.0)
  }

  /** What the two rounded divisions can add to a share, in lots. */
  function Excess(orderQty: real, lotSize: real, g: Grid): real
    requires lotSize != 0.0
  {
    HalfSteps(orderQty / lotSize, g)
  }

  lemma QuotientOfSum(x: real, y: real, m: real)
    requires m != 0.0
    ensures (x + y) / m == x / m + y / m
    ensures (x - y) / m == x / m - y / m
  {}

  lemma QuotaAdds(a: real, b: real, total: real, orderQty: real, lotSize: real)
    requires total != 0.0 && lotSize != 0.0
    ensures Quota(a + b, total, orderQty, lotSize)
         == Quota(a, total, orderQty, lotSize) + Quota(b, total, orderQty, lotSize)
  {
    QuotientOfSum(a, b, total);
    var x, y := a / total, b / total;
    assert (x + y) * orderQty == x * orderQty + y * orderQty;
    QuotientOfSum(x * orderQty, y * orderQty, lotSize);
  }

  lemma QuotaOfAll(total: real, orderQty: real, lotSize: real)
    requires total != 0.0 && lotSize != 0.0
    ensures Quota(total, total, orderQty, lotSize) == orderQty / lotSize
    ensures Quota(0.0, total, orderQty, lotSize) == 0.0
  {
    assert total / total == 1.0;
  }

  lemma QuotaPositive(depth: real, total: real, orderQty: real, lotSize: real)
    requires 0.0 <= depth && 0.0 < total && 0.0 <= orderQty && 0.0 < lotSize
    ensures 0.0 <= Quota(depth, total, orderQty, lotSize)
  {
    OrderOfQuotients(depth, 0.0, total);
    Scale(0.0, depth / total, orderQty);
    OrderOfQuotients(depth / total * orderQty, 0.0, lotSize);
  }

  /** An error before a scaling and a division, after them. */
  lemma ErrorScaled(x: real, y: real, h: real, q: real, m: real)
    requires Abs(x - y) <= h && 0.0 <= q && 0.0 < m
    ensures Abs(Scaled(x, q, m) - Scaled(y, q, m)) <= h * (q / m)
  {
    ScaledDifference(x, y, q, m);
    OrderOfQuotients(q, 0.0, m);
    Scale(x - y, h, q / m);
    Scale(-h, x - y, q / m);
    Negated(h, q / m);
  }

  lemma Negated(h: real, n: real)
    ensures -h * n == -(h * n)
  {}

  lemma ScaledByRatio(x: real, q: real, m: real)
    requires m != 0.0
    ensures Scaled(x, q, m) == x * (q / m)
  {}

  lemma ScaledDifference(x: real, y: real, q: real, m: real)
    requires m != 0.0
    ensures Scaled(x, q, m) - Scaled(y, q, m) == (x - y) * (q / m)
  {
    ScaledByRatio(x, q, m);
    ScaledByRatio(y, q, m);
    Distributes(x, y, q / m);
  }

  lemma RawBounds(a: real, exact: real, orderQty: real, lotSize: real, g: Grid)
    requires Abs(a - exact) <= g / 2.0 && 0.0 <= orderQty && 0.0 < lotSize
    ensures Abs(ShareInLots(a, orderQty, lotSize, g) - Scaled(exact, orderQty, lotSize)) <= Excess(orderQty, lotSize, g)
  {
    ErrorScaled(a, exact, g / 2.0, orderQty, lotSize);
    ScaledError(a, orderQty, lotSize, g);
    AddErrors(ShareInLots(a, orderQty, lotSize, g), Scaled(a, orderQty, lotSize), Scaled(exact, orderQty, lotSize),
              g, orderQty / lotSize);
  }

  lemma LotsBounds(depth: real, total: real, orderQty: real, lotSize: real, g: Grid)
    requires 0.0 < total && 0.0 <= orderQty && 0.0 < lotSize
    ensures var lots, quota, e := LotsOf(depth, total, orderQty, lotSize, g) as real,
                                  Quota(depth, total, orderQty, lotSize), Excess(orderQty, lotSize, g);
      quota - e - 1.0 < lots <= quota + e
  {
    DivError(depth, total, g);
    RawBounds(Div(depth, total, g), depth / total, orderQty, lotSize, g);
    FloorBounds(ShareInLots(Div(depth, total, g), orderQty, lotSize, g));
  }

  lemma ScaledError(x: real, q: real, m: real, g: Grid)
    requires m != 0.0
    ensures Abs(ShareInLots(x, q, m, g) - Scaled(x, q, m)) <= g / 2.0
  {
    DivError(x * q, m, g);
  }

  lemma AddErrors(r: real, s: real, q: real, g: Grid, n: real)
    requires Abs(r - s) <= g / 2.0 && Abs(s - q) <= g / 2.0 * n
    ensures Abs(r - q) <= HalfSteps(n, g)
  {
    assert HalfSteps(n, g) == g / 2.0 * n + g / 2.0;
  }

  lemma FloorBounds(x: real)
    ensures x - 1.0 < x.Floor as real <= x
  {}

  lemma ExcessPositive(orderQty: real, lotSize: real, g: Grid)
    requires 0.0 <= orderQty && 0.0 < lotSize
    ensures 0.0 <= Excess(orderQty, lotSize, g)
  {
    OrderOfQuotients(orderQty, 0.0, lotSize);
    Scale(0.0, orderQty / lotSize + 1.0, g / 2.0);
  }

  function Times(n: int, e: real): real {
    n as real * e
  }

  /** Rounding down and the two rounded divisions together stay within these bounds. */
  lemma {:induction false} CountBounds(
      ranked: seq<VenueId>, depths: map<VenueId, real>, total: real, orderQty: real, lotSize: real, g: Grid)
    requires NonNegative(depths) && 0.0 < total && 0.0 <= orderQty && 0.0 < lotSize
    ensures var count, quota := LotCount(ranked, depths, total, orderQty, lotSize, g) as real,
                                Quota(TotalDepth(ranked, depths), total, orderQty, lotSize);
      var e := Excess(orderQty, lotSize, g);
      quota - Times(|ranked|, e + 1.0) <= count <= quota + Times(|ranked|, e)
      && (ranked != [] ==> quota - Times(|ranked|, e + 1.0) < count)
  {
    var e := Excess(orderQty, lotSize, g);
    if ranked == [] {
      QuotaOfAll(total, orderQty, lotSize);
      var z := 0 as real;
      assert z == 0.0 && z * e == 0.0 && z * (e + 1.0) == 0.0;
    } else {
      var n := |ranked| - 1;
      CountBounds(ranked[..n], depths, total, orderQty, lotSize, g);
      ExcessPositive(orderQty, lotSize, g);
      OneMore(n, e);
      OneMore(n, e + 1.0);
      CountStep(ranked, depths, total, orderQty, lotSize, g);
    }
  }

  lemma CountStep(ranked: seq<VenueId>, depths: map<VenueId, real>, total: real, orderQty: real, lotSize: real, g: Grid)
    requires ranked != [] && NonNegative(depths) && 0.0 < total && 0.0 <= orderQty && 0.0 < lotSize
    ensures var rest := ranked[..|ranked| - 1];
      var moved := (LotCount(ranked, depths, total, orderQty, lotSize, g)
                    - LotCount(rest, depths, total, orderQty, lotSize, g)) as real;
      var due := Quota(TotalDepth(ranked, depths), total, orderQty, lotSize)
               - Quota(TotalDepth(rest, depths), total, orderQty, lotSize);
      due - (Excess(orderQty, lotSize, g) + 1.0) < moved <= due + Excess(orderQty, lotSize, g)
  {
    var depth := DepthAt(depths, ranked[|ranked| - 1]);
    LotsBounds(depth, total, orderQty, lotSize, g);
    QuotaAdds(TotalDepth(ranked[..|ranked| - 1], depths), depth, total, orderQty, lotSize);
    QuotaPositive(depth, total, orderQty, lotSize);
    ExcessPositive(orderQty, lotSize, g);
  }

  lemma OneMore(n: nat, e: real)
    ensures Times(n + 1, e) == Times(n, e) + e
  {
    var x := n as real;
    assert (n + 1) as real == x + 1.0;
    assert (x + 1.0) * e == x * e + e;
  }

  // ---------------------------------------------------------------- the results

  /** The order is a whole number of lots and rounding cannot add up to one. */
  ghost predicate RoundingFits(orderQty: real, venues: int, lotSize: real, g: Grid) {
    g == 0.0 || exists lots: int :: orderQty == InLots(lots, lotSize) && Times(venues, HalfSteps(lots as real, g)) < 1.0
  }

  lemma CountFits(ranked: seq<VenueId>, depths: map<VenueId, real>, orderQty: real, lotSize: real, g: Grid)
    requires NonNegative(depths) && 0.0 <= orderQty && 0.0 < lotSize && 0.0 < TotalDepth(ranked, depths)
    requires RoundingFits(orderQty, |ranked|, lotSize, g)
    ensures InLots(LotCount(ranked, depths, TotalDepth(ranked, depths), orderQty, lotSize, g), lotSize) <= orderQty
  {
    var total := TotalDepth(ranked, depths);
    var count := LotCount(ranked, depths, total, orderQty, lotSize, g);
    CountBounds(ranked, depths, total, orderQty, lotSize, g);
    QuotaOfAll(total, orderQty, lotSize);
    if g == 0.0 {
      ZeroExcess(|ranked|, orderQty, lotSize);
      OrderOfQuotients(orderQty, count as real, lotSize);
    } else {
      FewLots(count, |ranked|, orderQty, lotSize, g);
    }
  }

  lemma FewLots(count: int, venues: nat, orderQty: real, lotSize: real, g: Grid)
    requires 0.0 < lotSize && g != 0.0 && RoundingFits(orderQty, venues, lotSize, g)
    requires count as real <= orderQty / lotSize + Times(venues, Excess(orderQty, lotSize, g))
    ensures InLots(count, lotSize) <= orderQty
  {
    var lots: int :| orderQty == InLots(lots, lotSize) && Times(venues, HalfSteps(lots as real, g)) < 1.0;
    LotsBack(lots, lotSize);
    FewerThan(count, lots, Times(venues, HalfSteps(lots as real, g)), lotSize);
  }

  lemma FewerThan(count: int, lots: int, more: real, lotSize: real)
    requires count as real <= lots as real + more && more < 1.0 && 0.0 < lotSize
    ensures InLots(count, lotSize) <= InLots(lots, lotSize)
  {
    WholeBelow(count, lots);
    Scale(count as real, lots as real, lotSize);
  }

  lemma LotsBack(lots: int, lotSize: real)
    requires lotSize != 0.0
    ensures InLots(lots, lotSize) / lotSize == lots as real
  {}

  lemma WholeBelow(a: int, b: int)
    requires a as real < b as real + 1.0
    ensures a <= b
  {}

  lemma ZeroExcess(n: nat, orderQty: real, lotSize: real)
    requires lotSize != 0.0
    ensures Times(n, Excess(orderQty, lotSize, 0.0)) == 0.0
  {
    var x := orderQty / lotSize + 1.0;
    assert 0.0 / 2.0 * x == 0.0;
  }

  lemma OnlyFirstPatched(lots: seq<Allocation>, best: VenueId, residual: real)
    ensures var r := WithResidual(lots, best, residual);
      && (forall k | 0 <= k < |r| && !(residual > 0.0 && k == 0) :: r[k] in lots)
      && (residual > 0.0 ==> r != [] && r[0].venue == best)
  {
    var r := WithResidual(lots, best, residual);
    forall k | 0 <= k < |r| && !(residual > 0.0 && k == 0) ensures r[k] in lots {
      if residual > 0.0 && |r| == |lots| + 1 {
        assert r[k] == lots[k - 1];
      } else {
        assert r[k] == lots[k];
      }
    }
  }

  /** In the split path every allocation is a whole positive number of lots, save the one of the best
      venue that carries the residual, and with exact division the residual is below one lot per venue. */
  lemma SplitInLots(orderQty: real, ranked: seq<VenueId>, depths: map<VenueId, real>, lotSize: real, g: Grid)
    requires Splits(orderQty, ranked, depths) && NonNegative(depths) && 0.0 < lotSize
    requires 0.0 < TotalDepth(ranked, depths)
    ensures var lots := Proportional(ranked, depths, TotalDepth(ranked, depths), orderQty, lotSize, g);
      var r, residual := Split(orderQty, ranked, depths, lotSize, g), orderQty - Sum(lots);
      && AllWhole(lots, lotSize)
      && (forall k | 0 <= k < |r| && !(residual > 0.0 && k == 0) :: r[k] in lots)
      && (residual > 0.0 ==> r != [] && r[0].venue == ranked[0])
      && (g == 0.0 ==> 0.0 <= residual < InLots(|ranked|, lotSize))
  {
    var total := TotalDepth(ranked, depths);
    var lots := Proportional(ranked, depths, total, orderQty, lotSize, g);
    ProportionalLots(ranked, depths, total, orderQty, lotSize, g);
    OnlyFirstPatched(lots, ranked[0], orderQty - Sum(lots));
    if g == 0.0 {
      ResidualBelow(ranked, depths, orderQty, lotSize);
    }
  }

  lemma ResidualBelow(ranked: seq<VenueId>, depths: map<VenueId, real>, orderQty: real, lotSize: real)
    requires ranked != [] && NonNegative(depths) && 0.0 <= orderQty && 0.0 < lotSize && 0.0 < TotalDepth(ranked, depths)
    ensures var placed := InLots(LotCount(ranked, depths, TotalDepth(ranked, depths), orderQty, lotSize, 0.0), lotSize);
      0.0 <= orderQty - placed < InLots(|ranked|, lotSize)
  {
    var total := TotalDepth(ranked, depths);
    var count := LotCount(ranked, depths, total, orderQty, lotSize, 0.0);
    CountFits(ranked, depths, orderQty, lotSize, 0.0);
    CountBounds(ranked, depths, total, orderQty, lotSize, 0.0);
    QuotaOfAll(total, orderQty, lotSize);
    NoExcess(|ranked|, orderQty, lotSize);
    LotsAbove(orderQty, count, |ranked|, lotSize);
  }

  lemma LotsAbove(orderQty: real, count: int, more: int, lotSize: real)
    requires 0.0 < lotSize && orderQty / lotSize < count as real + more as real
    ensures orderQty < InLots(count, lotSize) + InLots(more, lotSize)
  {
    Cancel(orderQty, lotSize);
    StrictScale(orderQty / lotSize, (count + more) as real, lotSize);
    InLotsAdd(count, more, lotSize);
  }

  lemma NoExcess(n: nat, orderQty: real, lotSize: real)
    requires lotSize != 0.0
    ensures Times(n, Excess(orderQty, lotSize, 0.0) + 1.0) == n as real
  {
    var x := orderQty / lotSize + 1.0;
    assert 0.0 / 2.0 * x == 0.0;
  }

  /** The allocations of the split path add up to the order exactly when the lots placed do not already
      exceed it, for the residual branch then supplies the rest. */
  lemma SplitConservesIff(orderQty: real, ranked: seq<VenueId>, depths: map<VenueId, real>, lotSize: real, g: Grid)
    requires Splits(orderQty, ranked, depths) && TotalDepth(ranked, depths) != 0.0 && 0.0 < lotSize
    ensures var placed := InLots(LotCount(ranked, depths, TotalDepth(ranked, depths), orderQty, lotSize, g), lotSize);
      Sum(Split(orderQty, ranked, depths, lotSize, g)) == orderQty <==> placed <= orderQty
  {
    var total := TotalDepth(ranked, depths);
    var lots := Proportional(ranked, depths, total, orderQty, lotSize, g);
    ProportionalLots(ranked, depths, total, orderQty, lotSize, g);
    if Sum(lots) <= orderQty {
      ResidualCompletes(lots, ranked[0], orderQty);
    }
  }

  /** With exact division, and with rounded division for whole-lot orders small against the grid, the
      allocations add up to exactly the order on every path. */
  lemma {:induction false} SplitConserves(
      orderQty: real, ranked: seq<VenueId>, depths: map<VenueId, real>, lotSize: real, g: Grid)
    requires ranked != [] && NonNegative(depths) && 0.0 < lotSize && 0.0 < TotalDepth(ranked, depths)
    requires RoundingFits(orderQty, |ranked|, lotSize, g)
    ensures Sum(Split(orderQty, ranked, depths, lotSize, g)) == orderQty
  {
    if Splits(orderQty, ranked, depths) {
      CountFits(ranked, depths, orderQty, lotSize, g);
      SplitConservesIff(orderQty, ranked, depths, lotSize, g);
    } else {
      WholeSum(Split(orderQty, ranked, depths, lotSize, g), orderQty);
    }
  }

  lemma WholeSum(allocations: seq<Allocation>, orderQty: real)
    requires |allocations| == 1 && allocations[0].quantity == orderQty
    ensures Sum(allocations) == orderQty
  {
    assert allocations[..0] == [];
  }

  /** With rounded division and an order that is not a whole number of lots, the allocations can add up
      to more than the order, for every grid: an order a quarter step short of one lot is rounded up. */
  lemma RoundedSplitCanOverAllocate(g: Grid, a: VenueId, b: VenueId)
    requires 0.0 < g < 1.0 && OnGrid(1.0, g) && a != b
    ensures var depths := map[a := 1.0, b := 0.0];
      var orderQty := 1.0 - g / 4.0;
      Splits(orderQty, [a, b], depths) && TotalDepth([a, b], depths) == 1.0
      && Sum(Split(orderQty, [a, b], depths, 1.0, g)) == 1.0 > orderQty
  {
    var depths, orderQty := map[a := 1.0, b := 0.0], 1.0 - g / 4.0;
    TwoDepths(a, b, depths);
    OneLotAndNone(g);
    TwoProportional(a, b, depths, orderQty, g);
    assert [Allocation(a, 1.0, DepthProportion)][..0] == [];
  }

  lemma TwoDepths(a: VenueId, b: VenueId, depths: map<VenueId, real>)
    requires a != b && depths == map[a := 1.0, b := 0.0]
    ensures TotalDepth([a, b], depths) == 1.0
  {
    assert [a, b][..1] == [a] && [a][..0] == [];
    assert TotalDepth([a], depths) == 1.0;
  }

  lemma OneLotAndNone(g: Grid)
    requires 0.0 < g && OnGrid(1.0, g)
    ensures LotsOf(1.0, 1.0, 1.0 - g / 4.0, 1.0, g) == 1 && LotsOf(0.0, 1.0, 1.0 - g / 4.0, 1.0, g) == 0
  {
    DivExactOnGrid(1.0, 1.0, g);
    DivExactOnGrid(0.0, 1.0, g) by { assert 0.0 == Steps(0, g); }
    NearlyOne(g);
  }

  lemma TwoProportional(a: VenueId, b: VenueId, depths: map<VenueId, real>, orderQty: real, g: Grid)
    requires a != b && depths == map[a := 1.0, b := 0.0]
    requires LotsOf(1.0, 1.0, orderQty, 1.0, g) == 1 && LotsOf(0.0, 1.0, orderQty, 1.0, g) == 0
    ensures Proportional([a, b], depths, 1.0, orderQty, 1.0, g) == [Allocation(a, 1.0, DepthProportion)]
  {
    assert [a, b][..1] == [a] && [a][..0] == [];
    assert InLots(1, 1.0) == 1.0 && InLots(0, 1.0) == 0.0;
    assert Proportional([a], depths, 1.0, orderQty, 1.0, g) == [Allocation(a, 1.0, DepthProportion)];
  }

  /** A quarter step below a grid point rounds back to it. */
  lemma NearlyOne(g: Grid)
    requires 0.0 < g && OnGrid(1.0, g)
    ensures Div(1.0 * (1.0 - g / 4.0), 1.0, g) == 1.0
  {
    var k: int :| 1.0 == Steps(k, g);
    var x := (1.0 - g / 4.0) / g;
    assert x * g == 1.0 - g / 4.0;
    assert x == k as real - 0.25 by {
      assert (k as real - 0.25) * g == 1.0 - g / 4.0;
    }
    assert RoundHalfAway(x) == k;
  }
}
