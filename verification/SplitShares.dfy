/** When the splitter splits, and what share of an order each venue gets. */
module SplitShares {
  import opened Routing
  import opened Decimals
  import opened Splitter

  /** Without venues nothing is allocated. The whole order goes to the best venue exactly when it is the only one, or
      the order is at most half of its depth; only otherwise is the order split. */
  lemma {:induction false} SplitsExactlyAboveHalf(
      orderQty: real, ranked: seq<VenueId>, depths: map<VenueId, real>, lotSize: real, g: Grid)
    requires Splits(orderQty, ranked, depths) ==> TotalDepth(ranked, depths) != 0.0 && lotSize != 0.0
    ensures var best := if ranked != [] && ranked[0] in depths then depths[ranked[0]] else 0.0;
      && (Splits(orderQty, ranked, depths) <==> 1 < |ranked| && best < orderQty + orderQty)
      && (ranked == [] ==> Split(orderQty, ranked, depths, lotSize, g) == [])
      && (ranked != [] && !Splits(orderQty, ranked, depths) ==>
           var r := Split(orderQty, ranked, depths, lotSize, g);
           |r| == 1 && r[0].venue == ranked[0] && r[0].quantity == orderQty)
  {}

  // ---------------------------------------------------------------- shares

  /** The part of the order that is in proportion to the depth of a venue. */
  function ShareOf(orderQty: real, depth: real, total: real): real
    requires total != 0.0
  {
    Portion(depth / total, orderQty)
  }

  function Portion(proportion: real, orderQty: real): real {
    proportion * orderQty
  }

  lemma OneStepMore(x: real, m: real)
    ensures (x + 1.0) * m == x * m + m
  {}

  lemma Bracket(n: int, y: real, m: real)
    requires 0.0 < m && n as real <= y < n as real + 1.0
    ensures InLots(n, m) <= y * m < InLots(n, m) + m
  {
    var low, lots, all := n as real, InLots(n, m), y * m;
    assert lots == low * m;
    assert lots <= all by { Scale(low, y, m); }
    assert all < lots + m by {
      StrictScale(y, low + 1.0, m);
      OneStepMore(low, m);
    }
  }

  lemma FloorBracket(y: real) returns (n: int)
    ensures n == y.Floor && n as real <= y < n as real + 1.0
  {
    n := y.Floor;
  }

  lemma WholeLotsBelow(x: real, m: real)
    requires 0.0 < m
    ensures InLots((x / m).Floor, m) <= x < InLots((x / m).Floor, m) + m
  {
    Cancel(x, m);
    var n := FloorBracket(x / m);
    Bracket(n, x / m, m);
  }

  lemma ExactLots(depth: real, total: real, orderQty: real, lotSize: real)
    requires total != 0.0 && 0.0 < lotSize
    ensures var q := InLots(LotsOf(depth, total, orderQty, lotSize, 0.0), lotSize);
      q <= ShareOf(orderQty, depth, total) < q + lotSize
  {
    ExactShare(depth, total, orderQty, lotSize);
    WholeLotsBelow(ShareOf(orderQty, depth, total), lotSize);
  }

  lemma ExactShare(depth: real, total: real, orderQty: real, lotSize: real)
    requires total != 0.0 && lotSize != 0.0
    ensures LotsOf(depth, total, orderQty, lotSize, 0.0) == (ShareOf(orderQty, depth, total) / lotSize).Floor
  {
    var proportion := Div(depth, total, 0.0);
    assert proportion == depth / total;
    ExactPortion(proportion, orderQty, lotSize);
  }

  lemma ExactPortion(proportion: real, orderQty: real, lotSize: real)
    requires lotSize != 0.0
    ensures ShareInLots(proportion, orderQty, lotSize, 0.0) == Portion(proportion, orderQty) / lotSize
  {}

  /** What a venue is allocated: the whole lots of its share, if there is at least one. */
  ghost predicate GetsItsShare(a: Allocation, depths: map<VenueId, real>, total: real, orderQty: real, lotSize: real)
    requires total != 0.0
  {
    var share := ShareOf(orderQty, DepthAt(depths, a.venue), total);
    lotSize <= a.quantity <= share < a.quantity + lotSize
  }

  /** With exact division: before the residual is placed, every venue whose share of the order reaches a lot is
      allocated the whole lots of that share, and no other venue is allocated anything. */
  lemma {:induction false} EveryVenueGetsItsShare(
      ranked: seq<VenueId>, depths: map<VenueId, real>, total: real, orderQty: real, lotSize: real)
    requires total != 0.0 && 0.0 < lotSize
    ensures var lots := Proportional(ranked, depths, total, orderQty, lotSize, 0.0);
      && (forall a | a in lots :: a.venue in ranked && GetsItsShare(a, depths, total, orderQty, lotSize))
      && (forall v | v in ranked && lotSize <= ShareOf(orderQty, DepthAt(depths, v), total) ::
           exists a :: a in lots && a.venue == v)
  {
    if ranked != [] {
      var n := |ranked| - 1;
      EveryVenueGetsItsShare(ranked[..n], depths, total, orderQty, lotSize);
      LastGetsItsShare(ranked, depths, total, orderQty, lotSize);
      assert ranked == ranked[..n] + [ranked[n]];
    }
  }

  lemma LastGetsItsShare(
      ranked: seq<VenueId>, depths: map<VenueId, real>, total: real, orderQty: real, lotSize: real)
    requires total != 0.0 && 0.0 < lotSize && ranked != []
    ensures var lots, before := Proportional(ranked, depths, total, orderQty, lotSize, 0.0),
                                Proportional(ranked[..|ranked| - 1], depths, total, orderQty, lotSize, 0.0);
      var v := ranked[|ranked| - 1];
      if lotSize <= ShareOf(orderQty, DepthAt(depths, v), total) then
        exists a :: lots == before + [a] && a.venue == v && GetsItsShare(a, depths, total, orderQty, lotSize)
      else lots == before
  {
    var v := ranked[|ranked| - 1];
    var n := LotsOf(DepthAt(depths, v), total, orderQty, lotSize, 0.0);
    ExactLots(DepthAt(depths, v), total, orderQty, lotSize);
    LotThreshold(n, lotSize);
    if n < 1 {
      NoLotBelow(n, lotSize);
    } else {
      var before := Proportional(ranked[..|ranked| - 1], depths, total, orderQty, lotSize, 0.0);
      var a := Allocation(v, InLots(n, lotSize), DepthProportion);
      assert Proportional(ranked, depths, total, orderQty, lotSize, 0.0) == before + [a];
      assert GetsItsShare(a, depths, total, orderQty, lotSize);
    }
  }

  lemma NoLotBelow(n: int, lotSize: real)
    requires n < 1 && 0.0 < lotSize
    ensures InLots(n, lotSize) + lotSize <= lotSize
  {
    Scale(n as real, 0.0, lotSize);
  }
}
