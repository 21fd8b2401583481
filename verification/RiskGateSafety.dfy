/** What an approval of the pre-trade gate guarantees about the book after the fill. */
module RiskGateSafety {
  import opened Routing
  import opened Wrappers
  import opened Decimals
  import opened Totals
  import opened Portfolio
  import opened PortfolioLedger
  import opened RiskGate
  import Orders

  // ---------------------------------------------------------------- the projected book

  ghost predicate SameMarks(a: Holding, b: Holding) {
    a.quantity == b.quantity && a.averageCost == b.averageCost && a.marketPrice == b.marketPrice
    && a.unrealizedPnL == b.unrealizedPnL
  }

  ghost predicate SameBook(a: map<Instrument, Holding>, b: map<Instrument, Holding>) {
    a.Keys == b.Keys && forall i | i in a :: SameMarks(a[i], b[i])
  }

  ghost predicate Fills(f: FillEvent, r: Request) {
    f.instrument == r.instrument && f.side == r.side && f.quantity == r.quantity
  }

  /** The projected book is the book the fill leaves, for exactly the orders that do not oversell a holding:
      an oversell is projected as flat but refused when it is filled. */
  lemma {:induction false} ProjectionIsTheFilledBook(b: Book, r: Request, f: FillEvent)
    requires Healthy(b.positions) && 0.0 < r.quantity && Fills(f, r)
    requires f.price == EffectivePrice(b.positions, r)
    ensures SameBook(Hypothetical(b.positions, r), Applied(b, f).positions)
        <==> !(r.side.Sell? && r.instrument in b.positions && b.positions[r.instrument].quantity < r.quantity)
  {
    var i := r.instrument;
    if i !in b.positions {
      assert r.side.Buy? ==> SameMarks(ProjectedOpening(r, f.price), Opening(f));
    } else if r.side.Buy? {
      assert SameMarks(ProjectedBuy(b.positions[i], r, f.price), Bought(b.positions[i], f)) by {
        assert FillCost(f) == r.quantity * f.price;
      }
    } else if r.quantity <= b.positions[i].quantity {
      assert SameMarks(ProjectedSell(b.positions[i], r, f.price), Sold(b.positions[i], f));
    } else {
      assert i in Applied(b, f).positions && i !in Hypothetical(b.positions, r);
    }
  }

  /** With one unit held, a sell of two is projected as flat, and its fill is refused. */
  lemma OversellIsProjectedFlat()
    ensures var b := Applied(Start(100.0), FillEvent("A", "x", Orders.Buy, 1.0, 60.0, "equity", T0));
      var r := Request("A", Orders.Sell, 2.0, 60.0, "equity");
      var f := FillEvent("A", "x", Orders.Sell, 2.0, 60.0, "equity", T0);
      && Fills(f, r) && f.price == EffectivePrice(b.positions, r) && "A" in b.positions
      && Hypothetical(b.positions, r) == map[] && Applied(b, f) == b
  {
    var b := Applied(Start(100.0), FillEvent("A", "x", Orders.Buy, 1.0, 60.0, "equity", T0));
    var r := Request("A", Orders.Sell, 2.0, 60.0, "equity");
    assert b.positions.Keys == {"A"} && b.positions["A"].quantity == 1.0;
    assert Hypothetical(b.positions, r) == b.positions - {"A"};
  }

  // ---------------------------------------------------------------- approval

  /** Every check that runs passes. */
  ghost predicate ApprovedWhen(
      b: Book, r: Request, limits: Limits, varOf: VarEngine, returnsLoaded: bool, late: Late)
  {
    forall k | 0 <= k < |Executed(r.side, returnsLoaded, late)| ::
      Passes(b, r, limits, varOf, Executed(r.side, returnsLoaded, late)[k])
  }

  /** The same when no time limit is met. */
  ghost predicate Approved(b: Book, r: Request, limits: Limits, varOf: VarEngine, returnsLoaded: bool) {
    ApprovedWhen(b, r, limits, varOf, returnsLoaded, ON_TIME)
  }

  lemma {:induction false} NoFailureIsApproval(
      checks: seq<Check>, b: Book, r: Request, limits: Limits, varOf: VarEngine, returnsLoaded: bool)
    requires Reports(checks, Executed(r.side, returnsLoaded, ON_TIME), b, r, limits, varOf)
    ensures FirstFailure(checks, None) <==> Approved(b, r, limits, varOf, returnsLoaded)
  {
    var names := Executed(r.side, returnsLoaded, ON_TIME);
    if FirstFailure(checks, None) {
      forall k | 0 <= k < |names| ensures Passes(b, r, limits, varOf, names[k]) {
        assert checks[k] in checks;
      }
    }
  }

  /** What an approval in time says, check by check. */
  lemma ApprovalSays(b: Book, r: Request, limits: Limits, varOf: VarEngine, returnsLoaded: bool)
    ensures Approved(b, r, limits, varOf, returnsLoaded)
        <==> && Notional(b.positions, r) <= limits.maxNotional
             && WithinConcentration(b, r.instrument, Notional(b.positions, r), limits.maxConcentration)
             && (r.side.Buy? ==> Notional(b.positions, r) <= b.availableCash)
             && (returnsLoaded ==> Passes(b, r, limits, varOf, VarImpact))
  {
    var names := Executed(r.side, returnsLoaded, ON_TIME);
    assert names[0] == OrderSize && names[1] == Concentration;
    assert r.side.Buy? ==> names[2] == AvailableCash;
    assert returnsLoaded ==> names[|names| - 1] == VarImpact;
  }

  /** Running out of time only skips checks at the end: it never hides a failure already found, and it
      never turns an approval into a rejection. */
  lemma {:induction false} LatenessKeepsEarlyFailures(
      b: Book, r: Request, limits: Limits, varOf: VarEngine, returnsLoaded: bool, late: Late,
                                   checks: seq<Check>, reason: Option<CheckName>,
                                   full: seq<Check>, fullReason: Option<CheckName>)
    requires Reports(checks, Executed(r.side, returnsLoaded, late), b, r, limits, varOf) && FirstFailure(checks, reason)
    requires Reports(full, Executed(r.side, returnsLoaded, ON_TIME), b, r, limits, varOf)
    requires FirstFailure(full, fullReason)
    ensures checks <= full
    ensures reason.Some? ==> fullReason == reason
  {
    var names, all := Executed(r.side, returnsLoaded, late), Executed(r.side, returnsLoaded, ON_TIME);
    assert names == all[..|names|];
    assert checks == full[..|checks|];
    if reason.Some? {
      var k :| 0 <= k < |checks| && checks[k] == Check(reason.value, false)
        && forall j | 0 <= j < k :: checks[j].passed;
      assert full[k] == checks[k] && full[k] in full;
      match fullReason
      case None =>
      case Some(name) =>
        var m :| 0 <= m < |full| && full[m] == Check(name, false) && forall j | 0 <= j < m :: full[j].passed;
        assert forall j | 0 <= j < k :: full[j] == checks[j];
        assert m == k;
    }
  }

  // ---------------------------------------------------------------- net asset value

  /** The change in value of what was held when the instrument is marked at the fill price. */
  function Revaluation(positions: map<Instrument, Holding>, f: FillEvent): real {
    if f.instrument in positions
    then positions[f.instrument].quantity * (f.price - positions[f.instrument].marketPrice)
    else 0.0
  }

  function Spent(f: FillEvent): real {
    if f.side.Buy? then FillCost(f) else -FillCost(f)
  }

  lemma ValueMoves(h: Holding, f: FillEvent)
    ensures Value(Bought(h, f)) == Value(h) + h.quantity * (f.price - h.marketPrice) + FillCost(f)
    ensures Value(Sold(h, f)) == Value(h) + h.quantity * (f.price - h.marketPrice) - FillCost(f)
  {
    var q, n, p, m := h.quantity, f.quantity, f.price, h.marketPrice;
    assert (q + n) * p == q * m + q * (p - m) + n * p by { assert q * (p - m) == q * p - q * m; }
    assert (q - n) * p == q * m + q * (p - m) - n * p by { assert q * (p - m) == q * p - q * m; }
  }

  lemma ValueAfter(positions: map<Instrument, Holding>, f: FillEvent)
    requires f.side.Sell? ==> f.instrument in positions
    ensures Value(HoldingAfter(positions, f))
         == ExistingValue(positions, f.instrument) + Revaluation(positions, f) + Spent(f)
  {
    if f.instrument in positions {
      ValueMoves(positions[f.instrument], f);
    }
  }

  /** Every accepted fill moves net asset value by exactly the revaluation of what was held: what is paid
      comes back as value. */
  lemma NavAfterFill(b: Book, f: FillEvent)
    requires b.nav == NavOf(b.availableCash, b.positions) && Accepts(b, f)
    ensures Applied(b, f).nav == b.nav + Revaluation(b.positions, f)
    ensures Applied(b, f).availableCash == b.availableCash - Spent(f)
  {
    var h, i := HoldingAfter(b.positions, f), f.instrument;
    ValueAfter(b.positions, f);
    if i in b.positions && h.quantity == 0.0 {
      TotalRemove(Values(b.positions), i);
      assert Values(b.positions - {i}) == Values(b.positions) - {i};
      assert Value(h) == 0.0;
    } else {
      TotalUpdate(Values(b.positions), i, Value(h));
      assert Values(b.positions[i := h]) == Values(b.positions)[i := Value(h)];
    }
  }

  /** A share of an amount. */
  function Part(share: real, amount: real): real {
    share * amount
  }

  lemma PartSplits(share: real, amount: real, change: real)
    ensures Part(share, amount + change) == Part(share, amount) + change - Part(1.0 - share, change)
  {
    assert share * (amount + change) == share * amount + share * change;
    assert (1.0 - share) * change == change - share * change;
  }

  /** When a position is within its share of net asset value after a fill, in terms known before it. */
  lemma LimitAfterFill(b: Book, f: FillEvent, limit: real)
    requires b.nav == NavOf(b.availableCash, b.positions) && Accepts(b, f)
    ensures Value(HoldingAfter(b.positions, f)) <= Part(limit, Applied(b, f).nav)
        <==> ExistingValue(b.positions, f.instrument) + Spent(f) + Part(1.0 - limit, Revaluation(b.positions, f))
             <= Part(limit, b.nav)
  {
    NavAfterFill(b, f);
    ValueAfter(b.positions, f);
    PartSplits(limit, b.nav, Revaluation(b.positions, f));
  }

  // ---------------------------------------------------------------- the guarantee

  /** The two checks, as amounts. */
  lemma ApprovedAmounts(b: Book, r: Request, f: FillEvent, limits: Limits, varOf: VarEngine, returnsLoaded: bool)
    requires 0.0 < b.nav && r.side.Buy? && Fills(f, r) && 0.0 < EffectivePrice(b.positions, r) == f.price
    requires Approved(b, r, limits, varOf, returnsLoaded)
    ensures FillCost(f) <= b.availableCash
    ensures ExistingValue(b.positions, r.instrument) + FillCost(f) <= Part(limits.maxConcentration, b.nav)
  {
    ApprovalSays(b, r, limits, varOf, returnsLoaded);
    assert Notional(b.positions, r) == FillCost(f);
    OrderOfQuotients(ExistingValue(b.positions, r.instrument) + FillCost(f), limits.maxConcentration, b.nav);
  }

  /** A buy approved in time, with positive net asset value, and filled at the price it was checked at: net
      asset value moves only by the revaluation of what was held, and cash stays non-negative. When that
      price is the mark, or nothing was held, or the price is lower and the limit is a true share, the
      position ends within its limit. */
  lemma ApprovedBuyIsSafe(b: Book, r: Request, f: FillEvent, limits: Limits, varOf: VarEngine, returnsLoaded: bool)
    requires b.nav == NavOf(b.availableCash, b.positions) && 0.0 < b.nav
    requires r.side.Buy? && Fills(f, r) && 0.0 < EffectivePrice(b.positions, r) == f.price
    requires Approved(b, r, limits, varOf, returnsLoaded)
    ensures Applied(b, f).nav == b.nav + Revaluation(b.positions, f)
    ensures 0.0 <= Applied(b, f).availableCash
    ensures
      Revaluation(b.positions, f) == 0.0 || (Revaluation(b.positions, f) < 0.0 && limits.maxConcentration <= 1.0) ==>
      Value(HoldingAfter(b.positions, f)) <= Part(limits.maxConcentration, Applied(b, f).nav)
  {
    NavAfterFill(b, f);
    ApprovedAmounts(b, r, f, limits, varOf, returnsLoaded);
    LimitAfterFill(b, f, limits.maxConcentration);
    PartOfLoss(1.0 - limits.maxConcentration, Revaluation(b.positions, f));
  }

  lemma PartOfLoss(share: real, change: real)
    ensures change == 0.0 || (change < 0.0 && 0.0 <= share) ==> Part(share, change) <= 0.0
  {
    if change < 0.0 && 0.0 <= share {
      Scale(change, 0.0, share);
    }
  }

  /** Without a price there is nothing to check against: a market order for an instrument not held is
      checked with its quantity in place of its cost, and its fill can overdraw the account. */
  lemma {:induction false} UnpricedBuyCanOverdraw(varOf: VarEngine)
    ensures var b := Start(100.0);
      var r := Request("AAPL", Orders.Buy, 10.0, 0.0, "equity");
      var f := FillEvent("AAPL", "sim", Orders.Buy, 10.0, 50.0, "equity", T2);
      && Fills(f, r) && Approved(b, r, DEFAULT_LIMITS, varOf, false)
      && Applied(b, f).availableCash < 0.0
  {
    var b := Start(100.0);
    var r := Request("AAPL", Orders.Buy, 10.0, 0.0, "equity");
    ApprovalSays(b, r, DEFAULT_LIMITS, varOf, false);
  }

  /** Some price is too high for any amount of cash. */
  lemma DearFill(r: Request, cash: real) returns (f: FillEvent)
    requires r.side.Buy? && 0.0 < r.quantity
    ensures Fills(f, r) && 0.0 < f.price && cash < FillCost(f)
  {
    var cost := Abs(cash) + 1.0;
    Cancel(cost, r.quantity);
    f := FillEvent(r.instrument, "", r.side, r.quantity, cost / r.quantity, r.assetClass, T2);
  }

  lemma CheapFill(r: Request, f: FillEvent)
    requires Fills(f, r) && 0.0 < r.quantity && 0.0 < f.price <= r.price
    ensures FillCost(f) <= r.quantity * r.price
  {
    Scale(f.price, r.price, r.quantity);
  }

  lemma BuySpends(b: Book, f: FillEvent)
    requires f.side.Buy?
    ensures Applied(b, f).availableCash == b.availableCash - FillCost(f)
  {}

  /** Every fill an order can get. A limit order fills at its price or better; a market order fills at the
      venue's price, whether it carries a price of its own or not. */
  ghost predicate CanGet(f: FillEvent, r: Request, kind: Orders.OrderType) {
    Fills(f, r) && 0.0 < f.price && (kind.Limit? ==> f.price <= r.price)
  }

  /** The cash check ran, or the cost at the order's price fits in cash all the same. */
  predicate CashFits(b: Book, r: Request, returnsLoaded: bool, late: Late) {
    AvailableCash in Executed(r.side, returnsLoaded, late) || r.quantity * r.price <= b.availableCash
  }

  lemma LimitCostFits(
      b: Book, r: Request, limits: Limits, varOf: VarEngine, returnsLoaded: bool, late: Late)
    requires 0.0 < r.price && ApprovedWhen(b, r, limits, varOf, returnsLoaded, late)
    ensures CashFits(b, r, returnsLoaded, late) ==> r.quantity * r.price <= b.availableCash
  {
    var names := Executed(r.side, returnsLoaded, late);
    if AvailableCash in names {
      var k :| 0 <= k < |names| && names[k] == AvailableCash;
      assert Passes(b, r, limits, varOf, names[k]);
    }
  }

  /** On the book it was checked against, an approval covers every fill its own order can get exactly for limit
      orders whose cash check ran in time, or whose cost fits in cash without it. */
  lemma OwnFillIsCoveredExactlyWhenLimited(
      b: Book, r: Request, kind: Orders.OrderType,
      limits: Limits, varOf: VarEngine, returnsLoaded: bool, late: Late)
    requires r.side.Buy? && 0.0 < r.quantity && (kind.Limit? ==> 0.0 < r.price)
    requires ApprovedWhen(b, r, limits, varOf, returnsLoaded, late)
    ensures (forall f | CanGet(f, r, kind) :: 0.0 <= Applied(b, f).availableCash)
            <==> kind.Limit? && CashFits(b, r, returnsLoaded, late)
  {
    if !kind.Limit? {
      var f := DearFill(r, b.availableCash);
      BuySpends(b, f);
      assert CanGet(f, r, kind);
    } else if CashFits(b, r, returnsLoaded, late) {
      LimitCostFits(b, r, limits, varOf, returnsLoaded, late);
      forall f | CanGet(f, r, kind) ensures 0.0 <= Applied(b, f).availableCash {
        CheapFill(r, f);
        BuySpends(b, f);
      }
    } else {
      var f := FillEvent(r.instrument, "", r.side, r.quantity, r.price, r.assetClass, T2);
      BuySpends(b, f);
      assert CanGet(f, r, kind);
    }
  }

  /** A market order may carry a price, and is then checked at that: ten units stated at 1 are approved
      against a capital of 100, fill at 50, and overdraw it. */
  lemma {:induction false} PricedMarketBuyOverdraws(varOf: VarEngine)
    ensures var b := Start(100.0);
      var r := Request("AAPL", Orders.Buy, 10.0, 1.0, "equity");
      var f := FillEvent("AAPL", "sim", Orders.Buy, 10.0, 50.0, "equity", T2);
      && CanGet(f, r, Orders.Market) && Approved(b, r, DEFAULT_LIMITS, varOf, false)
      && Applied(b, f).availableCash < 0.0
  {
    var b := Start(100.0);
    var r := Request("AAPL", Orders.Buy, 10.0, 1.0, "equity");
    ApprovalSays(b, r, DEFAULT_LIMITS, varOf, false);
  }

  // ---------------------------------------------------------------- a market buy of what is held

  function HeldFill(i: Instrument, quantity: real, price: real): FillEvent {
    FillEvent(i, "sim", Orders.Buy, quantity, price, "equity", T2)
  }

  /** 60 in cash, one unit of A marked at 60, and net assets of 1120. */
  ghost predicate HoldsOneA(b: Book) {
    && b.nav == 1120.0 && b.availableCash == 60.0
    && "A" in b.positions && b.positions["A"].quantity == 1.0 && b.positions["A"].marketPrice == 60.0
  }

  lemma OpeningFillKeepsNav(b: Book, f: FillEvent)
    requires b.nav == NavOf(b.availableCash, b.positions) && f.side.Buy? && f.instrument !in b.positions
    ensures var c := Applied(b, f);
      && c.nav == b.nav == NavOf(c.availableCash, c.positions) && c.availableCash == b.availableCash - FillCost(f)
      && c.positions == b.positions[f.instrument := Opening(f)]
  {
    NavAfterFill(b, f);
  }

  /** Such a book comes of a capital of 1120 by buying ten of B at 100 and one of A at 60. */
  lemma SomeBookHoldsOneA() returns (b: Book)
    ensures HoldsOneA(b)
    ensures b == Applied(Applied(Start(1120.0), HeldFill("B", 10.0, 100.0)), HeldFill("A", 1.0, 60.0))
  {
    assert Values(map[]) == map[];
    b := TwoOpenings(Start(1120.0), HeldFill("B", 10.0, 100.0), HeldFill("A", 1.0, 60.0));
  }

  lemma TwoOpenings(b: Book, f: FillEvent, h: FillEvent) returns (c: Book)
    requires b.nav == NavOf(b.availableCash, b.positions) && b.positions == map[]
    requires f.side.Buy? && h.side.Buy? && f.instrument != h.instrument
    ensures c == Applied(Applied(b, f), h)
    ensures c.nav == b.nav && c.availableCash == b.availableCash - FillCost(f) - FillCost(h)
    ensures h.instrument in c.positions && c.positions[h.instrument] == Opening(h)
  {
    OpeningFillKeepsNav(b, f);
    OpeningFillKeepsNav(Applied(b, f), h);
    c := Applied(Applied(b, f), h);
  }

  /** A market order is checked at the last mark of what is held, which moves only on fills: one unit of A is
      approved at 60, fills five basis points dearer, and overdraws the account. */
  lemma SlippedMarketBuyOverdraws(b: Book, varOf: VarEngine)
    requires HoldsOneA(b)
    ensures var r, f := Request("A", Orders.Buy, 1.0, 0.0, "equity"), HeldFill("A", 1.0, 60.03);
      && Fills(f, r) && EffectivePrice(b.positions, r) == 60.0
      && Approved(b, r, DEFAULT_LIMITS, varOf, false)
      && Applied(b, f).availableCash < 0.0
  {
    ApprovalSays(b, Request("A", Orders.Buy, 1.0, 0.0, "equity"), DEFAULT_LIMITS, varOf, false);
    BuySpends(b, HeldFill("A", 1.0, 60.03));
  }
}
