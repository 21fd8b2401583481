/** The checks of the pre-trade gate as amounts: which of them run, and when each passes. */
module GateAmounts {
  import opened Routing
  import opened Decimals
  import opened Portfolio
  import opened PortfolioLedger
  import opened RiskGate
  import opened RiskGateSafety

  // ---------------------------------------------------------------- which checks run

  function Place(n: CheckName): nat {
    match n
    case OrderSize => 0
    case Concentration => 1
    case AvailableCash => 2
    case VarImpact => 3
  }

  /** A check runs if it applies and neither it nor an applicable check before it came too late; the checks that
      run do so in their fixed order, each once. */
  lemma {:induction false} ChecksThatRun(side: Side, returnsLoaded: bool, late: Late)
    ensures var names := Executed(side, returnsLoaded, late);
      var cashLate := side.Buy? && late.beforeCash;
      && OrderSize in names
      && (Concentration in names <==> !late.beforeConcentration)
      && (AvailableCash in names <==> side.Buy? && !late.beforeConcentration && !late.beforeCash)
      && (VarImpact in names <==> returnsLoaded && !late.beforeConcentration && !cashLate && !late.beforeVar)
      && forall j, k | 0 <= j < k < |names| :: Place(names[j]) < Place(names[k])
  {
    var names := Executed(side, returnsLoaded, late);
    assert names[0] == OrderSize;
    assert !late.beforeConcentration ==> names[1] == Concentration;
    assert side.Buy? && !late.beforeConcentration && !late.beforeCash ==> names[2] == AvailableCash;
    assert returnsLoaded && !late.beforeConcentration && !(side.Buy? && late.beforeCash) && !late.beforeVar ==>
        names[|names| - 1] == VarImpact;
  }

  // ---------------------------------------------------------------- value at risk

  lemma GrowthWithin(before: real, after: real, limit: real)
    requires 0.0 < before
    ensures (after - before) / before <= limit <==> after <= (1.0 + limit) * before
  {
    OrderOfQuotients(after - before, limit, before);
    assert (1.0 + limit) * before == before + limit * before;
  }

  /** What the fourth check says, as a condition on the value at risk of the book before and after the order:
      with some at risk before, it grows to at most one plus the limit times as much; with none before, the limit
      allows no growth, or growth by one when there is some after. */
  lemma {:induction false} VarCheckInAmounts(
      checks: seq<Check>, k: nat, b: Book, r: Request, limits: Limits, varOf: VarEngine,
      returnsLoaded: bool, late: Late)
    requires Reports(checks, Executed(r.side, returnsLoaded, late), b, r, limits, varOf)
    requires k < |checks| && checks[k].name == VarImpact
    ensures var before, after, limit := varOf(b.positions), varOf(Hypothetical(b.positions, r)), limits.maxVarIncrease;
      checks[k].passed <==>
        if 0.0 < before then after <= (1.0 + limit) * before
        else if after == 0.0 then 0.0 <= limit
        else 1.0 <= limit
  {
    VarSays(b, r, limits, varOf);
  }

  /** The value at risk is that of the quantities and marks held. */
  ghost predicate ReadsMarks(varOf: VarEngine) {
    forall x, y | SameBook(x, y) :: varOf(x) == varOf(y)
  }

  /** The same of the book that the fill leaves, for a fill at the order's price, or for a market order at the
      last mark of what is held: an order that does not oversell passes the fourth check exactly when the value at
      risk after its fill is within the limit. */
  lemma {:induction false} VarAfterTheFill(
      checks: seq<Check>, k: nat, b: Book, r: Request, f: FillEvent, limits: Limits, varOf: VarEngine,
      returnsLoaded: bool, late: Late)
    requires Reports(checks, Executed(r.side, returnsLoaded, late), b, r, limits, varOf)
    requires k < |checks| && checks[k].name == VarImpact && ReadsMarks(varOf)
    requires Healthy(b.positions) && 0.0 < r.quantity && Fills(f, r)
    requires f.price ==
      if r.price == 0.0 && r.instrument in b.positions then b.positions[r.instrument].marketPrice else r.price
    requires r.side.Sell? && r.instrument in b.positions ==> r.quantity <= b.positions[r.instrument].quantity
    ensures var before, after, limit := varOf(b.positions), varOf(Applied(b, f).positions), limits.maxVarIncrease;
      checks[k].passed <==>
        if 0.0 < before then after <= (1.0 + limit) * before
        else if after == 0.0 then 0.0 <= limit
        else 1.0 <= limit
  {
    ProjectionIsTheFilledBook(b, r, f);
    VarCheckInAmounts(checks, k, b, r, limits, varOf, returnsLoaded, late);
  }

  /** An oversell is checked as if the holding were sold out. */
  lemma OversellChecksFlat(b: Book, r: Request)
    requires r.side.Sell? && r.instrument in b.positions && b.positions[r.instrument].quantity <= r.quantity
    ensures Hypothetical(b.positions, r) == map i | i in b.positions && i != r.instrument :: b.positions[i]
  {
    assert Hypothetical(b.positions, r) == b.positions - {r.instrument};
  }

  // ---------------------------------------------------------------- approval

  lemma ShareWithin(part: real, whole: real, limit: real)
    ensures 0.0 < whole ==> (part / whole <= limit <==> part <= Part(limit, whole))
  {
    if 0.0 < whole {
      OrderOfQuotients(part, limit, whole);
    }
  }

  lemma CostSays(positions: map<Instrument, Holding>, r: Request)
    ensures var held := r.instrument in positions;
      var price := if r.price == 0.0 && held then positions[r.instrument].marketPrice else r.price;
      Notional(positions, r) == if 0.0 < price then r.quantity * price else r.quantity
  {}

  lemma ShareSays(b: Book, r: Request, limits: Limits, varOf: VarEngine)
    ensures var base := if 0.0 < b.nav then b.nav else b.cash;
      var worth := if r.instrument in b.positions then Value(b.positions[r.instrument]) else 0.0;
      Passes(b, r, limits, varOf, Concentration) <==>
        (0.0 < base ==> worth + Notional(b.positions, r) <= Part(limits.maxConcentration, base))
  {
    var base := if 0.0 < b.nav then b.nav else b.cash;
    ShareWithin(ExistingValue(b.positions, r.instrument) + Notional(b.positions, r), base, limits.maxConcentration);
  }

  lemma VarSays(b: Book, r: Request, limits: Limits, varOf: VarEngine)
    ensures var before, after := varOf(b.positions), varOf(Hypothetical(b.positions, r));
      Passes(b, r, limits, varOf, VarImpact) <==>
        if 0.0 < before then after <= (1.0 + limits.maxVarIncrease) * before
        else if after == 0.0 then 0.0 <= limits.maxVarIncrease
        else 1.0 <= limits.maxVarIncrease
  {
    var before, after := varOf(b.positions), varOf(Hypothetical(b.positions, r));
    if 0.0 < before {
      GrowthWithin(before, after, limits.maxVarIncrease);
    }
  }

  lemma EachPasses(b: Book, r: Request, limits: Limits, varOf: VarEngine, returnsLoaded: bool, late: Late)
    ensures ApprovedWhen(b, r, limits, varOf, returnsLoaded, late)
        <==> forall n | n in Executed(r.side, returnsLoaded, late) :: Passes(b, r, limits, varOf, n)
  {}

  /** What an approval says in amounts, for every order and every way of running out of time. The price is the
      order's own, or for a market order the last mark of what is held; without a price the quantity stands for
      the cost. The share of the instrument is taken of net asset value, or of cash when that is not positive, and
      is not limited when neither is. */
  lemma {:induction false} ApprovalInAmounts(
      b: Book, r: Request, limits: Limits, varOf: VarEngine, returnsLoaded: bool, late: Late)
    ensures ApprovedWhen(b, r, limits, varOf, returnsLoaded, late) <==>
      var held := r.instrument in b.positions;
      var price := if r.price == 0.0 && held then b.positions[r.instrument].marketPrice else r.price;
      var cost := if 0.0 < price then r.quantity * price else r.quantity;
      var worth := if held then Value(b.positions[r.instrument]) else 0.0;
      var base := if 0.0 < b.nav then b.nav else b.cash;
      var before, after := varOf(b.positions), varOf(Hypothetical(b.positions, r));
      var cashLate := r.side.Buy? && late.beforeCash;
      && cost <= limits.maxNotional
      && (!late.beforeConcentration && 0.0 < base ==> worth + cost <= Part(limits.maxConcentration, base))
      && (r.side.Buy? && !late.beforeConcentration && !late.beforeCash ==> cost <= b.availableCash)
      && (returnsLoaded && !late.beforeConcentration && !cashLate && !late.beforeVar ==>
           if 0.0 < before then after <= (1.0 + limits.maxVarIncrease) * before
           else if after == 0.0 then 0.0 <= limits.maxVarIncrease
           else 1.0 <= limits.maxVarIncrease)
  {
    EachPasses(b, r, limits, varOf, returnsLoaded, late);
    ChecksThatRun(r.side, returnsLoaded, late);
    CostSays(b.positions, r);
    ShareSays(b, r, limits, varOf);
    VarSays(b, r, limits, varOf);
  }
}
