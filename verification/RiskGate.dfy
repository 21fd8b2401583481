/** The pre-trade gate of risk-engine/risk_engine/grpc_server/server.py: four checks in order under a time
    budget, and the book it projects for the value-at-risk check. */
module RiskGate {
  import opened Routing
  import opened Wrappers
  import opened Portfolio

  datatype Request = Request(instrument: Instrument, side: Side, quantity: real, price: real, assetClass: string)

  datatype Limits = Limits(maxNotional: real, maxConcentration: real, maxVarIncrease: real)

  const DEFAULT_LIMITS := Limits(100000.0, 0.25, 0.1)

  datatype CheckName = OrderSize | Concentration | AvailableCash | VarImpact

  datatype Check = Check(name: CheckName, passed: bool)

  /** Whether the time budget has run out when a check is about to start. */
  datatype Late = Late(beforeConcentration: bool, beforeCash: bool, beforeVar: bool)

  const ON_TIME := Late(false, false, false)

  type VarEngine = map<Instrument, Holding> -> real

  // ---------------------------------------------------------------- the checks

  /** The order's price, or for a market order the last mark of what is held. */
  function EffectivePrice(positions: map<Instrument, Holding>, r: Request): real {
    if r.price == 0.0 && r.instrument in positions then positions[r.instrument].marketPrice else r.price
  }

  function Notional(positions: map<Instrument, Holding>, r: Request): real {
    var price := EffectivePrice(positions, r);
    if price > 0.0 then r.quantity * price else r.quantity
  }

  function ExistingValue(positions: map<Instrument, Holding>, i: Instrument): real {
    if i in positions then Value(positions[i]) else 0.0
  }

  predicate WithinConcentration(b: Book, i: Instrument, notional: real, limit: real) {
    var nav := if b.nav > 0.0 then b.nav else b.cash;
    nav <= 0.0 || (ExistingValue(b.positions, i) + notional) / nav <= limit
  }

  function VarIncrease(before: real, after: real): real {
    if before > 0.0 then (after - before) / before
    else if after == 0.0 then 0.0
    else 1.0
  }

  function CycleOf(assetClass: string): Cycle {
    if assetClass == "crypto" then T0 else T2
  }

  function ProjectedBuy(h: Holding, r: Request, price: real): Holding {
    Repriced(h.(averageCost := Blended(h, r.quantity, r.quantity * price), quantity := h.quantity + r.quantity), price)
  }

  function ProjectedSell(h: Holding, r: Request, price: real): Holding {
    Repriced(h.(quantity := h.quantity - r.quantity), price)
  }

  function ProjectedOpening(r: Request, price: real): Holding {
    Holding("", r.quantity, price, price, 0.0, 0.0, r.assetClass, CycleOf(r.assetClass))
  }

  function Projected(positions: map<Instrument, Holding>, r: Request, price: real): map<Instrument, Holding> {
    var i := r.instrument;
    if i in positions then
      if r.side.Buy? then positions[i := ProjectedBuy(positions[i], r, price)]
      else if positions[i].quantity - r.quantity <= 0.0 then positions - {i}
      else positions[i := ProjectedSell(positions[i], r, price)]
    else if r.side.Buy? then positions[i := ProjectedOpening(r, price)]
    else positions
  }

  /** The positions the gate expects after the order. */
  function Hypothetical(positions: map<Instrument, Holding>, r: Request): map<Instrument, Holding> {
    Projected(positions, r, EffectivePrice(positions, r))
  }

  predicate Passes(b: Book, r: Request, limits: Limits, varOf: VarEngine, check: CheckName) {
    var notional := Notional(b.positions, r);
    match check
    case OrderSize => notional <= limits.maxNotional
    case Concentration => WithinConcentration(b, r.instrument, notional, limits.maxConcentration)
    case AvailableCash => notional <= b.availableCash
    case VarImpact => VarIncrease(varOf(b.positions), varOf(Hypothetical(b.positions, r))) <= limits.maxVarIncrease
  }

  /** The checks that run. Once one comes too late, none of the later ones runs. */
  function Executed(side: Side, returnsLoaded: bool, late: Late): seq<CheckName> {
    if late.beforeConcentration then [OrderSize]
    else if side.Buy? && late.beforeCash then [OrderSize, Concentration]
    else
      var upToCash := if side.Buy? then [OrderSize, Concentration, AvailableCash] else [OrderSize, Concentration];
      if returnsLoaded && !late.beforeVar then upToCash + [VarImpact] else upToCash
  }

  ghost predicate Reports(
      checks: seq<Check>, names: seq<CheckName>, b: Book, r: Request, limits: Limits, varOf: VarEngine) {
    && |checks| == |names|
    && forall k | 0 <= k < |names| :: checks[k] == Check(names[k], Passes(b, r, limits, varOf, names[k]))
  }

  lemma ReportsOneMore(
      checks: seq<Check>, names: seq<CheckName>, b: Book, r: Request, limits: Limits, varOf: VarEngine, n: CheckName)
    requires Reports(checks, names, b, r, limits, varOf)
    ensures Reports(checks + [Check(n, Passes(b, r, limits, varOf, n))], names + [n], b, r, limits, varOf)
  {}

  /** The reason given is the first check that failed; none means approved. */
  ghost predicate FirstFailure(checks: seq<Check>, reason: Option<CheckName>) {
    match reason
    case None => forall c | c in checks :: c.passed
    case Some(name) =>
      exists k | 0 <= k < |checks| :: checks[k] == Check(name, false) && forall j | 0 <= j < k :: checks[j].passed
  }

  // ---------------------------------------------------------------- the servicer

  class Gate {
    const portfolio: Portfolio
    const limits: Limits
    const varOf: VarEngine
    var returnsLoaded: bool

    constructor (portfolio: Portfolio, varOf: VarEngine, returnsLoaded: bool, limits: Limits)
      ensures this.portfolio == portfolio && this.varOf == varOf
      ensures this.returnsLoaded == returnsLoaded && this.limits == limits
    {
      this.portfolio, this.varOf, this.returnsLoaded, this.limits := portfolio, varOf, returnsLoaded, limits;
    }

    method CheckPreTradeRisk(r: Request, late: Late) returns (reason: Option<CheckName>, checks: seq<Check>)
      requires portfolio.Valid()
      ensures Reports(checks, Executed(r.side, returnsLoaded, late), portfolio.View(), r, limits, varOf)
      ensures FirstFailure(checks, reason)
    {
      ghost var b := portfolio.View();
      var timedOut := false;
      var notional := Notional(Rows(portfolio.positions), r);
      var sizePassed := CheckOrderSize(r, notional);
      checks := [Check(OrderSize, sizePassed)];
      ghost var names := [OrderSize];
      if !late.beforeConcentration {
        var passed := CheckConcentration(r, notional);
        ReportsOneMore(checks, names, b, r, limits, varOf, Concentration);
        checks, names := checks + [Check(Concentration, passed)], names + [Concentration];
      } else {
        timedOut := true;
      }
      if !timedOut && r.side.Buy? {
        if !late.beforeCash {
          var passed := CheckAvailableCash(r, notional);
          ReportsOneMore(checks, names, b, r, limits, varOf, AvailableCash);
          checks, names := checks + [Check(AvailableCash, passed)], names + [AvailableCash];
        } else {
          timedOut := true;
        }
      }
      if !timedOut && returnsLoaded {
        if !late.beforeVar {
          var passed := CheckVarImpact(r);
          ReportsOneMore(checks, names, b, r, limits, varOf, VarImpact);
          checks, names := checks + [Check(VarImpact, passed)], names + [VarImpact];
        } else {
          timedOut := true;
        }
      }
      assert names == Executed(r.side, returnsLoaded, late);
      reason := FirstFailing(checks);
    }

    method CheckOrderSize(r: Request, notional: real) returns (passed: bool)
      requires notional == Notional(portfolio.View().positions, r)
      ensures passed == Passes(portfolio.View(), r, limits, varOf, OrderSize)
    {
      passed := notional <= limits.maxNotional;
    }

    method CheckConcentration(r: Request, notional: real) returns (passed: bool)
      requires portfolio.Valid() && notional == Notional(portfolio.View().positions, r)
      ensures passed == Passes(portfolio.View(), r, limits, varOf, Concentration)
    {
      var nav := if portfolio.nav > 0.0 then portfolio.nav else portfolio.cash;
      if nav <= 0.0 {
        return true;
      }
      var existing := 0.0;
      if r.instrument in portfolio.positions {
        existing := Value(portfolio.positions[r.instrument].Row());
      }
      assert existing == ExistingValue(portfolio.View().positions, r.instrument);
      passed := (existing + notional) / nav <= limits.maxConcentration;
    }

    method CheckAvailableCash(r: Request, notional: real) returns (passed: bool)
      requires notional == Notional(portfolio.View().positions, r)
      ensures passed == Passes(portfolio.View(), r, limits, varOf, AvailableCash)
    {
      passed := notional <= portfolio.availableCash;
    }

    method FirstFailing(checks: seq<Check>) returns (reason: Option<CheckName>)
      ensures FirstFailure(checks, reason)
    {
      for k := 0 to |checks|
        invariant forall j | 0 <= j < k :: checks[j].passed
      {
        if !checks[k].passed {
          assert checks[k] == Check(checks[k].name, false);
          return Some(checks[k].name);
        }
      }
      return None;
    }

    method CheckVarImpact(r: Request) returns (passed: bool)
      requires portfolio.Valid()
      ensures passed == Passes(portfolio.View(), r, limits, varOf, VarImpact)
    {
      var before := varOf(Rows(portfolio.positions));
      var hypothetical := BuildHypothetical(r);
      var after := varOf(Rows(hypothetical));
      passed := VarIncrease(before, after) <= limits.maxVarIncrease;
    }

    /** Copies of the live positions, to be changed at will. */
    method CopyPositions() returns (copies: map<Instrument, Position>)
      requires portfolio.Valid()
      ensures forall i | i in copies :: fresh(copies[i]) && copies[i].instrument == i
      ensures Rows(copies) == Rows(portfolio.positions)
    {
      var live := portfolio.positions;
      var left := live.Keys;
      copies := map[];
      while left != {}
        invariant left <= live.Keys && copies.Keys == live.Keys - left
        invariant forall i | i in copies ::
          fresh(copies[i]) && copies[i].Row() == live[i].Row() && copies[i].instrument == i
        decreases |left|
      {
        var i :| i in left;
        var copy := new Position(i, live[i].Row());
        copies, left := copies[i := copy], left - {i};
      }
    }

    method ProjectBuy(pos: Position, r: Request, price: real)
      modifies pos
      ensures pos.Row() == ProjectedBuy(old(pos.Row()), r, price)
    {
      var quantity := pos.quantity + r.quantity;
      if quantity != 0.0 {
        pos.averageCost := Blended(pos.Row(), r.quantity, r.quantity * price);
      }
      pos.quantity := quantity;
      pos.UpdateMarketPrice(price);
    }

    method ProjectSell(pos: Position, r: Request, price: real)
      modifies pos
      ensures pos.Row() == ProjectedSell(old(pos.Row()), r, price)
    {
      pos.quantity := pos.quantity - r.quantity;
      pos.UpdateMarketPrice(price);
    }

    /** The trade, applied to copies. */
    method Project(
        copies: map<Instrument, Position>, r: Request, price: real) returns (projected: map<Instrument, Position>)
      requires forall i | i in copies :: copies[i].instrument == i
      modifies copies.Values
      ensures forall i | i in projected :: projected[i] in copies.Values || fresh(projected[i])
      ensures Rows(projected) == Projected(old(Rows(copies)), r, price)
    {
      var i := r.instrument;
      ghost var before := Rows(copies);
      projected := copies;
      if i in copies {
        var pos := copies[i];
        if r.side.Buy? {
          ProjectBuy(pos, r, price);
          assert Rows(projected) == before[i := pos.Row()];
        } else if pos.quantity - r.quantity <= 0.0 {
          projected := copies - {i};
          assert Rows(projected) == before - {i};
        } else {
          ProjectSell(pos, r, price);
          assert Rows(projected) == before[i := pos.Row()];
        }
      } else if r.side.Buy? {
        var pos := new Position(i, ProjectedOpening(r, price));
        projected := copies[i := pos];
        assert Rows(projected) == before[i := pos.Row()];
      }
    }

    /** The projected book is built on copies: nothing that existed before is modified. */
    method BuildHypothetical(r: Request) returns (hypothetical: map<Instrument, Position>)
      requires portfolio.Valid()
      ensures forall i | i in hypothetical :: fresh(hypothetical[i])
      ensures Rows(hypothetical) == Hypothetical(Rows(portfolio.positions), r)
    {
      var price := EffectivePrice(Rows(portfolio.positions), r);
      var copies := CopyPositions();
      hypothetical := Project(copies, r, price);
    }
  }
}
