/** What the risk engine's book keeps over any stream of fills. */
module PortfolioLedger {
  import opened Routing
  import opened Decimals
  import opened Totals
  import opened Portfolio
  import Orders

  /** A book with its history: the fills it accepted, and the realized profit of positions since dropped. */
  datatype History = History(book: Book, accepted: seq<FillEvent>, gone: real)

  ghost function Next(h: History, f: FillEvent): History {
    if !Accepts(h.book, f) then h
    else
      var flat := f.instrument in h.book.positions && HoldingAfter(h.book.positions, f).quantity == 0.0;
      History(Applied(h.book, f), h.accepted + [f],
              if flat then h.gone + HoldingAfter(h.book.positions, f).realizedPnL else h.gone)
  }

  ghost function After(cash: real, fs: seq<FillEvent>): History {
    if fs == [] then History(Start(cash), [], 0.0)
    else Next(After(cash, fs[..|fs| - 1]), fs[|fs| - 1])
  }

  // ---------------------------------------------------------------- reference sums

  /** What accepted sells brought in less what accepted buys cost, for any mix of settlement cycles. */
  function NetProceeds(fs: seq<FillEvent>): real {
    if fs == [] then 0.0
    else
      var f := fs[|fs| - 1];
      NetProceeds(fs[..|fs| - 1]) + if f.side.Sell? then FillCost(f) else -FillCost(f)
  }

  ghost function Realized(positions: map<Instrument, Holding>): map<Instrument, real> {
    map i | i in positions :: positions[i].realizedPnL
  }

  ghost function Unrealized(positions: map<Instrument, Holding>): map<Instrument, real> {
    map i | i in positions :: positions[i].unrealizedPnL
  }

  function CostBasis(h: Holding): real {
    h.quantity * h.averageCost
  }

  /** Cost basis less realized profit: what has gone into a position. */
  function Invested(h: Holding): real {
    CostBasis(h) - h.realizedPnL
  }

  ghost function AllInvested(positions: map<Instrument, Holding>): map<Instrument, real> {
    map i | i in positions :: Invested(positions[i])
  }

  ghost function AllCosts(positions: map<Instrument, Holding>): map<Instrument, real> {
    map i | i in positions :: CostBasis(positions[i])
  }

  // ---------------------------------------------------------------- one holding

  predicate Marked(h: Holding) {
    h.unrealizedPnL == (h.marketPrice - h.averageCost) * h.quantity
  }

  lemma BoughtInvests(h: Holding, f: FillEvent)
    requires 0.0 < h.quantity && 0.0 < f.quantity
    ensures Invested(Bought(h, f)) == Invested(h) + FillCost(f)
  {
    Cancel(h.averageCost * h.quantity + FillCost(f), h.quantity + f.quantity);
  }

  lemma SoldReturns(h: Holding, f: FillEvent)
    ensures Invested(Sold(h, f)) == Invested(h) - FillCost(f)
  {
    var p, c, q, s := f.price, h.averageCost, h.quantity, f.quantity;
    assert (q - s) * c - (h.realizedPnL + (p - c) * s) == q * c - h.realizedPnL - s * p by {
      assert (q - s) * c == q * c - s * c;
      assert (p - c) * s == p * s - c * s;
    }
  }

  lemma OpeningInvests(f: FillEvent)
    ensures Invested(Opening(f)) == FillCost(f)
  {}

  /** What the fill puts into (or takes out of) the position of its instrument. */
  lemma HoldingMoves(positions: map<Instrument, Holding>, f: FillEvent)
    requires 0.0 < f.quantity && (f.side.Sell? ==> f.instrument in positions)
    requires f.instrument in positions ==> 0.0 < positions[f.instrument].quantity
    ensures Invested(HoldingAfter(positions, f)) == At(AllInvested(positions), f.instrument)
                                                 + if f.side.Sell? then -FillCost(f) else FillCost(f)
  {
    if f.instrument !in positions {
      OpeningInvests(f);
    } else if f.side.Buy? {
      BoughtInvests(positions[f.instrument], f);
    } else {
      SoldReturns(positions[f.instrument], f);
    }
  }

  // ---------------------------------------------------------------- the invariant

  ghost predicate Healthy(positions: map<Instrument, Holding>) {
    forall i | i in positions :: 0.0 < positions[i].quantity && Marked(positions[i])
  }

  ghost predicate Kept(h: History, cash: real) {
    && Healthy(h.book.positions)
    && h.book.nav == NavOf(h.book.availableCash, h.book.positions)
    && h.book.availableCash + Total(AllInvested(h.book.positions)) == cash + h.gone
    && h.book.availableCash == cash + NetProceeds(h.accepted)
  }

  lemma StaysHealthy(b: Book, f: FillEvent)
    requires Healthy(b.positions) && 0.0 < f.quantity && Accepts(b, f)
    ensures Healthy(PositionsAfter(b.positions, f))
  {
    var h := HoldingAfter(b.positions, f);
    if f.instrument !in b.positions {
      assert Marked(h) by { assert (h.marketPrice - h.averageCost) == 0.0; }
    }
  }

  lemma InvestedAfter(positions: map<Instrument, Holding>, f: FillEvent)
    requires Healthy(positions) && 0.0 < f.quantity && (f.side.Sell? ==> f.instrument in positions)
    ensures var h := HoldingAfter(positions, f);
      var flat := f.instrument in positions && h.quantity == 0.0;
      Total(AllInvested(PositionsAfter(positions, f))) == Total(AllInvested(positions))
        + (if f.side.Sell? then -FillCost(f) else FillCost(f)) + if flat then h.realizedPnL else 0.0
  {
    var h := HoldingAfter(positions, f);
    var i := f.instrument;
    HoldingMoves(positions, f);
    if i in positions && h.quantity == 0.0 {
      TotalRemove(AllInvested(positions), i);
      assert AllInvested(positions - {i}) == AllInvested(positions) - {i};
      assert Invested(h) == -h.realizedPnL;
    } else {
      TotalUpdate(AllInvested(positions), i, Invested(h));
      assert AllInvested(positions[i := h]) == AllInvested(positions)[i := Invested(h)];
    }
  }

  lemma NextKeeps(h: History, f: FillEvent, cash: real)
    requires Kept(h, cash) && 0.0 < f.quantity
    ensures Kept(Next(h, f), cash)
  {
    if Accepts(h.book, f) {
      StaysHealthy(h.book, f);
      InvestedAfter(h.book.positions, f);
      assert (h.accepted + [f])[..|h.accepted|] == h.accepted;
    }
  }

  ghost predicate Positive(fs: seq<FillEvent>) {
    forall f | f in fs :: 0.0 < f.quantity
  }

  lemma {:induction false} AlwaysKept(cash: real, fs: seq<FillEvent>)
    requires Positive(fs)
    ensures Kept(After(cash, fs), cash)
  {
    if fs == [] {
      assert AllInvested(map[]) == map[] && Values(map[]) == map[];
    } else {
      var n := |fs| - 1;
      assert fs[n] in fs && Positive(fs[..n]);
      AlwaysKept(cash, fs[..n]);
      NextKeeps(After(cash, fs[..n]), fs[n], cash);
    }
  }

  // ---------------------------------------------------------------- the results

  /** Value is cost basis plus unrealized profit, so net asset value splits into what was invested and
      what was earned. */
  lemma NavSplits(positions: map<Instrument, Holding>)
    requires Healthy(positions)
    ensures Total(Values(positions))
         == Total(AllInvested(positions)) + Total(Realized(positions)) + Total(Unrealized(positions))
  {
    var costs := AllCosts(positions);
    forall i | i in positions ensures Values(positions)[i] == costs[i] + Unrealized(positions)[i] {
      var h := positions[i];
      assert Marked(h);
      assert h.quantity * h.marketPrice == h.quantity * h.averageCost + (h.marketPrice - h.averageCost) * h.quantity;
    }
    TotalAdds(AllInvested(positions), Realized(positions), costs);
    TotalAdds(costs, Unrealized(positions), Values(positions));
  }

  /** In every reachable book: net asset value is starting cash plus all realized profit, that of dropped
      positions included, plus all unrealized profit; available cash is starting cash less accepted buys
      plus accepted sells, whatever their settlement; and held quantities are positive. */
  lemma NavIdentity(cash: real, fs: seq<FillEvent>)
    requires Positive(fs)
    ensures var h := After(cash, fs);
      && h.book.nav == cash + h.gone + Total(Realized(h.book.positions)) + Total(Unrealized(h.book.positions))
      && h.book.availableCash == cash + NetProceeds(h.accepted)
      && forall i | i in h.book.positions :: 0.0 < h.book.positions[i].quantity
  {
    AlwaysKept(cash, fs);
    NavSplits(After(cash, fs).book.positions);
  }

  /** Proceeds of accepted sells of one settlement cycle, or costs of accepted buys of one. */
  function Flow(fs: seq<FillEvent>, side: Side, cycle: Cycle): real {
    if fs == [] then 0.0
    else
      var f := fs[|fs| - 1];
      Flow(fs[..|fs| - 1], side, cycle) + if f.side == side && f.cycle == cycle then FillCost(f) else 0.0
  }

  lemma FlowAfter(fs: seq<FillEvent>, f: FillEvent, side: Side, cycle: Cycle)
    ensures Flow(fs + [f], side, cycle)
         == Flow(fs, side, cycle) + if f.side == side && f.cycle == cycle then FillCost(f) else 0.0
  {
    assert (fs + [f])[..|fs|] == fs;
  }

  ghost predicate Settles(h: History, cash: real) {
    var later := Flow(h.accepted, Orders.Sell, T2);
    && h.book.cash == cash - Flow(h.accepted, Orders.Buy, T0) + Flow(h.accepted, Orders.Sell, T0) + later
    && h.book.unsettledCash == Flow(h.accepted, Orders.Buy, T2) - later
    && h.book.availableCash == h.book.cash - h.book.unsettledCash - later
  }

  lemma NextSettles(h: History, f: FillEvent, cash: real)
    requires Settles(h, cash)
    ensures Settles(Next(h, f), cash)
  {
    FlowAfter(h.accepted, f, Orders.Buy, T0);
    FlowAfter(h.accepted, f, Orders.Sell, T0);
    FlowAfter(h.accepted, f, Orders.Buy, T2);
    FlowAfter(h.accepted, f, Orders.Sell, T2);
  }

  /** Settled and unsettled cash in every reachable book. Available cash is the difference of the two
      exactly when the accepted sells that settle later brought in nothing. */
  lemma {:induction false} SettledCash(cash: real, fs: seq<FillEvent>)
    ensures Settles(After(cash, fs), cash)
    ensures var h := After(cash, fs);
      h.book.availableCash == h.book.cash - h.book.unsettledCash <==> Flow(h.accepted, Orders.Sell, T2) == 0.0
  {
    if fs != [] {
      var n := |fs| - 1;
      SettledCash(cash, fs[..n]);
      NextSettles(After(cash, fs[..n]), fs[n], cash);
    }
  }

  /** Exactly the sells of more than is held are refused, and a refused fill changes nothing. */
  lemma {:induction false} RefusedSellChangesNothing(cash: real, fs: seq<FillEvent>, f: FillEvent)
    requires Positive(fs) && 0.0 < f.quantity
    ensures var b := After(cash, fs).book;
      var held := if f.instrument in b.positions then b.positions[f.instrument].quantity else 0.0;
      && (Accepts(b, f) <==> f.side.Buy? || f.quantity <= held)
      && (!Accepts(b, f) ==> After(cash, fs + [f]) == After(cash, fs))
  {
    AlwaysKept(cash, fs);
    assert (fs + [f])[..|fs|] == fs;
  }
}
