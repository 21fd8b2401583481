/** What a position's average cost and realized profit are, in terms of its trades alone: long and short. */
module PositionBasis {
  import opened Decimals
  import opened Orders
  import opened Positions
  import opened PositionPnl

  // ---------------------------------------------------------------- long and short are mirror images

  function Mirrored(t: Trade): Trade {
    t.(side := if t.side == Buy then Sell else Buy)
  }

  function MirroredAll(ts: seq<Trade>): seq<Trade> {
    if ts == [] then [] else MirroredAll(ts[..|ts| - 1]) + [Mirrored(ts[|ts| - 1])]
  }

  ghost predicate MirrorImages(p: PositionState, m: PositionState) {
    && m.quantity == -p.quantity && m.averageCost == p.averageCost && m.realizedPnL == -p.realizedPnL
    && m.unsettledQuantity == p.unsettledQuantity
  }

  lemma MarkupTurned(a: real, b: real, q: real)
    ensures Markup(a, b, q) == -Markup(b, a, q)
  {
    assert (a - b) * q == -((b - a) * q);
  }

  lemma MirrorStep(p: PositionState, m: PositionState, t: Trade, g: Grid)
    requires MirrorImages(p, m)
    ensures MirrorImages(AfterTrade(p, t, g), AfterTrade(m, Mirrored(t), g))
  {
    if 0.0 < t.quantity {
      assert Increasing(m.quantity, Mirrored(t).side) <==> Increasing(p.quantity, t.side);
      if Increasing(p.quantity, t.side) {
        assert Abs(m.quantity) == Abs(p.quantity);
      } else {
        MarkupTurned(t.price, p.averageCost, t.quantity);
      }
    }
  }

  lemma MirroredSnoc(ts: seq<Trade>)
    requires ts != []
    ensures MirroredAll(ts)[..|MirroredAll(ts)| - 1] == MirroredAll(ts[..|ts| - 1])
    ensures MirroredAll(ts)[|MirroredAll(ts)| - 1] == Mirrored(ts[|ts| - 1])
  {}

  /** For every history and any rounding: with the side of every trade swapped, the holding and the realized
      profit are negated, and the average cost is the same. */
  lemma {:induction false} MirrorNegates(price: real, ts: seq<Trade>, g: Grid)
    ensures MirrorImages(Replay(Opened(price), ts, g), Replay(Opened(price), MirroredAll(ts), g))
  {
    if ts != [] {
      var rest, t := ts[..|ts| - 1], ts[|ts| - 1];
      MirrorNegates(price, rest, g);
      MirroredSnoc(ts);
      MirrorStep(Replay(Opened(price), rest, g), Replay(Opened(price), MirroredAll(rest), g), t, g);
    }
  }

  // ---------------------------------------------------------------- what one trade of a history may change

  /** The trade goes the way of what the trades before it left, or starts from nothing. */
  predicate Adds(net: real, t: Trade) {
    if t.side == Buy then 0.0 <= net else net <= 0.0
  }

  /** A trade that adds realizes nothing; any other leaves the average cost alone. */
  ghost predicate AddsOrRealizes(p: PositionState, p': PositionState, net: real, t: Trade) {
    && p'.quantity == p.quantity + (if t.side == Buy then t.quantity else -t.quantity)
    && p'.unsettledQuantity == p.unsettledQuantity + t.quantity
    && p'.marketPrice == p.marketPrice && p'.unrealizedPnL == p.unrealizedPnL
    && if Adds(net, t) then p'.realizedPnL == p.realizedPnL
       else
         && p'.averageCost == p.averageCost
         && p'.realizedPnL == p.realizedPnL
              + if 0.0 < net then Markup(t.price, p.averageCost, t.quantity)
                else Markup(p.averageCost, t.price, t.quantity)
  }

  lemma PositivePrefix(ts: seq<Trade>, k: nat)
    requires PositiveTrades(ts) && k <= |ts|
    ensures PositiveTrades(ts[..k])
  {}

  /** In every history, whatever the rounding: a trade that adds realizes nothing, and any other leaves the
      average cost alone and realizes its quantity, at its price against that cost, flips included. */
  lemma TradeAddsOrRealizes(price: real, ts: seq<Trade>, k: nat, g: Grid)
    requires PositiveTrades(ts) && k < |ts|
    ensures var p, p' := Replay(Opened(price), ts[..k], g), Replay(Opened(price), ts[..k + 1], g);
      AddsOrRealizes(p, p', NetQuantity(ts[..k]), ts[k])
  {
    PositivePrefix(ts, k);
    HistoryQuantity(Opened(price), ts[..k], g);
    assert ts[..k + 1][..k] == ts[..k] && ts[k] in ts;
    OneTrade(Replay(Opened(price), ts[..k], g), NetQuantity(ts[..k]), ts[k], g);
  }

  lemma OneTrade(p: PositionState, net: real, t: Trade, g: Grid)
    requires 0.0 < t.quantity && p.quantity == net
    ensures AddsOrRealizes(p, AfterTrade(p, t, g), net, t)
  {}

  // ---------------------------------------------------------------- the lots still held

  /** What is left of a trade that added to the holding. */
  datatype Lot = Lot(quantity: real, price: real)

  function Times(x: real, y: real): real {
    x * y
  }

  /** What share of one amount another is. */
  function Share(part: real, whole: real): real
    requires whole != 0.0
  {
    part / whole
  }

  function ShrunkLot(l: Lot, share: real): Lot {
    Lot(Times(l.quantity, share), l.price)
  }

  function Shrunk(lots: seq<Lot>, share: real): seq<Lot> {
    if lots == [] then [] else Shrunk(lots[..|lots| - 1], share) + [ShrunkLot(lots[|lots| - 1], share)]
  }

  /** Every trade that adds is a lot; every other shrinks all lots alike, to what is held after it. */
  function Lots(ts: seq<Trade>): seq<Lot> {
    if ts == [] then []
    else
      var rest, t := ts[..|ts| - 1], ts[|ts| - 1];
      if Adds(NetQuantity(rest), t) then Lots(rest) + [Lot(t.quantity, t.price)]
      else Shrunk(Lots(rest), Share(Abs(NetQuantity(ts)), Abs(NetQuantity(rest))))
  }

  function LotQuantity(lots: seq<Lot>): real {
    if lots == [] then 0.0 else LotQuantity(lots[..|lots| - 1]) + lots[|lots| - 1].quantity
  }

  function LotCost(l: Lot): real {
    Times(l.quantity, l.price)
  }

  function LotValue(lots: seq<Lot>): real {
    if lots == [] then 0.0 else LotValue(lots[..|lots| - 1]) + LotCost(lots[|lots| - 1])
  }

  lemma LotsSnoc(lots: seq<Lot>, l: Lot)
    ensures LotQuantity(lots + [l]) == LotQuantity(lots) + l.quantity
    ensures LotValue(lots + [l]) == LotValue(lots) + LotCost(l)
  {
    assert (lots + [l])[..|lots|] == lots;
  }

  lemma ShrunkLotCost(l: Lot, share: real)
    ensures LotCost(ShrunkLot(l, share)) == Times(LotCost(l), share)
  {
    var q, p := l.quantity, l.price;
    assert q * share * p == q * p * share;
  }

  lemma TimesSum(x: real, y: real, share: real)
    ensures Times(x + y, share) == Times(x, share) + Times(y, share)
  {}

  lemma {:induction false} ShrunkSums(lots: seq<Lot>, share: real)
    ensures LotQuantity(Shrunk(lots, share)) == Times(LotQuantity(lots), share)
    ensures LotValue(Shrunk(lots, share)) == Times(LotValue(lots), share)
  {
    if lots != [] {
      var rest, l := lots[..|lots| - 1], lots[|lots| - 1];
      ShrunkSums(rest, share);
      LotsSnoc(Shrunk(rest, share), ShrunkLot(l, share));
      ShrunkLotCost(l, share);
      TimesSum(LotQuantity(rest), l.quantity, share);
      TimesSum(LotValue(rest), LotCost(l), share);
    }
  }

  /** The lots add up to the holding, and their cost to its cost. */
  ghost predicate Backed(p: PositionState, net: real, lots: seq<Lot>) {
    p.quantity == net && LotQuantity(lots) == Abs(net) && LotValue(lots) == Times(p.averageCost, Abs(net))
  }

  lemma BlendedBasis(average: real, held: real, price: real, q: real)
    requires 0.0 <= held && 0.0 < q
    ensures Times(Div(TotalCost(average, held, price, q), held + q, 0.0), held + q)
         == Times(average, held) + Times(q, price)
  {
    Cancel(TotalCost(average, held, price, q), held + q);
  }

  lemma ShrunkBasis(average: real, held: real, held': real)
    requires held != 0.0
    ensures Times(held, Share(held', held)) == held'
    ensures Times(Times(average, held), Share(held', held)) == Times(average, held')
  {
    Cancel(held', held);
    var share := held' / held;
    assert average * held * share == average * (held * share);
  }

  lemma AddedBacked(p: PositionState, net: real, lots: seq<Lot>, t: Trade)
    requires Backed(p, net, lots) && 0.0 < t.quantity && Adds(net, t)
    ensures Backed(AfterTrade(p, t, 0.0), net + Signed(t.side, t.quantity), lots + [Lot(t.quantity, t.price)])
  {
    LotsSnoc(lots, Lot(t.quantity, t.price));
    BlendedBasis(p.averageCost, Abs(net), t.price, t.quantity);
    assert Abs(net + Signed(t.side, t.quantity)) == Abs(net) + t.quantity;
  }

  lemma ReducedBacked(p: PositionState, net: real, lots: seq<Lot>, t: Trade)
    requires Backed(p, net, lots) && 0.0 < t.quantity && !Adds(net, t)
    ensures var net' := net + Signed(t.side, t.quantity);
      Backed(AfterTrade(p, t, 0.0), net', Shrunk(lots, Share(Abs(net'), Abs(net))))
  {
    var net' := net + Signed(t.side, t.quantity);
    ShrunkSums(lots, Share(Abs(net'), Abs(net)));
    ShrunkBasis(p.averageCost, Abs(net), Abs(net'));
  }

  lemma {:induction false} HistoryBacked(price: real, ts: seq<Trade>)
    requires PositiveTrades(ts)
    ensures Backed(Replay(Opened(price), ts, 0.0), NetQuantity(ts), Lots(ts))
  {
    if ts != [] {
      var rest, t := ts[..|ts| - 1], ts[|ts| - 1];
      PositivePrefix(ts, |ts| - 1);
      HistoryBacked(price, rest);
      var p := Replay(Opened(price), rest, 0.0);
      assert 0.0 < t.quantity;
      if Adds(NetQuantity(rest), t) {
        AddedBacked(p, NetQuantity(rest), Lots(rest), t);
      } else {
        ReducedBacked(p, NetQuantity(rest), Lots(rest), t);
      }
    }
  }

  /** What the lots cost, negative for a short holding. */
  function SignedValue(ts: seq<Trade>): real {
    if 0.0 <= NetQuantity(ts) then LotValue(Lots(ts)) else -LotValue(Lots(ts))
  }

  lemma SignedBasis(average: real, net: real)
    ensures Times(average, net) == if 0.0 <= net then Times(average, Abs(net)) else -Times(average, Abs(net))
  {}

  lemma RealizedOfAccount(p: PositionState, cash: real, net: real, value: real)
    requires Account(p) == cash && p.quantity == net && value == Times(p.averageCost, Abs(net))
    ensures p.realizedPnL == cash + if 0.0 <= net then value else -value
  {
    SignedBasis(p.averageCost, net);
  }

  lemma AverageOfLots(average: real, held: real, value: real)
    requires held != 0.0 && value == Times(average, held)
    ensures average == Share(value, held)
  {}

  /** For every history, through shorts, flips and reopenings, with exact division: while something is held the
      average cost is the average price of the lots still held, and realized profit is the net cash flow plus
      what those lots cost. */
  lemma CostAndProfitAreOfLots(price: real, ts: seq<Trade>)
    requires PositiveTrades(ts)
    ensures LotQuantity(Lots(ts)) == Abs(NetQuantity(ts))
    ensures var p := Replay(Opened(price), ts, 0.0);
      && (NetQuantity(ts) != 0.0 ==> p.averageCost == Share(LotValue(Lots(ts)), LotQuantity(Lots(ts))))
      && p.realizedPnL == Cash(ts) + SignedValue(ts)
  {
    HistoryBacked(price, ts);
    AccountIsCash(price, ts);
    var p := Replay(Opened(price), ts, 0.0);
    RealizedOfAccount(p, Cash(ts), NetQuantity(ts), LotValue(Lots(ts)));
    if NetQuantity(ts) != 0.0 {
      AverageOfLots(p.averageCost, LotQuantity(Lots(ts)), LotValue(Lots(ts)));
    }
  }
}
