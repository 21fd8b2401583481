/** Over whole runs of the pipeline: every stored position is the replay of the trades booked for its instrument at
    its venue, so what PositionPnl and PositionBasis prove of histories holds of the stored rows. */
module PositionBooks {
  import opened Routing
  import opened Wrappers
  import opened Decimals
  import opened Orders
  import opened Positions
  import opened PositionPnl
  import opened PositionBasis
  import opened PipelineCore
  import opened PipelineLedger
  import opened PipelineMachine
  import opened PipelineSafety
  import opened PipelineResidual
  import opened ResidualChildren
  import Crossing

  // ---------------------------------------------------------------- which trade a step books, and where

  datatype Booking = Booking(key: PositionKey, trade: Trade)

  function BookingOf(t: Ticket, venue: VenueId, f: Fill): Booking {
    Booking(PositionKey(t.instrument, venue), Trade(t.side, f.quantity, f.price))
  }

  /** A collector that adds a fill to its order books it at the collector's venue; a cross books the fill of the
      routed order at INTERNAL; nothing else is a trade. */
  ghost function BookedBy(s: System, a: Action): Option<Booking>
    requires Enabled(s, a)
  {
    match a
    case Collect(v) =>
      var f := NextFill(s.desks[v]);
      if TakesFill(s.core.orders, Collected(s, v).core.orders, f)
      then Some(BookingOf(s.core.orders[f.order].ticket, v, f)) else None
    case Route(_, _, _, _) =>
      if CrossOf(s).result.Crossed?
      then Some(BookingOf(s.core.orders[s.core.riskOut[0]].ticket, INTERNAL, CrossOf(s).result.incoming)) else None
    case _ => None
  }

  /** The fill has been added to its order. */
  ghost predicate TakesFill(orders: OrderMap, orders': OrderMap, f: Fill) {
    f.order in orders && f.order in orders' && orders'[f.order].fills == orders[f.order].fills + [f]
  }

  /** The trades of one position, oldest first. */
  ghost function TradesAt(cfg: Config, actions: seq<Action>, key: PositionKey): seq<Trade> {
    if actions == [] then []
    else
      var n := |actions| - 1;
      var before, s := TradesAt(cfg, actions[..n], key), Run(cfg, actions[..n]);
      if Enabled(s, actions[n]) then before + TradeFor(BookedBy(s, actions[n]), key) else before
  }

  function TradeFor(b: Option<Booking>, key: PositionKey): seq<Trade> {
    if b.Some? && b.value.key == key then [b.value.trade] else []
  }

  type PositionMap = map<PositionKey, PositionState>

  /** One booking changes its own row and no other. */
  ghost predicate Books(positions: PositionMap, positions': PositionMap, b: Option<Booking>, g: Grid) {
    match b
    case None => positions' == positions
    case Some(e) =>
      0.0 < e.trade.quantity && positions' == positions[e.key := RowAfter(positions, e.key, e.trade, g)]
  }

  // ---------------------------------------------------------------- fills

  lemma ProcessedBooks(c: Core, f: Fill, venue: VenueId, g: Grid)
    requires Kept(c) && 0.0 < f.quantity && f.order in c.orders && c.orders[f.order].venue == venue
    ensures var r := PipelineCore.Processed(c, f, g);
      var e := BookingOf(c.orders[f.order].ticket, venue, f);
      Books(c.positions, r.positions, if TakesFill(c.orders, r.orders, f) then Some(e) else None, g)
  {
    if f.order in c.inFlight && Fillability(c.orders[f.order], f).Pass? {
      var o := c.orders[f.order];
      AddedFill(o, f, g);
    }
  }

  lemma AddedFill(o: OrderState, f: Fill, g: Grid)
    requires Sound(o) && 0.0 < f.quantity && Fillability(o, f).Pass?
    ensures AfterFill(o, f, g).fills == o.fills + [f]
  {}

  lemma CollectBooks(s: System, v: VenueId)
    requires Inv(s) && Enabled(s, Collect(v))
    ensures Books(s.core.positions, Collected(s, v).core.positions, BookedBy(s, Collect(v)), s.cfg.g)
  {
    NextFillOwned(s, v);
    ProcessedBooks(s.core, NextFill(s.desks[v]), v, s.cfg.g);
  }

  // ---------------------------------------------------------------- routing

  lemma {:induction false} SplitPositions(
      c: Core, parent: Ticket, allocations: seq<Allocation>, ids: seq<OrderId>, ready: set<VenueId>)
    requires Linked(c) && PositiveAllocations(allocations) && |ids| == |allocations| && FreshIds(c, ids)
    ensures Split(c, parent, allocations, ids, ready).positions == c.positions
    decreases |allocations|
  {
    if allocations != [] {
      SplitStep(c, parent, allocations, ids, ready);
      SplitPositions(
        WithChild(c, Child(parent, allocations[0], ids[0]), ready), parent, allocations[1..], ids[1..], ready);
    }
  }

  lemma RoutedOutPositions(
      c: Core, id: OrderId, answer: RouterAnswer, ids: seq<OrderId>, any: VenueId, ready: set<VenueId>)
    requires Linked(c) && id in c.orders && GoodAnswer(c, answer, ids)
    ensures RoutedOut(c, id, answer, ids, any, ready).positions == c.positions
  {
    if c.dispatch != map[] && answer.Allocations? && |answer.allocations| != 1 {
      SplitPositions(c, c.orders[id].ticket, answer.allocations, ids, ready);
    }
  }

  /** The fill of a cross is accepted and booked at INTERNAL. */
  lemma CrossBooks(c: Core, id: OrderId, f: Fill, g: Grid)
    requires Kept(c) && InTransit(c, id) && c.orders[id].status == New
    requires f.order == id && 0.0 < f.quantity <= Crossing.Remaining(c.orders[id])
    ensures Books(c.positions, CrossedInternally(c, id, f, g).positions,
                  Some(BookingOf(c.orders[id].ticket, INTERNAL, f)), g)
  {
    var acked := Transition(c.orders[id].(filled := 0.0, venue := INTERNAL), Acknowledged);
    FirstFill(c.orders[id], f, g);
    SavedKeeps(c, acked);
    AddedFill(acked, f, g);
    assert f.order in c.inFlight;
    ProcessedBooks(Saved(c, acked), f, INTERNAL, g);
  }

  lemma UncrossedBooks(c: Core, input: RouteInput, g: Grid)
    requires Kept(c) && Routable(c, input) && input.cross.NotCrossed?
    ensures Routed(c, input, g).positions == c.positions
  {
    PopRiskOut(c);
    if input.smart {
      RoutedOutPositions(
        c.(riskOut := c.riskOut[1..]), c.riskOut[0], input.answer, input.ids, input.any, input.ready);
    }
  }

  lemma CrossedBooks(c: Core, input: RouteInput, g: Grid)
    requires Kept(c) && Routable(c, input) && input.smart && input.cross.Crossed?
    requires input.cross.incoming.order == c.riskOut[0]
    requires input.cross.incoming.quantity <= Crossing.Remaining(c.orders[c.riskOut[0]])
    ensures Books(c.positions, Routed(c, input, g).positions,
                  Some(BookingOf(c.orders[c.riskOut[0]].ticket, INTERNAL, input.cross.incoming)), g)
  {
    var id, c0 := c.riskOut[0], c.(riskOut := c.riskOut[1..]);
    PopRiskOut(c);
    CrossBooks(c0, id, input.cross.incoming, g);
    if input.cross.residual.Some? {
      CrossCore(c, input.cross.incoming, g);
      RoutedAfterCross(c, input, g);
      RoutedOutPositions(
        CrossedInternally(c0, id, input.cross.incoming, g), id, input.answer, input.ids, input.any, input.ready);
    }
  }

  lemma RouteBooks(s: System, a: Action)
    requires Inv(s) && a.Route? && Enabled(s, a)
    ensures Books(s.core.positions, RoutedBy(s, a).core.positions, BookedBy(s, a), s.cfg.g)
  {
    if CrossOf(s).result.Crossed? {
      CrossFound(s);
      CrossedBooks(s.core, InputOf(s, a), s.cfg.g);
    } else {
      UncrossedBooks(s.core, InputOf(s, a), s.cfg.g);
    }
  }

  // ---------------------------------------------------------------- every step

  lemma LinePositions(s: System, a: Action)
    requires Enabled(s, a) && (a.Submit? || a.Decide?)
    ensures Do(s, a).core.positions == s.core.positions
  {}

  lemma DispatchPositions(s: System, a: Action)
    requires Enabled(s, a) && (a.Take? || a.SubmitOrder?)
    ensures Do(s, a).core.positions == s.core.positions
  {
    if a.Take? {
      TookDesk(s, a.venue);
    } else {
      SubmittedPositions(s, a.venue, a.accepted, a.slipped);
    }
  }

  lemma SubmittedPositions(s: System, v: VenueId, accepted: bool, slipped: real)
    requires Enabled(s, SubmitOrder(v, accepted, slipped))
    ensures SubmittedTo(s, v, accepted, slipped).core.positions == s.core.positions
  {}

  lemma StepBooks(s: System, a: Action)
    requires Inv(s) && Enabled(s, a)
    ensures Books(s.core.positions, Do(s, a).core.positions, BookedBy(s, a), s.cfg.g)
  {
    match a
    case Collect(v) => CollectBooks(s, v);
    case Route(_, _, _, _) => RouteBooks(s, a);
    case Rest(_) => QuietCore(s, a);
    case Emit(_, _) => QuietCore(s, a);
    case Sweep(_, _, _) => QuietCore(s, a);
    case Withdraw(_, _) => QuietCore(s, a);
    case Submit(_, _) => LinePositions(s, a);
    case Decide(_, _) => LinePositions(s, a);
    case _ => DispatchPositions(s, a);
  }

  // ---------------------------------------------------------------- replaying

  /** The row of a position is the replay of its trades, marked at the price of the first. */
  ghost predicate Replays(positions: PositionMap, key: PositionKey, ts: seq<Trade>, g: Grid) {
    && PositiveTrades(ts) && (key in positions <==> ts != [])
    && (ts != [] ==> positions[key] == Marked(Replay(Opened(ts[0].price), ts, g), ts[0].price))
  }

  lemma {:induction false} ReplayKeepsMark(p: PositionState, ts: seq<Trade>, g: Grid)
    ensures Replay(p, ts, g).marketPrice == p.marketPrice
  {
    if ts != [] {
      ReplayKeepsMark(p, ts[..|ts| - 1], g);
    }
  }

  lemma MarkedTrade(p: PositionState, t: Trade, g: Grid, mark: real)
    ensures var p' := AfterTrade(Marked(p, mark), t, g);
      p'.marketPrice == mark && Marked(p', mark) == Marked(AfterTrade(p, t, g), mark)
  {}

  lemma OneTradeReplayed(p: PositionState, t: Trade, g: Grid)
    ensures Replay(p, [t], g) == AfterTrade(p, t, g)
  {
    assert [t][..0] == [];
    assert Replay(p, [], g) == p;
  }

  lemma BookReplays(
      positions: PositionMap, positions': PositionMap, b: Option<Booking>, key: PositionKey, ts: seq<Trade>, g: Grid)
    requires Replays(positions, key, ts, g) && Books(positions, positions', b, g)
    ensures Replays(positions', key, ts + TradeFor(b, key), g)
  {
    if b.Some? && b.value.key == key {
      var t := b.value.trade;
      if ts == [] {
        assert ts + [t] == [t];
        OneTradeReplayed(Opened(t.price), t, g);
      } else {
        var p := Replay(Opened(ts[0].price), ts, g);
        assert (ts + [t])[..|ts|] == ts && (ts + [t])[0] == ts[0];
        MarkedTrade(p, t, g, ts[0].price);
      }
    } else {
      assert ts + TradeFor(b, key) == ts;
    }
  }

  /** Over every run: there is a position for an instrument at a venue exactly when a trade has been booked there, and
      its row is the replay of these trades, marked at the price of the first. */
  lemma {:induction false} EveryPositionReplaysItsTrades(cfg: Config, actions: seq<Action>, key: PositionKey)
    ensures Replays(Run(cfg, actions).core.positions, key, TradesAt(cfg, actions, key), cfg.g)
  {
    if actions != [] {
      var n := |actions| - 1;
      var s := Run(cfg, actions[..n]);
      EveryPositionReplaysItsTrades(cfg, actions[..n], key);
      Reachable(cfg, actions[..n]);
      if Enabled(s, actions[n]) {
        StepBooks(s, actions[n]);
        BookReplays(s.core.positions, Do(s, actions[n]).core.positions, BookedBy(s, actions[n]), key,
                    TradesAt(cfg, actions[..n], key), cfg.g);
      }
    }
  }

  /** Quantity, average cost, realized profit and mark of a row, in terms of its trades alone. */
  ghost predicate SaysWhatWasTraded(p: PositionState, ts: seq<Trade>) {
    && ts != [] && p.quantity == NetQuantity(ts) && LotQuantity(Lots(ts)) == Abs(NetQuantity(ts))
    && (NetQuantity(ts) != 0.0 ==> p.averageCost == Share(LotValue(Lots(ts)), LotQuantity(Lots(ts))))
    && p.realizedPnL == Cash(ts) + SignedValue(ts)
    && p.marketPrice == ts[0].price && p.unrealizedPnL == Markup(ts[0].price, p.averageCost, p.quantity)
  }

  lemma RowSays(ts: seq<Trade>)
    requires PositiveTrades(ts) && ts != []
    ensures SaysWhatWasTraded(Marked(Replay(Opened(ts[0].price), ts, 0.0), ts[0].price), ts)
  {
    CostAndProfitAreOfLots(ts[0].price, ts);
    HistoryQuantity(Opened(ts[0].price), ts, 0.0);
  }

  /** Over every run with exact division, for every stored position, long, short or flipped: its quantity is the net
      quantity traded at its venue, its average cost the average price of the lots still held, its realized profit
      the net cash flow plus what these lots cost, and its unrealized profit is taken at the price of the first
      trade: booking never marks a position again. */
  lemma StoredPositionsSayWhatWasTraded(cfg: Config, actions: seq<Action>, key: PositionKey)
    requires cfg.g == 0.0 && key in Run(cfg, actions).core.positions
    ensures SaysWhatWasTraded(Run(cfg, actions).core.positions[key], TradesAt(cfg, actions, key))
  {
    EveryPositionReplaysItsTrades(cfg, actions, key);
    RowSays(TradesAt(cfg, actions, key));
  }

  // ---------------------------------------------------------------- with a pricer

  /** What happens to the stored rows: a booking, or a market price for one of them. Each is one step. */
  datatype RowEvent = Traded(booking: Booking) | Priced(key: PositionKey, price: real)

  function Rows(events: seq<RowEvent>, g: Grid): PositionMap {
    if events == [] then map[]
    else
      var rows := Rows(events[..|events| - 1], g);
      match events[|events| - 1]
      case Traded(b) => rows[b.key := RowAfter(rows, b.key, b.trade, g)]
      case Priced(key, price) =>
        if price == 0.0 || key !in rows then rows else rows[key := Marked(rows[key], price)]
  }

  function TradesIn(events: seq<RowEvent>, key: PositionKey): seq<Trade> {
    if events == [] then []
    else
      var e := events[|events| - 1];
      TradesIn(events[..|events| - 1], key) + TradeFor(if e.Traded? then Some(e.booking) else None, key)
  }

  /** The last market price other than zero since the first trade; before that, the price of the first trade. */
  function MarkIn(events: seq<RowEvent>, key: PositionKey): real {
    if events == [] then 0.0
    else
      var before, e := events[..|events| - 1], events[|events| - 1];
      if e.Traded? && e.booking.key == key && TradesIn(before, key) == [] then e.booking.trade.price
      else if e.Priced? && e.key == key && e.price != 0.0 then e.price
      else MarkIn(before, key)
  }

  lemma TradedRow(row: PositionState, p: PositionState, t: Trade, mark: real, g: Grid)
    requires row == Marked(p, mark)
    ensures Marked(AfterTrade(row, t, g), AfterTrade(row, t, g).marketPrice) == Marked(AfterTrade(p, t, g), mark)
  {
    MarkedTrade(p, t, g, mark);
  }

  /** However bookings and prices interleave: a row is the replay of its trades, marked at the last price. Pricing
      changes the mark and the unrealized profit of a row and nothing else, and booking keeps the mark. */
  lemma {:induction false} PricingOnlyMarks(events: seq<RowEvent>, key: PositionKey, g: Grid)
    ensures var rows, ts := Rows(events, g), TradesIn(events, key);
      && (key in rows <==> ts != [])
      && (ts != [] ==> rows[key] == Marked(Replay(Opened(ts[0].price), ts, g), MarkIn(events, key)))
  {
    if events != [] {
      var before, e := events[..|events| - 1], events[|events| - 1];
      PricingOnlyMarks(before, key, g);
      var rows, ts := Rows(before, g), TradesIn(before, key);
      if e.Traded? && e.booking.key == key {
        var t := e.booking.trade;
        if ts == [] {
          assert ts + [t] == [t];
          OneTradeReplayed(Opened(t.price), t, g);
        } else {
          assert (ts + [t])[..|ts|] == ts && (ts + [t])[0] == ts[0];
          TradedRow(rows[key], Replay(Opened(ts[0].price), ts, g), t, MarkIn(before, key), g);
        }
      } else {
        assert TradesIn(events, key) == ts;
      }
    }
  }
}
