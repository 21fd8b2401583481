/** Safety of the pipeline over every run. */
module PipelineSafety {
  import opened Routing
  import opened Wrappers
  import opened Decimals
  import opened Totals
  import opened Orders
  import opened OrderVwap
  import opened PipelineCore
  import opened PipelineLedger
  import opened PipelineMachine
  import Crossing
  import MatchingEngine

  // ---------------------------------------------------------------- the invariant

  type OrderMap = map<OrderId, OrderState>

  /** Acknowledged and nothing filled. */
  predicate Untouched(o: OrderState) {
    o.status == Acknowledged && o.fills == []
  }

  /** A venue owns the orders it was given: they carry its name and are past New. */
  ghost predicate Owns(orders: OrderMap, v: VenueId, given: map<OrderId, Ticket>) {
    forall id | id in given ::
      id in orders && orders[id].ticket == given[id] && orders[id].venue == v && orders[id].status != New
  }

  /** The order in a dispatcher's hand. */
  ghost predicate Holds(orders: OrderMap, v: VenueId, given: map<OrderId, Ticket>, id: OrderId) {
    id in orders && Untouched(orders[id]) && orders[id].venue == v && id !in given
  }

  ghost predicate FillsGiven(fills: seq<Fill>, given: map<OrderId, Ticket>) {
    forall f | f in fills :: f.order in given && 0.0 < f.quantity
  }

  /** Fills of a simulated venue: those taken have filled their order alone and completely; those
      still in the channel, and the orders still in a book, find their order untouched. */
  ghost predicate Settles(orders: OrderMap, venue: MatchingEngine.Venue, read: nat) {
    && (forall k | 0 <= k < |venue.fills| :: venue.fills[k].order in orders &&
         var o := orders[venue.fills[k].order];
         if k < read then o.status == Filled && o.fills == [venue.fills[k]] else Untouched(o))
    && (forall i, t | i in venue.books && t in venue.books[i] :: t.id in orders && Untouched(orders[t.id]))
  }

  ghost predicate DeskSafe(orders: OrderMap, v: VenueId, simulated: bool, d: Desk) {
    && d.read <= |d.venue.fills|
    && Owns(orders, v, d.given)
    && FillsGiven(d.venue.fills, d.given)
    && (d.hand.Some? ==> Holds(orders, v, d.given, d.hand.value))
    && (simulated ==> MatchingEngine.Tidy(d.venue, d.given) && Settles(orders, d.venue, d.read))
  }

  ghost predicate DesksSafe(orders: OrderMap, simulated: set<VenueId>, desks: map<VenueId, Desk>) {
    forall v | v in desks :: DeskSafe(orders, v, v in simulated, desks[v])
  }

  ghost predicate CallsSafe(calls: seq<Call>, desks: map<VenueId, Desk>) {
    && (forall k | 0 <= k < |calls| ::
         Untouched(calls[k].order) && calls[k].venue in desks
         && calls[k].order.ticket.id in desks[calls[k].venue].given)
    && (forall j, k | 0 <= j < k < |calls| :: calls[j].order.ticket.id != calls[k].order.ticket.id)
  }

  ghost predicate RestingSafe(resting: map<Instrument, seq<OrderState>>) {
    forall i, o | i in resting && o in resting[i] :: 0.0 < Crossing.Remaining(o)
  }

  ghost predicate Inv(s: System) {
    && Shaped(s) && Kept(s.core) && RestingSafe(s.resting) && CallsSafe(s.calls, s.desks)
    && DesksSafe(s.core.orders, s.cfg.simulated, s.desks)
  }

  // ---------------------------------------------------------------- frames

  ghost predicate SameBut(orders: OrderMap, orders': OrderMap, id: OrderId) {
    forall j | j in orders && j != id :: j in orders' && orders'[j] == orders[j]
  }

  /** An order a desk neither gave to its venue nor holds. */
  ghost predicate Unrelated(d: Desk, id: OrderId) {
    id !in d.given && d.hand != Some(id)
  }

  lemma SettlesFrame(
      orders: OrderMap, orders': OrderMap, venue: MatchingEngine.Venue,
      given: map<OrderId, Ticket>, read: nat, id: OrderId)
    requires MatchingEngine.Tidy(venue, given) && Settles(orders, venue, read) && id !in given
    requires SameBut(orders, orders', id)
    ensures Settles(orders', venue, read)
  {
    forall k | 0 <= k < |venue.fills| ensures venue.fills[k].order != id {
      assert venue.fills[k] in venue.fills;
    }
    forall i, t | i in venue.books && t in venue.books[i] ensures t.id != id {
      assert MatchingEngine.BookTidy(i, venue.books[i], venue.fills, given);
    }
  }

  lemma DeskFrame(orders: OrderMap, orders': OrderMap, v: VenueId, simulated: bool, d: Desk, id: OrderId)
    requires DeskSafe(orders, v, simulated, d) && SameBut(orders, orders', id) && Unrelated(d, id)
    ensures DeskSafe(orders', v, simulated, d)
  {
    if simulated {
      SettlesFrame(orders, orders', d.venue, d.given, d.read, id);
    }
  }

  /** Changing one order and the one desk it concerns. */
  lemma DesksUpdate(
      orders: OrderMap, orders': OrderMap, simulated: set<VenueId>,
      desks: map<VenueId, Desk>, id: OrderId, v: VenueId, d: Desk)
    requires DesksSafe(orders, simulated, desks) && SameBut(orders, orders', id)
    requires forall u | u in desks && u != v :: Unrelated(desks[u], id)
    requires DeskSafe(orders', v, v in simulated, d)
    ensures DesksSafe(orders', simulated, desks[v := d])
  {
    forall u | u in desks && u != v ensures DeskSafe(orders', u, u in simulated, desks[u]) {
      DeskFrame(orders, orders', u, u in simulated, desks[u], id);
    }
  }

  /** A New or unknown order concerns no desk. */
  lemma NobodysYet(orders: OrderMap, simulated: set<VenueId>, desks: map<VenueId, Desk>, id: OrderId)
    requires DesksSafe(orders, simulated, desks) && (id in orders ==> orders[id].status == New)
    ensures forall v | v in desks :: Unrelated(desks[v], id)
  {
    forall v | v in desks ensures Unrelated(desks[v], id) {
      assert DeskSafe(orders, v, v in simulated, desks[v]);
    }
  }

  /** An order concerns only the desk of the venue whose name it carries. */
  lemma NobodyElses(orders: OrderMap, simulated: set<VenueId>, desks: map<VenueId, Desk>, id: OrderId, v: VenueId)
    requires DesksSafe(orders, simulated, desks) && id in orders && orders[id].venue == v
    ensures forall u | u in desks && u != v :: Unrelated(desks[u], id)
  {
    forall u | u in desks && u != v ensures Unrelated(desks[u], id) {
      assert DeskSafe(orders, u, u in simulated, desks[u]);
    }
  }

  /** A step of the core on an order that has not left the router. */
  lemma DesksCoreStep(c: Core, c': Core, simulated: set<VenueId>, desks: map<VenueId, Desk>, id: OrderId)
    requires DesksSafe(c.orders, simulated, desks) && OnlyTouches(c, c', id)
    requires id in c.orders ==> c.orders[id].status == New
    ensures DesksSafe(c'.orders, simulated, desks)
    ensures forall v | v in desks && desks[v].hand.Some? :: desks[v].hand.value in c'.orders
  {
    NobodysYet(c.orders, simulated, desks, id);
    forall v | v in desks ensures DeskSafe(c'.orders, v, v in simulated, desks[v]) {
      DeskFrame(c.orders, c'.orders, v, v in simulated, desks[v], id);
    }
  }

  // ---------------------------------------------------------------- before the venues

  lemma SubmitKeepsInv(s: System, t: Ticket, preferred: VenueId)
    requires Inv(s) && Enabled(s, Submit(t, preferred))
    ensures Inv(Do(s, Submit(t, preferred)))
  {
    SubmitKeeps(s.core, t, preferred);
    DesksCoreStep(s.core, Do(s, Submit(t, preferred)).core, s.cfg.simulated, s.desks, t.id);
  }

  lemma DecideKeepsInv(s: System, i: nat, risk: RiskAnswer)
    requires Inv(s) && Enabled(s, Decide(i, risk))
    ensures Inv(Do(s, Decide(i, risk)))
  {
    assert s.core.intake[i] in s.core.intake + s.core.riskOut;
    DecideKeeps(s.core, i, risk, s.cfg.failOpen);
    DesksCoreStep(s.core, Do(s, Decide(i, risk)).core, s.cfg.simulated, s.desks, s.core.intake[i]);
  }

  lemma RouteKeepsInv(s: System, a: Action)
    requires Inv(s) && a.Route? && Enabled(s, a)
    ensures Inv(RoutedBy(s, a))
  {
    var id := s.core.riskOut[0];
    RouteCross(s);
    RoutedKeeps(s.core, InputOf(s, a), s.cfg.g);
    DesksCoreStep(s.core, RoutedBy(s, a).core, s.cfg.simulated, s.desks, id);
  }

  lemma RouteCross(s: System)
    requires Kept(s.core) && RestingSafe(s.resting) && s.core.riskOut != []
    ensures var id := s.core.riskOut[0];
      && s.core.orders[id].status == New
      && RestingSafe(s.resting[s.core.orders[id].ticket.instrument := CrossOf(s).book])
      && (CrossOf(s).result.Crossed? ==> CrossOf(s).result.incoming.order == id)
  {
    var id := s.core.riskOut[0];
    assert id in s.core.intake + s.core.riskOut;
    var o := s.core.orders[id];
    Crossing.CrossPositive(RestingFor(s, o.ticket.instrument), o, s.cfg.g);
  }

  // ---------------------------------------------------------------- dispatchers

  lemma TakeDesks(
      orders: OrderMap, o': OrderState, simulated: set<VenueId>, desks: map<VenueId, Desk>, v: VenueId, id: OrderId)
    requires DesksSafe(orders, simulated, desks) && v in desks && desks[v].hand.None?
    requires id in orders && orders[id].status == New && Untouched(o') && o'.venue == v
    ensures DesksSafe(orders[id := o'], simulated, desks[v := desks[v].(hand := Some(id))])
  {
    NobodysYet(orders, simulated, desks, id);
    assert DeskSafe(orders, v, v in simulated, desks[v]);
    DeskFrame(orders, orders[id := o'], v, v in simulated, desks[v], id);
    DesksUpdate(orders, orders[id := o'], simulated, desks, id, v, desks[v].(hand := Some(id)));
  }

  /** What acknowledging does to the order at the head of a dispatch channel. */
  lemma TakenOrder(c: Core, v: VenueId)
    requires Kept(c) && v in c.dispatch && c.dispatch[v] != []
    ensures var id, r := c.dispatch[v][0], Taken(c, v).orders;
      if Acknowledges(c, v) then
        id in c.orders && c.orders[id].status == New && id in r && r == c.orders[id := r[id]]
        && Untouched(r[id]) && r[id].venue == v
      else r == c.orders
  {
    var id := c.dispatch[v][0];
    assert id in c.dispatch[v] && Sound(c.orders[id]);
  }

  lemma TakeKeepsInv(s: System, v: VenueId)
    requires Inv(s) && Enabled(s, Take(v))
    ensures Inv(Took(s, v))
  {
    TakenKeeps(s.core, v);
    TakenOrder(s.core, v);
    if Acknowledges(s.core, v) {
      var id, c' := s.core.dispatch[v][0], Taken(s.core, v);
      TakeDesks(s.core.orders, c'.orders[id], s.cfg.simulated, s.desks, v, id);
      CallsGrow(s.calls, s.desks, v, s.desks[v].(hand := Some(id)));
      ReshapedDesk(s, Took(s, v), v);
    }
  }

  /** One desk and the core change, and the references stay good. */
  lemma ReshapedDesk(s: System, s': System, v: VenueId)
    requires Shaped(s) && v in s.desks && v in s'.desks && s'.cfg == s.cfg && s'.desks == s.desks[v := s'.desks[v]]
    requires Linked(s'.core) && s.core.orders.Keys <= s'.core.orders.Keys
    requires s'.core.dispatch.Keys == s.core.dispatch.Keys
    requires s'.desks[v].hand.Some? ==> s'.desks[v].hand.value in s'.core.orders
    requires forall f | f in s'.desks[v].venue.fills :: 0.0 < f.quantity
    ensures Shaped(s')
  {}

  lemma CallsGrow(calls: seq<Call>, desks: map<VenueId, Desk>, v: VenueId, d: Desk)
    requires CallsSafe(calls, desks) && v in desks && desks[v].given.Keys <= d.given.Keys
    ensures CallsSafe(calls, desks[v := d])
  {}

  /** A SubmitOrder call changes at most the status of its order, and only when the venue refuses. */
  ghost predicate SubmittedOrder(orders: OrderMap, orders': OrderMap, id: OrderId, accepted: bool) {
    && SameBut(orders, orders', id) && id in orders && id in orders'
    && orders'[id].venue == orders[id].venue && orders'[id].ticket == orders[id].ticket && orders'[id].status != New
    && (accepted ==> orders'[id] == orders[id])
  }

  lemma CalledOwns(
      orders: OrderMap, orders': OrderMap, v: VenueId, given: map<OrderId, Ticket>, id: OrderId, accepted: bool)
    requires Owns(orders, v, given) && SubmittedOrder(orders, orders', id, accepted) && orders[id].venue == v
    requires orders[id].ticket.id == id
    ensures Owns(orders', v, given[id := orders[id].ticket])
  {}

  lemma CalledFills(
      fills: seq<Fill>, given: map<OrderId, Ticket>, t: Ticket, runs: bool, venue: MatchingEngine.Venue, slipped: real)
    requires FillsGiven(fills, given) && 0.0 < t.quantity && fills == venue.fills
    ensures FillsGiven(if runs then MatchingEngine.Processed(venue, t, slipped).fills else fills, given[t.id := t])
  {}

  /** The venue of a simulated desk after the call: what it took is settled, the rest is untouched. */
  lemma CalledSettles(orders: OrderMap, orders': OrderMap, d: Desk, accepted: bool, slipped: real)
    requires MatchingEngine.Tidy(d.venue, d.given) && Settles(orders, d.venue, d.read) && d.read <= |d.venue.fills|
    requires d.hand.Some? && d.hand.value !in d.given && SubmittedOrder(orders, orders', d.hand.value, accepted)
    requires orders[d.hand.value].ticket.id == d.hand.value && Untouched(orders[d.hand.value])
    ensures var d' := Called(d, orders[d.hand.value].ticket, accepted, slipped);
      MatchingEngine.Tidy(d'.venue, d'.given) && Settles(orders', d'.venue, d'.read)
  {
    var t := orders[d.hand.value].ticket;
    SettlesFrame(orders, orders', d.venue, d.given, d.read, t.id);
    if accepted {
      MatchingEngine.ProcessedTidy(d.venue, d.given, t, slipped);
    } else {
      TidyMonotone(d.venue, d.given, t);
    }
  }

  lemma CalledSafe(
      orders: OrderMap, orders': OrderMap, v: VenueId, simulated: bool, d: Desk, accepted: bool, slipped: real)
    requires DeskSafe(orders, v, simulated, d) && d.hand.Some? && 0.0 < orders[d.hand.value].ticket.quantity
    requires orders[d.hand.value].ticket.id == d.hand.value
    requires SubmittedOrder(orders, orders', d.hand.value, accepted)
    ensures DeskSafe(orders', v, simulated, Called(d, orders[d.hand.value].ticket, accepted && simulated, slipped))
  {
    CalledOwns(orders, orders', v, d.given, d.hand.value, accepted);
    CalledFills(d.venue.fills, d.given, orders[d.hand.value].ticket, accepted && simulated, d.venue, slipped);
    if simulated {
      CalledSettles(orders, orders', d, accepted, slipped);
    }
  }

  lemma TidyMonotone(venue: MatchingEngine.Venue, given: map<OrderId, Ticket>, t: Ticket)
    requires MatchingEngine.Tidy(venue, given) && t.id !in given
    ensures MatchingEngine.Tidy(venue, given[t.id := t])
  {
    forall i | i in venue.books ensures MatchingEngine.BookTidy(i, venue.books[i], venue.fills, given[t.id := t]) {
      assert MatchingEngine.BookTidy(i, venue.books[i], venue.fills, given);
    }
  }

  lemma CallsExtend(calls: seq<Call>, desks: map<VenueId, Desk>, v: VenueId, d: Desk, o: OrderState)
    requires CallsSafe(calls, desks) && v in desks && Untouched(o)
    requires forall u | u in desks :: o.ticket.id !in desks[u].given
    requires desks[v].given.Keys <= d.given.Keys && o.ticket.id in d.given
    ensures CallsSafe(calls + [Call(v, o)], desks[v := d])
  {
    CallsGrow(calls, desks, v, d);
  }

  lemma CalledDesks(
      orders: OrderMap, orders': OrderMap, simulated: set<VenueId>,
      desks: map<VenueId, Desk>, v: VenueId, accepted: bool, slipped: real)
    requires DesksSafe(orders, simulated, desks) && v in desks && desks[v].hand.Some? && desks[v].hand.value in orders
    requires 0.0 < orders[desks[v].hand.value].ticket.quantity
    requires orders[desks[v].hand.value].ticket.id == desks[v].hand.value
    requires SubmittedOrder(orders, orders', desks[v].hand.value, accepted)
    ensures var t := orders[desks[v].hand.value].ticket;
      && DesksSafe(orders', simulated, desks[v := Called(desks[v], t, accepted && v in simulated, slipped)])
      && (forall u | u in desks :: t.id !in desks[u].given)
      && Untouched(orders[t.id])
      && (forall f | f in Called(desks[v], t, accepted && v in simulated, slipped).venue.fills :: 0.0 < f.quantity)
  {
    var id := desks[v].hand.value;
    assert DeskSafe(orders, v, v in simulated, desks[v]);
    NobodyElses(orders, simulated, desks, id, v);
    CalledSafe(orders, orders', v, v in simulated, desks[v], accepted, slipped);
    DesksUpdate(orders, orders', simulated, desks, id, v,
                Called(desks[v], orders[id].ticket, accepted && v in simulated, slipped));
  }

  lemma {:induction false} SubmitOrderKeepsInv(s: System, v: VenueId, accepted: bool, slipped: real)
    requires Inv(s) && Enabled(s, SubmitOrder(v, accepted, slipped))
    ensures Inv(SubmittedTo(s, v, accepted, slipped))
  {
    var id := s.desks[v].hand.value;
    var o := s.core.orders[id];
    var c' := if accepted then s.core else Declined(s.core, id);
    var d := Called(s.desks[v], o.ticket, accepted && v in s.cfg.simulated, slipped);
    HandPastRouter(s, v);
    if !accepted {
      DeclinedKeeps(s.core, id);
    }
    CalledDesks(s.core.orders, c'.orders, s.cfg.simulated, s.desks, v, accepted, slipped);
    CallsExtend(s.calls, s.desks, v, d, o);
    ReshapedDesk(s, SubmittedTo(s, v, accepted, slipped), v);
  }

  lemma HandPastRouter(s: System, v: VenueId)
    requires Inv(s) && v in s.desks && s.desks[v].hand.Some?
    ensures var id := s.desks[v].hand.value;
      id in s.core.orders && id !in s.core.intake + s.core.riskOut && s.core.orders[id].ticket.id == id
      && Sound(s.core.orders[id])
  {
    assert DeskSafe(s.core.orders, v, v in s.cfg.simulated, s.desks[v]);
  }

  // ---------------------------------------------------------------- venues

  lemma VenueStep(s: System, v: VenueId, venue: MatchingEngine.Venue)
    requires Inv(s) && v in s.desks
    requires DeskSafe(s.core.orders, v, v in s.cfg.simulated, s.desks[v].(venue := venue))
    ensures Inv(AtVenue(s, v, venue))
  {
    CallsGrow(s.calls, s.desks, v, s.desks[v].(venue := venue));
  }

  lemma EmitKeepsInv(s: System, v: VenueId, f: Fill)
    requires Inv(s) && Enabled(s, Emit(v, f))
    ensures Inv(Do(s, Emit(v, f)))
  {
    assert DeskSafe(s.core.orders, v, v in s.cfg.simulated, s.desks[v]);
    VenueStep(s, v, s.desks[v].venue.(fills := s.desks[v].venue.fills + [f]));
  }

  lemma SweptSafe(orders: OrderMap, v: VenueId, d: Desk, i: Instrument, price: real)
    requires DeskSafe(orders, v, true, d) && forall id | id in orders :: 0.0 < orders[id].ticket.quantity
    ensures DeskSafe(orders, v, true, d.(venue := MatchingEngine.Swept(d.venue, i, price)))
  {
    MatchingEngine.SweptTidy(d.venue, d.given, i, price);
    if i in d.venue.books {
      var book := d.venue.books[i];
      assert MatchingEngine.BookTidy(i, book, d.venue.fills, d.given);
      MatchingEngine.SweepSplits(book, price);
      forall f | f in MatchingEngine.SweepFills(book, price)
        ensures f.order in d.given && 0.0 < f.quantity && f.order in orders && Untouched(orders[f.order])
      {
        assert MatchingEngine.FillOf(book, price, f);
        var t :| t in book && f == Fill(t.id, t.quantity, t.price);
      }
    }
  }

  lemma WithdrawnSafe(orders: OrderMap, v: VenueId, d: Desk, id: OrderId)
    requires DeskSafe(orders, v, true, d)
    ensures DeskSafe(orders, v, true, d.(venue := MatchingEngine.Withdrawn(d.venue, id)))
  {
    MatchingEngine.WithdrawnTidy(d.venue, d.given, id);
    forall i, t | i in d.venue.books && t in MatchingEngine.WithoutOrder(d.venue.books[i], id)
      ensures t in d.venue.books[i]
    {
      assert MatchingEngine.BookTidy(i, d.venue.books[i], d.venue.fills, d.given);
      MatchingEngine.WithoutParts(d.venue.books[i], id);
    }
  }

  lemma {:induction false} EngineStepKeepsInv(s: System, v: VenueId, a: Action)
    requires Inv(s) && Enabled(s, a) && ((a.Sweep? && a.venue == v) || (a.Withdraw? && a.venue == v))
    ensures Inv(Do(s, a))
  {
    assert DeskSafe(s.core.orders, v, v in s.cfg.simulated, s.desks[v]);
    if a.Sweep? {
      SweptSafe(s.core.orders, v, s.desks[v], a.instrument, a.price);
      VenueStep(s, v, MatchingEngine.Swept(s.desks[v].venue, a.instrument, a.price));
    } else {
      WithdrawnSafe(s.core.orders, v, s.desks[v], a.id);
      VenueStep(s, v, MatchingEngine.Withdrawn(s.desks[v].venue, a.id));
    }
  }

  // ---------------------------------------------------------------- collectors

  /** The next fill of a simulated venue meets an order it fills in one go. */
  lemma NextFillUntouched(orders: OrderMap, v: VenueId, d: Desk)
    requires DeskSafe(orders, v, true, d) && d.read < |d.venue.fills|
    ensures var f := NextFill(d);
      f.order in orders && Untouched(orders[f.order]) && f.quantity == orders[f.order].ticket.quantity
  {
    assert NextFill(d) in d.venue.fills;
  }

  lemma CollectedSafe(orders: OrderMap, o': OrderState, v: VenueId, simulated: bool, d: Desk)
    requires DeskSafe(orders, v, simulated, d) && d.read < |d.venue.fills|
    requires NextFill(d).order in orders && o'.ticket == orders[NextFill(d).order].ticket && o'.venue == v
    requires o'.status != New
    requires simulated ==> o'.status == Filled && o'.fills == [NextFill(d)]
    ensures DeskSafe(orders[NextFill(d).order := o'], v, simulated, d.(read := d.read + 1))
  {
    var f := NextFill(d);
    assert f in d.venue.fills;
    if simulated {
      forall i, t | i in d.venue.books && t in d.venue.books[i] ensures t.id != f.order {
        assert MatchingEngine.BookTidy(i, d.venue.books[i], d.venue.fills, d.given);
      }
    }
  }

  lemma CollectedDesks(
      orders: OrderMap, orders': OrderMap, simulated: set<VenueId>, desks: map<VenueId, Desk>, v: VenueId)
    requires DesksSafe(orders, simulated, desks) && v in desks && desks[v].read < |desks[v].venue.fills|
    requires FillApplied(orders, orders', NextFill(desks[v]))
    ensures DesksSafe(orders', simulated, desks[v := desks[v].(read := desks[v].read + 1)])
  {
    var d, id := desks[v], NextFill(desks[v]).order;
    assert DeskSafe(orders, v, v in simulated, d) && NextFill(d) in d.venue.fills;
    if v in simulated {
      NextFillUntouched(orders, v, d);
    }
    CollectedSafe(orders, orders'[id], v, v in simulated, d);
    NobodyElses(orders, simulated, desks, id, v);
    DesksUpdate(orders, orders', simulated, desks, id, v, d.(read := d.read + 1));
  }

  /** What a fill leaves of the order map it is applied to. */
  ghost predicate FillApplied(orders: OrderMap, orders': OrderMap, f: Fill) {
    && f.order in orders && f.order in orders' && orders' == orders[f.order := orders'[f.order]]
    && var o, o' := orders[f.order], orders'[f.order];
    && o'.ticket == o.ticket && o'.venue == o.venue && o'.status != New
    && (Untouched(o) && f.quantity == o.ticket.quantity ==> o'.status == Filled && o'.fills == [f])
  }

  lemma ProcessedApplies(c: Core, f: Fill, g: Grid)
    requires Kept(c) && 0.0 < f.quantity && f.order in c.orders && c.orders[f.order].status != New
    ensures Kept(PipelineCore.Processed(c, f, g)) && FillApplied(c.orders, PipelineCore.Processed(c, f, g).orders, f)
  {
    ProcessedKeeps(c, f, g);
    if Fillability(c.orders[f.order], f).Pass? {
      OrderMoves(c.orders[f.order], f, g);
      FillKeepsSound(c.orders[f.order], f, g);
    }
  }

  /** The core after a fill is collected, whatever that fill did to positions. */
  lemma CollectedCore(s: System, v: VenueId) returns (c: Core)
    requires Inv(s) && Enabled(s, Collect(v))
    ensures Collected(s, v) == AfterCollect(s, v, c)
    ensures Kept(c) && c.dispatch.Keys == s.core.dispatch.Keys
    ensures FillApplied(s.core.orders, c.orders, NextFill(s.desks[v]))
  {
    NextFillOwned(s, v);
    ProcessedKeeps(s.core, NextFill(s.desks[v]), s.cfg.g);
    ProcessedApplies(s.core, NextFill(s.desks[v]), s.cfg.g);
    c := Collected(s, v).core;
  }

  function AfterCollect(s: System, v: VenueId, c: Core): System
    requires v in s.desks
  {
    s.(core := c, desks := s.desks[v := s.desks[v].(read := s.desks[v].read + 1)])
  }

  lemma AfterCollectShaped(s: System, v: VenueId, c: Core)
    requires Shaped(s) && v in s.desks && Linked(c) && c.dispatch.Keys == s.core.dispatch.Keys
    requires s.core.orders.Keys <= c.orders.Keys
    ensures Shaped(AfterCollect(s, v, c))
  {
    ReshapedDesk(s, AfterCollect(s, v, c), v);
  }

  lemma ReadDesks(
      orders: OrderMap, orders': OrderMap, simulated: set<VenueId>,
      desks: map<VenueId, Desk>, calls: seq<Call>, v: VenueId)
    requires DesksSafe(orders, simulated, desks) && CallsSafe(calls, desks)
    requires v in desks && desks[v].read < |desks[v].venue.fills| && FillApplied(orders, orders', NextFill(desks[v]))
    ensures var desks' := desks[v := desks[v].(read := desks[v].read + 1)];
      DesksSafe(orders', simulated, desks') && CallsSafe(calls, desks')
  {
    CallsGrow(calls, desks, v, desks[v].(read := desks[v].read + 1));
    CollectedDesks(orders, orders', simulated, desks, v);
  }

  lemma AfterCollectDesks(s: System, v: VenueId, c: Core)
    requires DesksSafe(s.core.orders, s.cfg.simulated, s.desks) && CallsSafe(s.calls, s.desks)
    requires v in s.desks && s.desks[v].read < |s.desks[v].venue.fills|
    requires FillApplied(s.core.orders, c.orders, NextFill(s.desks[v]))
    ensures DesksSafe(c.orders, s.cfg.simulated, AfterCollect(s, v, c).desks)
    ensures CallsSafe(s.calls, AfterCollect(s, v, c).desks)
  {
    ReadDesks(s.core.orders, c.orders, s.cfg.simulated, s.desks, s.calls, v);
  }

  lemma AfterCollectInv(s: System, v: VenueId, c: Core)
    requires Inv(s) && v in s.desks && s.desks[v].read < |s.desks[v].venue.fills|
    requires Kept(c) && c.dispatch.Keys == s.core.dispatch.Keys
    requires FillApplied(s.core.orders, c.orders, NextFill(s.desks[v]))
    ensures Inv(AfterCollect(s, v, c))
  {
    AfterCollectShaped(s, v, c);
    AfterCollectDesks(s, v, c);
  }

  lemma {:induction false} CollectKeepsInv(s: System, v: VenueId)
    requires Inv(s) && Enabled(s, Collect(v))
    ensures Inv(Collected(s, v))
  {
    var c := CollectedCore(s, v);
    AfterCollectInv(s, v, c);
  }

  lemma NextFillOwned(s: System, v: VenueId)
    requires Inv(s) && Enabled(s, Collect(v))
    ensures var f := NextFill(s.desks[v]);
      && 0.0 < f.quantity && f.order in s.core.orders && s.core.orders[f.order].status != New
      && s.core.orders[f.order].venue == v && s.core.orders[f.order].ticket.id == f.order
  {
    assert DeskSafe(s.core.orders, v, v in s.cfg.simulated, s.desks[v]);
    assert NextFill(s.desks[v]) in s.desks[v].venue.fills;
  }

  // ---------------------------------------------------------------- every run

  lemma RestKeepsInv(s: System, o: OrderState)
    requires Inv(s) && Enabled(s, Rest(o))
    ensures Inv(Do(s, Rest(o)))
  {
    var i := o.ticket.instrument;
    assert RestingSafe(s.resting[i := RestingFor(s, i) + [o]]);
  }

  lemma {:induction false} StepKeepsInv(s: System, a: Action)
    requires Inv(s) && Enabled(s, a)
    ensures Inv(Do(s, a))
  {
    match a
    case Submit(t, preferred) => SubmitKeepsInv(s, t, preferred);
    case Rest(o) => RestKeepsInv(s, o);
    case Decide(i, risk) => DecideKeepsInv(s, i, risk);
    case Route(_, _, _, _) => RouteKeepsInv(s, a);
    case Take(v) => TakeKeepsInv(s, v);
    case SubmitOrder(v, accepted, slipped) => SubmitOrderKeepsInv(s, v, accepted, slipped);
    case Emit(v, f) => EmitKeepsInv(s, v, f);
    case Sweep(v, _, _) => EngineStepKeepsInv(s, v, a);
    case Withdraw(v, _) => EngineStepKeepsInv(s, v, a);
    case Collect(v) => CollectKeepsInv(s, v);
  }

  lemma StepKeepsConfig(s: System, a: Action)
    requires Enabled(s, a)
    ensures Do(s, a).cfg == s.cfg
  {}

  lemma StartKept(venues: set<VenueId>)
    ensures Kept(PipelineCore.Start(venues))
  {
    var c := PipelineCore.Start(venues);
    forall i: Instrument ensures Total(HeldBy(c.positions, i)) == Total(FilledBy(c.orders, i)) {
      assert HeldBy(c.positions, i) == map[] && FilledBy(c.orders, i) == map[];
    }
  }

  lemma StartDesk(cfg: Config, v: VenueId)
    ensures DeskSafe(map[], v, v in cfg.simulated, Opening(cfg, v)) && FeedPositive(Opening(cfg, v))
  {}

  lemma StartInv(cfg: Config)
    ensures Inv(PipelineMachine.Start(cfg))
  {
    StartKept(cfg.venues);
    forall v | v in cfg.venues
      ensures DeskSafe(map[], v, v in cfg.simulated, Opening(cfg, v)) && FeedPositive(Opening(cfg, v))
    {
      StartDesk(cfg, v);
    }
  }

  lemma {:induction false} Reachable(cfg: Config, actions: seq<Action>)
    ensures Inv(Run(cfg, actions)) && Run(cfg, actions).cfg == cfg
  {
    if actions == [] {
      StartInv(cfg);
    } else {
      var n := |actions| - 1;
      Reachable(cfg, actions[..n]);
      var s := Run(cfg, actions[..n]);
      if Enabled(s, actions[n]) {
        StepKeepsInv(s, actions[n]);
        StepKeepsConfig(s, actions[n]);
      }
    }
  }

  // ---------------------------------------------------------------- the results

  /** In every reachable state, whatever the venues answer: for each instrument the positions over
      all venues add up to the signed filled quantities of all orders; each order has filled exactly
      the sum of its fills and never more than its quantity; and the store mirrors memory. */
  lemma {:induction false} PositionsAccountForOrders(cfg: Config, actions: seq<Action>)
    ensures var c := Run(cfg, actions).core;
      && (forall i: Instrument :: Total(HeldBy(c.positions, i)) == Total(FilledBy(c.orders, i)))
      && (forall id | id in c.orders ::
           var o := c.orders[id];
           0.0 <= o.filled == QuantityOf(o.fills) <= o.ticket.quantity
           && (o.status == Filled <==> o.filled == o.ticket.quantity))
      && c.stored == c.orders
      && (forall id | id in c.orders :: id in c.inFlight <==> c.orders[id].status != Filled)
  {
    Reachable(cfg, actions);
  }

  /** Over every run no order is submitted to venues twice, and each is Acknowledged with nothing
      filled when it is submitted. */
  lemma SubmittedAtMostOnce(cfg: Config, actions: seq<Action>)
    ensures var calls := Run(cfg, actions).calls;
      && (forall j, k | 0 <= j < k < |calls| :: calls[j].order.ticket.id != calls[k].order.ticket.id)
      && (forall k | 0 <= k < |calls| :: calls[k].order.status == Acknowledged && calls[k].order.fills == [])
  {
    Reachable(cfg, actions);
  }

  /** Over every run a simulated venue emits at most one fill per order, of its full quantity; a fill
      the collector has taken is the one fill of its order, and a fill still in the channel is for an
      acknowledged order with nothing filled and will be accepted. */
  lemma {:induction false} SimulatedVenueFillsOnce(cfg: Config, actions: seq<Action>, v: VenueId)
    requires v in cfg.venues && v in cfg.simulated
    ensures var s := Run(cfg, actions);
      && v in s.desks
      && var d, orders := s.desks[v], s.core.orders;
      && d.read <= |d.venue.fills|
      && (forall j, k | 0 <= j < k < |d.venue.fills| :: d.venue.fills[j].order != d.venue.fills[k].order)
      && (forall k | 0 <= k < |d.venue.fills| ::
           var f := d.venue.fills[k];
           && f.order in orders
           && f.quantity == orders[f.order].ticket.quantity
           && if k < d.read then orders[f.order].fills == [f] && orders[f.order].status == Filled
              else
                && orders[f.order].status == Acknowledged && f.order in s.core.inFlight
                && Fillability(orders[f.order], f) == Pass)
  {
    Reachable(cfg, actions);
    var s := Run(cfg, actions);
    var d := s.desks[v];
    assert DeskSafe(s.core.orders, v, v in s.cfg.simulated, d);
    forall k | 0 <= k < |d.venue.fills|
      ensures d.venue.fills[k].order in d.given && Sound(s.core.orders[d.venue.fills[k].order])
      ensures d.venue.fills[k].quantity == s.core.orders[d.venue.fills[k].order].ticket.quantity
    {
      assert d.venue.fills[k] in d.venue.fills;
    }
  }
}
