/** What every stage of the pipeline keeps: stored rows mirror the orders, the order map holds exactly
    the orders that are not filled, and positions account for every filled quantity. */
module PipelineLedger {
  import opened Routing
  import opened Wrappers
  import opened Decimals
  import opened Totals
  import opened Orders
  import opened OrderVwap
  import opened Positions
  import opened PipelineCore
  import Crossing

  // ---------------------------------------------------------------- the two sides of the ledger

  function SignedFilled(o: OrderState, i: Instrument): real {
    if o.ticket.instrument == i then Signed(o.ticket.side, o.filled) else 0.0
  }

  ghost function FilledBy(orders: map<OrderId, OrderState>, i: Instrument): map<OrderId, real> {
    map id | id in orders :: SignedFilled(orders[id], i)
  }

  function HeldAt(k: PositionKey, p: PositionState, i: Instrument): real {
    if k.instrument == i then p.quantity else 0.0
  }

  ghost function HeldBy(positions: map<PositionKey, PositionState>, i: Instrument): map<PositionKey, real> {
    map k | k in positions :: HeldAt(k, positions[k], i)
  }

  /** For every instrument, positions over all venues add up to the signed filled quantities. */
  ghost predicate Balanced(positions: map<PositionKey, PositionState>, orders: map<OrderId, OrderState>) {
    forall i: Instrument :: Total(HeldBy(positions, i)) == Total(FilledBy(orders, i))
  }

  ghost predicate Conserved(c: Core) {
    Balanced(c.positions, c.orders)
  }

  lemma FilledAfterUpdate(orders: map<OrderId, OrderState>, o: OrderState, i: Instrument)
    ensures Total(FilledBy(orders[o.ticket.id := o], i))
         == Total(FilledBy(orders, i)) - At(FilledBy(orders, i), o.ticket.id) + SignedFilled(o, i)
  {
    TotalUpdate(FilledBy(orders, i), o.ticket.id, SignedFilled(o, i));
    assert FilledBy(orders[o.ticket.id := o], i) == FilledBy(orders, i)[o.ticket.id := SignedFilled(o, i)];
  }

  lemma HeldAfterUpdate(positions: map<PositionKey, PositionState>, k: PositionKey, p: PositionState, i: Instrument)
    ensures Total(HeldBy(positions[k := p], i))
         == Total(HeldBy(positions, i)) - At(HeldBy(positions, i), k) + HeldAt(k, p, i)
  {
    TotalUpdate(HeldBy(positions, i), k, HeldAt(k, p, i));
    assert HeldBy(positions[k := p], i) == HeldBy(positions, i)[k := HeldAt(k, p, i)];
  }

  // ---------------------------------------------------------------- what is kept

  ghost predicate HoldsUnfilled(inFlight: set<OrderId>, orders: map<OrderId, OrderState>) {
    forall id | id in orders :: id in inFlight <==> orders[id].status != Filled
  }

  ghost predicate Mirrored(c: Core) {
    c.stored == c.orders && HoldsUnfilled(c.inFlight, c.orders)
  }

  /** A New order waits at most at the venue it is assigned to, and past the router only. */
  ghost predicate QueuedPast(
      dispatch: map<VenueId, seq<OrderId>>,
      orders: map<OrderId, OrderState>, intake: seq<OrderId>, riskOut: seq<OrderId>) {
    forall v, id | v in dispatch && id in dispatch[v] ::
      && id in orders && id !in intake && id !in riskOut
      && (orders[id].status == New ==> orders[id].venue == v)
  }

  ghost predicate Queued(c: Core) {
    QueuedPast(c.dispatch, c.orders, c.intake, c.riskOut)
  }

  ghost predicate WaitingNew(lines: seq<OrderId>, orders: map<OrderId, OrderState>) {
    && (forall id | id in lines :: id in orders && orders[id].status == New)
    && NoneTwice(lines)
  }

  ghost predicate Waiting(c: Core) {
    WaitingNew(c.intake + c.riskOut, c.orders)
  }

  ghost predicate Kept(c: Core) {
    Linked(c) && Mirrored(c) && Conserved(c) && Queued(c) && Waiting(c)
  }

  /** A step that may change one order and make new ones, and leaves every other order alone. */
  ghost predicate OnlyTouches(c: Core, r: Core, id: OrderId) {
    && c.orders.Keys <= r.orders.Keys
    && (forall j | j in c.orders && j != id :: r.orders[j] == c.orders[j])
    && r.dispatch.Keys == c.dispatch.Keys
  }

  /** The same for the waiting lines before the router. */
  ghost predicate SameLines(c: Core, r: Core) {
    r.intake == c.intake && r.riskOut == c.riskOut
  }

  // ---------------------------------------------------------------- single changes

  /** Changing an order without filling it, past the waiting lines. */
  lemma SavedKeeps(c: Core, o: OrderState)
    requires Kept(c) && Sound(o) && o.ticket.id in c.orders
    requires o.ticket == c.orders[o.ticket.id].ticket && o.filled == c.orders[o.ticket.id].filled
    requires o.status == Filled <==> c.orders[o.ticket.id].status == Filled
    requires o.ticket.id !in c.intake + c.riskOut
    requires o.status == New ==> forall v | v in c.dispatch && o.ticket.id in c.dispatch[v] :: o.venue == v
    ensures Kept(Saved(c, o)) && OnlyTouches(c, Saved(c, o), o.ticket.id) && SameLines(c, Saved(c, o))
  {
    forall i: Instrument
      ensures Total(HeldBy(Saved(c, o).positions, i)) == Total(FilledBy(Saved(c, o).orders, i))
    {
      FilledAfterUpdate(c.orders, o, i);
    }
  }

  lemma DeclinedKeeps(c: Core, id: OrderId)
    requires Kept(c) && id in c.orders && id !in c.intake + c.riskOut
    ensures Kept(Declined(c, id)) && OnlyTouches(c, Declined(c, id), id) && SameLines(c, Declined(c, id))
    ensures Declined(c, id).orders[id].status != New
  {
    TransitionKeepsSound(c.orders[id], Rejected);
    SavedKeeps(c, Transition(c.orders[id], Rejected));
  }

  /** An order that waits nowhere. */
  ghost predicate InTransit(c: Core, id: OrderId) {
    && id in c.orders && id !in c.intake + c.riskOut
    && (c.orders[id].status == New ==> forall v | v in c.dispatch :: id !in c.dispatch[v])
  }

  lemma DispatchedKeeps(c: Core, id: OrderId, venue: VenueId, ready: set<VenueId>)
    requires Kept(c) && InTransit(c, id) && c.orders[id].venue == venue
    ensures Kept(Dispatched(c, id, venue, ready)) && OnlyTouches(c, Dispatched(c, id, venue, ready), id)
    ensures SameLines(c, Dispatched(c, id, venue, ready))
  {
    if venue !in ready {
      DeclinedKeeps(c, id);
    }
  }

  lemma AssignedKeeps(c: Core, id: OrderId, venue: VenueId)
    requires Kept(c) && InTransit(c, id)
    ensures var r := Assigned(c, id, venue);
      Kept(r) && OnlyTouches(c, r, id) && SameLines(c, r) && InTransit(r, id) && r.orders[id].venue == venue
  {
    SavedKeeps(c, c.orders[id].(venue := venue));
  }

  lemma RoutedLegacyKeeps(c: Core, id: OrderId, any: VenueId, ready: set<VenueId>)
    requires Kept(c) && InTransit(c, id)
    ensures var r := RoutedLegacy(c, id, any, ready); Kept(r) && OnlyTouches(c, r, id) && SameLines(c, r)
  {
    var venue := LegacyVenue(c.orders[id].ticket.assetClass, c.dispatch.Keys, any);
    if venue == "" {
      DeclinedKeeps(c, id);
    } else {
      AssignedKeeps(c, id, venue);
      DispatchedKeeps(Assigned(c, id, venue), id, venue, ready);
    }
  }

  // ---------------------------------------------------------------- fills

  function Held(positions: map<PositionKey, PositionState>, k: PositionKey): real {
    if k in positions then positions[k].quantity else 0.0
  }

  lemma PositionMoves(c: Core, o: OrderState, f: Fill, g: Grid)
    requires 0.0 < f.quantity
    ensures PositionAfter(c.positions, o, f, g).quantity
         == Held(c.positions, PositionKey(o.ticket.instrument, o.venue)) + Signed(o.ticket.side, f.quantity)
  {}

  lemma OrderMoves(o: OrderState, f: Fill, g: Grid)
    requires 0.0 <= o.filled && 0.0 < f.quantity && Fillability(o, f).Pass?
    ensures var r := AfterFill(o, f, g);
      r.ticket == o.ticket && r.venue == o.venue && r.filled == o.filled + f.quantity
      && r.status in {PartiallyFilled, Filled}
  {}

  /** Both sides of the ledger move by the signed quantity of the fill. */
  lemma UpdateBalances(c: Core, o': OrderState, k: PositionKey, p': PositionState, moved: real, i: Instrument)
    requires o'.ticket.id in c.orders && c.orders[o'.ticket.id].ticket == o'.ticket
    requires k.instrument == o'.ticket.instrument
    requires Signed(o'.ticket.side, o'.filled) == Signed(o'.ticket.side, c.orders[o'.ticket.id].filled) + moved
    requires p'.quantity == Held(c.positions, k) + moved
    requires Total(HeldBy(c.positions, i)) == Total(FilledBy(c.orders, i))
    ensures Total(HeldBy(c.positions[k := p'], i)) == Total(FilledBy(c.orders[o'.ticket.id := o'], i))
  {
    FilledAfterUpdate(c.orders, o', i);
    HeldAfterUpdate(c.positions, k, p', i);
  }

  lemma ProcessedConserves(c: Core, f: Fill, g: Grid)
    requires Linked(c) && Conserved(c) && 0.0 < f.quantity
    ensures Conserved(Processed(c, f, g))
  {
    if f.order in c.inFlight && Fillability(c.orders[f.order], f).Pass? {
      var o := c.orders[f.order];
      var o' := AfterFill(o, f, g);
      var p' := PositionAfter(c.positions, o, f, g);
      PositionMoves(c, o, f, g);
      OrderMoves(o, f, g);
      forall i: Instrument
        ensures Total(HeldBy(Processed(c, f, g).positions, i)) == Total(FilledBy(Processed(c, f, g).orders, i))
      {
        UpdateBalances(c, o', PositionKey(o.ticket.instrument, o.venue), p', Signed(o.ticket.side, f.quantity), i);
      }
    }
  }

  /** A fill concerns an order past the router, so no waiting line changes. */
  lemma FilledOrderKeeps(c: Core, o': OrderState, r: Core)
    requires Kept(c) && Sound(o') && o'.ticket.id in c.inFlight
    requires c.orders[o'.ticket.id].status != New && o'.venue == c.orders[o'.ticket.id].venue
    requires o'.status in {PartiallyFilled, Filled}
    requires r == Saved(c, o').(
      positions := r.positions, inFlight := if o'.status == Filled then c.inFlight - {o'.ticket.id} else c.inFlight)
    requires Conserved(r)
    ensures Kept(r) && OnlyTouches(c, r, o'.ticket.id) && SameLines(c, r)
  {}

  lemma {:induction false} ProcessedKeeps(c: Core, f: Fill, g: Grid)
    requires Kept(c) && 0.0 < f.quantity
    ensures var r := Processed(c, f, g); Kept(r) && OnlyTouches(c, r, f.order) && SameLines(c, r)
    ensures f.order in c.orders ==> Processed(c, f, g).orders[f.order].venue == c.orders[f.order].venue
  {
    if f.order in c.inFlight && Fillability(c.orders[f.order], f).Pass? {
      ProcessedConserves(c, f, g);
      FillKeepsSound(c.orders[f.order], f, g);
      OrderMoves(c.orders[f.order], f, g);
      FilledOrderKeeps(c, AfterFill(c.orders[f.order], f, g), Processed(c, f, g));
    }
  }

  lemma CrossedInternallyKeeps(c: Core, id: OrderId, f: Fill, g: Grid)
    requires Kept(c) && InTransit(c, id) && c.orders[id].status == New && 0.0 < f.quantity && f.order == id
    ensures var r := CrossedInternally(c, id, f, g);
      Kept(r) && OnlyTouches(c, r, id) && SameLines(c, r) && InTransit(r, id)
  {
    var o := c.orders[id].(filled := 0.0, venue := INTERNAL);
    var acked := Transition(o, Acknowledged);
    SavedKeeps(c, acked);
    ProcessedKeeps(Saved(c, acked), f, g);
  }

  // ---------------------------------------------------------------- child orders

  lemma RegisteredKeeps(c: Core, o: OrderState)
    requires Kept(c) && o.ticket.id !in c.orders && Sound(o) && o == NewOrder(o.ticket, o.venue)
    ensures var r := Registered(c, o);
      Kept(r) && OnlyTouches(c, r, o.ticket.id) && SameLines(c, r) && InTransit(r, o.ticket.id)
  {
    forall i: Instrument
      ensures Total(HeldBy(Registered(c, o).positions, i)) == Total(FilledBy(Registered(c, o).orders, i))
    {
      FilledAfterUpdate(c.orders, o, i);
    }
  }

  lemma WithChildKeeps(c: Core, o: OrderState, ready: set<VenueId>)
    requires Kept(c) && o.ticket.id !in c.orders && Sound(o) && o == NewOrder(o.ticket, o.venue)
    ensures var r := WithChild(c, o, ready);
      Kept(r) && OnlyTouches(c, r, o.ticket.id) && SameLines(c, r)
      && r.orders.Keys == c.orders.Keys + {o.ticket.id}
  {
    RegisteredKeeps(c, o);
    DispatchedKeeps(Registered(c, o), o.ticket.id, o.venue, ready);
  }

  lemma {:induction false} SplitKeeps(
      c: Core, parent: Ticket, allocations: seq<Allocation>, ids: seq<OrderId>, ready: set<VenueId>, id: OrderId)
    requires Kept(c) && PositiveAllocations(allocations) && |ids| == |allocations| && FreshIds(c, ids)
    requires id in c.orders
    ensures var r := Split(c, parent, allocations, ids, ready);
      Kept(r) && OnlyTouches(c, r, id) && SameLines(c, r) && r.orders[id] == c.orders[id]
    decreases |allocations|
  {
    if allocations != [] {
      var child := Child(parent, allocations[0], ids[0]);
      WithChildKeeps(c, child, ready);
      SplitKeeps(WithChild(c, child, ready), parent, allocations[1..], ids[1..], ready, id);
    }
  }

  // ---------------------------------------------------------------- whole stages

  lemma RoutedOutKeeps(c: Core, id: OrderId, answer: RouterAnswer, ids: seq<OrderId>, any: VenueId, ready: set<VenueId>)
    requires Kept(c) && InTransit(c, id)
    requires answer.Allocations? ==>
      PositiveAllocations(answer.allocations) && |ids| == |answer.allocations| && FreshIds(c, ids)
    ensures var r := RoutedOut(c, id, answer, ids, any, ready); Kept(r) && OnlyTouches(c, r, id) && SameLines(c, r)
  {
    if c.dispatch == map[] {
      DeclinedKeeps(c, id);
    } else if answer.RouterError? {
      RoutedLegacyKeeps(c, id, any, ready);
    } else if |answer.allocations| == 1 {
      var venue := answer.allocations[0].venue;
      AssignedKeeps(c, id, venue);
      DispatchedKeeps(Assigned(c, id, venue), id, venue, ready);
    } else {
      SplitKeeps(c, c.orders[id].ticket, answer.allocations, ids, ready, id);
    }
  }

  lemma RoutedKeeps(c: Core, input: RouteInput, g: Grid)
    requires Kept(c) && Routable(c, input)
    requires input.cross.Crossed? ==> input.cross.incoming.order == c.riskOut[0]
    ensures var r := Routed(c, input, g);
      Kept(r) && OnlyTouches(c, r, c.riskOut[0]) && r.intake == c.intake && r.riskOut == c.riskOut[1..]
  {
    var id := c.riskOut[0];
    var c0 := c.(riskOut := c.riskOut[1..]);
    PopRiskOut(c);
    if !input.smart {
      RoutedLegacyKeeps(c0, id, input.any, input.ready);
    } else if input.cross.NotCrossed? {
      RoutedOutKeeps(c0, id, input.answer, input.ids, input.any, input.ready);
    } else {
      CrossedInternallyKeeps(c0, id, input.cross.incoming, g);
      var c1 := CrossedInternally(c0, id, input.cross.incoming, g);
      if input.cross.residual != None {
        RoutedOutKeeps(c1, id, input.answer, input.ids, input.any, input.ready);
      }
    }
  }

  lemma PopRiskOut(c: Core)
    requires Kept(c) && c.riskOut != []
    ensures Kept(c.(riskOut := c.riskOut[1..])) && InTransit(c.(riskOut := c.riskOut[1..]), c.riskOut[0])
  {
    var all := c.intake + c.riskOut;
    NoneTwiceRemove(all, [], |c.intake|);
    assert all + [] == all && all[|c.intake|] == c.riskOut[0];
    assert Crossing.Without(all, |c.intake|) + [] == c.intake + c.riskOut[1..];
  }

  ghost predicate NoneTwice(ids: seq<OrderId>) {
    forall j, k | 0 <= j < k < |ids| :: ids[j] != ids[k]
  }

  lemma NoneTwiceInsert(xs: seq<OrderId>, ys: seq<OrderId>, id: OrderId)
    requires NoneTwice(xs + ys) && id !in xs + ys
    ensures NoneTwice(xs + [id] + ys) && NoneTwice(xs + ys + [id])
  {
    var all, more := xs + ys, xs + [id] + ys;
    assert forall k | 0 <= k < |more| && k != |xs| :: more[k] == all[if k < |xs| then k else k - 1];
  }

  lemma NoneTwiceRemove(xs: seq<OrderId>, ys: seq<OrderId>, i: nat)
    requires NoneTwice(xs + ys) && i < |xs|
    ensures NoneTwice(Crossing.Without(xs, i) + ys) && xs[i] !in Crossing.Without(xs, i) + ys
  {
    var all, fewer := xs + ys, Crossing.Without(xs, i) + ys;
    assert forall k | 0 <= k < |fewer| :: fewer[k] == all[if k < i then k else k + 1];
    assert all[i] == xs[i];
  }

  lemma SubmitKeeps(c: Core, t: Ticket, venue: VenueId)
    requires Kept(c) && t.id !in c.orders
    ensures Kept(Submit(c, t, venue)) && OnlyTouches(c, Submit(c, t, venue), t.id)
  {
    if 0.0 < t.quantity && t.instrument != "" {
      RegisteredKeeps(c, NewOrder(t, venue));
      NoneTwiceInsert(c.intake, c.riskOut, t.id);
    }
  }

  lemma {:induction false} DecideKeeps(c: Core, i: nat, a: RiskAnswer, failOpen: bool)
    requires Kept(c) && i < |c.intake|
    ensures Kept(Decide(c, i, a, failOpen)) && OnlyTouches(c, Decide(c, i, a, failOpen), c.intake[i])
  {
    var id := c.intake[i];
    var rest := c.(intake := Crossing.Without(c.intake, i));
    NoneTwiceRemove(c.intake, c.riskOut, i);
    assert Kept(rest);
    if Approves(a, failOpen) {
      NoneTwiceInsert(rest.intake, rest.riskOut, id);
      assert rest.intake + (rest.riskOut + [id]) == rest.intake + rest.riskOut + [id];
    } else {
      DeclinedKeeps(rest, id);
    }
  }

  lemma {:induction false} TakenKeeps(c: Core, v: VenueId)
    requires Kept(c) && v in c.dispatch && c.dispatch[v] != []
    ensures var r := Taken(c, v); Kept(r) && OnlyTouches(c, r, c.dispatch[v][0]) && SameLines(c, r)
  {
    var id := c.dispatch[v][0];
    var c0 := c.(dispatch := c.dispatch[v := c.dispatch[v][1..]]);
    assert Kept(c0);
    if Acknowledges(c, v) {
      SavedKeeps(c0, Transition(c.orders[id], Acknowledged));
    }
  }
}
