/** What becomes of an order that is crossed internally, and of what the cross leaves over. */
module PipelineResidual {
  import opened Routing
  import opened Wrappers
  import opened Decimals
  import opened Orders
  import opened OrderVwap
  import opened PipelineCore
  import opened PipelineLedger
  import opened PipelineMachine
  import opened PipelineSafety
  import Crossing

  // ---------------------------------------------------------------- fills are only appended

  /** Orders stay, with their tickets, and fills are only appended. */
  ghost predicate FillsKept(orders: OrderMap, orders': OrderMap) {
    forall id | id in orders ::
      id in orders' && orders'[id].ticket == orders[id].ticket && orders[id].fills <= orders'[id].fills
  }

  lemma SavedFills(c: Core, o: OrderState)
    requires Linked(c) && o.ticket.id in c.orders && Sound(o)
    requires o.ticket == c.orders[o.ticket.id].ticket && c.orders[o.ticket.id].fills <= o.fills
    ensures FillsKept(c.orders, Saved(c, o).orders)
  {}

  lemma DeclinedFills(c: Core, id: OrderId)
    requires Linked(c) && id in c.orders
    ensures FillsKept(c.orders, Declined(c, id).orders) && Declined(c, id).orders.Keys == c.orders.Keys
  {
    TransitionKeepsSound(c.orders[id], Rejected);
    SavedFills(c, Transition(c.orders[id], Rejected));
  }

  lemma DispatchedFills(c: Core, id: OrderId, venue: VenueId, ready: set<VenueId>)
    requires Linked(c) && id in c.orders
    ensures var r := Dispatched(c, id, venue, ready); FillsKept(c.orders, r.orders) && r.orders.Keys == c.orders.Keys
  {
    if venue !in ready {
      DeclinedFills(c, id);
    }
  }

  lemma AssignedFills(c: Core, id: OrderId, venue: VenueId)
    requires Linked(c) && id in c.orders
    ensures var r := Assigned(c, id, venue); FillsKept(c.orders, r.orders) && r.orders.Keys == c.orders.Keys
  {
    SavedFills(c, c.orders[id].(venue := venue));
  }

  lemma RoutedLegacyFills(c: Core, id: OrderId, any: VenueId, ready: set<VenueId>)
    requires Linked(c) && id in c.orders
    ensures var r := RoutedLegacy(c, id, any, ready); FillsKept(c.orders, r.orders) && r.orders.Keys == c.orders.Keys
  {
    var venue := LegacyVenue(c.orders[id].ticket.assetClass, c.dispatch.Keys, any);
    if venue == "" {
      DeclinedFills(c, id);
    } else {
      AssignedFills(c, id, venue);
      DispatchedFills(Assigned(c, id, venue), id, venue, ready);
    }
  }

  lemma ProcessedFills(c: Core, f: Fill, g: Grid)
    requires Linked(c) && 0.0 < f.quantity
    ensures FillsKept(c.orders, PipelineCore.Processed(c, f, g).orders)
  {
    if f.order in c.inFlight && Fillability(c.orders[f.order], f).Pass? {
      FillKeepsSound(c.orders[f.order], f, g);
      SavedFills(c, AfterFill(c.orders[f.order], f, g));
    }
  }

  lemma WithChildFills(c: Core, o: OrderState, ready: set<VenueId>)
    requires Linked(c) && o.ticket.id !in c.orders && Sound(o)
    ensures var r := WithChild(c, o, ready);
      FillsKept(c.orders, r.orders) && r.orders.Keys == c.orders.Keys + {o.ticket.id}
  {
    DispatchedFills(Registered(c, o), o.ticket.id, o.venue, ready);
  }

  lemma FillsKeptTransitive(a: OrderMap, b: OrderMap, c: OrderMap)
    requires FillsKept(a, b) && FillsKept(b, c)
    ensures FillsKept(a, c)
  {}

  lemma SetOfTail(ids: seq<OrderId>)
    requires ids != []
    ensures (set i | i in ids) == {ids[0]} + (set i | i in ids[1..])
  {
    assert ids == [ids[0]] + ids[1..];
  }

  lemma KeysOfTail(keys: set<OrderId>, keys': set<OrderId>, ids: seq<OrderId>)
    requires ids != [] && keys' == keys + {ids[0]}
    ensures keys' + (set i | i in ids[1..]) == keys + (set i | i in ids)
  {
    SetOfTail(ids);
  }

  lemma UnusedTail(orders: set<OrderId>, ids: seq<OrderId>)
    requires ids != [] && Unused(orders, ids)
    ensures ids[0] !in orders && Unused(orders + {ids[0]}, ids[1..])
  {
    forall id | id in ids[1..] ensures id !in orders && id != ids[0] {
      var k :| 0 <= k < |ids| - 1 && ids[1..][k] == id;
      assert ids[k + 1] == id;
    }
  }

  lemma PositiveTail(allocations: seq<Allocation>)
    requires allocations != [] && PositiveAllocations(allocations)
    ensures 0.0 < allocations[0].quantity && PositiveAllocations(allocations[1..])
  {}

  /** The first child of a split, and what is left to be split. */
  lemma SplitStep(c: Core, parent: Ticket, allocations: seq<Allocation>, ids: seq<OrderId>, ready: set<VenueId>)
    requires Linked(c) && PositiveAllocations(allocations) && |ids| == |allocations| && FreshIds(c, ids) && ids != []
    ensures var child := Child(parent, allocations[0], ids[0]);
      && child.ticket.id !in c.orders && Sound(child)
      && var c' := WithChild(c, child, ready);
      && Linked(c') && FillsKept(c.orders, c'.orders) && c'.orders.Keys == c.orders.Keys + {ids[0]}
      && PositiveAllocations(allocations[1..]) && FreshIds(c', ids[1..])
      && Split(c, parent, allocations, ids, ready) == Split(c', parent, allocations[1..], ids[1..], ready)
  {
    UnusedTail(c.orders.Keys, ids);
    PositiveTail(allocations);
    WithChildFills(c, Child(parent, allocations[0], ids[0]), ready);
  }

  lemma {:induction false} SplitFills(
      c: Core, parent: Ticket, allocations: seq<Allocation>, ids: seq<OrderId>, ready: set<VenueId>)
    requires Linked(c) && PositiveAllocations(allocations) && |ids| == |allocations| && FreshIds(c, ids)
    ensures var r := Split(c, parent, allocations, ids, ready);
      FillsKept(c.orders, r.orders) && r.orders.Keys == c.orders.Keys + (set i | i in ids)
    decreases |allocations|
  {
    if allocations != [] {
      SplitStep(c, parent, allocations, ids, ready);
      var c' := WithChild(c, Child(parent, allocations[0], ids[0]), ready);
      SplitFills(c', parent, allocations[1..], ids[1..], ready);
      FillsKeptTransitive(c.orders, c'.orders, Split(c', parent, allocations[1..], ids[1..], ready).orders);
      KeysOfTail(c.orders.Keys, c'.orders.Keys, ids);
    }
  }

  /** Routing outside makes new orders exactly by splitting. */
  predicate Splits(c: Core, answer: RouterAnswer) {
    c.dispatch != map[] && answer.Allocations? && |answer.allocations| != 1
  }

  lemma RoutedOutFills(c: Core, id: OrderId, answer: RouterAnswer, ids: seq<OrderId>, any: VenueId, ready: set<VenueId>)
    requires Linked(c) && id in c.orders
    requires answer.Allocations? ==>
      PositiveAllocations(answer.allocations) && |ids| == |answer.allocations| && FreshIds(c, ids)
    ensures var r := RoutedOut(c, id, answer, ids, any, ready);
      && FillsKept(c.orders, r.orders)
      && r.orders.Keys == c.orders.Keys + if Splits(c, answer) then (set i | i in ids) else {}
  {
    if c.dispatch == map[] {
      DeclinedFills(c, id);
    } else if answer.RouterError? {
      RoutedLegacyFills(c, id, any, ready);
    } else if |answer.allocations| == 1 {
      var venue := answer.allocations[0].venue;
      AssignedFills(c, id, venue);
      DispatchedFills(Assigned(c, id, venue), id, venue, ready);
    } else {
      SplitFills(c, c.orders[id].ticket, answer.allocations, ids, ready);
    }
  }

  // ---------------------------------------------------------------- the cross itself

  lemma CrossFits(book: seq<OrderState>, o: OrderState, g: Grid)
    ensures var c := Crossing.Cross(book, o, g);
      c.result.Crossed? ==>
        c.result.incoming.quantity <= Crossing.Remaining(o) && c.result.incoming.order == o.ticket.id
  {}

  /** The order's own fill is accepted: it is past New, has the fill, and is not made new again. */
  lemma CrossedHasFill(c: Core, id: OrderId, f: Fill, g: Grid)
    requires Kept(c) && id in c.orders && c.orders[id].status == New
    requires f.order == id && 0.0 < f.quantity <= Crossing.Remaining(c.orders[id])
    ensures var r := CrossedInternally(c, id, f, g);
      && FillsKept(c.orders, r.orders) && r.orders.Keys == c.orders.Keys
      && r.orders[id].fills != [] && r.orders[id].filled == f.quantity
  {
    var acked := Transition(c.orders[id].(filled := 0.0, venue := INTERNAL), Acknowledged);
    FirstFill(c.orders[id], f, g);
    SavedFills(c, acked);
    ProcessedFills(Saved(c, acked), f, g);
    ProcessedFirst(Saved(c, acked), f, g);
  }

  /** A first fill within the order, after the reset and the acknowledgement. */
  lemma FirstFill(o: OrderState, f: Fill, g: Grid)
    requires Sound(o) && o.status == New && 0.0 < f.quantity <= Crossing.Remaining(o)
    ensures var acked := Transition(o.(filled := 0.0, venue := INTERNAL), Acknowledged);
      && Sound(acked) && acked.ticket == o.ticket && acked.status == Acknowledged && acked.fills == o.fills == []
      && Fillability(acked, f).Pass?
  {}

  lemma ProcessedFirst(c: Core, f: Fill, g: Grid)
    requires Linked(c) && 0.0 < f.quantity && f.order in c.inFlight
    requires c.orders[f.order].fills == [] && Fillability(c.orders[f.order], f).Pass?
    ensures var o := PipelineCore.Processed(c, f, g).orders[f.order]; o.fills != [] && o.filled == f.quantity
  {
    FillKeepsSound(c.orders[f.order], f, g);
  }

  /** The action routes an order that crosses. */
  ghost predicate Crosses(s: System, a: Action) {
    a.Route? && Enabled(s, a) && CrossOf(s).result.Crossed?
  }

  /** The core when the residual is routed: after the cross, without the order in the waiting line. */
  function AfterCross(s: System): (c: Core)
    requires Linked(s.core) && s.core.riskOut != [] && CrossOf(s).result.Crossed?
    requires s.core.orders[s.core.riskOut[0]].status == New && 0.0 < CrossOf(s).result.incoming.quantity
  {
    CrossedInternally(s.core.(riskOut := s.core.riskOut[1..]), s.core.riskOut[0], CrossOf(s).result.incoming, s.cfg.g)
  }

  lemma CrossCore(c: Core, f: Fill, g: Grid)
    requires Kept(c) && c.riskOut != [] && c.orders[c.riskOut[0]].status == New
    requires f.order == c.riskOut[0] && 0.0 < f.quantity <= Crossing.Remaining(c.orders[c.riskOut[0]])
    ensures Linked(c.(riskOut := c.riskOut[1..]))
    ensures var id, r := c.riskOut[0], CrossedInternally(c.(riskOut := c.riskOut[1..]), c.riskOut[0], f, g);
      && Kept(r) && FillsKept(c.orders, r.orders) && r.orders.Keys == c.orders.Keys
      && r.orders[id].fills != [] && r.orders[id].filled == f.quantity
      && InTransit(r, id) && r.dispatch == c.dispatch && SameLines(c.(riskOut := c.riskOut[1..]), r)
  {
    PopRiskOut(c);
    var c0 := c.(riskOut := c.riskOut[1..]);
    CrossedHasFill(c0, c.riskOut[0], f, g);
    CrossedInternallyKeeps(c0, c.riskOut[0], f, g);
  }

  lemma CrossFound(s: System)
    requires Kept(s.core) && RestingSafe(s.resting) && s.core.riskOut != [] && CrossOf(s).result.Crossed?
    ensures var id := s.core.riskOut[0];
      && s.core.orders[id].status == New && CrossOf(s).result.incoming.order == id
      && 0.0 < CrossOf(s).result.incoming.quantity <= Crossing.Remaining(s.core.orders[id])
  {
    var id := s.core.riskOut[0];
    assert id in s.core.intake + s.core.riskOut;
    var o := s.core.orders[id];
    assert Sound(o);
    Crossing.CrossPositive(RestingFor(s, o.ticket.instrument), o, s.cfg.g);
    CrossFits(RestingFor(s, o.ticket.instrument), o, s.cfg.g);
  }

  lemma CrossStep(s: System)
    requires Kept(s.core) && RestingSafe(s.resting) && s.core.riskOut != [] && CrossOf(s).result.Crossed?
    ensures var id := s.core.riskOut[0];
      && s.core.orders[id].status == New && 0.0 < CrossOf(s).result.incoming.quantity
      && var c := AfterCross(s);
      && Kept(c) && FillsKept(s.core.orders, c.orders) && c.orders.Keys == s.core.orders.Keys
      && c.orders[id].fills != [] && c.orders[id].filled == CrossOf(s).result.incoming.quantity
      && InTransit(c, id) && c.dispatch == s.core.dispatch && c.intake == s.core.intake
      && c.riskOut == s.core.riskOut[1..]
  {
    CrossFound(s);
    CrossCore(s.core, CrossOf(s).result.incoming, s.cfg.g);
  }

  // ---------------------------------------------------------------- every step

  lemma RoutedSmartFills(c: Core, id: OrderId, input: RouteInput, g: Grid)
    requires Linked(c) && Answered(c, id, input)
    requires input.cross.Crossed? ==>
      var r := CrossedInternally(c, id, input.cross.incoming, g);
      FillsKept(c.orders, r.orders) && r.orders.Keys == c.orders.Keys && r.orders[id].fills != []
    ensures FillsKept(c.orders, RoutedSmart(c, id, input, g).orders)
    ensures input.cross.Crossed? ==> RoutedSmart(c, id, input, g).orders[id].fills != []
  {
    if input.cross.NotCrossed? {
      RoutedOutFills(c, id, input.answer, input.ids, input.any, input.ready);
    } else if input.cross.residual != None {
      var r := CrossedInternally(c, id, input.cross.incoming, g);
      RoutedOutFills(r, id, input.answer, input.ids, input.any, input.ready);
      FillsKeptTransitive(c.orders, r.orders, RoutedSmart(c, id, input, g).orders);
    }
  }

  lemma RoutedFills(c: Core, input: RouteInput, g: Grid)
    requires Kept(c) && Routable(c, input)
    requires input.cross.Crossed? ==>
      input.cross.incoming.order == c.riskOut[0]
      && input.cross.incoming.quantity <= Crossing.Remaining(c.orders[c.riskOut[0]])
    ensures FillsKept(c.orders, Routed(c, input, g).orders)
    ensures input.smart && input.cross.Crossed? ==> Routed(c, input, g).orders[c.riskOut[0]].fills != []
  {
    var id, c0 := c.riskOut[0], c.(riskOut := c.riskOut[1..]);
    PopRiskOut(c);
    if !input.smart {
      RoutedLegacyFills(c0, id, input.any, input.ready);
    } else {
      if input.cross.Crossed? {
        CrossCore(c, input.cross.incoming, g);
      }
      RoutedSmartFills(c0, id, input, g);
    }
  }

  /** Routing appends fills, and a cross leaves one. */
  lemma RouteFills(s: System, a: Action)
    requires Inv(s) && a.Route? && Enabled(s, a)
    ensures FillsKept(s.core.orders, RoutedBy(s, a).core.orders)
    ensures Crosses(s, a) ==> RoutedBy(s, a).core.orders[s.core.riskOut[0]].fills != []
  {
    if CrossOf(s).result.Crossed? {
      CrossFound(s);
    }
    RoutedFills(s.core, InputOf(s, a), s.cfg.g);
  }

  lemma TakenFills(c: Core, v: VenueId)
    requires Kept(c) && v in c.dispatch && c.dispatch[v] != []
    ensures FillsKept(c.orders, Taken(c, v).orders)
  {
    TakenKeeps(c, v);
    assert c.dispatch[v][0] in c.dispatch[v];
  }

  lemma SubmittedFills(s: System, v: VenueId, accepted: bool, slipped: real)
    requires Shaped(s) && Enabled(s, SubmitOrder(v, accepted, slipped))
    ensures FillsKept(s.core.orders, SubmittedTo(s, v, accepted, slipped).core.orders)
  {
    if !accepted {
      DeclinedFills(s.core, s.desks[v].hand.value);
    }
  }

  lemma CollectedFills(s: System, v: VenueId)
    requires Inv(s) && Enabled(s, Collect(v))
    ensures FillsKept(s.core.orders, Collected(s, v).core.orders)
  {
    NextFillOwned(s, v);
    ProcessedFills(s.core, NextFill(s.desks[v]), s.cfg.g);
  }

  /** A quiet step leaves the core alone. */
  ghost predicate Quiet(a: Action) {
    a.Rest? || a.Emit? || a.Sweep? || a.Withdraw?
  }

  lemma QuietCore(s: System, a: Action)
    requires Enabled(s, a) && Quiet(a)
    ensures Do(s, a).core == s.core
  {}

  lemma StepKeepsFills(s: System, a: Action)
    requires Inv(s) && Enabled(s, a)
    ensures FillsKept(s.core.orders, Do(s, a).core.orders)
  {
    match a
    case Submit(t, preferred) => SubmitFills(s.core, t, preferred);
    case Decide(i, risk) => DecideFills(s.core, i, risk, s.cfg.failOpen);
    case Route(_, _, _, _) => RouteFills(s, a);
    case Take(v) =>
      TakenFills(s.core, v);
      TookDesk(s, v);
    case SubmitOrder(v, accepted, slipped) => SubmittedFills(s, v, accepted, slipped);
    case Collect(v) => CollectedFills(s, v);
    case _ => QuietCore(s, a);
  }

  lemma SubmitFills(c: Core, t: Ticket, preferred: VenueId)
    requires Kept(c) && t.id !in c.orders
    ensures FillsKept(c.orders, PipelineCore.Submit(c, t, preferred).orders)
  {
    SubmitKeeps(c, t, preferred);
  }

  lemma TookDesk(s: System, u: VenueId)
    requires Enabled(s, Take(u))
    ensures var d := s.desks[u];
      var hand := if Acknowledges(s.core, u) then Some(s.core.dispatch[u][0]) else d.hand;
      Took(s, u) == s.(core := Taken(s.core, u), desks := s.desks[u := d.(hand := hand)])
  {
    assert s.desks[u := s.desks[u].(hand := s.desks[u].hand)] == s.desks;
  }

  lemma DecideFills(c: Core, i: nat, risk: RiskAnswer, failOpen: bool)
    requires Kept(c) && i < |c.intake|
    ensures FillsKept(c.orders, PipelineCore.Decide(c, i, risk, failOpen).orders)
  {
    assert c.intake[i] in c.intake;
    var rest := c.(intake := Crossing.Without(c.intake, i));
    assert Linked(rest);
    if !Approves(risk, failOpen) {
      DeclinedFills(rest, c.intake[i]);
    }
  }

  // ---------------------------------------------------------------- crossed orders stay inside

  /** The orders that crossed internally in a run. */
  ghost function CrossedIn(cfg: Config, actions: seq<Action>): set<OrderId> {
    if actions == [] then {}
    else
      var n := |actions| - 1;
      var s := Run(cfg, actions[..n]);
      CrossedIn(cfg, actions[..n]) + if Crosses(s, actions[n]) then {s.core.riskOut[0]} else {}
  }

  ghost predicate NeverCalled(s: System, id: OrderId) {
    forall k | 0 <= k < |s.calls| :: s.calls[k].order.ticket.id != id
  }

  /** An order that has a fill from inside. */
  ghost predicate KeptInside(s: System, id: OrderId) {
    id in s.core.orders && s.core.orders[id].fills != [] && NeverCalled(s, id)
  }

  /** Only the order in a hand is ever submitted, and it has no fill. */
  lemma StepCalls(s: System, a: Action, id: OrderId)
    requires Inv(s) && Enabled(s, a) && NeverCalled(s, id)
    ensures NeverCalled(Do(s, a), id) || (a.SubmitOrder? && s.desks[a.venue].hand == Some(id))
    ensures a.SubmitOrder? ==> s.core.orders[s.desks[a.venue].hand.value].fills == []
  {
    if a.SubmitOrder? {
      assert DeskSafe(s.core.orders, a.venue, a.venue in s.cfg.simulated, s.desks[a.venue]);
      assert s.core.orders[s.desks[a.venue].hand.value].ticket.id == s.desks[a.venue].hand.value;
    }
  }

  lemma StaysInside(s: System, a: Action, id: OrderId)
    requires Inv(s) && Enabled(s, a) && KeptInside(s, id)
    ensures KeptInside(Do(s, a), id)
  {
    StepKeepsFills(s, a);
    StepCalls(s, a, id);
  }

  /** A New order has not been given to any venue. */
  lemma NewNeverCalled(s: System, id: OrderId)
    requires Inv(s) && (id in s.core.orders ==> s.core.orders[id].status == New)
    ensures NeverCalled(s, id)
  {
    NobodysYet(s.core.orders, s.cfg.simulated, s.desks, id);
    forall k | 0 <= k < |s.calls| ensures s.calls[k].order.ticket.id != id {
      assert Unrelated(s.desks[s.calls[k].venue], id);
    }
  }

  lemma GoesInside(s: System, a: Action)
    requires Inv(s) && Crosses(s, a)
    ensures KeptInside(Do(s, a), s.core.riskOut[0])
  {
    CrossFound(s);
    RouteFills(s, a);
    NewNeverCalled(s, s.core.riskOut[0]);
    RouteCalls(s, a);
    InsideFrom(s, RoutedBy(s, a), s.core.riskOut[0]);
  }

  lemma RouteCalls(s: System, a: Action)
    requires a.Route? && Enabled(s, a)
    ensures Do(s, a) == RoutedBy(s, a) && RoutedBy(s, a).calls == s.calls
  {}

  lemma InsideFrom(s: System, s': System, id: OrderId)
    requires NeverCalled(s, id) && s'.calls == s.calls && id in s'.core.orders && s'.core.orders[id].fills != []
    ensures KeptInside(s', id)
  {}

  lemma {:induction false} CrossedStayInside(cfg: Config, actions: seq<Action>)
    ensures forall id | id in CrossedIn(cfg, actions) :: KeptInside(Run(cfg, actions), id)
  {
    if actions != [] {
      var n := |actions| - 1;
      var s, a := Run(cfg, actions[..n]), actions[n];
      CrossedStayInside(cfg, actions[..n]);
      Reachable(cfg, actions[..n]);
      if Enabled(s, a) {
        forall id | id in CrossedIn(cfg, actions) ensures KeptInside(Run(cfg, actions), id) {
          if id in CrossedIn(cfg, actions[..n]) {
            StaysInside(s, a, id);
          } else {
            GoesInside(s, a);
          }
        }
      }
    }
  }

  /** Over every run, an order that crossed internally, in part or in full, is never submitted to a venue,
      before the cross or after it, wherever it is routed next. */
  lemma CrossedOrdersAreNeverSubmitted(cfg: Config, actions: seq<Action>)
    ensures forall k | 0 <= k < |Run(cfg, actions).calls| ::
      Run(cfg, actions).calls[k].order.ticket.id !in CrossedIn(cfg, actions)
  {
    CrossedStayInside(cfg, actions);
  }
}
