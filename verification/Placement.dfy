/** Which venue an order is submitted to when no router says: by asset class. */
module Placement {
  import opened Routing
  import opened Wrappers
  import opened Decimals
  import opened Orders
  import opened PipelineCore
  import opened PipelineLedger
  import opened PipelineMachine
  import opened PipelineSafety
  import opened PipelineResidual
  import opened ResidualChildren
  import opened QueueOrder
  import Crossing

  // ---------------------------------------------------------------- without a router

  /** Equities go to alpaca and crypto to binance_testnet if these are registered, everything else to sim-exchange
      if that is, and what is left to any registered venue. */
  predicate Chosen(venues: set<VenueId>, class_: AssetClass, v: VenueId) {
    && v in venues
    && if class_ == Equity && "alpaca" in venues then v == "alpaca"
       else if class_ == Crypto && "binance_testnet" in venues then v == "binance_testnet"
       else "sim-exchange" in venues ==> v == "sim-exchange"
  }

  ghost predicate QueuesChosen(c: Core, venues: set<VenueId>) {
    forall v, id | v in c.dispatch && id in c.dispatch[v] ::
      id in c.orders && Chosen(venues, c.orders[id].ticket.assetClass, v)
  }

  ghost predicate HandsChosen(desks: map<VenueId, Desk>, orders: OrderMap, venues: set<VenueId>) {
    forall v | v in desks && desks[v].hand.Some? ::
      desks[v].hand.value in orders && Chosen(venues, orders[desks[v].hand.value].ticket.assetClass, v)
  }

  ghost predicate CallsChosen(calls: seq<Call>, venues: set<VenueId>) {
    forall k | 0 <= k < |calls| :: Chosen(venues, calls[k].order.ticket.assetClass, calls[k].venue)
  }

  ghost predicate AllChosen(s: System) {
    && QueuesChosen(s.core, s.cfg.venues) && HandsChosen(s.desks, s.core.orders, s.cfg.venues)
    && CallsChosen(s.calls, s.cfg.venues)
  }

  /** Queues may only shrink, and tickets stay. */
  lemma QueuesShrink(c: Core, c': Core, venues: set<VenueId>)
    requires QueuesChosen(c, venues) && FillsKept(c.orders, c'.orders)
    requires forall v, id | v in c'.dispatch && id in c'.dispatch[v] :: v in c.dispatch && id in c.dispatch[v]
    ensures QueuesChosen(c', venues)
  {}

  lemma HandsStay(desks: map<VenueId, Desk>, orders: OrderMap, orders': OrderMap, venues: set<VenueId>)
    requires HandsChosen(desks, orders, venues) && FillsKept(orders, orders')
    ensures HandsChosen(desks, orders', venues)
  {}

  lemma DispatchedChosen(c: Core, id: OrderId, venue: VenueId, ready: set<VenueId>, venues: set<VenueId>)
    requires Linked(c) && id in c.orders && QueuesChosen(c, venues)
    requires Chosen(venues, c.orders[id].ticket.assetClass, venue)
    ensures QueuesChosen(Dispatched(c, id, venue, ready), venues)
  {}

  lemma LegacyChosen(c: Core, id: OrderId, any: VenueId, ready: set<VenueId>)
    requires Linked(c) && id in c.orders && QueuesChosen(c, c.dispatch.Keys)
    ensures QueuesChosen(RoutedLegacy(c, id, any, ready), c.dispatch.Keys)
  {
    var venue := LegacyVenue(c.orders[id].ticket.assetClass, c.dispatch.Keys, any);
    if venue != "" {
      DispatchedChosen(Assigned(c, id, venue), id, venue, ready, c.dispatch.Keys);
    }
  }

  /** The step is not told by a router where to route: there is none, or it fails. */
  predicate Unadvised(cfg: Config, a: Action) {
    a.Route? ==> !cfg.smart || a.answer.RouterError?
  }

  lemma FallbackChosen(c: Core, id: OrderId, ids: seq<OrderId>, any: VenueId, ready: set<VenueId>)
    requires Linked(c) && id in c.orders && QueuesChosen(c, c.dispatch.Keys)
    ensures QueuesChosen(RoutedOut(c, id, RouterError, ids, any, ready), c.dispatch.Keys)
  {
    if c.dispatch != map[] {
      LegacyChosen(c, id, any, ready);
    } else {
      DeclinedChosen(c, id, c.dispatch.Keys);
    }
  }

  lemma UncrossedChosen(c: Core, input: RouteInput, g: Grid)
    requires Kept(c) && Routable(c, input) && input.cross.NotCrossed? && (input.smart ==> input.answer.RouterError?)
    requires QueuesChosen(c, c.dispatch.Keys)
    ensures QueuesChosen(Routed(c, input, g), c.dispatch.Keys)
  {
    var c0 := c.(riskOut := c.riskOut[1..]);
    PopRiskOut(c);
    if input.smart {
      FallbackChosen(c0, c.riskOut[0], input.ids, input.any, input.ready);
    } else {
      LegacyChosen(c0, c.riskOut[0], input.any, input.ready);
    }
  }

  lemma CrossedChosen(c: Core, input: RouteInput, g: Grid)
    requires Kept(c) && Routable(c, input) && input.smart && input.cross.Crossed? && input.answer.RouterError?
    requires input.cross.incoming.order == c.riskOut[0]
    requires input.cross.incoming.quantity <= Crossing.Remaining(c.orders[c.riskOut[0]])
    requires QueuesChosen(c, c.dispatch.Keys)
    ensures QueuesChosen(Routed(c, input, g), c.dispatch.Keys)
  {
    var id, c0 := c.riskOut[0], c.(riskOut := c.riskOut[1..]);
    PopRiskOut(c);
    CrossCore(c, input.cross.incoming, g);
    var c1 := CrossedInternally(c0, id, input.cross.incoming, g);
    QueuesShrink(c, c1, c.dispatch.Keys);
    if input.cross.residual.Some? {
      RoutedAfterCross(c, input, g);
      FallbackChosen(c1, id, input.ids, input.any, input.ready);
    }
  }

  lemma RouteQueuesChosen(s: System, a: Action)
    requires Inv(s) && a.Route? && Enabled(s, a) && Unadvised(s.cfg, a) && QueuesChosen(s.core, s.cfg.venues)
    ensures QueuesChosen(RoutedBy(s, a).core, s.cfg.venues)
  {
    if CrossOf(s).result.Crossed? {
      CrossFound(s);
      CrossedChosen(s.core, InputOf(s, a), s.cfg.g);
    } else {
      UncrossedChosen(s.core, InputOf(s, a), s.cfg.g);
    }
  }

  lemma RouteChooses(s: System, a: Action)
    requires Inv(s) && a.Route? && Enabled(s, a) && Unadvised(s.cfg, a) && AllChosen(s)
    ensures AllChosen(RoutedBy(s, a))
  {
    RouteFills(s, a);
    HandsStay(s.desks, s.core.orders, RoutedBy(s, a).core.orders, s.cfg.venues);
    RouteQueuesChosen(s, a);
  }

  lemma TakenChosen(c: Core, v: VenueId, venues: set<VenueId>)
    requires Kept(c) && v in c.dispatch && c.dispatch[v] != [] && QueuesChosen(c, venues)
    ensures QueuesChosen(Taken(c, v), venues)
    ensures c.dispatch[v][0] in Taken(c, v).orders
    ensures Chosen(venues, Taken(c, v).orders[c.dispatch[v][0]].ticket.assetClass, v)
  {
    var id := c.dispatch[v][0];
    assert id in c.dispatch[v];
    TakenFills(c, v);
    forall u, j | u in Taken(c, v).dispatch && j in Taken(c, v).dispatch[u]
      ensures u in c.dispatch && j in c.dispatch[u]
    {
      if u == v {
        assert j in c.dispatch[v][1..];
      }
    }
    QueuesShrink(c, Taken(c, v), venues);
  }

  lemma HandTaken(desks: map<VenueId, Desk>, orders: OrderMap, venues: set<VenueId>, v: VenueId, id: OrderId)
    requires HandsChosen(desks, orders, venues) && v in desks
    requires id in orders && Chosen(venues, orders[id].ticket.assetClass, v)
    ensures HandsChosen(desks[v := desks[v].(hand := Some(id))], orders, venues)
  {}

  lemma TakeChooses(s: System, v: VenueId)
    requires Inv(s) && Enabled(s, Take(v)) && AllChosen(s)
    ensures AllChosen(Took(s, v))
  {
    TakenFills(s.core, v);
    TakenChosen(s.core, v, s.cfg.venues);
    HandsStay(s.desks, s.core.orders, Taken(s.core, v).orders, s.cfg.venues);
    HandTaken(s.desks, Taken(s.core, v).orders, s.cfg.venues, v, s.core.dispatch[v][0]);
  }

  lemma CalledHands(desks: map<VenueId, Desk>, orders: OrderMap, venues: set<VenueId>, v: VenueId, d: Desk)
    requires HandsChosen(desks, orders, venues) && d.hand.None?
    ensures HandsChosen(desks[v := d], orders, venues)
  {}

  lemma CallsMore(calls: seq<Call>, venues: set<VenueId>, c: Call)
    requires CallsChosen(calls, venues) && Chosen(venues, c.order.ticket.assetClass, c.venue)
    ensures CallsChosen(calls + [c], venues)
  {}

  lemma DeclinedChosen(c: Core, id: OrderId, venues: set<VenueId>)
    requires Linked(c) && id in c.orders && QueuesChosen(c, venues)
    ensures QueuesChosen(Declined(c, id), venues)
  {
    DeclinedFills(c, id);
  }

  lemma SubmitOrderChooses(s: System, v: VenueId, accepted: bool, slipped: real)
    requires Inv(s) && Enabled(s, SubmitOrder(v, accepted, slipped)) && AllChosen(s)
    ensures AllChosen(SubmittedTo(s, v, accepted, slipped))
  {
    var id, s' := s.desks[v].hand.value, SubmittedTo(s, v, accepted, slipped);
    HandPastRouter(s, v);
    SubmittedFills(s, v, accepted, slipped);
    HandsStay(s.desks, s.core.orders, s'.core.orders, s.cfg.venues);
    CalledHands(s.desks, s'.core.orders, s.cfg.venues, v, s'.desks[v]);
    CallsMore(s.calls, s.cfg.venues, Call(v, s.core.orders[id]));
    if !accepted {
      DeclinedChosen(s.core, id, s.cfg.venues);
    }
  }

  lemma CollectChooses(s: System, v: VenueId)
    requires Inv(s) && Enabled(s, Collect(v)) && AllChosen(s)
    ensures AllChosen(Collected(s, v))
  {
    CollectedFills(s, v);
    HandsStay(s.desks, s.core.orders, Collected(s, v).core.orders, s.cfg.venues);
    CollectedLines(s, v);
    QueuesShrink(s.core, Collected(s, v).core, s.cfg.venues);
  }

  lemma CollectedLines(s: System, v: VenueId)
    requires Enabled(s, Collect(v)) && FeedsPositive(s.desks)
    ensures Collected(s, v).core.dispatch == s.core.dispatch
  {}

  /** Submissions and decisions leave the queues and the hands alone. */
  lemma EntryChooses(s: System, a: Action)
    requires Inv(s) && Enabled(s, a) && (a.Submit? || a.Decide?) && AllChosen(s)
    ensures AllChosen(Do(s, a))
  {
    StepKeepsFills(s, a);
    SameDesks(s, a);
    EntryLines(s, a);
    QueuesShrink(s.core, Do(s, a).core, s.cfg.venues);
    HandsStay(s.desks, s.core.orders, Do(s, a).core.orders, s.cfg.venues);
  }

  lemma EntryLines(s: System, a: Action)
    requires Enabled(s, a) && (a.Submit? || a.Decide?)
    ensures Do(s, a).core.dispatch == s.core.dispatch && Do(s, a).calls == s.calls && Do(s, a).cfg == s.cfg
  {
    if a.Submit? {
      SubmittedLines(s.core, a.ticket, a.preferred);
    } else {
      DecidedLines(s.core, a.index, a.risk, s.cfg.failOpen);
    }
  }

  lemma QuietChooses(s: System, a: Action)
    requires Enabled(s, a) && Quiet(a) && AllChosen(s)
    ensures AllChosen(Do(s, a))
  {}

  lemma StepChooses(s: System, a: Action)
    requires Inv(s) && Enabled(s, a) && Unadvised(s.cfg, a) && AllChosen(s)
    ensures AllChosen(Do(s, a))
  {
    match a
    case Submit(_, _) => EntryChooses(s, a);
    case Decide(_, _) => EntryChooses(s, a);
    case Route(_, _, _, _) => RouteChooses(s, a);
    case Take(v) => TakeChooses(s, v);
    case SubmitOrder(v, accepted, slipped) => SubmitOrderChooses(s, v, accepted, slipped);
    case Collect(v) => CollectChooses(s, v);
    case _ => QuietChooses(s, a);
  }

  lemma {:induction false} RunChooses(cfg: Config, actions: seq<Action>)
    requires forall a | a in actions :: Unadvised(cfg, a)
    ensures AllChosen(Run(cfg, actions))
  {
    if actions != [] {
      var n := |actions| - 1;
      RunChooses(cfg, actions[..n]);
      Reachable(cfg, actions[..n]);
      assert actions[n] in actions;
      if Enabled(Run(cfg, actions[..n]), actions[n]) {
        StepChooses(Run(cfg, actions[..n]), actions[n]);
      }
    }
  }

  /** Over every run in which no router answers, because none is configured or it always fails, whatever map iteration
      yields, whatever venue a client prefers and whatever crosses first: each SubmitOrder call goes to the venue of
      the order's asset class if that is registered, else to the simulated exchange if that is, else to a registered
      venue. */
  lemma LegacyCallsGoToTheChosenVenue(cfg: Config, actions: seq<Action>, k: nat)
    requires !cfg.smart || forall a | a in actions && a.Route? :: a.answer.RouterError?
    requires k < |Run(cfg, actions).calls|
    ensures var v, class_ := Run(cfg, actions).calls[k].venue, Run(cfg, actions).calls[k].order.ticket.assetClass;
      && v in cfg.venues
      && if class_ == Equity && "alpaca" in cfg.venues then v == "alpaca"
         else if class_ == Crypto && "binance_testnet" in cfg.venues then v == "binance_testnet"
         else "sim-exchange" in cfg.venues ==> v == "sim-exchange"
  {
    RunChooses(cfg, actions);
    Reachable(cfg, actions);
  }

  // ---------------------------------------------------------------- without venues

  lemma RejectedWithoutVenues(c: Core, input: RouteInput, g: Grid)
    requires Kept(c) && Routable(c, input) && input.cross.NotCrossed? && c.dispatch == map[]
    ensures var id, r := c.riskOut[0], Routed(c, input, g); id in r.orders && r.orders[id].status == Rejected
  {
    assert c.riskOut[0] in c.intake + c.riskOut;
    PopRiskOut(c);
  }

  /** From every reachable state without registered venues, an order that is routed and does not cross is rejected. */
  lemma NoVenueNoOrder(cfg: Config, actions: seq<Action>, a: Action)
    requires cfg.venues == {} && a.Route? && Enabled(Run(cfg, actions), a) && !Crosses(Run(cfg, actions), a)
    ensures var s, s' := Run(cfg, actions), Run(cfg, actions + [a]);
      s.core.riskOut != [] && s.core.riskOut[0] in s'.core.orders
      && s'.core.orders[s.core.riskOut[0]].status == Rejected
  {
    var s := Run(cfg, actions);
    Reachable(cfg, actions);
    assert (actions + [a])[..|actions|] == actions;
    RejectedWithoutVenues(s.core, InputOf(s, a), s.cfg.g);
  }

  // ---------------------------------------------------------------- one order to one venue

  /** The order carries the venue. If the venue is not connected it is rejected; if it is, and has a channel, the order
      stands last in its queue, still New; else it stands nowhere. Nothing else has changed in orders and queues. */
  ghost predicate SentTo(c: Core, c': Core, id: OrderId, v: VenueId, ready: set<VenueId>) {
    && id in c.orders
    && c'.orders == c.orders[id := c.orders[id].(venue := v, status := if v in ready then New else Rejected)]
    && c'.dispatch
       == if v in ready && v in c.dispatch then c.dispatch[v := c.dispatch[v] + [id]] else c.dispatch
  }

  lemma AssignedIsSent(c: Core, id: OrderId, v: VenueId, ready: set<VenueId>)
    requires Linked(c) && id in c.orders && c.orders[id].status == New
    ensures SentTo(c, Dispatched(Assigned(c, id, v), id, v, ready), id, v, ready)
  {
    var o := c.orders[id];
    assert o.(venue := v).status == New;
    assert c.orders[id := o.(venue := v)][id := o.(venue := v, status := Rejected)]
        == c.orders[id := o.(venue := v, status := Rejected)];
  }

  lemma LegacyIsSent(c: Core, id: OrderId, any: VenueId, ready: set<VenueId>) returns (v: VenueId)
    requires Linked(c) && id in c.orders && c.orders[id].status == New && any in c.dispatch && any != ""
    ensures Chosen(c.dispatch.Keys, c.orders[id].ticket.assetClass, v)
    ensures SentTo(c, RoutedLegacy(c, id, any, ready), id, v, ready)
  {
    v := LegacyVenue(c.orders[id].ticket.assetClass, c.dispatch.Keys, any);
    AssignedIsSent(c, id, v, ready);
  }

  lemma AllocatedIsSent(c: Core, input: RouteInput, g: Grid)
    requires Kept(c) && Routable(c, input) && input.smart && input.cross.NotCrossed? && c.dispatch != map[]
    requires input.answer.Allocations? && |input.answer.allocations| == 1
    ensures SentTo(c, Routed(c, input, g), c.riskOut[0], input.answer.allocations[0].venue, input.ready)
  {
    PopRiskOut(c);
    AssignedIsSent(c.(riskOut := c.riskOut[1..]), c.riskOut[0], input.answer.allocations[0].venue, input.ready);
  }

  lemma ChosenIsSent(c: Core, input: RouteInput, g: Grid) returns (v: VenueId)
    requires Kept(c) && Routable(c, input) && input.cross.NotCrossed? && (input.smart ==> input.answer.RouterError?)
    requires input.any in c.dispatch && input.any != ""
    ensures Chosen(c.dispatch.Keys, c.orders[c.riskOut[0]].ticket.assetClass, v)
    ensures SentTo(c, Routed(c, input, g), c.riskOut[0], v, input.ready)
  {
    PopRiskOut(c);
    v := LegacyIsSent(c.(riskOut := c.riskOut[1..]), c.riskOut[0], input.any, input.ready);
  }

  /** From every reachable state with venues: an order that does not cross and for which the router names one venue
      carries that venue, and is rejected or queued last there. */
  lemma RoutedAsAllocated(cfg: Config, actions: seq<Action>, a: Action)
    requires a.Route? && Enabled(Run(cfg, actions), a) && !Crosses(Run(cfg, actions), a)
    requires cfg.smart && cfg.venues != {} && a.answer.Allocations? && |a.answer.allocations| == 1
    ensures var s, s' := Run(cfg, actions), Run(cfg, actions + [a]);
      s.core.riskOut != [] && SentTo(s.core, s'.core, s.core.riskOut[0], a.answer.allocations[0].venue, a.ready)
  {
    var s := Run(cfg, actions);
    Reachable(cfg, actions);
    assert (actions + [a])[..|actions|] == actions;
    assert s.core.dispatch != map[] by {
      assert s.core.dispatch.Keys == cfg.venues;
    }
    AllocatedIsSent(s.core, InputOf(s, a), s.cfg.g);
  }

  /** From every reachable state: an order that does not cross and for which no router answers carries the venue of its
      asset class, or another registered one, and is rejected or queued last there. */
  lemma RoutedAsChosen(cfg: Config, actions: seq<Action>, a: Action) returns (v: VenueId)
    requires a.Route? && Enabled(Run(cfg, actions), a) && !Crosses(Run(cfg, actions), a)
    requires Unadvised(cfg, a) && a.any in cfg.venues && a.any != ""
    ensures var s, s' := Run(cfg, actions), Run(cfg, actions + [a]);
      && s.core.riskOut != [] && s.core.riskOut[0] in s.core.orders
      && Chosen(cfg.venues, s.core.orders[s.core.riskOut[0]].ticket.assetClass, v)
      && SentTo(s.core, s'.core, s.core.riskOut[0], v, a.ready)
  {
    var s := Run(cfg, actions);
    Reachable(cfg, actions);
    assert (actions + [a])[..|actions|] == actions;
    v := ChosenIsSent(s.core, InputOf(s, a), s.cfg.g);
  }
}
