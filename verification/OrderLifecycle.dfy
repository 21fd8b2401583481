/** How orders move on over runs of the pipeline: never back, and never on from an end. */
module OrderLifecycle {
  import opened Routing
  import opened Wrappers
  import opened Decimals
  import opened Orders
  import opened PipelineCore
  import opened PipelineLedger
  import opened PipelineMachine
  import opened PipelineSafety
  import opened PipelineResidual
  import opened Continuations
  import opened Unserved

  function Stage(s: Status): nat {
    match s
    case New => 0
    case Acknowledged => 1
    case PartiallyFilled => 2
    case Filled => 3
    case Canceled => 3
    case Rejected => 3
  }

  /** The order has not gone back: its status is no earlier, its fills are still there, and nothing at all has changed
      once it was filled, cancelled or rejected. */
  ghost predicate Advances(o: OrderState, o': OrderState) {
    && o'.ticket == o.ticket && o.fills <= o'.fills && o.filled <= o'.filled
    && Stage(o.status) <= Stage(o'.status)
    && (Stage(o.status) == 3 ==> o' == o)
  }

  ghost predicate AllAdvance(orders: OrderMap, orders': OrderMap) {
    forall id | id in orders :: id in orders' && Advances(orders[id], orders'[id])
  }

  lemma AllAdvanceOn(a: OrderMap, b: OrderMap, c: OrderMap)
    requires AllAdvance(a, b) && AllAdvance(b, c)
    ensures AllAdvance(a, c)
  {}

  lemma TouchedAdvances(c: Core, c': Core, id: OrderId)
    requires OnlyTouches(c, c', id)
    requires id in c.orders ==> id in c'.orders && Advances(c.orders[id], c'.orders[id])
    ensures AllAdvance(c.orders, c'.orders)
  {}

  // ---------------------------------------------------------------- the stages

  /** A New order has filled nothing, so whatever comes with its fills kept is an advance. */
  lemma NewAdvances(o: OrderState, o': OrderState)
    requires o.status == New && Sound(o) && Sound(o') && o'.ticket == o.ticket && o.fills <= o'.fills
    ensures Advances(o, o')
  {}

  lemma SubmitAdvances(c: Core, t: Ticket, preferred: VenueId)
    requires Kept(c) && t.id !in c.orders
    ensures AllAdvance(c.orders, PipelineCore.Submit(c, t, preferred).orders)
  {
    SubmitKeeps(c, t, preferred);
    TouchedAdvances(c, PipelineCore.Submit(c, t, preferred), t.id);
  }

  lemma DecideAdvances(c: Core, i: nat, risk: RiskAnswer, failOpen: bool)
    requires Kept(c) && i < |c.intake|
    ensures AllAdvance(c.orders, PipelineCore.Decide(c, i, risk, failOpen).orders)
  {
    var id, c' := c.intake[i], PipelineCore.Decide(c, i, risk, failOpen);
    assert id in c.intake + c.riskOut;
    DecideKeeps(c, i, risk, failOpen);
    DecideFills(c, i, risk, failOpen);
    NewAdvances(c.orders[id], c'.orders[id]);
    TouchedAdvances(c, c', id);
  }

  lemma RouteAdvances(s: System, a: Action)
    requires Inv(s) && a.Route? && Enabled(s, a)
    ensures AllAdvance(s.core.orders, RoutedBy(s, a).core.orders)
  {
    var id, c' := s.core.riskOut[0], RoutedBy(s, a).core;
    RouteTouches(s, a);
    RouteFills(s, a);
    RouteKeepsInv(s, a);
    assert id in s.core.intake + s.core.riskOut;
    NewAdvances(s.core.orders[id], c'.orders[id]);
    TouchedAdvances(s.core, c', id);
  }

  lemma TakeAdvances(c: Core, v: VenueId)
    requires Kept(c) && v in c.dispatch && c.dispatch[v] != []
    ensures AllAdvance(c.orders, Taken(c, v).orders)
  {
    TakenKeeps(c, v);
    TakenOrder(c, v);
    var id := c.dispatch[v][0];
    assert id in c.dispatch[v];
    if Acknowledges(c, v) {
      TakenFills(c, v);
      NewAdvances(c.orders[id], Taken(c, v).orders[id]);
    }
    TouchedAdvances(c, Taken(c, v), id);
  }

  lemma DeclinedAdvances(c: Core, id: OrderId)
    requires Kept(c) && id in c.orders && id !in c.intake + c.riskOut
    ensures AllAdvance(c.orders, Declined(c, id).orders)
  {
    DeclinedKeeps(c, id);
    TouchedAdvances(c, Declined(c, id), id);
  }

  lemma SubmittedAdvances(s: System, v: VenueId, accepted: bool, slipped: real)
    requires Inv(s) && Enabled(s, SubmitOrder(v, accepted, slipped))
    ensures AllAdvance(s.core.orders, SubmittedTo(s, v, accepted, slipped).core.orders)
  {
    HandPastRouter(s, v);
    if !accepted {
      DeclinedAdvances(s.core, s.desks[v].hand.value);
    }
  }

  lemma FilledAdvances(o: OrderState, f: Fill, g: Grid)
    requires Sound(o) && 0.0 < f.quantity
    ensures Advances(o, AfterFill(o, f, g))
  {}

  lemma ProcessedAdvances(c: Core, f: Fill, g: Grid)
    requires Kept(c) && 0.0 < f.quantity
    ensures AllAdvance(c.orders, PipelineCore.Processed(c, f, g).orders)
  {
    ProcessedKeeps(c, f, g);
    if f.order in c.orders {
      FilledAdvances(c.orders[f.order], f, g);
    }
    TouchedAdvances(c, PipelineCore.Processed(c, f, g), f.order);
  }

  lemma CollectAdvances(s: System, v: VenueId)
    requires Inv(s) && Enabled(s, Collect(v))
    ensures AllAdvance(s.core.orders, Collected(s, v).core.orders)
  {
    NextFillOwned(s, v);
    ProcessedAdvances(s.core, NextFill(s.desks[v]), s.cfg.g);
  }

  lemma StepAdvances(s: System, a: Action)
    requires Inv(s) && Enabled(s, a)
    ensures AllAdvance(s.core.orders, Do(s, a).core.orders)
  {
    match a
    case Submit(t, preferred) => SubmitAdvances(s.core, t, preferred);
    case Decide(i, risk) => DecideAdvances(s.core, i, risk, s.cfg.failOpen);
    case Route(_, _, _, _) => RouteAdvances(s, a);
    case Take(v) =>
      TakeAdvances(s.core, v);
      TookDesk(s, v);
    case SubmitOrder(v, accepted, slipped) => SubmittedAdvances(s, v, accepted, slipped);
    case Collect(v) => CollectAdvances(s, v);
    case _ => QuietCore(s, a);
  }

  lemma {:induction false} FurtherAdvances(s: System, more: seq<Action>)
    requires Inv(s)
    ensures AllAdvance(s.core.orders, Further(s, more).core.orders)
    decreases |more|
  {
    if more != [] {
      if Enabled(s, more[0]) {
        var t := Do(s, more[0]);
        StepKeepsInv(s, more[0]);
        StepAdvances(s, more[0]);
        FurtherAdvances(t, more[1..]);
        AllAdvanceOn(s.core.orders, t.core.orders, Further(t, more[1..]).core.orders);
      } else {
        FurtherAdvances(s, more[1..]);
      }
    }
  }

  // ---------------------------------------------------------------- the results

  /** From every reachable state and whatever happens next: an order keeps its ticket and its fills, goes from New by
      Acknowledged and PartiallyFilled to an end and never back, and once filled, cancelled or rejected stays exactly
      as it is. */
  lemma OrdersOnlyAdvance(cfg: Config, actions: seq<Action>, more: seq<Action>, id: OrderId)
    requires id in Run(cfg, actions).core.orders
    ensures id in Run(cfg, actions + more).core.orders
    ensures Advances(Run(cfg, actions).core.orders[id], Run(cfg, actions + more).core.orders[id])
  {
    Reachable(cfg, actions);
    RunFurther(cfg, actions, more);
    FurtherAdvances(Run(cfg, actions), more);
  }

  lemma RefusedNow(s: System, v: VenueId, slipped: real)
    requires Inv(s) && Enabled(s, SubmitOrder(v, false, slipped)) && v in s.desks && s.desks[v].hand.Some?
    ensures var id, orders := s.desks[v].hand.value, SubmittedTo(s, v, false, slipped).core.orders;
      id in orders && orders[id].status == Rejected && orders[id].fills == []
  {
    assert DeskSafe(s.core.orders, v, v in s.cfg.simulated, s.desks[v]);
    HandPastRouter(s, v);
  }

  /** From every reachable state: an order whose SubmitOrder call the venue answers with an error is rejected with
      nothing filled, whatever happens next, even if the venue then reports fills for it. */
  lemma VenueRefusalIsFinal(cfg: Config, actions: seq<Action>, v: VenueId, slipped: real, more: seq<Action>)
    requires v in Run(cfg, actions).desks && Run(cfg, actions).desks[v].hand.Some?
    ensures var id := Run(cfg, actions).desks[v].hand.value;
      var orders := Run(cfg, actions + [SubmitOrder(v, false, slipped)] + more).core.orders;
      id in orders && orders[id].status == Rejected && orders[id].fills == []
  {
    var s, a := Run(cfg, actions), SubmitOrder(v, false, slipped);
    Reachable(cfg, actions);
    assert (actions + [a])[..|actions|] == actions;
    RefusedNow(s, v, slipped);
    OrdersOnlyAdvance(cfg, actions + [a], more, s.desks[v].hand.value);
  }

  // ---------------------------------------------------------------- a full cross

  lemma CrossedVenue(c: Core, id: OrderId, f: Fill, g: Grid)
    requires Kept(c) && InTransit(c, id) && c.orders[id].status == New && 0.0 < f.quantity && f.order == id
    ensures var r := CrossedInternally(c, id, f, g); id in r.orders && r.orders[id].venue == INTERNAL
  {
    var acked := Transition(c.orders[id].(filled := 0.0, venue := INTERNAL), Acknowledged);
    SavedKeeps(c, acked);
    ProcessedKeeps(Saved(c, acked), f, g);
  }

  /** A cross that leaves nothing is for the whole order. */
  lemma FullCross(s: System)
    requires Kept(s.core) && RestingSafe(s.resting) && s.core.riskOut != []
    requires CrossOf(s).result.Crossed? && CrossOf(s).result.residual.None?
    ensures var o := s.core.orders[s.core.riskOut[0]];
      o.status == New && CrossOf(s).result.incoming.quantity == o.ticket.quantity
  {
    CrossFound(s);
    assert Sound(s.core.orders[s.core.riskOut[0]]);
  }

  lemma FullyCrossedCore(c: Core, input: RouteInput, g: Grid)
    requires Kept(c) && Routable(c, input) && input.smart && input.cross.Crossed? && input.cross.residual.None?
    requires input.cross.incoming.order == c.riskOut[0]
    requires input.cross.incoming.quantity == c.orders[c.riskOut[0]].ticket.quantity
    ensures var id, r := c.riskOut[0], Routed(c, input, g);
      && r.orders.Keys == c.orders.Keys && r.dispatch == c.dispatch
      && r.orders[id].status == Filled && r.orders[id].venue == INTERNAL
  {
    var c0 := c.(riskOut := c.riskOut[1..]);
    assert c.riskOut[0] in c.intake + c.riskOut;
    assert Sound(c.orders[c.riskOut[0]]);
    PopRiskOut(c);
    CrossCore(c, input.cross.incoming, g);
    CrossedVenue(c0, c.riskOut[0], input.cross.incoming, g);
    assert Sound(CrossedInternally(c0, c.riskOut[0], input.cross.incoming, g).orders[c.riskOut[0]]);
  }

  /** From every reachable state: an order that crosses in full is filled at INTERNAL, is queued nowhere and has no
      children, and stays exactly so whatever happens next. */
  lemma FullyCrossedIsDone(cfg: Config, actions: seq<Action>, a: Action, more: seq<Action>)
    requires Crosses(Run(cfg, actions), a) && CrossOf(Run(cfg, actions)).result.residual.None?
    ensures var s, s' := Run(cfg, actions), Run(cfg, actions + [a]);
      var id := s.core.riskOut[0];
      && s'.core.orders.Keys == s.core.orders.Keys && s'.core.dispatch == s.core.dispatch
      && id in s'.core.orders && s'.core.orders[id].status == Filled && s'.core.orders[id].venue == INTERNAL
      && id in Run(cfg, actions + [a] + more).core.orders
      && Run(cfg, actions + [a] + more).core.orders[id] == s'.core.orders[id]
  {
    var s := Run(cfg, actions);
    Reachable(cfg, actions);
    assert (actions + [a])[..|actions|] == actions;
    FullCross(s);
    CrossFound(s);
    FullyCrossedCore(s.core, InputOf(s, a), s.cfg.g);
    OrdersOnlyAdvance(cfg, actions + [a], more, s.core.riskOut[0]);
  }
}
