/** With the wired router, a client that names a registered venue gets that venue. */
module NamedVenues {
  import opened Routing
  import opened Wrappers
  import opened Orders
  import opened PipelineCore
  import opened PipelineLedger
  import opened PipelineMachine
  import opened PipelineSafety
  import opened PipelineResidual
  import opened ResidualChildren
  import opened Unserved
  import opened WiredRouter
  import Crossing
  import Decimals
  import VenueRanking

  // ---------------------------------------------------------------- an order bound to a venue

  /** The order is submitted to no other venue. */
  ghost predicate CalledAt(calls: seq<Call>, id: OrderId, p: VenueId) {
    forall k | 0 <= k < |calls| && calls[k].order.ticket.id == id :: calls[k].venue == p
  }

  /** Unless it has a fill, the order carries the venue; it is submitted to no other. */
  ghost predicate Bound(s: System, id: OrderId, p: VenueId) {
    && id in s.core.orders && (s.core.orders[id].fills == [] ==> s.core.orders[id].venue == p)
    && CalledAt(s.calls, id, p)
  }

  /** The same of the order alone, after a step. */
  ghost predicate StaysBound(orders: OrderMap, orders': OrderMap, id: OrderId) {
    && id in orders && id in orders'
    && (orders'[id].fills == [] ==> orders[id].fills == [] && orders'[id].venue == orders[id].venue)
  }

  lemma DecideBound(c: Core, i: nat, risk: RiskAnswer, failOpen: bool, id: OrderId)
    requires Linked(c) && i < |c.intake| && id in c.orders
    ensures StaysBound(c.orders, PipelineCore.Decide(c, i, risk, failOpen).orders, id)
  {
    var rest := c.(intake := Crossing.Without(c.intake, i));
    if !Approves(risk, failOpen) {
      DeclinedStatus(rest, c.intake[i], id);
    }
  }

  lemma ProcessedBound(c: Core, f: Fill, g: Decimals.Grid, id: OrderId)
    requires Kept(c) && 0.0 < f.quantity && id in c.orders
    ensures StaysBound(c.orders, PipelineCore.Processed(c, f, g).orders, id)
  {
    ProcessedKeeps(c, f, g);
    ProcessedFills(c, f, g);
  }

  lemma CollectBound(s: System, v: VenueId, id: OrderId)
    requires Inv(s) && Enabled(s, Collect(v)) && id in s.core.orders
    ensures StaysBound(s.core.orders, Collected(s, v).core.orders, id)
  {
    NextFillOwned(s, v);
    ProcessedBound(s.core, NextFill(s.desks[v]), s.cfg.g, id);
  }

  // ---------------------------------------------------------------- routing

  /** A single allocation leaves the order with the allocated venue. */
  lemma AllocatedVenue(c: Core, id: OrderId, a: Allocation, ready: set<VenueId>)
    requires Linked(c) && id in c.orders
    ensures var r := Dispatched(Assigned(c, id, a.venue), id, a.venue, ready);
      id in r.orders && r.orders[id].venue == a.venue
  {}

  lemma NamedRouted(c: Core, input: RouteInput, g: Decimals.Grid, p: VenueId)
    requires Kept(c) && Routable(c, input) && input.smart && input.cross.NotCrossed? && p in c.dispatch
    requires input.answer.Allocations? && |input.answer.allocations| == 1 && input.answer.allocations[0].venue == p
    ensures c.riskOut[0] in Routed(c, input, g).orders && Routed(c, input, g).orders[c.riskOut[0]].venue == p
  {
    PopRiskOut(c);
    AllocatedVenue(c.(riskOut := c.riskOut[1..]), c.riskOut[0], input.answer.allocations[0], input.ready);
  }

  lemma RouteBound(s: System, a: Action, venues: seq<VenueId>, id: OrderId, p: VenueId)
    requires Inv(s) && a.Route? && Enabled(s, a) && Wired(s, a, venues) && Bound(s, id, p)
    requires p != "" && p != "smart" && p != INTERNAL && p in s.cfg.venues
    ensures var orders := RoutedBy(s, a).core.orders;
      id in orders && (orders[id].fills == [] ==> orders[id].venue == p)
  {
    RouteFacts(s, a);
    RouteFills(s, a);
    RouteTouches(s, a);
    if id == s.core.riskOut[0] && !Crosses(s, a) && s.core.orders[id].fills == [] {
      assert Asked(s) == s.core.orders[id];
      NamedRouted(s.core, InputOf(s, a), s.cfg.g, p);
    }
  }

  // ---------------------------------------------------------------- every step

  lemma LineBound(s: System, a: Action, id: OrderId)
    requires Inv(s) && Enabled(s, a) && id in s.core.orders && (a.Submit? || a.Decide? || a.Take?)
    ensures StaysBound(s.core.orders, Do(s, a).core.orders, id)
  {
    match a
    case Submit(t, preferred) => SubmitStatus(s.core, t, preferred, id);
    case Decide(i, risk) => DecideBound(s.core, i, risk, s.cfg.failOpen, id);
    case Take(v) =>
      TakenStatus(s.core, v, id);
      TookDesk(s, v);
  }

  lemma SubmitOrderBound(s: System, v: VenueId, accepted: bool, slipped: real, id: OrderId)
    requires Inv(s) && Enabled(s, SubmitOrder(v, accepted, slipped)) && id in s.core.orders
    ensures StaysBound(s.core.orders, SubmittedTo(s, v, accepted, slipped).core.orders, id)
  {
    SubmittedStatus(s, v, accepted, slipped, id);
  }

  lemma QuietBound(s: System, a: Action, id: OrderId)
    requires Enabled(s, a) && Quiet(a) && id in s.core.orders
    ensures StaysBound(s.core.orders, Do(s, a).core.orders, id)
  {
    QuietCore(s, a);
  }

  lemma OtherBound(s: System, a: Action, id: OrderId)
    requires Inv(s) && Enabled(s, a) && id in s.core.orders && !a.Route?
    ensures StaysBound(s.core.orders, Do(s, a).core.orders, id)
  {
    match a
    case SubmitOrder(v, accepted, slipped) => SubmitOrderBound(s, v, accepted, slipped, id);
    case Collect(v) => CollectBound(s, v, id);
    case Submit(_, _) => LineBound(s, a, id);
    case Decide(_, _) => LineBound(s, a, id);
    case Take(_) => LineBound(s, a, id);
    case _ => QuietBound(s, a, id);
  }

  lemma OneMoreCall(calls: seq<Call>, c: Call, id: OrderId, p: VenueId)
    requires CalledAt(calls, id, p) && (c.order.ticket.id == id ==> c.venue == p)
    ensures CalledAt(calls + [c], id, p)
  {}

  /** What is submitted carries the venue it is submitted to. */
  lemma CallsBound(s: System, a: Action, id: OrderId, p: VenueId)
    requires Inv(s) && Enabled(s, a) && Bound(s, id, p)
    ensures CalledAt(Do(s, a).calls, id, p)
  {
    NewCall(s, a);
    if a.SubmitOrder? && Do(s, a).calls != s.calls {
      HandBound(s, a.venue, id, p);
      OneMoreCall(s.calls, Call(a.venue, s.core.orders[s.desks[a.venue].hand.value]), id, p);
    }
  }

  lemma HandBound(s: System, v: VenueId, id: OrderId, p: VenueId)
    requires Inv(s) && v in s.desks && s.desks[v].hand.Some? && Bound(s, id, p)
    ensures s.desks[v].hand.value in s.core.orders
    ensures s.core.orders[s.desks[v].hand.value].ticket.id == id ==> v == p
  {
    HandPastRouter(s, v);
    assert DeskSafe(s.core.orders, v, v in s.cfg.simulated, s.desks[v]);
  }

  lemma StepBound(s: System, a: Action, venues: seq<VenueId>, id: OrderId, p: VenueId)
    requires Inv(s) && Enabled(s, a) && Bound(s, id, p) && (a.Route? ==> Wired(s, a, venues))
    requires p != "" && p != "smart" && p != INTERNAL && p in s.cfg.venues
    ensures Bound(Do(s, a), id, p)
  {
    CallsBound(s, a, id, p);
    if a.Route? {
      RouteBound(s, a, venues, id, p);
    } else {
      OtherBound(s, a, id);
    }
  }

  // ---------------------------------------------------------------- whole runs

  /** Action k submits a valid order. */
  ghost predicate Enters(cfg: Config, actions: seq<Action>, k: nat, t: Ticket, p: VenueId) {
    && k < |actions| && actions[k] == Submit(t, p) && Enabled(Run(cfg, actions[..k]), actions[k])
    && 0.0 < t.quantity && t.instrument != ""
  }

  lemma EntersBound(s: System, t: Ticket, p: VenueId)
    requires Inv(s) && Enabled(s, Submit(t, p)) && 0.0 < t.quantity && t.instrument != ""
    ensures Bound(Do(s, Submit(t, p)), t.id, p)
  {
    var c := PipelineCore.Submit(s.core, t, p);
    assert t.id in c.orders && c.orders[t.id] == NewOrder(t, p);
    NewNeverCalled(s, t.id);
  }

  /** A wired routing step, if the last action is one. */
  lemma WiredLast(cfg: Config, actions: seq<Action>, venues: seq<VenueId>)
    requires actions != [] && WiredRun(cfg, actions, venues)
    ensures var s, a := Run(cfg, actions[..|actions| - 1]), actions[|actions| - 1];
      a.Route? && Enabled(s, a) ==> Wired(s, a, venues)
  {}

  lemma NextBound(s: System, a: Action, venues: seq<VenueId>, id: OrderId, p: VenueId) returns (s': System)
    requires Inv(s) && Bound(s, id, p) && (a.Route? && Enabled(s, a) ==> Wired(s, a, venues))
    requires p != "" && p != "smart" && p != INTERNAL && p in s.cfg.venues
    ensures s' == (if Enabled(s, a) then Do(s, a) else s) && Bound(s', id, p)
  {
    s' := s;
    if Enabled(s, a) {
      s' := Do(s, a);
      StepBound(s, a, venues, id, p);
    }
  }

  lemma EntersNow(cfg: Config, actions: seq<Action>, t: Ticket, p: VenueId)
    requires actions != [] && Enters(cfg, actions, |actions| - 1, t, p)
    ensures Bound(Run(cfg, actions), t.id, p)
  {
    Reachable(cfg, actions[..|actions| - 1]);
    EntersBound(Run(cfg, actions[..|actions| - 1]), t, p);
  }

  lemma EntersBefore(cfg: Config, actions: seq<Action>, k: nat, t: Ticket, p: VenueId)
    requires k + 1 < |actions| && Enters(cfg, actions, k, t, p)
    ensures Enters(cfg, actions[..|actions| - 1], k, t, p)
  {
    assert actions[..|actions| - 1][..k] == actions[..k];
  }

  lemma BoundOn(cfg: Config, actions: seq<Action>, venues: seq<VenueId>, id: OrderId, p: VenueId)
    requires actions != [] && WiredRun(cfg, actions, venues) && Bound(Run(cfg, actions[..|actions| - 1]), id, p)
    requires p != "" && p != "smart" && p != INTERNAL && p in cfg.venues
    ensures Bound(Run(cfg, actions), id, p)
  {
    Reachable(cfg, actions[..|actions| - 1]);
    WiredLast(cfg, actions, venues);
    var s' := NextBound(Run(cfg, actions[..|actions| - 1]), actions[|actions| - 1], venues, id, p);
  }

  lemma {:induction false} NamedBound(
      cfg: Config, actions: seq<Action>, venues: seq<VenueId>, k: nat, t: Ticket, p: VenueId)
    requires WiredRun(cfg, actions, venues) && Enters(cfg, actions, k, t, p)
    requires p != "" && p != "smart" && p != INTERNAL && p in cfg.venues
    ensures Bound(Run(cfg, actions), t.id, p)
  {
    if k + 1 == |actions| {
      EntersNow(cfg, actions, t, p);
    } else {
      WiredPrefix(cfg, actions, venues);
      EntersBefore(cfg, actions, k, t, p);
      NamedBound(cfg, actions[..|actions| - 1], venues, k, t, p);
      BoundOn(cfg, actions, venues, t.id, p);
    }
  }

  /** Over every run with the wired router: an order whose client names a registered venue is submitted to that venue
      or to none. */
  lemma NamedVenueIsHonoured(
      cfg: Config, actions: seq<Action>, venues: seq<VenueId>, k: nat, t: Ticket, p: VenueId, j: nat)
    requires WiredRun(cfg, actions, venues) && Enters(cfg, actions, k, t, p)
    requires p != "" && p != "smart" && p != "INTERNAL" && p in cfg.venues
    requires j < |Run(cfg, actions).calls| && Run(cfg, actions).calls[j].order.ticket.id == t.id
    ensures Run(cfg, actions).calls[j].venue == p
  {
    NamedBound(cfg, actions, venues, k, t, p);
  }

  // ---------------------------------------------------------------- and without a name

  lemma StubsTie(t: Ticket, venues: seq<VenueId>, i: nat, j: nat)
    requires i < |venues| && j < |venues|
    ensures !VenueRanking.Better(t.side, Stubs(t, venues)[i], Stubs(t, venues)[j])
  {}

  /** All stub candidates tie, so an order that names no registered venue goes to the first in the list, whatever its
      price and side. */
  lemma UnnamedGoesToTheFirst(o: OrderState, venues: seq<VenueId>, answer: RouterAnswer)
    requires venues != [] && WiredAnswer(o, venues, answer)
    requires o.venue !in venues || o.venue == "" || o.venue == "smart" || o.venue == "INTERNAL"
    ensures answer.Allocations? && |answer.allocations| == 1 && answer.allocations[0].venue == venues[0]
  {
    WiredAnswersWithOneVenue(o, venues, answer);
    var stubs := Stubs(o.ticket, venues);
    var p := VenueRanking.Ranked(o.ticket.side, stubs);
    VenueRanking.RankingIsStablePermutation(o.ticket.side, stubs);
    assert 0 in p;
    var i :| 0 <= i < |p| && p[i] == 0;
    if i != 0 {
      StubsTie(o.ticket, venues, p[0], p[i]);
    }
  }
}
