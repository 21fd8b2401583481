/** The pipeline with the router that gateway/cmd/gateway/main.go wires: best price by default, and the
    preferred venue for an order that names one. The candidates are the stubs of
    gateway/internal/pipeline/pipeline.go, each of which claims depth for the whole order. */
module WiredRouter {
  import opened Routing
  import opened Wrappers
  import opened Orders
  import opened PipelineCore
  import opened PipelineLedger
  import opened PipelineMachine
  import opened PipelineSafety
  import opened PipelineResidual
  import opened ResidualChildren
  import opened Unserved
  import Decimals
  import VenueRanking

  // ---------------------------------------------------------------- the answers

  function Stub(t: Ticket, v: VenueId): VenueRanking.Candidate {
    var price := if t.price == 0.0 then 1.0 else t.price;
    VenueRanking.Candidate(v, price, price, t.quantity, 50, 0.95)
  }

  function Stubs(t: Ticket, venues: seq<VenueId>): (cs: seq<VenueRanking.Candidate>)
    ensures |cs| == |venues| && forall k | 0 <= k < |venues| :: cs[k] == Stub(t, venues[k])
  {
    seq(|venues|, k requires 0 <= k < |venues| => Stub(t, venues[k]))
  }

  /** The order names a venue. */
  predicate NamesVenue(o: OrderState) {
    o.venue != "" && o.venue != "smart" && o.venue != INTERNAL
  }

  ghost predicate BestPriced(o: OrderState, venues: seq<VenueId>, answer: RouterAnswer) {
    exists r :: VenueRanking.BestPriceAnswer(o.ticket.side, o.ticket.quantity, Stubs(o.ticket, venues), r)
      && answer == if r.Success? then Allocations(r.value) else RouterError
  }

  ghost predicate WiredAnswer(o: OrderState, venues: seq<VenueId>, answer: RouterAnswer) {
    if NamesVenue(o) && o.venue in venues
    then answer == Allocations([Allocation(o.venue, o.ticket.quantity, PreferredVenue)])
    else BestPriced(o, venues, answer)
  }

  /** Whatever the order and the venues, the whole order goes to one of them. */
  lemma WiredAnswersWithOneVenue(o: OrderState, venues: seq<VenueId>, answer: RouterAnswer)
    requires venues != [] && WiredAnswer(o, venues, answer)
    ensures answer.Allocations? && |answer.allocations| == 1
    ensures answer.allocations[0].venue in venues && answer.allocations[0].quantity == o.ticket.quantity
  {
    if !(NamesVenue(o) && o.venue in venues) {
      var stubs := Stubs(o.ticket, venues);
      var r :| VenueRanking.BestPriceAnswer(o.ticket.side, o.ticket.quantity, stubs, r)
        && answer == if r.Success? then Allocations(r.value) else RouterError;
      var best := VenueRanking.Ranked(o.ticket.side, stubs)[0];
      assert stubs[best] == Stub(o.ticket, venues[best]);
    }
  }

  // ---------------------------------------------------------------- routing steps

  ghost predicate Lists(venues: seq<VenueId>, cfg: Config) {
    forall v :: v in venues <==> v in cfg.venues
  }

  /** The order the router is asked about: after a cross it is marked for INTERNAL. */
  ghost function Asked(s: System): OrderState
    requires Linked(s.core) && s.core.riskOut != []
  {
    var o := s.core.orders[s.core.riskOut[0]];
    if CrossOf(s).result.Crossed? then o.(venue := INTERNAL) else o
  }

  ghost predicate Wired(s: System, a: Action, venues: seq<VenueId>)
    requires a.Route? && Enabled(s, a)
  {
    s.cfg.smart && Lists(venues, s.cfg) && WiredAnswer(Asked(s), venues, a.answer)
  }

  lemma WiredNeverSplits(s: System, a: Action, venues: seq<VenueId>)
    requires a.Route? && Enabled(s, a) && Wired(s, a, venues)
    ensures !Splits(s.core, a.answer) && !Forwards(s, a)
  {
    if venues != [] {
      WiredAnswersWithOneVenue(Asked(s), venues, a.answer);
    } else {
      assert s.cfg.venues == {} && s.core.dispatch.Keys == {};
    }
  }

  /** From every reachable state: what a cross leaves of an order never reaches a venue, neither as the order
      itself, in any continuation, nor as a child, for it has none. */
  lemma WiredResidualStaysInside(cfg: Config, actions: seq<Action>, a: Action, venues: seq<VenueId>)
    requires LeavesResidual(Run(cfg, actions), a) && Wired(Run(cfg, actions), a, venues)
    ensures forall more :: NeverCalled(Run(cfg, actions + [a] + more), Run(cfg, actions).core.riskOut[0])
    ensures Children(Run(cfg, actions), a) == {}
  {
    ResidualReachesAVenueExactlyBySplitting(cfg, actions, a);
    Reachable(cfg, actions);
    WiredNeverSplits(Run(cfg, actions), a, venues);
    ChildrenOnlyBySplitting(Run(cfg, actions), a);
  }

  // ---------------------------------------------------------------- whole runs

  ghost predicate WiredRun(cfg: Config, actions: seq<Action>, venues: seq<VenueId>) {
    forall k | 0 <= k < |actions| && actions[k].Route? && Enabled(Run(cfg, actions[..k]), actions[k]) ::
      Wired(Run(cfg, actions[..k]), actions[k], venues)
  }

  /** Someone submitted this ticket. */
  ghost predicate Entered(actions: seq<Action>, t: Ticket) {
    exists k :: 0 <= k < |actions| && actions[k].Submit? && actions[k].ticket == t
  }

  ghost predicate AllEntered(s: System, actions: seq<Action>) {
    && (forall id | id in s.core.orders :: Entered(actions, s.core.orders[id].ticket))
    && (forall k | 0 <= k < |s.calls| :: Entered(actions, s.calls[k].order.ticket))
  }

  lemma RoutedOutKeys(c: Core, id: OrderId, input: RouteInput)
    requires Linked(c) && id in c.orders && GoodAnswer(c, input.answer, input.ids) && !Splits(c, input.answer)
    ensures RoutedOut(c, id, input.answer, input.ids, input.any, input.ready).orders.Keys == c.orders.Keys
  {
    RoutedOutFills(c, id, input.answer, input.ids, input.any, input.ready);
  }

  lemma RoutedSmartKeys(c: Core, input: RouteInput, g: Decimals.Grid)
    requires Kept(c) && Routable(c, input) && input.smart && !Splits(c, input.answer)
    ensures Routed(c, input, g).orders.Keys == c.orders.Keys
  {
    var c0, id := c.(riskOut := c.riskOut[1..]), c.riskOut[0];
    PopRiskOut(c);
    if input.cross.NotCrossed? {
      RoutedOutKeys(c0, id, input);
    } else if input.cross.residual.Some? {
      RoutedAfterCross(c, input, g);
      CrossedKeepsLines(c0, id, input.cross.incoming, g);
      RoutedOutKeys(CrossedInternally(c0, id, input.cross.incoming, g), id, input);
    }
  }

  lemma CrossedKeepsLines(c: Core, id: OrderId, f: Fill, g: Decimals.Grid)
    requires Linked(c) && id in c.orders && c.orders[id].status == New && 0.0 < f.quantity
    ensures CrossedInternally(c, id, f, g).dispatch == c.dispatch
  {
    ProcessedKeepsLines(Saved(c, Transition(c.orders[id].(filled := 0.0, venue := INTERNAL), Acknowledged)), f, g);
  }

  lemma ProcessedKeepsLines(c: Core, f: Fill, g: Decimals.Grid)
    requires Linked(c) && 0.0 < f.quantity
    ensures PipelineCore.Processed(c, f, g).dispatch == c.dispatch
  {}

  /** Orders are made by submissions and splits only. */
  lemma StepKeys(s: System, a: Action)
    requires Inv(s) && Enabled(s, a) && !a.Submit? && (a.Route? ==> s.cfg.smart && !Splits(s.core, a.answer))
    ensures Do(s, a).core.orders.Keys == s.core.orders.Keys
  {
    if a.Route? {
      RoutedSmartKeys(s.core, InputOf(s, a), s.cfg.g);
    } else {
      OrdersStay(s, a);
    }
  }

  lemma EnteredMore(actions: seq<Action>, a: Action, t: Ticket)
    ensures Entered(actions, t) ==> Entered(actions + [a], t)
    ensures a.Submit? && a.ticket == t ==> Entered(actions + [a], t)
  {
    if k :| 0 <= k < |actions| && actions[k].Submit? && actions[k].ticket == t {
      assert (actions + [a])[k] == actions[k];
    }
    assert (actions + [a])[|actions|] == a;
  }

  /** The tickets after a step are those before it, and that of a submission. */
  lemma StepTickets(s: System, a: Action, id: OrderId)
    requires Inv(s) && Enabled(s, a) && (a.Route? ==> s.cfg.smart && !Splits(s.core, a.answer))
    requires id in Do(s, a).core.orders
    ensures if id in s.core.orders then Do(s, a).core.orders[id].ticket == s.core.orders[id].ticket
            else a.Submit? && Do(s, a).core.orders[id].ticket == a.ticket
  {
    if id in s.core.orders {
      StepKeepsFills(s, a);
    } else if !a.Submit? {
      StepKeys(s, a);
    } else {
      SubmitKeeps(s.core, a.ticket, a.preferred);
    }
  }

  lemma NewCall(s: System, a: Action)
    requires Enabled(s, a)
    ensures Do(s, a).calls == s.calls
         || (a.SubmitOrder? && s.desks[a.venue].hand.value in s.core.orders
             && Do(s, a).calls == s.calls + [Call(a.venue, s.core.orders[s.desks[a.venue].hand.value])])
  {}

  lemma StepKeepsEntered(s: System, actions: seq<Action>, a: Action)
    requires Inv(s) && Enabled(s, a) && AllEntered(s, actions)
    requires (a.Route? ==> s.cfg.smart && !Splits(s.core, a.answer))
    ensures AllEntered(Do(s, a), actions + [a])
  {
    forall id | id in Do(s, a).core.orders ensures Entered(actions + [a], Do(s, a).core.orders[id].ticket) {
      StepTickets(s, a, id);
      EnteredMore(actions, a, Do(s, a).core.orders[id].ticket);
    }
    CallsKeepEntered(s, actions, a);
  }

  lemma CallsKeepEntered(s: System, actions: seq<Action>, a: Action)
    requires Enabled(s, a) && AllEntered(s, actions)
    ensures forall k | 0 <= k < |Do(s, a).calls| :: Entered(actions + [a], Do(s, a).calls[k].order.ticket)
  {
    NewCall(s, a);
    forall t ensures Entered(actions, t) ==> Entered(actions + [a], t) {
      EnteredMore(actions, a, t);
    }
  }

  lemma AllEnteredMore(s: System, actions: seq<Action>, a: Action)
    requires AllEntered(s, actions)
    ensures AllEntered(s, actions + [a])
  {
    forall t ensures Entered(actions, t) ==> Entered(actions + [a], t) {
      EnteredMore(actions, a, t);
    }
  }

  lemma WiredPrefix(cfg: Config, actions: seq<Action>, venues: seq<VenueId>)
    requires actions != [] && WiredRun(cfg, actions, venues)
    ensures WiredRun(cfg, actions[..|actions| - 1], venues)
  {
    assert forall k | 0 <= k < |actions| - 1 :: actions[..|actions| - 1][..k] == actions[..k];
  }

  lemma {:induction false} WiredRunsEnter(cfg: Config, actions: seq<Action>, venues: seq<VenueId>)
    requires WiredRun(cfg, actions, venues)
    ensures AllEntered(Run(cfg, actions), actions)
  {
    if actions != [] {
      var n := |actions| - 1;
      var s, a := Run(cfg, actions[..n]), actions[n];
      WiredPrefix(cfg, actions, venues);
      WiredRunsEnter(cfg, actions[..n], venues);
      Reachable(cfg, actions[..n]);
      assert actions == actions[..n] + [a];
      if Enabled(s, a) {
        if a.Route? {
          WiredNeverSplits(s, a, venues);
        }
        StepKeepsEntered(s, actions[..n], a);
      } else {
        AllEnteredMore(s, actions[..n], a);
      }
    }
  }

  /** In every run with the wired router, each SubmitOrder call is for a whole order as it was submitted, which
      never crossed; there are no other orders than the submitted ones. */
  lemma WiredVenuesGetWholeOrders(cfg: Config, actions: seq<Action>, venues: seq<VenueId>)
    requires WiredRun(cfg, actions, venues)
    ensures forall id | id in Run(cfg, actions).core.orders ::
      Entered(actions, Run(cfg, actions).core.orders[id].ticket)
    ensures forall k | 0 <= k < |Run(cfg, actions).calls| ::
      var t := Run(cfg, actions).calls[k].order.ticket; Entered(actions, t) && t.id !in CrossedIn(cfg, actions)
  {
    WiredRunsEnter(cfg, actions, venues);
    CrossedOrdersAreNeverSubmitted(cfg, actions);
  }
}
