/** Where orders come from: every order of a run has the terms of a valid submission. */
module OrderOrigins {
  import opened Routing
  import opened Wrappers
  import opened Decimals
  import opened Orders
  import opened PipelineCore
  import opened PipelineLedger
  import opened PipelineMachine
  import opened PipelineSafety
  import opened PipelineResidual
  import opened ResidualChildren
  import opened Unserved
  import Crossing

  /** All but the ID and the quantity. */
  function Bare(t: Ticket): Ticket {
    t.(id := 0, quantity := 0.0)
  }

  ghost function Terms(orders: OrderMap): set<Ticket> {
    set id | id in orders :: Bare(orders[id].ticket)
  }

  lemma TermsOfSame(orders: OrderMap, orders': OrderMap)
    requires FillsKept(orders, orders') && orders'.Keys == orders.Keys
    ensures Terms(orders') == Terms(orders)
  {
    forall t ensures t in Terms(orders') <==> t in Terms(orders) {
      if t in Terms(orders) {
        var id :| id in orders && Bare(orders[id].ticket) == t;
        assert id in orders' && Bare(orders'[id].ticket) == t;
      }
    }
  }

  // ---------------------------------------------------------------- routing

  lemma ChildTicket(c: Core, o: OrderState, ready: set<VenueId>)
    requires Linked(c) && o.ticket.id !in c.orders && Sound(o)
    ensures var r := WithChild(c, o, ready); o.ticket.id in r.orders && r.orders[o.ticket.id].ticket == o.ticket
  {
    DispatchedFills(Registered(c, o), o.ticket.id, o.venue, ready);
  }

  lemma TermsOfOneMore(orders: OrderMap, orders': OrderMap, child: OrderId)
    requires FillsKept(orders, orders') && orders'.Keys == orders.Keys + {child}
    requires Bare(orders'[child].ticket) in Terms(orders)
    ensures Terms(orders') == Terms(orders)
  {
    forall t | t in Terms(orders) ensures t in Terms(orders') {
      var id :| id in orders && Bare(orders[id].ticket) == t;
      assert id in orders';
    }
    forall t | t in Terms(orders') ensures t in Terms(orders) {
      var id :| id in orders' && Bare(orders'[id].ticket) == t;
      assert id == child || id in orders;
    }
  }

  /** A child has the terms of its parent. */
  lemma TermsWithChild(c: Core, parent: Ticket, a: Allocation, child: OrderId, ready: set<VenueId>)
    requires Linked(c) && 0.0 < a.quantity && child !in c.orders && Bare(parent) in Terms(c.orders)
    ensures Terms(WithChild(c, Child(parent, a, child), ready).orders) == Terms(c.orders)
  {
    var o := Child(parent, a, child);
    ChildTicket(c, o, ready);
    WithChildFills(c, o, ready);
    TermsOfOneMore(c.orders, WithChild(c, o, ready).orders, child);
  }

  lemma {:induction false} SplitTerms(
      c: Core, parent: Ticket, allocations: seq<Allocation>, ids: seq<OrderId>, ready: set<VenueId>)
    requires Linked(c) && PositiveAllocations(allocations) && |ids| == |allocations| && FreshIds(c, ids)
    requires Bare(parent) in Terms(c.orders)
    ensures Terms(Split(c, parent, allocations, ids, ready).orders) == Terms(c.orders)
    decreases |allocations|
  {
    if allocations != [] {
      SplitStep(c, parent, allocations, ids, ready);
      TermsWithChild(c, parent, allocations[0], ids[0], ready);
      SplitTerms(WithChild(c, Child(parent, allocations[0], ids[0]), ready), parent, allocations[1..], ids[1..], ready);
    }
  }

  lemma RoutedOutTerms(
      c: Core, id: OrderId, answer: RouterAnswer, ids: seq<OrderId>, any: VenueId, ready: set<VenueId>)
    requires Linked(c) && id in c.orders && GoodAnswer(c, answer, ids)
    ensures Terms(RoutedOut(c, id, answer, ids, any, ready).orders) == Terms(c.orders)
  {
    RoutedOutFills(c, id, answer, ids, any, ready);
    if Splits(c, answer) {
      assert Bare(c.orders[id].ticket) in Terms(c.orders);
      SplitTerms(c, c.orders[id].ticket, answer.allocations, ids, ready);
    } else {
      TermsOfSame(c.orders, RoutedOut(c, id, answer, ids, any, ready).orders);
    }
  }

  lemma UncrossedTerms(c: Core, input: RouteInput, g: Grid)
    requires Kept(c) && Routable(c, input) && input.cross.NotCrossed?
    ensures Terms(Routed(c, input, g).orders) == Terms(c.orders)
  {
    var id, c0 := c.riskOut[0], c.(riskOut := c.riskOut[1..]);
    PopRiskOut(c);
    if input.smart {
      RoutedOutTerms(c0, id, input.answer, input.ids, input.any, input.ready);
    } else {
      RoutedLegacyFills(c0, id, input.any, input.ready);
      TermsOfSame(c.orders, Routed(c, input, g).orders);
    }
  }

  lemma CrossedTerms(c: Core, input: RouteInput, g: Grid)
    requires Kept(c) && Routable(c, input) && input.smart && input.cross.Crossed?
    requires input.cross.incoming.order == c.riskOut[0]
    requires input.cross.incoming.quantity <= Crossing.Remaining(c.orders[c.riskOut[0]])
    ensures Terms(Routed(c, input, g).orders) == Terms(c.orders)
  {
    var id, c0 := c.riskOut[0], c.(riskOut := c.riskOut[1..]);
    PopRiskOut(c);
    CrossCore(c, input.cross.incoming, g);
    var c1 := CrossedInternally(c0, id, input.cross.incoming, g);
    TermsOfSame(c.orders, c1.orders);
    if input.cross.residual.Some? {
      RoutedAfterCross(c, input, g);
      RoutedOutTerms(c1, id, input.answer, input.ids, input.any, input.ready);
    }
  }

  lemma RouteTerms(s: System, a: Action)
    requires Inv(s) && a.Route? && Enabled(s, a)
    ensures Terms(RoutedBy(s, a).core.orders) == Terms(s.core.orders)
  {
    if CrossOf(s).result.Crossed? {
      CrossFound(s);
      CrossedTerms(s.core, InputOf(s, a), s.cfg.g);
    } else {
      UncrossedTerms(s.core, InputOf(s, a), s.cfg.g);
    }
  }

  // ---------------------------------------------------------------- every run

  /** Only a valid submission brings new terms. */
  lemma StepTerms(s: System, a: Action)
    requires Inv(s) && Enabled(s, a)
    ensures Terms(Do(s, a).core.orders) == Terms(s.core.orders) + TermsBy(a)
  {
    assert Terms(s.core.orders) + {} == Terms(s.core.orders);
    if a.Submit? {
      SubmissionTerms(s.core, a.ticket, a.preferred);
    } else if a.Route? {
      RouteTerms(s, a);
    } else {
      StepKeepsFills(s, a);
      OrdersStay(s, a);
      TermsOfSame(s.core.orders, Do(s, a).core.orders);
    }
  }

  function TermsBy(a: Action): set<Ticket> {
    if a.Submit? && 0.0 < a.ticket.quantity && a.ticket.instrument != "" then {Bare(a.ticket)} else {}
  }

  lemma SubmissionTerms(c: Core, t: Ticket, preferred: VenueId)
    requires Linked(c) && t.id !in c.orders
    ensures Terms(PipelineCore.Submit(c, t, preferred).orders) == Terms(c.orders) + TermsBy(Submit(t, preferred))
  {
    var orders := PipelineCore.Submit(c, t, preferred).orders;
    if 0.0 < t.quantity && t.instrument != "" {
      assert orders == c.orders[t.id := NewOrder(t, preferred)];
      forall b ensures b in Terms(orders) <==> b in Terms(c.orders) + {Bare(t)} {
        if b in Terms(c.orders) {
          var id :| id in c.orders && Bare(c.orders[id].ticket) == b;
          assert id in orders && Bare(orders[id].ticket) == b;
        } else if b == Bare(t) {
          assert t.id in orders && Bare(orders[t.id].ticket) == b;
        }
      }
    }
  }

  /** The terms of the valid submissions that were enabled when they came. */
  ghost function EnteredTerms(cfg: Config, actions: seq<Action>): set<Ticket> {
    if actions == [] then {}
    else
      var n := |actions| - 1;
      EnteredTerms(cfg, actions[..n]) + if Enabled(Run(cfg, actions[..n]), actions[n]) then TermsBy(actions[n]) else {}
  }

  /** Over every run, whatever the router answers: the instruments, sides, types, prices and asset classes of the
      orders, children of splits included, are exactly those of the submissions with a positive quantity and an
      instrument. */
  lemma {:induction false} OrdersHaveEnteredTerms(cfg: Config, actions: seq<Action>)
    ensures Terms(Run(cfg, actions).core.orders) == EnteredTerms(cfg, actions)
  {
    if actions == [] {
      assert Run(cfg, actions).core.orders == map[];
    } else {
      var n := |actions| - 1;
      OrdersHaveEnteredTerms(cfg, actions[..n]);
      Reachable(cfg, actions[..n]);
      if Enabled(Run(cfg, actions[..n]), actions[n]) {
        StepTerms(Run(cfg, actions[..n]), actions[n]);
      }
    }
  }

  lemma {:induction false} EnteredAreNamed(cfg: Config, actions: seq<Action>)
    ensures forall t | t in EnteredTerms(cfg, actions) :: t.instrument != ""
  {
    if actions != [] {
      EnteredAreNamed(cfg, actions[..|actions| - 1]);
    }
  }

  /** So every order of every run has a positive quantity and an instrument. */
  lemma EveryOrderIsValid(cfg: Config, actions: seq<Action>, id: OrderId)
    requires id in Run(cfg, actions).core.orders
    ensures var t := Run(cfg, actions).core.orders[id].ticket; 0.0 < t.quantity && t.instrument != ""
  {
    OrdersHaveEnteredTerms(cfg, actions);
    EnteredAreNamed(cfg, actions);
    Reachable(cfg, actions);
    assert Bare(Run(cfg, actions).core.orders[id].ticket) in Terms(Run(cfg, actions).core.orders);
    assert Sound(Run(cfg, actions).core.orders[id]);
  }
}
