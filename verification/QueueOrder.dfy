/** Queues are first in, first out: what is queued for a venue first is submitted to it first. */
module QueueOrder {
  import opened Routing
  import opened Wrappers
  import opened Decimals
  import opened Orders
  import opened PipelineCore
  import opened PipelineLedger
  import opened PipelineMachine
  import opened PipelineSafety
  import opened PipelineResidual
  import opened Continuations
  import opened ResidualChildren
  import opened Unserved
  import Crossing

  // ---------------------------------------------------------------- queues only grow at the end

  /** The queue of the venue, with more at its end. */
  ghost predicate Grows(c: Core, c': Core, v: VenueId) {
    v in c.dispatch && v in c'.dispatch && c.dispatch[v] <= c'.dispatch[v]
  }

  lemma DispatchedGrows(c: Core, id: OrderId, venue: VenueId, ready: set<VenueId>, v: VenueId)
    requires Linked(c) && id in c.orders && v in c.dispatch
    ensures Grows(c, Dispatched(c, id, venue, ready), v)
  {}

  lemma AssignedGrows(c: Core, id: OrderId, venue: VenueId, ready: set<VenueId>, v: VenueId)
    requires Linked(c) && id in c.orders && v in c.dispatch
    ensures Grows(c, Dispatched(Assigned(c, id, venue), id, venue, ready), v)
  {
    DispatchedGrows(Assigned(c, id, venue), id, venue, ready, v);
  }

  lemma RoutedLegacyGrows(c: Core, id: OrderId, any: VenueId, ready: set<VenueId>, v: VenueId)
    requires Linked(c) && id in c.orders && v in c.dispatch
    ensures Grows(c, RoutedLegacy(c, id, any, ready), v)
  {
    var venue := LegacyVenue(c.orders[id].ticket.assetClass, c.dispatch.Keys, any);
    if venue != "" {
      AssignedGrows(c, id, venue, ready, v);
    }
  }

  lemma {:induction false} SplitGrows(
      c: Core, parent: Ticket, allocations: seq<Allocation>, ids: seq<OrderId>, ready: set<VenueId>, v: VenueId)
    requires Linked(c) && PositiveAllocations(allocations) && |ids| == |allocations| && FreshIds(c, ids)
    requires v in c.dispatch
    ensures Grows(c, Split(c, parent, allocations, ids, ready), v)
    decreases |allocations|
  {
    if allocations != [] {
      var child := Child(parent, allocations[0], ids[0]);
      SplitStep(c, parent, allocations, ids, ready);
      DispatchedGrows(Registered(c, child), child.ticket.id, child.venue, ready, v);
      SplitGrows(WithChild(c, child, ready), parent, allocations[1..], ids[1..], ready, v);
    }
  }

  lemma RoutedOutGrows(
      c: Core, id: OrderId, answer: RouterAnswer, ids: seq<OrderId>, any: VenueId, ready: set<VenueId>, v: VenueId)
    requires Linked(c) && id in c.orders && GoodAnswer(c, answer, ids) && v in c.dispatch
    ensures Grows(c, RoutedOut(c, id, answer, ids, any, ready), v)
  {
    if answer.RouterError? {
      RoutedLegacyGrows(c, id, any, ready, v);
    } else if |answer.allocations| == 1 {
      AssignedGrows(c, id, answer.allocations[0].venue, ready, v);
    } else {
      SplitGrows(c, c.orders[id].ticket, answer.allocations, ids, ready, v);
    }
  }

  lemma UncrossedGrows(c: Core, input: RouteInput, g: Grid, v: VenueId)
    requires Kept(c) && Routable(c, input) && input.cross.NotCrossed? && v in c.dispatch
    ensures Grows(c, Routed(c, input, g), v)
  {
    var c0 := c.(riskOut := c.riskOut[1..]);
    PopRiskOut(c);
    if input.smart {
      RoutedOutGrows(c0, c.riskOut[0], input.answer, input.ids, input.any, input.ready, v);
    } else {
      RoutedLegacyGrows(c0, c.riskOut[0], input.any, input.ready, v);
    }
  }

  lemma CrossedGrows(c: Core, input: RouteInput, g: Grid, v: VenueId)
    requires Kept(c) && Routable(c, input) && input.smart && input.cross.Crossed? && v in c.dispatch
    requires input.cross.incoming.order == c.riskOut[0]
    requires input.cross.incoming.quantity <= Crossing.Remaining(c.orders[c.riskOut[0]])
    ensures Grows(c, Routed(c, input, g), v)
  {
    var id, c0 := c.riskOut[0], c.(riskOut := c.riskOut[1..]);
    PopRiskOut(c);
    CrossCore(c, input.cross.incoming, g);
    if input.cross.residual.Some? {
      RoutedAfterCross(c, input, g);
      RoutedOutGrows(CrossedInternally(c0, id, input.cross.incoming, g), id, input.answer, input.ids, input.any,
                     input.ready, v);
    }
  }

  lemma RouteGrows(s: System, a: Action, v: VenueId)
    requires Inv(s) && a.Route? && Enabled(s, a) && v in s.core.dispatch
    ensures Grows(s.core, RoutedBy(s, a).core, v)
  {
    if CrossOf(s).result.Crossed? {
      CrossFound(s);
      CrossedGrows(s.core, InputOf(s, a), s.cfg.g, v);
    } else {
      UncrossedGrows(s.core, InputOf(s, a), s.cfg.g, v);
    }
  }

  lemma SubmittedLines(c: Core, t: Ticket, preferred: VenueId)
    requires Linked(c) && t.id !in c.orders
    ensures PipelineCore.Submit(c, t, preferred).dispatch == c.dispatch
  {}

  lemma DecidedLines(c: Core, i: nat, risk: RiskAnswer, failOpen: bool)
    requires Linked(c) && i < |c.intake|
    ensures PipelineCore.Decide(c, i, risk, failOpen).dispatch == c.dispatch
  {}

  lemma EntryGrows(s: System, a: Action, v: VenueId)
    requires Enabled(s, a) && (a.Submit? || a.Decide?) && v in s.core.dispatch
    ensures Grows(s.core, Do(s, a).core, v)
  {
    if a.Submit? {
      SubmittedLines(s.core, a.ticket, a.preferred);
    } else {
      DecidedLines(s.core, a.index, a.risk, s.cfg.failOpen);
    }
  }

  lemma TakenGrows(c: Core, u: VenueId, v: VenueId)
    requires Linked(c) && u in c.dispatch && c.dispatch[u] != [] && v in c.dispatch && u != v
    ensures Grows(c, Taken(c, u), v)
  {}

  lemma CalledGrows(s: System, u: VenueId, accepted: bool, slipped: real, v: VenueId)
    requires Enabled(s, SubmitOrder(u, accepted, slipped)) && v in s.core.dispatch
    ensures Grows(s.core, SubmittedTo(s, u, accepted, slipped).core, v)
  {}

  lemma CollectedGrows(s: System, u: VenueId, v: VenueId)
    requires Inv(s) && Enabled(s, Collect(u)) && v in s.core.dispatch
    ensures Grows(s.core, Collected(s, u).core, v)
  {
    NextFillOwned(s, u);
  }

  lemma QuietGrows(s: System, a: Action, v: VenueId)
    requires Enabled(s, a) && Quiet(a) && v in s.core.dispatch
    ensures Grows(s.core, Do(s, a).core, v)
  {
    QuietCore(s, a);
  }

  lemma RouteStepGrows(s: System, a: Action, v: VenueId)
    requires Inv(s) && Enabled(s, a) && a.Route? && v in s.core.dispatch
    ensures Grows(s.core, Do(s, a).core, v)
  {
    RouteGrows(s, a, v);
  }

  /** Nothing but its own dispatcher takes an order out of a queue. */
  lemma StepGrows(s: System, a: Action, v: VenueId)
    requires Inv(s) && Enabled(s, a) && v in s.core.dispatch && a != Take(v)
    ensures Grows(s.core, Do(s, a).core, v)
  {
    if a.Submit? || a.Decide? {
      EntryGrows(s, a, v);
    } else if a.Route? {
      RouteStepGrows(s, a, v);
    } else if Quiet(a) {
      QuietGrows(s, a, v);
    } else {
      VenueGrows(s, a, v);
    }
  }

  lemma TakeStepGrows(s: System, u: VenueId, v: VenueId)
    requires Inv(s) && Enabled(s, Take(u)) && v in s.core.dispatch && u != v
    ensures Grows(s.core, Took(s, u).core, v)
  {
    TookDesk(s, u);
    TakenGrows(s.core, u, v);
  }

  lemma VenueGrows(s: System, a: Action, v: VenueId)
    requires Inv(s) && Enabled(s, a) && v in s.core.dispatch && a != Take(v)
    requires a.Take? || a.SubmitOrder? || a.Collect?
    ensures Grows(s.core, Do(s, a).core, v)
  {
    match a
    case Take(u) => TakeStepGrows(s, u, v);
    case SubmitOrder(u, accepted, slipped) => CalledGrows(s, u, accepted, slipped, v);
    case Collect(u) => CollectedGrows(s, u, v);
  }

  // ---------------------------------------------------------------- orders that wait in a queue

  ghost predicate WaitsNew(s: System, v: VenueId, id: OrderId) {
    v in s.core.dispatch && id in s.core.dispatch[v] && id in s.core.orders && s.core.orders[id].status == New
  }

  /** A waiting order is New, stands in no line and no hand, and is carried to no other venue. */
  lemma WaitingFacts(s: System, v: VenueId, id: OrderId)
    requires Inv(s) && WaitsNew(s, v, id)
    ensures id !in s.core.intake && id !in s.core.riskOut && NeverCalled(s, id)
    ensures forall u | u in s.desks :: Unrelated(s.desks[u], id)
    ensures forall u | u in s.core.dispatch && id in s.core.dispatch[u] :: u == v
  {
    NobodysYet(s.core.orders, s.cfg.simulated, s.desks, id);
    NewNeverCalled(s, id);
  }

  lemma EntryLeaves(s: System, a: Action, id: OrderId)
    requires Inv(s) && Enabled(s, a) && (a.Submit? || a.Decide?)
    requires id in s.core.orders && id !in s.core.intake
    ensures id in Do(s, a).core.orders && Do(s, a).core.orders[id] == s.core.orders[id]
  {
    if a.Submit? {
      SubmitKeeps(s.core, a.ticket, a.preferred);
    } else {
      DecideKeeps(s.core, a.index, a.risk, s.cfg.failOpen);
    }
  }

  lemma TakenLeavesOther(c: Core, u: VenueId, id: OrderId)
    requires Kept(c) && u in c.dispatch && c.dispatch[u] != [] && c.dispatch[u][0] != id && id in c.orders
    ensures id in Taken(c, u).orders && Taken(c, u).orders[id] == c.orders[id]
  {
    TakenKeeps(c, u);
  }

  lemma LaterLeaves(s: System, a: Action, v: VenueId, id: OrderId)
    requires Inv(s) && Enabled(s, a) && WaitsNew(s, v, id) && (a.Route? || a.SubmitOrder? || a.Collect?)
    ensures id in Do(s, a).core.orders && Do(s, a).core.orders[id] == s.core.orders[id]
  {
    WaitingFacts(s, v, id);
    match a
    case Route(_, _, _, _) => RouteTouches(s, a);
    case SubmitOrder(u, accepted, slipped) => SubmitTouches(s, u, accepted, slipped);
    case Collect(u) => CollectTouches(s, u);
  }

  /** Until its own dispatcher takes it, nothing happens to it. */
  lemma WaitingStays(s: System, a: Action, v: VenueId, id: OrderId)
    requires Inv(s) && Enabled(s, a) && WaitsNew(s, v, id)
    requires a == Take(v) ==> s.core.dispatch[v] != [] && s.core.dispatch[v][0] != id
    ensures id in Do(s, a).core.orders && Do(s, a).core.orders[id] == s.core.orders[id]
  {
    if a.Submit? || a.Decide? {
      WaitingFacts(s, v, id);
      EntryLeaves(s, a, id);
    } else if a.Take? {
      TakeLeaves(s, a.venue, v, id);
    } else if Quiet(a) {
      QuietCore(s, a);
    } else {
      LaterLeaves(s, a, v, id);
    }
  }

  lemma TakeLeaves(s: System, u: VenueId, v: VenueId, id: OrderId)
    requires Inv(s) && Enabled(s, Take(u)) && WaitsNew(s, v, id)
    requires u == v ==> s.core.dispatch[v] != [] && s.core.dispatch[v][0] != id
    ensures id in Took(s, u).core.orders && Took(s, u).core.orders[id] == s.core.orders[id]
  {
    WaitingFacts(s, v, id);
    TookDesk(s, u);
    TakenLeavesOther(s.core, u, id);
  }

  // ---------------------------------------------------------------- one order ahead of another

  /** The first stands in the queue before any place of the second. */
  ghost predicate Before(queue: seq<OrderId>, a: OrderId, b: OrderId) {
    a != b && exists p :: 0 <= p < |queue| && queue[p] == a && b !in queue[..p] && b in queue[p + 1..]
  }

  lemma BeforeGrows(queue: seq<OrderId>, queue': seq<OrderId>, a: OrderId, b: OrderId)
    requires Before(queue, a, b) && queue <= queue'
    ensures Before(queue', a, b)
  {
    var p :| 0 <= p < |queue| && queue[p] == a && b !in queue[..p] && b in queue[p + 1..];
    assert queue'[..p] == queue[..p] && queue'[p] == a;
    assert queue'[p + 1..] == queue[p + 1..] + queue'[|queue|..];
  }

  /** Taking the head leaves the second in the queue, and behind the first unless that was the head. */
  lemma BeforeTaken(queue: seq<OrderId>, a: OrderId, b: OrderId)
    requires Before(queue, a, b)
    ensures queue != [] && queue[0] != b && b in queue[1..]
    ensures queue[0] == a || Before(queue[1..], a, b)
  {
    var p :| 0 <= p < |queue| && queue[p] == a && b !in queue[..p] && b in queue[p + 1..];
    var tail := queue[1..];
    var k :| 0 <= k < |queue| - p - 1 && queue[p + 1..][k] == b;
    assert tail[p + k] == b;
    if 0 < p {
      assert queue[0] in queue[..p];
      assert tail[p - 1] == a && tail[p..] == queue[p + 1..];
      assert forall j | 0 <= j < p - 1 :: tail[j] == queue[..p][j + 1];
    }
  }

  ghost predicate CalledFirst(calls: seq<Call>, v: VenueId, a: OrderId, b: OrderId) {
    exists i :: 0 <= i < |calls| && calls[i].venue == v && calls[i].order.ticket.id == a
      && forall j | 0 <= j < |calls| && calls[j].order.ticket.id == b :: i < j
  }

  /** The first is ahead of the second: both wait, the first is in hand and the second waits, or the first has been
      submitted, before the second if that has been too. */
  ghost predicate Ahead(s: System, v: VenueId, a: OrderId, b: OrderId) {
    || (WaitsNew(s, v, a) && WaitsNew(s, v, b) && Before(s.core.dispatch[v], a, b))
    || (v in s.desks && s.desks[v].hand == Some(a) && WaitsNew(s, v, b) && a != b)
    || CalledFirst(s.calls, v, a, b)
  }

  lemma StillWaits(s: System, act: Action, v: VenueId, id: OrderId)
    requires Inv(s) && Enabled(s, act) && WaitsNew(s, v, id) && act != Take(v)
    ensures WaitsNew(Do(s, act), v, id)
  {
    WaitingStays(s, act, v, id);
    StepGrows(s, act, v);
  }

  lemma TakenQueue(c: Core, v: VenueId)
    requires Linked(c) && v in c.dispatch && c.dispatch[v] != []
    ensures v in Taken(c, v).dispatch && Taken(c, v).dispatch[v] == c.dispatch[v][1..]
  {}

  lemma HeadAcknowledged(s: System, v: VenueId, id: OrderId)
    requires Inv(s) && Enabled(s, Take(v)) && WaitsNew(s, v, id) && s.core.dispatch[v][0] == id
    ensures v in Took(s, v).desks && Took(s, v).desks[v].hand == Some(id)
  {}

  lemma TakeAhead(s: System, v: VenueId, a: OrderId, b: OrderId)
    requires Inv(s) && Enabled(s, Take(v)) && WaitsNew(s, v, a) && WaitsNew(s, v, b) && Before(s.core.dispatch[v], a, b)
    ensures Ahead(Took(s, v), v, a, b)
  {
    BeforeTaken(s.core.dispatch[v], a, b);
    TookDesk(s, v);
    TakenQueue(s.core, v);
    TakeLeaves(s, v, v, b);
    if s.core.dispatch[v][0] == a {
      HeadAcknowledged(s, v, a);
    } else {
      TakeLeaves(s, v, v, a);
      var p :| 0 <= p < |s.core.dispatch[v][1..]| && s.core.dispatch[v][1..][p] == a;
      assert a in s.core.dispatch[v][1..];
    }
  }

  lemma HandStays(s: System, act: Action, v: VenueId)
    requires Enabled(s, act) && v in s.desks && s.desks[v].hand.Some? && !(act.SubmitOrder? && act.venue == v)
    ensures v in Do(s, act).desks && Do(s, act).desks[v].hand == s.desks[v].hand
  {
    match act
    case Take(u) => TookDesk(s, u);
    case SubmitOrder(u, accepted, slipped) => OtherCalled(s, u, accepted, slipped, v);
    case Collect(u) => CollectedHand(s, u, v);
    case Emit(_, _) =>
    case Sweep(_, _, _) =>
    case Withdraw(_, _) =>
    case _ => SameDesks(s, act);
  }

  lemma OtherCalled(s: System, u: VenueId, accepted: bool, slipped: real, v: VenueId)
    requires Enabled(s, SubmitOrder(u, accepted, slipped)) && v in s.desks && u != v
    ensures v in SubmittedTo(s, u, accepted, slipped).desks
    ensures SubmittedTo(s, u, accepted, slipped).desks[v] == s.desks[v]
  {}

  lemma CollectedHand(s: System, u: VenueId, v: VenueId)
    requires Enabled(s, Collect(u)) && v in s.desks
    ensures v in Collected(s, u).desks && Collected(s, u).desks[v].hand == s.desks[v].hand
  {}

  lemma CalledNow(s: System, v: VenueId, accepted: bool, slipped: real, a: OrderId, b: OrderId)
    requires Inv(s) && Enabled(s, SubmitOrder(v, accepted, slipped)) && v in s.desks && s.desks[v].hand == Some(a)
    requires a != b && NeverCalled(s, b)
    ensures CalledFirst(SubmittedTo(s, v, accepted, slipped).calls, v, a, b)
  {
    HandPastRouter(s, v);
    var calls := SubmittedTo(s, v, accepted, slipped).calls;
    assert calls == s.calls + [Call(v, s.core.orders[a])];
    assert calls[|s.calls|].order.ticket.id == a;
  }

  lemma CalledFirstMore(calls: seq<Call>, c: Call, v: VenueId, a: OrderId, b: OrderId)
    requires CalledFirst(calls, v, a, b)
    ensures CalledFirst(calls + [c], v, a, b)
  {
    var i :| 0 <= i < |calls| && calls[i].venue == v && calls[i].order.ticket.id == a
      && forall j | 0 <= j < |calls| && calls[j].order.ticket.id == b :: i < j;
    assert (calls + [c])[i] == calls[i];
  }

  lemma CallsGoOn(s: System, act: Action, v: VenueId, a: OrderId, b: OrderId)
    requires Enabled(s, act) && CalledFirst(s.calls, v, a, b)
    ensures CalledFirst(Do(s, act).calls, v, a, b)
  {
    MoreCalls(s, act);
    if Do(s, act).calls != s.calls {
      CalledFirstMore(s.calls, Do(s, act).calls[|s.calls|], v, a, b);
    }
  }

  lemma MoreCalls(s: System, act: Action)
    requires Enabled(s, act)
    ensures Do(s, act).calls == s.calls
            || (|Do(s, act).calls| == |s.calls| + 1 && Do(s, act).calls == s.calls + [Do(s, act).calls[|s.calls|]])
  {}

  lemma BothStay(s: System, act: Action, v: VenueId, a: OrderId, b: OrderId)
    requires Inv(s) && Enabled(s, act) && WaitsNew(s, v, a) && WaitsNew(s, v, b) && Before(s.core.dispatch[v], a, b)
    ensures Ahead(Do(s, act), v, a, b)
  {
    if act == Take(v) {
      TakeAhead(s, v, a, b);
    } else {
      StillWaits(s, act, v, a);
      StillWaits(s, act, v, b);
      StepGrows(s, act, v);
      BeforeGrows(s.core.dispatch[v], Do(s, act).core.dispatch[v], a, b);
    }
  }

  lemma HandGoesOn(s: System, act: Action, v: VenueId, a: OrderId, b: OrderId)
    requires Inv(s) && Enabled(s, act) && v in s.desks && s.desks[v].hand == Some(a) && WaitsNew(s, v, b) && a != b
    ensures Ahead(Do(s, act), v, a, b)
  {
    if act.SubmitOrder? && act.venue == v {
      WaitingFacts(s, v, b);
      CalledNow(s, v, act.accepted, act.slipped, a, b);
    } else {
      HandStays(s, act, v);
      StillWaits(s, act, v, b);
    }
  }

  lemma StepAhead(s: System, act: Action, v: VenueId, a: OrderId, b: OrderId)
    requires Inv(s) && Enabled(s, act) && Ahead(s, v, a, b)
    ensures Ahead(Do(s, act), v, a, b)
  {
    if CalledFirst(s.calls, v, a, b) {
      CallsGoOn(s, act, v, a, b);
    } else if v in s.desks && s.desks[v].hand == Some(a) && WaitsNew(s, v, b) && a != b {
      HandGoesOn(s, act, v, a, b);
    } else {
      BothStay(s, act, v, a, b);
    }
  }

  lemma {:induction false} FurtherAhead(s: System, more: seq<Action>, v: VenueId, a: OrderId, b: OrderId)
    requires Inv(s) && Ahead(s, v, a, b)
    ensures Ahead(Further(s, more), v, a, b) && Inv(Further(s, more))
    decreases |more|
  {
    if more != [] {
      if Enabled(s, more[0]) {
        StepAhead(s, more[0], v, a, b);
        StepKeepsInv(s, more[0]);
        FurtherAhead(Do(s, more[0]), more[1..], v, a, b);
      } else {
        FurtherAhead(s, more[1..], v, a, b);
      }
    }
  }

  /** From every reachable state: of two New orders in the queue of a venue, the one in front is submitted to it first.
      In no continuation is the second submitted anywhere before the first has been submitted to that venue. */
  lemma FirstQueuedFirstSubmitted(
      cfg: Config, actions: seq<Action>, more: seq<Action>, v: VenueId, a: OrderId, b: OrderId, j: nat)
    requires WaitsNew(Run(cfg, actions), v, a) && WaitsNew(Run(cfg, actions), v, b)
    requires Before(Run(cfg, actions).core.dispatch[v], a, b)
    requires j < |Run(cfg, actions + more).calls| && Run(cfg, actions + more).calls[j].order.ticket.id == b
    ensures exists i | 0 <= i < j ::
      Run(cfg, actions + more).calls[i].venue == v && Run(cfg, actions + more).calls[i].order.ticket.id == a
  {
    var s := Run(cfg, actions);
    Reachable(cfg, actions);
    RunFurther(cfg, actions, more);
    FurtherAhead(s, more, v, a, b);
    AheadSays(Further(s, more), v, a, b, j);
  }

  lemma AheadSays(s: System, v: VenueId, a: OrderId, b: OrderId, j: nat)
    requires Inv(s) && Ahead(s, v, a, b) && j < |s.calls| && s.calls[j].order.ticket.id == b
    ensures exists i | 0 <= i < j :: s.calls[i].venue == v && s.calls[i].order.ticket.id == a
  {
    if !CalledFirst(s.calls, v, a, b) {
      WaitingFacts(s, v, b);
      assert false;
    }
  }
}
