/** Whether anything reaches a venue of an order that has crossed in part: never the order itself, and child
    orders, of the quantities the router allocates, exactly when it splits. */
module ResidualChildren {
  import opened Routing
  import opened Wrappers
  import opened Decimals
  import opened Orders
  import opened PipelineCore
  import opened PipelineLedger
  import opened PipelineMachine
  import opened PipelineSafety
  import opened PipelineResidual
  import opened Continuations

  ghost predicate Submitted(s: System, ids: set<OrderId>) {
    exists k | 0 <= k < |s.calls| :: s.calls[k].order.ticket.id in ids
  }

  lemma SubmitsAfter(s: System, s': System, ids: set<OrderId>)
    requires Reaches(s, s') && Submitted(s', ids)
    ensures exists more :: Submitted(Further(s, more), ids)
  {
    var more :| s' == Further(s, more);
    assert Submitted(Further(s, more), ids);
  }

  // ---------------------------------------------------------------- an order out of all lines stays out

  ghost predicate Out(c: Core, id: OrderId) {
    && id in c.orders && id !in c.intake && id !in c.riskOut
    && forall v | v in c.dispatch :: id !in c.dispatch[v]
  }

  lemma DeclinedOut(c: Core, other: OrderId, id: OrderId)
    requires Linked(c) && other in c.orders && Out(c, id)
    ensures Out(Declined(c, other), id)
  {}

  lemma DispatchedOut(c: Core, other: OrderId, venue: VenueId, ready: set<VenueId>, id: OrderId)
    requires Linked(c) && other in c.orders && Out(c, id) && other != id
    ensures Out(Dispatched(c, other, venue, ready), id)
  {
    if venue !in ready {
      DeclinedOut(c, other, id);
    }
  }

  lemma AssignedOut(c: Core, other: OrderId, venue: VenueId, id: OrderId)
    requires Linked(c) && other in c.orders && Out(c, id)
    ensures Out(Assigned(c, other, venue), id)
  {}

  lemma RoutedLegacyOut(c: Core, other: OrderId, any: VenueId, ready: set<VenueId>, id: OrderId)
    requires Linked(c) && other in c.orders && Out(c, id) && other != id
    ensures Out(RoutedLegacy(c, other, any, ready), id)
  {
    var venue := LegacyVenue(c.orders[other].ticket.assetClass, c.dispatch.Keys, any);
    if venue == "" {
      DeclinedOut(c, other, id);
    } else {
      AssignedOut(c, other, venue, id);
      DispatchedOut(Assigned(c, other, venue), other, venue, ready, id);
    }
  }

  lemma WithChildOut(c: Core, o: OrderState, ready: set<VenueId>, id: OrderId)
    requires Linked(c) && o.ticket.id !in c.orders && Sound(o) && Out(c, id)
    ensures Out(WithChild(c, o, ready), id)
  {
    DispatchedOut(Registered(c, o), o.ticket.id, o.venue, ready, id);
  }

  lemma {:induction false} SplitOut(
      c: Core, parent: Ticket, allocations: seq<Allocation>, ids: seq<OrderId>, ready: set<VenueId>, id: OrderId)
    requires Linked(c) && PositiveAllocations(allocations) && |ids| == |allocations| && FreshIds(c, ids) && Out(c, id)
    ensures Out(Split(c, parent, allocations, ids, ready), id)
    decreases |allocations|
  {
    if allocations != [] {
      SplitStep(c, parent, allocations, ids, ready);
      WithChildOut(c, Child(parent, allocations[0], ids[0]), ready, id);
      var c' := WithChild(c, Child(parent, allocations[0], ids[0]), ready);
      SplitOut(c', parent, allocations[1..], ids[1..], ready, id);
    }
  }

  lemma RoutedOutOut(
      c: Core, other: OrderId, answer: RouterAnswer, ids: seq<OrderId>, any: VenueId, ready: set<VenueId>, id: OrderId)
    requires Linked(c) && other in c.orders && Out(c, id) && other != id
    requires answer.Allocations? ==>
      PositiveAllocations(answer.allocations) && |ids| == |answer.allocations| && FreshIds(c, ids)
    ensures Out(RoutedOut(c, other, answer, ids, any, ready), id)
  {
    if c.dispatch == map[] {
      DeclinedOut(c, other, id);
    } else if answer.RouterError? {
      RoutedLegacyOut(c, other, any, ready, id);
    } else if |answer.allocations| == 1 {
      var venue := answer.allocations[0].venue;
      AssignedOut(c, other, venue, id);
      DispatchedOut(Assigned(c, other, venue), other, venue, ready, id);
    } else {
      SplitOut(c, c.orders[other].ticket, answer.allocations, ids, ready, id);
    }
  }

  lemma ProcessedOut(c: Core, f: Fill, g: Grid, id: OrderId)
    requires Linked(c) && 0.0 < f.quantity && Out(c, id)
    ensures Out(PipelineCore.Processed(c, f, g), id)
  {}

  lemma CrossedOut(c: Core, other: OrderId, f: Fill, g: Grid, id: OrderId)
    requires Linked(c) && other in c.orders && c.orders[other].status == New && 0.0 < f.quantity && Out(c, id)
    ensures Out(CrossedInternally(c, other, f, g), id)
  {
    var o := Transition(c.orders[other].(filled := 0.0, venue := INTERNAL), Acknowledged);
    ProcessedOut(Saved(c, o), f, g, id);
  }

  lemma RoutedStaysOut(c: Core, input: RouteInput, g: Grid, id: OrderId)
    requires Linked(c) && Routable(c, input) && Out(c, id)
    ensures Out(Routed(c, input, g), id)
  {
    var other, c0 := c.riskOut[0], c.(riskOut := c.riskOut[1..]);
    assert Linked(c0) && Out(c0, id) && other != id;
    if !input.smart {
      RoutedLegacyOut(c0, other, input.any, input.ready, id);
    } else if input.cross.NotCrossed? {
      RoutedOutOut(c0, other, input.answer, input.ids, input.any, input.ready, id);
    } else {
      CrossedOut(c0, other, input.cross.incoming, g, id);
      if input.cross.residual != None {
        RoutedOutOut(CrossedInternally(c0, other, input.cross.incoming, g), other, input.answer, input.ids, input.any,
                     input.ready, id);
      }
    }
  }

  lemma DecidedOut(c: Core, i: nat, risk: RiskAnswer, failOpen: bool, id: OrderId)
    requires Linked(c) && i < |c.intake| && Out(c, id)
    ensures Out(PipelineCore.Decide(c, i, risk, failOpen), id)
  {}

  lemma TakenOut(c: Core, v: VenueId, id: OrderId)
    requires Linked(c) && v in c.dispatch && c.dispatch[v] != [] && Out(c, id)
    ensures Out(Taken(c, v), id)
  {}

  /** In no line, in no hand, and given to no venue. */
  ghost predicate Retired(s: System, id: OrderId) {
    Out(s.core, id) && forall v | v in s.desks :: Unrelated(s.desks[v], id)
  }

  /** Retired, and never submitted. */
  ghost predicate Stranded(s: System, id: OrderId) {
    Retired(s, id) && NeverCalled(s, id)
  }

  lemma CoreStaysOut(s: System, a: Action, id: OrderId)
    requires Shaped(s) && Enabled(s, a) && Out(s.core, id) && (a.Collect? ==> 0.0 < NextFill(s.desks[a.venue]).quantity)
    ensures Out(Do(s, a).core, id)
  {
    match a
    case Submit(_, _) =>
    case Rest(_) =>
    case Decide(i, risk) => DecidedOut(s.core, i, risk, s.cfg.failOpen, id);
    case Route(_, _, _, _) => RoutedStaysOut(s.core, InputOf(s, a), s.cfg.g, id);
    case Take(v) => TakenOut(s.core, v, id);
    case SubmitOrder(v, accepted, _) =>
      if !accepted {
        DeclinedOut(s.core, s.desks[v].hand.value, id);
      }
    case Emit(_, _) =>
    case Sweep(_, _, _) =>
    case Withdraw(_, _) =>
    case Collect(v) => ProcessedOut(s.core, NextFill(s.desks[v]), s.cfg.g, id);
  }

  lemma DesksKeepHands(s: System, a: Action)
    requires Enabled(s, a) && !a.Take? && !a.SubmitOrder?
    ensures Do(s, a).desks.Keys == s.desks.Keys
    ensures forall v | v in s.desks ::
      Do(s, a).desks[v].hand == s.desks[v].hand && Do(s, a).desks[v].given == s.desks[v].given
  {
    if a.Submit? || a.Rest? || a.Decide? || a.Route? {
      SameDesks(s, a);
    }
  }

  lemma SameDesks(s: System, a: Action)
    requires Enabled(s, a) && (a.Submit? || a.Rest? || a.Decide? || a.Route?)
    ensures Do(s, a).desks == s.desks
  {}

  lemma TakeUnrelated(s: System, u: VenueId, id: OrderId)
    requires Enabled(s, Take(u)) && Retired(s, id)
    ensures forall v | v in Took(s, u).desks :: Unrelated(Took(s, u).desks[v], id)
  {
    TookDesk(s, u);
    assert s.core.dispatch[u][0] in s.core.dispatch[u];
  }

  lemma SubmitUnrelated(s: System, u: VenueId, accepted: bool, slipped: real, id: OrderId)
    requires Enabled(s, SubmitOrder(u, accepted, slipped)) && Retired(s, id)
    ensures forall v | v in SubmittedTo(s, u, accepted, slipped).desks ::
      Unrelated(SubmittedTo(s, u, accepted, slipped).desks[v], id)
  {
    assert Unrelated(s.desks[u], id) && s.core.orders[s.desks[u].hand.value].ticket.id == s.desks[u].hand.value;
  }

  lemma StaysUnrelated(s: System, a: Action, id: OrderId)
    requires Enabled(s, a) && Retired(s, id)
    ensures forall v | v in Do(s, a).desks :: Unrelated(Do(s, a).desks[v], id)
  {
    match a
    case Take(u) => TakeUnrelated(s, u, id);
    case SubmitOrder(u, accepted, slipped) => SubmitUnrelated(s, u, accepted, slipped, id);
    case _ => DesksKeepHands(s, a);
  }

  lemma StaysRetired(s: System, a: Action, id: OrderId)
    requires Inv(s) && Enabled(s, a) && Retired(s, id)
    ensures Retired(Do(s, a), id)
  {
    assert Out(Do(s, a).core, id) by {
      if a.Collect? {
        NextFillOwned(s, a.venue);
      }
      CoreStaysOut(s, a, id);
    }
    StaysUnrelated(s, a, id);
  }

  lemma StaysStranded(s: System, a: Action, id: OrderId)
    requires Inv(s) && Enabled(s, a) && Stranded(s, id)
    ensures Stranded(Do(s, a), id)
  {
    StaysRetired(s, a, id);
    StepCalls(s, a, id);
  }

  lemma {:induction false} StrandedForever(s: System, more: seq<Action>, id: OrderId)
    requires Inv(s) && Stranded(s, id)
    ensures NeverCalled(Further(s, more), id)
    decreases |more|
  {
    if more != [] {
      if Enabled(s, more[0]) {
        StaysStranded(s, more[0], id);
        StepKeepsInv(s, more[0]);
        StrandedForever(Do(s, more[0]), more[1..], id);
      } else {
        StrandedForever(s, more[1..], id);
      }
    }
  }

  // ---------------------------------------------------------------- the children of a split

  /** Some allocation names a venue that is connected and has a channel. */
  predicate Queues(allocations: seq<Allocation>, venues: set<VenueId>, ready: set<VenueId>) {
    exists k | 0 <= k < |allocations| :: allocations[k].venue in ready && allocations[k].venue in venues
  }

  lemma WithChildQueue(c: Core, o: OrderState, ready: set<VenueId>)
    requires Linked(c) && o.ticket.id !in c.orders && Sound(o) && o == NewOrder(o.ticket, o.venue)
    ensures var r, id := WithChild(c, o, ready), o.ticket.id;
      && r.dispatch.Keys == c.dispatch.Keys && SameLines(c, r)
      && (forall j | j in c.orders :: j in r.orders && r.orders[j] == c.orders[j])
      && if o.venue in ready && o.venue in c.dispatch
         then r.dispatch == c.dispatch[o.venue := c.dispatch[o.venue] + [id]] && id in r.orders && r.orders[id] == o
         else r.dispatch == c.dispatch
  {
    DispatchedQueue(Registered(c, o), o.ticket.id, o.venue, ready);
  }

  lemma DispatchedQueue(c: Core, id: OrderId, venue: VenueId, ready: set<VenueId>)
    requires Linked(c) && id in c.orders
    ensures var r := Dispatched(c, id, venue, ready);
      && r.dispatch.Keys == c.dispatch.Keys && SameLines(c, r) && r.orders.Keys == c.orders.Keys
      && (forall j | j in c.orders && j != id :: r.orders[j] == c.orders[j])
      && if venue in ready && venue in c.dispatch
         then r.dispatch == c.dispatch[venue := c.dispatch[venue] + [id]] && r.orders == c.orders
         else r.dispatch == c.dispatch
  {
    if venue !in ready {
      DeclinedQueue(c, id);
    }
  }

  lemma DeclinedQueue(c: Core, id: OrderId)
    requires Linked(c) && id in c.orders
    ensures var r := Declined(c, id);
      && r.dispatch == c.dispatch && SameLines(c, r) && r.orders.Keys == c.orders.Keys
      && (forall j | j in c.orders && j != id :: r.orders[j] == c.orders[j])
  {}

  lemma NoneQueued(allocations: seq<Allocation>, venues: set<VenueId>, ready: set<VenueId>)
    requires allocations != [] && !Queues(allocations, venues, ready)
    ensures !(allocations[0].venue in ready && allocations[0].venue in venues)
    ensures !Queues(allocations[1..], venues, ready)
  {
    assert forall k | 0 <= k < |allocations| - 1 :: allocations[1..][k] == allocations[k + 1];
  }

  /** A split that names no connected venue queues nothing. */
  lemma {:induction false} SplitQueuesNothing(
      c: Core, parent: Ticket, allocations: seq<Allocation>, ids: seq<OrderId>, ready: set<VenueId>)
    requires Linked(c) && PositiveAllocations(allocations) && |ids| == |allocations| && FreshIds(c, ids)
    requires !Queues(allocations, c.dispatch.Keys, ready)
    ensures var r := Split(c, parent, allocations, ids, ready); r.dispatch == c.dispatch && SameLines(c, r)
    decreases |allocations|
  {
    if allocations != [] {
      SplitStep(c, parent, allocations, ids, ready);
      var child := Child(parent, allocations[0], ids[0]);
      WithChildQueue(c, child, ready);
      NoneQueued(allocations, c.dispatch.Keys, ready);
      SplitQueuesNothing(WithChild(c, child, ready), parent, allocations[1..], ids[1..], ready);
    }
  }

  ghost predicate QueuedNew(c: Core, v: VenueId, id: OrderId) {
    v in c.dispatch && id in c.dispatch[v] && id in c.orders && c.orders[id].status == New
  }

  /** The rest of a split leaves a queued child where it is. */
  lemma {:induction false} SplitKeepsQueued(
      c: Core, parent: Ticket, allocations: seq<Allocation>, ids: seq<OrderId>,
      ready: set<VenueId>, v: VenueId, id: OrderId)
    requires Linked(c) && PositiveAllocations(allocations) && |ids| == |allocations| && FreshIds(c, ids)
    requires QueuedNew(c, v, id)
    ensures QueuedNew(Split(c, parent, allocations, ids, ready), v, id)
    decreases |allocations|
  {
    if allocations != [] {
      SplitStep(c, parent, allocations, ids, ready);
      var child := Child(parent, allocations[0], ids[0]);
      WithChildQueue(c, child, ready);
      SplitKeepsQueued(WithChild(c, child, ready), parent, allocations[1..], ids[1..], ready, v, id);
    }
  }

  /** The child of an allocation to a connected venue is queued there. */
  lemma {:induction false} SplitQueues(
      c: Core, parent: Ticket, allocations: seq<Allocation>, ids: seq<OrderId>, ready: set<VenueId>, k: nat)
    requires Linked(c) && PositiveAllocations(allocations) && |ids| == |allocations| && FreshIds(c, ids)
    requires k < |allocations| && allocations[k].venue in ready && allocations[k].venue in c.dispatch
    ensures QueuedNew(Split(c, parent, allocations, ids, ready), allocations[k].venue, ids[k])
    decreases |allocations|
  {
    SplitStep(c, parent, allocations, ids, ready);
    var child := Child(parent, allocations[0], ids[0]);
    var c' := WithChild(c, child, ready);
    WithChildQueue(c, child, ready);
    if k == 0 {
      SplitKeepsQueued(c', parent, allocations[1..], ids[1..], ready, allocations[0].venue, ids[0]);
    } else {
      SplitQueues(c', parent, allocations[1..], ids[1..], ready, k - 1);
    }
  }

  // ---------------------------------------------------------------- the residual

  /** The action routes an order that crosses in part. */
  ghost predicate LeavesResidual(s: System, a: Action) {
    Crosses(s, a) && CrossOf(s).result.residual.Some?
  }

  /** The orders it makes. */
  ghost function Children(s: System, a: Action): set<OrderId>
    requires a.Route? && Enabled(s, a)
  {
    RoutedBy(s, a).core.orders.Keys - s.core.orders.Keys
  }

  /** The router answers with other than one allocation, one of them to a connected venue. */
  ghost predicate Forwards(s: System, a: Action)
    requires a.Route?
  {
    a.answer.Allocations? && |a.answer.allocations| != 1 && Queues(a.answer.allocations, s.core.dispatch.Keys, a.ready)
  }

  /** The core after the cross, from which the residual is routed. */
  lemma ResidualRouted(s: System, a: Action) returns (c: Core, id: OrderId)
    requires Inv(s) && LeavesResidual(s, a)
    ensures Kept(c) && c.orders.Keys == s.core.orders.Keys && id in c.orders
    ensures s.core.riskOut != [] && id == s.core.riskOut[0] && c.orders[id].ticket == s.core.orders[id].ticket
    ensures c.orders[id].filled == CrossOf(s).result.incoming.quantity
    ensures c.dispatch == s.core.dispatch && c.intake == s.core.intake && c.riskOut == s.core.riskOut[1..]
    ensures GoodAnswer(c, a.answer, a.ids)
    ensures RoutedBy(s, a).core == RoutedOut(c, id, a.answer, a.ids, a.any, a.ready)
  {
    RouteFacts(s, a);
    CrossStep(s);
    c, id := AfterCross(s), s.core.riskOut[0];
    StaysGood(s.core, c, a.answer, a.ids);
    RoutedAfterCross(s.core, InputOf(s, a), s.cfg.g);
  }

  lemma StaysGood(c: Core, c': Core, answer: RouterAnswer, ids: seq<OrderId>)
    requires GoodAnswer(c, answer, ids) && c'.orders.Keys == c.orders.Keys
    ensures GoodAnswer(c', answer, ids)
  {}

  /** After a cross in part the order goes on to the router. */
  lemma RoutedAfterCross(c: Core, input: RouteInput, g: Grid)
    requires Linked(c) && Routable(c, input) && input.smart && input.cross.Crossed? && input.cross.residual.Some?
    ensures var c' := CrossedInternally(c.(riskOut := c.riskOut[1..]), c.riskOut[0], input.cross.incoming, g);
      GoodAnswer(c', input.answer, input.ids)
      && Routed(c, input, g) == RoutedOut(c', c.riskOut[0], input.answer, input.ids, input.any, input.ready)
  {}

  /** What an enabled routing step is told. */
  lemma RouteFacts(s: System, a: Action)
    requires a.Route? && Enabled(s, a)
    ensures s.core.riskOut != [] && s.core.riskOut[0] in s.core.orders && GoodAnswer(s.core, a.answer, a.ids)
  {}

  /** Allocations are positive, and there is a fresh ID for each. */
  ghost predicate GoodAnswer(c: Core, answer: RouterAnswer, ids: seq<OrderId>) {
    answer.Allocations? ==> PositiveAllocations(answer.allocations) && |ids| == |answer.allocations| && FreshIds(c, ids)
  }

  lemma NewKeys(c: Core, id: OrderId, answer: RouterAnswer, ids: seq<OrderId>, any: VenueId, ready: set<VenueId>)
    requires Linked(c) && id in c.orders && GoodAnswer(c, answer, ids)
    ensures RoutedOut(c, id, answer, ids, any, ready).orders.Keys - c.orders.Keys
         == if Splits(c, answer) then (set i | i in ids) else {}
  {
    RoutedOutFills(c, id, answer, ids, any, ready);
  }

  lemma ChildrenOnlyBySplitting(s: System, a: Action)
    requires Inv(s) && LeavesResidual(s, a)
    ensures Children(s, a) == if Splits(s.core, a.answer) then (set i | i in a.ids) else {}
  {
    var c, id := ResidualRouted(s, a);
    NewKeys(c, id, a.answer, a.ids, a.any, a.ready);
  }

  /** On the core: a child that is not forwarded stands in no line. */
  lemma UnforwardedChildOut(
      c: Core, id: OrderId, answer: RouterAnswer, ids: seq<OrderId>, any: VenueId, ready: set<VenueId>, child: OrderId)
    requires Linked(c) && id in c.orders && Splits(c, answer) && !Queues(answer.allocations, c.dispatch.Keys, ready)
    requires GoodAnswer(c, answer, ids) && child in ids
    ensures Out(RoutedOut(c, id, answer, ids, any, ready), child) && child !in c.orders
  {
    var parent := c.orders[id].ticket;
    SplitQueuesNothing(c, parent, answer.allocations, ids, ready);
    SplitFills(c, parent, answer.allocations, ids, ready);
  }

  /** A child that is forwarded is queued at its venue. */
  lemma ForwardedChildIn(
      c: Core, id: OrderId, answer: RouterAnswer, ids: seq<OrderId>, any: VenueId, ready: set<VenueId>, k: nat)
    requires Linked(c) && id in c.orders && answer.Allocations? && |answer.allocations| != 1
    requires GoodAnswer(c, answer, ids) && k < |ids| && answer.allocations[k].venue in ready
    requires answer.allocations[k].venue in c.dispatch
    ensures Splits(c, answer) && ids[k] in (set i | i in ids)
    ensures QueuedNew(RoutedOut(c, id, answer, ids, any, ready), answer.allocations[k].venue, ids[k])
  {
    SplitQueues(c, c.orders[id].ticket, answer.allocations, ids, ready, k);
  }

  /** Routing leaves the desks alone, and no desk knows the order that is routed, or a new one. */
  lemma RoutedUnrelated(s: System, a: Action, id: OrderId)
    requires Inv(s) && a.Route? && Enabled(s, a) && (id in s.core.orders ==> s.core.orders[id].status == New)
    ensures forall v | v in RoutedBy(s, a).desks :: Unrelated(RoutedBy(s, a).desks[v], id)
  {
    NobodysYet(s.core.orders, s.cfg.simulated, s.desks, id);
  }

  lemma UnforwardedChildStrands(s: System, a: Action, id: OrderId)
    requires Inv(s) && LeavesResidual(s, a) && !Forwards(s, a) && id in Children(s, a)
    ensures Stranded(RoutedBy(s, a), id)
  {
    var c, parent := ResidualRouted(s, a);
    ChildrenOnlyBySplitting(s, a);
    UnforwardedChildOut(c, parent, a.answer, a.ids, a.any, a.ready, id);
    NewNeverCalled(s, id);
    RoutedUnrelated(s, a, id);
  }

  lemma ForwardedChildQueued(s: System, a: Action) returns (v: VenueId, id: OrderId)
    requires Inv(s) && LeavesResidual(s, a) && Forwards(s, a)
    ensures id in Children(s, a) && QueuedNew(RoutedBy(s, a).core, v, id)
  {
    var k :| 0 <= k < |a.answer.allocations|
      && a.answer.allocations[k].venue in a.ready && a.answer.allocations[k].venue in s.core.dispatch.Keys;
    var c, parent := ResidualRouted(s, a);
    v, id := a.answer.allocations[k].venue, a.ids[k];
    ForwardedChildIn(c, parent, a.answer, a.ids, a.any, a.ready, k);
    ChildrenOnlyBySplitting(s, a);
  }

  lemma QueuedComesToHand(s: System, v: VenueId, id: OrderId) returns (s': System)
    requires Inv(s) && QueuedNew(s.core, v, id)
    ensures Leads(s, s') && v in s'.desks && s'.desks[v].hand == Some(id)
  {
    var j := FirstPlace(s.core.dispatch[v], id);
    s' := Drain(s, v, j, id);
  }

  lemma ForwardedChildSubmitted(s: System, a: Action)
    requires Inv(s) && LeavesResidual(s, a) && Forwards(s, a) && Inv(RoutedBy(s, a))
    ensures exists more :: Submitted(Further(RoutedBy(s, a), more), Children(s, a))
  {
    var v, id := ForwardedChildQueued(s, a);
    var t := QueuedComesToHand(RoutedBy(s, a), v, id);
    var u := HandIsSubmitted(t, v, id);
    LeadsOn(RoutedBy(s, a), t, u);
    assert u.calls[|u.calls| - 1].order.ticket.id in Children(s, a);
    SubmitsAfter(RoutedBy(s, a), u, Children(s, a));
  }

  /** From any reachable state in which an order crosses in part: a child order, of a quantity the router
      allocated, is submitted in some continuation exactly when the router answers with other than one
      allocation and one of them names a connected venue with a channel. */
  lemma ResidualSubmittedExactlyWhenForwarded(s: System, a: Action)
    requires Inv(s) && LeavesResidual(s, a)
    ensures (exists more :: Submitted(Further(RoutedBy(s, a), more), Children(s, a))) <==> Forwards(s, a)
  {
    RouteKeepsInv(s, a);
    if Forwards(s, a) {
      ForwardedChildSubmitted(s, a);
    } else {
      forall more ensures !Submitted(Further(RoutedBy(s, a), more), Children(s, a)) {
        ChildrenNeverSubmitted(s, a, more);
      }
    }
  }

  /** Some continuation of the run submits one of the orders. */
  ghost predicate SubmitsLater(cfg: Config, actions: seq<Action>, ids: set<OrderId>) {
    exists more :: Submitted(Run(cfg, actions + more), ids)
  }

  lemma LaterIsFurther(cfg: Config, actions: seq<Action>, ids: set<OrderId>)
    ensures SubmitsLater(cfg, actions, ids) <==> exists more :: Submitted(Further(Run(cfg, actions), more), ids)
  {
    if SubmitsLater(cfg, actions, ids) {
      var more :| Submitted(Run(cfg, actions + more), ids);
      RunFurther(cfg, actions, more);
      assert Submitted(Further(Run(cfg, actions), more), ids);
    }
    if more :| Submitted(Further(Run(cfg, actions), more), ids) {
      RunFurther(cfg, actions, more);
      assert Submitted(Run(cfg, actions + more), ids);
    }
  }

  lemma RunRouted(cfg: Config, actions: seq<Action>, a: Action)
    requires a.Route? && Enabled(Run(cfg, actions), a)
    ensures Run(cfg, actions + [a]) == RoutedBy(Run(cfg, actions), a)
  {
    assert (actions + [a])[..|actions|] == actions;
  }

  /** Over every run: an order that crossed in part is never submitted itself, and a child order of it, of a
      quantity the router allocated, reaches a venue in some continuation exactly when it is forwarded. */
  lemma ResidualReachesAVenueExactlyBySplitting(cfg: Config, actions: seq<Action>, a: Action)
    requires LeavesResidual(Run(cfg, actions), a)
    ensures forall more :: NeverCalled(Run(cfg, actions + [a] + more), Run(cfg, actions).core.riskOut[0])
    ensures SubmitsLater(cfg, actions + [a], Children(Run(cfg, actions), a)) <==> Forwards(Run(cfg, actions), a)
  {
    forall more ensures NeverCalled(Run(cfg, actions + [a] + more), Run(cfg, actions).core.riskOut[0]) {
      ParentStaysInside(cfg, actions, a, more);
    }
    Reachable(cfg, actions);
    ResidualSubmittedExactlyWhenForwarded(Run(cfg, actions), a);
    LaterIsFurther(cfg, actions + [a], Children(Run(cfg, actions), a));
    RunRouted(cfg, actions, a);
  }

  lemma ParentStaysInside(cfg: Config, actions: seq<Action>, a: Action, more: seq<Action>)
    requires Crosses(Run(cfg, actions), a)
    ensures NeverCalled(Run(cfg, actions + [a] + more), Run(cfg, actions).core.riskOut[0])
  {
    var id := Run(cfg, actions).core.riskOut[0];
    CrossedSnoc(cfg, actions, a);
    CrossedGrows(cfg, actions + [a], more);
    CrossedStayInside(cfg, actions + [a] + more);
    assert KeptInside(Run(cfg, actions + [a] + more), id);
  }

  lemma ParentNotSubmitted(cfg: Config, actions: seq<Action>, a: Action)
    requires Crosses(Run(cfg, actions), a)
    ensures !SubmitsLater(cfg, actions + [a], {Run(cfg, actions).core.riskOut[0]})
  {
    forall more ensures !Submitted(Run(cfg, actions + [a] + more), {Run(cfg, actions).core.riskOut[0]}) {
      ParentStaysInside(cfg, actions, a, more);
    }
  }

  lemma CrossedSnoc(cfg: Config, actions: seq<Action>, a: Action)
    ensures CrossedIn(cfg, actions) <= CrossedIn(cfg, actions + [a])
    ensures Crosses(Run(cfg, actions), a) ==> Run(cfg, actions).core.riskOut[0] in CrossedIn(cfg, actions + [a])
  {
    assert (actions + [a])[..|actions|] == actions;
  }

  lemma {:induction false} CrossedGrows(cfg: Config, actions: seq<Action>, more: seq<Action>)
    ensures CrossedIn(cfg, actions) <= CrossedIn(cfg, actions + more)
    decreases |more|
  {
    if more == [] {
      assert actions + more == actions;
    } else {
      var n := |more| - 1;
      CrossedGrows(cfg, actions, more[..n]);
      CrossedStep(cfg, actions + more);
      assert (actions + more)[..|actions + more| - 1] == actions + more[..n];
    }
  }

  lemma CrossedStep(cfg: Config, actions: seq<Action>)
    requires actions != []
    ensures CrossedIn(cfg, actions[..|actions| - 1]) <= CrossedIn(cfg, actions)
  {}

  lemma ChildrenNeverSubmitted(s: System, a: Action, more: seq<Action>)
    requires Inv(s) && LeavesResidual(s, a) && !Forwards(s, a) && Inv(RoutedBy(s, a))
    ensures !Submitted(Further(RoutedBy(s, a), more), Children(s, a))
  {
    forall id | id in Children(s, a) ensures NeverCalled(Further(RoutedBy(s, a), more), id) {
      UnforwardedChildStrands(s, a, id);
      StrandedForever(RoutedBy(s, a), more, id);
    }
  }
}
