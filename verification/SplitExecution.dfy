/** What an order and the child orders it is split into fill together. */
module SplitExecution {
  import opened Routing
  import opened Wrappers
  import opened Decimals
  import opened Orders
  import opened PipelineCore
  import opened PipelineLedger
  import opened PipelineMachine
  import opened PipelineSafety
  import opened PipelineResidual
  import opened Continuations
  import opened ResidualChildren
  import opened Unserved
  import Splitter

  // ---------------------------------------------------------------- sums over the children

  /** The allocation is sent on: its venue is connected and has a channel. */
  predicate SentOn(a: Allocation, venues: set<VenueId>, ready: set<VenueId>) {
    a.venue in ready && a.venue in venues
  }

  function Share(a: Allocation, open: set<VenueId>): real {
    if a.venue in open then a.quantity else 0.0
  }

  /** What goes to the open venues of a split. */
  function Forwarded(allocations: seq<Allocation>, open: set<VenueId>): real {
    if allocations == [] then 0.0
    else Forwarded(allocations[..|allocations| - 1], open) + Share(allocations[|allocations| - 1], open)
  }

  function FilledIn(orders: OrderMap, id: OrderId): real {
    if id in orders then orders[id].filled else 0.0
  }

  function FilledOf(orders: OrderMap, ids: seq<OrderId>): real {
    if ids == [] then 0.0 else FilledOf(orders, ids[..|ids| - 1]) + FilledIn(orders, ids[|ids| - 1])
  }

  function OrderedOf(orders: OrderMap, ids: seq<OrderId>): real {
    if ids == [] then 0.0
    else
      var id := ids[|ids| - 1];
      OrderedOf(orders, ids[..|ids| - 1]) + if id in orders then orders[id].ticket.quantity else 0.0
  }

  ghost predicate SharesBound(
      orders: OrderMap, ids: seq<OrderId>, allocations: seq<Allocation>, open: set<VenueId>) {
    |ids| == |allocations| && forall k | 0 <= k < |ids| :: FilledIn(orders, ids[k]) <= Share(allocations[k], open)
  }

  ghost predicate SharesFilled(
      orders: OrderMap, ids: seq<OrderId>, allocations: seq<Allocation>, open: set<VenueId>) {
    |ids| == |allocations| && forall k | 0 <= k < |ids| :: Share(allocations[k], open) <= FilledIn(orders, ids[k])
  }

  lemma {:induction false} FilledBelow(
      orders: OrderMap, ids: seq<OrderId>, allocations: seq<Allocation>, open: set<VenueId>)
    requires SharesBound(orders, ids, allocations, open)
    ensures FilledOf(orders, ids) <= Forwarded(allocations, open)
  {
    if ids != [] {
      FilledBelow(orders, ids[..|ids| - 1], allocations[..|ids| - 1], open);
    }
  }

  lemma {:induction false} FilledAbove(
      orders: OrderMap, ids: seq<OrderId>, allocations: seq<Allocation>, open: set<VenueId>)
    requires SharesFilled(orders, ids, allocations, open)
    ensures Forwarded(allocations, open) <= FilledOf(orders, ids)
  {
    if ids != [] {
      FilledAbove(orders, ids[..|ids| - 1], allocations[..|ids| - 1], open);
    }
  }

  lemma {:induction false} OrderedIsAllocated(orders: OrderMap, ids: seq<OrderId>, allocations: seq<Allocation>)
    requires |ids| == |allocations|
    requires forall k | 0 <= k < |ids| :: ids[k] in orders && orders[ids[k]].ticket.quantity == allocations[k].quantity
    ensures OrderedOf(orders, ids) == Splitter.Sum(allocations)
  {
    if ids != [] {
      OrderedIsAllocated(orders, ids[..|ids| - 1], allocations[..|ids| - 1]);
    }
  }

  // ---------------------------------------------------------------- the split

  /** The action routes an order that is split: whole, or what a cross leaves of it. */
  ghost predicate SplitsOrder(s: System, a: Action) {
    && a.Route? && Enabled(s, a) && s.cfg.smart && Splits(s.core, a.answer)
    && (CrossOf(s).result.NotCrossed? || CrossOf(s).result.residual.Some?)
  }

  lemma RoutedUncrossed(c: Core, input: RouteInput, g: Grid)
    requires Kept(c) && Routable(c, input) && input.smart && input.cross.NotCrossed?
    ensures var c' := c.(riskOut := c.riskOut[1..]);
      && Kept(c') && GoodAnswer(c', input.answer, input.ids)
      && Routed(c, input, g) == RoutedOut(c', c.riskOut[0], input.answer, input.ids, input.any, input.ready)
  {
    PopRiskOut(c);
  }

  lemma NewUnfilled(c: Core)
    requires Kept(c) && c.riskOut != []
    ensures c.riskOut[0] in c.orders && c.orders[c.riskOut[0]].filled == 0.0
  {
    assert c.riskOut[0] in c.intake + c.riskOut;
    assert Sound(c.orders[c.riskOut[0]]);
  }

  /** The core from which the router splits. */
  lemma SplitRouted(s: System, a: Action) returns (c: Core, id: OrderId)
    requires Inv(s) && SplitsOrder(s, a)
    ensures Kept(c) && c.orders.Keys == s.core.orders.Keys && id in c.orders
    ensures s.core.riskOut != [] && id == s.core.riskOut[0] && c.orders[id].ticket == s.core.orders[id].ticket
    ensures c.dispatch == s.core.dispatch && c.intake == s.core.intake && c.riskOut == s.core.riskOut[1..]
    ensures c.orders[id].filled == if CrossOf(s).result.Crossed? then CrossOf(s).result.incoming.quantity else 0.0
    ensures a.answer.Allocations? && GoodAnswer(c, a.answer, a.ids)
    ensures RoutedBy(s, a).core == Split(c, c.orders[id].ticket, a.answer.allocations, a.ids, a.ready)
  {
    if CrossOf(s).result.Crossed? {
      c, id := ResidualRouted(s, a);
    } else {
      RouteFacts(s, a);
      RoutedUncrossed(s.core, InputOf(s, a), s.cfg.g);
      NewUnfilled(s.core);
      c, id := s.core.(riskOut := s.core.riskOut[1..]), s.core.riskOut[0];
    }
  }

  /** The order that is routed. */
  ghost function Parent(s: System, a: Action): OrderState
    requires a.Route? && Enabled(s, a)
  {
    s.core.orders[s.core.riskOut[0]]
  }

  /** A child as it comes out of the split: of the allocated quantity, queued if sent on, else in no line. */
  ghost predicate ChildOf(c: Core, id: OrderId, parent: Ticket, a: Allocation, ready: set<VenueId>) {
    && id in c.orders
    && var o := c.orders[id];
    && o.ticket == parent.(id := id, quantity := a.quantity) && o.filled == 0.0
    && if SentOn(a, c.dispatch.Keys, ready) then o.status == New && id in c.dispatch[a.venue] else Out(c, id)
  }

  lemma FirstChild(c: Core, parent: Ticket, a: Allocation, id: OrderId, ready: set<VenueId>)
    requires Linked(c) && id !in c.orders && 0.0 < a.quantity
    ensures ChildOf(WithChild(c, Child(parent, a, id), ready), id, parent, a, ready)
    ensures WithChild(c, Child(parent, a, id), ready).dispatch.Keys == c.dispatch.Keys
  {
    WithChildQueue(c, Child(parent, a, id), ready);
  }

  lemma ChildStays(
      c: Core, parent: Ticket, allocations: seq<Allocation>, ids: seq<OrderId>,
      ready: set<VenueId>, id: OrderId, a: Allocation)
    requires Kept(c) && PositiveAllocations(allocations) && |ids| == |allocations| && FreshIds(c, ids)
    requires ChildOf(c, id, parent, a, ready)
    ensures ChildOf(Split(c, parent, allocations, ids, ready), id, parent, a, ready)
  {
    SplitKeeps(c, parent, allocations, ids, ready, id);
    if SentOn(a, c.dispatch.Keys, ready) {
      SplitKeepsQueued(c, parent, allocations, ids, ready, a.venue, id);
    } else {
      SplitOut(c, parent, allocations, ids, ready, id);
    }
  }

  lemma {:induction false} SplitChild(
      c: Core, parent: Ticket, allocations: seq<Allocation>, ids: seq<OrderId>, ready: set<VenueId>, k: nat)
    requires Kept(c) && PositiveAllocations(allocations) && |ids| == |allocations| && FreshIds(c, ids) && k < |ids|
    ensures ChildOf(Split(c, parent, allocations, ids, ready), ids[k], parent, allocations[k], ready)
    decreases |allocations|
  {
    SplitStep(c, parent, allocations, ids, ready);
    var child := Child(parent, allocations[0], ids[0]);
    var c' := WithChild(c, child, ready);
    WithChildKeeps(c, child, ready);
    if k == 0 {
      FirstChild(c, parent, allocations[0], ids[0], ready);
      ChildStays(c', parent, allocations[1..], ids[1..], ready, ids[0], allocations[0]);
    } else {
      SplitChild(c', parent, allocations[1..], ids[1..], ready, k - 1);
    }
  }

  // ---------------------------------------------------------------- orders no one will touch again

  lemma RetiredUntouched(s: System, a: Action, id: OrderId)
    requires Inv(s) && Enabled(s, a) && Retired(s, id)
    ensures id in Do(s, a).core.orders && Do(s, a).core.orders[id] == s.core.orders[id]
  {
    match a
    case Route(_, _, _, _) => RouteTouches(s, a);
    case SubmitOrder(v, accepted, slipped) => SubmitTouches(s, v, accepted, slipped);
    case Collect(v) => CollectTouches(s, v);
    case Submit(_, _) => LineUntouched(s, a, id);
    case Decide(_, _) => LineUntouched(s, a, id);
    case Take(_) => LineUntouched(s, a, id);
    case _ => QuietCore(s, a);
  }

  lemma {:induction false} RetiredForever(s: System, more: seq<Action>, id: OrderId)
    requires Inv(s) && Retired(s, id)
    ensures var t := Further(s, more); id in t.core.orders && t.core.orders[id] == s.core.orders[id]
    decreases |more|
  {
    if more != [] {
      if Enabled(s, more[0]) {
        StaysRetired(s, more[0], id);
        RetiredUntouched(s, more[0], id);
        StepKeepsInv(s, more[0]);
        RetiredForever(Do(s, more[0]), more[1..], id);
      } else {
        RetiredForever(s, more[1..], id);
      }
    }
  }

  // ---------------------------------------------------------------- what the split leaves

  lemma RoutedParentOut(c: Core)
    requires Kept(c) && c.riskOut != []
    ensures c.riskOut[0] in c.orders && c.orders[c.riskOut[0]].status == New
    ensures Out(c.(riskOut := c.riskOut[1..]), c.riskOut[0])
  {
    PopRiskOut(c);
    assert c.riskOut[0] in c.intake + c.riskOut;
  }

  lemma SameLinesOut(c: Core, c': Core, id: OrderId)
    requires Out(c, id) && c'.intake == c.intake && c'.riskOut == c.riskOut && c'.dispatch == c.dispatch
    requires id in c'.orders
    ensures Out(c', id)
  {}

  /** The parent is retired by the split. */
  lemma ParentRetired(s: System, a: Action) returns (id: OrderId)
    requires Inv(s) && SplitsOrder(s, a)
    ensures s.core.riskOut != [] && id == s.core.riskOut[0] && Retired(RoutedBy(s, a), id)
  {
    var c;
    c, id := SplitRouted(s, a);
    RoutedParentOut(s.core);
    SameLinesOut(s.core.(riskOut := s.core.riskOut[1..]), c, id);
    SplitOut(c, c.orders[id].ticket, a.answer.allocations, a.ids, a.ready, id);
    RoutedUnrelated(s, a, id);
  }

  lemma ChildMade(s: System, a: Action, k: nat)
    requires Inv(s) && SplitsOrder(s, a) && k < |a.ids| && |a.ids| == |a.answer.allocations|
    ensures ChildOf(RoutedBy(s, a).core, a.ids[k], Parent(s, a).ticket, a.answer.allocations[k], a.ready)
    ensures a.ids[k] !in s.core.orders
    ensures RoutedBy(s, a).core.dispatch.Keys == s.core.dispatch.Keys
  {
    var c, id := SplitRouted(s, a);
    SplitChild(c, c.orders[id].ticket, a.answer.allocations, a.ids, a.ready, k);
    SplitKeeps(c, c.orders[id].ticket, a.answer.allocations, a.ids, a.ready, id);
    assert a.ids[k] in a.ids;
  }

  lemma SplitIsAnswered(s: System, a: Action)
    requires Inv(s) && SplitsOrder(s, a)
    ensures a.answer.Allocations? && |a.ids| == |a.answer.allocations| && s.core.riskOut != []
    ensures s.core.riskOut[0] in RoutedBy(s, a).core.orders && Inv(RoutedBy(s, a))
  {
    RouteFacts(s, a);
    RouteKeepsInv(s, a);
    RouteTouches(s, a);
  }

  // ---------------------------------------------------------------- how much can be filled

  /** What an order and others have filled together. */
  function Executed(orders: OrderMap, id: OrderId, ids: seq<OrderId>): real {
    FilledIn(orders, id) + FilledOf(orders, ids)
  }

  /** An external venue can fill any ticket; a simulated one market and limit orders in a listed instrument. */
  predicate CanFill(cfg: Config, v: VenueId, t: Ticket) {
    v in cfg.simulated ==> t.instrument in cfg.instruments && t.kind != StopLimit
  }

  /** The connected venues with a channel that can fill the order. */
  ghost function Open(s: System, a: Action): set<VenueId>
    requires a.Route? && Enabled(s, a)
  {
    set v | v in s.core.dispatch.Keys && v in a.ready && CanFill(s.cfg, v, Parent(s, a).ticket)
  }

  /** What of a split can be filled. */
  ghost function OpenQuantity(s: System, a: Action): real
    requires a.Route? && Enabled(s, a) && a.answer.Allocations?
  {
    Forwarded(a.answer.allocations, Open(s, a))
  }

  /** No desk knows a child, which is new; a simulated venue that cannot fill it ignores it. */
  lemma ChildIgnored(s: System, a: Action, k: nat)
    requires Inv(s) && Listed(s) && SplitsOrder(s, a) && k < |a.ids| && |a.ids| == |a.answer.allocations|
    requires Inv(RoutedBy(s, a)) && SentOn(a.answer.allocations[k], s.core.dispatch.Keys, a.ready)
    requires !CanFill(s.cfg, a.answer.allocations[k].venue, Parent(s, a).ticket)
    ensures Ignored(RoutedBy(s, a), a.answer.allocations[k].venue, a.ids[k])
  {
    var s', v, id := RoutedBy(s, a), a.answer.allocations[k].venue, a.ids[k];
    ChildMade(s, a, k);
    RoutedUnrelated(s, a, id);
    NotGivenIgnored(s', v, id);
    QueuedIsPast(s'.core, v, id);
  }

  lemma QueuedIsPast(c: Core, v: VenueId, id: OrderId)
    requires Kept(c) && v in c.dispatch && id in c.dispatch[v] && id in c.orders && c.orders[id].status == New
    ensures PastLines(c, id) && c.orders[id].venue == v && c.orders[id].fills == []
  {
    assert Sound(c.orders[id]);
  }

  /** In every continuation a child has filled at most its share. */
  lemma ChildBound(s: System, a: Action, k: nat, more: seq<Action>)
    requires Inv(s) && Listed(s) && SplitsOrder(s, a) && k < |a.ids| && |a.ids| == |a.answer.allocations|
    requires Inv(RoutedBy(s, a))
    ensures FilledIn(Further(RoutedBy(s, a), more).core.orders, a.ids[k])
         <= Share(a.answer.allocations[k], Open(s, a))
  {
    ChildMade(s, a, k);
    var s', id := RoutedBy(s, a), a.ids[k];
    FurtherKeeps(s', more);
    if !SentOn(a.answer.allocations[k], s.core.dispatch.Keys, a.ready) {
      RoutedUnrelated(s, a, id);
      RetiredForever(s', more, id);
    } else if CanFill(s.cfg, a.answer.allocations[k].venue, Parent(s, a).ticket) {
      WithinTicket(Further(s', more).core.orders, id);
    } else {
      ChildIgnored(s, a, k);
      IgnoredForever(s', more, a.answer.allocations[k].venue, id);
      NothingFilled(Further(s', more).core.orders, id);
    }
  }

  lemma NothingFilled(orders: OrderMap, id: OrderId)
    requires SoundOrders(orders) && id in orders && orders[id].fills == []
    ensures orders[id].filled == 0.0
  {
    assert Sound(orders[id]);
  }

  lemma WithinTicket(orders: OrderMap, id: OrderId)
    requires SoundOrders(orders) && id in orders
    ensures orders[id].filled <= orders[id].ticket.quantity
    ensures orders[id].status == Filled ==> orders[id].filled == orders[id].ticket.quantity
  {
    assert Sound(orders[id]);
  }

  /** The children at open venues can be filled. */
  ghost predicate ChildrenFillable(
      s: System, allocations: seq<Allocation>, ids: seq<OrderId>, open: set<VenueId>) {
    |ids| == |allocations|
    && forall k | 0 <= k < |ids| && allocations[k].venue in open :: Fillable(s, allocations[k].venue, ids[k])
  }

  ghost predicate CompletedUpTo(
      s: System, allocations: seq<Allocation>, ids: seq<OrderId>, open: set<VenueId>, n: nat) {
    n <= |ids| == |allocations| && forall k | 0 <= k < n && allocations[k].venue in open :: Complete(s, ids[k])
  }

  lemma FillableLater(
      s: System, t: System, allocations: seq<Allocation>, ids: seq<OrderId>, open: set<VenueId>)
    requires Leads(s, t) && ChildrenFillable(s, allocations, ids, open)
    ensures ChildrenFillable(t, allocations, ids, open)
  {
    forall k | 0 <= k < |ids| && allocations[k].venue in open ensures Fillable(t, allocations[k].venue, ids[k]) {
      assert Spares(s, t, allocations[k].venue, ids[k]);
    }
  }

  lemma CompletedLater(
      s: System, t: System, allocations: seq<Allocation>, ids: seq<OrderId>, open: set<VenueId>, n: nat)
    requires Leads(s, t) && ChildrenFillable(s, allocations, ids, open)
    requires CompletedUpTo(s, allocations, ids, open, n)
    ensures CompletedUpTo(t, allocations, ids, open, n)
  {
    forall k | 0 <= k < n && allocations[k].venue in open ensures Complete(t, ids[k]) {
      assert Spares(s, t, allocations[k].venue, ids[k]);
    }
  }

  lemma CompleteNext(
      s: System, allocations: seq<Allocation>, ids: seq<OrderId>, open: set<VenueId>, n: nat)
    returns (t: System)
    requires Inv(s) && ChildrenFillable(s, allocations, ids, open) && n < |ids|
    requires CompletedUpTo(s, allocations, ids, open, n)
    ensures Leads(s, t) && CompletedUpTo(t, allocations, ids, open, n + 1)
  {
    if allocations[n].venue in open {
      t := CanComplete(s, allocations[n].venue, ids[n]);
      CompletedLater(s, t, allocations, ids, open, n);
    } else {
      t := s;
      LeadsItself(s);
    }
  }

  lemma {:induction false} CompleteChildren(
      s: System, allocations: seq<Allocation>, ids: seq<OrderId>, open: set<VenueId>, n: nat)
    returns (t: System)
    requires Inv(s) && ChildrenFillable(s, allocations, ids, open) && n <= |ids|
    ensures Leads(s, t) && CompletedUpTo(t, allocations, ids, open, n)
  {
    if n == 0 {
      t := s;
      LeadsItself(s);
    } else {
      var u := CompleteChildren(s, allocations, ids, open, n - 1);
      FillableLater(s, u, allocations, ids, open);
      t := CompleteNext(u, allocations, ids, open, n - 1);
      LeadsOn(s, u, t);
    }
  }

  lemma MadeFillable(s: System, a: Action)
    requires Inv(s) && SplitsOrder(s, a) && |a.ids| == |a.answer.allocations| && Listed(s) && Inv(RoutedBy(s, a))
    ensures ChildrenFillable(RoutedBy(s, a), a.answer.allocations, a.ids, Open(s, a))
  {
    var s' := RoutedBy(s, a);
    forall k | 0 <= k < |a.ids| && a.answer.allocations[k].venue in Open(s, a)
      ensures Fillable(s', a.answer.allocations[k].venue, a.ids[k])
    {
      ChildMade(s, a, k);
    }
  }

  /** A state that can follow the split, in which every child at an open venue is complete. */
  lemma AllComplete(s: System, a: Action) returns (more: seq<Action>)
    requires Inv(s) && SplitsOrder(s, a) && a.answer.Allocations? && Listed(s)
    ensures CompletedUpTo(
      Further(RoutedBy(s, a), more), a.answer.allocations, a.ids, Open(s, a), |a.ids|)
  {
    SplitIsAnswered(s, a);
    MadeFillable(s, a);
    var t := CompleteChildren(RoutedBy(s, a), a.answer.allocations, a.ids, Open(s, a), |a.ids|);
    more :| t == Further(RoutedBy(s, a), more);
  }

  /** Complete children have filled what went to open venues. */
  lemma CompleteFilled(s: System, a: Action, t: System)
    requires Inv(s) && SplitsOrder(s, a) && a.answer.Allocations?
    requires Inv(t) && FillsKept(RoutedBy(s, a).core.orders, t.core.orders)
    requires CompletedUpTo(t, a.answer.allocations, a.ids, Open(s, a), |a.ids|)
    ensures OpenQuantity(s, a) <= FilledOf(t.core.orders, a.ids)
  {
    assert SharesFilled(t.core.orders, a.ids, a.answer.allocations, Open(s, a)) by {
      forall k | 0 <= k < |a.ids|
        ensures Share(a.answer.allocations[k], Open(s, a)) <= FilledIn(t.core.orders, a.ids[k])
      {
        ChildShare(s, a, k, t);
      }
    }
    FilledAbove(t.core.orders, a.ids, a.answer.allocations, Open(s, a));
  }

  lemma ParentKeeps(s: System, a: Action, more: seq<Action>)
    requires Inv(s) && SplitsOrder(s, a)
    ensures s.core.riskOut != []
    ensures FilledIn(Further(RoutedBy(s, a), more).core.orders, s.core.riskOut[0])
         == FilledIn(RoutedBy(s, a).core.orders, s.core.riskOut[0])
  {
    SplitIsAnswered(s, a);
    var id := ParentRetired(s, a);
    RetiredForever(RoutedBy(s, a), more, id);
  }

  lemma SharesStayBound(s: System, a: Action, more: seq<Action>, orders: OrderMap)
    requires Inv(s) && Listed(s) && SplitsOrder(s, a) && orders == Further(RoutedBy(s, a), more).core.orders
    ensures a.answer.Allocations? && SharesBound(orders, a.ids, a.answer.allocations, Open(s, a))
  {
    SplitIsAnswered(s, a);
    forall k | 0 <= k < |a.ids|
      ensures FilledIn(orders, a.ids[k]) <= Share(a.answer.allocations[k], Open(s, a))
    {
      ChildBound(s, a, k, more);
    }
  }

  lemma ChildrenBound(s: System, a: Action, more: seq<Action>)
    requires Inv(s) && Listed(s) && SplitsOrder(s, a) && a.answer.Allocations?
    ensures FilledOf(Further(RoutedBy(s, a), more).core.orders, a.ids) <= OpenQuantity(s, a)
  {
    var orders := Further(RoutedBy(s, a), more).core.orders;
    SharesStayBound(s, a, more, orders);
    FilledBelow(orders, a.ids, a.answer.allocations, Open(s, a));
  }

  /** Whatever happens after a split, the order and its children fill at most what the order had filled and
      what went to open venues of the split. */
  lemma SplitBoundsExecution(s: System, a: Action, more: seq<Action>)
    requires Inv(s) && Listed(s) && SplitsOrder(s, a)
    ensures s.core.riskOut != [] && a.answer.Allocations?
    ensures var id, s' := s.core.riskOut[0], RoutedBy(s, a);
      Executed(Further(s', more).core.orders, id, a.ids) <= FilledIn(s'.core.orders, id) + OpenQuantity(s, a)
  {
    ParentKeeps(s, a, more);
    ChildrenBound(s, a, more);
  }

  /** What went to open venues can all be filled. */
  lemma SplitExecutes(s: System, a: Action) returns (more: seq<Action>)
    requires Inv(s) && SplitsOrder(s, a) && a.answer.Allocations? && Listed(s)
    ensures s.core.riskOut != []
    ensures var id, s' := s.core.riskOut[0], RoutedBy(s, a);
      Executed(Further(s', more).core.orders, id, a.ids) == FilledIn(s'.core.orders, id) + OpenQuantity(s, a)
  {
    more := AllComplete(s, a);
    SplitIsAnswered(s, a);
    FurtherKeeps(RoutedBy(s, a), more);
    CompleteFilled(s, a, Further(RoutedBy(s, a), more));
    ParentKeeps(s, a, more);
    SplitBoundsExecution(s, a, more);
  }

  lemma ChildShare(s: System, a: Action, k: nat, t: System)
    requires Inv(s) && SplitsOrder(s, a) && |a.ids| == |a.answer.allocations| && k < |a.ids|
    requires Inv(t) && FillsKept(RoutedBy(s, a).core.orders, t.core.orders)
    requires a.answer.allocations[k].venue in Open(s, a) ==> Complete(t, a.ids[k])
    ensures Share(a.answer.allocations[k], Open(s, a)) <= FilledIn(t.core.orders, a.ids[k])
  {
    ChildMade(s, a, k);
    WithinTicket(t.core.orders, a.ids[k]);
    assert Sound(t.core.orders[a.ids[k]]);
  }

  // ---------------------------------------------------------------- the results

  /** No continuation fills more of the orders together than the quantity. */
  ghost predicate NeverOverfilled(cfg: Config, actions: seq<Action>, id: OrderId, ids: seq<OrderId>, quantity: real) {
    forall more :: Executed(Run(cfg, actions + more).core.orders, id, ids) <= quantity
  }

  /** What it has left when the router has answered. */
  ghost function LeftAtSplit(s: System, a: Action): real
    requires a.Route? && Enabled(s, a)
  {
    Parent(s, a).ticket.quantity - FilledIn(RoutedBy(s, a).core.orders, Parent(s, a).ticket.id)
  }

  /** From every reachable state: the child orders of a split ask for no more than the order has left exactly
      when the allocations add up to no more than that. */
  lemma ChildrenFitExactlyWhenAllocationsDo(cfg: Config, actions: seq<Action>, a: Action)
    requires SplitsOrder(Run(cfg, actions), a)
    ensures var s := Run(cfg, actions);
      (OrderedOf(RoutedBy(s, a).core.orders, a.ids) <= LeftAtSplit(s, a))
        <==> (Splitter.Sum(a.answer.allocations) <= LeftAtSplit(s, a))
  {
    Reachable(cfg, actions);
    var s := Run(cfg, actions);
    SplitIsAnswered(s, a);
    forall k | 0 <= k < |a.ids|
      ensures a.ids[k] in RoutedBy(s, a).core.orders
      ensures RoutedBy(s, a).core.orders[a.ids[k]].ticket.quantity == a.answer.allocations[k].quantity
    {
      ChildMade(s, a, k);
    }
    OrderedIsAllocated(RoutedBy(s, a).core.orders, a.ids, a.answer.allocations);
  }

  /** That is the whole quantity, or what a cross left of it. */
  lemma LeftAtSplitIs(s: System, a: Action)
    requires Inv(s) && SplitsOrder(s, a)
    ensures var result := CrossOf(s).result;
      LeftAtSplit(s, a)
      == Parent(s, a).ticket.quantity - if result.Crossed? then result.incoming.quantity else 0.0
  {
    var c, id := SplitRouted(s, a);
    SplitKeeps(c, c.orders[id].ticket, a.answer.allocations, a.ids, a.ready, id);
    ParentNamed(s, a);
  }

  lemma ParentNamed(s: System, a: Action)
    requires Inv(s) && a.Route? && Enabled(s, a)
    ensures Parent(s, a).ticket.id == s.core.riskOut[0]
  {}

  /** Over every run: after an order is split, in part crossed or whole, no continuation fills more of it and its
      children together than was ordered exactly when what the split sends to venues that can fill it fits in
      what the order has left. If it does not fit, there is a continuation that fills all of that. */
  lemma NeverOverfilledExactlyWhenSplitFits(cfg: Config, actions: seq<Action>, a: Action)
    requires SplitsOrder(Run(cfg, actions), a)
    ensures var s, o := Run(cfg, actions), Parent(Run(cfg, actions), a);
      (NeverOverfilled(cfg, actions + [a], o.ticket.id, a.ids, o.ticket.quantity)
       <==> OpenQuantity(s, a) <= LeftAtSplit(s, a))
  {
    var s, o := Run(cfg, actions), Parent(Run(cfg, actions), a);
    if OpenQuantity(s, a) <= LeftAtSplit(s, a) {
      forall more
        ensures Executed(Run(cfg, actions + [a] + more).core.orders, o.ticket.id, a.ids) <= o.ticket.quantity
      {
        RunSplitBounds(cfg, actions, a, more);
      }
    } else {
      var more := RunSplitExecutes(cfg, actions, a);
      assert o.ticket.quantity < Executed(Run(cfg, actions + [a] + more).core.orders, o.ticket.id, a.ids);
    }
  }

  lemma RunSplitBounds(cfg: Config, actions: seq<Action>, a: Action, more: seq<Action>)
    requires SplitsOrder(Run(cfg, actions), a)
    ensures var s, o := Run(cfg, actions), Parent(Run(cfg, actions), a);
      Executed(Run(cfg, actions + [a] + more).core.orders, o.ticket.id, a.ids)
      <= o.ticket.quantity - LeftAtSplit(s, a) + OpenQuantity(s, a)
  {
    var s := Run(cfg, actions);
    Reachable(cfg, actions);
    RunListed(cfg, actions);
    ParentNamed(s, a);
    RunRouted(cfg, actions, a);
    RunFurther(cfg, actions + [a], more);
    SplitBoundsExecution(s, a, more);
  }

  lemma RunSplitExecutes(cfg: Config, actions: seq<Action>, a: Action) returns (more: seq<Action>)
    requires SplitsOrder(Run(cfg, actions), a)
    ensures var s, o := Run(cfg, actions), Parent(Run(cfg, actions), a);
      Executed(Run(cfg, actions + [a] + more).core.orders, o.ticket.id, a.ids)
      == o.ticket.quantity - LeftAtSplit(s, a) + OpenQuantity(s, a)
  {
    var s := Run(cfg, actions);
    Reachable(cfg, actions);
    RunListed(cfg, actions);
    ParentNamed(s, a);
    RunRouted(cfg, actions, a);
    more := SplitExecutes(s, a);
    RunFurther(cfg, actions + [a], more);
  }
}
