/** Orders a simulated venue never fills: stop-limit orders, and orders in instruments it does not list. */
module Unserved {
  import opened Routing
  import opened Wrappers
  import opened Orders
  import opened PipelineCore
  import opened PipelineLedger
  import opened PipelineMachine
  import opened PipelineSafety
  import opened PipelineResidual
  import opened Continuations
  import opened ResidualChildren
  import MatchingEngine

  // ---------------------------------------------------------------- which order a step touches

  lemma RouteTouches(s: System, a: Action)
    requires Inv(s) && a.Route? && Enabled(s, a)
    ensures s.core.riskOut != [] && OnlyTouches(s.core, RoutedBy(s, a).core, s.core.riskOut[0])
  {
    RouteFacts(s, a);
    RouteCross(s);
    RoutedKeeps(s.core, InputOf(s, a), s.cfg.g);
  }

  lemma SubmitTouches(s: System, v: VenueId, accepted: bool, slipped: real)
    requires Inv(s) && Enabled(s, SubmitOrder(v, accepted, slipped))
    ensures v in s.desks && s.desks[v].hand.Some?
    ensures OnlyTouches(s.core, SubmittedTo(s, v, accepted, slipped).core, s.desks[v].hand.value)
  {
    HandPastRouter(s, v);
    if !accepted {
      DeclinedKeeps(s.core, s.desks[v].hand.value);
    }
  }

  lemma CollectTouches(s: System, v: VenueId)
    requires Inv(s) && v in s.desks && s.desks[v].read < |s.desks[v].venue.fills| && Enabled(s, Collect(v))
    ensures OnlyTouches(s.core, Collected(s, v).core, NextFill(s.desks[v]).order)
    ensures NextFill(s.desks[v]).order in s.desks[v].given
  {
    NextFillOwned(s, v);
    ProcessedKeeps(s.core, NextFill(s.desks[v]), s.cfg.g);
    assert DeskSafe(s.core.orders, v, v in s.cfg.simulated, s.desks[v]);
    assert NextFill(s.desks[v]) in s.desks[v].venue.fills;
  }

  lemma LineUntouched(s: System, a: Action, id: OrderId)
    requires Inv(s) && Enabled(s, a) && Out(s.core, id) && (a.Submit? || a.Decide? || a.Take?)
    ensures id in Do(s, a).core.orders && Do(s, a).core.orders[id] == s.core.orders[id]
  {
    match a
    case Submit(t, preferred) => SubmitKeeps(s.core, t, preferred);
    case Decide(i, risk) => DecideKeeps(s.core, i, risk, s.cfg.failOpen);
    case Take(v) => TakenKeeps(s.core, v);
  }

  lemma TakenKeys(c: Core, v: VenueId)
    requires Linked(c) && v in c.dispatch && c.dispatch[v] != []
    ensures Taken(c, v).orders.Keys == c.orders.Keys
  {
    assert c.dispatch[v][0] in c.dispatch[v];
  }

  lemma CollectedKeys(s: System, v: VenueId)
    requires Inv(s) && Enabled(s, Collect(v))
    ensures Collected(s, v).core.orders.Keys == s.core.orders.Keys
  {
    NextFillOwned(s, v);
  }

  lemma SubmittedKeys(s: System, v: VenueId, accepted: bool, slipped: real)
    requires Inv(s) && Enabled(s, SubmitOrder(v, accepted, slipped))
    ensures SubmittedTo(s, v, accepted, slipped).core.orders.Keys == s.core.orders.Keys
  {
    HandPastRouter(s, v);
    if !accepted {
      DeclinedFills(s.core, s.desks[v].hand.value);
    }
  }

  lemma DecidedKeys(c: Core, i: nat, risk: RiskAnswer, failOpen: bool)
    requires Linked(c) && i < |c.intake|
    ensures PipelineCore.Decide(c, i, risk, failOpen).orders.Keys == c.orders.Keys
  {}

  /** Only submissions and routing make orders. */
  lemma OrdersStay(s: System, a: Action)
    requires Inv(s) && Enabled(s, a) && !a.Submit? && !a.Route?
    ensures Do(s, a).core.orders.Keys == s.core.orders.Keys
  {
    match a
    case Decide(i, answer) => DecidedKeys(s.core, i, answer, s.cfg.failOpen);
    case Take(u) =>
      TakenKeys(s.core, u);
      TookDesk(s, u);
    case SubmitOrder(u, accepted, slipped) => SubmittedKeys(s, u, accepted, slipped);
    case Collect(u) => CollectedKeys(s, u);
    case _ => QuietCore(s, a);
  }

  // ---------------------------------------------------------------- venues list the same instruments for ever

  lemma BooksAtVenue(s: System, v: VenueId, venue: MatchingEngine.Venue)
    requires v in s.desks && venue.books.Keys == s.desks[v].venue.books.Keys
    ensures AtVenue(s, v, venue).desks.Keys == s.desks.Keys
    ensures forall u | u in s.desks :: AtVenue(s, v, venue).desks[u].venue.books.Keys == s.desks[u].venue.books.Keys
  {}

  lemma StepKeepsBooks(s: System, a: Action)
    requires Enabled(s, a)
    ensures Do(s, a).desks.Keys == s.desks.Keys
    ensures forall v | v in s.desks :: Do(s, a).desks[v].venue.books.Keys == s.desks[v].venue.books.Keys
  {
    match a
    case Take(u) => TookDesk(s, u);
    case SubmitOrder(u, accepted, slipped) => SubmitKeepsBooks(s, u, accepted, slipped);
    case Emit(u, f) => BooksAtVenue(s, u, s.desks[u].venue.(fills := s.desks[u].venue.fills + [f]));
    case Sweep(u, i, price) => BooksAtVenue(s, u, MatchingEngine.Swept(s.desks[u].venue, i, price));
    case Withdraw(u, id) => BooksAtVenue(s, u, MatchingEngine.Withdrawn(s.desks[u].venue, id));
    case Collect(u) => CollectKeepsBooks(s, u);
    case _ => SameDesks(s, a);
  }

  lemma SubmitKeepsBooks(s: System, u: VenueId, accepted: bool, slipped: real)
    requires Enabled(s, SubmitOrder(u, accepted, slipped))
    ensures var s' := SubmittedTo(s, u, accepted, slipped);
      && s'.desks.Keys == s.desks.Keys
      && forall v | v in s.desks :: s'.desks[v].venue.books.Keys == s.desks[v].venue.books.Keys
  {}

  lemma CollectKeepsBooks(s: System, u: VenueId)
    requires Enabled(s, Collect(u))
    ensures Collected(s, u).desks.Keys == s.desks.Keys
    ensures forall v | v in s.desks :: Collected(s, u).desks[v].venue == s.desks[v].venue
  {}

  /** Simulated venues list the instruments of the configuration. */
  ghost predicate Listed(s: System) {
    forall v | v in s.desks && v in s.cfg.simulated :: s.desks[v].venue.books.Keys == s.cfg.instruments
  }

  lemma {:induction false} RunListed(cfg: Config, actions: seq<Action>)
    ensures Listed(Run(cfg, actions)) && Run(cfg, actions).cfg == cfg
  {
    if actions != [] {
      var n := |actions| - 1;
      var s := Run(cfg, actions[..n]);
      RunListed(cfg, actions[..n]);
      if Enabled(s, actions[n]) {
        StepKeepsBooks(s, actions[n]);
        StepKeepsConfig(s, actions[n]);
      }
    }
  }

  // ---------------------------------------------------------------- what is not served is not filled

  /** The venue neither has the order in a book nor ever emitted a fill for it. */
  ghost predicate Ignores(venue: MatchingEngine.Venue, id: OrderId) {
    && (forall f | f in venue.fills :: f.order != id)
    && (forall i, t | i in venue.books && t in venue.books[i] :: t.id != id)
  }

  /** Past the router, for a simulated venue that does not serve it, and nothing filled. */
  ghost predicate Ignored(s: System, v: VenueId, id: OrderId) {
    && v in s.desks && v in s.cfg.simulated && id in s.core.orders && s.core.orders[id].ticket.id == id
    && !Serves(s.desks[v], true, s.core.orders[id].ticket) && Ignores(s.desks[v].venue, id)
    && s.core.orders[id].venue == v && s.core.orders[id].fills == [] && PastLines(s.core, id)
  }

  /** A venue that was not given the order ignores it. */
  lemma NotGivenIgnored(s: System, v: VenueId, id: OrderId)
    requires Inv(s) && v in s.desks && v in s.cfg.simulated && id !in s.desks[v].given
    ensures Ignores(s.desks[v].venue, id)
  {
    assert DeskSafe(s.core.orders, v, v in s.cfg.simulated, s.desks[v]);
    forall i, t | i in s.desks[v].venue.books && t in s.desks[v].venue.books[i] ensures t.id != id {
      assert MatchingEngine.BookTidy(i, s.desks[v].venue.books[i], s.desks[v].venue.fills, s.desks[v].given);
    }
  }

  lemma ProcessedIgnores(venue: MatchingEngine.Venue, t: Ticket, slipped: real, id: OrderId)
    requires Ignores(venue, id)
    requires t.id == id ==> t.instrument !in venue.books || t.kind == StopLimit
    ensures Ignores(MatchingEngine.Processed(venue, t, slipped), id)
  {}

  lemma SweptIgnores(venue: MatchingEngine.Venue, given: map<OrderId, Ticket>, i: Instrument, price: real, id: OrderId)
    requires Ignores(venue, id) && MatchingEngine.Tidy(venue, given)
    ensures Ignores(MatchingEngine.Swept(venue, i, price), id)
  {
    if i in venue.books {
      assert MatchingEngine.BookTidy(i, venue.books[i], venue.fills, given);
      MatchingEngine.SweepSplits(venue.books[i], price);
      forall f | f in MatchingEngine.SweepFills(venue.books[i], price) ensures f.order != id {
        assert MatchingEngine.FillOf(venue.books[i], price, f);
      }
    }
  }

  lemma WithdrawnIgnores(venue: MatchingEngine.Venue, given: map<OrderId, Ticket>, other: OrderId, id: OrderId)
    requires Ignores(venue, id) && MatchingEngine.Tidy(venue, given)
    ensures Ignores(MatchingEngine.Withdrawn(venue, other), id)
  {
    forall i, t | i in venue.books && t in MatchingEngine.WithoutOrder(venue.books[i], other) ensures t.id != id {
      assert MatchingEngine.BookTidy(i, venue.books[i], venue.fills, given);
      MatchingEngine.WithoutParts(venue.books[i], other);
    }
  }

  /** The venue goes on ignoring the order. */
  lemma StepIgnores(s: System, a: Action, v: VenueId, id: OrderId)
    requires Inv(s) && Enabled(s, a) && Ignored(s, v, id)
    ensures v in Do(s, a).desks && Ignores(Do(s, a).desks[v].venue, id)
  {
    match a
    case SubmitOrder(u, accepted, slipped) => SubmitIgnores(s, u, accepted, slipped, v, id);
    case Sweep(u, i, price) => SweepIgnores(s, u, i, price, v, id);
    case Withdraw(u, other) => WithdrawIgnores(s, u, other, v, id);
    case Emit(u, f) => EmitElsewhere(s, u, f, v);
    case _ => VenueUntouched(s, a, v);
  }

  /** A simulated venue does not emit on its own. */
  lemma EmitElsewhere(s: System, u: VenueId, f: Fill, v: VenueId)
    requires Enabled(s, Emit(u, f)) && v in s.desks && v in s.cfg.simulated
    ensures v in Do(s, Emit(u, f)).desks && Do(s, Emit(u, f)).desks[v] == s.desks[v]
  {}

  lemma VenueUntouched(s: System, a: Action, v: VenueId)
    requires Enabled(s, a) && !a.SubmitOrder? && !a.Sweep? && !a.Withdraw? && !a.Emit? && v in s.desks
    ensures v in Do(s, a).desks && Do(s, a).desks[v].venue == s.desks[v].venue
  {
    match a
    case Take(u) => TookDesk(s, u);
    case Collect(u) => CollectKeepsBooks(s, u);
    case _ => SameDesks(s, a);
  }

  lemma SweepIgnores(s: System, u: VenueId, i: Instrument, price: real, v: VenueId, id: OrderId)
    requires Inv(s) && u in s.desks && Ignored(s, v, id)
    ensures Ignores(AtVenue(s, u, MatchingEngine.Swept(s.desks[u].venue, i, price)).desks[v].venue, id)
  {
    TidyDesk(s, v);
    SweptIgnores(s.desks[v].venue, s.desks[v].given, i, price, id);
  }

  lemma WithdrawIgnores(s: System, u: VenueId, other: OrderId, v: VenueId, id: OrderId)
    requires Inv(s) && u in s.desks && Ignored(s, v, id)
    ensures Ignores(AtVenue(s, u, MatchingEngine.Withdrawn(s.desks[u].venue, other)).desks[v].venue, id)
  {
    TidyDesk(s, v);
    WithdrawnIgnores(s.desks[v].venue, s.desks[v].given, other, id);
  }

  lemma TidyDesk(s: System, v: VenueId)
    requires Inv(s) && v in s.desks && v in s.cfg.simulated
    ensures MatchingEngine.Tidy(s.desks[v].venue, s.desks[v].given)
  {
    assert DeskSafe(s.core.orders, v, v in s.cfg.simulated, s.desks[v]);
  }

  lemma SubmitIgnores(s: System, u: VenueId, accepted: bool, slipped: real, v: VenueId, id: OrderId)
    requires Inv(s) && Enabled(s, SubmitOrder(u, accepted, slipped)) && Ignored(s, v, id)
    ensures v in SubmittedTo(s, u, accepted, slipped).desks
    ensures Ignores(SubmittedTo(s, u, accepted, slipped).desks[v].venue, id)
  {
    HandPastRouter(s, u);
    if u == v {
      ProcessedIgnores(s.desks[v].venue, s.core.orders[s.desks[v].hand.value].ticket, slipped, id);
    }
  }

  /** No fill for it is collected. */
  lemma CollectsOther(s: System, u: VenueId, v: VenueId, id: OrderId)
    requires Inv(s) && u in s.desks && s.desks[u].read < |s.desks[u].venue.fills| && Ignored(s, v, id)
    ensures NextFill(s.desks[u]).order != id
  {
    assert NextFill(s.desks[u]) in s.desks[u].venue.fills;
    assert DeskSafe(s.core.orders, u, u in s.cfg.simulated, s.desks[u]);
  }

  /** Nothing of an order past the lines changes but its status, unless a fill for it is collected. */
  ghost predicate OnlyStatus(orders: OrderMap, orders': OrderMap, id: OrderId) {
    && id in orders && id in orders' && orders'[id].ticket == orders[id].ticket
    && orders'[id].venue == orders[id].venue && orders'[id].fills == orders[id].fills
  }

  lemma TakenStatus(c: Core, u: VenueId, id: OrderId)
    requires Kept(c) && u in c.dispatch && c.dispatch[u] != [] && id in c.orders
    ensures OnlyStatus(c.orders, Taken(c, u).orders, id)
  {
    TakenKeeps(c, u);
    assert c.dispatch[u][0] in c.dispatch[u];
  }

  lemma SubmittedStatus(s: System, u: VenueId, accepted: bool, slipped: real, id: OrderId)
    requires Inv(s) && Enabled(s, SubmitOrder(u, accepted, slipped)) && id in s.core.orders
    ensures OnlyStatus(s.core.orders, SubmittedTo(s, u, accepted, slipped).core.orders, id)
  {
    HandPastRouter(s, u);
    if !accepted {
      DeclinedStatus(s.core, s.desks[u].hand.value, id);
    }
  }

  lemma DeclinedStatus(c: Core, other: OrderId, id: OrderId)
    requires Linked(c) && other in c.orders && id in c.orders
    ensures OnlyStatus(c.orders, Declined(c, other).orders, id)
  {}

  lemma TouchesOther(c: Core, c': Core, other: OrderId, id: OrderId)
    requires OnlyTouches(c, c', other) && other != id && id in c.orders
    ensures OnlyStatus(c.orders, c'.orders, id)
  {}

  lemma SubmitStatus(c: Core, t: Ticket, preferred: VenueId, id: OrderId)
    requires Kept(c) && t.id !in c.orders && id in c.orders
    ensures OnlyStatus(c.orders, PipelineCore.Submit(c, t, preferred).orders, id)
  {
    SubmitKeeps(c, t, preferred);
    TouchesOther(c, PipelineCore.Submit(c, t, preferred), t.id, id);
  }

  lemma DecideStatus(c: Core, i: nat, risk: RiskAnswer, failOpen: bool, id: OrderId)
    requires Kept(c) && i < |c.intake| && id in c.orders && id !in c.intake
    ensures OnlyStatus(c.orders, PipelineCore.Decide(c, i, risk, failOpen).orders, id)
  {
    DecideKeeps(c, i, risk, failOpen);
    TouchesOther(c, PipelineCore.Decide(c, i, risk, failOpen), c.intake[i], id);
  }

  lemma RouteStatus(s: System, a: Action, id: OrderId)
    requires Inv(s) && a.Route? && Enabled(s, a) && id in s.core.orders && id !in s.core.riskOut
    ensures OnlyStatus(s.core.orders, RoutedBy(s, a).core.orders, id)
  {
    RouteTouches(s, a);
    TouchesOther(s.core, RoutedBy(s, a).core, s.core.riskOut[0], id);
  }

  lemma CollectStatus(s: System, u: VenueId, v: VenueId, id: OrderId)
    requires Inv(s) && u in s.desks && s.desks[u].read < |s.desks[u].venue.fills| && Enabled(s, Collect(u))
    requires Ignored(s, v, id)
    ensures OnlyStatus(s.core.orders, Collected(s, u).core.orders, id)
  {
    CollectTouches(s, u);
    CollectsOther(s, u, v, id);
    TouchesOther(s.core, Collected(s, u).core, NextFill(s.desks[u]).order, id);
  }

  lemma StepStatus(s: System, a: Action, v: VenueId, id: OrderId)
    requires Inv(s) && Enabled(s, a) && Ignored(s, v, id)
    ensures OnlyStatus(s.core.orders, Do(s, a).core.orders, id)
  {
    match a
    case Submit(t, preferred) => SubmitStatus(s.core, t, preferred, id);
    case Decide(i, risk) => DecideStatus(s.core, i, risk, s.cfg.failOpen, id);
    case Route(_, _, _, _) => RouteStatus(s, a, id);
    case Take(u) =>
      TakenStatus(s.core, u, id);
      TookDesk(s, u);
    case SubmitOrder(u, accepted, slipped) => SubmittedStatus(s, u, accepted, slipped, id);
    case Collect(u) => CollectStatus(s, u, v, id);
    case _ => QuietCore(s, a);
  }

  ghost predicate PastLines(c: Core, id: OrderId) {
    id in c.orders && id !in c.intake && id !in c.riskOut
  }

  lemma SubmitPast(c: Core, t: Ticket, preferred: VenueId, id: OrderId)
    requires Linked(c) && t.id !in c.orders && PastLines(c, id)
    ensures PastLines(PipelineCore.Submit(c, t, preferred), id)
  {}

  lemma DecidePast(c: Core, i: nat, risk: RiskAnswer, failOpen: bool, id: OrderId)
    requires Linked(c) && i < |c.intake| && PastLines(c, id)
    ensures PastLines(PipelineCore.Decide(c, i, risk, failOpen), id)
  {}

  lemma TakePast(c: Core, u: VenueId, id: OrderId)
    requires Kept(c) && u in c.dispatch && c.dispatch[u] != [] && PastLines(c, id)
    ensures PastLines(Taken(c, u), id)
  {
    TakenKeeps(c, u);
  }

  /** An order past the waiting lines does not come back to them. */
  lemma StepPast(s: System, a: Action, id: OrderId)
    requires Inv(s) && Enabled(s, a) && PastLines(s.core, id)
    ensures PastLines(Do(s, a).core, id)
  {
    match a
    case Submit(t, preferred) => SubmitPast(s.core, t, preferred, id);
    case Decide(i, risk) => DecidePast(s.core, i, risk, s.cfg.failOpen, id);
    case Route(_, _, _, _) => RoutePast(s, a, id);
    case Take(u) =>
      TakePast(s.core, u, id);
      TookDesk(s, u);
    case SubmitOrder(u, accepted, slipped) => SubmittedPast(s, u, accepted, slipped, id);
    case Collect(u) => CollectPast(s, u, id);
    case _ => QuietCore(s, a);
  }

  lemma RoutePast(s: System, a: Action, id: OrderId)
    requires Inv(s) && a.Route? && Enabled(s, a) && PastLines(s.core, id)
    ensures PastLines(RoutedBy(s, a).core, id)
  {
    RouteFacts(s, a);
    RouteCross(s);
    RoutedKeeps(s.core, InputOf(s, a), s.cfg.g);
  }

  lemma SubmittedPast(s: System, u: VenueId, accepted: bool, slipped: real, id: OrderId)
    requires Inv(s) && Enabled(s, SubmitOrder(u, accepted, slipped)) && PastLines(s.core, id)
    ensures PastLines(SubmittedTo(s, u, accepted, slipped).core, id)
  {
    HandPastRouter(s, u);
    if !accepted {
      DeclinedKeeps(s.core, s.desks[u].hand.value);
    }
  }

  lemma CollectPast(s: System, u: VenueId, id: OrderId)
    requires Inv(s) && Enabled(s, Collect(u)) && PastLines(s.core, id)
    ensures PastLines(Collected(s, u).core, id)
  {
    NextFillOwned(s, u);
    ProcessedKeeps(s.core, NextFill(s.desks[u]), s.cfg.g);
  }

  lemma StaysIgnored(s: System, a: Action, v: VenueId, id: OrderId)
    requires Inv(s) && Enabled(s, a) && Ignored(s, v, id)
    ensures Ignored(Do(s, a), v, id)
  {
    StepIgnores(s, a, v, id);
    StepStatus(s, a, v, id);
    StepPast(s, a, id);
    StepKeepsBooks(s, a);
    StepKeepsConfig(s, a);
  }

  /** It is not filled in any continuation. */
  lemma {:induction false} IgnoredForever(s: System, more: seq<Action>, v: VenueId, id: OrderId)
    requires Inv(s) && Ignored(s, v, id)
    ensures var t := Further(s, more); id in t.core.orders && t.core.orders[id].fills == []
    decreases |more|
  {
    if more != [] {
      if Enabled(s, more[0]) {
        StaysIgnored(s, more[0], v, id);
        StepKeepsInv(s, more[0]);
        IgnoredForever(Do(s, more[0]), more[1..], v, id);
      } else {
        IgnoredForever(s, more[1..], v, id);
      }
    }
  }
}
