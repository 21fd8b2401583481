/** Where the fills of a simulated venue come from, over whole runs: which action, and at which prices. */
module VenueFills {
  import opened Routing
  import opened Wrappers
  import opened Orders
  import opened PipelineCore
  import opened PipelineMachine
  import opened PipelineSafety
  import opened PipelineResidual
  import opened ResidualChildren
  import opened Unserved
  import MatchingEngine

  // ---------------------------------------------------------------- only limit orders rest

  ghost predicate LimitsRest(venue: MatchingEngine.Venue) {
    forall i, t | i in venue.books && t in venue.books[i] :: t.kind == Limit
  }

  lemma ProcessedLimits(venue: MatchingEngine.Venue, t: Ticket, slipped: real)
    requires LimitsRest(venue)
    ensures LimitsRest(MatchingEngine.Processed(venue, t, slipped))
  {}

  lemma {:induction false} SweepRestIn(book: seq<Ticket>, price: real)
    ensures forall t | t in MatchingEngine.SweepRest(book, price) :: t in book
  {
    if book != [] {
      SweepRestIn(book[..|book| - 1], price);
    }
  }

  lemma {:induction false} WithoutOrderIn(book: seq<Ticket>, id: OrderId)
    ensures forall t | t in MatchingEngine.WithoutOrder(book, id) :: t in book
  {
    if book != [] {
      WithoutOrderIn(book[..|book| - 1], id);
    }
  }

  lemma SweptLimits(venue: MatchingEngine.Venue, i: Instrument, price: real)
    requires LimitsRest(venue)
    ensures LimitsRest(MatchingEngine.Swept(venue, i, price))
  {
    if i in venue.books {
      SweepRestIn(venue.books[i], price);
    }
  }

  lemma WithdrawnLimits(venue: MatchingEngine.Venue, id: OrderId)
    requires LimitsRest(venue)
    ensures LimitsRest(MatchingEngine.Withdrawn(venue, id))
  {
    forall i, t | i in venue.books && t in MatchingEngine.WithoutOrder(venue.books[i], id) ensures t.kind == Limit {
      WithoutOrderIn(venue.books[i], id);
    }
  }

  /** A SubmitOrder call changes the desk of its venue only. */
  lemma SubmitDesk(s: System, u: VenueId, accepted: bool, slipped: real, v: VenueId)
    requires Enabled(s, SubmitOrder(u, accepted, slipped)) && v in s.desks
    ensures v in SubmittedTo(s, u, accepted, slipped).desks && u in s.desks && s.desks[u].hand.Some?
    ensures s.desks[u].hand.value in s.core.orders
    ensures SubmittedTo(s, u, accepted, slipped).desks[v] ==
      if u != v then s.desks[v]
      else Called(s.desks[v], s.core.orders[s.desks[u].hand.value].ticket, accepted && v in s.cfg.simulated, slipped)
  {}

  lemma StepLimits(s: System, a: Action, v: VenueId)
    requires Enabled(s, a) && v in s.desks && v in s.cfg.simulated && LimitsRest(s.desks[v].venue)
    ensures v in Do(s, a).desks && LimitsRest(Do(s, a).desks[v].venue)
  {
    match a
    case SubmitOrder(u, accepted, slipped) =>
      SubmitDesk(s, u, accepted, slipped, v);
      if u == v {
        ProcessedLimits(s.desks[v].venue, s.core.orders[s.desks[v].hand.value].ticket, slipped);
      }
    case Sweep(u, i, price) => SweptLimits(s.desks[v].venue, i, price);
    case Withdraw(u, id) => WithdrawnLimits(s.desks[v].venue, id);
    case Emit(u, f) => EmitElsewhere(s, u, f, v);
    case _ => VenueUntouched(s, a, v);
  }

  lemma {:induction false} RunLimits(cfg: Config, actions: seq<Action>, v: VenueId)
    requires v in cfg.venues && v in cfg.simulated
    ensures var s := Run(cfg, actions); v in s.desks && s.cfg == cfg && LimitsRest(s.desks[v].venue)
  {
    if actions != [] {
      var n := |actions| - 1;
      RunLimits(cfg, actions[..n], v);
      if Enabled(Run(cfg, actions[..n]), actions[n]) {
        StepLimits(Run(cfg, actions[..n]), actions[n], v);
        StepKeepsConfig(Run(cfg, actions[..n]), actions[n]);
      }
    }
  }

  // ---------------------------------------------------------------- which step emits which fill

  /** Fills and given orders are only ever added. */
  ghost predicate Extends(d: Desk, d': Desk) {
    && |d.venue.fills| <= |d'.venue.fills| && d'.venue.fills[..|d.venue.fills|] == d.venue.fills
    && forall id | id in d.given :: id in d'.given && d'.given[id] == d.given[id]
  }

  /** What a step that emits a fill for an order was: a sweep of the order's instrument at a price that reaches
      its limit, or the submission of the order itself. */
  ghost predicate Explains(hand: Option<OrderId>, a: Action, v: VenueId, f: Fill, t: Ticket) {
    && f.order == t.id && f.quantity == t.quantity
    && match t.kind
       case Limit =>
         && a.Sweep? && a.venue == v && a.instrument == t.instrument && f.price == t.price
         && (t.side == Buy ==> a.price <= t.price) && (t.side == Sell ==> t.price <= a.price)
       case Market => a == SubmitOrder(v, true, f.price) && hand == Some(t.id)
       case StopLimit => false
  }

  /** Every fill the step adds is explained by it. */
  ghost predicate AddsExplained(a: Action, v: VenueId, d: Desk, d': Desk) {
    && Extends(d, d')
    && forall j | |d.venue.fills| <= j < |d'.venue.fills| ::
         var f := d'.venue.fills[j]; f.order in d'.given && Explains(d.hand, a, v, f, d'.given[f.order])
  }

  lemma SweepExplained(d: Desk, v: VenueId, i: Instrument, price: real)
    requires MatchingEngine.Tidy(d.venue, d.given) && LimitsRest(d.venue)
    ensures AddsExplained(Sweep(v, i, price), v, d, d.(venue := MatchingEngine.Swept(d.venue, i, price)))
  {
    if i in d.venue.books {
      var fs := MatchingEngine.SweepFills(d.venue.books[i], price);
      assert MatchingEngine.BookTidy(i, d.venue.books[i], d.venue.fills, d.given);
      MatchingEngine.SweepAtLimits(d.venue.books[i], price);
      forall f | f in fs ensures f.order in d.given && Explains(d.hand, Sweep(v, i, price), v, f, d.given[f.order]) {
        var t :| t in d.venue.books[i] && f == Fill(t.id, t.quantity, t.price)
          && (t.side == Buy ==> price <= t.price) && (t.side == Sell ==> t.price <= price);
      }
    }
  }

  lemma CalledExplained(d: Desk, v: VenueId, t: Ticket, accepted: bool, slipped: real)
    requires d.hand == Some(t.id) && t.id !in d.given
    ensures AddsExplained(SubmitOrder(v, accepted, slipped), v, d, Called(d, t, accepted, slipped))
  {}

  lemma SubmitExplained(s: System, u: VenueId, accepted: bool, slipped: real, v: VenueId)
    requires Inv(s) && Enabled(s, SubmitOrder(u, accepted, slipped)) && v in s.desks && v in s.cfg.simulated
    ensures v in SubmittedTo(s, u, accepted, slipped).desks
    ensures AddsExplained(SubmitOrder(u, accepted, slipped), v, s.desks[v],
                          SubmittedTo(s, u, accepted, slipped).desks[v])
  {
    SubmitDesk(s, u, accepted, slipped, v);
    if u == v {
      HandNotGiven(s, v);
      CalledExplained(s.desks[v], v, s.core.orders[s.desks[v].hand.value].ticket, accepted, slipped);
    }
  }

  lemma HandNotGiven(s: System, v: VenueId)
    requires Inv(s) && v in s.desks && s.desks[v].hand.Some?
    ensures var id := s.desks[v].hand.value;
      id in s.core.orders && s.core.orders[id].ticket.id == id && id !in s.desks[v].given
  {
    HandPastRouter(s, v);
    assert DeskSafe(s.core.orders, v, v in s.cfg.simulated, s.desks[v]);
  }

  lemma SweepStepExplained(s: System, u: VenueId, i: Instrument, price: real, v: VenueId)
    requires Inv(s) && v in s.desks && v in s.cfg.simulated && LimitsRest(s.desks[v].venue) && u in s.desks
    ensures AddsExplained(Sweep(u, i, price), v, s.desks[v],
                          AtVenue(s, u, MatchingEngine.Swept(s.desks[u].venue, i, price)).desks[v])
  {
    if u == v {
      TidyDesk(s, v);
      SweepExplained(s.desks[v], v, i, price);
    }
  }

  /** Any other step adds no fill of the venue. */
  lemma QuietExplained(s: System, a: Action, v: VenueId)
    requires Enabled(s, a) && v in s.desks && v in s.cfg.simulated && !a.SubmitOrder? && !a.Sweep?
    ensures v in Do(s, a).desks && AddsExplained(a, v, s.desks[v], Do(s, a).desks[v])
  {
    match a
    case Emit(u, f) => EmitElsewhere(s, u, f, v);
    case Take(u) => TookDesk(s, u);
    case Collect(u) => CollectKeepsDesk(s, u, v);
    case Withdraw(u, id) =>
    case _ => SameDesks(s, a);
  }

  lemma StepExplained(s: System, a: Action, v: VenueId)
    requires Inv(s) && Enabled(s, a) && v in s.desks && v in s.cfg.simulated && LimitsRest(s.desks[v].venue)
    ensures v in Do(s, a).desks && AddsExplained(a, v, s.desks[v], Do(s, a).desks[v])
  {
    match a
    case SubmitOrder(u, accepted, slipped) => SubmitExplained(s, u, accepted, slipped, v);
    case Sweep(u, i, price) => SweepStepExplained(s, u, i, price, v);
    case _ => QuietExplained(s, a, v);
  }

  lemma CollectKeepsDesk(s: System, u: VenueId, v: VenueId)
    requires Enabled(s, Collect(u)) && v in s.desks
    ensures v in Collected(s, u).desks && Collected(s, u).desks[v].venue == s.desks[v].venue
    ensures Collected(s, u).desks[v].given == s.desks[v].given
  {}

  /** The fills of a venue so far. */
  ghost function FillsOf(s: System, v: VenueId): seq<Fill> {
    if v in s.desks then s.desks[v].venue.fills else []
  }

  ghost function HandOf(s: System, v: VenueId): Option<OrderId> {
    if v in s.desks then s.desks[v].hand else None
  }

  /** Fill j of the venue is emitted by action k, and explained by it. */
  ghost predicate EmittedBy(cfg: Config, actions: seq<Action>, k: nat, v: VenueId, j: nat, f: Fill, t: Ticket)
    requires k < |actions|
  {
    var s, s' := Run(cfg, actions[..k]), Run(cfg, actions[..k + 1]);
    && |FillsOf(s, v)| <= j < |FillsOf(s', v)| && FillsOf(s', v)[j] == f
    && Explains(HandOf(s, v), actions[k], v, f, t)
  }

  /** The fill is for an order the venue was given, and the run says where it comes from. */
  ghost predicate Accounted(cfg: Config, actions: seq<Action>, k: nat, v: VenueId, j: nat, d: Desk)
    requires j < |d.venue.fills|
  {
    var f := d.venue.fills[j];
    k < |actions| && f.order in d.given && EmittedBy(cfg, actions, k, v, j, f, d.given[f.order])
  }

  lemma StillAccounted(cfg: Config, before: seq<Action>, a: Action, k: nat, v: VenueId, j: nat, d: Desk, d': Desk)
    requires j < |d.venue.fills| && Accounted(cfg, before, k, v, j, d) && Extends(d, d')
    ensures Accounted(cfg, before + [a], k, v, j, d')
  {
    var actions := before + [a];
    assert actions[..k] == before[..k] && actions[..k + 1] == before[..k + 1] && actions[k] == before[k];
    assert d'.venue.fills[..|d.venue.fills|][j] == d'.venue.fills[j];
  }

  lemma NowAccounted(cfg: Config, before: seq<Action>, a: Action, v: VenueId, j: nat, d: Desk, d': Desk)
    requires v in Run(cfg, before).desks && Run(cfg, before).desks[v] == d
    requires v in Run(cfg, before + [a]).desks && Run(cfg, before + [a]).desks[v] == d'
    requires AddsExplained(a, v, d, d') && |d.venue.fills| <= j < |d'.venue.fills|
    ensures Accounted(cfg, before + [a], |before|, v, j, d')
  {
    var actions := before + [a];
    assert actions[..|before|] == before && actions[..|before| + 1] == actions;
  }

  /** What one more action does to the desk of a simulated venue. */
  lemma RunExplained(cfg: Config, before: seq<Action>, a: Action, v: VenueId)
    requires v in cfg.venues && v in cfg.simulated
    ensures v in Run(cfg, before).desks && v in Run(cfg, before + [a]).desks
    ensures AddsExplained(a, v, Run(cfg, before).desks[v], Run(cfg, before + [a]).desks[v])
  {
    RunLimits(cfg, before, v);
    Reachable(cfg, before);
    assert (before + [a])[..|before|] == before;
    if Enabled(Run(cfg, before), a) {
      StepExplained(Run(cfg, before), a, v);
    }
  }

  lemma {:induction false} EveryFillIsEmitted(cfg: Config, actions: seq<Action>, v: VenueId, j: nat) returns (k: nat)
    requires v in cfg.venues && v in cfg.simulated && v in Run(cfg, actions).desks
    requires j < |Run(cfg, actions).desks[v].venue.fills|
    ensures Accounted(cfg, actions, k, v, j, Run(cfg, actions).desks[v])
  {
    k := |actions| - if actions == [] then 0 else 1;
    if actions != [] {
      var before, a := actions[..|actions| - 1], actions[|actions| - 1];
      assert actions == before + [a];
      RunExplained(cfg, before, a, v);
      var d, d' := Run(cfg, before).desks[v], Run(cfg, actions).desks[v];
      if j < |d.venue.fills| {
        k := EveryFillIsEmitted(cfg, before, v, j);
        StillAccounted(cfg, before, a, k, v, j, d, d');
      } else {
        NowAccounted(cfg, before, a, v, j, d, d');
      }
    }
  }

  /** Over every run: each fill of a simulated venue is for the whole of an order. A limit order is filled by a
      sweep of its instrument, at its own limit, when the price is at or below it for a buy and at or above it for
      a sell; a market order by its submission, at the price slipped at that moment; a stop-limit order never. */
  lemma FillsComeFromPrices(cfg: Config, actions: seq<Action>, v: VenueId, j: nat) returns (k: nat)
    requires v in cfg.venues && v in cfg.simulated && j < |FillsOf(Run(cfg, actions), v)|
    ensures k < |actions| && |FillsOf(Run(cfg, actions[..k]), v)| <= j < |FillsOf(Run(cfg, actions[..k + 1]), v)|
    ensures FillsOf(Run(cfg, actions[..k + 1]), v)[j] == FillsOf(Run(cfg, actions), v)[j]
    ensures var f, a, orders := FillsOf(Run(cfg, actions), v)[j], actions[k], Run(cfg, actions).core.orders;
      && f.order in orders
      && var t := orders[f.order].ticket;
      && f.quantity == t.quantity && t.kind != StopLimit
      && (t.kind == Limit ==>
           && a.Sweep? && a.venue == v && a.instrument == t.instrument && f.price == t.price
           && (t.side == Buy ==> a.price <= t.price) && (t.side == Sell ==> t.price <= a.price))
      && (t.kind == Market ==>
           a == SubmitOrder(v, true, f.price) && HandOf(Run(cfg, actions[..k]), v) == Some(f.order))
  {
    k := EveryFillIsEmitted(cfg, actions, v, j);
    OrderOfFill(cfg, actions, v, j);
  }

  lemma OrderOfFill(cfg: Config, actions: seq<Action>, v: VenueId, j: nat)
    requires v in Run(cfg, actions).desks && j < |Run(cfg, actions).desks[v].venue.fills|
    ensures var s, id := Run(cfg, actions), Run(cfg, actions).desks[v].venue.fills[j].order;
      id in s.desks[v].given && id in s.core.orders && s.core.orders[id].ticket == s.desks[v].given[id]
  {
    Reachable(cfg, actions);
    var s := Run(cfg, actions);
    assert DeskSafe(s.core.orders, v, v in s.cfg.simulated, s.desks[v]);
    assert s.desks[v].venue.fills[j] in s.desks[v].venue.fills;
  }

  /** Over every run, right after a sweep at a price: no buy with a limit at or above it and no sell with a limit
      at or below it rests in that book, and each one that did has just been filled in full at its limit. */
  lemma AfterSweepNothingReachedRests(cfg: Config, actions: seq<Action>, v: VenueId, i: Instrument, price: real)
    requires v in cfg.venues && v in cfg.simulated
    ensures var s, s' := Run(cfg, actions), Run(cfg, actions + [Sweep(v, i, price)]);
      && v in s.desks && v in s'.desks
      && var d, d' := s.desks[v], s'.desks[v];
      && (i in d'.venue.books ==> forall t | t in d'.venue.books[i] ::
           if t.side == Buy then t.price < price else price < t.price)
      && (i in d.venue.books ==> forall t | t in d.venue.books[i] ::
           (if t.side == Buy then price <= t.price else t.price <= price) ==>
             Fill(t.id, t.quantity, t.price) in d'.venue.fills[|d.venue.fills|..])
  {
    var s, a := Run(cfg, actions), Sweep(v, i, price);
    Reachable(cfg, actions);
    RunLimits(cfg, actions, v);
    assert (actions + [a])[..|actions|] == actions;
    assert Run(cfg, actions + [a]) == Do(s, a);
    TidyDesk(s, v);
    if i in s.desks[v].venue.books {
      SweptBook(s.desks[v].venue, s.desks[v].given, i, price);
    }
  }

  lemma SweptBook(venue: MatchingEngine.Venue, given: map<OrderId, Ticket>, i: Instrument, price: real)
    requires MatchingEngine.Tidy(venue, given) && i in venue.books
    ensures var venue' := MatchingEngine.Swept(venue, i, price);
      && i in venue'.books && |venue.fills| <= |venue'.fills|
      && (forall t | t in venue'.books[i] :: if t.side == Buy then t.price < price else price < t.price)
      && (forall t | t in venue.books[i] ::
           (if t.side == Buy then price <= t.price else t.price <= price) ==>
             Fill(t.id, t.quantity, t.price) in venue'.fills[|venue.fills|..])
  {
    assert MatchingEngine.BookTidy(i, venue.books[i], venue.fills, given);
    MatchingEngine.SweepAtLimits(venue.books[i], price);
  }
}
