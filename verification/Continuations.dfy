/** What can still happen from a state: every order that waits for a venue can be given to it, and every order a
    venue was given and serves can be filled, without standing in the way of the others. */
module Continuations {
  import opened Routing
  import opened Wrappers
  import opened Decimals
  import opened Orders
  import opened PipelineCore
  import opened PipelineLedger
  import opened PipelineMachine
  import opened PipelineSafety
  import opened PipelineResidual
  import MatchingEngine

  // ---------------------------------------------------------------- runs continued

  /** Actions that are not enabled do not happen. */
  ghost function Further(s: System, more: seq<Action>): System
    decreases |more|
  {
    if more == [] then s else Further(if Enabled(s, more[0]) then Do(s, more[0]) else s, more[1..])
  }

  lemma {:induction false} RunFurther(cfg: Config, actions: seq<Action>, more: seq<Action>)
    ensures Run(cfg, actions + more) == Further(Run(cfg, actions), more)
    decreases |more|
  {
    if more == [] {
      assert actions + more == actions;
    } else {
      assert actions + more == actions + [more[0]] + more[1..];
      RunFurther(cfg, actions + [more[0]], more[1..]);
      assert (actions + [more[0]])[..|actions|] == actions;
    }
  }

  lemma FurtherStep(s: System, a: Action, more: seq<Action>)
    requires Enabled(s, a)
    ensures Further(s, [a] + more) == Further(Do(s, a), more)
  {
    assert ([a] + more)[1..] == more;
  }

  lemma {:induction false} FurtherConcat(s: System, xs: seq<Action>, ys: seq<Action>)
    ensures Further(s, xs + ys) == Further(Further(s, xs), ys)
    decreases |xs|
  {
    if xs == [] {
      assert xs + ys == ys;
    } else {
      FurtherConcat(if Enabled(s, xs[0]) then Do(s, xs[0]) else s, xs[1..], ys);
      assert (xs + ys)[1..] == xs[1..] + ys;
    }
  }

  ghost predicate Reaches(s: System, s': System) {
    exists more :: s' == Further(s, more)
  }

  lemma ReachesItself(s: System)
    ensures Reaches(s, s)
  {
    assert s == Further(s, []);
  }

  lemma ReachesNext(s: System, a: Action)
    requires Enabled(s, a)
    ensures Reaches(s, Do(s, a))
  {
    FurtherStep(s, a, []);
    assert Do(s, a) == Further(s, [a] + []);
  }

  lemma ReachesOn(s: System, t: System, u: System)
    requires Reaches(s, t) && Reaches(t, u)
    ensures Reaches(s, u)
  {
    var xs :| t == Further(s, xs);
    var ys :| u == Further(t, ys);
    FurtherConcat(s, xs, ys);
    assert u == Further(s, xs + ys);
  }

  /** Whatever happens next, the invariant holds, and fills are only appended. */
  lemma {:induction false} FurtherKeeps(s: System, more: seq<Action>)
    requires Inv(s)
    ensures Inv(Further(s, more)) && FillsKept(s.core.orders, Further(s, more).core.orders)
    decreases |more|
  {
    if more != [] {
      if Enabled(s, more[0]) {
        var t := Do(s, more[0]);
        StepKeepsInv(s, more[0]);
        StepKeepsFills(s, more[0]);
        FurtherKeeps(t, more[1..]);
        FillsKeptTransitive(s.core.orders, t.core.orders, Further(t, more[1..]).core.orders);
      } else {
        FurtherKeeps(s, more[1..]);
      }
    }
  }

  // ---------------------------------------------------------------- orders on their way to a venue

  /** An external venue can fill whatever it is given; a simulated one market and limit orders in the
      instruments it lists. */
  predicate Serves(d: Desk, simulated: bool, t: Ticket) {
    simulated ==> t.instrument in d.venue.books && t.kind != StopLimit
  }

  /** The venue was given the order, and no fill for it is on its way. */
  ghost predicate AtRest(d: Desk, id: OrderId) {
    id in d.given && forall k | d.read <= k < |d.venue.fills| :: d.venue.fills[k].order != id
  }

  ghost predicate RestsIn(venue: MatchingEngine.Venue, t: Ticket) {
    t.instrument in venue.books && t in venue.books[t.instrument]
  }

  /** A fill for the order has been emitted after the first ones. */
  ghost predicate FilledFrom(fills: seq<Fill>, from: nat, id: OrderId) {
    exists k :: from <= k < |fills| && fills[k].order == id
  }

  /** A simulated venue was given the order, which rests in its book or has its fill in the channel. */
  ghost predicate Matching(d: Desk, t: Ticket) {
    t.id in d.given && (RestsIn(d.venue, t) || FilledFrom(d.venue.fills, d.read, t.id))
  }

  /** New in the channel of its venue, in hand, given and not filled, or filled completely. */
  ghost predicate Underway(o: OrderState, queue: seq<OrderId>, d: Desk, simulated: bool) {
    var id := o.ticket.id;
    || o.status == Filled || (o.status == New && id in queue) || d.hand == Some(id)
    || (Untouched(o) && if simulated then Matching(d, o.ticket) else AtRest(d, id))
  }

  /** There is such an order, and the venue serves it. */
  ghost predicate Served(s: System, v: VenueId, id: OrderId) {
    && v in s.desks && v in s.core.dispatch && id in s.core.orders && s.core.orders[id].ticket.id == id
    && Serves(s.desks[v], v in s.cfg.simulated, s.core.orders[id].ticket)
  }

  ghost predicate Fillable(s: System, v: VenueId, id: OrderId) {
    && Served(s, v, id)
    && Underway(s.core.orders[id], s.core.dispatch[v], s.desks[v], v in s.cfg.simulated)
  }

  /** The same venues with the same instruments. */
  ghost predicate SameVenues(s: System, s': System) {
    && s'.cfg == s.cfg && s'.desks.Keys == s.desks.Keys && s'.core.dispatch.Keys == s.core.dispatch.Keys
    && forall v | v in s.desks :: s'.desks[v].venue.books.Keys == s.desks[v].venue.books.Keys
  }

  ghost predicate Complete(s: System, id: OrderId) {
    id in s.core.orders && s.core.orders[id].status == Filled
  }

  /** One step takes nothing away from an order: it stays fillable, or complete. */
  ghost predicate Spares(s: System, s': System, v: VenueId, id: OrderId) {
    Fillable(s', v, id) && (Complete(s, id) ==> Complete(s', id))
  }

  /** An order underway that is past New and not complete is untouched, at the venue whose name it carries. */
  lemma UnderwayAt(s: System, v: VenueId, id: OrderId)
    requires Inv(s) && Fillable(s, v, id) && !Complete(s, id)
    ensures var o := s.core.orders[id]; o.venue == v && (o.status == New || Untouched(o))
    ensures s.core.orders[id].status == New ==> id in s.core.dispatch[v]
    ensures s.core.orders[id].status == New ==> id !in s.desks[v].given && s.desks[v].hand != Some(id)
  {
    assert DeskSafe(s.core.orders, v, v in s.cfg.simulated, s.desks[v]);
  }

  lemma HeadTaken(s: System, u: VenueId)
    requires Inv(s) && Enabled(s, Take(u))
    ensures var head, c := s.core.dispatch[u][0], Taken(s.core, u);
      && c.dispatch == s.core.dispatch[u := s.core.dispatch[u][1..]] && OnlyTouches(s.core, c, head)
      && head in s.core.orders
      && (s.core.orders[head].status == New ==>
            Acknowledges(s.core, u) && s.core.orders[head].venue == u && Untouched(c.orders[head])
            && c.orders[head].ticket == s.core.orders[head].ticket)
      && (s.core.orders[head].status != New ==> !Acknowledges(s.core, u) && c.orders == s.core.orders)
  {
    TakenKeeps(s.core, u);
    TakenOrder(s.core, u);
    assert s.core.dispatch[u][0] in s.core.dispatch[u];
  }

  // On one desk: what taking, submitting, collecting and another fill leave of an order underway.

  lemma TailUnderway(o: OrderState, queue: seq<OrderId>, d: Desk, simulated: bool, hand: Option<OrderId>)
    requires Underway(o, queue, d, simulated) && queue != [] && d.hand.None?
    requires o.status == New ==> queue[0] != o.ticket.id
    ensures Underway(o, queue[1..], d.(hand := hand), simulated)
  {
    assert queue == [queue[0]] + queue[1..];
  }

  /** An external venue only takes note of the order. */
  lemma NotedUnderway(o: OrderState, queue: seq<OrderId>, d: Desk, t: Ticket)
    requires Underway(o, queue, d, false) && d.hand == Some(t.id)
    requires t.id == o.ticket.id ==> Untouched(o) && forall f | f in d.venue.fills :: f.order != t.id
    ensures Underway(o, queue, Called(d, t, false, 0.0), false)
  {
    assert forall k | d.read <= k < |d.venue.fills| :: d.venue.fills[k] in d.venue.fills;
  }

  lemma ProcessedMatching(d: Desk, t: Ticket, other: Ticket)
    requires Matching(d, other)
    ensures Matching(Called(d, t, true, 0.0), other)
  {
    var fills := MatchingEngine.Processed(d.venue, t, 0.0).fills;
    assert d.venue.fills <= fills;
    if k :| d.read <= k < |d.venue.fills| && d.venue.fills[k].order == other.id {
      assert fills[k].order == other.id;
    }
  }

  /** A simulated venue fills a market order at once and lets a limit order rest. */
  lemma ServedMatching(d: Desk, t: Ticket)
    requires Serves(d, true, t) && d.read <= |d.venue.fills|
    ensures Matching(Called(d, t, true, 0.0), t)
  {
    if t.kind == Market {
      assert Called(d, t, true, 0.0).venue.fills[|d.venue.fills|].order == t.id;
    }
  }

  lemma ServedUnderway(o: OrderState, queue: seq<OrderId>, d: Desk, t: Ticket)
    requires Underway(o, queue, d, true) && d.hand == Some(t.id) && d.read <= |d.venue.fills|
    requires t.id == o.ticket.id ==> Untouched(o) && t == o.ticket && Serves(d, true, t)
    ensures Underway(o, queue, Called(d, t, true, 0.0), true)
  {
    if t.id == o.ticket.id {
      ServedMatching(d, t);
    } else if Untouched(o) && Matching(d, o.ticket) {
      ProcessedMatching(d, t, o.ticket);
    }
  }

  lemma ReadUnderway(o: OrderState, queue: seq<OrderId>, d: Desk, simulated: bool)
    requires Underway(o, queue, d, simulated) && d.read < |d.venue.fills|
    requires NextFill(d).order != o.ticket.id || o.status == Filled
    ensures Underway(o, queue, d.(read := d.read + 1), simulated)
  {
    if k :| d.read <= k < |d.venue.fills| && d.venue.fills[k].order == o.ticket.id {
      assert o.status != Filled ==> d.read + 1 <= k;
    }
  }

  lemma EmittedUnderway(o: OrderState, queue: seq<OrderId>, d: Desk, f: Fill)
    requires Underway(o, queue, d, false) && f.order != o.ticket.id
    ensures Underway(o, queue, d.(venue := d.venue.(fills := d.venue.fills + [f])), false)
  {}

  /** A sweep moves an order from the book to the channel or leaves it where it is. */
  lemma SweptMatching(d: Desk, t: Ticket, i: Instrument, price: real)
    requires Matching(d, t) && MatchingEngine.Tidy(d.venue, d.given) && d.read <= |d.venue.fills|
    ensures Matching(d.(venue := MatchingEngine.Swept(d.venue, i, price)), t)
    ensures RestsIn(d.venue, t) && i == t.instrument && MatchingEngine.ShouldFillLimit(t, price) ==>
              FilledFrom(MatchingEngine.Swept(d.venue, i, price).fills, d.read, t.id)
  {
    var fills, swept := d.venue.fills, MatchingEngine.Swept(d.venue, i, price).fills;
    assert fills <= swept;
    if k :| d.read <= k < |fills| && fills[k].order == t.id {
      assert swept[k].order == t.id;
    }
    if RestsIn(d.venue, t) && i == t.instrument {
      var book := d.venue.books[i];
      assert MatchingEngine.BookTidy(i, book, fills, d.given);
      MatchingEngine.SweepSplits(book, price);
      if MatchingEngine.ShouldFillLimit(t, price) {
        SweepsOut(book, fills, t, price);
      }
    }
  }

  lemma SweepsOut(book: seq<Ticket>, fills: seq<Fill>, t: Ticket, price: real)
    requires MatchingEngine.DistinctTickets(book) && t in book && MatchingEngine.ShouldFillLimit(t, price)
    ensures FilledFrom(fills + MatchingEngine.SweepFills(book, price), |fills|, t.id)
  {
    var out := MatchingEngine.SweepFills(book, price);
    MatchingEngine.SweepSplits(book, price);
    assert MatchingEngine.FillOf(book, price, Fill(t.id, t.quantity, t.price));
    var k :| 0 <= k < |out| && out[k] == Fill(t.id, t.quantity, t.price);
    assert (fills + out)[|fills| + k].order == t.id;
  }

  /** Taking an order other than this New one leaves it as it is. */
  lemma TakenLeaves(s: System, u: VenueId, v: VenueId, id: OrderId)
    requires Inv(s) && Enabled(s, Take(u)) && u in s.core.dispatch && s.core.dispatch[u] != [] && Fillable(s, v, id)
    requires s.core.orders[id].status == New ==> u != v || s.core.dispatch[u][0] != id
    ensures id in Taken(s.core, u).orders && Taken(s.core, u).orders[id] == s.core.orders[id]
  {
    HeadTaken(s, u);
    if !Complete(s, id) {
      UnderwayAt(s, v, id);
    }
  }

  lemma TakeSpares(s: System, u: VenueId, v: VenueId, id: OrderId)
    requires Inv(s) && Enabled(s, Take(u)) && Fillable(s, v, id)
    ensures Spares(s, Took(s, u), v, id)
  {
    TookDesk(s, u);
    TakenFor(s, u, v, id);
    SparedBy(s, Took(s, u), v, id);
  }

  /** The order comes to hand, or is as it was. */
  lemma TakenFor(s: System, u: VenueId, v: VenueId, id: OrderId)
    requires Inv(s) && Enabled(s, Take(u)) && Fillable(s, v, id)
    ensures var s' := Took(s, u);
      && v in s'.desks && v in s'.core.dispatch && id in s'.core.orders
      && s'.core.orders[id].ticket == s.core.orders[id].ticket && (Complete(s, id) ==> Complete(s', id))
      && Underway(s'.core.orders[id], s'.core.dispatch[v], s'.desks[v], v in s.cfg.simulated)
  {
    TookDesk(s, u);
    HeadTaken(s, u);
    if s.core.orders[id].status == New && u == v && s.core.dispatch[u][0] == id {
      assert Took(s, u).desks[v].hand == Some(id);
    } else {
      TakenLeaves(s, u, v, id);
      if u == v {
        TailUnderway(
          s.core.orders[id], s.core.dispatch[v], s.desks[v], v in s.cfg.simulated, Took(s, u).desks[v].hand);
      }
    }
  }

  /** The order in hand, and what the venue makes of it. */
  lemma HandGiven(s: System, u: VenueId)
    requires Inv(s) && Enabled(s, SubmitOrder(u, true, 0.0))
    ensures var id, d, s' := s.desks[u].hand.value, s.desks[u], SubmittedTo(s, u, true, 0.0);
      && id in s.core.orders && s.core.orders[id].ticket.id == id && Untouched(s.core.orders[id])
      && (forall f | f in d.venue.fills :: f.order != id) && d.read <= |d.venue.fills|
      && s'.core == s.core && s'.cfg == s.cfg
      && s'.desks == s.desks[u := Called(d, s.core.orders[id].ticket, u in s.cfg.simulated, 0.0)]
  {
    assert DeskSafe(s.core.orders, u, u in s.cfg.simulated, s.desks[u]);
  }

  lemma CalledBooks(d: Desk, t: Ticket, simulated: bool)
    ensures Called(d, t, simulated, 0.0).venue.books.Keys == d.venue.books.Keys
  {}

  lemma CalledUnderway(
      o: OrderState, queue: seq<OrderId>, d: Desk, simulated: bool, t: Ticket)
    requires Underway(o, queue, d, simulated) && d.hand == Some(t.id) && d.read <= |d.venue.fills|
    requires t.id == o.ticket.id ==>
      t == o.ticket && Untouched(o) && Serves(d, simulated, t) && forall f | f in d.venue.fills :: f.order != t.id
    ensures Underway(o, queue, Called(d, t, simulated, 0.0), simulated)
  {
    if simulated {
      ServedUnderway(o, queue, d, t);
    } else {
      NotedUnderway(o, queue, d, t);
    }
  }

  lemma SubmitSpares(s: System, u: VenueId, v: VenueId, id: OrderId)
    requires Inv(s) && Enabled(s, SubmitOrder(u, true, 0.0)) && Fillable(s, v, id)
    ensures Spares(s, SubmittedTo(s, u, true, 0.0), v, id)
  {
    HandGiven(s, u);
    var s' := SubmittedTo(s, u, true, 0.0);
    assert Underway(s.core.orders[id], s.core.dispatch[v], s'.desks[v], v in s.cfg.simulated)
        && s'.desks[v].venue.books.Keys == s.desks[v].venue.books.Keys by {
      if u == v {
        var t := s.core.orders[s.desks[v].hand.value].ticket;
        CalledUnderway(s.core.orders[id], s.core.dispatch[v], s.desks[v], v in s.cfg.simulated, t);
        CalledBooks(s.desks[v], t, v in s.cfg.simulated);
      }
    }
    SparedBy(s, s', v, id);
  }

  /** The next fill for an order that is still fillable, unless that is complete, comes of a simulated venue. */
  lemma NextFillSimulated(s: System, u: VenueId, v: VenueId, id: OrderId)
    requires Inv(s) && u in s.desks && s.desks[u].read < |s.desks[u].venue.fills|
    requires Fillable(s, v, id) && !Complete(s, id) && NextFill(s.desks[u]).order == id
    ensures u == v && u in s.cfg.simulated
    ensures Untouched(s.core.orders[id]) && NextFill(s.desks[u]).quantity == s.core.orders[id].ticket.quantity
  {
    NextFillOwned(s, u);
    assert DeskSafe(s.core.orders, u, u in s.cfg.simulated, s.desks[u]);
    assert NextFill(s.desks[u]) in s.desks[u].venue.fills;
    UnderwayAt(s, v, id);
    if u in s.cfg.simulated {
      NextFillUntouched(s.core.orders, u, s.desks[u]);
    }
  }

  /** A fill for another order, or for a complete one, leaves an order as it is. */
  lemma ProcessedLeaves(c: Core, f: Fill, g: Grid, id: OrderId)
    requires Kept(c) && 0.0 < f.quantity && id in c.orders && (f.order == id ==> c.orders[id].status == Filled)
    ensures var r := PipelineCore.Processed(c, f, g);
      id in r.orders && r.orders[id] == c.orders[id] && r.dispatch == c.dispatch
  {
    ProcessedKeeps(c, f, g);
  }

  lemma CollectSpares(s: System, u: VenueId, v: VenueId, id: OrderId)
    requires Inv(s) && Enabled(s, Collect(u)) && Fillable(s, v, id)
    ensures Spares(s, Collected(s, u), v, id)
  {
    var c := CollectedFor(s, u, v, id);
    if u == v && c.orders[id] == s.core.orders[id] {
      ReadUnderway(s.core.orders[id], s.core.dispatch[v], s.desks[v], v in s.cfg.simulated);
    }
    SparedBy(s, AfterCollect(s, u, c), v, id);
  }

  /** Collecting completes the order, or the fill is for another one, or it was complete. */
  lemma CollectedFor(s: System, u: VenueId, v: VenueId, id: OrderId) returns (c: Core)
    requires Inv(s) && Enabled(s, Collect(u)) && Fillable(s, v, id)
    ensures u in s.desks && s.desks[u].read < |s.desks[u].venue.fills| && Collected(s, u) == AfterCollect(s, u, c)
    ensures id in c.orders && c.orders[id].ticket == s.core.orders[id].ticket && c.dispatch == s.core.dispatch
    ensures c.orders[id].status == Filled
         || (c.orders[id] == s.core.orders[id] && NextFill(s.desks[u]).order != id)
  {
    NextFillOwned(s, u);
    if NextFill(s.desks[u]).order == id && !Complete(s, id) {
      NextFillSimulated(s, u, v, id);
      c := CollectedCompletes(s, u, id);
    } else {
      c := CollectedLeaves(s, u, id);
    }
  }

  lemma ProcessedCompletes(c: Core, f: Fill, g: Grid)
    requires Kept(c) && 0.0 < f.quantity && f.order in c.orders && Untouched(c.orders[f.order])
    requires f.quantity == c.orders[f.order].ticket.quantity
    ensures var r := PipelineCore.Processed(c, f, g);
      && f.order in r.orders && r.orders[f.order].status == Filled
      && r.orders[f.order].ticket == c.orders[f.order].ticket && r.dispatch == c.dispatch
  {
    ProcessedApplies(c, f, g);
    ProcessedKeeps(c, f, g);
  }

  lemma CollectedCompletes(s: System, u: VenueId, id: OrderId) returns (c: Core)
    requires Enabled(s, Collect(u)) && Kept(s.core) && id in s.core.orders && Untouched(s.core.orders[id])
    requires NextFill(s.desks[u]).order == id && 0.0 < NextFill(s.desks[u]).quantity
    requires NextFill(s.desks[u]).quantity == s.core.orders[id].ticket.quantity
    ensures u in s.desks && Collected(s, u) == AfterCollect(s, u, c)
    ensures id in c.orders && c.orders[id].status == Filled
    ensures c.orders[id].ticket == s.core.orders[id].ticket && c.dispatch == s.core.dispatch
  {
    c := Collected(s, u).core;
    ProcessedCompletes(s.core, NextFill(s.desks[u]), s.cfg.g);
  }

  lemma CollectedLeaves(s: System, u: VenueId, id: OrderId) returns (c: Core)
    requires Enabled(s, Collect(u)) && Kept(s.core) && id in s.core.orders && 0.0 < NextFill(s.desks[u]).quantity
    requires NextFill(s.desks[u]).order == id ==> s.core.orders[id].status == Filled
    ensures u in s.desks && Collected(s, u) == AfterCollect(s, u, c)
    ensures id in c.orders && c.orders[id] == s.core.orders[id] && c.dispatch == s.core.dispatch
  {
    c := Collected(s, u).core;
    assert id in c.orders && c.orders[id] == s.core.orders[id] && c.dispatch == s.core.dispatch by {
      ProcessedLeaves(s.core, NextFill(s.desks[u]), s.cfg.g, id);
    }
  }

  lemma SparedBy(s: System, s': System, v: VenueId, id: OrderId)
    requires Fillable(s, v, id) && s'.cfg == s.cfg && v in s'.desks && v in s'.core.dispatch
    requires s'.desks[v].venue.books.Keys == s.desks[v].venue.books.Keys
    requires id in s'.core.orders && s'.core.orders[id].ticket == s.core.orders[id].ticket
    requires Complete(s, id) ==> Complete(s', id)
    requires Complete(s', id)
          || Underway(s'.core.orders[id], s'.core.dispatch[v], s'.desks[v], v in s.cfg.simulated)
    ensures Spares(s, s', v, id)
  {}

  lemma EmitSpares(s: System, u: VenueId, f: Fill, v: VenueId, id: OrderId)
    requires Inv(s) && Enabled(s, Emit(u, f)) && Fillable(s, v, id) && f.order != id
    ensures Spares(s, Do(s, Emit(u, f)), v, id)
  {
    if u == v {
      EmittedUnderway(s.core.orders[id], s.core.dispatch[v], s.desks[v], f);
    }
  }

  lemma SweptUnderway(o: OrderState, queue: seq<OrderId>, d: Desk, i: Instrument, price: real)
    requires Underway(o, queue, d, true) && MatchingEngine.Tidy(d.venue, d.given) && d.read <= |d.venue.fills|
    ensures Underway(o, queue, d.(venue := MatchingEngine.Swept(d.venue, i, price)), true)
    ensures MatchingEngine.Swept(d.venue, i, price).books.Keys == d.venue.books.Keys
  {
    if Untouched(o) && Matching(d, o.ticket) {
      SweptMatching(d, o.ticket, i, price);
    }
  }

  lemma SweepSpares(s: System, u: VenueId, i: Instrument, price: real, v: VenueId, id: OrderId)
    requires Inv(s) && Enabled(s, Sweep(u, i, price)) && Fillable(s, v, id)
    ensures Spares(s, Do(s, Sweep(u, i, price)), v, id)
  {
    if u == v {
      assert DeskSafe(s.core.orders, v, v in s.cfg.simulated, s.desks[v]);
      SweptUnderway(s.core.orders[id], s.core.dispatch[v], s.desks[v], i, price);
    }
    SparedBy(s, AtVenue(s, u, MatchingEngine.Swept(s.desks[u].venue, i, price)), v, id);
  }

  // ---------------------------------------------------------------- steps that spare every order underway

  /** A continuation that takes nothing away from any order underway. */
  ghost predicate Leads(s: System, s': System) {
    Inv(s') && Reaches(s, s') && s'.cfg == s.cfg && forall v, id | Fillable(s, v, id) :: Spares(s, s', v, id)
  }

  lemma LeadsItself(s: System)
    requires Inv(s)
    ensures Leads(s, s)
  {
    ReachesItself(s);
  }

  lemma LeadsOn(s: System, t: System, u: System)
    requires Leads(s, t) && Leads(t, u)
    ensures Leads(s, u)
  {
    ReachesOn(s, t, u);
    forall v, id | Fillable(s, v, id) ensures Spares(s, u, v, id) {
      assert Spares(s, t, v, id) && Spares(t, u, v, id);
    }
  }

  ghost predicate Plain(a: Action) {
    a.Take? || a.Collect? || a.Sweep? || (a.SubmitOrder? && a.accepted && a.slipped == 0.0)
  }

  lemma PlainStep(s: System, a: Action) returns (s': System)
    requires Inv(s) && Enabled(s, a) && Plain(a)
    ensures s' == Do(s, a) && Leads(s, s')
  {
    s' := Do(s, a);
    StepKeepsInv(s, a);
    ReachesNext(s, a);
    StepKeepsConfig(s, a);
    forall v, id | Fillable(s, v, id) ensures Spares(s, s', v, id) {
      PlainSpares(s, a, v, id);
    }
  }

  lemma PlainSpares(s: System, a: Action, v: VenueId, id: OrderId)
    requires Inv(s) && Enabled(s, a) && Plain(a) && Fillable(s, v, id)
    ensures Spares(s, Do(s, a), v, id)
  {
    match a
    case Take(u) => TakeSpares(s, u, v, id);
    case SubmitOrder(u, _, _) => SubmitSpares(s, u, v, id);
    case Collect(u) => CollectSpares(s, u, v, id);
    case Sweep(u, i, price) => SweepSpares(s, u, i, price, v, id);
  }

  // ---------------------------------------------------------------- a queued order gets its turn

  /** A New order waits in a channel with j orders before it. */
  ghost predicate Waits(s: System, v: VenueId, j: nat, id: OrderId) {
    && v in s.desks && v in s.core.dispatch && j < |s.core.dispatch[v]|
    && s.core.dispatch[v][j] == id && id !in s.core.dispatch[v][..j]
    && id in s.core.orders && s.core.orders[id].status == New
  }

  /** The order in the dispatcher's hand is submitted first. */
  lemma HandGoesFirst(s: System, v: VenueId, j: nat, id: OrderId) returns (s': System)
    requires Inv(s) && Waits(s, v, j, id) && s.desks[v].hand.Some?
    ensures Leads(s, s') && Waits(s', v, j, id) && s'.desks[v].hand.None?
  {
    HandGiven(s, v) by { HandEnabled(s, v); }
    s' := PlainStep(s, SubmitOrder(v, true, 0.0)) by { HandEnabled(s, v); }
  }

  lemma HandEnabled(s: System, v: VenueId)
    requires Inv(s) && v in s.desks && s.desks[v].hand.Some?
    ensures Enabled(s, SubmitOrder(v, true, 0.0))
  {}

  lemma QueueMoves(queue: seq<OrderId>, j: nat, id: OrderId)
    requires 0 < j < |queue| && queue[j] == id && id !in queue[..j]
    ensures queue[0] != id && queue[1..][j - 1] == id && id !in queue[1..][..j - 1]
  {
    assert queue[0] in queue[..j];
    assert queue[1..][..j - 1] == queue[..j][1..];
  }

  /** Then the head of the channel comes to hand. */
  lemma HeadIsTaken(s: System, v: VenueId, j: nat, id: OrderId) returns (s': System)
    requires Inv(s) && Waits(s, v, j, id) && s.desks[v].hand.None?
    ensures Leads(s, s') && v in s'.desks && if j == 0 then s'.desks[v].hand == Some(id) else Waits(s', v, j - 1, id)
  {
    s' := PlainStep(s, Take(v));
    TookDesk(s, v);
    HeadTaken(s, v);
    if j != 0 {
      QueueMoves(s.core.dispatch[v], j, id);
    }
  }

  function Distance(s: System, v: VenueId, j: nat): nat
    requires v in s.desks
  {
    2 * j + if s.desks[v].hand.Some? then 1 else 0
  }

  lemma OneStepNearer(s: System, v: VenueId, j: nat, id: OrderId) returns (s': System, i: nat)
    requires Inv(s) && Waits(s, v, j, id)
    ensures Leads(s, s') && v in s'.desks
    ensures s'.desks[v].hand == Some(id) || (Waits(s', v, i, id) && Distance(s', v, i) < Distance(s, v, j))
  {
    i := j;
    if s.desks[v].hand.Some? {
      s' := HandGoesFirst(s, v, j, id);
    } else {
      s' := HeadIsTaken(s, v, j, id);
      i := if j == 0 then 0 else j - 1;
    }
  }

  /** A waiting order comes to hand in some continuation: its dispatcher works its way to it. */
  lemma {:induction false} Drain(s: System, v: VenueId, j: nat, id: OrderId) returns (s': System)
    requires Inv(s) && Waits(s, v, j, id)
    ensures Leads(s, s') && v in s'.desks && s'.desks[v].hand == Some(id)
    decreases Distance(s, v, j)
  {
    var t, i := OneStepNearer(s, v, j, id);
    if t.desks[v].hand == Some(id) {
      s' := t;
    } else {
      s' := Drain(t, v, i, id);
      LeadsOn(s, t, s');
    }
  }

  lemma FirstPlace(queue: seq<OrderId>, id: OrderId) returns (j: nat)
    requires id in queue
    ensures j < |queue| && queue[j] == id && id !in queue[..j]
  {
    j := 0;
    while queue[j] != id
      invariant j < |queue| && id !in queue[..j] && id in queue[j..]
      decreases |queue| - j
    {
      assert queue[j..] == [queue[j]] + queue[j + 1..];
      assert queue[..j + 1] == queue[..j] + [queue[j]];
      j := j + 1;
    }
  }

  /** From hand to venue. */
  lemma HandIsSubmitted(s: System, v: VenueId, id: OrderId) returns (s': System)
    requires Inv(s) && v in s.desks && s.desks[v].hand == Some(id)
    ensures Leads(s, s') && v in s'.desks && id in s'.desks[v].given
    ensures s'.calls != [] && s'.calls[|s'.calls| - 1].order.ticket.id == id
  {
    HandEnabled(s, v);
    HandGiven(s, v);
    s' := PlainStep(s, SubmitOrder(v, true, 0.0));
  }

  // ---------------------------------------------------------------- a given order can be filled

  /** The collector catches up with its venue. */
  lemma {:induction false} CatchUp(s: System, v: VenueId) returns (s': System)
    requires Inv(s) && v in s.desks && s.desks[v].read <= |s.desks[v].venue.fills|
    ensures Leads(s, s') && v in s'.desks && s'.desks[v].read == |s'.desks[v].venue.fills|
    ensures s'.desks[v].given == s.desks[v].given && s'.desks[v].venue == s.desks[v].venue
    decreases |s.desks[v].venue.fills| - s.desks[v].read
  {
    if s.desks[v].read == |s.desks[v].venue.fills| {
      s' := s;
      LeadsItself(s);
    } else {
      var t := PlainStep(s, Collect(v));
      s' := CatchUp(t, v);
      LeadsOn(s, t, s');
    }
  }

  /** Given, nothing filled, and the collector has caught up. */
  ghost predicate Ripe(s: System, v: VenueId, id: OrderId) {
    && v in s.desks && v !in s.cfg.simulated && id in s.desks[v].given && s.desks[v].read == |s.desks[v].venue.fills|
    && id in s.core.orders && Untouched(s.core.orders[id])
  }

  function WholeFill(s: System, id: OrderId): Fill
    requires id in s.core.orders
  {
    Fill(id, s.core.orders[id].ticket.quantity, 1.0)
  }

  lemma EmitLeaves(s: System, v: VenueId, f: Fill)
    requires Enabled(s, Emit(v, f))
    ensures var s' := Do(s, Emit(v, f));
      && SameVenues(s, s') && s'.core == s.core
      && v in s'.desks && s'.desks[v] == s.desks[v].(venue := s.desks[v].venue.(fills := s.desks[v].venue.fills + [f]))
  {}

  lemma Emitted(s: System, v: VenueId, id: OrderId) returns (s': System)
    requires Inv(s) && Ripe(s, v, id)
    ensures Inv(s') && Reaches(s, s') && SameVenues(s, s') && s'.core == s.core
    ensures v in s'.desks && s'.desks[v].read < |s'.desks[v].venue.fills| && NextFill(s'.desks[v]) == WholeFill(s, id)
    ensures forall u, j | Fillable(s, u, j) && j != id :: Spares(s, s', u, j)
  {
    var f := WholeFill(s, id);
    assert 0.0 < f.quantity by { assert Sound(s.core.orders[id]); }
    s' := Do(s, Emit(v, f));
    StepKeepsInv(s, Emit(v, f));
    ReachesNext(s, Emit(v, f));
    EmitLeaves(s, v, f);
    forall u, j | Fillable(s, u, j) && j != id ensures Spares(s, s', u, j) {
      EmitSpares(s, v, f, u, j);
    }
  }

  lemma FillCompletes(s: System, v: VenueId, id: OrderId) returns (s': System)
    requires Inv(s) && v in s.desks && s.desks[v].read < |s.desks[v].venue.fills|
    requires id in s.core.orders && Untouched(s.core.orders[id]) && NextFill(s.desks[v]) == WholeFill(s, id)
    ensures Leads(s, s') && Complete(s', id) && SameVenues(s, s')
    ensures s'.core.orders[id].ticket == s.core.orders[id].ticket
  {
    s' := PlainStep(s, Collect(v));
    var c := CollectedCompletes(s, v, id) by { assert Sound(s.core.orders[id]); }
    CollectSameVenues(s, v, c);
  }

  lemma CollectSameVenues(s: System, v: VenueId, c: Core)
    requires v in s.desks && c.dispatch == s.core.dispatch
    ensures SameVenues(s, AfterCollect(s, v, c))
  {}

  lemma RipeCompletes(s: System, v: VenueId, id: OrderId) returns (s': System)
    requires Inv(s) && Ripe(s, v, id) && v in s.core.dispatch && s.core.orders[id].ticket.id == id
    ensures Leads(s, s') && Complete(s', id)
  {
    var t := Emitted(s, v, id);
    s' := FillCompletes(t, v, id);
    ReachesOn(s, t, s');
    forall u, j | Fillable(s, u, j) ensures Spares(s, s', u, j) {
      if j == id {
        ServedStill(s, t, u, id);
        ServedStill(t, s', u, id);
      } else {
        assert Spares(s, t, u, j) && Spares(t, s', u, j);
      }
    }
  }

  lemma ServedStill(s: System, s': System, v: VenueId, id: OrderId)
    requires Served(s, v, id) && SameVenues(s, s')
    requires id in s'.core.orders && s'.core.orders[id].ticket == s.core.orders[id].ticket
    ensures Served(s', v, id)
  {}

  /** Wherever an order underway is, there is a continuation in which its venue has it or it is complete. */
  lemma ComesToVenue(s: System, v: VenueId, id: OrderId) returns (s': System)
    requires Inv(s) && Fillable(s, v, id)
    ensures Leads(s, s') && (Complete(s', id) || id in s'.desks[v].given)
  {
    if Complete(s, id) || id in s.desks[v].given {
      s' := s;
      LeadsItself(s);
    } else {
      var t := ComesToHand(s, v, id);
      s' := HandIsSubmitted(t, v, id);
      LeadsOn(s, t, s');
    }
  }

  lemma ComesToHand(s: System, v: VenueId, id: OrderId) returns (s': System)
    requires Inv(s) && Fillable(s, v, id) && !Complete(s, id) && id !in s.desks[v].given
    ensures Leads(s, s') && v in s'.desks && s'.desks[v].hand == Some(id)
  {
    if s.desks[v].hand == Some(id) {
      s' := s;
      LeadsItself(s);
    } else {
      var j := FirstPlace(s.core.dispatch[v], id);
      s' := Drain(s, v, j, id);
    }
  }

  lemma GivenIsRipe(s: System, v: VenueId, id: OrderId)
    requires Inv(s) && Fillable(s, v, id) && v !in s.cfg.simulated && !Complete(s, id) && id in s.desks[v].given
    requires s.desks[v].read == |s.desks[v].venue.fills|
    ensures Ripe(s, v, id)
  {
    UnderwayAt(s, v, id);
  }

  lemma ExternalCompletes(s: System, v: VenueId, id: OrderId) returns (s': System)
    requires Inv(s) && Fillable(s, v, id) && v !in s.cfg.simulated && (Complete(s, id) || id in s.desks[v].given)
    ensures Leads(s, s') && Complete(s', id)
  {
    var u := CatchUp(s, v) by { ReadFits(s, v); }
    assert Spares(s, u, v, id);
    if Complete(u, id) {
      s' := u;
    } else {
      GivenIsRipe(u, v, id);
      s' := RipeCompletes(u, v, id);
      LeadsOn(s, u, s');
    }
  }

  /** What the collector of a simulated venue has taken is complete. */
  lemma TakenIsComplete(s: System, v: VenueId, id: OrderId)
    requires Inv(s) && v in s.desks && v in s.cfg.simulated && s.desks[v].read == |s.desks[v].venue.fills|
    requires FilledFrom(s.desks[v].venue.fills, 0, id)
    ensures Complete(s, id)
  {
    assert DeskSafe(s.core.orders, v, v in s.cfg.simulated, s.desks[v]);
  }

  lemma FedCompletes(s: System, v: VenueId, id: OrderId) returns (s': System)
    requires Inv(s) && v in s.desks && v in s.cfg.simulated && FilledFrom(s.desks[v].venue.fills, 0, id)
    ensures Leads(s, s') && Complete(s', id)
  {
    s' := CatchUp(s, v) by { ReadFits(s, v); }
    TakenIsComplete(s', v, id);
  }

  /** A sweep at the limit price fills a resting order. */
  lemma RestingIsSwept(s: System, v: VenueId, t: Ticket) returns (s': System)
    requires Inv(s) && v in s.desks && v in s.cfg.simulated
    requires Matching(s.desks[v], t) && RestsIn(s.desks[v].venue, t)
    ensures Leads(s, s') && v in s'.desks && FilledFrom(s'.desks[v].venue.fills, 0, t.id)
  {
    assert DeskSafe(s.core.orders, v, v in s.cfg.simulated, s.desks[v]);
    s' := PlainStep(s, Sweep(v, t.instrument, t.price));
    SweptMatching(s.desks[v], t, t.instrument, t.price);
  }

  lemma SimulatedCompletes(s: System, v: VenueId, id: OrderId) returns (s': System)
    requires Inv(s) && Fillable(s, v, id) && v in s.cfg.simulated && (Complete(s, id) || id in s.desks[v].given)
    ensures Leads(s, s') && Complete(s', id)
  {
    if Complete(s, id) {
      s' := s;
      LeadsItself(s);
    } else {
      GivenIsMatching(s, v, id);
      var t := s.core.orders[id].ticket;
      if RestsIn(s.desks[v].venue, t) {
        var u := RestingIsSwept(s, v, t);
        s' := FedCompletes(u, v, id);
        LeadsOn(s, u, s');
      } else {
        s' := FedCompletes(s, v, id);
      }
    }
  }

  lemma GivenIsMatching(s: System, v: VenueId, id: OrderId)
    requires Inv(s) && Fillable(s, v, id) && v in s.cfg.simulated && !Complete(s, id) && id in s.desks[v].given
    ensures Matching(s.desks[v], s.core.orders[id].ticket)
  {
    UnderwayAt(s, v, id);
    assert DeskSafe(s.core.orders, v, v in s.cfg.simulated, s.desks[v]);
  }

  /** Every order underway to a venue that serves it can be completed, and no other one loses by it. */
  lemma CanComplete(s: System, v: VenueId, id: OrderId) returns (s': System)
    requires Inv(s) && Fillable(s, v, id)
    ensures Leads(s, s') && Complete(s', id)
  {
    var t := ComesToVenue(s, v, id);
    assert Spares(s, t, v, id);
    if v in s.cfg.simulated {
      s' := SimulatedCompletes(t, v, id);
    } else {
      s' := ExternalCompletes(t, v, id);
    }
    LeadsOn(s, t, s');
  }

  lemma ReadFits(s: System, v: VenueId)
    requires Inv(s) && v in s.desks
    ensures s.desks[v].read <= |s.desks[v].venue.fills|
  {
    assert DeskSafe(s.core.orders, v, v in s.cfg.simulated, s.desks[v]);
  }
}
