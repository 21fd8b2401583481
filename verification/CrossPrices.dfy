/** What internal crosses print: over every run, pairs of one buy and one sell of the same instrument at one price. */
module CrossPrices {
  import opened Decimals
  import opened Orders
  import opened Crossing
  import opened CrossingRuns

  /** The price of a cross of two orders: the middle of two limits, up to the rounding of the half; the limit of the
      one that has a limit; nothing when neither has. */
  ghost predicate PricedBetween(a: Ticket, b: Ticket, price: real, g: Grid) {
    if a.kind == Market && b.kind == Market then price == 0.0
    else if a.kind == Market then price == b.price
    else if b.kind == Market then price == a.price
    else Abs(2.0 * price - (a.price + b.price)) <= g
  }

  /** Either side of a cross is a market order, or the buyer's limit reaches the seller's. */
  ghost predicate Meet(a: Ticket, b: Ticket) {
    || a.kind == Market || b.kind == Market
    || (a.side == Buy && b.price <= a.price) || (a.side == Sell && a.price <= b.price)
  }

  /** The two sides of one cross. */
  ghost predicate Pair(p: Print, q: Print, g: Grid) {
    && p.order.side != q.order.side && p.order.instrument == q.order.instrument && Meet(p.order, q.order)
    && p.fill.order == p.order.id && q.fill.order == q.order.id
    && p.fill.quantity == q.fill.quantity && p.fill.price == q.fill.price
    && PricedBetween(p.order, q.order, p.fill.price, g)
  }

  lemma MidpointIsBetween(a: Ticket, b: Ticket, g: Grid)
    ensures PricedBetween(a, b, MidpointPrice(a, b, g), g)
  {
    if a.kind != Market && b.kind != Market {
      DivResidue(a.price + b.price, 2.0, g);
    }
  }

  lemma CrossPairs(book: seq<OrderState>, o: OrderState, i: nat, g: Grid)
    requires i < |book| && Eligible(o.ticket, book[i].ticket) && book[i].ticket.instrument == o.ticket.instrument
    ensures var r := CrossWith(book, o, i, g).result;
      Pair(Print(o.ticket, r.incoming), Print(book[i].ticket, r.resting), g)
  {
    MidpointIsBetween(o.ticket, book[i].ticket, g);
  }

  /** An incoming order crosses exactly when an order of the other side in the book meets it, and then with the
      earliest of these. */
  lemma CrossesExactlyWhenMet(book: seq<OrderState>, o: OrderState, g: Grid)
    ensures Cross(book, o, g).result.Crossed?
       <==> exists r :: r in book && r.ticket.side != o.ticket.side && Meet(o.ticket, r.ticket)
    ensures Cross(book, o, g).result.Crossed? ==>
      exists k | 0 <= k < |book| ::
        && book[k].ticket.side != o.ticket.side && Meet(o.ticket, book[k].ticket)
        && Cross(book, o, g) == CrossWith(book, o, k, g)
        && forall j | 0 <= j < k :: !(book[j].ticket.side != o.ticket.side && Meet(o.ticket, book[j].ticket))
  {
    var k := FirstEligible(book, o.ticket, 0);
    if k < |book| {
      assert book[k] in book;
    } else {
      forall r | r in book ensures !(r.ticket.side != o.ticket.side && Meet(o.ticket, r.ticket)) {
        assert !Eligible(o.ticket, r.ticket);
      }
    }
  }

  /** The prints are pairs, one after the other. */
  ghost predicate Paired(prints: seq<Print>, g: Grid) {
    |prints| % 2 == 0 && forall m: nat | 2 * m + 1 < |prints| :: Pair(prints[2 * m], prints[2 * m + 1], g)
  }

  lemma PairedMore(prints: seq<Print>, p: Print, q: Print, g: Grid)
    requires Paired(prints, g) && Pair(p, q, g)
    ensures Paired(prints + [p, q], g)
  {
    var more := prints + [p, q];
    forall m: nat | 2 * m + 1 < |more| ensures Pair(more[2 * m], more[2 * m + 1], g) {
      if 2 * m + 1 < |prints| {
        assert more[2 * m] == prints[2 * m] && more[2 * m + 1] == prints[2 * m + 1];
      } else {
        assert 2 * m == |prints|;
      }
    }
  }

  lemma StepPaired(r: Run, e: Event, g: Grid)
    requires Kept(r) && Paired(r.prints, g)
    ensures Paired(Step(r, e, g).prints, g)
  {
    if e.TryCross? {
      var o, i := e.order, e.order.ticket.instrument;
      var k := FirstEligible(BookOf(r, i), o.ticket, 0);
      if k < |BookOf(r, i)| {
        assert BookOf(r, i) == Live(r.ledger, i);
        LiveMembers(r.ledger, i);
        CrossPairs(BookOf(r, i), o, k, g);
        var c := Cross(BookOf(r, i), o, g).result;
        PairedMore(r.prints, Print(o.ticket, c.incoming), Print(BookOf(r, i)[k].ticket, c.resting), g);
      }
    }
  }

  /** Over every run on distinct orders: what is printed is pairs of a buy and a sell of one instrument, whose limits
      meet, of equal quantity and at one price: the middle of the limits, rounded; the only limit, if one order is a
      market order; zero, if both are. */
  lemma {:induction false} PrintsArePairs(events: seq<Event>, g: Grid)
    requires Distinct(events)
    ensures Paired(After(events, g).prints, g)
  {
    if events != [] {
      var n := |events| - 1;
      assert Distinct(events[..n]);
      PrintsArePairs(events[..n], g);
      BookHoldsLiveArrivals(events[..n], g);
      StepPaired(After(events[..n], g), events[n], g);
    }
  }

  /** A cross has a positive price exactly when one of the orders has a limit: two market orders cross for nothing. */
  lemma {:induction false} CrossIsPricedExactlyWithALimit(a: Ticket, b: Ticket, g: Grid)
    requires Eligible(a, b) && 0.0 < a.price && 0.0 < b.price && OnGrid(a.price, g) && OnGrid(b.price, g)
    ensures 0.0 < MidpointPrice(a, b, g) <==> a.kind != Market || b.kind != Market
  {
    if a.kind != Market && b.kind != Market {
      var low, high := Min(a.price, b.price), a.price + b.price - Min(a.price, b.price);
      DivBetween(a.price + b.price, 2.0, low, high, g);
    }
  }
}
