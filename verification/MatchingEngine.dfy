/** The simulated venue of gateway/internal/adapter/simulated/matching_engine.go. It reads only the
    fixed fields of the orders it is given, so its books are described by order tickets. */
module MatchingEngine {
  import opened Routing
  import opened Orders

  /** One book per registered instrument, and the fill channel. */
  datatype Venue = Venue(books: map<Instrument, seq<Ticket>>, fills: seq<Fill>)

  predicate ShouldFillLimit(t: Ticket, price: real) {
    match t.side
    case Buy => price <= t.price
    case Sell => price >= t.price
  }

  function SweepFills(book: seq<Ticket>, price: real): seq<Fill> {
    if book == [] then []
    else
      var t := book[|book| - 1];
      SweepFills(book[..|book| - 1], price)
        + if ShouldFillLimit(t, price) then [Fill(t.id, t.quantity, t.price)] else []
  }

  function SweepRest(book: seq<Ticket>, price: real): seq<Ticket> {
    if book == [] then []
    else
      var t := book[|book| - 1];
      SweepRest(book[..|book| - 1], price) + if ShouldFillLimit(t, price) then [] else [t]
  }

  function WithoutOrder(book: seq<Ticket>, id: OrderId): seq<Ticket> {
    if book == [] then []
    else
      var t := book[|book| - 1];
      WithoutOrder(book[..|book| - 1], id) + if t.id != id then [t] else []
  }

  /** An incoming order: market orders fill at once, limit orders rest, an unknown instrument or
      order type is ignored. The price of a market fill is the slipped market price. */
  function Processed(v: Venue, t: Ticket, slipped: real): Venue {
    if t.instrument !in v.books then v
    else
      match t.kind
      case Market => v.(fills := v.fills + [Fill(t.id, t.quantity, slipped)])
      case Limit => v.(books := v.books[t.instrument := v.books[t.instrument] + [t]])
      case StopLimit => v
  }

  function Swept(v: Venue, i: Instrument, price: real): Venue {
    if i !in v.books then v
    else Venue(v.books[i := SweepRest(v.books[i], price)], v.fills + SweepFills(v.books[i], price))
  }

  function Withdrawn(v: Venue, id: OrderId): Venue {
    v.(books := map i | i in v.books :: WithoutOrder(v.books[i], id))
  }

  /** An order has been withdrawn from every book but those left. */
  ghost predicate PartlyWithdrawn(
      now: map<Instrument, seq<Ticket>>, was: map<Instrument, seq<Ticket>>, left: set<Instrument>, id: OrderId)
  {
    now.Keys == was.Keys && forall i | i in was :: now[i] == if i in left then was[i] else WithoutOrder(was[i], id)
  }

  lemma OneMoreWithdrawn(
      now: map<Instrument, seq<Ticket>>, was: map<Instrument, seq<Ticket>>,
      left: set<Instrument>, id: OrderId, i: Instrument)
    requires PartlyWithdrawn(now, was, left, id) && i in left && i in was
    ensures now[i] == was[i] && PartlyWithdrawn(now[i := WithoutOrder(now[i], id)], was, left - {i}, id)
  {}

  function Tickets(os: seq<Order>): (ts: seq<Ticket>)
    ensures |ts| == |os| && forall k | 0 <= k < |os| :: ts[k] == os[k].ticket
  {
    seq(|os|, k requires 0 <= k < |os| => os[k].ticket)
  }

  lemma AllWithdrawn(now: map<Instrument, seq<Ticket>>, was: Venue, id: OrderId)
    requires PartlyWithdrawn(now, was.books, {}, id)
    ensures Venue(now, was.fills) == Withdrawn(was, id)
  {
    assert now == Withdrawn(was, id).books;
  }

  ghost function BookTickets(books: map<Instrument, seq<Order>>): map<Instrument, seq<Ticket>> {
    map i | i in books :: Tickets(books[i])
  }

  lemma BooksUpdate(books: map<Instrument, seq<Order>>, i: Instrument, os: seq<Order>)
    ensures BookTickets(books[i := os]) == BookTickets(books)[i := Tickets(os)]
  {}

  class Engine {
    var books: map<Instrument, seq<Order>>
    var fillCh: seq<Fill>

    ghost function View(): Venue
      reads this
    {
      Venue(BookTickets(books), fillCh)
    }

    constructor (instruments: set<Instrument>)
      ensures View() == Venue(map i | i in instruments :: [], [])
    {
      books := map i | i in instruments :: [];
      fillCh := [];
    }

    method ProcessOrder(order: Order, slipped: real)
      modifies this
      ensures View() == Processed(old(View()), order.ticket, slipped)
    {
      if order.ticket.instrument !in books {
        return;
      }
      match order.ticket.kind {
        case Market =>
          fillCh := fillCh + [Fill(order.ticket.id, order.ticket.quantity, slipped)];
        case Limit =>
          books := books[order.ticket.instrument := books[order.ticket.instrument] + [order]];
        case StopLimit =>
      }
      ghost var after := Processed(old(View()), order.ticket, slipped);
      assert forall i | i in books :: Tickets(books[i]) == after.books[i];
      assert View().books == after.books;
    }

    method SweepInstrument(i: Instrument, price: real)
      modifies this
      ensures View() == Swept(old(View()), i, price)
    {
      if i !in books {
        return;
      }
      var orders, remaining := books[i], [];
      ghost var book := Tickets(orders);
      for k := 0 to |orders|
        invariant books == old(books)
        invariant Tickets(remaining) == SweepRest(book[..k], price)
        invariant fillCh == old(fillCh) + SweepFills(book[..k], price)
      {
        var order := orders[k];
        assert book[..k + 1][..k] == book[..k] && book[..k + 1][k] == order.ticket;
        if ShouldFillLimit(order.ticket, price) {
          fillCh := fillCh + [Fill(order.ticket.id, order.ticket.quantity, order.ticket.price)];
        } else {
          remaining := remaining + [order];
        }
      }
      assert book[..|orders|] == book;
      BooksUpdate(books, i, remaining);
      books := books[i := remaining];
    }

    method CancelOrder(id: OrderId)
      modifies this
      ensures View() == Withdrawn(old(View()), id)
    {
      var left := books.Keys;
      ghost var was := View();
      while left != {}
        invariant left <= books.Keys && fillCh == was.fills
        invariant PartlyWithdrawn(BookTickets(books), was.books, left, id)
        decreases |left|
      {
        var i :| i in left;
        OneMoreWithdrawn(BookTickets(books), was.books, left, id, i);
        var remaining := Rest(books[i], id);
        BooksUpdate(books, i, remaining);
        books := books[i := remaining];
        left := left - {i};
      }
      AllWithdrawn(BookTickets(books), was, id);
    }

    static method Rest(orders: seq<Order>, id: OrderId) returns (remaining: seq<Order>)
      ensures Tickets(remaining) == WithoutOrder(Tickets(orders), id)
    {
      remaining := [];
      ghost var book := Tickets(orders);
      for k := 0 to |orders|
        invariant Tickets(remaining) == WithoutOrder(book[..k], id)
      {
        assert book[..k + 1][..k] == book[..k] && book[..k + 1][k] == orders[k].ticket;
        if orders[k].ticket.id != id {
          remaining := remaining + [orders[k]];
        }
      }
      assert book[..|orders|] == book;
    }
  }

  // ---------------------------------------------------------------- at most one full fill per order

  ghost predicate DistinctTickets(ts: seq<Ticket>) {
    forall j, k | 0 <= j < k < |ts| :: ts[j].id != ts[k].id
  }

  ghost predicate DistinctFills(fs: seq<Fill>) {
    forall j, k | 0 <= j < k < |fs| :: fs[j].order != fs[k].order
  }

  /** The book of one instrument: distinct submitted orders of that instrument, none filled. */
  ghost predicate BookTidy(i: Instrument, book: seq<Ticket>, fills: seq<Fill>, given: map<OrderId, Ticket>) {
    && DistinctTickets(book)
    && forall t | t in book ::
         t.id in given && given[t.id] == t && t.instrument == i && forall f | f in fills :: f.order != t.id
  }

  /** Relative to the orders given to the venue: no order has two fills, rests twice or rests after a
      fill, and every fill is for a given order in full. */
  ghost predicate Tidy(v: Venue, given: map<OrderId, Ticket>) {
    && DistinctFills(v.fills)
    && (forall f | f in v.fills :: f.order in given && f.quantity == given[f.order].quantity)
    && (forall i | i in v.books :: BookTidy(i, v.books[i], v.fills, given))
  }

  lemma DistinctFillsConcat(fs: seq<Fill>, gs: seq<Fill>)
    requires DistinctFills(fs) && DistinctFills(gs)
    requires forall f, g | f in fs && g in gs :: f.order != g.order
    ensures DistinctFills(fs + gs)
  {}

  lemma DistinctTicketsSnoc(ts: seq<Ticket>, t: Ticket)
    requires DistinctTickets(ts) && forall u | u in ts :: u.id != t.id
    ensures DistinctTickets(ts + [t])
  {}

  lemma {:induction false} SweepRestParts(book: seq<Ticket>, price: real)
    requires DistinctTickets(book)
    ensures forall t :: t in SweepRest(book, price) <==> t in book && !ShouldFillLimit(t, price)
    ensures DistinctTickets(SweepRest(book, price))
  {
    if book != [] {
      var n := |book| - 1;
      SweepRestParts(book[..n], price);
      assert book == book[..n] + [book[n]];
      if !ShouldFillLimit(book[n], price) {
        DistinctTicketsSnoc(SweepRest(book[..n], price), book[n]);
      }
    }
  }

  ghost predicate FillOf(book: seq<Ticket>, price: real, f: Fill) {
    exists t :: t in book && ShouldFillLimit(t, price) && f == Fill(t.id, t.quantity, t.price)
  }

  lemma {:induction false} SweepFillsParts(book: seq<Ticket>, price: real)
    requires DistinctTickets(book)
    ensures forall f :: f in SweepFills(book, price) <==> FillOf(book, price, f)
    ensures DistinctFills(SweepFills(book, price))
  {
    if book != [] {
      var n := |book| - 1;
      var rest, t := book[..n], book[n];
      SweepFillsParts(rest, price);
      assert book == rest + [t];
      forall f ensures f in SweepFills(book, price) <==> FillOf(book, price, f) {
        if FillOf(book, price, f) {
          var u :| u in book && ShouldFillLimit(u, price) && f == Fill(u.id, u.quantity, u.price);
          assert u != t ==> FillOf(rest, price, f);
        }
        if f in SweepFills(rest, price) {
          var u :| u in rest && ShouldFillLimit(u, price) && f == Fill(u.id, u.quantity, u.price);
          assert u in book;
        }
        assert ShouldFillLimit(t, price) ==> FillOf(book, price, Fill(t.id, t.quantity, t.price));
      }
      if ShouldFillLimit(t, price) {
        DistinctFillsConcat(SweepFills(rest, price), [Fill(t.id, t.quantity, t.price)]);
      }
    }
  }

  /** A sweep fills the orders whose limit the price has reached, in full and at their limit, keeps
      the others, and gives no order both fates. */
  lemma SweepSplits(book: seq<Ticket>, price: real)
    requires DistinctTickets(book)
    ensures forall t :: t in SweepRest(book, price) <==> t in book && !ShouldFillLimit(t, price)
    ensures forall f :: f in SweepFills(book, price) <==> FillOf(book, price, f)
    ensures forall f, t | f in SweepFills(book, price) && t in SweepRest(book, price) :: f.order != t.id
    ensures DistinctTickets(SweepRest(book, price)) && DistinctFills(SweepFills(book, price))
  {
    SweepRestParts(book, price);
    SweepFillsParts(book, price);
  }

  /** The same with the comparisons written out: a buy fills at a price not above its limit and rests below one,
      a sell the other way round. */
  lemma SweepAtLimits(book: seq<Ticket>, price: real)
    requires DistinctTickets(book)
    ensures forall f | f in SweepFills(book, price) ::
      exists t :: t in book && f == Fill(t.id, t.quantity, t.price)
               && (t.side == Buy ==> price <= t.price) && (t.side == Sell ==> t.price <= price)
    ensures forall t | t in SweepRest(book, price) ::
      t in book && (t.side == Buy ==> t.price < price) && (t.side == Sell ==> price < t.price)
    ensures forall t | t in book && (if t.side == Buy then price <= t.price else t.price <= price) ::
      Fill(t.id, t.quantity, t.price) in SweepFills(book, price)
  {
    SweepSplits(book, price);
    forall f | f in SweepFills(book, price)
      ensures exists t :: t in book && f == Fill(t.id, t.quantity, t.price)
               && (t.side == Buy ==> price <= t.price) && (t.side == Sell ==> t.price <= price)
    {
      assert FillOf(book, price, f);
    }
    forall t | t in book && (if t.side == Buy then price <= t.price else t.price <= price)
      ensures Fill(t.id, t.quantity, t.price) in SweepFills(book, price)
    {
      assert FillOf(book, price, Fill(t.id, t.quantity, t.price));
    }
  }

  lemma {:induction false} WithoutParts(book: seq<Ticket>, id: OrderId)
    requires DistinctTickets(book)
    ensures DistinctTickets(WithoutOrder(book, id))
    ensures forall t :: t in WithoutOrder(book, id) <==> t in book && t.id != id
  {
    if book != [] {
      var n := |book| - 1;
      WithoutParts(book[..n], id);
      assert book == book[..n] + [book[n]];
      DistinctTicketsSnoc(WithoutOrder(book[..n], id), book[n]);
    }
  }

  lemma {:induction false} ProcessedTidy(v: Venue, given: map<OrderId, Ticket>, t: Ticket, slipped: real)
    requires Tidy(v, given) && t.id !in given
    ensures Tidy(Processed(v, t, slipped), given[t.id := t])
  {
    var r, given' := Processed(v, t, slipped), given[t.id := t];
    DistinctFillsConcat(v.fills, [Fill(t.id, t.quantity, slipped)]);
    forall i | i in r.books ensures BookTidy(i, r.books[i], r.fills, given') {
      assert BookTidy(i, v.books[i], v.fills, given);
      DistinctTicketsSnoc(v.books[i], t);
    }
  }

  lemma SweptTidy(v: Venue, given: map<OrderId, Ticket>, i: Instrument, price: real)
    requires Tidy(v, given)
    ensures Tidy(Swept(v, i, price), given)
  {
    if i in v.books {
      var r, fs := Swept(v, i, price), SweepFills(v.books[i], price);
      assert BookTidy(i, v.books[i], v.fills, given);
      SweepSplits(v.books[i], price);
      forall g | g in fs
        ensures g.order in given && g.quantity == given[g.order].quantity && given[g.order].instrument == i
        && forall f | f in v.fills :: f.order != g.order
      {
        var t :| t in v.books[i] && ShouldFillLimit(t, price) && g == Fill(t.id, t.quantity, t.price);
      }
      DistinctFillsConcat(v.fills, fs);
      forall j | j in r.books ensures BookTidy(j, r.books[j], r.fills, given) {
        assert BookTidy(j, v.books[j], v.fills, given);
      }
    }
  }

  lemma WithdrawnTidy(v: Venue, given: map<OrderId, Ticket>, id: OrderId)
    requires Tidy(v, given)
    ensures Tidy(Withdrawn(v, id), given)
    ensures forall i, t | i in v.books && t in Withdrawn(v, id).books[i] :: t.id != id
  {
    forall i | i in v.books
      ensures BookTidy(i, WithoutOrder(v.books[i], id), v.fills, given)
      ensures forall t | t in WithoutOrder(v.books[i], id) :: t.id != id
    {
      assert BookTidy(i, v.books[i], v.fills, given);
      WithoutParts(v.books[i], id);
    }
  }
}
