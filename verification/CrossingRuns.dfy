/** What the crossing book keeps over any run of AddOrder and TryCross. */
module CrossingRuns {
  import opened Routing
  import opened Wrappers
  import opened Decimals
  import opened Orders
  import opened Crossing

  /** A fill together with the order it belongs to. */
  datatype Print = Print(order: Ticket, fill: Fill)

  /** Besides the book, a run remembers every order ever added, in arrival order and with its
      current fill, and every fill ever made. */
  datatype Run = Run(book: map<Instrument, seq<OrderState>>, ledger: seq<OrderState>, prints: seq<Print>)

  datatype Event = AddOrder(order: OrderState) | TryCross(order: OrderState)

  function BookOf(r: Run, i: Instrument): seq<OrderState> {
    if i in r.book then r.book[i] else []
  }

  function Accounted(ledger: seq<OrderState>, id: OrderId, quantity: real): (r: seq<OrderState>)
    ensures |r| == |ledger|
  {
    if ledger == [] then []
    else
      var n := |ledger| - 1;
      Accounted(ledger[..n], id, quantity)
        + [if ledger[n].ticket.id == id then Topped(ledger[n], quantity) else ledger[n]]
  }

  function Step(r: Run, e: Event, g: Grid): Run {
    var i := e.order.ticket.instrument;
    match e
    case AddOrder(o) => r.(book := r.book[i := BookOf(r, i) + [o]], ledger := r.ledger + [o])
    case TryCross(o) =>
      var k := FirstEligible(BookOf(r, i), o.ticket, 0);
      var c := Cross(BookOf(r, i), o, g);
      if c.result == NotCrossed || k == |BookOf(r, i)| then r
      else
        var resting := BookOf(r, i)[k].ticket;
        Run(r.book[i := c.book], Accounted(r.ledger, resting.id, c.result.resting.quantity),
            r.prints + [Print(o.ticket, c.result.incoming), Print(resting, c.result.resting)])
  }

  const EMPTY_RUN := Run(map[], [], [])

  function After(events: seq<Event>, g: Grid): Run {
    if events == [] then EMPTY_RUN else Step(After(events[..|events| - 1], g), events[|events| - 1], g)
  }

  /** Every event brings a different order, with something left to fill. */
  ghost predicate Distinct(events: seq<Event>) {
    && (forall e | e in events :: 0.0 < Remaining(e.order))
    && (forall j, k | 0 <= j < k < |events| :: events[j].order.ticket.id != events[k].order.ticket.id)
  }

  /** The orders of an instrument that still have something to fill, in arrival order. */
  function Live(ledger: seq<OrderState>, i: Instrument): seq<OrderState> {
    if ledger == [] then []
    else
      var n := |ledger| - 1;
      Live(ledger[..n], i)
        + if ledger[n].ticket.instrument == i && 0.0 < Remaining(ledger[n]) then [ledger[n]] else []
  }

  ghost predicate DistinctIds(ledger: seq<OrderState>) {
    forall j, k | 0 <= j < k < |ledger| :: ledger[j].ticket.id != ledger[k].ticket.id
  }

  lemma {:induction false} LiveMembers(ledger: seq<OrderState>, i: Instrument)
    ensures forall o | o in Live(ledger, i) :: o in ledger && o.ticket.instrument == i && 0.0 < Remaining(o)
  {
    if ledger != [] {
      LiveMembers(ledger[..|ledger| - 1], i);
    }
  }

  lemma {:induction false} AccountedAbsent(ledger: seq<OrderState>, id: OrderId, quantity: real)
    requires forall o | o in ledger :: o.ticket.id != id
    ensures Accounted(ledger, id, quantity) == ledger
  {
    if ledger != [] {
      AccountedAbsent(ledger[..|ledger| - 1], id, quantity);
    }
  }

  lemma {:induction false} AccountedElsewhere(ledger: seq<OrderState>, id: OrderId, quantity: real, i: Instrument)
    requires forall o | o in ledger && o.ticket.id == id :: o.ticket.instrument != i
    ensures Live(Accounted(ledger, id, quantity), i) == Live(ledger, i)
  {
    if ledger != [] {
      var n := |ledger| - 1;
      AccountedElsewhere(ledger[..n], id, quantity, i);
      assert Accounted(ledger, id, quantity)[..n] == Accounted(ledger[..n], id, quantity);
    }
  }

  lemma {:induction false} AccountedTickets(ledger: seq<OrderState>, id: OrderId, quantity: real)
    ensures forall k | 0 <= k < |ledger| :: Accounted(ledger, id, quantity)[k].ticket == ledger[k].ticket
  {
    if ledger != [] {
      AccountedTickets(ledger[..|ledger| - 1], id, quantity);
    }
  }

  /** What Cross does to the k-th order of a book. */
  function Settled(live: seq<OrderState>, k: nat, quantity: real): seq<OrderState>
    requires k < |live|
  {
    var o := Topped(live[k], quantity);
    if Remaining(o) == 0.0 then Without(live, k) else live[k := o]
  }

  lemma SettledSnoc(live: seq<OrderState>, o: OrderState, k: nat, quantity: real)
    requires k <= |live|
    ensures k < |live| ==> Settled(live + [o], k, quantity) == Settled(live, k, quantity) + [o]
    ensures k == |live| ==>
      Settled(live + [o], k, quantity)
      == live + if Remaining(Topped(o, quantity)) == 0.0 then [] else [Topped(o, quantity)]
  {}

  /** Filling the k-th live order of the ledger is what Cross does to the k-th order of the book. */
  lemma {:induction false} AccountedHere(ledger: seq<OrderState>, i: Instrument, k: nat, quantity: real)
    requires DistinctIds(ledger) && k < |Live(ledger, i)|
    requires quantity <= Remaining(Live(ledger, i)[k])
    ensures Live(Accounted(ledger, Live(ledger, i)[k].ticket.id, quantity), i) == Settled(Live(ledger, i), k, quantity)
  {
    var n := |ledger| - 1;
    var rest, last := ledger[..n], ledger[n];
    var live, id := Live(rest, i), Live(ledger, i)[k].ticket.id;
    assert Accounted(ledger, id, quantity)[..n] == Accounted(rest, id, quantity);
    SettledSnoc(live, last, k, quantity);
    if k == |live| {
      assert Live(ledger, i) == live + [last];
      AccountedAbsent(rest, id, quantity);
    } else {
      LiveMembers(rest, i);
      assert live[k] in rest;
      AccountedHere(rest, i, k, quantity);
      assert Accounted(ledger, id, quantity)[n] == last;
    }
  }

  // ---------------------------------------------------------------- one cross

  /** A price a ticket can accept. */
  predicate Within(t: Ticket, price: real) {
    t.kind == Market || (if t.side == Buy then price <= t.price else t.price <= price)
  }

  lemma MidpointBetween(a: Ticket, b: Ticket, g: Grid)
    requires a.side != b.side && CanCross(a, b) && OnGrid(a.price, g) && OnGrid(b.price, g)
    requires !(a.kind == Market && b.kind == Market)
    ensures Within(a, MidpointPrice(a, b, g)) && Within(b, MidpointPrice(a, b, g))
  {
    if a.kind != Market && b.kind != Market {
      if a.side == Buy {
        DivBetween(a.price + b.price, 2.0, b.price, a.price, g);
      } else {
        DivBetween(a.price + b.price, 2.0, a.price, b.price, g);
      }
    }
  }

  /** A cross takes the earliest eligible opposite order and no other, for the smaller remainder,
      at one price inside both limits. */
  lemma CrossIsFair(book: seq<OrderState>, order: OrderState, g: Grid)
    requires 0.0 < Remaining(order) && OnGrid(order.ticket.price, g)
    requires forall o | o in book :: 0.0 < Remaining(o) && OnGrid(o.ticket.price, g)
    ensures var c := Cross(book, order, g);
      match c.result
      case NotCrossed => c.book == book && c.order == order && forall o | o in book :: !Eligible(order.ticket, o.ticket)
      case Crossed(mine, theirs, residual) =>
        exists k | 0 <= k < |book| ::
          var o := book[k];
          && Eligible(order.ticket, o.ticket) && (forall j | 0 <= j < k :: !Eligible(order.ticket, book[j].ticket))
          && mine.order == order.ticket.id && theirs.order == o.ticket.id
          && mine.quantity == theirs.quantity && 0.0 < mine.quantity <= Remaining(o)
          && mine.quantity <= Remaining(order)
          && (mine.quantity == Remaining(o) || mine.quantity == Remaining(order))
          && mine.price == theirs.price
          && ((order.ticket.kind == Market && o.ticket.kind == Market)
              || (Within(order.ticket, mine.price) && Within(o.ticket, mine.price)))
          && c.order == Topped(order, mine.quantity)
          && c.book == (if mine.quantity == Remaining(o) then Without(book, k) else book[k := Topped(o, mine.quantity)])
          && (residual == None <==> Remaining(c.order) == 0.0)
          && (residual.Some? ==> residual.value == c.order)
  {
    var k := FirstEligible(book, order.ticket, 0);
    if k < |book| {
      var o := book[k];
      assert o in book && Eligible(order.ticket, o.ticket);
      if !(order.ticket.kind == Market && o.ticket.kind == Market) {
        MidpointBetween(order.ticket, o.ticket, g);
      }
    }
  }

  // ---------------------------------------------------------------- whole runs

  function SideTotal(prints: seq<Print>, side: Side): real {
    if prints == [] then 0.0
    else
      var p := prints[|prints| - 1];
      SideTotal(prints[..|prints| - 1], side) + if p.order.side == side then p.fill.quantity else 0.0
  }

  ghost predicate Kept(r: Run) {
    && DistinctIds(r.ledger)
    && (forall o | o in r.ledger :: 0.0 <= Remaining(o))
    && (forall i :: BookOf(r, i) == Live(r.ledger, i))
    && (forall p | p in r.prints :: 0.0 < p.fill.quantity)
    && SideTotal(r.prints, Buy) == SideTotal(r.prints, Sell)
  }

  lemma DistinctSnoc(ledger: seq<OrderState>, o: OrderState)
    requires DistinctIds(ledger) && forall p | p in ledger :: p.ticket.id != o.ticket.id
    ensures DistinctIds(ledger + [o])
  {}

  lemma AddKeeps(r: Run, o: OrderState, g: Grid)
    requires Kept(r) && 0.0 < Remaining(o)
    requires forall p | p in r.ledger :: p.ticket.id != o.ticket.id
    ensures Kept(Step(r, AddOrder(o), g))
  {
    var r' := Step(r, AddOrder(o), g);
    DistinctSnoc(r.ledger, o);
    assert r'.ledger[..|r.ledger|] == r.ledger;
    forall i ensures BookOf(r', i) == Live(r'.ledger, i) {
      assert BookOf(r, i) == Live(r.ledger, i);
    }
  }

  lemma CrossedHere(ledger: seq<OrderState>, o: OrderState, i: Instrument, k: nat, g: Grid)
    requires DistinctIds(ledger) && k < |Live(ledger, i)|
    ensures var resting := Live(ledger, i)[k];
      var quantity := Min(Remaining(o), Remaining(resting));
      CrossWith(Live(ledger, i), o, k, g).book == Live(Accounted(ledger, resting.ticket.id, quantity), i)
  {
    AccountedHere(ledger, i, k, Min(Remaining(o), Remaining(Live(ledger, i)[k])));
  }

  lemma CrossedElsewhere(ledger: seq<OrderState>, i: Instrument, k: nat, quantity: real, j: Instrument)
    requires DistinctIds(ledger) && k < |Live(ledger, i)| && j != i
    ensures Live(Accounted(ledger, Live(ledger, i)[k].ticket.id, quantity), j) == Live(ledger, j)
  {
    var resting := Live(ledger, i)[k];
    LiveMembers(ledger, i);
    assert resting in ledger;
    OnlyOne(ledger, resting);
    AccountedElsewhere(ledger, resting.ticket.id, quantity, j);
  }

  lemma CrossBooks(r: Run, o: OrderState, k: nat, g: Grid, j: Instrument)
    requires DistinctIds(r.ledger) && BookOf(r, j) == Live(r.ledger, j)
    requires BookOf(r, o.ticket.instrument) == Live(r.ledger, o.ticket.instrument)
    requires k == FirstEligible(BookOf(r, o.ticket.instrument), o.ticket, 0) < |BookOf(r, o.ticket.instrument)|
    ensures BookOf(Step(r, TryCross(o), g), j) == Live(Step(r, TryCross(o), g).ledger, j)
  {
    var i := o.ticket.instrument;
    if j == i {
      CrossedHere(r.ledger, o, i, k, g);
    } else {
      CrossedElsewhere(r.ledger, i, k, Min(Remaining(o), Remaining(BookOf(r, i)[k])), j);
    }
  }

  lemma OnlyOne(ledger: seq<OrderState>, o: OrderState)
    requires DistinctIds(ledger) && o in ledger
    ensures forall p | p in ledger && p.ticket.id == o.ticket.id :: p == o
  {}

  lemma CrossKeeps(r: Run, o: OrderState, g: Grid)
    requires Kept(r) && 0.0 < Remaining(o)
    ensures Kept(Step(r, TryCross(o), g))
  {
    var book := BookOf(r, o.ticket.instrument);
    var k := FirstEligible(book, o.ticket, 0);
    if k < |book| {
      var r' := Step(r, TryCross(o), g);
      forall j ensures BookOf(r', j) == Live(r'.ledger, j) {
        CrossBooks(r, o, k, g, j);
      }
      assert book == Live(r.ledger, o.ticket.instrument);
      LiveMembers(r.ledger, o.ticket.instrument);
      CrossLedger(r.ledger, book[k], Min(Remaining(o), Remaining(book[k])));
      CrossPrints(r, o, g);
    }
  }

  lemma CrossLedger(ledger: seq<OrderState>, o: OrderState, quantity: real)
    requires DistinctIds(ledger) && o in ledger && quantity <= Remaining(o)
    requires forall p | p in ledger :: 0.0 <= Remaining(p)
    ensures DistinctIds(Accounted(ledger, o.ticket.id, quantity))
    ensures forall p | p in Accounted(ledger, o.ticket.id, quantity) :: 0.0 <= Remaining(p)
  {
    AccountedTickets(ledger, o.ticket.id, quantity);
    AccountedRemainders(ledger, o, quantity);
  }

  lemma CrossPrints(r: Run, o: OrderState, g: Grid)
    requires Kept(r) && 0.0 < Remaining(o)
    ensures var prints := Step(r, TryCross(o), g).prints;
      (forall p | p in prints :: 0.0 < p.fill.quantity) && SideTotal(prints, Buy) == SideTotal(prints, Sell)
  {
    var book := BookOf(r, o.ticket.instrument);
    var k := FirstEligible(book, o.ticket, 0);
    if k < |book| {
      assert book == Live(r.ledger, o.ticket.instrument);
      LiveMembers(r.ledger, o.ticket.instrument);
      assert 0.0 < Remaining(book[k]);
      PairBalances(r.prints, Print(o.ticket, Cross(book, o, g).result.incoming),
                   Print(book[k].ticket, Cross(book, o, g).result.resting));
    }
  }

  lemma {:induction false} AccountedRemainders(ledger: seq<OrderState>, o: OrderState, quantity: real)
    requires forall p | p in ledger :: 0.0 <= Remaining(p)
    requires DistinctIds(ledger) && o in ledger && quantity <= Remaining(o)
    ensures forall p | p in Accounted(ledger, o.ticket.id, quantity) :: 0.0 <= Remaining(p)
  {
    var n := |ledger| - 1;
    if o in ledger[..n] {
      AccountedRemainders(ledger[..n], o, quantity);
    } else {
      AccountedAbsent(ledger[..n], o.ticket.id, quantity);
    }
  }

  lemma PairBalances(prints: seq<Print>, p: Print, q: Print)
    requires p.order.side != q.order.side && p.fill.quantity == q.fill.quantity
    requires SideTotal(prints, Buy) == SideTotal(prints, Sell)
    ensures SideTotal(prints + [p, q], Buy) == SideTotal(prints + [p, q], Sell)
  {
    assert (prints + [p, q])[..|prints| + 1] == prints + [p];
    assert (prints + [p])[..|prints|] == prints;
  }

  lemma {:induction false} LedgerIds(events: seq<Event>, g: Grid)
    ensures forall o | o in After(events, g).ledger :: exists e | e in events :: e.order.ticket.id == o.ticket.id
  {
    if events != [] {
      var n := |events| - 1;
      LedgerIds(events[..n], g);
      var r := After(events[..n], g);
      forall o | o in After(events, g).ledger ensures exists e | e in events :: e.order.ticket.id == o.ticket.id {
        var k :| 0 <= k < |After(events, g).ledger| && After(events, g).ledger[k] == o;
        if k < |r.ledger| {
          forall id, quantity { AccountedTickets(r.ledger, id, quantity); }
          assert r.ledger[k].ticket == o.ticket && r.ledger[k] in r.ledger;
          var e :| e in events[..n] && e.order.ticket.id == o.ticket.id;
          assert e in events;
        } else {
          assert events[n] in events;
        }
      }
    }
  }

  /** Over any run on distinct orders the book of every instrument is exactly the list of the orders
      added for it that still have a positive remainder, in arrival order, and internal buys equal
      internal sells. */
  lemma {:induction false} BookHoldsLiveArrivals(events: seq<Event>, g: Grid)
    requires Distinct(events)
    ensures Kept(After(events, g))
  {
    if events == [] {
      assert Live([], "") == [];
    } else {
      var n := |events| - 1;
      var e := events[n];
      assert Distinct(events[..n]);
      assert e in events;
      BookHoldsLiveArrivals(events[..n], g);
      if e.AddOrder? {
        LedgerIds(events[..n], g);
        AddKeeps(After(events[..n], g), e.order, g);
      } else {
        CrossKeeps(After(events[..n], g), e.order, g);
      }
    }
  }
}
