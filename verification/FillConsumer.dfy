/** The lifecycle consumer of risk-engine/risk_engine/kafka/consumer.py: it feeds fills to the book and
    collects the fills of each order for its execution report. */
module FillConsumer {
  import opened Portfolio

  type OrderID = string

  datatype Event =
    | FillReceived(order: OrderID, fill: FillEvent)
    | OrderFilled(order: OrderID)
    | OrderCanceled(order: OrderID)
    | Other(order: OrderID)

  datatype Report = Report(order: OrderID, fills: seq<FillEvent>)

  /** Which callbacks are registered. */
  datatype Callbacks = Callbacks(onFill: bool, onComplete: bool)

  /** The consumer's state, with the fills and the reports it has handed to the callbacks. */
  datatype Consumed = Consumed(
    book: Book, tracked: map<OrderID, seq<FillEvent>>, reports: seq<Report>, notified: seq<FillEvent>)

  function Fresh(book: Book): Consumed {
    Consumed(book, map[], [], [])
  }

  function Tracked(tracked: map<OrderID, seq<FillEvent>>, id: OrderID): seq<FillEvent> {
    if id in tracked then tracked[id] else []
  }

  function TrackedWith(tracked: map<OrderID, seq<FillEvent>>, id: OrderID, f: FillEvent): map<OrderID, seq<FillEvent>> {
    if id == "" then tracked else tracked[id := Tracked(tracked, id) + [f]]
  }

  function NotifiedWith(notified: seq<FillEvent>, f: FillEvent, cb: Callbacks): seq<FillEvent> {
    if cb.onFill then notified + [f] else notified
  }

  function Completed(s: Consumed, id: OrderID, cb: Callbacks): Consumed {
    if !cb.onComplete then s
    else s.(tracked := s.tracked - {id}, reports := s.reports + [Report(id, Tracked(s.tracked, id))])
  }

  ghost function Consume(s: Consumed, e: Event, cb: Callbacks): Consumed {
    match e
    case FillReceived(id, f) =>
      if !Accepts(s.book, f) then s
      else
        s.(book := Applied(s.book, f), tracked := TrackedWith(s.tracked, id, f),
           notified := NotifiedWith(s.notified, f, cb))
    case OrderFilled(id) => Completed(s, id, cb)
    case OrderCanceled(id) => if id != "" && id in s.tracked then Completed(s, id, cb) else s
    case Other(_) => s
  }

  // ---------------------------------------------------------------- the consumer

  class PortfolioStateBuilder {
    const portfolio: Portfolio
    const cb: Callbacks
    var tracked: map<OrderID, seq<FillEvent>>
    var reports: seq<Report>
    var notified: seq<FillEvent>

    constructor (portfolio: Portfolio, cb: Callbacks)
      requires portfolio.Valid()
      ensures this.portfolio == portfolio && this.cb == cb
      ensures View() == Fresh(portfolio.View())
    {
      this.portfolio, this.cb, tracked, reports, notified := portfolio, cb, map[], [], [];
    }

    ghost function View(): Consumed
      reads this, portfolio, portfolio.positions.Values
    {
      Consumed(portfolio.View(), tracked, reports, notified)
    }

    method ProcessMessage(e: Event)
      requires portfolio.Valid()
      modifies this, portfolio, portfolio.positions.Values
      ensures portfolio.Valid() && fresh(portfolio.positions.Values - old(portfolio.positions.Values))
      ensures View() == Consume(old(View()), e, cb)
    {
      match e
      case FillReceived(id, f) => HandleFill(id, f);
      case OrderFilled(id) => TriggerOrderComplete(id);
      case OrderCanceled(id) =>
        if id != "" && id in tracked {
          TriggerOrderComplete(id);
        }
      case Other(_) =>
    }

    /** A refused fill raises; the exception ends the message and nothing is tracked. */
    method HandleFill(id: OrderID, f: FillEvent)
      requires portfolio.Valid()
      modifies this`tracked, this`notified, portfolio, portfolio.positions.Values
      ensures portfolio.Valid() && fresh(portfolio.positions.Values - old(portfolio.positions.Values))
      ensures View() == Consume(old(View()), FillReceived(id, f), cb)
    {
      var ok := portfolio.ApplyFill(f);
      if !ok {
        return;
      }
      Remember(id, f);
    }

    /** Collects an accepted fill for its order and notifies the listener. */
    method Remember(id: OrderID, f: FillEvent)
      modifies this`tracked, this`notified
      ensures tracked == TrackedWith(old(tracked), id, f) && notified == NotifiedWith(old(notified), f, cb)
    {
      if id != "" {
        if id !in tracked {
          tracked := tracked[id := []];
        }
        tracked := tracked[id := tracked[id] + [f]];
      }
      if cb.onFill {
        notified := notified + [f];
      }
    }

    method TriggerOrderComplete(id: OrderID)
      modifies this`tracked, this`reports
      ensures View() == Completed(old(View()), id, cb)
    {
      if !cb.onComplete {
        return;
      }
      var fills := if id in tracked then tracked[id] else [];
      tracked := tracked - {id};
      reports := reports + [Report(id, fills)];
    }
  }

  // ---------------------------------------------------------------- runs

  ghost function ConsumeAll(s: Consumed, es: seq<Event>, cb: Callbacks): Consumed {
    if es == [] then s else Consume(ConsumeAll(s, es[..|es| - 1], cb), es[|es| - 1], cb)
  }

  /** The fills of an order that the book accepted, in the order they were applied. */
  ghost function AcceptedFills(s: Consumed, es: seq<Event>, cb: Callbacks, id: OrderID): seq<FillEvent> {
    if es == [] then []
    else
      var e := es[|es| - 1];
      var before := AcceptedFills(s, es[..|es| - 1], cb, id);
      if e.FillReceived? && e.order == id && Accepts(ConsumeAll(s, es[..|es| - 1], cb).book, e.fill)
      then before + [e.fill] else before
  }

  /** The fills in the reports of an order, one report after the other. */
  function Reported(reports: seq<Report>, id: OrderID): seq<FillEvent> {
    if reports == [] then []
    else
      var r := reports[|reports| - 1];
      Reported(reports[..|reports| - 1], id) + if r.order == id then r.fills else []
  }

  lemma ReportedAfter(reports: seq<Report>, r: Report, id: OrderID)
    ensures Reported(reports + [r], id) == Reported(reports, id) + if r.order == id then r.fills else []
  {
    assert (reports + [r])[..|reports|] == reports;
  }

  lemma CompletionKeepsFills(s: Consumed, done: OrderID, cb: Callbacks, id: OrderID)
    ensures var s' := Completed(s, done, cb);
      Reported(s'.reports, id) + Tracked(s'.tracked, id) == Reported(s.reports, id) + Tracked(s.tracked, id)
    ensures cb.onComplete ==> Tracked(Completed(s, done, cb).tracked, done) == []
  {
    if cb.onComplete {
      ReportedAfter(s.reports, Report(done, Tracked(s.tracked, done)), id);
      assert Reported(s.reports, id) + [] == Reported(s.reports, id);
      assert Reported(s.reports, id) + Tracked(s.tracked, id) + [] == Reported(s.reports, id) + Tracked(s.tracked, id);
    }
  }

  function Seen(s: Consumed, id: OrderID): seq<FillEvent> {
    Reported(s.reports, id) + Tracked(s.tracked, id)
  }

  lemma FillSeen(
      before: seq<FillEvent>, tracked: map<OrderID, seq<FillEvent>>, order: OrderID, f: FillEvent, id: OrderID)
    ensures before + Tracked(tracked[order := Tracked(tracked, order) + [f]], id)
         == before + Tracked(tracked, id) + if order == id then [f] else []
  {
    if order == id {
      assert before + (Tracked(tracked, id) + [f]) == before + Tracked(tracked, id) + [f];
    } else {
      assert before + Tracked(tracked, id) + [] == before + Tracked(tracked, id);
    }
  }

  /** One event adds to what has been seen of an order exactly the fill it brings, if that is accepted. */
  lemma OneEvent(s: Consumed, e: Event, cb: Callbacks, id: OrderID)
    requires id != ""
    ensures Seen(Consume(s, e, cb), id)
         == Seen(s, id) + if e.FillReceived? && e.order == id && Accepts(s.book, e.fill) then [e.fill] else []
  {
    assert Seen(s, id) + [] == Seen(s, id);
    if e.FillReceived? {
      FillSeen(Reported(s.reports, id), s.tracked, e.order, e.fill, id);
    } else {
      CompletionKeepsFills(s, e.order, cb, id);
    }
  }

  lemma OneMoreAccepted(s: Consumed, es: seq<Event>, cb: Callbacks, id: OrderID)
    requires es != []
    ensures var n := |es| - 1;
      AcceptedFills(s, es, cb, id)
      == AcceptedFills(s, es[..n], cb, id)
         + if es[n].FillReceived? && es[n].order == id && Accepts(ConsumeAll(s, es[..n], cb).book, es[n].fill)
           then [es[n].fill] else []
  {
    var before := AcceptedFills(s, es[..|es| - 1], cb, id);
    assert before + [] == before;
  }

  /** From a fresh start, the reports of an order followed by what is still collected for it are exactly its
      accepted fills, in order: no fill is lost, repeated or attributed to another order. */
  lemma {:induction false} ReportsPartitionAcceptedFills(book: Book, es: seq<Event>, cb: Callbacks, id: OrderID)
    requires id != ""
    ensures Seen(ConsumeAll(Fresh(book), es, cb), id) == AcceptedFills(Fresh(book), es, cb, id)
  {
    if es != [] {
      var n := |es| - 1;
      ReportsPartitionAcceptedFills(book, es[..n], cb, id);
      OneEvent(ConsumeAll(Fresh(book), es[..n], cb), es[n], cb, id);
      OneMoreAccepted(Fresh(book), es, cb, id);
    }
  }

  /** Once an order is reported filled, its reports hold every fill the book ever accepted for it. */
  lemma {:induction false} CompletedOrderIsFullyReported(book: Book, es: seq<Event>, cb: Callbacks, id: OrderID)
    requires cb.onComplete && id != "" && es != [] && es[|es| - 1] == OrderFilled(id)
    ensures Reported(ConsumeAll(Fresh(book), es, cb).reports, id) == AcceptedFills(Fresh(book), es, cb, id)
  {
    ReportsPartitionAcceptedFills(book, es, cb, id);
    CompletionKeepsFills(ConsumeAll(Fresh(book), es[..|es| - 1], cb), id, cb, id);
    var s := ConsumeAll(Fresh(book), es, cb);
    assert Tracked(s.tracked, id) == [];
    assert Reported(s.reports, id) + [] == Reported(s.reports, id);
  }

  // ---------------------------------------------------------------- the fill callback

  ghost function Replayed(book: Book, fs: seq<FillEvent>): Book {
    if fs == [] then book else Applied(Replayed(book, fs[..|fs| - 1]), fs[|fs| - 1])
  }

  ghost predicate AllAccepted(book: Book, fs: seq<FillEvent>) {
    forall k | 0 <= k < |fs| :: Accepts(Replayed(book, fs[..k]), fs[k])
  }

  lemma ReplayedSnoc(book: Book, fs: seq<FillEvent>, f: FillEvent)
    requires AllAccepted(book, fs) && Accepts(Replayed(book, fs), f)
    ensures AllAccepted(book, fs + [f]) && Replayed(book, fs + [f]) == Applied(Replayed(book, fs), f)
  {
    assert (fs + [f])[..|fs|] == fs;
    forall k | 0 <= k < |fs| ensures Accepts(Replayed(book, (fs + [f])[..k]), (fs + [f])[k]) {
      assert (fs + [f])[..k] == fs[..k];
    }
  }

  /** A listener of the fill callback, such as the settlement tracker, is told exactly the fills that make
      the book: each was accepted when it came, and replaying them gives the book. */
  lemma {:induction false} NotifiedFillsMakeTheBook(book: Book, es: seq<Event>, cb: Callbacks)
    requires cb.onFill
    ensures var s := ConsumeAll(Fresh(book), es, cb);
      AllAccepted(book, s.notified) && Replayed(book, s.notified) == s.book
  {
    if es != [] {
      var n := |es| - 1;
      NotifiedFillsMakeTheBook(book, es[..n], cb);
      var s := ConsumeAll(Fresh(book), es[..n], cb);
      if es[n].FillReceived? && Accepts(s.book, es[n].fill) {
        ReplayedSnoc(book, s.notified, es[n].fill);
      }
    }
  }
}
