/** The internal crossing book of gateway/internal/crossing/engine.go. */
module Crossing {
  import opened Routing
  import opened Wrappers
  import opened Decimals
  import opened Orders

  /** The two fills of a cross and what is left of the incoming order. */
  datatype CrossResult =
    | NotCrossed
    | Crossed(incoming: Fill, resting: Fill, residual: Option<OrderState>)

  datatype CrossOutcome = CrossOutcome(result: CrossResult, order: OrderState, book: seq<OrderState>)

  function Remaining(o: OrderState): real {
    o.ticket.quantity - o.filled
  }

  predicate CanCross(incoming: Ticket, resting: Ticket) {
    if incoming.kind == Market || resting.kind == Market then true
    else if incoming.side == Buy then incoming.price >= resting.price
    else resting.price >= incoming.price
  }

  predicate Eligible(incoming: Ticket, resting: Ticket) {
    incoming.side != resting.side && CanCross(incoming, resting)
  }

  function MidpointPrice(a: Ticket, b: Ticket, g: Grid): real {
    if a.kind == Market && b.kind == Market then 0.0
    else if a.kind == Market then b.price
    else if b.kind == Market then a.price
    else Div(a.price + b.price, 2.0, g)
  }

  /** The first eligible order at or after an index; the length of the book if there is none. */
  function FirstEligible(book: seq<OrderState>, t: Ticket, from: nat): (i: nat)
    requires from <= |book|
    ensures from <= i <= |book|
    ensures forall j | from <= j < i :: !Eligible(t, book[j].ticket)
    ensures i < |book| ==> Eligible(t, book[i].ticket)
    decreases |book| - from
  {
    if from == |book| || Eligible(t, book[from].ticket) then from else FirstEligible(book, t, from + 1)
  }

  function Topped(o: OrderState, quantity: real): OrderState {
    o.(filled := o.filled + quantity)
  }

  function Without<T>(s: seq<T>, i: nat): seq<T>
    requires i < |s|
  {
    s[..i] + s[i + 1..]
  }

  /** Crossing an incoming order with one resting order. */
  function CrossWith(book: seq<OrderState>, order: OrderState, i: nat, g: Grid): CrossOutcome
    requires i < |book|
  {
    var candidate := book[i];
    var price := MidpointPrice(order.ticket, candidate.ticket, g);
    var quantity := Min(Remaining(order), Remaining(candidate));
    var order' := Topped(order, quantity);
    var candidate' := Topped(candidate, quantity);
    CrossOutcome(
      Crossed(Fill(order.ticket.id, quantity, price), Fill(candidate.ticket.id, quantity, price),
              if order'.filled < order'.ticket.quantity then Some(order') else None),
      order',
      if candidate'.filled == candidate'.ticket.quantity then Without(book, i) else book[i := candidate'])
  }

  /** Crossing an incoming order against the book of its instrument. */
  function Cross(book: seq<OrderState>, order: OrderState, g: Grid): CrossOutcome {
    var i := FirstEligible(book, order.ticket, 0);
    if i == |book| then CrossOutcome(NotCrossed, order, book) else CrossWith(book, order, i, g)
  }

  /** Crossing orders with something left makes positive fills and leaves only such orders behind. */
  lemma CrossPositive(book: seq<OrderState>, o: OrderState, g: Grid)
    requires 0.0 < Remaining(o) && forall p | p in book :: 0.0 < Remaining(p)
    ensures var c := Cross(book, o, g);
      && (forall p | p in c.book :: 0.0 < Remaining(p))
      && (c.result.Crossed? ==> 0.0 < c.result.incoming.quantity && c.result.incoming.order == o.ticket.id)
  {
    var k := FirstEligible(book, o.ticket, 0);
    if k < |book| {
      assert book[k] in book;
      var c := CrossWith(book, o, k, g);
      forall p | p in c.book ensures p in book || p == Topped(book[k], c.result.incoming.quantity) {}
    }
  }

  ghost function Snapshots(os: seq<Order>): (r: seq<OrderState>)
    reads os
    ensures |r| == |os| && forall k | 0 <= k < |os| :: r[k] == os[k].Snapshot()
  {
    seq(|os|, k requires 0 <= k < |os| reads os => os[k].Snapshot())
  }

  /** Distinct orders of one instrument. */
  ghost predicate IsList(i: Instrument, os: seq<Order>) {
    && (forall k | 0 <= k < |os| :: os[k].ticket.instrument == i)
    && (forall j, k | 0 <= j < k < |os| :: os[j] != os[k])
  }

  lemma WithoutSnapshots(os: seq<Order>, i: nat)
    requires i < |os|
    ensures |Without(os, i)| == |os| - 1 && Snapshots(Without(os, i)) == Without(Snapshots(os), i)
  {}

  class CrossingEngine {
    var book: map<Instrument, seq<Order>>

    ghost predicate Valid()
      reads this
    {
      forall i | i in book :: IsList(i, book[i])
    }

    function BookOf(i: Instrument): seq<Order>
      reads this
    {
      if i in book then book[i] else []
    }

    ghost function States(i: Instrument): seq<OrderState>
      reads this, BookOf(i)
    {
      Snapshots(BookOf(i))
    }

    constructor ()
      ensures Valid() && book == map[]
    {
      book := map[];
    }

    method AddOrder(order: Order)
      requires Valid() && order !in BookOf(order.ticket.instrument)
      modifies this
      ensures Valid()
      ensures book == old(book)[order.ticket.instrument := old(BookOf(order.ticket.instrument)) + [order]]
    {
      var i := order.ticket.instrument;
      book := book[i := BookOf(i) + [order]];
    }

    method TryCross(order: Order, g: Grid) returns (result: CrossResult)
      requires Valid() && order !in BookOf(order.ticket.instrument)
      modifies this, order, BookOf(order.ticket.instrument)
      ensures Valid()
      ensures var i := order.ticket.instrument;
        var c := Cross(old(States(i)), old(order.Snapshot()), g);
        result == c.result && order.Snapshot() == c.order && States(i) == c.book
      ensures var i := order.ticket.instrument;
        var k := FirstEligible(old(States(i)), order.ticket, 0);
        book == old(book) || (k < |old(BookOf(i))| && book == old(book)[i := Without(old(BookOf(i)), k)])
    {
      var i := FindCandidate(order);
      if i == |BookOf(order.ticket.instrument)| {
        return NotCrossed;
      }
      result := Execute(order, i, g);
    }

    method Execute(order: Order, i: nat, g: Grid) returns (result: CrossResult)
      requires Valid() && order !in BookOf(order.ticket.instrument)
      requires i < |BookOf(order.ticket.instrument)|
      modifies this, order, BookOf(order.ticket.instrument)[i]
      ensures Valid()
      ensures var inst := order.ticket.instrument;
        var c := CrossWith(old(States(inst)), old(order.Snapshot()), i, g);
        result == c.result && order.Snapshot() == c.order && States(inst) == c.book
      ensures var inst := order.ticket.instrument;
        book == old(book) || book == old(book)[inst := Without(old(BookOf(inst)), i)]
    {
      var inst := order.ticket.instrument;
      var candidate := BookOf(inst)[i];
      assert candidate.Snapshot() == States(inst)[i];
      var crossPrice := MidpointPrice(order.ticket, candidate.ticket, g);
      var fillQty := Min(order.ticket.quantity - order.filled, candidate.ticket.quantity - candidate.filled);
      var incomingFill := Fill(order.ticket.id, fillQty, crossPrice);
      var candidateFill := Fill(candidate.ticket.id, fillQty, crossPrice);

      Consume(inst, i, fillQty);
      var residual := FillIncoming(order, fillQty);
      return Crossed(incomingFill, candidateFill, residual);
    }

    method FillIncoming(order: Order, quantity: real) returns (residual: Option<OrderState>)
      requires order !in BookOf(order.ticket.instrument)
      modifies order
      ensures order.Snapshot() == Topped(old(order.Snapshot()), quantity)
      ensures residual == if order.filled < order.ticket.quantity then Some(order.Snapshot()) else None
      ensures States(order.ticket.instrument) == old(States(order.ticket.instrument))
    {
      order.filled := order.filled + quantity;
      return if order.filled < order.ticket.quantity then Some(order.Snapshot()) else None;
    }

    /** Fills a resting order and drops it from the book once nothing of it remains. */
    method Consume(inst: Instrument, i: nat, quantity: real)
      requires Valid() && inst in book && i < |book[inst]|
      modifies this, book[inst][i]
      ensures Valid()
      ensures var c := Topped(old(States(inst))[i], quantity);
        States(inst)
        == if c.filled == c.ticket.quantity then Without(old(States(inst)), i) else old(States(inst))[i := c]
      ensures book == old(book) || book == old(book)[inst := Without(old(book)[inst], i)]
    {
      var resting := book[inst];
      FillResting(resting, i, quantity);
      var candidate := resting[i];
      if candidate.filled == candidate.ticket.quantity {
        WithoutSnapshots(resting, i);
        book := book[inst := Without(resting, i)];
      }
    }

    method FillResting(resting: seq<Order>, i: nat, quantity: real)
      requires i < |resting| && forall j, k | 0 <= j < k < |resting| :: resting[j] != resting[k]
      modifies resting[i]
      ensures Snapshots(resting) == old(Snapshots(resting))[i := Topped(old(Snapshots(resting))[i], quantity)]
    {
      var candidate := resting[i];
      candidate.filled := candidate.filled + quantity;
      forall k | 0 <= k < |resting| && k != i ensures resting[k].Snapshot() == old(resting[k].Snapshot()) {
        assert resting[k] != candidate;
      }
    }

    /** The scan of the book for the first order the incoming one can cross with. */
    method FindCandidate(order: Order) returns (i: nat)
      ensures i == FirstEligible(States(order.ticket.instrument), order.ticket, 0)
    {
      var resting := BookOf(order.ticket.instrument);
      ghost var states := States(order.ticket.instrument);
      i := 0;
      while i < |resting|
        invariant 0 <= i <= |resting|
        invariant FirstEligible(states, order.ticket, 0) == FirstEligible(states, order.ticket, i)
      {
        var candidate := resting[i];
        assert states[i].ticket == candidate.ticket;
        if candidate.ticket.side != order.ticket.side && CanCross(order.ticket, candidate.ticket) {
          return;
        }
        i := i + 1;
      }
    }
  }
}
