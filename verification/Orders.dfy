/** The order entity of gateway/internal/domain/order.go: its status machine, its over-fill guard
    and its running volume-weighted average price (VWAP). */
module Orders {
  import opened Routing
  import opened Decimals

  type OrderId = nat

  datatype Side = Buy | Sell
  datatype OrderType = Market | Limit | StopLimit
  datatype AssetClass = Equity | Crypto | TokenizedSecurity
  datatype Status = New | Acknowledged | PartiallyFilled | Filled | Canceled | Rejected

  datatype Fill = Fill(order: OrderId, quantity: real, price: real)

  /** The fields no one writes after the order has its ID. */
  datatype Ticket = Ticket(
    id: OrderId, instrument: Instrument, side: Side, kind: OrderType,
    quantity: real, price: real, assetClass: AssetClass)

  /** A snapshot of an order. */
  datatype OrderState = OrderState(
    ticket: Ticket, filled: real, average: real, status: Status, venue: VenueId, fills: seq<Fill>)

  datatype OrderError = InvalidTransition | Overfill | OrderNotFillable
  datatype Outcome = Pass | Fail(error: OrderError)

  function Signed(side: Side, quantity: real): real {
    if side == Buy then quantity else -quantity
  }

  function NewOrder(t: Ticket, venue: VenueId): OrderState {
    OrderState(t, 0.0, 0.0, New, venue, [])
  }

  // ---------------------------------------------------------------- status machine

  function Successors(s: Status): set<Status> {
    match s
    case New => {Acknowledged, Rejected}
    case Acknowledged => {PartiallyFilled, Canceled, Rejected}
    case PartiallyFilled => {Filled, Canceled}
    case _ => {}
  }

  function Transition(o: OrderState, to: Status): OrderState {
    if to in Successors(o.status) then o.(status := to) else o
  }

  // ---------------------------------------------------------------- fills

  function Fillability(o: OrderState, f: Fill): Outcome {
    if o.status != Acknowledged && o.status != PartiallyFilled then Fail(OrderNotFillable)
    else if f.quantity > o.ticket.quantity - o.filled then Fail(Overfill)
    else Pass
  }

  /** What two lots cost together. */
  function TotalCost(average: real, held: real, price: real, quantity: real): real {
    average * held + price * quantity
  }

  /** The VWAP after one more fill; only the quotient is rounded. */
  function NextAverage(o: OrderState, f: Fill, g: Grid): real
    requires o.filled == 0.0 || o.filled + f.quantity != 0.0
  {
    if o.filled == 0.0 then f.price
    else Div(TotalCost(o.average, o.filled, f.price, f.quantity), o.filled + f.quantity, g)
  }

  /** The average of an accepted fill does not divide by zero, which would panic. */
  predicate Averages(o: OrderState, f: Fill) {
    Fillability(o, f).Pass? ==> o.filled == 0.0 || o.filled + f.quantity != 0.0
  }

  /** The order after a fill; a refused fill leaves it as it is. */
  function AfterFill(o: OrderState, f: Fill, g: Grid): OrderState
    requires Averages(o, f)
  {
    if Fillability(o, f).Fail? then o
    else
      var filled := o.filled + f.quantity;
      o.(average := NextAverage(o, f, g), filled := filled, fills := o.fills + [f],
         status := if filled == o.ticket.quantity then Filled else PartiallyFilled)
  }

  class Order {
    const ticket: Ticket
    var filled: real
    var average: real
    var status: Status
    var venue: VenueId
    var fills: seq<Fill>

    constructor (ticket: Ticket, venue: VenueId)
      ensures Snapshot() == NewOrder(ticket, venue)
    {
      this.ticket := ticket;
      this.venue := venue;
      filled, average, status, fills := 0.0, 0.0, New, [];
    }

    function Snapshot(): (o: OrderState)
      reads this
    {
      OrderState(ticket, filled, average, status, venue, fills)
    }

    method ApplyTransition(to: Status) returns (r: Outcome)
      modifies this
      ensures Snapshot() == Transition(old(Snapshot()), to)
      ensures r == if to in Successors(old(status)) then Pass else Fail(InvalidTransition)
    {
      if to in Successors(status) {
        status := to;
        return Pass;
      }
      return Fail(InvalidTransition);
    }

    method ApplyFill(f: Fill, g: Grid) returns (r: Outcome)
      requires Averages(Snapshot(), f)
      modifies this
      ensures r == Fillability(old(Snapshot()), f)
      ensures Snapshot() == AfterFill(old(Snapshot()), f, g)
    {
      if status != Acknowledged && status != PartiallyFilled {
        return Fail(OrderNotFillable);
      }
      var remaining := ticket.quantity - filled;
      if f.quantity > remaining {
        return Fail(Overfill);
      }
      var newFilledQty := filled + f.quantity;
      if filled == 0.0 {
        average := f.price;
      } else {
        var totalCost := TotalCost(average, filled, f.price, f.quantity);
        average := Div(totalCost, newFilledQty, g);
      }
      filled := newFilledQty;
      fills := fills + [f];
      if filled == ticket.quantity {
        status := Filled;
      } else {
        status := PartiallyFilled;
      }
      return Pass;
    }
  }

  // ---------------------------------------------------------------- reference definitions

  function QuantityOf(fs: seq<Fill>): real {
    if fs == [] then 0.0 else QuantityOf(fs[..|fs| - 1]) + fs[|fs| - 1].quantity
  }

  function CostOf(fs: seq<Fill>): real {
    if fs == [] then 0.0 else CostOf(fs[..|fs| - 1]) + fs[|fs| - 1].price * fs[|fs| - 1].quantity
  }

  ghost predicate PositiveFills(fs: seq<Fill>) {
    forall f | f in fs :: 0.0 < f.quantity
  }

  /** What every order keeps: the book-keeping adds up, nothing is over-filled, and the status tells
      how much is filled. */
  ghost predicate Sound(o: OrderState) {
    && 0.0 < o.ticket.quantity
    && PositiveFills(o.fills)
    && o.filled == QuantityOf(o.fills)
    && 0.0 <= o.filled <= o.ticket.quantity
    && (o.filled == 0.0 <==> o.fills == [])
    && (o.status in {New, Acknowledged, Rejected} ==> o.fills == [])
    && (o.status == PartiallyFilled ==> 0.0 < o.filled < o.ticket.quantity)
    && (o.status == Filled <==> o.filled == o.ticket.quantity)
  }

  /** Any sequence of attempted fills, refused ones included. */
  function AfterFills(o: OrderState, attempts: seq<Fill>, g: Grid): (r: OrderState)
    requires 0.0 <= o.filled && PositiveFills(attempts)
    ensures 0.0 <= r.filled
  {
    if attempts == [] then o
    else
      AfterFill(AfterFills(o, attempts[..|attempts| - 1], g), attempts[|attempts| - 1], g)
  }
}
