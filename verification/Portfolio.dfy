/** The risk engine's book of risk-engine/risk_engine/domain/portfolio.py: long positions by
    instrument, and cash that is spent at once or on settlement. */
module Portfolio {
  import opened Routing
  import opened Decimals
  import opened Totals
  import Orders

  type Side = Orders.Side

  /** Settlement at once, or later. */
  datatype Cycle = T0 | T2

  datatype FillEvent = FillEvent(
    instrument: Instrument, venue: string, side: Side, quantity: real, price: real, assetClass: string, cycle: Cycle)

  datatype Holding = Holding(
    venue: string, quantity: real, averageCost: real, marketPrice: real,
    unrealizedPnL: real, realizedPnL: real, assetClass: string, cycle: Cycle)

  datatype Book = Book(
    positions: map<Instrument, Holding>, nav: real, cash: real, availableCash: real, unsettledCash: real)

  // ---------------------------------------------------------------- on values

  function Value(h: Holding): real {
    h.quantity * h.marketPrice
  }

  ghost function Values(positions: map<Instrument, Holding>): map<Instrument, real> {
    map i | i in positions :: Value(positions[i])
  }

  ghost function NavOf(availableCash: real, positions: map<Instrument, Holding>): real {
    availableCash + Total(Values(positions))
  }

  function FillCost(f: FillEvent): real {
    f.quantity * f.price
  }

  predicate Accepts(b: Book, f: FillEvent) {
    f.side.Sell? ==> f.instrument in b.positions && f.quantity <= b.positions[f.instrument].quantity
  }

  /** The weighted average of what is held and what is bought. */
  function Blended(h: Holding, quantity: real, cost: real): real {
    if h.quantity + quantity == 0.0 then h.averageCost
    else (h.averageCost * h.quantity + cost) / (h.quantity + quantity)
  }

  function Repriced(h: Holding, price: real): Holding {
    h.(marketPrice := price, unrealizedPnL := Markup(price, h.averageCost, h.quantity))
  }

  function Bought(h: Holding, f: FillEvent): Holding {
    Repriced(h.(averageCost := Blended(h, f.quantity, FillCost(f)), quantity := h.quantity + f.quantity), f.price)
  }

  function Sold(h: Holding, f: FillEvent): Holding {
    Repriced(h.(realizedPnL := h.realizedPnL + Markup(f.price, h.averageCost, f.quantity),
                quantity := h.quantity - f.quantity),
             f.price)
  }

  function Opening(f: FillEvent): Holding {
    Holding(f.venue, f.quantity, f.price, f.price, 0.0, 0.0, f.assetClass, f.cycle)
  }

  /** The holding of the filled instrument after an accepted fill; it is dropped when flat. */
  function HoldingAfter(positions: map<Instrument, Holding>, f: FillEvent): Holding {
    if f.instrument !in positions then Opening(f)
    else if f.side.Buy? then Bought(positions[f.instrument], f)
    else Sold(positions[f.instrument], f)
  }

  function PositionsAfter(positions: map<Instrument, Holding>, f: FillEvent): map<Instrument, Holding> {
    var h := HoldingAfter(positions, f);
    if f.instrument in positions && h.quantity == 0.0 then positions - {f.instrument}
    else positions[f.instrument := h]
  }

  function CashAfter(b: Book, f: FillEvent): Book {
    var cost := FillCost(f);
    match (f.side, f.cycle)
    case (Buy, T0) => b.(cash := b.cash - cost, availableCash := b.availableCash - cost)
    case (Buy, T2) => b.(availableCash := b.availableCash - cost, unsettledCash := b.unsettledCash + cost)
    case (Sell, T0) => b.(cash := b.cash + cost, availableCash := b.availableCash + cost)
    case (Sell, T2) =>
      b.(availableCash := b.availableCash + cost, unsettledCash := b.unsettledCash - cost, cash := b.cash + cost)
  }

  ghost function Applied(b: Book, f: FillEvent): Book {
    if !Accepts(b, f) then b
    else
      var positions := PositionsAfter(b.positions, f);
      CashAfter(b, f).(positions := positions, nav := NavOf(CashAfter(b, f).availableCash, positions))
  }

  ghost function Start(cash: real): Book {
    Book(map[], cash, cash, cash, 0.0)
  }

  // ---------------------------------------------------------------- the objects

  class Position {
    const instrument: Instrument
    const venue: string
    const assetClass: string
    const cycle: Cycle
    var quantity: real
    var averageCost: real
    var marketPrice: real
    var unrealizedPnL: real
    var realizedPnL: real

    constructor (instrument: Instrument, h: Holding)
      ensures this.instrument == instrument && Row() == h
    {
      this.instrument, venue, assetClass, cycle := instrument, h.venue, h.assetClass, h.cycle;
      quantity, averageCost, marketPrice := h.quantity, h.averageCost, h.marketPrice;
      unrealizedPnL, realizedPnL := h.unrealizedPnL, h.realizedPnL;
    }

    function Row(): Holding
      reads this
    {
      Holding(venue, quantity, averageCost, marketPrice, unrealizedPnL, realizedPnL, assetClass, cycle)
    }

    method UpdateMarketPrice(price: real)
      modifies this
      ensures Row() == Repriced(old(Row()), price)
    {
      marketPrice := price;
      unrealizedPnL := Markup(price, averageCost, quantity);
    }

    method Buy(f: FillEvent)
      modifies this
      ensures Row() == Bought(old(Row()), f)
    {
      var newQuantity := quantity + f.quantity;
      if newQuantity != 0.0 {
        averageCost := Blended(Row(), f.quantity, FillCost(f));
      }
      quantity := newQuantity;
      UpdateMarketPrice(f.price);
    }

    method Sell(f: FillEvent)
      modifies this
      ensures Row() == Sold(old(Row()), f)
    {
      var realized := Markup(f.price, averageCost, f.quantity);
      realizedPnL := realizedPnL + realized;
      quantity := quantity - f.quantity;
      UpdateMarketPrice(f.price);
    }
  }

  function Rows(positions: map<Instrument, Position>): map<Instrument, Holding>
    reads positions.Values
  {
    map i | i in positions :: positions[i].Row()
  }

  class Portfolio {
    var positions: map<Instrument, Position>
    var nav: real
    var cash: real
    var availableCash: real
    var unsettledCash: real

    ghost predicate Valid()
      reads this
    {
      forall i | i in positions :: positions[i].instrument == i
    }

    ghost function View(): Book
      reads this, positions.Values
    {
      Book(Rows(positions), nav, cash, availableCash, unsettledCash)
    }

    constructor (start: real)
      ensures Valid() && View() == Start(start)
    {
      positions, nav, cash, availableCash, unsettledCash := map[], start, start, start, 0.0;
    }

    method ApplyFill(f: FillEvent) returns (ok: bool)
      requires Valid()
      modifies this, positions.Values
      ensures Valid() && fresh(positions.Values - old(positions.Values))
      ensures ok == Accepts(old(View()), f)
      ensures View() == Applied(old(View()), f)
    {
      ghost var b := View();
      if f.side.Sell? && (f.instrument !in positions || f.quantity > positions[f.instrument].quantity) {
        return false;
      }
      UpdatePosition(f);
      assert View() == b.(positions := PositionsAfter(b.positions, f));
      UpdateCash(f);
      assert View() == CashAfter(b, f).(positions := PositionsAfter(b.positions, f));
      RecomputeNav();
      return true;
    }

    method UpdatePosition(f: FillEvent)
      requires Valid() && (f.side.Sell? ==> f.instrument in positions)
      modifies this`positions, positions.Values
      ensures Valid() && fresh(positions.Values - old(positions.Values))
      ensures Rows(positions) == PositionsAfter(old(Rows(positions)), f)
    {
      if f.instrument in positions {
        UpdateHeld(f);
      } else {
        ghost var before := Rows(positions);
        var pos := new Position(f.instrument, Opening(f));
        positions := positions[f.instrument := pos];
        assert Rows(positions) == before[f.instrument := Opening(f)];
      }
    }

    method UpdateHeld(f: FillEvent)
      requires Valid() && f.instrument in positions
      modifies this`positions, positions.Values
      ensures Valid() && positions.Values <= old(positions.Values)
      ensures Rows(positions) == PositionsAfter(old(Rows(positions)), f)
    {
      ghost var before := Rows(positions);
      var pos := positions[f.instrument];
      if f.side.Buy? {
        pos.Buy(f);
      } else {
        pos.Sell(f);
      }
      assert Rows(positions) == before[f.instrument := HoldingAfter(before, f)];
      if pos.quantity == 0.0 {
        positions := positions - {f.instrument};
        assert Rows(positions) == before - {f.instrument};
      }
    }

    method UpdateCash(f: FillEvent)
      modifies this`cash, this`availableCash, this`unsettledCash
      ensures View() == CashAfter(old(View()), f)
    {
      var fillCost := FillCost(f);
      if f.side.Buy? {
        if f.cycle == T0 {
          cash := cash - fillCost;
          availableCash := availableCash - fillCost;
        } else {
          availableCash := availableCash - fillCost;
          unsettledCash := unsettledCash + fillCost;
        }
      } else {
        if f.cycle == T0 {
          cash := cash + fillCost;
          availableCash := availableCash + fillCost;
        } else {
          availableCash := availableCash + fillCost;
          unsettledCash := unsettledCash - fillCost;
          cash := cash + fillCost;
        }
      }
    }

    method RecomputeNav()
      requires Valid()
      modifies this`nav
      ensures View() == old(View()).(nav := NavOf(availableCash, Rows(positions)))
    {
      var positionsValue := PositionsValue();
      nav := availableCash + positionsValue;
    }

    method PositionsValue() returns (sum: real)
      ensures sum == Total(Values(Rows(positions)))
    {
      var left := positions.Keys;
      sum := 0.0;
      ghost var values := Values(Rows(positions));
      ghost var rest := values;
      while left != {}
        invariant rest.Keys == left <= positions.Keys && forall i | i in left :: rest[i] == values[i]
        invariant sum + Total(rest) == Total(values)
        decreases |left|
      {
        var i :| i in left;
        TotalSplit(rest, i);
        var value := Value(positions[i].Row());
        assert rest[i] == value;
        sum := sum + value;
        left, rest := left - {i}, rest - {i};
      }
    }
  }
}
