/** The position entity of gateway/internal/domain/position.go: a signed holding that may be built,
    reduced, flipped through zero and reopened. */
module Positions {
  import opened Decimals
  import opened Orders

  /** A stored position row; rows are keyed by instrument and venue. */
  datatype PositionState = PositionState(
    quantity: real, averageCost: real, marketPrice: real,
    unrealizedPnL: real, realizedPnL: real, unsettledQuantity: real)

  datatype Trade = Trade(side: Side, quantity: real, price: real)

  /** A position the pipeline opens for its first fill. */
  function Opened(price: real): PositionState {
    PositionState(0.0, 0.0, price, 0.0, 0.0, 0.0)
  }

  predicate Increasing(held: real, side: Side) {
    held == 0.0 || (held > 0.0 && side == Buy) || (held < 0.0 && side == Sell)
  }

  function Gain(held: real, averageCost: real, t: Trade): real {
    if held > 0.0 then Markup(t.price, averageCost, t.quantity)
    else Markup(averageCost, t.price, t.quantity)
  }

  function AfterTrade(p: PositionState, t: Trade, g: Grid): PositionState {
    if t.quantity <= 0.0 then p
    else
      var quantity := p.quantity + Signed(t.side, t.quantity);
      var unsettled := p.unsettledQuantity + t.quantity;
      if Increasing(p.quantity, t.side) then
        var held := Abs(p.quantity);
        var cost := Div(TotalCost(p.averageCost, held, t.price, t.quantity), held + t.quantity, g);
        p.(quantity := quantity, averageCost := cost, unsettledQuantity := unsettled)
      else
        p.(quantity := quantity, unsettledQuantity := unsettled,
           realizedPnL := p.realizedPnL + Gain(p.quantity, p.averageCost, t))
  }

  function Marked(p: PositionState, price: real): PositionState {
    p.(marketPrice := price, unrealizedPnL := Markup(price, p.averageCost, p.quantity))
  }

  class Position {
    var quantity: real
    var averageCost: real
    var marketPrice: real
    var unrealizedPnL: real
    var realizedPnL: real
    var unsettledQuantity: real

    constructor (row: PositionState)
      ensures Row() == row
    {
      quantity, averageCost, marketPrice := row.quantity, row.averageCost, row.marketPrice;
      unrealizedPnL, realizedPnL := row.unrealizedPnL, row.realizedPnL;
      unsettledQuantity := row.unsettledQuantity;
    }

    function Row(): PositionState
      reads this
    {
      PositionState(quantity, averageCost, marketPrice, unrealizedPnL, realizedPnL, unsettledQuantity)
    }

    method ApplyFill(t: Trade, g: Grid) returns (ok: bool)
      modifies this
      ensures ok == (0.0 < t.quantity)
      ensures Row() == AfterTrade(old(Row()), t, g)
    {
      if t.quantity <= 0.0 {
        return false;
      }
      var signedQty := t.quantity;
      if t.side == Sell {
        signedQty := -signedQty;
      }
      var isIncreasing := quantity == 0.0 || (quantity > 0.0 && t.side == Buy) || (quantity < 0.0 && t.side == Sell);
      if isIncreasing {
        var absOld := Abs(quantity);
        var totalCost := TotalCost(averageCost, absOld, t.price, t.quantity);
        averageCost := Div(totalCost, absOld + t.quantity, g);
        quantity := quantity + signedQty;
      } else {
        if quantity > 0.0 {
          realizedPnL := realizedPnL + Markup(t.price, averageCost, t.quantity);
        } else {
          realizedPnL := realizedPnL + Markup(averageCost, t.price, t.quantity);
        }
        quantity := quantity + signedQty;
      }
      unsettledQuantity := unsettledQuantity + t.quantity;
      return true;
    }

    method UpdateMarketPrice(price: real)
      modifies this
      ensures Row() == Marked(old(Row()), price)
    {
      marketPrice := price;
      unrealizedPnL := Markup(price, averageCost, quantity);
    }
  }
}
