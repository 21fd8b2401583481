/** Profit and loss of a position against an independent cash-flow account of its trades. */
module PositionPnl {
  import opened Decimals
  import opened Orders
  import opened Positions

  ghost predicate PositiveTrades(ts: seq<Trade>) {
    forall t | t in ts :: 0.0 < t.quantity
  }

  function Replay(p: PositionState, ts: seq<Trade>, g: Grid): PositionState {
    if ts == [] then p
    else AfterTrade(Replay(p, ts[..|ts| - 1], g), ts[|ts| - 1], g)
  }

  // ---------------------------------------------------------------- the account

  function Paid(t: Trade): real {
    Signed(t.side, t.quantity) * t.price
  }

  /** Net cash flow: what sells brought in less what buys cost. */
  function Cash(ts: seq<Trade>): real {
    if ts == [] then 0.0 else Cash(ts[..|ts| - 1]) - Paid(ts[|ts| - 1])
  }

  function NetQuantity(ts: seq<Trade>): real {
    if ts == [] then 0.0 else NetQuantity(ts[..|ts| - 1]) + Signed(ts[|ts| - 1].side, ts[|ts| - 1].quantity)
  }

  function Volume(ts: seq<Trade>): real {
    if ts == [] then 0.0 else Volume(ts[..|ts| - 1]) + ts[|ts| - 1].quantity
  }

  // ---------------------------------------------------------------- one trade

  /** Realized profit less the signed cost basis of what is still held. */
  ghost function Account(p: PositionState): real {
    p.realizedPnL - p.averageCost * p.quantity
  }

  lemma ReduceAccount(p: PositionState, t: Trade, g: Grid)
    requires 0.0 < t.quantity && !Increasing(p.quantity, t.side)
    ensures Account(AfterTrade(p, t, g)) == Account(p) - Paid(t)
  {
    var s := Signed(t.side, t.quantity);
    assert p.averageCost * (p.quantity + s) == p.averageCost * p.quantity + p.averageCost * s;
    assert Gain(p.quantity, p.averageCost, t) == p.averageCost * s - Paid(t) by {
      if p.quantity > 0.0 {
        assert (t.price - p.averageCost) * t.quantity == t.price * t.quantity - p.averageCost * t.quantity;
      } else {
        assert (p.averageCost - t.price) * t.quantity == p.averageCost * t.quantity - t.price * t.quantity;
      }
    }
  }

  lemma IncreaseLong(p: PositionState, t: Trade, g: Grid) returns (residue: real)
    requires 0.0 < t.quantity && 0.0 <= p.quantity && t.side == Buy
    ensures Account(AfterTrade(p, t, g)) == Account(p) - Paid(t) - residue
    ensures Abs(residue) <= g / 2.0 * Abs(AfterTrade(p, t, g).quantity)
  {
    var held := p.quantity + t.quantity;
    var cost := TotalCost(p.averageCost, p.quantity, t.price, t.quantity);
    DivResidue(cost, held, g);
    residue := Div(cost, held, g) * held - cost;
  }

  /** The rounding residue of a short average, on plain numbers. */
  lemma ShortResidue(c: real, held: real, price: real, q: real, g: Grid) returns (residue: real)
    requires held <= 0.0 < q
    ensures var a := Div(TotalCost(c, -held, price, q), -held + q, g);
      -(a * (held - q)) == -(c * held) - (-q) * price - residue
    ensures Abs(residue) <= g / 2.0 * (-held + q)
  {
    var cost := TotalCost(c, -held, price, q);
    var a := Div(cost, -held + q, g);
    residue := cost - a * (-held + q);
    DivResidue(cost, -held + q, g);
    ShortAlgebra(a, c, held, price, q);
  }

  lemma ShortRow(p: PositionState, t: Trade, g: Grid)
    requires 0.0 < t.quantity && p.quantity <= 0.0 && t.side == Sell
    ensures AfterTrade(p, t, g).averageCost
         == Div(TotalCost(p.averageCost, -p.quantity, t.price, t.quantity), -p.quantity + t.quantity, g)
    ensures AfterTrade(p, t, g).quantity == p.quantity - t.quantity && AfterTrade(p, t, g).realizedPnL == p.realizedPnL
  {
    assert Abs(p.quantity) == -p.quantity;
  }

  lemma IncreaseShort(p: PositionState, t: Trade, g: Grid) returns (residue: real)
    requires 0.0 < t.quantity && p.quantity <= 0.0 && t.side == Sell
    ensures Account(AfterTrade(p, t, g)) == Account(p) - Paid(t) - residue
    ensures Abs(residue) <= g / 2.0 * Abs(AfterTrade(p, t, g).quantity)
  {
    residue := ShortResidue(p.averageCost, p.quantity, t.price, t.quantity, g);
    ShortRow(p, t, g);
    ShortAccount(p, t, AfterTrade(p, t, g), residue);
  }

  lemma ShortAccount(p: PositionState, t: Trade, p': PositionState, residue: real)
    requires t.side == Sell && p'.quantity == p.quantity - t.quantity && p'.realizedPnL == p.realizedPnL
    requires -(p'.averageCost * (p.quantity - t.quantity))
          == -(p.averageCost * p.quantity) - (-t.quantity) * t.price - residue
    ensures Account(p') == Account(p) - Paid(t) - residue
  {}

  lemma ShortAlgebra(a: real, c: real, held: real, price: real, q: real)
    ensures -(a * (held - q)) == -(c * held) - (-q) * price - (TotalCost(c, -held, price, q) - a * (-held + q))
  {}

  lemma IncreaseAccount(p: PositionState, t: Trade, g: Grid) returns (residue: real)
    requires 0.0 < t.quantity && Increasing(p.quantity, t.side)
    ensures Account(AfterTrade(p, t, g)) == Account(p) - Paid(t) - residue
    ensures Abs(residue) <= g / 2.0 * Abs(AfterTrade(p, t, g).quantity)
  {
    if t.side == Buy {
      residue := IncreaseLong(p, t, g);
    } else {
      residue := IncreaseShort(p, t, g);
    }
  }

  // ---------------------------------------------------------------- whole histories

  lemma {:induction false} HistoryQuantity(p: PositionState, ts: seq<Trade>, g: Grid)
    requires PositiveTrades(ts)
    ensures Replay(p, ts, g).quantity == p.quantity + NetQuantity(ts)
    ensures 0.0 <= Abs(NetQuantity(ts)) <= Volume(ts)
  {
    if ts != [] {
      assert PositiveTrades(ts[..|ts| - 1]);
      HistoryQuantity(p, ts[..|ts| - 1], g);
    }
  }

  /** Half a grid step for every unit that has changed hands by the time of each trade. */
  function Slack(ts: seq<Trade>, g: Grid): real {
    if ts == [] then 0.0 else Slack(ts[..|ts| - 1], g) + g / 2.0 * Volume(ts)
  }

  /** For every history of positive trades, through shorts, flips and reopenings, realized profit
      less cost basis equals the net cash flow up to the rounding of the average cost. */
  lemma {:induction false} AccountMatchesCash(price: real, ts: seq<Trade>, g: Grid)
    requires PositiveTrades(ts)
    ensures Abs(Account(Replay(Opened(price), ts, g)) - Cash(ts)) <= Slack(ts, g)
  {
    if ts == [] {
      OpenedAccount(price);
    } else {
      var rest, t := ts[..|ts| - 1], ts[|ts| - 1];
      assert PositiveTrades(rest);
      AccountMatchesCash(price, rest, g);
      HistoryQuantity(Opened(price), ts, g);
      OneMoreTrade(Replay(Opened(price), rest, g), rest, t, Volume(ts), g);
      assert ts == rest + [t];
    }
  }

  lemma OpenedAccount(price: real)
    ensures Account(Opened(price)) == 0.0
  {}

  lemma OneMoreTrade(p: PositionState, rest: seq<Trade>, t: Trade, volume: real, g: Grid)
    requires 0.0 < t.quantity && Abs(AfterTrade(p, t, g).quantity) <= volume == Volume(rest + [t])
    requires Abs(Account(p) - Cash(rest)) <= Slack(rest, g)
    ensures Abs(Account(AfterTrade(p, t, g)) - Cash(rest + [t])) <= Slack(rest + [t], g)
  {
    SumsAfter(rest, t, g);
    DeviationStep(p, t, volume, Cash(rest), Slack(rest, g), g);
  }

  lemma SumsAfter(rest: seq<Trade>, t: Trade, g: Grid)
    ensures Cash(rest + [t]) == Cash(rest) - Paid(t)
    ensures Slack(rest + [t], g) == Slack(rest, g) + g / 2.0 * Volume(rest + [t])
  {
    assert (rest + [t])[..|rest|] == rest;
  }

  lemma DeviationStep(p: PositionState, t: Trade, volume: real, cash: real, slack: real, g: Grid)
    requires 0.0 < t.quantity && Abs(AfterTrade(p, t, g).quantity) <= volume
    requires Abs(Account(p) - cash) <= slack
    ensures Abs(Account(AfterTrade(p, t, g)) - (cash - Paid(t))) <= slack + g / 2.0 * volume
  {
    var residue := AccountStep(p, t, volume, g);
  }

  /** The slack is at most half a step per trade and unit of volume; none with exact division. */
  lemma {:induction false} SlackBound(ts: seq<Trade>, g: Grid)
    requires PositiveTrades(ts)
    ensures 0.0 <= Slack(ts, g) <= |ts| as real * (g / 2.0 * Volume(ts))
    ensures 0.0 <= Volume(ts)
  {
    if ts != [] {
      var rest := ts[..|ts| - 1];
      assert PositiveTrades(rest);
      SlackBound(rest, g);
      assert ts[|ts| - 1] in ts;
      GrowBound(|rest|, g / 2.0, Volume(rest), Volume(ts));
    }
  }

  lemma GrowBound(n: nat, h: real, v: real, w: real)
    requires 0.0 <= h && 0.0 <= v <= w
    ensures 0.0 <= h * w
    ensures n as real * (h * v) + h * w <= (n + 1) as real * (h * w)
  {
    Scale(v, w, h);
    Scale(h * v, h * w, n as real);
    assert (n + 1) as real * (h * w) == n as real * (h * w) + h * w;
  }

  lemma TradeAccount(p: PositionState, t: Trade, g: Grid) returns (residue: real)
    requires 0.0 < t.quantity
    ensures Account(AfterTrade(p, t, g)) == Account(p) - Paid(t) - residue
    ensures Abs(residue) <= g / 2.0 * Abs(AfterTrade(p, t, g).quantity)
  {
    if Increasing(p.quantity, t.side) {
      residue := IncreaseAccount(p, t, g);
    } else {
      ReduceAccount(p, t, g);
      residue := 0.0;
      Scale(0.0, Abs(AfterTrade(p, t, g).quantity), g / 2.0);
    }
  }

  lemma WithinVolume(residue: real, h: real, q: real, volume: real)
    requires 0.0 <= h && q <= volume && Abs(residue) <= h * q
    ensures Abs(residue) <= h * volume
  {
    Scale(q, volume, h);
  }

  lemma AccountStep(p: PositionState, t: Trade, volume: real, g: Grid) returns (residue: real)
    requires 0.0 < t.quantity && Abs(AfterTrade(p, t, g).quantity) <= volume
    ensures Account(AfterTrade(p, t, g)) == Account(p) - Paid(t) - residue
    ensures Abs(residue) <= g / 2.0 * volume
  {
    residue := TradeAccount(p, t, g);
    WithinVolume(residue, g / 2.0, Abs(AfterTrade(p, t, g).quantity), volume);
  }

  /** Realized plus unrealized profit when the position is marked at a price. */
  ghost function Profit(p: PositionState, mark: real): real {
    Marked(p, mark).realizedPnL + Marked(p, mark).unrealizedPnL
  }

  function Worth(cash: real, mark: real, quantity: real): real {
    cash + mark * quantity
  }

  /** With exact division, profit at any mark is the cash flow plus the marked value of the holding. */
  lemma {:induction false} ProfitIsCashPlusValue(price: real, ts: seq<Trade>, mark: real)
    requires PositiveTrades(ts)
    ensures Profit(Replay(Opened(price), ts, 0.0), mark) == Worth(Cash(ts), mark, NetQuantity(ts))
  {
    HistoryQuantity(Opened(price), ts, 0.0);
    AccountIsCash(price, ts);
    ProfitOfAccount(Replay(Opened(price), ts, 0.0), mark, Cash(ts), NetQuantity(ts));
  }

  /** With exact division the two accounts are equal. */
  lemma {:induction false} AccountIsCash(price: real, ts: seq<Trade>)
    requires PositiveTrades(ts)
    ensures Account(Replay(Opened(price), ts, 0.0)) == Cash(ts)
  {
    AccountMatchesCash(price, ts, 0.0);
    ZeroSlack(ts);
  }

  lemma ProfitOfAccount(p: PositionState, mark: real, cash: real, net: real)
    requires Account(p) == cash && p.quantity == net
    ensures Profit(p, mark) == Worth(cash, mark, net)
  {}

  lemma {:induction false} ZeroSlack(ts: seq<Trade>)
    ensures Slack(ts, 0.0) == 0.0
  {
    if ts != [] {
      ZeroSlack(ts[..|ts| - 1]);
    }
  }

  /** Taking out any one trade leaves the sums of the others. */
  lemma {:induction false} SumsWithout(ts: seq<Trade>, i: nat)
    requires i < |ts|
    ensures Cash(ts) == Cash(ts[..i] + ts[i + 1..]) - Paid(ts[i])
    ensures NetQuantity(ts) == NetQuantity(ts[..i] + ts[i + 1..]) + Signed(ts[i].side, ts[i].quantity)
  {
    var n := |ts| - 1;
    var without := ts[..i] + ts[i + 1..];
    if i == n {
      assert without == ts[..n];
    } else {
      SumsWithout(ts[..n], i);
      assert without[..n - 1] == ts[..n][..i] + ts[..n][i + 1..];
      assert without[n - 1] == ts[n];
      assert ts[..n][i] == ts[i];
    }
  }

  lemma {:induction false} SumsIgnoreOrder(ts: seq<Trade>, us: seq<Trade>)
    requires multiset(ts) == multiset(us)
    ensures Cash(ts) == Cash(us) && NetQuantity(ts) == NetQuantity(us)
  {
    if ts == [] {
      assert |multiset(us)| == 0;
    } else {
      var n := |ts| - 1;
      assert ts == ts[..n] + [ts[n]];
      assert ts[n] in multiset(us);
      var i :| 0 <= i < |us| && us[i] == ts[n];
      MultisetWithout(us, i);
      assert multiset(ts[..n]) == multiset(ts) - multiset{ts[n]};
      SumsIgnoreOrder(ts[..n], us[..i] + us[i + 1..]);
      SumsWithout(us, i);
    }
  }

  lemma MultisetWithout<T>(us: seq<T>, i: nat)
    requires i < |us|
    ensures multiset(us[..i] + us[i + 1..]) == multiset(us) - multiset{us[i]}
  {
    assert us == us[..i] + [us[i]] + us[i + 1..];
  }

  /** Profit does not depend on the order of the fills. */
  lemma {:induction false} ProfitIgnoresOrder(price: real, ts: seq<Trade>, us: seq<Trade>, mark: real)
    requires PositiveTrades(ts) && multiset(ts) == multiset(us)
    ensures Profit(Replay(Opened(price), ts, 0.0), mark) == Profit(Replay(Opened(price), us, 0.0), mark)
    ensures Replay(Opened(price), ts, 0.0).quantity == Replay(Opened(price), us, 0.0).quantity
  {
    forall u | u in us ensures 0.0 < u.quantity {
      assert u in multiset(us);
    }
    SumsIgnoreOrder(ts, us);
    ProfitIsCashPlusValue(price, ts, mark);
    ProfitIsCashPlusValue(price, us, mark);
    HistoryQuantity(Opened(price), ts, 0.0);
    HistoryQuantity(Opened(price), us, 0.0);
  }
}
