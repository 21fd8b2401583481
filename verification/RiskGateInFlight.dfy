/** The pre-trade gate over whole runs in which approval and fill are separate events: while approved orders
    are on their way, further orders are checked against the same book. */
module RiskGateInFlight {
  import opened Routing
  import opened Decimals
  import opened Portfolio
  import opened PortfolioLedger
  import opened RiskGate
  import opened RiskGateSafety
  import Orders

  /** An order on its way: what is left of it, and for a buy the highest price it may be filled at. That is the
      limit price of a limit order; any other order fills at the venue's price, so it may be any price. */
  datatype InFlight = InFlight(request: Request, price: real, left: real)

  datatype Desk = Desk(book: Book, pending: seq<InFlight>)

  datatype Rules = Rules(limits: Limits, varOf: VarEngine, returnsLoaded: bool)

  /** An order is checked; an order goes on without an answer of the gate, because the call failed and the
      gateway fails open, or because it is a child order; a part of an order on its way is filled; or what is
      left of it is withdrawn. */
  datatype Action =
    | CheckOrder(request: Request, kind: Orders.OrderType, price: real, late: Late)
    | PassUnchecked(request: Request, kind: Orders.OrderType, price: real)
    | Fill(order: nat, quantity: real, price: real, venue: string, cycle: Cycle)
    | Withdraw(order: nat)

  ghost predicate ApprovedAt(b: Book, r: Request, rules: Rules, late: Late) {
    ApprovedWhen(b, r, rules.limits, rules.varOf, rules.returnsLoaded, late)
  }

  /** The worst price an order may get. */
  predicate WorstPrice(r: Request, kind: Orders.OrderType, price: real) {
    0.0 < price && (kind.Limit? ==> price == r.price)
  }

  ghost predicate Enabled(d: Desk, a: Action) {
    match a
    case CheckOrder(r, kind, price, _) => 0.0 < r.quantity && WorstPrice(r, kind, price)
    case PassUnchecked(r, kind, price) => 0.0 < r.quantity && WorstPrice(r, kind, price)
    case Fill(k, quantity, price, _, _) =>
      && k < |d.pending| && 0.0 < quantity <= d.pending[k].left && 0.0 < price
      && (d.pending[k].request.side.Buy? ==> price <= d.pending[k].price)
    case Withdraw(k) => k < |d.pending|
  }

  function FillOf(o: InFlight, quantity: real, price: real, venue: string, cycle: Cycle): FillEvent {
    FillEvent(o.request.instrument, venue, o.request.side, quantity, price, o.request.assetClass, cycle)
  }

  function Less(o: InFlight, quantity: real): InFlight {
    o.(left := o.left - quantity)
  }

  function OnItsWay(d: Desk, r: Request, price: real): Desk {
    d.(pending := d.pending + [InFlight(r, price, r.quantity)])
  }

  ghost function Do(d: Desk, a: Action, rules: Rules): Desk
    requires Enabled(d, a)
  {
    match a
    case CheckOrder(r, _, price, late) => if ApprovedAt(d.book, r, rules, late) then OnItsWay(d, r, price) else d
    case PassUnchecked(r, _, price) => OnItsWay(d, r, price)
    case Fill(k, quantity, price, venue, cycle) =>
      Desk(Applied(d.book, FillOf(d.pending[k], quantity, price, venue, cycle)),
           d.pending[k := Less(d.pending[k], quantity)])
    case Withdraw(k) => d.(pending := d.pending[k := Less(d.pending[k], d.pending[k].left)])
  }

  /** Actions that are not enabled do not happen. */
  ghost function After(d: Desk, actions: seq<Action>, rules: Rules): Desk {
    if actions == [] then d
    else
      var e, a := After(d, actions[..|actions| - 1], rules), actions[|actions| - 1];
      if Enabled(e, a) then Do(e, a, rules) else e
  }

  lemma AfterSnoc(d: Desk, actions: seq<Action>, a: Action, rules: Rules)
    ensures var e := After(d, actions, rules);
      After(d, actions + [a], rules) == if Enabled(e, a) then Do(e, a, rules) else e
  {
    assert (actions + [a])[..|actions|] == actions;
  }

  ghost predicate OnlyFills(actions: seq<Action>) {
    forall a | a in actions :: a.Fill?
  }

  /** Fills at the price the order was checked at. */
  ghost predicate AtPrices(ps: seq<InFlight>, actions: seq<Action>) {
    forall a | a in actions :: a.Fill? && (a.order < |ps| ==> a.price == ps[a.order].price)
  }

  // ---------------------------------------------------------------- what is pending

  /** What the rest of a buy costs at worst; a sell costs nothing. */
  function Cost(o: InFlight): real {
    if o.request.side.Buy? then o.left * o.price else 0.0
  }

  function PendingCost(ps: seq<InFlight>): real {
    if ps == [] then 0.0 else PendingCost(ps[..|ps| - 1]) + Cost(ps[|ps| - 1])
  }

  function CostIn(o: InFlight, i: Instrument): real {
    if o.request.instrument == i then Cost(o) else 0.0
  }

  function PendingCostIn(ps: seq<InFlight>, i: Instrument): real {
    if ps == [] then 0.0 else PendingCostIn(ps[..|ps| - 1], i) + CostIn(ps[|ps| - 1], i)
  }

  ghost predicate Fine(o: InFlight) {
    0.0 <= o.left && 0.0 < o.price
  }

  ghost predicate Sound(ps: seq<InFlight>) {
    forall k | 0 <= k < |ps| :: Fine(ps[k])
  }

  lemma CostFine(o: InFlight)
    requires Fine(o)
    ensures 0.0 <= Cost(o)
  {
    Scale(0.0, o.left, o.price);
  }

  lemma {:induction false} CostsFine(ps: seq<InFlight>, i: Instrument)
    requires Sound(ps)
    ensures 0.0 <= PendingCost(ps) && 0.0 <= PendingCostIn(ps, i)
  {
    if ps != [] {
      CostsFine(ps[..|ps| - 1], i);
      CostFine(ps[|ps| - 1]);
    }
  }

  lemma {:induction false} CostsUpdate(ps: seq<InFlight>, k: nat, o: InFlight, i: Instrument)
    requires k < |ps|
    ensures PendingCost(ps[k := o]) == PendingCost(ps) - Cost(ps[k]) + Cost(o)
    ensures PendingCostIn(ps[k := o], i) == PendingCostIn(ps, i) - CostIn(ps[k], i) + CostIn(o, i)
  {
    var n := |ps| - 1;
    if k == n {
      assert ps[k := o][..n] == ps[..n];
    } else {
      assert ps[k := o][..n] == ps[..n][k := o];
      CostsUpdate(ps[..n], k, o, i);
    }
  }

  lemma CostsSnoc(ps: seq<InFlight>, o: InFlight, i: Instrument)
    ensures PendingCost(ps + [o]) == PendingCost(ps) + Cost(o)
    ensures PendingCostIn(ps + [o], i) == PendingCostIn(ps, i) + CostIn(o, i)
  {
    assert (ps + [o])[..|ps|] == ps;
  }

  function Lump(quantity: real, price: real): real {
    quantity * price
  }

  lemma CostLess(o: InFlight, quantity: real)
    ensures Cost(Less(o, quantity)) == Cost(o) - if o.request.side.Buy? then Lump(quantity, o.price) else 0.0
  {
    assert (o.left - quantity) * o.price == o.left * o.price - quantity * o.price;
  }

  lemma LumpOrder(quantity: real, price: real, worst: real)
    requires 0.0 < quantity && 0.0 < price
    ensures 0.0 < Lump(quantity, price)
    ensures price <= worst ==> Lump(quantity, price) <= Lump(quantity, worst)
  {
    StrictScale(0.0, quantity, price);
    if price <= worst {
      Scale(price, worst, quantity);
    }
  }

  // ---------------------------------------------------------------- cash

  ghost predicate Covered(d: Desk) {
    PendingCost(d.pending) <= d.book.availableCash
  }

  /** Whatever is filled of the pending orders, in whatever order and parts, cash stays non-negative. */
  ghost predicate CashSafe(d: Desk, rules: Rules) {
    forall fs | OnlyFills(fs) :: 0.0 <= After(d, fs, rules).book.availableCash
  }

  lemma AppliedCash(b: Book, f: FillEvent)
    ensures Applied(b, f).availableCash == if Accepts(b, f) then b.availableCash - Spent(f) else b.availableCash
  {}

  /** A fill spends no more than it takes off the pending cost. */
  lemma FillKeepsCover(d: Desk, a: Action, rules: Rules)
    requires a.Fill? && Enabled(d, a) && Sound(d.pending)
    ensures var e := Do(d, a, rules);
      && Sound(e.pending)
      && d.book.availableCash - PendingCost(d.pending) <= e.book.availableCash - PendingCost(e.pending)
  {
    var o := d.pending[a.order];
    var f := FillOf(o, a.quantity, a.price, a.venue, a.cycle);
    AppliedCash(d.book, f);
    CostsUpdate(d.pending, a.order, Less(o, a.quantity), "");
    CostLess(o, a.quantity);
    LumpOrder(a.quantity, a.price, o.price);
    assert FillCost(f) == Lump(a.quantity, a.price);
  }

  lemma {:induction false} FillsKeepCover(d: Desk, fs: seq<Action>, rules: Rules)
    requires Sound(d.pending) && OnlyFills(fs)
    ensures var e := After(d, fs, rules);
      && Sound(e.pending)
      && d.book.availableCash - PendingCost(d.pending) <= e.book.availableCash - PendingCost(e.pending)
  {
    if fs != [] {
      var n := |fs| - 1;
      FillsKeepCover(d, fs[..n], rules);
      assert fs[n] in fs;
      if Enabled(After(d, fs[..n], rules), fs[n]) {
        FillKeepsCover(After(d, fs[..n], rules), fs[n], rules);
      }
    }
  }

  /** Every pending buy, filled at once and at its worst price. */
  function FillOne(ps: seq<InFlight>, k: nat): seq<Action>
    requires k < |ps|
  {
    if ps[k].request.side.Buy? && 0.0 < ps[k].left then [Fill(k, ps[k].left, ps[k].price, "", T0)] else []
  }

  function FillAll(ps: seq<InFlight>, n: nat): seq<Action>
    requires n <= |ps|
  {
    if n == 0 then [] else FillAll(ps, n - 1) + FillOne(ps, n - 1)
  }

  lemma AfterOne(d: Desk, a: Action, rules: Rules)
    ensures After(d, [a], rules) == if Enabled(d, a) then Do(d, a, rules) else d
  {
    AfterSnoc(d, [], a, rules);
    assert [] + [a] == [a];
  }

  lemma NothingLeft(o: InFlight)
    requires Fine(o) && o.left <= 0.0
    ensures Cost(o) == 0.0
  {}

  /** What filling one pending buy completely does. */
  lemma FillOneDoes(d: Desk, ps: seq<InFlight>, k: nat, rules: Rules)
    requires k < |ps| == |d.pending| && d.pending[k] == ps[k] && Sound(ps)
    ensures OnlyFills(FillOne(ps, k)) && AtPrices(ps, FillOne(ps, k))
    ensures var e := After(d, FillOne(ps, k), rules);
      && e.book.availableCash == d.book.availableCash - Cost(ps[k])
      && |e.pending| == |ps| && (forall j | k < j < |ps| :: e.pending[j] == d.pending[j])
  {
    if FillOne(ps, k) != [] {
      var a := Fill(k, ps[k].left, ps[k].price, "", T0);
      AfterOne(d, a, rules);
      AppliedCash(d.book, FillOf(ps[k], ps[k].left, ps[k].price, "", T0));
    } else if ps[k].request.side.Buy? {
      NothingLeft(ps[k]);
    }
  }

  lemma {:induction false} AfterConcat(d: Desk, xs: seq<Action>, ys: seq<Action>, rules: Rules)
    ensures After(d, xs + ys, rules) == After(After(d, xs, rules), ys, rules)
  {
    if ys == [] {
      assert xs + ys == xs;
    } else {
      var n := |ys| - 1;
      AfterConcat(d, xs, ys[..n], rules);
      AfterSnoc(d, xs + ys[..n], ys[n], rules);
      assert xs + ys == xs + ys[..n] + [ys[n]];
    }
  }

  lemma FillAllStep(d: Desk, ps: seq<InFlight>, n: nat, rules: Rules)
    requires 0 < n <= |ps|
    ensures After(d, FillAll(ps, n), rules) == After(After(d, FillAll(ps, n - 1), rules), FillOne(ps, n - 1), rules)
  {
    AfterConcat(d, FillAll(ps, n - 1), FillOne(ps, n - 1), rules);
  }

  lemma {:induction false} FillAllOnlyFills(ps: seq<InFlight>, n: nat)
    requires n <= |ps|
    ensures OnlyFills(FillAll(ps, n)) && AtPrices(ps, FillAll(ps, n))
  {
    if n != 0 {
      FillAllOnlyFills(ps, n - 1);
    }
  }

  lemma PendingPrefix(ps: seq<InFlight>, n: nat)
    requires 0 < n <= |ps|
    ensures PendingCost(ps[..n]) == PendingCost(ps[..n - 1]) + Cost(ps[n - 1])
  {
    assert ps[..n][..n - 1] == ps[..n - 1];
  }

  /** The first pending orders have been filled, and the others are as they were. */
  ghost predicate FilledUpTo(d: Desk, e: Desk, n: nat) {
    && n <= |d.pending| == |e.pending|
    && e.book.availableCash == d.book.availableCash - PendingCost(d.pending[..n])
    && forall j | n <= j < |d.pending| :: e.pending[j] == d.pending[j]
  }

  lemma FillNext(d: Desk, e: Desk, n: nat, rules: Rules)
    requires Sound(d.pending) && 0 < n <= |d.pending| && FilledUpTo(d, e, n - 1)
    ensures FilledUpTo(d, After(e, FillOne(d.pending, n - 1), rules), n)
  {
    FillOneDoes(e, d.pending, n - 1, rules);
    PendingPrefix(d.pending, n);
  }

  lemma {:induction false} FillAllSpends(d: Desk, n: nat, rules: Rules)
    requires Sound(d.pending) && n <= |d.pending|
    ensures FilledUpTo(d, After(d, FillAll(d.pending, n), rules), n)
  {
    if n == 0 {
      assert d.pending[..0] == [];
    } else {
      var e := After(d, FillAll(d.pending, n - 1), rules);
      assert FilledUpTo(d, After(e, FillOne(d.pending, n - 1), rules), n) by {
        FillAllSpends(d, n - 1, rules);
        FillNext(d, e, n, rules);
      }
      FillAllStep(d, d.pending, n, rules);
    }
  }

  /** Cash is safe from every way of filling the pending orders exactly when their cost fits in it. */
  lemma CashIsSafeExactlyWhenCovered(d: Desk, rules: Rules)
    requires Sound(d.pending)
    ensures CashSafe(d, rules) <==> Covered(d)
  {
    var n := |d.pending|;
    if Covered(d) {
      forall fs | OnlyFills(fs) ensures 0.0 <= After(d, fs, rules).book.availableCash {
        FillsKeepCover(d, fs, rules);
        CostsFine(After(d, fs, rules).pending, "");
      }
    }
    FillAllOnlyFills(d.pending, n);
    FillAllSpends(d, n, rules);
    assert d.pending[..n] == d.pending;
  }

  // ---------------------------------------------------------------- shares

  ghost predicate BookAtMark(b: Book, mark: Instrument -> real) {
    && b.nav == NavOf(b.availableCash, b.positions) && Healthy(b.positions)
    && (forall i | i in b.positions :: b.positions[i].marketPrice == mark(i))
  }

  ghost predicate PricedAt(ps: seq<InFlight>, mark: Instrument -> real) {
    forall k | 0 <= k < |ps| :: ps[k].price == mark(ps[k].request.instrument)
  }

  ghost predicate Positive(mark: Instrument -> real) {
    forall i :: 0.0 < mark(i)
  }

  /** The book is marked, and every pending order will fill, at one price per instrument. */
  ghost predicate AtMark(d: Desk, mark: Instrument -> real) {
    BookAtMark(d.book, mark) && PricedAt(d.pending, mark) && Positive(mark)
  }

  ghost predicate WithinShare(b: Book, limit: real) {
    forall i | i in b.positions :: Value(b.positions[i]) <= Part(limit, b.nav)
  }

  /** Whatever is filled of the pending orders at their prices, no position exceeds its share. */
  ghost predicate SharesSafe(d: Desk, rules: Rules) {
    forall fs | AtPrices(d.pending, fs) :: WithinShare(After(d, fs, rules).book, rules.limits.maxConcentration)
  }

  /** What an instrument is worth now and may still cost. */
  function Exposure(d: Desk, i: Instrument): real {
    ExistingValue(d.book.positions, i) + PendingCostIn(d.pending, i)
  }

  predicate Exposed(d: Desk, i: Instrument) {
    i in d.book.positions || 0.0 < PendingCostIn(d.pending, i)
  }

  ghost predicate ShareCovered(d: Desk, limit: real) {
    forall i | Exposed(d, i) :: Exposure(d, i) <= Part(limit, d.book.nav)
  }

  lemma ValueAtMark(h: Holding)
    requires 0.0 < h.quantity && 0.0 < h.marketPrice
    ensures 0.0 < Value(h)
  {
    StrictScale(0.0, h.quantity, h.marketPrice);
  }

  lemma BookStaysAtMark(b: Book, f: FillEvent, mark: Instrument -> real)
    requires BookAtMark(b, mark) && 0.0 < f.quantity && f.price == mark(f.instrument)
    ensures BookAtMark(Applied(b, f), mark) && Applied(b, f).nav == b.nav
  {
    if Accepts(b, f) {
      NavAfterFill(b, f);
      StaysHealthy(b, f);
      assert Revaluation(b.positions, f) == 0.0;
    }
  }

  lemma ValueFillAtMark(positions: map<Instrument, Holding>, f: FillEvent)
    requires f.side.Sell? ==> f.instrument in positions
    requires f.instrument in positions ==> positions[f.instrument].marketPrice == f.price
    ensures ExistingValue(PositionsAfter(positions, f), f.instrument)
         == ExistingValue(positions, f.instrument) + Spent(f)
  {
    ValueAfter(positions, f);
    assert Revaluation(positions, f) == 0.0;
    if HoldingAfter(positions, f).quantity == 0.0 {
      assert Value(HoldingAfter(positions, f)) == 0.0;
    }
  }

  /** A fill at the mark moves the value of its instrument by what is spent, and net asset value not at all. */
  lemma BookFillAtMark(b: Book, f: FillEvent, mark: Instrument -> real, i: Instrument)
    requires BookAtMark(b, mark) && 0.0 < f.quantity && f.price == mark(f.instrument)
    ensures var c := Applied(b, f);
      && BookAtMark(c, mark) && c.nav == b.nav
      && ExistingValue(c.positions, i)
         == ExistingValue(b.positions, i) + (if i == f.instrument && Accepts(b, f) then Spent(f) else 0.0)
      && (i in c.positions ==> i in b.positions || (i == f.instrument && f.side.Buy?))
  {
    BookStaysAtMark(b, f, mark);
    if Accepts(b, f) {
      ValueFillAtMark(b.positions, f);
    }
  }

  ghost predicate SamePrices(ps: seq<InFlight>, qs: seq<InFlight>) {
    |ps| == |qs| && forall k | 0 <= k < |ps| :: ps[k].price == qs[k].price && ps[k].request == qs[k].request
  }

  /** The pending side of a fill at an order's own price. */
  lemma PendingFillAtMark(ps: seq<InFlight>, a: Action, i: Instrument)
    requires Sound(ps) && a.Fill? && a.order < |ps| && 0.0 < a.quantity <= ps[a.order].left
    requires a.price == ps[a.order].price
    ensures var o := ps[a.order];
      var qs := ps[a.order := Less(o, a.quantity)];
      var f := FillOf(o, a.quantity, a.price, a.venue, a.cycle);
      && Sound(qs) && SamePrices(qs, ps)
      && PendingCostIn(qs, i) == PendingCostIn(ps, i) - (if i == f.instrument && f.side.Buy? then Spent(f) else 0.0)
      && (if f.side.Sell? then Spent(f) <= 0.0 else 0.0 <= Spent(f))
      && (i == f.instrument && f.side.Buy? ==> 0.0 < PendingCostIn(ps, i))
  {
    var o := ps[a.order];
    CostsUpdate(ps, a.order, Less(o, a.quantity), i);
    CostLess(o, a.quantity);
    CostsFine(ps[a.order := Less(o, a.quantity)], i);
    LumpOrder(a.quantity, a.price, a.price);
  }

  lemma SamePricesMarked(ps: seq<InFlight>, qs: seq<InFlight>, mark: Instrument -> real)
    requires SamePrices(ps, qs) && PricedAt(qs, mark)
    ensures PricedAt(ps, mark)
  {}

  lemma BuysAreAccepted(b: Book, f: FillEvent)
    requires f.side.Buy?
    ensures Accepts(b, f)
  {}

  lemma FillAtMark(d: Desk, a: Action, rules: Rules, mark: Instrument -> real, i: Instrument)
    requires AtMark(d, mark) && Sound(d.pending) && a.Fill? && Enabled(d, a) && a.price == d.pending[a.order].price
    ensures var e := Do(d, a, rules);
      && AtMark(e, mark) && Sound(e.pending) && SamePrices(e.pending, d.pending) && e.book.nav == d.book.nav
      && Exposure(e, i) <= Exposure(d, i)
      && PendingCostIn(e.pending, i) <= PendingCostIn(d.pending, i)
      && (Exposed(e, i) ==> Exposed(d, i))
  {
    var o := d.pending[a.order];
    var f := FillOf(o, a.quantity, a.price, a.venue, a.cycle);
    var qs := d.pending[a.order := Less(o, a.quantity)];
    BookFillAtMark(d.book, f, mark, i);
    PendingFillAtMark(d.pending, a, i);
    SamePricesMarked(qs, d.pending, mark);
    MovesFit(d, f, qs, i);
  }

  /** The arithmetic of one fill: what the book gains in exposure, the pending orders lose. */
  lemma MovesFit(d: Desk, f: FillEvent, qs: seq<InFlight>, i: Instrument)
    requires ExistingValue(Applied(d.book, f).positions, i)
          == ExistingValue(d.book.positions, i) + (if i == f.instrument && Accepts(d.book, f) then Spent(f) else 0.0)
    requires PendingCostIn(qs, i)
         == PendingCostIn(d.pending, i) - (if i == f.instrument && f.side.Buy? then Spent(f) else 0.0)
    requires if f.side.Sell? then Spent(f) <= 0.0 else 0.0 <= Spent(f)
    ensures Exposure(Desk(Applied(d.book, f), qs), i) <= Exposure(d, i)
    ensures PendingCostIn(qs, i) <= PendingCostIn(d.pending, i)
  {
    if f.side.Buy? {
      BuysAreAccepted(d.book, f);
    }
  }

  lemma {:induction false} FillsAtMark(d: Desk, fs: seq<Action>, rules: Rules, mark: Instrument -> real, i: Instrument)
    requires AtMark(d, mark) && Sound(d.pending) && AtPrices(d.pending, fs)
    ensures var e := After(d, fs, rules);
      && AtMark(e, mark) && Sound(e.pending) && SamePrices(e.pending, d.pending) && e.book.nav == d.book.nav
      && Exposure(e, i) <= Exposure(d, i) && (Exposed(e, i) ==> Exposed(d, i))
  {
    if fs != [] {
      var n := |fs| - 1;
      FillsAtMark(d, fs[..n], rules, mark, i);
      assert fs[n] in fs;
      var e := After(d, fs[..n], rules);
      if Enabled(e, fs[n]) {
        FillAtMark(e, fs[n], rules, mark, i);
      }
    }
  }

  lemma FillAllReaches(d: Desk, n: nat, rules: Rules, mark: Instrument -> real)
    requires AtMark(d, mark) && Sound(d.pending) && n < |d.pending|
    ensures var e := After(d, FillAll(d.pending, n), rules);
      BookAtMark(e.book, mark) && |e.pending| == |d.pending| && e.pending[n] == d.pending[n]
  {
    FillAllOnlyFills(d.pending, n);
    FillAllSpends(d, n, rules);
    FillsAtMark(d, FillAll(d.pending, n), rules, mark, "");
  }

  lemma {:induction false} FillAllAtMark(d: Desk, n: nat, rules: Rules, mark: Instrument -> real, i: Instrument)
    requires AtMark(d, mark) && Sound(d.pending) && n <= |d.pending|
    ensures var e := After(d, FillAll(d.pending, n), rules);
      ExistingValue(e.book.positions, i) == ExistingValue(d.book.positions, i) + PendingCostIn(d.pending[..n], i)
  {
    if n != 0 {
      FillAllAtMark(d, n - 1, rules, mark, i);
      FillAllReaches(d, n - 1, rules, mark);
      FillOneAtMark(After(d, FillAll(d.pending, n - 1), rules), d.pending, n - 1, rules, mark, i);
      FillAllStep(d, d.pending, n, rules);
      PendingStep(d.pending, n, i);
    }
  }

  lemma PendingStep(ps: seq<InFlight>, n: nat, i: Instrument)
    requires 0 < n <= |ps|
    ensures PendingCostIn(ps[..n], i) == PendingCostIn(ps[..n - 1], i) + CostIn(ps[n - 1], i)
  {
    assert ps[..n][..n - 1] == ps[..n - 1];
  }

  lemma WholeCost(o: InFlight)
    requires o.request.side.Buy?
    ensures Spent(FillOf(o, o.left, o.price, "", T0)) == Cost(o)
  {}

  /** A buy filled completely at its price. */
  lemma WholeFill(b: Book, f: FillEvent, o: InFlight, mark: Instrument -> real, i: Instrument)
    requires BookAtMark(b, mark) && 0.0 < f.quantity && f.price == mark(f.instrument)
    requires f.side.Buy? && f.instrument == o.request.instrument && Spent(f) == Cost(o)
    ensures ExistingValue(Applied(b, f).positions, i) == ExistingValue(b.positions, i) + CostIn(o, i)
  {
    BuysAreAccepted(b, f);
    BookFillAtMark(b, f, mark, i);
  }

  lemma FillOneAtMark(d: Desk, ps: seq<InFlight>, k: nat, rules: Rules, mark: Instrument -> real, i: Instrument)
    requires BookAtMark(d.book, mark) && PricedAt(ps, mark) && Sound(ps)
    requires k < |ps| == |d.pending| && d.pending[k] == ps[k]
    ensures var e := After(d, FillOne(ps, k), rules);
      ExistingValue(e.book.positions, i) == ExistingValue(d.book.positions, i) + CostIn(ps[k], i)
  {
    if FillOne(ps, k) != [] {
      AfterOne(d, Fill(k, ps[k].left, ps[k].price, "", T0), rules);
      WholeCost(ps[k]);
      WholeFill(d.book, FillOf(ps[k], ps[k].left, ps[k].price, "", T0), ps[k], mark, i);
    } else if ps[k].request.side.Buy? {
      NothingLeft(ps[k]);
    }
  }

  /** Shares are safe from every way of filling the pending orders at their prices exactly when, for every
      instrument, its value and its pending cost fit in the share together. */
  lemma SharesAreSafeExactlyWhenCovered(d: Desk, rules: Rules, mark: Instrument -> real)
    requires AtMark(d, mark) && Sound(d.pending)
    ensures SharesSafe(d, rules) <==> ShareCovered(d, rules.limits.maxConcentration)
  {
    if ShareCovered(d, rules.limits.maxConcentration) {
      forall fs | AtPrices(d.pending, fs) ensures WithinShare(After(d, fs, rules).book, rules.limits.maxConcentration) {
        StaysWithinShare(d, fs, rules, mark);
      }
    }
    if SharesSafe(d, rules) {
      forall i | Exposed(d, i) ensures Exposure(d, i) <= Part(rules.limits.maxConcentration, d.book.nav) {
        FilledShare(d, rules, mark, i);
      }
    }
  }

  lemma StaysWithinShare(d: Desk, fs: seq<Action>, rules: Rules, mark: Instrument -> real)
    requires AtMark(d, mark) && Sound(d.pending) && AtPrices(d.pending, fs)
    requires ShareCovered(d, rules.limits.maxConcentration)
    ensures WithinShare(After(d, fs, rules).book, rules.limits.maxConcentration)
  {
    var e := After(d, fs, rules);
    forall i | i in e.book.positions
      ensures Value(e.book.positions[i]) <= Part(rules.limits.maxConcentration, e.book.nav)
    {
      FillsAtMark(d, fs, rules, mark, i);
      CostsFine(e.pending, i);
      assert Exposed(d, i);
    }
  }

  lemma FilledShare(d: Desk, rules: Rules, mark: Instrument -> real, i: Instrument)
    requires AtMark(d, mark) && Sound(d.pending) && SharesSafe(d, rules) && Exposed(d, i)
    ensures Exposure(d, i) <= Part(rules.limits.maxConcentration, d.book.nav)
  {
    var e := FilledExposure(d, rules, mark, i);
    CostsFine(d.pending, i);
    if i in d.book.positions {
      ValueAtMark(d.book.positions[i]);
    }
    assert i in e.book.positions;
  }

  /** When everything pending has been filled, what an instrument is worth is its exposure before. */
  lemma FilledExposure(d: Desk, rules: Rules, mark: Instrument -> real, i: Instrument) returns (e: Desk)
    requires AtMark(d, mark) && Sound(d.pending) && SharesSafe(d, rules)
    ensures WithinShare(e.book, rules.limits.maxConcentration) && e.book.nav == d.book.nav
    ensures ExistingValue(e.book.positions, i) == Exposure(d, i)
  {
    var n := |d.pending|;
    var fs := FillAll(d.pending, n);
    e := After(d, fs, rules);
    assert AtPrices(d.pending, fs) by {
      FillAllOnlyFills(d.pending, n);
    }
    assert e.book.nav == d.book.nav by {
      FillsAtMark(d, fs, rules, mark, i);
    }
    FillAllAtMark(d, n, rules, mark, i);
    assert d.pending[..n] == d.pending;
  }

  // ---------------------------------------------------------------- whole runs

  ghost function Opening(capital: real): Desk {
    Desk(Start(capital), [])
  }

  lemma StepSound(d: Desk, a: Action, rules: Rules)
    requires Sound(d.pending) && Enabled(d, a)
    ensures Sound(Do(d, a, rules).pending)
  {}

  lemma {:induction false} RunSound(d: Desk, actions: seq<Action>, rules: Rules)
    requires Sound(d.pending)
    ensures Sound(After(d, actions, rules).pending)
  {
    if actions != [] {
      var n := |actions| - 1;
      RunSound(d, actions[..n], rules);
      if Enabled(After(d, actions[..n], rules), actions[n]) {
        StepSound(After(d, actions[..n], rules), actions[n], rules);
      }
    }
  }

  /** A buy goes on, approved or unchecked. */
  ghost predicate Admits(d: Desk, a: Action, rules: Rules) {
    && (a.CheckOrder? || a.PassUnchecked?) && Enabled(d, a) && a.request.side.Buy?
    && (a.CheckOrder? ==> ApprovedAt(d.book, a.request, rules, a.late))
  }

  /** Its cost fits in what cash the pending orders leave. */
  ghost predicate HasRoom(d: Desk, a: Action)
    requires a.CheckOrder? || a.PassUnchecked?
  {
    PendingCost(d.pending) + Lump(a.request.quantity, a.price) <= d.book.availableCash
  }

  lemma WithdrawKeepsCover(d: Desk, k: nat, rules: Rules)
    requires Sound(d.pending) && k < |d.pending| && Covered(d)
    ensures Covered(Do(d, Withdraw(k), rules))
  {
    var o := d.pending[k];
    CostsUpdate(d.pending, k, Less(o, o.left), "");
    NothingLeft(Less(o, o.left));
    CostFine(o);
  }

  lemma AddedCover(d: Desk, r: Request, price: real)
    ensures PendingCost(OnItsWay(d, r, price).pending)
         == PendingCost(d.pending) + if r.side.Buy? then Lump(r.quantity, price) else 0.0
  {
    CostsSnoc(d.pending, InFlight(r, price, r.quantity), "");
  }

  /** A step keeps the cover, unless it lets a buy go on for which there is no room. */
  lemma StepCover(d: Desk, a: Action, rules: Rules)
    requires Sound(d.pending) && Enabled(d, a) && Covered(d)
    ensures Covered(Do(d, a, rules)) <==> (Admits(d, a, rules) ==> HasRoom(d, a))
  {
    match a
    case CheckOrder(r, _, price, _) => AddedCover(d, r, price);
    case PassUnchecked(r, _, price) => AddedCover(d, r, price);
    case Fill(_, _, _, _, _) => FillKeepsCover(d, a, rules);
    case Withdraw(k) => WithdrawKeepsCover(d, k, rules);
  }

  ghost predicate RoomAlways(start: Desk, actions: seq<Action>, rules: Rules) {
    forall k | 0 <= k < |actions| ::
      Admits(After(start, actions[..k], rules), actions[k], rules) ==>
        HasRoom(After(start, actions[..k], rules), actions[k])
  }

  ghost predicate CashSafeAlways(start: Desk, actions: seq<Action>, rules: Rules) {
    forall k | 0 <= k <= |actions| :: CashSafe(After(start, actions[..k], rules), rules)
  }

  lemma {:induction false} CoverAlways(start: Desk, actions: seq<Action>, rules: Rules, n: nat)
    requires Sound(start.pending) && Covered(start) && n <= |actions| && RoomAlways(start, actions, rules)
    ensures Covered(After(start, actions[..n], rules))
  {
    if n != 0 {
      CoverAlways(start, actions, rules, n - 1);
      RunSound(start, actions[..n - 1], rules);
      var d := After(start, actions[..n - 1], rules);
      assert actions[..n][..n - 1] == actions[..n - 1];
      if Enabled(d, actions[n - 1]) {
        StepCover(d, actions[n - 1], rules);
      }
    }
  }

  /** Over any run, from any book and orders on their way: at every moment cash is safe from all ways of
      filling what is pending, exactly when it is at the start and every buy, at the moment it went on, fitted
      in the cash that the orders already pending leave. The gate compares it with all available cash instead,
      and does not see every order. */
  lemma RunsKeepCashExactlyWhenBuysHaveRoom(start: Desk, actions: seq<Action>, rules: Rules)
    requires Sound(start.pending)
    ensures CashSafeAlways(start, actions, rules) <==> Covered(start) && RoomAlways(start, actions, rules)
  {
    forall n | 0 <= n <= |actions|
      ensures CashSafe(After(start, actions[..n], rules), rules)
          <==> Covered(After(start, actions[..n], rules))
    {
      RunSound(start, actions[..n], rules);
      CashIsSafeExactlyWhenCovered(After(start, actions[..n], rules), rules);
    }
    assert actions[..0] == [];
    if Covered(start) && RoomAlways(start, actions, rules) {
      forall n | 0 <= n <= |actions| ensures Covered(After(start, actions[..n], rules)) {
        CoverAlways(start, actions, rules, n);
      }
    }
    if CashSafeAlways(start, actions, rules) {
      assert CashSafe(After(start, actions[..0], rules), rules);
      forall k | 0 <= k < |actions| && Admits(After(start, actions[..k], rules), actions[k], rules)
        ensures HasRoom(After(start, actions[..k], rules), actions[k])
      {
        var d := After(start, actions[..k], rules);
        RunSound(start, actions[..k], rules);
        assert actions[..k + 1][..k] == actions[..k];
        assert CashSafe(d, rules) && CashSafe(After(start, actions[..k + 1], rules), rules);
        StepCover(d, actions[k], rules);
      }
    }
  }

  // ---------------------------------------------------------------- runs at the mark

  /** An order is checked and filled at one price per instrument. */
  ghost predicate MarkedAction(d: Desk, a: Action, mark: Instrument -> real) {
    match a
    case CheckOrder(r, _, price, _) => price == mark(r.instrument)
    case PassUnchecked(r, _, price) => price == mark(r.instrument)
    case Fill(k, _, price, _, _) => k < |d.pending| ==> price == d.pending[k].price
    case Withdraw(_) => true
  }

  ghost predicate MarkedRun(start: Desk, actions: seq<Action>, rules: Rules, mark: Instrument -> real) {
    Positive(mark)
    && forall k | 0 <= k < |actions| :: MarkedAction(After(start, actions[..k], rules), actions[k], mark)
  }

  lemma StepAtMark(d: Desk, a: Action, rules: Rules, mark: Instrument -> real)
    requires AtMark(d, mark) && Sound(d.pending) && Enabled(d, a) && MarkedAction(d, a, mark)
    ensures AtMark(Do(d, a, rules), mark) && Do(d, a, rules).book.nav == d.book.nav
  {
    if a.Fill? {
      FillAtMark(d, a, rules, mark, "");
    }
  }

  /** Along a marked run net asset value stays what it is. */
  lemma {:induction false} RunAtMark(start: Desk, actions: seq<Action>, rules: Rules, mark: Instrument -> real, n: nat)
    requires AtMark(start, mark) && Sound(start.pending) && MarkedRun(start, actions, rules, mark) && n <= |actions|
    ensures var d := After(start, actions[..n], rules);
      AtMark(d, mark) && Sound(d.pending) && d.book.nav == start.book.nav
  {
    if n != 0 {
      RunAtMark(start, actions, rules, mark, n - 1);
      var d := After(start, actions[..n - 1], rules);
      assert actions[..n][..n - 1] == actions[..n - 1];
      if Enabled(d, actions[n - 1]) {
        StepAtMark(d, actions[n - 1], rules, mark);
        StepSound(d, actions[n - 1], rules);
      }
    }
  }

  /** Its cost fits in what the value and the pending orders of its instrument leave of the share. */
  ghost predicate HasShareRoom(d: Desk, a: Action, rules: Rules)
    requires a.CheckOrder? || a.PassUnchecked?
  {
    Exposure(d, a.request.instrument) + Lump(a.request.quantity, a.price)
    <= Part(rules.limits.maxConcentration, d.book.nav)
  }

  /** One more order on its way. */
  lemma AddedExposure(d: Desk, r: Request, price: real, i: Instrument)
    ensures var more := if r.side.Buy? && i == r.instrument then Lump(r.quantity, price) else 0.0;
      && PendingCostIn(OnItsWay(d, r, price).pending, i) == PendingCostIn(d.pending, i) + more
      && Exposure(OnItsWay(d, r, price), i) == Exposure(d, i) + more
  {
    CostsSnoc(d.pending, InFlight(r, price, r.quantity), i);
  }

  lemma AddedShareCover(d: Desk, r: Request, price: real, limit: real)
    requires Sound(d.pending) && 0.0 < r.quantity && 0.0 < price && ShareCovered(d, limit)
    ensures ShareCovered(OnItsWay(d, r, price), limit)
       <==> (r.side.Buy? ==> Exposure(d, r.instrument) + Lump(r.quantity, price) <= Part(limit, d.book.nav))
  {
    var e := OnItsWay(d, r, price);
    forall i | i != r.instrument || !r.side.Buy?
      ensures (Exposed(e, i) <==> Exposed(d, i)) && Exposure(e, i) == Exposure(d, i)
    {
      AddedExposure(d, r, price, i);
    }
    if r.side.Buy? {
      AddedExposure(d, r, price, r.instrument);
      LumpOrder(r.quantity, price, price);
      CostsFine(d.pending, r.instrument);
      assert Exposed(e, r.instrument);
    }
  }

  lemma CheckShareCover(d: Desk, a: Action, rules: Rules)
    requires Sound(d.pending) && (a.CheckOrder? || a.PassUnchecked?) && Enabled(d, a)
    requires ShareCovered(d, rules.limits.maxConcentration)
    ensures ShareCovered(Do(d, a, rules), rules.limits.maxConcentration)
       <==> (Admits(d, a, rules) ==> HasShareRoom(d, a, rules))
  {
    AddedShareCover(d, a.request, a.price, rules.limits.maxConcentration);
  }

  lemma FillShareCover(d: Desk, a: Action, rules: Rules, mark: Instrument -> real)
    requires AtMark(d, mark) && Sound(d.pending) && a.Fill? && Enabled(d, a) && MarkedAction(d, a, mark)
    requires ShareCovered(d, rules.limits.maxConcentration)
    ensures ShareCovered(Do(d, a, rules), rules.limits.maxConcentration)
  {
    var e := Do(d, a, rules);
    forall i | Exposed(e, i) ensures Exposure(e, i) <= Part(rules.limits.maxConcentration, e.book.nav) {
      FillAtMark(d, a, rules, mark, i);
    }
  }

  lemma WithdrawShareCover(d: Desk, k: nat, rules: Rules)
    requires Sound(d.pending) && k < |d.pending| && ShareCovered(d, rules.limits.maxConcentration)
    ensures ShareCovered(Do(d, Withdraw(k), rules), rules.limits.maxConcentration)
  {
    var o, e := d.pending[k], Do(d, Withdraw(k), rules);
    NothingLeft(Less(o, o.left));
    CostFine(o);
    forall i | Exposed(e, i) ensures Exposed(d, i) && Exposure(e, i) <= Exposure(d, i) {
      CostsUpdate(d.pending, k, Less(o, o.left), i);
    }
  }

  lemma StepShareCover(d: Desk, a: Action, rules: Rules, mark: Instrument -> real)
    requires AtMark(d, mark) && Sound(d.pending) && Enabled(d, a) && MarkedAction(d, a, mark)
    requires ShareCovered(d, rules.limits.maxConcentration)
    ensures ShareCovered(Do(d, a, rules), rules.limits.maxConcentration)
       <==> (Admits(d, a, rules) ==> HasShareRoom(d, a, rules))
  {
    match a
    case CheckOrder(_, _, _, _) => CheckShareCover(d, a, rules);
    case PassUnchecked(_, _, _) => CheckShareCover(d, a, rules);
    case Fill(_, _, _, _, _) => FillShareCover(d, a, rules, mark);
    case Withdraw(k) => WithdrawShareCover(d, k, rules);
  }

  ghost predicate ShareRoomAlways(start: Desk, actions: seq<Action>, rules: Rules) {
    forall k | 0 <= k < |actions| ::
      Admits(After(start, actions[..k], rules), actions[k], rules) ==>
        HasShareRoom(After(start, actions[..k], rules), actions[k], rules)
  }

  ghost predicate SharesSafeAlways(start: Desk, actions: seq<Action>, rules: Rules) {
    forall k | 0 <= k <= |actions| :: SharesSafe(After(start, actions[..k], rules), rules)
  }

  lemma {:induction false} ShareCoverAlways(
      start: Desk, actions: seq<Action>, rules: Rules, mark: Instrument -> real, n: nat)
    requires AtMark(start, mark) && Sound(start.pending) && MarkedRun(start, actions, rules, mark) && n <= |actions|
    requires ShareCovered(start, rules.limits.maxConcentration) && ShareRoomAlways(start, actions, rules)
    ensures ShareCovered(After(start, actions[..n], rules), rules.limits.maxConcentration)
  {
    if n != 0 {
      ShareCoverAlways(start, actions, rules, mark, n - 1);
      RunAtMark(start, actions, rules, mark, n - 1);
      var d := After(start, actions[..n - 1], rules);
      assert actions[..n][..n - 1] == actions[..n - 1];
      if Enabled(d, actions[n - 1]) {
        StepShareCover(d, actions[n - 1], rules, mark);
      }
    }
  }

  lemma ShareRoomNeeded(start: Desk, actions: seq<Action>, rules: Rules, mark: Instrument -> real, k: nat)
    requires AtMark(start, mark) && Sound(start.pending) && MarkedRun(start, actions, rules, mark)
    requires k < |actions| && SharesSafeAlways(start, actions, rules)
    requires Admits(After(start, actions[..k], rules), actions[k], rules)
    ensures HasShareRoom(After(start, actions[..k], rules), actions[k], rules)
  {
    var d := After(start, actions[..k], rules);
    var e := After(start, actions[..k + 1], rules);
    RunAtMark(start, actions, rules, mark, k);
    RunAtMark(start, actions, rules, mark, k + 1);
    assert actions[..k + 1][..k] == actions[..k];
    assert SharesSafe(d, rules) && SharesSafe(e, rules);
    SharesAreSafeExactlyWhenCovered(d, rules, mark);
    SharesAreSafeExactlyWhenCovered(e, rules, mark);
    StepShareCover(d, actions[k], rules, mark);
  }

  /** Over any run at the mark: at every moment every position is within its share after all ways of filling
      what is pending, exactly when that is so at the start and every buy, at the moment it went on, fitted in
      the share together with the pending orders of its instrument. */
  lemma RunsKeepSharesExactlyWhenBuysHaveRoom(start: Desk, actions: seq<Action>, rules: Rules, mark: Instrument -> real)
    requires AtMark(start, mark) && Sound(start.pending) && MarkedRun(start, actions, rules, mark)
    ensures SharesSafeAlways(start, actions, rules)
       <==> ShareCovered(start, rules.limits.maxConcentration) && ShareRoomAlways(start, actions, rules)
  {
    if ShareCovered(start, rules.limits.maxConcentration) && ShareRoomAlways(start, actions, rules) {
      forall n | 0 <= n <= |actions| ensures SharesSafe(After(start, actions[..n], rules), rules) {
        ShareCoverAlways(start, actions, rules, mark, n);
        RunAtMark(start, actions, rules, mark, n);
        SharesAreSafeExactlyWhenCovered(After(start, actions[..n], rules), rules, mark);
      }
    }
    if SharesSafeAlways(start, actions, rules) {
      assert actions[..0] == [] && SharesSafe(After(start, actions[..0], rules), rules);
      SharesAreSafeExactlyWhenCovered(start, rules, mark);
      forall k | 0 <= k < |actions| && Admits(After(start, actions[..k], rules), actions[k], rules)
        ensures HasShareRoom(After(start, actions[..k], rules), actions[k], rules)
      {
        ShareRoomNeeded(start, actions, rules, mark, k);
      }
    }
  }

  // ---------------------------------------------------------------- what the gate does ensure

  lemma {:induction false} PartOfPending(ps: seq<InFlight>, i: Instrument)
    requires Sound(ps)
    ensures PendingCostIn(ps, i) <= PendingCost(ps)
  {
    if ps != [] {
      PartOfPending(ps[..|ps| - 1], i);
      CostFine(ps[|ps| - 1]);
    }
  }

  /** A buy approved in time while no other is pending has room, if it fills at the price it was checked at. */
  lemma ApprovedAloneHasRoom(d: Desk, a: Action, rules: Rules)
    requires Sound(d.pending) && PendingCost(d.pending) == 0.0 && 0.0 < d.book.nav
    requires Admits(d, a, rules) && a.CheckOrder? && a.late == ON_TIME
    requires EffectivePrice(d.book.positions, a.request) == a.price
    ensures HasRoom(d, a) && HasShareRoom(d, a, rules)
  {
    var r := a.request;
    var f := FillOf(InFlight(r, a.price, r.quantity), r.quantity, a.price, "", T0);
    ApprovedAmounts(d.book, r, f, rules.limits, rules.varOf, rules.returnsLoaded);
    assert FillCost(f) == Lump(r.quantity, a.price);
    PartOfPending(d.pending, r.instrument);
    CostsFine(d.pending, r.instrument);
  }

  ghost predicate OneAtATime(start: Desk, actions: seq<Action>, rules: Rules) {
    forall k | 0 <= k < |actions| ::
      var d := After(start, actions[..k], rules);
      Admits(d, actions[k], rules) ==>
        && actions[k].CheckOrder? && actions[k].late == ON_TIME && PendingCost(d.pending) == 0.0
        && EffectivePrice(d.book.positions, actions[k].request) == actions[k].price
  }

  /** From any safe start, over any run at the mark in which every buy is checked in time and at the price it
      fills at, and goes on only while no other is pending: cash and shares are safe at every moment. */
  lemma OneAtATimeIsSafe(start: Desk, actions: seq<Action>, rules: Rules, mark: Instrument -> real)
    requires AtMark(start, mark) && Sound(start.pending) && 0.0 < start.book.nav
    requires Covered(start) && ShareCovered(start, rules.limits.maxConcentration)
    requires MarkedRun(start, actions, rules, mark) && OneAtATime(start, actions, rules)
    ensures CashSafeAlways(start, actions, rules) && SharesSafeAlways(start, actions, rules)
  {
    forall k | 0 <= k < |actions| && Admits(After(start, actions[..k], rules), actions[k], rules)
      ensures HasRoom(After(start, actions[..k], rules), actions[k])
      ensures HasShareRoom(After(start, actions[..k], rules), actions[k], rules)
    {
      RunAtMark(start, actions, rules, mark, k);
      ApprovedAloneHasRoom(After(start, actions[..k], rules), actions[k], rules);
    }
    RunsKeepCashExactlyWhenBuysHaveRoom(start, actions, rules);
    RunsKeepSharesExactlyWhenBuysHaveRoom(start, actions, rules, mark);
  }

  /** A capital that nothing is held or on its way against is such a start. */
  lemma OpeningIsSafe(capital: real, rules: Rules, mark: Instrument -> real)
    requires 0.0 < capital && Positive(mark)
    ensures AtMark(Opening(capital), mark) && Sound(Opening(capital).pending) && Opening(capital).book.nav == capital
    ensures Covered(Opening(capital)) && ShareCovered(Opening(capital), rules.limits.maxConcentration)
  {
    assert Values(map[]) == map[];
  }

  // ---------------------------------------------------------------- five buys in flight

  function Quarter(i: Instrument): Request {
    Request(i, Orders.Buy, 1.0, 25.0, "equity")
  }

  function CheckQuarter(i: Instrument): Action {
    CheckOrder(Quarter(i), Orders.Limit, 25.0, ON_TIME)
  }

  function CheckQuarters(names: seq<Instrument>): seq<Action> {
    if names == [] then [] else CheckQuarters(names[..|names| - 1]) + [CheckQuarter(names[|names| - 1])]
  }

  function PendingQuarters(names: seq<Instrument>): seq<InFlight> {
    if names == [] then []
    else PendingQuarters(names[..|names| - 1]) + [InFlight(Quarter(names[|names| - 1]), 25.0, 1.0)]
  }

  lemma QuarterAdmitted(d: Desk, i: Instrument, rules: Rules)
    requires rules.limits == DEFAULT_LIMITS && !rules.returnsLoaded && d.book == Start(100.0)
    ensures Enabled(d, CheckQuarter(i))
    ensures Do(d, CheckQuarter(i), rules) == Desk(d.book, d.pending + [InFlight(Quarter(i), 25.0, 1.0)])
  {
    ApprovalSays(d.book, Quarter(i), rules.limits, rules.varOf, false);
    assert ApprovedAt(d.book, Quarter(i), rules, ON_TIME);
  }

  /** However many have been approved, the next is checked against the same cash. */
  lemma {:induction false} QuartersApproved(names: seq<Instrument>, rules: Rules)
    requires rules.limits == DEFAULT_LIMITS && !rules.returnsLoaded
    ensures After(Opening(100.0), CheckQuarters(names), rules) == Desk(Start(100.0), PendingQuarters(names))
  {
    if names != [] {
      var n := |names| - 1;
      QuartersApproved(names[..n], rules);
      QuarterAdmitted(Desk(Start(100.0), PendingQuarters(names[..n])), names[n], rules);
      AfterSnoc(Opening(100.0), CheckQuarters(names[..n]), CheckQuarter(names[n]), rules);
    }
  }

  lemma {:induction false} QuartersCost(names: seq<Instrument>)
    ensures Sound(PendingQuarters(names)) && |PendingQuarters(names)| == |names|
    ensures PendingCost(PendingQuarters(names)) == 25.0 * |names| as real
  {
    if names != [] {
      QuartersCost(names[..|names| - 1]);
      CostsSnoc(PendingQuarters(names[..|names| - 1]), InFlight(Quarter(names[|names| - 1]), 25.0, 1.0), "");
    }
  }

  /** Five limit buys of 25 in different instruments are all approved against a capital of 100, in time and
      within the default limits, and their fills overdraw it. */
  lemma FiveBuysInFlightOverdraw(rules: Rules)
    requires rules.limits == DEFAULT_LIMITS && !rules.returnsLoaded
    ensures var names := ["A", "B", "C", "D", "E"];
      var d := After(Opening(100.0), CheckQuarters(names), rules);
      && d == Desk(Start(100.0), PendingQuarters(names)) && |d.pending| == 5
      && After(d, FillAll(d.pending, 5), rules).book.availableCash == -25.0
      && !CashSafe(d, rules)
  {
    var names := ["A", "B", "C", "D", "E"];
    QuartersApproved(names, rules);
    QuartersCost(names);
    AllFilledOverdraws(Desk(Start(100.0), PendingQuarters(names)), rules);
  }

  lemma AllFilledOverdraws(d: Desk, rules: Rules)
    requires Sound(d.pending) && d.book.availableCash < PendingCost(d.pending)
    ensures After(d, FillAll(d.pending, |d.pending|), rules).book.availableCash
         == d.book.availableCash - PendingCost(d.pending)
    ensures !CashSafe(d, rules)
  {
    FillAllOnlyFills(d.pending, |d.pending|);
    FillAllSpends(d, |d.pending|, rules);
    assert d.pending[..|d.pending|] == d.pending;
    CashIsSafeExactlyWhenCovered(d, rules);
  }

  /** One buy that the gate never answered is enough. */
  lemma UncheckedBuyOverdraws(rules: Rules)
    ensures var a := PassUnchecked(Request("A", Orders.Buy, 5.0, 25.0, "equity"), Orders.Limit, 25.0);
      && Enabled(Opening(100.0), a)
      && After(Opening(100.0), [a], rules).book.availableCash == 100.0
      && !CashSafe(After(Opening(100.0), [a], rules), rules)
  {
    var r := Request("A", Orders.Buy, 5.0, 25.0, "equity");
    AfterOne(Opening(100.0), PassUnchecked(r, Orders.Limit, 25.0), rules);
    AddedCover(Opening(100.0), r, 25.0);
    AllFilledOverdraws(OnItsWay(Opening(100.0), r, 25.0), rules);
  }
}
