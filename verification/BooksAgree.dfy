/** The gateway's positions and the risk engine's book, fed the same fills of one venue. The gateway may go
    short; the risk engine refuses to, and drops what is flat. */
module BooksAgree {
  import opened Routing
  import opened Decimals
  import opened Totals
  import opened Orders
  import opened Portfolio
  import P = Positions
  import C = PipelineCore

  /** Both sides after a stream. `retired` is the realized profit of the positions dropped so far. */
  datatype Both = Both(book: Book, retired: map<Instrument, real>, rows: map<C.PositionKey, P.PositionState>)

  function TradeOf(f: FillEvent): P.Trade {
    P.Trade(f.side, f.quantity, f.price)
  }

  predicate GoesFlat(b: Book, f: FillEvent) {
    f.instrument in b.positions && HoldingAfter(b.positions, f).quantity == 0.0
  }

  ghost function Fed(s: Both, f: FillEvent): Both {
    var key := C.PositionKey(f.instrument, f.venue);
    var rows := s.rows[key := C.RowAfter(s.rows, key, TradeOf(f), 0.0)];
    if !Accepts(s.book, f) then s.(rows := rows)
    else
      var retired := if GoesFlat(s.book, f)
        then s.retired[f.instrument := At(s.retired, f.instrument) + HoldingAfter(s.book.positions, f).realizedPnL]
        else s.retired;
      Both(Applied(s.book, f), retired, rows)
  }

  ghost function AfterAll(cash: real, fs: seq<FillEvent>): Both {
    if fs == [] then Both(Start(cash), map[], map[])
    else Fed(AfterAll(cash, fs[..|fs| - 1]), fs[|fs| - 1])
  }

  // ---------------------------------------------------------------- what each side holds

  function GatewayQuantity(s: Both, i: Instrument, venue: string): real {
    var key := C.PositionKey(i, venue);
    if key in s.rows then s.rows[key].quantity else 0.0
  }

  function GatewayRealized(s: Both, i: Instrument, venue: string): real {
    var key := C.PositionKey(i, venue);
    if key in s.rows then s.rows[key].realizedPnL else 0.0
  }

  function BookQuantity(s: Both, i: Instrument): real {
    if i in s.book.positions then s.book.positions[i].quantity else 0.0
  }

  /** All profit realized in an instrument, through every position it has had. */
  function BookRealized(s: Both, i: Instrument): real {
    At(s.retired, i) + if i in s.book.positions then s.book.positions[i].realizedPnL else 0.0
  }

  /** Quantity and realized profit agree, and average cost while something is held. */
  ghost predicate AgreeOn(s: Both, i: Instrument, venue: string) {
    && GatewayQuantity(s, i, venue) == BookQuantity(s, i)
    && GatewayRealized(s, i, venue) == BookRealized(s, i)
    && (i in s.book.positions ==>
          && 0.0 < s.book.positions[i].quantity
          && s.rows[C.PositionKey(i, venue)].averageCost == s.book.positions[i].averageCost)
  }

  ghost predicate Agree(s: Both, venue: string) {
    forall i :: AgreeOn(s, i, venue)
  }

  // ---------------------------------------------------------------- one fill

  lemma SameBlend(cost: real, held: real, f: FillEvent)
    requires 0.0 < held && 0.0 < f.quantity
    ensures Div(TotalCost(cost, held, f.price, f.quantity), held + f.quantity, 0.0)
         == (cost * held + FillCost(f)) / (held + f.quantity)
  {}

  lemma FirstBlend(cost: real, f: FillEvent)
    requires 0.0 < f.quantity
    ensures Div(TotalCost(cost, 0.0, f.price, f.quantity), 0.0 + f.quantity, 0.0) == f.price
  {
    assert TotalCost(cost, 0.0, f.price, f.quantity) == f.price * f.quantity by { assert cost * 0.0 == 0.0; }
    Cancel(f.price * f.quantity, f.quantity);
    assert f.price * f.quantity / f.quantity == f.price;
  }

  lemma BuyMatches(row: P.PositionState, h: Holding, f: FillEvent)
    requires 0.0 < h.quantity == row.quantity && row.averageCost == h.averageCost && 0.0 < f.quantity && f.side.Buy?
    ensures var row', h' := P.AfterTrade(row, TradeOf(f), 0.0), Bought(h, f);
      row'.quantity == h'.quantity && row'.averageCost == h'.averageCost
      && row'.realizedPnL == row.realizedPnL && h'.realizedPnL == h.realizedPnL
  {
    SameBlend(row.averageCost, row.quantity, f);
  }

  lemma SellMatches(row: P.PositionState, h: Holding, f: FillEvent)
    requires 0.0 < h.quantity == row.quantity && row.averageCost == h.averageCost && 0.0 < f.quantity && f.side.Sell?
    ensures var row', h' := P.AfterTrade(row, TradeOf(f), 0.0), Sold(h, f);
      row'.quantity == h'.quantity && row'.averageCost == h'.averageCost
      && row'.realizedPnL - row.realizedPnL == h'.realizedPnL - h.realizedPnL
  {}

  lemma OpeningMatches(row: P.PositionState, f: FillEvent)
    requires row.quantity == 0.0 && 0.0 < f.quantity && f.side.Buy?
    ensures var row', h' := P.AfterTrade(row, TradeOf(f), 0.0), Opening(f);
      row'.quantity == h'.quantity && row'.averageCost == h'.averageCost
      && row'.realizedPnL == row.realizedPnL && h'.realizedPnL == 0.0
  {
    FirstBlend(row.averageCost, f);
  }

  /** A fill that does not oversell leaves both sides in agreement on its instrument, whether the position
      is new, reopened, increased, reduced or closed. */
  lemma {:induction false} FillAgrees(s: Both, f: FillEvent)
    requires AgreeOn(s, f.instrument, f.venue) && 0.0 < f.quantity
    requires f.side.Sell? ==> f.quantity <= BookQuantity(s, f.instrument)
    ensures AgreeOn(Fed(s, f), f.instrument, f.venue)
  {
    var i, key := f.instrument, C.PositionKey(f.instrument, f.venue);
    var row := if key in s.rows then s.rows[key] else P.Opened(f.price);
    if i !in s.book.positions {
      OpeningMatches(row, f);
    } else if f.side.Buy? {
      BuyMatches(row, s.book.positions[i], f);
    } else {
      SellMatches(row, s.book.positions[i], f);
    }
  }

  lemma OthersAgree(s: Both, f: FillEvent, i: Instrument)
    requires AgreeOn(s, i, f.venue) && i != f.instrument
    ensures AgreeOn(Fed(s, f), i, f.venue)
  {}

  lemma StaysInAgreement(s: Both, f: FillEvent)
    requires Agree(s, f.venue) && 0.0 < f.quantity
    requires f.side.Sell? ==> f.quantity <= BookQuantity(s, f.instrument)
    ensures Agree(Fed(s, f), f.venue)
  {
    FillAgrees(s, f);
    forall i | i != f.instrument ensures AgreeOn(Fed(s, f), i, f.venue) {
      assert AgreeOn(s, i, f.venue);
      OthersAgree(s, f, i);
    }
  }

  // ---------------------------------------------------------------- streams

  ghost predicate OfVenue(fs: seq<FillEvent>, venue: string) {
    forall k | 0 <= k < |fs| :: fs[k].venue == venue && 0.0 < fs[k].quantity
  }

  /** The signed quantity a stream leaves of an instrument. */
  function Net(fs: seq<FillEvent>, i: Instrument): real {
    if fs == [] then 0.0
    else
      var f := fs[|fs| - 1];
      Net(fs[..|fs| - 1], i) + if f.instrument == i then Signed(f.side, f.quantity) else 0.0
  }

  /** No prefix of the stream sells more of an instrument than it has bought. */
  ghost predicate LongOnly(fs: seq<FillEvent>) {
    forall k, i | 0 <= k <= |fs| :: 0.0 <= Net(fs[..k], i)
  }

  lemma {:induction false} GatewayHoldsNet(cash: real, fs: seq<FillEvent>, venue: string, i: Instrument)
    requires OfVenue(fs, venue)
    ensures GatewayQuantity(AfterAll(cash, fs), i, venue) == Net(fs, i)
  {
    if fs != [] {
      GatewayHoldsNet(cash, fs[..|fs| - 1], venue, i);
    }
  }

  lemma {:induction false} BookIsLong(cash: real, fs: seq<FillEvent>, venue: string, i: Instrument)
    requires OfVenue(fs, venue)
    ensures i in AfterAll(cash, fs).book.positions ==> 0.0 < AfterAll(cash, fs).book.positions[i].quantity
  {
    if fs != [] {
      BookIsLong(cash, fs[..|fs| - 1], venue, i);
    }
  }

  /** Along a long-only stream of one venue the two sides agree, although one of them deletes flat
      positions and opens new ones in their place. */
  lemma {:induction false} LongOnlyAgrees(cash: real, fs: seq<FillEvent>, venue: string)
    requires OfVenue(fs, venue) && LongOnly(fs)
    ensures Agree(AfterAll(cash, fs), venue)
  {
    if fs != [] {
      var n := |fs| - 1;
      var f := fs[n];
      forall k, i | 0 <= k <= n ensures 0.0 <= Net(fs[..n][..k], i) {
        assert fs[..n][..k] == fs[..k];
      }
      LongOnlyAgrees(cash, fs[..n], venue);
      assert AgreeOn(AfterAll(cash, fs[..n]), f.instrument, venue);
      GatewayHoldsNet(cash, fs[..n], venue, f.instrument);
      assert fs[..n + 1] == fs;
      assert 0.0 <= Net(fs[..n + 1], f.instrument);
      StaysInAgreement(AfterAll(cash, fs[..n]), f);
    }
  }

  lemma LongOnlyPrefix(fs: seq<FillEvent>, n: nat)
    requires n <= |fs| && LongOnly(fs)
    ensures LongOnly(fs[..n])
  {
    forall k, i | 0 <= k <= n ensures 0.0 <= Net(fs[..n][..k], i) {
      assert fs[..n][..k] == fs[..k];
    }
  }

  ghost predicate SameQuantity(cash: real, fs: seq<FillEvent>, venue: string, i: Instrument) {
    GatewayQuantity(AfterAll(cash, fs), i, venue) == BookQuantity(AfterAll(cash, fs), i)
  }

  /** The first fill of a stream sells: the gateway is short by it, and the risk engine holds nothing. */
  lemma FirstSellDiverges(cash: real, fs: seq<FillEvent>, venue: string)
    requires OfVenue(fs, venue) && |fs| == 1 && fs[0].side == Sell
    ensures GatewayQuantity(AfterAll(cash, fs), fs[0].instrument, venue) == -fs[0].quantity < 0.0
    ensures BookQuantity(AfterAll(cash, fs), fs[0].instrument) == 0.0
  {
    GatewayHoldsNet(cash, fs, venue, fs[0].instrument);
    NetOfOne(fs);
    RefusedAtFirst(cash, fs);
  }

  lemma NetOfOne(fs: seq<FillEvent>)
    requires |fs| == 1
    ensures Net(fs, fs[0].instrument) == Signed(fs[0].side, fs[0].quantity)
  {
    assert fs[..0] == [];
  }

  lemma RefusedAtFirst(cash: real, fs: seq<FillEvent>)
    requires |fs| == 1 && fs[0].side == Sell
    ensures AfterAll(cash, fs).book == Start(cash) && forall i :: BookQuantity(AfterAll(cash, fs), i) == 0.0
  {
    assert fs[..0] == [];
  }

  /** The two sides hold the same after every fill of the stream exactly when the stream is long-only, and
      then they also agree on average cost and realized profit. */
  lemma BooksAgreeExactlyWhenLongOnly(cash: real, fs: seq<FillEvent>, venue: string)
    requires OfVenue(fs, venue)
    ensures (forall k, i | 0 <= k <= |fs| :: SameQuantity(cash, fs[..k], venue, i)) <==> LongOnly(fs)
    ensures LongOnly(fs) ==> forall k | 0 <= k <= |fs| :: Agree(AfterAll(cash, fs[..k]), venue)
  {
    if LongOnly(fs) {
      forall k | 0 <= k <= |fs| ensures Agree(AfterAll(cash, fs[..k]), venue) {
        LongOnlyPrefix(fs, k);
        LongOnlyAgrees(cash, fs[..k], venue);
      }
      forall k, i | 0 <= k <= |fs| ensures SameQuantity(cash, fs[..k], venue, i) {
        assert AgreeOn(AfterAll(cash, fs[..k]), i, venue);
      }
    }
    if forall k, i | 0 <= k <= |fs| :: SameQuantity(cash, fs[..k], venue, i) {
      forall k, i | 0 <= k <= |fs| ensures 0.0 <= Net(fs[..k], i) {
        assert SameQuantity(cash, fs[..k], venue, i);
        GatewayHoldsNet(cash, fs[..k], venue, i);
        BookIsLong(cash, fs[..k], venue, i);
      }
    }
  }
}
