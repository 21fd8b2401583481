/** The settlement tracker beside the risk engine's book: both are told of the same fills, and both keep what has not
    settled yet. */
module SettlementBook {
  import opened BusinessDays
  import opened Portfolio
  import opened PortfolioLedger
  import Settlement
  import FillConsumer
  import Orders

  // ---------------------------------------------------------------- what the tracker holds

  /** The records of a stream of fills, each on its trade date. */
  function Records(fs: seq<FillEvent>, days: seq<Date>): seq<Settlement.Settlement>
    requires |days| == |fs|
  {
    if fs == [] then []
    else Records(fs[..|fs| - 1], days[..|fs| - 1]) + RecordOf(fs[|fs| - 1], days[|fs| - 1])
  }

  function RecordOf(f: FillEvent, day: Date): seq<Settlement.Settlement> {
    Settlement.Recorded(f.instrument, f.assetClass, f.side, f.quantity, f.price, day)
  }

  /** Crypto and tokenized securities settle at once, everything else after two business days. */
  predicate SettlesLater(f: FillEvent) {
    f.assetClass != "crypto" && f.assetClass != "tokenized_security"
  }

  /** What sells bring in less what buys cost, of the fills the tracker keeps and of those the book does. */
  function Proceeds(f: FillEvent): real {
    match f.side
    case Buy => -FillCost(f)
    case Sell => FillCost(f)
  }

  function Tracked(fs: seq<FillEvent>): real {
    if fs == [] then 0.0
    else Tracked(fs[..|fs| - 1]) + if SettlesLater(fs[|fs| - 1]) then Proceeds(fs[|fs| - 1]) else 0.0
  }

  function Unsettled(fs: seq<FillEvent>): real {
    if fs == [] then 0.0
    else Unsettled(fs[..|fs| - 1]) + if fs[|fs| - 1].cycle == T2 then Proceeds(fs[|fs| - 1]) else 0.0
  }

  /** One pending record of what the fill brings in, if it settles later. */
  lemma RecordSays(f: FillEvent, day: Date)
    ensures if SettlesLater(f) then
              && |RecordOf(f, day)| == 1 && RecordOf(f, day)[0].amount == Proceeds(f)
              && RecordOf(f, day)[0].status == Settlement.Pending
            else RecordOf(f, day) == []
  {}

  lemma OneMoreRecord(rs: seq<Settlement.Settlement>, r: Settlement.Settlement)
    ensures Settlement.Net(rs + [r]) == Settlement.Net(rs) + r.amount
    ensures Settlement.Outgoing(rs + [r]) == Settlement.Outgoing(rs) + if r.amount < 0.0 then r.amount else 0.0
  {
    assert (rs + [r])[..|rs|] == rs;
  }

  lemma RecordsOneMore(rs: seq<Settlement.Settlement>, f: FillEvent, day: Date)
    ensures var all := rs + RecordOf(f, day);
      if SettlesLater(f) then
        && Settlement.Net(all) == Settlement.Net(rs) + Proceeds(f)
        && Settlement.Outgoing(all) == Settlement.Outgoing(rs) + if Proceeds(f) < 0.0 then Proceeds(f) else 0.0
      else all == rs
  {
    RecordSays(f, day);
    if SettlesLater(f) {
      OneMoreRecord(rs, RecordOf(f, day)[0]);
      assert RecordOf(f, day) == [RecordOf(f, day)[0]];
    }
  }

  lemma {:induction false} RecordsAdd(fs: seq<FillEvent>, days: seq<Date>)
    requires |days| == |fs|
    ensures Settlement.Net(Records(fs, days)) == Tracked(fs)
  {
    if fs != [] {
      var n := |fs| - 1;
      RecordsAdd(fs[..n], days[..n]);
      RecordsOneMore(Records(fs[..n], days[..n]), fs[n], days[n]);
    }
  }

  lemma {:induction false} UnsettledIsFlow(fs: seq<FillEvent>)
    ensures Unsettled(fs) == Flow(fs, Orders.Sell, T2) - Flow(fs, Orders.Buy, T2)
  {
    if fs != [] {
      UnsettledIsFlow(fs[..|fs| - 1]);
    }
  }

  // ---------------------------------------------------------------- the same fills reach both

  lemma AcceptedPrefix(b: Book, fs: seq<FillEvent>)
    requires FillConsumer.AllAccepted(b, fs) && fs != []
    ensures FillConsumer.AllAccepted(b, fs[..|fs| - 1])
    ensures Accepts(FillConsumer.Replayed(b, fs[..|fs| - 1]), fs[|fs| - 1])
  {
    assert forall k | 0 <= k < |fs| - 1 :: fs[..|fs| - 1][..k] == fs[..k];
  }

  /** Replaying accepted fills is what the history of the book does. */
  lemma {:induction false} ReplayedIsHistory(cash: real, fs: seq<FillEvent>)
    requires FillConsumer.AllAccepted(Start(cash), fs)
    ensures After(cash, fs).book == FillConsumer.Replayed(Start(cash), fs) && After(cash, fs).accepted == fs
  {
    if fs != [] {
      var n := |fs| - 1;
      AcceptedPrefix(Start(cash), fs);
      ReplayedIsHistory(cash, fs[..n]);
      assert fs == fs[..n] + [fs[n]];
    }
  }

  /** A fill is labelled as its asset class settles. */
  predicate LabelledByClass(f: FillEvent) {
    f.cycle == T2 <==> SettlesLater(f)
  }

  lemma {:induction false} SameWhenLabelled(fs: seq<FillEvent>)
    requires forall f | f in fs :: LabelledByClass(f)
    ensures Tracked(fs) == Unsettled(fs)
  {
    if fs != [] {
      SameWhenLabelled(fs[..|fs| - 1]);
      assert LabelledByClass(fs[|fs| - 1]);
    }
  }

  /** After any stream of events, started from cash: the tracker, told of every fill the book takes, holds exactly the
      negated unsettled cash of the book, exactly when the fills labelled T2 and the fills of classes that settle later
      bring in the same; so in particular when each fill is labelled as its class settles. */
  lemma TrackerHoldsUnsettledCash(
      cash: real, es: seq<FillConsumer.Event>, cb: FillConsumer.Callbacks, days: seq<Date>)
    requires cb.onFill
    requires |days| == |FillConsumer.ConsumeAll(FillConsumer.Fresh(Start(cash)), es, cb).notified|
    ensures var s := FillConsumer.ConsumeAll(FillConsumer.Fresh(Start(cash)), es, cb);
      && (Settlement.Net(Records(s.notified, days)) == -s.book.unsettledCash
          <==> Tracked(s.notified) == Unsettled(s.notified))
      && ((forall f | f in s.notified :: LabelledByClass(f)) ==>
           Settlement.Net(Records(s.notified, days)) == -s.book.unsettledCash)
  {
    var s := FillConsumer.ConsumeAll(FillConsumer.Fresh(Start(cash)), es, cb);
    FillConsumer.NotifiedFillsMakeTheBook(Start(cash), es, cb);
    ReplayedIsHistory(cash, s.notified);
    SettledCash(cash, s.notified);
    UnsettledIsFlow(s.notified);
    RecordsAdd(s.notified, days);
    if forall f | f in s.notified :: LabelledByClass(f) {
      SameWhenLabelled(s.notified);
    }
  }

  /** A crypto fill whose event names no settlement cycle is booked as T2 and tracked as settled: the book reserves its
      cost, and the tracker knows of nothing pending. */
  lemma UnlabelledCryptoIsNotTracked(day: Date)
    ensures var f := FillEvent("BTC-USD", "binance_testnet", Orders.Buy, 1.0, 100.0, "crypto", T2);
      Accepts(Start(1000.0), f) && Applied(Start(1000.0), f).unsettledCash == 100.0 && Records([f], [day]) == []
  {
    var f := FillEvent("BTC-USD", "binance_testnet", Orders.Buy, 1.0, 100.0, "crypto", T2);
    assert [f][..0] == [] && [day][..0] == [];
    assert Records([], []) == [];
  }

  // ---------------------------------------------------------------- what is committed

  /** What buys that settle later cost. */
  function Committed(fs: seq<FillEvent>): real {
    if fs == [] then 0.0
    else
      var f := fs[|fs| - 1];
      Committed(fs[..|fs| - 1]) + if SettlesLater(f) && f.side.Buy? then FillCost(f) else 0.0
  }

  /** The outgoing amounts are the buys: incoming cash never offsets what is committed. */
  lemma {:induction false} CommittedIsOutgoing(fs: seq<FillEvent>, days: seq<Date>)
    requires |days| == |fs| && forall f | f in fs :: 0.0 < FillCost(f)
    ensures Settlement.Outgoing(Records(fs, days)) == -Committed(fs)
  {
    if fs != [] {
      var n := |fs| - 1;
      CommittedIsOutgoing(fs[..n], days[..n]);
      RecordsOneMore(Records(fs[..n], days[..n]), fs[n], days[n]);
      assert 0.0 < FillCost(fs[n]);
    }
  }
}
