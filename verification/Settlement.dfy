/** The settlement tracker of risk-engine/risk_engine/settlement/tracker.py. */
module Settlement {
  import opened Routing
  import opened BusinessDays
  import opened Decimals
  import opened Totals
  import Orders

  type Side = Orders.Side

  datatype Status = Pending | Settled

  datatype Settlement = Settlement(
    tradeDate: Date, settlementDate: Date, instrument: Instrument, assetClass: string, amount: real, status: Status)

  datatype Risk = Risk(totalUnsettled: real, byDate: map<Date, real>, cashCommitted: real, pendingCount: nat)

  /** Business days to settlement. */
  function CycleDays(assetClass: string): nat {
    if assetClass == "crypto" || assetClass == "tokenized_security" then 0 else 2
  }

  function Amount(side: Side, quantity: real, price: real): real {
    if side.Sell? then quantity * price else -(quantity * price)
  }

  // ---------------------------------------------------------------- on values

  /** The record of a fill, if it does not settle at once. */
  function Recorded(
      instrument: Instrument, assetClass: string, side: Side, quantity: real, price: real, tradeDate: Date)
    : seq<Settlement>
  {
    if CycleDays(assetClass) == 0 then []
    else [Settlement(tradeDate, Plus(tradeDate, 2), instrument, assetClass, Amount(side, quantity, price), Pending)]
  }

  function Mature(s: Settlement, asOf: Date): Settlement {
    if s.status == Pending && s.settlementDate <= asOf then s.(status := Settled) else s
  }

  function Matured(ss: seq<Settlement>, asOf: Date): seq<Settlement> {
    seq(|ss|, i requires 0 <= i < |ss| => Mature(ss[i], asOf))
  }

  function PendingOnly(ss: seq<Settlement>): seq<Settlement> {
    if ss == [] then []
    else
      var s := ss[|ss| - 1];
      PendingOnly(ss[..|ss| - 1]) + if s.status == Pending then [s] else []
  }

  function Gross(ss: seq<Settlement>): real {
    if ss == [] then 0.0 else Gross(ss[..|ss| - 1]) + Abs(ss[|ss| - 1].amount)
  }

  /** Cash going out: the negative amounts. */
  function Outgoing(ss: seq<Settlement>): real {
    if ss == [] then 0.0
    else Outgoing(ss[..|ss| - 1]) + if ss[|ss| - 1].amount < 0.0 then ss[|ss| - 1].amount else 0.0
  }

  function Net(ss: seq<Settlement>): real {
    if ss == [] then 0.0 else Net(ss[..|ss| - 1]) + ss[|ss| - 1].amount
  }

  function NetOn(ss: seq<Settlement>, d: Date): real {
    if ss == [] then 0.0
    else NetOn(ss[..|ss| - 1], d) + if ss[|ss| - 1].settlementDate == d then ss[|ss| - 1].amount else 0.0
  }

  function Dates(ss: seq<Settlement>): set<Date> {
    if ss == [] then {} else Dates(ss[..|ss| - 1]) + {ss[|ss| - 1].settlementDate}
  }

  /** The net amount of every settlement date, and of no other. */
  ghost predicate GroupsByDate(byDate: map<Date, real>, ss: seq<Settlement>) {
    byDate.Keys == Dates(ss) && forall d | d in byDate :: byDate[d] == NetOn(ss, d)
  }

  // ---------------------------------------------------------------- the objects

  class PendingSettlement {
    const tradeDate: Date
    const settlementDate: Date
    const instrument: Instrument
    const assetClass: string
    const amount: real
    var status: Status

    constructor (tradeDate: Date, settlementDate: Date, instrument: Instrument, assetClass: string, amount: real)
      ensures Row() == Settlement(tradeDate, settlementDate, instrument, assetClass, amount, Pending)
    {
      this.tradeDate, this.settlementDate, this.instrument := tradeDate, settlementDate, instrument;
      this.assetClass, this.amount, status := assetClass, amount, Pending;
    }

    function Row(): Settlement
      reads this
    {
      Settlement(tradeDate, settlementDate, instrument, assetClass, amount, status)
    }
  }

  function Rows(ss: seq<PendingSettlement>): seq<Settlement>
    reads ss
  {
    seq(|ss|, i requires 0 <= i < |ss| reads ss => ss[i].Row())
  }

  class SettlementTracker {
    var pending: seq<PendingSettlement>

    ghost predicate Valid()
      reads this
    {
      forall i, j | 0 <= i < j < |pending| :: pending[i] != pending[j]
    }

    ghost function View(): seq<Settlement>
      reads this, pending
    {
      Rows(pending)
    }

    constructor ()
      ensures Valid() && View() == []
    {
      pending := [];
    }

    method RecordFill(
        instrument: Instrument, assetClass: string, side: Side, quantity: real, price: real, tradeDate: Date)
      requires Valid()
      modifies this
      ensures Valid() && fresh(set s | s in pending && s !in old(pending))
      ensures View() == old(View()) + Recorded(instrument, assetClass, side, quantity, price, tradeDate)
    {
      var notional := quantity * price;
      var amount := if side.Sell? then notional else -notional;
      if CycleDays(assetClass) == 0 {
        return;
      }
      var settlementDate := AddBusinessDays(tradeDate, CycleDays(assetClass));
      var s := new PendingSettlement(tradeDate, settlementDate, instrument, assetClass, amount);
      pending := pending + [s];
    }

    method SettleMatured(asOf: Date)
      requires Valid()
      modifies pending
      ensures Valid() && View() == Matured(old(View()), asOf)
    {
      for k := 0 to |pending|
        invariant forall i | 0 <= i < k :: pending[i].Row() == Mature(old(pending[i].Row()), asOf)
        invariant forall i | k <= i < |pending| :: pending[i].Row() == old(pending[i].Row())
      {
        if pending[k].status == Pending && pending[k].settlementDate <= asOf {
          pending[k].status := Settled;
        }
      }
    }

    method ListPending() returns (ss: seq<Settlement>)
      ensures ss == PendingOnly(View())
    {
      ss := [];
      for k := 0 to |pending|
        invariant ss == PendingOnly(View()[..k])
      {
        assert View()[..k + 1][..k] == View()[..k];
        if pending[k].status == Pending {
          ss := ss + [pending[k].Row()];
        }
      }
      assert View()[..|pending|] == View();
    }

    method ComputeSettlementRisk() returns (r: Risk)
      ensures var ss := PendingOnly(View());
        && r.totalUnsettled == Gross(ss) && r.cashCommitted == Abs(Outgoing(ss)) && r.pendingCount == |ss|
        && GroupsByDate(r.byDate, ss)
    {
      var ss := ListPending();
      var total, out := 0.0, 0.0;
      var byDate: map<Date, real> := map[];
      for k := 0 to |ss|
        invariant total == Gross(ss[..k]) && out == Outgoing(ss[..k]) && GroupsByDate(byDate, ss[..k])
      {
        GroupOneMore(byDate, ss, k);
        assert ss[..k + 1][..k] == ss[..k];
        total := total + Abs(ss[k].amount);
        byDate := byDate[ss[k].settlementDate := At(byDate, ss[k].settlementDate) + ss[k].amount];
        out := out + if ss[k].amount < 0.0 then ss[k].amount else 0.0;
      }
      assert ss[..|ss|] == ss;
      r := Risk(total, byDate, Abs(out), |ss|);
    }
  }

  lemma {:induction false} NothingOnOtherDates(ss: seq<Settlement>, d: Date)
    requires d !in Dates(ss)
    ensures NetOn(ss, d) == 0.0
  {
    if ss != [] {
      NothingOnOtherDates(ss[..|ss| - 1], d);
    }
  }

  lemma GroupOneMore(byDate: map<Date, real>, ss: seq<Settlement>, k: nat)
    requires k < |ss| && GroupsByDate(byDate, ss[..k])
    ensures GroupsByDate(byDate[ss[k].settlementDate := At(byDate, ss[k].settlementDate) + ss[k].amount], ss[..k + 1])
  {
    var d := ss[k].settlementDate;
    assert ss[..k + 1][..k] == ss[..k];
    if d !in byDate {
      NothingOnOtherDates(ss[..k], d);
    }
  }

  // ---------------------------------------------------------------- the results

  /** A fill that settles later is still pending exactly while fewer than two business days have passed. */
  lemma PendingForTwoBusinessDays(s: Settlement, asOf: Date)
    requires s.status == Pending && s.settlementDate == Plus(s.tradeDate, 2) && s.tradeDate <= asOf
    ensures Mature(s, asOf).status == Pending <==> BusinessDaysIn(s.tradeDate, asOf) < 2
  {
    LeastDateWithCount(s.tradeDate, 2);
    if s.settlementDate <= asOf {
      CountSplits(s.tradeDate, s.settlementDate, asOf);
    }
  }

  /** Settling on two days is settling on the later one, in either order. */
  lemma {:induction false} MaturingComposes(ss: seq<Settlement>, a: Date, b: Date)
    ensures Matured(Matured(ss, a), b) == Matured(ss, if a <= b then b else a)
  {}

  /** What stays pending after settling is what was pending and settles later. */
  lemma {:induction false} PendingAfterMaturing(ss: seq<Settlement>, asOf: Date)
    ensures forall s :: s in PendingOnly(Matured(ss, asOf)) <==> s in PendingOnly(ss) && asOf < s.settlementDate
  {
    if ss != [] {
      var last := |ss| - 1;
      assert Matured(ss, asOf)[..last] == Matured(ss[..last], asOf);
      PendingAfterMaturing(ss[..last], asOf);
    }
  }

  function Grouped(ss: seq<Settlement>): (byDate: map<Date, real>)
    ensures GroupsByDate(byDate, ss)
  {
    if ss == [] then map[]
    else
      var last := |ss| - 1;
      var before := Grouped(ss[..last]);
      GroupOneMore(before, ss, last);
      assert ss[..last + 1] == ss;
      before[ss[last].settlementDate := At(before, ss[last].settlementDate) + ss[last].amount]
  }

  lemma {:induction false} DatesSumToNet(ss: seq<Settlement>)
    ensures Total(Grouped(ss)) == Net(ss)
  {
    if ss != [] {
      var last := |ss| - 1;
      DatesSumToNet(ss[..last]);
      var day := ss[last].settlementDate;
      TotalUpdate(Grouped(ss[..last]), day, At(Grouped(ss[..last]), day) + ss[last].amount);
    }
  }

  lemma {:induction false} GrossSplits(ss: seq<Settlement>)
    ensures Gross(ss) == Net(ss) - 2.0 * Outgoing(ss) && Outgoing(ss) <= 0.0
  {
    if ss != [] {
      GrossSplits(ss[..|ss| - 1]);
    }
  }

  /** The three figures of a risk report fit together: the net amounts by date add up to what comes in less
      the cash committed, and the total unsettled is both added. */
  lemma RiskFiguresBalance(ss: seq<Settlement>, r: Risk)
    requires r.totalUnsettled == Gross(ss) && r.cashCommitted == Abs(Outgoing(ss)) && GroupsByDate(r.byDate, ss)
    ensures Total(r.byDate) == r.totalUnsettled - 2.0 * r.cashCommitted
    ensures 0.0 <= r.cashCommitted <= r.totalUnsettled
  {
    DatesSumToNet(ss);
    forall d | d in r.byDate ensures r.byDate[d] == Grouped(ss)[d] {}
    assert r.byDate == Grouped(ss);
    GrossSplits(ss);
    NetAboveOutgoing(ss);
  }

  lemma {:induction false} NetAboveOutgoing(ss: seq<Settlement>)
    ensures Outgoing(ss) <= Net(ss)
  {
    if ss != [] {
      NetAboveOutgoing(ss[..|ss| - 1]);
    }
  }
}
