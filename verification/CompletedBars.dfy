/** What a completed bar says of the ticks of its period, over every run of the aggregator. */
module CompletedBars {
  import opened Routing
  import opened Aggregator
  import opened OhlcBars

  lemma {:induction false} HighestAndLowest(ts: seq<Tick>) returns (hi: nat, lo: nat)
    requires ts != []
    ensures hi < |ts| && lo < |ts| && MaxPrice(ts) == ts[hi].price && MinPrice(ts) == ts[lo].price
    ensures forall t | t in ts :: MinPrice(ts) <= t.price <= MaxPrice(ts)
  {
    var n := |ts| - 1;
    hi, lo := n, n;
    if n > 0 {
      var h, l := HighestAndLowest(ts[..n]);
      hi := if MaxPrice(ts) == ts[n].price then n else h;
      lo := if MinPrice(ts) == ts[n].price then n else l;
      assert ts == ts[..n] + [ts[n]];
    }
  }

  /** Times before zero are aligned towards zero, others down. */
  lemma AlignNear(time: int, interval: int)
    requires 0 < interval
    ensures if 0 <= time then Align(time, interval) <= time < Align(time, interval) + interval
            else Align(time, interval) - interval < time <= Align(time, interval)
  {}

  lemma {:induction false} PeriodTicks(ts: seq<Tick>, start: int, interval: int)
    requires 0 < interval
    ensures forall t :: t in InPeriod(ts, start, interval) <==> t in ts && Align(t.time, interval) == start
  {
    if ts != [] {
      PeriodTicks(ts[..|ts| - 1], start, interval);
      assert ts == ts[..|ts| - 1] + [ts[|ts| - 1]];
    }
  }

  /** The bar opens with the first of its ticks and closes with the last; no tick is above its high or below its low,
      and both are prices of ticks; it counts the ticks and adds up their volume. */
  ghost predicate Summarizes(b: Bar, p: seq<Tick>) {
    && p != [] && b.open == p[0].price && b.close == p[|p| - 1].price
    && b.instrument == p[0].instrument && b.venue == p[0].venue
    && (forall t | t in p :: b.low <= t.price <= b.high)
    && (exists t :: t in p && t.price == b.high) && (exists t :: t in p && t.price == b.low)
    && b.ticks == |p| && b.volume == VolumeOf(p)
  }

  lemma SummarySummarizes(p: seq<Tick>, start: int, interval: int)
    requires p != []
    ensures Summarizes(Completed(Summary(p, start, interval)), p)
  {
    var hi, lo := HighestAndLowest(p);
    assert p[hi] in p && p[lo] in p;
  }

  lemma ClosedBarIs(ts: seq<Tick>, interval: int, n: nat)
    requires 0 < interval && NonDecreasing(ts) && n < |Closed(ts, interval)|
    ensures n < |Bars(ts, interval)| && Closed(ts, interval)[n] == Completed(Bars(ts, interval)[n])
    ensures BarIs(Bars(ts, interval)[n], ts, interval)
  {
    BarsAreGroups(ts, interval);
    assert Bars(ts, interval)[..|Bars(ts, interval)| - 1][n] == Bars(ts, interval)[n];
  }

  /** Over every run in which the times of an instrument do not decrease: each completed bar emitted for it ends one
      interval after its start and summarizes exactly the ticks of its period, which lie within one interval of the
      start: after it, or for times before zero before it. */
  lemma CompletedBarSummarizesItsPeriod(events: seq<Event>, interval: int, i: Instrument, n: nat) returns (p: seq<Tick>)
    requires 0 < interval && NonDecreasing(TicksOf(events, i))
    requires n < |CompletedOf(Run(events, interval).emitted, i)|
    ensures var b := CompletedOf(Run(events, interval).emitted, i)[n];
      && b.complete && b.end == b.start + interval && b.interval == interval
      && Summarizes(b, p)
      && (forall t :: t in p <==> t in TicksOf(events, i) && Align(t.time, interval) == b.start)
      && (forall t | t in p ::
           if 0 <= t.time then b.start <= t.time < b.end else b.start - interval < t.time <= b.start)
  {
    var ts := TicksOf(events, i);
    RunRefinesBars(events, interval, i);
    ClosedBarIs(ts, interval, n);
    var b := Bars(ts, interval)[n];
    p := InPeriod(ts, b.start, interval);
    PeriodTicks(ts, b.start, interval);
    SummarySummarizes(p, b.start, interval);
    forall t | t in p
      ensures if 0 <= t.time then b.start <= t.time < b.start + interval else b.start - interval < t.time <= b.start
    {
      AlignNear(t.time, interval);
    }
  }

  lemma PartialSummarizes(p: seq<Tick>, start: int, interval: int)
    requires p != []
    ensures Summarizes(Partial(Summary(p, start, interval)), p)
  {
    var hi, lo := HighestAndLowest(p);
    assert p[hi] in p && p[lo] in p;
  }

  /** Over every such run: flushing an instrument that has ticks emits one bar, not complete, that ends one interval
      after its start and summarizes exactly the ticks so far of the period of the last tick; the current bar stays. */
  lemma FlushedBarSummarizesItsPeriod(events: seq<Event>, interval: int, i: Instrument) returns (b: Bar, p: seq<Tick>)
    requires 0 < interval && NonDecreasing(TicksOf(events, i)) && TicksOf(events, i) != []
    ensures var s, s' := Run(events, interval), Run(events + [Flush([i])], interval);
      s'.emitted == s.emitted + [b] && s'.bars == s.bars
    ensures !b.complete && b.end == b.start + interval && Summarizes(b, p)
    ensures var ts := TicksOf(events, i);
      && b.start == Align(ts[|ts| - 1].time, interval)
      && forall t :: t in p <==> t in ts && Align(t.time, interval) == b.start
  {
    var ts, s := TicksOf(events, i), Run(events, interval);
    RunRefinesBars(events, interval, i);
    BarsAreGroups(ts, interval);
    var last := Bars(ts, interval)[|Bars(ts, interval)| - 1];
    b, p := Partial(last), InPeriod(ts, last.start, interval);
    PeriodTicks(ts, last.start, interval);
    PartialSummarizes(p, last.start, interval);
    FlushOne(s, i);
    assert (events + [Flush([i])])[..|events|] == events;
  }

  lemma FlushOne(s: State, i: Instrument)
    requires i in s.bars
    ensures Flushed(s, [i]).emitted == s.emitted + [Partial(s.bars[i])] && Flushed(s, [i]).bars == s.bars
  {
    assert [i][..0] == [];
    assert Flushed(s, []) == s;
  }
}
