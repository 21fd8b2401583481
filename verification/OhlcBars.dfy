/** Streaming aggregation against grouping: what the bars of a tick stream are. */
module OhlcBars {
  import opened Routing
  import opened Decimals
  import opened Aggregator

  // ---------------------------------------------------------------- the bars of one instrument

  /** One more tick: it updates the last bar or starts a new one. */
  function Extended(bs: seq<Bar>, t: Tick, interval: int): (r: seq<Bar>)
    requires 0 < interval
    ensures r != []
  {
    if bs == [] || Align(t.time, interval) != bs[|bs| - 1].start then bs + [NewBar(t, interval)]
    else bs[..|bs| - 1] + [Updated(bs[|bs| - 1], t)]
  }

  /** The bars of a tick stream, the current one last. */
  function Bars(ts: seq<Tick>, interval: int): (bs: seq<Bar>)
    requires 0 < interval
    ensures bs == [] <==> ts == []
  {
    if ts == [] then [] else Extended(Bars(ts[..|ts| - 1], interval), ts[|ts| - 1], interval)
  }

  function TicksOf(events: seq<Event>, i: Instrument): seq<Tick> {
    if events == [] then []
    else
      var e := events[|events| - 1];
      TicksOf(events[..|events| - 1], i) + if e.Ingest? && e.tick.instrument == i then [e.tick] else []
  }

  function CompletedOf(bars: seq<Bar>, i: Instrument): seq<Bar> {
    if bars == [] then []
    else
      var b := bars[|bars| - 1];
      CompletedOf(bars[..|bars| - 1], i) + if b.instrument == i && b.complete then [b] else []
  }

  function AllCompleted(bars: seq<Bar>): (r: seq<Bar>)
    ensures |r| == |bars| && forall k | 0 <= k < |bars| :: r[k] == Completed(bars[k])
  {
    seq(|bars|, k requires 0 <= k < |bars| => Completed(bars[k]))
  }

  /** Every bar but the current one, completed. */
  function Closed(ts: seq<Tick>, interval: int): seq<Bar>
    requires 0 < interval
  {
    if ts == [] then [] else AllCompleted(Bars(ts, interval)[..|Bars(ts, interval)| - 1])
  }

  lemma {:induction false} BarsShape(ts: seq<Tick>, interval: int, i: Instrument)
    requires 0 < interval && forall t | t in ts :: t.instrument == i
    ensures forall b | b in Bars(ts, interval) :: b.instrument == i && !b.complete && b.interval == interval
    ensures forall k | 0 < k < |Bars(ts, interval)| :: Bars(ts, interval)[k - 1].start != Bars(ts, interval)[k].start
  {
    if ts != [] {
      BarsShape(ts[..|ts| - 1], interval, i);
    }
  }

  lemma {:induction false} TicksShape(events: seq<Event>, i: Instrument)
    ensures forall t | t in TicksOf(events, i) :: t.instrument == i
  {
    if events != [] {
      TicksShape(events[..|events| - 1], i);
    }
  }

  lemma {:induction false} FlushedShape(s: State, keys: seq<Instrument>, i: Instrument)
    requires Filed(s.bars)
    ensures Flushed(s, keys).bars == s.bars
    ensures CompletedOf(Flushed(s, keys).emitted, i) == CompletedOf(s.emitted, i)
  {
    if keys != [] {
      FlushedShape(s, keys[..|keys| - 1], i);
      var r, r' := Flushed(s, keys[..|keys| - 1]), Flushed(s, keys);
      if keys[|keys| - 1] in s.bars {
        assert r'.emitted[..|r.emitted|] == r.emitted;
      }
    }
  }

  /** For one instrument: the current bar is the last one, and the completed bars emitted are the others. */
  ghost predicate Refines(s: State, ts: seq<Tick>, interval: int, i: Instrument)
    requires 0 < interval
  {
    && Filed(s.bars)
    && (i in s.bars <==> ts != [])
    && (ts != [] ==> s.bars[i] == Bars(ts, interval)[|Bars(ts, interval)| - 1])
    && CompletedOf(s.emitted, i) == Closed(ts, interval)
  }

  lemma CompletedSnoc(bars: seq<Bar>, b: Bar, i: Instrument)
    ensures CompletedOf(bars + [b], i) == CompletedOf(bars, i) + if b.instrument == i && b.complete then [b] else []
  {
    assert (bars + [b])[..|bars|] == bars;
  }

  lemma BarsSnoc(ts: seq<Tick>, t: Tick, interval: int)
    requires 0 < interval
    ensures Bars(ts + [t], interval) == Extended(Bars(ts, interval), t, interval)
  {
    assert (ts + [t])[..|ts|] == ts;
  }

  lemma AllCompletedAppend(bs: seq<Bar>, b: Bar)
    requires bs != []
    ensures AllCompleted((bs + [b])[..|bs|]) == AllCompleted(bs[..|bs| - 1]) + [Completed(bs[|bs| - 1])]
  {
    assert (bs + [b])[..|bs|] == bs;
    assert AllCompleted(bs) == AllCompleted(bs[..|bs| - 1]) + [Completed(bs[|bs| - 1])];
  }

  lemma AllCompletedReplace(bs: seq<Bar>, b: Bar)
    requires bs != []
    ensures AllCompleted((bs[..|bs| - 1] + [b])[..|bs| - 1]) == AllCompleted(bs[..|bs| - 1])
  {
    assert (bs[..|bs| - 1] + [b])[..|bs| - 1] == bs[..|bs| - 1];
  }

  lemma ClosedSnoc(ts: seq<Tick>, t: Tick, interval: int)
    requires 0 < interval && ts != []
    ensures var bs, bs' := Bars(ts, interval), Bars(ts + [t], interval);
      var last := bs[|bs| - 1];
      if Align(t.time, interval) != last.start then
        bs'[|bs'| - 1] == NewBar(t, interval) && Closed(ts + [t], interval) == Closed(ts, interval) + [Completed(last)]
      else bs'[|bs'| - 1] == Updated(last, t) && Closed(ts + [t], interval) == Closed(ts, interval)
  {
    var bs := Bars(ts, interval);
    BarsSnoc(ts, t, interval);
    if Align(t.time, interval) != bs[|bs| - 1].start {
      AllCompletedAppend(bs, NewBar(t, interval));
    } else {
      AllCompletedReplace(bs, Updated(bs[|bs| - 1], t));
    }
  }

  /** Every bar is filed under its own instrument. */
  ghost predicate Filed(bars: map<Instrument, Bar>) {
    forall j | j in bars :: bars[j].instrument == j
  }

  lemma OtherIngested(s: State, t: Tick, interval: int, i: Instrument)
    requires 0 < interval && Filed(s.bars) && t.instrument != i
    ensures var r := Ingested(s, t, interval);
      && Filed(r.bars) && (i in r.bars <==> i in s.bars) && (i in s.bars ==> r.bars[i] == s.bars[i])
      && CompletedOf(r.emitted, i) == CompletedOf(s.emitted, i)
  {
    if t.instrument in s.bars {
      CompletedSnoc(s.emitted, Completed(s.bars[t.instrument]), i);
    }
  }

  lemma OtherRefines(s: State, ts: seq<Tick>, t: Tick, interval: int, i: Instrument)
    requires 0 < interval && Refines(s, ts, interval, i) && t.instrument != i
    ensures Refines(Ingested(s, t, interval), ts, interval, i)
  {
    OtherIngested(s, t, interval, i);
  }

  lemma FirstIngested(s: State, t: Tick, interval: int)
    requires 0 < interval && Filed(s.bars) && t.instrument !in s.bars
    ensures var r := Ingested(s, t, interval);
      && Filed(r.bars) && t.instrument in r.bars && r.bars[t.instrument] == NewBar(t, interval)
      && r.emitted == s.emitted
  {}

  lemma NextIngested(s: State, t: Tick, interval: int)
    requires 0 < interval && Filed(s.bars) && t.instrument in s.bars
    ensures var r, i := Ingested(s, t, interval), t.instrument;
      && Filed(r.bars) && i in r.bars
      && if Align(t.time, interval) != s.bars[i].start then
           r.bars[i] == NewBar(t, interval)
           && CompletedOf(r.emitted, i) == CompletedOf(s.emitted, i) + [Completed(s.bars[i])]
         else r.bars[i] == Updated(s.bars[i], t) && r.emitted == s.emitted
  {
    CompletedSnoc(s.emitted, Completed(s.bars[t.instrument]), t.instrument);
  }

  lemma OneTick(t: Tick, interval: int)
    requires 0 < interval
    ensures Bars([t], interval) == [NewBar(t, interval)]
    ensures Closed([t], interval) == []
  {
    assert [t][..0] == [];
  }

  lemma OwnRefines(s: State, ts: seq<Tick>, t: Tick, interval: int, i: Instrument)
    requires 0 < interval && Refines(s, ts, interval, i) && t.instrument == i
    ensures Refines(Ingested(s, t, interval), ts + [t], interval, i)
  {
    if ts == [] {
      assert ts + [t] == [t];
      FirstIngested(s, t, interval);
      OneTick(t, interval);
    } else {
      NextIngested(s, t, interval);
      ClosedSnoc(ts, t, interval);
    }
  }

  /** The aggregator's map and channel, for each instrument: the current bar, and everything before it
      completed, whatever ticks of other instruments and flushes come in between. */
  lemma {:induction false} RunRefinesBars(events: seq<Event>, interval: int, i: Instrument)
    requires 0 < interval
    ensures Refines(Run(events, interval), TicksOf(events, i), interval, i)
  {
    if events != [] {
      var n := |events| - 1;
      RunRefinesBars(events[..n], interval, i);
      var s, ts := Run(events[..n], interval), TicksOf(events[..n], i);
      assert Run(events, interval) == Step(s, events[n], interval) && ts + [] == ts;
      match events[n]
      case Flush(keys) =>
        FlushedShape(s, keys, i);
        assert TicksOf(events, i) == ts;
      case Ingest(t) =>
        assert TicksOf(events, i) == if t.instrument == i then ts + [t] else ts;
        if t.instrument == i {
          OwnRefines(s, ts, t, interval, i);
        } else {
          OtherRefines(s, ts, t, interval, i);
        }
    }
  }

  // ---------------------------------------------------------------- grouping

  function MaxPrice(ts: seq<Tick>): real
    requires ts != []
  {
    if |ts| == 1 then ts[0].price else Max(MaxPrice(ts[..|ts| - 1]), ts[|ts| - 1].price)
  }

  function MinPrice(ts: seq<Tick>): real
    requires ts != []
  {
    if |ts| == 1 then ts[0].price else Min(MinPrice(ts[..|ts| - 1]), ts[|ts| - 1].price)
  }

  function VolumeOf(ts: seq<Tick>): real {
    if ts == [] then 0.0 else VolumeOf(ts[..|ts| - 1]) + ts[|ts| - 1].volume
  }

  /** The bar of a group of ticks. */
  function Summary(ts: seq<Tick>, start: int, interval: int): Bar
    requires ts != []
  {
    Bar(ts[0].instrument, ts[0].venue, ts[0].price, MaxPrice(ts), MinPrice(ts), ts[|ts| - 1].price, VolumeOf(ts),
        start, 0, |ts|, false, interval)
  }

  /** The ticks that fall in one period. */
  function InPeriod(ts: seq<Tick>, start: int, interval: int): seq<Tick>
    requires 0 < interval
  {
    if ts == [] then []
    else
      var t := ts[|ts| - 1];
      InPeriod(ts[..|ts| - 1], start, interval) + if Align(t.time, interval) == start then [t] else []
  }

  ghost predicate NonDecreasing(ts: seq<Tick>) {
    forall j, k | 0 <= j < k < |ts| :: ts[j].time <= ts[k].time
  }

  ghost predicate Increasing(bs: seq<Bar>) {
    forall j, k | 0 <= j < k < |bs| :: bs[j].start < bs[k].start
  }

  lemma RemainderStep(s: int, d: int, p: int)
    requires 0 < p && 0 <= d
    ensures s - s % p <= s + d - (s + d) % p
  {
    var a, b := s / p, (s + d) / p;
    assert s == a * p + s % p && s + d == b * p + (s + d) % p;
    if b < a {
      TimesMonotone(b + 1, a, p);
    } else {
      TimesMonotone(a, b, p);
    }
  }

  lemma TimesMonotone(a: int, b: int, p: int)
    requires a <= b && 0 < p
    ensures a * p <= b * p
  {}

  lemma AlignMonotone(s: int, t: int, interval: int)
    requires 0 < interval && s <= t
    ensures Align(s, interval) <= Align(t, interval)
  {
    if 0 <= s {
      RemainderStep(s, t - s, interval);
    } else if t < 0 {
      RemainderStep(-t, t - s, interval);
    } else {
      assert s <= Align(s, interval) <= 0 by { RemainderStep(0, -s, interval); }
      assert 0 <= Align(t, interval) by { RemainderStep(0, t, interval); }
    }
  }

  lemma SummaryGrows(ts: seq<Tick>, t: Tick, start: int, interval: int)
    requires ts != []
    ensures Summary(ts + [t], start, interval) == Updated(Summary(ts, start, interval), t)
  {
    assert (ts + [t])[..|ts|] == ts;
  }

  /** The bars group the ticks, and the last tick is in the last bar. */
  ghost predicate GroupedSoFar(ts: seq<Tick>, bs: seq<Bar>, interval: int)
    requires 0 < interval
  {
    && Grouped(ts, bs, interval)
    && (bs == [] <==> ts == [])
    && (ts != [] ==> bs[|bs| - 1].start == Align(ts[|ts| - 1].time, interval))
  }

  lemma GroupStep(ts: seq<Tick>, bs: seq<Bar>, t: Tick, interval: int)
    requires 0 < interval && GroupedSoFar(ts, bs, interval) && (ts != [] ==> ts[|ts| - 1].time <= t.time)
    ensures GroupedSoFar(ts + [t], Extended(bs, t, interval), interval)
  {
    if ts != [] {
      AlignMonotone(ts[|ts| - 1].time, t.time, interval);
    }
    GroupsGrow(ts, bs, t, interval);
    assert (ts + [t])[|ts|] == t;
  }

  lemma OneMoreGrouped(before: seq<Tick>, t: Tick, ts: seq<Tick>, interval: int)
    requires 0 < interval && ts == before + [t] && (before != [] ==> before[|before| - 1].time <= t.time)
    requires GroupedSoFar(before, Bars(before, interval), interval)
    ensures GroupedSoFar(ts, Bars(ts, interval), interval)
  {
    BarsSnoc(before, t, interval);
    GroupStep(before, Bars(before, interval), t, interval);
  }

  /** With non-decreasing times there is one bar per period that has ticks, in increasing order, and each
      is the summary of exactly the ticks of its period. */
  lemma {:induction false} BarsAreGroups(ts: seq<Tick>, interval: int)
    requires 0 < interval && NonDecreasing(ts)
    ensures GroupedSoFar(ts, Bars(ts, interval), interval)
  {
    if ts != [] {
      var n := |ts| - 1;
      BarsAreGroups(ts[..n], interval);
      OneMoreGrouped(ts[..n], ts[n], ts, interval);
    }
  }

  ghost predicate HasBar(bs: seq<Bar>, start: int) {
    exists k :: 0 <= k < |bs| && bs[k].start == start
  }

  ghost predicate Covered(ts: seq<Tick>, bs: seq<Bar>, interval: int)
    requires 0 < interval
  {
    forall t | t in ts :: HasBar(bs, Align(t.time, interval))
  }

  ghost predicate Grouped(ts: seq<Tick>, bs: seq<Bar>, interval: int)
    requires 0 < interval
  {
    && Increasing(bs)
    && (forall k | 0 <= k < |bs| :: BarIs(bs[k], ts, interval))
    && Covered(ts, bs, interval)
  }

  ghost predicate BarIs(b: Bar, ts: seq<Tick>, interval: int)
    requires 0 < interval
  {
    InPeriod(ts, b.start, interval) != [] && b == Summary(InPeriod(ts, b.start, interval), b.start, interval)
  }

  lemma InPeriodSnoc(ts: seq<Tick>, t: Tick, start: int, interval: int)
    requires 0 < interval
    ensures InPeriod(ts + [t], start, interval)
         == InPeriod(ts, start, interval) + if Align(t.time, interval) == start then [t] else []
  {
    assert (ts + [t])[..|ts|] == ts;
  }

  /** A bar does not notice a tick of another period. */
  lemma OldBarIs(b: Bar, ts: seq<Tick>, t: Tick, interval: int)
    requires 0 < interval && BarIs(b, ts, interval) && Align(t.time, interval) != b.start
    ensures BarIs(b, ts + [t], interval)
  {
    InPeriodSnoc(ts, t, b.start, interval);
    assert InPeriod(ts + [t], b.start, interval) == InPeriod(ts, b.start, interval);
  }

  lemma NewBarIs(ts: seq<Tick>, bs: seq<Bar>, t: Tick, interval: int)
    requires 0 < interval && Covered(ts, bs, interval) && !HasBar(bs, Align(t.time, interval))
    ensures BarIs(NewBar(t, interval), ts + [t], interval)
  {
    var start := Align(t.time, interval);
    NothingInPeriod(ts, bs, start, interval);
    InPeriodSnoc(ts, t, start, interval);
    assert InPeriod(ts + [t], start, interval) == [t];
    assert VolumeOf([t][..0]) == 0.0;
    assert VolumeOf([t]) == t.volume;
    assert MaxPrice([t]) == t.price && MinPrice([t]) == t.price;
    assert Summary([t], start, interval) == NewBar(t, interval);
  }

  lemma UpdatedBarIs(b: Bar, ts: seq<Tick>, t: Tick, interval: int)
    requires 0 < interval && BarIs(b, ts, interval) && b.start == Align(t.time, interval)
    ensures BarIs(Updated(b, t), ts + [t], interval)
  {
    SummaryGrows(InPeriod(ts, b.start, interval), t, b.start, interval);
    InPeriodSnoc(ts, t, b.start, interval);
  }

  ghost predicate NotAfter(bs: seq<Bar>, start: int) {
    bs != [] ==> bs[|bs| - 1].start <= start
  }

  /** Extending keeps the bars before the last, and the order. */
  lemma ExtendedOrder(bs: seq<Bar>, t: Tick, interval: int)
    requires 0 < interval && Increasing(bs) && NotAfter(bs, Align(t.time, interval))
    ensures var bs' := Extended(bs, t, interval);
      && Increasing(bs') && bs'[|bs'| - 1].start == Align(t.time, interval)
      && |bs| <= |bs'| <= |bs| + 1
      && (forall k | 0 <= k < |bs'| - 1 :: bs'[k] == bs[k] && bs[k].start < Align(t.time, interval))
      && (forall k | 0 <= k < |bs| :: bs'[k].start == bs[k].start)
  {}

  lemma OldBarsStay(ts: seq<Tick>, bs: seq<Bar>, n: nat, t: Tick, interval: int)
    requires 0 < interval && n <= |bs| && forall k | 0 <= k < n :: BarIs(bs[k], ts, interval)
    requires forall k | 0 <= k < n :: bs[k].start < Align(t.time, interval)
    ensures forall k | 0 <= k < n :: BarIs(bs[k], ts + [t], interval)
  {
    forall k | 0 <= k < n ensures BarIs(bs[k], ts + [t], interval) {
      OldBarIs(bs[k], ts, t, interval);
    }
  }

  lemma GroupsGrow(ts: seq<Tick>, bs: seq<Bar>, t: Tick, interval: int)
    requires 0 < interval && Grouped(ts, bs, interval) && NotAfter(bs, Align(t.time, interval))
    ensures var bs' := Extended(bs, t, interval);
      Grouped(ts + [t], bs', interval) && bs'[|bs'| - 1].start == Align(t.time, interval)
  {
    var bs' := Extended(bs, t, interval);
    ExtendedOrder(bs, t, interval);
    OldBarsStay(ts, bs, |bs'| - 1, t, interval);
    LastBarIs(ts, bs, t, interval);
    CoversAll(ts, bs, t, bs', interval);
  }

  lemma AllBelow(bs: seq<Bar>, start: int)
    requires Increasing(bs) && (bs != [] ==> bs[|bs| - 1].start < start)
    ensures !HasBar(bs, start)
  {}

  lemma LastBarIs(ts: seq<Tick>, bs: seq<Bar>, t: Tick, interval: int)
    requires 0 < interval && Grouped(ts, bs, interval) && NotAfter(bs, Align(t.time, interval))
    ensures var bs' := Extended(bs, t, interval); BarIs(bs'[|bs'| - 1], ts + [t], interval)
  {
    var start := Align(t.time, interval);
    if bs != [] && bs[|bs| - 1].start == start {
      UpdatedBarIs(bs[|bs| - 1], ts, t, interval);
    } else {
      AllBelow(bs, start);
      NewBarIs(ts, bs, t, interval);
    }
  }

  lemma CoversAll(ts: seq<Tick>, bs: seq<Bar>, t: Tick, bs': seq<Bar>, interval: int)
    requires 0 < interval && Covered(ts, bs, interval)
    requires |bs| <= |bs'| && forall k | 0 <= k < |bs| :: bs'[k].start == bs[k].start
    requires bs' != [] && bs'[|bs'| - 1].start == Align(t.time, interval)
    ensures Covered(ts + [t], bs', interval)
  {
    forall u | u in ts + [t] ensures HasBar(bs', Align(u.time, interval)) {
      if u in ts {
        var k :| 0 <= k < |bs| && bs[k].start == Align(u.time, interval);
        assert bs'[k].start == Align(u.time, interval);
      } else {
        assert bs'[|bs'| - 1].start == Align(u.time, interval);
      }
    }
  }

  lemma {:induction false} NothingInPeriod(ts: seq<Tick>, bs: seq<Bar>, start: int, interval: int)
    requires 0 < interval && Covered(ts, bs, interval) && !HasBar(bs, start)
    ensures InPeriod(ts, start, interval) == []
  {
    if ts != [] {
      var n := |ts| - 1;
      assert ts[n] in ts;
      NothingInPeriod(ts[..n], bs, start, interval);
    }
  }

  // ---------------------------------------------------------------- nothing lost, nothing twice

  function BarVolume(bs: seq<Bar>): real {
    if bs == [] then 0.0 else BarVolume(bs[..|bs| - 1]) + bs[|bs| - 1].volume
  }

  function BarTicks(bs: seq<Bar>): nat {
    if bs == [] then 0 else BarTicks(bs[..|bs| - 1]) + bs[|bs| - 1].ticks
  }

  /** For any order of timestamps, the bars together hold every tick once and all of the volume. */
  lemma {:induction false} BarsPartitionTicks(ts: seq<Tick>, interval: int)
    requires 0 < interval
    ensures BarVolume(Bars(ts, interval)) == VolumeOf(ts) && BarTicks(Bars(ts, interval)) == |ts|
  {
    if ts != [] {
      var n := |ts| - 1;
      BarsPartitionTicks(ts[..n], interval);
      var before, after := Bars(ts[..n], interval), Bars(ts, interval);
      if |after| > |before| {
        assert after[..|before|] == before;
      } else {
        assert after[..|before| - 1] == before[..|before| - 1];
      }
    }
  }
}
