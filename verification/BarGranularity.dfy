/** Coarse bars are the merge of fine bars: the two aggregators of gateway/cmd/gateway/main.go are fed
    the same ticks at intervals of one and five minutes. */
module BarGranularity {
  import opened Routing
  import opened Decimals
  import opened Aggregator
  import opened OhlcBars

  function MaxHigh(bs: seq<Bar>): real
    requires bs != []
  {
    if |bs| == 1 then bs[0].high else Max(MaxHigh(bs[..|bs| - 1]), bs[|bs| - 1].high)
  }

  function MinLow(bs: seq<Bar>): real
    requires bs != []
  {
    if |bs| == 1 then bs[0].low else Min(MinLow(bs[..|bs| - 1]), bs[|bs| - 1].low)
  }

  /** First open, highest high, lowest low, last close, summed volume and tick count. */
  function Merged(bs: seq<Bar>, start: int, interval: int): Bar
    requires bs != []
  {
    Bar(bs[0].instrument, bs[0].venue, bs[0].open, MaxHigh(bs), MinLow(bs), bs[|bs| - 1].close, BarVolume(bs),
        start, 0, BarTicks(bs), false, interval)
  }

  /** The fine bars inside one coarse period. */
  function Within(bs: seq<Bar>, start: int, interval: int): seq<Bar>
    requires 0 < interval
  {
    if bs == [] then []
    else
      var b := bs[|bs| - 1];
      Within(bs[..|bs| - 1], start, interval) + if Align(b.start, interval) == start then [b] else []
  }

  // ---------------------------------------------------------------- alignment

  lemma ModOfMultiple(a: int, b: int, p: int)
    requires 0 < p
    ensures (a * p + b) % p == b % p
  {
    var x, y := (a * p + b) / p, b / p;
    assert a * p + b == x * p + (a * p + b) % p && b == y * p + b % p;
    var d := x - y - a;
    assert d * p == x * p - y * p - a * p;
    SmallMultiple(d, p);
  }

  lemma SmallMultiple(d: int, p: int)
    requires 0 < p && -p < d * p < p
    ensures d == 0
  {
    if 1 <= d {
      TimesMonotone(1, d, p);
    } else if d <= -1 {
      TimesMonotone(d, -1, p);
    }
  }

  /** Rounding m * q + r down to a multiple of p, and then of q, when q is a multiple of p. */
  lemma ModOfParts(m: int, r: int, p: int, q: int, c: int)
    requires 0 < p && 0 < q && 0 <= r < q && m * q == c * p
    ensures (m * q + r) % p == r % p
    ensures (m * q + (r - r % p)) % q == r - r % p
  {
    ModOfMultiple(c, r, p);
    var s := r - r % p;
    RemainderStep(0, r, p);
    assert 0 <= s < q;
    ModOfMultiple(m, s, q);
    SmallMod(s, q);
  }

  lemma SmallMod(s: int, q: int)
    requires 0 <= s < q
    ensures s % q == s
  {}

  lemma Regroup(m: int, p: int, k: int)
    ensures m * (p * k) == (m * k) * p
  {}

  lemma ModNested(t: int, p: int, k: int)
    requires 0 < p && 0 < k && 0 <= t
    ensures 0 < p * k
    ensures (t - t % p) - (t - t % p) % (p * k) == t - t % (p * k)
  {
    assert 0 < p * k by { TimesMonotone(1, k, p); }
    var q := p * k;
    var m, r := t / q, t % q;
    assert t == m * q + r;
    Regroup(m, p, k);
    ModOfParts(m, r, p, q, m * k);
  }

  /** Aligning to a fine period first does not change the coarse period. */
  lemma {:induction false} AlignNested(t: int, p: int, k: int)
    requires 0 < p && 0 < k
    ensures 0 < p * k && Align(Align(t, p), p * k) == Align(t, p * k)
  {
    ModNested(if t < 0 then -t else t, p, k);
    assert 0 <= (if t < 0 then -t else t) - (if t < 0 then -t else t) % p by {
      RemainderStep(0, if t < 0 then -t else t, p);
    }
  }

  // ---------------------------------------------------------------- merging grows with the ticks

  lemma WithinSnoc(bs: seq<Bar>, b: Bar, start: int, interval: int)
    requires 0 < interval
    ensures Within(bs + [b], start, interval)
         == Within(bs, start, interval) + if Align(b.start, interval) == start then [b] else []
  {
    assert (bs + [b])[..|bs|] == bs;
  }

  lemma MergedOne(t: Tick, p: int, q: int)
    requires 0 < p && 0 < q
    ensures Merged([NewBar(t, p)], Align(t.time, q), q) == NewBar(t, q)
  {
    var b := NewBar(t, p);
    assert BarVolume([b][..0]) == 0.0 && BarTicks([b][..0]) == 0;
    assert BarVolume([b]) == t.volume && BarTicks([b]) == 1;
  }

  lemma MergedAppend(ws: seq<Bar>, t: Tick, p: int, start: int, q: int)
    requires 0 < p && ws != []
    ensures Merged(ws + [NewBar(t, p)], start, q) == Updated(Merged(ws, start, q), t)
  {
    assert (ws + [NewBar(t, p)])[..|ws|] == ws;
  }

  lemma MergedUpdate(ws: seq<Bar>, last: Bar, t: Tick, start: int, q: int)
    ensures Merged(ws + [Updated(last, t)], start, q) == Updated(Merged(ws + [last], start, q), t)
  {
    assert (ws + [Updated(last, t)])[..|ws|] == ws && (ws + [last])[..|ws|] == ws;
  }

  // ---------------------------------------------------------------- the invariant

  ghost predicate MergeOf(b: Bar, fine: seq<Bar>, q: int)
    requires 0 < q
  {
    Within(fine, b.start, q) != [] && b == Merged(Within(fine, b.start, q), b.start, q)
  }

  ghost predicate Consistent(fine: seq<Bar>, coarse: seq<Bar>, q: int)
    requires 0 < q
  {
    && Increasing(coarse)
    && (forall k | 0 <= k < |coarse| :: MergeOf(coarse[k], fine, q))
    && (forall j | 0 <= j < |fine| :: HasBar(coarse, Align(fine[j].start, q)))
    && (fine == [] <==> coarse == [])
    && (fine != [] ==> coarse[|coarse| - 1].start == Align(fine[|fine| - 1].start, q))
  }

  lemma {:induction false} NothingWithin(fine: seq<Bar>, coarse: seq<Bar>, start: int, q: int)
    requires 0 < q && !HasBar(coarse, start) && forall j | 0 <= j < |fine| :: HasBar(coarse, Align(fine[j].start, q))
    ensures Within(fine, start, q) == []
  {
    if fine != [] {
      NothingWithin(fine[..|fine| - 1], coarse, start, q);
    }
  }

  /** A change to the fine bars of one coarse period does not touch the merges of the others. */
  lemma OtherMerge(b: Bar, fine: seq<Bar>, t: Tick, p: int, q: int)
    requires 0 < p && 0 < q && MergeOf(b, fine, q) && b.start != Align(t.time, q)
    requires Align(Align(t.time, p), q) == Align(t.time, q)
    ensures MergeOf(b, Extended(fine, t, p), q)
  {
    if Extends(fine, t, p) {
      var n := |fine| - 1;
      assert fine == fine[..n] + [fine[n]];
      WithinSnoc(fine[..n], fine[n], b.start, q);
      WithinSnoc(fine[..n], Updated(fine[n], t), b.start, q);
    } else {
      WithinSnoc(fine, NewBar(t, p), b.start, q);
      assert Within(Extended(fine, t, p), b.start, q) == Within(fine, b.start, q);
    }
  }

  /** The tick falls in the period of the last bar. */
  predicate Extends(bs: seq<Bar>, t: Tick, p: int)
    requires 0 < p
  {
    bs != [] && bs[|bs| - 1].start == Align(t.time, p)
  }

  lemma LastMergeUpdated(fine: seq<Bar>, coarse: seq<Bar>, t: Tick, p: int, q: int)
    requires 0 < p && 0 < q && Consistent(fine, coarse, q) && NotAfter(coarse, Align(t.time, q)) && Extends(fine, t, p)
    requires Align(Align(t.time, p), q) == Align(t.time, q)
    ensures var coarse' := Extended(coarse, t, q); MergeOf(coarse'[|coarse'| - 1], Extended(fine, t, p), q)
  {
    var start, n := Align(t.time, q), |fine| - 1;
    assert fine == fine[..n] + [fine[n]];
    WithinSnoc(fine[..n], fine[n], start, q);
    WithinSnoc(fine[..n], Updated(fine[n], t), start, q);
    MergedUpdate(Within(fine[..n], start, q), fine[n], t, start, q);
    assert MergeOf(coarse[|coarse| - 1], fine, q);
  }

  lemma LastMergeStarted(fine: seq<Bar>, coarse: seq<Bar>, t: Tick, p: int, q: int)
    requires 0 < p && 0 < q && Consistent(fine, coarse, q) && NotAfter(coarse, Align(t.time, q)) && !Extends(fine, t, p)
    requires Align(Align(t.time, p), q) == Align(t.time, q)
    ensures var coarse' := Extended(coarse, t, q); MergeOf(coarse'[|coarse'| - 1], Extended(fine, t, p), q)
  {
    var start := Align(t.time, q);
    WithinSnoc(fine, NewBar(t, p), start, q);
    if Extends(coarse, t, q) {
      assert MergeOf(coarse[|coarse| - 1], fine, q);
      MergedAppend(Within(fine, start, q), t, p, start, q);
    } else {
      AllBelow(coarse, start);
      NothingWithin(fine, coarse, start, q);
      assert Within(Extended(fine, t, p), start, q) == [NewBar(t, p)];
      MergedOne(t, p, q);
    }
  }

  lemma LastMerge(fine: seq<Bar>, coarse: seq<Bar>, t: Tick, p: int, q: int)
    requires 0 < p && 0 < q && Consistent(fine, coarse, q) && NotAfter(coarse, Align(t.time, q))
    requires Align(Align(t.time, p), q) == Align(t.time, q)
    ensures var coarse' := Extended(coarse, t, q); MergeOf(coarse'[|coarse'| - 1], Extended(fine, t, p), q)
  {
    if Extends(fine, t, p) {
      LastMergeUpdated(fine, coarse, t, p, q);
    } else {
      LastMergeStarted(fine, coarse, t, p, q);
    }
  }

  lemma ConsistentGrows(fine: seq<Bar>, coarse: seq<Bar>, t: Tick, p: int, q: int)
    requires 0 < p && 0 < q && Consistent(fine, coarse, q) && NotAfter(coarse, Align(t.time, q))
    requires Align(Align(t.time, p), q) == Align(t.time, q)
    ensures Consistent(Extended(fine, t, p), Extended(coarse, t, q), q)
  {
    var fine', coarse' := Extended(fine, t, p), Extended(coarse, t, q);
    ExtendedOrder(coarse, t, q);
    LastMerge(fine, coarse, t, p, q);
    forall k | 0 <= k < |coarse'| ensures MergeOf(coarse'[k], fine', q) {
      if k < |coarse'| - 1 {
        assert MergeOf(coarse[k], fine, q);
        OtherMerge(coarse[k], fine, t, p, q);
      }
    }
    StillCovered(fine, coarse, fine', coarse', t, q);
  }

  lemma StillCovered(fine: seq<Bar>, coarse: seq<Bar>, fine': seq<Bar>, coarse': seq<Bar>, t: Tick, q: int)
    requires 0 < q && forall j | 0 <= j < |fine| :: HasBar(coarse, Align(fine[j].start, q))
    requires |coarse| <= |coarse'| && forall k | 0 <= k < |coarse| :: coarse'[k].start == coarse[k].start
    requires fine' != [] && |fine'| <= |fine| + 1 && forall j | 0 <= j < |fine'| - 1 :: fine'[j] == fine[j]
    requires coarse' != [] && coarse'[|coarse'| - 1].start == Align(fine'[|fine'| - 1].start, q)
    ensures forall j | 0 <= j < |fine'| :: HasBar(coarse', Align(fine'[j].start, q))
  {
    forall j | 0 <= j < |fine'| ensures HasBar(coarse', Align(fine'[j].start, q)) {
      if j < |fine'| - 1 {
        var k :| 0 <= k < |coarse| && coarse[k].start == Align(fine[j].start, q);
        assert coarse'[k].start == Align(fine'[j].start, q);
      } else {
        assert coarse'[|coarse'| - 1].start == Align(fine'[j].start, q);
      }
    }
  }

  lemma {:induction false} StreamsConsistent(ts: seq<Tick>, p: int, k: int)
    requires 0 < p && 0 < k && NonDecreasing(ts)
    ensures 0 < p * k && Consistent(Bars(ts, p), Bars(ts, p * k), p * k)
    ensures ts != [] ==> Bars(ts, p * k)[|Bars(ts, p * k)| - 1].start == Align(ts[|ts| - 1].time, p * k)
  {
    AlignNested(0, p, k);
    if ts != [] {
      var n := |ts| - 1;
      StreamsConsistent(ts[..n], p, k);
      if n > 0 {
        AlignMonotone(ts[n - 1].time, ts[n].time, p * k);
      }
      AlignNested(ts[n].time, p, k);
      ConsistentGrows(Bars(ts[..n], p), Bars(ts[..n], p * k), ts[n], p, p * k);
      ExtendedOrder(Bars(ts[..n], p * k), ts[n], p * k);
    }
  }

  // ---------------------------------------------------------------- completed bars

  lemma {:induction false} CompletedAlike(bs: seq<Bar>, start: int, q: int)
    requires 0 < q
    ensures Within(AllCompleted(bs), start, q) == AllCompleted(Within(bs, start, q))
  {
    if bs != [] {
      var n := |bs| - 1;
      CompletedAlike(bs[..n], start, q);
      assert AllCompleted(bs)[..n] == AllCompleted(bs[..n]);
    }
  }

  lemma {:induction false} MergedAlike(bs: seq<Bar>)
    requires bs != []
    ensures var cs := AllCompleted(bs);
      MaxHigh(cs) == MaxHigh(bs) && MinLow(cs) == MinLow(bs) && BarVolume(cs) == BarVolume(bs)
      && BarTicks(cs) == BarTicks(bs)
  {
    var n := |bs| - 1;
    assert AllCompleted(bs)[..n] == AllCompleted(bs[..n]);
    if n > 0 {
      MergedAlike(bs[..n]);
    } else {
      assert BarVolume(bs[..0]) == 0.0 == BarVolume(AllCompleted(bs)[..0]);
      assert BarTicks(bs[..0]) == 0 == BarTicks(AllCompleted(bs)[..0]);
    }
  }

  /** Fed the same ticks with non-decreasing times, every completed coarse bar is exactly the merge of the
      completed fine bars inside its period. */
  lemma CoarseBarsMergeFineBars(ts: seq<Tick>, p: int, k: int, n: nat)
    requires 0 < p && 0 < k && 0 < p * k && NonDecreasing(ts) && n < |Closed(ts, p * k)|
    ensures var b, inside := Closed(ts, p * k)[n], Within(Closed(ts, p), Closed(ts, p * k)[n].start, p * k);
      inside != [] && b == Completed(Merged(inside, b.start, p * k))
  {
    var q := p * k;
    var fine, coarse := Bars(ts, p), Bars(ts, q);
    StreamsConsistent(ts, p, k);
    assert MergeOf(coarse[n], fine, q);
    var start, m := coarse[n].start, |fine| - 1;
    assert start < coarse[|coarse| - 1].start;
    assert fine == fine[..m] + [fine[m]];
    WithinSnoc(fine[..m], fine[m], start, q);
    assert Within(fine[..m], start, q) == Within(fine, start, q);
    CompletedAlike(fine[..m], start, q);
    MergedAlike(Within(fine, start, q));
  }

  /** Of any two aggregators that have seen the same ticks of an instrument, whatever else they saw and
      whenever they flushed: each completed bar the coarse one emitted is the merge of the completed bars
      the fine one emitted in its period. */
  lemma EmittedBarsMerge(fineEvents: seq<Event>, coarseEvents: seq<Event>, i: Instrument, p: int, k: int, n: nat)
    requires 0 < p && 0 < k && 0 < p * k
    requires TicksOf(fineEvents, i) == TicksOf(coarseEvents, i) && NonDecreasing(TicksOf(fineEvents, i))
    requires n < |CompletedOf(Run(coarseEvents, p * k).emitted, i)|
    ensures var b := CompletedOf(Run(coarseEvents, p * k).emitted, i)[n];
      var inside := Within(CompletedOf(Run(fineEvents, p).emitted, i), b.start, p * k);
      inside != [] && b == Completed(Merged(inside, b.start, p * k))
  {
    RunRefinesBars(fineEvents, p, i);
    RunRefinesBars(coarseEvents, p * k, i);
    CoarseBarsMergeFineBars(TicksOf(fineEvents, i), p, k, n);
  }
}
