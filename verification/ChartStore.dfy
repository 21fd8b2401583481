/** The chart store of dashboard/src/stores/marketDataStore.ts, fed by the aggregator. */
module ChartStore {
  import opened Routing
  import opened Aggregator
  import opened OhlcBars

  const MAX_BARS := 500

  type Store = map<string, seq<Bar>>

  // ---------------------------------------------------------------- keys

  function Digits(n: nat): (s: string)
    ensures s != "" && ':' !in s
  {
    var d := ["0", "1", "2", "3", "4", "5", "6", "7", "8", "9"][n % 10];
    if n < 10 then d else Digits(n / 10) + d
  }

  /** The tag of an interval in seconds. */
  function Label(interval: int): (s: string)
    requires 0 < interval
    ensures ':' !in s
  {
    if interval == 60 then "1m" else if interval == 300 then "5m" else Digits(interval) + "s"
  }

  function KeyOf(i: Instrument, tag: string): string {
    i + ":" + tag
  }

  lemma LastColon(i: Instrument, l: string)
    requires ':' !in l
    ensures var k := KeyOf(i, l); k[|i|] == ':' && forall p | |i| < p < |k| :: k[p] != ':'
  {
    var k := KeyOf(i, l);
    forall p | |i| < p < |k| ensures k[p] != ':' {
      assert k[p] == l[p - |i| - 1];
    }
  }

  /** Although instrument names may contain colons, labels do not, so keys do not collide. */
  lemma KeysDiffer(i: Instrument, l: string, j: Instrument, m: string)
    requires ':' !in l && ':' !in m && KeyOf(i, l) == KeyOf(j, m)
    ensures i == j && l == m
  {
    var k := KeyOf(i, l);
    LastColon(i, l);
    LastColon(j, m);
    assert |i| == |j|;
    assert k[..|i|] == i && k[..|j|] == j;
    assert k[|i| + 1..] == l && k[|j| + 1..] == m;
  }

  // ---------------------------------------------------------------- updates

  /** Replace the last bar of the same period, else append. */
  function Placed(existing: seq<Bar>, update: Bar): (r: seq<Bar>)
    ensures r != []
  {
    if existing != [] && existing[|existing| - 1].start == update.start then existing[..|existing| - 1] + [update]
    else existing + [update]
  }

  function Last(n: nat, bs: seq<Bar>): seq<Bar> {
    if |bs| > n then bs[|bs| - n..] else bs
  }

  function GetBars(s: Store, key: string): seq<Bar> {
    if key in s then s[key] else []
  }

  function ApplyUpdate(s: Store, update: Bar): Store
    requires 0 < update.interval
  {
    var key := KeyOf(update.instrument, Label(update.interval));
    s[key := Last(MAX_BARS, Placed(GetBars(s, key), update))]
  }

  ghost predicate Labelled(bs: seq<Bar>) {
    forall b | b in bs :: 0 < b.interval
  }

  function Chart(updates: seq<Bar>): Store
    requires Labelled(updates)
  {
    if updates == [] then map[] else ApplyUpdate(Chart(updates[..|updates| - 1]), updates[|updates| - 1])
  }

  // ---------------------------------------------------------------- one key

  /** The updates of one instrument and tag. */
  function UpdatesOf(updates: seq<Bar>, i: Instrument, tag: string): seq<Bar>
    requires Labelled(updates)
  {
    if updates == [] then []
    else
      var b := updates[|updates| - 1];
      UpdatesOf(updates[..|updates| - 1], i, tag) + if b.instrument == i && Label(b.interval) == tag then [b] else []
  }

  /** What a chart without a cap would hold. */
  function Uncapped(updates: seq<Bar>): seq<Bar> {
    if updates == [] then [] else Placed(Uncapped(updates[..|updates| - 1]), updates[|updates| - 1])
  }

  lemma PlacedCapped(bs: seq<Bar>, b: Bar)
    ensures Last(MAX_BARS, Placed(Last(MAX_BARS, bs), b)) == Last(MAX_BARS, Placed(bs, b))
  {
    var n := |bs| - MAX_BARS;
    if 0 < n {
      var capped := bs[n..];
      assert capped[|capped| - 1] == bs[|bs| - 1];
      assert (bs[..|bs| - 1] + [b])[n..] == capped[..|capped| - 1] + [b];
      assert (bs + [b])[n + 1..] == (capped + [b])[1..];
    }
  }

  /** Each key holds the capped chart of its own updates, however updates of other keys interleave. */
  lemma {:induction false} ChartProjects(updates: seq<Bar>, i: Instrument, tag: string)
    requires Labelled(updates) && ':' !in tag
    ensures GetBars(Chart(updates), KeyOf(i, tag)) == Last(MAX_BARS, Uncapped(UpdatesOf(updates, i, tag)))
  {
    if updates != [] {
      var n := |updates| - 1;
      var b := updates[n];
      ChartProjects(updates[..n], i, tag);
      var mine := UpdatesOf(updates[..n], i, tag);
      if b.instrument == i && Label(b.interval) == tag {
        assert (mine + [b])[..|mine|] == mine;
        PlacedCapped(Uncapped(mine), b);
      } else {
        assert UpdatesOf(updates, i, tag) == mine;
        if KeyOf(b.instrument, Label(b.interval)) == KeyOf(i, tag) {
          KeysDiffer(b.instrument, Label(b.interval), i, tag);
        }
      }
    }
  }

  // ---------------------------------------------------------------- fed by an aggregator

  /** The partial bar the chart shows for the current period: the one of the last flush in it, if any. */
  function Tail(events: seq<Event>, i: Instrument, interval: int): seq<Bar>
    requires 0 < interval
  {
    if events == [] then []
    else
      var n := |events| - 1;
      var ts, tail := TicksOf(events[..n], i), Tail(events[..n], i, interval);
      match events[n]
      case Ingest(t) =>
        if t.instrument == i && ts != [] && Align(t.time, interval) != Current(ts, interval).start then [] else tail
      case Flush(keys) =>
        if i in keys && ts != [] then [Partial(Current(ts, interval))] else tail
  }

  function Current(ts: seq<Tick>, interval: int): Bar
    requires 0 < interval && ts != []
  {
    Bars(ts, interval)[|Bars(ts, interval)| - 1]
  }

  /** The bars an observer of the aggregator knows of: the completed ones and the flushed partial one. */
  function Logical(events: seq<Event>, i: Instrument, interval: int): seq<Bar>
    requires 0 < interval
  {
    Closed(TicksOf(events, i), interval) + Tail(events, i, interval)
  }

  lemma UpdatesSnoc(bs: seq<Bar>, b: Bar, i: Instrument, tag: string)
    requires Labelled(bs + [b])
    ensures Labelled(bs)
    ensures UpdatesOf(bs + [b], i, tag)
         == UpdatesOf(bs, i, tag) + if b.instrument == i && Label(b.interval) == tag then [b] else []
  {
    assert forall c | c in bs :: c in bs + [b];
    assert (bs + [b])[..|bs|] == bs && b in bs + [b];
  }

  lemma UncappedSnoc(bs: seq<Bar>, b: Bar)
    ensures Uncapped(bs + [b]) == Placed(Uncapped(bs), b)
  {
    assert (bs + [b])[..|bs|] == bs;
  }

  ghost predicate OfInterval(bs: seq<Bar>, interval: int) {
    forall b | b in bs :: b.interval == interval
  }

  /** What is known of one instrument after a run: its tail, if any, is of the current period. */
  ghost predicate Shown(s: State, ts: seq<Tick>, tail: seq<Bar>, i: Instrument, interval: int)
    requires 0 < interval
  {
    && Refines(s, ts, interval, i)
    && (forall j | j in s.bars :: s.bars[j].interval == interval)
    && OfInterval(s.emitted, interval)
    && |tail| <= 1 && (tail != [] ==> ts != [] && tail[0].start == Current(ts, interval).start)
    && (forall t | t in ts :: t.instrument == i)
    && Charted(s.emitted, ts, tail, i, interval)
  }

  /** The uncapped chart of what was emitted. */
  ghost predicate Charted(emitted: seq<Bar>, ts: seq<Tick>, tail: seq<Bar>, i: Instrument, interval: int)
    requires 0 < interval
  {
    Labelled(emitted) && Uncapped(UpdatesOf(emitted, i, Label(interval))) == Closed(ts, interval) + tail
  }

  /** A bar takes the place of a partial version of itself, and of nothing else. */
  lemma PlacedOn(closed: seq<Bar>, tail: seq<Bar>, b: Bar)
    requires |tail| <= 1 && (tail != [] ==> tail[0].start == b.start)
    requires closed != [] ==> closed[|closed| - 1].start != b.start
    ensures Placed(closed + tail, b) == closed + [b]
  {
    if tail == [] {
      assert closed + tail == closed;
    } else {
      assert (closed + tail)[..|closed|] == closed;
    }
  }

  lemma ClosedApart(ts: seq<Tick>, i: Instrument, interval: int)
    requires 0 < interval && ts != [] && forall t | t in ts :: t.instrument == i
    ensures var closed := Closed(ts, interval);
      closed != [] ==> closed[|closed| - 1].start != Current(ts, interval).start
  {
    var bs := Bars(ts, interval);
    BarsShape(ts, interval, i);
    var n := |bs| - 1;
    if n > 0 {
      assert bs[n - 1].start != bs[n].start;
      assert Closed(ts, interval)[n - 1] == Completed(bs[..n][n - 1]);
    }
  }

  lemma EmitShown(s: State, b: Bar, ts: seq<Tick>, tail: seq<Bar>, i: Instrument, interval: int)
    requires 0 < interval && Shown(s, ts, tail, i, interval) && b.interval == interval
    requires b.instrument == i ==> ts != [] && b.start == Current(ts, interval).start
    ensures Labelled(s.emitted + [b])
    ensures Uncapped(UpdatesOf(s.emitted + [b], i, Label(interval)))
         == Closed(ts, interval) + if b.instrument == i then [b] else tail
  {
    UpdatesSnoc(s.emitted, b, i, Label(interval));
    if b.instrument == i {
      UncappedSnoc(UpdatesOf(s.emitted, i, Label(interval)), b);
      ClosedApart(ts, i, interval);
      PlacedOn(Closed(ts, interval), tail, b);
    } else {
      assert UpdatesOf(s.emitted + [b], i, Label(interval)) == UpdatesOf(s.emitted, i, Label(interval));
    }
  }

  function TailAfterFlush(keys: seq<Instrument>, ts: seq<Tick>, tail: seq<Bar>, i: Instrument, interval: int): seq<Bar>
    requires 0 < interval
  {
    if i in keys && ts != [] then [Partial(Current(ts, interval))] else tail
  }

  lemma FlushOne(r: State, key: Instrument, ts: seq<Tick>, tail: seq<Bar>, i: Instrument, interval: int)
    requires 0 < interval && Shown(r, ts, tail, i, interval) && key in r.bars
    ensures Shown(r.(emitted := r.emitted + [Partial(r.bars[key])]), ts,
                  if key == i then [Partial(Current(ts, interval))] else tail, i, interval)
  {
    var b := Partial(r.bars[key]);
    assert b.instrument == key;
    EmitShown(r, b, ts, tail, i, interval);
    CompletedSnoc(r.emitted, b, i);
  }

  lemma TailFlushSnoc(keys: seq<Instrument>, ts: seq<Tick>, tail: seq<Bar>, i: Instrument, interval: int)
    requires 0 < interval && keys != []
    ensures TailAfterFlush(keys, ts, tail, i, interval)
         == if keys[|keys| - 1] == i && ts != [] then [Partial(Current(ts, interval))]
            else TailAfterFlush(keys[..|keys| - 1], ts, tail, i, interval)
  {
    assert keys == keys[..|keys| - 1] + [keys[|keys| - 1]];
  }

  lemma {:induction false} FlushShown(
      s: State, keys: seq<Instrument>, ts: seq<Tick>, tail: seq<Bar>, i: Instrument, interval: int)
    requires 0 < interval && Shown(s, ts, tail, i, interval)
    ensures Shown(Flushed(s, keys), ts, TailAfterFlush(keys, ts, tail, i, interval), i, interval)
    ensures Flushed(s, keys).bars == s.bars
  {
    if keys != [] {
      var n := |keys| - 1;
      FlushShown(s, keys[..n], ts, tail, i, interval);
      var r, tail' := Flushed(s, keys[..n]), TailAfterFlush(keys[..n], ts, tail, i, interval);
      TailFlushSnoc(keys, ts, tail, i, interval);
      if keys[n] in s.bars {
        FlushOne(r, keys[n], ts, tail', i, interval);
        assert Flushed(s, keys) == r.(emitted := r.emitted + [Partial(r.bars[keys[n]])]);
      } else {
        assert Flushed(s, keys) == r;
      }
    }
  }

  /** Ingesting keeps the interval, and emits at most the bar it completes. */
  lemma IngestedEmits(s: State, t: Tick, interval: int)
    requires 0 < interval && (forall j | j in s.bars :: s.bars[j].interval == interval)
    requires OfInterval(s.emitted, interval)
    ensures var r := Ingested(s, t, interval);
      && (forall j | j in r.bars :: r.bars[j].interval == interval) && OfInterval(r.emitted, interval)
      && (r.emitted == s.emitted
          || (t.instrument in s.bars && r.emitted == s.emitted + [Completed(s.bars[t.instrument])]))
  {}

  lemma OtherShown(s: State, t: Tick, ts: seq<Tick>, tail: seq<Bar>, i: Instrument, interval: int)
    requires 0 < interval && Shown(s, ts, tail, i, interval) && t.instrument != i
    ensures Shown(Ingested(s, t, interval), ts, tail, i, interval)
  {
    OtherRefines(s, ts, t, interval, i);
    IngestedEmits(s, t, interval);
    if t.instrument in s.bars {
      EmitShown(s, Completed(s.bars[t.instrument]), ts, tail, i, interval);
    }
  }

  lemma TicksSnoc(ts: seq<Tick>, t: Tick, i: Instrument)
    requires t.instrument == i && forall u | u in ts :: u.instrument == i
    ensures forall u | u in ts + [t] :: u.instrument == i
  {}

  lemma SamePeriodShown(s: State, t: Tick, ts: seq<Tick>, tail: seq<Bar>, i: Instrument, interval: int)
    requires 0 < interval && Shown(s, ts, tail, i, interval) && t.instrument == i && ts != []
    requires Align(t.time, interval) == Current(ts, interval).start
    ensures Shown(Ingested(s, t, interval), ts + [t], tail, i, interval)
  {
    OwnRefines(s, ts, t, interval, i);
    ClosedSnoc(ts, t, interval);
    TicksSnoc(ts, t, i);
  }

  lemma NewPeriodCharted(s: State, t: Tick, ts: seq<Tick>, tail: seq<Bar>, i: Instrument, interval: int)
    requires 0 < interval && Shown(s, ts, tail, i, interval) && t.instrument == i && ts != []
    requires Align(t.time, interval) != Current(ts, interval).start
    ensures Charted(s.emitted + [Completed(s.bars[i])], ts + [t], [], i, interval)
  {
    EmitShown(s, Completed(s.bars[i]), ts, tail, i, interval);
    ClosedSnoc(ts, t, interval);
    assert Closed(ts + [t], interval) + [] == Closed(ts + [t], interval);
  }

  lemma NewPeriodShown(s: State, t: Tick, ts: seq<Tick>, tail: seq<Bar>, i: Instrument, interval: int)
    requires 0 < interval && Shown(s, ts, tail, i, interval) && t.instrument == i && ts != []
    requires Align(t.time, interval) != Current(ts, interval).start
    ensures Shown(Ingested(s, t, interval), ts + [t], [], i, interval)
  {
    var s' := Ingested(s, t, interval);
    assert s' == State(s.bars[i := NewBar(t, interval)], s.emitted + [Completed(s.bars[i])]);
    NewPeriodCharted(s, t, ts, tail, i, interval);
    OwnRefines(s, ts, t, interval, i);
    TicksSnoc(ts, t, i);
  }

  lemma FirstShown(s: State, t: Tick, tail: seq<Bar>, i: Instrument, interval: int)
    requires 0 < interval && Shown(s, [], tail, i, interval) && t.instrument == i
    ensures Shown(Ingested(s, t, interval), [t], tail, i, interval)
  {
    OwnRefines(s, [], t, interval, i);
    assert [] + [t] == [t];
    OneTick(t, interval);
  }

  lemma {:induction false} RunShown(events: seq<Event>, i: Instrument, interval: int)
    requires 0 < interval
    ensures Shown(Run(events, interval), TicksOf(events, i), Tail(events, i, interval), i, interval)
  {
    if events != [] {
      var n := |events| - 1;
      RunShown(events[..n], i, interval);
      var s, ts, tail := Run(events[..n], interval), TicksOf(events[..n], i), Tail(events[..n], i, interval);
      assert ts + [] == ts;
      match events[n]
      case Ingest(t) =>
        if t.instrument != i {
          OtherShown(s, t, ts, tail, i, interval);
        } else if ts == [] {
          FirstShown(s, t, tail, i, interval);
          assert ts + [t] == [t];
        } else if Align(t.time, interval) == Current(ts, interval).start {
          SamePeriodShown(s, t, ts, tail, i, interval);
        } else {
          NewPeriodShown(s, t, ts, tail, i, interval);
        }
      case Flush(keys) => FlushShown(s, keys, ts, tail, i, interval);
    }
  }

  /** Fed everything an aggregator emits, the chart of an instrument and interval always holds the last 500
      logical bars: every one but the newest is completed, and the newest is completed or a partial version
      of the current bar. */
  lemma {:induction false} ChartHoldsLogicalBars(events: seq<Event>, i: Instrument, interval: int)
    requires 0 < interval
    ensures var s := Run(events, interval);
      Labelled(s.emitted)
      && GetBars(Chart(s.emitted), KeyOf(i, Label(interval))) == Last(MAX_BARS, Logical(events, i, interval))
    ensures var tail, ts := Tail(events, i, interval), TicksOf(events, i);
      |tail| <= 1 && (tail != [] ==> ts != [] && tail[0].start == Current(ts, interval).start)
  {
    RunShown(events, i, interval);
    ChartProjects(Run(events, interval).emitted, i, Label(interval));
  }

  /** With non-decreasing tick times the chart has one bar per period, strictly increasing. */
  lemma ChartIncreases(events: seq<Event>, i: Instrument, interval: int)
    requires 0 < interval && NonDecreasing(TicksOf(events, i))
    ensures Increasing(Logical(events, i, interval)) && Increasing(Last(MAX_BARS, Logical(events, i, interval)))
  {
    RunShown(events, i, interval);
    var ts := TicksOf(events, i);
    BarsAreGroups(ts, interval);
    if ts != [] {
      TailIncreases(Bars(ts, interval), Tail(events, i, interval));
    }
  }

  lemma TailIncreases(bs: seq<Bar>, tail: seq<Bar>)
    requires bs != [] && Increasing(bs) && |tail| <= 1 && (tail != [] ==> tail[0].start == bs[|bs| - 1].start)
    ensures var logical := AllCompleted(bs[..|bs| - 1]) + tail;
      Increasing(logical) && Increasing(Last(MAX_BARS, logical))
  {
    var logical := AllCompleted(bs[..|bs| - 1]) + tail;
    assert forall k | 0 <= k < |logical| :: logical[k].start == bs[k].start;
  }

  // ---------------------------------------------------------------- fed by two aggregators

  /** Two streams of bars taken into one channel, each in its own order. */
  ghost predicate Interleaves(all: seq<Bar>, xs: seq<Bar>, ys: seq<Bar>)
    decreases |all|
  {
    if all == [] then xs == [] && ys == []
    else
      var n := |all| - 1;
      || (xs != [] && xs[|xs| - 1] == all[n] && Interleaves(all[..n], xs[..|xs| - 1], ys))
      || (ys != [] && ys[|ys| - 1] == all[n] && Interleaves(all[..n], xs, ys[..|ys| - 1]))
  }

  lemma {:induction false} InterleavesSwapped(all: seq<Bar>, xs: seq<Bar>, ys: seq<Bar>)
    requires Interleaves(all, xs, ys)
    ensures Interleaves(all, ys, xs)
    decreases |all|
  {
    if all != [] {
      var n := |all| - 1;
      if xs != [] && xs[|xs| - 1] == all[n] && Interleaves(all[..n], xs[..|xs| - 1], ys) {
        InterleavesSwapped(all[..n], xs[..|xs| - 1], ys);
      } else {
        InterleavesSwapped(all[..n], xs, ys[..|ys| - 1]);
      }
    }
  }

  ghost predicate Tagged(bs: seq<Bar>, tag: string) {
    forall b | b in bs :: 0 < b.interval && Label(b.interval) == tag
  }

  ghost predicate Untagged(bs: seq<Bar>, tag: string) {
    forall b | b in bs :: 0 < b.interval && Label(b.interval) != tag
  }

  lemma LastUpdate(bs: seq<Bar>, i: Instrument, tag: string)
    requires bs != [] && Labelled(bs[..|bs| - 1]) && 0 < bs[|bs| - 1].interval
    ensures Labelled(bs)
    ensures var b := bs[|bs| - 1];
      UpdatesOf(bs, i, tag)
      == UpdatesOf(bs[..|bs| - 1], i, tag) + if b.instrument == i && Label(b.interval) == tag then [b] else []
  {
    assert bs == bs[..|bs| - 1] + [bs[|bs| - 1]];
  }

  /** The updates of one tag are those of the stream that has it. */
  lemma {:induction false} UpdatesApart(all: seq<Bar>, xs: seq<Bar>, ys: seq<Bar>, i: Instrument, tag: string)
    requires Tagged(xs, tag) && Untagged(ys, tag) && Interleaves(all, xs, ys)
    ensures Labelled(all) && Labelled(xs) && UpdatesOf(all, i, tag) == UpdatesOf(xs, i, tag)
    decreases |all|
  {
    if all != [] {
      var n, m := |all| - 1, |xs| - 1;
      if xs != [] && xs[m] == all[n] && Interleaves(all[..n], xs[..m], ys) {
        assert all[n] in xs;
        UpdatesApart(all[..n], xs[..m], ys, i, tag);
        LastUpdate(all, i, tag);
        LastUpdate(xs, i, tag);
      } else {
        assert all[n] in ys;
        UpdatesApart(all[..n], xs, ys[..|ys| - 1], i, tag);
        LastUpdate(all, i, tag);
        assert UpdatesOf(all[..n], i, tag) + [] == UpdatesOf(all[..n], i, tag);
      }
    }
  }

  lemma DigitsEnd(n: nat)
    ensures |Digits(n)| == 1 <==> n < 10
    ensures Digits(n)[|Digits(n)| - 1] == ["0", "1", "2", "3", "4", "5", "6", "7", "8", "9"][n % 10][0]
    ensures 10 <= n ==> Digits(n)[..|Digits(n)| - 1] == Digits(n / 10)
  {}

  lemma DigitDiffers(a: nat, b: nat)
    requires a < 10 && b < 10
    ensures var d := ["0", "1", "2", "3", "4", "5", "6", "7", "8", "9"]; d[a][0] == d[b][0] ==> a == b
  {}

  lemma {:induction false} DigitsDiffer(n: nat, m: nat)
    requires Digits(n) == Digits(m)
    ensures n == m
  {
    DigitsEnd(n);
    DigitsEnd(m);
    DigitDiffers(n % 10, m % 10);
    if 10 <= n {
      DigitsDiffer(n / 10, m / 10);
    }
  }

  /** Different intervals have different tags. */
  lemma LabelsDiffer(p: int, q: int)
    requires 0 < p && 0 < q && Label(p) == Label(q)
    ensures p == q
  {
    assert Label(p)[..|Label(p)| - 1] == Label(q)[..|Label(q)| - 1];
    if p != 60 && p != 300 {
      assert Label(p)[|Label(p)| - 1] == 's';
      assert Label(p)[..|Label(p)| - 1] == Digits(p) && Label(q)[..|Label(q)| - 1] == Digits(q);
      DigitsDiffer(p, q);
    }
  }

  lemma OneSeriesOfTwo(updates: seq<Bar>, events: seq<Event>, others: seq<Bar>, i: Instrument, p: int, q: int)
    requires 0 < p && 0 < q && p != q && OfInterval(others, q) && Interleaves(updates, Run(events, p).emitted, others)
    ensures Labelled(updates) && GetBars(Chart(updates), KeyOf(i, Label(p))) == Last(MAX_BARS, Logical(events, i, p))
  {
    RunShown(events, i, p);
    if Label(p) == Label(q) {
      LabelsDiffer(p, q);
    }
    UpdatesApart(updates, Run(events, p).emitted, others, i, Label(p));
    ChartProjects(updates, i, Label(p));
  }

  /** Two aggregators of different intervals feed one channel: however their bars interleave in it, and
      whatever each of them is fed, the chart holds the last 500 logical bars of both. */
  lemma ChartHoldsBothSeries(
      updates: seq<Bar>, events: seq<Event>, p: int, events': seq<Event>, q: int, i: Instrument, j: Instrument)
    requires 0 < p && 0 < q && p != q
    requires Interleaves(updates, Run(events, p).emitted, Run(events', q).emitted)
    ensures Labelled(updates)
    ensures GetBars(Chart(updates), KeyOf(i, Label(p))) == Last(MAX_BARS, Logical(events, i, p))
    ensures GetBars(Chart(updates), KeyOf(j, Label(q))) == Last(MAX_BARS, Logical(events', j, q))
  {
    RunShown(events, i, p);
    RunShown(events', j, q);
    OneSeriesOfTwo(updates, events, Run(events', q).emitted, i, p, q);
    InterleavesSwapped(updates, Run(events, p).emitted, Run(events', q).emitted);
    OneSeriesOfTwo(updates, events', Run(events, p).emitted, j, q, p);
  }
}
