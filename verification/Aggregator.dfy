/** The OHLC bar aggregator of gateway/internal/marketdata/aggregator.go. Timestamps are whole seconds,
    which is all that aligning a tick to its period looks at. */
module Aggregator {
  import opened Routing
  import opened Decimals

  datatype Tick = Tick(instrument: Instrument, venue: VenueId, price: real, volume: real, time: int)

  datatype Bar = Bar(
    instrument: Instrument, venue: VenueId, open: real, high: real, low: real, close: real, volume: real,
    start: int, end: int, ticks: nat, complete: bool, interval: int)

  /** The remainder of a division that truncates toward zero. */
  function Remainder(a: int, b: int): int
    requires 0 < b
  {
    if a < 0 then -(-a % b) else a % b
  }

  function Align(time: int, interval: int): int
    requires 0 < interval
  {
    time - Remainder(time, interval)
  }

  function Max(x: real, y: real): real {
    if y > x then y else x
  }

  function NewBar(t: Tick, interval: int): Bar
    requires 0 < interval
  {
    Bar(t.instrument, t.venue, t.price, t.price, t.price, t.price, t.volume,
        Align(t.time, interval), 0, 1, false, interval)
  }

  function Updated(b: Bar, t: Tick): Bar {
    b.(high := Max(b.high, t.price), low := Min(b.low, t.price), close := t.price,
       volume := b.volume + t.volume, ticks := b.ticks + 1)
  }

  function Completed(b: Bar): Bar {
    b.(complete := true, end := b.start + b.interval)
  }

  function Partial(b: Bar): Bar {
    b.(complete := false, end := b.start + b.interval)
  }

  /** Bars offered one after the other to a channel; a full channel drops them. */
  function Offered(out: seq<Bar>, bars: seq<Bar>, capacity: nat): seq<Bar> {
    if bars == [] then out
    else
      var r := Offered(out, bars[..|bars| - 1], capacity);
      if |r| < capacity then r + [bars[|bars| - 1]] else r
  }

  lemma OfferedSnoc(out: seq<Bar>, bars: seq<Bar>, b: Bar, capacity: nat)
    ensures var r := Offered(out, bars, capacity);
      Offered(out, bars + [b], capacity) == if |r| < capacity then r + [b] else r
  {
    assert (bars + [b])[..|bars|] == bars;
  }

  /** The channel takes the first bars for which it has room, in order, and drops the rest. */
  lemma {:induction false} OfferedIsPrefix(out: seq<Bar>, bars: seq<Bar>, capacity: nat)
    requires |out| <= capacity
    ensures var room := capacity - |out|;
      Offered(out, bars, capacity) == out + bars[..if |bars| <= room then |bars| else room]
  {
    if bars != [] {
      OfferedIsPrefix(out, bars[..|bars| - 1], capacity);
    }
  }

  class Aggregator {
    const interval: int
    const capacity: nat
    var bars: map<Instrument, Bar>
    var out: seq<Bar>
    ghost var emitted: seq<Bar>  // everything offered to the channel

    constructor (interval: int, capacity: nat)
      requires 0 < interval
      ensures this.interval == interval && this.capacity == capacity
      ensures bars == map[] && out == [] && emitted == []
    {
      this.interval, this.capacity := interval, capacity;
      bars, out, emitted := map[], [], [];
    }

    /** A full channel drops the bar rather than block ingestion. */
    method Emit(b: Bar)
      modifies this`out, this`emitted
      ensures emitted == old(emitted) + [b]
      ensures out == if old(|out|) < capacity then old(out) + [b] else old(out)
    {
      emitted := emitted + [b];
      if |out| < capacity {
        out := out + [b];
      }
    }

    method Ingest(t: Tick)
      requires 0 < interval
      modifies this
      ensures var s := Ingested(State(old(bars), old(emitted)), t, interval);
        bars == s.bars && emitted == s.emitted
      ensures old(emitted) <= emitted && out == Offered(old(out), emitted[|old(emitted)|..], capacity)
    {
      var periodStart := Align(t.time, interval);
      if t.instrument !in bars {
        bars := bars[t.instrument := NewBar(t, interval)];
        return;
      }
      var bar := bars[t.instrument];
      if periodStart != bar.start {
        bar := bar.(complete := true);
        bar := bar.(end := bar.start + bar.interval);
        Emit(bar);
        assert emitted[|old(emitted)|..] == [bar] && [bar][..0] == [];
        bars := bars[t.instrument := NewBar(t, interval)];
        return;
      }
      if t.price > bar.high {
        bar := bar.(high := t.price);
      }
      if t.price < bar.low {
        bar := bar.(low := t.price);
      }
      bar := bar.(close := t.price, volume := bar.volume + t.volume, ticks := bar.ticks + 1);
      bars := bars[t.instrument := bar];
    }

    /** Emits every current bar, in the order `keys` in which the map is walked. */
    method Flush(keys: seq<Instrument>)
      requires forall i :: i in keys <==> i in bars
      modifies this`out, this`emitted
      ensures emitted == Flushed(State(bars, old(emitted)), keys).emitted
      ensures old(emitted) <= emitted && out == Offered(old(out), emitted[|old(emitted)|..], capacity)
    {
      ghost var sent: seq<Bar> := [];
      for k := 0 to |keys|
        invariant emitted == old(emitted) + sent == Flushed(State(bars, old(emitted)), keys[..k]).emitted
        invariant out == Offered(old(out), sent, capacity)
      {
        assert keys[..k + 1] == keys[..k] + [keys[k]] && keys[k] in bars;
        FlushedSnoc(State(bars, old(emitted)), keys[..k], keys[k]);
        OfferedSnoc(old(out), sent, Partial(bars[keys[k]]), capacity);
        Emit(Partial(bars[keys[k]]));
        sent := sent + [Partial(bars[keys[k]])];
      }
      assert emitted[|old(emitted)|..] == sent;
      assert keys[..|keys|] == keys;
    }
  }

  // ---------------------------------------------------------------- on values

  datatype State = State(bars: map<Instrument, Bar>, emitted: seq<Bar>)

  function Ingested(s: State, t: Tick, interval: int): State
    requires 0 < interval
  {
    if t.instrument !in s.bars then s.(bars := s.bars[t.instrument := NewBar(t, interval)])
    else
      var b := s.bars[t.instrument];
      if Align(t.time, interval) != b.start then
        State(s.bars[t.instrument := NewBar(t, interval)], s.emitted + [Completed(b)])
      else s.(bars := s.bars[t.instrument := Updated(b, t)])
  }

  function Flushed(s: State, keys: seq<Instrument>): State {
    if keys == [] then s
    else
      var r := Flushed(s, keys[..|keys| - 1]);
      var i := keys[|keys| - 1];
      if i in s.bars then r.(emitted := r.emitted + [Partial(s.bars[i])]) else r
  }

  lemma FlushedSnoc(s: State, keys: seq<Instrument>, i: Instrument)
    requires i in s.bars
    ensures Flushed(s, keys + [i]).emitted == Flushed(s, keys).emitted + [Partial(s.bars[i])]
  {
    assert (keys + [i])[..|keys|] == keys;
  }

  datatype Event = Ingest(tick: Tick) | Flush(keys: seq<Instrument>)

  function Step(s: State, e: Event, interval: int): State
    requires 0 < interval
  {
    match e
    case Ingest(t) => Ingested(s, t, interval)
    case Flush(keys) => Flushed(s, keys)
  }

  function Run(events: seq<Event>, interval: int): State
    requires 0 < interval
  {
    if events == [] then State(map[], [])
    else Step(Run(events[..|events| - 1], interval), events[|events| - 1], interval)
  }
}
