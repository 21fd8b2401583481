/** Choosing venues: the price comparator of gateway/internal/router/price_comparator.go and the
    best-price strategy of gateway/internal/router/strategy_best_price.go. */
module VenueRanking {
  import opened Routing
  import opened Wrappers
  import opened Decimals
  import opened Ranking
  import Orders

  type Side = Orders.Side

  // ---------------------------------------------------------------- best price

  datatype Candidate = Candidate(venue: VenueId, bid: real, ask: real, depth: real, latency: int, fillRate: real)
  datatype StrategyError = NoCandidatesForStrategy

  /** The comparison of the strategy, as it branches. */
  predicate Better(side: Side, a: Candidate, b: Candidate) {
    var priceA, priceB := if side.Buy? then a.ask else a.bid, if side.Buy? then b.ask else b.bid;
    if priceA != priceB then (if side.Buy? then priceA < priceB else priceA > priceB)
    else if a.latency != b.latency then a.latency < b.latency
    else a.fillRate > b.fillRate
  }

  function KeyOf(side: Side, c: Candidate): Key {
    Key(if side.Buy? then c.ask else -c.bid, c.latency as real, -c.fillRate)
  }

  function KeysOf(side: Side, cs: seq<Candidate>): (keys: seq<Key>)
    ensures |keys| == |cs| && forall k | 0 <= k < |cs| :: keys[k] == KeyOf(side, cs[k])
  {
    seq(|cs|, k requires 0 <= k < |cs| => KeyOf(side, cs[k]))
  }

  lemma BetterIsLess(side: Side, a: Candidate, b: Candidate)
    ensures Better(side, a, b) <==> Less(KeyOf(side, a), KeyOf(side, b))
  {}

  /** The positions of the candidates in ranked order. */
  function Ranked(side: Side, cs: seq<Candidate>): (p: seq<nat>)
    ensures |p| == |cs| && forall x | x in p :: x < |cs|
  {
    Rank(KeysOf(side, cs), |cs|)
  }

  function ReasonOf(side: Side): Reason {
    if side.Buy? then LowestAsk else HighestBid
  }

  /** What the strategy answers: an error without candidates; the whole quantity to the best one if its depth
      suffices; else every candidate in ranked order, with its depth. */
  ghost predicate BestPriceAnswer(
      side: Side, quantity: real, candidates: seq<Candidate>, r: Result<seq<Allocation>, StrategyError>)
  {
    if candidates == [] then r == Failure(NoCandidatesForStrategy)
    else
      var p := Ranked(side, candidates);
      && r.Success? && (forall k | 0 <= k < |p| :: p[k] in p)
      && if candidates[p[0]].depth >= quantity
         then r.value == [Allocation(candidates[p[0]].venue, quantity, ReasonOf(side))]
         else |r.value| == |candidates|
              && forall k | 0 <= k < |p| ::
                r.value[k] == Allocation(candidates[p[k]].venue, candidates[p[k]].depth, ReasonOf(side))
  }

  method Evaluate(side: Side, quantity: real, candidates: seq<Candidate>)
    returns (r: Result<seq<Allocation>, StrategyError>)
    ensures BestPriceAnswer(side, quantity, candidates, r)
  {
    if |candidates| == 0 {
      return Failure(NoCandidatesForStrategy);
    }
    var p := Ranked(side, candidates);
    assert forall k | 0 <= k < |p| :: p[k] in p;
    var best := candidates[p[0]];
    if best.depth >= quantity {
      return Success([Allocation(best.venue, quantity, ReasonOf(side))]);
    }
    var allocs := [];
    for k := 0 to |p|
      invariant |allocs| == k
      invariant forall j | 0 <= j < k ::
        allocs[j] == Allocation(candidates[p[j]].venue, candidates[p[j]].depth, ReasonOf(side))
    {
      allocs := allocs + [Allocation(candidates[p[k]].venue, candidates[p[k]].depth, ReasonOf(side))];
    }
    return Success(allocs);
  }

  /** The ranking lists every candidate once; none further down is strictly better than one before it
      on price, latency and fill rate; and candidates equal on all three keep their order. */
  lemma RankingIsStablePermutation(side: Side, cs: seq<Candidate>)
    ensures var p := Ranked(side, cs);
      && (forall x: nat | x < |cs| :: x in p)
      && (forall i, j | 0 <= i < j < |p| ::
           p[i] in p && p[j] in p && p[i] != p[j]
           && !Better(side, cs[p[j]], cs[p[i]])
           && (!Better(side, cs[p[i]], cs[p[j]]) ==> p[i] < p[j]))
  {
    RankIsStable(KeysOf(side, cs));
    var p := Ranked(side, cs);
    forall i, j | 0 <= i < j < |p|
      ensures p[i] in p && p[j] in p && p[i] != p[j]
        && !Better(side, cs[p[j]], cs[p[i]]) && (!Better(side, cs[p[i]], cs[p[j]]) ==> p[i] < p[j])
    {
      assert p[i] in p && p[j] in p;
      assert Before(KeysOf(side, cs), p[i], p[j]);
      BetterIsLess(side, cs[p[j]], cs[p[i]]);
      BetterIsLess(side, cs[p[i]], cs[p[j]]);
    }
  }

  // ---------------------------------------------------------------- price comparator

  datatype Snapshot = Snapshot(bid: real, ask: real, timestamp: int)
  datatype Quote = Quote(venue: VenueId, snap: Snapshot)
  datatype Priced = Priced(venue: VenueId, bid: real, ask: real, spreadBps: real, diffBps: real)
  datatype CompareError = NoVenuesProvided | NoAvailableVenues

  /** Venues that answer with data no older than the cutoff, in the order asked. */
  function Fresh(venues: seq<VenueId>, answers: map<VenueId, Snapshot>, cutoff: int): seq<Quote> {
    if venues == [] then []
    else
      var v := venues[|venues| - 1];
      Fresh(venues[..|venues| - 1], answers, cutoff)
        + if v in answers && answers[v].timestamp >= cutoff then [Quote(v, answers[v])] else []
  }

  function SidePrice(side: Side, s: Snapshot): real {
    if side.Buy? then s.ask else s.bid
  }

  function Best(side: Side, quotes: seq<Quote>): real
    requires quotes != []
  {
    var last := SidePrice(side, quotes[|quotes| - 1].snap);
    if |quotes| == 1 then last
    else
      var best := Best(side, quotes[..|quotes| - 1]);
      if (side.Buy? && last < best) || (side.Sell? && last > best) then last else best
  }

  /** Distance from the best price in basis points, zero unless the best price is positive. */
  function Divergence(side: Side, s: Snapshot, best: real, g: Grid): real {
    if best <= 0.0 then 0.0
    else Div(if side.Buy? then s.ask - best else best - s.bid, best, g) * 10000.0
  }

  function Spread(s: Snapshot, g: Grid): real {
    var mid := Div(s.bid + s.ask, 2.0, g);
    if mid > 0.0 then Div(s.ask - s.bid, mid, g) * 10000.0 else 0.0
  }

  function PricedOf(side: Side, q: Quote, best: real, g: Grid): Priced {
    Priced(q.venue, q.snap.bid, q.snap.ask, Spread(q.snap, g), Divergence(side, q.snap, best, g))
  }

  function PriceKey(side: Side, s: Snapshot): Key {
    Key(if side.Buy? then s.ask else -s.bid, 0.0, 0.0)
  }

  function PriceKeys(side: Side, quotes: seq<Quote>): (keys: seq<Key>)
    ensures |keys| == |quotes| && forall k | 0 <= k < |quotes| :: keys[k] == PriceKey(side, quotes[k].snap)
  {
    seq(|quotes|, k requires 0 <= k < |quotes| => PriceKey(side, quotes[k].snap))
  }

  method CompareVenuePrices(
      venues: seq<VenueId>, answers: map<VenueId, Snapshot>, now: int, staleThreshold: int, side: Side, g: Grid)
    returns (r: Result<seq<Priced>, CompareError>)
    ensures venues == [] <==> r == Failure(NoVenuesProvided)
    ensures var quotes := Fresh(venues, answers, now - staleThreshold);
      && (venues != [] && quotes == [] <==> r == Failure(NoAvailableVenues))
      && (quotes != [] ==>
           var p := Rank(PriceKeys(side, quotes), |quotes|);
           r.Success? && |r.value| == |quotes|
           && forall k | 0 <= k < |p| :: p[k] in p && r.value[k] == PricedOf(side, quotes[p[k]], Best(side, quotes), g))
  {
    if |venues| == 0 {
      return Failure(NoVenuesProvided);
    }
    var quotes := CollectFresh(venues, answers, now - staleThreshold);
    if |quotes| == 0 {
      return Failure(NoAvailableVenues);
    }
    var bestPrice := BestPrice(side, quotes);
    var candidates := PriceQuotes(side, quotes, bestPrice, g);
    var p := Rank(PriceKeys(side, quotes), |quotes|);
    assert forall k | 0 <= k < |p| :: p[k] in p;
    return Success(seq(|p|, k requires 0 <= k < |p| => candidates[p[k]]));
  }

  method PriceQuotes(side: Side, quotes: seq<Quote>, bestPrice: real, g: Grid) returns (candidates: seq<Priced>)
    ensures |candidates| == |quotes|
    ensures forall j | 0 <= j < |quotes| :: candidates[j] == PricedOf(side, quotes[j], bestPrice, g)
  {
    candidates := [];
    for k := 0 to |quotes|
      invariant |candidates| == k
      invariant forall j | 0 <= j < k :: candidates[j] == PricedOf(side, quotes[j], bestPrice, g)
    {
      candidates := candidates + [PricedOf(side, quotes[k], bestPrice, g)];
    }
  }

  method CollectFresh(venues: seq<VenueId>, answers: map<VenueId, Snapshot>, cutoff: int) returns (quotes: seq<Quote>)
    ensures quotes == Fresh(venues, answers, cutoff)
  {
    quotes := [];
    for k := 0 to |venues|
      invariant quotes == Fresh(venues[..k], answers, cutoff)
    {
      assert venues[..k + 1][..k] == venues[..k];
      var v := venues[k];
      if v !in answers || answers[v].timestamp < cutoff {
        continue;
      }
      quotes := quotes + [Quote(v, answers[v])];
    }
    assert venues[..|venues|] == venues;
  }

  method BestPrice(side: Side, quotes: seq<Quote>) returns (bestPrice: real)
    requires quotes != []
    ensures bestPrice == Best(side, quotes)
  {
    bestPrice := SidePrice(side, quotes[0].snap);
    for k := 1 to |quotes|
      invariant bestPrice == Best(side, quotes[..k])
    {
      assert quotes[..k + 1][..k] == quotes[..k];
      var price := SidePrice(side, quotes[k].snap);
      if side.Buy? && price < bestPrice {
        bestPrice := price;
      } else if side.Sell? && price > bestPrice {
        bestPrice := price;
      }
    }
    assert quotes[..|quotes|] == quotes;
  }

  /** One more quote, when the best of those before is known. */
  lemma BestSnoc(side: Side, before: seq<Quote>, last: Quote, quotes: seq<Quote>)
    requires before != [] && quotes == before + [last]
    requires exists q :: q in before && SidePrice(side, q.snap) == Best(side, before)
    requires forall q | q in before :: AtLeastAsGood(side, Best(side, before), SidePrice(side, q.snap))
    ensures exists q :: q in quotes && SidePrice(side, q.snap) == Best(side, quotes)
    ensures forall q | q in quotes :: AtLeastAsGood(side, Best(side, quotes), SidePrice(side, q.snap))
  {
    assert quotes[..|quotes| - 1] == before;
    var was :| was in before && SidePrice(side, was.snap) == Best(side, before);
    assert was in quotes && last in quotes;
  }

  predicate AtLeastAsGood(side: Side, x: real, y: real) {
    if side.Buy? then x <= y else y <= x
  }

  lemma {:induction false} BestIsExtreme(side: Side, quotes: seq<Quote>)
    requires quotes != []
    ensures exists q :: q in quotes && SidePrice(side, q.snap) == Best(side, quotes)
    ensures forall q | q in quotes :: AtLeastAsGood(side, Best(side, quotes), SidePrice(side, q.snap))
  {
    var n := |quotes| - 1;
    if n > 0 {
      BestIsExtreme(side, quotes[..n]);
      BestSnoc(side, quotes[..n], quotes[n], quotes);
    } else {
      assert quotes == [quotes[0]] && quotes[0] in quotes;
    }
  }

  lemma {:induction false} FreshOnly(venues: seq<VenueId>, answers: map<VenueId, Snapshot>, cutoff: int)
    ensures forall q :: q in Fresh(venues, answers, cutoff) <==>
      q.venue in venues && q.venue in answers && q.snap == answers[q.venue] && cutoff <= q.snap.timestamp
  {
    if venues != [] {
      var n := |venues| - 1;
      FreshOnly(venues[..n], answers, cutoff);
      assert venues == venues[..n] + [venues[n]];
    }
  }

  /** How far a snapshot is behind the best price. */
  function Gap(side: Side, s: Snapshot, best: real): real {
    if side.Buy? then s.ask - best else best - s.bid
  }

  lemma DivergenceMonotone(side: Side, s: Snapshot, t: Snapshot, best: real, g: Grid)
    requires Gap(side, s, best) <= Gap(side, t, best)
    ensures Divergence(side, s, best, g) <= Divergence(side, t, best, g)
  {
    if 0.0 < best {
      DivMonotone(Gap(side, s, best), Gap(side, t, best), best, g);
    }
  }

  lemma DivergenceZero(side: Side, s: Snapshot, best: real, g: Grid)
    requires Gap(side, s, best) == 0.0
    ensures Divergence(side, s, best, g) == 0.0
  {
    if 0.0 < best {
      assert 0.0 == Steps(0, g);
      DivExactOnGrid(0.0, best, g);
    }
  }

  /** Only fresh venues are ranked, every one of them; the first carries the best price of the side and
      diverges by nothing, and divergences never decrease down the list, rounding included. */
  lemma ComparatorRanksByDivergence(
      venues: seq<VenueId>, answers: map<VenueId, Snapshot>, cutoff: int, side: Side, g: Grid)
    requires Fresh(venues, answers, cutoff) != []
    ensures var quotes := Fresh(venues, answers, cutoff);
      var p := Rank(PriceKeys(side, quotes), |quotes|);
      && (forall q :: q in quotes <==>
           q.venue in venues && q.venue in answers && q.snap == answers[q.venue] && cutoff <= q.snap.timestamp)
      && (forall x: nat | x < |quotes| :: x in p)
      && p[0] in p && SidePrice(side, quotes[p[0]].snap) == Best(side, quotes)
      && Divergence(side, quotes[p[0]].snap, Best(side, quotes), g) == 0.0
      && (forall i, j | 0 <= i < j < |p| :: p[i] in p && p[j] in p && p[i] != p[j] &&
           Divergence(side, quotes[p[i]].snap, Best(side, quotes), g)
           <= Divergence(side, quotes[p[j]].snap, Best(side, quotes), g))
  {
    var quotes := Fresh(venues, answers, cutoff);
    var p, best := Rank(PriceKeys(side, quotes), |quotes|), Best(side, quotes);
    FreshOnly(venues, answers, cutoff);
    RankIsStable(PriceKeys(side, quotes));
    forall i, j | 0 <= i < j < |p|
      ensures p[i] in p && p[j] in p && p[i] != p[j]
        && Divergence(side, quotes[p[i]].snap, best, g) <= Divergence(side, quotes[p[j]].snap, best, g)
    {
      assert p[i] in p && p[j] in p && Before(PriceKeys(side, quotes), p[i], p[j]);
      BeforeDivergesLess(side, quotes, p[i], p[j], g);
    }
    HeadIsBest(side, quotes, p);
    DivergenceZero(side, quotes[p[0]].snap, best, g);
  }

  lemma BeforeDivergesLess(side: Side, quotes: seq<Quote>, x: nat, y: nat, g: Grid)
    requires x < |quotes| && y < |quotes| && Before(PriceKeys(side, quotes), x, y)
    ensures Divergence(side, quotes[x].snap, Best(side, quotes), g)
         <= Divergence(side, quotes[y].snap, Best(side, quotes), g)
  {
    DivergenceMonotone(side, quotes[x].snap, quotes[y].snap, Best(side, quotes), g);
  }

  lemma HeadIsBest(side: Side, quotes: seq<Quote>, p: seq<nat>)
    requires quotes != [] && IsStableRanking(PriceKeys(side, quotes), p)
    ensures p[0] in p && SidePrice(side, quotes[p[0]].snap) == Best(side, quotes)
  {
    BestIsExtreme(side, quotes);
    var q :| q in quotes && SidePrice(side, q.snap) == Best(side, quotes);
    var x: nat :| x < |quotes| && quotes[x] == q;
    assert p[0] in p && x in p;
    var k :| 0 <= k < |p| && p[k] == x;
    assert quotes[p[0]] in quotes;
    if k != 0 {
      assert Before(PriceKeys(side, quotes), p[0], p[k]);
    }
  }
}
