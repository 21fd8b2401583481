/** What the best-price strategy and the price comparator answer, in terms of the candidates and quotes alone. */
module BestVenue {
  import opened Routing
  import opened Wrappers
  import opened Decimals
  import opened Totals
  import opened VenueRanking
  import Splitter

  // ---------------------------------------------------------------- the order of the answer

  /** Candidate a, at place i, may stand before candidate b, at place j: it has a better price for the side; at the same
      price a lower latency; at the same latency a higher fill rate; or all are equal and it came first. */
  predicate MayPrecede(side: Side, a: Candidate, i: nat, b: Candidate, j: nat) {
    if side.Buy? && a.ask != b.ask then a.ask < b.ask
    else if side.Sell? && a.bid != b.bid then b.bid < a.bid
    else if a.latency != b.latency then a.latency < b.latency
    else if a.fillRate != b.fillRate then b.fillRate < a.fillRate
    else i <= j
  }

  /** Every candidate once, none before one it may not precede. */
  ghost predicate InOrder(side: Side, cs: seq<Candidate>, p: seq<nat>) {
    && |p| == |cs| && (forall k | 0 <= k < |p| :: p[k] < |cs|)
    && (forall x: nat | x < |cs| :: x in p)
    && (forall i, j | 0 <= i < j < |p| :: p[i] != p[j] && MayPrecede(side, cs[p[i]], p[i], cs[p[j]], p[j]))
  }

  /** The candidate that may precede all. */
  ghost predicate IsBest(side: Side, cs: seq<Candidate>, b: nat) {
    b < |cs| && forall j | 0 <= j < |cs| :: MayPrecede(side, cs[b], b, cs[j], j)
  }

  lemma RankedInOrder(side: Side, cs: seq<Candidate>)
    ensures InOrder(side, cs, Ranked(side, cs))
  {
    var p := Ranked(side, cs);
    RankingIsStablePermutation(side, cs);
    forall k | 0 <= k < |p| ensures p[k] < |cs| {
      assert p[k] in p;
    }
  }

  lemma FirstIsBest(side: Side, cs: seq<Candidate>, p: seq<nat>)
    requires InOrder(side, cs, p) && cs != []
    ensures IsBest(side, cs, p[0])
    ensures forall b: nat | IsBest(side, cs, b) :: b == p[0]
  {
    forall j: nat | j < |cs| ensures MayPrecede(side, cs[p[0]], p[0], cs[j], j) {
      assert j in p;
      var k :| 0 <= k < |p| && p[k] == j;
    }
    forall b: nat | IsBest(side, cs, b) ensures b == p[0] {
      assert MayPrecede(side, cs[b], b, cs[p[0]], p[0]) && MayPrecede(side, cs[p[0]], p[0], cs[b], b);
    }
  }

  // ---------------------------------------------------------------- what is allocated

  /** The depths of all candidates together. */
  function AllDepth(cs: seq<Candidate>): real {
    if cs == [] then 0.0 else AllDepth(cs[..|cs| - 1]) + cs[|cs| - 1].depth
  }

  ghost function DepthsAt(cs: seq<Candidate>, p: seq<nat>): map<nat, real>
    requires forall x | x in p :: x < |cs|
  {
    map x | x in p :: cs[x].depth
  }

  lemma {:induction false} AllDepthIsTotal(cs: seq<Candidate>, m: map<nat, real>)
    requires forall x: nat :: x in m <==> x < |cs|
    requires forall x | x in m :: m[x] == cs[x].depth
    ensures AllDepth(cs) == Total(m)
  {
    if cs == [] {
      assert m == map[];
    } else {
      var n: nat := |cs| - 1;
      assert forall x: nat :: x in m - {n} <==> x < n;
      AllDepthIsTotal(cs[..n], m - {n});
      assert n in m;
      TotalSplit(m, n);
    }
  }

  /** Candidates in some order, none twice. */
  ghost predicate Places(cs: seq<Candidate>, p: seq<nat>) {
    && (forall x | x in p :: x < |cs|) && forall i, j | 0 <= i < j < |p| :: p[i] != p[j]
  }

  ghost predicate GivesDepths(cs: seq<Candidate>, p: seq<nat>, allocations: seq<Allocation>)
    requires Places(cs, p)
  {
    |allocations| == |p| && forall k | 0 <= k < |p| :: p[k] in p && allocations[k].quantity == cs[p[k]].depth
  }

  lemma OnePlaceMore(cs: seq<Candidate>, p: seq<nat>)
    requires Places(cs, p) && p != []
    ensures var before, x := p[..|p| - 1], p[|p| - 1];
      && Places(cs, before) && x !in before && x < |cs|
      && DepthsAt(cs, p) == DepthsAt(cs, before)[x := cs[x].depth]
  {
    var before, x := p[..|p| - 1], p[|p| - 1];
    assert p == before + [x] && x in p;
    forall y | y in before ensures y != x && y < |cs| {
      var j :| 0 <= j < |before| && before[j] == y;
      assert p[j] == y && y in p;
    }
  }

  /** Depths handed out in some order add up whatever the order. */
  lemma {:induction false} DepthsAddUp(cs: seq<Candidate>, p: seq<nat>, allocations: seq<Allocation>)
    requires Places(cs, p) && GivesDepths(cs, p, allocations)
    ensures Splitter.Sum(allocations) == Total(DepthsAt(cs, p))
  {
    if p == [] {
      assert DepthsAt(cs, p) == map[];
    } else {
      var n := |p| - 1;
      OnePlaceMore(cs, p);
      assert forall k | 0 <= k < n :: p[..n][k] == p[k] && p[..n][k] in p[..n];
      DepthsAddUp(cs, p[..n], allocations[..n]);
      TotalUpdate(DepthsAt(cs, p[..n]), p[n], cs[p[n]].depth);
    }
  }

  lemma AllPlacesAddUp(side: Side, cs: seq<Candidate>, p: seq<nat>, allocations: seq<Allocation>)
    requires InOrder(side, cs, p) && |allocations| == |p|
    requires forall k | 0 <= k < |p| :: allocations[k].quantity == cs[p[k]].depth
    ensures Splitter.Sum(allocations) == AllDepth(cs)
  {
    assert Places(cs, p);
    assert forall k | 0 <= k < |p| :: p[k] in p;
    DepthsAddUp(cs, p, allocations);
    AllDepthIsTotal(cs, DepthsAt(cs, p));
  }

  function ReasonFor(side: Side): Reason {
    match side
    case Buy => LowestAsk
    case Sell => HighestBid
  }

  /** The candidates in order, each with its depth. */
  ghost predicate GivesAll(side: Side, cs: seq<Candidate>, p: seq<nat>, allocations: seq<Allocation>) {
    && InOrder(side, cs, p) && |allocations| == |p|
    && forall k | 0 <= k < |p| :: allocations[k] == Allocation(cs[p[k]].venue, cs[p[k]].depth, ReasonFor(side))
  }

  /** With candidates, there is one best by price for the side, then latency, then fill rate, then place. The strategy
      gives it the whole quantity if its depth suffices; else it answers with every candidate in that order, each with
      its depth, whatever the quantity is. */
  lemma {:induction false} BestPriceAnswers(
      side: Side, quantity: real, cs: seq<Candidate>, r: Result<seq<Allocation>, StrategyError>) returns (b: nat)
    requires cs != [] && BestPriceAnswer(side, quantity, cs, r)
    ensures IsBest(side, cs, b) && (forall other: nat | IsBest(side, cs, other) :: other == b)
    ensures r.Success?
    ensures if quantity <= cs[b].depth then r.value == [Allocation(cs[b].venue, quantity, ReasonFor(side))]
            else exists p :: GivesAll(side, cs, p, r.value) && p[0] == b
  {
    var p := Ranked(side, cs);
    RankedInOrder(side, cs);
    FirstIsBest(side, cs, p);
    b := p[0];
    if cs[b].depth < quantity {
      assert GivesAll(side, cs, p, r.value);
    }
  }

  /** So what it allocates is the quantity exactly when the depth of the best candidate suffices, or the depths of all
      candidates together happen to be the quantity. */
  lemma {:induction false} BestPriceConservesExactlyWhen(
      side: Side, quantity: real, cs: seq<Candidate>, r: Result<seq<Allocation>, StrategyError>)
    requires cs != [] && BestPriceAnswer(side, quantity, cs, r)
    ensures r.Success?
    ensures Splitter.Sum(r.value) == quantity
       <==> AllDepth(cs) == quantity || exists b: nat :: IsBest(side, cs, b) && quantity <= cs[b].depth
  {
    var b := BestPriceAnswers(side, quantity, cs, r);
    if quantity <= cs[b].depth {
      WholeIsSum(cs[b].venue, quantity, ReasonFor(side));
    } else {
      var p :| GivesAll(side, cs, p, r.value) && p[0] == b;
      AllPlacesAddUp(side, cs, p, r.value);
    }
  }

  lemma WholeIsSum(v: VenueId, quantity: real, reason: Reason)
    ensures Splitter.Sum([Allocation(v, quantity, reason)]) == quantity
  {
    assert [Allocation(v, quantity, reason)][..0] == [];
    assert Splitter.Sum([]) == 0.0;
  }

  // ---------------------------------------------------------------- the figures of the comparator

  function BasisPoints(x: real): real {
    x * 10000.0
  }

  lemma QuotientGivesBack(x: real, base: real, g: Grid)
    requires 0.0 < base
    ensures Abs(Div(x, base, g) * base - x) <= g / 2.0 * base
  {
    DivResidue(x, base, g);
  }

  /** A figure is a share of a base, in basis points, up to the rounding of one division; zero without a base. */
  ghost predicate IsShare(figure: real, x: real, base: real, g: Grid) {
    if base <= 0.0 then figure == 0.0
    else exists share :: figure == BasisPoints(share) && Abs(share * base - x) <= g / 2.0 * base
  }

  lemma ShareOf(x: real, base: real, g: Grid)
    requires 0.0 < base
    ensures IsShare(BasisPoints(Div(x, base, g)), x, base, g)
  {
    QuotientGivesBack(x, base, g);
  }

  /** The figures of a compared venue: how far its price for the side is behind the best, as a share of the best; and
      how far its ask is above its bid, as a share of the middle of both. */
  lemma FiguresAreShares(side: Side, q: Quote, best: real, g: Grid)
    ensures var row := PricedOf(side, q, best, g);
      && row.venue == q.venue && row.bid == q.snap.bid && row.ask == q.snap.ask
      && IsShare(row.diffBps, if side.Buy? then row.ask - best else best - row.bid, best, g)
      && IsShare(row.spreadBps, row.ask - row.bid, Div(row.bid + row.ask, 2.0, g), g)
  {
    if 0.0 < best {
      ShareOf(if side.Buy? then q.snap.ask - best else best - q.snap.bid, best, g);
    }
    var mid := Div(q.snap.bid + q.snap.ask, 2.0, g);
    if 0.0 < mid {
      ShareOf(q.snap.ask - q.snap.bid, mid, g);
    }
  }
}
