/** Runs in which an order of 10 crosses in part, with each kind of router answer. */
module SplitExamples {
  import opened Routing
  import opened Wrappers
  import opened Orders
  import opened PipelineCore
  import opened PipelineMachine
  import opened PipelineSafety
  import opened ResidualChildren
  import opened SplitExecution
  import Crossing

  // ---------------------------------------------------------------- a cross in part

  const EXAMPLE := Config({"x", "y"}, {}, {}, true, true, false, 0.0)

  function Seller(): OrderState {
    NewOrder(Ticket(1, "A", Sell, Limit, 4.0, 10.0, Equity), "")
  }

  function Buyer(): Ticket {
    Ticket(2, "A", Buy, Limit, 10.0, 10.0, Equity)
  }

  /** A buy of 10 has passed the risk check and meets a resting sell of 4. */
  function Meeting(): seq<Action> {
    [Rest(Seller()), Submit(Buyer(), ""), Decide(0, Answer(true))]
  }

  /** The router answers, and both venues are connected. */
  function RouteTo(allocations: seq<Allocation>, ids: seq<OrderId>): Action {
    Route(Allocations(allocations), ids, "", {"x", "y"})
  }

  /** An even split over two venues: half of the whole quantity to each, whatever the cross has filled. */
  function Halves(): seq<Allocation> {
    [Allocation("x", 5.0, DepthProportion), Allocation("y", 5.0, DepthProportion)]
  }

  /** The whole quantity to the venue that the best-price strategy prefers. */
  function Whole(): seq<Allocation> {
    [Allocation("x", 10.0, LowestAsk)]
  }

  ghost predicate Met(s: System) {
    && s.cfg == EXAMPLE && Shaped(s) && s.core.riskOut == [2]
    && s.core.orders == map[2 := NewOrder(Buyer(), "")] && s.resting == map["A" := [Seller()]]
    && s.core.dispatch == map["x" := [], "y" := []]
  }

  lemma MeetingCrosses(s: System)
    requires Met(s)
    ensures CrossOf(s).result.Crossed? && CrossOf(s).result.residual.Some? && CrossOf(s).result.incoming.quantity == 4.0
  {
    var o, book := NewOrder(Buyer(), ""), [Seller()];
    assert RestingFor(s, "A") == book;
    assert Crossing.Eligible(o.ticket, book[0].ticket);
    assert Crossing.FirstEligible(book, o.ticket, 0) == 0;
  }

  lemma RunStep(cfg: Config, actions: seq<Action>, k: nat)
    requires k < |actions|
    ensures var s := Run(cfg, actions[..k]);
      Run(cfg, actions[..k + 1]) == (if Enabled(s, actions[k]) then Do(s, actions[k]) else s) && Inv(s)
  {
    assert actions[..k + 1][..k] == actions[..k];
    Reachable(cfg, actions[..k]);
  }

  ghost predicate Rested(s: System) {
    s.cfg == EXAMPLE && s.core == PipelineCore.Start({"x", "y"}) && s.resting == map["A" := [Seller()]]
  }

  ghost predicate Entered(s: System) {
    && s.cfg == EXAMPLE && s.resting == map["A" := [Seller()]]
    && s.core.intake == [2] && s.core.riskOut == [] && s.core.orders == map[2 := NewOrder(Buyer(), "")]
    && s.core.dispatch == map["x" := [], "y" := []]
  }

  lemma SellerRests(s: System)
    requires s == PipelineMachine.Start(EXAMPLE) && Inv(s)
    ensures Enabled(s, Rest(Seller())) && Rested(Do(s, Rest(Seller())))
  {
    assert [] + [Seller()] == [Seller()];
  }

  lemma BuyerSubmits(s: System)
    requires Rested(s) && Shaped(s)
    ensures Enabled(s, Submit(Buyer(), "")) && Entered(Do(s, Submit(Buyer(), "")))
  {
    assert [] + [2] == [2];
  }

  lemma BuyerPasses(s: System)
    requires Entered(s) && Inv(s)
    ensures Enabled(s, Decide(0, Answer(true))) && Met(Do(s, Decide(0, Answer(true))))
  {
    StepKeepsInv(s, Decide(0, Answer(true)));
    assert [] + [2] == [2] && Crossing.Without([2], 0) == [];
  }

  lemma MeetingHappens()
    ensures Met(Run(EXAMPLE, Meeting())) && Inv(Run(EXAMPLE, Meeting()))
  {
    var all := Meeting();
    assert all[..0] == [] && all[..3] == all;
    RunStep(EXAMPLE, all, 0);
    SellerRests(Run(EXAMPLE, all[..0]));
    RunStep(EXAMPLE, all, 1);
    BuyerSubmits(Run(EXAMPLE, all[..1]));
    RunStep(EXAMPLE, all, 2);
    BuyerPasses(Run(EXAMPLE, all[..2]));
    Reachable(EXAMPLE, all);
  }

  lemma MeetingRoutes(s: System, allocations: seq<Allocation>, ids: seq<OrderId>)
    requires Inv(s) && Met(s) && PositiveAllocations(allocations) && |ids| == |allocations| && Unused({1, 2}, ids)
    ensures LeavesResidual(s, RouteTo(allocations, ids))
  {
    MeetingCrosses(s);
    var a := RouteTo(allocations, ids);
    forall id | id in ids ensures Foreign(s, id) {
      assert id !in {1, 2};
    }
    assert Routable(s.core, InputOf(s, a));
  }

  lemma HalvesSplit(s: System)
    requires Inv(s) && Met(s)
    ensures var a := RouteTo(Halves(), [3, 4]); LeavesResidual(s, a) && Forwards(s, a) && SplitsOrder(s, a)
  {
    var a := RouteTo(Halves(), [3, 4]);
    MeetingRoutes(s, Halves(), [3, 4]);
    assert a.answer.allocations[0].venue in a.ready && a.answer.allocations[0].venue in s.core.dispatch.Keys;
  }

  lemma HalvesOverfill(s: System)
    requires Inv(s) && Met(s) && SplitsOrder(s, RouteTo(Halves(), [3, 4]))
    ensures var a := RouteTo(Halves(), [3, 4]);
      Parent(s, a) == NewOrder(Buyer(), "") && LeftAtSplit(s, a) == 6.0 && OpenQuantity(s, a) == 10.0
  {
    MeetingCrosses(s);
    LeftAtSplitIs(s, RouteTo(Halves(), [3, 4]));
    HalvesSentOn(s, RouteTo(Halves(), [3, 4]));
  }

  lemma HalvesSentOn(s: System, a: Action)
    requires Met(s) && a.Route? && Enabled(s, a) && a.answer == Allocations(Halves()) && a.ready == {"x", "y"}
    ensures OpenQuantity(s, a) == 10.0
  {
    var all := Halves();
    assert Open(s, a) == {"x", "y"};
    assert all[..1] == [all[0]] && all[..1][..0] == [];
    assert Forwarded(all[..1], {"x", "y"}) == 5.0;
  }

  /** A residual answered with an even split can reach a venue. */
  lemma SplitResidualIsSubmitted()
    ensures var s, a := Run(EXAMPLE, Meeting()), RouteTo(Halves(), [3, 4]);
      LeavesResidual(s, a) && SubmitsLater(EXAMPLE, Meeting() + [a], Children(s, a))
  {
    MeetingHappens();
    HalvesSplit(Run(EXAMPLE, Meeting()));
    ResidualReachesAVenueExactlyBySplitting(EXAMPLE, Meeting(), RouteTo(Halves(), [3, 4]));
  }

  /** Together with its children the order can then fill 14, although it was for 10: the router splits the whole
      quantity, of which 4 had crossed. */
  lemma SplitResidualOverfills() returns (more: seq<Action>)
    ensures var s, a := Run(EXAMPLE, Meeting()), RouteTo(Halves(), [3, 4]);
      SplitsOrder(s, a) && Parent(s, a) == NewOrder(Buyer(), "")
      && Executed(Run(EXAMPLE, Meeting() + [a] + more).core.orders, 2, [3, 4]) == 14.0
  {
    MeetingHappens();
    HalvesSplit(Run(EXAMPLE, Meeting()));
    HalvesOverfill(Run(EXAMPLE, Meeting()));
    more := RunSplitExecutes(EXAMPLE, Meeting(), RouteTo(Halves(), [3, 4]));
  }

  lemma WholeIsNotSplit(s: System)
    requires Inv(s) && Met(s)
    ensures var a := RouteTo(Whole(), [3]); LeavesResidual(s, a) && Children(s, a) == {}
  {
    MeetingRoutes(s, Whole(), [3]);
    ChildrenOnlyBySplitting(s, RouteTo(Whole(), [3]));
  }

  /** Answered with one venue for the whole quantity it never does: neither the order itself nor any child. */
  lemma WholeResidualIsNot()
    ensures var s, a := Run(EXAMPLE, Meeting()), RouteTo(Whole(), [3]);
      LeavesResidual(s, a) && !SubmitsLater(EXAMPLE, Meeting() + [a], {2}) && Children(s, a) == {}
  {
    MeetingHappens();
    WholeIsNotSplit(Run(EXAMPLE, Meeting()));
    ParentNotSubmitted(EXAMPLE, Meeting(), RouteTo(Whole(), [3]));
  }
}
