/** Risk decisions over whole runs: what was refused stays out of the market, and whatever got there was let
    through. */
module RiskDecisions {
  import opened Routing
  import opened Wrappers
  import opened Orders
  import opened PipelineCore
  import opened PipelineLedger
  import opened PipelineMachine
  import opened PipelineSafety
  import opened PipelineResidual
  import opened Continuations
  import opened ResidualChildren
  import opened Unserved
  import opened SplitExecution
  import Crossing

  // ---------------------------------------------------------------- decisions in a run

  /** The k-th action of a run is the decision on an order, with this answer of the risk engine. */
  ghost predicate Decided(cfg: Config, actions: seq<Action>, k: nat, id: OrderId, answer: RiskAnswer) {
    && k < |actions| && actions[k].Decide? && actions[k].risk == answer
    && Enabled(Run(cfg, actions[..k]), actions[k])
    && Run(cfg, actions[..k]).core.intake[actions[k].index] == id
  }

  /** The risk engine said no, or could not be asked and the pipeline fails closed. */
  predicate SaysNo(answer: RiskAnswer, failOpen: bool) {
    answer == Answer(false) || (answer == Unavailable && !failOpen)
  }

  /** The risk engine said yes, or could not be asked and the pipeline fails open. */
  predicate SaysYes(answer: RiskAnswer, failOpen: bool) {
    answer == Answer(true) || (answer == Unavailable && failOpen)
  }

  // ---------------------------------------------------------------- a refused order

  lemma WaitingNowhereElse(c: Core, i: nat)
    requires Kept(c) && i < |c.intake|
    ensures var id := c.intake[i];
      && id in c.orders && c.orders[id].status == New && c.orders[id].fills == []
      && id !in Crossing.Without(c.intake, i) && id !in c.riskOut
      && forall v | v in c.dispatch :: id !in c.dispatch[v]
  {
    var id := c.intake[i];
    assert id in c.intake + c.riskOut;
    assert Sound(c.orders[id]);
    NoneTwiceRemove(c.intake, c.riskOut, i);
    assert id !in Crossing.Without(c.intake, i) + c.riskOut;
  }

  /** On the core: a refused order is rejected and stands in no line. */
  lemma RefusedCore(c: Core, i: nat, answer: RiskAnswer, failOpen: bool)
    requires Kept(c) && i < |c.intake| && SaysNo(answer, failOpen)
    ensures var id, r := c.intake[i], PipelineCore.Decide(c, i, answer, failOpen);
      && id in r.orders && r.orders[id].status == Rejected && r.orders[id].fills == [] && Out(r, id)
  {
    WaitingNowhereElse(c, i);
  }

  lemma RefusedIsStranded(s: System, i: nat, answer: RiskAnswer)
    requires Inv(s) && Enabled(s, Decide(i, answer)) && SaysNo(answer, s.cfg.failOpen)
    ensures i < |s.core.intake|
    ensures var id, s' := s.core.intake[i], Do(s, Decide(i, answer));
      Stranded(s', id) && s'.core.orders[id].status == Rejected && s'.core.orders[id].fills == []
  {
    var id := s.core.intake[i];
    WaitingNowhereElse(s.core, i);
    RefusedCore(s.core, i, answer, s.cfg.failOpen);
    NobodysYet(s.core.orders, s.cfg.simulated, s.desks, id);
    NewNeverCalled(s, id);
  }

  /** Nobody has touched it since. */
  ghost predicate Refused(s: System, id: OrderId) {
    Stranded(s, id) && s.core.orders[id].status == Rejected && s.core.orders[id].fills == []
  }

  lemma {:induction false} RefusedForever(s: System, more: seq<Action>, id: OrderId)
    requires Inv(s) && Refused(s, id)
    ensures Refused(Further(s, more), id)
    decreases |more|
  {
    if more != [] {
      if Enabled(s, more[0]) {
        RefusedStays(s, more[0], id);
        StepKeepsInv(s, more[0]);
        RefusedForever(Do(s, more[0]), more[1..], id);
      } else {
        RefusedForever(s, more[1..], id);
      }
    }
  }

  lemma RefusedStays(s: System, a: Action, id: OrderId)
    requires Inv(s) && Enabled(s, a) && Refused(s, id)
    ensures Refused(Do(s, a), id)
  {
    StaysStranded(s, a, id);
    RetiredUntouched(s, a, id);
  }

  lemma RunSplitsAt(cfg: Config, actions: seq<Action>, k: nat)
    requires k < |actions| && Enabled(Run(cfg, actions[..k]), actions[k])
    ensures Run(cfg, actions) == Further(Do(Run(cfg, actions[..k]), actions[k]), actions[k + 1..])
  {
    assert actions == actions[..k + 1] + actions[k + 1..];
    RunFurther(cfg, actions[..k + 1], actions[k + 1..]);
    assert actions[..k + 1][..k] == actions[..k];
  }

  lemma RefusedInRun(cfg: Config, actions: seq<Action>, k: nat, id: OrderId, answer: RiskAnswer)
    requires Decided(cfg, actions, k, id, answer) && SaysNo(answer, cfg.failOpen)
    ensures Refused(Run(cfg, actions), id)
  {
    var s := Run(cfg, actions[..k]);
    Reachable(cfg, actions[..k]);
    RefusedIsStranded(s, actions[k].index, answer);
    StepKeepsInv(s, actions[k]);
    RefusedForever(Do(s, actions[k]), actions[k + 1..], id);
    RunSplitsAt(cfg, actions, k);
  }

  /** An order that crossed has a fill. */
  lemma CrossedIsFilled(cfg: Config, actions: seq<Action>, id: OrderId)
    requires id in CrossedIn(cfg, actions)
    ensures id in Run(cfg, actions).core.orders && Run(cfg, actions).core.orders[id].fills != []
  {
    CrossedStayInside(cfg, actions);
    assert KeptInside(Run(cfg, actions), id);
  }

  lemma DecidedLater(cfg: Config, actions: seq<Action>, n: nat, k: nat, id: OrderId, answer: RiskAnswer)
    requires n <= |actions| && k < n && Decided(cfg, actions, k, id, answer)
    ensures Decided(cfg, actions[..n], k, id, answer)
  {
    assert actions[..n][..k] == actions[..k];
  }

  /** The order is never the one that is routed once it has been refused, so it has no children. */
  lemma RefusedIsNotRouted(cfg: Config, actions: seq<Action>, k: nat, id: OrderId, answer: RiskAnswer, n: nat)
    requires Decided(cfg, actions, k, id, answer) && SaysNo(answer, cfg.failOpen) && k < n < |actions|
    requires actions[n].Route? && Enabled(Run(cfg, actions[..n]), actions[n])
    ensures var s := Run(cfg, actions[..n]); s.core.riskOut != [] && s.core.riskOut[0] != id
  {
    DecidedLater(cfg, actions, n, k, id, answer);
    RefusedInRun(cfg, actions[..n], k, id, answer);
    RouteFacts(Run(cfg, actions[..n]), actions[n]);
  }

  /** Over every run: an order that the risk engine refused, or that it could not be asked about while the
      pipeline fails closed, is rejected from then on, is in no SubmitOrder call, has not crossed, has no fill,
      waits nowhere, and is never routed again, so that it has no children. */
  lemma RefusedStaysOut(cfg: Config, actions: seq<Action>, k: nat, id: OrderId, answer: RiskAnswer)
    requires Decided(cfg, actions, k, id, answer)
    requires answer == Answer(false) || (answer == Unavailable && !cfg.failOpen)
    ensures var s := Run(cfg, actions);
      && id in s.core.orders && s.core.orders[id].status == Rejected && s.core.orders[id].fills == []
      && (forall j | 0 <= j < |s.calls| :: s.calls[j].order.ticket.id != id)
      && id !in CrossedIn(cfg, actions)
      && id !in s.core.intake && id !in s.core.riskOut
      && (forall v | v in s.core.dispatch :: id !in s.core.dispatch[v])
    ensures forall n | k < n < |actions| && actions[n].Route? && Enabled(Run(cfg, actions[..n]), actions[n]) ::
      Run(cfg, actions[..n]).core.riskOut[0] != id
  {
    RefusedInRun(cfg, actions, k, id, answer);
    if id in CrossedIn(cfg, actions) {
      CrossedIsFilled(cfg, actions, id);
    }
    forall n | k < n < |actions| && actions[n].Route? && Enabled(Run(cfg, actions[..n]), actions[n])
      ensures Run(cfg, actions[..n]).core.riskOut[0] != id
    {
      RefusedIsNotRouted(cfg, actions, k, id, answer, n);
    }
  }

  // ---------------------------------------------------------------- an order in the market

  /** Some decision let the order through. */
  ghost predicate LetThrough(cfg: Config, actions: seq<Action>, id: OrderId) {
    exists k, answer :: Decided(cfg, actions, k, id, answer) && SaysYes(answer, cfg.failOpen)
  }

  ghost predicate TurnedDown(cfg: Config, actions: seq<Action>, id: OrderId) {
    exists k, answer :: Decided(cfg, actions, k, id, answer) && SaysNo(answer, cfg.failOpen)
  }

  /** The order is a child: some routing step made it. */
  ghost predicate IsChild(cfg: Config, actions: seq<Action>, id: OrderId) {
    exists k :: 0 <= k < |actions| && MadeAt(cfg, actions, k, id)
  }

  ghost predicate MadeAt(cfg: Config, actions: seq<Action>, k: nat, id: OrderId)
    requires k < |actions|
  {
    Makes(Run(cfg, actions[..k]), actions[k], id)
  }

  ghost predicate Makes(s: System, a: Action, id: OrderId) {
    a.Route? && Enabled(s, a) && id in Children(s, a)
  }

  /** Where every order stands. */
  ghost predicate Accounted(cfg: Config, actions: seq<Action>, id: OrderId) {
    || id in Run(cfg, actions).core.intake || LetThrough(cfg, actions, id) || TurnedDown(cfg, actions, id)
    || IsChild(cfg, actions, id)
  }

  lemma StillDecided(cfg: Config, actions: seq<Action>, a: Action, k: nat, id: OrderId, answer: RiskAnswer)
    requires Decided(cfg, actions, k, id, answer)
    ensures Decided(cfg, actions + [a], k, id, answer)
  {
    assert (actions + [a])[..k] == actions[..k];
  }

  lemma StillLetThrough(cfg: Config, actions: seq<Action>, a: Action, id: OrderId)
    requires LetThrough(cfg, actions, id)
    ensures LetThrough(cfg, actions + [a], id)
  {
    var k, answer :| Decided(cfg, actions, k, id, answer) && SaysYes(answer, cfg.failOpen);
    StillDecided(cfg, actions, a, k, id, answer);
  }

  lemma StillTurnedDown(cfg: Config, actions: seq<Action>, a: Action, id: OrderId)
    requires TurnedDown(cfg, actions, id)
    ensures TurnedDown(cfg, actions + [a], id)
  {
    var k, answer :| Decided(cfg, actions, k, id, answer) && SaysNo(answer, cfg.failOpen);
    StillDecided(cfg, actions, a, k, id, answer);
  }

  lemma StillChild(cfg: Config, actions: seq<Action>, a: Action, id: OrderId)
    requires IsChild(cfg, actions, id)
    ensures IsChild(cfg, actions + [a], id)
  {
    var k :| 0 <= k < |actions| && MadeAt(cfg, actions, k, id);
    StillMade(cfg, actions, a, k, id);
  }

  lemma StillMade(cfg: Config, actions: seq<Action>, a: Action, k: nat, id: OrderId)
    requires k < |actions| && MadeAt(cfg, actions, k, id)
    ensures MadeAt(cfg, actions + [a], k, id)
  {
    SamePrefix(cfg, actions, a, k);
  }

  lemma SamePrefix(cfg: Config, actions: seq<Action>, a: Action, k: nat)
    requires k < |actions|
    ensures Run(cfg, (actions + [a])[..k]) == Run(cfg, actions[..k]) && (actions + [a])[k] == actions[k]
  {
    assert (actions + [a])[..k] == actions[..k];
  }

  lemma StillAccounted(cfg: Config, actions: seq<Action>, a: Action, id: OrderId)
    requires Accounted(cfg, actions, id) && id !in Run(cfg, actions).core.intake
    ensures Accounted(cfg, actions + [a], id)
  {
    if LetThrough(cfg, actions, id) {
      StillLetThrough(cfg, actions, a, id);
    } else if TurnedDown(cfg, actions, id) {
      StillTurnedDown(cfg, actions, a, id);
    } else {
      StillChild(cfg, actions, a, id);
    }
  }

  lemma DecidedNow(cfg: Config, actions: seq<Action>, i: nat, answer: RiskAnswer)
    requires Enabled(Run(cfg, actions), Decide(i, answer)) && i < |Run(cfg, actions).core.intake|
    ensures Accounted(cfg, actions + [Decide(i, answer)], Run(cfg, actions).core.intake[i])
  {
    var all := actions + [Decide(i, answer)];
    assert all[..|actions|] == actions;
    assert Run(cfg, all).cfg == cfg by { Reachable(cfg, all); }
    assert Decided(cfg, all, |actions|, Run(cfg, actions).core.intake[i], answer);
    assert SaysYes(answer, cfg.failOpen) || SaysNo(answer, cfg.failOpen);
  }

  lemma WithoutMember(ids: seq<OrderId>, i: nat, id: OrderId)
    requires i < |ids| && id in ids && id != ids[i]
    ensures id in Crossing.Without(ids, i)
  {
    var k :| 0 <= k < |ids| && ids[k] == id;
    var rest := Crossing.Without(ids, i);
    assert rest[if k < i then k else k - 1] == id;
  }

  lemma DecideLeavesOthers(c: Core, i: nat, answer: RiskAnswer, failOpen: bool, id: OrderId)
    requires Linked(c) && i < |c.intake| && id in c.intake && id != c.intake[i]
    ensures id in PipelineCore.Decide(c, i, answer, failOpen).intake
  {
    WithoutMember(c.intake, i, id);
  }

  lemma SubmitLeavesOthers(c: Core, t: Ticket, preferred: VenueId, id: OrderId)
    requires Linked(c) && t.id !in c.orders && id in c.intake
    ensures id in PipelineCore.Submit(c, t, preferred).intake
  {}

  lemma TakenIntake(c: Core, u: VenueId)
    requires Kept(c) && u in c.dispatch && c.dispatch[u] != []
    ensures Taken(c, u).intake == c.intake
  {
    TakenKeeps(c, u);
  }

  /** An order leaves the intake by a decision on it only. */
  lemma IntakeStays(s: System, a: Action, id: OrderId)
    requires Inv(s) && Enabled(s, a) && id in s.core.intake
    requires a.Decide? ==> s.core.intake[a.index] != id
    ensures id in Do(s, a).core.intake
  {
    match a
    case Submit(t, preferred) => SubmitIntake(s, t, preferred, id);
    case Decide(i, answer) => DecideIntake(s, i, answer, id);
    case Route(_, _, _, _) => RouteIntake(s, a);
    case _ => LaterIntake(s, a);
  }

  lemma SubmitIntake(s: System, t: Ticket, preferred: VenueId, id: OrderId)
    requires Enabled(s, Submit(t, preferred)) && id in s.core.intake
    ensures id in Do(s, Submit(t, preferred)).core.intake
  {
    SubmitLeavesOthers(s.core, t, preferred, id);
  }

  lemma DecideIntake(s: System, i: nat, answer: RiskAnswer, id: OrderId)
    requires Enabled(s, Decide(i, answer)) && id in s.core.intake && i < |s.core.intake| && s.core.intake[i] != id
    ensures id in Do(s, Decide(i, answer)).core.intake
  {
    DecideLeavesOthers(s.core, i, answer, s.cfg.failOpen, id);
  }

  lemma LaterIntake(s: System, a: Action)
    requires Inv(s) && Enabled(s, a) && !a.Submit? && !a.Decide? && !a.Route?
    ensures Do(s, a).core.intake == s.core.intake
  {
    match a
    case Take(u) =>
      TakenIntake(s.core, u);
      TookDesk(s, u);
    case SubmitOrder(u, accepted, slipped) => SubmittedIntake(s, u, accepted, slipped);
    case Collect(u) => CollectIntake(s, u);
    case _ => QuietCore(s, a);
  }

  lemma RouteIntake(s: System, a: Action)
    requires Inv(s) && a.Route? && Enabled(s, a)
    ensures RoutedBy(s, a).core.intake == s.core.intake
  {
    RouteFacts(s, a);
    RouteCross(s);
    RoutedKeeps(s.core, InputOf(s, a), s.cfg.g);
  }

  lemma SubmittedIntake(s: System, u: VenueId, accepted: bool, slipped: real)
    requires Inv(s) && Enabled(s, SubmitOrder(u, accepted, slipped))
    ensures SubmittedTo(s, u, accepted, slipped).core.intake == s.core.intake
  {
    HandPastRouter(s, u);
    if !accepted {
      DeclinedKeeps(s.core, s.desks[u].hand.value);
    }
  }

  lemma CollectIntake(s: System, u: VenueId)
    requires Inv(s) && Enabled(s, Collect(u))
    ensures Collected(s, u).core.intake == s.core.intake
  {
    NextFillOwned(s, u);
    ProcessedKeeps(s.core, NextFill(s.desks[u]), s.cfg.g);
  }

  /** New orders enter the intake, or are children. */
  lemma NewOrderStands(s: System, a: Action, id: OrderId)
    requires Inv(s) && Enabled(s, a) && id in Do(s, a).core.orders && id !in s.core.orders
    ensures id in Do(s, a).core.intake || (a.Route? && id in Children(s, a))
  {
    match a
    case Submit(t, preferred) => SubmitEnters(s.core, t, preferred, id);
    case Route(_, _, _, _) =>
    case _ => OrdersStay(s, a);
  }

  lemma SubmitEnters(c: Core, t: Ticket, preferred: VenueId, id: OrderId)
    requires Linked(c) && t.id !in c.orders && id !in c.orders && id in PipelineCore.Submit(c, t, preferred).orders
    ensures id in PipelineCore.Submit(c, t, preferred).intake
  {}

  lemma {:induction false} EveryOrderIsAccounted(cfg: Config, actions: seq<Action>, id: OrderId)
    requires id in Run(cfg, actions).core.orders
    ensures Accounted(cfg, actions, id)
  {
    if actions != [] {
      var n := |actions| - 1;
      var before, a := actions[..n], actions[n];
      assert actions == before + [a];
      Reachable(cfg, before);
      var s := Run(cfg, before);
      if !Enabled(s, a) {
        EveryOrderIsAccounted(cfg, before, id);
        if id !in s.core.intake {
          StillAccounted(cfg, before, a, id);
        }
      } else if id in s.core.orders {
        EveryOrderIsAccounted(cfg, before, id);
        OldOrderIsAccounted(cfg, before, a, id);
      } else {
        NewOrderIsAccounted(cfg, before, a, id);
      }
    }
  }

  lemma OldOrderIsAccounted(cfg: Config, before: seq<Action>, a: Action, id: OrderId)
    requires Enabled(Run(cfg, before), a) && Accounted(cfg, before, id)
    ensures Accounted(cfg, before + [a], id)
  {
    var s := Run(cfg, before);
    Reachable(cfg, before);
    assert (before + [a])[..|before|] == before;
    if id !in s.core.intake {
      StillAccounted(cfg, before, a, id);
    } else if a.Decide? && s.core.intake[a.index] == id {
      DecidedNow(cfg, before, a.index, a.risk);
    } else {
      IntakeStays(s, a, id);
    }
  }

  lemma NewOrderIsAccounted(cfg: Config, before: seq<Action>, a: Action, id: OrderId)
    requires Enabled(Run(cfg, before), a) && id !in Run(cfg, before).core.orders
    requires id in Run(cfg, before + [a]).core.orders
    ensures Accounted(cfg, before + [a], id)
  {
    var all := before + [a];
    Reachable(cfg, before);
    assert all[..|before|] == before;
    NewOrderStands(Run(cfg, before), a, id);
    if id !in Run(cfg, all).core.intake {
      assert MadeAt(cfg, all, |before|, id);
    }
  }

  /** The order has got past the risk check: it waits for the router, has been submitted, or has a fill. */
  ghost predicate InMarket(s: System, id: OrderId) {
    && id in s.core.orders
    && (id in s.core.riskOut || s.core.orders[id].fills != []
        || exists j :: 0 <= j < |s.calls| && s.calls[j].order.ticket.id == id)
  }

  lemma WaitingIsNotInMarket(s: System, id: OrderId)
    requires Inv(s) && id in s.core.intake
    ensures !InMarket(s, id)
  {
    var i :| 0 <= i < |s.core.intake| && s.core.intake[i] == id;
    WaitingNowhereElse(s.core, i);
    NewNeverCalled(s, id);
  }

  /** Over every run: every order that waits for the router, is in a SubmitOrder call or has a fill, and is not
      a child, was let through by a decision on it: the risk engine said yes, or could not be asked and the
      pipeline fails open. */
  lemma WhateverIsInMarketWasLetThrough(cfg: Config, actions: seq<Action>, id: OrderId)
    requires InMarket(Run(cfg, actions), id) && !IsChild(cfg, actions, id)
    ensures exists k, answer ::
      Decided(cfg, actions, k, id, answer) && (answer == Answer(true) || (answer == Unavailable && cfg.failOpen))
  {
    Reachable(cfg, actions);
    EveryOrderIsAccounted(cfg, actions, id);
    if id in Run(cfg, actions).core.intake {
      WaitingIsNotInMarket(Run(cfg, actions), id);
    } else if TurnedDown(cfg, actions, id) {
      var k, answer :| Decided(cfg, actions, k, id, answer) && SaysNo(answer, cfg.failOpen);
      RefusedInRun(cfg, actions, k, id, answer);
    }
  }
}
