/** The running pipeline as a step machine: risk workers, the router with its crossing book, one
    dispatcher and one fill collector per venue, and the venues themselves, interleaved freely.
    Risk, routing and venue answers, prices and venue readiness are part of each action. */
module PipelineMachine {
  import opened Routing
  import opened Wrappers
  import opened Decimals
  import opened Orders
  import opened PipelineCore
  import Crossing
  import MatchingEngine

  /** `simulated` venues run the matching engine; the others may fill what they were given as they
      please. `smart` and `crossing` say whether a router and a crossing book are configured. */
  datatype Config = Config(
    venues: set<VenueId>, simulated: set<VenueId>, instruments: set<Instrument>,
    smart: bool, crossing: bool, failOpen: bool, g: Grid)

  /** A SubmitOrder call and the order as it was at that moment. */
  datatype Call = Call(venue: VenueId, order: OrderState)

  /** One venue with its dispatcher and its collector: the order acknowledged but not yet submitted,
      what the venue was given, its books and all fills it ever emitted, and how many of these the
      collector has taken. */
  datatype Desk = Desk(
    hand: Option<OrderId>, given: map<OrderId, Ticket>, venue: MatchingEngine.Venue, read: nat)

  datatype System = System(
    cfg: Config,
    core: Core,
    resting: map<Instrument, seq<OrderState>>,        // the crossing book
    calls: seq<Call>,                                 // history of SubmitOrder calls
    desks: map<VenueId, Desk>)

  datatype Action =
    | Submit(ticket: Ticket, preferred: VenueId)
    | Rest(order: OrderState)                         // an order enters the crossing book
    | Decide(index: nat, risk: RiskAnswer)
    | Route(answer: RouterAnswer, ids: seq<OrderId>, any: VenueId, ready: set<VenueId>)
    | Take(venue: VenueId)
    | SubmitOrder(venue: VenueId, accepted: bool, slipped: real)
    | Emit(venue: VenueId, fill: Fill)                // an external venue reports a fill
    | Sweep(venue: VenueId, instrument: Instrument, price: real)
    | Withdraw(venue: VenueId, id: OrderId)
    | Collect(venue: VenueId)

  function Opening(cfg: Config, v: VenueId): Desk {
    var books := if v in cfg.simulated then map i | i in cfg.instruments :: [] else map[];
    Desk(None, map[], MatchingEngine.Venue(books, []), 0)
  }

  function Start(cfg: Config): System {
    System(cfg, PipelineCore.Start(cfg.venues), map[], [], map v | v in cfg.venues :: Opening(cfg, v))
  }

  function RestingFor(s: System, i: Instrument): seq<OrderState> {
    if i in s.resting then s.resting[i] else []
  }

  /** What the crossing book does with the order the router is about to route. */
  function CrossOf(s: System): Crossing.CrossOutcome
    requires Linked(s.core) && s.core.riskOut != []
  {
    var o := s.core.orders[s.core.riskOut[0]];
    if s.cfg.smart && s.cfg.crossing then Crossing.Cross(RestingFor(s, o.ticket.instrument), o, s.cfg.g)
    else Crossing.CrossOutcome(Crossing.NotCrossed, o, RestingFor(s, o.ticket.instrument))
  }

  function InputOf(s: System, a: Action): RouteInput
    requires Linked(s.core) && s.core.riskOut != [] && a.Route?
  {
    RouteInput(s.cfg.smart, CrossOf(s).result, a.answer, a.ids, a.any, a.ready)
  }

  ghost predicate Shaped(s: System) {
    && Linked(s.core)
    && s.core.dispatch.Keys == s.desks.Keys == s.cfg.venues
    && HandsKnown(s.desks, s.core.orders.Keys) && FeedsPositive(s.desks)
  }

  ghost predicate HandsKnown(desks: map<VenueId, Desk>, orders: set<OrderId>) {
    forall v | v in desks && desks[v].hand.Some? :: desks[v].hand.value in orders
  }

  ghost predicate FeedPositive(d: Desk) {
    forall f | f in d.venue.fills :: 0.0 < f.quantity
  }

  ghost predicate FeedsPositive(desks: map<VenueId, Desk>) {
    forall v | v in desks :: FeedPositive(desks[v])
  }

  /** Order IDs are fresh: the crossing book and the pipeline never share one. */
  ghost predicate Foreign(s: System, id: OrderId) {
    id !in s.core.orders && forall i, o | i in s.resting && o in s.resting[i] :: o.ticket.id != id
  }

  ghost predicate Enabled(s: System, a: Action) {
    && Shaped(s)
    && match a
       case Submit(t, _) => Foreign(s, t.id)
       case Rest(o) => Foreign(s, o.ticket.id) && 0.0 < Crossing.Remaining(o)
       case Decide(i, _) => i < |s.core.intake|
       case Route(_, ids, _, _) =>
         s.core.riskOut != [] && Routable(s.core, InputOf(s, a)) && forall id | id in ids :: Foreign(s, id)
       case Take(v) => v in s.core.dispatch && s.core.dispatch[v] != [] && s.desks[v].hand.None?
       case SubmitOrder(v, _, _) => v in s.desks && s.desks[v].hand.Some?
       case Emit(v, f) => v in s.desks && v !in s.cfg.simulated && f.order in s.desks[v].given && 0.0 < f.quantity
       case Sweep(v, _, _) => v in s.desks && v in s.cfg.simulated
       case Withdraw(v, _) => v in s.desks && v in s.cfg.simulated
       case Collect(v) => v in s.desks && s.desks[v].read < |s.desks[v].venue.fills|
  }

  function Called(d: Desk, t: Ticket, runsEngine: bool, slipped: real): Desk {
    Desk(None, d.given[t.id := t],
         if runsEngine then MatchingEngine.Processed(d.venue, t, slipped) else d.venue, d.read)
  }

  function AtVenue(s: System, v: VenueId, venue: MatchingEngine.Venue): System
    requires v in s.desks
  {
    s.(desks := s.desks[v := s.desks[v].(venue := venue)])
  }

  function Took(s: System, v: VenueId): System
    requires Enabled(s, Take(v))
  {
    if Acknowledges(s.core, v) then
      s.(core := Taken(s.core, v), desks := s.desks[v := s.desks[v].(hand := Some(s.core.dispatch[v][0]))])
    else s.(core := Taken(s.core, v))
  }

  function SubmittedTo(s: System, v: VenueId, accepted: bool, slipped: real): System
    requires Enabled(s, SubmitOrder(v, accepted, slipped))
  {
    var o := s.core.orders[s.desks[v].hand.value];
    s.(calls := s.calls + [Call(v, o)],
       core := if accepted then s.core else Declined(s.core, o.ticket.id),
       desks := s.desks[v := Called(s.desks[v], o.ticket, accepted && v in s.cfg.simulated, slipped)])
  }

  function NextFill(d: Desk): Fill
    requires d.read < |d.venue.fills|
  {
    d.venue.fills[d.read]
  }

  function Collected(s: System, v: VenueId): System
    requires Enabled(s, Collect(v))
  {
    var d := s.desks[v];
    s.(core := PipelineCore.Processed(s.core, NextFill(d), s.cfg.g), desks := s.desks[v := d.(read := d.read + 1)])
  }

  function RoutedBy(s: System, a: Action): System
    requires a.Route? && Enabled(s, a)
  {
    var i := s.core.orders[s.core.riskOut[0]].ticket.instrument;
    s.(core := Routed(s.core, InputOf(s, a), s.cfg.g), resting := s.resting[i := CrossOf(s).book])
  }

  function Do(s: System, a: Action): System
    requires Enabled(s, a)
  {
    match a
    case Submit(t, preferred) => s.(core := PipelineCore.Submit(s.core, t, preferred))
    case Rest(o) => s.(resting := s.resting[o.ticket.instrument := RestingFor(s, o.ticket.instrument) + [o]])
    case Decide(i, risk) => s.(core := PipelineCore.Decide(s.core, i, risk, s.cfg.failOpen))
    case Route(_, _, _, _) => RoutedBy(s, a)
    case Take(v) => Took(s, v)
    case SubmitOrder(v, accepted, slipped) => SubmittedTo(s, v, accepted, slipped)
    case Emit(v, f) => AtVenue(s, v, s.desks[v].venue.(fills := s.desks[v].venue.fills + [f]))
    case Sweep(v, i, price) => AtVenue(s, v, MatchingEngine.Swept(s.desks[v].venue, i, price))
    case Withdraw(v, id) => AtVenue(s, v, MatchingEngine.Withdrawn(s.desks[v].venue, id))
    case Collect(v) => Collected(s, v)
  }

  /** A run: actions that are not enabled do not happen. */
  ghost function Run(cfg: Config, actions: seq<Action>): System {
    if actions == [] then Start(cfg)
    else
      var s := Run(cfg, actions[..|actions| - 1]);
      var a := actions[|actions| - 1];
      if Enabled(s, a) then Do(s, a) else s
  }
}
