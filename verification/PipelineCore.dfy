/** The order pipeline of gateway/internal/pipeline/pipeline.go on values: what each stage does to
    the orders, the stored rows and the channels. Orders are named by their IDs, so a channel or the
    order map that holds a pointer to an order is here a list or set of IDs; store calls succeed. */
module PipelineCore {
  import opened Routing
  import opened Wrappers
  import opened Decimals
  import opened Orders
  import opened OrderVwap
  import opened Positions
  import Crossing

  datatype PositionKey = PositionKey(instrument: Instrument, venue: VenueId)

  datatype Core = Core(
    orders: map<OrderId, OrderState>,          // every order object ever made
    inFlight: set<OrderId>,                    // the keys of the order map
    stored: map<OrderId, OrderState>,          // the order rows of the store
    positions: map<PositionKey, PositionState>,
    intake: seq<OrderId>,
    riskOut: seq<OrderId>,
    dispatch: map<VenueId, seq<OrderId>>)      // one channel per registered venue

  datatype RiskAnswer = Unavailable | Answer(approved: bool)
  datatype RouterAnswer = RouterError | Allocations(allocations: seq<Allocation>)

  const INTERNAL: VenueId := "INTERNAL"

  ghost predicate SoundOrders(orders: map<OrderId, OrderState>) {
    forall id | id in orders :: orders[id].ticket.id == id && Sound(orders[id])
  }

  ghost predicate Known(orders: set<OrderId>, ids: seq<OrderId>) {
    forall id | id in ids :: id in orders
  }

  ghost predicate AllKnown(orders: set<OrderId>, channels: map<VenueId, seq<OrderId>>) {
    forall v | v in channels :: Known(orders, channels[v])
  }

  /** Orders sit under their own IDs and are sound, and every reference leads to an order. */
  ghost predicate Linked(c: Core) {
    && SoundOrders(c.orders)
    && c.inFlight <= c.orders.Keys
    && Known(c.orders.Keys, c.intake) && Known(c.orders.Keys, c.riskOut)
    && AllKnown(c.orders.Keys, c.dispatch)
  }

  function Start(venues: set<VenueId>): (c: Core)
    ensures Linked(c)
  {
    Core(map[], {}, map[], map[], [], [], map v | v in venues :: [])
  }

  /** Change an order and persist it. */
  function Saved(c: Core, o: OrderState): (r: Core)
    requires Linked(c) && o.ticket.id in c.orders && Sound(o)
    ensures Linked(r)
  {
    assert c.orders[o.ticket.id := o].Keys == c.orders.Keys;
    c.(orders := c.orders[o.ticket.id := o], stored := c.stored[o.ticket.id := o])
  }

  /** A new order enters the store and the order map. */
  function Registered(c: Core, o: OrderState): (r: Core)
    requires Linked(c) && o.ticket.id !in c.orders && Sound(o)
    ensures Linked(r)
  {
    var id := o.ticket.id;
    c.(orders := c.orders[id := o], stored := c.stored[id := o], inFlight := c.inFlight + {id})
  }

  function Submit(c: Core, t: Ticket, venue: VenueId): (r: Core)
    requires Linked(c) && t.id !in c.orders
    ensures Linked(r)
  {
    if t.quantity <= 0.0 || t.instrument == "" then c
    else Registered(c, NewOrder(t, venue)).(intake := c.intake + [t.id])
  }

  function Declined(c: Core, id: OrderId): (r: Core)
    requires Linked(c) && id in c.orders
    ensures Linked(r)
  {
    TransitionKeepsSound(c.orders[id], Rejected);
    Saved(c, Transition(c.orders[id], Rejected))
  }

  function Approves(a: RiskAnswer, failOpen: bool): bool {
    if a.Unavailable? then failOpen else a.approved
  }

  /** One of the risk workers decides on an order it took from the intake. */
  function Decide(c: Core, i: nat, a: RiskAnswer, failOpen: bool): (r: Core)
    requires Linked(c) && i < |c.intake|
    ensures Linked(r)
  {
    var id := c.intake[i];
    var rest := c.(intake := Crossing.Without(c.intake, i));
    if Approves(a, failOpen) then rest.(riskOut := rest.riskOut + [id]) else Declined(rest, id)
  }

  function Dispatched(c: Core, id: OrderId, venue: VenueId, ready: set<VenueId>): (r: Core)
    requires Linked(c) && id in c.orders
    ensures Linked(r)
  {
    if venue !in ready then Declined(c, id)
    else if venue !in c.dispatch then c
    else c.(dispatch := c.dispatch[venue := c.dispatch[venue] + [id]])
  }

  function Assigned(c: Core, id: OrderId, venue: VenueId): (r: Core)
    requires Linked(c) && id in c.orders
    ensures Linked(r)
  {
    Saved(c, c.orders[id].(venue := venue))
  }

  /** The venue of the legacy routing; "" if there is none. `any` is the venue a map iteration yields. */
  function LegacyVenue(a: AssetClass, venues: set<VenueId>, any: VenueId): VenueId {
    if a == Equity && "alpaca" in venues then "alpaca"
    else if a == Crypto && "binance_testnet" in venues then "binance_testnet"
    else if "sim-exchange" in venues then "sim-exchange"
    else if any in venues then any
    else ""
  }

  function RoutedLegacy(c: Core, id: OrderId, any: VenueId, ready: set<VenueId>): (r: Core)
    requires Linked(c) && id in c.orders
    ensures Linked(r)
  {
    var venue := LegacyVenue(c.orders[id].ticket.assetClass, c.dispatch.Keys, any);
    if venue == "" then Declined(c, id)
    else Dispatched(Assigned(c, id, venue), id, venue, ready)
  }

  /** The upsert of a position row by a trade. */
  function RowAfter(positions: map<PositionKey, PositionState>, key: PositionKey, t: Trade, g: Grid): PositionState {
    var p := if key in positions then positions[key] else Opened(t.price);
    var p' := AfterTrade(p, t, g);
    Marked(p', p'.marketPrice)
  }

  function PositionAfter(positions: map<PositionKey, PositionState>, o: OrderState, f: Fill, g: Grid): PositionState {
    RowAfter(positions, PositionKey(o.ticket.instrument, o.venue), Trade(o.ticket.side, f.quantity, f.price), g)
  }

  /** A fill reaches its order, the stored row and the position of the order's venue. */
  function Processed(c: Core, f: Fill, g: Grid): (r: Core)
    requires Linked(c) && 0.0 < f.quantity
    ensures Linked(r) && r.orders.Keys == c.orders.Keys
  {
    if f.order !in c.inFlight || Fillability(c.orders[f.order], f).Fail? then c
    else
      var o := c.orders[f.order];
      var o' := AfterFill(o, f, g);
      FillKeepsSound(o, f, g);
      Saved(c, o').(
        positions := c.positions[PositionKey(o.ticket.instrument, o.venue) := PositionAfter(c.positions, o, f, g)],
        inFlight := if o'.status == Filled then c.inFlight - {f.order} else c.inFlight)
  }

  /** The router's part of an internal cross: the in-place fill of TryCross is reset, the order is
      acknowledged for INTERNAL, and the fill goes through the ordinary path. */
  function CrossedInternally(c: Core, id: OrderId, f: Fill, g: Grid): (r: Core)
    requires Linked(c) && id in c.orders && c.orders[id].status == New && 0.0 < f.quantity
    ensures Linked(r) && r.orders.Keys == c.orders.Keys
  {
    var o := c.orders[id].(filled := 0.0, venue := INTERNAL);
    Processed(Saved(c, Transition(o, Acknowledged)), f, g)
  }

  function Child(parent: Ticket, a: Allocation, id: OrderId): OrderState {
    NewOrder(parent.(id := id, quantity := a.quantity), a.venue)
  }

  ghost predicate PositiveAllocations(allocations: seq<Allocation>) {
    forall a | a in allocations :: 0.0 < a.quantity
  }

  /** IDs for new orders: one per allocation, all different and all new. */
  ghost predicate FreshIds(c: Core, ids: seq<OrderId>) {
    Unused(c.orders.Keys, ids)
  }

  ghost predicate Unused(orders: set<OrderId>, ids: seq<OrderId>) {
    && (forall id | id in ids :: id !in orders)
    && (forall j, k | 0 <= j < k < |ids| :: ids[j] != ids[k])
  }

  function WithChild(c: Core, o: OrderState, ready: set<VenueId>): (r: Core)
    requires Linked(c) && o.ticket.id !in c.orders && Sound(o)
    ensures Linked(r)
  {
    Dispatched(Registered(c, o), o.ticket.id, o.venue, ready)
  }

  function Split(
      c: Core, parent: Ticket, allocations: seq<Allocation>, ids: seq<OrderId>, ready: set<VenueId>): (r: Core)
    requires Linked(c) && PositiveAllocations(allocations) && |ids| == |allocations| && FreshIds(c, ids)
    ensures Linked(r)
    decreases |allocations|
  {
    if allocations == [] then c
    else
      Split(WithChild(c, Child(parent, allocations[0], ids[0]), ready), parent, allocations[1..], ids[1..], ready)
  }

  /** External routing of an order, or of the residual of a partly crossed one. */
  function RoutedOut(
      c: Core, id: OrderId, answer: RouterAnswer, ids: seq<OrderId>, any: VenueId, ready: set<VenueId>): (r: Core)
    requires Linked(c) && id in c.orders
    requires answer.Allocations? ==>
      PositiveAllocations(answer.allocations) && |ids| == |answer.allocations| && FreshIds(c, ids)
    ensures Linked(r)
  {
    if c.dispatch == map[] then Declined(c, id)
    else if answer.RouterError? then RoutedLegacy(c, id, any, ready)
    else if |answer.allocations| == 1 then
      var venue := answer.allocations[0].venue;
      Dispatched(Assigned(c, id, venue), id, venue, ready)
    else Split(c, c.orders[id].ticket, answer.allocations, ids, ready)
  }

  /** What the router decides for one order: which routing applies, what the crossing book and the
      smart router answer, the IDs of child orders, and which venues are connected. */
  datatype RouteInput = RouteInput(
    smart: bool, cross: Crossing.CrossResult, answer: RouterAnswer,
    ids: seq<OrderId>, any: VenueId, ready: set<VenueId>)

  ghost predicate Answered(c: Core, id: OrderId, input: RouteInput) {
    && id in c.orders && c.orders[id].status == New
    && (input.cross.Crossed? ==> 0.0 < input.cross.incoming.quantity)
    && (input.answer.Allocations? ==>
         PositiveAllocations(input.answer.allocations) && |input.ids| == |input.answer.allocations|
         && FreshIds(c, input.ids))
  }

  /** Crossing first, then the smart router for whatever is left. */
  function RoutedSmart(c: Core, id: OrderId, input: RouteInput, g: Grid): (r: Core)
    requires Linked(c) && Answered(c, id, input)
    ensures Linked(r)
  {
    if input.cross.NotCrossed? then RoutedOut(c, id, input.answer, input.ids, input.any, input.ready)
    else
      var c' := CrossedInternally(c, id, input.cross.incoming, g);
      if input.cross.residual == None then c'
      else RoutedOut(c', id, input.answer, input.ids, input.any, input.ready)
  }

  ghost predicate Routable(c: Core, input: RouteInput) {
    c.riskOut != [] && Answered(c, c.riskOut[0], input)
  }

  function Routed(c: Core, input: RouteInput, g: Grid): (r: Core)
    requires Linked(c) && Routable(c, input)
    ensures Linked(r)
  {
    var id := c.riskOut[0];
    var c0 := c.(riskOut := c.riskOut[1..]);
    if input.smart then RoutedSmart(c0, id, input, g) else RoutedLegacy(c0, id, input.any, input.ready)
  }

  /** A dispatcher takes the next order of its venue and acknowledges it; an order that may not be
      acknowledged is dropped. */
  function Acknowledges(c: Core, v: VenueId): bool
    requires Linked(c) && v in c.dispatch && c.dispatch[v] != []
  {
    Acknowledged in Successors(c.orders[c.dispatch[v][0]].status)
  }

  function Taken(c: Core, v: VenueId): (r: Core)
    requires Linked(c) && v in c.dispatch && c.dispatch[v] != []
    ensures Linked(r)
  {
    var id := c.dispatch[v][0];
    var c0 := c.(dispatch := c.dispatch[v := c.dispatch[v][1..]]);
    if Acknowledges(c, v) then Saved(c0, Transition(c.orders[id], Acknowledged)) else c0
  }
}
