/** The pipeline object of gateway/internal/pipeline/pipeline.go: the order map and the channels share
    order objects, which the stages change in place. Each stage is proved to do what PipelineCore
    says it does. */
module Pipeline {
  import opened Routing
  import opened Wrappers
  import opened Decimals
  import opened Orders
  import opened OrderVwap
  import opened Positions
  import opened PipelineCore
  import Crossing

  ghost function Snapshots(objects: map<OrderId, Order>): map<OrderId, OrderState>
    reads objects.Values
  {
    map id | id in objects :: objects[id].Snapshot()
  }

  lemma SnapshotsGrow(objects: map<OrderId, Order>, o: Order)
    ensures Snapshots(objects[o.ticket.id := o]) == Snapshots(objects)[o.ticket.id := o.Snapshot()]
  {}

  ghost function Ids(os: seq<Order>): (ids: seq<OrderId>)
    ensures |ids| == |os| && forall k | 0 <= k < |os| :: ids[k] == os[k].ticket.id
  {
    seq(|os|, k requires 0 <= k < |os| => os[k].ticket.id)
  }

  ghost function Channels(chans: map<VenueId, seq<Order>>): map<VenueId, seq<OrderId>> {
    map v | v in chans :: Ids(chans[v])
  }

  lemma IdsSnoc(os: seq<Order>, o: Order)
    ensures Ids(os + [o]) == Ids(os) + [o.ticket.id]
  {}

  lemma IdsTail(os: seq<Order>)
    requires os != []
    ensures Ids(os[1..]) == Ids(os)[1..]
  {}

  lemma IdsWithout(os: seq<Order>, i: nat)
    requires i < |os|
    ensures Ids(Crossing.Without(os, i)) == Crossing.Without(Ids(os), i)
  {}

  lemma ChannelsUpdate(chans: map<VenueId, seq<Order>>, v: VenueId, os: seq<Order>)
    ensures Channels(chans[v := os]) == Channels(chans)[v := Ids(os)]
  {}

  type Objects = map<OrderId, Order>

  ghost predicate Owned(objects: Objects, o: Order) {
    o.ticket.id in objects && objects[o.ticket.id] == o
  }

  ghost predicate AllOwned(objects: Objects, os: seq<Order>) {
    forall o | o in os :: Owned(objects, o)
  }

  ghost predicate ChannelsOwned(objects: Objects, chans: map<VenueId, seq<Order>>) {
    forall v | v in chans :: AllOwned(objects, chans[v])
  }

  /** The order map and the channels lead to the pipeline's own objects. */
  ghost predicate Wired(
      objects: Objects, orderMap: Objects, intake: seq<Order>, riskOut: seq<Order>, chans: map<VenueId, seq<Order>>) {
    && (forall id | id in objects :: objects[id].ticket.id == id)
    && (forall id | id in orderMap :: id in objects && objects[id] == orderMap[id])
    && AllOwned(objects, intake) && AllOwned(objects, riskOut) && ChannelsOwned(objects, chans)
  }

  lemma OwnedSnoc(objects: Objects, os: seq<Order>, o: Order)
    requires AllOwned(objects, os) && Owned(objects, o)
    ensures AllOwned(objects, os + [o])
  {}

  lemma OwnedTail(objects: Objects, os: seq<Order>)
    requires AllOwned(objects, os) && os != []
    ensures AllOwned(objects, os[1..]) && Owned(objects, os[0])
  {}

  lemma OwnedWithout(objects: Objects, os: seq<Order>, i: nat)
    requires AllOwned(objects, os) && i < |os|
    ensures AllOwned(objects, Crossing.Without(os, i)) && Owned(objects, os[i])
  {}

  lemma ChannelsOwnedUpdate(objects: Objects, chans: map<VenueId, seq<Order>>, v: VenueId, os: seq<Order>)
    requires ChannelsOwned(objects, chans) && AllOwned(objects, os)
    ensures ChannelsOwned(objects, chans[v := os])
  {}

  lemma WiredGrows(
      objects: Objects, orderMap: Objects, intake: seq<Order>, riskOut: seq<Order>,
      chans: map<VenueId, seq<Order>>, o: Order)
    requires Wired(objects, orderMap, intake, riskOut, chans) && o.ticket.id !in objects
    ensures Wired(objects[o.ticket.id := o], orderMap[o.ticket.id := o], intake, riskOut, chans)
  {
    var objects' := objects[o.ticket.id := o];
    forall v | v in chans ensures AllOwned(objects', chans[v]) {
      assert AllOwned(objects, chans[v]);
    }
  }

  lemma LinkedLines(c: Core, intake: seq<OrderId>, riskOut: seq<OrderId>)
    requires Linked(c) && (forall id | id in intake + riskOut :: id in c.orders)
    ensures Linked(c.(intake := intake, riskOut := riskOut))
  {}

  lemma LinkedChannel(c: Core, v: VenueId, ids: seq<OrderId>)
    requires Linked(c) && Known(c.orders.Keys, ids)
    ensures Linked(c.(dispatch := c.dispatch[v := ids]))
  {}

  /** What is left of a split leads to the target. */
  ghost predicate SplitFrom(
      c: Core, parent: Ticket, allocations: seq<Allocation>, ids: seq<OrderId>, ready: set<VenueId>, target: Core) {
    && Linked(c) && PositiveAllocations(allocations) && |ids| == |allocations| && FreshIds(c, ids)
    && Split(c, parent, allocations, ids, ready) == target
  }

  lemma SplitHead(
      c: Core, parent: Ticket, a: Allocation, rest: seq<Allocation>,
      id: OrderId, ids: seq<OrderId>, ready: set<VenueId>, target: Core)
    requires SplitFrom(c, parent, [a] + rest, [id] + ids, ready, target)
    ensures 0.0 < a.quantity && id !in c.orders && PositiveAllocations(rest)
    ensures var c' := WithChild(c, Child(parent, a, id), ready);
      FreshIds(c', ids) ==> SplitFrom(c', parent, rest, ids, ready, target)
  {
    assert ([a] + rest)[0] == a && ([a] + rest)[1..] == rest;
    assert ([id] + ids)[0] == id && ([id] + ids)[1..] == ids;
    assert a in [a] + rest && id in [id] + ids;
  }

  lemma SplitDone(
      c: Core, parent: Ticket, allocations: seq<Allocation>, ids: seq<OrderId>, ready: set<VenueId>, target: Core)
    requires SplitFrom(c, parent, allocations, ids, ready, target) && |allocations| == 0
    ensures c == target
  {}

  lemma FreshAfterChild(
      c: Core, parent: Ticket, a: Allocation, id: OrderId, later: seq<OrderId>, ready: set<VenueId>)
    requires Linked(c) && 0.0 < a.quantity && FreshIds(c, [id] + later)
    ensures id !in c.orders && FreshIds(WithChild(c, Child(parent, a, id), ready), later)
  {
    assert ([id] + later)[0] == id && id in [id] + later;
    forall l | l in later ensures l !in c.orders && l != id {
      var k :| 0 <= k < |later| && later[k] == l;
      assert ([id] + later)[k + 1] == l && l in [id] + later;
    }
    assert forall j | 0 <= j < |later| :: ([id] + later)[j + 1] == later[j];
  }

  class Pipeline {
    const g: Grid
    const failOpen: bool
    ghost var objects: map<OrderId, Order>  // every order object ever made
    var orderMap: map<OrderId, Order>
    var stored: map<OrderId, OrderState>
    var positions: map<PositionKey, PositionState>
    var intake: seq<Order>
    var riskOut: seq<Order>
    var dispatchCh: map<VenueId, seq<Order>>

    ghost predicate Mine(o: Order)
      reads this
    {
      Owned(objects, o)
    }

    ghost predicate Pointers()
      reads this
    {
      Wired(objects, orderMap, intake, riskOut, dispatchCh)
    }

    ghost function View(): Core
      reads this, objects.Values
    {
      Core(Snapshots(objects), orderMap.Keys, stored, positions,
           Ids(intake), Ids(riskOut), Channels(dispatchCh))
    }

    ghost predicate Valid()
      reads this, objects.Values
    {
      Pointers() && Linked(View())
    }

    constructor (venues: set<VenueId>, failOpen: bool, g: Grid)
      ensures Valid() && View() == PipelineCore.Start(venues)
    {
      this.g, this.failOpen := g, failOpen;
      objects, orderMap, stored, positions := map[], map[], map[], map[];
      intake, riskOut := [], [];
      dispatchCh := map v | v in venues :: [];
    }

    /** Changing one order in place changes one entry of the view. */
    twostate lemma OneOrderChanged(o: Order)
      requires old(Pointers()) && old(Mine(o)) && objects == old(objects)
      requires forall p | p in objects.Values && p != o :: p.Snapshot() == old(p.Snapshot())
      ensures Snapshots(objects) == old(Snapshots(objects))[o.ticket.id := o.Snapshot()]
    {}

    twostate lemma NoOrderChanged()
      requires old(Pointers()) && unchanged(this)
      requires forall p | p in objects.Values :: p.Snapshot() == old(p.Snapshot())
      ensures View() == old(View())
    {
      assert Snapshots(objects) == old(Snapshots(objects));
    }

    /** Write an order that was just changed to the store. */
    twostate lemma ViewAfterPersist(o: Order)
      requires old(Valid()) && old(Mine(o)) && Sound(o.Snapshot())
      requires objects == old(objects) && orderMap == old(orderMap) && positions == old(positions)
      requires intake == old(intake) && riskOut == old(riskOut) && dispatchCh == old(dispatchCh)
      requires forall p | p in objects.Values && p != o :: p.Snapshot() == old(p.Snapshot())
      requires stored == old(stored)[o.ticket.id := o.Snapshot()]
      ensures Valid() && View() == Saved(old(View()), o.Snapshot())
    {
      OneOrderChanged(o);
      assert View() == Saved(old(View()), o.Snapshot());
    }

    method SendIntake(order: Order)
      requires Valid() && Mine(order)
      modifies this`intake
      ensures Valid() && View() == old(View()).(intake := old(View()).intake + [order.ticket.id])
    {
      IdsSnoc(intake, order);
      OwnedSnoc(objects, intake, order);
      LinkedLines(View(), View().intake + [order.ticket.id], View().riskOut);
      intake := intake + [order];
    }

    method ReceiveIntake(i: nat) returns (order: Order)
      requires Valid() && i < |intake|
      modifies this`intake
      ensures Valid() && View() == old(View()).(intake := Crossing.Without(old(View()).intake, i))
      ensures order == old(intake[i]) && Mine(order)
    {
      order := intake[i];
      IdsWithout(intake, i);
      OwnedWithout(objects, intake, i);
      LinkedLines(View(), Crossing.Without(View().intake, i), View().riskOut);
      intake := Crossing.Without(intake, i);
    }

    method SendRiskOut(order: Order)
      requires Valid() && Mine(order)
      modifies this`riskOut
      ensures Valid() && View() == old(View()).(riskOut := old(View()).riskOut + [order.ticket.id])
    {
      IdsSnoc(riskOut, order);
      OwnedSnoc(objects, riskOut, order);
      LinkedLines(View(), View().intake, View().riskOut + [order.ticket.id]);
      riskOut := riskOut + [order];
    }

    method ReceiveRiskOut() returns (order: Order)
      requires Valid() && riskOut != []
      modifies this`riskOut
      ensures Valid() && View() == old(View()).(riskOut := old(View()).riskOut[1..])
      ensures order == old(riskOut[0]) && Mine(order)
    {
      order := riskOut[0];
      IdsTail(riskOut);
      OwnedTail(objects, riskOut);
      LinkedLines(View(), View().intake, View().riskOut[1..]);
      riskOut := riskOut[1..];
    }

    method SendToVenue(order: Order, v: VenueId)
      requires Valid() && Mine(order) && v in dispatchCh
      modifies this`dispatchCh
      ensures Valid() && dispatchCh.Keys == old(dispatchCh.Keys)
      ensures View() == old(View()).(dispatch := old(View()).dispatch[v := old(View()).dispatch[v] + [order.ticket.id]])
    {
      var queue := dispatchCh[v] + [order];
      IdsSnoc(dispatchCh[v], order);
      OwnedSnoc(objects, dispatchCh[v], order);
      ChannelsUpdate(dispatchCh, v, queue);
      ChannelsOwnedUpdate(objects, dispatchCh, v, queue);
      LinkedChannel(View(), v, View().dispatch[v] + [order.ticket.id]);
      dispatchCh := dispatchCh[v := queue];
    }

    method ReceiveAtVenue(v: VenueId) returns (order: Order)
      requires Valid() && v in dispatchCh && dispatchCh[v] != []
      modifies this`dispatchCh
      ensures Valid()
      ensures View() == old(View()).(dispatch := old(View()).dispatch[v := old(View()).dispatch[v][1..]])
      ensures order == old(dispatchCh[v][0]) && Mine(order)
    {
      order := dispatchCh[v][0];
      var queue := dispatchCh[v][1..];
      IdsTail(dispatchCh[v]);
      OwnedTail(objects, dispatchCh[v]);
      ChannelsUpdate(dispatchCh, v, queue);
      ChannelsOwnedUpdate(objects, dispatchCh, v, queue);
      LinkedChannel(View(), v, View().dispatch[v][1..]);
      dispatchCh := dispatchCh[v := queue];
    }

    /** A new order enters the store and the order map. */
    method Register(order: Order)
      requires Valid() && order.ticket.id !in objects && Sound(order.Snapshot())
      modifies this`objects, this`stored, this`orderMap
      ensures Valid() && View() == Registered(old(View()), order.Snapshot()) && Mine(order)
      ensures objects == old(objects)[order.ticket.id := order]
    {
      var id := order.ticket.id;
      ghost var c := View();
      WiredGrows(objects, orderMap, intake, riskOut, dispatchCh, order);
      SnapshotsGrow(objects, order);
      objects := objects[id := order];
      stored := stored[id := order.Snapshot()];
      orderMap := orderMap[id := order];
      assert orderMap.Keys == c.inFlight + {id};
      assert View() == Registered(c, order.Snapshot());
    }

    method Submit(order: Order) returns (ok: bool)
      requires Valid() && order.ticket.id !in objects && order.Snapshot() == NewOrder(order.ticket, order.venue)
      modifies this
      ensures Valid() && View() == PipelineCore.Submit(old(View()), order.ticket, order.venue)
      ensures ok <==> 0.0 < order.ticket.quantity && order.ticket.instrument != ""
    {
      if order.ticket.quantity <= 0.0 || order.ticket.instrument == "" {
        return false;
      }
      Register(order);
      SendIntake(order);
      return true;
    }

    /** Reject where the transition allows it, and persist. */
    method Reject(order: Order)
      requires Valid() && Mine(order)
      modifies this`stored, order
      ensures Valid() && View() == Declined(old(View()), order.ticket.id)
    {
      TransitionKeepsSound(View().orders[order.ticket.id], Rejected);
      var _ := order.ApplyTransition(Rejected);
      stored := stored[order.ticket.id := order.Snapshot()];
      ViewAfterPersist(order);
    }

    /** One risk worker with the answer of the risk engine. */
    method RiskCheck(i: nat, answer: RiskAnswer)
      requires Valid() && i < |intake|
      modifies this, intake[i]
      ensures Valid() && View() == Decide(old(View()), i, answer, failOpen) && objects == old(objects)
    {
      var order := ReceiveIntake(i);
      var reject := false;
      if answer.Unavailable? {
        reject := !failOpen;
      } else {
        reject := !answer.approved;
      }
      if reject {
        Reject(order);
      } else {
        SendRiskOut(order);
      }
    }

    method DispatchToVenue(order: Order, venue: VenueId, ready: set<VenueId>)
      requires Valid() && Mine(order)
      modifies this, order
      ensures Valid() && View() == Dispatched(old(View()), order.ticket.id, venue, ready) && objects == old(objects)
      ensures intake == old(intake) && riskOut == old(riskOut)
    {
      if venue !in ready {
        Reject(order);
        return;
      }
      if venue !in dispatchCh {
        return;
      }
      SendToVenue(order, venue);
    }

    method AssignVenue(order: Order, venue: VenueId)
      requires Valid() && Mine(order)
      modifies this`stored, order
      ensures Valid() && View() == Assigned(old(View()), order.ticket.id, venue)
    {
      assert View().orders[order.ticket.id] == order.Snapshot();
      order.venue := venue;
      stored := stored[order.ticket.id := order.Snapshot()];
      ViewAfterPersist(order);
    }

    method RouteLegacy(order: Order, any: VenueId, ready: set<VenueId>)
      requires Valid() && Mine(order)
      modifies this, order
      ensures Valid() && View() == RoutedLegacy(old(View()), order.ticket.id, any, ready) && objects == old(objects)
    {
      assert View().dispatch.Keys == dispatchCh.Keys;
      var venue := LegacyVenue(order.ticket.assetClass, dispatchCh.Keys, any);
      if venue == "" {
        Reject(order);
        return;
      }
      AssignVenue(order, venue);
      DispatchToVenue(order, venue, ready);
    }

    /** The fill reaches the order object and, if it is accepted, the order row. */
    method ApplyToOrder(order: Order, f: Fill) returns (applied: Outcome)
      requires Valid() && Mine(order) && f.order == order.ticket.id && 0.0 < f.quantity && Sound(order.Snapshot())
      modifies this`stored, order
      ensures applied == Fillability(old(order.Snapshot()), f)
      ensures order.Snapshot() == AfterFill(old(order.Snapshot()), f, g)
      ensures Valid()
      ensures View() == if applied.Pass? then Saved(old(View()), order.Snapshot()) else old(View())
    {
      FillKeepsSound(order.Snapshot(), f, g);
      applied := order.ApplyFill(f, g);
      if applied.Fail? {
        NoOrderChanged();
        return;
      }
      stored := stored[order.ticket.id := order.Snapshot()];
      ViewAfterPersist(order);
    }

    /** The position row of the order's venue takes the fill and is marked at its last price. */
    method UpdatePosition(order: Order, f: Fill, ghost before: OrderState)
      requires before.ticket == order.ticket && before.venue == order.venue
      modifies this`positions
      ensures positions == old(positions)[
        PositionKey(order.ticket.instrument, order.venue) := PositionAfter(old(positions), before, f, g)]
    {
      var key := PositionKey(order.ticket.instrument, order.venue);
      var row := if key in positions then positions[key] else Opened(f.price);
      var pos := new Position(row);
      var _ := pos.ApplyFill(Trade(order.ticket.side, f.quantity, f.price), g);
      pos.UpdateMarketPrice(pos.marketPrice);
      positions := positions[key := pos.Row()];
    }

    method ProcessFill(f: Fill)
      requires Valid() && 0.0 < f.quantity
      modifies this`stored, this`positions, this`orderMap, objects.Values
      ensures Valid() && View() == Processed(old(View()), f, g)
    {
      if f.order !in orderMap {
        return;
      }
      var order := orderMap[f.order];
      ghost var before := order.Snapshot();
      assert View().orders[f.order] == before;
      var applied := ApplyToOrder(order, f);
      if applied.Fail? {
        return;
      }
      Book(order, f, before);
    }

    /** An accepted fill moves the position; a filled order leaves the order map. */
    method Book(order: Order, f: Fill, ghost before: OrderState)
      requires Valid() && Mine(order) && before.ticket == order.ticket && before.venue == order.venue
      modifies this`positions, this`orderMap
      ensures Valid()
      ensures var c := old(View());
        View() == c.(
          positions := c.positions[
            PositionKey(order.ticket.instrument, order.venue) := PositionAfter(c.positions, before, f, g)],
          inFlight := if order.status == Filled then c.inFlight - {order.ticket.id} else c.inFlight)
    {
      ghost var c := View();
      UpdatePosition(order, f, before);
      Retire(order);
      assert View() == c.(positions := positions, inFlight := orderMap.Keys);
    }

    /** A filled order leaves the order map. */
    method Retire(order: Order)
      requires Pointers()
      modifies this`orderMap
      ensures Pointers()
      ensures orderMap.Keys
           == if order.status == Filled then old(orderMap.Keys) - {order.ticket.id} else old(orderMap.Keys)
    {
      if order.status == Filled {
        orderMap := orderMap - {order.ticket.id};
      }
    }

    method Acknowledge(order: Order) returns (ok: bool)
      requires Valid() && Mine(order)
      modifies this`stored, order
      ensures ok == (Acknowledged in Successors(old(order.status)))
      ensures Valid()
      ensures var o := old(View()).orders[order.ticket.id];
        View() == if ok then Saved(old(View()), Transition(o, Acknowledged)) else old(View())
    {
      TransitionKeepsSound(View().orders[order.ticket.id], Acknowledged);
      var r := order.ApplyTransition(Acknowledged);
      if r.Fail? {
        NoOrderChanged();
        return false;
      }
      stored := stored[order.ticket.id := order.Snapshot()];
      ViewAfterPersist(order);
      return true;
    }

    /** A dispatcher takes the next order of its venue; true if it is now acknowledged. */
    method TakeAndAcknowledge(v: VenueId) returns (order: Order, acknowledged: bool)
      requires Valid() && v in dispatchCh && dispatchCh[v] != []
      modifies this`dispatchCh, this`stored, dispatchCh[v][0]
      ensures Valid() && View() == Taken(old(View()), v)
      ensures order == old(dispatchCh[v][0]) && acknowledged == Acknowledges(old(View()), v)
    {
      assert View().dispatch[v][0] == dispatchCh[v][0].ticket.id;
      order := ReceiveAtVenue(v);
      acknowledged := Acknowledge(order);
    }

    /** The crossing engine changes the order and its own book; no other order of the pipeline. */
    method CrossInPlace(order: Order, engine: Crossing.CrossingEngine) returns (result: Crossing.CrossResult)
      requires Pointers() && Mine(order)
      requires engine.Valid() && Foreign(engine.BookOf(order.ticket.instrument))
      modifies order, engine, engine.BookOf(order.ticket.instrument)
      ensures result == Crossing.Cross(old(engine.States(order.ticket.instrument)), old(order.Snapshot()), g).result
      ensures order.Snapshot() ==
        if result.NotCrossed? then old(order.Snapshot())
        else Crossing.Topped(old(order.Snapshot()), result.incoming.quantity)
      ensures forall p | p in objects.Values && p != order :: p.Snapshot() == old(p.Snapshot())
    {
      ForeignApart(engine.BookOf(order.ticket.instrument));
      result := engine.TryCross(order, g);
    }

    /** Try the crossing book. A cross leaves the order acknowledged for INTERNAL with its in-place
        fill taken back, ready for the fill to come through ProcessFill. */
    method TryInternal(order: Order, engine: Crossing.CrossingEngine) returns (result: Crossing.CrossResult)
      requires Valid() && Mine(order) && order.status == New
      requires engine.Valid() && Foreign(engine.BookOf(order.ticket.instrument))
      modifies this`stored, order, engine, engine.BookOf(order.ticket.instrument)
      ensures result == Crossing.Cross(old(engine.States(order.ticket.instrument)), old(order.Snapshot()), g).result
      ensures Valid()
      ensures var o := old(order.Snapshot());
        View() == if result.NotCrossed? then old(View())
                  else Saved(old(View()), Transition(o.(filled := 0.0, venue := INTERNAL), Acknowledged))
    {
      ghost var o := order.Snapshot();
      assert View().orders[order.ticket.id] == o;
      result := CrossInPlace(order, engine);
      if result.NotCrossed? {
        NoOrderChanged();
        return;
      }
      AcknowledgeInternal(order);
      assert order.Snapshot() == Transition(o.(filled := 0.0, venue := INTERNAL), Acknowledged);
      stored := stored[order.ticket.id := order.Snapshot()];
      ViewAfterPersist(order);
    }

    /** Take the in-place fill of TryCross back and acknowledge the order for INTERNAL. */
    static method AcknowledgeInternal(order: Order)
      modifies order
      ensures order.Snapshot() == Transition(old(order.Snapshot()).(filled := 0.0, venue := INTERNAL), Acknowledged)
    {
      order.filled := 0.0;
      order.venue := INTERNAL;
      var _ := order.ApplyTransition(Acknowledged);
    }

    /** Orders the pipeline does not hold: the counterparties in the crossing book. */
    ghost predicate Foreign(os: seq<Order>)
      reads this
    {
      forall o | o in os :: o.ticket.id !in objects
    }

    lemma ForeignApart(os: seq<Order>)
      requires Pointers() && Foreign(os)
      ensures forall o, p | o in os && p in objects.Values :: o != p
    {}

    /** One child order per allocation. */
    method DispatchChildren(parent: Ticket, allocations: seq<Allocation>, ids: seq<OrderId>, ready: set<VenueId>)
      requires Valid() && PositiveAllocations(allocations) && |ids| == |allocations| && FreshIds(View(), ids)
      modifies this
      ensures Valid() && View() == Split(old(View()), parent, allocations, ids, ready)
    {
      ghost var target := Split(View(), parent, allocations, ids, ready);
      assert allocations[0..] == allocations && ids[0..] == ids;
      for k := 0 to |allocations|
        invariant Valid() && SplitFrom(View(), parent, allocations[k..], ids[k..], ready, target)
      {
        DispatchNext(parent, allocations, ids, k, ready, target);
      }
      SplitDone(View(), parent, allocations[|allocations|..], ids[|allocations|..], ready, target);
    }

    method DispatchNext(
        parent: Ticket, allocations: seq<Allocation>, ids: seq<OrderId>,
        k: nat, ready: set<VenueId>, ghost target: Core)
      requires Valid() && k < |allocations| == |ids|
      requires SplitFrom(View(), parent, allocations[k..], ids[k..], ready, target)
      modifies this
      ensures Valid() && SplitFrom(View(), parent, allocations[k + 1..], ids[k + 1..], ready, target)
    {
      ghost var c := View();
      assert allocations[k..] == [allocations[k]] + allocations[k + 1..] && ids[k..] == [ids[k]] + ids[k + 1..];
      SplitHead(c, parent, allocations[k], allocations[k + 1..], ids[k], ids[k + 1..], ready, target);
      FreshAfterChild(c, parent, allocations[k], ids[k], ids[k + 1..], ready);
      DispatchChild(parent, allocations[k], ids[k], ready);
    }

    method DispatchChild(parent: Ticket, a: Allocation, id: OrderId, ready: set<VenueId>)
      requires Valid() && 0.0 < a.quantity && id !in View().orders
      modifies this
      ensures Valid() && View() == WithChild(old(View()), Child(parent, a, id), ready)
    {
      var child := new Order(parent.(id := id, quantity := a.quantity), a.venue);
      Register(child);
      DispatchToVenue(child, a.venue, ready);
    }

    /** External routing of an order, or of what is left of a partly crossed one. */
    method RouteOut(order: Order, answer: RouterAnswer, ids: seq<OrderId>, any: VenueId, ready: set<VenueId>)
      requires Valid() && Mine(order)
      requires answer.Allocations? ==>
        PositiveAllocations(answer.allocations) && |ids| == |answer.allocations| && FreshIds(View(), ids)
      modifies this, order
      ensures Valid() && View() == RoutedOut(old(View()), order.ticket.id, answer, ids, any, ready)
    {
      assert View().dispatch.Keys == dispatchCh.Keys && View().orders[order.ticket.id] == order.Snapshot();
      if dispatchCh.Keys == {} {
        assert View().dispatch == map[];
        Reject(order);
        return;
      }
      match answer {
        case RouterError =>
          RouteLegacy(order, any, ready);
        case Allocations(allocations) =>
          if |allocations| == 1 {
            AssignVenue(order, allocations[0].venue);
            DispatchToVenue(order, allocations[0].venue, ready);
          } else {
            DispatchChildren(order.ticket, allocations, ids, ready);
          }
      }
    }

    /** Everything the router is told about an order. */
    ghost function Input(
        order: Order, smart: bool, engine: Crossing.CrossingEngine?,
        answer: RouterAnswer, ids: seq<OrderId>, any: VenueId, ready: set<VenueId>): RouteInput
      reads order, engine, if engine == null then [] else engine.BookOf(order.ticket.instrument)
    {
      RouteInput(
        smart,
        if smart && engine != null
        then Crossing.Cross(engine.States(order.ticket.instrument), order.Snapshot(), g).result
        else Crossing.NotCrossed,
        answer, ids, any, ready)
    }

    /** A crossing book the router can use for an order. */
    ghost predicate Usable(engine: Crossing.CrossingEngine?, i: Instrument)
      reads this, engine, if engine == null then [] else engine.BookOf(i)
    {
      engine != null ==>
        engine.Valid() && Foreign(engine.BookOf(i)) && forall o | o in engine.States(i) :: 0.0 < Crossing.Remaining(o)
    }

    lemma InputAnswered(
        order: Order, smart: bool, engine: Crossing.CrossingEngine?,
        answer: RouterAnswer, ids: seq<OrderId>, any: VenueId, ready: set<VenueId>)
      requires Valid() && Mine(order) && order.status == New && Usable(engine, order.ticket.instrument)
      requires answer.Allocations? ==>
        PositiveAllocations(answer.allocations) && |ids| == |answer.allocations| && FreshIds(View(), ids)
      ensures Answered(View(), order.ticket.id, Input(order, smart, engine, answer, ids, any, ready))
    {
      assert View().orders[order.ticket.id] == order.Snapshot();
      if engine != null {
        Crossing.CrossPositive(engine.States(order.ticket.instrument), order.Snapshot(), g);
      }
    }

    /** Try the crossing book and process the order's own fill. */
    method CrossInternally(order: Order, engine: Crossing.CrossingEngine) returns (result: Crossing.CrossResult)
      requires Valid() && Mine(order) && order.status == New && Usable(engine, order.ticket.instrument)
      modifies this`stored, this`positions, this`orderMap, objects.Values
      modifies engine, engine.BookOf(order.ticket.instrument)
      ensures Valid()
      ensures result == Crossing.Cross(old(engine.States(order.ticket.instrument)), old(order.Snapshot()), g).result
      ensures old(View()).orders[order.ticket.id].status == New && (result.Crossed? ==> 0.0 < result.incoming.quantity)
      ensures View() == if result.NotCrossed? then old(View())
                        else PipelineCore.CrossedInternally(old(View()), order.ticket.id, result.incoming, g)
      ensures View().orders.Keys == old(View()).orders.Keys
    {
      assert View().orders[order.ticket.id] == order.Snapshot();
      Crossing.CrossPositive(engine.States(order.ticket.instrument), order.Snapshot(), g);
      result := TryInternal(order, engine);
      if result.Crossed? {
        ProcessFill(result.incoming);
      }
    }

    method RouteSmart(
        order: Order, engine: Crossing.CrossingEngine?, answer: RouterAnswer,
        ids: seq<OrderId>, any: VenueId, ready: set<VenueId>)
      requires Valid() && Mine(order) && order.status == New && Usable(engine, order.ticket.instrument)
      requires answer.Allocations? ==>
        PositiveAllocations(answer.allocations) && |ids| == |answer.allocations| && FreshIds(View(), ids)
      modifies this, objects.Values, engine, if engine == null then [] else engine.BookOf(order.ticket.instrument)
      ensures Valid()
      ensures var input := old(Input(order, true, engine, answer, ids, any, ready));
        Answered(old(View()), order.ticket.id, input)
        && View() == RoutedSmart(old(View()), order.ticket.id, input, g)
    {
      InputAnswered(order, true, engine, answer, ids, any, ready);
      if engine != null {
        var result := CrossInternally(order, engine);
        if result.Crossed? && result.residual == None {
          return;
        }
      }
      RouteOut(order, answer, ids, any, ready);
    }

    /** The router takes the next approved order. */
    method Route(
        smart: bool, engine: Crossing.CrossingEngine?, answer: RouterAnswer,
        ids: seq<OrderId>, any: VenueId, ready: set<VenueId>)
      requires Valid() && riskOut != [] && riskOut[0].status == New && Usable(engine, riskOut[0].ticket.instrument)
      requires answer.Allocations? ==>
        PositiveAllocations(answer.allocations) && |ids| == |answer.allocations| && FreshIds(View(), ids)
      modifies this, objects.Values, engine, if engine == null then [] else engine.BookOf(riskOut[0].ticket.instrument)
      ensures Valid()
      ensures var input := old(Input(riskOut[0], smart, engine, answer, ids, any, ready));
        Routable(old(View()), input) && View() == Routed(old(View()), input, g)
    {
      assert Ids(riskOut)[0] == riskOut[0].ticket.id && riskOut[0] in riskOut;
      InputAnswered(riskOut[0], smart, engine, answer, ids, any, ready);
      var order := ReceiveRiskOut();
      if smart {
        RouteSmart(order, engine, answer, ids, any, ready);
      } else {
        RouteLegacy(order, any, ready);
      }
    }
  }
}
