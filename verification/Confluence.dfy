/** The fill collectors of different venues may run in any order: from every reachable state, any two
    schedules that give each collector the same number of turns end in the same state. */
module Confluence {
  import opened Routing
  import opened Decimals
  import opened Orders
  import opened Positions
  import opened PipelineCore
  import opened PipelineLedger
  import opened PipelineMachine
  import opened PipelineSafety
  import Crossing

  /** One turn of a collector; it does nothing while the channel is empty. */
  ghost function Turn(s: System, v: VenueId): System {
    if Enabled(s, Collect(v)) then Collected(s, v) else s
  }

  // ---------------------------------------------------------------- two fills commute

  function KeyOf(o: OrderState): PositionKey {
    PositionKey(o.ticket.instrument, o.venue)
  }

  predicate Applies(c: Core, f: Fill)
    requires Linked(c)
  {
    f.order in c.inFlight && Fillability(c.orders[f.order], f).Pass?
  }

  /** A fill reads and writes its own order and that order's position, and nothing else. */
  lemma FillIsLocal(c: Core, f: Fill, h: Fill, g: Grid)
    requires Linked(c) && 0.0 < f.quantity && 0.0 < h.quantity
    requires f.order in c.orders && h.order in c.orders && KeyOf(c.orders[f.order]) != KeyOf(c.orders[h.order])
    ensures var r := Processed(c, f, g);
      && h.order in r.orders && r.orders[h.order] == c.orders[h.order]
      && (h.order in r.inFlight <==> h.order in c.inFlight)
      && PositionAfter(r.positions, c.orders[h.order], h, g) == PositionAfter(c.positions, c.orders[h.order], h, g)
  {
    if Applies(c, f) {
      var k := KeyOf(c.orders[f.order]);
      assert Processed(c, f, g).positions == c.positions[k := PositionAfter(c.positions, c.orders[f.order], f, g)];
      OtherPosition(c, Processed(c, f, g), c.orders[h.order], h, g);
    }
  }

  lemma OtherPosition(c: Core, r: Core, o: OrderState, h: Fill, g: Grid)
    requires KeyOf(o) in r.positions <==> KeyOf(o) in c.positions
    requires KeyOf(o) in c.positions ==> r.positions[KeyOf(o)] == c.positions[KeyOf(o)]
    ensures PositionAfter(r.positions, o, h, g) == PositionAfter(c.positions, o, h, g)
  {}

  /** The effect of a fill that applies, with what it computes spelled out. */
  function Written(c: Core, o': OrderState, p': PositionState): Core {
    var id := o'.ticket.id;
    c.(orders := c.orders[id := o'], stored := c.stored[id := o'], positions := c.positions[KeyOf(o') := p'],
       inFlight := if o'.status == Filled then c.inFlight - {id} else c.inFlight)
  }

  lemma ProcessedWrites(c: Core, f: Fill, g: Grid)
    requires Linked(c) && 0.0 < f.quantity && Applies(c, f)
    ensures Processed(c, f, g)
         == Written(c, AfterFill(c.orders[f.order], f, g), PositionAfter(c.positions, c.orders[f.order], f, g))
    ensures KeyOf(AfterFill(c.orders[f.order], f, g)) == KeyOf(c.orders[f.order])
    ensures AfterFill(c.orders[f.order], f, g).ticket.id == f.order
  {
    OrderMoves(c.orders[f.order], f, g);
  }

  lemma UpdatesSwap<K, V>(m: map<K, V>, k: K, x: V, l: K, y: V)
    requires k != l
    ensures m[k := x][l := y] == m[l := y][k := x]
  {}

  lemma WritesCommute(c: Core, o: OrderState, p: PositionState, o': OrderState, p': PositionState)
    requires o.ticket.id != o'.ticket.id && KeyOf(o) != KeyOf(o')
    ensures Written(Written(c, o, p), o', p') == Written(Written(c, o', p'), o, p)
  {
    UpdatesSwap(c.orders, o.ticket.id, o, o'.ticket.id, o');
    UpdatesSwap(c.stored, o.ticket.id, o, o'.ticket.id, o');
    UpdatesSwap(c.positions, KeyOf(o), p, KeyOf(o'), p');
    assert c.inFlight - {o.ticket.id} - {o'.ticket.id} == c.inFlight - {o'.ticket.id} - {o.ticket.id};
  }

  lemma {:induction false} FillsCommute(c: Core, f: Fill, h: Fill, g: Grid)
    requires Linked(c) && 0.0 < f.quantity && 0.0 < h.quantity
    requires f.order in c.orders && h.order in c.orders && KeyOf(c.orders[f.order]) != KeyOf(c.orders[h.order])
    ensures Processed(Processed(c, f, g), h, g) == Processed(Processed(c, h, g), f, g)
  {
    FillIsLocal(c, f, h, g);
    FillIsLocal(c, h, f, g);
    if Applies(c, f) && Applies(c, h) {
      ProcessedWrites(c, f, g);
      ProcessedWrites(c, h, g);
      ProcessedWrites(Processed(c, f, g), h, g);
      ProcessedWrites(Processed(c, h, g), f, g);
      WritesCommute(
        c, AfterFill(c.orders[f.order], f, g), PositionAfter(c.positions, c.orders[f.order], f, g),
        AfterFill(c.orders[h.order], h, g), PositionAfter(c.positions, c.orders[h.order], h, g));
    }
  }

  // ---------------------------------------------------------------- two collectors commute

  lemma TurnKeepsInv(s: System, v: VenueId)
    requires Inv(s)
    ensures Inv(Turn(s, v)) && Turn(s, v).desks.Keys == s.desks.Keys
  {
    if Enabled(s, Collect(v)) {
      StepKeepsInv(s, Collect(v));
    }
  }

  predicate Pending(s: System, v: VenueId) {
    v in s.desks && s.desks[v].read < |s.desks[v].venue.fills|
  }

  function Advanced(d: Desk): Desk {
    d.(read := d.read + 1)
  }

  lemma EnabledWhenPending(s: System, v: VenueId)
    ensures Enabled(s, Collect(v)) <==> Shaped(s) && Pending(s, v)
  {}

  lemma PendingFillPositive(s: System, v: VenueId)
    requires Shaped(s) && Pending(s, v)
    ensures 0.0 < NextFill(s.desks[v]).quantity && Linked(s.core)
  {
    assert NextFill(s.desks[v]) in s.desks[v].venue.fills;
  }

  lemma TurnShape(s: System, v: VenueId)
    requires Shaped(s) && Pending(s, v)
    ensures 0.0 < NextFill(s.desks[v]).quantity && Linked(s.core)
    ensures Turn(s, v)
         == s.(core := Processed(s.core, NextFill(s.desks[v]), s.cfg.g), desks := s.desks[v := Advanced(s.desks[v])])
  {
    EnabledWhenPending(s, v);
    PendingFillPositive(s, v);
  }

  /** The next fills of two collectors concern different orders at different venues. */
  lemma NextFillsApart(s: System, u: VenueId, v: VenueId)
    requires Inv(s) && u != v && Pending(s, u) && Pending(s, v)
    ensures var f, h, orders := NextFill(s.desks[u]), NextFill(s.desks[v]), s.core.orders;
      f.order in orders && h.order in orders && KeyOf(orders[f.order]) != KeyOf(orders[h.order])
  {
    assert Enabled(s, Collect(u)) && Enabled(s, Collect(v));
    NextFillOwned(s, u);
    NextFillOwned(s, v);
  }

  lemma TwoTurns(s: System, u: VenueId, v: VenueId)
    requires Inv(s) && u != v && Pending(s, u) && Pending(s, v)
    ensures var f, h := NextFill(s.desks[u]), NextFill(s.desks[v]);
      && Linked(s.core) && 0.0 < f.quantity && 0.0 < h.quantity
      && Turn(Turn(s, u), v) == s.(
           core := Processed(Processed(s.core, f, s.cfg.g), h, s.cfg.g),
           desks := s.desks[u := Advanced(s.desks[u])][v := Advanced(s.desks[v])])
  {
    TurnShape(s, u);
    TurnShape(s, v);
    TurnKeepsInv(s, u);
    TurnShape(Turn(s, u), v);
  }

  lemma BothPendingCommute(s: System, u: VenueId, v: VenueId)
    requires Inv(s) && u != v && Pending(s, u) && Pending(s, v)
    ensures Turn(Turn(s, u), v) == Turn(Turn(s, v), u)
  {
    TwoTurns(s, u, v);
    TwoTurns(s, v, u);
    NextFillsApart(s, u, v);
    FillsCommute(s.core, NextFill(s.desks[u]), NextFill(s.desks[v]), s.cfg.g);
    UpdatesSwap(s.desks, u, Advanced(s.desks[u]), v, Advanced(s.desks[v]));
  }

  lemma IdleTurn(s: System, u: VenueId)
    requires !Pending(s, u)
    ensures Turn(s, u) == s
  {
    EnabledWhenPending(s, u);
  }

  /** A collector with nothing to read stays idle through a turn of another. */
  lemma StaysIdle(s: System, u: VenueId, v: VenueId)
    requires Inv(s) && u != v && !Pending(s, u)
    ensures Turn(Turn(s, u), v) == Turn(Turn(s, v), u)
  {
    IdleTurn(s, u);
    if Pending(s, v) {
      TurnShape(s, v);
    } else {
      IdleTurn(s, v);
    }
    IdleTurn(Turn(s, v), u);
  }

  lemma {:induction false} TurnsCommute(s: System, u: VenueId, v: VenueId)
    requires Inv(s)
    ensures Turn(Turn(s, u), v) == Turn(Turn(s, v), u)
  {
    if u != v {
      if !Pending(s, u) {
        StaysIdle(s, u, v);
      } else if !Pending(s, v) {
        StaysIdle(s, v, u);
      } else {
        BothPendingCommute(s, u, v);
      }
    }
  }

  // ---------------------------------------------------------------- schedules

  /** Turns that keep an invariant and commute wherever it holds. */
  ghost predicate Commuting<S(!new), V(!new)>(inv: S -> bool, turn: (S, V) -> S) {
    && (forall s, v | inv(s) :: inv(turn(s, v)))
    && (forall s, u, v | inv(s) :: turn(turn(s, u), v) == turn(turn(s, v), u))
  }

  ghost function Played<S, V>(turn: (S, V) -> S, s: S, schedule: seq<V>): S
    decreases |schedule|
  {
    if schedule == [] then s else Played(turn, turn(s, schedule[0]), schedule[1..])
  }

  lemma {:induction false} MoveToFront<S(!new), V(!new)>(
      inv: S -> bool, turn: (S, V) -> S, s: S, schedule: seq<V>, j: nat)
    requires Commuting(inv, turn) && inv(s) && j < |schedule|
    ensures Played(turn, s, schedule) == Played(turn, turn(s, schedule[j]), Crossing.Without(schedule, j))
    decreases |schedule|
  {
    if j == 0 {
      assert schedule[1..] == Crossing.Without(schedule, 0);
    } else {
      var u, v := schedule[0], schedule[j];
      MoveToFront(inv, turn, turn(s, u), schedule[1..], j - 1);
      assert Crossing.Without(schedule, j)[0] == u;
      assert Crossing.Without(schedule, j)[1..] == Crossing.Without(schedule[1..], j - 1);
    }
  }

  lemma WithoutOne<V>(xs: seq<V>, ys: seq<V>, j: nat)
    requires xs != [] && multiset(xs) == multiset(ys) && j < |ys| && ys[j] == xs[0]
    ensures multiset(xs[1..]) == multiset(Crossing.Without(ys, j))
  {
    assert xs == [xs[0]] + xs[1..];
    assert ys == ys[..j] + [ys[j]] + ys[j + 1..];
    assert multiset(xs[1..]) == multiset(xs) - multiset{xs[0]};
    assert multiset(Crossing.Without(ys, j)) == multiset(ys) - multiset{ys[j]};
  }

  lemma {:induction false} SchedulesAgree<S(!new), V(!new)>(
      inv: S -> bool, turn: (S, V) -> S, s: S, xs: seq<V>, ys: seq<V>)
    requires Commuting(inv, turn) && inv(s) && multiset(xs) == multiset(ys)
    ensures Played(turn, s, xs) == Played(turn, s, ys)
    decreases |xs|
  {
    if xs == [] {
      assert |multiset(ys)| == 0;
    } else {
      assert xs[0] in multiset(ys);
      var j :| 0 <= j < |ys| && ys[j] == xs[0];
      MoveToFront(inv, turn, s, ys, j);
      WithoutOne(xs, ys, j);
      SchedulesAgree(inv, turn, turn(s, xs[0]), xs[1..], Crossing.Without(ys, j));
    }
  }

  ghost function CollectorTurn(): (System, VenueId) -> System {
    (s, v) => Turn(s, v)
  }

  ghost function Invariant(): System -> bool {
    s => Inv(s)
  }

  lemma TurnsCommuteEverywhere()
    ensures Commuting(Invariant(), CollectorTurn())
  {
    var inv, turn := Invariant(), CollectorTurn();
    forall s, v | inv(s) ensures inv(turn(s, v)) {
      TurnKeepsInv(s, v);
    }
    forall s, u, v | inv(s) ensures turn(turn(s, u), v) == turn(turn(s, v), u) {
      TurnsCommute(s, u, v);
    }
  }

  ghost function Turns(s: System, schedule: seq<VenueId>): System {
    Played(CollectorTurn(), s, schedule)
  }

  /** From every reachable state: orders, order map, store rows, positions and channels do not depend
      on how the collectors of the venues interleave. */
  lemma {:induction false} CollectorsConfluent(cfg: Config, actions: seq<Action>, xs: seq<VenueId>, ys: seq<VenueId>)
    requires multiset(xs) == multiset(ys)
    ensures Turns(Run(cfg, actions), xs) == Turns(Run(cfg, actions), ys)
  {
    Reachable(cfg, actions);
    TurnsCommuteEverywhere();
    SchedulesAgree(Invariant(), CollectorTurn(), Run(cfg, actions), xs, ys);
  }
}
