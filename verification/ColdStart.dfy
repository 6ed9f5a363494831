/** What a cold start does with the orders that were in flight, and with the venue's resting orders. */
module ColdStart {
  import opened Types
  import opened Sim
  import opened Routing
  import opened Discipline
  import opened Runtime
  import opened Runs
  import opened Recovery
  import opened Reconciliation

  predicate InFlightRow(row: OrderRow) {
    row.status == Submitting || row.status == Accepted
  }

  /** Some order of instrument i among `orders` was in flight and still rests. */
  ghost predicate StillRests(db: Db, orders: seq<Cid>, resting: seq<Cid>, i: int) {
    exists c :: c in orders && c in resting && c in db.orders && InFlightRow(db.orders[c]) && db.orders[c].iid == i
  }

  predicate WasPending(local: map<int, PositionRow>, i: int) {
    i in local && Pending(local[i].state)
  }

  /** What settling the orders in flight leaves of one that was: adopted if it rests, abandoned if not. */
  function SettledRow(db: Db, orders: seq<Cid>, resting: seq<Cid>, c: Cid): OrderRow
    requires c in db.orders
  {
    if c in orders && InFlightRow(db.orders[c]) then db.orders[c].(status := if c in resting then Adopted else Abandoned) else db.orders[c]
  }

  lemma OneSettled(w: World, c: Cid, local: map<int, PositionRow>, resting: seq<Cid>, now: int)
    requires forall i :: i in w.routers ==> w.routers[i].iid == i
    ensures var w2 := SettleOrder(w, c, local, resting, now);
      && (forall x :: x in w2.db.orders <==> x in w.db.orders)
      && (forall x :: x in w.db.orders ==> w2.db.orders[x] == SettledRow(w.db, [c], resting, x))
      && (forall i :: i in w2.routers <==> i in w.routers) && (forall i :: i in w.routers ==> w2.routers[i].iid == i)
      && (forall i :: i in w.routers ==>
            if WasPending(local, i) && StillRests(w.db, [c], resting, i)
            then w2.routers[i].state == local[i].state && w2.routers[i].pendingCid == Some(c)
            else w2.routers[i] == w.routers[i])
  {
  }

  lemma {:induction false} OrdersSettled(w: World, orders: seq<Cid>, local: map<int, PositionRow>, resting: seq<Cid>, now: int)
    requires forall i :: i in w.routers ==> w.routers[i].iid == i
    ensures var w2 := SettleOrders(w, orders, local, resting, now);
      && (forall x :: x in w2.db.orders <==> x in w.db.orders)
      && (forall x :: x in w.db.orders ==> w2.db.orders[x] == SettledRow(w.db, orders, resting, x))
      && (forall i :: i in w2.routers <==> i in w.routers)
      && (forall i :: i in w.routers ==>
            if WasPending(local, i) && StillRests(w.db, orders, resting, i)
            then w2.routers[i].state == local[i].state && w2.routers[i].pendingCid.Some? && w2.routers[i].pendingCid.value in resting
            else w2.routers[i] == w.routers[i])
    decreases |orders|
  {
    hide SettleOrder;
    if orders != [] {
      var c, rest := orders[0], orders[1..];
      assert orders == [c] + rest;
      var w1 := SettleOrder(w, c, local, resting, now);
      OneSettled(w, c, local, resting, now);
      OrdersSettled(w1, rest, local, resting, now);
      forall i | i in w.routers
        ensures StillRests(w.db, orders, resting, i) <==> StillRests(w.db, [c], resting, i) || StillRests(w1.db, rest, resting, i)
      {
        RestsSplits(w.db, w1.db, c, rest, resting, i);
      }
    }
  }

  lemma RestsSplits(db: Db, db1: Db, c: Cid, rest: seq<Cid>, resting: seq<Cid>, i: int)
    requires forall x :: x in db1.orders <==> x in db.orders
    requires forall x :: x in db.orders ==> db1.orders[x] == SettledRow(db, [c], resting, x)
    ensures StillRests(db, [c] + rest, resting, i) <==> StillRests(db, [c], resting, i) || StillRests(db1, rest, resting, i)
  {
    if StillRests(db, [c] + rest, resting, i) {
      var x :| x in [c] + rest && x in resting && x in db.orders && InFlightRow(db.orders[x]) && db.orders[x].iid == i;
      if x != c { assert x in rest && db1.orders[x] == db.orders[x]; }
    }
    if StillRests(db1, rest, resting, i) {
      var x :| x in rest && x in resting && x in db1.orders && InFlightRow(db1.orders[x]) && db1.orders[x].iid == i;
      assert x in [c] + rest && InFlightRow(db.orders[x]) && db.orders[x].iid == i;
    }
  }

  // ----- resting orders -----

  lemma {:induction false} ForeignCancelled(a: Account, orders: seq<Cid>, x: Cid)
    ensures x in CancelForeign(a, orders).resting <==> x in a.resting && !(x in orders && !x.Ours?)
    decreases |orders|
  {
    if orders != [] {
      assert orders == [orders[0]] + orders[1..];
      WithoutExact(a.resting, orders[0], x);
      ForeignCancelled(if orders[0].Ours? then a else Cancel(a, orders[0]), orders[1..], x);
    }
  }

  // ----- the whole start -----

  lemma {:induction false} RowsWait(w: World, ids: seq<int>, snap: AccountSnapshot)
    requires Distinct(ids) && (forall i :: i in ids ==> i !in w.routers)
    ensures var w2 := RecoverRouters(w, ids, snap);
      && w2.db == w.db.(positions := w2.db.positions) && w2.a.resting == w.a.resting
      && forall i :: i in w2.routers && i !in w.routers ==> w2.routers[i].iid == i && w2.routers[i].pendingCid == None
    ensures forall i :: i in w.routers ==> i in RecoverRouters(w, ids, snap).routers && RecoverRouters(w, ids, snap).routers[i] == w.routers[i]
    decreases |ids|
  {
    hide RecoverRouter, Shown, Copied;
    if ids != [] {
      RecoverRouterTakes(ids[0], w.a, w.db, snap);
      RowsWait(Put(w, ids[0], RecoverRouter(Desk(NewRouter(ids[0]), w.a, w.db), snap)), ids[1..], snap);
      assert ids == [ids[0]] + ids[1..];
    }
  }

  /** After a restart every order that was in flight is adopted if it still rests and abandoned if not, every other row is
      as it was; a router waits for an order exactly when its row was waiting and an order of its instrument that was in
      flight still rests, and it waits for one that rests; and of the venue's resting orders exactly the router's own
      are left. */
  lemma RestartSettlesOrders(w: World, now: int)
    requires StoreWf(w)
    ensures var w2 := RestartWorld(w, now);
      && (forall c :: c in w2.db.orders <==> c in w.db.orders)
      && (forall c :: c in w.db.orders ==>
            w2.db.orders[c] == if InFlightRow(w.db.orders[c])
                               then w.db.orders[c].(status := if c in w.a.resting then Adopted else Abandoned) else w.db.orders[c])
      && (forall i :: i in w.ids ==>
            && i in w2.routers
            && (w2.routers[i].pendingCid.Some? <==> WasPending(w.db.positions, i) && StillRests(w.db, w.db.orderIds, w.a.resting, i))
            && (w2.routers[i].pendingCid.Some? ==> w2.routers[i].pendingCid.value in w.a.resting && w2.routers[i].state == w.db.positions[i].state))
      && (forall c :: c in w2.a.resting <==> c in w.a.resting && c.Ours?)
  {
    hide RecoverRouters, SettleOrders, GuardUnknown, CancelForeign, Views, Equity, Ok, QueueWf, DecisionsWf, Wf, StillRests;
    var a := Reload(w.a);
    var snap := Snapshot(a);
    var w0 := w.(a := a, routers := map[]);
    RowsWait(w0, w.ids, snap);
    var w1 := RecoverRouters(w0, w.ids, snap);
    RoutersAre(w0, w.ids, snap);
    GuardedResting(w1.a, w1.routers.Keys, snap.positions, snap);
    var w2 := w1.(a := GuardUnknown(w1.a, w1.routers.Keys, snap.positions, snap));
    OrdersSettled(w2, w2.db.orderIds, w.db.positions, snap.openOrders, now);
    SettledAccount(w2, w2.db.orderIds, w.db.positions, snap.openOrders, now);
    var w3 := SettleOrders(w2, w2.db.orderIds, w.db.positions, snap.openOrders, now);
    forall c ensures c in CancelForeign(w3.a, snap.openOrders).resting <==> c in w.a.resting && c.Ours? {
      ForeignCancelled(w3.a, snap.openOrders, c);
    }
    forall i ensures StillRests(w2.db, w.db.orderIds, snap.openOrders, i) == StillRests(w.db, w.db.orderIds, w.a.resting, i) {
      SameRests(w.db, w2.db, w.db.orderIds, w.a.resting, i);
    }
  }

  lemma SameRests(db: Db, db2: Db, orders: seq<Cid>, resting: seq<Cid>, i: int)
    requires db2.orders == db.orders
    ensures StillRests(db2, orders, resting, i) == StillRests(db, orders, resting, i)
  {
  }

  lemma {:induction false} GuardedResting(a: Account, routed: set<int>, ps: seq<PositionView>, snap: AccountSnapshot)
    ensures GuardUnknown(a, routed, ps, snap).resting == a.resting
    decreases |ps|
  {
    hide VenueStop;
    if ps != [] {
      var p := ps[0];
      var b := if p.size != 0.0 && p.iid !in routed && p.iid !in snap.stops then PlaceStop(a, p.iid, VenueStop(p)) else a;
      GuardedResting(b, routed, ps[1..], snap);
    }
  }

  lemma SettledAccount(w: World, orders: seq<Cid>, local: map<int, PositionRow>, resting: seq<Cid>, now: int)
    ensures SettleOrders(w, orders, local, resting, now).a == w.a
  {
    hide SettleOrders, Waits;
    SettleOrdersWaits(w, orders, local, resting, now);
  }
}
