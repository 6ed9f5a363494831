/** Where stops stand, over whole runs: every stop under a position is 15% from the venue's own entry price, on the losing
    side, to the cent. */
module Placement {
  import opened Types
  import opened Guards
  import opened Protection
  import opened Sim
  import opened SimLaws
  import opened Routing
  import opened Discipline
  import opened Runtime
  import opened Runs
  import opened Recovery

  // ----- stops as they are placed -----

  /** A stop under a position of instrument i protects it at the venue's entry. */
  ghost predicate InPlace(a: Account, i: int) {
    i in a.stops && Size(a, i) != 0.0 ==> Protects(Size(a, i) > 0.0, PosOf(a, i).entry, a.stops[i])
  }

  /** Each stop of b is one a had, or protects its position at the entry. */
  ghost predicate Placed(a: Account, b: Account) {
    forall j :: j in b.stops ==>
      (j in a.stops && b.stops[j] == a.stops[j]) || (Size(a, j) != 0.0 && Protects(Size(a, j) > 0.0, PosOf(a, j).entry, b.stops[j]))
  }

  lemma PlacedTwice(a: Account, b: Account, c: Account)
    requires Placed(a, b) && Placed(b, c) && b.pos == a.pos
    ensures Placed(a, c)
  {
  }

  /** The stop a fill places stands at the router's entry. */
  lemma ReplacedStop(d: Desk)
    ensures d.r.size != 0.0 && d.r.entry.Some? ==>
      && var d2 := ReplaceStop(d);
      && d.r.iid in d2.a.stops && Protects(d.r.size > 0.0, d.r.entry.value, d2.a.stops[d.r.iid])
      && d2.r.stop == Some(d2.a.stops[d.r.iid])
  {
    if d.r.entry.Some? { StopProtects(d.r.size > 0.0, d.r.entry.value); }
  }

  /** Reconciliation's answer to a position without a stop. */
  lemma GuardedPosition(w: World, i: int)
    requires Size(w.a, i) != 0.0 && i !in w.a.stops
    ensures var w2 := GuardWorld(w, i);
      && i in w2.a.stops && Protects(Size(w.a, i) > 0.0, PosOf(w.a, i).entry, w2.a.stops[i])
      && (i in w.routers ==> w2.routers[i].stop == Some(w2.a.stops[i]))
  {
    hide LiquidationPrice, StopPrice;
    StopProtects(Size(w.a, i) > 0.0, PosOf(w.a, i).entry);
  }

  /** A stop in place fires exactly when the mark has lost 15% of the entry, give or take the half cent of rounding. */
  lemma FiresOnLoss(a: Account, i: int)
    requires InPlace(a, i) && i in a.stops && i in a.marks && Size(a, i) != 0.0
    ensures var p, mark := PosOf(a, i), a.marks[i];
      if p.size > 0.0 then (mark <= 0.85 * p.entry - 0.005 ==> Fires(a, i)) && (Fires(a, i) ==> mark <= 0.85 * p.entry + 0.005)
      else (mark >= 1.15 * p.entry + 0.005 ==> Fires(a, i)) && (Fires(a, i) ==> mark >= 1.15 * p.entry - 0.005)
  {
  }

  // ----- cold start -----

  lemma RecoverRouterPlaces(i: int, a: Account, b: Account, db: Db)
    requires Ok(a) && b.pos == a.pos
    ensures var d := RecoverRouter(Desk(NewRouter(i), b, db), Snapshot(a)); d.a.pos == b.pos && Placed(b, d.a)
  {
    hide Snapshot, Ok, MaxOrderNum, MaxDecisionNum, StopPrice, LiquidationPrice;
    SnapshotPosition(a, i);
    if Size(a, i) != 0.0 { StopProtects(Size(a, i) > 0.0, PosOf(a, i).entry); }
  }

  lemma {:induction false} RecoverRoutersPlace(w: World, ids: seq<int>, a: Account)
    requires Ok(a) && w.a.pos == a.pos
    ensures RecoverRouters(w, ids, Snapshot(a)).a.pos == a.pos && Placed(w.a, RecoverRouters(w, ids, Snapshot(a)).a)
    decreases |ids|
  {
    hide RecoverRouter, Snapshot, Ok, Protects, Placed;
    if ids == [] {
      NothingPlaced(w.a);
    } else {
      RecoverRouterPlaces(ids[0], a, w.a, w.db);
      var w1 := Put(w, ids[0], RecoverRouter(Desk(NewRouter(ids[0]), w.a, w.db), Snapshot(a)));
      RecoverRoutersPlace(w1, ids[1..], a);
      PlacedTwice(w.a, w1.a, RecoverRouters(w1, ids[1..], Snapshot(a)).a);
    }
  }

  lemma NothingPlaced(a: Account)
    ensures Placed(a, a)
  {
  }

  lemma {:induction false} GuardUnknownPlaces(b: Account, routed: set<int>, a: Account, ids: seq<int>, snap: AccountSnapshot)
    requires b.pos == a.pos
    ensures GuardUnknown(b, routed, Views(a, ids), snap).pos == a.pos && Placed(b, GuardUnknown(b, routed, Views(a, ids), snap))
    decreases |ids|
  {
    hide StopPrice, LiquidationPrice, Protects, Placed;
    if ids == [] {
      NothingPlaced(b);
    } else {
      var rest := Views(a, ids[1..]);
      if Size(a, ids[0]) == 0.0 {
        assert Views(a, ids) == rest;
        GuardUnknownPlaces(b, routed, a, ids[1..], snap);
      } else {
        var p := View(a, ids[0]);
        assert Views(a, ids)[1..] == rest;
        var b2 := if p.size != 0.0 && p.iid !in routed && p.iid !in snap.stops then PlaceStop(b, p.iid, VenueStop(p)) else b;
        OnePlaced(b, p, a, ids[0]);
        NothingPlaced(b);
        GuardUnknownPlaces(b2, routed, a, ids[1..], snap);
        PlacedTwice(b, b2, GuardUnknown(b2, routed, rest, snap));
      }
    }
  }

  lemma OnePlaced(b: Account, p: PositionView, a: Account, i: int)
    requires p == View(a, i) && b.pos == a.pos && p.size != 0.0
    ensures Placed(b, PlaceStop(b, p.iid, VenueStop(p)))
  {
    hide StopPrice, LiquidationPrice, Protects;
    StopProtects(p.size > 0.0, p.entry);
  }

  /** After a restart each stop is one that stood before, or protects its position at the venue's entry. */
  lemma RestartPlaces(w: World, now: int)
    requires StoreWf(w)
    ensures Placed(w.a, RestartWorld(w, now).a)
    ensures forall j :: Size(w.a, j) != 0.0 ==> PosOf(RestartWorld(w, now).a, j) == PosOf(w.a, j)
  {
    hide RecoverRouters, SettleOrders, GuardUnknown, CancelForeign, Ok, QueueWf, OrdersWf, DecisionsWf, Placed, Views, Equity, Waits;
    var a := Reload(w.a);
    ReloadKeeps(w.a);
    RestartAccount(w);
    var snap := Snapshot(a);
    var w0 := w.(a := a, routers := map[]);
    RecoverRoutersPlace(w0, w.ids, a);
    var w1 := RecoverRouters(w0, w.ids, snap);
    GuardUnknownPlaces(w1.a, w1.routers.Keys, a, a.ids, snap);
    var w2 := w1.(a := GuardUnknown(w1.a, w1.routers.Keys, snap.positions, snap));
    PlacedTwice(a, w1.a, w2.a);
    SettleOrdersWaits(w2, w2.db.orderIds, w.db.positions, snap.openOrders, now);
    var w3 := SettleOrders(w2, w2.db.orderIds, w.db.positions, snap.openOrders, now);
    CancelForeignStops(w3.a, snap.openOrders);
    ReloadPlaces(w.a, w2.a, RestartWorld(w, now).a);
  }

  lemma ReloadPlaces(a: Account, b: Account, c: Account)
    requires Ok(a) && Placed(Reload(a), b) && b.pos == Reload(a).pos && c.stops == b.stops && c.pos == b.pos
    ensures Placed(a, c) && forall j :: Size(a, j) != 0.0 ==> PosOf(c, j) == PosOf(a, j)
  {
    ReloadKeeps(a);
    forall j | j in c.stops && !(j in a.stops && c.stops[j] == a.stops[j])
      ensures Size(a, j) != 0.0 && Protects(Size(a, j) > 0.0, PosOf(a, j).entry, c.stops[j])
    {
      assert Protects(Size(Reload(a), j) > 0.0, PosOf(Reload(a), j).entry, b.stops[j]);
    }
  }
}
