/** What a cold start leaves behind, whatever the rows said: the venue's sizes, a stop on every position,
    frozen routers still frozen. */
module Recovery {
  import opened Types
  import opened Sim
  import opened SimLaws
  import opened Routing
  import opened Discipline
  import opened Runtime
  import opened Runs

  /** Size of instrument i as the snapshot shows it. */
  function Shown(snap: AccountSnapshot, i: int): real {
    var p := snap.Position(i);
    if p.Some? then p.value.size else 0.0
  }

  predicate WasFrozen(local: map<int, PositionRow>, i: int) {
    i in local && Frozen(local[i].state)
  }

  /** The state recovery gives a router before it looks at resting orders. */
  function RecoveredState(local: map<int, PositionRow>, i: int, size: real): State {
    if WasFrozen(local, i) then local[i].state else Settled(size)
  }

  /** Entry, funding and stop are what the snapshot and the venue show, and none when there is no position. */
  ghost predicate Copied(r: Router, a: Account, snap: AccountSnapshot) {
    var p := snap.Position(r.iid);
    if p.Some? && p.value.size != 0.0 then
      && r.entry == Some(p.value.entry) && r.funding == p.value.funding
      && r.stop.Some? && (r.iid in snap.stops ==> r.stop == Some(snap.stops[r.iid]))
      && (r.iid !in snap.stops ==> r.iid in a.stops && r.stop == Some(a.stops[r.iid]))
    else r.entry == None && r.stop == None
  }

  lemma RecoverRouterTakes(i: int, a: Account, db: Db, snap: AccountSnapshot)
    ensures var d := RecoverRouter(Desk(NewRouter(i), a, db), snap);
      && d.r.size == Shown(snap, i) && d.r.state == RecoveredState(db.positions, i, d.r.size)
      && d.r.pendingCid == None && d.r.iid == i && (d.r.size != 0.0 ==> d.r.entry.Some?)
      && Copied(d.r, d.a, snap)
      && d.db == db.(positions := d.db.positions)
      && (forall j :: j != i ==> (j in d.db.positions <==> j in db.positions))
      && (forall j :: j != i && j in db.positions ==> d.db.positions[j] == db.positions[j])
      && d.a == a.(stops := d.a.stops) && (forall j :: j in a.stops ==> j in d.a.stops)
      && (d.r.size != 0.0 && (i in snap.stops ==> i in a.stops) ==> i in d.a.stops)
      && (forall j :: j != i && j in d.a.stops ==> j in a.stops)
      && (forall j :: j in a.stops && (j != i || j in snap.stops) ==> d.a.stops[j] == a.stops[j])
  {
    hide Snapshot, MaxOrderNum, MaxDecisionNum, VenueStop;
  }

  /** Router i stands where recovery must leave it. */
  ghost predicate Taken(w: World, i: int, local: map<int, PositionRow>, snap: AccountSnapshot) {
    && i in w.routers && w.routers[i].iid == i && w.routers[i].pendingCid == None
    && (w.routers[i].size != 0.0 ==> w.routers[i].entry.Some?)
    && w.routers[i].size == Shown(snap, i)
    && w.routers[i].state == RecoveredState(local, i, w.routers[i].size)
    && (w.routers[i].size != 0.0 ==> i in w.a.stops)
    && Copied(w.routers[i], w.a, snap)
  }

  lemma {:induction false} RecoverRoutersTake(w: World, ids: seq<int>, snap: AccountSnapshot)
    requires Distinct(ids) && (forall i :: i in ids ==> i !in w.routers)
    requires forall j :: j in snap.stops ==> j in w.a.stops
    ensures var w2 := RecoverRouters(w, ids, snap);
      && (forall i :: i in ids ==> Taken(w2, i, w.db.positions, snap))
      && (forall i :: i in w.routers ==> i in w2.routers && w2.routers[i] == w.routers[i])
      && w2.a == w.a.(stops := w2.a.stops) && (forall j :: j in w.a.stops ==> j in w2.a.stops)
      && (forall j :: j in w2.a.stops && j !in ids ==> j in w.a.stops)
      && (forall j :: j in w.a.stops && (j !in ids || j in snap.stops) ==> w2.a.stops[j] == w.a.stops[j])
      && w2.ids == w.ids
    decreases |ids|
  {
    if ids != [] {
      hide RecoverRouter, Shown;
      var i := ids[0];
      RecoverRouterTakes(i, w.a, w.db, snap);
      var w1 := Put(w, i, RecoverRouter(Desk(NewRouter(i), w.a, w.db), snap));
      RecoverRoutersTake(w1, ids[1..], snap);
      var w2 := RecoverRouters(w, ids, snap);
      assert ids == [i] + ids[1..];
      forall j | j in ids ensures Taken(w2, j, w.db.positions, snap) {
        if j != i { assert j in ids[1..]; assert Taken(w2, j, w1.db.positions, snap); }
      }
    }
  }

  /** Looking at resting orders can only put a router that was pending before the crash back into waiting. */
  ghost predicate Waits(r: Router, r2: Router, pending: bool) {
    && r2.iid == r.iid && r2.size == r.size && r2.entry == r.entry && r2.funding == r.funding && r2.stop == r.stop
    && (!pending ==> r2 == r)
  }

  lemma {:induction false} SettleOrdersWaits(w: World, orders: seq<Cid>, local: map<int, PositionRow>, resting: seq<Cid>, now: int)
    ensures var w2 := SettleOrders(w, orders, local, resting, now);
      && w2.a == w.a && w2.ids == w.ids
      && (forall i :: i in w2.routers <==> i in w.routers)
      && (forall i :: i in w.routers && w.routers[i].iid == i ==>
            Waits(w.routers[i], w2.routers[i], resting != [] && i in local && Pending(local[i].state)))
    decreases |orders|
  {
    if orders != [] {
      hide SetStatus;
      var c := orders[0];
      var live := c in w.db.orders && (w.db.orders[c].status == Submitting || w.db.orders[c].status == Accepted);
      if live {
        var i := w.db.orders[c].iid;
        var adopt := c in resting && i in w.routers && i in local && Pending(local[i].state);
        var w2 := if adopt then Put(w, i, AdoptPending(DeskOf(w, i), c, local[i].state, now)) else w;
        SettleOrdersWaits(w2.(db := SetStatus(w2.db, c, if c in resting then Adopted else Abandoned)), orders[1..], local, resting, now);
      } else {
        SettleOrdersWaits(w, orders[1..], local, resting, now);
      }
    }
  }

  lemma CancelForeignStops(a: Account, orders: seq<Cid>)
    ensures CancelForeign(a, orders) == a.(resting := CancelForeign(a, orders).resting)
    decreases |orders|
  {
    if orders != [] { CancelForeignStops(if orders[0].Ours? then a else Cancel(a, orders[0]), orders[1..]); }
  }

  lemma ViewInSnapshot(a: Account, ids: seq<int>, i: int) returns (k: nat)
    requires i in ids && Size(a, i) != 0.0
    ensures k < |Views(a, ids)| && Views(a, ids)[k] == View(a, i)
  {
    if ids[0] == i {
      k := 0;
    } else {
      assert ids == [ids[0]] + ids[1..];
      var j := ViewInSnapshot(a, ids[1..], i);
      k := if Size(a, ids[0]) == 0.0 then j else j + 1;
    }
  }

  lemma {:induction false} GuardUnknownKeeps(a: Account, routed: set<int>, ps: seq<PositionView>, snap: AccountSnapshot)
    ensures var b := GuardUnknown(a, routed, ps, snap);
      forall j :: j in a.stops && (j in routed || j in snap.stops) ==> j in b.stops && b.stops[j] == a.stops[j]
    decreases |ps|
  {
    hide VenueStop;
    if ps != [] {
      var p := ps[0];
      var b := if p.size != 0.0 && p.iid !in routed && p.iid !in snap.stops then PlaceStop(a, p.iid, VenueStop(p)) else a;
      GuardUnknownKeeps(b, routed, ps[1..], snap);
    }
  }

  /** What recovery copied from the snapshot is what the account holds. */
  lemma CopiedMirrors(r: Router, a: Account, b: Account, c: Account)
    requires Ok(a) && Copied(r, b, Snapshot(a)) && r.size == Size(a, r.iid) && c.pos == a.pos
    requires forall j :: j in a.stops ==> j in c.stops && c.stops[j] == a.stops[j]
    requires forall j :: j == r.iid && j in b.stops ==> j in c.stops && c.stops[j] == b.stops[j]
    ensures Mirrors(r, c)
  {
    hide Ok, Snapshot;
    SnapshotPosition(a, r.iid);
    SnapshotShowsStops(a);
  }

  lemma SnapshotShowsStops(a: Account)
    ensures Snapshot(a).stops == a.stops
  {
  }

  /** After every restart: router sizes are the venue's, no event is queued, every non-zero venue position -
      ours, frozen or unknown - has a stop, and a router is frozen exactly as its row was. */
  lemma RestartEffect(w: World, now: int)
    requires StoreWf(w)
    ensures var w2 := RestartWorld(w, now);
      && w2.a.queue == [] && (w.a.resting == [] ==> w2.a.resting == [])
      && (forall i :: Size(w2.a, i) == Size(w.a, i))
      && (forall i :: Size(w2.a, i) != 0.0 ==> i in w2.a.stops)
      && (forall i :: i in w2.a.stops <==> i in w.a.stops || Size(w2.a, i) != 0.0)
      && (forall i :: i in w2.routers <==> i in w.ids)
      && (forall i :: i in w.ids ==>
            && w2.routers[i].size == Size(w2.a, i) && Mirrors(w2.routers[i], w2.a)
            && i in w2.db.positions && w2.db.positions[i] == Row(w2.routers[i])
            && (w2.routers[i].size != 0.0 ==> w2.routers[i].entry.Some?)
            && (WasFrozen(w.db.positions, i) ==> w2.routers[i].state == w.db.positions[i].state)
            && (w.a.resting == [] ==> w2.routers[i].state == RecoveredState(w.db.positions, i, w2.routers[i].size)
                                      && w2.routers[i].pendingCid == None))
  {
    hide RecoverRouters, SettleOrders, GuardUnknown, CancelForeign, Views, Equity, Ok, QueueWf, OrdersWf, DecisionsWf, Copied, Mirrors, Wf;
    var a := Reload(w.a);
    ReloadKeeps(w.a);
    RestartAccount(w);
    var snap := Snapshot(a);
    var w0 := w.(a := a, routers := map[]);
    RecoverRoutersTake(w0, w.ids, snap);
    var w1 := RecoverRouters(w0, w.ids, snap);
    RestartWf(w, now);
    RoutersAre(w0, w.ids, snap);
    TakenOk(a, w1.a);
    GuardUnknownOk(w1.a, w1.routers.Keys, snap.positions, snap);
    GuardUnknownKeeps(w1.a, w1.routers.Keys, snap.positions, snap);
    SnapshotShowsStops(a);
    var w2 := w1.(a := GuardUnknown(w1.a, w1.routers.Keys, snap.positions, snap));
    GuardUnknownOnly(w1.a, w1.routers.Keys, a, a.ids, snap);
    SettleOrdersWaits(w2, w2.db.orderIds, w.db.positions, snap.openOrders, now);
    var w3 := SettleOrders(w2, w2.db.orderIds, w.db.positions, snap.openOrders, now);
    CancelForeignStops(w3.a, snap.openOrders);
    var w4 := RestartWorld(w, now);
    if w.a.resting == [] { NothingToCancel(w3.a); }
    assert w4.a == w3.a.(resting := w4.a.resting) && w4.routers == w3.routers;
    forall i ensures Shown(snap, i) == Size(a, i) { SnapshotPosition(a, i); }
    forall i | Size(a, i) != 0.0 ensures i in w4.a.stops {
      if i in w.ids {
        assert Taken(w1, i, w.db.positions, snap);
      } else {
        PositionListed(a, i);
        var k := ViewInSnapshot(a, a.ids, i);
        assert snap.positions[k].iid == i && snap.positions[k].size != 0.0;
        assert i in w2.a.stops;
      }
    }
    forall i | i in w4.a.stops ensures i in w.a.stops || Size(a, i) != 0.0 {
      if i in w2.a.stops && i !in w1.a.stops { assert Size(a, i) != 0.0; }
      if i in w1.a.stops && i in w.ids && i !in a.stops { StopsPlaced(w0, w.ids, snap, i); }
    }
    forall i | i in w.ids
      ensures w4.routers[i].size == Size(a, i) && (w4.routers[i].size != 0.0 ==> w4.routers[i].entry.Some?)
      ensures Mirrors(w4.routers[i], w4.a) && i in w4.db.positions && w4.db.positions[i] == Row(w4.routers[i])
      ensures WasFrozen(w.db.positions, i) ==> w4.routers[i].state == w.db.positions[i].state
      ensures w.a.resting == [] ==> w4.routers[i].state == RecoveredState(w.db.positions, i, w4.routers[i].size)
                                    && w4.routers[i].pendingCid == None
    {
      assert Taken(w1, i, w.db.positions, snap);
      RowIs(w4, i);
      CopiedMirrors(w1.routers[i], a, w1.a, w4.a);
      SameMirrors(w1.routers[i], w4.routers[i], w4.a);
    }
  }

  lemma RowIs(w: World, i: int)
    requires Wf(w) && i in w.ids
    ensures i in w.routers && i in w.db.positions && w.db.positions[i] == Row(w.routers[i])
  {
    hide TablesWf, NumbersWf, PendingWf;
    assert RouterWf(w, i);
  }

  lemma SameMirrors(r: Router, r2: Router, a: Account)
    requires Mirrors(r, a) && Waits(r, r2, true)
    ensures Mirrors(r2, a)
  {
  }

  lemma NothingToCancel(a: Account)
    ensures CancelForeign(a, []) == a
  {
  }

  lemma PositionListed(a: Account, i: int)
    requires Ok(a) && Size(a, i) != 0.0
    ensures i in a.ids
  {
  }

  lemma TakenOk(a: Account, b: Account)
    requires Ok(a) && QueueWf(a) && b == a.(stops := b.stops)
    ensures Ok(b) && QueueWf(b)
  {
  }

  lemma {:induction false} RoutersAre(w: World, ids: seq<int>, snap: AccountSnapshot)
    ensures forall i :: i in RecoverRouters(w, ids, snap).routers <==> i in w.routers || i in ids
    decreases |ids|
  {
    hide RecoverRouter;
    if ids != [] {
      RoutersAre(Put(w, ids[0], RecoverRouter(Desk(NewRouter(ids[0]), w.a, w.db), snap)), ids[1..], snap);
      assert ids == [ids[0]] + ids[1..];
    }
  }

  /** A stop recovery added stands on a position. */
  lemma {:induction false} StopsPlaced(w: World, ids: seq<int>, snap: AccountSnapshot, i: int)
    requires i !in w.a.stops && i in RecoverRouters(w, ids, snap).a.stops
    ensures Shown(snap, i) != 0.0
    decreases |ids|
  {
    if ids != [] {
      var w1 := Put(w, ids[0], RecoverRouter(Desk(NewRouter(ids[0]), w.a, w.db), snap));
      hide Snapshot, MaxOrderNum, MaxDecisionNum, VenueStop, RecoverRouters;
      if i !in w1.a.stops {
        RecoverStep(w, ids, snap);
        StopsPlaced(w1, ids[1..], snap, i);
      }
    }
  }

  lemma RecoverStep(w: World, ids: seq<int>, snap: AccountSnapshot)
    requires ids != []
    ensures RecoverRouters(w, ids, snap)
         == RecoverRouters(Put(w, ids[0], RecoverRouter(Desk(NewRouter(ids[0]), w.a, w.db), snap)), ids[1..], snap)
  {
    hide RecoverRouter;
  }

  lemma {:induction false} GuardUnknownOnly(b: Account, routed: set<int>, a: Account, ids: seq<int>, snap: AccountSnapshot)
    ensures forall j :: j in GuardUnknown(b, routed, Views(a, ids), snap).stops && j !in b.stops ==> Size(a, j) != 0.0
    decreases |ids|
  {
    if ids != [] {
      var rest := Views(a, ids[1..]);
      if Size(a, ids[0]) == 0.0 {
        assert Views(a, ids) == rest;
        GuardUnknownOnly(b, routed, a, ids[1..], snap);
      } else {
        var p := View(a, ids[0]);
        assert Views(a, ids)[1..] == rest;
        var b2 := if p.size != 0.0 && p.iid !in routed && p.iid !in snap.stops then PlaceStop(b, p.iid, VenueStop(p)) else b;
        GuardUnknownOnly(b2, routed, a, ids[1..], snap);
      }
    }
  }
}
