/** Whole runs of the system, restarts included: the invariant every call keeps, and what it says about
    order numbers and given-up orders. */
module Runs {
  import opened Types
  import opened Guards
  import opened Sim
  import opened SimLaws
  import opened Routing
  import opened Delivery
  import opened Discipline
  import opened Runtime

  ghost predicate QueueWf(a: Account) {
    forall k :: 0 <= k < |a.queue| && a.queue[k].OrderUpdate? ==> VenueStatus(a.queue[k].status)
  }

  ghost predicate RouterWf(w: World, i: int)
    requires i in w.routers
  {
    w.routers[i].iid == i && NumbersWf(w.routers[i], w.db) && PendingWf(w.routers[i], w.db) && RowWf(w.routers[i], w.db)
  }

  ghost predicate TablesWf(w: World) {
    Distinct(w.ids) && Ok(w.a) && QueueWf(w.a) && OrdersWf(w.db) && DecisionsWf(w.db)
  }

  ghost predicate Wf(w: World) {
    && TablesWf(w)
    && (forall i :: i in w.ids <==> i in w.routers)
    && forall i :: i in w.routers ==> RouterWf(w, i)
  }

  /** Micros whose data a feed or a venue can produce. */
  ghost predicate Admissible(m: Micro) {
    && MicroOk(m)
    && (m.Venue? ==> QueueWf(m.account))
    && (m.Deliver? && m.ev.OrderUpdate? ==> VenueStatus(m.ev.status))
  }

  /** What never goes back: instruments, order rows within RowKept, recorded decisions. */
  ghost predicate Kept(w: World, w2: World) {
    && w2.ids == w.ids && w2.categories == w.categories
    && (forall c :: c in w.db.orders ==> c in w2.db.orders && RowKept(w.db.orders[c], w2.db.orders[c]))
    && DecisionsKept(w.db, w2.db)
  }

  lemma KeptTrans(w: World, w2: World, w3: World)
    requires Kept(w, w2) && Kept(w2, w3)
    ensures Kept(w, w3)
  {
  }

  // ----- one router call -----

  lemma DeskGood(w: World, i: int)
    requires Wf(w) && i in w.routers
    ensures Good(DeskOf(w, i)) && w.routers[i].iid == i
  {
    hide Ok, OrdersWf, DecisionsWf, NumbersWf, PendingWf, RowWf, QueueWf;
    assert RouterWf(w, i);
  }

  lemma OthersWf(w: World, i: int, d2: Desk, j: int)
    requires Wf(w) && i in w.routers && Step(DeskOf(w, i), d2) && j in w.routers && j != i
    ensures RouterWf(Put(w, i, d2), j)
  {
    hide Ok, OrdersWf, DecisionsWf, QueueWf, Touches, Good;
    DeskGood(w, i);
    assert RouterWf(w, j);
    var r := w.routers[j];
    forall p | 0 <= p < |d2.db.decisions| && d2.db.decisions[p].iid == j ensures d2.db.decisions[p].num <= r.dnum {
      if p < |w.db.decisions| { assert d2.db.decisions[p] == w.db.decisions[p]; }
    }
  }

  lemma QueueStaysWf(i: int, a: Account, b: Account)
    requires QueueWf(a) && Touches(i, a, b)
    ensures QueueWf(b)
  {
    hide Ok;
    forall k | 0 <= k < |b.queue| && b.queue[k].OrderUpdate? ensures VenueStatus(b.queue[k].status) {
      if k < |a.queue| { assert b.queue[k] == a.queue[k]; } else { assert EventOf(b.queue[k], i); }
    }
  }

  lemma StepParts(d: Desk, d2: Desk)
    requires Step(d, d2)
    ensures Touches(d.r.iid, d.a, d2.a) && Ok(d2.a) && OrdersWf(d2.db) && DecisionsWf(d2.db) && d2.r.iid == d.r.iid
    ensures NumbersWf(d2.r, d2.db) && PendingWf(d2.r, d2.db) && RowWf(d2.r, d2.db)
    ensures DbKept(d.r, d.db, d2.db)
  {
    hide Ok, OrdersWf, DecisionsWf, NumbersWf, PendingWf, RowWf, Touches, DbKept;
  }

  lemma PutWf(w: World, i: int, d2: Desk)
    requires Wf(w) && i in w.routers && Step(DeskOf(w, i), d2)
    ensures Wf(Put(w, i, d2))
  {
    hide Ok, OrdersWf, DecisionsWf, QueueWf, NumbersWf, PendingWf, RowWf, Touches, Step, DbKept;
    DeskGood(w, i);
    StepParts(DeskOf(w, i), d2);
    QueueStaysWf(i, w.a, d2.a);
    var w2 := Put(w, i, d2);
    forall j | j in w2.routers ensures RouterWf(w2, j) {
      if j != i { OthersWf(w, i, d2, j); }
    }
  }

  lemma PutKept(w: World, i: int, d2: Desk)
    requires i in w.routers && Step(DeskOf(w, i), d2)
    ensures Kept(w, Put(w, i, d2))
  {
    hide Ok, Touches, Good, RowKept;
  }

  lemma AccountWf(w: World, a: Account)
    requires Wf(w) && Ok(a) && QueueWf(a)
    ensures Wf(w.(a := a)) && Kept(w, w.(a := a))
  {
    hide Ok, OrdersWf, DecisionsWf, QueueWf, NumbersWf, PendingWf, RowWf;
    var w2 := w.(a := a);
    forall i | i in w2.routers ensures RouterWf(w2, i) { assert RouterWf(w, i); }
  }

  // ----- dispatch -----

  lemma {:induction false} UpdateAllWf(w: World, ids: seq<int>, cid: Cid, s: OrderStatus)
    requires Wf(w) && VenueStatus(s)
    ensures Wf(UpdateAll(w, ids, cid, s)) && Kept(w, UpdateAll(w, ids, cid, s))
    decreases |ids|
  {
    hide Wf, Kept, Step, HandleUpdate, Good, VenueStatus;
    if ids == [] {
      KeptRefl(w);
    } else {
      var w1 := if ids[0] in w.routers then Put(w, ids[0], HandleUpdate(DeskOf(w, ids[0]), cid, s)) else w;
      if ids[0] in w.routers {
        DeskGood(w, ids[0]);
        HandleUpdateSteps(DeskOf(w, ids[0]), cid, s);
        PutWf(w, ids[0], HandleUpdate(DeskOf(w, ids[0]), cid, s));
        PutKept(w, ids[0], HandleUpdate(DeskOf(w, ids[0]), cid, s));
      } else {
        KeptRefl(w);
      }
      UpdateAllWf(w1, ids[1..], cid, s);
      KeptTrans(w, w1, UpdateAll(w, ids, cid, s));
    }
  }

  lemma KeptRefl(w: World)
    ensures Kept(w, w)
  {
  }

  lemma DispatchWf(w: World, ev: Event)
    requires Wf(w) && (ev.OrderUpdate? ==> VenueStatus(ev.status))
    ensures Wf(Dispatch(w, ev)) && Kept(w, Dispatch(w, ev))
  {
    hide Wf, Kept, Step, HandleUpdate, HandleFill, Good, VenueStatus;
    KeptRefl(w);
    if ev.OrderUpdate? {
      UpdateAllWf(w, w.ids, ev.cid, ev.status);
    } else if ev.iid in w.routers {
      DeskGood(w, ev.iid);
      HandleFillSteps(DeskOf(w, ev.iid), ev);
      PutWf(w, ev.iid, HandleFill(DeskOf(w, ev.iid), ev));
      PutKept(w, ev.iid, HandleFill(DeskOf(w, ev.iid), ev));
    }
  }

  // ----- the venue's own moves -----

  lemma VenueMoves(a: Account, m: Micro)
    requires Ok(a) && QueueWf(a)
    ensures m.Tick? && PriceOk(m.mark) ==> Ok(UpdateMark(a, m.iid, m.mark))
    ensures m.Fund? ==> Ok(ApplyFunding(a, m.iid, m.rate)) && ApplyFunding(a, m.iid, m.rate).queue == a.queue
    ensures m.StopFires? && Fires(a, m.iid) ==> Ok(FireStop(a, m.iid)) && FireStop(a, m.iid).queue == a.queue
    ensures a.queue != [] ==> Ok(a.(queue := a.queue[1..])) && QueueWf(a.(queue := a.queue[1..]))
  {
    if m.Fund? {
      OpConserves(a, Funding(m.iid, m.rate));
    }
    if m.StopFires? && Fires(a, m.iid) {
      FireStopEffect(a, m.iid);
    }
    hide FireStop, PlainCash, Cost, FundingPaid;
  }

  lemma GuardPositionWf(w: World, i: int)
    requires Wf(w)
    ensures Wf(GuardWorld(w, i)) && Kept(w, GuardWorld(w, i))
  {
    hide Wf, Kept, Step, Good, Touches, Rewrites, Ok;
    KeptRefl(w);
    if Size(w.a, i) != 0.0 && i !in w.a.stops {
      var t := VenueStop(View(w.a, i));
      WfOk(w);
      PlaceStopOk(w.a, i, t);
      AccountWf(w, PlaceStop(w.a, i, t));
      if i in w.routers {
        var d := DeskOf(w, i);
        DeskGood(w, i);
        GoodParts(d);
        StopTouches(w.a, i, t);
        var d2 := Persist(Desk(d.r.(stop := Some(t)), PlaceStop(w.a, i, t), d.db));
        StopRewrites(d, t);
        RewriteSteps(d, d2);
        PutWf(w, i, d2);
        PutKept(w, i, d2);
        assert GuardWorld(w, i) == Put(w, i, d2);
      }
    }
  }

  lemma WfOk(w: World)
    requires Wf(w)
    ensures Ok(w.a) && QueueWf(w.a) && TablesWf(w)
  {
  }

  lemma PlaceStopOk(a: Account, i: int, t: real)
    requires Ok(a) && QueueWf(a)
    ensures Ok(PlaceStop(a, i, t)) && QueueWf(PlaceStop(a, i, t))
    ensures Ok(CancelStop(a, i)) && QueueWf(CancelStop(a, i))
  {
  }

  lemma StopRewrites(d: Desk, t: real)
    requires Good(d)
    ensures Rewrites(d, Persist(Desk(d.r.(stop := Some(t)), PlaceStop(d.a, d.r.iid, t), d.db)))
  {
    hide Good;
    GoodParts(d);
  }

  // ----- restart -----

  /** Nothing was ever recorded for the instrument. */
  ghost predicate Untouched(db: Db, i: int) {
    && (forall c :: c in db.orders && c.Ours? ==> c.iid != i)
    && (forall p :: 0 <= p < |db.decisions| ==> db.decisions[p].iid != i)
  }

  /** What a restart finds on disk: sound tables, and a position row for every instrument ever traded. */
  ghost predicate StoreWf(w: World) {
    TablesWf(w) && forall i :: i in w.ids ==> i in w.db.positions || Untouched(w.db, i)
  }

  /** A store that has recorded nothing yet. */
  predicate EmptyDb(db: Db) {
    db.decisions == [] && db.orders == map[] && db.orderIds == [] && db.positions == map[]
  }

  lemma EmptyStoreWf(w: World)
    requires EmptyDb(w.db) && Distinct(w.ids) && Ok(w.a) && QueueWf(w.a)
    ensures StoreWf(w)
  {
    hide Ok, QueueWf;
  }

  lemma WfStore(w: World)
    requires Wf(w)
    ensures StoreWf(w)
  {
    hide Ok, OrdersWf, DecisionsWf, QueueWf, NumbersWf, PendingWf;
    forall i | i in w.ids ensures i in w.db.positions { assert RouterWf(w, i); }
  }

  lemma {:induction false} OrderNumBound(ids: seq<Cid>, c: Cid)
    requires c in ids && c.Ours?
    ensures c.num <= MaxOrderNum(ids, c.iid)
  {
    var n := |ids| - 1;
    if ids[n] != c {
      assert ids == ids[..n] + [ids[n]];
      OrderNumBound(ids[..n], c);
    }
  }

  lemma {:induction false} DecisionNumBound(ds: seq<Decision>, p: nat)
    requires p < |ds|
    ensures ds[p].num <= MaxDecisionNum(ds, ds[p].iid)
  {
    if p < |ds| - 1 { DecisionNumBound(ds[..|ds| - 1], p); }
  }

  lemma LoadNumbers(r: Router, row: PositionRow, db: Db)
    requires OrdersWf(db)
    ensures NumbersWf(LoadLocal(r, row, db), db)
  {
    forall c | c in db.orders && c.Ours? && c.iid == r.iid ensures c.num <= MaxOrderNum(db.orderIds, r.iid) {
      OrderNumBound(db.orderIds, c);
    }
    forall p | 0 <= p < |db.decisions| && db.decisions[p].iid == r.iid
      ensures db.decisions[p].num <= MaxDecisionNum(db.decisions, r.iid)
    {
      DecisionNumBound(db.decisions, p);
    }
  }

  /** What recovering one router does: the venue's size, a stop on it, a frozen state kept, nothing else moved. */
  lemma RecoverRouterEffect(i: int, a: Account, db: Db, snap: AccountSnapshot)
    requires OrdersWf(db) && (i in db.positions || Untouched(db, i)) && Ok(a) && QueueWf(a)
    ensures var d := RecoverRouter(Desk(NewRouter(i), a, db), snap);
      && d.r.iid == i && d.r.pendingCid == None && !Pending(d.r.state)
      && NumbersWf(d.r, d.db) && RowWf(d.r, d.db)
      && d.db == db.(positions := db.positions[i := Row(d.r)])
      && Ok(d.a) && QueueWf(d.a) && d.a == a.(stops := d.a.stops)
      && (forall j :: j != i ==> (j in d.a.stops <==> j in a.stops)) && (i in a.stops ==> i in d.a.stops)
  {
    hide Ok, QueueWf;
    var d := RecoverRouter(Desk(NewRouter(i), a, db), snap);
    if i in db.positions { LoadNumbers(NewRouter(i), db.positions[i], db); }
    var pos := snap.Position(i);
    if pos.Some? { PlaceStopOk(a, i, VenueStop(pos.value)); }
  }

  /** Routers recovered so far, none of them waiting for an order. */
  ghost predicate Recovered(w: World) {
    TablesWf(w) && forall i :: i in w.routers ==> RouterWf(w, i) && w.routers[i].pendingCid == None && !Pending(w.routers[i].state)
  }

  lemma RecoverOneWf(w: World, i: int, snap: AccountSnapshot)
    requires Recovered(w) && i !in w.routers && (i in w.db.positions || Untouched(w.db, i))
    ensures var w2 := Put(w, i, RecoverRouter(Desk(NewRouter(i), w.a, w.db), snap));
      && Recovered(w2)
      && w2.db.orders == w.db.orders && w2.db.decisions == w.db.decisions && w2.db.orderIds == w.db.orderIds
      && (forall j :: j != i ==> (j in w2.db.positions <==> j in w.db.positions))
  {
    hide Ok, QueueWf, NumbersWf, Untouched, DecisionsWf, OrdersWf, RouterWf;
    TablesParts(w);
    RecoverRouterEffect(i, w.a, w.db, snap);
    var d := RecoverRouter(Desk(NewRouter(i), w.a, w.db), snap);
    var w2 := Put(w, i, d);
    SameTables(w.db, d.db);
    forall j | j in w2.routers ensures RouterWf(w2, j) && w2.routers[j].pendingCid == None && !Pending(w2.routers[j].state) {
      if j == i { FreshRouterWf(w2, i); } else { RouterRow(w, j); SettledRouterWf(w, w2, j); }
    }
  }

  lemma RouterRow(w: World, j: int)
    requires j in w.routers && RouterWf(w, j)
    ensures j in w.db.positions && w.db.positions[j] == Row(w.routers[j])
  {
  }

  lemma TablesParts(w: World)
    requires TablesWf(w)
    ensures Ok(w.a) && QueueWf(w.a) && OrdersWf(w.db) && DecisionsWf(w.db)
  {
  }

  lemma SameTables(db: Db, db2: Db)
    requires OrdersWf(db) && DecisionsWf(db)
    requires db2.orders == db.orders && db2.decisions == db.decisions && db2.orderIds == db.orderIds
    ensures OrdersWf(db2) && DecisionsWf(db2)
  {
  }

  lemma FreshRouterWf(w: World, i: int)
    requires i in w.routers && w.routers[i].iid == i && w.routers[i].pendingCid == None && !Pending(w.routers[i].state)
    requires NumbersWf(w.routers[i], w.db) && RowWf(w.routers[i], w.db)
    ensures RouterWf(w, i)
  {
  }

  lemma SettledRouterWf(w: World, w2: World, j: int)
    requires j in w.routers && RouterWf(w, j) && j in w2.routers && w2.routers[j] == w.routers[j]
    requires w2.db.orders == w.db.orders && w2.db.decisions == w.db.decisions
    requires j in w2.db.positions && j in w.db.positions && w2.db.positions[j] == w.db.positions[j]
    ensures RouterWf(w2, j)
  {
  }

  lemma {:induction false} RecoverRoutersWf(w: World, ids: seq<int>, snap: AccountSnapshot)
    requires Recovered(w) && Distinct(ids)
    requires forall i :: i in ids ==> i !in w.routers && (i in w.db.positions || Untouched(w.db, i))
    ensures var w2 := RecoverRouters(w, ids, snap);
      && Recovered(w2) && w2.ids == w.ids && w2.categories == w.categories
      && w2.db.orders == w.db.orders && w2.db.decisions == w.db.decisions && w2.db.orderIds == w.db.orderIds
      && (forall i :: i in w2.routers <==> i in w.routers || i in ids)
    decreases |ids|
  {
    hide Recovered, RecoverRouter;
    if ids != [] {
      var w1 := Put(w, ids[0], RecoverRouter(Desk(NewRouter(ids[0]), w.a, w.db), snap));
      RecoverOneWf(w, ids[0], snap);
      forall i | i in ids[1..] ensures i !in w1.routers && (i in w1.db.positions || Untouched(w1.db, i)) {
        assert i != ids[0];
      }
      RecoverRoutersWf(w1, ids[1..], snap);
      assert ids == [ids[0]] + ids[1..];
    }
  }

  lemma {:induction false} GuardUnknownOk(a: Account, routed: set<int>, ps: seq<PositionView>, snap: AccountSnapshot)
    requires Ok(a) && QueueWf(a)
    ensures var b := GuardUnknown(a, routed, ps, snap);
      && Ok(b) && QueueWf(b) && b == a.(stops := b.stops) && (forall j :: j in a.stops ==> j in b.stops)
      && (forall j :: j in routed && j in b.stops ==> j in a.stops)
      && (forall k :: 0 <= k < |ps| && ps[k].size != 0.0 && ps[k].iid !in routed && ps[k].iid !in snap.stops ==> ps[k].iid in b.stops)
    decreases |ps|
  {
    hide Ok, QueueWf;
    if ps != [] {
      var p := ps[0];
      var b := if p.size != 0.0 && p.iid !in routed && p.iid !in snap.stops then PlaceStop(a, p.iid, VenueStop(p)) else a;
      PlaceStopOk(a, p.iid, VenueStop(p));
      GuardUnknownOk(b, routed, ps[1..], snap);
      var c := GuardUnknown(a, routed, ps, snap);
      forall k | 0 <= k < |ps| && ps[k].size != 0.0 && ps[k].iid !in routed && ps[k].iid !in snap.stops
        ensures ps[k].iid in c.stops
      {
        if k > 0 { assert ps[k] == ps[1..][k - 1]; }
      }
    }
  }

  lemma {:induction false} CancelForeignOk(a: Account, orders: seq<Cid>)
    requires Ok(a) && QueueWf(a)
    ensures var b := CancelForeign(a, orders); Ok(b) && QueueWf(b) && b == a.(resting := b.resting)
    decreases |orders|
  {
    if orders != [] {
      CancelForeignOk(if orders[0].Ours? then a else Cancel(a, orders[0]), orders[1..]);
    }
  }

  lemma AdoptPendingRewrites(d: Desk, c: Cid, s: State, now: int)
    requires Good(d) && c in d.db.orders && !GaveUp(d.db.orders[c].status) && c.Ours? && c.iid == d.r.iid
    ensures Step(d, AdoptPending(d, c, s, now))
  {
    hide Good, Touches;
    GoodParts(d);
    RewriteSteps(d, AdoptPending(d, c, s, now));
  }

  lemma StatusDb(db: Db, c: Cid, s: OrderStatus)
    ensures var db2 := SetStatus(db, c, s);
      && db2 == db.(orders := db2.orders) && db2.orders.Keys == db.orders.Keys
      && (OrdersWf(db) ==> OrdersWf(db2)) && (DecisionsWf(db) ==> DecisionsWf(db2)) && DecisionsKept(db, db2)
  {
  }

  lemma StatusRouter(r: Router, db: Db, c: Cid, s: OrderStatus)
    requires !GaveUp(s)
    ensures var db2 := SetStatus(db, c, s);
      && (NumbersWf(r, db) ==> NumbersWf(r, db2)) && (PendingWf(r, db) ==> PendingWf(r, db2)) && (RowWf(r, db) ==> RowWf(r, db2))
  {
  }

  lemma SetStatusWf(w: World, c: Cid, s: OrderStatus)
    requires Wf(w) && !GaveUp(s) && (c in w.db.orders ==> !GaveUp(w.db.orders[c].status))
    ensures Wf(w.(db := SetStatus(w.db, c, s))) && Kept(w, w.(db := SetStatus(w.db, c, s)))
  {
    hide Ok, QueueWf, Distinct, SetStatus, NumbersWf, PendingWf, RowWf, DecisionsWf;
    StatusDb(w.db, c, s);
    SetStatusKeeps(w.db, c, s);
    var w2 := w.(db := SetStatus(w.db, c, s));
    forall i | i in w2.routers ensures RouterWf(w2, i) {
      assert RouterWf(w, i);
      StatusRouter(w.routers[i], w.db, c, s);
    }
  }

  lemma SettleOneWf(w: World, c: Cid, local: map<int, PositionRow>, resting: seq<Cid>, now: int)
    requires Wf(w)
    ensures Wf(SettleOrders(w, [c], local, resting, now)) && Kept(w, SettleOrders(w, [c], local, resting, now))
  {
    hide Wf, Kept, Good, Step, SetStatus, AdoptPending;
    KeptRefl(w);
    assert [c][1..] == [];
    if c in w.db.orders && (w.db.orders[c].status == Submitting || w.db.orders[c].status == Accepted) {
      var i := w.db.orders[c].iid;
      OrderOwner(w, c);
      var adopt := c in resting && i in w.routers && i in local && Pending(local[i].state);
      var w2 := w;
      if adopt {
        DeskGood(w, i);
        AdoptPendingRewrites(DeskOf(w, i), c, local[i].state, now);
        var d2 := AdoptPending(DeskOf(w, i), c, local[i].state, now);
        PutWf(w, i, d2);
        PutKept(w, i, d2);
        w2 := Put(w, i, d2);
        AdoptPendingOrders(DeskOf(w, i), c, local[i].state, now);
      }
      SetStatusWf(w2, c, if c in resting then Adopted else Abandoned);
      KeptTrans(w, w2, w2.(db := SetStatus(w2.db, c, if c in resting then Adopted else Abandoned)));
    }
  }

  lemma AdoptPendingOrders(d: Desk, c: Cid, s: State, now: int)
    ensures AdoptPending(d, c, s, now).db.orders == d.db.orders
  {
  }

  lemma OrderOwner(w: World, c: Cid)
    requires Wf(w) && c in w.db.orders
    ensures c.Ours? && w.db.orders[c].iid == c.iid
  {
  }

  lemma {:induction false} SettleOrdersWf(w: World, orders: seq<Cid>, local: map<int, PositionRow>, resting: seq<Cid>, now: int)
    requires Wf(w)
    ensures Wf(SettleOrders(w, orders, local, resting, now)) && Kept(w, SettleOrders(w, orders, local, resting, now))
    decreases |orders|
  {
    hide Wf, Kept;
    if orders == [] {
      KeptRefl(w);
    } else {
      var w1 := SettleOrders(w, [orders[0]], local, resting, now);
      SettleOneWf(w, orders[0], local, resting, now);
      SettleOrdersWf(w1, orders[1..], local, resting, now);
      SettleSplit(w, orders, local, resting, now);
      KeptTrans(w, w1, SettleOrders(w, orders, local, resting, now));
    }
  }

  lemma SettleSplit(w: World, orders: seq<Cid>, local: map<int, PositionRow>, resting: seq<Cid>, now: int)
    requires orders != []
    ensures SettleOrders(w, orders, local, resting, now)
         == SettleOrders(SettleOrders(w, [orders[0]], local, resting, now), orders[1..], local, resting, now)
  {
    hide AdoptPending, SetStatus;
    assert [orders[0]][1..] == [];
  }

  /** A restart turns any sound store into a sound running system and forgets no order and no decision. */
  lemma RestartWf(w: World, now: int)
    requires StoreWf(w)
    ensures Wf(RestartWorld(w, now)) && Kept(w, RestartWorld(w, now))
  {
    hide Wf, Ok, QueueWf, Kept, RecoverRouters, GuardUnknown, SettleOrders, CancelForeign, Reload;
    var a := Reload(w.a);
    RestartAccount(w);
    var snap := Snapshot(a);
    var w0 := w.(a := a, routers := map[]);
    assert Recovered(w0);
    RecoverRoutersWf(w0, w.ids, snap);
    var w1 := RecoverRouters(w0, w.ids, snap);
    RecoveredWf(w1);
    GuardUnknownOk(w1.a, w1.routers.Keys, snap.positions, snap);
    AccountWf(w1, GuardUnknown(w1.a, w1.routers.Keys, snap.positions, snap));
    var w2 := w1.(a := GuardUnknown(w1.a, w1.routers.Keys, snap.positions, snap));
    SettleOrdersWf(w2, w2.db.orderIds, w.db.positions, snap.openOrders, now);
    var w3 := SettleOrders(w2, w2.db.orderIds, w.db.positions, snap.openOrders, now);
    WfOk(w3);
    CancelForeignOk(w3.a, snap.openOrders);
    var w4 := w3.(a := CancelForeign(w3.a, snap.openOrders));
    AccountWf(w3, w4.a);
    KeptFromSame(w, w2);
    KeptTrans(w, w2, w3);
    KeptTrans(w, w3, w4);
  }

  lemma RestartAccount(w: World)
    requires StoreWf(w)
    ensures Ok(Reload(w.a)) && QueueWf(Reload(w.a)) && Reload(w.a).queue == []
  {
    ReloadKeeps(w.a);
  }

  lemma RecoveredWf(w: World)
    requires Recovered(w) && forall i :: i in w.routers <==> i in w.ids
    ensures Wf(w) && Ok(w.a) && QueueWf(w.a)
  {
  }

  lemma KeptFromSame(w: World, w2: World)
    requires w2.ids == w.ids && w2.categories == w.categories && w2.db.orders == w.db.orders && w2.db.decisions == w.db.decisions
    ensures Kept(w, w2)
  {
  }

  // ----- every micro keeps the invariant -----

  /** The router call behind a micro, if it is one. */
  function Called(w: World, m: Micro): Desk
    requires MicroOk(m) && (m.BarCall? || m.FastCall? || m.TimeoutCall? || m.ShutdownCall? || m.HaltCall? || m.Operator?)
    requires m.iid in w.routers
  {
    var d := DeskOf(w, m.iid);
    match m
    case BarCall(_, bar, snap, kill, pending, now) => OnBar(d, bar, snap, kill, w.categories, pending, now)
    case FastCall(_, mark, liq, now) => OnFast(d, mark, Snapshot(w.a).(inLiquidation := liq), now)
    case TimeoutCall(_, now) => CheckPending(d, Snapshot(w.a), now)
    case ShutdownCall(_, mark, now) => Shutdown(d, mark, Size(w.a, m.iid), now)
    case HaltCall(_) => Halt(d)
    case Operator(_) => ClearHalt(d)
  }

  predicate IsCall(m: Micro) {
    m.BarCall? || m.FastCall? || m.TimeoutCall? || m.ShutdownCall? || m.HaltCall? || m.Operator?
  }

  lemma CalledSteps(w: World, m: Micro)
    requires Wf(w) && MicroOk(m) && IsCall(m) && m.iid in w.routers
    ensures Step(DeskOf(w, m.iid), Called(w, m))
    ensures Act(w, m) == Put(w, m.iid, Called(w, m))
  {
    hide Wf, Good, Step, OnBar, OnFast, CheckPending, Shutdown, Halt, ClearHalt, Snapshot;
    DeskGood(w, m.iid);
    var d := DeskOf(w, m.iid);
    match m
    case BarCall(_, bar, snap, kill, pending, now) => OnBarSteps(d, bar, snap, kill, w.categories, pending, now);
    case FastCall(_, mark, liq, now) => OnFastSteps(d, mark, Snapshot(w.a).(inLiquidation := liq), now);
    case TimeoutCall(_, now) => CheckPendingSteps(d, now);
    case ShutdownCall(_, mark, now) => ShutdownSteps(d, mark, Size(w.a, m.iid), now);
    case HaltCall(_) => HaltSteps(d);
    case Operator(_) => ClearHaltSteps(d);
  }

  lemma VenueMicroWf(w: World, m: Micro)
    requires Wf(w) && Admissible(m)
    requires m.Tick? || m.Fund? || m.Inject? || m.DropOrphan? || m.CancelOrder? || m.Venue?
    ensures Wf(Act(w, m)) && Kept(w, Act(w, m))
  {
    hide Wf, Kept, UpdateMark, ApplyFunding, CancelStop, Cancel;
    WfOk(w);
    VenueMoves(w.a, m);
    KeptRefl(w);
    var a := Act(w, m).a;
    assert Ok(a) && QueueWf(a) by { VenueMicroOk(w, m); }
    AccountWf(w, a);
  }

  lemma VenueMicroOk(w: World, m: Micro)
    requires Ok(w.a) && QueueWf(w.a) && Admissible(m)
    requires m.Tick? || m.Fund? || m.Inject? || m.DropOrphan? || m.CancelOrder? || m.Venue?
    ensures Ok(Act(w, m).a) && QueueWf(Act(w, m).a)
  {
    hide FundingPaid;
    VenueMoves(w.a, m);
  }

  /** Every micro - bars, ticks, fills, time-outs, stops, reconciliation, restarts, the operator, and anything an
      open venue may do - keeps the invariant, every order row and every decision. */
  lemma ActWf(w: World, m: Micro)
    requires Wf(w) && Admissible(m)
    ensures Wf(Act(w, m)) && Kept(w, Act(w, m))
  {
    hide Wf, Kept, Step, Called, RestartWorld, GuardWorld, Dispatch, FireStop, Fires, StopFill;
    KeptRefl(w);
    if IsCall(m) {
      if m.iid in w.routers {
        CalledSteps(w, m);
        PutWf(w, m.iid, Called(w, m));
        PutKept(w, m.iid, Called(w, m));
      }
    } else if m.Restart? {
      WfStore(w);
      RestartWf(w, m.now);
    } else if m.GuardPosition? {
      GuardPositionWf(w, m.iid);
    } else if m.Deliver? {
      DispatchWf(w, m.ev);
    } else if m.Pump? {
      PumpWf(w);
    } else if m.StopFires? {
      StopFiresWf(w, m);
    } else {
      VenueMicroWf(w, m);
    }
  }

  lemma PumpWf(w: World)
    requires Wf(w)
    ensures Wf(Act(w, Pump)) && Kept(w, Act(w, Pump))
  {
    hide Wf, Kept, Dispatch;
    KeptRefl(w);
    if w.a.queue != [] {
      WfOk(w);
      VenueMoves(w.a, Pump);
      var w1 := w.(a := w.a.(queue := w.a.queue[1..]));
      AccountWf(w, w1.a);
      DispatchWf(w1, w.a.queue[0]);
      KeptTrans(w, w1, Dispatch(w1, w.a.queue[0]));
    }
  }

  lemma StopFiresWf(w: World, m: Micro)
    requires Wf(w) && m.StopFires?
    ensures Wf(Act(w, m)) && Kept(w, Act(w, m))
  {
    hide Wf, Kept, Dispatch, FireStop, Fires;
    KeptRefl(w);
    if Fires(w.a, m.iid) {
      WfOk(w);
      VenueMoves(w.a, m);
      var w1 := w.(a := FireStop(w.a, m.iid));
      AccountWf(w, w1.a);
      DispatchWf(w1, StopFill(w.a, m.iid));
      KeptTrans(w, w1, Dispatch(w1, StopFill(w.a, m.iid)));
    }
  }

  ghost predicate AllAdmissible(ms: seq<Micro>) {
    forall m :: m in ms ==> Admissible(m)
  }

  lemma {:induction false} RunWf(w: World, ms: seq<Micro>)
    requires Wf(w) && AllAdmissible(ms)
    ensures Wf(Run(w, ms)) && Kept(w, Run(w, ms))
  {
    hide Wf, Kept, Act;
    if ms == [] {
      KeptRefl(w);
    } else {
      var n := |ms| - 1;
      RunWf(w, ms[..n]);
      ActWf(Run(w, ms[..n]), ms[n]);
      KeptTrans(w, Run(w, ms[..n]), Run(w, ms));
    }
  }

  // ----- order numbers and given-up orders over whole runs -----

  /** Over any run from an empty store - any number of restarts, each with its recovery, and any venue - no
      decision key repeats, no client order id is decided on twice, and every decided id has its order row. */
  lemma OrderIdsNeverRepeat(w: World, start: int, ms: seq<Micro>)
    requires EmptyDb(w.db) && Distinct(w.ids) && Ok(w.a) && QueueWf(w.a) && AllAdmissible(ms)
    ensures var ds := Run(RestartWorld(w, start), ms).db.decisions;
      forall p, q :: 0 <= p < q < |ds| ==>
        !(ds[p].iid == ds[q].iid && ds[p].num == ds[q].num) && (ds[p].cid.Some? ==> ds[p].cid != ds[q].cid)
    ensures var db := Run(RestartWorld(w, start), ms).db;
      forall p :: 0 <= p < |db.decisions| && db.decisions[p].cid.Some? ==> db.decisions[p].cid.value in db.orders
  {
    EmptyStoreWf(w);
    RestartWf(w, start);
    RunWf(RestartWorld(w, start), ms);
    assert DecisionsWf(Run(RestartWorld(w, start), ms).db);
    hide Ok, RestartWorld, Run, QueueWf;
  }

  /** A given-up order keeps its status, side, size and kind through every later run. */
  lemma GivenUpIsForever(w: World, ms: seq<Micro>, c: Cid)
    requires Wf(w) && AllAdmissible(ms) && c in w.db.orders && GaveUp(w.db.orders[c].status)
    ensures c in Run(w, ms).db.orders && Run(w, ms).db.orders[c].status == w.db.orders[c].status
    ensures RowKept(w.db.orders[c], Run(w, ms).db.orders[c])
  {
    RunWf(w, ms);
  }

  /** A fill of a given-up order is never added: the router takes the venue's size at that moment instead. */
  lemma GivenUpFillAdopts(w: World, ev: Event)
    requires Wf(w) && ev.FillUpdate? && ev.iid in w.routers
    requires ev.cid in w.db.orders && GaveUp(w.db.orders[ev.cid].status)
    ensures Act(w, Deliver(ev)).routers[ev.iid].size == Size(w.a, ev.iid) == Size(Act(w, Deliver(ev)).a, ev.iid)
    ensures Size(w.a, ev.iid) != 0.0 <==> ev.iid in Act(w, Deliver(ev)).a.stops
  {
    hide Ok, AdoptAndSettle, Snapshot, OrdersWf, DecisionsWf, NumbersWf, QueueWf;
    assert RouterWf(w, ev.iid);
    var d := DeskOf(w, ev.iid);
    var row := d.db.orders[ev.cid];
    AdoptAndSettleEffect(d.(db := d.db.(orders := d.db.orders[ev.cid := row.(filled := row.filled + ev.quantity)])));
  }
}
