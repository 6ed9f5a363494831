/** Frozen routers: nothing but the operator thaws them, they never open a position, and two shutdown bars
    leave every routed instrument flat. */
module Freezing {
  import opened Types
  import opened Guards
  import opened Sim
  import opened Routing
  import opened Delivery
  import opened Discipline
  import opened Runtime
  import opened Runs
  import opened Recovery
  import opened Conservation

  /** A frozen router stays exactly as frozen, and whatever it newly sends only reduces. */
  ghost predicate StaysFrozen(d: Desk, d2: Desk) {
    Frozen(d.r.state) ==>
      d2.r.state == d.r.state && forall c :: c in d2.db.orders && c !in d.db.orders ==> d2.db.orders[c].reduceOnly
  }

  lemma SendOnlyReduces(d: Desk, intent: Intent, now: int)
    requires intent.reduceOnly
    ensures forall c :: c in Send(d, intent, now).db.orders && c !in d.db.orders ==> Send(d, intent, now).db.orders[c].reduceOnly
  {
    hide SubmitWithRecovery, Conclude;
    var d1 := Prepare(d, intent, now);
    var cid := Ours(d.r.iid, d.r.num + 1);
    var (a, out) := SubmitWithRecovery(d1.a, Request(cid, intent), d.r.size);
    ConcludeKeepsKind(d1.(a := a), cid, out, d.r.state);
  }

  lemma ConcludeKeepsKind(d: Desk, cid: Cid, out: Outcome, prior: State)
    ensures var d2 := Conclude(d, cid, out, prior);
      && (forall c :: c in d2.db.orders <==> c in d.db.orders)
      && forall c :: c in d.db.orders ==> d2.db.orders[c].reduceOnly == d.db.orders[c].reduceOnly
  {
    hide Adopt, Snapshot;
    var h := Halt(d.(db := SetStatus(d.db, cid, Error)));
    AdoptKeepsOrders(h, Snapshot(h.a));
  }

  lemma AdoptKeepsOrders(d: Desk, snap: AccountSnapshot)
    ensures Adopt(d, snap).db.orders == d.db.orders
  {
    hide VenueStop, Find;
  }

  lemma ShutdownStaysFrozen(d: Desk, mark: real, held: real, now: int)
    ensures StaysFrozen(d, Shutdown(d, mark, held, now))
    ensures Frozen(Shutdown(d, mark, held, now).r.state)
  {
    hide Send;
    SendOnlyReduces(d, ExitIntent(d.r.iid, held, mark), now);
  }

  lemma CalledStaysFrozen(w: World, m: Micro)
    requires Wf(w) && MicroOk(m) && IsCall(m) && !m.Operator? && m.iid in w.routers
    ensures StaysFrozen(DeskOf(w, m.iid), Called(w, m))
  {
    hide Wf, Send, Exit, Shutdown, EntryIntent, Snapshot;
    if m.ShutdownCall? { ShutdownStaysFrozen(DeskOf(w, m.iid), m.mark, Size(w.a, m.iid), m.now); }
  }

  /** Router i as it was, and every new order of i only reduces. */
  ghost predicate HeldFrozen(w: World, w2: World, i: int)
    requires i in w.routers && i in w2.routers
  {
    && w2.routers[i].state == w.routers[i].state
    && forall c :: c in w2.db.orders && c !in w.db.orders && c.Ours? && c.iid == i ==> w2.db.orders[c].reduceOnly
  }

  lemma CallHoldsFrozen(w: World, m: Micro, i: int)
    requires Wf(w) && MicroOk(m) && IsCall(m) && m.iid in w.routers && i in w.routers && Frozen(w.routers[i].state)
    requires !(m.Operator? && m.iid == i)
    ensures i in Act(w, m).routers && HeldFrozen(w, Act(w, m), i)
  {
    hide Wf, Step, Act, Called, Touches, OrdersWf, DecisionsWf, NumbersWf, PendingWf, RowWf, Ok;
    CalledSteps(w, m);
    StepParts(DeskOf(w, m.iid), Called(w, m));
    IidOf(w);
    if m.iid == i { CalledStaysFrozen(w, m); }
  }

  lemma EventHoldsFrozen(d: Desk, ev: Event)
    requires Good(d)
    ensures Frozen(d.r.state) ==> HandleEvent(d, ev).r.state == d.r.state
    ensures forall c :: c in HandleEvent(d, ev).db.orders <==> c in d.db.orders
  {
    hide FillEntry, StopPrice, RecordFill, OrdersWf, DecisionsWf, NumbersWf, PendingWf, RowWf, AdoptAndSettle, Snapshot, Ok;
    if ev.FillUpdate? && ev.iid == d.r.iid && LateFill(d, ev.cid) {
      var row := d.db.orders[ev.cid];
      AdoptAndSettleEffect(d.(db := d.db.(orders := d.db.orders[ev.cid := row.(filled := row.filled + ev.quantity)])));
    } else if ev.FillUpdate? && ev.iid == d.r.iid {
      FillAdds(d, ev);
    }
  }

  lemma {:induction false} UpdateAllHoldsFrozen(w: World, ids: seq<int>, cid: Cid, s: OrderStatus, i: int)
    requires Wf(w) && i in w.routers && Frozen(w.routers[i].state) && VenueStatus(s)
    ensures var w2 := UpdateAll(w, ids, cid, s);
      && i in w2.routers && w2.routers[i].state == w.routers[i].state
      && forall c :: c in w2.db.orders <==> c in w.db.orders
    decreases |ids|
  {
    hide Wf, Good, HandleUpdate, VenueStatus, Step;
    if ids != [] {
      var w1 := if ids[0] in w.routers then Put(w, ids[0], HandleUpdate(DeskOf(w, ids[0]), cid, s)) else w;
      if ids[0] in w.routers {
        DeskGood(w, ids[0]);
        UpdateIsEvent(DeskOf(w, ids[0]), cid, s);
        HandleUpdateSteps(DeskOf(w, ids[0]), cid, s);
        PutWf(w, ids[0], HandleUpdate(DeskOf(w, ids[0]), cid, s));
      }
      UpdateAllHoldsFrozen(w1, ids[1..], cid, s, i);
    }
  }

  lemma UpdateIsEvent(d: Desk, cid: Cid, s: OrderStatus)
    requires Good(d)
    ensures Frozen(d.r.state) ==> HandleUpdate(d, cid, s).r.state == d.r.state
    ensures forall c :: c in HandleUpdate(d, cid, s).db.orders <==> c in d.db.orders
  {
    EventHoldsFrozen(d, OrderUpdate(cid, s, 0.0));
    hide Good, HandleUpdate;
  }

  lemma DispatchHoldsFrozen(w: World, ev: Event, i: int)
    requires Wf(w) && i in w.routers && Frozen(w.routers[i].state) && (ev.OrderUpdate? ==> VenueStatus(ev.status))
    ensures i in Dispatch(w, ev).routers && HeldFrozen(w, Dispatch(w, ev), i)
  {
    hide Wf, Good, UpdateAll, HandleFill, VenueStatus;
    if ev.OrderUpdate? {
      UpdateAllHoldsFrozen(w, w.ids, ev.cid, ev.status, i);
    } else if ev.iid in w.routers {
      DeskGood(w, ev.iid);
      FillHoldsFrozen(DeskOf(w, ev.iid), ev);
    }
  }

  lemma FillHoldsFrozen(d: Desk, ev: Event)
    requires Good(d) && ev.FillUpdate?
    ensures Frozen(d.r.state) ==> HandleFill(d, ev).r.state == d.r.state
    ensures forall c :: c in HandleFill(d, ev).db.orders <==> c in d.db.orders
  {
    EventHoldsFrozen(d, ev);
    hide Good, HandleFill;
  }

  lemma RestartHoldsFrozen(w: World, now: int, i: int)
    requires Wf(w) && i in w.routers && Frozen(w.routers[i].state)
    ensures i in RestartWorld(w, now).routers && HeldFrozen(w, RestartWorld(w, now), i)
  {
    hide Wf, RestartWorld, Ok, OrdersWf, DecisionsWf, NumbersWf, PendingWf, QueueWf;
    WfStore(w);
    RestartEffect(w, now);
    RowOfRouter(w, i);
    RestartOrders(w, now);
  }

  lemma RowOfRouter(w: World, i: int)
    requires Wf(w) && i in w.routers
    ensures i in w.ids && i in w.db.positions && w.db.positions[i] == Row(w.routers[i])
  {
    hide Ok, OrdersWf, DecisionsWf, NumbersWf, PendingWf, QueueWf;
    assert RouterWf(w, i);
  }

  lemma {:induction false} SettleOrderKeys(w: World, orders: seq<Cid>, local: map<int, PositionRow>, resting: seq<Cid>, now: int)
    ensures forall c :: c in SettleOrders(w, orders, local, resting, now).db.orders <==> c in w.db.orders
    ensures forall c :: c in w.db.orders && GaveUp(SettleOrders(w, orders, local, resting, now).db.orders[c].status) ==>
              GaveUp(w.db.orders[c].status)
    decreases |orders|
  {
    hide SettleOrders;
    if orders != [] {
      SettleSplit(w, orders, local, resting, now);
      SettleOneKeys(w, orders[0], local, resting, now);
      SettleOrderKeys(SettleOrders(w, [orders[0]], local, resting, now), orders[1..], local, resting, now);
    } else {
      SettleNone(w, local, resting, now);
    }
  }

  lemma SettleNone(w: World, local: map<int, PositionRow>, resting: seq<Cid>, now: int)
    ensures SettleOrders(w, [], local, resting, now) == w
  {
  }

  lemma SettleOneKeys(w: World, c0: Cid, local: map<int, PositionRow>, resting: seq<Cid>, now: int)
    ensures forall c :: c in SettleOrders(w, [c0], local, resting, now).db.orders <==> c in w.db.orders
    ensures forall c :: c in w.db.orders && GaveUp(SettleOrders(w, [c0], local, resting, now).db.orders[c].status) ==>
              GaveUp(w.db.orders[c].status)
  {
    assert [c0][1..] == [];
  }

  /** Recovery writes no new order and gives none up. */
  lemma RestartOrders(w: World, now: int)
    requires StoreWf(w)
    ensures forall c :: c in RestartWorld(w, now).db.orders <==> c in w.db.orders
    ensures NoneGivenUp(w.db, RestartWorld(w, now).db)
  {
    hide Wf, Ok, QueueWf, RecoverRouters, GuardUnknown, SettleOrders, CancelForeign, Reload, OrdersWf, DecisionsWf, Views, Equity;
    var a := Reload(w.a);
    RestartAccount(w);
    var snap := Snapshot(a);
    var w0 := w.(a := a, routers := map[]);
    assert Recovered(w0);
    RecoverRoutersWf(w0, w.ids, snap);
    var w1 := RecoverRouters(w0, w.ids, snap);
    var w2 := w1.(a := GuardUnknown(w1.a, w1.routers.Keys, snap.positions, snap));
    SettleOrderKeys(w2, w2.db.orderIds, w.db.positions, snap.openOrders, now);
  }

  /** One micro, of any kind, from any venue. */
  lemma ActHoldsFrozen(w: World, m: Micro, i: int)
    requires Wf(w) && Admissible(m) && i in w.routers && Frozen(w.routers[i].state) && m != Operator(i)
    ensures i in Act(w, m).routers && HeldFrozen(w, Act(w, m), i)
  {
    hide Wf, RestartWorld, Dispatch, FireStop, Fires, StopFill, VenueStatus, Ok, OnBar, OnFast, CheckPending, Shutdown,
      UpdateMark, ApplyFunding, Cancel, CancelStop;
    if IsCall(m) {
      if m.iid in w.routers { CallHoldsFrozen(w, m, i); }
    } else if m.Restart? {
      RestartHoldsFrozen(w, m.now, i);
    } else if m.Deliver? {
      DispatchHoldsFrozen(w, m.ev, i);
    } else if m.Pump? {
      if w.a.queue != [] { PumpHoldsFrozen(w, i); }
    } else if m.StopFires? {
      if Fires(w.a, m.iid) { StopHoldsFrozen(w, m.iid, i); }
    }
  }

  lemma PumpHoldsFrozen(w: World, i: int)
    requires Wf(w) && i in w.routers && Frozen(w.routers[i].state) && w.a.queue != []
    ensures i in Act(w, Pump).routers && HeldFrozen(w, Act(w, Pump), i)
  {
    hide Wf, Dispatch, VenueStatus;
    WfOk(w);
    VenueMoves(w.a, Pump);
    AccountWf(w, w.a.(queue := w.a.queue[1..]));
    DispatchHoldsFrozen(w.(a := w.a.(queue := w.a.queue[1..])), w.a.queue[0], i);
  }

  lemma StopHoldsFrozen(w: World, j: int, i: int)
    requires Wf(w) && i in w.routers && Frozen(w.routers[i].state) && Fires(w.a, j)
    ensures i in Act(w, StopFires(j)).routers && HeldFrozen(w, Act(w, StopFires(j)), i)
  {
    hide Wf, Dispatch, VenueStatus, FireStop, Fires;
    WfOk(w);
    VenueMoves(w.a, StopFires(j));
    AccountWf(w, FireStop(w.a, j));
    DispatchHoldsFrozen(w.(a := FireStop(w.a, j)), StopFill(w.a, j), i);
  }

  /** Frozen is absorbing: against any venue and through any run - bars, fast ticks, fills, order updates,
      time-outs, reconciliations, shutdowns, restarts - a halted or liquidated router is in the same state after
      every step until the operator clears it, and no order it sends can open a position. */
  lemma {:induction false} FrozenIsAbsorbing(w: World, ms: seq<Micro>, i: int)
    requires Wf(w) && AllAdmissible(ms) && i in w.routers && Frozen(w.routers[i].state) && Operator(i) !in ms
    ensures i in Run(w, ms).routers && Run(w, ms).routers[i].state == w.routers[i].state
    ensures forall c :: c in Run(w, ms).db.orders && c !in w.db.orders && c.Ours? && c.iid == i ==>
              Run(w, ms).db.orders[c].reduceOnly
  {
    hide Wf, Act;
    if ms != [] {
      var n := |ms| - 1;
      assert forall m :: m in ms[..n] ==> m in ms;
      var mid := Run(w, ms[..n]);
      RunWf(w, ms[..n]);
      FrozenIsAbsorbing(w, ms[..n], i);
      ActHoldsFrozen(mid, ms[n], i);
      ActWf(mid, ms[n]);
    }
  }

  /** A reduce-only order, however often it is retried, never opens, grows or turns a position. */
  lemma ReduceOnlyNeverOpens(a: Account, req: OrderRequest, sizeBefore: real)
    requires Ok(a) && req.reduceOnly && req.quantity >= 0.0
    ensures var (s, t) := (Size(a, req.iid), Size(SubmitWithRecovery(a, req, sizeBefore).0, req.iid));
      (s >= 0.0 ==> 0.0 <= t <= s) && (s <= 0.0 ==> s <= t <= 0.0)
  {
    hide Submit, Ok, Snapshot, Executes;
    SubmitReduces(a, req);
    var (b, first) := Attempt(a, req, sizeBefore);
    if first.None? { SubmitReduces(b, req); }
  }

  lemma SubmitReduces(a: Account, req: OrderRequest)
    requires Ok(a) && req.reduceOnly && req.quantity >= 0.0
    ensures var (s, t) := (Size(a, req.iid), Size(Submit(a, req).0, req.iid));
      (s >= 0.0 ==> 0.0 <= t <= s) && (s <= 0.0 ==> s <= t <= 0.0)
    ensures Ok(Submit(a, req).0)
  {
    hide Submit, Ok, NextMode;
    if Executes(a, req) { SubmitExecutes(a, req); } else { SubmitFails(a, req); }
  }
}
