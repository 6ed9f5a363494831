/** Size conservation on the simulated venue: while no order is given up, venue size equals router size plus
    the fills still queued, in every reachable state; a restart re-establishes it. */
module Conservation {
  import opened Types
  import opened Guards
  import opened Sizing
  import opened Sim
  import opened SimLaws
  import opened Routing
  import opened Delivery
  import opened Discipline
  import opened Runtime
  import opened Runs
  import opened Recovery

  /** The simulated venue and this process only: no event and no account from outside. */
  ghost predicate Closed(m: Micro) {
    Admissible(m) && !m.Deliver? && !m.Venue?
  }

  /** Every order given up in the second database was already given up in the first. */
  ghost predicate NoneGivenUp(db: Db, db2: Db) {
    forall c :: c in db2.orders && GaveUp(db2.orders[c].status) ==> c in db.orders && GaveUp(db.orders[c].status)
  }

  /** The queued fills belong to recorded orders the router still stands by. */
  ghost predicate FillsLive(a: Account, db: Db) {
    forall k :: 0 <= k < |a.queue| && a.queue[k].FillUpdate? ==>
      a.queue[k].cid in db.orders && !GaveUp(db.orders[a.queue[k].cid].status)
  }

  ghost predicate Agree(w: World) {
    && FillsLive(w.a, w.db)
    && forall i :: i in w.routers ==> w.routers[i].size == Lag(w.a, i)
  }

  // ----- router calls other than fills keep the size -----

  /** Statuses an order ends in when the router takes the venue's size instead. */
  predicate Adopting(s: OrderStatus) {
    s == Error || s == TimeoutAdopted
  }

  /** No order newly ended that way. */
  ghost predicate NotAdopted(db: Db, db2: Db) {
    forall c :: c in db2.orders && Adopting(db2.orders[c].status) ==> c in db.orders && Adopting(db.orders[c].status)
  }

  lemma NoneGivenUpNoneAdopted(r: Router, db: Db, db2: Db)
    requires DbKept(r, db, db2) && NoneGivenUp(db, db2)
    ensures NotAdopted(db, db2)
  {
  }

  /** Without adopting the venue's size the call keeps the router's, and every event it causes is of an order it recorded. */
  ghost predicate Calm(d: Desk, d2: Desk) {
    && (NotAdopted(d.db, d2.db) ==> d2.r.size == d.r.size)
    && d.a.queue <= d2.a.queue
    && forall k :: |d.a.queue| <= k < |d2.a.queue| ==>
         d2.a.queue[k].cid in d2.db.orders && d2.a.queue[k].cid !in d.db.orders
  }

  lemma ConcludeCalm(d: Desk, cid: Cid, out: Outcome, prior: State)
    requires cid in d.db.orders && Ok(d.a)
    ensures var d2 := Conclude(d, cid, out, prior);
      && d2.a.queue == d.a.queue
      && (forall c :: c in d2.db.orders <==> c in d.db.orders)
      && (out == Failed || out == NoAck ==> GaveUp(d2.db.orders[cid].status)) && (out == Failed ==> d2.db.orders[cid].status == Error)
      && (out != Failed ==> d2.r.size == d.r.size)
  {
    hide Ok, Adopt, Snapshot;
    AdoptEffect(Halt(d.(db := SetStatus(d.db, cid, Error))));
  }

  lemma SendCalm(d: Desk, intent: Intent, now: int)
    requires Good(d) && intent.iid == d.r.iid && intent.quantity >= 0.0
    ensures Calm(d, Send(d, intent, now))
  {
    hide Ok, SubmitWithRecovery, Conclude, OrdersWf, DecisionsWf, PendingWf, RowWf;
    var d1 := Prepare(d, intent, now);
    var cid := Ours(d.r.iid, d.r.num + 1);
    var (a, out) := SubmitWithRecovery(d1.a, Request(cid, intent), d.r.size);
    RecoveryTouches(d1.a, Request(cid, intent), d.r.size);
    TouchesTo(d.r.iid, d1.a, a);
    ConcludeCalm(d1.(a := a), cid, out, d.r.state);
  }

  lemma TouchesTo(i: int, a: Account, b: Account)
    requires Touches(i, a, b)
    ensures Ok(b) && a.queue <= b.queue
  {
  }

  lemma ExitCalm(d: Desk, size: real, mark: real, now: int)
    requires Good(d)
    ensures Calm(d, Exit(d, size, mark, now))
  {
    hide Good, Calm, Send;
    SendCalm(d, ExitIntent(d.r.iid, size, mark), now);
  }

  lemma SameCalm(d: Desk, d2: Desk)
    requires d2.r.size == d.r.size && d2.a.queue == d.a.queue
    ensures Calm(d, d2)
  {
  }

  lemma SkipCalm(d: Desk)
    ensures Calm(d, Skip(d))
  {
  }

  lemma OnBarCalm(d: Desk, bar: BarInput, snap: AccountSnapshot, kill: Kill, categories: map<int, Category>,
                  pending: seq<Intent>, now: int)
    requires Good(d) && (bar.close.Some? ==> PriceOk(bar.close.value))
    ensures Calm(d, OnBar(d, bar, snap, kill, categories, pending, now))
  {
    hide Good, Calm, Send, EntryIntent, EntryRaises, Exit, Clamp, Skip;
    SkipCalm(d);
    SameCalm(d, d);
    if !Pending(d.r.state) && !Frozen(d.r.state) && bar.close.Some? {
      var mark := bar.close.value;
      ExitCalm(d, d.r.size, mark, now);
      var side := EntrySide(bar);
      var intent := EntryIntent(d.r.iid, side, mark, snap, categories, pending);
      EntryIntentShape(d.r.iid, side, mark, snap, categories, pending);
      if intent.Some? { SendCalm(d, intent.value, now); }
    }
  }

  lemma OnFastCalm(d: Desk, mark: real, snap: AccountSnapshot, now: int)
    requires Good(d) && PriceOk(mark)
    ensures Calm(d, OnFast(d, mark, snap, now))
  {
    hide Good, Calm, Exit;
    SameCalm(d, d);
    SameCalm(d, SetState(d, Liquidated));
    ExitCalm(d, d.r.size, mark, now);
  }

  lemma ShutdownCalm(d: Desk, mark: real, held: real, now: int)
    requires Good(d)
    ensures Calm(d, Shutdown(d, mark, held, now))
  {
    hide Good, Exit;
    ExitCalm(d, held, mark, now);
  }

  lemma CheckPendingCalm(d: Desk, now: int)
    requires Good(d)
    ensures Calm(d, CheckPending(d, Snapshot(d.a), now))
  {
    hide Ok, AdoptAndSettle, Snapshot, OrdersWf, DecisionsWf, NumbersWf, RowWf;
    if CheckPending(d, Snapshot(d.a), now) != d {
      AdoptAndSettleEffect(d.(db := SetStatus(d.db, d.r.pendingCid.value, TimeoutAdopted)));
    }
  }

  lemma CalledCalm(w: World, m: Micro)
    requires Wf(w) && MicroOk(m) && IsCall(m) && m.iid in w.routers
    ensures Calm(DeskOf(w, m.iid), Called(w, m))
  {
    hide Wf, Good, Calm, OnBar, OnFast, CheckPending, Shutdown, Snapshot;
    DeskGood(w, m.iid);
    var d := DeskOf(w, m.iid);
    match m
    case BarCall(_, bar, snap, kill, pending, now) => OnBarCalm(d, bar, snap, kill, w.categories, pending, now);
    case FastCall(_, mark, liq, now) => OnFastCalm(d, mark, Snapshot(w.a).(inLiquidation := liq), now);
    case TimeoutCall(_, now) => CheckPendingCalm(d, now);
    case ShutdownCall(_, mark, now) => ShutdownCalm(d, mark, Size(w.a, m.iid), now);
    case HaltCall(_) => SameCalm(d, Halt(d));
    case Operator(_) => SameCalm(d, ClearHalt(d));
  }

  lemma CallAgrees(w: World, i: int, d2: Desk)
    requires Wf(w) && Agree(w) && i in w.routers && Step(DeskOf(w, i), d2) && Calm(DeskOf(w, i), d2)
    requires NoneGivenUp(w.db, d2.db)
    ensures Agree(Put(w, i, d2))
  {
    hide Wf, Good, Ok, NoneGivenUp, Lag;
    DeskGood(w, i);
    NoneGivenUpNoneAdopted(w.routers[i], w.db, d2.db);
    var w2 := Put(w, i, d2);
    forall k | 0 <= k < |d2.a.queue| && d2.a.queue[k].FillUpdate?
      ensures d2.a.queue[k].cid in d2.db.orders && !GaveUp(d2.db.orders[d2.a.queue[k].cid].status)
    {
      if k < |w.a.queue| { assert d2.a.queue[k] == w.a.queue[k]; }
      StandsBy(w.db, d2.db, d2.a.queue[k].cid);
    }
  }

  lemma StandsBy(db: Db, db2: Db, c: Cid)
    requires NoneGivenUp(db, db2) && c in db2.orders && (c in db.orders ==> !GaveUp(db.orders[c].status))
    ensures !GaveUp(db2.orders[c].status)
  {
  }

  // ----- delivery -----

  /** An order update leaves sizes, account and order identities alone. */
  lemma {:induction false} UpdateAllAgrees(w: World, ids: seq<int>, cid: Cid, s: OrderStatus)
    requires Agree(w) && VenueStatus(s)
    requires forall i :: i in w.routers && w.routers[i].pendingCid.Some? && w.routers[i].pendingCid.value in w.db.orders ==>
               !GaveUp(w.db.orders[w.routers[i].pendingCid.value].status)
    ensures Agree(UpdateAll(w, ids, cid, s)) && UpdateAll(w, ids, cid, s).a == w.a
    decreases |ids|
  {
    hide Lag;
    if ids != [] && ids[0] in w.routers {
      var d2 := HandleUpdate(DeskOf(w, ids[0]), cid, s);
      HandleUpdateQuiet(DeskOf(w, ids[0]), cid, s);
      UpdateAllAgrees(Put(w, ids[0], d2), ids[1..], cid, s);
    } else if ids != [] {
      UpdateAllAgrees(w, ids[1..], cid, s);
    }
  }

  lemma StatusLives(db: Db, cid: Cid, s: OrderStatus)
    requires !GaveUp(s)
    ensures var one, two := SetStatus(db, cid, s).orders, SetStatusUnlessTerminal(db, cid, s).orders;
      && one.Keys == db.orders.Keys && two.Keys == db.orders.Keys
      && forall c :: c in db.orders && !GaveUp(db.orders[c].status) ==> !GaveUp(one[c].status) && !GaveUp(two[c].status)
  {
  }

  lemma HandleUpdateQuiet(d: Desk, cid: Cid, s: OrderStatus)
    requires VenueStatus(s)
    ensures var d2 := HandleUpdate(d, cid, s);
      && d2.a == d.a && d2.r.size == d.r.size && (d2.r.pendingCid == d.r.pendingCid || d2.r.pendingCid == None)
      && (forall c :: c in d2.db.orders <==> c in d.db.orders)
      && (forall c :: c in d.db.orders && !GaveUp(d.db.orders[c].status) ==> !GaveUp(d2.db.orders[c].status))
  {
    hide SetStatus, SetStatusUnlessTerminal;
    StatusLives(d.db, cid, s);
  }

  lemma WfPending(w: World)
    requires Wf(w)
    ensures forall i :: i in w.routers && w.routers[i].pendingCid.Some? && w.routers[i].pendingCid.value in w.db.orders ==>
              !GaveUp(w.db.orders[w.routers[i].pendingCid.value].status)
  {
    hide Ok, OrdersWf, DecisionsWf, NumbersWf, RowWf, QueueWf;
    forall i | i in w.routers && w.routers[i].pendingCid.Some? && w.routers[i].pendingCid.value in w.db.orders
      ensures !GaveUp(w.db.orders[w.routers[i].pendingCid.value].status)
    {
      assert RouterWf(w, i);
    }
  }

  /** A fill that is not late moves the router's size by exactly what it reports. */
  lemma FillAdds(d: Desk, ev: Event)
    requires ev.FillUpdate? && ev.iid == d.r.iid && !LateFill(d, ev.cid)
    ensures var d2 := HandleFill(d, ev);
      && d2.r.size == d.r.size + Signed(ev.side, ev.quantity)
      && d2.a == d.a.(stops := d2.a.stops)
      && (forall c :: c in d2.db.orders <==> c in d.db.orders)
      && (forall c :: c in d.db.orders && !GaveUp(d.db.orders[c].status) ==> !GaveUp(d2.db.orders[c].status))
  {
    hide FillEntry, StopPrice;
  }

  lemma FillAgrees(w: World, w1: World, ev: Event)
    requires ev.FillUpdate? && w1 == w.(a := w1.a) && FillsLive(w1.a, w.db)
    requires ev.cid in w.db.orders ==> !GaveUp(w.db.orders[ev.cid].status)
    requires forall i :: i in w.routers ==> w.routers[i].iid == i && w.routers[i].size + SizeOf(ev, i) == Lag(w1.a, i)
    ensures Agree(Dispatch(w1, ev))
  {
    hide HandleFill, Ok;
    if ev.iid in w.routers { FillAdds(DeskOf(w1, ev.iid), ev); }
  }

  lemma IidOf(w: World)
    requires Wf(w)
    ensures forall i :: i in w.routers ==> w.routers[i].iid == i
  {
    hide Ok, OrdersWf, DecisionsWf, NumbersWf, PendingWf, RowWf, QueueWf;
    forall i | i in w.routers ensures w.routers[i].iid == i { assert RouterWf(w, i); }
  }

  lemma PumpAgrees(w: World)
    requires Wf(w) && Agree(w)
    ensures Agree(Act(w, Pump))
  {
    hide Wf, Dispatch, Ok, VenueStatus;
    if w.a.queue != [] {
      var ev := w.a.queue[0];
      var w1 := w.(a := w.a.(queue := w.a.queue[1..]));
      assert FillsLive(w1.a, w1.db);
      IidOf(w);
      if ev.FillUpdate? {
        FillAgrees(w, w1, ev);
      } else {
        QueueHead(w);
        WfPending(w);
        UpdateAllAgrees(w1, w1.ids, ev.cid, ev.status);
        assert Dispatch(w1, ev) == UpdateAll(w1, w1.ids, ev.cid, ev.status) by { DispatchIs(w1, ev); }
      }
    }
  }

  lemma DispatchIs(w: World, ev: Event)
    requires ev.OrderUpdate?
    ensures Dispatch(w, ev) == UpdateAll(w, w.ids, ev.cid, ev.status)
  {
    hide UpdateAll;
  }

  lemma QueueHead(w: World)
    requires Wf(w) && w.a.queue != [] && w.a.queue[0].OrderUpdate?
    ensures VenueStatus(w.a.queue[0].status)
  {
  }

  lemma StopAgrees(w: World, i: int)
    requires Wf(w) && Agree(w)
    ensures Agree(Act(w, StopFires(i)))
  {
    hide Dispatch, Ok, FireStop, OrdersWf, DecisionsWf, NumbersWf, PendingWf, RowWf, QueueWf, RouterWf, PlainCash;
    if Fires(w.a, i) {
      IidOf(w);
      FireStopEffect(w.a, i);
      StopIdsUnrecorded(w, StopFill(w.a, i).cid);
      FillAgrees(w, w.(a := FireStop(w.a, i)), StopFill(w.a, i));
    }
  }

  lemma StopIdsUnrecorded(w: World, c: Cid)
    requires Wf(w) && c.StopOrder?
    ensures c !in w.db.orders
  {
  }

  // ----- everything else -----

  lemma VenueAgrees(w: World, m: Micro)
    requires Wf(w) && Agree(w) && Admissible(m)
    requires m.Tick? || m.Fund? || m.Inject? || m.DropOrphan? || m.CancelOrder? || m.GuardPosition?
    ensures Agree(Act(w, m))
  {
    hide FundingPaid, Ok, OrdersWf, DecisionsWf, NumbersWf, PendingWf, RowWf, QueueWf, RouterWf;
  }

  lemma RestartAgrees(w: World, now: int)
    requires StoreWf(w)
    ensures Agree(RestartWorld(w, now))
  {
    hide RestartWorld, StoreWf, WasFrozen, RecoveredState;
    RestartEffect(w, now);
  }

  lemma ActAgrees(w: World, m: Micro)
    requires Wf(w) && Agree(w) && Closed(m) && NoneGivenUp(w.db, Act(w, m).db)
    ensures Agree(Act(w, m))
  {
    hide Wf, Agree, Calm, Step, NoneGivenUp, Called, RestartWorld, GuardWorld, Dispatch, FireStop, Fires, StopFill;
    if IsCall(m) {
      if m.iid in w.routers {
        CalledSteps(w, m);
        CalledCalm(w, m);
        CallAgrees(w, m.iid, Called(w, m));
      }
    } else if m.Restart? {
      WfStore(w);
      RestartAgrees(w, m.now);
    } else if m.Pump? {
      PumpAgrees(w);
    } else if m.StopFires? {
      StopAgrees(w, m.iid);
    } else {
      VenueAgrees(w, m);
    }
  }

  // ----- whole runs -----

  ghost predicate AllClosed(ms: seq<Micro>) {
    forall m :: m in ms ==> Closed(m)
  }

  lemma NoneGivenUpBefore(w: World, mid: World, last: World)
    requires Kept(w, mid) && Kept(mid, last) && NoneGivenUp(w.db, last.db)
    ensures NoneGivenUp(w.db, mid.db) && NoneGivenUp(mid.db, last.db)
  {
  }

  lemma {:induction false} RunAgrees(w: World, ms: seq<Micro>)
    requires Wf(w) && Agree(w) && AllClosed(ms) && NoneGivenUp(w.db, Run(w, ms).db)
    ensures Wf(Run(w, ms)) && Agree(Run(w, ms))
  {
    hide Wf, Agree, Act, NoneGivenUp, Kept;
    RunWf(w, ms);
    if ms != [] {
      var n := |ms| - 1;
      RunWf(w, ms[..n]);
      ActWf(Run(w, ms[..n]), ms[n]);
      NoneGivenUpBefore(w, Run(w, ms[..n]), Run(w, ms));
      RunAgrees(w, ms[..n]);
      ActAgrees(Run(w, ms[..n]), ms[n]);
    }
  }

  /** Size conservation. From any restart - however badly router and venue disagreed before it - and after any
      run of bars, fast ticks, failures, deliveries, stops, shutdowns, reconciliations, operator clears and
      further restarts in which no further order is given up, every routed instrument's venue size is its
      router's size plus the signed sum of its undelivered fills. */
  lemma SizeConservation(w: World, start: int, ms: seq<Micro>, i: int)
    requires StoreWf(w) && AllClosed(ms) && i in w.ids
    requires NoneGivenUp(RestartWorld(w, start).db, Run(RestartWorld(w, start), ms).db)
    ensures var w2 := Run(RestartWorld(w, start), ms);
      i in w2.routers && Size(w2.a, i) == w2.routers[i].size + Undelivered(w2.a.queue, i)
  {
    hide RestartWorld, Run, StoreWf, NoneGivenUp, RouterWf, TablesWf;
    RestartWf(w, start);
    RestartAgrees(w, start);
    RunAgrees(RestartWorld(w, start), ms);
    RunWf(RestartWorld(w, start), ms);
  }
}
