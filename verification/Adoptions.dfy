/** Size conservation with given-up orders in the run: what an adoption of the venue's size keeps, and when a later
    fill undoes it. */
module Adoptions {
  import opened Types
  import opened Guards
  import opened Sizing
  import opened Sim
  import opened SimLaws
  import opened Routing
  import opened Delivery
  import opened Discipline
  import opened Runtime
  import opened Runs
  import opened Recovery
  import opened Conservation

  // ----- calls that adopt take the venue's size -----

  /** A call that newly ends an order by adoption leaves the router with the venue's size. */
  ghost predicate Takes(d: Desk, d2: Desk) {
    !NotAdopted(d.db, d2.db) ==> d2.r.size == Size(d2.a, d.r.iid)
  }

  lemma ConcludeTakes(d: Desk, cid: Cid, out: Outcome, prior: State)
    requires cid in d.db.orders && Ok(d.a) && d.db.orders[cid].status == Submitting
    ensures Takes(d, Conclude(d, cid, out, prior))
  {
    hide Ok, Adopt, Snapshot;
    AdoptEffect(Halt(d.(db := SetStatus(d.db, cid, Error))));
  }

  lemma SendTakes(d: Desk, intent: Intent, now: int)
    requires Good(d) && intent.iid == d.r.iid && intent.quantity >= 0.0
    ensures Takes(d, Send(d, intent, now))
  {
    hide Ok, SubmitWithRecovery, Conclude, OrdersWf, DecisionsWf, PendingWf, RowWf;
    var d1 := Prepare(d, intent, now);
    var cid := Ours(d.r.iid, d.r.num + 1);
    var (a, out) := SubmitWithRecovery(d1.a, Request(cid, intent), d.r.size);
    RecoveryTouches(d1.a, Request(cid, intent), d.r.size);
    TouchesTo(d.r.iid, d1.a, a);
    ConcludeTakes(d1.(a := a), cid, out, d.r.state);
    assert NotAdopted(d.db, d1.db);
  }

  lemma ExitTakes(d: Desk, size: real, mark: real, now: int)
    requires Good(d)
    ensures Takes(d, Exit(d, size, mark, now))
  {
    hide Good, Takes, Send;
    SendTakes(d, ExitIntent(d.r.iid, size, mark), now);
  }

  lemma SameTakes(d: Desk, d2: Desk)
    requires d2.db.orders == d.db.orders
    ensures Takes(d, d2)
  {
  }

  lemma OnBarTakes(d: Desk, bar: BarInput, snap: AccountSnapshot, kill: Kill, categories: map<int, Category>,
                   pending: seq<Intent>, now: int)
    requires Good(d) && (bar.close.Some? ==> PriceOk(bar.close.value))
    ensures Takes(d, OnBar(d, bar, snap, kill, categories, pending, now))
  {
    hide Good, Takes, Send, EntryIntent, EntryRaises, Exit, Clamp;
    SameTakes(d, Skip(d));
    SameTakes(d, d);
    if !Pending(d.r.state) && !Frozen(d.r.state) && bar.close.Some? {
      var mark := bar.close.value;
      ExitTakes(d, d.r.size, mark, now);
      var intent := EntryIntent(d.r.iid, EntrySide(bar), mark, snap, categories, pending);
      EntryIntentShape(d.r.iid, EntrySide(bar), mark, snap, categories, pending);
      if intent.Some? { SendTakes(d, intent.value, now); }
    }
  }

  lemma OnFastTakes(d: Desk, mark: real, snap: AccountSnapshot, now: int)
    requires Good(d) && PriceOk(mark)
    ensures Takes(d, OnFast(d, mark, snap, now))
  {
    hide Good, Takes, Exit;
    SameTakes(d, d);
    SameTakes(d, SetState(d, Liquidated));
    ExitTakes(d, d.r.size, mark, now);
  }

  lemma ShutdownTakes(d: Desk, mark: real, held: real, now: int)
    requires Good(d)
    ensures Takes(d, Shutdown(d, mark, held, now))
  {
    hide Good, Exit;
    ExitTakes(d, held, mark, now);
  }

  lemma CheckPendingTakes(d: Desk, now: int)
    requires Good(d)
    ensures Takes(d, CheckPending(d, Snapshot(d.a), now))
  {
    hide Ok, AdoptAndSettle, Snapshot, OrdersWf, DecisionsWf, NumbersWf, RowWf;
    if CheckPending(d, Snapshot(d.a), now) != d {
      AdoptAndSettleEffect(d.(db := SetStatus(d.db, d.r.pendingCid.value, TimeoutAdopted)));
    }
  }

  lemma CalledTakes(w: World, m: Micro)
    requires Wf(w) && MicroOk(m) && IsCall(m) && m.iid in w.routers
    ensures Takes(DeskOf(w, m.iid), Called(w, m))
  {
    hide Wf, Good, Takes, OnBar, OnFast, CheckPending, Shutdown, Snapshot;
    DeskGood(w, m.iid);
    var d := DeskOf(w, m.iid);
    match m
    case BarCall(_, bar, snap, kill, pending, now) => OnBarTakes(d, bar, snap, kill, w.categories, pending, now);
    case FastCall(_, mark, liq, now) => OnFastTakes(d, mark, Snapshot(w.a).(inLiquidation := liq), now);
    case TimeoutCall(_, now) => CheckPendingTakes(d, now);
    case ShutdownCall(_, mark, now) => ShutdownTakes(d, mark, Size(w.a, m.iid), now);
    case HaltCall(_) => SameTakes(d, Halt(d));
    case Operator(_) => SameTakes(d, ClearHalt(d));
  }

  // ----- the invariant -----

  predicate GivenUpFill(ev: Event, db: Db) {
    ev.FillUpdate? && ev.cid in db.orders && GaveUp(db.orders[ev.cid].status)
  }

  /** No fill of a given-up order of instrument i is on its way. */
  ghost predicate NoGivenUpFill(q: seq<Event>, db: Db, i: int) {
    forall k :: 0 <= k < |q| && q[k].FillUpdate? && q[k].iid == i ==> !GivenUpFill(q[k], db)
  }

  /** No other fill of instrument i is on its way. */
  ghost predicate NoLiveFill(q: seq<Event>, db: Db, i: int) {
    forall k :: 0 <= k < |q| && q[k].FillUpdate? && q[k].iid == i ==> GivenUpFill(q[k], db)
  }

  ghost predicate Conserved(w: World) {
    forall i :: i in w.routers && NoGivenUpFill(w.a.queue, w.db, i) ==> w.routers[i].size == Lag(w.a, i)
  }

  lemma {:induction false} NothingQueued(q: seq<Event>, db: Db, i: int)
    requires NoGivenUpFill(q, db, i) && NoLiveFill(q, db, i)
    ensures Undelivered(q, i) == 0.0
  {
    if q != [] {
      forall k | 0 <= k < |q[1..]| && q[1..][k].FillUpdate? ensures q[1..][k].iid != i { assert q[1..][k] == q[k + 1]; }
      NothingQueued(q[1..], db, i);
      assert q[0].FillUpdate? ==> q[0].iid != i;
    }
  }

  /** A given-up order stays one, so what is free of given-up fills now was so before. */
  lemma FreeBefore(w: World, w2: World, i: int)
    requires Kept(w, w2) && w.a.queue <= w2.a.queue && NoGivenUpFill(w2.a.queue, w2.db, i)
    ensures NoGivenUpFill(w.a.queue, w.db, i)
  {
    forall k | 0 <= k < |w.a.queue| && w.a.queue[k].FillUpdate? && w.a.queue[k].iid == i ensures !GivenUpFill(w.a.queue[k], w.db) {
      assert w2.a.queue[k] == w.a.queue[k];
    }
  }

  /** The step takes the venue's size for router i: it ends an order by adoption, or delivers a fill of a given-up one. */
  ghost predicate AdoptsFor(w: World, m: Micro, i: int)
    requires MicroOk(m)
  {
    i in w.routers &&
    if IsCall(m) then m.iid == i && !NotAdopted(w.db, Act(w, m).db)
    else m.Pump? && w.a.queue != [] && w.a.queue[0].FillUpdate? && w.a.queue[0].iid == i && LateFill(DeskOf(w, i), w.a.queue[0].cid)
  }

  /** It does so with no live fill of the instrument on its way. */
  ghost predicate CleanStep(w: World, m: Micro)
    requires MicroOk(m)
  {
    forall i :: AdoptsFor(w, m, i) ==> NoLiveFill(Act(w, m).a.queue, Act(w, m).db, i)
  }

  lemma CallConserves(w: World, m: Micro)
    requires Wf(w) && Conserved(w) && Closed(m) && IsCall(m) && m.iid in w.routers && CleanStep(w, m)
    ensures Conserved(Act(w, m))
  {
    hide Wf, Calm, Step, Called, Takes, NotAdopted, NoGivenUpFill, NoLiveFill, Lag, Kept, Good, Touches, RowWf, PendingWf, NumbersWf,
      OrdersWf, DecisionsWf, DbKept;
    var w2 := Act(w, m);
    CalledSteps(w, m);
    CalledCalm(w, m);
    CalledTakes(w, m);
    ActWf(w, m);
    IidOf(w);
    var d, d2 := DeskOf(w, m.iid), Called(w, m);
    StepParts(d, d2);
    CallParts(d, d2);
    forall i | i in w2.routers && NoGivenUpFill(w2.a.queue, w2.db, i) ensures w2.routers[i].size == Lag(w2.a, i) {
      FreeBefore(w, w2, i);
      if i == m.iid && !NotAdopted(w.db, w2.db) {
        assert AdoptsFor(w, m, i);
        NothingQueued(w2.a.queue, w2.db, i);
        LagIs(w2.a, i);
      }
    }
  }

  lemma LagIs(a: Account, i: int)
    ensures Lag(a, i) == Size(a, i) - Undelivered(a.queue, i)
  {
  }

  lemma CallParts(d: Desk, d2: Desk)
    requires Touches(d.r.iid, d.a, d2.a) && Calm(d, d2) && Takes(d, d2)
    ensures d.a.queue <= d2.a.queue && forall j :: Lag(d2.a, j) == Lag(d.a, j)
    ensures NotAdopted(d.db, d2.db) ==> d2.r.size == d.r.size
    ensures !NotAdopted(d.db, d2.db) ==> d2.r.size == Size(d2.a, d.r.iid)
  {
    hide NotAdopted, Lag;
  }

  // ----- deliveries -----

  /** An order update moves no size and gives no order up. */
  lemma {:induction false} UpdateMovesNothing(w: World, ids: seq<int>, cid: Cid, s: OrderStatus)
    requires VenueStatus(s)
    ensures var w2 := UpdateAll(w, ids, cid, s);
      w2.a == w.a && (forall i :: i in w2.routers <==> i in w.routers)
      && (forall i :: i in w.routers ==> w2.routers[i].size == w.routers[i].size)
    decreases |ids|
  {
    if ids != [] {
      if ids[0] in w.routers {
        var d2 := HandleUpdate(DeskOf(w, ids[0]), cid, s);
        HandleUpdateQuiet(DeskOf(w, ids[0]), cid, s);
        UpdateMovesNothing(Put(w, ids[0], d2), ids[1..], cid, s);
      } else {
        UpdateMovesNothing(w, ids[1..], cid, s);
      }
    }
  }

  /** What a late fill leaves: the venue's size. */
  lemma LateFillTakes(d: Desk, ev: Event)
    requires ev.FillUpdate? && ev.iid == d.r.iid && LateFill(d, ev.cid) && Ok(d.a)
    ensures var d2 := HandleFill(d, ev);
      d2.r.size == Size(d.a, d.r.iid) && d2.a.queue == d.a.queue && forall j :: PosOf(d2.a, j) == PosOf(d.a, j)
  {
    hide Ok, AdoptAndSettle, Snapshot;
    var row := d.db.orders[ev.cid];
    AdoptAndSettleEffect(d.(db := d.db.(orders := d.db.orders[ev.cid := row.(filled := row.filled + ev.quantity)])));
  }

  /** So after a late fill router and venue agree, up to the fills still on their way, exactly when those sum to zero:
      each of them that is live will be added to a size that already holds it. */
  lemma LateFillAgreesExactly(d: Desk, ev: Event)
    requires ev.FillUpdate? && ev.iid == d.r.iid && LateFill(d, ev.cid) && Ok(d.a)
    ensures var d2 := HandleFill(d, ev);
      d2.r.size == Lag(d2.a, d.r.iid) <==> Undelivered(d.a.queue, d.r.iid) == 0.0
  {
    hide HandleFill, LateFill, Undelivered;
    LateFillTakes(d, ev);
  }

  lemma PumpConserves(w: World)
    requires Wf(w) && Conserved(w) && CleanStep(w, Pump)
    ensures Conserved(Act(w, Pump))
  {
    hide Wf, Dispatch, VenueStatus, NoGivenUpFill, NoLiveFill, Kept, Ok, LateFill;
    if w.a.queue != [] {
      var ev := w.a.queue[0];
      var w1 := w.(a := w.a.(queue := w.a.queue[1..]));
      var w2 := Act(w, Pump);
      ActWf(w, Pump);
      IidOf(w);
      WfOk(w);
      PopOk(w);
      if ev.OrderUpdate? {
        QueueHead(w);
        DispatchIs(w1, ev);
        UpdateMovesNothing(w1, w1.ids, ev.cid, ev.status);
        forall i | i in w2.routers && NoGivenUpFill(w2.a.queue, w2.db, i) ensures w2.routers[i].size == Lag(w2.a, i) {
          FreePopped(w, w2, i);
        }
      } else {
        FillPumpConserves(w, ev);
      }
    }
  }

  lemma PopOk(w: World)
    requires Ok(w.a) && w.a.queue != []
    ensures Ok(w.a.(queue := w.a.queue[1..]))
  {
  }

  /** The event taken off the queue was no given-up fill of i: the rest is free of them, so the whole queue was. */
  lemma FreePopped(w: World, w2: World, i: int)
    requires Kept(w, w2) && w.a.queue != [] && w2.a.queue == w.a.queue[1..] && NoGivenUpFill(w2.a.queue, w2.db, i)
    requires w.a.queue[0].FillUpdate? && w.a.queue[0].iid == i ==> !GivenUpFill(w.a.queue[0], w.db)
    ensures NoGivenUpFill(w.a.queue, w.db, i)
  {
    forall k | 0 <= k < |w.a.queue| && w.a.queue[k].FillUpdate? && w.a.queue[k].iid == i ensures !GivenUpFill(w.a.queue[k], w.db) {
      if k > 0 { assert w2.a.queue[k - 1] == w.a.queue[k]; }
    }
  }

  lemma FillPumpConserves(w: World, ev: Event)
    requires Wf(w) && Conserved(w) && CleanStep(w, Pump) && w.a.queue != [] && ev == w.a.queue[0] && ev.FillUpdate?
    requires (forall i :: i in w.routers ==> w.routers[i].iid == i) && Ok(w.a.(queue := w.a.queue[1..])) && Kept(w, Act(w, Pump))
    ensures Conserved(Act(w, Pump))
  {
    hide Wf, HandleFill, NoGivenUpFill, NoLiveFill, Kept, Ok, LateFill;
    var i0 := ev.iid;
    var w1 := w.(a := w.a.(queue := w.a.queue[1..]));
    var w2 := Act(w, Pump);
    if i0 in w.routers {
      var d := DeskOf(w1, i0);
      if LateFill(d, ev.cid) {
        LateFillTakes(d, ev);
        SameLate(DeskOf(w, i0), d, ev.cid);
        assert AdoptsFor(w, Pump, i0);
      } else {
        FillAdds(d, ev);
        SameLate(DeskOf(w, i0), d, ev.cid);
        NotLateNotGivenUp(w, ev);
      }
    }
    forall i | i in w2.routers && NoGivenUpFill(w2.a.queue, w2.db, i) ensures w2.routers[i].size == Lag(w2.a, i) {
      if i == i0 && LateFill(DeskOf(w1, i0), ev.cid) {
        NothingQueued(w2.a.queue, w2.db, i);
      } else {
        FreePopped(w, w2, i);
      }
    }
  }

  lemma SameLate(d: Desk, d2: Desk, cid: Cid)
    requires d2.r == d.r && d2.db == d.db
    ensures LateFill(d, cid) == LateFill(d2, cid)
  {
  }

  /** A pending order is not given up, so a fill that is not late belongs to no given-up order. */
  lemma NotLateNotGivenUp(w: World, ev: Event)
    requires Wf(w) && ev.FillUpdate? && ev.iid in w.routers && !LateFill(DeskOf(w, ev.iid), ev.cid)
    ensures !GivenUpFill(ev, w.db)
  {
    hide TablesWf, RowWf, NumbersWf;
    assert RouterWf(w, ev.iid);
  }

  lemma StopConserves(w: World, i: int)
    requires Wf(w) && Conserved(w)
    ensures Conserved(Act(w, StopFires(i)))
  {
    hide Wf, HandleFill, FireStop, Fires, PlainCash, NoGivenUpFill, Kept, StopFill, Ok;
    if Fires(w.a, i) {
      var ev := StopFill(w.a, i);
      var w1 := w.(a := FireStop(w.a, i));
      var w2 := Act(w, StopFires(i));
      IidOf(w);
      WfOk(w);
      ActWf(w, StopFires(i));
      FireStopEffect(w.a, i);
      StopFillIs(w.a, i);
      StopIdsUnrecorded(w, ev.cid);
      if i in w.routers { FillAdds(DeskOf(w1, i), ev); }
      forall j | j in w2.routers && NoGivenUpFill(w2.a.queue, w2.db, j) ensures w2.routers[j].size == Lag(w2.a, j) {
        FreeBefore(w, w2, j);
      }
    }
  }

  lemma StopFillIs(a: Account, i: int)
    requires Fires(a, i)
    ensures var ev := StopFill(a, i);
      ev.FillUpdate? && ev.iid == i && ev.cid.StopOrder? && Signed(ev.side, ev.quantity) == -Size(a, i) != 0.0
  {
    hide Fee;
  }

  lemma VenueConserves(w: World, m: Micro)
    requires Wf(w) && Conserved(w) && Admissible(m)
    requires m.Tick? || m.Fund? || m.Inject? || m.DropOrphan? || m.CancelOrder? || m.GuardPosition?
    ensures Conserved(Act(w, m))
  {
    hide Wf, FundingPaid, NoGivenUpFill, Kept, StopPrice;
    var w2 := Act(w, m);
    ActWf(w, m);
    forall j | j in w2.routers && NoGivenUpFill(w2.a.queue, w2.db, j) ensures w2.routers[j].size == Lag(w2.a, j) {
      FreeBefore(w, w2, j);
    }
  }

  lemma RestartConserves(w: World, now: int)
    requires StoreWf(w)
    ensures Conserved(RestartWorld(w, now))
  {
    hide RestartWorld, StoreWf, WasFrozen, RecoveredState;
    RestartEffect(w, now);
  }

  lemma ActConserves(w: World, m: Micro)
    requires Wf(w) && Conserved(w) && Closed(m) && CleanStep(w, m)
    ensures Conserved(Act(w, m))
  {
    hide Wf, Conserved, RestartWorld, GuardWorld, Dispatch, FireStop, Fires, StopFill, Called, CleanStep;
    if IsCall(m) {
      if m.iid in w.routers { CallConserves(w, m); }
    } else if m.Restart? {
      WfStore(w);
      RestartConserves(w, m.now);
    } else if m.Pump? {
      PumpConserves(w);
    } else if m.StopFires? {
      StopConserves(w, m.iid);
    } else {
      VenueConserves(w, m);
    }
  }

  // ----- whole runs -----

  /** Every adoption of the run comes with no live fill of its instrument on its way. */
  ghost predicate CleanAdoptions(w: World, ms: seq<Micro>)
    requires AllClosed(ms)
  {
    forall k :: 0 <= k < |ms| ==> MicroOk(ms[k]) && CleanStep(Prefix(w, ms, k), ms[k])
  }

  lemma StepIsClean(w: World, m: Micro)
    requires Wf(w) && FillsLive(w.a, w.db) && Closed(m) && NoneGivenUp(w.db, Act(w, m).db)
    ensures CleanStep(w, m)
  {
    hide Wf, NoLiveFill, Act, RowKept, DecisionsKept;
    ActWf(w, m);
    NoneAdopted(w, Act(w, m));
  }

  lemma NoneAdopted(w: World, w2: World)
    requires Kept(w, w2) && NoneGivenUp(w.db, w2.db)
    ensures NotAdopted(w.db, w2.db)
  {
  }

  /** Where no order is given up there is nothing to adopt, so what follows covers every run of SizeConservation. */
  lemma {:induction false} NothingGivenUpIsClean(w: World, ms: seq<Micro>)
    requires Wf(w) && Agree(w) && AllClosed(ms) && NoneGivenUp(w.db, Run(w, ms).db)
    ensures CleanAdoptions(w, ms)
  {
    hide Wf, Act, NoneGivenUp, Kept, CleanStep, Lag, FillsLive;
    if ms != [] {
      var n := |ms| - 1;
      assert ms[n] in ms && forall m :: m in ms[..n] ==> m in ms;
      RunWf(w, ms[..n]);
      ActWf(Run(w, ms[..n]), ms[n]);
      NoneGivenUpBefore(w, Run(w, ms[..n]), Run(w, ms));
      RunAgrees(w, ms[..n]);
      StepIsClean(Run(w, ms[..n]), ms[n]);
      NothingGivenUpIsClean(w, ms[..n]);
      forall k | 0 <= k < |ms| ensures MicroOk(ms[k]) && CleanStep(Prefix(w, ms, k), ms[k]) {
        assert ms[k] in ms;
        if k < n { assert ms[..n][..k] == ms[..k] && ms[..n][k] == ms[k]; }
      }
    }
  }

  lemma {:induction false} RunConserves(w: World, ms: seq<Micro>, k: nat)
    requires Wf(w) && Conserved(w) && AllClosed(ms) && CleanAdoptions(w, ms) && k <= |ms|
    ensures Wf(Prefix(w, ms, k)) && Conserved(Prefix(w, ms, k))
    decreases k
  {
    hide Wf, Conserved, CleanStep, MicroOk, Act, Run;
    if k == 0 {
      assert ms[..0] == [];
      NothingRuns(w);
    } else {
      RunConserves(w, ms, k - 1);
      NextPrefix(w, ms, k - 1);
      assert ms[k - 1] in ms;
      ActWf(Prefix(w, ms, k - 1), ms[k - 1]);
      ActConserves(Prefix(w, ms, k - 1), ms[k - 1]);
    }
  }

  /** Size conservation with orders given up. From any restart and over any run in which no adoption of an instrument
      comes while a live fill of it is on its way: whenever no fill of a given-up order of the instrument is on its
      way, its venue size is its router's size plus the signed sum of its undelivered fills. */
  lemma AdoptionsConserveSize(w: World, start: int, ms: seq<Micro>, i: int)
    requires StoreWf(w) && AllClosed(ms) && i in w.ids && CleanAdoptions(RestartWorld(w, start), ms)
    ensures var w2 := Run(RestartWorld(w, start), ms);
      && i in w2.routers
      && (NoGivenUpFill(w2.a.queue, w2.db, i) ==> Size(w2.a, i) == w2.routers[i].size + Undelivered(w2.a.queue, i))
  {
    hide RestartWorld, Run, StoreWf, RouterWf, TablesWf, CleanAdoptions, NoGivenUpFill;
    var w1 := RestartWorld(w, start);
    RestartWf(w, start);
    RestartConserves(w, start);
    RunConserves(w1, ms, |ms|);
    assert ms[..|ms|] == ms;
    RunWf(w1, ms);
  }
}
