/** The portfolio's entry points as sequences of router calls, and what two shutdown bars achieve. */
module Portfolio {
  import opened Types
  import opened Guards
  import opened Sim
  import opened SimLaws
  import opened Routing
  import opened Delivery
  import opened Discipline
  import opened Runtime
  import opened Runs
  import opened Recovery
  import opened Conservation
  import opened Freezing

  // ----- the loops -----

  /** The price a shutdown exit is valued at: the bar's close, else the venue's mark, else the entry. */
  function ShutdownMark(w: World, i: int, closes: map<int, real>): real {
    if i in closes then closes[i]
    else if Size(w.a, i) != 0.0 then MarkOf(w.a, i)
    else if i in w.routers && w.routers[i].entry.Some? then w.routers[i].entry.value else 0.0
  }

  /** A shutdown bar calls every router, whichever bar closed. */
  function ShutdownPlan(w: World, ids: seq<int>, closes: map<int, real>, now: int): seq<Micro> {
    if ids == [] then []
    else
      var i := ids[|ids| - 1];
      ShutdownPlan(w, ids[..|ids| - 1], closes, now) + [ShutdownCall(i, ShutdownMark(w, i, closes), now)]
  }

  function ShutdownBar(w: World, closes: map<int, real>, now: int): World {
    var plan := ShutdownPlan(w, w.ids, closes, now);
    PlanIsCalls(w, w.ids, closes, now);
    Run(w, plan)
  }

  lemma {:induction false} PlanIsCalls(w: World, ids: seq<int>, closes: map<int, real>, now: int)
    ensures forall m :: m in ShutdownPlan(w, ids, closes, now) ==> m.ShutdownCall? && m.iid in ids
  {
    if ids != [] {
      PlanIsCalls(w, ids[..|ids| - 1], closes, now);
      assert ids == ids[..|ids| - 1] + [ids[|ids| - 1]];
    }
  }

  /** One instrument's history as the bar cycle reads it. */
  datatype BarEvent = BarEvent(iid: int, bar: BarInput)

  predicate Priced(e: BarEvent) {
    e.bar.close.Some? ==> PriceOk(e.bar.close.value)
  }

  /** The entry a router has in flight, as the other routers' guards count it. */
  predicate InFlight(r: Router) {
    r.state == EntryPending && r.pendingIntent.Some?
  }

  /** Entries in flight on every other instrument. */
  function PendingOthers(w: World, ids: seq<int>, i: int): seq<Intent> {
    if ids == [] then []
    else
      (if ids[0] != i && ids[0] in w.routers && InFlight(w.routers[ids[0]]) then [w.routers[ids[0]].pendingIntent.value] else [])
      + PendingOthers(w, ids[1..], i)
  }

  /** The call one history causes, given what is in flight by then. */
  function BarMicro(w: World, e: BarEvent, snap: AccountSnapshot, kill: Kill, now: int): (m: Micro)
    requires Priced(e)
    ensures MicroOk(m)
  {
    BarCall(e.iid, e.bar, snap, kill, PendingOthers(w, w.ids, e.iid), now)
  }

  /** The guards raise on this history, which ends the loop. */
  predicate EventRaises(w: World, e: BarEvent, snap: AccountSnapshot, kill: Kill)
    requires Priced(e)
  {
    e.iid in w.routers && BarRaises(w.routers[e.iid], e.bar, snap, kill, w.categories, PendingOthers(w, w.ids, e.iid))
  }

  /** The bar loop: one snapshot at the start, the entries in flight recomputed for every router. */
  function OnBarLoop(w: World, events: seq<BarEvent>, snap: AccountSnapshot, kill: Kill, now: int): World
    requires forall e :: e in events ==> Priced(e)
    decreases |events|
  {
    if events == [] then w
    else
      assert events[0] in events;
      if EventRaises(w, events[0], snap, kill) then w
      else OnBarLoop(Act(w, BarMicro(w, events[0], snap, kill, now)), events[1..], snap, kill, now)
  }

  function PortfolioOnBar(w: World, events: seq<BarEvent>, kill: Kill, now: int): World
    requires forall e :: e in events ==> Priced(e)
  {
    OnBarLoop(w, events, Snapshot(w.a), kill, now)
  }

  function OnBarPlan(w: World, events: seq<BarEvent>, snap: AccountSnapshot, kill: Kill, now: int): seq<Micro>
    requires forall e :: e in events ==> Priced(e)
    decreases |events|
  {
    if events == [] then []
    else
      assert events[0] in events;
      var m := BarMicro(w, events[0], snap, kill, now);
      if EventRaises(w, events[0], snap, kill) then [] else [m] + OnBarPlan(Act(w, m), events[1..], snap, kill, now)
  }

  lemma {:induction false} RunFromFront(w: World, m: Micro, ms: seq<Micro>)
    requires MicroOk(m) && forall x :: x in ms ==> MicroOk(x)
    ensures (forall x :: x in [m] + ms ==> MicroOk(x)) && Run(w, [m] + ms) == Run(Act(w, m), ms)
  {
    hide Act, MicroOk;
    var all := [m] + ms;
    if ms == [] {
      assert all == [m];
      assert all[..0] == [];
    } else {
      var n := |ms| - 1;
      RunFromFront(w, m, ms[..n]);
      assert all[..|all| - 1] == [m] + ms[..n];
    }
  }

  /** A call that raises leaves the world as it found it. */
  lemma NothingRaised(w: World, e: BarEvent, snap: AccountSnapshot, kill: Kill, now: int)
    requires Priced(e) && EventRaises(w, e, snap, kill)
    ensures Put(w, e.iid, OnBar(DeskOf(w, e.iid), e.bar, snap, kill, w.categories, PendingOthers(w, w.ids, e.iid), now)) == w
  {
    hide EntryRaises, PendingOthers;
    assert w.routers[e.iid := w.routers[e.iid]] == w.routers;
  }

  /** A portfolio bar is a run of router calls, so every statement about runs holds of it. */
  lemma {:induction false} OnBarIsRun(w: World, events: seq<BarEvent>, snap: AccountSnapshot, kill: Kill, now: int)
    requires forall e :: e in events ==> Priced(e)
    ensures forall m :: m in OnBarPlan(w, events, snap, kill, now) ==> m.BarCall? && MicroOk(m) && Closed(m)
    ensures OnBarLoop(w, events, snap, kill, now) == Run(w, OnBarPlan(w, events, snap, kill, now))
    decreases |events|
  {
    hide Act, EventRaises;
    if events != [] && !EventRaises(w, events[0], snap, kill) {
      assert events[0] in events;
      var m := BarMicro(w, events[0], snap, kill, now);
      OnBarIsRun(Act(w, m), events[1..], snap, kill, now);
      RunFromFront(w, m, OnBarPlan(Act(w, m), events[1..], snap, kill, now));
    }
  }

  // ----- one shutdown call -----

  predicate NoFailures(a: Account) {
    a.failNext == None && a.failQueue == []
  }

  /** Without injected failures a reduce-only order for the whole position closes it, whatever size the router
      believed. */
  lemma FlattenAcked(a: Account, cid: Cid, mark: real, believed: real)
    requires Ok(a) && NoFailures(a) && cid.Ours? && Size(a, cid.iid) != 0.0
    ensures var req := Request(cid, ExitIntent(cid.iid, Size(a, cid.iid), mark));
      var (b, out) := SubmitWithRecovery(a, req, believed);
      Size(b, cid.iid) == 0.0 && out == Acked && NoFailures(b)
  {
    hide Cents, Submit, Ok, Snapshot;
    var req := Request(cid, ExitIntent(cid.iid, Size(a, cid.iid), mark));
    HeldHasMark(a, cid.iid);
    SubmitExecutes(a, req);
    SubmitKeepsScript(a, req);
  }

  lemma HeldHasMark(a: Account, i: int)
    requires Ok(a) && Size(a, i) != 0.0
    ensures i in a.marks
  {
  }

  lemma SubmitKeepsScript(a: Account, req: OrderRequest)
    requires NoFailures(a)
    ensures NoFailures(Submit(a, req).0)
  {
    hide Book, Fee;
  }

  /** A halted router's shutdown call flattens its venue position; a router that was never liquidated ends halted. */
  lemma ShutdownFlattens(d: Desk, mark: real, now: int)
    requires Good(d) && NoFailures(d.a) && d.r.state != Liquidated
    ensures var d2 := Shutdown(d, mark, Size(d.a, d.r.iid), now);
      && d2.r.state == Halted && NoFailures(d2.a) && d2.r.iid == d.r.iid
      && (!Pending(d.r.state) ==> Size(d2.a, d.r.iid) == 0.0)
  {
    hide SubmitWithRecovery, Cents, Ok, OrdersWf, DecisionsWf, NumbersWf, PendingWf, RowWf;
    var held := Size(d.a, d.r.iid);
    if held != 0.0 && !Pending(d.r.state) {
      FlattenAcked(d.a, Ours(d.r.iid, d.r.num + 1), mark, d.r.size);
    }
  }

  ghost predicate NeverLiquidated(w: World) {
    forall i :: i in w.routers ==> w.routers[i].state != Liquidated
  }

  /** After the first k routers were called: they are halted, and those that were not pending are flat. */
  lemma {:induction false} PlanShuts(w: World, w0: World, ids: seq<int>, closes: map<int, real>, now: int)
    requires Wf(w) && NoFailures(w.a) && NeverLiquidated(w) && Distinct(ids) && (forall i :: i in ids ==> i in w.routers)
    ensures forall m :: m in ShutdownPlan(w0, ids, closes, now) ==> MicroOk(m)
    ensures var w2 := Run(w, ShutdownPlan(w0, ids, closes, now));
      && Wf(w2) && NoFailures(w2.a) && NeverLiquidated(w2) && w2.ids == w.ids
      && (forall i :: i in w2.routers <==> i in w.routers)
      && (forall i :: i in ids ==> w2.routers[i].state == Halted && (!Pending(w.routers[i].state) ==> Size(w2.a, i) == 0.0))
      && (forall i :: i in w.routers && i !in ids ==> w2.routers[i] == w.routers[i] && Size(w2.a, i) == Size(w.a, i))
  {
    hide Wf, Shutdown, Step, Good, Touches, ShutdownMark, NoFailures, DbKept, OrdersWf, DecisionsWf, NumbersWf, PendingWf, RowWf, Ok;
    PlanIsCalls(w0, ids, closes, now);
    if ids != [] {
      var n := |ids| - 1;
      var i := ids[n];
      assert ids == ids[..n] + [i];
      PlanShuts(w, w0, ids[..n], closes, now);
      var plan := ShutdownPlan(w0, ids[..n], closes, now);
      var m := ShutdownCall(i, ShutdownMark(w0, i, closes), now);
      var w1 := Run(w, plan);
      assert (plan + [m])[..|plan|] == plan;
      DeskGood(w1, i);
      var d := DeskOf(w1, i);
      ShutdownFlattens(d, m.mark, now);
      ShutdownSteps(d, m.mark, Size(w1.a, i), now);
      var d2 := Shutdown(d, m.mark, Size(w1.a, i), now);
      StepParts(d, d2);
      PutWf(w1, i, d2);
      TouchedSizes(i, w1.a, d2.a);
      assert Run(w, plan + [m]) == Put(w1, i, d2);
    }
  }

  lemma TouchedSizes(i: int, a: Account, b: Account)
    requires Touches(i, a, b)
    ensures forall j :: j != i ==> Size(b, j) == Size(a, j)
  {
  }

  /** One shutdown bar halts every router; the ones not waiting for an order are flat on the venue at once. */
  lemma ShutdownBarHalts(w: World, closes: map<int, real>, now: int)
    requires Wf(w) && NoFailures(w.a) && NeverLiquidated(w)
    ensures var w2 := ShutdownBar(w, closes, now);
      && Wf(w2)
      && (forall i :: i in w2.routers <==> i in w.routers)
      && (forall i :: i in w2.routers ==> w2.routers[i].state == Halted)
      && (forall i :: i in w.routers && !Pending(w.routers[i].state) ==> Size(w2.a, i) == 0.0)
  {
    hide Shutdown, ShutdownPlan, NoFailures, RouterWf, TablesWf;
    TablesOf(w);
    PlanShuts(w, w, w.ids, closes, now);
  }

  lemma TablesOf(w: World)
    requires Wf(w)
    ensures Distinct(w.ids) && forall i :: i in w.ids <==> i in w.routers
  {
  }

  // ----- staying flat -----

  lemma HaltedStaysFlat(w: World, m: Micro, i: int)
    requires Wf(w) && Closed(m) && m != Operator(i)
    requires i in w.routers && w.routers[i].state == Halted && Size(w.a, i) == 0.0
    ensures Size(Act(w, m).a, i) == 0.0
  {
    hide Wf, RestartWorld, FireStop, PlainCash, Ok, Step, Touches, OnBar, OnFast, CheckPending, Shutdown, Dispatch,
      DbKept, OrdersWf, DecisionsWf, NumbersWf, PendingWf, RowWf, FundingPaid, GuardWorld, HandleFill;
    IidOf(w);
    WfOk(w);
    if IsCall(m) {
      if m.iid in w.routers {
        CalledSteps(w, m);
        StepParts(DeskOf(w, m.iid), Called(w, m));
        if m.iid == i { FlatCall(w, m); } else { TouchedSizes(m.iid, w.a, Called(w, m).a); }
      }
    } else if m.Restart? {
      WfStore(w);
      RestartSizes(w, m.now);
    } else if m.Pump? {
      if w.a.queue != [] { DispatchSizes(w.(a := w.a.(queue := w.a.queue[1..])), w.a.queue[0]); }
    } else if m.StopFires? {
      if Fires(w.a, m.iid) {
        FireStopEffect(w.a, m.iid);
        DispatchSizes(w.(a := FireStop(w.a, m.iid)), StopFill(w.a, m.iid));
      }
    } else if m.GuardPosition? {
      GuardSizes(w, m.iid);
    }
  }

  lemma GuardSizes(w: World, j: int)
    ensures forall i :: Size(GuardWorld(w, j).a, i) == Size(w.a, i)
  {
  }

  lemma RestartSizes(w: World, now: int)
    requires StoreWf(w)
    ensures forall i :: Size(RestartWorld(w, now).a, i) == Size(w.a, i)
  {
    hide RestartWorld, StoreWf;
    RestartEffect(w, now);
  }

  /** A halted router of a flat instrument sends nothing. */
  lemma FlatCall(w: World, m: Micro)
    requires MicroOk(m) && IsCall(m) && !m.Operator? && m.iid in w.routers
    requires w.routers[m.iid].state == Halted && Size(w.a, m.iid) == 0.0
    ensures Size(Called(w, m).a, m.iid) == 0.0
  {
    hide Snapshot, Send;
  }

  /** Handling events may write stops, never positions. */
  lemma DispatchSizes(w: World, ev: Event)
    ensures forall i :: Size(Dispatch(w, ev).a, i) == Size(w.a, i)
  {
    hide HandleFill, UpdateAll;
    if ev.OrderUpdate? {
      UpdateAllPositions(w, w.ids, ev.cid, ev.status);
    } else if ev.iid in w.routers {
      HandleFillPositions(DeskOf(w, ev.iid), ev);
    }
  }

  lemma {:induction false} UpdateAllPositions(w: World, ids: seq<int>, cid: Cid, s: OrderStatus)
    ensures UpdateAll(w, ids, cid, s).a == w.a
    decreases |ids|
  {
    if ids != [] {
      UpdateAllPositions(if ids[0] in w.routers then Put(w, ids[0], HandleUpdate(DeskOf(w, ids[0]), cid, s)) else w,
                         ids[1..], cid, s);
    }
  }

  lemma HandleFillPositions(d: Desk, ev: Event)
    requires ev.FillUpdate?
    ensures HandleFill(d, ev).a.pos == d.a.pos
  {
    hide FillEntry, StopPrice, RecordFill, AdoptAndSettle;
    if ev.iid == d.r.iid && LateFill(d, ev.cid) {
      var row := d.db.orders[ev.cid];
      AdoptPositions(d.(db := d.db.(orders := d.db.orders[ev.cid := row.(filled := row.filled + ev.quantity)])), Snapshot(d.a));
    }
  }

  lemma AdoptPositions(d: Desk, snap: AccountSnapshot)
    ensures AdoptAndSettle(d, snap).a.pos == d.a.pos
  {
    hide VenueStop, Find;
  }

  lemma {:induction false} RunStaysFlat(w: World, ms: seq<Micro>, i: int)
    requires Wf(w) && AllClosed(ms) && Operator(i) !in ms
    requires i in w.routers && w.routers[i].state == Halted && Size(w.a, i) == 0.0
    ensures Size(Run(w, ms).a, i) == 0.0
  {
    hide Wf, Act;
    if ms != [] {
      var n := |ms| - 1;
      assert forall m :: m in ms[..n] ==> m in ms;
      RunStaysFlat(w, ms[..n], i);
      RunWf(w, ms[..n]);
      FrozenIsAbsorbing(w, ms[..n], i);
      HaltedStaysFlat(Run(w, ms[..n]), ms[n], i);
    }
  }

  // ----- the simulated venue never liquidates -----

  ghost predicate Unliquidating(ms: seq<Micro>) {
    forall m :: m in ms ==> Closed(m) && (m.FastCall? ==> !m.liquidating)
  }

  lemma SendNotLiquidated(d: Desk, intent: Intent, now: int)
    requires d.r.state != Liquidated
    ensures Send(d, intent, now).r.state != Liquidated
  {
    hide SubmitWithRecovery, Snapshot, Find, VenueStop;
  }

  lemma CalledNotLiquidated(w: World, m: Micro)
    requires MicroOk(m) && IsCall(m) && m.iid in w.routers && w.routers[m.iid].state != Liquidated
    requires m.FastCall? ==> !m.liquidating
    ensures Called(w, m).r.state != Liquidated
  {
    hide Send, EntryIntent, Snapshot, Adopt;
    var d := DeskOf(w, m.iid);
    if m.BarCall? && m.bar.close.Some? {
      var mark := m.bar.close.value;
      SendNotLiquidated(d, ExitIntent(d.r.iid, d.r.size, mark), m.now);
      var intent := EntryIntent(d.r.iid, EntrySide(m.bar), mark, m.snap, w.categories, m.pending);
      if intent.Some? { SendNotLiquidated(d, intent.value, m.now); }
    }
    if m.FastCall? { SendNotLiquidated(d, ExitIntent(d.r.iid, d.r.size, m.mark), m.now); }
    if m.TimeoutCall? { AdoptState(d, Snapshot(w.a), m.now); }
  }

  lemma AdoptState(d: Desk, snap: AccountSnapshot, now: int)
    requires d.r.state != Liquidated
    ensures CheckPending(d, snap, now).r.state != Liquidated
  {
    hide VenueStop, Find;
  }

  lemma EventNotLiquidated(d: Desk, ev: Event)
    requires d.r.state != Liquidated
    ensures HandleEvent(d, ev).r.state != Liquidated
  {
    hide VenueStop, Find, FillEntry, StopPrice, RecordFill, Views, Equity;
  }

  lemma {:induction false} UpdateAllNotLiquidated(w: World, ids: seq<int>, cid: Cid, s: OrderStatus)
    requires NeverLiquidated(w)
    ensures NeverLiquidated(UpdateAll(w, ids, cid, s))
    decreases |ids|
  {
    if ids != [] {
      UpdateAllNotLiquidated(if ids[0] in w.routers then Put(w, ids[0], HandleUpdate(DeskOf(w, ids[0]), cid, s)) else w,
                             ids[1..], cid, s);
    }
  }

  lemma DispatchNotLiquidated(w: World, ev: Event)
    requires NeverLiquidated(w)
    ensures NeverLiquidated(Dispatch(w, ev))
  {
    hide HandleFill, UpdateAll;
    if ev.OrderUpdate? {
      UpdateAllNotLiquidated(w, w.ids, ev.cid, ev.status);
    } else if ev.iid in w.routers {
      FillNotLiquidated(DeskOf(w, ev.iid), ev);
    }
  }

  lemma FillNotLiquidated(d: Desk, ev: Event)
    requires d.r.state != Liquidated && ev.FillUpdate?
    ensures HandleFill(d, ev).r.state != Liquidated
  {
    hide HandleFill;
    EventNotLiquidated(d, ev);
    HandleIsFill(d, ev);
  }

  lemma HandleIsFill(d: Desk, ev: Event)
    requires ev.FillUpdate?
    ensures HandleEvent(d, ev) == HandleFill(d, ev)
  {
    hide HandleFill;
  }

  lemma RestartNotLiquidated(w: World, now: int)
    requires Wf(w) && NeverLiquidated(w) && w.a.resting == []
    ensures NeverLiquidated(RestartWorld(w, now))
  {
    hide Wf, RestartWorld, Ok;
    WfStore(w);
    TablesOf(w);
    RestartEffect(w, now);
    forall i | i in RestartWorld(w, now).routers ensures RestartWorld(w, now).routers[i].state != Liquidated {
      RowOfRouter(w, i);
    }
  }

  lemma ActNotLiquidated(w: World, m: Micro)
    requires Wf(w) && NeverLiquidated(w) && w.a.resting == [] && Closed(m) && (m.FastCall? ==> !m.liquidating)
    ensures NeverLiquidated(Act(w, m)) && Act(w, m).a.resting == []
  {
    hide Wf, RestartWorld, FireStop, Dispatch, Ok, Step, Called, GuardWorld, Fires, StopFill, Touches, HandleFill, UpdateAll;
    if IsCall(m) {
      if m.iid in w.routers {
        CalledSteps(w, m);
        CalledNotLiquidated(w, m);
        StepParts(DeskOf(w, m.iid), Called(w, m));
        TouchedResting(w.routers[m.iid].iid, w.a, Called(w, m).a);
      }
    } else if m.Restart? {
      WfStore(w);
      RestartNotLiquidated(w, m.now);
      RestartResting(w, m.now);
    } else if m.Pump? {
      if w.a.queue != [] {
        var w1 := w.(a := w.a.(queue := w.a.queue[1..]));
        DispatchNotLiquidated(w1, w.a.queue[0]);
        DispatchResting(w1, w.a.queue[0]);
      }
    } else if m.StopFires? {
      if Fires(w.a, m.iid) {
        var w1 := w.(a := FireStop(w.a, m.iid));
        FiredResting(w.a, m.iid);
        DispatchNotLiquidated(w1, StopFill(w.a, m.iid));
        DispatchResting(w1, StopFill(w.a, m.iid));
      }
    } else {
      QuietMicro(w, m);
    }
  }

  lemma QuietMicro(w: World, m: Micro)
    requires NeverLiquidated(w) && w.a.resting == [] && Closed(m) && !IsCall(m) && !m.Restart? && !m.Pump? && !m.StopFires?
    ensures NeverLiquidated(Act(w, m)) && Act(w, m).a.resting == []
  {
    hide FundingPaid, StopPrice;
  }

  lemma TouchedResting(i: int, a: Account, b: Account)
    requires Touches(i, a, b)
    ensures b.resting == a.resting
  {
  }

  lemma RestartResting(w: World, now: int)
    requires StoreWf(w) && w.a.resting == []
    ensures RestartWorld(w, now).a.resting == []
  {
    hide RestartWorld, StoreWf;
    RestartEffect(w, now);
  }

  lemma FiredResting(a: Account, i: int)
    requires Fires(a, i)
    ensures FireStop(a, i).resting == a.resting
  {
    hide Fee, Book;
  }

  lemma DispatchResting(w: World, ev: Event)
    ensures Dispatch(w, ev).a.resting == w.a.resting
  {
    hide HandleFill, UpdateAll;
    if ev.OrderUpdate? {
      UpdateAllPositions(w, w.ids, ev.cid, ev.status);
    } else if ev.iid in w.routers {
      HandleFillResting(DeskOf(w, ev.iid), ev);
    }
  }

  lemma HandleFillResting(d: Desk, ev: Event)
    requires ev.FillUpdate?
    ensures HandleFill(d, ev).a.resting == d.a.resting
  {
    hide FillEntry, StopPrice, RecordFill, VenueStop, Find, Views, Equity;
  }

  /** On the simulated venue, which never reports a liquidation, no run makes a router liquidated. */
  lemma {:induction false} SimNeverLiquidates(w: World, ms: seq<Micro>)
    requires Wf(w) && NeverLiquidated(w) && w.a.resting == [] && Unliquidating(ms)
    ensures Wf(Run(w, ms)) && NeverLiquidated(Run(w, ms)) && Run(w, ms).a.resting == []
  {
    hide Wf, Act, NeverLiquidated;
    if ms != [] {
      var n := |ms| - 1;
      assert forall m :: m in ms[..n] ==> m in ms;
      SimNeverLiquidates(w, ms[..n]);
      assert Closed(ms[n]);
      RunWf(w, ms[..n]);
      ActWf(Run(w, ms[..n]), ms[n]);
      ActNotLiquidated(Run(w, ms[..n]), ms[n]);
    }
  }

  /** Shutdown drains. From any sound state with no liquidated router - entries in flight included - a shutdown
      bar, any unattended closed run, and a second shutdown bar with no failure injected at either bar leave every
      routed instrument flat on the venue and every router halted, and through every later closed run without an
      operator clear of the instrument it stays flat and halted. */
  lemma ShutdownDrains(w: World, closes: map<int, real>, now: int, between: seq<Micro>,
                       closes2: map<int, real>, now2: int, after: seq<Micro>, i: int)
    requires Wf(w) && NoFailures(w.a) && NeverLiquidated(w) && i in w.routers
    requires AllClosed(between) && (forall m :: m in between ==> !m.Operator?)
    requires NoFailures(Run(ShutdownBar(w, closes, now), between).a)
    requires AllClosed(after) && Operator(i) !in after
    ensures var w2 := ShutdownBar(Run(ShutdownBar(w, closes, now), between), closes2, now2);
      && Wf(w2) && i in w2.routers && Size(w2.a, i) == 0.0 && w2.routers[i].state == Halted
      && i in Run(w2, after).routers && Run(w2, after).routers[i].state == Halted && Size(Run(w2, after).a, i) == 0.0
  {
    hide Wf, ShutdownBar, NoFailures, Run;
    ShutdownBarHalts(w, closes, now);
    var w1 := ShutdownBar(w, closes, now);
    var mid := Run(w1, between);
    RunWf(w1, between);
    KeepsRouters(w1, between);
    forall j | j in mid.routers ensures mid.routers[j].state == Halted {
      FrozenIsAbsorbing(w1, between, j);
    }
    ShutdownBarHalts(mid, closes2, now2);
    var w2 := ShutdownBar(mid, closes2, now2);
    RunStaysFlat(w2, after, i);
    FrozenIsAbsorbing(w2, after, i);
  }

  lemma KeepsRouters(w: World, ms: seq<Micro>)
    requires Wf(w) && AllAdmissible(ms)
    ensures forall j :: j in Run(w, ms).routers <==> j in w.routers
  {
    hide RouterWf, TablesWf;
    RunWf(w, ms);
  }
}
