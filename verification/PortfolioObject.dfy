/** The portfolio as an object over its router objects, the venue and the database. Each entry point is a loop of
    router calls under one snapshot, proved to move the world as the portfolio functions say. */
module PortfolioObject {
  import opened Types
  import opened Guards
  import opened Sim
  import opened SimVenue
  import opened Routing
  import opened RouterObject
  import opened Runtime
  import opened Portfolio
  import opened Scheduling
  import opened Reconciliation

  class Trader {
    const ids: seq<int>
    const routers: map<int, InstrumentRouter>
    const executor: SimExecutor
    const db: Database
    const categories: map<int, Category>

    /** Every routed instrument has its own router, and all of them share one venue and one database. */
    ghost predicate Valid() {
      && (forall i :: i in ids <==> i in routers)
      && (forall i :: i in routers ==>
            routers[i].iid == i && routers[i].executor == executor && routers[i].db == db && routers[i].categories == categories)
    }

    ghost function View(): World
      reads routers.Values, executor, db
    {
      World(ids, map i | i in routers :: routers[i].Fields(), executor.View(), db.View(), categories)
    }

    constructor (ids: seq<int>, routers: map<int, InstrumentRouter>, executor: SimExecutor, db: Database, categories: map<int, Category>)
      requires forall i :: i in ids <==> i in routers
      requires forall i :: i in routers ==>
        routers[i].iid == i && routers[i].executor == executor && routers[i].db == db && routers[i].categories == categories
      ensures Valid() && this.ids == ids && this.routers == routers && this.executor == executor && this.db == db
    {
      this.ids, this.routers, this.executor, this.db, this.categories := ids, routers, executor, db, categories;
    }

    // ----- one router's turn -----

    method UpdateOne(i: int, cid: Cid, s: OrderStatus)
      requires Valid() && i in routers
      modifies routers[i], db
      ensures View() == Put(old(View()), i, HandleUpdate(DeskOf(old(View()), i), cid, s))
    {
      hide HandleUpdate;
      ghost var w := View();
      routers[i].OnUpdate(cid, s);
      Turned(w, View(), i, routers[i].View());
    }

    method FillOne(i: int, ev: Event)
      requires Valid() && i in routers && ev.FillUpdate?
      modifies routers[i], executor, db
      ensures View() == Put(old(View()), i, HandleFill(DeskOf(old(View()), i), ev))
    {
      hide HandleFill;
      ghost var w := View();
      routers[i].OnFill(ev);
      Turned(w, View(), i, routers[i].View());
    }

    method BarOne(i: int, bar: BarInput, snap: AccountSnapshot, kill: Kill, pending: seq<Intent>, now: int) returns (raised: bool)
      requires Valid() && i in routers && (bar.close.Some? ==> PriceOk(bar.close.value))
      modifies routers[i], executor, db
      ensures View() == Put(old(View()), i, OnBar(DeskOf(old(View()), i), bar, snap, kill, categories, pending, now))
      ensures raised == BarRaises(old(View()).routers[i], bar, snap, kill, categories, pending)
    {
      hide OnBar, BarRaises;
      ghost var w := View();
      raised := routers[i].BarClosed(bar, snap, kill, pending, now);
      Turned(w, View(), i, routers[i].View());
    }

    method CheckOne(i: int, snap: AccountSnapshot, now: int)
      requires Valid() && i in routers
      modifies routers[i], executor, db
      ensures View() == Put(old(View()), i, CheckPending(DeskOf(old(View()), i), snap, now))
    {
      hide CheckPending;
      ghost var w := View();
      routers[i].CheckTimeout(snap, now);
      Turned(w, View(), i, routers[i].View());
    }

    method FastOne(i: int, mark: real, snap: AccountSnapshot, now: int)
      requires Valid() && i in routers && PriceOk(mark)
      modifies routers[i], executor, db
      ensures View() == Put(old(View()), i, OnFast(DeskOf(old(View()), i), mark, snap, now))
    {
      hide OnFast;
      ghost var w := View();
      routers[i].FastTick(mark, snap, now);
      Turned(w, View(), i, routers[i].View());
    }

    method ShutOne(i: int, mark: real, held: real, now: int)
      requires Valid() && i in routers
      modifies routers[i], executor, db
      ensures View() == Put(old(View()), i, Shutdown(DeskOf(old(View()), i), mark, held, now))
    {
      hide Shutdown;
      ghost var w := View();
      routers[i].ShutDown(mark, held, now);
      Turned(w, View(), i, routers[i].View());
    }

    method HaltOne(i: int)
      requires Valid() && i in routers
      modifies routers[i], db
      ensures View() == Put(old(View()), i, Halt(DeskOf(old(View()), i)))
    {
      hide Halt;
      ghost var w := View();
      routers[i].HaltNow();
      Turned(w, View(), i, routers[i].View());
    }

    method AdoptOne(i: int, cid: Cid, s: State, now: int)
      requires Valid() && i in routers && Pending(s)
      modifies routers[i], db
      ensures View() == Put(old(View()), i, AdoptPending(DeskOf(old(View()), i), cid, s, now))
    {
      hide AdoptPending;
      ghost var w := View();
      var ok := routers[i].AdoptPendingOrder(cid, s, now);
      Turned(w, View(), i, routers[i].View());
    }

    /** A venue position without a venue stop gets one, and its router, if any, records it. */
    method GuardOne(i: int, pos: PositionView)
      requires Valid() && i !in executor.stops && Size(executor.View(), i) != 0.0 && pos == Sim.View(executor.View(), i)
      modifies routers.Values, executor, db
      ensures View() == GuardWorld(old(View()), i)
    {
      hide StopPrice, LiquidationPrice;
      var trigger := StopPrice(pos.size > 0.0, pos.entry);
      executor.SetStop(i, trigger);
      ghost var w := View();
      assert w.routers == old(View()).routers;
      if i in routers {
        routers[i].NoteStop(trigger);
        Turned(w, View(), i, routers[i].View());
      }
    }

    // ----- events -----

    /** A fill goes to its instrument's router, an order update to every router in turn. */
    method DispatchEvent(ev: Event)
      requires Valid()
      modifies routers.Values, executor, db
      ensures View() == Dispatch(old(View()), ev)
    {
      hide HandleFill, HandleUpdate;
      match ev
      case FillUpdate(_, i, _, _, _, _) =>
        if i in routers { FillOne(i, ev); }
      case OrderUpdate(cid, s, _) =>
        for k := 0 to |ids|
          invariant UpdateAll(View(), ids[k..], cid, s) == UpdateAll(old(View()), ids, cid, s)
        {
          assert ids[k..][0] == ids[k] && ids[k..][1..] == ids[k + 1..] && ids[k] in ids;
          UpdateOne(ids[k], cid, s);
        }
        assert ids[|ids|..] == [];
    }

    // ----- the bar loop -----

    /** Entries in flight on the other instruments, read off the router objects. */
    method EntriesInFlight(i: int) returns (pending: seq<Intent>)
      requires Valid()
      ensures pending == PendingOthers(View(), ids, i)
    {
      hide PendingOthers;
      pending := [];
      ghost var w := View();
      for k := 0 to |ids|
        invariant pending + PendingOthers(w, ids[k..], i) == PendingOthers(w, ids, i)
      {
        var j := ids[k];
        assert j in ids <==> j in routers;
        var r := routers[j];
        assert w.routers[ids[k]] == r.Fields();
        NextPending(w, ids, k, i);
        if ids[k] != i && r.state == EntryPending && r.pendingIntent.Some? {
          pending := pending + [r.pendingIntent.value];
        }
      }
      NonePending(w, ids, i);
    }

    /** One history of the bar; a router it has none for is passed over. */
    method TakeBar(e: BarEvent, snap: AccountSnapshot, kill: Kill, now: int) returns (raised: bool)
      requires Valid() && Priced(e)
      modifies routers.Values, executor, db
      ensures raised == EventRaises(old(View()), e, snap, kill)
      ensures View() == if raised then old(View()) else Act(old(View()), BarMicro(old(View()), e, snap, kill, now))
    {
      hide OnBar, PendingOthers, BarRaises;
      raised := false;
      if e.iid in routers {
        var pending := EntriesInFlight(e.iid);
        if EventRaises(View(), e, snap, kill) { NothingRaised(View(), e, snap, kill, now); }
        raised := BarOne(e.iid, e.bar, snap, kill, pending, now);
      }
    }

    /** One snapshot for the whole bar; what is in flight is recomputed before every router's turn, and the guards
        raising for one router ends the bar for those behind it. */
    method BarsClosed(events: seq<BarEvent>, kill: Kill, now: int) returns (raised: bool)
      requires Valid() && forall e :: e in events ==> Priced(e)
      modifies routers.Values, executor, db
      ensures View() == PortfolioOnBar(old(View()), events, kill, now)
      ensures raised == (|OnBarPlan(old(View()), events, Snapshot(old(executor.View())), kill, now)| < |events|)
    {
      hide Act, Snapshot, EventRaises;
      raised := false;
      var snap := executor.TakeSnapshot();
      for k := 0 to |events|
        invariant OnBarLoop(View(), events[k..], snap, kill, now) == OnBarLoop(old(View()), events, snap, kill, now)
        invariant k + |OnBarPlan(View(), events[k..], snap, kill, now)| == |OnBarPlan(old(View()), events, snap, kill, now)|
      {
        assert events[k..][0] == events[k] && events[k..][1..] == events[k + 1..] && events[k] in events;
        raised := TakeBar(events[k], snap, kill, now);
        if raised { return; }
      }
      assert events[|events|..] == [];
    }

    /** Flattens and halts every router, whichever instrument's bar closed. */
    method ShutdownAll(closes: map<int, real>, now: int)
      requires Valid()
      modifies routers.Values, executor, db
      ensures View() == PortfolioShutdown(old(View()), closes, now)
    {
      hide Shutdown, Snapshot, Find;
      var snap := executor.TakeSnapshot();
      for k := 0 to |ids|
        invariant View() == ShutAll(old(View()), ids[..k], snap, closes, now)
      {
        var i := ids[k];
        assert ids[..k + 1][..k] == ids[..k] && i in ids;
        var pos := snap.Position(i);
        var r := routers[i];
        var mark := if r.entry.Some? then r.entry.value else 0.0;
        if i in closes {
          mark := closes[i];
        } else if pos.Some? && pos.value.size != 0.0 {
          mark := pos.value.notional / Abs(pos.value.size);
        }
        ShutOne(i, mark, if pos.Some? then pos.value.size else 0.0, now);
      }
      assert ids[..|ids|] == ids;
    }

    // ----- cold start -----

    method RecoverOne(i: int, row: Option<PositionRow>, snap: AccountSnapshot)
      requires Valid() && i in routers && row == if i in db.positions then Some(db.positions[i]) else None
      modifies routers[i], executor, db
      ensures View() == Put(old(View()), i, RecoverRouter(DeskOf(old(View()), i), snap))
    {
      hide RecoverRouter;
      ghost var w := View();
      routers[i].Recover(row, snap);
      Turned(w, View(), i, routers[i].View());
    }

    /** Every router reads its row and takes the venue's position. */
    method RecoverAll(snap: AccountSnapshot)
      requires Valid() && Distinct(ids) && forall i :: i in routers ==> routers[i].Fields() == NewRouter(i)
      modifies routers.Values, executor, db
      ensures View() == RecoverRouters(old(View()).(routers := map[]), ids, snap)
    {
      hide Put, RecoverRouter, NewRouter, Waiting, Done;
      var local := db.positions;
      ghost var start := View().(routers := map[]);
      NoneDone(View(), ids, local);
      for k := 0 to |ids|
        invariant RecoverRouters(Done(View(), ids[..k]), ids[k..], snap) == RecoverRouters(start, ids, snap)
        invariant Waiting(View(), ids, k, local)
      {
        var i := ids[k];
        RecoverStep(View(), ids, k, local, snap);
        RecoverOne(i, if i in local then Some(local[i]) else None, snap);
      }
      AllDone(View(), ids, snap);
    }

    /** Venue positions no router owns get a stop too. */
    method GuardOthers(snap: AccountSnapshot)
      requires Valid()
      modifies executor
      ensures View() == old(View()).(a := GuardUnknown(old(executor.View()), routers.Keys, snap.positions, snap))
    {
      var ps := snap.positions;
      for k := 0 to |ps|
        invariant GuardUnknown(executor.View(), routers.Keys, ps[k..], snap) == GuardUnknown(old(executor.View()), routers.Keys, ps, snap)
      {
        var p := ps[k];
        assert ps[k..][0] == p && ps[k..][1..] == ps[k + 1..];
        if p.size != 0.0 && p.iid !in routers && p.iid !in snap.stops {
          executor.SetStop(p.iid, StopPrice(p.size > 0.0, p.entry));
        }
      }
      assert ps[|ps|..] == [];
      assert View().routers == old(View()).routers;
    }

    /** Orders in flight at the crash: adopted when they still rest on the venue, abandoned otherwise. */
    method SettleInFlight(local: map<int, PositionRow>, resting: seq<Cid>, now: int)
      requires Valid()
      modifies routers.Values, db
      ensures View() == SettleOrders(old(View()), old(db.orderIds), local, resting, now)
    {
      hide AdoptPending, SetStatus;
      var orders := db.orderIds;
      for k := 0 to |orders|
        invariant SettleOrders(View(), orders[k..], local, resting, now) == SettleOrders(old(View()), orders, local, resting, now)
      {
        var c := orders[k];
        assert orders[k..][0] == c && orders[k..][1..] == orders[k + 1..];
        SettleOne(c, local, resting, now);
        assert SettleOrders(View(), orders[k + 1..], local, resting, now) == SettleOrders(old(View()), orders, local, resting, now);
      }
      assert orders[|orders|..] == [];
    }

    method SettleOne(c: Cid, local: map<int, PositionRow>, resting: seq<Cid>, now: int)
      requires Valid()
      modifies routers.Values, db
      ensures View() == SettleOrder(old(View()), c, local, resting, now)
    {
      hide AdoptPending, SetStatus;
      if c !in db.orders || (db.orders[c].status != Submitting && db.orders[c].status != Accepted) { return; }
      var i := db.orders[c].iid;
      if c in resting && i in routers && i in local && Pending(local[i].state) {
        AdoptOne(i, c, local[i].state, now);
      }
      ghost var w := View();
      db.UpdateStatus(c, if c in resting then Adopted else Abandoned, false);
      assert View().routers == w.routers;
    }

    /** Rebuilds router state from the venue before anything trades; `crashed` is the world the process left behind. */
    method Recover(now: int, ghost crashed: World)
      requires Valid() && Distinct(ids) && forall i :: i in routers ==> routers[i].Fields() == NewRouter(i)
      requires crashed.ids == ids && crashed.categories == categories
      requires crashed.db == db.View() && Reload(crashed.a) == executor.View()
      modifies routers.Values, executor, db
      ensures View() == RestartWorld(crashed, now)
    {
      hide RecoverRouters, GuardUnknown, SettleOrders, Snapshot, Reload, NewRouter, CancelForeign;
      var snap := executor.TakeSnapshot();
      var local := db.positions;
      RecoverAll(snap);
      assert View().routers.Keys == routers.Keys;
      GuardOthers(snap);
      SettleInFlight(local, snap.openOrders, now);
      CancelUnknown(snap.openOrders);
    }

    method CancelUnknown(orders: seq<Cid>)
      requires Valid()
      modifies executor
      ensures View() == old(View()).(a := CancelForeign(old(executor.View()), orders))
    {
      for k := 0 to |orders|
        invariant CancelForeign(executor.View(), orders[k..]) == CancelForeign(old(executor.View()), orders)
      {
        assert orders[k..][0] == orders[k] && orders[k..][1..] == orders[k + 1..];
        if !orders[k].Ours? { executor.CancelOrder(orders[k]); }
      }
      assert orders[|orders|..] == [];
      assert View().routers == old(View()).routers;
    }

    // ----- reconciliation -----

    /** The response to one mismatch. */
    method Answer(m: Mismatch, snap: AccountSnapshot)
      requires Valid() && MicrosOk(Response(m))
      requires m.MissingStop? ==> m.iid !in executor.stops && Size(executor.View(), m.iid) != 0.0
      requires m.MissingStop? ==> snap.Position(m.iid) == Some(Sim.View(executor.View(), m.iid))
      requires m.OrphanStop? ==> Size(executor.View(), m.iid) == 0.0
      modifies routers.Values, executor, db
      ensures View() == Run(old(View()), Response(m))
      ensures executor.View() == old(executor.View()).(stops := executor.stops)
      ensures forall j :: j in executor.stops ==> j in old(executor.stops) || (m.MissingStop? && j == m.iid)
    {
      hide Halt, GuardWorld, LiquidationPrice, Find, Run, Act, Response;
      AnswerOf(View(), m);
      match m
      case SizeMismatch(i, _, _) =>
        if i in routers { HaltOne(i); }
      case UnknownOrder(c) => executor.CancelOrder(c);
      case MissingStop(i) =>
        var pos := snap.Position(i);
        GuardWorldAccount(View(), i);
        GuardOne(i, pos.value);
      case OrphanStop(i) => executor.RemoveStop(i);
      case StopDrift(_, _, _) =>
      assert View().routers == old(View()).routers || m.SizeMismatch? || m.MissingStop?;
    }

    /** Compares the rows with one snapshot of the venue and answers each mismatch. `listed` holds the instruments with
        a row or a venue position, `stopIds` those with a venue stop. */
    method Reconcile(listed: seq<int>, stopIds: seq<int>) returns (ms: seq<Mismatch>)
      requires Valid() && Ok(executor.View()) && Distinct(listed)
      requires Lists(listed, stopIds, db.positions, Snapshot(executor.View()))
      modifies routers.Values, executor, db
      ensures ms == DiffOf(old(db.positions), Snapshot(old(executor.View())), Known(old(db.View())), listed, stopIds)
      ensures View() == Pass(old(View()), listed, stopIds)
    {
      hide Ok, DiffOf, Run, MissingOnce, Find, Response, Responses, Snapshot, Found, MicrosOk, Terminal, Act;
      var snap := executor.TakeSnapshot();
      var known := set c | c in db.orders && !Terminal(db.orders[c].status);
      assert known == Known(db.View());
      SnapshotStops(executor.View());
      ms := Diff(db.positions, snap, known, listed, stopIds);
      MissingReportedOnce(db.positions, snap, known, listed, stopIds);
      Unanswered(ms, db.positions, snap, known, listed, stopIds);
      AllOk(ms);
      AnswerAll(ms, snap);
    }

    method AnswerAll(ms: seq<Mismatch>, snap: AccountSnapshot)
      requires Valid() && Ok(executor.View()) && snap == Snapshot(executor.View()) && MissingOnce(ms)
      requires MicrosOk(Responses(ms)) && forall m :: m in ms ==> Found(m, snap)
      modifies routers.Values, executor, db
      ensures View() == Run(old(View()), Responses(ms))
    {
      hide Ok, Run, Find, Response, Snapshot, Found, MicroOk;
      ghost var a0 := executor.View();
      SnapshotStops(a0);
      forall m | m in ms && m.MissingStop? ensures m.iid !in a0.stops { MissingMeans(m, snap); }
      for k := 0 to |ms|
        invariant executor.View() == a0.(stops := executor.stops)
        invariant forall j :: k <= j < |ms| && ms[j].MissingStop? ==> ms[j].iid !in executor.stops
        invariant MicrosOk(Responses(ms[k..])) && Run(View(), Responses(ms[k..])) == Run(old(View()), Responses(ms))
      {
        assert ms[k..][0] == ms[k] && ms[k..][1..] == ms[k + 1..] && ms[k] in ms;
        SplitOk(Response(ms[k]), Responses(ms[k + 1..]));
        RunSplit(View(), Response(ms[k]), Responses(ms[k + 1..]));
        StillThere(a0, executor.View(), ms[k], snap);
        Answer(ms[k], snap);
      }
      assert ms[|ms|..] == [];
      RunOne(View(), []);
    }

    // ----- the fast loop -----

    method FastTickAll(marks: seq<(int, real)>, now: int)
      requires Valid() && forall k :: 0 <= k < |marks| ==> PriceOk(marks[k].1)
      modifies routers.Values, executor, db
      ensures View() == PortfolioOnFast(old(View()), marks, false, now)
    {
      hide OnFast, CheckPending, Snapshot;
      var snap := executor.TakeSnapshot();
      SimNeverSeizes(executor.View());
      for k := 0 to |ids|
        invariant CheckAll(View(), ids[k..], snap, now) == CheckAll(old(View()), ids, snap, now)
      {
        assert ids[k..][0] == ids[k] && ids[k..][1..] == ids[k + 1..] && ids[k] in ids;
        CheckOne(ids[k], snap, now);
      }
      assert ids[|ids|..] == [];
      ghost var w1 := View();
      for k := 0 to |marks|
        invariant FastAll(View(), marks[k..], snap, now) == FastAll(w1, marks, snap, now)
      {
        assert marks[k..][0] == marks[k] && marks[k..][1..] == marks[k + 1..];
        if marks[k].0 in routers { FastOne(marks[k].0, marks[k].1, snap, now); }
      }
      assert marks[|marks|..] == [];
    }

    /** Stops fire on the venue first; their fills are then dispatched here, before anything else runs. */
    method PollStops(listing: seq<int>)
      requires Valid() && Distinct(listing) && forall i :: i in listing <==> i in executor.stops
      modifies routers.Values, executor, db
      ensures View() == Poll(old(View()), listing)
    {
      hide FireAll, Dispatch;
      var fills := executor.CheckTriggers(listing);
      ghost var w1 := View();
      assert w1.routers == old(View()).routers;
      for k := 0 to |fills|
        invariant DispatchAll(View(), fills[k..]) == DispatchAll(w1, fills)
      {
        assert fills[k..][0] == fills[k] && fills[k..][1..] == fills[k + 1..];
        DispatchEvent(fills[k]);
      }
      assert fills[|fills|..] == [];
    }
  }

  /** One router moved its desk; the others' fields are as they were. */
  lemma Turned(w: World, w2: World, i: int, d: Desk)
    requires w2.ids == w.ids && w2.categories == w.categories && i in w.routers && w2.routers.Keys == w.routers.Keys
    requires w2.a == d.a && w2.db == d.db && w2.routers[i] == d.r
    requires forall j :: j in w.routers && j != i ==> w2.routers[j] == w.routers[j]
    ensures w2 == Put(w, i, d)
  {
    assert w2.routers == w.routers[i := d.r];
  }

  ghost predicate MicrosOk(ms: seq<Micro>) {
    forall m :: m in ms ==> MicroOk(m)
  }

  lemma SplitOk(ms: seq<Micro>, more: seq<Micro>)
    requires MicrosOk(ms + more)
    ensures MicrosOk(ms) && MicrosOk(more)
  {
    forall m | m in ms ensures MicroOk(m) { assert m in ms + more; }
    forall m | m in more ensures MicroOk(m) { assert m in ms + more; }
  }

  lemma RunOne(w: World, ms: seq<Micro>)
    requires MicrosOk(ms) && |ms| <= 1
    ensures Run(w, ms) == if ms == [] then w else Act(w, ms[0])
  {
    hide Act;
    if ms != [] { assert ms[..0] == []; }
  }

  /** What each answer does to the world. */
  lemma AnswerOf(w: World, m: Mismatch)
    requires MicrosOk(Response(m))
    ensures m.SizeMismatch? ==> Run(w, Response(m)) == if m.iid in w.routers then Put(w, m.iid, Halt(DeskOf(w, m.iid))) else w
    ensures m.UnknownOrder? ==> Run(w, Response(m)) == w.(a := Cancel(w.a, m.cid))
    ensures m.MissingStop? ==> Run(w, Response(m)) == GuardWorld(w, m.iid)
    ensures m.OrphanStop? && Size(w.a, m.iid) == 0.0 ==> Run(w, Response(m)) == w.(a := CancelStop(w.a, m.iid))
    ensures m.StopDrift? ==> Run(w, Response(m)) == w
  {
    hide Run, OnBar, OnFast, CheckPending, Shutdown, Dispatch, RestartWorld, ClearHalt, Snapshot, Halt, GuardWorld, FireStop, CancelStop;
    RunOne(w, Response(m));
  }

  lemma RunSplit(w: World, ms: seq<Micro>, more: seq<Micro>)
    requires MicrosOk(ms + more) && MicrosOk(ms) && MicrosOk(more)
    ensures Run(w, ms + more) == Run(Run(w, ms), more)
  {
    RunJoin(w, ms, more);
  }

  lemma AllOk(ms: seq<Mismatch>)
    ensures MicrosOk(Responses(ms))
  {
    ResponsesOk(ms);
  }

  lemma MissingMeans(m: Mismatch, snap: AccountSnapshot)
    requires Found(m, snap)
    ensures m.MissingStop? ==> m.iid !in snap.stops
  {
  }

  lemma SnapshotStops(a: Account)
    ensures Snapshot(a).stops == a.stops
  {
  }

  lemma GuardWorldAccount(w: World, i: int)
    requires Size(w.a, i) != 0.0 && i !in w.a.stops
    ensures GuardWorld(w, i).a == w.a.(stops := GuardWorld(w, i).a.stops)
    ensures forall j :: j in GuardWorld(w, i).a.stops ==> j in w.a.stops || j == i
  {
    hide VenueStop;
  }

  /** What the comparison found is so on the venue it was given. */
  ghost predicate Found(m: Mismatch, snap: AccountSnapshot) {
    && (m.MissingStop? ==> RemoteSize(snap, m.iid) != 0.0 && m.iid !in snap.stops)
    && (m.OrphanStop? ==> RemoteSize(snap, m.iid) == 0.0)
  }

  lemma Unanswered(ms: seq<Mismatch>, local: map<int, PositionRow>, snap: AccountSnapshot, known: set<Cid>, ids: seq<int>, stopIds: seq<int>)
    requires Lists(ids, stopIds, local, snap) && ms == DiffOf(local, snap, known, ids, stopIds)
    ensures forall m :: m in ms ==> Found(m, snap)
  {
    hide DiffOf, Find;
    forall m | m in ms ensures Found(m, snap) { DiffExact(local, snap, known, ids, stopIds, m); }
  }

  /** Only stops have changed since the snapshot was taken. */
  lemma StillThere(a0: Account, a: Account, m: Mismatch, snap: AccountSnapshot)
    requires Ok(a0) && a == a0.(stops := a.stops) && snap == Snapshot(a0) && Found(m, snap)
    ensures m.MissingStop? ==> Size(a, m.iid) != 0.0 && snap.Position(m.iid) == Some(Sim.View(a, m.iid))
    ensures m.OrphanStop? ==> Size(a, m.iid) == 0.0
  {
    hide Ok, Snapshot, LiquidationPrice;
    if m.MissingStop? || m.OrphanStop? {
      SnapshotPosition(a0, m.iid);
      assert PosOf(a, m.iid) == PosOf(a0, m.iid) && MarkOf(a, m.iid) == MarkOf(a0, m.iid);
      assert Sim.View(a, m.iid) == Sim.View(a0, m.iid);
    }
  }

  /** The world with only the routers already recovered. */
  ghost function Done(w: World, ids: seq<int>): World
  {
    w.(routers := map i | i in w.routers && i in ids :: w.routers[i])
  }

  lemma DoneNext(w: World, ids: seq<int>, k: nat, d: Desk)
    requires k < |ids| && ids[k] in w.routers
    ensures Done(Put(w, ids[k], d), ids[..k + 1]) == Put(Done(w, ids[..k]), ids[k], d)
  {
    assert ids[..k + 1] == ids[..k] + [ids[k]];
    var x, y := Done(Put(w, ids[k], d), ids[..k + 1]), Put(Done(w, ids[..k]), ids[k], d);
    assert x.routers.Keys == y.routers.Keys;
    assert x.routers == y.routers;
  }

  /** The routers from position k on are as constructed, and their rows as read at the start. */
  ghost predicate Waiting(w: World, ids: seq<int>, k: nat, local: map<int, PositionRow>) {
    && (forall j :: k <= j < |ids| ==> ids[j] in w.routers && w.routers[ids[j]] == NewRouter(ids[j]))
    && (forall j :: k <= j < |ids| ==> (ids[j] in w.db.positions <==> ids[j] in local))
    && (forall j :: k <= j < |ids| && ids[j] in local ==> w.db.positions[ids[j]] == local[ids[j]])
  }

  lemma NoneDone(w: World, ids: seq<int>, local: map<int, PositionRow>)
    requires w.db.positions == local && forall i :: i in w.routers ==> w.routers[i] == NewRouter(i)
    requires forall i :: i in ids <==> i in w.routers
    ensures Done(w, ids[..0]) == w.(routers := map[]) && ids[0..] == ids && Waiting(w, ids, 0, local)
  {
    forall j | 0 <= j < |ids| ensures ids[j] in w.routers && w.routers[ids[j]] == NewRouter(ids[j]) {
      var i := ids[j];
      assert i in ids <==> i in w.routers;
      assert i in w.routers;
    }
  }

  lemma AllDone(w: World, ids: seq<int>, snap: AccountSnapshot)
    requires forall i :: i in ids <==> i in w.routers
    ensures ids[|ids|..] == [] && RecoverRouters(Done(w, ids[..|ids|]), ids[|ids|..], snap) == w
  {
    assert ids[..|ids|] == ids;
    forall i ensures i in Done(w, ids).routers <==> i in w.routers {
      assert i in ids <==> i in w.routers;
    }
    assert Done(w, ids).routers.Keys == w.routers.Keys;
    assert Done(w, ids).routers == w.routers;
  }

  lemma RecoverStep(w: World, ids: seq<int>, k: nat, local: map<int, PositionRow>, snap: AccountSnapshot)
    requires k < |ids| && Distinct(ids) && Waiting(w, ids, k, local)
    ensures ids[k] in w.routers && (ids[k] in w.db.positions <==> ids[k] in local)
    ensures ids[k] in local ==> w.db.positions[ids[k]] == local[ids[k]]
    ensures var w2 := Put(w, ids[k], RecoverRouter(DeskOf(w, ids[k]), snap));
      && Waiting(w2, ids, k + 1, local)
      && RecoverRouters(Done(w2, ids[..k + 1]), ids[k + 1..], snap) == RecoverRouters(Done(w, ids[..k]), ids[k..], snap)
  {
    hide RecoverRouter;
    var i := ids[k];
    assert ids[k..][0] == i && ids[k..][1..] == ids[k + 1..];
    RecoverRowOnly(DeskOf(w, i), snap);
    DoneNext(w, ids, k, RecoverRouter(DeskOf(w, i), snap));
  }

  lemma RecoverRowOnly(d: Desk, snap: AccountSnapshot)
    ensures forall j :: j != d.r.iid ==> (j in RecoverRouter(d, snap).db.positions <==> j in d.db.positions)
    ensures forall j :: j != d.r.iid && j in d.db.positions ==> RecoverRouter(d, snap).db.positions[j] == d.db.positions[j]
  {
    hide MaxDecisionNum, MaxOrderNum, VenueStop, Find;
  }

  lemma NextPending(w: World, ids: seq<int>, k: nat, i: int)
    requires k < |ids|
    ensures var j := ids[k];
      PendingOthers(w, ids[k..], i) ==
      (if j != i && j in w.routers && InFlight(w.routers[j]) then [w.routers[j].pendingIntent.value] else [])
      + PendingOthers(w, ids[k + 1..], i)
  {
    assert ids[k..][0] == ids[k] && ids[k..][1..] == ids[k + 1..];
  }

  lemma NonePending(w: World, ids: seq<int>, i: int)
    ensures PendingOthers(w, ids[|ids|..], i) == []
  {
    assert ids[|ids|..] == [];
  }

  lemma {:induction false} MissingRowsOnce(local: map<int, PositionRow>, remote: AccountSnapshot, ids: seq<int>)
    requires Distinct(ids)
    ensures MissingOnce(DiffRows(local, remote, ids))
  {
    hide DiffOne;
    if ids != [] {
      var n := |ids| - 1;
      MissingRowsOnce(local, remote, ids[..n]);
      var front, one := DiffRows(local, remote, ids[..n]), DiffOne(local, remote, ids[n]);
      OneMissing(local, remote, ids[n]);
      var both: seq<Mismatch> := front + one;
      forall p, q | 0 <= p < q < |both| && both[p].MissingStop? && both[q].MissingStop? ensures both[p].iid != both[q].iid {
        if p < |front| <= q {
          RowsExact(local, remote, ids[..n], front[p]);
          assert one[q - |front|] in one;
          OneKinds(local, remote, ids[n], one[q - |front|]);
        } else if |front| <= p {
          assert one[p - |front|].MissingStop? && one[q - |front|].MissingStop?;
        }
      }
    }
  }

  lemma OneMissing(local: map<int, PositionRow>, remote: AccountSnapshot, i: int)
    ensures MissingOnce(DiffOne(local, remote, i))
  {
  }

  /** No instrument is reported twice as missing its stop. */
  ghost predicate MissingOnce(ms: seq<Mismatch>) {
    forall p, q :: 0 <= p < q < |ms| && ms[p].MissingStop? && ms[q].MissingStop? ==> ms[p].iid != ms[q].iid
  }

  lemma MissingReportedOnce(local: map<int, PositionRow>, remote: AccountSnapshot, known: set<Cid>, ids: seq<int>, stopIds: seq<int>)
    requires Distinct(ids)
    ensures MissingOnce(DiffOf(local, remote, known, ids, stopIds))
  {
    hide DiffRows, DiffStops, DiffOrders;
    MissingRowsOnce(local, remote, ids);
    var rest := DiffStops(remote, stopIds) + DiffOrders(remote.openOrders, known);
    forall k | 0 <= k < |rest| ensures !rest[k].MissingStop? {
      StopsExact(remote, stopIds, rest[k]);
      OrdersExact(remote.openOrders, known, rest[k]);
      assert rest[k] in DiffStops(remote, stopIds) || rest[k] in DiffOrders(remote.openOrders, known);
    }
    assert DiffOf(local, remote, known, ids, stopIds) == DiffRows(local, remote, ids) + rest;
  }

  lemma SimNeverSeizes(a: Account)
    ensures Snapshot(a).(inLiquidation := false) == Snapshot(a)
  {
  }
}
