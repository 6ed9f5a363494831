/** The portfolio's other entry points. The fast loop, the shutdown bar and the stop poll read the venue once and
    then call one router after another; here that is shown to be the same as a run in which every call reads the
    venue afresh, because one instrument's calls never move what another's read. */
module Scheduling {
  import opened Types
  import opened Guards
  import opened Sim
  import opened SimLaws
  import opened SimVenue
  import opened Routing
  import opened Delivery
  import opened Discipline
  import opened Runtime
  import opened Runs
  import opened Conservation
  import opened Portfolio

  /** What a router of instrument i reads of the account: its position, its mark, its stop. */
  ghost predicate SameFor(i: int, a: Account, b: Account) {
    && PosOf(b, i) == PosOf(a, i) && b.marks == a.marks
    && (i in b.stops <==> i in a.stops) && (i in a.stops ==> b.stops[i] == a.stops[i])
  }

  lemma SameSnapshot(i: int, a: Account, b: Account)
    requires Ok(a) && Ok(b) && PosOf(b, i) == PosOf(a, i) && b.marks == a.marks
    ensures Snapshot(b).Position(i) == Snapshot(a).Position(i)
  {
    hide Snapshot, Ok, LiquidationPrice, PosOf;
    SnapshotPosition(a, i);
    SnapshotPosition(b, i);
    assert MarkOf(b, i) == MarkOf(a, i);
    assert View(b, i) == View(a, i);
  }

  // ----- the fast loop -----

  function CheckAll(w: World, ids: seq<int>, snap: AccountSnapshot, now: int): World
    decreases |ids|
  {
    if ids == [] then w
    else
      var i := ids[0];
      CheckAll(if i in w.routers then Put(w, i, CheckPending(DeskOf(w, i), snap, now)) else w, ids[1..], snap, now)
  }

  function FastAll(w: World, marks: seq<(int, real)>, snap: AccountSnapshot, now: int): World
    requires forall k :: 0 <= k < |marks| ==> PriceOk(marks[k].1)
    decreases |marks|
  {
    if marks == [] then w
    else
      var i := marks[0].0;
      FastAll(if i in w.routers then Put(w, i, OnFast(DeskOf(w, i), marks[0].1, snap, now)) else w, marks[1..], snap, now)
  }

  /** One snapshot; every router's pending order is checked, then every marked instrument's position. */
  function PortfolioOnFast(w: World, marks: seq<(int, real)>, liquidating: bool, now: int): World
    requires forall k :: 0 <= k < |marks| ==> PriceOk(marks[k].1)
  {
    var snap := Snapshot(w.a).(inLiquidation := liquidating);
    FastAll(CheckAll(w, w.ids, snap, now), marks, snap, now)
  }

  function Timeouts(ids: seq<int>, now: int): seq<Micro> {
    if ids == [] then [] else [TimeoutCall(ids[0], now)] + Timeouts(ids[1..], now)
  }

  function FastCalls(marks: seq<(int, real)>, liquidating: bool, now: int): seq<Micro> {
    if marks == [] then [] else [FastCall(marks[0].0, marks[0].1, liquidating, now)] + FastCalls(marks[1..], liquidating, now)
  }

  predicate DistinctMarks(marks: seq<(int, real)>) {
    forall p, q :: 0 <= p < q < |marks| ==> marks[p].0 != marks[q].0
  }

  lemma {:induction false} TimeoutsOk(ids: seq<int>, now: int)
    ensures forall m :: m in Timeouts(ids, now) ==> MicroOk(m)
  {
    if ids != [] { TimeoutsOk(ids[1..], now); }
  }

  lemma {:induction false} FastCallsOk(marks: seq<(int, real)>, liquidating: bool, now: int)
    requires forall k :: 0 <= k < |marks| ==> PriceOk(marks[k].1)
    ensures forall m :: m in FastCalls(marks, liquidating, now) ==> MicroOk(m)
  {
    if marks != [] { FastCallsOk(marks[1..], liquidating, now); }
  }

  /** An adoption reads its own position and its own stop, nothing else. */
  lemma StaleCheck(d: Desk, a0: Account, liquidating: bool, now: int)
    requires Ok(d.a) && Ok(a0) && SameFor(d.r.iid, a0, d.a)
    ensures CheckPending(d, Snapshot(a0).(inLiquidation := liquidating), now) == CheckPending(d, Snapshot(d.a), now)
  {
    hide Ok, VenueStop, Views, Equity;
    SameSnapshot(d.r.iid, a0, d.a);
  }

  lemma StaleFast(d: Desk, a0: Account, liquidating: bool, mark: real, now: int)
    requires Ok(d.a) && Ok(a0) && PriceOk(mark) && PosOf(d.a, d.r.iid) == PosOf(a0, d.r.iid) && d.a.marks == a0.marks
    ensures OnFast(d, mark, Snapshot(a0).(inLiquidation := liquidating), now)
         == OnFast(d, mark, Snapshot(d.a).(inLiquidation := liquidating), now)
  {
    hide Ok, Exit, TooClose, FundingExitDue, Views, Equity;
    SameSnapshot(d.r.iid, a0, d.a);
  }

  /** A timeout call moves no position and no mark, and no stop but its own. */
  lemma CheckPositions(d: Desk, now: int)
    requires Good(d)
    ensures var d2 := CheckPending(d, Snapshot(d.a), now);
      && Step(d, d2) && d2.a.pos == d.a.pos && d2.a.marks == d.a.marks
      && forall j :: j != d.r.iid ==> SameFor(j, d.a, d2.a)
  {
    hide Snapshot, Good, Adopt, Ok;
    CheckPendingSteps(d, now);
    var d2 := CheckPending(d, Snapshot(d.a), now);
    CheckAccount(d, Snapshot(d.a), now);
    TouchedFor(d.r.iid, d.a, d2.a);
  }

  lemma CheckAccount(d: Desk, snap: AccountSnapshot, now: int)
    ensures CheckPending(d, snap, now).a.pos == d.a.pos
  {
    hide AdoptAndSettle;
    var db := if d.r.pendingCid.Some? then SetStatus(d.db, d.r.pendingCid.value, TimeoutAdopted) else d.db;
    AdoptPositions(d.(db := db), snap);
  }

  lemma TouchedFor(i: int, a: Account, b: Account)
    requires Touches(i, a, b)
    ensures b.marks == a.marks && Ok(b) && forall j :: j != i ==> SameFor(j, a, b)
  {
  }

  lemma {:induction false} CheckAllIsRun(w: World, ids: seq<int>, a0: Account, liquidating: bool, now: int)
    requires Wf(w) && Ok(a0) && Distinct(ids) && (forall i :: i in ids ==> SameFor(i, a0, w.a))
    requires w.a.marks == a0.marks && w.a.pos == a0.pos
    requires forall m :: m in Timeouts(ids, now) ==> MicroOk(m)
    ensures var w2 := CheckAll(w, ids, Snapshot(a0).(inLiquidation := liquidating), now);
      && w2 == Run(w, Timeouts(ids, now)) && Wf(w2) && w2.a.marks == a0.marks && w2.a.pos == a0.pos
    decreases |ids|
  {
    hide Wf, Snapshot, CheckPending, Step, Ok, Good;
    if ids != [] {
      var i := ids[0];
      var rest := ids[1..];
      var w1 := Act(w, TimeoutCall(i, now));
      if i in w.routers {
        DeskGood(w, i);
        WfOk(w);
        StaleCheck(DeskOf(w, i), a0, liquidating, now);
        CheckPositions(DeskOf(w, i), now);
        PutWf(w, i, CheckPending(DeskOf(w, i), Snapshot(w.a), now));
      }
      TimeoutsOk(rest, now);
      forall j | j in rest ensures SameFor(j, a0, w1.a) {
        assert j != i && j in ids;
        assert SameFor(j, w.a, w1.a);
      }
      CheckAllIsRun(w1, rest, a0, liquidating, now);
      RunFromFront(w, TimeoutCall(i, now), Timeouts(rest, now));
    }
  }

  lemma {:induction false} FastAllIsRun(w: World, marks: seq<(int, real)>, a0: Account, liquidating: bool, now: int)
    requires Wf(w) && Ok(a0) && DistinctMarks(marks) && w.a.marks == a0.marks
    requires forall k :: 0 <= k < |marks| ==> PriceOk(marks[k].1) && PosOf(w.a, marks[k].0) == PosOf(a0, marks[k].0)
    requires forall m :: m in FastCalls(marks, liquidating, now) ==> MicroOk(m)
    ensures FastAll(w, marks, Snapshot(a0).(inLiquidation := liquidating), now) == Run(w, FastCalls(marks, liquidating, now))
    decreases |marks|
  {
    hide Wf, Snapshot, OnFast, Step, Ok, Good, PosOf, Touches;
    if marks != [] {
      var i := marks[0].0;
      var rest := marks[1..];
      var m := FastCall(i, marks[0].1, liquidating, now);
      var w1 := Act(w, m);
      if i in w.routers {
        DeskGood(w, i);
        WfOk(w);
        var d := DeskOf(w, i);
        StaleFast(d, a0, liquidating, marks[0].1, now);
        OnFastSteps(d, marks[0].1, Snapshot(w.a).(inLiquidation := liquidating), now);
        var d2 := OnFast(d, marks[0].1, Snapshot(w.a).(inLiquidation := liquidating), now);
        PutWf(w, i, d2);
        StepParts(d, d2);
        TouchedFor(i, w.a, d2.a);
      }
      FastCallsOk(rest, liquidating, now);
      forall k | 0 <= k < |rest| ensures PriceOk(rest[k].1) && PosOf(w1.a, rest[k].0) == PosOf(a0, rest[k].0) {
        assert rest[k] == marks[k + 1];
        assert rest[k].0 != i;
        assert i in w.routers ==> SameFor(rest[k].0, w.a, w1.a);
      }
      FastAllIsRun(w1, rest, a0, liquidating, now);
      RunFromFront(w, m, FastCalls(rest, liquidating, now));
    }
  }

  /** One fast tick is a run of router calls, each reading the venue afresh. */
  lemma OnFastIsRun(w: World, marks: seq<(int, real)>, liquidating: bool, now: int)
    requires Wf(w) && DistinctMarks(marks) && forall k :: 0 <= k < |marks| ==> PriceOk(marks[k].1)
    ensures forall m :: m in Timeouts(w.ids, now) + FastCalls(marks, liquidating, now) ==> MicroOk(m)
    ensures PortfolioOnFast(w, marks, liquidating, now) == Run(w, Timeouts(w.ids, now) + FastCalls(marks, liquidating, now))
  {
    hide RouterWf, Snapshot, Ok, CheckPending, OnFast;
    TimeoutsOk(w.ids, now);
    FastCallsOk(marks, liquidating, now);
    WfOk(w);
    CheckAllIsRun(w, w.ids, w.a, liquidating, now);
    var w1 := CheckAll(w, w.ids, Snapshot(w.a).(inLiquidation := liquidating), now);
    FastAllIsRun(w1, marks, w.a, liquidating, now);
    RunJoin(w, Timeouts(w.ids, now), FastCalls(marks, liquidating, now));
  }

  // ----- the shutdown bar -----

  /** The price a shutdown exit is valued at, read from the one snapshot of the call. */
  function SeenMark(snap: AccountSnapshot, r: Router, closes: map<int, real>): real {
    var pos := snap.Position(r.iid);
    if r.iid in closes then closes[r.iid]
    else if pos.Some? && pos.value.size != 0.0 then pos.value.notional / Abs(pos.value.size)
    else if r.entry.Some? then r.entry.value else 0.0
  }

  function SeenSize(snap: AccountSnapshot, i: int): real {
    if snap.Position(i).Some? then snap.Position(i).value.size else 0.0
  }

  function ShutAll(w: World, ids: seq<int>, snap: AccountSnapshot, closes: map<int, real>, now: int): World {
    if ids == [] then w
    else
      var w1 := ShutAll(w, ids[..|ids| - 1], snap, closes, now);
      var i := ids[|ids| - 1];
      if i in w1.routers then Put(w1, i, Shutdown(DeskOf(w1, i), SeenMark(snap, w1.routers[i], closes), SeenSize(snap, i), now))
      else w1
  }

  function PortfolioShutdown(w: World, closes: map<int, real>, now: int): World {
    ShutAll(w, w.ids, Snapshot(w.a), closes, now)
  }

  lemma MarkBack(size: real, mark: real)
    requires size != 0.0
    ensures Abs(size) * mark / Abs(size) == mark
  {
  }

  lemma SeenIsThere(w: World, r: Router, closes: map<int, real>)
    requires Ok(w.a) && r.iid in w.routers && w.routers[r.iid] == r
    ensures SeenMark(Snapshot(w.a), r, closes) == ShutdownMark(w, r.iid, closes)
    ensures SeenSize(Snapshot(w.a), r.iid) == Size(w.a, r.iid)
  {
    hide Ok, Snapshot, LiquidationPrice;
    SnapshotPosition(w.a, r.iid);
    if Size(w.a, r.iid) != 0.0 { MarkBack(Size(w.a, r.iid), MarkOf(w.a, r.iid)); }
  }

  lemma {:induction false} ShutAllIsRun(w: World, ids: seq<int>, closes: map<int, real>, now: int)
    requires Wf(w) && Distinct(ids) && (forall i :: i in ids ==> i in w.routers)
    requires forall m :: m in ShutdownPlan(w, ids, closes, now) ==> MicroOk(m)
    ensures var w2 := ShutAll(w, ids, Snapshot(w.a), closes, now);
      && w2 == Run(w, ShutdownPlan(w, ids, closes, now)) && Wf(w2)
      && (forall i :: i in w2.routers <==> i in w.routers)
      && (forall i :: i in w.routers && i !in ids ==> w2.routers[i] == w.routers[i] && Size(w2.a, i) == Size(w.a, i))
  {
    hide Wf, Shutdown, Step, Good, Touches, ShutdownMark, SeenMark, SeenSize, DbKept, OrdersWf, DecisionsWf, NumbersWf,
      PendingWf, RowWf, Ok, Snapshot;
    if ids != [] {
      var n := |ids| - 1;
      var i := ids[n];
      assert ids == ids[..n] + [i];
      var plan := ShutdownPlan(w, ids[..n], closes, now);
      PlanIsCalls(w, ids[..n], closes, now);
      ShutAllIsRun(w, ids[..n], closes, now);
      var w1 := Run(w, plan);
      var m := ShutdownCall(i, ShutdownMark(w, i, closes), now);
      assert (plan + [m])[..|plan|] == plan;
      WfOk(w);
      IidOf(w);
      SeenIsThere(w, w.routers[i], closes);
      DeskGood(w1, i);
      var d := DeskOf(w1, i);
      ShutdownSteps(d, m.mark, Size(w1.a, i), now);
      var d2 := Shutdown(d, m.mark, Size(w1.a, i), now);
      StepParts(d, d2);
      PutWf(w1, i, d2);
      TouchedSizes(i, w1.a, d2.a);
      assert Run(w, plan + [m]) == Put(w1, i, d2);
    }
  }

  /** A shutdown bar is the run of shutdown calls the drain theorem speaks of. */
  lemma ShutdownIsRun(w: World, closes: map<int, real>, now: int)
    requires Wf(w)
    ensures PortfolioShutdown(w, closes, now) == ShutdownBar(w, closes, now)
  {
    hide RouterWf, Snapshot, ShutAll, ShutdownPlan, Run;
    TablesOf(w);
    PlanIsCalls(w, w.ids, closes, now);
    ShutAllIsRun(w, w.ids, closes, now);
  }

  // ----- polling the stops -----

  function DispatchAll(w: World, fills: seq<Event>): World
    decreases |fills|
  {
    if fills == [] then w else DispatchAll(Dispatch(w, fills[0]), fills[1..])
  }

  /** Every reached stop fires on the venue first; then the fills are handed to the routers one by one. */
  function Poll(w: World, listing: seq<int>): World {
    var (a, fills) := FireAll(w.a, listing);
    DispatchAll(w.(a := a), fills)
  }

  function Firings(listing: seq<int>): seq<Micro> {
    if listing == [] then [] else [StopFires(listing[0])] + Firings(listing[1..])
  }

  lemma {:induction false} FiringsOk(listing: seq<int>)
    ensures forall m :: m in Firings(listing) ==> MicroOk(m)
  {
    if listing != [] { FiringsOk(listing[1..]); }
  }

  /** Both accounts had the stop of instrument i written or removed the same way, and nothing else done to them. */
  ghost predicate SameEdit(i: int, a: Account, a2: Account, b: Account, b2: Account) {
    && a2 == a.(stops := a2.stops) && b2 == b.(stops := b2.stops)
    && (forall j :: j != i ==> (j in a2.stops <==> j in a.stops) && (j in b2.stops <==> j in b.stops))
    && (forall j :: j != i && j in a.stops ==> a2.stops[j] == a.stops[j])
    && (forall j :: j != i && j in b.stops ==> b2.stops[j] == b.stops[j])
    && (i in a2.stops <==> i in b2.stops) && (i in a2.stops ==> b2.stops[i] == a2.stops[i])
  }

  lemma AdoptSame(d: Desk, b: Account, s: AccountSnapshot, t: AccountSnapshot)
    requires SameFor(d.r.iid, d.a, b) && s.Position(d.r.iid) == t.Position(d.r.iid)
    requires s.stops == d.a.stops && t.stops == b.stops
    ensures var x, y := Adopt(d, s), Adopt(d.(a := b), t);
      y.r == x.r && y.db == x.db && x.r.iid == d.r.iid && SameEdit(d.r.iid, d.a, x.a, b, y.a)
  {
    hide VenueStop, Find, PosOf;
  }

  lemma CancelSame(i: int, a: Account, a2: Account, b: Account, b2: Account)
    requires SameEdit(i, a, a2, b, b2)
    ensures SameEdit(i, a, CancelStop(a2, i), b, CancelStop(b2, i))
  {
  }

  lemma AdoptLocal(d: Desk, b: Account)
    requires Ok(d.a) && Ok(b) && SameFor(d.r.iid, d.a, b)
    ensures var x, y := AdoptAndSettle(d, Snapshot(d.a)), AdoptAndSettle(d.(a := b), Snapshot(b));
      y.r == x.r && y.db == x.db && SameEdit(d.r.iid, d.a, x.a, b, y.a)
  {
    hide Ok, Adopt, Views, Equity, Find, SameEdit, CancelStop;
    SameSnapshot(d.r.iid, d.a, b);
    AdoptSame(d, b, Snapshot(d.a), Snapshot(b));
    var x, y := Adopt(d, Snapshot(d.a)), Adopt(d.(a := b), Snapshot(b));
    CancelSame(d.r.iid, d.a, x.a, b, y.a);
  }

  lemma StopLocal(d: Desk, b: Account)
    requires SameFor(d.r.iid, d.a, b)
    ensures var x, y := ReplaceStop(d), ReplaceStop(d.(a := b));
      y.r == x.r && y.db == x.db && SameEdit(d.r.iid, d.a, x.a, b, y.a)
    ensures SameEdit(d.r.iid, d.a, d.a, b, b)
    ensures SameEdit(d.r.iid, d.a, CancelStop(d.a, d.r.iid), b, CancelStop(b, d.r.iid))
  {
    hide StopPrice, PosOf;
  }

  lemma AfterFillLocal(d: Desk, b: Account, cid: Cid, ours: bool)
    requires SameFor(d.r.iid, d.a, b)
    ensures var x, y := AfterFill(d, cid, ours), AfterFill(d.(a := b), cid, ours);
      y.r == x.r && y.db == x.db && SameEdit(d.r.iid, d.a, x.a, b, y.a)
  {
    hide ReplaceStop, SameEdit, CancelStop, PosOf;
    StopLocal(d, b);
    StopLocal(SetState(d.(r := d.r.(pendingCid := None)), Open), b);
    StopLocal(SetState(d, Open), b);
  }

  /** Handling a fill of instrument i edits at most its stop, and reads only what SameFor covers. */
  lemma FillLocal(d: Desk, b: Account, ev: Event)
    requires Ok(d.a) && Ok(b) && SameFor(d.r.iid, d.a, b) && ev.FillUpdate?
    ensures var x, y := HandleFill(d, ev), HandleFill(d.(a := b), ev);
      y.r == x.r && y.db == x.db && SameEdit(d.r.iid, d.a, x.a, b, y.a)
  {
    hide Ok, AdoptAndSettle, AfterFill, ApplyFill, RecordFill, Snapshot;
    if ev.iid == d.r.iid {
      if LateFill(d, ev.cid) {
        var row := d.db.orders[ev.cid];
        AdoptLocal(d.(db := d.db.(orders := d.db.orders[ev.cid := row.(filled := row.filled + ev.quantity)])), b);
      } else {
        BookedLocal(d, b, ev);
        var d1 := ApplyFill(d, ev.side, ev.quantity, ev.price);
        AfterFillLocal(d1.(db := RecordFill(d1.db, ev.cid, ev.quantity, ev.price)), b, ev.cid, ev.cid in d.db.orders);
      }
    }
  }

  lemma BookedLocal(d: Desk, b: Account, ev: Event)
    requires ev.FillUpdate?
    ensures var d1 := ApplyFill(d, ev.side, ev.quantity, ev.price);
      d1.a == d.a && d1.r.iid == d.r.iid && ApplyFill(d.(a := b), ev.side, ev.quantity, ev.price) == d1.(a := b)
  {
    hide FillEntry;
  }

  /** Firing another instrument's stop reads and moves nothing of instrument i's. */
  lemma FireStopLocal(a: Account, j: int)
    requires Ok(a) && Fires(a, j)
    ensures Ok(FireStop(a, j)) && forall i :: i != j ==> SameFor(i, a, FireStop(a, j))
  {
    hide PlainCash;
    FireStopEffect(a, j);
    hide Fee, Book;
  }

  /** The edit of one stop and the firing of another commute. */
  lemma EditThenFire(i: int, j: int, a: Account, a2: Account, b2: Account)
    requires i != j && Fires(a, j) && SameEdit(i, a, a2, FireStop(a, j), b2)
    ensures Fires(a2, j) && StopFill(a2, j) == StopFill(a, j) && FireStop(a2, j) == b2
  {
    hide Book, Fee;
    FeeOfEdit(a, a2.stops, Abs(Size(a, j)), a.stops[j]);
    assert FireStop(a, j).stops == a.stops - {j} && FireStop(a2, j).stops == a2.stops - {j};
    forall k ensures k in b2.stops <==> k in a2.stops - {j} {
      assert k in FireStop(a, j).stops <==> k in a.stops && k != j;
    }
    forall k | k in b2.stops ensures b2.stops[k] == (a2.stops - {j})[k] {
      if k != i { assert b2.stops[k] == FireStop(a, j).stops[k] == a.stops[k] == a2.stops[k]; }
    }
    assert b2.stops == a2.stops - {j};
  }

  lemma FeeOfEdit(a: Account, stops: map<int, real>, quantity: real, price: real)
    ensures Fee(a.(stops := stops), quantity, price) == Fee(a, quantity, price)
  {
  }

  /** Whether stop j fires does not depend on an edit of stop i. */
  lemma EditKeepsFires(i: int, j: int, a: Account, a2: Account)
    requires i != j && SameEdit(i, a, a2, a, a2)
    ensures Fires(a2, j) == Fires(a, j)
  {
  }

  lemma DispatchFire(w: World, ev: Event, j: int)
    requires ev.FillUpdate? && ev.iid != j && Ok(w.a) && Fires(w.a, j)
    requires ev.iid in w.routers ==> w.routers[ev.iid].iid == ev.iid
    ensures var w1 := Dispatch(w, ev);
      && Fires(w1.a, j) && StopFill(w1.a, j) == StopFill(w.a, j)
      && Dispatch(w.(a := FireStop(w.a, j)), ev) == w1.(a := FireStop(w1.a, j))
  {
    hide HandleFill, Ok, FireStop, Fires;
    FireStopLocal(w.a, j);
    if ev.iid in w.routers {
      var d := DeskOf(w, ev.iid);
      FillLocal(d, FireStop(w.a, j), ev);
      EditThenFire(ev.iid, j, w.a, HandleFill(d, ev).a, HandleFill(d.(a := FireStop(w.a, j)), ev).a);
    }
  }

  lemma DispatchNoFire(w: World, ev: Event, j: int)
    requires ev.FillUpdate? && ev.iid != j && Ok(w.a)
    requires ev.iid in w.routers ==> w.routers[ev.iid].iid == ev.iid
    ensures Ok(Dispatch(w, ev).a) ==> Fires(Dispatch(w, ev).a, j) == Fires(w.a, j)
  {
    hide HandleFill, Ok;
    if ev.iid in w.routers {
      FillLocal(DeskOf(w, ev.iid), w.a, ev);
      EditKeepsFires(ev.iid, j, w.a, HandleFill(DeskOf(w, ev.iid), ev).a);
    }
  }

  /** A fill may be dispatched before or after other instruments' stops fire. */
  lemma {:induction false} DispatchThenFireAll(w: World, ev: Event, rest: seq<int>)
    requires ev.FillUpdate? && ev.iid !in rest && Wf(w)
    ensures var w1 := Dispatch(w, ev);
      && FireAll(w1.a, rest).1 == FireAll(w.a, rest).1
      && Dispatch(w.(a := FireAll(w.a, rest).0), ev) == w1.(a := FireAll(w1.a, rest).0)
    decreases |rest|
  {
    hide Wf, FireStop, Fires, Dispatch, Ok;
    if rest != [] {
      var j := rest[0];
      WfOk(w);
      IidOf(w);
      var w1 := Dispatch(w, ev);
      DispatchWf(w, ev);
      WfOk(w1);
      DispatchNoFire(w, ev, j);
      if Fires(w.a, j) {
        DispatchFire(w, ev, j);
        FireWf(w, j);
        DispatchThenFireAll(w.(a := FireStop(w.a, j)), ev, rest[1..]);
      } else {
        DispatchThenFireAll(w, ev, rest[1..]);
      }
    }
  }

  lemma FireWf(w: World, j: int)
    requires Wf(w) && Fires(w.a, j)
    ensures Wf(w.(a := FireStop(w.a, j)))
  {
    hide FireStop, Ok, RouterWf;
    VenueMoves(w.a, StopFires(j));
    AccountWf(w, FireStop(w.a, j));
  }

  lemma StopFillShape(a: Account, j: int)
    requires Fires(a, j)
    ensures StopFill(a, j).FillUpdate? && StopFill(a, j).iid == j
  {
  }

  /** Firing all stops and then dispatching their fills is the run in which each stop's fill is dispatched at once. */
  lemma {:induction false} PollIsRun(w: World, listing: seq<int>)
    requires Wf(w) && Distinct(listing)
    ensures forall m :: m in Firings(listing) ==> MicroOk(m)
    ensures Poll(w, listing) == Run(w, Firings(listing))
    decreases |listing|
  {
    hide Wf, FireStop, Fires, Dispatch, Ok, StopFill;
    FiringsOk(listing);
    if listing != [] {
      var i := listing[0];
      var rest := listing[1..];
      FiringsOk(rest);
      RunFromFront(w, StopFires(i), Firings(rest));
      if Fires(w.a, i) {
        StopFillShape(w.a, i);
        FireWf(w, i);
        var wf := w.(a := FireStop(w.a, i));
        var fill := StopFill(w.a, i);
        DispatchThenFireAll(wf, fill, rest);
        DispatchWf(wf, fill);
        PollIsRun(Dispatch(wf, fill), rest);
        var fills := FireAll(wf.a, rest).1;
        assert ([fill] + fills)[1..] == fills;
      } else {
        PollIsRun(w, rest);
      }
    }
  }
}
