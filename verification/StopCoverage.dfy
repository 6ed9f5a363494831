/** On the simulated venue a stop guards exactly the instruments that hold a position, whenever no fill of the
    instrument is on its way. */
module StopCoverage {
  import opened Types
  import opened Guards
  import opened Sizing
  import opened Sim
  import opened SimLaws
  import opened Routing
  import opened Delivery
  import opened Discipline
  import opened Runtime
  import opened Runs
  import opened Recovery
  import opened Conservation
  import opened Adoptions

  function FillsOf(queue: seq<Event>, i: int): seq<Event> {
    if queue == [] then []
    else (if queue[0].FillUpdate? && queue[0].iid == i then [queue[0]] else []) + FillsOf(queue[1..], i)
  }

  lemma FillsOfHead(e: Event, q: seq<Event>, i: int)
    ensures FillsOf([e] + q, i) == if e.FillUpdate? && e.iid == i then [e] + FillsOf(q, i) else FillsOf(q, i)
  {
    assert ([e] + q)[1..] == q;
  }

  lemma NoFills(i: int)
    ensures FillsOf([], i) == []
  {
  }

  lemma {:induction false} FillsOfConcat(q: seq<Event>, s: seq<Event>, i: int)
    ensures FillsOf(q + s, i) == FillsOf(q, i) + FillsOf(s, i)
  {
    hide FillsOf;
    if q == [] {
      NoFills(i);
      assert q + s == s;
    } else {
      FillsOfConcat(q[1..], s, i);
      FillsOfHead(q[0], q[1..], i);
      FillsOfHead(q[0], q[1..] + s, i);
      assert q == [q[0]] + q[1..];
      assert q + s == [q[0]] + (q[1..] + s);
    }
  }

  lemma {:induction false} FillsOfOthers(s: seq<Event>, i: int)
    requires forall k :: 0 <= k < |s| && s[k].FillUpdate? ==> s[k].iid != i
    ensures FillsOf(s, i) == []
  {
    if s != [] { FillsOfOthers(s[1..], i); }
  }

  lemma {:induction false} NoFillsNoSum(q: seq<Event>, i: int)
    requires FillsOf(q, i) == []
    ensures Undelivered(q, i) == 0.0
  {
    if q != [] { NoFillsNoSum(q[1..], i); }
  }

  lemma {:induction false} NoFillQueued(q: seq<Event>, i: int)
    requires FillsOf(q, i) == []
    ensures forall k :: 0 <= k < |q| && q[k].FillUpdate? ==> q[k].iid != i
  {
    if q != [] {
      NoFillQueued(q[1..], i);
      forall k | 0 <= k < |q| && q[k].FillUpdate? ensures q[k].iid != i {
        if k > 0 { assert q[1..][k - 1] == q[k]; }
      }
    }
  }

  /** Every fill of i on its way is given up or live; with neither there is none. */
  lemma NeitherKind(q: seq<Event>, db: Db, i: int)
    requires NoGivenUpFill(q, db, i)
    ensures NoLiveFill(q, db, i) <==> FillsOf(q, i) == []
  {
    if NoLiveFill(q, db, i) { FillsOfOthers(q, i); }
    if FillsOf(q, i) == [] { NoFillQueued(q, i); }
  }

  lemma NothingGivenUpOnTheWay(q: seq<Event>, db: Db, i: int)
    requires FillsOf(q, i) == []
    ensures NoGivenUpFill(q, db, i)
  {
    NoFillQueued(q, i);
  }

  lemma FillsOfPair(e1: Event, e2: Event, i: int)
    requires e1.OrderUpdate? && e2.FillUpdate?
    ensures FillsOf([e1, e2], i) == if e2.iid == i then [e2] else []
  {
    var q := [e1, e2];
    assert q[1..] == [e2];
    assert [e2][1..] == [];
    assert FillsOf([e2], i) == (if e2.iid == i then [e2] else []) + FillsOf([], i);
  }

  // ----- the invariant -----

  /** With nothing on its way: a position has its stop, and (if `exact`) a stop has its position. */
  ghost predicate Quiescent(a: Account, i: int, exact: bool) {
    FillsOf(a.queue, i) == [] ==>
      (Size(a, i) != 0.0 ==> i in a.stops) && (exact && i in a.stops ==> Size(a, i) != 0.0)
  }

  /** What the router's state says about the fills on their way. */
  ghost predicate Expecting(r: Router, a: Account) {
    var fs := FillsOf(a.queue, r.iid);
    && (r.size != 0.0 ==> r.entry.Some?)
    && (r.state == Flat ==> fs == [] && r.size == 0.0)
    && (r.state == Open ==> fs == [] && r.size != 0.0)
    && (r.state == EntryPending ==>
          |fs| == 1 && fs[0].FillUpdate? && r.pendingCid == Some(fs[0].cid) && fs[0].quantity > 0.0)
    && (r.state == ExitPending ==> |fs| == 1 && r.pendingCid == Some(fs[0].cid) && Size(a, r.iid) == 0.0)
  }

  ghost predicate DeskCovered(d: Desk, exact: bool) {
    && Expecting(d.r, d.a) && Quiescent(d.a, d.r.iid, exact)
    && d.a.resting == [] && d.r.size == Lag(d.a, d.r.iid)
  }

  /** So for every router, unless a fill of an order it gave up is on its way: that fill will make it adopt. */
  ghost predicate Covered(w: World, exact: bool) {
    && w.a.resting == []
    && forall i :: i in w.routers && NoGivenUpFill(w.a.queue, w.db, i) ==> Expecting(w.routers[i], w.a) && Quiescent(w.a, i, exact)
  }

  // ----- sends -----

  /** One attempt when router and venue agree: acknowledged exactly when its one fill was queued. */
  lemma AttemptQueues(a: Account, req: OrderRequest)
    requires Ok(a) && a.resting == [] && req.quantity > 0.0
    requires !req.reduceOnly || Size(a, req.iid) != 0.0
    ensures var (b, out) := Attempt(a, req, Size(a, req.iid));
      && Ok(b) && b.resting == []
      && (out == Some(Acked) ==>
            && FillsOf(b.queue, req.iid) == FillsOf(a.queue, req.iid) + [NewFill(a, req)]
            && NewFill(a, req).cid == req.cid && NewFill(a, req).quantity == FillQuantity(a, req) > 0.0
            && Size(b, req.iid) == Size(a, req.iid) + Signed(req.side, FillQuantity(a, req)))
      && (out != Some(Acked) ==> b.queue == a.queue && Size(b, req.iid) == Size(a, req.iid))
  {
    hide Submit, Executes, Views, Equity, Ok, Arrive, Fee, Find;
    var (b, res) := Submit(a, req);
    if Executes(a, req) {
      SubmitExecutes(a, req);
      FillsOfPair(OrderUpdate(req.cid, Filled, FillQuantity(a, req)), NewFill(a, req), req.iid);
      FillsOfConcat(a.queue, [OrderUpdate(req.cid, Filled, FillQuantity(a, req)), NewFill(a, req)], req.iid);
    } else {
      SubmitFails(a, req);
    }
    SnapshotPosition(b, req.iid);
  }

  predicate IsFill(ev: Event, cid: Cid, quantity: real) {
    ev.FillUpdate? && ev.cid == cid && ev.quantity == quantity > 0.0
  }

  lemma RecoveryQueues(a: Account, req: OrderRequest)
    requires Ok(a) && a.resting == [] && req.quantity > 0.0
    requires !req.reduceOnly || Size(a, req.iid) != 0.0
    ensures var (b, out) := SubmitWithRecovery(a, req, Size(a, req.iid));
      && (out == Acked ==>
            && |FillsOf(b.queue, req.iid)| == |FillsOf(a.queue, req.iid)| + 1
            && IsFill(FillsOf(b.queue, req.iid)[|FillsOf(a.queue, req.iid)|], req.cid, FillQuantity(a, req))
            && Size(b, req.iid) == Size(a, req.iid) + Signed(req.side, FillQuantity(a, req)))
      && (out != Acked ==> b.queue == a.queue && Size(b, req.iid) == Size(a, req.iid))
  {
    hide Attempt, Ok, Snapshot;
    AttemptQueues(a, req);
    var (b, first) := Attempt(a, req, Size(a, req.iid));
    if first.None? { AttemptQueues(b, req); }
  }

  /** A fill of this request was queued at or after position n. */
  ghost predicate Brings(q: seq<Event>, n: nat, req: OrderRequest) {
    exists k :: n <= k < |q| && q[k].FillUpdate? && q[k].iid == req.iid && q[k].cid == req.cid
  }

  /** Whatever router and venue believed: the venue moved only if a fill of the request is now on its way. */
  lemma RecoveryEither(a: Account, req: OrderRequest, sizeBefore: real)
    requires Ok(a)
    ensures var b := SubmitWithRecovery(a, req, sizeBefore).0;
      (b.queue == a.queue && PosOf(b, req.iid) == PosOf(a, req.iid)) || Brings(b.queue, |a.queue|, req)
  {
    hide Ok, Submit, Executes, Snapshot, FillQuantity, Arrive, Brings;
    SubmitEither(a, req, |a.queue|);
    var (b, first) := Attempt(a, req, sizeBefore);
    if first.None? { SubmitEither(b, req, |a.queue|); }
  }

  lemma SubmitEither(a: Account, req: OrderRequest, n: nat)
    requires Ok(a) && n <= |a.queue|
    ensures var b := Submit(a, req).0;
      && Ok(b) && |b.queue| >= |a.queue|
      && ((b.queue == a.queue && PosOf(b, req.iid) == PosOf(a, req.iid)) || Brings(b.queue, n, req))
      && (Brings(a.queue, n, req) ==> Brings(b.queue, n, req))
  {
    hide Submit, Executes, Ok, Arrive, Fee, FillQuantity;
    var b := Submit(a, req).0;
    if Executes(a, req) {
      SubmitExecutes(a, req);
      assert b.queue[|a.queue| + 1] == NewFill(a, req);
      if Brings(a.queue, n, req) {
        var k :| n <= k < |a.queue| && a.queue[k].FillUpdate? && a.queue[k].iid == req.iid && a.queue[k].cid == req.cid;
        assert b.queue[k] == a.queue[k];
      }
    } else {
      SubmitFails(a, req);
    }
  }

  /** An order that is not acknowledged and moved nothing: the router is frozen where it was, or at the venue's size. */
  lemma UnsentCovered(d: Desk, cid: Cid, out: Outcome, prior: State, exact: bool)
    requires (out == Failed && FillsOf(d.a.queue, d.r.iid) == []) || out == NoAck
    requires Ok(d.a) && Quiescent(d.a, d.r.iid, exact) && d.a.resting == [] && d.r.size == Lag(d.a, d.r.iid)
    requires d.r.size != 0.0 ==> d.r.entry.Some?
    ensures DeskCovered(Conclude(d, cid, out, prior), exact)
  {
    hide Ok, Adopt, Snapshot, FillsOf, Undelivered;
    if out == Failed {
      NoFillsNoSum(d.a.queue, d.r.iid);
      AdoptEffect(Halt(d.(db := SetStatus(d.db, cid, Error))));
    }
  }

  /** A send from a settled router: in flight with exactly its own fill on the way, or back where it was, or frozen. */
  lemma SendCovered(d: Desk, intent: Intent, now: int, exact: bool)
    requires Good(d) && DeskCovered(d, exact) && intent.iid == d.r.iid && intent.quantity > 0.0
    requires if intent.reduceOnly then
        d.r.state == Open && intent.quantity == Abs(d.r.size) && intent.side == (if d.r.size > 0.0 then Sell else Buy)
      else d.r.state == Flat
    ensures DeskCovered(Send(d, intent, now), exact)
  {
    hide Ok, SubmitWithRecovery, OrdersWf, DecisionsWf, PendingWf, RowWf, NumbersWf, Adopt, Snapshot, FillsOf, Lag, Prepare;
    var d1 := Prepare(d, intent, now);
    var cid := Ours(d.r.iid, d.r.num + 1);
    var req := Request(cid, intent);
    var (a, out) := SubmitWithRecovery(d.a, req, d.r.size);
    NoFillsNoSum(d.a.queue, d.r.iid);
    LagIs(d.a, d.r.iid);
    RecoveryQueues(d.a, req);
    RecoveryTouches(d.a, req, d.r.size);
    TouchedLag(d.r.iid, d.a, a);
    SendFresh(d, intent, now);
    var d2 := d1.(a := a);
    if out == Failed || out == NoAck {
      UnsentCovered(d2, cid, out, d.r.state, exact);
    } else {
      SentCovered(d, d2, cid, intent, out, exact);
    }
  }

  lemma SentCovered(d: Desk, d2: Desk, cid: Cid, intent: Intent, out: Outcome, exact: bool)
    requires DeskCovered(d, exact) && (d.r.state == Open || d.r.state == Flat) && (out == Acked || out == Refused)
    requires d2.r.iid == d.r.iid && d2.r.size == d.r.size && d2.r.entry == d.r.entry && d2.r.pendingCid == Some(cid)
    requires d2.r.state == (if intent.reduceOnly then ExitPending else EntryPending) && d2.a.resting == []
    requires d2.r.size == Lag(d2.a, d.r.iid) && cid in d2.db.orders && d2.a.stops == d.a.stops
    requires out == Refused ==> d2.a.queue == d.a.queue && Size(d2.a, d.r.iid) == Size(d.a, d.r.iid)
    requires out == Acked ==> var fs := FillsOf(d2.a.queue, d.r.iid);
      |fs| == 1 && fs[0].FillUpdate? && fs[0].cid == cid && fs[0].quantity > 0.0 && (intent.reduceOnly ==> Size(d2.a, d.r.iid) == 0.0)
    ensures DeskCovered(Conclude(d2, cid, out, d.r.state), exact)
  {
    hide FillsOf, Lag;
  }

  lemma TouchedLag(i: int, a: Account, b: Account)
    requires Touches(i, a, b)
    ensures Lag(b, i) == Lag(a, i) && b.resting == a.resting && Ok(b)
  {
  }

  /** The id of the next send is not in the book yet. */
  lemma SendFresh(d: Desk, intent: Intent, now: int)
    requires Good(d)
    ensures Ours(d.r.iid, d.r.num + 1) !in d.db.orders
    ensures var d1 := Prepare(d, intent, now);
      && d1.a == d.a && d1.r.size == d.r.size && d1.r.entry == d.r.entry && d1.r.iid == d.r.iid
      && d1.r.pendingCid == Some(Ours(d.r.iid, d.r.num + 1)) && Ours(d.r.iid, d.r.num + 1) in d1.db.orders
      && d1.r.state == if intent.reduceOnly then ExitPending else EntryPending
  {
    hide Ok, OrdersWf, DecisionsWf, PendingWf, RowWf;
  }

  lemma ExitCovered(d: Desk, mark: real, now: int, exact: bool)
    requires Good(d) && DeskCovered(d, exact) && d.r.state == Open
    ensures DeskCovered(Exit(d, d.r.size, mark, now), exact)
  {
    hide Good, Send, Quiescent, FillsOf;
    SendCovered(d, ExitIntent(d.r.iid, d.r.size, mark), now, exact);
  }

  /** What a bar call asks of its own inputs: if the router gets as far as an entry, either the guards let none through
      or both of their rooms hold a quantum's worth - then, and only then, the entry has a quantity (EntrySizedExactly). */
  predicate EntrySized(i: int, bar: BarInput, snap: AccountSnapshot, kill: Kill, categories: map<int, Category>, pending: seq<Intent>)
    requires bar.close.Some? ==> PriceOk(bar.close.value)
  {
    bar.close.Some? && bar.complete && bar.warm && Clamp(bar.target) != 0.0 && kill != Pause ==>
      || EntryIntent(i, EntrySide(bar), bar.close.value, snap, categories, pending).None?
      || RoomForAQuantum(i, EntrySide(bar), bar.close.value, snap, categories, pending)
  }

  lemma OnBarCovered(d: Desk, bar: BarInput, snap: AccountSnapshot, kill: Kill, categories: map<int, Category>,
                     pending: seq<Intent>, now: int, exact: bool)
    requires Good(d) && DeskCovered(d, exact) && (bar.close.Some? ==> PriceOk(bar.close.value))
    requires EntrySized(d.r.iid, bar, snap, kill, categories, pending)
    ensures DeskCovered(OnBar(d, bar, snap, kill, categories, pending, now), exact)
  {
    hide Good, DeskCovered, Send, Skip, EntryIntent, EntryRaises, RoomForAQuantum, Exit, Clamp;
    SkipCovered(d, exact);
    if !Pending(d.r.state) && !Frozen(d.r.state) && bar.close.Some? {
      var mark := bar.close.value;
      if d.r.state == Open {
        ExitCovered(d, mark, now, exact);
      } else {
        var intent := EntryIntent(d.r.iid, EntrySide(bar), mark, snap, categories, pending);
        if intent.Some? && AsksEntry(d.r, bar, kill) {
          EntryCovered(d, bar, snap, categories, pending, now, exact);
        }
      }
    }
  }

  lemma EntryCovered(d: Desk, bar: BarInput, snap: AccountSnapshot, categories: map<int, Category>, pending: seq<Intent>, now: int, exact: bool)
    requires Good(d) && DeskCovered(d, exact) && d.r.state == Flat && bar.close.Some? && PriceOk(bar.close.value)
    requires EntryIntent(d.r.iid, EntrySide(bar), bar.close.value, snap, categories, pending).Some?
    requires RoomForAQuantum(d.r.iid, EntrySide(bar), bar.close.value, snap, categories, pending)
    ensures var x := EntryIntent(d.r.iid, EntrySide(bar), bar.close.value, snap, categories, pending).value;
      DeskCovered(Send(d, x, now), exact)
  {
    hide Good, DeskCovered, Send, EntryIntent, RoomForAQuantum, EntrySide;
    EntryIntentShape(d.r.iid, EntrySide(bar), bar.close.value, snap, categories, pending);
    EntrySizedExactly(d.r.iid, EntrySide(bar), bar.close.value, snap, categories, pending);
    SendCovered(d, EntryIntent(d.r.iid, EntrySide(bar), bar.close.value, snap, categories, pending).value, now, exact);
  }

  lemma SkipCovered(d: Desk, exact: bool)
    requires DeskCovered(d, exact)
    ensures DeskCovered(Skip(d), exact)
  {
    hide FillsOf, Lag;
  }

  lemma OnFastCovered(d: Desk, mark: real, snap: AccountSnapshot, now: int, exact: bool)
    requires Good(d) && DeskCovered(d, exact) && PriceOk(mark)
    ensures DeskCovered(OnFast(d, mark, snap, now), exact)
  {
    hide Good, DeskCovered, Exit;
    if d.r.state == Open {
      FreezeCovered(d, Liquidated, exact);
      ExitCovered(d, mark, now, exact);
    }
  }

  lemma FreezeCovered(d: Desk, s: State, exact: bool)
    requires DeskCovered(d, exact) && Frozen(s)
    ensures DeskCovered(SetState(d, s), exact) && DeskCovered(Halt(d), exact)
  {
    hide FillsOf, Lag;
  }

  /** The operator's clear when nothing is on its way. */
  lemma ClearCovered(d: Desk, exact: bool)
    requires DeskCovered(d, exact) && FillsOf(d.a.queue, d.r.iid) == []
    ensures DeskCovered(ClearHalt(d), exact)
  {
    hide FillsOf, Lag;
  }

  /** If the call takes the venue's size, no live fill is left on its way. */
  ghost predicate TakesClean(d: Desk, d2: Desk) {
    !NotAdopted(d.db, d2.db) ==> NoLiveFill(d2.a.queue, d2.db, d.r.iid)
  }

  /** A shutdown's exit either moved the venue, and then its fill is on the way, or left it as it was. */
  lemma ShutdownCovered(d: Desk, mark: real, held: real, now: int, exact: bool)
    requires Good(d) && DeskCovered(d, exact)
    requires var d2 := Shutdown(d, mark, held, now); TakesClean(d, d2) && NoGivenUpFill(d2.a.queue, d2.db, d.r.iid)
    ensures DeskCovered(Shutdown(d, mark, held, now), exact)
  {
    hide Good, Exit, DeskCovered;
    if held != 0.0 && !Pending(d.r.state) && d.r.state != Liquidated {
      FlattenCovered(d, mark, held, now, exact);
    } else {
      FreezeCovered(d, Halted, exact);
    }
  }

  lemma FlattenCovered(d: Desk, mark: real, held: real, now: int, exact: bool)
    requires Good(d) && DeskCovered(d, exact) && held != 0.0 && !Pending(d.r.state)
    requires var d2 := Exit(d, held, mark, now); TakesClean(d, d2) && NoGivenUpFill(d2.a.queue, d2.db, d.r.iid)
    ensures DeskCovered(SetState(Exit(d, held, mark, now), Halted), exact)
  {
    hide Good, Ok, SubmitWithRecovery, Adopt, Snapshot, FillsOf, Prepare, Conclude, NoLiveFill, Lag, Brings;
    var intent := ExitIntent(d.r.iid, held, mark);
    var d1 := Prepare(d, intent, now);
    var cid := Ours(d.r.iid, d.r.num + 1);
    var req := Request(cid, intent);
    var (a, out) := SubmitWithRecovery(d.a, req, d.r.size);
    var d2 := d1.(a := a);
    GoodParts(d);
    SendFresh(d, intent, now);
    RecoveryEither(d.a, req, d.r.size);
    RecoveryTouches(d.a, req, d.r.size);
    TouchedLag(d.r.iid, d.a, a);
    ConcludeCalm(d2, cid, out, d.r.state);
    if Brings(a.queue, |d.a.queue|, req) { BringsFill(a.queue, |d.a.queue|, req, Conclude(d2, cid, out, d.r.state).db); }
    if out == Failed { NewlyAdopted(d, Conclude(d2, cid, out, d.r.state), cid); }
    if out == Failed || out == NoAck {
      if out == Failed { NeitherKind(a.queue, Conclude(d2, cid, out, d.r.state).db, d.r.iid); }
      UnsentCovered(d2, cid, out, d.r.state, exact);
      FreezeCovered(Conclude(d2, cid, out, d.r.state), Halted, exact);
    } else {
      ConcludeVenue(d2, cid, out, d.r.state);
      HaltedCovered(d, Conclude(d2, cid, out, d.r.state), exact);
    }
  }

  /** What the venue sent stands in the queue, and is no fill of a given-up order if there is none. */
  lemma BringsFill(q: seq<Event>, n: nat, req: OrderRequest, db: Db)
    requires Brings(q, n, req)
    ensures FillsOf(q, req.iid) != []
    ensures NoGivenUpFill(q, db, req.iid) && req.cid in db.orders ==> !GaveUp(db.orders[req.cid].status)
  {
    hide FillsOf;
    if FillsOf(q, req.iid) == [] { NoFillQueued(q, req.iid); }
  }

  lemma NewlyAdopted(d: Desk, d2: Desk, cid: Cid)
    requires cid !in d.db.orders && cid in d2.db.orders && d2.db.orders[cid].status == Error
    ensures !NotAdopted(d.db, d2.db)
  {
  }

  lemma HaltedCovered(d: Desk, d2: Desk, exact: bool)
    requires DeskCovered(d, exact) && d2.r.iid == d.r.iid && d2.r.size == d.r.size && d2.r.entry == d.r.entry
    requires d2.a.resting == [] && d2.a.stops == d.a.stops && Lag(d2.a, d.r.iid) == Lag(d.a, d.r.iid)
    requires (d2.a.queue == d.a.queue && PosOf(d2.a, d.r.iid) == PosOf(d.a, d.r.iid)) || FillsOf(d2.a.queue, d.r.iid) != []
    ensures DeskCovered(SetState(d2, Halted), exact)
  {
    hide FillsOf, Lag;
  }

  lemma ConcludeVenue(d: Desk, cid: Cid, out: Outcome, prior: State)
    requires cid in d.db.orders && (out == Acked || out == Refused)
    ensures Conclude(d, cid, out, prior).a == d.a && Conclude(d, cid, out, prior).r.size == d.r.size
    ensures Conclude(d, cid, out, prior).r.entry == d.r.entry && Conclude(d, cid, out, prior).r.iid == d.r.iid
  {
  }

  /** The router holds the venue's size and nothing is on its way. */
  lemma AdoptedCovered(d: Desk, exact: bool)
    requires FillsOf(d.a.queue, d.r.iid) == [] && d.r.size == Size(d.a, d.r.iid) && d.a.resting == []
    requires (d.r.size != 0.0 <==> d.r.iid in d.a.stops) && (d.r.size != 0.0 ==> d.r.entry.Some?)
    requires Frozen(d.r.state) || d.r.state == Settled(d.r.size)
    ensures DeskCovered(d, exact)
  {
    hide FillsOf, Undelivered;
    NoFillsNoSum(d.a.queue, d.r.iid);
  }

  lemma CheckPendingCovered(d: Desk, now: int, exact: bool)
    requires Good(d) && DeskCovered(d, exact)
    requires var d2 := CheckPending(d, Snapshot(d.a), now); TakesClean(d, d2) && NoGivenUpFill(d2.a.queue, d2.db, d.r.iid)
    ensures DeskCovered(CheckPending(d, Snapshot(d.a), now), exact)
  {
    hide Ok, AdoptAndSettle, Snapshot, OrdersWf, DecisionsWf, NumbersWf, RowWf, FillsOf, NoLiveFill, NoGivenUpFill, Lag;
    if CheckPending(d, Snapshot(d.a), now) != d {
      var d2 := CheckPending(d, Snapshot(d.a), now);
      AdoptAndSettleEffect(d.(db := SetStatus(d.db, d.r.pendingCid.value, TimeoutAdopted)));
      assert !NotAdopted(d.db, d2.db);
      NeitherKind(d2.a.queue, d2.db, d.r.iid);
      AdoptedCovered(d2, exact);
    }
  }

  // ----- fills -----

  lemma EntryStays(size: real, entry: Option<real>, delta: real, price: real)
    requires size != 0.0 ==> entry.Some?
    ensures size + delta != 0.0 ==> FillEntry(size, entry, delta, price).Some?
  {
  }

  /** The booked fill was the last one on its way. */
  lemma LastFillCovered(d: Desk, cid: Cid, ours: bool, exact: bool)
    requires (d.r.size != 0.0 ==> d.r.entry.Some?) && d.a.resting == []
    requires FillsOf(d.a.queue, d.r.iid) == [] && d.r.size == Size(d.a, d.r.iid)
    requires d.r.state != Flat && d.r.state != Open
    requires d.r.state == EntryPending ==> d.r.pendingCid == Some(cid)
    requires d.r.state == ExitPending ==> d.r.size == 0.0
    ensures DeskCovered(AfterFill(d, cid, ours), exact)
  {
    hide StopPrice, FillsOf, Undelivered;
    NoFillsNoSum(d.a.queue, d.r.iid);
  }

  /** A fill booked while the router is frozen and others are still on their way. */
  lemma FrozenFillCovered(d: Desk, cid: Cid, ours: bool, exact: bool)
    requires (d.r.size != 0.0 ==> d.r.entry.Some?) && d.a.resting == [] && d.r.size == Lag(d.a, d.r.iid)
    requires Frozen(d.r.state) && FillsOf(d.a.queue, d.r.iid) != []
    ensures DeskCovered(AfterFill(d, cid, ours), exact)
  {
    hide StopPrice, FillsOf, Undelivered;
  }

  lemma BookedFill(d: Desk, ev: Event)
    requires ev.FillUpdate? && ev.iid == d.r.iid && !LateFill(d, ev.cid)
    requires d.r.size != 0.0 ==> d.r.entry.Some?
    ensures var d1 := Booked(d, ev);
      && HandleFill(d, ev) == AfterFill(d1, ev.cid, ev.cid in d.db.orders)
      && d1.a == d.a && d1.r.size == d.r.size + Signed(ev.side, ev.quantity) && (d1.r.size != 0.0 ==> d1.r.entry.Some?)
      && d1.r.state == d.r.state && d1.r.pendingCid == d.r.pendingCid && d1.r.iid == d.r.iid
  {
    hide FillEntry, RecordFill, AfterFill;
    EntryStays(d.r.size, d.r.entry, Signed(ev.side, ev.quantity), ev.price);
  }

  function Booked(d: Desk, ev: Event): Desk
    requires ev.FillUpdate?
  {
    var d1 := ApplyFill(d, ev.side, ev.quantity, ev.price);
    d1.(db := RecordFill(d1.db, ev.cid, ev.quantity, ev.price))
  }

  /** Delivering the queue's head. */
  lemma DeliveredCovered(d: Desk, ev: Event, rest: seq<Event>, exact: bool)
    requires DeskCovered(d, exact) && d.a.queue == [ev] + rest && ev.FillUpdate? && ev.iid == d.r.iid
    requires !LateFill(d, ev.cid)
    ensures DeskCovered(HandleFill(d.(a := d.a.(queue := rest)), ev), exact)
  {
    hide HandleFill, AfterFill, Booked;
    assert d.a.queue[1..] == rest;
    assert FillsOf(d.a.queue, d.r.iid) == [ev] + FillsOf(rest, d.r.iid);
    var d0 := d.(a := d.a.(queue := rest));
    BookedFill(d0, ev);
    var d1 := Booked(d0, ev);
    if FillsOf(rest, d.r.iid) == [] {
      NoFillsNoSum(rest, d.r.iid);
      LastFillCovered(d1, ev.cid, ev.cid in d.db.orders, exact);
    } else {
      FrozenFillCovered(d1, ev.cid, ev.cid in d.db.orders, exact);
    }
  }

  /** A venue stop closing the position, its fill dispatched at once. */
  lemma FiredCovered(d: Desk, b: Account, ev: Event, exact: bool)
    requires DeskCovered(d, exact) && ev.FillUpdate? && ev.iid == d.r.iid && ev.cid.StopOrder?
    requires ev.cid !in d.db.orders && (d.r.pendingCid.Some? ==> d.r.pendingCid.value.Ours?)
    requires b.queue == d.a.queue && b.resting == d.a.resting && Size(b, d.r.iid) == 0.0 && d.r.iid !in b.stops
    requires Signed(ev.side, ev.quantity) == -Size(d.a, d.r.iid) && Size(d.a, d.r.iid) != 0.0
    ensures DeskCovered(HandleFill(d.(a := b), ev), exact)
  {
    hide HandleFill, AfterFill, Booked, FillsOf;
    var d0 := d.(a := b);
    BookedFill(d0, ev);
    var d1 := Booked(d0, ev);
    var fs := FillsOf(d.a.queue, d.r.iid);
    if fs == [] {
      NoFillsNoSum(d.a.queue, d.r.iid);
      WithdrawCovered(d1, ev.cid, exact);
    } else if Frozen(d.r.state) {
      FrozenFillCovered(d1, ev.cid, false, exact);
    } else {
      OneFillSum(d.a.queue, d.r.iid);
      CrossedCovered(d1, ev.cid, exact);
    }
  }

  lemma WithdrawCovered(d: Desk, cid: Cid, exact: bool)
    requires FillsOf(d.a.queue, d.r.iid) == [] && d.r.size == 0.0 == Size(d.a, d.r.iid) && d.a.resting == []
    ensures DeskCovered(AfterFill(d, cid, false), exact)
  {
    hide FillsOf, Undelivered, StopPrice;
    NoFillsNoSum(d.a.queue, d.r.iid);
  }

  /** The stop closed a position whose entry fill is still on its way: the router waits on. */
  lemma CrossedCovered(d: Desk, cid: Cid, exact: bool)
    requires d.r.state == EntryPending && d.r.pendingCid != Some(cid) && d.r.size != 0.0
    requires Expecting(d.r, d.a) && d.a.resting == [] && d.r.size == Lag(d.a, d.r.iid)
    ensures DeskCovered(AfterFill(d, cid, false), exact)
  {
    hide FillsOf, Undelivered, StopPrice;
  }

  lemma {:induction false} OneFillSum(q: seq<Event>, i: int)
    requires |FillsOf(q, i)| == 1
    ensures FillsOf(q, i)[0].FillUpdate? && FillsOf(q, i)[0].iid == i
    ensures Undelivered(q, i) == Signed(FillsOf(q, i)[0].side, FillsOf(q, i)[0].quantity)
  {
    if q[0].FillUpdate? && q[0].iid == i {
      assert FillsOf(q, i) == [q[0]] + FillsOf(q[1..], i);
      NoFillsNoSum(q[1..], i);
    } else {
      OneFillSum(q[1..], i);
    }
  }

  // ----- the whole system -----

  lemma DeskIsCovered(w: World, i: int, exact: bool)
    requires Wf(w) && Conserved(w) && Covered(w, exact) && i in w.routers && NoGivenUpFill(w.a.queue, w.db, i)
    ensures DeskCovered(DeskOf(w, i), exact)
  {
    hide Ok, OrdersWf, DecisionsWf, NumbersWf, PendingWf, RowWf, QueueWf, FillsOf, Lag, NoGivenUpFill;
    IidOf(w);
  }

  lemma TouchesOthers(i: int, j: int, a: Account, b: Account)
    requires Touches(i, a, b) && j != i
    ensures FillsOf(b.queue, j) == FillsOf(a.queue, j) && Size(b, j) == Size(a, j) && (j in b.stops <==> j in a.stops)
  {
    hide Ok, Lag;
    var after := b.queue[|a.queue|..];
    assert b.queue == a.queue + after;
    forall k | 0 <= k < |after| && after[k].FillUpdate? ensures after[k].iid != j {
      assert after[k] == b.queue[|a.queue| + k];
    }
    FillsOfConcat(a.queue, after, j);
    FillsOfOthers(after, j);
  }

  lemma PutCovered(w: World, i: int, d2: Desk, exact: bool)
    requires Covered(w, exact) && i in w.routers && Touches(i, w.a, d2.a) && Kept(w, Put(w, i, d2))
    requires forall j :: j in w.routers ==> w.routers[j].iid == j
    requires (NoGivenUpFill(d2.a.queue, d2.db, i) ==> DeskCovered(d2, exact)) && d2.r.iid == i
    ensures Covered(Put(w, i, d2), exact)
  {
    hide Touches, FillsOf, Lag, NoGivenUpFill, Kept;
    TouchesTo(i, w.a, d2.a);
    TouchedLag(i, w.a, d2.a);
    var w2 := Put(w, i, d2);
    forall j | j in w2.routers && NoGivenUpFill(w2.a.queue, w2.db, j)
      ensures Expecting(w2.routers[j], w2.a) && Quiescent(w2.a, j, exact)
    {
      if j != i {
        TouchesOthers(i, j, w.a, d2.a);
        FreeBefore(w, w2, j);
      }
    }
  }

  /** Every entry the call may ask for is sized. */
  ghost predicate CallSized(m: Micro, categories: map<int, Category>)
    requires MicroOk(m)
  {
    m.BarCall? ==> EntrySized(m.iid, m.bar, m.snap, m.kill, categories, m.pending)
  }

  /** What a step of a covered run needs: an adoption comes with no live fill of its instrument on its way, and the
      operator clears a router with no fill on its way. */
  ghost predicate CarefulStep(w: World, m: Micro)
    requires MicroOk(m)
  {
    CleanStep(w, m) && (m.Operator? ==> FillsOf(w.a.queue, m.iid) == [])
  }

  lemma CalledCovered(w: World, m: Micro, exact: bool)
    requires Wf(w) && MicroOk(m) && IsCall(m) && m.iid in w.routers && DeskCovered(DeskOf(w, m.iid), exact)
    requires TakesClean(DeskOf(w, m.iid), Called(w, m)) && (m.Operator? ==> FillsOf(w.a.queue, m.iid) == [])
    requires NoGivenUpFill(Called(w, m).a.queue, Called(w, m).db, m.iid) && CallSized(m, w.categories) && w.routers[m.iid].iid == m.iid
    ensures DeskCovered(Called(w, m), exact)
  {
    hide Wf, Good, DeskCovered, OnBar, OnFast, CheckPending, Shutdown, Snapshot, EntrySized, TakesClean, NoGivenUpFill, FillsOf;
    DeskGood(w, m.iid);
    var d := DeskOf(w, m.iid);
    match m
    case BarCall(_, bar, snap, kill, pending, now) => OnBarCovered(d, bar, snap, kill, w.categories, pending, now, exact);
    case FastCall(_, mark, liq, now) => OnFastCovered(d, mark, Snapshot(w.a).(inLiquidation := liq), now, exact);
    case TimeoutCall(_, now) => CheckPendingCovered(d, now, exact);
    case ShutdownCall(_, mark, now) => ShutdownCovered(d, mark, Size(w.a, m.iid), now, exact);
    case HaltCall(_) => FreezeCovered(d, Halted, exact);
    case Operator(_) => ClearCovered(d, exact);
  }

  lemma CallCovered(w: World, m: Micro, exact: bool)
    requires Wf(w) && Conserved(w) && Covered(w, exact) && Closed(m) && IsCall(m) && m.iid in w.routers
    requires CarefulStep(w, m) && CallSized(m, w.categories)
    ensures Covered(Act(w, m), exact)
  {
    hide Wf, Conserved, Covered, Good, DeskCovered, Called, CallSized, Step, Touches, Kept, NoGivenUpFill, NoLiveFill, FillsOf,
      NotAdopted;
    CalledSteps(w, m);
    var d, d2 := DeskOf(w, m.iid), Called(w, m);
    StepParts(d, d2);
    ActWf(w, m);
    IidOf(w);
    TouchesTo(m.iid, w.a, d2.a);
    if NoGivenUpFill(d2.a.queue, d2.db, m.iid) {
      FreeBefore(w, Act(w, m), m.iid);
      DeskIsCovered(w, m.iid, exact);
      if !NotAdopted(d.db, d2.db) { assert AdoptsFor(w, m, m.iid); }
      CalledCovered(w, m, exact);
    }
    PutCovered(w, m.iid, d2, exact);
  }

  /** Only an order update is dispatched, and on this venue it says "filled", which no router acts on. */
  lemma {:induction false} FilledUpdateLeaves(w: World, ids: seq<int>, cid: Cid)
    ensures UpdateAll(w, ids, cid, Filled).a == w.a && UpdateAll(w, ids, cid, Filled).routers == w.routers
    decreases |ids|
  {
    if ids != [] {
      if ids[0] in w.routers {
        FilledUpdateRouter(DeskOf(w, ids[0]), cid);
        assert w.routers[ids[0] := w.routers[ids[0]]] == w.routers;
        FilledUpdateLeaves(Put(w, ids[0], HandleUpdate(DeskOf(w, ids[0]), cid, Filled)), ids[1..], cid);
      } else {
        FilledUpdateLeaves(w, ids[1..], cid);
      }
    }
  }

  lemma FilledUpdateRouter(d: Desk, cid: Cid)
    ensures HandleUpdate(d, cid, Filled).r == d.r && HandleUpdate(d, cid, Filled).a == d.a
  {
  }

  /** Every queued order update reports a fill, and every queued fill an order of its instrument. */
  ghost predicate SimQueue(a: Account) {
    forall k :: 0 <= k < |a.queue| && a.queue[k].OrderUpdate? ==> a.queue[k].status == Filled
  }

  lemma PopFills(q: seq<Event>, i: int)
    requires q != [] && !(q[0].FillUpdate? && q[0].iid == i)
    ensures FillsOf(q, i) == FillsOf(q[1..], i)
  {
  }

  lemma PumpCovered(w: World, exact: bool)
    requires Wf(w) && Conserved(w) && Covered(w, exact) && SimQueue(w.a) && CleanStep(w, Pump)
    ensures Covered(Act(w, Pump), exact)
  {
    hide Wf, Conserved, UpdateAll, HandleFill, FillsOf, Lag, Kept, NoGivenUpFill, LateFill, CleanStep, Expecting, Quiescent;
    if w.a.queue != [] {
      var ev := w.a.queue[0];
      var w1 := w.(a := w.a.(queue := w.a.queue[1..]));
      var w2 := Act(w, Pump);
      ActWf(w, Pump);
      IidOf(w);
      if ev.FillUpdate? && ev.iid in w.routers {
        FillPumpCovered(w, ev, exact);
      } else {
        if ev.OrderUpdate? { FilledUpdateLeaves(w1, w1.ids, ev.cid); }
        forall i | i in w2.routers && NoGivenUpFill(w2.a.queue, w2.db, i)
          ensures Expecting(w2.routers[i], w2.a) && Quiescent(w2.a, i, exact)
        {
          FreePopped(w, w2, i);
          PoppedCovered(w, w2, i, exact);
        }
      }
    }
  }

  lemma PoppedCovered(w: World, w2: World, i: int, exact: bool)
    requires w.a.queue != [] && i in w.routers && i in w2.routers && w2.routers[i] == w.routers[i] && w.routers[i].iid == i
    requires w2.a.queue == w.a.queue[1..] && PosOf(w2.a, i) == PosOf(w.a, i) && (i in w2.a.stops <==> i in w.a.stops)
    requires !(w.a.queue[0].FillUpdate? && w.a.queue[0].iid == i)
    requires Expecting(w.routers[i], w.a) && Quiescent(w.a, i, exact)
    ensures Expecting(w2.routers[i], w2.a) && Quiescent(w2.a, i, exact)
  {
    hide FillsOf;
    PopFills(w.a.queue, i);
  }

  lemma FillPumpCovered(w: World, ev: Event, exact: bool)
    requires Wf(w) && Conserved(w) && Covered(w, exact) && CleanStep(w, Pump) && w.a.queue != [] && w.a.queue[0] == ev
    requires ev.FillUpdate? && ev.iid in w.routers && Kept(w, Act(w, Pump))
    ensures Covered(Act(w, Pump), exact)
  {
    hide Wf, HandleFill, Lag, Ok, Kept, NoGivenUpFill, LateFill, Expecting, Quiescent, Conserved, CleanStep, FillsOf;
    var i := ev.iid;
    var w1 := w.(a := w.a.(queue := w.a.queue[1..]));
    IidOf(w);
    WfOk(w);
    PopOk(w);
    var d := DeskOf(w1, i);
    var d2 := HandleFill(d, ev);
    var w2 := Act(w, Pump);
    assert w2 == Put(w1, i, d2);
    FillFrame(d, ev);
    if NoGivenUpFill(w2.a.queue, w2.db, i) {
      if LateFill(d, ev.cid) { LateFillCovered(w, ev, exact); } else { LiveFillCovered(w, ev, exact); }
    }
    forall j | j in w2.routers && NoGivenUpFill(w2.a.queue, w2.db, j)
      ensures Expecting(w2.routers[j], w2.a) && Quiescent(w2.a, j, exact)
    {
      if j != i {
        FreePopped(w, w2, j);
        PoppedCovered(w, w2, j, exact);
      } else {
        CoveredParts(d2, exact);
      }
    }
  }

  lemma CoveredParts(d: Desk, exact: bool)
    requires DeskCovered(d, exact)
    ensures Expecting(d.r, d.a) && Quiescent(d.a, d.r.iid, exact)
  {
  }

  /** A fill of a given-up order, delivered with no live fill behind it. */
  lemma LateFillCovered(w: World, ev: Event, exact: bool)
    requires Wf(w) && CleanStep(w, Pump) && Covered(w, exact)
    requires w.a.queue != [] && w.a.queue[0] == ev && ev.FillUpdate? && ev.iid in w.routers
    requires w.routers[ev.iid].iid == ev.iid && Ok(w.a)
    requires var w1 := w.(a := w.a.(queue := w.a.queue[1..]));
      && LateFill(DeskOf(w1, ev.iid), ev.cid) && Act(w, Pump) == Put(w1, ev.iid, HandleFill(DeskOf(w1, ev.iid), ev))
    requires NoGivenUpFill(Act(w, Pump).a.queue, Act(w, Pump).db, ev.iid)
    ensures var w1 := w.(a := w.a.(queue := w.a.queue[1..])); DeskCovered(HandleFill(DeskOf(w1, ev.iid), ev), exact)
  {
    hide Wf, AdoptAndSettle, Snapshot, Lag, Ok, NoGivenUpFill, NoLiveFill, FillsOf, Covered, DeskCovered;
    PopOk(w);
    var w1 := w.(a := w.a.(queue := w.a.queue[1..]));
    var d := DeskOf(w1, ev.iid);
    var row := d.db.orders[ev.cid];
    AdoptAndSettleEffect(d.(db := d.db.(orders := d.db.orders[ev.cid := row.(filled := row.filled + ev.quantity)])));
    var d2 := HandleFill(d, ev);
    assert LateFill(DeskOf(w, ev.iid), ev.cid);
    assert AdoptsFor(w, Pump, ev.iid);
    NeitherKind(d2.a.queue, d2.db, ev.iid);
    CoveredResting(w, exact);
    TouchedLag(ev.iid, d.a, d2.a);
    AdoptedCovered(d2, exact);
  }

  lemma LiveFillCovered(w: World, ev: Event, exact: bool)
    requires Wf(w) && Conserved(w) && Covered(w, exact)
    requires w.a.queue != [] && w.a.queue[0] == ev && ev.FillUpdate? && ev.iid in w.routers
    requires w.routers[ev.iid].iid == ev.iid && Kept(w, Act(w, Pump)) && Act(w, Pump).a.queue == w.a.queue[1..]
    requires var w1 := w.(a := w.a.(queue := w.a.queue[1..])); !LateFill(DeskOf(w1, ev.iid), ev.cid)
    requires NoGivenUpFill(Act(w, Pump).a.queue, Act(w, Pump).db, ev.iid)
    ensures var w1 := w.(a := w.a.(queue := w.a.queue[1..])); DeskCovered(HandleFill(DeskOf(w1, ev.iid), ev), exact)
  {
    hide Wf, Conserved, Covered, HandleFill, Lag, LateFill, Kept, NoGivenUpFill, DeskCovered, Act;
    var w1 := w.(a := w.a.(queue := w.a.queue[1..]));
    SameLate(DeskOf(w, ev.iid), DeskOf(w1, ev.iid), ev.cid);
    NotLateNotGivenUp(w, ev);
    FreePopped(w, Act(w, Pump), ev.iid);
    DeskIsCovered(w, ev.iid, exact);
    assert w.a.queue == [ev] + w.a.queue[1..];
    DeliveredCovered(DeskOf(w, ev.iid), ev, w.a.queue[1..], exact);
  }

  /** What a fill, late or not, leaves of the rest of the world. */
  lemma FillFrame(d: Desk, ev: Event)
    requires ev.FillUpdate? && ev.iid == d.r.iid && Ok(d.a)
    ensures var d2 := HandleFill(d, ev);
      && d2.r.iid == d.r.iid && d2.a.queue == d.a.queue && d2.a.resting == d.a.resting
      && (forall j :: PosOf(d2.a, j) == PosOf(d.a, j))
      && forall j :: j != d.r.iid ==> (j in d2.a.stops <==> j in d.a.stops)
  {
    hide HandleFill, Ok, AdoptAndSettle, Snapshot, LateFill;
    if LateFill(d, ev.cid) {
      LateFillFrame(d, ev);
    } else {
      FillAdds(d, ev);
      HandleFillFrame(d, ev);
    }
  }

  lemma LateFillFrame(d: Desk, ev: Event)
    requires ev.FillUpdate? && ev.iid == d.r.iid && Ok(d.a) && LateFill(d, ev.cid)
    ensures var d2 := HandleFill(d, ev);
      && d2.r.iid == d.r.iid && d2.a.queue == d.a.queue && d2.a.resting == d.a.resting
      && (forall j :: PosOf(d2.a, j) == PosOf(d.a, j))
      && forall j :: j != d.r.iid ==> (j in d2.a.stops <==> j in d.a.stops)
  {
    hide Ok, AdoptAndSettle, Snapshot;
    var row := d.db.orders[ev.cid];
    AdoptAndSettleEffect(d.(db := d.db.(orders := d.db.orders[ev.cid := row.(filled := row.filled + ev.quantity)])));
  }

  lemma HandleFillFrame(d: Desk, ev: Event)
    requires ev.FillUpdate? && ev.iid == d.r.iid && !LateFill(d, ev.cid)
    ensures HandleFill(d, ev).r.iid == d.r.iid
    ensures forall j :: j != d.r.iid ==> (j in HandleFill(d, ev).a.stops <==> j in d.a.stops)
  {
    hide FillEntry, StopPrice, RecordFill;
  }

  lemma StopFiresCovered(w: World, i: int, exact: bool)
    requires Wf(w) && Conserved(w) && Covered(w, exact)
    ensures Covered(Act(w, StopFires(i)), exact)
  {
    hide Wf, Conserved, HandleFill, Lag, Ok, FireStop, PlainCash, FillsOf, Fires, StopFill, NoGivenUpFill, Kept, DeskCovered, LateFill;
    if Fires(w.a, i) {
      WfOk(w);
      ActWf(w, StopFires(i));
      FireStopEffect(w.a, i);
      FireStopResting(w.a, i);
      StopFillIs(w.a, i);
      var b, ev := FireStop(w.a, i), StopFill(w.a, i);
      var w1, w2 := w.(a := b), Act(w, StopFires(i));
      IidOf(w);
      if i in w.routers {
        StopIdsUnrecorded(w, ev.cid);
        UnrecordedNotLate(DeskOf(w1, i), ev.cid);
        FillAdds(DeskOf(w1, i), ev);
        HandleFillFrame(DeskOf(w1, i), ev);
        if NoGivenUpFill(w.a.queue, w.db, i) {
          PendingIsOurs(w, i);
          DeskIsCovered(w, i, exact);
          FiredCovered(DeskOf(w, i), b, ev, exact);
          CoveredParts(HandleFill(DeskOf(w1, i), ev), exact);
        }
      }
      forall j | j in w2.routers && NoGivenUpFill(w2.a.queue, w2.db, j)
        ensures Expecting(w2.routers[j], w2.a) && Quiescent(w2.a, j, exact)
      {
        FreeBefore(w, w2, j);
      }
    }
  }

  lemma UnrecordedNotLate(d: Desk, cid: Cid)
    requires cid !in d.db.orders
    ensures !LateFill(d, cid)
  {
  }

  lemma FireStopResting(a: Account, i: int)
    requires Fires(a, i)
    ensures FireStop(a, i).resting == a.resting
  {
    hide Fee, Book;
  }

  lemma PendingIsOurs(w: World, i: int)
    requires Wf(w) && i in w.routers
    ensures w.routers[i].pendingCid.Some? ==> w.routers[i].pendingCid.value.Ours?
  {
    hide Ok, OrdersWf, DecisionsWf, NumbersWf, RowWf, QueueWf;
    assert RouterWf(w, i);
  }

  /** Nothing moves but stops: none of a position is dropped and none is placed elsewhere. */
  ghost predicate Framed(w: World, w2: World) {
    && w2.a.queue == w.a.queue && w2.a.resting == w.a.resting && (forall j :: j in w2.routers <==> j in w.routers)
    && (forall j :: j in w.routers ==> w2.routers[j] == w.routers[j].(stop := w2.routers[j].stop))
    && (forall j :: Size(w2.a, j) == Size(w.a, j))
    && (forall j :: Size(w.a, j) != 0.0 && j in w.a.stops ==> j in w2.a.stops)
    && (forall j :: j in w2.a.stops ==> j in w.a.stops || Size(w.a, j) != 0.0)
  }

  lemma FundFrame(w: World, m: Micro)
    requires MicroOk(m) && (m.Fund? || m.Tick? || m.Inject? || (m.CancelOrder? && w.a.resting == []))
    ensures Framed(w, Act(w, m))
  {
    hide FundingPaid;
  }

  lemma GuardFrame(w: World, m: Micro)
    requires m.GuardPosition? || m.DropOrphan?
    ensures Framed(w, Act(w, m))
  {
    hide VenueStop;
  }

  lemma VenueCovered(w: World, m: Micro, exact: bool)
    requires Covered(w, exact) && Admissible(m) && Kept(w, Act(w, m))
    requires m.Tick? || m.Fund? || m.Inject? || m.DropOrphan? || m.CancelOrder? || m.GuardPosition?
    ensures Covered(Act(w, m), exact)
  {
    hide FillsOf, NoGivenUpFill, Kept, Act;
    if m.GuardPosition? || m.DropOrphan? { GuardFrame(w, m); } else { FundFrame(w, m); }
    var w2 := Act(w, m);
    forall j | j in w2.routers && NoGivenUpFill(w2.a.queue, w2.db, j) ensures NoGivenUpFill(w.a.queue, w.db, j) {
      FreeBefore(w, w2, j);
    }
  }

  /** No stop of a routed instrument stands without its position. */
  ghost predicate NoOrphan(a: Account, ids: seq<int>) {
    forall i :: i in ids && i in a.stops ==> Size(a, i) != 0.0
  }

  lemma RestartCovered(w: World, now: int)
    requires StoreWf(w) && w.a.resting == []
    ensures Covered(RestartWorld(w, now), false)
    ensures NoOrphan(w.a, w.ids) ==> Covered(RestartWorld(w, now), true)
  {
    hide RestartWorld, StoreWf, TablesWf, RouterWf;
    RestartWf(w, now);
    RestartEffect(w, now);
    IidOf(RestartWorld(w, now));
    var w2 := RestartWorld(w, now);
    forall i | i in w2.routers ensures Expecting(w2.routers[i], w2.a) && w2.routers[i].iid == i {
      NeverPendingAfter(w.db.positions, i, w2.routers[i].size);
    }
  }

  lemma NeverPendingAfter(local: map<int, PositionRow>, i: int, size: real)
    ensures !Pending(RecoveredState(local, i, size))
    ensures RecoveredState(local, i, size) == Flat ==> size == 0.0
    ensures RecoveredState(local, i, size) == Open ==> size != 0.0
  {
  }

  lemma TouchedSimQueue(i: int, a: Account, b: Account)
    requires SimQueue(a) && Touches(i, a, b)
    ensures SimQueue(b)
  {
    hide Ok, Lag;
    forall k | 0 <= k < |b.queue| && b.queue[k].OrderUpdate? ensures b.queue[k].status == Filled {
      if k < |a.queue| { assert b.queue[k] == a.queue[k]; } else { assert EventOf(b.queue[k], i); }
    }
  }

  lemma {:induction false} UpdateAllAccount(w: World, ids: seq<int>, cid: Cid, s: OrderStatus)
    ensures UpdateAll(w, ids, cid, s).a == w.a
    decreases |ids|
  {
    if ids != [] {
      if ids[0] in w.routers {
        var d2 := HandleUpdate(DeskOf(w, ids[0]), cid, s);
        UpdateAllAccount(Put(w, ids[0], d2), ids[1..], cid, s);
      } else {
        UpdateAllAccount(w, ids[1..], cid, s);
      }
    }
  }

  lemma DispatchQueue(w: World, ev: Event)
    requires Wf(w)
    ensures Dispatch(w, ev).a.queue == w.a.queue
  {
    hide Wf, Good, HandleFill, UpdateAll;
    if ev.OrderUpdate? {
      UpdateAllAccount(w, w.ids, ev.cid, ev.status);
    } else if ev.iid in w.routers {
      DeskGood(w, ev.iid);
      FillQueue(DeskOf(w, ev.iid), ev);
    }
  }

  lemma FillQueue(d: Desk, ev: Event)
    requires ev.FillUpdate? && Good(d)
    ensures HandleFill(d, ev).a.queue == d.a.queue
  {
    hide FillEntry, StopPrice, RecordFill, OrdersWf, DecisionsWf, NumbersWf, PendingWf, RowWf, AdoptAndSettle, Snapshot, Ok;
    if ev.iid == d.r.iid && LateFill(d, ev.cid) {
      var row := d.db.orders[ev.cid];
      AdoptAndSettleEffect(d.(db := d.db.(orders := d.db.orders[ev.cid := row.(filled := row.filled + ev.quantity)])));
    }
  }

  lemma ActSimQueue(w: World, m: Micro)
    requires Wf(w) && SimQueue(w.a) && Closed(m)
    ensures SimQueue(Act(w, m).a)
  {
    hide Wf, Called, Step, Good, RestartWorld, Dispatch, FireStop, Touches, Ok, VenueStatus, Fires, StopFill;
    if IsCall(m) {
      if m.iid in w.routers {
        CalledSteps(w, m);
        StepParts(DeskOf(w, m.iid), Called(w, m));
        IidOf(w);
        TouchedSimQueue(m.iid, w.a, Called(w, m).a);
      }
    } else if m.Restart? {
      WfStore(w);
      RestartQueue(w, m.now);
    } else if m.Pump? {
      if w.a.queue != [] {
        PopWf(w);
        DispatchQueue(w.(a := w.a.(queue := w.a.queue[1..])), w.a.queue[0]);
      }
    } else if m.StopFires? {
      if Fires(w.a, m.iid) {
        FiredWf(w, m.iid);
        DispatchQueue(w.(a := FireStop(w.a, m.iid)), StopFill(w.a, m.iid));
      }
    } else {
      VenueQueue(w, m);
    }
  }

  lemma RestartQueue(w: World, now: int)
    requires StoreWf(w)
    ensures RestartWorld(w, now).a.queue == []
  {
    hide RestartWorld, StoreWf;
    RestartEffect(w, now);
  }

  lemma PopWf(w: World)
    requires Wf(w) && w.a.queue != []
    ensures Wf(w.(a := w.a.(queue := w.a.queue[1..])))
  {
    hide Wf;
    WfOk(w);
    VenueMoves(w.a, Pump);
    AccountWf(w, w.a.(queue := w.a.queue[1..]));
  }

  lemma FiredWf(w: World, i: int)
    requires Wf(w) && Fires(w.a, i)
    ensures Wf(w.(a := FireStop(w.a, i))) && FireStop(w.a, i).queue == w.a.queue
  {
    hide Wf, FireStop, Fires;
    WfOk(w);
    VenueMoves(w.a, StopFires(i));
    AccountWf(w, FireStop(w.a, i));
  }

  lemma VenueQueue(w: World, m: Micro)
    requires Closed(m) && !IsCall(m) && !m.Restart? && !m.Pump? && !m.StopFires?
    ensures Act(w, m).a.queue == w.a.queue
  {
    hide FundingPaid, StopPrice;
  }

  lemma ActCovered(w: World, m: Micro, exact: bool)
    requires Wf(w) && Conserved(w) && Covered(w, exact) && SimQueue(w.a) && Closed(m)
    requires exact && m.Restart? ==> NoOrphan(w.a, w.ids)
    requires CarefulStep(w, m) && CallSized(m, w.categories)
    ensures Covered(Act(w, m), exact)
  {
    hide Wf, Conserved, Covered, CallSized, RestartWorld, GuardWorld, Dispatch, FireStop, Fires, StopFill, Kept,
      OnBar, OnFast, CheckPending, Shutdown, Halt, CleanStep, FillsOf;
    if IsCall(m) {
      if m.iid in w.routers { CallCovered(w, m, exact); }
    } else if m.Restart? {
      WfStore(w);
      CoveredResting(w, exact);
      RestartCovered(w, m.now);
    } else if m.Pump? {
      PumpCovered(w, exact);
    } else if m.StopFires? {
      StopFiresCovered(w, m.iid, exact);
    } else {
      ActWf(w, m);
      VenueCovered(w, m, exact);
    }
  }

  lemma CoveredResting(w: World, exact: bool)
    requires Covered(w, exact)
    ensures w.a.resting == []
  {
  }

  // ----- whole runs -----

  /** Every bar call of the run asks only for entries with a quantity. */
  ghost predicate RunSized(ms: seq<Micro>, categories: map<int, Category>)
    requires AllClosed(ms)
  {
    forall m :: m in ms ==> CallSized(m, categories)
  }

  /** Every adoption comes with no live fill of its instrument on its way, every operator clear with no fill at all. */
  ghost predicate Careful(w: World, ms: seq<Micro>)
    requires AllClosed(ms)
  {
    forall k :: 0 <= k < |ms| ==> MicroOk(ms[k]) && CarefulStep(Prefix(w, ms, k), ms[k])
  }

  /** A run in which no further order is given up and the operator clears nothing is careful. */
  lemma NothingGivenUpIsCareful(w: World, ms: seq<Micro>)
    requires Wf(w) && Agree(w) && AllClosed(ms) && NoneGivenUp(w.db, Run(w, ms).db) && forall m :: m in ms ==> !m.Operator?
    ensures Careful(w, ms)
  {
    hide Wf, Agree, NoneGivenUp, CleanStep, MicroOk, FillsOf, Prefix, Run;
    NothingGivenUpIsClean(w, ms);
  }

  /** None of the first n steps is a restart that finds an orphan stop. */
  ghost predicate OrphanFree(w: World, ms: seq<Micro>, n: nat)
    requires AllClosed(ms) && n <= |ms|
  {
    forall k :: 0 <= k < n && ms[k].Restart? ==> NoOrphan(Prefix(w, ms, k).a, w.ids)
  }

  /** What the world is before and after every step. */
  ghost predicate Sound(w: World, exact: bool) {
    Wf(w) && Conserved(w) && Covered(w, exact) && SimQueue(w.a)
  }

  lemma {:induction false} RunCovered(w: World, ms: seq<Micro>, k: nat, exact: bool)
    requires Sound(w, exact) && AllClosed(ms) && RunSized(ms, w.categories) && Careful(w, ms) && k <= |ms|
    requires exact ==> OrphanFree(w, ms, k)
    ensures var x := Prefix(w, ms, k); Sound(x, exact) && x.ids == w.ids && x.categories == w.categories
    decreases k
  {
    hide Wf, Conserved, Covered, Act, CallSized, SimQueue, NoOrphan, CleanStep, FillsOf, MicroOk, Run, DecisionsKept, RowKept;
    if k == 0 {
      assert ms[..0] == [];
      NothingRuns(w);
    } else {
      RunCovered(w, ms, k - 1, exact);
      NextPrefix(w, ms, k - 1);
      var x := Prefix(w, ms, k - 1);
      assert ms[k - 1] in ms;
      ActWf(x, ms[k - 1]);
      ActConserves(x, ms[k - 1]);
      ActCovered(x, ms[k - 1], exact);
      ActSimQueue(x, ms[k - 1]);
    }
  }

  /** Stop coverage, crashes and given-up orders included. After any restart and any run on the simulated venue whose
      bar calls ask for entries with a quantity, whose adoptions come with no live fill of their instrument on its way
      and whose operator clears come with no fill on its way, an instrument with a position and no fill on its way has
      a venue stop. */
  lemma PositionsAreGuarded(w: World, start: int, ms: seq<Micro>, i: int)
    requires StoreWf(w) && w.a.resting == [] && AllClosed(ms) && RunSized(ms, w.categories) && i in w.ids
    requires Careful(RestartWorld(w, start), ms)
    ensures var w2 := Run(RestartWorld(w, start), ms);
      FillsOf(w2.a.queue, i) == [] && Size(w2.a, i) != 0.0 ==> i in w2.a.stops
  {
    hide RestartWorld, StoreWf, Conserved, RunSized, Careful, Expecting, SimQueue, TablesWf, RouterWf, FillsOf;
    Started(w, start);
    RunCovered(RestartWorld(w, start), ms, |ms|, false);
    assert ms[..|ms|] == ms;
    var w2 := Run(RestartWorld(w, start), ms);
    if FillsOf(w2.a.queue, i) == [] { NothingGivenUpOnTheWay(w2.a.queue, w2.db, i); }
  }

  /** What every run starts from. */
  lemma Started(w: World, start: int)
    requires StoreWf(w) && w.a.resting == []
    ensures var w1 := RestartWorld(w, start);
      && Sound(w1, false) && w1.ids == w.ids && w1.categories == w.categories && (NoOrphan(w.a, w.ids) ==> Sound(w1, true))
  {
    hide RestartWorld, StoreWf, Wf, Conserved, Covered, NoOrphan;
    RestartWf(w, start);
    RestartConserves(w, start);
    RestartCovered(w, start);
    RestartQueue(w, start);
  }

  /** Routed instruments with no fill on their way have a stop exactly when they hold a position. */
  ghost predicate StopsExact(a: Account, ids: seq<int>) {
    forall i :: i in ids && FillsOf(a.queue, i) == [] ==> (i in a.stops <==> Size(a, i) != 0.0)
  }

  /** Exact stop coverage. In such a run that starts without an orphan stop, stops match positions at every moment of the
      run if and only if no restart on the way found an orphan stop. */
  lemma StopsMatchPositions(w: World, start: int, ms: seq<Micro>)
    requires StoreWf(w) && w.a.resting == [] && NoOrphan(w.a, w.ids) && AllClosed(ms) && RunSized(ms, w.categories)
    requires Careful(RestartWorld(w, start), ms)
    ensures (forall k :: 0 <= k <= |ms| ==> StopsExact(Prefix(RestartWorld(w, start), ms, k).a, w.ids))
       <==> OrphanFree(RestartWorld(w, start), ms, |ms|)
  {
    hide RestartWorld, StoreWf, Wf, Conserved, Covered, SimQueue, RunSized, Careful, NoOrphan, StopsExact, Run;
    Started(w, start);
    var w1 := RestartWorld(w, start);
    if OrphanFree(w1, ms, |ms|) {
      forall k | 0 <= k <= |ms| ensures StopsExact(Prefix(w1, ms, k).a, w.ids) {
        RunCovered(w1, ms, k, true);
        SoundIsExact(Prefix(w1, ms, k));
      }
    }
    if forall k :: 0 <= k <= |ms| ==> StopsExact(Prefix(w1, ms, k).a, w.ids) {
      forall k | 0 <= k < |ms| && ms[k].Restart? ensures NoOrphan(Prefix(w1, ms, k).a, w.ids) {
        assert StopsExact(Prefix(w1, ms, k + 1).a, w.ids);
        RunCovered(w1, ms, k, false);
        RestartShowsOrphans(w1, ms, k);
      }
    }
  }

  lemma SoundIsExact(w: World)
    requires Sound(w, true)
    ensures StopsExact(w.a, w.ids)
  {
    hide Expecting, FillsOf, TablesWf, RouterWf, Conserved, NoGivenUpFill;
    forall i | i in w.ids && FillsOf(w.a.queue, i) == [] ensures i in w.a.stops <==> Size(w.a, i) != 0.0 {
      NothingGivenUpOnTheWay(w.a.queue, w.db, i);
    }
  }

  /** An orphan stop a restart finds is one right after it, with nothing on its way to excuse it. */
  lemma RestartShowsOrphans(w: World, ms: seq<Micro>, k: nat)
    requires AllClosed(ms) && k < |ms| && ms[k].Restart? && Wf(Prefix(w, ms, k)) && Prefix(w, ms, k).ids == w.ids
    requires StopsExact(Prefix(w, ms, k + 1).a, w.ids)
    ensures NoOrphan(Prefix(w, ms, k).a, w.ids)
  {
    hide Wf, RestartWorld, MicroOk;
    NextPrefix(w, ms, k);
    assert ms[k] in ms;
    WfStore(Prefix(w, ms, k));
    RestartEffect(Prefix(w, ms, k), ms[k].now);
    assert Prefix(w, ms, k + 1) == RestartWorld(Prefix(w, ms, k), ms[k].now);
  }

  /** The check a caller can make before restarting: with no fill of a routed instrument undelivered there is no
      orphan stop to find. */
  lemma SettledHasNoOrphan(w: World)
    requires Sound(w, true)
    ensures forall i :: i in w.ids && i in w.a.stops && Size(w.a, i) == 0.0 ==> FillsOf(w.a.queue, i) != []
    ensures (forall i :: i in w.ids ==> FillsOf(w.a.queue, i) == []) ==> NoOrphan(w.a, w.ids)
  {
    hide FillsOf, Sound;
    SoundIsExact(w);
  }

  /** Every restart of the run comes with no fill of a routed instrument undelivered. */
  ghost predicate SettledRestarts(w: World, ms: seq<Micro>)
    requires AllClosed(ms)
  {
    forall k :: 0 <= k < |ms| && ms[k].Restart? ==> forall i :: i in w.ids ==> FillsOf(Prefix(w, ms, k).a.queue, i) == []
  }

  /** So stops match positions throughout a run whose every restart comes with nothing on its way. */
  lemma SettledRestartsKeepStops(w: World, start: int, ms: seq<Micro>)
    requires StoreWf(w) && w.a.resting == [] && NoOrphan(w.a, w.ids) && AllClosed(ms) && RunSized(ms, w.categories)
    requires Careful(RestartWorld(w, start), ms) && SettledRestarts(RestartWorld(w, start), ms)
    ensures forall k :: 0 <= k <= |ms| ==> StopsExact(Prefix(RestartWorld(w, start), ms, k).a, w.ids)
  {
    hide RestartWorld, StoreWf, Sound, RunSized, Careful, NoOrphan, StopsExact, Run, SettledRestarts;
    Started(w, start);
    SettledIsOrphanFree(RestartWorld(w, start), ms, |ms|);
    StopsMatchPositions(w, start, ms);
  }

  lemma {:induction false} SettledIsOrphanFree(w: World, ms: seq<Micro>, n: nat)
    requires Sound(w, true) && AllClosed(ms) && RunSized(ms, w.categories) && Careful(w, ms) && SettledRestarts(w, ms) && n <= |ms|
    ensures OrphanFree(w, ms, n)
    decreases n
  {
    hide Sound, RunSized, Careful, NoOrphan, Run, FillsOf, StopsExact;
    if n > 0 {
      SettledIsOrphanFree(w, ms, n - 1);
      RunCovered(w, ms, n - 1, true);
      SettledHasNoOrphan(Prefix(w, ms, n - 1));
    }
  }

  /** Recovery guards every position but withdraws no stop: right after a restart stops match positions exactly
      when the venue held no orphan stop before it. */
  lemma RestartKeepsOrphans(w: World, now: int)
    requires StoreWf(w)
    ensures forall i :: Size(w.a, i) != 0.0 ==> i in RestartWorld(w, now).a.stops
    ensures (forall i :: i in RestartWorld(w, now).a.stops <==> Size(RestartWorld(w, now).a, i) != 0.0)
       <==> (forall i :: i in w.a.stops ==> Size(w.a, i) != 0.0)
  {
    hide RestartWorld, StoreWf;
    RestartEffect(w, now);
  }
}
