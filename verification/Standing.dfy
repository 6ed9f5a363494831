/** Every position is protected, over whole runs: any stop under a position stands 15% from the venue's own entry price. */
module Standing {
  import opened Types
  import opened Guards
  import opened Protection
  import opened Sim
  import opened SimLaws
  import opened Routing
  import opened Delivery
  import opened Discipline
  import opened Runtime
  import opened Runs
  import opened Recovery
  import opened Conservation
  import opened Adoptions
  import opened Sizing
  import opened StopCoverage
  import opened Books
  import opened Placement

  // ----- the invariant -----

  lemma {:induction false} FillIsAmong(q: seq<Event>, i: int, k: nat)
    requires k < |q| && q[k].FillUpdate? && q[k].iid == i
    ensures q[k] in FillsOf(q, i)
  {
    if k > 0 {
      FillIsAmong(q[1..], i, k - 1);
      assert q[1..][k - 1] == q[k];
    }
  }

  /** None of the listed fills belongs to a given-up order. */
  lemma NoneOfThese(q: seq<Event>, db: Db, i: int)
    requires forall ev :: ev in FillsOf(q, i) ==> !GivenUpFill(ev, db)
    ensures NoGivenUpFill(q, db, i)
  {
    hide FillsOf;
    forall k | 0 <= k < |q| && q[k].FillUpdate? && q[k].iid == i ensures !GivenUpFill(q[k], db) { FillIsAmong(q, i, k); }
  }

  lemma {:induction false} AmongIsQueued(q: seq<Event>, i: int, ev: Event)
    requires ev in FillsOf(q, i)
    ensures ev in q && ev.FillUpdate? && ev.iid == i
  {
    if q[0].FillUpdate? && q[0].iid == i && ev == q[0] {
    } else {
      AmongIsQueued(q[1..], i, ev);
    }
  }

  lemma NoneAmong(q: seq<Event>, db: Db, i: int)
    requires NoGivenUpFill(q, db, i)
    ensures forall ev :: ev in FillsOf(q, i) ==> !GivenUpFill(ev, db)
  {
    hide FillsOf;
    forall ev | ev in FillsOf(q, i) ensures !GivenUpFill(ev, db) {
      AmongIsQueued(q, i, ev);
      var k :| 0 <= k < |q| && q[k] == ev;
    }
  }

  /** The next fill of the instrument belongs to a given-up order. */
  ghost predicate GivenUpFirst(a: Account, db: Db, i: int) {
    var fs := FillsOf(a.queue, i);
    fs != [] && GivenUpFill(fs[0], db)
  }

  /** What the stops need to know of a router. With no given-up fill on its way: a frozen one that waits for two fills
      has closed its position. With one on its way: it is frozen and closed, or the given-up fill comes first and a flat
      router has neither position nor stop. */
  ghost predicate StandsAt(r: Router, a: Account, db: Db) {
    if NoGivenUpFill(a.queue, db, r.iid) then Frozen(r.state) && |FillsOf(a.queue, r.iid)| >= 2 ==> Size(a, r.iid) == 0.0
    else
      || (Frozen(r.state) && Size(a, r.iid) == 0.0)
      || (GivenUpFirst(a, db, r.iid) && (r.state == Flat ==> r.size == 0.0 && Size(a, r.iid) == 0.0 && r.iid !in a.stops))
  }

  /** Every fill on its way belongs to a recorded order of its own instrument. */
  ghost predicate OwnQueue(a: Account, db: Db) {
    forall k :: 0 <= k < |a.queue| && a.queue[k].FillUpdate? ==>
      a.queue[k].cid in db.orders && a.queue[k].cid.Ours? && a.queue[k].cid.iid == a.queue[k].iid
  }

  ghost predicate Standing(w: World) {
    && OwnQueue(w.a, w.db) && (forall i :: InPlace(w.a, i))
    && forall i :: i in w.routers ==> StandsAt(w.routers[i], w.a, w.db)
  }

  /** A desk as a covered run finds it. */
  ghost predicate DeskSound(d: Desk) {
    && Good(d) && d.a.resting == [] && OwnQueue(d.a, d.db) && InPlace(d.a, d.r.iid) && StandsAt(d.r, d.a, d.db)
    && (NoGivenUpFill(d.a.queue, d.db, d.r.iid) ==> DeskCovered(d, true))
  }

  ghost predicate DeskStands(d: Desk) {
    InPlace(d.a, d.r.iid) && StandsAt(d.r, d.a, d.db)
  }

  /** The same orders are given up, as far as both know them. */
  ghost predicate SameGivenUp(db: Db, db2: Db) {
    forall c :: c in db.orders ==> c in db2.orders && (GaveUp(db2.orders[c].status) <==> GaveUp(db.orders[c].status))
  }

  lemma FirstStays(a: Account, b: Account, db: Db, db2: Db, i: int)
    requires GivenUpFirst(a, db, i) && a.queue <= b.queue
    requires forall c :: c in db.orders && GaveUp(db.orders[c].status) ==> c in db2.orders && GaveUp(db2.orders[c].status)
    ensures GivenUpFirst(b, db2, i)
  {
    hide FillsOf;
    var more := b.queue[|a.queue|..];
    assert b.queue == a.queue + more;
    FillsOfConcat(a.queue, more, i);
  }

  lemma FirstIsGivenUp(a: Account, db: Db, i: int)
    requires GivenUpFirst(a, db, i)
    ensures !NoGivenUpFill(a.queue, db, i)
  {
    hide FillsOf;
    if NoGivenUpFill(a.queue, db, i) { NoneAmong(a.queue, db, i); }
  }

  // ----- calls that send nothing -----

  /** Same account, same orders; the state may freeze, or stay what it was. */
  lemma StillStands(d: Desk, d2: Desk)
    requires DeskSound(d) && d2.a == d.a && d2.db.orders == d.db.orders && d2.r.iid == d.r.iid && d2.r.size == d.r.size
    requires d2.r.state == d.r.state || Frozen(d2.r.state) || (FillsOf(d.a.queue, d.r.iid) == [] && !Frozen(d2.r.state))
    ensures DeskStands(d2)
  {
    hide Good, Ok, FillsOf, InPlace, Lag, Quiescent;
    SameOrders(d.a.queue, d.db, d2.db, d.r.iid);
    if FillsOf(d.a.queue, d.r.iid) == [] { NothingGivenUpOnTheWay(d.a.queue, d.db, d.r.iid); }
  }

  lemma SameOrders(q: seq<Event>, db: Db, db2: Db, i: int)
    requires db2.orders == db.orders
    ensures NoGivenUpFill(q, db2, i) == NoGivenUpFill(q, db, i)
    ensures forall ev :: GivenUpFill(ev, db2) == GivenUpFill(ev, db)
  {
  }

  // ----- adoption -----

  /** The router took the venue's position, and only given-up fills of it, if any, are on their way. */
  lemma AdoptedStands(d: Desk, d2: Desk)
    requires InPlace(d.a, d.r.iid) && d2.r.iid == d.r.iid && PosOf(d2.a, d.r.iid) == PosOf(d.a, d.r.iid) && Guarded(d.a, d2.a, d.r.iid)
    requires (d2.r.size != 0.0 <==> d.r.iid in d2.a.stops) && d2.r.size == Size(d2.a, d.r.iid)
    requires NoLiveFill(d2.a.queue, d2.db, d.r.iid)
    requires Frozen(d2.r.state) || d2.r.state == Settled(d2.r.size)
    ensures DeskStands(d2)
  {
    hide FillsOf, Protects;
    var i := d.r.iid;
    if NoGivenUpFill(d2.a.queue, d2.db, i) {
      NeitherKind(d2.a.queue, d2.db, i);
    } else if FillsOf(d2.a.queue, i) == [] {
      NothingGivenUpOnTheWay(d2.a.queue, d2.db, i);
    } else {
      AmongIsQueued(d2.a.queue, i, FillsOf(d2.a.queue, i)[0]);
    }
  }

  lemma CheckPendingStands(d: Desk, now: int)
    requires DeskSound(d) && TakesClean(d, CheckPending(d, Snapshot(d.a), now))
    ensures DeskStands(CheckPending(d, Snapshot(d.a), now))
  {
    hide Ok, AdoptAndSettle, Snapshot, OrdersWf, DecisionsWf, NumbersWf, RowWf, FillsOf, NoLiveFill, InPlace, StandsAt,
      Guarded, DeskCovered, NoGivenUpFill;
    if Pending(d.r.state) && d.r.pendingSince.Some? && now - d.r.pendingSince.value > PENDING_TIMEOUT {
      var d2 := CheckPending(d, Snapshot(d.a), now);
      AdoptAndSettleEffect(d.(db := SetStatus(d.db, d.r.pendingCid.value, TimeoutAdopted)));
      assert !NotAdopted(d.db, d2.db);
      AdoptedStands(d, d2);
    }
  }

  // ----- sends -----

  /** After a send: its own row has a status, every other order is given up or not as before. */
  lemma SendGivesUp(d: Desk, intent: Intent, now: int)
    requires Good(d) && intent.iid == d.r.iid && intent.quantity >= 0.0
    ensures var d2, cid := Send(d, intent, now), Ours(d.r.iid, d.r.num + 1);
      && cid !in d.db.orders && cid in d2.db.orders && SameGivenUp(d.db, d2.db)
      && (forall c :: c in d2.db.orders ==> c in d.db.orders || c == cid)
  {
    hide Ok, SubmitWithRecovery, OrdersWf, DecisionsWf, PendingWf, RowWf, Prepare;
    SendFresh(d, intent, now);
    PreparedGivesUp(d, intent, now);
    var d1 := Prepare(d, intent, now);
    var cid := Ours(d.r.iid, d.r.num + 1);
    var (a, out) := SubmitWithRecovery(d1.a, Request(cid, intent), d.r.size);
    ConcludeGivesUp(d1.(a := a), cid, out, d.r.state);
  }

  lemma PreparedGivesUp(d: Desk, intent: Intent, now: int)
    requires Ours(d.r.iid, d.r.num + 1) !in d.db.orders
    ensures var db1, cid := Prepare(d, intent, now).db, Ours(d.r.iid, d.r.num + 1);
      && (forall c :: c in db1.orders <==> c in d.db.orders || c == cid) && (forall c :: c in d.db.orders ==> db1.orders[c] == d.db.orders[c])
  {
  }

  lemma ConcludeGivesUp(d: Desk, cid: Cid, out: Outcome, prior: State)
    requires cid in d.db.orders
    ensures var d2 := Conclude(d, cid, out, prior);
      && (forall c :: c in d2.db.orders <==> c in d.db.orders) && (forall c :: c in d.db.orders && c != cid ==> d2.db.orders[c] == d.db.orders[c])
  {
    hide Adopt, Snapshot;
    var h := Halt(d.(db := SetStatus(d.db, cid, Error)));
    AdoptWrites(h, Snapshot(h.a));
  }

  lemma AdoptWrites(d: Desk, snap: AccountSnapshot)
    ensures Adopt(d, snap).db.orders == d.db.orders
  {
    hide VenueStop, Find;
  }

  /** A given-up fill that came first still does after a send. */
  lemma FirstAfterSend(d: Desk, intent: Intent, now: int)
    requires Good(d) && intent.iid == d.r.iid && intent.quantity >= 0.0 && GivenUpFirst(d.a, d.db, d.r.iid)
    ensures var d2 := Send(d, intent, now); GivenUpFirst(d2.a, d2.db, d.r.iid) && !NoGivenUpFill(d2.a.queue, d2.db, d.r.iid)
  {
    hide Good, Send, GivenUpFirst, Calm;
    SendGivesUp(d, intent, now);
    SendCalm(d, intent, now);
    SendQueue(d, intent, now);
    var d2 := Send(d, intent, now);
    FirstStays(d.a, d2.a, d.db, d2.db, d.r.iid);
    FirstIsGivenUp(d2.a, d2.db, d.r.iid);
  }

  lemma SendQueue(d: Desk, intent: Intent, now: int)
    requires Good(d) && intent.iid == d.r.iid && intent.quantity >= 0.0
    ensures d.a.queue <= Send(d, intent, now).a.queue
  {
    hide Good, Send;
    SendCalm(d, intent, now);
  }

  /** What a send leaves on the venue, in terms of the submission: its queue and positions, and a stop more only where an
      error made the router adopt. */
  lemma SendVenue(d: Desk, intent: Intent, now: int)
    requires Good(d) && intent.iid == d.r.iid && intent.quantity >= 0.0
    ensures var d2, b := Send(d, intent, now), SubmitWithRecovery(d.a, Request(Ours(d.r.iid, d.r.num + 1), intent), d.r.size).0;
      && d2.r.iid == d.r.iid && d2.a.queue == b.queue && (forall j :: PosOf(d2.a, j) == PosOf(b, j)) && b.stops == d.a.stops
      && (d2.a.stops == d.a.stops || Guarded(b, d2.a, d.r.iid))
      && (Size(d2.a, d.r.iid) == 0.0 ==> d2.a.stops == d.a.stops)
  {
    hide Ok, SubmitWithRecovery, OrdersWf, DecisionsWf, PendingWf, RowWf, NumbersWf, Prepare, Adopt, Snapshot, Protects;
    SendFresh(d, intent, now);
    GoodParts(d);
    var req := Request(Ours(d.r.iid, d.r.num + 1), intent);
    RecoveryTouches(d.a, req, d.r.size);
    var (b, out) := SubmitWithRecovery(d.a, req, d.r.size);
    TouchesTo(d.r.iid, d.a, b);
    var d1 := Prepare(d, intent, now).(a := b);
    AdoptEffect(Halt(d1.(db := SetStatus(d1.db, req.cid, Error))));
  }

  /** The position did not grow: it is closed, or smaller on the same side with the same entry, or as it was. */
  ghost predicate Shrunk(p: Pos, q: Pos) {
    q.size == 0.0 || (p.size != 0.0 && (q.size > 0.0) == (p.size > 0.0) && q.entry == p.entry)
  }

  lemma ShrunkTwice(p: Pos, q: Pos, s: Pos)
    requires Shrunk(p, q) && Shrunk(q, s)
    ensures Shrunk(p, s)
  {
  }

  lemma SubmitShrinks(a: Account, req: OrderRequest)
    requires Ok(a) && req.reduceOnly && req.quantity >= 0.0
    ensures Ok(Submit(a, req).0) && Shrunk(PosOf(a, req.iid), PosOf(Submit(a, req).0, req.iid))
  {
    hide Ok, Fee, Book, Submit, Executes;
    if Executes(a, req) {
      SubmitExecutes(a, req);
      ExecutedBook(a, req);
      ReducedBook(a, req);
    } else {
      SubmitFails(a, req);
    }
  }

  lemma ReducedBook(a: Account, req: OrderRequest)
    requires Executes(a, req) && req.reduceOnly && req.quantity >= 0.0
    ensures var ev := NewFill(a, req);
      && ev.FillUpdate? && Shrunk(PosOf(a, req.iid), Book(PosOf(a, req.iid), Signed(ev.side, ev.quantity), ev.price).0)
  {
    hide Fee;
    var c := Arrive(a, req);
    assert PosOf(c, req.iid) == PosOf(a, req.iid);
  }

  lemma RecoveryShrinks(a: Account, req: OrderRequest, sizeBefore: real)
    requires Ok(a) && req.reduceOnly && req.quantity >= 0.0
    ensures Shrunk(PosOf(a, req.iid), PosOf(SubmitWithRecovery(a, req, sizeBefore).0, req.iid))
  {
    hide Submit, Landed, Snapshot, Ok, PosOf, Shrunk;
    SubmitShrinks(a, req);
    var (b, first) := Attempt(a, req, sizeBefore);
    if first.None? {
      SubmitShrinks(b, req);
      ShrunkTwice(PosOf(a, req.iid), PosOf(b, req.iid), PosOf(Submit(b, req).0, req.iid));
    } else {
      ShrunkTwice(PosOf(a, req.iid), PosOf(b, req.iid), PosOf(b, req.iid));
    }
  }

  /** A reduce-only send leaves every stop where it was, on what is left of the same position. */
  lemma ReducedInPlace(d: Desk, intent: Intent, now: int)
    requires Good(d) && intent.iid == d.r.iid && intent.quantity >= 0.0 && intent.reduceOnly && InPlace(d.a, d.r.iid)
    ensures InPlace(Send(d, intent, now).a, d.r.iid)
  {
    hide Ok, SubmitWithRecovery, OrdersWf, DecisionsWf, PendingWf, RowWf, NumbersWf, Send, Protects;
    SendVenue(d, intent, now);
    RecoveryShrinks(d.a, Request(Ours(d.r.iid, d.r.num + 1), intent), d.r.size);
  }

  /** Nothing left: the venue is as it was, and the router where it was or frozen. */
  ghost predicate Stayed(d: Desk, d2: Desk) {
    && d2.a.queue == d.a.queue && Size(d2.a, d.r.iid) == Size(d.a, d.r.iid) && (d2.r.state == d.r.state || Frozen(d2.r.state))
    && (d2.r.state == d.r.state ==> d2.r.size == d.r.size)
  }

  /** One more fill is on its way, of an accepted order the router waits for. */
  ghost predicate SentOne(d: Desk, d2: Desk, cid: Cid) {
    var fs, gs := FillsOf(d.a.queue, d.r.iid), FillsOf(d2.a.queue, d.r.iid);
    |gs| == |fs| + 1 && gs[|fs|].cid == cid && cid in d2.db.orders && !GaveUp(d2.db.orders[cid].status) && Pending(d2.r.state)
  }

  /** An agreeing send either queued its one fill, accepted, or changed nothing on the venue. */
  lemma AgreeingSend(d: Desk, intent: Intent, now: int)
    requires Good(d) && d.a.resting == [] && intent.iid == d.r.iid && intent.quantity > 0.0 && d.r.size == Size(d.a, d.r.iid)
    requires intent.reduceOnly ==> Size(d.a, d.r.iid) != 0.0
    ensures Ours(d.r.iid, d.r.num + 1) in Send(d, intent, now).db.orders
    ensures Stayed(d, Send(d, intent, now)) || SentOne(d, Send(d, intent, now), Ours(d.r.iid, d.r.num + 1))
  {
    hide Ok, SubmitWithRecovery, OrdersWf, DecisionsWf, PendingWf, RowWf, NumbersWf, Prepare, Adopt, Snapshot, FillsOf;
    SendFresh(d, intent, now);
    GoodParts(d);
    var cid := Ours(d.r.iid, d.r.num + 1);
    var req := Request(cid, intent);
    RecoveryQueues(d.a, req);
    RecoveryTouches(d.a, req, d.r.size);
    var (b, out) := SubmitWithRecovery(d.a, req, d.r.size);
    TouchesTo(d.r.iid, d.a, b);
    var d1 := Prepare(d, intent, now).(a := b);
    AdoptEffect(Halt(d1.(db := SetStatus(d1.db, cid, Error))));
    ConcludeCalm(d1, cid, out, d.r.state);
    SubmittingRow(d, intent, now);
    ConcludeState(d1, cid, out, d.r.state);
  }

  lemma SubmittingRow(d: Desk, intent: Intent, now: int)
    requires Ours(d.r.iid, d.r.num + 1) !in d.db.orders
    ensures Ours(d.r.iid, d.r.num + 1) in Prepare(d, intent, now).db.orders
    ensures Prepare(d, intent, now).db.orders[Ours(d.r.iid, d.r.num + 1)].status == Submitting
  {
  }

  lemma ConcludeState(d: Desk, cid: Cid, out: Outcome, prior: State)
    requires cid in d.db.orders && d.db.orders[cid].status == Submitting && Ok(d.a)
    ensures var d2 := Conclude(d, cid, out, prior);
      && (out == Acked ==> d2.r.state == d.r.state && cid in d2.db.orders && d2.db.orders[cid].status == Accepted)
      && (out == Refused ==> d2.r.state == prior && d2.r.size == d.r.size)
      && (out == NoAck || out == Failed ==> Frozen(d2.r.state))
  {
    hide Ok, Adopt, Snapshot;
    AdoptEffect(Halt(d.(db := SetStatus(d.db, cid, Error))));
  }

  /** Sent from a router that agrees with the venue and waits for nothing. */
  lemma AgreeingStands(d: Desk, d2: Desk, cid: Cid)
    requires DeskSound(d) && NoGivenUpFill(d.a.queue, d.db, d.r.iid) && FillsOf(d.a.queue, d.r.iid) == [] && d2.r.iid == d.r.iid
    requires Stayed(d, d2) || SentOne(d, d2, cid)
    ensures StandsAt(d2.r, d2.a, d2.db)
  {
    hide FillsOf, Good, Ok, InPlace;
    if Stayed(d, d2) {
      NothingGivenUpOnTheWay(d2.a.queue, d2.db, d.r.iid);
    } else {
      assert FillsOf(d2.a.queue, d.r.iid) == [FillsOf(d2.a.queue, d.r.iid)[0]];
      NoneOfThese(d2.a.queue, d2.db, d.r.iid);
    }
  }

  /** A flat router, given-up fills on their way or not, has neither position nor stop. */
  lemma FlatHasNothing(d: Desk)
    requires DeskSound(d) && d.r.state == Flat
    ensures d.r.size == 0.0 == Size(d.a, d.r.iid) && d.r.iid !in d.a.stops
    ensures NoGivenUpFill(d.a.queue, d.db, d.r.iid) ==> FillsOf(d.a.queue, d.r.iid) == []
  {
    hide FillsOf, Good, Ok, InPlace;
    if NoGivenUpFill(d.a.queue, d.db, d.r.iid) { NoFillsNoSum(d.a.queue, d.r.iid); }
  }

  lemma EntryStands(d: Desk, intent: Intent, now: int)
    requires DeskSound(d) && d.r.state == Flat && intent.iid == d.r.iid && intent.quantity > 0.0 && !intent.reduceOnly
    ensures DeskStands(Send(d, intent, now))
  {
    hide Good, Ok, FillsOf, Send, StandsAt, DeskSound, NoGivenUpFill, Stayed, SentOne, Guarded, Protects, SubmitWithRecovery;
    DeskParts(d);
    FlatHasNothing(d);
    AgreeingSend(d, intent, now);
    SendVenue(d, intent, now);
    var d2, cid := Send(d, intent, now), Ours(d.r.iid, d.r.num + 1);
    EntryUnstopped(d.a, SubmitWithRecovery(d.a, Request(cid, intent), d.r.size).0, d2.a, d.r.iid);
    if NoGivenUpFill(d.a.queue, d.db, d.r.iid) {
      AgreeingStands(d, d2, cid);
    } else {
      NotFrozenFirst(d);
      FirstAfterSend(d, intent, now);
      FlatStays(d, d2, cid);
    }
  }

  lemma DeskParts(d: Desk)
    requires DeskSound(d)
    ensures Good(d) && d.a.resting == [] && OwnQueue(d.a, d.db) && InPlace(d.a, d.r.iid) && Ok(d.a) && StandsAt(d.r, d.a, d.db)
    ensures NoGivenUpFill(d.a.queue, d.db, d.r.iid) ==> DeskCovered(d, true)
  {
  }

  lemma NotFrozenFirst(d: Desk)
    requires DeskSound(d) && !Frozen(d.r.state) && !NoGivenUpFill(d.a.queue, d.db, d.r.iid)
    ensures GivenUpFirst(d.a, d.db, d.r.iid)
  {
    hide Good, GivenUpFirst, InPlace, NoGivenUpFill;
  }

  lemma EntryUnstopped(a: Account, b: Account, c: Account, i: int)
    requires b.stops == a.stops && i !in a.stops && PosOf(c, i) == PosOf(b, i) && (c.stops == a.stops || Guarded(b, c, i))
    ensures InPlace(c, i)
  {
    hide Protects;
  }

  lemma FlatStays(d: Desk, d2: Desk, cid: Cid)
    requires d.r.state == Flat && d.r.size == 0.0 == Size(d.a, d.r.iid) && d.r.iid !in d.a.stops && d2.r.iid == d.r.iid
    requires Stayed(d, d2) || SentOne(d, d2, cid)
    requires Size(d2.a, d.r.iid) == 0.0 ==> d2.a.stops == d.a.stops
    requires GivenUpFirst(d2.a, d2.db, d.r.iid) && !NoGivenUpFill(d2.a.queue, d2.db, d.r.iid)
    ensures StandsAt(d2.r, d2.a, d2.db)
  {
    hide FillsOf;
  }

  /** An open router leaving. */
  lemma LeaveStands(d: Desk, mark: real, now: int)
    requires DeskSound(d) && d.r.state == Open
    ensures DeskStands(Exit(d, d.r.size, mark, now))
  {
    hide Good, Ok, FillsOf, Send, StandsAt, DeskSound, NoGivenUpFill, Stayed, SentOne, Protects, SubmitWithRecovery, InPlace, GivenUpFirst;
    DeskParts(d);
    var intent := ExitIntent(d.r.iid, d.r.size, mark);
    var d2, cid := Send(d, intent, now), Ours(d.r.iid, d.r.num + 1);
    ReducedInPlace(d, intent, now);
    SendVenue(d, intent, now);
    if NoGivenUpFill(d.a.queue, d.db, d.r.iid) {
      OpenAgrees(d);
      AgreeingSend(d, intent, now);
      AgreeingStands(d, d2, cid);
    } else {
      NotFrozenFirst(d);
      FirstAfterSend(d, intent, now);
      SendState(d, intent, now);
      NotFlatStands(d2);
    }
  }

  lemma OpenAgrees(d: Desk)
    requires DeskCovered(d, true) && d.r.state == Open
    ensures FillsOf(d.a.queue, d.r.iid) == [] && d.r.size == Size(d.a, d.r.iid) != 0.0
  {
    hide FillsOf;
    NoFillsNoSum(d.a.queue, d.r.iid);
  }

  lemma SendState(d: Desk, intent: Intent, now: int)
    requires Good(d) && intent.iid == d.r.iid && intent.quantity >= 0.0
    ensures var s := Send(d, intent, now).r.state; s == d.r.state || Frozen(s) || Pending(s)
  {
    hide Ok, SubmitWithRecovery, OrdersWf, DecisionsWf, PendingWf, RowWf, NumbersWf, Adopt, Snapshot;
    var req := Request(Ours(d.r.iid, d.r.num + 1), intent);
    SendFresh(d, intent, now);
    SubmittingRow(d, intent, now);
    GoodParts(d);
    RecoveryTouches(d.a, req, d.r.size);
    var (b, out) := SubmitWithRecovery(d.a, req, d.r.size);
    TouchesTo(d.r.iid, d.a, b);
    ConcludeState(Prepare(d, intent, now).(a := b), req.cid, out, d.r.state);
  }

  lemma NotFlatStands(d: Desk)
    requires GivenUpFirst(d.a, d.db, d.r.iid) && !NoGivenUpFill(d.a.queue, d.db, d.r.iid) && d.r.state != Flat
    ensures StandsAt(d.r, d.a, d.db)
  {
    hide GivenUpFirst, NoGivenUpFill;
  }

  // ----- the kill switch -----

  /** The first attempt that reaches the book closes the whole position, and the second then finds nothing to reduce. */
  lemma FlattenCloses(a: Account, req: OrderRequest, sizeBefore: real)
    requires Ok(a) && req.reduceOnly && req.quantity == Abs(Size(a, req.iid))
    ensures var b := SubmitWithRecovery(a, req, sizeBefore).0;
      Size(b, req.iid) == 0.0 || (b.queue == a.queue && PosOf(b, req.iid) == PosOf(a, req.iid))
  {
    hide Submit, Landed, Snapshot, Ok;
    FlattenOnce(a, req);
    var (b, first) := Attempt(a, req, sizeBefore);
    if first.None? { FlattenOnce(b, req); }
  }

  lemma FlattenOnce(a: Account, req: OrderRequest)
    requires Ok(a) && req.reduceOnly
    ensures var b := Submit(a, req).0;
      && Ok(b) && (req.quantity == Abs(Size(a, req.iid)) || Size(a, req.iid) == 0.0 ==>
        Size(b, req.iid) == 0.0 || (b.queue == a.queue && PosOf(b, req.iid) == PosOf(a, req.iid)))
  {
    hide Submit, Ok, Fee, Book, Arrive;
    if Executes(a, req) { SubmitExecutes(a, req); } else { SubmitFails(a, req); }
  }

  lemma ShutdownStands(d: Desk, mark: real, now: int)
    requires DeskSound(d)
    ensures DeskStands(Shutdown(d, mark, Size(d.a, d.r.iid), now))
  {
    hide Good, Ok, FillsOf, Send, StandsAt, DeskSound, NoGivenUpFill, Protects, SubmitWithRecovery, InPlace, GivenUpFirst;
    DeskParts(d);
    var held := Size(d.a, d.r.iid);
    if held != 0.0 && !Pending(d.r.state) && d.r.state != Liquidated {
      var intent := ExitIntent(d.r.iid, held, mark);
      var req := Request(Ours(d.r.iid, d.r.num + 1), intent);
      ReducedInPlace(d, intent, now);
      SendVenue(d, intent, now);
      FlattenCloses(d.a, req, d.r.size);
      var d1 := Send(d, intent, now);
      assert Shutdown(d, mark, held, now) == SetState(d1, Halted);
      if Size(d1.a, d.r.iid) == 0.0 {
        ClosedStands(SetState(d1, Halted));
      } else {
        SendGivesUp(d, intent, now);
        UnmovedStands(d, d1);
      }
      StateInPlace(d1, Halted);
    } else {
      StillStands(d, d);
      StillStands(d, SetState(d, Halted));
    }
  }

  lemma StateInPlace(d: Desk, s: State)
    ensures SetState(d, s).a == d.a && SetState(d, s).r.iid == d.r.iid
  {
  }

  lemma ClosedStands(d: Desk)
    requires Frozen(d.r.state) && Size(d.a, d.r.iid) == 0.0
    ensures StandsAt(d.r, d.a, d.db)
  {
    hide FillsOf, NoGivenUpFill, GivenUpFirst;
  }

  /** Nothing left for the venue: the same fills are on their way, given up or not as before, and the router is halted. */
  lemma UnmovedStands(d: Desk, d1: Desk)
    requires DeskSound(d) && d1.r.iid == d.r.iid && d1.a.queue == d.a.queue && PosOf(d1.a, d.r.iid) == PosOf(d.a, d.r.iid)
    requires Size(d.a, d.r.iid) != 0.0 && !Pending(d.r.state) && SameGivenUp(d.db, d1.db)
    requires forall c :: c in d1.db.orders ==> c in d.db.orders || c == Ours(d.r.iid, d.r.num + 1)
    requires Ours(d.r.iid, d.r.num + 1) !in d.db.orders
    ensures StandsAt(SetState(d1, Halted).r, SetState(d1, Halted).a, SetState(d1, Halted).db)
  {
    hide Ok, OrdersWf, DecisionsWf, PendingWf, RowWf, NumbersWf, FillsOf, InPlace;
    var i, d2 := d.r.iid, SetState(d1, Halted);
    forall k | 0 <= k < |d.a.queue| && d.a.queue[k].FillUpdate? && d.a.queue[k].iid == i
      ensures GivenUpFill(d2.a.queue[k], d2.db) <==> GivenUpFill(d.a.queue[k], d.db)
    {
    }
    if NoGivenUpFill(d.a.queue, d.db, i) {
      assert NoGivenUpFill(d2.a.queue, d2.db, i);
    } else {
      var fs := FillsOf(d.a.queue, i);
      AmongIsQueued(d.a.queue, i, fs[0]);
    }
  }

  // ----- one call -----

  lemma OnBarStands(d: Desk, bar: BarInput, snap: AccountSnapshot, kill: Kill, categories: map<int, Category>, pending: seq<Intent>, now: int)
    requires DeskSound(d) && (bar.close.Some? ==> PriceOk(bar.close.value)) && EntrySized(d.r.iid, bar, snap, kill, categories, pending)
    ensures DeskStands(OnBar(d, bar, snap, kill, categories, pending, now))
  {
    hide DeskSound, DeskStands, Send, Skip, EntryIntent, EntryRaises, RoomForAQuantum, Exit, Clamp;
    SkipStands(d);
    StillStands(d, d);
    if !Pending(d.r.state) && !Frozen(d.r.state) && bar.close.Some? {
      var mark := bar.close.value;
      if d.r.state == Open {
        LeaveStands(d, mark, now);
      } else {
        var intent := EntryIntent(d.r.iid, EntrySide(bar), mark, snap, categories, pending);
        if intent.Some? && AsksEntry(d.r, bar, kill) {
          EntryIntentShape(d.r.iid, EntrySide(bar), mark, snap, categories, pending);
          EntrySizedExactly(d.r.iid, EntrySide(bar), mark, snap, categories, pending);
          EntryStands(d, intent.value, now);
        }
      }
    }
  }

  lemma SkipStands(d: Desk)
    requires DeskSound(d)
    ensures DeskStands(Skip(d))
  {
    hide DeskSound, DeskStands;
    StillStands(d, Skip(d));
  }

  lemma OnFastStands(d: Desk, mark: real, snap: AccountSnapshot, now: int)
    requires DeskSound(d) && PriceOk(mark)
    ensures DeskStands(OnFast(d, mark, snap, now))
  {
    hide DeskSound, DeskStands, Exit;
    StillStands(d, d);
    StillStands(d, SetState(d, Liquidated));
    if d.r.state == Open { LeaveStands(d, mark, now); }
  }

  lemma CalledStands(w: World, m: Micro)
    requires MicroOk(m) && IsCall(m) && m.iid in w.routers && w.routers[m.iid].iid == m.iid && DeskSound(DeskOf(w, m.iid))
    requires TakesClean(DeskOf(w, m.iid), Called(w, m)) && (m.Operator? ==> FillsOf(w.a.queue, m.iid) == []) && CallSized(m, w.categories)
    ensures DeskStands(Called(w, m))
  {
    hide DeskSound, DeskStands, OnBar, OnFast, CheckPending, Shutdown, Snapshot, EntrySized, TakesClean, FillsOf;
    var d := DeskOf(w, m.iid);
    match m
    case BarCall(_, bar, snap, kill, pending, now) => OnBarStands(d, bar, snap, kill, w.categories, pending, now);
    case FastCall(_, mark, liq, now) => OnFastStands(d, mark, Snapshot(w.a).(inLiquidation := liq), now);
    case TimeoutCall(_, now) => CheckPendingStands(d, now);
    case ShutdownCall(_, mark, now) => ShutdownStands(d, mark, now);
    case HaltCall(_) => StillStands(d, Halt(d));
    case Operator(_) => StillStands(d, ClearHalt(d));
  }

  /** A router whose business the step was not. */
  lemma StandsOn(r: Router, r2: Router, a: Account, b: Account, db: Db, db2: Db)
    requires StandsAt(r, a, db) && r2.iid == r.iid && r2.state == r.state && r2.size == r.size
    requires FillsOf(b.queue, r.iid) == FillsOf(a.queue, r.iid) && Size(b, r.iid) == Size(a, r.iid)
    requires r.iid in b.stops ==> r.iid in a.stops || Size(a, r.iid) != 0.0
    requires forall ev :: ev in FillsOf(a.queue, r.iid) ==> (GivenUpFill(ev, db2) <==> GivenUpFill(ev, db))
    ensures StandsAt(r2, b, db2)
  {
    hide FillsOf, GivenUpFill;
    var i := r.iid;
    if NoGivenUpFill(a.queue, db, i) {
      NoneAmong(a.queue, db, i);
      NoneOfThese(b.queue, db2, i);
    }
    if NoGivenUpFill(b.queue, db2, i) {
      NoneAmong(b.queue, db2, i);
      NoneOfThese(a.queue, db, i);
    }
  }

  lemma OwnAmong(w: World, i: int)
    requires OwnQueue(w.a, w.db)
    ensures forall ev :: ev in FillsOf(w.a.queue, i) ==> ev.FillUpdate? && ev.cid in w.db.orders && ev.cid.Ours? && ev.cid.iid == i
  {
    hide FillsOf;
    forall ev | ev in FillsOf(w.a.queue, i) ensures ev.FillUpdate? && ev.cid in w.db.orders && ev.cid.Ours? && ev.cid.iid == i {
      AmongIsQueued(w.a.queue, i, ev);
      var k :| 0 <= k < |w.a.queue| && w.a.queue[k] == ev;
    }
  }

  lemma SoundDesk(w: World, i: int)
    requires Sound(w, true) && Standing(w) && i in w.routers
    ensures DeskSound(DeskOf(w, i)) && w.routers[i].iid == i
  {
    hide Wf, Conserved, NoGivenUpFill, StandsAt, InPlace, Good, OwnQueue, DeskCovered, Expecting, Quiescent;
    DeskGood(w, i);
    IidOf(w);
    CoveredResting(w, true);
    if NoGivenUpFill(w.a.queue, w.db, i) { DeskIsCovered(w, i, true); }
  }

  lemma CallStands(w: World, m: Micro)
    requires Sound(w, true) && Standing(w) && Closed(m) && IsCall(m) && m.iid in w.routers
    requires CarefulStep(w, m) && CallSized(m, w.categories)
    ensures Standing(Act(w, m))
  {
    hide Wf, Conserved, Covered, Called, CallSized, Step, Touches, Kept, NoGivenUpFill, NoLiveFill, FillsOf, NotAdopted, DeskSound,
      InPlace, StandsAt, OwnQueue, DbKept, Good, Calm, SimQueue;
    SoundDesk(w, m.iid);
    CalledSteps(w, m);
    CalledCalm(w, m);
    IidOf(w);
    var d, d2, w2 := DeskOf(w, m.iid), Called(w, m), Act(w, m);
    StepParts(d, d2);
    if !NotAdopted(d.db, d2.db) { assert AdoptsFor(w, m, m.iid); }
    CalledStands(w, m);
    OwnQueueGrows(d, d2);
    forall j | j != m.iid ensures InPlace(w2.a, j) {
      assert InPlace(w.a, j);
      OthersInPlace(m.iid, j, w.a, w2.a);
    }
    forall j | j in w2.routers ensures StandsAt(w2.routers[j], w2.a, w2.db) {
      if j != m.iid { OtherStands(w, m.iid, d2, j); }
    }
  }

  lemma OwnQueueGrows(d: Desk, d2: Desk)
    requires OwnQueue(d.a, d.db) && Touches(d.r.iid, d.a, d2.a) && Calm(d, d2) && DbKept(d.r, d.db, d2.db)
    ensures OwnQueue(d2.a, d2.db)
  {
    hide Ok, Lag, NotAdopted;
    forall k | 0 <= k < |d2.a.queue| && d2.a.queue[k].FillUpdate?
      ensures d2.a.queue[k].cid in d2.db.orders && d2.a.queue[k].cid.Ours? && d2.a.queue[k].cid.iid == d2.a.queue[k].iid
    {
      if k < |d.a.queue| { assert d2.a.queue[k] == d.a.queue[k]; } else { assert EventOf(d2.a.queue[k], d.r.iid); }
    }
  }

  lemma OthersInPlace(i: int, j: int, a: Account, b: Account)
    requires Touches(i, a, b) && j != i && InPlace(a, j)
    ensures InPlace(b, j)
  {
    hide Ok, Lag, Protects;
  }

  lemma OtherStands(w: World, i: int, d2: Desk, j: int)
    requires i in w.routers && j in w.routers && j != i && w.routers[j].iid == j && w.routers[i].iid == i && StandsAt(w.routers[j], w.a, w.db)
    requires Touches(i, w.a, d2.a) && DbKept(w.routers[i], w.db, d2.db) && OwnQueue(w.a, w.db)
    ensures StandsAt(w.routers[j], d2.a, d2.db)
  {
    hide FillsOf, StandsAt, OwnQueue, DecisionsKept;
    TouchesOthers(i, j, w.a, d2.a);
    OwnAmong(w, j);
    hide Touches;
    StandsOn(w.routers[j], w.routers[j], w.a, d2.a, w.db, d2.db);
  }

  // ----- deliveries -----

  lemma {:induction false} UpdateGivesUpNothing(w: World, ids: seq<int>, cid: Cid, s: OrderStatus)
    requires VenueStatus(s)
    ensures var db2 := UpdateAll(w, ids, cid, s).db;
      forall c :: c in w.db.orders && !GaveUp(w.db.orders[c].status) ==> c in db2.orders && !GaveUp(db2.orders[c].status)
    decreases |ids|
  {
    hide HandleUpdate, VenueStatus;
    if ids != [] {
      if ids[0] in w.routers {
        HandleUpdateQuiet(DeskOf(w, ids[0]), cid, s);
        UpdateGivesUpNothing(Put(w, ids[0], HandleUpdate(DeskOf(w, ids[0]), cid, s)), ids[1..], cid, s);
      } else {
        UpdateGivesUpNothing(w, ids[1..], cid, s);
      }
    }
  }

  lemma BothWays(w: World, w2: World)
    requires Kept(w, w2) && forall c :: c in w.db.orders && !GaveUp(w.db.orders[c].status) ==> c in w2.db.orders && !GaveUp(w2.db.orders[c].status)
    ensures SameGivenUp(w.db, w2.db)
  {
    hide DecisionsKept;
  }

  lemma PoppedOwn(w: World, w2: World)
    requires OwnQueue(w.a, w.db) && Kept(w, w2) && w.a.queue != [] && w2.a.queue == w.a.queue[1..]
    ensures OwnQueue(w2.a, w2.db)
  {
    hide DecisionsKept, RowKept;
    forall k | 0 <= k < |w2.a.queue| && w2.a.queue[k].FillUpdate?
      ensures w2.a.queue[k].cid in w2.db.orders && w2.a.queue[k].cid.Ours? && w2.a.queue[k].cid.iid == w2.a.queue[k].iid
    {
      assert w2.a.queue[k] == w.a.queue[k + 1];
    }
  }

  /** A router whose fill was not the one delivered. */
  lemma PoppedStands(w: World, w2: World, j: int)
    requires OwnQueue(w.a, w.db) && SameGivenUp(w.db, w2.db) && w.a.queue != [] && w2.a.queue == w.a.queue[1..]
    requires j in w.routers && j in w2.routers && w.routers[j].iid == j == w2.routers[j].iid && StandsAt(w.routers[j], w.a, w.db)
    requires !(w.a.queue[0].FillUpdate? && w.a.queue[0].iid == j) && w2.routers[j] == w.routers[j]
    requires PosOf(w2.a, j) == PosOf(w.a, j) && (j in w2.a.stops <==> j in w.a.stops)
    ensures StandsAt(w2.routers[j], w2.a, w2.db)
  {
    hide StandsAt, OwnQueue, FillsOf;
    PopFills(w.a.queue, j);
    OwnAmong(w, j);
    StandsOn(w.routers[j], w2.routers[j], w.a, w2.a, w.db, w2.db);
  }

  /** A fill changes no other instrument's stop, and gives no order up. */
  lemma FillKeeps(d: Desk, ev: Event)
    requires ev.FillUpdate? && ev.iid == d.r.iid && Ok(d.a)
    ensures var d2 := HandleFill(d, ev);
      && (forall j :: j != d.r.iid ==> (j in d2.a.stops <==> j in d.a.stops) && (j in d.a.stops ==> d2.a.stops[j] == d.a.stops[j]))
      && (forall c :: c in d.db.orders && !GaveUp(d.db.orders[c].status) ==> c in d2.db.orders && !GaveUp(d2.db.orders[c].status))
  {
    if LateFill(d, ev.cid) { LateKeeps(d, ev); } else { LiveKeeps(d, ev); }
    hide HandleFill, Ok, LateFill;
  }

  lemma LateKeeps(d: Desk, ev: Event)
    requires ev.FillUpdate? && ev.iid == d.r.iid && Ok(d.a) && LateFill(d, ev.cid)
    ensures var d2 := HandleFill(d, ev);
      && (forall j :: j != d.r.iid ==> (j in d2.a.stops <==> j in d.a.stops) && (j in d.a.stops ==> d2.a.stops[j] == d.a.stops[j]))
      && (forall c :: c in d.db.orders && !GaveUp(d.db.orders[c].status) ==> c in d2.db.orders && !GaveUp(d2.db.orders[c].status))
  {
    hide Ok, AdoptAndSettle, Snapshot, Lag;
    var row := d.db.orders[ev.cid];
    AdoptAndSettleEffect(d.(db := d.db.(orders := d.db.orders[ev.cid := row.(filled := row.filled + ev.quantity)])));
  }

  lemma LiveKeeps(d: Desk, ev: Event)
    requires ev.FillUpdate? && ev.iid == d.r.iid && !LateFill(d, ev.cid)
    ensures var d2 := HandleFill(d, ev);
      && (forall j :: j != d.r.iid ==> (j in d2.a.stops <==> j in d.a.stops) && (j in d.a.stops ==> d2.a.stops[j] == d.a.stops[j]))
      && (forall c :: c in d.db.orders && !GaveUp(d.db.orders[c].status) ==> c in d2.db.orders && !GaveUp(d2.db.orders[c].status))
  {
    FillAdds(d, ev);
    hide FillEntry, StopPrice, RecordFill;
  }

  lemma PumpStands(w: World)
    requires Sound(w, true) && Standing(w) && BooksHold(w) && CleanStep(w, Pump)
    ensures Standing(Act(w, Pump))
  {
    hide Conserved, Covered, Wf, BooksHold, UpdateAll, HandleFill, FillsOf, Kept, LateFill, CleanStep, StandsAt, OwnQueue,
      SameGivenUp, Protects, SimQueue, Ok;
    if w.a.queue != [] {
      var ev := w.a.queue[0];
      var w1 := w.(a := w.a.(queue := w.a.queue[1..]));
      var w2 := Act(w, Pump);
      ActWf(w, Pump);
      IidOf(w);
      WfOk(w);
      PopOk(w);
      PumpQueue(w);
      PoppedOwn(w, w2);
      if ev.OrderUpdate? {
        FilledHead(w);
        FilledUpdateLeaves(w1, w1.ids, ev.cid);
        UpdateGivesUpNothing(w1, w1.ids, ev.cid, Filled);
        BothWays(w, w2);
      } else if ev.iid in w.routers {
        FillFrame(DeskOf(w1, ev.iid), ev);
        FillKeeps(DeskOf(w1, ev.iid), ev);
        BothWays(w, w2);
        FilledStands(w, ev);
      } else {
        BothWays(w, w2);
      }
      forall j ensures InPlace(w2.a, j) { assert InPlace(w.a, j); }
      forall j | j in w2.routers ensures StandsAt(w2.routers[j], w2.a, w2.db) {
        if !(ev.FillUpdate? && ev.iid == j) { PoppedStands(w, w2, j); }
      }
    }
  }

  lemma FilledHead(w: World)
    requires SimQueue(w.a) && w.a.queue != [] && w.a.queue[0].OrderUpdate?
    ensures w.a.queue[0].status == Filled && VenueStatus(Filled)
  {
  }

  lemma PumpQueue(w: World)
    requires Wf(w) && w.a.queue != []
    ensures Act(w, Pump).a.queue == w.a.queue[1..]
  {
    hide Wf, Dispatch;
    PopWf(w);
    DispatchQueue(w.(a := w.a.(queue := w.a.queue[1..])), w.a.queue[0]);
  }

  /** The router whose fill is delivered. */
  lemma FilledStands(w: World, ev: Event)
    requires Sound(w, true) && Standing(w) && BooksHold(w) && CleanStep(w, Pump)
    requires w.a.queue != [] && ev == w.a.queue[0] && ev.FillUpdate? && ev.iid in w.routers && w.routers[ev.iid].iid == ev.iid
    requires Ok(w.a) && Ok(w.a.(queue := w.a.queue[1..])) && Kept(w, Act(w, Pump)) && SameGivenUp(w.db, Act(w, Pump).db) && Wf(Act(w, Pump))
    ensures InPlace(Act(w, Pump).a, ev.iid) && StandsAt(Act(w, Pump).routers[ev.iid], Act(w, Pump).a, Act(w, Pump).db)
  {
    hide Wf, Conserved, Covered, HandleFill, NoGivenUpFill, NoLiveFill, Kept, Ok, LateFill, BooksHold, FillsOf, InPlace,
      StandsAt, OwnQueue, SameGivenUp,
      SimQueue;
    var i := ev.iid;
    var w1 := w.(a := w.a.(queue := w.a.queue[1..]));
    var d := DeskOf(w1, i);
    var w2 := Act(w, Pump);
    assert w2 == Put(w1, i, HandleFill(d, ev));
    SameLate(DeskOf(w, i), d, ev.cid);
    assert InPlace(w.a, i);
    if LateFill(d, ev.cid) {
      assert AdoptsFor(w, Pump, i);
      SamePlace(w.a, d.a, i);
      LateStands(d, ev);
    } else {
      NotLateNotGivenUp(w, ev);
      if NoGivenUpFill(w.a.queue, w.db, i) {
        LiveStands(w, ev);
      } else {
        OutOfTurn(w, ev);
        FillFrame(d, ev);
        FrozenFill(d, ev);
        ClosedStands(HandleFill(d, ev));
        ClosedInPlace(HandleFill(d, ev).a, i);
      }
    }
  }

  lemma SamePlace(a: Account, b: Account, i: int)
    requires InPlace(a, i) && b.stops == a.stops && b.pos == a.pos
    ensures InPlace(b, i)
  {
    hide Protects;
  }

  lemma ClosedInPlace(a: Account, i: int)
    requires Size(a, i) == 0.0
    ensures InPlace(a, i)
  {
  }

  lemma LateStands(d: Desk, ev: Event)
    requires ev.FillUpdate? && ev.iid == d.r.iid && LateFill(d, ev.cid) && Ok(d.a) && InPlace(d.a, d.r.iid)
    requires NoLiveFill(HandleFill(d, ev).a.queue, HandleFill(d, ev).db, d.r.iid)
    ensures DeskStands(HandleFill(d, ev)) && HandleFill(d, ev).r.iid == d.r.iid
  {
    hide Ok, AdoptAndSettle, Snapshot, NoLiveFill, Guarded, InPlace, StandsAt;
    var row := d.db.orders[ev.cid];
    AdoptAndSettleEffect(d.(db := d.db.(orders := d.db.orders[ev.cid := row.(filled := row.filled + ev.quantity)])));
    AdoptedStands(d, HandleFill(d, ev));
  }

  /** A live fill that comes before a given-up one: the router is frozen and closed. */
  lemma OutOfTurn(w: World, ev: Event)
    requires w.a.queue != [] && ev == w.a.queue[0] && ev.FillUpdate? && ev.iid in w.routers && w.routers[ev.iid].iid == ev.iid
    requires StandsAt(w.routers[ev.iid], w.a, w.db) && !NoGivenUpFill(w.a.queue, w.db, ev.iid) && !GivenUpFill(ev, w.db)
    ensures Frozen(w.routers[ev.iid].state) && Size(w.a, ev.iid) == 0.0
  {
    assert w.a.queue == [ev] + w.a.queue[1..];
    FillsOfHead(ev, w.a.queue[1..], ev.iid);
    hide FillsOf;
  }

  lemma FrozenFill(d: Desk, ev: Event)
    requires ev.FillUpdate? && ev.iid == d.r.iid && !LateFill(d, ev.cid) && Frozen(d.r.state)
    ensures Frozen(HandleFill(d, ev).r.state)
  {
    hide FillEntry, StopPrice, RecordFill;
  }

  lemma LiveStands(w: World, ev: Event)
    requires Sound(w, true) && Standing(w) && BooksHold(w) && w.a.queue != [] && ev == w.a.queue[0] && ev.FillUpdate? && ev.iid in w.routers
    requires w.routers[ev.iid].iid == ev.iid && NoGivenUpFill(w.a.queue, w.db, ev.iid) && Ok(w.a.(queue := w.a.queue[1..]))
    requires var d := DeskOf(w.(a := w.a.(queue := w.a.queue[1..])), ev.iid);
      !LateFill(d, ev.cid) && Act(w, Pump) == Put(w.(a := w.a.(queue := w.a.queue[1..])), ev.iid, HandleFill(d, ev))
    requires Kept(w, Act(w, Pump)) && SameGivenUp(w.db, Act(w, Pump).db)
    ensures InPlace(Act(w, Pump).a, ev.iid) && StandsAt(Act(w, Pump).routers[ev.iid], Act(w, Pump).a, Act(w, Pump).db)
  {
    hide Wf, Conserved, Covered, HandleFill, NoGivenUpFill, Kept, Ok, LateFill, FillsOf, InPlace, StandsAt, OwnQueue,
      SameGivenUp, BooksAt, SimQueue,
      DeskCovered, Act;
    var i, rest := ev.iid, w.a.queue[1..];
    var d := DeskOf(w.(a := w.a.(queue := rest)), i);
    var d2 := HandleFill(d, ev);
    assert w.a.queue == [ev] + rest;
    FillsOfHead(ev, rest, i);
    FillFrame(d, ev);
    FillBooks(d, ev);
    DeskIsCovered(w, i, true);
    CoveredState(DeskOf(w, i), ev, rest);
    DeliveredBooks(w.routers[i], d2.r, w.a, d2.a, ev);
    assert StandsAt(w.routers[i], w.a, w.db);
    if FillsOf(rest, i) == [] {
      LastStands(d, d2, ev);
    } else {
      FrozenFill(d, ev);
      TwoOnTheWay(w.routers[i], w.a, w.db);
      ClosedStands(d2);
      ClosedInPlace(d2.a, i);
    }
  }

  lemma TwoOnTheWay(r: Router, a: Account, db: Db)
    requires StandsAt(r, a, db) && NoGivenUpFill(a.queue, db, r.iid) && Frozen(r.state) && |FillsOf(a.queue, r.iid)| >= 2
    ensures Size(a, r.iid) == 0.0
  {
    hide FillsOf, NoGivenUpFill;
  }

  /** What a covered desk says of a router with this fill on its way. */
  lemma CoveredState(d: Desk, ev: Event, rest: seq<Event>)
    requires DeskCovered(d, true) && d.a.queue == [ev] + rest && ev.FillUpdate? && ev.iid == d.r.iid
    ensures d.r.state != Flat && d.r.state != Open && (FillsOf(rest, d.r.iid) != [] ==> Frozen(d.r.state))
    ensures d.r.state == EntryPending ==> d.r.pendingCid == Some(ev.cid)
    ensures d.r.state == ExitPending ==> Size(d.a, d.r.iid) == 0.0
    ensures FillsOf(d.a.queue, d.r.iid) == [ev] + FillsOf(rest, d.r.iid)
  {
    FillsOfHead(ev, rest, d.r.iid);
    hide FillsOf, Lag, Quiescent;
  }

  /** The last fill on its way: the router now has the venue's book, and places its stop from it. */
  lemma LastStands(d: Desk, d2: Desk, ev: Event)
    requires ev.FillUpdate? && ev.iid == d.r.iid && !LateFill(d, ev.cid) && d2 == HandleFill(d, ev) && d2.r.iid == d.r.iid
    requires FillsOf(d2.a.queue, d.r.iid) == [] && BooksAt(d2.r, d2.a)
    requires d.r.state != Flat && d.r.state != Open
    requires d.r.state == EntryPending ==> d.r.pendingCid == Some(ev.cid)
    requires d.r.state == ExitPending ==> Size(d2.a, d.r.iid) == 0.0
    ensures InPlace(d2.a, d.r.iid) && StandsAt(d2.r, d2.a, d2.db)
  {
    hide HandleFill, LateFill, FillsOf, NoGivenUpFill, Protects;
    assert RouterAfter(HeldBy(d2.r), []) == HeldBy(d2.r);
    NothingGivenUpOnTheWay(d2.a.queue, d2.db, d.r.iid);
    if Size(d2.a, d.r.iid) != 0.0 {
      assert d2.r.size == Size(d2.a, d.r.iid) && d2.r.entry == Some(PosOf(d2.a, d.r.iid).entry);
      StopFromBook(d, ev);
    }
  }

  lemma StopFromBook(d: Desk, ev: Event)
    requires ev.FillUpdate? && ev.iid == d.r.iid && !LateFill(d, ev.cid)
    requires (d.r.state == EntryPending && d.r.pendingCid == Some(ev.cid)) || Frozen(d.r.state)
    ensures var d2 := HandleFill(d, ev);
      d2.r.size != 0.0 && d2.r.entry.Some? ==>
        d.r.iid in d2.a.stops && Protects(d2.r.size > 0.0, d2.r.entry.value, d2.a.stops[d.r.iid]) && d2.r.stop == Some(d2.a.stops[d.r.iid])
  {
    hide FillEntry, RecordFill, StopPrice, Protects;
    forall long, entry ensures Protects(long, entry, StopPrice(long, entry)) { StopProtects(long, entry); }
  }

  // ----- stops firing -----

  lemma StopFiresStands(w: World, i: int)
    requires Sound(w, true) && Standing(w)
    ensures Standing(Act(w, StopFires(i)))
  {
    hide Wf, Conserved, Covered, HandleFill, FillsOf, Kept, LateFill, StandsAt, OwnQueue, Protects, SimQueue, Ok, FireStop,
      Fires, StopFill, PlainCash;
    if Fires(w.a, i) {
      var b, ev := FireStop(w.a, i), StopFill(w.a, i);
      var w1, w2 := w.(a := b), Act(w, StopFires(i));
      WfOk(w);
      IidOf(w);
      ActWf(w, StopFires(i));
      FireStopEffect(w.a, i);
      StopFillIs(w.a, i);
      StopIdsUnrecorded(w, ev.cid);
      FiresUnder(w.a, i);
      if i in w.routers {
        UnrecordedNotLate(DeskOf(w1, i), ev.cid);
        FillFrame(DeskOf(w1, i), ev);
        FillKeeps(DeskOf(w1, i), ev);
      }
      BothWays(w, w2);
      KeptOwn(w, w2);
      forall j ensures InPlace(w2.a, j) { assert InPlace(w.a, j); }
      forall j | j in w2.routers ensures StandsAt(w2.routers[j], w2.a, w2.db) {
        OwnAmong(w, j);
        if j == i {
          StoppedState(DeskOf(w1, i), ev);
          StoppedStands(w, w2, i);
        } else {
          StandsOn(w.routers[j], w2.routers[j], w.a, w2.a, w.db, w2.db);
        }
      }
    }
  }

  lemma FiresUnder(a: Account, i: int)
    requires Fires(a, i)
    ensures i in a.stops && Size(a, i) != 0.0
  {
  }

  lemma KeptOwn(w: World, w2: World)
    requires OwnQueue(w.a, w.db) && Kept(w, w2) && w2.a.queue == w.a.queue
    ensures OwnQueue(w2.a, w2.db)
  {
    hide DecisionsKept, RowKept;
  }

  lemma StoppedState(d: Desk, ev: Event)
    requires ev.FillUpdate? && ev.iid == d.r.iid && !LateFill(d, ev.cid)
    ensures var d2 := HandleFill(d, ev);
      && (Frozen(d.r.state) <==> Frozen(d2.r.state))
      && (d.r.state != Flat && d2.r.state == Flat ==> d2.r.size == 0.0 && d.r.iid !in d2.a.stops)
  {
    hide FillEntry, RecordFill, StopPrice;
  }

  lemma StoppedStands(w: World, w2: World, i: int)
    requires i in w.routers && i in w2.routers && w.routers[i].iid == i == w2.routers[i].iid && StandsAt(w.routers[i], w.a, w.db)
    requires w2.a.queue == w.a.queue && Size(w.a, i) != 0.0 && i in w.a.stops && Size(w2.a, i) == 0.0
    requires forall ev :: ev in FillsOf(w.a.queue, i) ==> (GivenUpFill(ev, w2.db) <==> GivenUpFill(ev, w.db))
    requires w.routers[i].state != Flat && w2.routers[i].state == Flat ==> w2.routers[i].size == 0.0 && i !in w2.a.stops
    ensures StandsAt(w2.routers[i], w2.a, w2.db)
  {
    hide FillsOf, GivenUpFill;
    if NoGivenUpFill(w.a.queue, w.db, i) {
      NoneAmong(w.a.queue, w.db, i);
      NoneOfThese(w2.a.queue, w2.db, i);
    }
  }

  // ----- everything else -----

  lemma VenueStands(w: World, m: Micro)
    requires Sound(w, true) && Standing(w) && Admissible(m)
    requires m.Tick? || m.Fund? || m.Inject? || m.DropOrphan? || m.CancelOrder? || m.GuardPosition?
    ensures Standing(Act(w, m))
  {
    hide Wf, Conserved, Covered, FillsOf, Kept, StandsAt, OwnQueue, SimQueue, Act, Protects;
    var w2 := Act(w, m);
    ActWf(w, m);
    IidOf(w);
    CoveredResting(w, true);
    VenuePositions(w, m);
    if m.GuardPosition? || m.DropOrphan? { GuardFrame(w, m); } else { FundFrame(w, m); }
    KeptOwn(w, w2);
    VenueOrders(w, m);
    forall j ensures InPlace(w2.a, j) {
      assert InPlace(w.a, j);
      VenueInPlace(w, m, j);
    }
    forall j | j in w2.routers ensures StandsAt(w2.routers[j], w2.a, w2.db) {
      SameOrders(w.a.queue, w.db, w2.db, j);
      StandsOn(w.routers[j], w2.routers[j], w.a, w2.a, w.db, w2.db);
    }
  }

  lemma VenueOrders(w: World, m: Micro)
    requires Admissible(m) && (m.Tick? || m.Fund? || m.Inject? || m.DropOrphan? || m.CancelOrder? || m.GuardPosition?)
    ensures Act(w, m).db.orders == w.db.orders
  {
    hide FundingPaid, VenueStop;
  }

  lemma VenueInPlace(w: World, m: Micro, j: int)
    requires InPlace(w.a, j) && Admissible(m) && SamePositions(w.a, Act(w, m).a)
    requires m.Tick? || m.Fund? || m.Inject? || m.DropOrphan? || m.CancelOrder? || m.GuardPosition?
    ensures InPlace(Act(w, m).a, j)
  {
    hide FundingPaid, GuardWorld, Protects;
    if m.GuardPosition? && Size(w.a, m.iid) != 0.0 && m.iid !in w.a.stops {
      GuardedPosition(w, m.iid);
      GuardOnly(w, m.iid, j);
    }
    if m.GuardPosition? { GuardIdle(w, m.iid); }
  }

  lemma GuardOnly(w: World, i: int, j: int)
    ensures j != i ==> (j in GuardWorld(w, i).a.stops <==> j in w.a.stops) && (j in w.a.stops ==> GuardWorld(w, i).a.stops[j] == w.a.stops[j])
  {
    hide VenueStop;
  }

  lemma GuardIdle(w: World, i: int)
    ensures Size(w.a, i) == 0.0 || i in w.a.stops ==> GuardWorld(w, i) == w
  {
    hide VenueStop;
  }

  lemma RestartStands(w: World, now: int)
    requires StoreWf(w) && forall i :: InPlace(w.a, i)
    ensures Standing(RestartWorld(w, now))
  {
    hide RestartWorld, StoreWf, WasFrozen, RecoveredState, Mirrors, Protects;
    RestartEffect(w, now);
    RestartPlaces(w, now);
    RestartWf(w, now);
    var w2 := RestartWorld(w, now);
    IidOf(w2);
    forall i ensures InPlace(w2.a, i) { assert InPlace(w.a, i); }
    forall i | i in w2.routers ensures StandsAt(w2.routers[i], w2.a, w2.db) {
      assert FillsOf(w2.a.queue, i) == [];
      NothingGivenUpOnTheWay(w2.a.queue, w2.db, i);
    }
  }

  lemma ActStands(w: World, m: Micro)
    requires Sound(w, true) && Standing(w) && BooksHold(w) && Closed(m) && CarefulStep(w, m) && CallSized(m, w.categories)
    ensures Standing(Act(w, m))
  {
    hide Sound, Standing, BooksHold, CallSized, RestartWorld, GuardWorld, Dispatch, FireStop, Fires, StopFill,
      OnBar, OnFast, CheckPending, Shutdown, Halt, CleanStep, FillsOf;
    if IsCall(m) {
      if m.iid in w.routers { CallStands(w, m); }
    } else if m.Restart? {
      SoundStore(w);
      RestartStands(w, m.now);
    } else if m.Pump? {
      PumpStands(w);
    } else if m.StopFires? {
      StopFiresStands(w, m.iid);
    } else {
      VenueStands(w, m);
    }
  }

  lemma SoundStore(w: World)
    requires Sound(w, true) && Standing(w)
    ensures StoreWf(w) && forall i :: InPlace(w.a, i)
  {
    hide Wf, Conserved, Covered, SimQueue, InPlace, StandsAt, OwnQueue;
    WfStore(w);
  }

  // ----- whole runs -----

  lemma {:induction false} RunStands(w: World, ms: seq<Micro>, k: nat)
    requires Sound(w, true) && Standing(w) && BooksHold(w) && AllClosed(ms) && RunSized(ms, w.categories) && Careful(w, ms)
    requires OrphanFree(w, ms, |ms|) && k <= |ms|
    ensures Sound(Prefix(w, ms, k), true) && Standing(Prefix(w, ms, k)) && BooksHold(Prefix(w, ms, k))
    decreases k
  {
    hide Wf, Conserved, Covered, SimQueue, Standing, BooksHold, Act, CallSized, NoOrphan, CleanStep, FillsOf, MicroOk, Run;
    RunCovered(w, ms, k, true);
    if k == 0 {
      assert ms[..0] == [];
      NothingRuns(w);
    } else {
      RunStands(w, ms, k - 1);
      RunCovered(w, ms, k - 1, true);
      NextPrefix(w, ms, k - 1);
      assert ms[k - 1] in ms;
      ActBooks(Prefix(w, ms, k - 1), ms[k - 1]);
      ActStands(Prefix(w, ms, k - 1), ms[k - 1]);
    }
  }

  /** Every position is protected. Take a store whose stops, where they stand under positions, stand in place, and no orphan
      stop; restart it and run it under the conditions of exact stop coverage. Then at every moment any stop under a
      position, routed or not, stands 15% from the venue's own entry on the losing side, to the cent; and a routed position
      with no fill on its way has one. */
  lemma PositionsAreProtected(w: World, start: int, ms: seq<Micro>, k: nat, i: int)
    requires StoreWf(w) && w.a.resting == [] && NoOrphan(w.a, w.ids) && AllClosed(ms) && RunSized(ms, w.categories)
    requires Careful(RestartWorld(w, start), ms) && OrphanFree(RestartWorld(w, start), ms, |ms|) && k <= |ms|
    requires forall j :: InPlace(w.a, j)
    ensures var a := Prefix(RestartWorld(w, start), ms, k).a;
      && (i in a.stops && Size(a, i) != 0.0 ==> Protects(Size(a, i) > 0.0, PosOf(a, i).entry, a.stops[i]))
      && (i in w.ids && FillsOf(a.queue, i) == [] && Size(a, i) != 0.0 ==> i in a.stops)
  {
    hide RestartWorld, StoreWf, RunSized, Careful, NoOrphan, Wf, Conserved, Covered, SimQueue, BooksHold, StandsAt,
      OwnQueue, Run, FillsOf, Protects;
    var w1 := RestartWorld(w, start);
    Started(w, start);
    RestartStands(w, start);
    RestartBooks(w, start);
    RunStands(w1, ms, k);
    RunCovered(w1, ms, k, true);
    SoundIsExact(Prefix(w1, ms, k));
    assert InPlace(Prefix(w1, ms, k).a, i);
  }
}
