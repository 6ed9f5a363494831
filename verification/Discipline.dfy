/** What every router call keeps: rows in step with fields, order numbers that only grow, given-up orders
    that stay given up, and an account on which nobody else's business was touched. */
module Discipline {
  import opened Types
  import opened Protection
  import opened Guards
  import opened Sizing
  import opened Sim
  import opened Routing
  import opened Delivery

  // ----- invariants -----

  ghost predicate OrdersWf(db: Db) {
    && (forall c :: c in db.orders ==> c.Ours? && db.orders[c].iid == c.iid)
    && (forall c :: c in db.orders <==> c in db.orderIds)
  }

  /** No decision key repeats. */
  ghost predicate DecisionsWf(db: Db) {
    forall p, q :: 0 <= p < q < |db.decisions| && db.decisions[p].iid == db.decisions[q].iid ==>
      db.decisions[p].num != db.decisions[q].num
  }

  /** Decisions only grow, and the new ones decide on new orders, each on its own. */
  ghost predicate DecisionsKept(db: Db, db2: Db) {
    && db.decisions <= db2.decisions
    && (forall p :: |db.decisions| <= p < |db2.decisions| && db2.decisions[p].cid.Some? ==>
          db2.decisions[p].cid.value in db2.orders && db2.decisions[p].cid.value !in db.orders)
    && (forall p, q :: |db.decisions| <= p < q < |db2.decisions| && db2.decisions[p].cid.Some? ==>
          db2.decisions[p].cid != db2.decisions[q].cid)
  }

  lemma DecisionsKeptTrans(db: Db, db2: Db, db3: Db)
    requires DecisionsKept(db, db2) && DecisionsKept(db2, db3)
    requires (forall c :: c in db.orders ==> c in db2.orders) && forall c :: c in db2.orders ==> c in db3.orders
    ensures DecisionsKept(db, db3)
  {
    forall p | |db.decisions| <= p < |db3.decisions| && db3.decisions[p].cid.Some?
      ensures db3.decisions[p].cid.value in db3.orders && db3.decisions[p].cid.value !in db.orders
    {
      if p < |db2.decisions| { assert db3.decisions[p] == db2.decisions[p]; }
    }
    forall p, q | |db.decisions| <= p < q < |db3.decisions| && db3.decisions[p].cid.Some?
      ensures db3.decisions[p].cid != db3.decisions[q].cid
    {
      if p < |db2.decisions| { assert db3.decisions[p] == db2.decisions[p]; }
      if q < |db2.decisions| { assert db3.decisions[q] == db2.decisions[q]; }
    }
  }

  /** The router's counters are at least every number it has used. */
  ghost predicate NumbersWf(r: Router, db: Db) {
    && (forall c :: c in db.orders && c.Ours? && c.iid == r.iid ==> c.num <= r.num)
    && (forall p :: 0 <= p < |db.decisions| && db.decisions[p].iid == r.iid ==> db.decisions[p].num <= r.dnum)
  }

  /** An order the router waits for is its own and not given up; a pending router waits for one. */
  ghost predicate PendingWf(r: Router, db: Db) {
    && (r.pendingCid.Some? ==>
          && r.pendingCid.value.Ours? && r.pendingCid.value.iid == r.iid
          && r.pendingCid.value in db.orders && !GaveUp(db.orders[r.pendingCid.value].status))
    && (Pending(r.state) ==> r.pendingCid.Some? && r.pendingSince.Some?)
  }

  ghost predicate RowWf(r: Router, db: Db) {
    r.iid in db.positions && db.positions[r.iid] == Row(r)
  }

  ghost predicate Good(d: Desk) {
    && Ok(d.a) && OrdersWf(d.db) && DecisionsWf(d.db)
    && NumbersWf(d.r, d.db) && PendingWf(d.r, d.db) && RowWf(d.r, d.db)
  }

  // ----- the step relation -----

  /** Side, size and kind of an order never change; neither does a given-up status. */
  predicate RowKept(x: OrderRow, y: OrderRow) {
    && y.iid == x.iid && y.side == x.side && y.quantity == x.quantity && y.reduceOnly == x.reduceOnly
    && (GaveUp(x.status) ==> y.status == x.status)
  }

  ghost predicate DbKept(r: Router, db: Db, db2: Db) {
    && (forall c :: c in db.orders ==> c in db2.orders && RowKept(db.orders[c], db2.orders[c]))
    && (forall c :: c in db.orders && c.Ours? && c.iid != r.iid && GaveUp(db2.orders[c].status) ==> GaveUp(db.orders[c].status))
    && (forall c :: c in db2.orders && c !in db.orders ==> c.Ours? && c.iid == r.iid && c.num > r.num)
    && (forall j :: j != r.iid && j in db.positions ==> j in db2.positions && db2.positions[j] == db.positions[j])
    && (forall j :: j != r.iid && j in db2.positions ==> j in db.positions)
    && DecisionsKept(db, db2)
    && (forall p :: |db.decisions| <= p < |db2.decisions| ==> db2.decisions[p].iid == r.iid)
  }

  ghost predicate Step(d: Desk, d2: Desk) {
    && Good(d2)
    && d2.r.iid == d.r.iid && d.r.num <= d2.r.num && d.r.dnum <= d2.r.dnum
    && DbKept(d.r, d.db, d2.db)
    && Touches(d.r.iid, d.a, d2.a)
  }

  lemma DbKeptTrans(r: Router, r2: Router, db: Db, db2: Db, db3: Db)
    requires DbKept(r, db, db2) && DbKept(r2, db2, db3) && r2.iid == r.iid && r.num <= r2.num
    ensures DbKept(r, db, db3)
  {
    DecisionsKeptTrans(db, db2, db3);
    forall p | |db.decisions| <= p < |db3.decisions| ensures db3.decisions[p].iid == r.iid {
      if p < |db2.decisions| { assert db3.decisions[p] == db2.decisions[p]; }
    }
  }

  lemma StepTrans(d: Desk, d2: Desk, d3: Desk)
    requires Step(d, d2) && Step(d2, d3)
    ensures Step(d, d3)
  {
    DbKeptTrans(d.r, d2.r, d.db, d2.db, d3.db);
    TouchesTrans(d.r.iid, d.a, d2.a, d3.a);
    hide DbKept, Touches, Good;
  }

  /** A rewrite of the router's own fields and row, of order rows within RowKept, and of the account. */
  ghost predicate Rewrites(d: Desk, d2: Desk) {
    && d2.r.iid == d.r.iid && d2.r.num == d.r.num && d2.r.dnum == d.r.dnum
    && d2.db.decisions == d.db.decisions && d2.db.orderIds == d.db.orderIds
    && (forall c :: c in d2.db.orders <==> c in d.db.orders)
    && (forall c :: c in d.db.orders ==> RowKept(d.db.orders[c], d2.db.orders[c]))
    && (forall c :: c in d.db.orders && c.Ours? && c.iid != d.r.iid && GaveUp(d2.db.orders[c].status) ==>
          GaveUp(d.db.orders[c].status))
    && RowWf(d2.r, d2.db)
    && (forall j :: j != d.r.iid ==> (j in d2.db.positions <==> j in d.db.positions))
    && (forall j :: j != d.r.iid && j in d.db.positions ==> d2.db.positions[j] == d.db.positions[j])
    && PendingWf(d2.r, d2.db)
  }

  lemma RewriteSteps(d: Desk, d2: Desk)
    requires Good(d) && Rewrites(d, d2) && Touches(d.r.iid, d.a, d2.a)
    ensures Step(d, d2)
  {
    hide PendingWf, Touches, RowWf, Ok;
    TouchesOk(d, d2);
  }

  lemma TouchesOk(d: Desk, d2: Desk)
    requires Touches(d.r.iid, d.a, d2.a)
    ensures Ok(d2.a)
  {
  }

  // ----- recording and sending -----

  lemma RecordSteps(d: Desk)
    requires Good(d)
    ensures Step(d, Skip(d)) && Skip(d).a == d.a && Skip(d).r == d.r.(dnum := d.r.dnum + 1)
    ensures Skip(d).db.orders == d.db.orders
  {
    StopTouches(d.a, d.r.iid, 0.0);
    hide Ok, Touches;
  }

  lemma PrepareGood(d: Desk, intent: Intent, now: int)
    requires Good(d) && intent.iid == d.r.iid
    ensures Good(Prepare(d, intent, now))
  {
    hide Ok;
    var d2 := Prepare(d, intent, now);
    var cid := Ours(d.r.iid, d.r.num + 1);
    assert cid !in d.db.orders;
    assert d2.db.orderIds == d.db.orderIds + [cid];
    forall c ensures c in d2.db.orders <==> c in d2.db.orderIds {
      assert c in d2.db.orderIds <==> c in d.db.orderIds || c == cid;
    }
  }

  lemma PrepareSteps(d: Desk, intent: Intent, now: int)
    requires Good(d) && intent.iid == d.r.iid
    ensures Step(d, Prepare(d, intent, now)) && Prepare(d, intent, now).a == d.a
  {
    PrepareGood(d, intent, now);
    StopTouches(d.a, d.r.iid, 0.0);
    hide Ok, Touches;
  }

  // ----- adoption -----

  /** The router's fields say what the venue holds of its instrument: entry, funding and stop when there is a position,
      none of them when there is none. */
  ghost predicate Mirrors(r: Router, a: Account) {
    var p := PosOf(a, r.iid);
    && r.size == p.size
    && (p.size != 0.0 ==> r.entry == Some(p.entry) && r.funding == p.funding && r.iid in a.stops && r.stop == Some(a.stops[r.iid]))
    && (p.size == 0.0 ==> r.entry == None && r.stop == None)
  }

  /** A position found under a stop keeps that stop; one found without gets one at 15% from the venue's entry. */
  ghost predicate Guarded(a: Account, b: Account, i: int) {
    var p := PosOf(a, i);
    p.size != 0.0 ==> i in b.stops && if i in a.stops then b.stops[i] == a.stops[i] else Protects(p.size > 0.0, p.entry, b.stops[i])
  }

  /** Adoption leaves exactly what the venue holds and, when that is not zero, a venue stop. */
  lemma AdoptEffect(d: Desk)
    requires Ok(d.a)
    ensures var d2 := Adopt(d, Snapshot(d.a));
      && d2.r == d.r.(pendingCid := None, pendingSince := None, size := d2.r.size, entry := d2.r.entry,
                      stop := d2.r.stop, funding := d2.r.funding)
      && d2.r.size == Size(d.a, d.r.iid) == Size(d2.a, d.r.iid)
      && d2.db == d.db.(positions := d.db.positions[d.r.iid := Row(d2.r)])
      && Touches(d.r.iid, d.a, d2.a) && d2.a.queue == d.a.queue && (forall j :: PosOf(d2.a, j) == PosOf(d.a, j))
      && Mirrors(d2.r, d2.a) && (d2.r.size == 0.0 ==> d2.r.funding == 0.0) && Guarded(d.a, d2.a, d.r.iid)
      && (d2.r.size != 0.0 ==> d.r.iid in d2.a.stops && d2.r.entry.Some?)
      && (d2.r.size == 0.0 ==> d2.a == d.a)
  {
    hide Ok, Touches, Views, Equity, StopPrice, LiquidationPrice, Protects;
    SnapshotPosition(d.a, d.r.iid);
    var v := View(d.a, d.r.iid);
    if v.size != 0.0 { StopTouches(d.a, d.r.iid, VenueStop(v)); } else { StopTouches(d.a, d.r.iid, 0.0); }
    StopProtects(v.size > 0.0, v.entry);
  }

  /** As adoption, and then out of the pending state - never out of a frozen one. */
  lemma AdoptAndSettleEffect(d: Desk)
    requires Ok(d.a)
    ensures var d2 := AdoptAndSettle(d, Snapshot(d.a));
      && d2.r.iid == d.r.iid && d2.r.num == d.r.num && d2.r.dnum == d.r.dnum && d2.r.pendingCid == None
      && d2.r.state == (if Frozen(d.r.state) then d.r.state else Settled(d2.r.size))
      && d2.r.size == Size(d.a, d.r.iid) == Size(d2.a, d.r.iid)
      && d2.db.orders == d.db.orders && d2.db.orderIds == d.db.orderIds && d2.db.decisions == d.db.decisions
      && RowWf(d2.r, d2.db)
      && (forall j :: j != d.r.iid ==> (j in d2.db.positions <==> j in d.db.positions))
      && (forall j :: j != d.r.iid && j in d.db.positions ==> d2.db.positions[j] == d.db.positions[j])
      && Touches(d.r.iid, d.a, d2.a) && d2.a.queue == d.a.queue && (forall j :: PosOf(d2.a, j) == PosOf(d.a, j))
      && (d2.r.size != 0.0 <==> d.r.iid in d2.a.stops) && (d2.r.size != 0.0 ==> d2.r.entry.Some?)
      && Mirrors(d2.r, d2.a) && (d2.r.size == 0.0 ==> d2.r.funding == 0.0) && Guarded(d.a, d2.a, d.r.iid)
      && d2.r.hooks == d.r.hooks + [if d2.r.size == 0.0 then OnFlatten else OnRecover(d2.r.size > 0.0)]
  {
    AdoptEffect(d);
    var d1 := Adopt(d, Snapshot(d.a));
    if d1.r.size == 0.0 { StopTouches(d.a, d.r.iid, 0.0); }
    hide Ok, Touches, Adopt, Snapshot;
  }

  // ----- every router call is a step -----

  lemma HaltSteps(d: Desk)
    requires Good(d)
    ensures Step(d, Halt(d))
  {
    StopTouches(d.a, d.r.iid, 0.0);
    RewriteSteps(d, if Frozen(d.r.state) then d else Halt(d));
    hide Touches, Ok;
  }

  lemma ClearHaltSteps(d: Desk)
    requires Good(d)
    ensures Step(d, ClearHalt(d))
  {
    StopTouches(d.a, d.r.iid, 0.0);
    RewriteSteps(d, ClearHalt(d));
    hide Touches, Ok;
  }

  /** Changing the status of an order that is not given up keeps every row. */
  ghost predicate RowsKept(db: Db, db2: Db) {
    && db2.decisions == db.decisions && db2.orderIds == db.orderIds && db2.positions == db.positions
    && (forall c :: c in db2.orders <==> c in db.orders)
    && (forall c :: c in db.orders ==> RowKept(db.orders[c], db2.orders[c]))
  }

  lemma SetStatusKeeps(db: Db, cid: Cid, s: OrderStatus)
    requires cid in db.orders ==> !GaveUp(db.orders[cid].status)
    ensures RowsKept(db, SetStatus(db, cid, s)) && RowsKept(db, SetStatusUnlessTerminal(db, cid, s))
    ensures cid in db.orders ==> SetStatus(db, cid, s).orders[cid].status == s
    ensures forall c :: c in db.orders && c != cid ==>
              SetStatus(db, cid, s).orders[c] == db.orders[c] && SetStatusUnlessTerminal(db, cid, s).orders[c] == db.orders[c]
    ensures cid in db.orders && !GaveUp(s) ==> !GaveUp(SetStatusUnlessTerminal(db, cid, s).orders[cid].status)
    ensures forall c :: c in db.orders ==> c in SetStatus(db, cid, s).orders && c in SetStatusUnlessTerminal(db, cid, s).orders
  {
  }

  /** The parts of a good desk a rewrite has to know. */
  lemma GoodParts(d: Desk)
    requires Good(d)
    ensures PendingWf(d.r, d.db) && RowWf(d.r, d.db) && Ok(d.a)
    ensures Touches(d.r.iid, d.a, d.a)
  {
    StopTouches(d.a, d.r.iid, 0.0);
  }

  lemma ConcludeFailed(d: Desk, cid: Cid, prior: State)
    requires Good(d) && d.r.pendingCid == Some(cid) && Pending(d.r.state)
    ensures Step(d, Conclude(d, cid, Failed, prior))
  {
    hide Good, Step, Touches, Ok, Adopt, Snapshot, SetStatus, GaveUp, RowKept;
    GoodParts(d);
    SetStatusKeeps(d.db, cid, Error);
    var h := Halt(d.(db := SetStatus(d.db, cid, Error)));
    AdoptEffect(h);
    RewriteSteps(d, Conclude(d, cid, Failed, prior));
  }

  lemma ConcludeRefused(d: Desk, cid: Cid, prior: State)
    requires Good(d) && d.r.pendingCid == Some(cid) && !Pending(prior)
    ensures Step(d, Conclude(d, cid, Refused, prior))
  {
    hide Good, Step, Touches, Ok, Adopt, Snapshot, SetStatus, GaveUp, RowKept;
    GoodParts(d);
    SetStatusKeeps(d.db, cid, Rejected);
    RewriteSteps(d, Conclude(d, cid, Refused, prior));
  }

  lemma ConcludeNoAck(d: Desk, cid: Cid, prior: State)
    requires Good(d) && d.r.pendingCid == Some(cid) && Pending(d.r.state)
    ensures Step(d, Conclude(d, cid, NoAck, prior))
  {
    hide Good, Step, Touches, Ok, Adopt, Snapshot, SetStatus, GaveUp, RowKept;
    GoodParts(d);
    SetStatusKeeps(d.db, cid, Lost);
    RewriteSteps(d, Conclude(d, cid, NoAck, prior));
  }

  lemma ConcludeAcked(d: Desk, cid: Cid, prior: State)
    requires Good(d) && d.r.pendingCid == Some(cid)
    ensures Step(d, Conclude(d, cid, Acked, prior))
  {
    hide Good, Step, Touches, Ok, Adopt, Snapshot, SetStatus, SetStatusUnlessTerminal, RowKept;
    GoodParts(d);
    SetStatusKeeps(d.db, cid, Accepted);
    RewriteSteps(d, Conclude(d, cid, Acked, prior));
  }

  lemma ConcludeSteps(d: Desk, cid: Cid, out: Outcome, prior: State)
    requires Good(d) && d.r.pendingCid == Some(cid) && Pending(d.r.state) && !Pending(prior)
    ensures Step(d, Conclude(d, cid, out, prior))
  {
    hide Good, Step, Conclude;
    match out
    case Failed => ConcludeFailed(d, cid, prior);
    case NoAck => ConcludeNoAck(d, cid, prior);
    case Refused => ConcludeRefused(d, cid, prior);
    case Acked => ConcludeAcked(d, cid, prior);
  }

  lemma SendSteps(d: Desk, intent: Intent, now: int)
    requires Good(d) && intent.iid == d.r.iid && !Pending(d.r.state) && intent.quantity >= 0.0
    ensures Step(d, Send(d, intent, now))
  {
    PrepareSteps(d, intent, now);
    var d1 := Prepare(d, intent, now);
    var cid := Ours(d.r.iid, d.r.num + 1);
    var (a, out) := SubmitWithRecovery(d1.a, Request(cid, intent), d.r.size);
    RecoveryTouches(d1.a, Request(cid, intent), d.r.size);
    var d2 := d1.(a := a);
    RewriteSteps(d1, d2);
    ConcludeSteps(d2, cid, out, d.r.state);
    hide Step, Good, Conclude, SubmitWithRecovery;
    StepTrans(d, d1, d2);
    StepTrans(d, d2, Send(d, intent, now));
  }

  lemma ExitSteps(d: Desk, size: real, mark: real, now: int)
    requires Good(d) && !Pending(d.r.state)
    ensures Step(d, Exit(d, size, mark, now))
  {
    hide Good, Step, Send;
    SendSteps(d, ExitIntent(d.r.iid, size, mark), now);
  }

  lemma OnBarSteps(d: Desk, bar: BarInput, snap: AccountSnapshot, kill: Kill, categories: map<int, Category>,
                   pending: seq<Intent>, now: int)
    requires Good(d) && (bar.close.Some? ==> PriceOk(bar.close.value))
    ensures Step(d, OnBar(d, bar, snap, kill, categories, pending, now))
  {
    hide Good, Step, Send, Skip, EntryIntent, EntryRaises, Exit, Clamp;
    RecordSteps(d);
    StepRefl(d);
    if !Pending(d.r.state) && !Frozen(d.r.state) && bar.close.Some? {
      var mark := bar.close.value;
      ExitSteps(d, d.r.size, mark, now);
      var side := EntrySide(bar);
      var intent := EntryIntent(d.r.iid, side, mark, snap, categories, pending);
      if intent.Some? {
        EntryIntentShape(d.r.iid, side, mark, snap, categories, pending);
        SendSteps(d, intent.value, now);
      }
    }
  }

  lemma OnFastSteps(d: Desk, mark: real, snap: AccountSnapshot, now: int)
    requires Good(d) && PriceOk(mark)
    ensures Step(d, OnFast(d, mark, snap, now))
  {
    StepRefl(d);
    if d.r.state == Open {
      StopTouches(d.a, d.r.iid, 0.0);
      RewriteSteps(d, SetState(d, Liquidated));
      hide Good, Step, Send;
      ExitSteps(d, d.r.size, mark, now);
    }
  }

  lemma StepRefl(d: Desk)
    requires Good(d)
    ensures Step(d, d)
  {
    StopTouches(d.a, d.r.iid, 0.0);
  }

  lemma ShutdownSteps(d: Desk, mark: real, held: real, now: int)
    requires Good(d)
    ensures Step(d, Shutdown(d, mark, held, now))
  {
    StepRefl(d);
    if d.r.state != Liquidated && !(d.r.state == Halted && held == 0.0) {
      var d1 := if held != 0.0 && !Pending(d.r.state) then Exit(d, held, mark, now) else d;
      if held != 0.0 && !Pending(d.r.state) { ExitSteps(d, held, mark, now); }
      SetFrozenSteps(d1, Halted);
      hide Step, Good, Exit;
      StepTrans(d, d1, SetState(d1, Halted));
    }
  }

  lemma SetFrozenSteps(d: Desk, s: State)
    requires Good(d) && !Pending(s)
    ensures Step(d, SetState(d, s))
  {
    StopTouches(d.a, d.r.iid, 0.0);
    RewriteSteps(d, SetState(d, s));
    hide Touches, Ok;
  }

  lemma CheckPendingSteps(d: Desk, now: int)
    requires Good(d)
    ensures Step(d, CheckPending(d, Snapshot(d.a), now))
  {
    hide Good, Step, Rewrites, Touches, AdoptAndSettle, Snapshot;
    StepRefl(d);
    if Pending(d.r.state) && d.r.pendingSince.Some? && now - d.r.pendingSince.value > PENDING_TIMEOUT {
      TimeoutRewrites(d, now);
      RewriteSteps(d, CheckPending(d, Snapshot(d.a), now));
    }
  }

  lemma TimeoutRewrites(d: Desk, now: int)
    requires Good(d) && Pending(d.r.state) && d.r.pendingSince.Some? && now - d.r.pendingSince.value > PENDING_TIMEOUT
    ensures Rewrites(d, CheckPending(d, Snapshot(d.a), now)) && Touches(d.r.iid, d.a, CheckPending(d, Snapshot(d.a), now).a)
  {
    hide Ok, Touches, AdoptAndSettle, Snapshot, Mirrors, Guarded, OrdersWf, DecisionsWf, NumbersWf, RowWf;
    AdoptAndSettleEffect(d.(db := SetStatus(d.db, d.r.pendingCid.value, TimeoutAdopted)));
  }

  /** Fields of the router and its row only. */
  ghost predicate Repersists(d: Desk, d2: Desk) {
    && d2.r.iid == d.r.iid && d2.r.num == d.r.num && d2.r.dnum == d.r.dnum
    && (d2.r.pendingCid == d.r.pendingCid || d2.r.pendingCid == None)
    && (Pending(d2.r.state) ==> d2.r.state == d.r.state && d2.r.pendingCid == d.r.pendingCid && d2.r.pendingSince == d.r.pendingSince)
    && (d2.db == d.db.(positions := d.db.positions[d.r.iid := Row(d2.r)]) || (d2.db == d.db && Row(d2.r) == Row(d.r)))
  }

  lemma RepersistRewrites(d: Desk, d1: Desk, d2: Desk)
    requires Rewrites(d, d1) && Repersists(d1, d2)
    ensures Rewrites(d, d2)
  {
    hide RowKept, GaveUp;
  }

  lemma StatusRewrites(d: Desk, cid: Cid, s: OrderStatus)
    requires Good(d) && !GaveUp(s) && (cid in d.db.orders ==> !GaveUp(d.db.orders[cid].status))
    ensures Rewrites(d, d.(db := SetStatus(d.db, cid, s))) && Rewrites(d, d.(db := SetStatusUnlessTerminal(d.db, cid, s)))
  {
    hide Good, SetStatus, SetStatusUnlessTerminal, RowKept;
    GoodParts(d);
    SetStatusKeeps(d.db, cid, s);
  }

  lemma HandleUpdateSteps(d: Desk, cid: Cid, s: OrderStatus)
    requires Good(d) && VenueStatus(s)
    ensures Step(d, HandleUpdate(d, cid, s))
  {
    hide Good, Step, Touches, Ok, SetStatus, SetStatusUnlessTerminal, Rewrites, Repersists;
    GoodParts(d);
    if d.r.pendingCid == Some(cid) && (s == Cancelled || s == AutoCancelled || s == Rejected) {
      StatusRewrites(d, cid, s);
      CancelRepersists(d.(db := SetStatus(d.db, cid, s)));
      RepersistRewrites(d, d.(db := SetStatus(d.db, cid, s)), HandleUpdate(d, cid, s));
      RewriteSteps(d, HandleUpdate(d, cid, s));
    } else if cid in d.db.orders && !GaveUp(d.db.orders[cid].status) {
      StatusRewrites(d, cid, s);
      RewriteSteps(d, HandleUpdate(d, cid, s));
    } else {
      StepRefl(d);
    }
  }

  lemma CancelRepersists(d: Desk)
    ensures var d1 := d.(r := d.r.(pendingCid := None));
      (Frozen(d1.r.state) ==> Repersists(d, d1)) && (!Frozen(d1.r.state) ==> Repersists(d, SetState(d1, Settled(d1.r.size))))
  {
  }

  // ----- fills -----

  lemma LateFillSteps(d: Desk, ev: Event)
    requires Good(d) && ev.FillUpdate? && ev.iid == d.r.iid && LateFill(d, ev.cid)
    ensures Step(d, HandleFill(d, ev))
  {
    hide Good, Step, Touches, Ok, AdoptAndSettle, Snapshot;
    GoodParts(d);
    var row := d.db.orders[ev.cid];
    var d1 := d.(db := d.db.(orders := d.db.orders[ev.cid := row.(filled := row.filled + ev.quantity)]));
    AdoptAndSettleEffect(d1);
    RewriteSteps(d, HandleFill(d, ev));
  }

  lemma RecordFillKeeps(db: Db, cid: Cid, quantity: real, price: real)
    ensures RowsKept(db, RecordFill(db, cid, quantity, price))
    ensures forall c :: c in db.orders && !GaveUp(db.orders[c].status) ==>
              !GaveUp(RecordFill(db, cid, quantity, price).orders[c].status)
  {
  }

  /** The guards a booked fill can leave: stop replaced, stop withdrawn with the position, or none needed. */
  lemma AfterFillTouches(d: Desk, cid: Cid, ours: bool)
    requires Ok(d.a)
    ensures Touches(d.r.iid, d.a, AfterFill(d, cid, ours).a)
  {
    hide Touches, Ok, StopPrice;
    StopTouches(d.a, d.r.iid, 0.0);
    if d.r.entry.Some? { StopTouches(d.a, d.r.iid, StopPrice(d.r.size > 0.0, d.r.entry.value)); }
  }

  lemma AfterFillRepersists(d: Desk, cid: Cid, ours: bool)
    ensures Repersists(d, AfterFill(d, cid, ours))
  {
    hide StopPrice;
  }

  lemma AfterFillSteps(d: Desk, d1: Desk, cid: Cid, ours: bool)
    requires Good(d) && Rewrites(d, d1) && d1.a == d.a && d1.r.iid == d.r.iid
    ensures Step(d, AfterFill(d1, cid, ours))
  {
    hide Good, Step, Touches, Ok, AfterFill, Rewrites, Repersists;
    GoodParts(d);
    AfterFillTouches(d1, cid, ours);
    AfterFillRepersists(d1, cid, ours);
    RepersistRewrites(d, d1, AfterFill(d1, cid, ours));
    RewriteSteps(d, AfterFill(d1, cid, ours));
  }

  lemma HandleFillSteps(d: Desk, ev: Event)
    requires Good(d) && ev.FillUpdate?
    ensures Step(d, HandleFill(d, ev))
  {
    hide Good, Step, Touches, Ok, GaveUp, RowKept, RecordFill, FillEntry, AfterFill;
    GoodParts(d);
    if ev.iid != d.r.iid {
      StepRefl(d);
    } else if LateFill(d, ev.cid) {
      LateFillSteps(d, ev);
    } else {
      var d0 := ApplyFill(d, ev.side, ev.quantity, ev.price);
      RecordFillKeeps(d0.db, ev.cid, ev.quantity, ev.price);
      var d1 := d0.(db := RecordFill(d0.db, ev.cid, ev.quantity, ev.price));
      AfterFillSteps(d, d1, ev.cid, ev.cid in d.db.orders);
    }
  }

  lemma HandleEventSteps(d: Desk, ev: Event)
    requires Good(d) && (ev.OrderUpdate? ==> VenueStatus(ev.status))
    ensures Step(d, HandleEvent(d, ev))
  {
    if ev.OrderUpdate? { HandleUpdateSteps(d, ev.cid, ev.status); } else { HandleFillSteps(d, ev); }
  }
}
