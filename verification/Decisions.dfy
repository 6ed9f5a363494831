/** When the router sends an order, and what came of it: each branch of the bar cycle, the fast loop, a send and a
    time-out, said in terms of rows, state and the venue's position. */
module Decisions {
  import opened Types
  import opened Guards
  import opened Sim
  import opened Routing
  import opened Delivery
  import opened Discipline
  import opened Conservation
  import Sizing

  function Next(d: Desk): Cid {
    Ours(d.r.iid, d.r.num + 1)
  }

  /** The call sent this order under the next number. */
  ghost predicate Sends(d: Desk, d2: Desk, intent: Intent) {
    && Next(d) !in d.db.orders && Next(d) in d2.db.orders
    && var row := d2.db.orders[Next(d)];
    row.iid == intent.iid && row.side == intent.side && row.quantity == intent.quantity && row.reduceOnly == intent.reduceOnly
  }

  /** The call sent nothing and touched nothing but the decision counter. */
  ghost predicate Idle(d: Desk, d2: Desk) {
    d2.db.orders == d.db.orders && d2.a == d.a && d2.r == d.r.(dnum := d2.r.dnum)
  }

  /** A reduce-only order for the whole size against its sign. */
  ghost predicate SendsExit(d: Desk, d2: Desk, size: real) {
    exists intent: Intent :: Sends(d, d2, intent) && intent.iid == d.r.iid && intent.reduceOnly
      && intent.quantity == Abs(size) && Signed(intent.side, intent.quantity) == -size
  }

  /** Exactly one decision is recorded, with the state before it and the order it led to, if any. */
  ghost predicate Decides(d: Desk, d2: Desk, cid: Option<Cid>) {
    && |d2.db.decisions| == |d.db.decisions| + 1 && d.db.decisions <= d2.db.decisions
    && var row := d2.db.decisions[|d.db.decisions|];
    row.iid == d.r.iid && row.num == d.r.dnum + 1 && row.stateBefore == d.r.state && row.cid == cid
  }

  // ----- sends -----

  lemma PreparedRow(d: Desk, intent: Intent, now: int)
    requires Good(d)
    ensures var d1 := Prepare(d, intent, now);
      && d1.a == d.a && Next(d) !in d.db.orders && Next(d) in d1.db.orders
      && d1.db.orders[Next(d)] == OrderRow(intent.iid, intent.side, intent.quantity, intent.reduceOnly, Submitting, 0.0, None)
      && d1.r == d.r.(num := d.r.num + 1, dnum := d.r.dnum + 1, state := d1.r.state, pendingCid := Some(Next(d)),
                      pendingSince := Some(now), pendingIntent := Some(intent))
      && d1.r.state == (if intent.reduceOnly then ExitPending else EntryPending)
      && Decides(d, d1, Some(Next(d)))
  {
    hide Ok, OrdersWf, DecisionsWf, PendingWf, RowWf;
  }

  /** What came of a send: an accepted order is waited for, a rejected one leaves the state as it was, a lost one halts
      the router, and any other error halts it at the venue's position. */
  lemma SendOutcomes(d: Desk, intent: Intent, now: int)
    requires Good(d) && intent.iid == d.r.iid && intent.quantity >= 0.0
    ensures var d2 := Send(d, intent, now);
      && Sends(d, d2, intent) && Decides(d, d2, Some(Next(d)))
      && var s := d2.db.orders[Next(d)].status;
      && s in {Accepted, Rejected, Lost, Error}
      && (s == Accepted ==> d2.r.state == (if intent.reduceOnly then ExitPending else EntryPending)
                            && d2.r.pendingCid == Some(Next(d)) && d2.r.pendingSince == Some(now))
      && (s == Rejected ==> d2.r.state == d.r.state && d2.r.pendingCid == None)
      && (s == Lost ==> d2.r.state == Halted && d2.r.pendingCid == None && d2.r.size == d.r.size)
      && (s == Error ==> d2.r.state == Halted && d2.r.pendingCid == None && Mirrors(d2.r, d2.a))
  {
    hide Ok, SubmitWithRecovery, Prepare, OrdersWf, DecisionsWf, NumbersWf, PendingWf, RowWf;
    PreparedRow(d, intent, now);
    GoodParts(d);
    var d1 := Prepare(d, intent, now);
    var req := Request(Next(d), intent);
    RecoveryTouches(d.a, req, d.r.size);
    var (a, out) := SubmitWithRecovery(d.a, req, d.r.size);
    TouchesTo(d.r.iid, d.a, a);
    Concluded(d1.(a := a), Next(d), out, d.r.state);
  }

  lemma Concluded(d: Desk, cid: Cid, out: Outcome, prior: State)
    requires cid in d.db.orders && d.db.orders[cid].status == Submitting && Ok(d.a) && Pending(d.r.state)
    ensures var d2 := Conclude(d, cid, out, prior);
      && cid in d2.db.orders && d2.db.decisions == d.db.decisions
      && d2.db.orders[cid] == d.db.orders[cid].(status := d2.db.orders[cid].status)
      && match out
         case Acked => d2.db.orders[cid].status == Accepted && d2.r == d.r
         case Refused => d2.db.orders[cid].status == Rejected && d2.r == d.r.(state := prior, pendingCid := None)
         case NoAck => d2.db.orders[cid].status == Lost && d2.r == d.r.(state := Halted, pendingCid := None)
         case Failed => d2.db.orders[cid].status == Error && d2.r.state == Halted && d2.r.pendingCid == None && Mirrors(d2.r, d2.a)
  {
    hide Ok, Adopt, Snapshot, Mirrors;
    AdoptEffect(Halt(d.(db := SetStatus(d.db, cid, Error))));
  }

  lemma ExitSends(d: Desk, size: real, mark: real, now: int)
    requires Good(d)
    ensures SendsExit(d, Exit(d, size, mark, now), size) && Decides(d, Exit(d, size, mark, now), Some(Next(d)))
  {
    hide Good, Send, Sends, Decides;
    SendOutcomes(d, ExitIntent(d.r.iid, size, mark), now);
    SidesOfExit(d.r.iid, size, mark);
  }

  /** An exit is recorded at its value to the cent. */
  lemma SidesOfExit(i: int, size: real, mark: real)
    ensures var x := ExitIntent(i, size, mark);
      && x.iid == i && x.reduceOnly && x.quantity == Abs(size) && Signed(x.side, x.quantity) == -size
      && Abs(x.notional - Abs(size) * mark) <= 0.005
  {
  }

  // ----- the bar cycle -----

  /** The bar asks an open router to leave: an incomplete bar, or a target that is zero or on the other side. */
  predicate AsksExit(r: Router, bar: BarInput) {
    r.state == Open && bar.close.Some?
    && (!bar.complete || (bar.warm && (bar.target == 0.0 || (r.size > 0.0 && bar.target < 0.0) || (r.size < 0.0 && bar.target > 0.0))))
  }

  /** The bar asks a flat router to enter. */
  predicate AsksIn(r: Router, bar: BarInput, kill: Kill) {
    r.state == Flat && bar.close.Some? && bar.complete && bar.warm && bar.target != 0.0 && kill != Pause
  }

  lemma ClampSign(x: real)
    ensures -1.0 <= Clamp(x) <= 1.0 && (-1.0 <= x <= 1.0 ==> Clamp(x) == x)
    ensures (Clamp(x) > 0.0 <==> x > 0.0) && (Clamp(x) < 0.0 <==> x < 0.0)
  {
  }

  /** A bar sends an order in exactly these cases: an exit of the whole size when it asks an open router to leave, and the
      guarded entry, on the target's side, when it asks a flat one in under no pause and the guards let something through.
      Every bar that does not raise records one decision. */
  lemma BarDecides(d: Desk, bar: BarInput, snap: AccountSnapshot, kill: Kill, categories: map<int, Category>, pending: seq<Intent>, now: int)
    requires Good(d) && (bar.close.Some? ==> PriceOk(bar.close.value))
    ensures var d2 := OnBar(d, bar, snap, kill, categories, pending, now);
      if AsksExit(d.r, bar) then SendsExit(d, d2, d.r.size) && Decides(d, d2, Some(Next(d)))
      else if AsksIn(d.r, bar, kill) then
        var side := if bar.target > 0.0 then Buy else Sell;
        var entry := EntryIntent(d.r.iid, side, bar.close.value, snap, categories, pending);
        if EntryRaises(d.r.iid, side, bar.close.value, snap, categories, pending) then d2 == d
        else if entry.Some? then Sends(d, d2, entry.value) && Decides(d, d2, Some(Next(d)))
        else Idle(d, d2) && Decides(d, d2, None)
      else Idle(d, d2) && Decides(d, d2, None)
  {
    hide Good, Send, Exit, Sends, SendsExit, Decides, Idle, EntryIntent, EntryRaises, Clamp, Skip;
    ClampSign(bar.target);
    SkipIdles(d);
    if bar.close.Some? {
      var mark := bar.close.value;
      ExitSends(d, d.r.size, mark, now);
      var entry := EntryIntent(d.r.iid, EntrySide(bar), mark, snap, categories, pending);
      if entry.Some? {
        EntryShape(d.r.iid, EntrySide(bar), mark, snap, categories, pending);
        SendOutcomes(d, entry.value, now);
      }
    }
  }

  lemma SkipIdles(d: Desk)
    ensures Idle(d, Skip(d)) && Decides(d, Skip(d), None)
  {
  }

  lemma EntryShape(i: int, side: Side, mark: real, snap: AccountSnapshot, categories: map<int, Category>, pending: seq<Intent>)
    requires PriceOk(mark) && EntryIntent(i, side, mark, snap, categories, pending).Some?
    ensures var x := EntryIntent(i, side, mark, snap, categories, pending).value; x.iid == i && x.quantity >= 0.0 && x.side == side
  {
    hide EntryIntent;
    Sizing.EntryIntentShape(i, side, mark, snap, categories, pending);
  }

  // ----- the fast loop -----

  /** Where isolated margin at three times leverage is gone, to the cent. */
  function MarginGone(size: real, entry: real): real {
    Cents(entry * (if size > 0.0 then 1.0 - 1.0 / 3.0 + 0.02 else 1.0 + 1.0 / 3.0 - 0.02))
  }

  /** The mark is within a quarter of itself of that price. */
  predicate NearMargin(size: real, entry: real, mark: real) {
    var gone := MarginGone(size, entry);
    0.75 * mark < gone < 1.25 * mark
  }

  lemma NearExactly(p: PositionView, mark: real)
    requires mark > 0.0 && p.size != 0.0 && p.liquidation == Some(LiquidationPrice(p.size, p.entry))
    ensures TooClose(p, mark) <==> NearMargin(p.size, p.entry, mark)
  {
    hide Cents;
    Fraction(Abs(p.liquidation.value - mark), mark);
  }

  /** That price is a third of the entry away, less the 2% of maintenance, to the cent; and from its safe side a position is
      too near exactly when three quarters of a long's mark are below it, or five quarters of a short's above it. */
  lemma MarginIs(size: real, entry: real, mark: real)
    requires size != 0.0 && mark > 0.0
    ensures Abs(MarginGone(size, entry) - entry * (if size > 0.0 then 1.0 - 1.0 / 3.0 + 0.02 else 1.0 + 1.0 / 3.0 - 0.02)) <= 0.005
    ensures size > 0.0 && mark >= MarginGone(size, entry) ==> (NearMargin(size, entry, mark) <==> 0.75 * mark < MarginGone(size, entry))
    ensures size < 0.0 && mark <= MarginGone(size, entry) ==> (NearMargin(size, entry, mark) <==> 1.25 * mark > MarginGone(size, entry))
  {
  }

  lemma Fraction(gap: real, mark: real)
    requires mark > 0.0
    ensures gap / mark < 0.25 <==> gap < 0.25 * mark
  {
    var q := gap / mark;
    assert q * mark == gap;
    if q < 0.25 { assert (0.25 - q) * mark > 0.0; } else { assert (q - 0.25) * mark >= 0.0; }
  }

  /** A fast tick of an open router with a venue position: liquidation freezes it and sends nothing; otherwise it sends a
      reduce-only exit of its whole size exactly when the mark is too near the price at which margin is gone, or funding
      paid has reached 2% of the position's notional. */
  lemma FastDecides(d: Desk, mark: real, liquidating: bool, now: int)
    requires Good(d) && d.r.state == Open && d.r.size != 0.0 && Size(d.a, d.r.iid) != 0.0 && PriceOk(mark)
    ensures var p := PosOf(d.a, d.r.iid);
      var d2 := OnFast(d, mark, Snapshot(d.a).(inLiquidation := liquidating), now);
      if liquidating then d2.r == d.r.(state := Liquidated) && d2.a == d.a && d2.db.orders == d.db.orders
      else if NearMargin(p.size, p.entry, mark) || -p.funding >= 0.02 * (Abs(p.size) * MarkOf(d.a, d.r.iid))
      then SendsExit(d, d2, d.r.size)
      else d2 == d
  {
    hide Ok, OrdersWf, DecisionsWf, NumbersWf, PendingWf, RowWf, Exit, SendsExit, Decides, NearMargin, LiquidationPrice, TooClose;
    ExitSends(d, d.r.size, mark, now);
    GoodParts(d);
    SnapshotPosition(d.a, d.r.iid);
    NearExactly(View(d.a, d.r.iid), mark);
    assert Snapshot(d.a).(inLiquidation := liquidating).Position(d.r.iid) == Snapshot(d.a).Position(d.r.iid);
  }

  // ----- time-outs and updates -----

  /** A pending order is given up exactly when it has been pending for more than 30 seconds, and then the router holds what
      the venue holds and the strategy is told so. */
  lemma TimesOutExactly(d: Desk, now: int)
    requires Good(d)
    ensures var d2 := CheckPending(d, Snapshot(d.a), now);
      if Pending(d.r.state) && d.r.pendingSince.Some? && now > d.r.pendingSince.value + 30 then
        && Mirrors(d2.r, d2.a) && d2.r.state == Settled(d2.r.size) && d2.r.pendingCid == None
        && d2.r.hooks == d.r.hooks + [if d2.r.size == 0.0 then OnFlatten else OnRecover(d2.r.size > 0.0)]
        && d.r.pendingCid.Some? && d.r.pendingCid.value in d2.db.orders
        && d2.db.orders[d.r.pendingCid.value].status == TimeoutAdopted
      else d2 == d
  {
    hide Ok, AdoptAndSettle, Snapshot, OrdersWf, DecisionsWf, NumbersWf, RowWf, Mirrors;
    if Pending(d.r.state) && d.r.pendingSince.Some? && now > d.r.pendingSince.value + 30 {
      AdoptAndSettleEffect(d.(db := SetStatus(d.db, d.r.pendingCid.value, TimeoutAdopted)));
    }
  }

  /** Only this order's status changed. */
  ghost predicate OnlyStatus(db: Db, db2: Db, cid: Cid) {
    && db2.orders.Keys == db.orders.Keys && (forall c :: c in db.orders && c != cid ==> db2.orders[c] == db.orders[c])
    && (cid in db.orders ==> db2.orders[cid] == db.orders[cid].(status := db2.orders[cid].status))
  }

  lemma StatusSet(db: Db, cid: Cid, s: OrderStatus)
    ensures OnlyStatus(db, db, cid) && OnlyStatus(db, SetStatus(db, cid, s), cid) && OnlyStatus(db, SetStatusUnlessTerminal(db, cid, s), cid)
    ensures cid in db.orders ==> SetStatus(db, cid, s).orders[cid].status == s
    ensures cid in db.orders ==>
      SetStatusUnlessTerminal(db, cid, s).orders[cid].status == if Terminal(db.orders[cid].status) then db.orders[cid].status else s
  {
  }

  lemma StatusInTable(db: Db, cid: Cid, s: OrderStatus)
    requires cid in db.orders
    ensures cid in SetStatus(db, cid, s).orders && cid in SetStatusUnlessTerminal(db, cid, s).orders
  {
  }

  lemma SameOnly(db: Db, db1: Db, db2: Db, cid: Cid)
    requires OnlyStatus(db, db1, cid) && db2.orders == db1.orders
    ensures OnlyStatus(db, db2, cid)
  {
  }

  /** An update that ends the pending order puts the router back to open or flat, unless frozen; any other update only
      moves its order's row, and never one that is terminal or given up. */
  lemma UpdateEffect(d: Desk, cid: Cid, s: OrderStatus)
    ensures var d2 := HandleUpdate(d, cid, s);
      && d2.a == d.a && OnlyStatus(d.db, d2.db, cid)
      && if d.r.pendingCid == Some(cid) && s in {Cancelled, AutoCancelled, Rejected} then
           && (cid in d.db.orders ==> cid in d2.db.orders && d2.db.orders[cid].status == s)
           && d2.r == d.r.(pendingCid := None, state := if Frozen(d.r.state) then d.r.state else Settled(d.r.size))
         else
           && d2.r == d.r
           && (cid in d.db.orders ==>
                 && cid in d2.db.orders
                 && d2.db.orders[cid].status == if Terminal(d.db.orders[cid].status) then d.db.orders[cid].status else s)
  {
    hide OnlyStatus, SetStatus, SetStatusUnlessTerminal;
    StatusSet(d.db, cid, s);
    if cid in d.db.orders { StatusInTable(d.db, cid, s); }
    if d.r.pendingCid == Some(cid) && s in {Cancelled, AutoCancelled, Rejected} {
      SameOnly(d.db, SetStatus(d.db, cid, s), HandleUpdate(d, cid, s).db, cid);
    }
  }

  /** A fill that is not late and leaves the router flat clears its entry, funding, stop and pending order, withdraws the
      venue stop and tells the strategy; any other leaves the strategy alone. */
  lemma FillEffects(d: Desk, ev: Event)
    requires ev.FillUpdate? && ev.iid == d.r.iid && !LateFill(d, ev.cid)
    ensures var d2 := HandleFill(d, ev);
      if d.r.size + Signed(ev.side, ev.quantity) == 0.0 then
        && d2.r.size == 0.0 && d2.r.entry == None && d2.r.stop == None && d2.r.funding == 0.0 && d2.r.pendingCid == None
        && d2.r.state == (if Frozen(d.r.state) then d.r.state else Flat)
        && d2.a == CancelStop(d.a, d.r.iid) && d2.r.hooks == d.r.hooks + [OnFlatten]
      else d2.r.hooks == d.r.hooks && d2.r.funding == d.r.funding
  {
    hide AverageEntry, StopPrice;
  }

  /** Halting leaves nothing pending, and a frozen router alone. */
  lemma HaltEffect(d: Desk)
    ensures Frozen(Halt(d).r.state) && (Frozen(d.r.state) ==> Halt(d) == d)
    ensures !Frozen(d.r.state) ==> Halt(d).r == d.r.(state := Halted, pendingCid := None)
  {
  }
}
