/** The instrument router as an object over the venue and the database: the source's methods, step by step, each
    proved to move the desk exactly as the corresponding Routing function. */
module RouterObject {
  import opened Types
  import opened Guards
  import opened Sim
  import opened SimVenue
  import opened Routing
  import Runtime

  class Database {
    var decisions: seq<Decision>
    var orders: map<Cid, OrderRow>
    var orderIds: seq<Cid>
    var positions: map<int, PositionRow>

    ghost function View(): Db
      reads this
    {
      Db(decisions, orders, orderIds, positions)
    }

    constructor ()
      ensures View() == Db([], map[], [], map[])
    {
      decisions, orders, orderIds, positions := [], map[], [], map[];
    }

    method InsertDecision(row: Decision)
      modifies this`decisions
      ensures View() == old(View()).(decisions := old(decisions) + [row])
    {
      decisions := decisions + [row];
    }

    method UpsertOrder(cid: Cid, row: OrderRow)
      modifies this`orders, this`orderIds
      ensures View() == PutOrder(old(View()), cid, row)
    {
      if cid in orders {
        var was := orders[cid];
        orders := orders[cid := was.(status := row.status, filled := row.filled, avgPrice := row.avgPrice)];
      } else {
        orders, orderIds := orders[cid := row], orderIds + [cid];
      }
    }

    method UpsertPosition(i: int, row: PositionRow)
      modifies this`positions
      ensures View() == old(View()).(positions := old(positions)[i := row])
    {
      positions := positions[i := row];
    }

    /** Writes a new status, unless the row is missing or (when asked) already terminal. */
    method UpdateStatus(cid: Cid, s: OrderStatus, skipIfTerminal: bool)
      modifies this`orders, this`orderIds
      ensures View() == if skipIfTerminal then SetStatusUnlessTerminal(old(View()), cid, s) else SetStatus(old(View()), cid, s)
    {
      if cid !in orders { return; }
      if skipIfTerminal && Terminal(orders[cid].status) { return; }
      UpsertOrder(cid, orders[cid].(status := s));
    }
  }

  class InstrumentRouter {
    const iid: int
    const categories: map<int, Category>
    const executor: SimExecutor
    const db: Database
    var state: State
    var size: real
    var entry: Option<real>
    var stop: Option<real>
    var funding: real
    var pendingCid: Option<Cid>
    var pendingSince: Option<int>
    var pendingIntent: Option<Intent>
    var num: nat
    var dnum: nat
    ghost var hooks: seq<Hook>

    ghost function Fields(): Router
      reads this
    {
      Router(iid, state, size, entry, stop, funding, pendingCid, pendingSince, pendingIntent, num, dnum, hooks)
    }

    ghost function View(): Desk
      reads this, executor, db
    {
      Desk(Fields(), executor.View(), db.View())
    }

    constructor (iid: int, categories: map<int, Category>, executor: SimExecutor, db: Database)
      ensures Fields() == NewRouter(iid) && this.categories == categories && this.executor == executor && this.db == db
    {
      this.iid, this.categories, this.executor, this.db := iid, categories, executor, db;
      state, size, entry, stop, funding := Flat, 0.0, None, None, 0.0;
      pendingCid, pendingSince, pendingIntent, num, dnum, hooks := None, None, None, 0, 0, [];
    }

    // ----- rows -----

    /** Takes the persisted row, and reseeds both counters past every row already written. */
    method LoadRow(row: PositionRow)
      modifies this
      ensures Fields() == Runtime.LoadLocal(old(Fields()), row, db.View())
    {
      state, size, entry, stop, funding := row.state, row.size, row.entry, row.stop, row.funding;
      dnum, num := 0, 0;
      for k := 0 to |db.decisions|
        invariant dnum == Runtime.MaxDecisionNum(db.decisions[..k], iid) && num == 0
        invariant Fields() == old(Fields()).(state := row.state, size := row.size, entry := row.entry, stop := row.stop,
                                             funding := row.funding, dnum := dnum, num := num)
      {
        assert db.decisions[..k + 1][..k] == db.decisions[..k];
        var d := db.decisions[k];
        if d.iid == iid && d.num > dnum { dnum := d.num; }
      }
      assert db.decisions[..|db.decisions|] == db.decisions;
      for k := 0 to |db.orderIds|
        invariant num == Runtime.MaxOrderNum(db.orderIds[..k], iid)
        invariant dnum == Runtime.MaxDecisionNum(db.decisions, iid)
        invariant Fields() == old(Fields()).(state := row.state, size := row.size, entry := row.entry, stop := row.stop,
                                             funding := row.funding, dnum := dnum, num := num)
      {
        assert db.orderIds[..k + 1][..k] == db.orderIds[..k];
        var c := db.orderIds[k];
        if c.Ours? && c.iid == iid && c.num > num { num := c.num; }
      }
      assert db.orderIds[..|db.orderIds|] == db.orderIds;
    }

    method PersistRow()
      modifies db
      ensures View() == Persist(old(View()))
    {
      db.UpsertPosition(iid, PositionRow(state, size, entry, stop, funding));
    }

    method MoveTo(s: State)
      modifies this`state, db
      ensures View() == SetState(old(View()), s)
    {
      state := s;
      PersistRow();
    }

    method RecordDecision(intent: Option<Intent>, cid: Option<Cid>)
      modifies this`dnum, db
      ensures View() == Record(old(View()), intent, cid)
    {
      dnum := dnum + 1;
      db.InsertDecision(Decision(iid, dnum, state, intent, cid));
    }

    // ----- stops and adoption -----

    method GuardVenuePosition(p: PositionView) returns (trigger: real)
      modifies executor
      ensures trigger == VenueStop(p) && executor.View() == PlaceStop(old(executor.View()), p.iid, trigger)
    {
      trigger := StopPrice(p.size > 0.0, p.entry);
      executor.SetStop(p.iid, trigger);
    }

    method RefreshStop()
      modifies this`stop, executor, db
      ensures View() == ReplaceStop(old(View()))
    {
      if size == 0.0 || entry.None? { return; }
      var trigger := StopPrice(size > 0.0, entry.value);
      executor.SetStop(iid, trigger);
      stop := Some(trigger);
      PersistRow();
    }

    /** Takes the venue's size as ours and makes sure a venue stop guards it; the state is the caller's. */
    method AdoptVenue(snap: AccountSnapshot)
      modifies this, executor, db
      ensures View() == Adopt(old(View()), snap)
    {
      pendingCid, pendingSince := None, None;
      var pos := snap.Position(iid);
      if pos.None? || pos.value.size == 0.0 {
        size, entry, stop, funding := 0.0, None, None, 0.0;
      } else {
        size, entry, funding := pos.value.size, Some(pos.value.entry), pos.value.funding;
        if iid in snap.stops {
          stop := Some(snap.stops[iid]);
        } else {
          FoundIsAsked(snap.positions, iid);
          var trigger := GuardVenuePosition(pos.value);
          stop := Some(trigger);
        }
      }
      PersistRow();
    }

    method AdoptThenSettle(snap: AccountSnapshot)
      modifies this, executor, db
      ensures View() == AdoptAndSettle(old(View()), snap)
    {
      hide Adopt;
      AdoptVenue(snap);
      if !Frozen(state) { MoveTo(if size != 0.0 then Open else Flat); }
      if size == 0.0 {
        executor.RemoveStop(iid);
        hooks := hooks + [OnFlatten];
      } else {
        hooks := hooks + [OnRecover(size > 0.0)];
      }
    }

    method HaltNow()
      modifies this`state, this`pendingCid, db
      ensures View() == Halt(old(View()))
    {
      if Frozen(state) { return; }
      pendingCid := None;
      MoveTo(Halted);
    }

    // ----- sending -----

    /** Two attempts under one client order id; after a timeout the venue's snapshot says whether the order landed. */
    method SubmitTwice(req: OrderRequest, sizeBefore: real) returns (out: Outcome)
      modifies executor
      ensures (executor.View(), out) == SubmitWithRecovery(old(executor.View()), req, sizeBefore)
    {
      hide Submit, Snapshot, Landed;
      for attempt := 1 to 3
        invariant attempt == 1 ==> executor.View() == old(executor.View())
        invariant attempt == 2 ==> Attempt(old(executor.View()), req, sizeBefore) == (executor.View(), None)
        invariant attempt == 3 ==> SubmitWithRecovery(old(executor.View()), req, sizeBefore) == (executor.View(), NoAck)
      {
        var res := executor.Submit(req);
        match res
        case Ack(accepted) => return if accepted then Acked else Refused;
        case Raised => return Failed;
        case TimedOut =>
          var snap := executor.TakeSnapshot();
          if Landed(req, snap, sizeBefore) { return Acked; }
      }
      out := NoAck;
    }

    /** Everything written before the order leaves: the decision, the order row, the pending state. */
    method WriteAhead(intent: Intent, now: int) returns (cid: Cid)
      modifies this, db
      ensures View() == Prepare(old(View()), intent, now) && cid == Ours(iid, old(num) + 1)
    {
      hide Record, PutOrder, SetState;
      num := num + 1;
      cid := Ours(iid, num);
      RecordDecision(Some(intent), Some(cid));
      db.UpsertOrder(cid, OrderRow(intent.iid, intent.side, intent.quantity, intent.reduceOnly, Submitting, 0.0, None));
      pendingCid, pendingSince, pendingIntent := Some(cid), Some(now), Some(intent);
      MoveTo(if intent.reduceOnly then ExitPending else EntryPending);
    }

    /** Rows first, then the order, then what came of it. */
    method SendOrder(intent: Intent, now: int)
      modifies this, executor, db
      ensures View() == Send(old(View()), intent, now)
    {
      hide SubmitWithRecovery, Conclude, Prepare;
      var prior, sizeBefore := state, size;
      PrepareFrame(View(), intent, now);
      var cid := WriteAhead(intent, now);
      var out := SubmitTwice(Request(cid, intent), sizeBefore);
      ConcludeSend(cid, out, prior);
    }

    method ConcludeSend(cid: Cid, out: Outcome, prior: State)
      modifies this, executor, db
      ensures View() == Conclude(old(View()), cid, out, prior)
    {
      hide Adopt, Halt;
      match out
      case Failed =>
        db.UpdateStatus(cid, Error, false);
        HaltNow();
        var snap := executor.TakeSnapshot();
        AdoptVenue(snap);
      case NoAck =>
        db.UpdateStatus(cid, Lost, false);
        HaltNow();
      case Refused =>
        db.UpdateStatus(cid, Rejected, false);
        pendingCid := None;
        MoveTo(prior);
      case Acked =>
        db.UpdateStatus(cid, Accepted, true);
    }

    method ExitNow(mark: real, held: real, now: int)
      modifies this, executor, db
      ensures View() == Exit(old(View()), held, mark, now)
    {
      hide Send;
      SendOrder(Intent(iid, if held > 0.0 then Sell else Buy, Abs(held), Cents(Abs(held) * mark), true), now);
    }

    // ----- the bar cycle, the fast loop, the kill switch -----

    /** `raised`: the guards divided by a zero quantity before anything was written. */
    method BarClosed(bar: BarInput, snap: AccountSnapshot, kill: Kill, pending: seq<Intent>, now: int) returns (raised: bool)
      requires bar.close.Some? ==> PriceOk(bar.close.value)
      modifies this, executor, db
      ensures View() == OnBar(old(View()), bar, snap, kill, categories, pending, now)
      ensures raised == BarRaises(old(Fields()), bar, snap, kill, categories, pending)
    {
      hide Exit, Send, Record, EntryIntent, EntryRaises;
      raised := false;
      if Frozen(state) || Pending(state) {
        RecordDecision(None, None);
        return;
      }
      if bar.close.None? {
        RecordDecision(None, None);
        return;
      }
      var mark := bar.close.value;
      if !bar.complete {
        if state == Open { ExitNow(mark, size, now); } else { RecordDecision(None, None); }
        return;
      }
      if !bar.warm {
        RecordDecision(None, None);
        return;
      }
      var target := Clamp(bar.target);
      if state == Flat {
        if target == 0.0 || kill == Pause {
          RecordDecision(None, None);
          return;
        }
        var side := if target > 0.0 then Buy else Sell;
        if EntryRaises(iid, side, mark, snap, categories, pending) { return true; }
        var final := EntryIntent(iid, side, mark, snap, categories, pending);
        if final.None? { RecordDecision(None, None); } else { SendOrder(final.value, now); }
        return;
      }
      var flip := (size > 0.0 && target < 0.0) || (size < 0.0 && target > 0.0);
      if target == 0.0 || flip { ExitNow(mark, size, now); } else { RecordDecision(None, None); }
    }

    method FastTick(mark: real, snap: AccountSnapshot, now: int)
      requires PriceOk(mark)
      modifies this, executor, db
      ensures View() == OnFast(old(View()), mark, snap, now)
    {
      hide Exit, TooClose, FundingExitDue;
      if state != Open { return; }
      if snap.inLiquidation && size != 0.0 {
        MoveTo(Liquidated);
        return;
      }
      var pos := snap.Position(iid);
      if pos.None? { return; }
      if TooClose(pos.value, mark) {
        ExitNow(mark, size, now);
      } else if FundingExitDue(pos.value) {
        ExitNow(mark, size, now);
      }
    }

    method ShutDown(mark: real, held: real, now: int)
      modifies this, executor, db
      ensures View() == Shutdown(old(View()), mark, held, now)
    {
      hide Exit;
      if state == Liquidated || (state == Halted && held == 0.0) { return; }
      if held != 0.0 && (state == Open || state == Halted || state == Flat) { ExitNow(mark, held, now); }
      MoveTo(Halted);
    }

    method ClearHaltNow()
      modifies this`state, db
      ensures View() == ClearHalt(old(View()))
    {
      MoveTo(if size != 0.0 then Open else Flat);
    }

    /** Refuses a state that is not pending. */
    method AdoptPendingOrder(cid: Cid, s: State, now: int) returns (ok: bool)
      modifies this`state, this`pendingCid, this`pendingSince, db
      ensures ok == Pending(s) && View() == if ok then AdoptPending(old(View()), cid, s, now) else old(View())
    {
      ok := Pending(s);
      if !ok { return; }
      pendingCid, pendingSince := Some(cid), Some(now);
      MoveTo(s);
    }

    /** A pending order older than the timeout is given up and the venue's size adopted. */
    method CheckTimeout(snap: AccountSnapshot, now: int)
      modifies this, executor, db
      ensures View() == CheckPending(old(View()), snap, now)
    {
      hide AdoptAndSettle;
      if !Pending(state) || pendingSince.None? { return; }
      if now - pendingSince.value <= PENDING_TIMEOUT { return; }
      if pendingCid.Some? { db.UpdateStatus(pendingCid.value, TimeoutAdopted, false); }
      AdoptThenSettle(snap);
    }

    // ----- cold start -----

    /** Takes the venue's position under a venue stop; a frozen router keeps its state. `row` is its row, if any. */
    method Recover(row: Option<PositionRow>, snap: AccountSnapshot)
      requires row == if iid in db.positions then Some(db.positions[iid]) else None
      modifies this, executor, db
      ensures View() == Runtime.RecoverRouter(old(View()), snap)
    {
      hide Runtime.LoadLocal, VenueStop, Find;
      if row.Some? { LoadRow(row.value); }
      var frozen := row.Some? && Frozen(row.value.state);
      TakeVenue(frozen, snap);
    }

    method TakeVenue(frozen: bool, snap: AccountSnapshot)
      modifies this, executor, db
      ensures View() == Runtime.TakeVenue(old(View()), frozen, snap)
    {
      hide VenueStop;
      var pos := snap.Position(iid);
      if pos.Some? && pos.value.size != 0.0 {
        size, entry, funding := pos.value.size, Some(pos.value.entry), pos.value.funding;
        if !frozen { state := Open; }
        if iid in snap.stops {
          stop := Some(snap.stops[iid]);
        } else {
          FoundIsAsked(snap.positions, iid);
          var trigger := GuardVenuePosition(pos.value);
          stop := Some(trigger);
        }
      } else {
        size, entry, stop := 0.0, None, None;
        if !frozen { state := Flat; }
      }
      PersistRow();
    }

    /** Records a stop the portfolio placed for this instrument. */
    method NoteStop(trigger: real)
      modifies this`stop, db
      ensures View() == Persist(old(View()).(r := old(Fields()).(stop := Some(trigger))))
    {
      stop := Some(trigger);
      PersistRow();
    }

    // ----- events -----

    method BookFill(side: Side, quantity: real, price: real)
      modifies this, db
      ensures View() == ApplyFill(old(View()), side, quantity, price)
    {
      var delta := Signed(side, quantity);
      var before, after := size, size + delta;
      var basis := if entry.Some? then entry.value else 0.0;
      if before == 0.0 || after == 0.0 || (before > 0.0) != (after > 0.0) {
        entry := if after != 0.0 then Some(price) else None;
      } else if Abs(after) > Abs(before) {
        entry := Some(AverageEntry(before, basis, delta, price));
      }
      size := after;
      if after == 0.0 { funding := 0.0; }
      PersistRow();
    }

    method AccumulateFill(cid: Cid, row: OrderRow, quantity: real, price: real)
      requires cid in db.orders && db.orders[cid] == row
      modifies db
      ensures View() == old(View()).(db := RecordFill(old(db.View()), cid, quantity, price))
    {
      hide AverageFill;
      var filled := row.filled + quantity;
      var status := row.status;
      if !Terminal(row.status) { status := if filled >= row.quantity then Filled else Partial; }
      db.UpsertOrder(cid, row.(status := status, filled := filled, avgPrice := Some(AverageFill(row, quantity, price))));
    }

    method OnUpdate(cid: Cid, s: OrderStatus)
      modifies this, db
      ensures View() == HandleUpdate(old(View()), cid, s)
    {
      if pendingCid == Some(cid) && (s == Cancelled || s == AutoCancelled || s == Rejected) {
        db.UpdateStatus(cid, s, false);
        pendingCid := None;
        if !Frozen(state) { MoveTo(if size != 0.0 then Open else Flat); }
      } else if cid in db.orders && !GaveUp(db.orders[cid].status) {
        db.UpdateStatus(cid, s, true);
      }
    }

    method OnFill(ev: Event)
      requires ev.FillUpdate?
      modifies this, executor, db
      ensures View() == HandleFill(old(View()), ev)
    {
      hide AdoptAndSettle, ApplyFill, RecordFill, ReplaceStop;
      if ev.iid != iid { return; }
      var ours := ev.cid in db.orders;
      if ours && GaveUp(db.orders[ev.cid].status) && pendingCid != Some(ev.cid) {
        var row := db.orders[ev.cid];
        db.UpsertOrder(ev.cid, row.(filled := row.filled + ev.quantity));
        var snap := executor.TakeSnapshot();
        AdoptThenSettle(snap);
        return;
      }
      BookFill(ev.side, ev.quantity, ev.price);
      FillKeepsOrders(old(View()), ev.side, ev.quantity, ev.price);
      if ours { AccumulateFill(ev.cid, db.orders[ev.cid], ev.quantity, ev.price); } else { NothingToRecord(db.View(), ev.cid, ev.quantity, ev.price); }
      Settle(ev.cid, ours);
    }

    /** After the fill is booked: the pending entry landed, the position closed, or a fill nobody was waiting for. */
    method Settle(cid: Cid, ours: bool)
      modifies this, executor, db
      ensures View() == AfterFill(old(View()), cid, ours)
    {
      hide ReplaceStop;
      if state == EntryPending && pendingCid == Some(cid) && size != 0.0 {
        pendingCid := None;
        MoveTo(Open);
        RefreshStop();
      } else if size == 0.0 {
        pendingCid, stop := None, None;
        executor.RemoveStop(iid);
        if !Frozen(state) { MoveTo(Flat); } else { PersistRow(); }
        hooks := hooks + [OnFlatten];
      } else if Frozen(state) {
        RefreshStop();
      } else if ours && state != Flat {
      } else if state == Flat {
        MoveTo(Open);
        RefreshStop();
      }
    }

    method OnEvent(ev: Event)
      modifies this, executor, db
      ensures View() == HandleEvent(old(View()), ev)
    {
      hide HandleUpdate, HandleFill;
      match ev
      case OrderUpdate(cid, s, _) => OnUpdate(cid, s);
      case FillUpdate(_, _, _, _, _, _) => OnFill(ev);
    }
  }

  // ----- facts the methods use -----

  lemma {:induction false} FoundIsAsked(ps: seq<PositionView>, i: int)
    ensures Find(ps, i).Some? ==> Find(ps, i).value.iid == i
  {
    if ps != [] && ps[0].iid != i { FoundIsAsked(ps[1..], i); }
  }

  lemma PrepareFrame(d: Desk, intent: Intent, now: int)
    ensures Prepare(d, intent, now).a == d.a && Prepare(d, intent, now).r.size == d.r.size
  {
  }

  lemma FillKeepsOrders(d: Desk, side: Side, quantity: real, price: real)
    ensures ApplyFill(d, side, quantity, price).db.orders == d.db.orders
  {
  }

  lemma NothingToRecord(db: Db, cid: Cid, quantity: real, price: real)
    requires cid !in db.orders
    ensures RecordFill(db, cid, quantity, price) == db
  {
  }
}
