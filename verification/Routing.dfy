/** One instrument's order router as a function of its desk: the router's fields, the venue account and the
    database. Each function is one call the portfolio makes while it holds its lock. */
module Routing {
  import opened Types
  import opened Guards
  import opened Sim

  /** Calls the router makes on its strategy, newest last. */
  datatype Hook = OnFlatten | OnRecover(long: bool)

  datatype Router = Router(
    iid: int, state: State, size: real, entry: Option<real>, stop: Option<real>, funding: real,
    pendingCid: Option<Cid>, pendingSince: Option<int>, pendingIntent: Option<Intent>,
    num: nat, dnum: nat, hooks: seq<Hook>)

  datatype Desk = Desk(r: Router, a: Account, db: Db)

  const PENDING_TIMEOUT := 30

  function NewRouter(i: int): Router {
    Router(i, Flat, 0.0, None, None, 0.0, None, None, None, 0, 0, [])
  }

  // ----- database rows -----

  function Row(r: Router): PositionRow {
    PositionRow(r.state, r.size, r.entry, r.stop, r.funding)
  }

  function Persist(d: Desk): Desk {
    d.(db := d.db.(positions := d.db.positions[d.r.iid := Row(d.r)]))
  }

  function SetState(d: Desk, s: State): Desk {
    Persist(d.(r := d.r.(state := s)))
  }

  function Record(d: Desk, intent: Option<Intent>, cid: Option<Cid>): Desk {
    var n := d.r.dnum + 1;
    d.(r := d.r.(dnum := n), db := d.db.(decisions := d.db.decisions + [Decision(d.r.iid, n, d.r.state, intent, cid)]))
  }

  function Skip(d: Desk): Desk {
    Record(d, None, None)
  }

  /** The upsert: a row that is there already keeps its instrument, side, quantity and kind. */
  function Upserted(db: Db, cid: Cid, row: OrderRow): OrderRow {
    if cid in db.orders then
      var was := db.orders[cid];
      row.(iid := was.iid, side := was.side, quantity := was.quantity, reduceOnly := was.reduceOnly)
    else row
  }

  function PutOrder(db: Db, cid: Cid, row: OrderRow): Db {
    db.(orders := db.orders[cid := Upserted(db, cid, row)], orderIds := if cid in db.orders then db.orderIds else db.orderIds + [cid])
  }

  function SetStatus(db: Db, cid: Cid, s: OrderStatus): Db {
    if cid in db.orders then db.(orders := db.orders[cid := db.orders[cid].(status := s)]) else db
  }

  function SetStatusUnlessTerminal(db: Db, cid: Cid, s: OrderStatus): Db {
    if cid in db.orders && Terminal(db.orders[cid].status) then db else SetStatus(db, cid, s)
  }

  // ----- stops and adoption -----

  /** Stop at the router's distance from the venue's entry price. */
  function VenueStop(p: PositionView): real {
    StopPrice(p.size > 0.0, p.entry)
  }

  function ReplaceStop(d: Desk): Desk {
    if d.r.size == 0.0 || d.r.entry.None? then d
    else
      var t := StopPrice(d.r.size > 0.0, d.r.entry.value);
      Persist(d.(a := PlaceStop(d.a, d.r.iid, t), r := d.r.(stop := Some(t))))
  }

  /** Take the venue's size as ours and make sure a venue stop guards it. */
  function Adopt(d: Desk, snap: AccountSnapshot): Desk {
    var r := d.r.(pendingCid := None, pendingSince := None);
    var pos := snap.Position(r.iid);
    if pos.None? || pos.value.size == 0.0 then
      Persist(d.(r := r.(size := 0.0, entry := None, stop := None, funding := 0.0)))
    else
      var p := pos.value;
      var r1 := r.(size := p.size, entry := Some(p.entry), funding := p.funding);
      if r.iid in snap.stops then Persist(d.(r := r1.(stop := Some(snap.stops[r.iid]))))
      else Persist(d.(r := r1.(stop := Some(VenueStop(p))), a := PlaceStop(d.a, r.iid, VenueStop(p))))
  }

  function Hooked(d: Desk, h: Hook): Desk {
    d.(r := d.r.(hooks := d.r.hooks + [h]))
  }

  function Settled(size: real): State {
    if size != 0.0 then Open else Flat
  }

  function AdoptAndSettle(d: Desk, snap: AccountSnapshot): Desk {
    var d1 := Adopt(d, snap);
    var d2 := if Frozen(d1.r.state) then d1 else SetState(d1, Settled(d1.r.size));
    if d2.r.size == 0.0 then Hooked(d2.(a := CancelStop(d2.a, d2.r.iid)), OnFlatten)
    else Hooked(d2, OnRecover(d2.r.size > 0.0))
  }

  function Halt(d: Desk): Desk {
    if Frozen(d.r.state) then d else SetState(d.(r := d.r.(pendingCid := None)), Halted)
  }

  // ----- sending -----

  datatype Outcome = Acked | Refused | NoAck | Failed

  /** The order landed if it rests, or if the position moved in its direction by any amount. */
  predicate Landed(req: OrderRequest, snap: AccountSnapshot, sizeBefore: real) {
    || req.cid in snap.openOrders
    || var pos := snap.Position(req.iid);
       var moved := (if pos.Some? then pos.value.size else 0.0) - sizeBefore;
       if req.side == Buy then moved > 0.0 else moved < 0.0
  }

  /** One attempt; no outcome means time out and not landed. */
  function Attempt(a: Account, req: OrderRequest, sizeBefore: real): (Account, Option<Outcome>) {
    var (b, res) := Submit(a, req);
    match res
    case Ack(accepted) => (b, Some(if accepted then Acked else Refused))
    case Raised => (b, Some(Failed))
    case TimedOut => (b, if Landed(req, Snapshot(b), sizeBefore) then Some(Acked) else None)
  }

  /** Two attempts with the same client order id. */
  function SubmitWithRecovery(a: Account, req: OrderRequest, sizeBefore: real): (Account, Outcome) {
    var (b, first) := Attempt(a, req, sizeBefore);
    if first.Some? then (b, first.value)
    else
      var (c, second) := Attempt(b, req, sizeBefore);
      (c, if second.Some? then second.value else NoAck)
  }

  function Request(cid: Cid, intent: Intent): OrderRequest {
    OrderRequest(cid, intent.iid, intent.side, intent.quantity, intent.reduceOnly)
  }

  /** Rows and pending state written before the order leaves. */
  function Prepare(d: Desk, intent: Intent, now: int): Desk {
    var cid := Ours(d.r.iid, d.r.num + 1);
    var d1 := Record(d.(r := d.r.(num := d.r.num + 1)), Some(intent), Some(cid));
    var row := OrderRow(intent.iid, intent.side, intent.quantity, intent.reduceOnly, Submitting, 0.0, None);
    var r := d1.r.(pendingCid := Some(cid), pendingSince := Some(now), pendingIntent := Some(intent));
    SetState(d1.(r := r, db := PutOrder(d1.db, cid, row)), if intent.reduceOnly then ExitPending else EntryPending)
  }

  /** What the outcome of the submission does to the rows and the state. */
  function Conclude(d: Desk, cid: Cid, out: Outcome, prior: State): Desk {
    match out
    case Failed =>
      var d1 := Halt(d.(db := SetStatus(d.db, cid, Error)));
      Adopt(d1, Snapshot(d1.a))
    case NoAck => Halt(d.(db := SetStatus(d.db, cid, Lost)))
    case Refused => SetState(d.(db := SetStatus(d.db, cid, Rejected), r := d.r.(pendingCid := None)), prior)
    case Acked => d.(db := SetStatusUnlessTerminal(d.db, cid, Accepted))
  }

  function Send(d: Desk, intent: Intent, now: int): Desk {
    var d1 := Prepare(d, intent, now);
    var cid := Ours(d.r.iid, d.r.num + 1);
    var (a, out) := SubmitWithRecovery(d1.a, Request(cid, intent), d.r.size);
    Conclude(d1.(a := a), cid, out, d.r.state)
  }

  function ExitIntent(i: int, size: real, mark: real): Intent {
    Intent(i, if size > 0.0 then Sell else Buy, Abs(size), Cents(Abs(size) * mark), true)
  }

  function Exit(d: Desk, size: real, mark: real, now: int): Desk {
    Send(d, ExitIntent(d.r.iid, size, mark), now)
  }

  // ----- the bar cycle, the fast loop, the kill switch -----

  /** What a bar cycle needs of the newest bar: its close, whether it is complete, whether the strategy has
      its lookback, and the target the strategy answers. */
  datatype BarInput = BarInput(close: Option<real>, complete: bool, warm: bool, target: real)

  function Clamp(x: real): real {
    Max(-1.0, Min(1.0, x))
  }

  /** The strategy is asked for a target exactly in this case. */
  predicate AsksTarget(r: Router, bar: BarInput) {
    (r.state == Flat || r.state == Open) && bar.close.Some? && bar.complete && bar.warm
  }

  /** The bar cycle gets as far as asking the guards for an entry. */
  predicate AsksEntry(r: Router, bar: BarInput, kill: Kill) {
    r.state == Flat && bar.close.Some? && bar.complete && bar.warm && Clamp(bar.target) != 0.0 && kill != Pause
  }

  function EntrySide(bar: BarInput): Side {
    if Clamp(bar.target) > 0.0 then Buy else Sell
  }

  /** The guards raise: the bar loop ends here and this router's desk stays as it is. */
  predicate BarRaises(r: Router, bar: BarInput, snap: AccountSnapshot, kill: Kill, categories: map<int, Category>, pending: seq<Intent>)
    requires bar.close.Some? ==> PriceOk(bar.close.value)
  {
    AsksEntry(r, bar, kill) && EntryRaises(r.iid, EntrySide(bar), bar.close.value, snap, categories, pending)
  }

  function OnBar(d: Desk, bar: BarInput, snap: AccountSnapshot, kill: Kill, categories: map<int, Category>,
                 pending: seq<Intent>, now: int): Desk
    requires bar.close.Some? ==> PriceOk(bar.close.value)
  {
    if Frozen(d.r.state) || Pending(d.r.state) || bar.close.None? then Skip(d)
    else
      var mark := bar.close.value;
      var target := Clamp(bar.target);
      if !bar.complete then (if d.r.state == Open then Exit(d, d.r.size, mark, now) else Skip(d))
      else if !bar.warm then Skip(d)
      else if d.r.state == Flat then
        if target == 0.0 || kill == Pause then Skip(d)
        else
          var intent := EntryIntent(d.r.iid, EntrySide(bar), mark, snap, categories, pending);
          if EntryRaises(d.r.iid, EntrySide(bar), mark, snap, categories, pending) then d
          else if intent.None? then Skip(d)
          else Send(d, intent.value, now)
      else if target == 0.0 || (d.r.size > 0.0 && target < 0.0) || (d.r.size < 0.0 && target > 0.0) then
        Exit(d, d.r.size, mark, now)
      else Skip(d)
  }

  function OnFast(d: Desk, mark: real, snap: AccountSnapshot, now: int): Desk
    requires PriceOk(mark)
  {
    if d.r.state != Open then d
    else if snap.inLiquidation && d.r.size != 0.0 then SetState(d, Liquidated)
    else
      var pos := snap.Position(d.r.iid);
      if pos.None? then d
      else if TooClose(pos.value, mark) || FundingExitDue(pos.value) then Exit(d, d.r.size, mark, now)
      else d
  }

  /** Flatten what the venue says is held, then halt. */
  function Shutdown(d: Desk, mark: real, held: real, now: int): Desk {
    if d.r.state == Liquidated || (d.r.state == Halted && held == 0.0) then d
    else
      var d1 := if held != 0.0 && !Pending(d.r.state) then Exit(d, held, mark, now) else d;
      SetState(d1, Halted)
  }

  function CheckPending(d: Desk, snap: AccountSnapshot, now: int): Desk {
    if !Pending(d.r.state) || d.r.pendingSince.None? || now - d.r.pendingSince.value <= PENDING_TIMEOUT then d
    else
      var db := if d.r.pendingCid.Some? then SetStatus(d.db, d.r.pendingCid.value, TimeoutAdopted) else d.db;
      AdoptAndSettle(d.(db := db), snap)
  }

  /** The operator's decision, and the only way out of a frozen state. */
  function ClearHalt(d: Desk): Desk {
    SetState(d, Settled(d.r.size))
  }

  function AdoptPending(d: Desk, cid: Cid, s: State, now: int): Desk {
    SetState(d.(r := d.r.(pendingCid := Some(cid), pendingSince := Some(now))), s)
  }

  // ----- events -----

  function HandleUpdate(d: Desk, cid: Cid, s: OrderStatus): Desk {
    if d.r.pendingCid == Some(cid) && (s == Cancelled || s == AutoCancelled || s == Rejected) then
      var d1 := d.(db := SetStatus(d.db, cid, s), r := d.r.(pendingCid := None));
      if Frozen(d1.r.state) then d1 else SetState(d1, Settled(d1.r.size))
    else if cid in d.db.orders && !GaveUp(d.db.orders[cid].status) then
      d.(db := SetStatusUnlessTerminal(d.db, cid, s))
    else d
  }

  /** The router's own average-cost rule for one fill. */
  function FillEntry(size: real, entry: Option<real>, delta: real, price: real): Option<real> {
    var after := size + delta;
    if size == 0.0 || after == 0.0 || (size > 0.0) != (after > 0.0) then
      if after != 0.0 then Some(price) else None
    else if Abs(after) > Abs(size) then
      var e := if entry.Some? then entry.value else 0.0;
      Some(AverageEntry(size, e, delta, price))
    else entry
  }

  function ApplyFill(d: Desk, side: Side, quantity: real, price: real): Desk {
    var delta := Signed(side, quantity);
    var after := d.r.size + delta;
    var r := d.r.(size := after, entry := FillEntry(d.r.size, d.r.entry, delta, price));
    Persist(d.(r := if after == 0.0 then r.(funding := 0.0) else r))
  }

  function AverageFill(row: OrderRow, quantity: real, price: real): real {
    var filled := row.filled + quantity;
    if row.avgPrice.None? || row.filled == 0.0 || filled == 0.0 then price
    else (row.avgPrice.value * row.filled + price * quantity) / filled
  }

  /** An order's filled quantity accumulates; a terminal status is never downgraded. */
  function RecordFill(db: Db, cid: Cid, quantity: real, price: real): Db {
    if cid !in db.orders then db
    else
      var row := db.orders[cid];
      var filled := row.filled + quantity;
      var s := if Terminal(row.status) then row.status else if filled >= row.quantity then Filled else Partial;
      db.(orders := db.orders[cid := row.(status := s, filled := filled, avgPrice := Some(AverageFill(row, quantity, price)))])
  }

  predicate LateFill(d: Desk, cid: Cid) {
    cid in d.db.orders && GaveUp(d.db.orders[cid].status) && d.r.pendingCid != Some(cid)
  }

  /** After the fill is booked: which state the router is in, and what stands guard on the venue. */
  function AfterFill(d: Desk, cid: Cid, ours: bool): Desk {
    if d.r.state == EntryPending && d.r.pendingCid == Some(cid) && d.r.size != 0.0 then
      ReplaceStop(SetState(d.(r := d.r.(pendingCid := None)), Open))
    else if d.r.size == 0.0 then
      var d1 := d.(r := d.r.(pendingCid := None, stop := None), a := CancelStop(d.a, d.r.iid));
      Hooked(if Frozen(d1.r.state) then Persist(d1) else SetState(d1, Flat), OnFlatten)
    else if Frozen(d.r.state) then ReplaceStop(d)
    else if ours && d.r.state != Flat then d
    else if d.r.state == Flat then ReplaceStop(SetState(d, Open))
    else d
  }

  function HandleFill(d: Desk, ev: Event): Desk
    requires ev.FillUpdate?
  {
    if ev.iid != d.r.iid then d
    else if LateFill(d, ev.cid) then
      var row := d.db.orders[ev.cid];
      var d1 := d.(db := d.db.(orders := d.db.orders[ev.cid := row.(filled := row.filled + ev.quantity)]));
      AdoptAndSettle(d1, Snapshot(d1.a))
    else
      var d1 := ApplyFill(d, ev.side, ev.quantity, ev.price);
      AfterFill(d1.(db := RecordFill(d1.db, ev.cid, ev.quantity, ev.price)), ev.cid, ev.cid in d.db.orders)
  }

  function HandleEvent(d: Desk, ev: Event): Desk {
    match ev
    case OrderUpdate(cid, s, _) => HandleUpdate(d, cid, s)
    case FillUpdate(_, _, _, _, _, _) => HandleFill(d, ev)
  }
}
