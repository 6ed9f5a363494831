/** The simulated venue as a value: every account operation is a function from account to account. */
module Sim {
  import opened Types
  import opened Guards

  datatype Costs = Costs(fee: real, spreadBps: real, impactBps: real, notional: real)

  /** Cost settings; the order size costs are measured against is positive. */
  type Config = c: Costs | c.notional > 0.0 witness Costs(0.0, 0.0, 0.0, 1.0)

  datatype Pos = Pos(size: real, entry: real, funding: real)

  const NO_POS := Pos(0.0, 0.0, 0.0)

  datatype Failure = Timeout | RejectIt | Drop

  /** `ids` is the insertion order of the position table, `resting` the orders resting on the book
      (always empty on the simulated venue, whose orders fill at once). */
  datatype Account = Account(
    cfg: Config, cash: real, marks: map<int, real>, ids: seq<int>, pos: map<int, Pos>, stops: map<int, real>,
    queue: seq<Event>, n: nat, failNext: Option<Failure>, failQueue: seq<Failure>, resting: seq<Cid>)

  datatype SubmitResult = Ack(accepted: bool) | TimedOut | Raised

  // ----- well-formed accounts -----

  predicate Distinct(s: seq<int>) {
    forall a, b :: 0 <= a < b < |s| ==> s[a] != s[b]
  }

  ghost predicate Ok(a: Account) {
    && Distinct(a.ids)
    && (forall i :: i in a.ids <==> i in a.pos)
    && (forall i :: i in a.marks ==> PriceOk(a.marks[i]))
    && (forall i :: i in a.pos && a.pos[i].size != 0.0 ==> i in a.marks && a.pos[i].entry > 0.0)
  }

  function PosOf(a: Account, i: int): Pos {
    if i in a.pos then a.pos[i] else NO_POS
  }

  /** The mark fills and valuations use; a held instrument always has one (Ok). */
  function MarkOf(a: Account, i: int): real {
    if i in a.marks then a.marks[i] else 0.0
  }

  function Size(a: Account, i: int): real {
    PosOf(a, i).size
  }

  // ----- position accounting -----

  /** Average-cost accounting of one fill: the new position and the cash it realises. */
  function Book(p: Pos, delta: real, price: real): (Pos, real) {
    var after := p.size + delta;
    var (q, realised) :=
      if p.size == 0.0 then (p.(size := after, entry := price), 0.0)
      else if (p.size > 0.0) == (after > 0.0) && Abs(after) > Abs(p.size) then
        (p.(size := after, entry := AverageEntry(p.size, p.entry, delta, price)), 0.0)
      else if (p.size > 0.0) == (after > 0.0) && after != 0.0 then
        (p.(size := after), (Abs(p.size) - Abs(after)) * (if p.size > 0.0 then 1.0 else -1.0) * (price - p.entry))
      else
        (p.(size := after, entry := if after != 0.0 then price else 0.0), p.size * (price - p.entry));
    (if q.size == 0.0 then q.(funding := 0.0) else q, realised)
  }

  function WithPos(a: Account, i: int, p: Pos): Account {
    a.(ids := if i in a.pos then a.ids else a.ids + [i], pos := a.pos[i := p])
  }

  function Fee(a: Account, quantity: real, price: real): real
  {
    FillCost(quantity * price, a.cfg.notional, a.cfg.spreadBps, a.cfg.fee, a.cfg.impactBps)
  }

  /** Apply a fill of `quantity` at `price`: fee, position and realised cash. */
  function Fill(a: Account, i: int, side: Side, quantity: real, price: real): Account
  {
    var (p, realised) := Book(PosOf(a, i), Signed(side, quantity), price);
    WithPos(a, i, p).(cash := a.cash - Fee(a, quantity, price) + realised)
  }

  // ----- market data -----

  function UpdateMark(a: Account, i: int, mark: real): Account {
    a.(marks := a.marks[i := mark])
  }

  /** Longs pay positive funding. */
  function FundingPaid(a: Account, i: int, rate: real): real
  {
    -Size(a, i) * MarkOf(a, i) * rate
  }

  function ApplyFunding(a: Account, i: int, rate: real): Account
  {
    var p := PosOf(a, i);
    if p.size == 0.0 then a
    else
      var paid := FundingPaid(a, i, rate);
      WithPos(a, i, p.(funding := p.funding + paid)).(cash := a.cash + paid)
  }

  // ----- orders and stops -----

  function NextMode(a: Account): (Option<Failure>, Account) {
    if a.failQueue != [] then (Some(a.failQueue[0]), a.(failQueue := a.failQueue[1..]))
    else (a.failNext, a.(failNext := None))
  }

  predicate WouldOpen(size: real, side: Side) {
    size == 0.0 || (size > 0.0) == (side == Buy)
  }

  function FillQuantity(a: Account, req: OrderRequest): real {
    if req.reduceOnly then Min(req.quantity, Abs(Size(a, req.iid))) else req.quantity
  }

  function ExecutedFill(a: Account, req: OrderRequest): Event
  {
    var q := FillQuantity(a, req);
    var px := MarkOf(a, req.iid);
    FillUpdate(req.cid, req.iid, req.side, q, px, Fee(a, q, px))
  }

  /** The order reaches the book: fill at the mark and queue its two events. */
  function Execute(a: Account, req: OrderRequest): Account
  {
    var q := FillQuantity(a, req);
    Fill(a, req.iid, req.side, q, MarkOf(a, req.iid)).(
      n := a.n + 1, queue := a.queue + [OrderUpdate(req.cid, Filled, q), ExecutedFill(a, req)])
  }

  /** The account as the order finds it: one failure-script entry consumed, the position row created. */
  function Arrive(a: Account, req: OrderRequest): Account {
    var b := NextMode(a).1;
    WithPos(b, req.iid, PosOf(b, req.iid))
  }

  predicate Blocked(a: Account, req: OrderRequest) {
    req.reduceOnly && WouldOpen(Size(a, req.iid), req.side)
  }

  /** The order reaches the book, whether or not its ack comes back. */
  predicate Executes(a: Account, req: OrderRequest) {
    && NextMode(a).0 != Some(Drop) && NextMode(a).0 != Some(RejectIt)
    && !Blocked(a, req) && req.iid in a.marks
  }

  /** One submission: dropped, rejected, raised (no mark to fill at), or executed with the ack delivered or lost. */
  function Submit(a: Account, req: OrderRequest): (Account, SubmitResult)
  {
    var (mode, b) := NextMode(a);
    if mode == Some(Drop) then (b, TimedOut)
    else if mode == Some(RejectIt) then (b, Ack(false))
    else
      var c := Arrive(a, req);
      if Blocked(c, req) then (c, Ack(false))
      else if req.iid !in c.marks then (c.(n := c.n + 1), Raised)
      else (Execute(c, req), if mode == Some(Timeout) then TimedOut else Ack(true))
  }

  function PlaceStop(a: Account, i: int, trigger: real): Account {
    a.(stops := a.stops[i := trigger])
  }

  function CancelStop(a: Account, i: int): Account {
    a.(stops := a.stops - {i})
  }

  /** Cancelling removes the order from the book; on the simulated venue nothing rests. */
  function Cancel(a: Account, cid: Cid): Account {
    a.(resting := Without(a.resting, cid))
  }

  function Without(s: seq<Cid>, c: Cid): seq<Cid> {
    if s == [] then [] else (if s[0] == c then [] else [s[0]]) + Without(s[1..], c)
  }

  predicate Fires(a: Account, i: int) {
    && i in a.stops && i in a.marks
    && var s := Size(a, i);
    ((s > 0.0 && a.marks[i] <= a.stops[i]) || (s < 0.0 && a.marks[i] >= a.stops[i]))
  }

  function StopFill(a: Account, i: int): Event
    requires Fires(a, i)
  {
    var s := Size(a, i);
    FillUpdate(StopOrder(i, a.n + 1), i, if s > 0.0 then Sell else Buy, Abs(s), a.stops[i], Fee(a, Abs(s), a.stops[i]))
  }

  /** The stop of instrument i closes the whole position at its trigger; its fill goes to the caller, not the queue. */
  function FireStop(a: Account, i: int): Account
    requires Fires(a, i)
  {
    var ev := StopFill(a, i);
    CancelStop(Fill(a, i, ev.side, ev.quantity, ev.price).(n := a.n + 1), i)
  }

  // ----- snapshot -----

  function View(a: Account, i: int): PositionView
  {
    var p := PosOf(a, i);
    PositionView(i, p.size, p.entry, Abs(p.size) * MarkOf(a, i), Some(LiquidationPrice(p.size, p.entry)), p.funding)
  }

  function Views(a: Account, ids: seq<int>): seq<PositionView>
  {
    if ids == [] then []
    else (if Size(a, ids[0]) == 0.0 then [] else [View(a, ids[0])]) + Views(a, ids[1..])
  }

  function Unrealised(a: Account, ids: seq<int>): real
  {
    if ids == [] then 0.0
    else (if Size(a, ids[0]) == 0.0 then 0.0 else Size(a, ids[0]) * (MarkOf(a, ids[0]) - PosOf(a, ids[0]).entry))
         + Unrealised(a, ids[1..])
  }

  function Equity(a: Account): real
  {
    a.cash + Unrealised(a, a.ids)
  }

  function Snapshot(a: Account): AccountSnapshot
  {
    AccountSnapshot(Equity(a), Views(a, a.ids), a.resting, a.stops, false)
  }

  // ----- what a restart keeps -----

  function NonZero(pos: map<int, Pos>, ids: seq<int>): seq<int> {
    if ids == [] then []
    else (if ids[0] in pos && pos[ids[0]].size != 0.0 then [ids[0]] else []) + NonZero(pos, ids[1..])
  }

  /** Save and load: positions, stops, marks, cash and counter survive; queued events and failure scripts do not. */
  function Reload(a: Account): Account {
    a.(ids := NonZero(a.pos, a.ids), pos := map i | i in a.pos && a.pos[i].size != 0.0 :: a.pos[i],
       queue := [], failNext := None, failQueue := [])
  }

  // ----- basic facts -----

  lemma {:induction false} FindView(a: Account, ids: seq<int>, i: int)
    ensures Find(Views(a, ids), i) == if i in ids && Size(a, i) != 0.0 then Some(View(a, i)) else None
  {
    if ids != [] {
      FindView(a, ids[1..], i);
      assert ids == [ids[0]] + ids[1..];
      var rest := Views(a, ids[1..]);
      if Size(a, ids[0]) != 0.0 {
        assert ([View(a, ids[0])] + rest)[1..] == rest;
      } else {
        assert [] + rest == rest;
      }
    }
  }

  /** The snapshot reports instrument i exactly when the account holds it. */
  lemma SnapshotPosition(a: Account, i: int)
    requires Ok(a)
    ensures Snapshot(a).Position(i) == if Size(a, i) != 0.0 then Some(View(a, i)) else None
    ensures Size(a, i) != 0.0 ==>
      && var p, v := PosOf(a, i), Snapshot(a).Position(i).value;
      && v.iid == i && v.size == p.size && v.entry == p.entry && v.funding == p.funding
      && v.notional == (if p.size > 0.0 then p.size else -p.size) * a.marks[i]
  {
    FindView(a, a.ids, i);
    if Size(a, i) != 0.0 { ViewIs(a, i); }
  }

  lemma ViewIs(a: Account, i: int)
    requires i in a.marks
    ensures var p, v := PosOf(a, i), View(a, i);
      && v.iid == i && v.size == p.size && v.entry == p.entry && v.funding == p.funding
      && v.notional == (if p.size > 0.0 then p.size else -p.size) * a.marks[i]
  {
    hide LiquidationPrice;
  }
}
