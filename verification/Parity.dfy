/** The backtest and the live router on the simulated venue make the same trades. */
module Parity {
  import opened Types
  import opened Guards
  import opened Sim
  import opened SimLaws
  import opened Routing
  import opened Delivery
  import opened Portfolio
  import opened Live
  import H = Harness
  import B = Backtest

  // ----- the relation -----

  /** How much smaller the venue's position is than the backtest's, through the quantity's rounding. */
  function Ratio(size: real, entry: real): real {
    Abs(size) * entry / NOTIONAL
  }

  predicate Calm<S>(l: Live<S>, i: int) {
    && l.d.r.iid == i && l.d.a.queue == [] && l.d.a.resting == [] && NoFailures(l.d.a)
  }

  /** The account holds nothing but instrument i, and only the router's own orders are on record. */
  ghost predicate Alone<S>(l: Live<S>, i: int) {
    && Ok(l.d.a) && (forall j :: j != i ==> Size(l.d.a, j) == 0.0) && (forall c :: c in l.d.db.orders ==> c.Ours?)
  }

  predicate BothFlat<S>(r: H.Run<S>, l: Live<S>, i: int) {
    && r.book.position == 0.0 && l.d.r.state == Flat && l.d.r.size == 0.0 && l.d.r.entry == None
    && Size(l.d.a, i) == 0.0 && PosOf(l.d.a, i).funding == 0.0 && r.book.funding == 0.0
  }

  predicate BothOpen<S>(r: H.Run<S>, l: Live<S>, i: int) {
    var p, e, s := r.book.position, r.book.entry, l.d.r.size;
    && (p == 1.0 || p == -1.0) && Sizable(e)
    && l.d.r.state == Open && l.d.r.entry == Some(e)
    && s == p * EntryQuantity(e)
    && PosOf(l.d.a, i).size == s && PosOf(l.d.a, i).entry == e
    && i in l.d.a.stops && l.d.a.stops[i] == StopPrice(p > 0.0, e)
    && PosOf(l.d.a, i).funding == Ratio(s, e) * r.book.funding
  }

  /** Same trades so far, same strategy state, and matching positions. */
  ghost predicate Rel<S>(r: H.Run<S>, l: Live<S>, i: int) {
    && Calm(l, i) && Alone(l, i) && H.BookOk(r.book)
    && r.report.trades == l.trades && r.strategy == l.strategy
    && (BothFlat(r, l, i) || BothOpen(r, l, i))
  }

  // ----- leaving a position -----

  lemma OneHook<S>(l: Live<S>, strategy: H.Strategy<S>, d: Desk)
    requires d.r.hooks == l.d.r.hooks + [OnFlatten]
    ensures WithDesk(l, strategy, d) == l.(d := d, strategy := strategy.flattened(l.strategy))
  {
    assert d.r.hooks[|l.d.r.hooks|..] == [OnFlatten];
    assert Flattenings([OnFlatten]) == 1 by { assert [OnFlatten][..0] == []; assert Flattenings([]) == 0; }
    assert Told(l.strategy, strategy, 0) == l.strategy;
  }

  lemma NoHook<S>(l: Live<S>, strategy: H.Strategy<S>, d: Desk)
    requires d.r.hooks == l.d.r.hooks
    ensures WithDesk(l, strategy, d) == l.(d := d)
  {
    assert d.r.hooks[|l.d.r.hooks|..] == [];
  }

  /** Without failures the first attempt is acknowledged. */
  lemma SentAtOnce(a: Account, req: OrderRequest, believed: real)
    requires Ok(a) && NoFailures(a) && Executes(a, req)
    ensures SubmitWithRecovery(a, req, believed) == (Submit(a, req).0, Acked)
    ensures NoFailures(Submit(a, req).0)
  {
    hide Submit, Ok, Snapshot, Executes, FillQuantity;
    NoMode(a);
    SubmitExecutes(a, req);
    SubmitKeepsScript(a, req);
  }

  lemma NoMode(a: Account)
    requires NoFailures(a)
    ensures NextMode(a).0 == None
  {
  }

  lemma ExecutedPos(a: Account, req: OrderRequest)
    requires Executes(a, req)
    ensures PosOf(Submit(a, req).0, req.iid) == Book(PosOf(a, req.iid), Signed(req.side, FillQuantity(a, req)), MarkOf(a, req.iid)).0
  {
    hide Book, Fee;
  }

  /** The desk right after a send that filled: rows written, its two events queued, nothing else moved. */
  ghost predicate InFlightDesk(d: Desk, d1: Desk, cid: Cid, side: Side, q: real, pending: State) {
    && d1.r == d.r.(num := d1.r.num, dnum := d1.r.dnum, state := pending, pendingCid := Some(cid),
                    pendingSince := d1.r.pendingSince, pendingIntent := d1.r.pendingIntent)
    && Ok(d1.a) && NoFailures(d1.a) && d1.a.resting == d.a.resting && d1.a.stops == d.a.stops && d1.a.marks == d.a.marks
    && (forall j :: j != d.r.iid ==> PosOf(d1.a, j) == PosOf(d.a, j))
    && PosOf(d1.a, d.r.iid) == Book(PosOf(d.a, d.r.iid), Signed(side, q), MarkOf(d.a, d.r.iid)).0
    && |d1.a.queue| == 2 && d1.a.queue[0] == OrderUpdate(cid, Filled, q)
    && FillMatches(d1.a.queue[1], cid, d.r.iid, side, q, MarkOf(d.a, d.r.iid))
    && cid in d1.db.orders && d1.db.orders[cid].status == Accepted
    && (forall c :: c in d1.db.orders ==> c == cid || c in d.db.orders)
  }

  predicate FillMatches(ev: Event, cid: Cid, i: int, side: Side, q: real, price: real) {
    ev.FillUpdate? && ev.cid == cid && ev.iid == i && ev.side == side && ev.quantity == q && ev.price == price
  }

  lemma SendFills(d: Desk, intent: Intent, now: int)
    requires Ok(d.a) && NoFailures(d.a) && d.a.queue == [] && intent.iid == d.r.iid
    requires Executes(d.a, Request(Ours(d.r.iid, d.r.num + 1), intent))
    ensures InFlightDesk(d, Send(d, intent, now), Ours(d.r.iid, d.r.num + 1), intent.side,
                         FillQuantity(d.a, Request(Ours(d.r.iid, d.r.num + 1), intent)),
                         if intent.reduceOnly then ExitPending else EntryPending)
  {
    hide Submit, Ok, Executes, FillQuantity, Book, SubmitWithRecovery, Snapshot, Adopt, NoFailures, Fee, Arrive, NextMode;
    var cid := Ours(d.r.iid, d.r.num + 1);
    var req := Request(cid, intent);
    SentAtOnce(d.a, req, d.r.size);
    SubmitExecutes(d.a, req);
    ExecutedPos(d.a, req);
    NewFillIs(d.a, req);
  }

  lemma NewFillIs(a: Account, req: OrderRequest)
    ensures FillMatches(NewFill(a, req), req.cid, req.iid, req.side, FillQuantity(Arrive(a, req), req), MarkOf(a, req.iid))
    ensures FillQuantity(Arrive(a, req), req) == FillQuantity(a, req)
  {
    hide Fee;
  }

  lemma DeliverOne<S>(l: Live<S>, strategy: H.Strategy<S>, ev: Event, ts: int)
    ensures DeliverAll(l, strategy, [ev], ts) == Deliver(l, strategy, ev, ts)
  {
    hide Deliver;
    assert [ev][1..] == [];
    assert DeliverAll(Deliver(l, strategy, ev, ts), strategy, [], ts) == Deliver(l, strategy, ev, ts);
  }

  /** Delivering both events of an in-flight order: only the fill moves the router. */
  lemma DrainTwo<S>(l: Live<S>, strategy: H.Strategy<S>, cid: Cid, ts: int)
    requires |l.d.a.queue| == 2 && l.d.a.queue[0].OrderUpdate? && l.d.a.queue[0].cid == cid && l.d.a.queue[0].status == Filled
    requires l.d.a.queue[1].FillUpdate? && cid in l.d.db.orders && l.d.db.orders[cid].status == Accepted
    ensures var db := SetStatus(l.d.db, cid, Filled);
      var l1 := l.(d := Desk(l.d.r, l.d.a.(queue := []), db));
      Drain(l, strategy, ts) == Deliver(l1, strategy, l.d.a.queue[1], ts)
  {
    hide HandleFill, SetStatus;
    var evs := l.d.a.queue;
    var l0 := l.(d := l.d.(a := l.d.a.(queue := [])));
    assert evs[1..] == [evs[1]];
    assert [evs[1]][1..] == [];
    FilledUpdate(l0.d, cid);
    NoHook(l0, strategy, HandleUpdate(l0.d, cid, Filled));
    var l1 := l.(d := Desk(l.d.r, l.d.a.(queue := []), SetStatus(l.d.db, cid, Filled)));
    assert Deliver(l0, strategy, evs[0], ts) == l1;
    DeliverOne(l1, strategy, evs[1], ts);
    assert DeliverAll(l0, strategy, evs, ts) == DeliverAll(l1, strategy, evs[1..], ts);
  }

  lemma FilledUpdate(d: Desk, cid: Cid)
    requires cid in d.db.orders && d.db.orders[cid].status == Accepted
    ensures HandleUpdate(d, cid, Filled) == d.(db := SetStatus(d.db, cid, Filled))
  {
  }

  /** The exit's fill empties the router and withdraws the stop. */
  lemma ExitFill(d: Desk, ev: Event)
    requires ev.FillUpdate? && ev.iid == d.r.iid && d.r.size + Signed(ev.side, ev.quantity) == 0.0
    requires !Frozen(d.r.state) && !LateFill(d, ev.cid)
    ensures var d2 := HandleFill(d, ev);
      && d2.r.state == Flat && d2.r.size == 0.0 && d2.r.entry == None && d2.r.iid == d.r.iid
      && d2.r.hooks == d.r.hooks + [OnFlatten] && d2.a == CancelStop(d.a, d.r.iid)
      && forall c :: c in d2.db.orders <==> c in d.db.orders
  {
    hide AverageEntry, RecordFill;
    RecordFillKeys(ApplyFill(d, ev.side, ev.quantity, ev.price).db, ev.cid, ev.quantity, ev.price);
  }

  lemma RecordFillKeys(db: Db, cid: Cid, quantity: real, price: real)
    ensures forall c :: c in RecordFill(db, cid, quantity, price).orders <==> c in db.orders
  {
  }

  /** Calm and alone, with the router and the venue agreeing on a position that has a mark. */
  ghost predicate Holding<S>(l: Live<S>, i: int) {
    && Calm(l, i) && Alone(l, i) && l.d.r.state == Open && l.d.r.size != 0.0 && Size(l.d.a, i) == l.d.r.size
  }

  function ExitSide(size: real): Side {
    if size > 0.0 then Sell else Buy
  }

  /** The state both sides reach when a position of `size` is given up at time `ts`. */
  ghost predicate LeftBehind<S>(l: Live<S>, l2: Live<S>, strategy: H.Strategy<S>, i: int, size: real, ts: int) {
    && Calm(l2, i) && Alone(l2, i) && l2.d.r.state == Flat && l2.d.r.size == 0.0 && l2.d.r.entry == None
    && Size(l2.d.a, i) == 0.0 && PosOf(l2.d.a, i).funding == 0.0 && l2.d.a.marks == l.d.a.marks
    && l2.trades == l.trades + [H.TradeRow(ts, ExitSide(size), Abs(size))]
    && l2.strategy == strategy.flattened(l.strategy)
  }

  lemma ExitExecutes(a: Account, cid: Cid, size: real, mark: real)
    requires Ok(a) && NoFailures(a) && cid.Ours? && Size(a, cid.iid) == size != 0.0
    ensures var req := Request(cid, ExitIntent(cid.iid, size, mark));
      Executes(a, req) && FillQuantity(a, req) == Abs(size) && req.side == ExitSide(size)
  {
    hide Cents;
  }

  lemma BookCloses(p: Pos, price: real)
    requires p.size != 0.0
    ensures Book(p, -p.size, price).0.size == 0.0 && Book(p, -p.size, price).0.funding == 0.0
  {
  }

  /** The desk once the exit's fill is handled. */
  lemma LandedDesk(d: Desk, d1: Desk, cid: Cid, size: real)
    requires InFlightDesk(d, d1, cid, ExitSide(size), Abs(size), ExitPending) && d.r.size == size != 0.0
    requires PosOf(d.a, d.r.iid).size == size
    ensures var d2 := Desk(d1.r, d1.a.(queue := []), SetStatus(d1.db, cid, Filled));
      var d3 := HandleFill(d2, d1.a.queue[1]);
      && d3.r.state == Flat && d3.r.size == 0.0 && d3.r.entry == None && d3.r.iid == d.r.iid
      && d3.r.hooks == d.r.hooks + [OnFlatten] && d3.a == CancelStop(d1.a.(queue := []), d.r.iid)
      && Ok(d3.a) && NoFailures(d3.a) && d3.a.queue == [] && d3.a.resting == d.a.resting
      && (forall j :: j != d.r.iid ==> PosOf(d3.a, j) == PosOf(d.a, j)) && Size(d3.a, d.r.iid) == 0.0
      && PosOf(d3.a, d.r.iid).funding == 0.0 && d3.a.marks == d.a.marks
      && (forall c :: c in d3.db.orders ==> c == cid || c in d.db.orders)
  {
    hide Ok, Book, NoFailures, HandleFill, SetStatus, CancelStop;
    StatusFilled(d1.db, cid);
    ExitFill(Desk(d1.r, d1.a.(queue := []), SetStatus(d1.db, cid, Filled)), d1.a.queue[1]);
    BookCloses(PosOf(d.a, d.r.iid), MarkOf(d.a, d.r.iid));
    QueueGone(d1.a, d.r.iid);
  }

  lemma LandExit<S>(l: Live<S>, d1: Desk, cid: Cid, strategy: H.Strategy<S>, i: int, now: int)
    requires Holding(l, i) && cid.Ours? && InFlightDesk(l.d, d1, cid, ExitSide(l.d.r.size), Abs(l.d.r.size), ExitPending)
    ensures LeftBehind(l, Drain(l.(d := d1), strategy, now), strategy, i, l.d.r.size, now)
  {
    hide Ok, Book, NoFailures, HandleFill, SetStatus, Drain, WithDesk, CancelStop;
    var size := l.d.r.size;
    LandedDesk(l.d, d1, cid, size);
    var l1 := l.(d := d1);
    DrainTwo(l1, strategy, cid, now);
    var d2 := Desk(d1.r, d1.a.(queue := []), SetStatus(d1.db, cid, Filled));
    var ev := d1.a.queue[1];
    var d3 := HandleFill(d2, ev);
    OneHook(l1.(d := d2), strategy, d3);
    var l3 := Deliver(l1.(d := d2), strategy, ev, now);
    assert Drain(l1, strategy, now) == l3 && l3.d == d3;
    forall j | j != i ensures Size(l3.d.a, j) == 0.0 { assert Size(l.d.a, j) == 0.0; }
  }

  /** A full exit delivered: one trade, the strategy told, both sides flat. */
  lemma ExitDelivered<S>(l: Live<S>, strategy: H.Strategy<S>, i: int, mark: real, now: int)
    requires Holding(l, i)
    ensures LeftBehind(l, Drain(WithDesk(l, strategy, Exit(l.d, l.d.r.size, mark, now)), strategy, now), strategy, i, l.d.r.size, now)
  {
    hide Send, Executes, FillQuantity, Drain, WithDesk, ExitIntent, LeftBehind;
    var size := l.d.r.size;
    var cid := Ours(i, l.d.r.num + 1);
    var intent := ExitIntent(i, size, mark);
    ExitIntentIs(i, size, mark);
    ExitExecutes(l.d.a, cid, size, mark);
    SendFills(l.d, intent, now);
    var d1 := Exit(l.d, size, mark, now);
    NoHook(l, strategy, d1);
    LandExit(l, d1, cid, strategy, i, now);
  }

  lemma ExitIntentIs(i: int, size: real, mark: real)
    ensures var x := ExitIntent(i, size, mark);
      x.iid == i && x.reduceOnly && x.side == ExitSide(size) && x.quantity == Abs(size)
  {
    hide Cents;
  }

  lemma StatusFilled(db: Db, cid: Cid)
    requires cid in db.orders
    ensures var db2 := SetStatus(db, cid, Filled);
      cid in db2.orders && db2.orders[cid].status == Filled && forall c :: c in db2.orders <==> c in db.orders
  {
  }

  lemma QueueGone(a: Account, i: int)
    requires Ok(a) && NoFailures(a)
    ensures var b := CancelStop(a.(queue := []), i);
      Ok(b) && NoFailures(b) && (forall j :: PosOf(b, j) == PosOf(a, j)) && b.marks == a.marks && b.resting == a.resting && b.queue == []
  {
  }

  // ----- taking a position -----

  /** The state an entry of `size` at `price` leaves. */
  ghost predicate Entered<S>(l: Live<S>, l2: Live<S>, i: int, size: real, price: real, ts: int) {
    && Calm(l2, i) && Alone(l2, i) && l2.d.r.state == Open && l2.d.r.size == size && l2.d.r.entry == Some(price)
    && PosOf(l2.d.a, i).size == size && PosOf(l2.d.a, i).entry == price && PosOf(l2.d.a, i).funding == PosOf(l.d.a, i).funding
    && i in l2.d.a.stops && l2.d.a.stops[i] == StopPrice(size > 0.0, price)
    && l2.trades == l.trades + [H.TradeRow(ts, if size > 0.0 then Buy else Sell, Abs(size))]
    && l2.strategy == l.strategy
  }

  /** The entry's fill opens the router and places the stop. */
  lemma EntryFill(d: Desk, ev: Event)
    requires ev.FillUpdate? && ev.iid == d.r.iid && d.r.size == 0.0 && Signed(ev.side, ev.quantity) != 0.0
    requires d.r.state == EntryPending && d.r.pendingCid == Some(ev.cid) && !LateFill(d, ev.cid)
    ensures var d2 := HandleFill(d, ev);
      var size := Signed(ev.side, ev.quantity);
      && d2.r.state == Open && d2.r.size == size && d2.r.entry == Some(ev.price) && d2.r.iid == d.r.iid
      && d2.r.hooks == d.r.hooks && d2.a == PlaceStop(d.a, d.r.iid, StopPrice(size > 0.0, ev.price))
      && forall c :: c in d2.db.orders <==> c in d.db.orders
  {
    hide AverageEntry, RecordFill, StopPrice;
    RecordFillKeys(ApplyFill(d, ev.side, ev.quantity, ev.price).db, ev.cid, ev.quantity, ev.price);
  }

  lemma StopPlaced(a: Account, i: int, t: real)
    requires Ok(a) && NoFailures(a)
    ensures var b := PlaceStop(a.(queue := []), i, t);
      Ok(b) && NoFailures(b) && (forall j :: PosOf(b, j) == PosOf(a, j)) && b.marks == a.marks && b.resting == a.resting && b.queue == []
      && i in b.stops && b.stops[i] == t
  {
  }

  lemma BookOpens(p: Pos, delta: real, price: real)
    requires p.size == 0.0 && delta != 0.0
    ensures Book(p, delta, price).0 == Pos(delta, price, p.funding)
  {
    hide AverageEntry;
  }

  lemma EnteredDesk(d: Desk, d1: Desk, cid: Cid, side: Side, q: real)
    requires InFlightDesk(d, d1, cid, side, q, EntryPending) && d.r.size == 0.0 && PosOf(d.a, d.r.iid).size == 0.0 && q > 0.0
    ensures var d2 := Desk(d1.r, d1.a.(queue := []), SetStatus(d1.db, cid, Filled));
      var d3 := HandleFill(d2, d1.a.queue[1]);
      var size, price := Signed(side, q), MarkOf(d.a, d.r.iid);
      && d3.r.state == Open && d3.r.size == size && d3.r.entry == Some(price) && d3.r.iid == d.r.iid && d3.r.hooks == d.r.hooks
      && Ok(d3.a) && NoFailures(d3.a) && d3.a.queue == [] && d3.a.resting == d.a.resting
      && PosOf(d3.a, d.r.iid) == Pos(size, price, PosOf(d.a, d.r.iid).funding)
      && (forall j :: j != d.r.iid ==> PosOf(d3.a, j) == PosOf(d.a, j))
      && d.r.iid in d3.a.stops && d3.a.stops[d.r.iid] == StopPrice(size > 0.0, price)
      && (forall c :: c in d3.db.orders ==> c == cid || c in d.db.orders)
  {
    hide Ok, Book, NoFailures, HandleFill, SetStatus, PlaceStop, StopPrice;
    StatusFilled(d1.db, cid);
    EntryFill(Desk(d1.r, d1.a.(queue := []), SetStatus(d1.db, cid, Filled)), d1.a.queue[1]);
    BookOpens(PosOf(d.a, d.r.iid), Signed(side, q), MarkOf(d.a, d.r.iid));
    StopPlaced(d1.a, d.r.iid, StopPrice(Signed(side, q) > 0.0, MarkOf(d.a, d.r.iid)));
  }

  lemma LandEntry<S>(l: Live<S>, d1: Desk, cid: Cid, strategy: H.Strategy<S>, i: int, side: Side, q: real, now: int)
    requires Calm(l, i) && Alone(l, i) && l.d.r.size == 0.0 && Size(l.d.a, i) == 0.0 && q > 0.0
    requires cid.Ours? && InFlightDesk(l.d, d1, cid, side, q, EntryPending)
    ensures Entered(l, Drain(l.(d := d1), strategy, now), i, Signed(side, q), MarkOf(l.d.a, i), now)
  {
    hide Ok, Book, NoFailures, HandleFill, SetStatus, Drain, WithDesk, PlaceStop, StopPrice;
    EnteredDesk(l.d, d1, cid, side, q);
    var l1 := l.(d := d1);
    DrainTwo(l1, strategy, cid, now);
    var d2 := Desk(d1.r, d1.a.(queue := []), SetStatus(d1.db, cid, Filled));
    var ev := d1.a.queue[1];
    var d3 := HandleFill(d2, ev);
    NoHook(l1.(d := d2), strategy, d3);
    var l3 := Deliver(l1.(d := d2), strategy, ev, now);
    assert Drain(l1, strategy, now) == l3 && l3.d == d3;
    forall j | j != i ensures Size(l3.d.a, j) == 0.0 { assert Size(l.d.a, j) == 0.0; }
  }

  // ----- the full-size entry -----

  /** Enough equity for every guard to let the fixed order through. */
  predicate Affords(equity: real) {
    equity * CLUSTER_CAP >= NOTIONAL
  }

  lemma {:induction false} NoViews(a: Account, ids: seq<int>)
    requires forall j :: Size(a, j) == 0.0
    ensures Views(a, ids) == []
  {
    if ids != [] { NoViews(a, ids[1..]); }
  }

  lemma FullEntry(i: int, side: Side, mark: real, snap: AccountSnapshot, categories: map<int, Category>)
    requires Sizable(mark) && snap.positions == [] && Affords(snap.equity)
    ensures EntryIntent(i, side, mark, snap, categories, []) == Some(Intent(i, side, EntryQuantity(mark), NOTIONAL, false))
  {
    hide EntryQuantity, FloorQ;
    var intent := Intent(i, side, EntryQuantity(mark), NOTIONAL, false);
    var v1 := VetEntry(intent, mark, snap.equity, snap.positions, []);
    var v2 := VetExposure(intent, snap.equity, snap.positions, categories, []);
    assert v1 == Allow && v2 == Allow;
    assert [v1, v2][1..] == [v2];
    assert [v2][1..] == [];
    assert MinResize([v2], intent.quantity) == intent.quantity;
    assert MinResize([v1, v2], intent.quantity) == intent.quantity;
  }

  lemma EntryExecutes(a: Account, req: OrderRequest)
    requires NoFailures(a) && !req.reduceOnly && req.iid in a.marks
    ensures Executes(a, req) && FillQuantity(a, req) == req.quantity
  {
  }

  /** A full-size entry delivered. */
  lemma EntryDelivered<S>(l: Live<S>, strategy: H.Strategy<S>, i: int, side: Side, mark: real, now: int)
    requires Calm(l, i) && Alone(l, i) && l.d.r.size == 0.0 && Size(l.d.a, i) == 0.0
    requires i in l.d.a.marks && l.d.a.marks[i] == mark && Sizable(mark)
    ensures var intent := Intent(i, side, EntryQuantity(mark), NOTIONAL, false);
      Entered(l, Drain(WithDesk(l, strategy, Send(l.d, intent, now)), strategy, now), i, Signed(side, EntryQuantity(mark)), mark, now)
  {
    hide Send, Executes, FillQuantity, Drain, WithDesk, Entered, EntryQuantity, Ok;
    var cid := Ours(i, l.d.r.num + 1);
    var q := EntryQuantity(mark);
    var intent := Intent(i, side, q, NOTIONAL, false);
    EntryExecutes(l.d.a, Request(cid, intent));
    SendFills(l.d, intent, now);
    var d1 := Send(l.d, intent, now);
    NoHook(l, strategy, d1);
    QuantityPositive(mark);
    LandEntry(l, d1, cid, strategy, i, side, q, now);
  }

  lemma QuantityPositive(mark: real)
    requires Sizable(mark)
    ensures EntryQuantity(mark) > 0.0
  {
  }

  // ----- the backtest's side of an exit -----

  lemma SameContracts(p: real, e: real)
    requires (p == 1.0 || p == -1.0) && Sizable(e)
    ensures H.Units(0.0 - p, NOTIONAL, e) == EntryQuantity(e) && H.Units(p - 0.0, NOTIONAL, e) == EntryQuantity(e)
  {
    hide FloorQ;
    assert H.Contracts(0.0 - p, NOTIONAL, e) == NOTIONAL / e;
    assert H.Contracts(p - 0.0, NOTIONAL, e) == NOTIONAL / e;
  }

  /** Flattening the backtest's book records the same trade the router's exit does. */
  lemma HarnessFlattens<S>(r: H.Run<S>, l: Live<S>, l2: Live<S>, c: H.CostModel, strategy: H.Strategy<S>, i: int, price: real,
                           spreadBps: real, ts: int, kind: H.Kind)
    requires c.notional == NOTIONAL && Rel(r, l, i) && BothOpen(r, l, i) && LeftBehind(l, l2, strategy, i, l.d.r.size, ts)
    ensures Rel(H.TradeTo(r, c, strategy, 0.0, price, spreadBps, ts, kind), l2, i)
    ensures BothFlat(H.TradeTo(r, c, strategy, 0.0, price, spreadBps, ts, kind), l2, i)
  {
    hide Alone, Calm, EntryQuantity, H.Units, H.TradeCost, H.Pnl, H.ClosingValue, H.Equity, Ratio;
    var p := r.book.position;
    SameContracts(p, r.book.entry);
    QuantityPositive(r.book.entry);
  }

  // ----- stop -----

  lemma StopKeepsAccount(a: Account, i: int, mark: real)
    requires Ok(a) && NoFailures(a) && Sizable(mark)
    ensures var b := UpdateMark(a, i, mark);
      && Ok(b) && NoFailures(b) && b.pos == a.pos && b.stops == a.stops && b.queue == a.queue && b.resting == a.resting
      && i in b.marks && b.marks[i] == mark && (forall j :: PosOf(b, j) == PosOf(a, j))
  {
  }

  lemma FiredAccount(a: Account, i: int)
    requires Ok(a) && NoFailures(a) && Fires(a, i)
    ensures var b, ev := FireStop(a, i), StopFill(a, i);
      && Ok(b) && NoFailures(b) && b.queue == a.queue && b.resting == a.resting && b.marks == a.marks
      && Size(b, i) == 0.0 && PosOf(b, i).funding == 0.0 && (forall j :: j != i ==> PosOf(b, j) == PosOf(a, j))
      && ev.FillUpdate? && ev.cid.StopOrder? && ev.iid == i && ev.side == ExitSide(Size(a, i)) && ev.quantity == Abs(Size(a, i))
  {
    FireStopEffect(a, i);
    BookCloses(PosOf(a, i), a.stops[i]);
    hide Fee, PlainCash, Book;
  }

  /** The stop's fill delivered at once. */
  lemma StopDelivered<S>(l: Live<S>, strategy: H.Strategy<S>, a: Account, i: int, ts: int)
    requires Holding(l, i) && Ok(a) && NoFailures(a) && Fires(a, i) && a.queue == [] && a.resting == []
    requires a.pos == l.d.a.pos && a.stops == l.d.a.stops
    ensures var l1 := l.(d := l.d.(a := a));
      LeftBehind(l1, Deliver(l.(d := l.d.(a := FireStop(a, i))), strategy, StopFill(a, i), ts), strategy, i, l.d.r.size, ts)
  {
    hide Ok, NoFailures, HandleFill, WithDesk, FireStop, CancelStop, Fires, StopFill;
    FiredAccount(a, i);
    var b, ev := FireStop(a, i), StopFill(a, i);
    var d1 := l.d.(a := b);
    ExitFill(d1, ev);
    var d2 := HandleFill(d1, ev);
    OneHook(l.(d := d1), strategy, d2);
    QueueGone(b, i);
    assert b.(queue := []) == b;
    var l2 := Deliver(l.(d := d1), strategy, ev, ts);
    assert l2.d == d2;
    forall j | j != i ensures Size(l2.d.a, j) == 0.0 { assert Size(l.d.a, j) == 0.0; }
  }

  lemma StopParity<S>(r: H.Run<S>, l: Live<S>, z: H.Settings, strategy: H.Strategy<S>, bar: Bar, i: int)
    requires Rel(r, l, i) && z.costs.notional == NOTIONAL && FullyPriced(bar)
    ensures Rel(H.StopPhase(r, z, strategy, bar), StopTick(l, strategy, bar), i)
  {
    hide Ok, NoFailures, Deliver, H.TradeTo, StopPrice, FireStop, StopFill, Ratio, EntryQuantity, LeftBehind, H.BookOk;
    if BothOpen(r, l, i) {
      OpenIsHolding(r, l, i);
      var mark := if l.d.r.size > 0.0 then bar.low.value else bar.high.value;
      var a := UpdateMark(l.d.a, i, mark);
      StopKeepsAccount(l.d.a, i, mark);
      var l1 := l.(d := l.d.(a := a));
      MarkedRel(r, l, l1, i);
      assert Fires(a, i) <==> H.StopHit(r.book, bar);
      if Fires(a, i) {
        StopDelivered(l, strategy, a, i, bar.openTs);
        HarnessFlattens(r, l1, StopTick(l, strategy, bar), z.costs, strategy, i, StopPrice(r.book.position > 0.0, r.book.entry),
                        bar.spreadBps, bar.openTs, H.StopRow);
      }
    }
  }

  lemma OpenIsHolding<S>(r: H.Run<S>, l: Live<S>, i: int)
    requires Rel(r, l, i) && BothOpen(r, l, i)
    ensures Holding(l, i) && (l.d.r.size > 0.0 <==> r.book.position > 0.0)
  {
    hide Ok, EntryQuantity, Ratio;
    QuantityPositive(r.book.entry);
  }

  /** A new mark changes nothing the relation looks at. */
  lemma MarkedRel<S>(r: H.Run<S>, l: Live<S>, l1: Live<S>, i: int)
    requires Rel(r, l, i) && l1 == l.(d := l.d.(a := l1.d.a))
    requires Ok(l1.d.a) && NoFailures(l1.d.a) && l1.d.a.queue == [] && l1.d.a.resting == [] && l1.d.a.stops == l.d.a.stops
    requires forall j :: PosOf(l1.d.a, j) == PosOf(l.d.a, j)
    ensures Rel(r, l1, i) && (BothOpen(r, l, i) ==> BothOpen(r, l1, i))
  {
    hide Ok, EntryQuantity, Ratio;
    forall j | j != i ensures Size(l1.d.a, j) == 0.0 { assert Size(l.d.a, j) == 0.0; }
  }

  // ----- funding -----

  lemma RatioScales(s: real, e: real, p: real, close: real, rate: real, b: H.HBook)
    requires (p == 1.0 || p == -1.0) && e > 0.0 && s * p >= 0.0 && b.position == p && b.entry == e
    ensures -s * close * rate == Ratio(s, e) * H.FundingPaid(b, NOTIONAL, close, rate)
  {
    var k := close / e;
    assert k * e == close;
    var abs := if p > 0.0 then s else -s;
    assert abs == Abs(s) by { if p > 0.0 { assert s >= 0.0; } else { assert -s >= 0.0; } }
    var ratio := Ratio(s, e);
    assert ratio * NOTIONAL == abs * e;
    assert H.FundingPaid(b, NOTIONAL, close, rate) == (-p * NOTIONAL) * k * rate;
    RatioChain(ratio, p, k, rate, abs, e, close);
  }

  lemma RatioChain(ratio: real, p: real, k: real, rate: real, abs: real, e: real, close: real)
    requires ratio * NOTIONAL == abs * e && k * e == close
    ensures ratio * ((-p * NOTIONAL) * k * rate) == -p * (abs * close * rate)
  {
    assert ratio * ((-p * NOTIONAL) * k * rate) == (-p) * ((ratio * NOTIONAL) * (k * rate));
    assert (ratio * NOTIONAL) * (k * rate) == (abs * e) * (k * rate);
    assert (abs * e) * (k * rate) == abs * (k * e) * rate;
  }

  lemma RatioAdds(ratio: real, x: real, y: real)
    ensures ratio * x + ratio * y == ratio * (x + y)
  {
  }

  lemma FundedAccount(a: Account, i: int, close: real, rate: Option<real>)
    requires Ok(a) && NoFailures(a) && Sizable(close)
    ensures var m := UpdateMark(a, i, close);
      var b := if rate.Some? then ApplyFunding(m, i, rate.value) else m;
      && Ok(b) && NoFailures(b) && b.queue == a.queue && b.resting == a.resting && b.stops == a.stops
      && i in b.marks && b.marks[i] == close && (forall j :: j != i ==> PosOf(b, j) == PosOf(a, j))
      && PosOf(b, i) == PosOf(a, i).(funding := PosOf(b, i).funding)
      && (Size(a, i) == 0.0 || rate.None? ==> PosOf(b, i) == PosOf(a, i))
      && (Size(a, i) != 0.0 && rate.Some? ==> PosOf(b, i).funding == PosOf(a, i).funding + FundingPaid(m, i, rate.value))
  {
    hide Cost, FundingPaid;
    StopKeepsAccount(a, i, close);
    var m := UpdateMark(a, i, close);
    if rate.Some? {
      OpConserves(m, Funding(i, rate.value));
    }
  }

  lemma FundingParity<S>(r: H.Run<S>, l: Live<S>, z: H.Settings, bar: Bar, i: int)
    requires Rel(r, l, i) && z.costs.notional == NOTIONAL && FullyPriced(bar)
    ensures Rel(H.FundingPhase(r, z, bar), CloseTick(l, bar), i)
    ensures i in CloseTick(l, bar).d.a.marks && CloseTick(l, bar).d.a.marks[i] == bar.close.value
  {
    hide Ok, NoFailures, H.Equity, StopPrice, EntryQuantity, Ratio, H.FundingPaid, ApplyFunding, UpdateMark;
    var close := bar.close.value;
    FundedAccount(l.d.a, i, close, bar.fundingRate);
    StopKeepsAccount(l.d.a, i, close);
    var l1 := CloseTick(l, bar);
    forall j | j != i ensures Size(l1.d.a, j) == 0.0 { assert Size(l.d.a, j) == 0.0; }
    if BothOpen(r, l, i) {
      HeldBook(r, l, i);
      if bar.fundingRate.Some? {
        var rate := bar.fundingRate.value;
        var s, e := l.d.r.size, r.book.entry;
        PaidIs(UpdateMark(l.d.a, i, close), i, s, close, rate);
        SameSide(r.book.position, s);
        RatioScales(s, e, r.book.position, close, rate, r.book);
        RatioAdds(Ratio(s, e), r.book.funding, H.FundingPaid(r.book, NOTIONAL, close, rate));
      }
    }
  }

  lemma HeldBook<S>(r: H.Run<S>, l: Live<S>, i: int)
    requires Rel(r, l, i) && BothOpen(r, l, i)
    ensures l.d.r.size != 0.0 && l.d.r.size * r.book.position >= 0.0 && H.BookOk(r.book)
  {
    hide Ok, EntryQuantity, Ratio;
    QuantityPositive(r.book.entry);
    SameSide(r.book.position, l.d.r.size);
  }

  lemma SameSide(p: real, s: real)
    ensures (p == 1.0 ==> s * p == s) && (p == -1.0 ==> s * p == -s)
  {
  }

  lemma PaidIs(a: Account, i: int, s: real, close: real, rate: real)
    requires Size(a, i) == s && MarkOf(a, i) == close
    ensures FundingPaid(a, i, rate) == -s * close * rate
  {
  }

  // ----- the protective exits -----

  /** The backtest's position in contracts, before rounding. */
  lemma BookSizeIs(b: H.HBook, p: real, e: real, s: real)
    requires b.position == p && b.entry == e && (p == 1.0 || p == -1.0) && e > 0.0 && s != 0.0
    ensures var h := H.BookSize(b, NOTIONAL);
      (h > 0.0 <==> p > 0.0) && h != 0.0 && Ratio(s, e) * Abs(h) == Abs(s) && Ratio(s, e) > 0.0
  {
    var h := H.BookSize(b, NOTIONAL);
    assert h == p * NOTIONAL / e;
    assert h * e == p * NOTIONAL;
    assert p > 0.0 ==> h > 0.0 by { if p > 0.0 { PositiveFactor(NOTIONAL, e, h); } }
    assert p < 0.0 ==> h < 0.0 by { if p < 0.0 { PositiveFactor(NOTIONAL, e, -h); } }
    assert Abs(h) * e == NOTIONAL;
    var ratio := Ratio(s, e);
    assert ratio * NOTIONAL == Abs(s) * e;
    RatioCancel(ratio, Abs(h), e, Abs(s));
  }

  lemma PositiveFactor(x: real, e: real, h: real)
    requires x > 0.0 && e > 0.0 && h * e == x
    ensures h > 0.0
  {
  }

  lemma RatioCancel(ratio: real, h: real, e: real, abs: real)
    requires h * e == NOTIONAL && ratio * NOTIONAL == abs * e && e > 0.0 && abs > 0.0
    ensures ratio * h == abs && ratio > 0.0
  {
    assert (ratio * h) * e == ratio * NOTIONAL;
    assert (ratio * h - abs) * e == 0.0;
  }

  lemma ScaledDue(ratio: real, f: real, due: real)
    requires ratio > 0.0
    ensures -f >= due <==> -(ratio * f) >= ratio * due
  {
    assert -(ratio * f) - ratio * due == ratio * (-f - due);
  }

  lemma DueTerms(ratio: real, h: real, abs: real, close: real)
    requires ratio * h == abs
    ensures ratio * (MAX_FUNDING_COST * (h * close)) == MAX_FUNDING_COST * (abs * close)
  {
    assert ratio * (MAX_FUNDING_COST * (h * close)) == MAX_FUNDING_COST * ((ratio * h) * close);
  }

  /** The backtest's guards and the router's agree on the same position. */
  lemma GuardsAgree<S>(r: H.Run<S>, l: Live<S>, i: int, close: real)
    requires Rel(r, l, i) && BothOpen(r, l, i) && Sizable(close) && i in l.d.a.marks && l.d.a.marks[i] == close
    ensures H.GuardExit(r.book, NOTIONAL, close) <==>
              TooClose(View(l.d.a, i), close) || FundingExitDue(View(l.d.a, i))
  {
    hide Ok, EntryQuantity, Ratio, Cents, H.BookSize;
    HeldBook(r, l, i);
    var p, e, s := r.book.position, r.book.entry, l.d.r.size;
    SameSide(p, s);
    BookSizeIs(r.book, p, e, s);
    var h := H.BookSize(r.book, NOTIONAL);
    var ratio := Ratio(s, e);
    var due := MAX_FUNDING_COST * (Abs(h) * close);
    DueTerms(ratio, Abs(h), Abs(s), close);
    ScaledDue(ratio, r.book.funding, due);
    assert FundingExitDue(H.BookView(r.book, NOTIONAL, close)) <==> -r.book.funding >= due;
    assert FundingExitDue(View(l.d.a, i)) <==> -(ratio * r.book.funding) >= MAX_FUNDING_COST * (Abs(s) * close);
    assert LiquidationPrice(h, e) == LiquidationPrice(s, e);
  }

  /** Nothing queued, nothing to deliver. */
  lemma NothingToDrain<S>(l: Live<S>, strategy: H.Strategy<S>, ts: int)
    requires l.d.a.queue == []
    ensures Drain(l, strategy, ts) == l
  {
  }

  /** At the close, with the fast loop run: the router left exactly when the backtest's guards say so. */
  lemma FastParity<S>(r: H.Run<S>, l: Live<S>, z: H.Settings, strategy: H.Strategy<S>, bar: Bar, next: Bar, i: int)
    requires Rel(r, l, i) && z.costs.notional == NOTIONAL && FullyPriced(bar) && i in l.d.a.marks && l.d.a.marks[i] == bar.close.value
    requires H.PricesOk(bar)
    ensures var l2 := FastTick(l, strategy, bar, next.openTs);
      && Rel(H.GuardPhase(r, z, strategy, bar, next), l2, i)
      && i in l2.d.a.marks && l2.d.a.marks[i] == bar.close.value
      && (l2 == l || (BothOpen(r, l, i) && LeftBehind(l, l2, strategy, i, l.d.r.size, next.openTs)))
  {
    hide Ok, NoFailures, H.TradeTo, Exit, Drain, EntryQuantity, Ratio, H.BookOk, H.GuardExit, TooClose, FundingExitDue, View, Views, Sim.Equity, Find;
    var close := bar.close.value;
    NoHook(l, strategy, l.d);
    NothingToDrain(l, strategy, next.openTs);
    if BothOpen(r, l, i) {
      OpenIsHolding(r, l, i);
      BookIsOk(r, l, i);
      GuardsAgree(r, l, i, close);
      SnapshotPosition(l.d.a, i);
      if H.GuardExit(r.book, NOTIONAL, close) {
        ExitDelivered(l, strategy, i, close, next.openTs);
        HarnessFlattens(r, l, FastTick(l, strategy, bar, next.openTs), z.costs, strategy, i, close, bar.spreadBps, next.openTs, H.GuardRow);
      }
    }
  }

  lemma BookIsOk<S>(r: H.Run<S>, l: Live<S>, i: int)
    requires Rel(r, l, i)
    ensures H.BookOk(r.book)
  {
  }

  // ----- the bar cycle -----

  /** A recorded decision without an order changes nothing the relation looks at. */
  lemma SkipRel<S>(r: H.Run<S>, l: Live<S>, strategy: H.Strategy<S>, i: int, ts: int)
    requires Rel(r, l, i)
    ensures Rel(r, Drain(WithDesk(l, strategy, Skip(l.d)), strategy, ts), i)
  {
    hide Ok, NoFailures, Drain, WithDesk, EntryQuantity, Ratio, StopPrice;
    NoHook(l, strategy, Skip(l.d));
    NothingToDrain(l.(d := Skip(l.d)), strategy, ts);
  }

  /** No minute closes: every fill is at the next hourly open. */
  predicate HourlyFills(z: H.Settings) {
    z.costs.notional == NOTIONAL && z.closes == map[]
  }

  lemma FillsAtOpen(z: H.Settings, next: Bar)
    requires HourlyFills(z) && next.open.Some?
    ensures H.FillSource(z, next) == H.AtHourlyOpen && H.FillPrice(z, next) == next.open.value
  {
    hide H.BisectRight, H.FloorMinute;
  }

  /** An incomplete bar: flat at its close on both sides. */
  lemma GapParity<S>(r: H.Run<S>, l: Live<S>, z: H.Settings, strategy: H.Strategy<S>, categories: map<int, Category>,
                     history: seq<Bar>, bar: Bar, next: Bar, i: int)
    requires Rel(r, l, i) && HourlyFills(z) && FullyPriced(bar) && H.PricesOk(bar) && !bar.complete
    requires i in l.d.a.marks && l.d.a.marks[i] == bar.close.value
    ensures var l2 := FastTick(l, strategy, bar, next.openTs);
      Rel(H.GapPhase(r, z, strategy, bar, next), BarTick(l2, strategy, categories, history, bar, next.openTs), i)
  {
    hide Ok, NoFailures, H.TradeTo, Exit, Drain, EntryQuantity, Ratio, H.BookOk, FastTick, WithDesk, LeftBehind, EntryIntent, Skip, Snapshot, StopPrice;
    var ts := next.openTs;
    BookIsOk(r, l, i);
    FastParity(r, l, z, strategy, bar, next, i);
    var l2 := FastTick(l, strategy, bar, ts);
    if BothFlat(r, l, i) {
      SkipRel(r, l, strategy, i, ts);
    } else {
      OpenIsHolding(r, l, i);
      if l2 == l {
        ExitDelivered(l, strategy, i, bar.close.value, ts);
        HarnessFlattens(r, l, Drain(WithDesk(l, strategy, Exit(l.d, l.d.r.size, bar.close.value, ts)), strategy, ts), z.costs, strategy, i,
                        bar.close.value, bar.spreadBps, ts, H.GapRow);
      } else {
        HarnessFlattens(r, l, l2, z.costs, strategy, i, bar.close.value, bar.spreadBps, ts, H.GapRow);
        LeftIsFlat(l, l2, strategy, i, l.d.r.size, ts);
        SkipRel(H.GapPhase(r, z, strategy, bar, next), l2, strategy, i, ts);
      }
    }
  }

  lemma LeftIsFlat<S>(l: Live<S>, l2: Live<S>, strategy: H.Strategy<S>, i: int, size: real, ts: int)
    requires LeftBehind(l, l2, strategy, i, size, ts)
    ensures l2.d.r.state == Flat
  {
    hide Ok;
  }

  lemma OpeningEntry(p: real, entry: real, price: real)
    requires (p == 1.0 || p == -1.0) && price > 0.0
    ensures H.AverageCost(0.0, entry, p - 0.0, price, p) == price
  {
    assert 0.0 * entry == 0.0;
  }

  /** Opening the backtest's book records the same trade the router's entry does. */
  lemma HarnessEnters<S>(r: H.Run<S>, l: Live<S>, l2: Live<S>, c: H.CostModel, strategy: H.Strategy<S>, i: int, p: real, price: real,
                         spreadBps: real, ts: int, kind: H.Kind)
    requires c.notional == NOTIONAL && Rel(r, l, i) && BothFlat(r, l, i) && Sizable(price) && (p == 1.0 || p == -1.0)
    requires Entered(l, l2, i, p * EntryQuantity(price), price, ts)
    ensures Rel(H.TradeTo(r, c, strategy, p, price, spreadBps, ts, kind), l2, i)
  {
    hide Alone, Calm, EntryQuantity, H.Units, H.TradeCost, H.OpeningValue, H.Equity, H.AverageCost, StopPrice;
    QuantityPositive(price);
    SameSide(p, EntryQuantity(price));
    SameContracts(p, price);
    OpeningEntry(p, r.book.entry, price);
    NoRatio(p * EntryQuantity(price), price);
  }

  lemma NoRatio(s: real, e: real)
    ensures Ratio(s, e) * 0.0 == 0.0
  {
  }

  predicate UnitTarget(target: real) {
    var t := Clamp(target);
    t == 0.0 || t == 1.0 || t == -1.0
  }

  /** From flat: nothing, or the full-size entry. */
  lemma FlatDecision<S>(r: H.Run<S>, l: Live<S>, z: H.Settings, strategy: H.Strategy<S>, categories: map<int, Category>,
                        target: real, bar: Bar, next: Bar, i: int)
    requires Rel(r, l, i) && BothFlat(r, l, i) && HourlyFills(z) && FullyPriced(bar) && bar.complete && H.PricesOk(next)
    requires i in l.d.a.marks && l.d.a.marks[i] == bar.close.value && next.open == bar.close && UnitTarget(target)
    requires Affords(Sim.Equity(l.d.a)) && H.BookOk(r.book)
    ensures Rel(H.FillPhase(r, z, strategy, H.Wanted(r.book.position, Clamp(target)), bar, next),
                Drain(WithDesk(l, strategy, OnBar(l.d, BarInput(bar.close, true, true, target), Snapshot(l.d.a), KeepRunning, categories, [], next.openTs)),
                      strategy, next.openTs), i)
  {
    hide Ok, NoFailures, H.TradeTo, Send, Drain, WithDesk, EntryQuantity, Ratio, EntryIntent, Skip, Sim.Equity, Views, H.FillSource, H.FillPrice,
      H.Log, Entered, StopPrice, Clamp, Affords;
    var t := Clamp(target);
    var mark := bar.close.value;
    if t == 0.0 {
      SkipRel(r, l, strategy, i, next.openTs);
    } else {
      FillsAtOpen(z, next);
      forall j ensures Size(l.d.a, j) == 0.0 {}
      NoViews(l.d.a, l.d.a.ids);
      var side := if t > 0.0 then Buy else Sell;
      FullEntry(i, side, mark, Snapshot(l.d.a), categories);
      EntryDelivered(l, strategy, i, side, mark, next.openTs);
      SameSide(t, EntryQuantity(mark));
      var counted := r.(report := r.report.(
        atHourlyOpen := r.report.atHourlyOpen + (if H.FillSource(z, next) == H.AtHourlyOpen then 1 else 0),
        atLastTrade := r.report.atLastTrade + (if H.FillSource(z, next) == H.AtLastTrade then 1 else 0)));
      HarnessEnters(counted, l,
                    Drain(WithDesk(l, strategy, Send(l.d, Intent(i, side, EntryQuantity(mark), NOTIONAL, false), next.openTs)), strategy, next.openTs),
                    z.costs, strategy, i, t, mark, bar.spreadBps, next.openTs, H.FillRow);
    }
  }

  /** From a position: hold, or leave on a zero target and on a flip. */
  lemma OpenDecision<S>(r: H.Run<S>, l: Live<S>, z: H.Settings, strategy: H.Strategy<S>, categories: map<int, Category>,
                        target: real, bar: Bar, next: Bar, i: int)
    requires Rel(r, l, i) && BothOpen(r, l, i) && HourlyFills(z) && FullyPriced(bar) && bar.complete && H.PricesOk(next)
    requires next.open == bar.close && UnitTarget(target) && H.BookOk(r.book)
    ensures Rel(H.FillPhase(r, z, strategy, H.Wanted(r.book.position, Clamp(target)), bar, next),
                Drain(WithDesk(l, strategy, OnBar(l.d, BarInput(bar.close, true, true, target), Snapshot(l.d.a), KeepRunning, categories, [], next.openTs)),
                      strategy, next.openTs), i)
  {
    hide Ok, NoFailures, H.TradeTo, Exit, Drain, WithDesk, EntryQuantity, Ratio, EntryIntent, Skip, Snapshot, H.FillSource, H.FillPrice,
      H.Log, LeftBehind, StopPrice, Clamp;
    var t := Clamp(target);
    OpenIsHolding(r, l, i);
    if t == r.book.position {
      SkipRel(r, l, strategy, i, next.openTs);
    } else {
      FillsAtOpen(z, next);
      var mark := bar.close.value;
      ExitDelivered(l, strategy, i, mark, next.openTs);
      var counted := r.(report := r.report.(
        atHourlyOpen := r.report.atHourlyOpen + (if H.FillSource(z, next) == H.AtHourlyOpen then 1 else 0),
        atLastTrade := r.report.atLastTrade + (if H.FillSource(z, next) == H.AtLastTrade then 1 else 0)));
      HarnessFlattens(counted, l, Drain(WithDesk(l, strategy, Exit(l.d, l.d.r.size, mark, next.openTs)), strategy, next.openTs),
                      z.costs, strategy, i, mark, bar.spreadBps, next.openTs, H.FillRow);
    }
  }

  /** The strategy is asked on both sides with the same state and the same history. */
  lemma DecideParity<S>(r: H.Run<S>, l: Live<S>, z: H.Settings, strategy: H.Strategy<S>, categories: map<int, Category>,
                        history: seq<Bar>, bar: Bar, next: Bar, i: int)
    requires Rel(r, l, i) && HourlyFills(z) && FullyPriced(bar) && bar.complete && H.PricesOk(next) && H.BookOk(r.book)
    requires i in l.d.a.marks && l.d.a.marks[i] == bar.close.value && next.open == bar.close
    requires UnitTarget(strategy.target(l.strategy, history).1)
    requires l.d.r.state == Flat ==> Affords(Sim.Equity(l.d.a))
    ensures Rel(H.DecidePhase(r, z, strategy, history, bar, next), BarTick(l, strategy, categories, history, bar, next.openTs), i)
  {
    hide Ok, NoFailures, OnBar, Drain, WithDesk, EntryQuantity, Ratio, Sim.Equity, Snapshot, H.FillPhase, H.Wanted, Clamp, UnitTarget, Affords, StopPrice;
    var (s, target) := strategy.target(l.strategy, history);
    var r1, l1 := r.(strategy := s), l.(strategy := s);
    assert Rel(r1, l1, i);
    if BothFlat(r, l, i) {
      FlatDecision(r1, l1, z, strategy, categories, target, bar, next, i);
    } else {
      OpenDecision(r1, l1, z, strategy, categories, target, bar, next, i);
    }
  }

  // ----- whole runs -----

  lemma MarkRel<S>(r: H.Run<S>, l: Live<S>, c: H.CostModel, ts: int, price: Option<real>, i: int)
    requires Rel(r, l, i) && c.notional != 0.0
    ensures Rel(H.Mark(r, c, ts, price), l, i)
  {
    hide Ok, NoFailures, EntryQuantity, Ratio, StopPrice, H.Equity;
  }

  lemma OpeningParity<S>(r: H.Run<S>, l: Live<S>, z: H.Settings, strategy: H.Strategy<S>, bar: Bar, i: int)
    requires Rel(r, l, i) && z.costs.notional == NOTIONAL && FullyPriced(bar) && H.BookOk(r.book)
    ensures var l1 := CloseTick(StopTick(l, strategy, bar), bar);
      && Rel(H.Opening(r, z, strategy, bar), l1, i)
      && i in l1.d.a.marks && l1.d.a.marks[i] == bar.close.value
  {
    hide Rel, H.StopPhase, H.FundingPhase, StopTick, CloseTick, H.StopHit;
    StopParity(r, l, z, strategy, bar, i);
    BookIsOk(H.StopPhase(r, z, strategy, bar), StopTick(l, strategy, bar), i);
    FundingParity(H.StopPhase(r, z, strategy, bar), StopTick(l, strategy, bar), z, bar, i);
  }

  /** One bar. */
  lemma StepParity<S>(r: H.Run<S>, l: Live<S>, z: H.Settings, strategy: H.Strategy<S>, categories: map<int, Category>,
                      bars: seq<Bar>, t: nat, i: int)
    requires Rel(r, l, i) && HourlyFills(z) && H.InputsOk(z, bars) && AllPriced(bars) && t + 1 < |bars|
    requires H.BookOk(r.book) && bars[t + 1].open == bars[t].close
    requires var l2 := BeforeDecision(l, strategy, bars, t);
      && UnitTarget(strategy.target(l2.strategy, bars[..t + 1]).1)
      && (l2.d.r.state == Flat ==> Affords(Sim.Equity(l2.d.a)))
    ensures Rel(H.StepBar(r, z, strategy, bars, t), StepLive(l, strategy, categories, bars, t), i)
  {
    hide Rel, H.Opening, StopTick, CloseTick, FastTick, BarTick, H.GapPhase, H.GuardPhase, H.DecidePhase, H.Mark, UnitTarget, Affords, Sim.Equity, H.BookOk;
    var bar, next := bars[t], bars[t + 1];
    var ts := next.openTs;
    OpeningParity(r, l, z, strategy, bar, i);
    var r1 := H.Opening(r, z, strategy, bar);
    var l1 := CloseTick(StopTick(l, strategy, bar), bar);
    H.GuardKeepsBook(r1, z, strategy, bar, next);
    if !bar.complete {
      GapParity(r1, l1, z, strategy, categories, bars[..t + 1], bar, next, i);
      MarkRel(H.GapPhase(r1, z, strategy, bar, next), StepLive(l, strategy, categories, bars, t), z.costs, ts, next.close, i);
    } else {
      FastParity(r1, l1, z, strategy, bar, next, i);
      var r2 := H.GuardPhase(r1, z, strategy, bar, next);
      DecideParity(r2, BeforeDecision(l, strategy, bars, t), z, strategy, categories, bars[..t + 1], bar, next, i);
      MarkRel(H.DecidePhase(r2, z, strategy, bars[..t + 1], bar, next), StepLive(l, strategy, categories, bars, t), z.costs, ts, next.close, i);
    }
  }

  /** Every bar's next open is its close. */
  predicate OpensAtClose(bars: seq<Bar>) {
    forall t :: 0 <= t < |bars| - 1 ==> bars[t + 1].open == bars[t].close
  }

  /** At every decision the strategy answers -1, 0 or +1, and a flat router's account affords the fixed order. */
  ghost predicate PlainDecisions<S>(l: Live<S>, strategy: H.Strategy<S>, categories: map<int, Category>, bars: seq<Bar>)
    requires AllPriced(bars)
  {
    forall t :: 0 <= t < |bars| - 1 ==>
      var l2 := BeforeDecision(LiveAt(l, strategy, categories, bars, t), strategy, bars, t);
      && UnitTarget(strategy.target(l2.strategy, bars[..t + 1]).1)
      && (l2.d.r.state == Flat ==> Affords(Sim.Equity(l2.d.a)))
  }

  /** An account and a database on which nothing has happened. */
  ghost predicate FreshDesk(a: Account, db: Db) {
    && Ok(a) && a.pos == map[] && a.queue == [] && a.resting == [] && NoFailures(a)
    && forall c :: c in db.orders ==> c.Ours?
  }

  lemma StartRel<S>(i: int, a: Account, db: Db, s: S)
    requires FreshDesk(a, db)
    ensures Rel(H.Start(s), StartLive(i, a, db, s), i)
  {
    hide Ok;
  }

  lemma {:induction false} RunParity<S>(z: H.Settings, strategy: H.Strategy<S>, categories: map<int, Category>, bars: seq<Bar>,
                                        i: int, a: Account, db: Db, s: S, t: nat)
    requires HourlyFills(z) && H.InputsOk(z, bars) && AllPriced(bars) && OpensAtClose(bars) && FreshDesk(a, db)
    requires PlainDecisions(StartLive(i, a, db, s), strategy, categories, bars) && (t > 0 ==> t < |bars|)
    ensures Rel(B.At(z, strategy, s, bars, 0, t), LiveAt(StartLive(i, a, db, s), strategy, categories, bars, t), i)
    decreases t
  {
    hide Rel, H.StepBar, StepLive, BeforeDecision, UnitTarget, Affords, Sim.Equity, H.BookOk, FreshDesk, H.InputsOk, AllPriced, StartLive;
    if t == 0 {
      StartRel(i, a, db, s);
    } else {
      RunParity(z, strategy, categories, bars, i, a, db, s, t - 1);
      StepParity(B.At(z, strategy, s, bars, 0, t - 1), LiveAt(StartLive(i, a, db, s), strategy, categories, bars, t - 1),
                 z, strategy, categories, bars, t - 1, i);
    }
  }

  /** Parity. For every fully priced bar sequence whose next open is the close, without minute closes, with targets
      in {-1, 0, +1}, warm-up 0, every fill delivered at once and equity that affords the fixed order whenever the
      router is flat, the backtest and the router on the simulated venue make the same trades - same times, sides
      and quantities - through stops, funding exits, liquidation-distance exits, gap exits and flips. */
  lemma SameTrades<S>(z: H.Settings, strategy: H.Strategy<S>, categories: map<int, Category>, bars: seq<Bar>,
                      i: int, a: Account, db: Db, s: S)
    requires HourlyFills(z) && H.InputsOk(z, bars) && AllPriced(bars) && OpensAtClose(bars) && FreshDesk(a, db)
    requires PlainDecisions(StartLive(i, a, db, s), strategy, categories, bars)
    ensures B.RunBacktest(z, strategy, s, bars, 0).report.trades
         == LiveAt(StartLive(i, a, db, s), strategy, categories, bars, B.LastBar(bars, 0)).trades
  {
    hide B.At, LiveAt, H.InputsOk, AllPriced, OpensAtClose, FreshDesk, PlainDecisions, Calm, Alone, BothFlat, BothOpen;
    RunParity(z, strategy, categories, bars, i, a, db, s, B.LastBar(bars, 0));
  }
}
