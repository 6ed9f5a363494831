/** The exposure caps hold across one portfolio bar although every order sent earlier in the same bar is still
    in flight, and although three roundings lie between a cap and the quantity sent. */
module Caps {
  import opened Types
  import opened Guards
  import opened Sizing
  import opened Sim
  import opened Routing
  import opened Runtime
  import opened Portfolio

  const HALF_CENT := 0.005

  // ----- one entry -----

  /** What an order is worth at a price. */
  function Worth(quantity: real, mark: real): real {
    quantity * mark
  }

  lemma WorthMono(p: real, q: real, mark: real)
    requires p <= q && mark > 0.0
    ensures Worth(p, mark) <= Worth(q, mark)
  {
  }

  lemma WorthStrict(p: real, q: real, mark: real)
    requires p < q && mark > 0.0
    ensures Worth(p, mark) < Worth(q, mark)
  {
  }

  lemma FloorWorth(x: real, mark: real)
    requires mark > 0.0 && x >= 0.0
    ensures Worth(FloorQ(x / mark), mark) <= x < Worth(FloorQ(x / mark), mark) + QUANTUM * mark
  {
    var y := x / mark;
    var q := FloorQ(y);
    assert y * mark == x;
    WorthMono(q, y, mark);
    WorthStrict(y, q + QUANTUM, mark);
    assert (q + QUANTUM) * mark == q * mark + QUANTUM * mark;
  }

  lemma ScaledIsWorth(notional: real, q: real, q0: real)
    requires q0 > 0.0
    ensures Scaled(notional, q, q0) == Worth(q, notional / q0)
  {
  }

  /** The fixed size is worth at most the fixed notional, so a scaled notional is at least the order's worth,
      and exceeds it by no more than one quantum. */
  lemma ScaledCoversWorth(q: real, q0: real, mark: real)
    requires mark > 0.0 && 0.0 <= q <= q0 && q0 > 0.0
    requires Worth(q0, mark) <= NOTIONAL < Worth(q0, mark) + QUANTUM * mark
    ensures Worth(q, mark) <= Scaled(NOTIONAL, q, q0) <= Worth(q, mark) + QUANTUM * mark
  {
    var f := q / q0;
    assert 0.0 <= f <= 1.0 by { FractionBelowOne(q, q0); }
    assert f * q0 == q;
    assert Scaled(NOTIONAL, q, q0) == NOTIONAL * f;
    assert Worth(q, mark) == f * Worth(q0, mark);
    var gap := NOTIONAL - Worth(q0, mark);
    assert 0.0 <= gap <= QUANTUM * mark;
    assert NOTIONAL * f - f * Worth(q0, mark) == f * gap;
    FractionOf(f, gap);
  }

  lemma FractionBelowOne(q: real, q0: real)
    requires 0.0 <= q <= q0 && q0 > 0.0
    ensures 0.0 <= q / q0 <= 1.0
  {
    assert (q / q0) * q0 == q;
  }

  lemma FractionOf(f: real, gap: real)
    requires 0.0 <= f <= 1.0 && gap >= 0.0
    ensures 0.0 <= f * gap <= gap
  {
  }

  /** What is already used: positions and the entries still in flight. */
  function Used(snap: AccountSnapshot, pending: seq<Intent>): real {
    PositionNotional(snap.positions) + EntryNotional(pending)
  }

  function ClusterUsed(snap: AccountSnapshot, categories: map<int, Category>, pending: seq<Intent>, c: nat): real {
    ClusterPositions(snap.positions, categories, c) + ClusterEntries(pending, categories, c)
  }

  /** The leverage guard as bounds on a quantity. */
  lemma EntryBound(intent: Intent, mark: real, equity: real, positions: seq<PositionView>, pending: seq<Intent>, q: real)
    requires mark > 0.0 && intent.notional > 0.0 && 0.0 <= q && Worth(q, mark) <= intent.notional
    requires var v := VetEntry(intent, mark, equity, positions, pending); !v.Reject? && (v.Resize? ==> q <= v.quantity)
    ensures var used := PositionNotional(positions) + EntryNotional(pending);
      used + Worth(q, mark) <= MAX_LEVERAGE * equity
      && used + Worth(q, mark) <= 1.0 / (MIN_LIQ_DISTANCE + MAINTENANCE_RATE) * equity
  {
    hide PositionNotional, EntryNotional, FloorQ, Worth;
    var used := PositionNotional(positions) + EntryNotional(pending);
    var allowed := Min(Min(intent.notional, MAX_LEVERAGE * equity - used), 1.0 / (MIN_LIQ_DISTANCE + MAINTENANCE_RATE) * equity - used);
    if VetEntry(intent, mark, equity, positions, pending).Resize? {
      FloorWorth(allowed, mark);
      WorthMono(q, FloorQ(allowed / mark), mark);
    }
  }

  lemma ExposureBound(intent: Intent, equity: real, positions: seq<PositionView>, categories: map<int, Category>,
                      pending: seq<Intent>, q: real, price: real)
    requires intent.notional > 0.0 && intent.quantity > 0.0 && price == intent.notional / intent.quantity && price > 0.0
    requires 0.0 <= q && Worth(q, price) <= intent.notional
    requires var v := VetExposure(intent, equity, positions, categories, pending); !v.Reject? && (v.Resize? ==> q <= v.quantity)
    ensures var used := PositionNotional(positions) + EntryNotional(pending);
      var c := ClusterOf(categories, intent.iid);
      var net := ClusterPositions(positions, categories, c) + ClusterEntries(pending, categories, c);
      used + Worth(q, price) <= GROSS_CAP * equity && Signed(intent.side, net) + Worth(q, price) <= CLUSTER_CAP * equity
  {
    hide PositionNotional, EntryNotional, ClusterPositions, ClusterEntries, ClusterOf, FloorQ, Worth;
    var used := PositionNotional(positions) + EntryNotional(pending);
    var c := ClusterOf(categories, intent.iid);
    var net := ClusterPositions(positions, categories, c) + ClusterEntries(pending, categories, c);
    var allowed := Min(Min(intent.notional, GROSS_CAP * equity - used), CLUSTER_CAP * equity - Signed(intent.side, net));
    if VetExposure(intent, equity, positions, categories, pending).Resize? {
      FloorWorth(allowed, price);
      WorthMono(q, FloorQ(allowed / price), price);
    }
  }

  /** The order that leaves: it fits under every cap, its recorded notional is its worth up to one quantum and
      half a cent, and never half a cent less than its worth. */
  lemma EntryFits(i: int, side: Side, mark: real, snap: AccountSnapshot, categories: map<int, Category>, pending: seq<Intent>)
    requires PriceOk(mark) && EntryIntent(i, side, mark, snap, categories, pending).Some?
    ensures var x := EntryIntent(i, side, mark, snap, categories, pending).value;
      var w := Worth(x.quantity, mark);
      var used := Used(snap, pending);
      var net := ClusterUsed(snap, categories, pending, ClusterOf(categories, i));
      && x.iid == i && x.side == side && !x.reduceOnly && x.quantity >= 0.0
      && used + w <= MAX_LEVERAGE * snap.equity
      && used + w <= 1.0 / (MIN_LIQ_DISTANCE + MAINTENANCE_RATE) * snap.equity
      && used + w <= GROSS_CAP * snap.equity
      && used + x.notional <= GROSS_CAP * snap.equity + HALF_CENT
      && Signed(side, net) + x.notional <= CLUSTER_CAP * snap.equity + HALF_CENT
      && 0.0 <= w && 0.0 <= x.notional && w - HALF_CENT <= x.notional <= w + QUANTUM * mark + HALF_CENT
      && (x.quantity == EntryQuantity(mark) ==> w <= x.notional)
  {
    hide PositionNotional, EntryNotional, ClusterPositions, ClusterEntries, ClusterOf, EntryQuantity, EntryIntent, VetEntry, VetExposure,
      ApplyGuards, Worth, Cents, Used, ClusterUsed;
    EntryIntentShape(i, side, mark, snap, categories, pending);
    EntryIs(i, side, mark, snap, categories, pending);
    var intent := PlainEntry(i, side, mark);
    var (v1, v2) := EntryVerdicts(intent, mark, snap, categories, pending);
    TwoVerdicts(intent, v1, v2);
    if intent.quantity > 0.0 {
      SizedEntryFits(intent, v1, v2, mark, snap, categories, pending);
    } else {
      VerdictQuantities(intent, mark, snap.equity, snap.positions, categories, pending);
      NoWorth(mark);
      EmptyEntryFits(intent, mark, snap, categories, pending);
    }
  }

  /** The bounds on an order of quantity q recorded at a notional. */
  ghost predicate Fits(side: Side, q: real, notional: real, mark: real, equity: real, used: real, net: real) {
    var w := Worth(q, mark);
    && used + w <= MAX_LEVERAGE * equity
    && used + w <= 1.0 / (MIN_LIQ_DISTANCE + MAINTENANCE_RATE) * equity
    && used + w <= GROSS_CAP * equity
    && used + notional <= GROSS_CAP * equity + HALF_CENT
    && Signed(side, net) + notional <= CLUSTER_CAP * equity + HALF_CENT
    && 0.0 <= w && 0.0 <= notional && w - HALF_CENT <= notional <= w + QUANTUM * mark + HALF_CENT
  }

  /** At a price that buys nothing only an entry both guards allow in full survives, recorded at the full notional. */
  lemma EmptyEntryFits(intent: Intent, mark: real, snap: AccountSnapshot, categories: map<int, Category>, pending: seq<Intent>)
    requires PriceOk(mark) && intent == PlainEntry(intent.iid, intent.side, mark) && intent.quantity == 0.0
    requires !VetEntry(intent, mark, snap.equity, snap.positions, pending).Reject?
    requires VetExposure(intent, snap.equity, snap.positions, categories, pending).Allow?
    ensures Fits(intent.side, 0.0, NOTIONAL, mark, snap.equity, Used(snap, pending),
                 ClusterUsed(snap, categories, pending, ClusterOf(categories, intent.iid)))
  {
    hide PositionNotional, EntryNotional, ClusterPositions, ClusterEntries, ClusterOf, FloorQ, Worth;
    NoWorth(mark);
    assert QUANTUM * mark > NOTIONAL by { assert mark > LARGEST_PRICE; }
  }

  /** The intent the guards leave of a fixed order of some quantity. */
  lemma SizedEntryFits(intent: Intent, v1: Verdict, v2: Verdict, mark: real, snap: AccountSnapshot, categories: map<int, Category>, pending: seq<Intent>)
    requires PriceOk(mark) && intent == PlainEntry(intent.iid, intent.side, mark) && intent.quantity > 0.0
    requires (v1, v2) == EntryVerdicts(intent, mark, snap, categories, pending) && ApplyGuards(intent, [v1, v2]).Some?
    ensures var x := ApplyGuards(intent, [v1, v2]).value;
      Fits(x.side, x.quantity, x.notional, mark, snap.equity, Used(snap, pending),
           ClusterUsed(snap, categories, pending, ClusterOf(categories, x.iid)))
      && (x.quantity == intent.quantity ==> Worth(x.quantity, mark) <= x.notional)
  {
    hide PositionNotional, EntryNotional, ClusterPositions, ClusterEntries, ClusterOf, VetEntry, VetExposure, FloorQ, Worth, Cents;
    var q0 := intent.quantity;
    FloorWorth(NOTIONAL, mark);
    TwoVerdicts(intent, v1, v2);
    VerdictQuantities(intent, mark, snap.equity, snap.positions, categories, pending);
    var x := ApplyGuards(intent, [v1, v2]).value;
    var q := x.quantity;
    var price := NOTIONAL / q0;
    PricePositive(q0);
    ScaledIsWorth(NOTIONAL, q0, q0);
    WholeIsWhole(q0);
    WorthMono(q, q0, price);
    WorthMono(q, q0, mark);
    EntryBound(intent, mark, snap.equity, snap.positions, pending, q);
    ExposureBound(intent, snap.equity, snap.positions, categories, pending, q, price);
    ScaledCoversWorth(q, q0, mark);
    ScaledIsWorth(NOTIONAL, q, q0);
    assert x.notional == if q == q0 then NOTIONAL else Cents(Scaled(NOTIONAL, q, q0));
    CentsNear(Scaled(NOTIONAL, q, q0));
    WorthMono(0.0, q, mark);
    NoWorth(mark);
  }

  lemma NoWorth(mark: real)
    ensures Worth(0.0, mark) == 0.0
  {
  }

  lemma CentsNear(x: real)
    ensures x - HALF_CENT <= Cents(x) <= x + HALF_CENT
    ensures x >= 0.0 ==> Cents(x) >= 0.0
  {
  }

  lemma PricePositive(q0: real)
    requires q0 > 0.0
    ensures NOTIONAL / q0 > 0.0
  {
  }

  lemma WholeIsWhole(q0: real)
    requires q0 > 0.0
    ensures Scaled(NOTIONAL, q0, q0) == NOTIONAL
  {
  }

  // ----- sums over the routed instruments -----

  function At(m: map<int, real>, i: int): real {
    if i in m then m[i] else 0.0
  }

  function Sum(ids: seq<int>, m: map<int, real>): real {
    if ids == [] then 0.0 else At(m, ids[0]) + Sum(ids[1..], m)
  }

  lemma {:induction false} SumSame(ids: seq<int>, m: map<int, real>, m2: map<int, real>)
    requires forall i :: i in ids ==> At(m, i) == At(m2, i)
    ensures Sum(ids, m) == Sum(ids, m2)
  {
    if ids != [] { SumSame(ids[1..], m, m2); }
  }

  lemma {:induction false} SumChange(ids: seq<int>, m: map<int, real>, m2: map<int, real>, i: int)
    requires Distinct(ids) && i in ids && forall j :: j != i ==> At(m, j) == At(m2, j)
    ensures Sum(ids, m2) == Sum(ids, m) + At(m2, i) - At(m, i)
  {
    if ids[0] == i { SumSame(ids[1..], m, m2); } else { SumChange(ids[1..], m, m2, i); }
  }

  // ----- what a router in flight weighs -----

  function Recorded(r: Router): real {
    if InFlight(r) && !r.pendingIntent.value.reduceOnly then r.pendingIntent.value.notional else 0.0
  }

  function RecordedNet(r: Router, categories: map<int, Category>, c: nat): real {
    if InFlight(r) && !r.pendingIntent.value.reduceOnly && ClusterOf(categories, r.pendingIntent.value.iid) == c
    then Signed(r.pendingIntent.value.side, r.pendingIntent.value.notional) else 0.0
  }

  /** An entry sent in this bar: the router was not waiting for one before, and its bar had this close. */
  predicate SentNow(w0: World, closes: map<int, real>, r: Router) {
    InFlight(r) && r.iid in closes && r.iid in w0.routers && !InFlight(w0.routers[r.iid])
  }

  /** Quantity times mark for an entry of this bar, the recorded notional for an older one. */
  function Actual(w0: World, closes: map<int, real>, r: Router): real {
    if SentNow(w0, closes, r) then Worth(r.pendingIntent.value.quantity, closes[r.iid]) else Recorded(r)
  }

  function ActualNet(w0: World, closes: map<int, real>, r: Router, categories: map<int, Category>, c: nat): real {
    if SentNow(w0, closes, r) then
      if ClusterOf(categories, r.pendingIntent.value.iid) == c
      then Signed(r.pendingIntent.value.side, Worth(r.pendingIntent.value.quantity, closes[r.iid])) else 0.0
    else RecordedNet(r, categories, c)
  }

  /** Half a cent for an entry of this bar that a guard resized. */
  function ResizeSlack(w0: World, closes: map<int, real>, r: Router): real {
    if SentNow(w0, closes, r) && PriceOk(closes[r.iid]) && r.pendingIntent.value.quantity != EntryQuantity(closes[r.iid])
    then HALF_CENT else 0.0
  }

  /** Half a cent and one quantum of size for any entry of this bar. */
  function NetSlack(w0: World, closes: map<int, real>, r: Router): real {
    if SentNow(w0, closes, r) then HALF_CENT + QUANTUM * closes[r.iid] else 0.0
  }

  function RecordedMap(w: World): map<int, real> {
    map i | i in w.routers :: Recorded(w.routers[i])
  }

  function NetMap(w: World, c: nat): map<int, real> {
    map i | i in w.routers :: RecordedNet(w.routers[i], w.categories, c)
  }

  function ActualMap(w0: World, closes: map<int, real>, w: World): map<int, real> {
    map i | i in w.routers :: Actual(w0, closes, w.routers[i])
  }

  function ActualNetMap(w0: World, closes: map<int, real>, w: World, c: nat): map<int, real> {
    map i | i in w.routers :: ActualNet(w0, closes, w.routers[i], w.categories, c)
  }

  function SlackMap(w0: World, closes: map<int, real>, w: World): map<int, real> {
    map i | i in w.routers :: ResizeSlack(w0, closes, w.routers[i])
  }

  function NetSlackMap(w0: World, closes: map<int, real>, w: World): map<int, real> {
    map i | i in w.routers :: NetSlack(w0, closes, w.routers[i])
  }

  lemma {:induction false} PendingSum(w: World, ids: seq<int>, i: int)
    requires (forall j :: j in ids ==> j in w.routers) && i in w.routers && !InFlight(w.routers[i])
    ensures EntryNotional(PendingOthers(w, ids, i)) == Sum(ids, RecordedMap(w))
  {
    hide ClusterOf;
    if ids != [] {
      PendingSum(w, ids[1..], i);
      var rest := PendingOthers(w, ids[1..], i);
      if ids[0] != i && InFlight(w.routers[ids[0]]) {
        assert ([w.routers[ids[0]].pendingIntent.value] + rest)[1..] == rest;
      } else {
        assert [] + rest == rest;
      }
    }
  }

  lemma {:induction false} PendingNetSum(w: World, ids: seq<int>, i: int, c: nat)
    requires (forall j :: j in ids ==> j in w.routers) && i in w.routers && !InFlight(w.routers[i])
    ensures ClusterEntries(PendingOthers(w, ids, i), w.categories, c) == Sum(ids, NetMap(w, c))
  {
    hide ClusterOf;
    if ids != [] {
      PendingNetSum(w, ids[1..], i, c);
      var rest := PendingOthers(w, ids[1..], i);
      if ids[0] != i && InFlight(w.routers[ids[0]]) {
        assert ([w.routers[ids[0]].pendingIntent.value] + rest)[1..] == rest;
      } else {
        assert [] + rest == rest;
      }
    }
  }

  // ----- one router's bar -----

  /** A bar call leaves an entry in flight only if it was there before, or is the guards' answer of this bar. */
  lemma BarEntry(d: Desk, bar: BarInput, snap: AccountSnapshot, kill: Kill, categories: map<int, Category>,
                 pending: seq<Intent>, now: int)
    requires bar.close.Some? ==> PriceOk(bar.close.value)
    ensures var r2 := OnBar(d, bar, snap, kill, categories, pending, now).r;
      && r2.iid == d.r.iid
      && (InFlight(d.r) ==> InFlight(r2) && r2.pendingIntent == d.r.pendingIntent)
      && (InFlight(r2) && !InFlight(d.r) ==>
            bar.close.Some? && (d.r.state == EntryPending
              || exists side :: EntryIntent(d.r.iid, side, bar.close.value, snap, categories, pending) == r2.pendingIntent))
      && (d.r.state == EntryPending ==> r2.state == EntryPending && r2.pendingIntent == d.r.pendingIntent)
  {
    hide EntryIntent, Send;
    if !Pending(d.r.state) && !Frozen(d.r.state) && bar.close.Some? {
      var mark := bar.close.value;
      SendPending(d, ExitIntent(d.r.iid, d.r.size, mark), now);
      var side := EntrySide(bar);
      var intent := EntryIntent(d.r.iid, side, mark, snap, categories, pending);
      if intent.Some? { SendPending(d, intent.value, now); }
    }
  }

  lemma SendPending(d: Desk, intent: Intent, now: int)
    requires !Pending(d.r.state)
    ensures var r2 := Send(d, intent, now).r;
      && r2.iid == d.r.iid
      && (r2.state == EntryPending ==> !intent.reduceOnly && r2.pendingIntent == Some(intent))
  {
    hide SubmitWithRecovery, Snapshot, Find, VenueStop;
  }

  // ----- the whole bar -----

  /** Totals of a state during the bar that started in w0. */
  datatype Totals = Totals(recorded: real, net: real, actual: real, actualNet: real, slack: real, netSlack: real)

  function TotalsOf(w0: World, closes: map<int, real>, w: World, c: nat): Totals {
    Totals(Sum(w.ids, RecordedMap(w)), Sum(w.ids, NetMap(w, c)), Sum(w.ids, ActualMap(w0, closes, w)),
           Sum(w.ids, ActualNetMap(w0, closes, w, c)), Sum(w.ids, SlackMap(w0, closes, w)), Sum(w.ids, NetSlackMap(w0, closes, w)))
  }

  /** What the snapshot already holds and allows. */
  datatype Room = Room(equity: real, positions: real, clusterPositions: real)

  ghost predicate UnderCap(cap: real, room: Room, start: Totals, t: Totals) {
    room.positions + t.actual <= Max(cap, room.positions + start.recorded) + t.slack
  }

  /** Every cap, in terms of the totals at the start of the bar and now. */
  ghost predicate Capped(room: Room, start: Totals, t: Totals) {
    && t.slack >= 0.0 && t.netSlack >= 0.0
    && t.actual <= t.recorded + t.slack
    && room.positions + t.recorded <= Max(GROSS_CAP * room.equity + HALF_CENT, room.positions + start.recorded)
    && UnderCap(GROSS_CAP * room.equity, room, start, t)
    && UnderCap(MAX_LEVERAGE * room.equity, room, start, t)
    && UnderCap(1.0 / (MIN_LIQ_DISTANCE + MAINTENANCE_RATE) * room.equity, room, start, t)
    && Abs(room.clusterPositions + t.net) <= Max(CLUSTER_CAP * room.equity + HALF_CENT, Abs(room.clusterPositions + start.net))
    && Abs(t.actualNet - t.net) <= t.netSlack
  }

  /** Adding one entry that fits keeps every cap. */
  lemma CappedAdds(room: Room, start: Totals, t: Totals, t2: Totals, notional: real, worth: real, side: Side, mark: real,
                   mine: bool, resized: bool)
    requires Capped(room, start, t) && mark > 0.0
    requires t2.recorded == t.recorded + notional && t2.actual == t.actual + worth
    requires t2.net == t.net + (if mine then Signed(side, notional) else 0.0)
    requires t2.actualNet == t.actualNet + (if mine then Signed(side, worth) else 0.0)
    requires t2.slack == t.slack + (if resized then HALF_CENT else 0.0)
    requires t2.netSlack == t.netSlack + HALF_CENT + QUANTUM * mark
    requires room.positions + t.recorded + worth <= MAX_LEVERAGE * room.equity
    requires room.positions + t.recorded + worth <= 1.0 / (MIN_LIQ_DISTANCE + MAINTENANCE_RATE) * room.equity
    requires room.positions + t.recorded + worth <= GROSS_CAP * room.equity
    requires room.positions + t.recorded + notional <= GROSS_CAP * room.equity + HALF_CENT
    requires mine ==> Signed(side, room.clusterPositions + t.net) + notional <= CLUSTER_CAP * room.equity + HALF_CENT
    requires 0.0 <= worth && worth - HALF_CENT <= notional <= worth + QUANTUM * mark + HALF_CENT
    requires !resized ==> worth <= notional
    requires notional >= 0.0
    ensures Capped(room, start, t2)
  {
  }

  /** The state of the loop: instruments as at the start, entries in flight only added, each with its bar's close. */
  ghost predicate LoopShape(w0: World, closes: map<int, real>, w: World) {
    && w.ids == w0.ids && w.categories == w0.categories && Distinct(w.ids)
    && (forall i :: i in w.ids <==> i in w.routers) && (forall i :: i in w0.routers <==> i in w.routers)
    && (forall i :: i in w.routers ==> w.routers[i].iid == i)
    && (forall i :: i in closes ==> PriceOk(closes[i]))
    && (forall i :: i in w.routers && InFlight(w0.routers[i]) ==> InFlight(w.routers[i]))
    && (forall i :: i in w.routers && InFlight(w.routers[i]) && !InFlight(w0.routers[i]) ==> i in closes)
  }

  /** Nothing in flight weighs nothing. */
  lemma IdleWeighsNothing(w0: World, closes: map<int, real>, r: Router, categories: map<int, Category>, c: nat)
    requires !InFlight(r)
    ensures Recorded(r) == RecordedNet(r, categories, c) == Actual(w0, closes, r) == ActualNet(w0, closes, r, categories, c)
         == ResizeSlack(w0, closes, r) == NetSlack(w0, closes, r) == 0.0
  {
  }

  /** Only router i changed, from idle to in flight: every total moves by what i now weighs. */
  lemma TotalsMove(w0: World, closes: map<int, real>, w: World, w2: World, i: int, c: nat)
    requires Distinct(w.ids) && i in w.ids && i in w.routers && !InFlight(w.routers[i])
    requires w2.ids == w.ids && w2.categories == w.categories
    requires i in w2.routers && w2.routers == w.routers[i := w2.routers[i]]
    ensures var t, t2, r := TotalsOf(w0, closes, w, c), TotalsOf(w0, closes, w2, c), w2.routers[i];
      && t2.recorded == t.recorded + Recorded(r) && t2.net == t.net + RecordedNet(r, w.categories, c)
      && t2.actual == t.actual + Actual(w0, closes, r) && t2.actualNet == t.actualNet + ActualNet(w0, closes, r, w.categories, c)
      && t2.slack == t.slack + ResizeSlack(w0, closes, r) && t2.netSlack == t.netSlack + NetSlack(w0, closes, r)
  {
    hide Recorded, RecordedNet, Actual, ActualNet, ResizeSlack, NetSlack, Sum, Distinct;
    IdleWeighsNothing(w0, closes, w.routers[i], w.categories, c);
    SumChange(w.ids, RecordedMap(w), RecordedMap(w2), i);
    SumChange(w.ids, NetMap(w, c), NetMap(w2, c), i);
    SumChange(w.ids, ActualMap(w0, closes, w), ActualMap(w0, closes, w2), i);
    SumChange(w.ids, ActualNetMap(w0, closes, w, c), ActualNetMap(w0, closes, w2, c), i);
    SumChange(w.ids, SlackMap(w0, closes, w), SlackMap(w0, closes, w2), i);
    SumChange(w.ids, NetSlackMap(w0, closes, w), NetSlackMap(w0, closes, w2), i);
  }

  /** Router i was in flight and still is, with the same order: every total stays. */
  lemma TotalsStay(w0: World, closes: map<int, real>, w: World, w2: World, i: int, c: nat)
    requires Distinct(w.ids) && i in w.ids && i in w.routers && i in w2.routers
    requires w2.ids == w.ids && w2.categories == w.categories && w2.routers == w.routers[i := w2.routers[i]]
    requires w2.routers[i].iid == w.routers[i].iid && w2.routers[i].pendingIntent == w.routers[i].pendingIntent
    requires InFlight(w.routers[i]) && InFlight(w2.routers[i])
    ensures TotalsOf(w0, closes, w2, c) == TotalsOf(w0, closes, w, c)
  {
    hide Sum, Distinct, EntryQuantity, ClusterOf, Worth;
    SumSame(w.ids, RecordedMap(w), RecordedMap(w2));
    SumSame(w.ids, NetMap(w, c), NetMap(w2, c));
    SumSame(w.ids, ActualMap(w0, closes, w), ActualMap(w0, closes, w2));
    SumSame(w.ids, ActualNetMap(w0, closes, w, c), ActualNetMap(w0, closes, w2, c));
    SumSame(w.ids, SlackMap(w0, closes, w), SlackMap(w0, closes, w2));
    SumSame(w.ids, NetSlackMap(w0, closes, w), NetSlackMap(w0, closes, w2));
  }

  function RoomOf(w0: World, snap: AccountSnapshot, c: nat): Room {
    Room(snap.equity, PositionNotional(snap.positions), ClusterPositions(snap.positions, w0.categories, c))
  }

  /** The entry of this bar, and what it weighs. */
  lemma NewEntryWeighs(w0: World, closes: map<int, real>, r: Router, categories: map<int, Category>, c: nat, x: Intent)
    requires InFlight(r) && r.pendingIntent == Some(x) && r.iid in closes && r.iid in w0.routers && !InFlight(w0.routers[r.iid])
    requires !x.reduceOnly && x.iid == r.iid && PriceOk(closes[r.iid])
    ensures var mark := closes[r.iid];
      var mine := ClusterOf(categories, r.iid) == c;
      && Recorded(r) == x.notional && Actual(w0, closes, r) == Worth(x.quantity, mark)
      && RecordedNet(r, categories, c) == (if mine then Signed(x.side, x.notional) else 0.0)
      && ActualNet(w0, closes, r, categories, c) == (if mine then Signed(x.side, Worth(x.quantity, mark)) else 0.0)
      && ResizeSlack(w0, closes, r) == (if x.quantity != EntryQuantity(mark) then HALF_CENT else 0.0)
      && NetSlack(w0, closes, r) == HALF_CENT + QUANTUM * mark
  {
    hide EntryQuantity, ClusterOf, Worth;
  }

  /** One history of the bar. */
  lemma BarStepCapped(w0: World, closes: map<int, real>, w: World, e: BarEvent, snap: AccountSnapshot, kill: Kill, now: int, c: nat)
    requires LoopShape(w0, closes, w) && Priced(e) && e.iid in w.routers
    requires e.bar.close.Some? ==> e.iid in closes && closes[e.iid] == e.bar.close.value
    requires Capped(RoomOf(w0, snap, c), TotalsOf(w0, closes, w0, c), TotalsOf(w0, closes, w, c))
    ensures var w2 := Act(w, BarMicro(w, e, snap, kill, now));
      LoopShape(w0, closes, w2) && Capped(RoomOf(w0, snap, c), TotalsOf(w0, closes, w0, c), TotalsOf(w0, closes, w2, c))
  {
    hide OnBar, EntryIntent, TotalsOf, Capped, Worth, EntryQuantity, ClusterOf, PositionNotional, ClusterPositions, PendingOthers;
    var i := e.iid;
    var pending := PendingOthers(w, w.ids, i);
    var w2 := Act(w, BarMicro(w, e, snap, kill, now));
    BarEntry(DeskOf(w, i), e.bar, snap, kill, w.categories, pending, now);
    var r, r2 := w.routers[i], w2.routers[i];
    if InFlight(r) {
      TotalsStay(w0, closes, w, w2, i, c);
    } else if !InFlight(r2) {
      TotalsMove(w0, closes, w, w2, i, c);
      IdleWeighsNothing(w0, closes, r2, w.categories, c);
      SameTotals(TotalsOf(w0, closes, w, c), TotalsOf(w0, closes, w2, c));
    } else {
      var mark := e.bar.close.value;
      var side :| EntryIntent(i, side, mark, snap, w.categories, pending) == r2.pendingIntent;
      var x := r2.pendingIntent.value;
      EntryFits(i, side, mark, snap, w.categories, pending);
      NewEntryWeighs(w0, closes, r2, w.categories, c, x);
      TotalsMove(w0, closes, w, w2, i, c);
      PendingSum(w, w.ids, i);
      PendingNetSum(w, w.ids, i, c);
      TotalsAre(w0, closes, w, c);
      CappedAdds(RoomOf(w0, snap, c), TotalsOf(w0, closes, w0, c), TotalsOf(w0, closes, w, c), TotalsOf(w0, closes, w2, c),
                 x.notional, Worth(x.quantity, mark), side, mark, ClusterOf(w.categories, i) == c, x.quantity != EntryQuantity(mark));
    }
  }

  lemma SameTotals(t: Totals, t2: Totals)
    requires t2.recorded == t.recorded && t2.net == t.net && t2.actual == t.actual && t2.actualNet == t.actualNet
    requires t2.slack == t.slack && t2.netSlack == t.netSlack
    ensures t2 == t
  {
  }

  lemma TotalsAre(w0: World, closes: map<int, real>, w: World, c: nat)
    ensures TotalsOf(w0, closes, w, c).recorded == Sum(w.ids, RecordedMap(w))
    ensures TotalsOf(w0, closes, w, c).net == Sum(w.ids, NetMap(w, c))
  {
  }

  lemma {:induction false} LoopCapped(w0: World, closes: map<int, real>, w: World, events: seq<BarEvent>, snap: AccountSnapshot,
                                      kill: Kill, now: int, c: nat)
    requires LoopShape(w0, closes, w) && forall e :: e in events ==> Priced(e) && e.iid in w.routers
    requires forall e :: e in events && e.bar.close.Some? ==> e.iid in closes && closes[e.iid] == e.bar.close.value
    requires Capped(RoomOf(w0, snap, c), TotalsOf(w0, closes, w0, c), TotalsOf(w0, closes, w, c))
    ensures var w2 := OnBarLoop(w, events, snap, kill, now);
      LoopShape(w0, closes, w2) && Capped(RoomOf(w0, snap, c), TotalsOf(w0, closes, w0, c), TotalsOf(w0, closes, w2, c))
    decreases |events|
  {
    hide Capped, TotalsOf, RoomOf, Act, BarMicro, Priced;
    if events != [] {
      assert events[0] in events;
      var w1 := Act(w, BarMicro(w, events[0], snap, kill, now));
      BarStepCapped(w0, closes, w, events[0], snap, kill, now, c);
      LoopKeepsRouters(w0, closes, w, w1);
      forall e | e in events[1..] ensures e in events {}
      LoopCapped(w0, closes, w1, events[1..], snap, kill, now, c);
    }
  }

  lemma LoopKeepsRouters(w0: World, closes: map<int, real>, w: World, w1: World)
    requires LoopShape(w0, closes, w) && LoopShape(w0, closes, w1)
    ensures forall i :: i in w.routers <==> i in w1.routers
  {
  }

  /** Before the bar nothing was sent in it: actual and recorded totals coincide. */
  lemma StartCapped(w0: World, closes: map<int, real>, snap: AccountSnapshot, c: nat)
    requires forall i :: i in w0.routers ==> w0.routers[i].iid == i
    ensures Capped(RoomOf(w0, snap, c), TotalsOf(w0, closes, w0, c), TotalsOf(w0, closes, w0, c))
  {
    hide Sum, ClusterOf, Worth, EntryQuantity, PositionNotional, ClusterPositions;
    SumSame(w0.ids, ActualMap(w0, closes, w0), RecordedMap(w0));
    SumSame(w0.ids, ActualNetMap(w0, closes, w0, c), NetMap(w0, c));
    SumSame(w0.ids, SlackMap(w0, closes, w0), map[]);
    SumSame(w0.ids, NetSlackMap(w0, closes, w0), map[]);
    SumEmpty(w0.ids);
  }

  lemma {:induction false} SumEmpty(ids: seq<int>)
    ensures Sum(ids, map[]) == 0.0
  {
    if ids != [] { SumEmpty(ids[1..]); }
  }

  /** Closes of a bar, one history per instrument. */
  ghost predicate ClosesOf(events: seq<BarEvent>, closes: map<int, real>) {
    && (forall e :: e in events && e.bar.close.Some? ==> e.iid in closes && closes[e.iid] == e.bar.close.value)
    && (forall i :: i in closes ==> PriceOk(closes[i]))
  }

  /** Caps with orders in flight. After one portfolio bar over any set of instruments - the snapshot taken once,
      every entry already sent counted - positions plus everything left in flight (this bar's entries at quantity
      times mark) are at most the larger of the gross cap and the total before, up to half a cent per resized
      order; the same for the leverage cap and the liquidation-distance floor; and each cluster's net is within the
      larger of its cap (and half a cent) and the net before, up to half a cent and one quantum per order. */
  lemma CapsHoldAcrossABar(w: World, events: seq<BarEvent>, closes: map<int, real>, kill: Kill, now: int, c: nat)
    requires Distinct(w.ids) && (forall i :: i in w.ids <==> i in w.routers) && forall i :: i in w.routers ==> w.routers[i].iid == i
    requires ClosesOf(events, closes) && forall e :: e in events ==> Priced(e) && e.iid in w.routers
    ensures var snap := Snapshot(w.a);
      var t0, t := TotalsOf(w, closes, w, c), TotalsOf(w, closes, PortfolioOnBar(w, events, kill, now), c);
      var used := PositionNotional(snap.positions);
      var net := ClusterPositions(snap.positions, w.categories, c);
      && used + t.actual <= Max(snap.equity, used + t0.recorded) + t.slack
      && used + t.actual <= Max(3.0 * snap.equity, used + t0.recorded) + t.slack
      && used + t.actual <= Max(1.0 / (0.25 + 0.02) * snap.equity, used + t0.recorded) + t.slack
      && Abs(net + t.actualNet) <= Max(0.6 * snap.equity + 0.005, Abs(net + t0.net)) + t.netSlack
  {
    hide TotalsOf, PositionNotional, ClusterPositions, Snapshot, OnBarLoop;
    var snap := Snapshot(w.a);
    StartCapped(w, closes, snap, c);
    LoopCapped(w, closes, w, events, snap, kill, now, c);
  }

  // ----- when the cluster bound is a matter of cents -----

  lemma {:induction false} SumAtMost(ids: seq<int>, m: map<int, real>, m2: map<int, real>, factor: real)
    requires forall i :: i in ids ==> At(m, i) <= factor * At(m2, i)
    ensures Sum(ids, m) <= factor * Sum(ids, m2)
  {
    if ids != [] {
      SumAtMost(ids[1..], m, m2, factor);
      assert ids[0] in ids;
    }
  }

  function SentMap(w0: World, closes: map<int, real>, w: World): map<int, real> {
    map i | i in w.routers :: if SentNow(w0, closes, w.routers[i]) then 1.0 else 0.0
  }

  /** How many entries the bar left in flight. */
  function EntriesSent(w0: World, closes: map<int, real>, w: World): real {
    Sum(w.ids, SentMap(w0, closes, w))
  }

  /** At prices where a quantum is worth at most half a cent, each cluster's net is within its cap (and half a cent), or
      the net before, up to one cent per entry sent. */
  lemma ClusterCapHoldsToTheCent(w: World, events: seq<BarEvent>, closes: map<int, real>, kill: Kill, now: int, c: nat)
    requires Distinct(w.ids) && (forall i :: i in w.ids <==> i in w.routers) && forall i :: i in w.routers ==> w.routers[i].iid == i
    requires ClosesOf(events, closes) && forall e :: e in events ==> Priced(e) && e.iid in w.routers
    requires forall i :: i in closes ==> QUANTUM * closes[i] <= HALF_CENT
    ensures var snap := Snapshot(w.a);
      var w2 := PortfolioOnBar(w, events, kill, now);
      var net := ClusterPositions(snap.positions, w.categories, c);
      Abs(net + TotalsOf(w, closes, w2, c).actualNet)
        <= Max(0.6 * snap.equity + 0.005, Abs(net + TotalsOf(w, closes, w, c).net))
           + 2.0 * HALF_CENT * EntriesSent(w, closes, w2)
  {
    hide PositionNotional, ClusterPositions, Snapshot, PortfolioOnBar, TotalsOf, EntriesSent, ClosesOf;
    CapsHoldAcrossABar(w, events, closes, kill, now, c);
    SlackInCents(w, closes, PortfolioOnBar(w, events, kill, now), c);
  }

  lemma SlackInCents(w: World, closes: map<int, real>, w2: World, c: nat)
    requires forall i :: i in closes ==> QUANTUM * closes[i] <= HALF_CENT
    ensures TotalsOf(w, closes, w2, c).netSlack <= 2.0 * HALF_CENT * EntriesSent(w, closes, w2)
  {
    hide Sum, SentNow, NetSlack;
    forall i | i in w2.ids ensures At(NetSlackMap(w, closes, w2), i) <= 2.0 * HALF_CENT * At(SentMap(w, closes, w2), i) {
      if i in w2.routers { SlackIsCents(w, closes, w2.routers[i]); }
    }
    SumAtMost(w2.ids, NetSlackMap(w, closes, w2), SentMap(w, closes, w2), 2.0 * HALF_CENT);
  }

  lemma SlackIsCents(w0: World, closes: map<int, real>, r: Router)
    requires forall i :: i in closes ==> QUANTUM * closes[i] <= HALF_CENT
    ensures NetSlack(w0, closes, r) <= 2.0 * HALF_CENT * (if SentNow(w0, closes, r) then 1.0 else 0.0)
  {
  }
}
