/** The running system: every router, the venue and the database, moved by one locked call at a time.
    A `Micro` is one router-level call (or one thing the venue, the operator or the process does); each
    portfolio loop is a sequence of them, so a statement about every sequence of micros covers every
    portfolio run. */
module Runtime {
  import opened Types
  import opened Guards
  import opened Sim
  import opened SimLaws
  import opened Routing

  /** `ids` lists the routed instruments in configuration order. */
  datatype World = World(ids: seq<int>, routers: map<int, Router>, a: Account, db: Db, categories: map<int, Category>)

  datatype Micro =
    // market data and failures of the simulated venue
    | Tick(iid: int, mark: real)
    | Fund(iid: int, rate: real)
    | Inject(failNext: Option<Failure>, failQueue: seq<Failure>)
    // router calls
    | BarCall(iid: int, bar: BarInput, snap: AccountSnapshot, kill: Kill, pending: seq<Intent>, now: int)
    | FastCall(iid: int, mark: real, liquidating: bool, now: int)
    | TimeoutCall(iid: int, now: int)
    | ShutdownCall(iid: int, mark: real, now: int)
    // event delivery: the next queued event, and a stop firing with its fill
    | Pump
    | StopFires(iid: int)
    // reconciliation's responses
    | HaltCall(iid: int)
    | GuardPosition(iid: int)
    | DropOrphan(iid: int)
    | CancelOrder(cid: Cid)
    // process and operator
    | Restart(now: int)
    | Operator(iid: int)
    // an open venue: any event, any account
    | Deliver(ev: Event)
    | Venue(account: Account)

  ghost predicate MicroOk(m: Micro) {
    match m
    case Tick(_, mark) => PriceOk(mark)
    case BarCall(_, bar, _, _, _, _) => bar.close.Some? ==> PriceOk(bar.close.value)
    case FastCall(_, mark, _, _) => PriceOk(mark)
    case Venue(account) => Ok(account)
    case _ => true
  }

  function DeskOf(w: World, i: int): Desk
    requires i in w.routers
  {
    Desk(w.routers[i], w.a, w.db)
  }

  function Put(w: World, i: int, d: Desk): World {
    w.(routers := w.routers[i := d.r], a := d.a, db := d.db)
  }

  // ----- dispatch -----

  /** An order update goes to every router in turn. */
  function UpdateAll(w: World, ids: seq<int>, cid: Cid, s: OrderStatus): World
    decreases |ids|
  {
    if ids == [] then w
    else
      var w1 := if ids[0] in w.routers then Put(w, ids[0], HandleUpdate(DeskOf(w, ids[0]), cid, s)) else w;
      UpdateAll(w1, ids[1..], cid, s)
  }

  function Dispatch(w: World, ev: Event): World {
    match ev
    case OrderUpdate(cid, s, _) => UpdateAll(w, w.ids, cid, s)
    case FillUpdate(_, i, _, _, _, _) => if i in w.routers then Put(w, i, HandleFill(DeskOf(w, i), ev)) else w
  }

  // ----- restart -----

  function MaxOrderNum(ids: seq<Cid>, i: int): nat {
    if ids == [] then 0
    else
      var rest := MaxOrderNum(ids[..|ids| - 1], i);
      var c := ids[|ids| - 1];
      if c.Ours? && c.iid == i && c.num > rest then c.num else rest
  }

  function MaxDecisionNum(ds: seq<Decision>, i: int): nat {
    if ds == [] then 0
    else
      var rest := MaxDecisionNum(ds[..|ds| - 1], i);
      var x := ds[|ds| - 1];
      if x.iid == i && x.num > rest then x.num else rest
  }

  function LoadLocal(r: Router, row: PositionRow, db: Db): Router {
    r.(state := row.state, size := row.size, entry := row.entry, stop := row.stop, funding := row.funding,
       dnum := MaxDecisionNum(db.decisions, r.iid), num := MaxOrderNum(db.orderIds, r.iid))
  }

  /** The loaded router takes the venue's position under a venue stop; a frozen one keeps its state. */
  function TakeVenue(d: Desk, frozen: bool, snap: AccountSnapshot): Desk {
    var i := d.r.iid;
    var r := d.r;
    var pos := snap.Position(i);
    if pos.Some? && pos.value.size != 0.0 then
      var p := pos.value;
      var r1 := r.(size := p.size, entry := Some(p.entry), funding := p.funding, state := if frozen then r.state else Open);
      if i in snap.stops then Persist(d.(r := r1.(stop := Some(snap.stops[i]))))
      else Persist(d.(r := r1.(stop := Some(VenueStop(p))), a := PlaceStop(d.a, i, VenueStop(p))))
    else
      Persist(d.(r := r.(size := 0.0, entry := None, stop := None, state := if frozen then r.state else Flat)))
  }

  /** One router at cold start: its row if it has one, then the venue's position. */
  function RecoverRouter(d: Desk, snap: AccountSnapshot): Desk {
    var i := d.r.iid;
    var frozen := i in d.db.positions && Frozen(d.db.positions[i].state);
    TakeVenue(if i in d.db.positions then d.(r := LoadLocal(d.r, d.db.positions[i], d.db)) else d, frozen, snap)
  }

  function RecoverRouters(w: World, ids: seq<int>, snap: AccountSnapshot): World
    decreases |ids|
  {
    if ids == [] then w
    else RecoverRouters(Put(w, ids[0], RecoverRouter(Desk(NewRouter(ids[0]), w.a, w.db), snap)), ids[1..], snap)
  }

  /** Venue positions no router owns get a stop too. */
  function GuardUnknown(a: Account, routed: set<int>, ps: seq<PositionView>, snap: AccountSnapshot): Account
    decreases |ps|
  {
    if ps == [] then a
    else
      var p := ps[0];
      var b := if p.size != 0.0 && p.iid !in routed && p.iid !in snap.stops then PlaceStop(a, p.iid, VenueStop(p)) else a;
      GuardUnknown(b, routed, ps[1..], snap)
  }

  /** An order in flight at the crash is adopted when it still rests, abandoned otherwise. `local` holds the rows
      as they were before recovery. */
  function SettleOrder(w: World, c: Cid, local: map<int, PositionRow>, resting: seq<Cid>, now: int): World {
    if c !in w.db.orders || (w.db.orders[c].status != Submitting && w.db.orders[c].status != Accepted) then w
    else
      var i := w.db.orders[c].iid;
      var adopt := c in resting && i in w.routers && i in local && Pending(local[i].state);
      var w2 := if adopt then Put(w, i, AdoptPending(DeskOf(w, i), c, local[i].state, now)) else w;
      w2.(db := SetStatus(w2.db, c, if c in resting then Adopted else Abandoned))
  }

  function SettleOrders(w: World, orders: seq<Cid>, local: map<int, PositionRow>, resting: seq<Cid>, now: int): World
    decreases |orders|
  {
    if orders == [] then w
    else SettleOrders(SettleOrder(w, orders[0], local, resting, now), orders[1..], local, resting, now)
  }

  function CancelForeign(a: Account, orders: seq<Cid>): Account
    decreases |orders|
  {
    if orders == [] then a
    else CancelForeign(if orders[0].Ours? then a else Cancel(a, orders[0]), orders[1..])
  }

  /** Cold start: new router objects, the saved account, then recovery from the venue. */
  function RestartWorld(w: World, now: int): World {
    var a := Reload(w.a);
    var snap := Snapshot(a);
    var w1 := RecoverRouters(w.(a := a, routers := map[]), w.ids, snap);
    var w2 := w1.(a := GuardUnknown(w1.a, w1.routers.Keys, snap.positions, snap));
    var w3 := SettleOrders(w2, w2.db.orderIds, w.db.positions, snap.openOrders, now);
    w3.(a := CancelForeign(w3.a, snap.openOrders))
  }

  // ----- one micro -----

  function Act(w: World, m: Micro): World
    requires MicroOk(m)
  {
    match m
    case Tick(i, mark) => w.(a := UpdateMark(w.a, i, mark))
    case Fund(i, rate) => w.(a := ApplyFunding(w.a, i, rate))
    case Inject(f, q) => w.(a := w.a.(failNext := f, failQueue := q))
    case BarCall(i, bar, snap, kill, pending, now) =>
      if i in w.routers then Put(w, i, OnBar(DeskOf(w, i), bar, snap, kill, w.categories, pending, now)) else w
    case FastCall(i, mark, liq, now) =>
      if i in w.routers then Put(w, i, OnFast(DeskOf(w, i), mark, Snapshot(w.a).(inLiquidation := liq), now)) else w
    case TimeoutCall(i, now) =>
      if i in w.routers then Put(w, i, CheckPending(DeskOf(w, i), Snapshot(w.a), now)) else w
    case ShutdownCall(i, mark, now) =>
      if i in w.routers then Put(w, i, Shutdown(DeskOf(w, i), mark, Size(w.a, i), now)) else w
    case Pump =>
      if w.a.queue == [] then w else Dispatch(w.(a := w.a.(queue := w.a.queue[1..])), w.a.queue[0])
    case StopFires(i) =>
      if Fires(w.a, i) then Dispatch(w.(a := FireStop(w.a, i)), StopFill(w.a, i)) else w
    case HaltCall(i) => if i in w.routers then Put(w, i, Halt(DeskOf(w, i))) else w
    case GuardPosition(i) => GuardWorld(w, i)
    case DropOrphan(i) => if Size(w.a, i) == 0.0 then w.(a := CancelStop(w.a, i)) else w
    case CancelOrder(c) => w.(a := Cancel(w.a, c))
    case Restart(now) => RestartWorld(w, now)
    case Operator(i) => if i in w.routers then Put(w, i, ClearHalt(DeskOf(w, i))) else w
    case Deliver(ev) => Dispatch(w, ev)
    case Venue(account) => w.(a := account)
  }

  /** Reconciliation's answer to a venue position without a venue stop. */
  function GuardWorld(w: World, i: int): World {
    if Size(w.a, i) == 0.0 || i in w.a.stops then w
    else
      var t := VenueStop(View(w.a, i));
      var w1 := w.(a := PlaceStop(w.a, i, t));
      if i in w1.routers then Put(w1, i, Persist(Desk(w1.routers[i].(stop := Some(t)), w1.a, w1.db))) else w1
  }

  function Run(w: World, ms: seq<Micro>): World
    requires forall m :: m in ms ==> MicroOk(m)
  {
    if ms == [] then w else Act(Run(w, ms[..|ms| - 1]), ms[|ms| - 1])
  }

  lemma {:induction false} RunJoin(w: World, ms: seq<Micro>, more: seq<Micro>)
    requires (forall m :: m in ms ==> MicroOk(m)) && forall m :: m in more ==> MicroOk(m)
    ensures forall m :: m in ms + more ==> MicroOk(m)
    ensures Run(w, ms + more) == Run(Run(w, ms), more)
    decreases |more|
  {
    hide Act, MicroOk;
    if more == [] {
      assert ms + more == ms;
    } else {
      var n := |more| - 1;
      RunJoin(w, ms, more[..n]);
      assert (ms + more)[..|ms + more| - 1] == ms + more[..n];
    }
  }

  /** The world after the first k steps. */
  function Prefix(w: World, ms: seq<Micro>, k: nat): World
    requires k <= |ms| && forall m :: m in ms ==> MicroOk(m)
  {
    Run(w, ms[..k])
  }

  lemma NextPrefix(w: World, ms: seq<Micro>, k: nat)
    requires k < |ms| && forall m :: m in ms ==> MicroOk(m)
    ensures Prefix(w, ms, k + 1) == Act(Prefix(w, ms, k), ms[k])
  {
    hide Act, MicroOk;
    assert ms[..k + 1][..k] == ms[..k];
    assert forall m :: m in ms[..k + 1] ==> m in ms;
  }

  lemma NothingRuns(w: World)
    ensures Run(w, []) == w
  {
  }
}
