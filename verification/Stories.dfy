/** Concrete runs of one router on a venue without costs, told scene by scene. */
module Stories {
  import opened Types
  import opened Guards
  import opened Sim
  import opened Routing
  import opened Runtime
  import opened Runs
  import opened Conservation
  import opened StopCoverage
  import opened Portfolio

  const FREE: Config := Costs(0.0, 0.0, 0.0, 100.0)

  /** What a story needs to know of the world. `waits` is the number of the order the router waits for and `lost` that of
      the one it gave up, 0 for none. */
  datatype Scene = Scene(
    cash: real, state: State, size: real, waits: nat, num: nat, queue: seq<Event>, held: Pos, fails: seq<Failure>, stops: map<int, real>,
    lost: nat)

  ghost predicate Stage(w: World, s: Scene)
  {
    && w.ids == [1] && w.categories == map[] && w.routers.Keys == {1}
    && var r := w.routers[1];
    && r.iid == 1 && r.state == s.state && r.size == s.size && r.num == s.num
    && r.pendingCid == (if s.waits == 0 then None else Some(Ours(1, s.waits)))
    && OnVenue(w.a, s)
    && s.lost <= s.num && Listed(w.db.orders, s.num, s.lost)
  }

  /** The orders numbered up to num, and which of them is given up. */
  ghost predicate Listed(orders: map<Cid, OrderRow>, num: nat, lost: nat) {
    && (forall c :: c in orders ==> c.Ours? && c.iid == 1 && 1 <= c.num <= num && (GaveUp(orders[c].status) <==> c.num == lost))
    && (forall k :: 1 <= k <= num ==> Ours(1, k) in orders)
  }

  ghost predicate OnVenue(a: Account, s: Scene) {
    && a.cfg == FREE && a.cash == s.cash && a.queue == s.queue && a.stops == s.stops && a.resting == []
    && a.failNext == None && a.failQueue == s.fails
    && (a.ids == [] || a.ids == [1]) && (1 in a.ids <==> 1 in a.pos) && PosOf(a, 1) == s.held
  }

  function Empty(cash: real): World {
    World([1], map[], Account(FREE, cash, map[], [], map[], map[], [], 0, None, [], []), Db([], map[], [], map[]), map[])
  }

  function Opening(cash: real): Scene {
    Scene(cash, Flat, 0.0, 0, 0, [], NO_POS, [], map[], 0)
  }

  function Bought(k: nat, quantity: real, price: real): Event {
    FillUpdate(Ours(1, k), 1, Buy, quantity, price, 0.0)
  }

  function Done(k: nat, quantity: real): Event {
    OrderUpdate(Ours(1, k), Filled, quantity)
  }

  function AskBar(price: real, target: real): BarInput {
    BarInput(Some(price), true, true, target)
  }

  function Ask(price: real, target: real, snap: AccountSnapshot): Micro {
    BarCall(1, AskBar(price, target), snap, KeepRunning, [], 0)
  }

  /** The snapshot of an account that holds `held` and no stop. */
  function Seen(equity: real, held: Pos, mark: real): AccountSnapshot
  {
    AccountSnapshot(equity,
      if held.size == 0.0 then []
      else [PositionView(1, held.size, held.entry, Abs(held.size) * mark, Some(LiquidationPrice(held.size, held.entry)), held.funding)],
      [], map[], false)
  }

  lemma StoreOk(cash: real)
    ensures StoreWf(Empty(cash)) && NoOrphan(Empty(cash).a, [1])
  {
    EmptyStoreWf(Empty(cash));
  }

  lemma Begins(cash: real)
    ensures Stage(RestartWorld(Empty(cash), 0), Opening(cash)) && RestartWorld(Empty(cash), 0).a.marks == map[]
  {
    var a := Reload(Empty(cash).a);
    var w := Empty(cash).(a := a);
    var snap := Snapshot(a);
    assert snap.positions == [];
    var w1 := RecoverRouters(w, [1], snap);
    assert [1][1..] == [];
    assert w1 == Put(w, 1, RecoverRouter(Desk(NewRouter(1), a, w.db), snap));
    assert w1.db.orderIds == [];
  }

  lemma Marked(w: World, s: Scene, price: real)
    requires Stage(w, s) && PriceOk(price)
    ensures Stage(Act(w, Tick(1, price)), s) && Act(w, Tick(1, price)).a.marks == w.a.marks[1 := price]
  {
  }

  lemma Scripted(w: World, s: Scene, f: Failure)
    requires Stage(w, s) && s.fails == []
    ensures Stage(Act(w, Inject(None, [f])), s.(fails := [f])) && Act(w, Inject(None, [f])).a.marks == w.a.marks
  {
  }

  lemma VenueOf(w: World, s: Scene)
    requires Stage(w, s)
    ensures OnVenue(w.a, s)
  {
  }

  // ----- what the portfolio shows the router -----

  /** The snapshot is what `Seen` says, with equity the cash and the open profit. */
  lemma SnapshotIs(a: Account, s: Scene, mark: real)
    requires OnVenue(a, s) && 1 in a.marks && a.marks[1] == mark
    ensures Snapshot(a) == Seen(s.cash + s.held.size * (mark - s.held.entry), s.held, mark).(stops := s.stops)
  {
    hide LiquidationPrice, PosOf;
    OneView(a);
    if s.held.size == 0.0 {
      assert s.held.size * (mark - s.held.entry) == 0.0;
    }
    assert MarkOf(a, 1) == mark && PosOf(a, 1) == s.held;
    var seen := Seen(s.cash + s.held.size * (mark - s.held.entry), s.held, mark);
    assert Equity(a) == seen.equity;
    if s.held.size != 0.0 {
      assert View(a, 1) == seen.positions[0];
    }
    assert Views(a, a.ids) == seen.positions;
  }

  /** One instrument's share of the snapshot. */
  lemma OneView(a: Account)
    requires (a.ids == [] || a.ids == [1]) && (1 in a.ids <==> 1 in a.pos)
    ensures Views(a, a.ids) == if Size(a, 1) == 0.0 then [] else [View(a, 1)]
    ensures Unrealised(a, a.ids) == if Size(a, 1) == 0.0 then 0.0 else Size(a, 1) * (MarkOf(a, 1) - PosOf(a, 1).entry)
  {
    hide View, MarkOf;
    assert [1][1..] == [];
    assert Views(a, []) == [] && Unrealised(a, []) == 0.0;
  }

  /** The call is what the portfolio's own bar does in this world. */
  ghost predicate OwnBar(w: World, m: Micro) {
    && m.BarCall? && Priced(BarEvent(1, m.bar)) && MicroOk(m)
    && PortfolioOnBar(w, [BarEvent(1, m.bar)], KeepRunning, 0) == Act(w, m)
  }

  lemma AskIsOwnBar(w: World, s: Scene, price: real, target: real, snap: AccountSnapshot)
    requires Stage(w, s) && PriceOk(price) && Snapshot(w.a) == snap
    ensures OwnBar(w, Ask(price, target, snap))
  {
    hide OnBar, Snapshot, BarRaises, Put;
    var e := BarEvent(1, AskBar(price, target));
    assert [1][1..] == [];
    assert PendingOthers(w, w.ids, 1) == [];
    assert [e][1..] == [];
    if EventRaises(w, e, snap, KeepRunning) { NothingRaised(w, e, snap, KeepRunning, 0); }
    assert OnBarLoop(Act(w, BarMicro(w, e, snap, KeepRunning, 0)), [], snap, KeepRunning, 0) == Act(w, Ask(price, target, snap));
  }

  // ----- sends -----

  /** What a flat router sends when it is asked for a long. */
  lemma Asked(w: World, s: Scene, price: real, snap: AccountSnapshot, intent: Intent)
    requires Stage(w, s) && s.state == Flat && PriceOk(price)
    requires EntryIntent(1, Buy, price, snap, map[], []) == Some(intent)
    ensures Act(w, Ask(price, 1.0, snap)) == Put(w, 1, Send(DeskOf(w, 1), intent, 0))
  {
    hide EntryVerdicts, ApplyGuards, PlainEntry, Send, OnVenue;
  }

  lemma Written(d: Desk, intent: Intent)
    requires intent.iid == d.r.iid && Ours(d.r.iid, d.r.num + 1) !in d.db.orders
    ensures var d1, cid := Prepare(d, intent, 0), Ours(d.r.iid, d.r.num + 1);
      && d1.a == d.a && d1.r.iid == d.r.iid && d1.r.state == (if intent.reduceOnly then ExitPending else EntryPending)
      && d1.r.size == d.r.size && d1.r.num == d.r.num + 1 && d1.r.pendingCid == Some(cid) && d1.r.pendingSince == Some(0)
      && d1.db.orders == d.db.orders[cid := OrderRow(intent.iid, intent.side, intent.quantity, intent.reduceOnly, Submitting, 0.0, None)]
  {
  }

  lemma Acknowledged(d: Desk, cid: Cid, prior: State)
    requires cid in d.db.orders && d.db.orders[cid].status == Submitting
    ensures Conclude(d, cid, Acked, prior) == d.(db := d.db.(orders := d.db.orders[cid := d.db.orders[cid].(status := Accepted)]))
  {
  }

  /** An acknowledged send under a fresh number. */
  lemma SentDesk(d: Desk, intent: Intent)
    requires intent.iid == d.r.iid && Ours(d.r.iid, d.r.num + 1) !in d.db.orders
    requires SubmitWithRecovery(d.a, Request(Ours(d.r.iid, d.r.num + 1), intent), d.r.size).1 == Acked
    ensures var d2, cid := Send(d, intent, 0), Ours(d.r.iid, d.r.num + 1);
      && d2.a == SubmitWithRecovery(d.a, Request(cid, intent), d.r.size).0
      && d2.r.iid == d.r.iid && d2.r.state == (if intent.reduceOnly then ExitPending else EntryPending)
      && d2.r.size == d.r.size && d2.r.num == d.r.num + 1 && d2.r.pendingCid == Some(cid) && d2.r.pendingSince == Some(0)
      && d2.db.orders == d.db.orders[cid := OrderRow(intent.iid, intent.side, intent.quantity, intent.reduceOnly, Accepted, 0.0, None)]
  {
    hide SubmitWithRecovery, Prepare, Conclude;
    Written(d, intent);
    var cid := Ours(d.r.iid, d.r.num + 1);
    var d1 := Prepare(d, intent, 0);
    Acknowledged(d1.(a := SubmitWithRecovery(d1.a, Request(cid, intent), d.r.size).0), cid, d.r.state);
  }

  lemma OneMoreListed(orders: map<Cid, OrderRow>, num: nat, lost: nat, row: OrderRow)
    requires Listed(orders, num, lost) && lost <= num && !GaveUp(row.status)
    ensures Listed(orders[Ours(1, num + 1) := row], num + 1, lost)
  {
  }

  /** What an acknowledged send leaves, whichever attempt was acknowledged. */
  lemma Sent(w: World, s: Scene, intent: Intent, b: Account, s2: Scene)
    requires Stage(w, s) && intent.iid == 1
    requires Ours(1, s.num + 1) !in w.db.orders
    requires SubmitWithRecovery(w.a, Request(Ours(1, s.num + 1), intent), s.size) == (b, Acked) && OnVenue(b, s2)
    requires s2.state == (if intent.reduceOnly then ExitPending else EntryPending) && s2.lost == s.lost
    requires s2.size == s.size && s2.waits == s2.num == s.num + 1
    ensures Stage(Put(w, 1, Send(DeskOf(w, 1), intent, 0)), s2) && Put(w, 1, Send(DeskOf(w, 1), intent, 0)).a.marks == b.marks
  {
    hide SubmitWithRecovery, FREE, Send, PosOf, OnVenue, Listed;
    SentDesk(DeskOf(w, 1), intent);
    var row := OrderRow(1, intent.side, intent.quantity, intent.reduceOnly, Accepted, 0.0, None);
    OneMoreListed(w.db.orders, s.num, s.lost, row);
  }

  lemma FreshNumber(w: World, s: Scene)
    requires Stage(w, s)
    ensures Ours(1, s.num + 1) !in w.db.orders
  {
    hide OnVenue;
  }

  lemma VenueScene(a: Account, s: Scene, s2: Scene)
    requires OnVenue(a, s)
    requires s2 == s.(state := s2.state, size := s2.size, waits := s2.waits, num := s2.num)
    ensures OnVenue(a, s2)
  {
  }

  /** A dropped buy looks landed when the venue already holds a long the router does not know of. */
  lemma DroppedSend(w: World, s: Scene, price: real, snap: AccountSnapshot, intent: Intent)
    requires Stage(w, s) && s.state == Flat && s.size == 0.0 && s.held.size > 0.0 && s.fails == [Drop] && PriceOk(price)
    requires EntryIntent(1, Buy, price, snap, map[], []) == Some(intent) && intent.iid == 1 && intent.side == Buy && !intent.reduceOnly
    ensures var m := Ask(price, 1.0, snap);
      && Stage(Act(w, m), s.(state := EntryPending, waits := s.num + 1, num := s.num + 1, fails := []))
      && Act(w, m).a.marks == w.a.marks
  {
    hide EntryIntent, Stage, Execute, Send, LiquidationPrice;
    VenueOf(w, s);
    StageParts(w, s);
    Asked(w, s, price, snap, intent);
    var req := Request(Ours(1, s.num + 1), intent);
    var b := NextMode(w.a).1;
    assert Submit(w.a, req) == (b, TimedOut);
    assert b.ids == [1] && [1][1..] == [];
    assert Views(b, b.ids) == [View(b, 1)];
    assert Landed(req, Snapshot(b), 0.0);
    FreshNumber(w, s);
    Sent(w, s, intent, b, s.(state := EntryPending, waits := s.num + 1, num := s.num + 1, fails := []));
  }

  lemma StageParts(w: World, s: Scene)
    requires Stage(w, s)
    ensures w.ids == [1] && w.categories == map[] && 1 in w.routers && w.routers[1].iid == 1 && w.routers[1].num == s.num
  {
  }

  /** One execution at the mark on the free account. */
  lemma Executed(a: Account, s: Scene, k: nat, quantity: real, price: real)
    requires OnVenue(a, s) && 1 in a.marks && a.marks[1] == price
    requires s.held.size == 0.0 && s.held.funding == 0.0 && quantity >= 0.0 && price > 0.0
    ensures var req := OrderRequest(Ours(1, k), 1, Buy, quantity, false);
      var b := Execute(Arrive(a, req), req);
      && OnVenue(b, s.(queue := s.queue + [Done(k, quantity), Bought(k, quantity, price)], held := Pos(quantity, price, 0.0),
                       fails := if s.fails == [] then [] else s.fails[1..]))
      && b.marks == a.marks
  {
    NoFee(a, quantity, price);
  }

  lemma NoFee(a: Account, quantity: real, price: real)
    requires a.cfg == FREE
    ensures Fee(a, quantity, price) == 0.0
  {
    var x := quantity * price;
    assert 0.0 / 10000.0 * (x / 100.0) == 0.0;
    assert x * 0.0 == 0.0;
  }

  // ----- deliveries -----

  lemma FillListed(db: Db, k: nat, quantity: real, price: real, num: nat, lost: nat)
    requires Listed(db.orders, num, lost) && 1 <= k <= num
    ensures Ours(1, k) in db.orders && (GaveUp(db.orders[Ours(1, k)].status) <==> k == lost)
    ensures var db2 := RecordFill(db, Ours(1, k), quantity, price); db2 == db.(orders := db2.orders) && Listed(db2.orders, num, lost)
  {
    hide AverageFill;
  }

  lemma DoneListed(d: Desk, k: nat, num: nat, lost: nat)
    requires Listed(d.db.orders, num, lost) && 1 <= k <= num
    ensures var d2 := HandleUpdate(d, Ours(1, k), Filled); d2.r == d.r && d2.a == d.a && Listed(d2.db.orders, num, lost)
  {
  }

  lemma PumpDone(w: World, s: Scene, k: nat, quantity: real, rest: seq<Event>)
    requires Stage(w, s) && s.queue == [Done(k, quantity)] + rest && 1 <= k <= s.num
    ensures Stage(Act(w, Pump), s.(queue := rest)) && Act(w, Pump).a.marks == w.a.marks
  {
    hide Listed, HandleUpdate;
    assert s.queue[1..] == rest;
    assert [1][1..] == [];
    DoneListed(Desk(w.routers[1], w.a.(queue := rest), w.db), k, s.num, s.lost);
  }

  /** The fill of an order the router no longer waits for is booked, but no stop is placed. */
  lemma PumpStrayFill(w: World, s: Scene, k: nat, quantity: real, price: real)
    requires Stage(w, s) && s.state == EntryPending && s.size == 0.0 && s.stops == map[] && s.lost == 0
    requires s.queue == [Bought(k, quantity, price)] && s.waits == s.num && 1 <= k < s.num && quantity > 0.0
    ensures Stage(Act(w, Pump), s.(size := quantity, queue := []))
  {
    hide Listed, RecordFill, FillEntry;
    assert s.queue[1..] == [];
    FillListed(ApplyFill(DeskOf(w, 1), Buy, quantity, price).db, k, quantity, price, s.num, s.lost);
  }

  lemma Uncovered(w1: World, w2: World, s: Scene)
    requires Stage(w2, s) && s.queue == [] && s.held.size != 0.0 && s.stops == map[] && s.lost == 0
    ensures NoneGivenUp(w1.db, w2.db) && FillsOf(w2.a.queue, 1) == [] && Size(w2.a, 1) != 0.0 && 1 !in w2.a.stops
  {
  }
}
