/** Why stop coverage asks for care with operator clears and with late fills. Cleared while its fill is on its way, a
    router enters again, takes a dropped order for landed, and leaves the position of its first order without a stop.
    Timed out and closed before its late fill arrives, an entry leaves a stop without a position. */
module Careless {
  import opened Types
  import opened Guards
  import opened Sizing
  import opened Sim
  import opened Routing
  import opened Runtime
  import opened Runs
  import opened Conservation
  import opened Adoptions
  import opened StopCoverage
  import opened Stories

  const CASH := 1000.0

  const HELD := Pos(1.0, 100.0, 0.0)

  const FIRST := [Done(1, 1.0), Bought(1, 1.0, 100.0)]

  lemma Sums(held: Pos)
    requires held == NO_POS || held == HELD
    ensures var ps := Seen(CASH, held, 100.0).positions;
      PositionNotional(ps) == ClusterPositions(ps, map[], 4) == 100.0 * held.size
  {
    hide LiquidationPrice;
    var ps := Seen(CASH, held, 100.0).positions;
    assert PositionNotional([]) == 0.0 && ClusterPositions([], map[], 4) == 0.0;
    if held == HELD { assert ps[1..] == []; }
  }

  /** There is room for one more contract, whether the account holds one or none. */
  lemma OneMore(held: Pos)
    requires held == NO_POS || held == HELD
    ensures EntryIntent(1, Buy, 100.0, Seen(CASH, held, 100.0), map[], []) == Some(Intent(1, Buy, 1.0, 100.0, false))
    ensures RoomForAQuantum(1, Buy, 100.0, Seen(CASH, held, 100.0), map[], [])
  {
    hide PositionNotional, ClusterPositions, EntryIntent, RoomForAQuantum, Seen;
    Sums(held);
    SeenEquity(CASH, held, 100.0);
    WholeEntry(Seen(CASH, held, 100.0));
    EntrySizedExactly(1, Buy, 100.0, Seen(CASH, held, 100.0), map[], []);
  }

  lemma SeenEquity(equity: real, held: Pos, mark: real)
    ensures Seen(equity, held, mark).equity == equity
  {
  }

  lemma WholeEntry(snap: AccountSnapshot)
    requires snap.equity == CASH && 0.0 <= PositionNotional(snap.positions) == ClusterPositions(snap.positions, map[], 4) <= 100.0
    ensures EntryIntent(1, Buy, 100.0, snap, map[], []) == Some(Intent(1, Buy, 1.0, 100.0, false))
  {
    hide PositionNotional, ClusterPositions, EntryQuantity;
    PlainContract();
    var intent := PlainEntry(1, Buy, 100.0);
    assert ClusterOf(map[], 1) == 4;
    var (v1, v2) := EntryVerdicts(intent, 100.0, snap, map[], []);
    assert v1 == Allow && v2 == Allow;
    assert [v1, v2][1..] == [v2] && [v2][1..] == [];
    assert MinResize([v2], 1.0) == 1.0;
  }

  lemma PlainContract()
    ensures EntryQuantity(100.0) == 1.0
  {
    assert NOTIONAL / 100.0 * 100000000.0 == 100000000.0;
  }

  // ----- the steps -----

  const ENTER: Micro := Ask(100.0, 1.0, Seen(CASH, NO_POS, 100.0))

  const AGAIN: Micro := Ask(100.0, 1.0, Seen(CASH, HELD, 100.0))

  const ENTERED := Opening(CASH).(state := EntryPending, waits := 1, num := 1, queue := FIRST, held := HELD)

  lemma Enters(w: World)
    requires Stage(w, Opening(CASH)) && w.a.marks == map[1 := 100.0]
    ensures Stage(Act(w, ENTER), ENTERED) && Act(w, ENTER).a.marks == w.a.marks && OwnBar(w, ENTER)
    ensures Act(w, ENTER).routers[1].pendingSince == Some(0)
  {
    hide EntryIntent, RoomForAQuantum, Stage, OwnBar, Execute, Snapshot, Send;
    var s := Opening(CASH);
    VenueOf(w, s);
    OneMore(NO_POS);
    SnapshotIs(w.a, s, 100.0);
    AskIsOwnBar(w, s, 100.0, 1.0, Seen(CASH, NO_POS, 100.0));
    var intent := Intent(1, Buy, 1.0, 100.0, false);
    Asked(w, s, 100.0, Seen(CASH, NO_POS, 100.0), intent);
    var req := Request(Ours(1, 1), intent);
    Executed(w.a, s, 1, 1.0, 100.0);
    var b := Execute(Arrive(w.a, req), req);
    assert Submit(w.a, req) == (b, Ack(true));
    FreshNumber(w, s);
    Sent(w, s, intent, b, ENTERED);
    StageParts(w, s);
    SentDesk(DeskOf(w, 1), intent);
  }

  /** The kill switch halts a router that waits for an order and sends nothing. */
  lemma Halts(w: World)
    requires Stage(w, ENTERED)
    ensures Stage(Act(w, ShutdownCall(1, 100.0, 0)), ENTERED.(state := Halted))
    ensures Act(w, ShutdownCall(1, 100.0, 0)).a.marks == w.a.marks
  {
    hide Exit, OnVenue;
    VenueOf(w, ENTERED);
    VenueScene(w.a, ENTERED, ENTERED.(state := Halted));
  }

  /** The operator clears it while its fill is still on its way. */
  lemma Clears(w: World)
    requires Stage(w, ENTERED.(state := Halted))
    ensures Stage(Act(w, Operator(1)), ENTERED.(state := Flat)) && Act(w, Operator(1)).a.marks == w.a.marks
  {
    hide OnVenue;
    VenueOf(w, ENTERED.(state := Halted));
    VenueScene(w.a, ENTERED.(state := Halted), ENTERED.(state := Flat));
  }

  lemma EntersAgain(w: World)
    requires Stage(w, ENTERED.(state := Flat, fails := [Drop])) && 1 in w.a.marks && w.a.marks[1] == 100.0
    ensures Stage(Act(w, AGAIN), ENTERED.(waits := 2, num := 2)) && OwnBar(w, AGAIN)
  {
    hide EntryIntent, Stage, OwnBar, RoomForAQuantum;
    var s := ENTERED.(state := Flat, fails := [Drop]);
    StageParts(w, s);
    VenueOf(w, s);
    OneMore(HELD);
    SnapshotIs(w.a, s, 100.0);
    AskIsOwnBar(w, s, 100.0, 1.0, Seen(CASH, HELD, 100.0));
    DroppedSend(w, s, 100.0, Seen(CASH, HELD, 100.0), Intent(1, Buy, 1.0, 100.0, false));
  }

  // ----- the run -----

  const CLEARED: seq<Micro> := [
    Tick(1, 100.0), ENTER, ShutdownCall(1, 100.0, 0), Operator(1), Inject(None, [Drop]), AGAIN, Pump, Pump]

  lemma ClearedOk()
    ensures AllClosed(CLEARED) && RunSized(CLEARED, map[]) && forall m :: m in CLEARED ==> MicroOk(m)
  {
    hide Seen, EntryIntent, RoomForAQuantum;
    OneMore(NO_POS);
    OneMore(HELD);
    assert Clamp(1.0) == 1.0;
  }

  lemma HaltsFirst(w: World)
    requires w == RestartWorld(Empty(CASH), 0) && forall m :: m in CLEARED ==> MicroOk(m)
    ensures Stage(Prefix(w, CLEARED, 3), ENTERED.(state := Halted)) && OwnBar(Prefix(w, CLEARED, 1), CLEARED[1])
    ensures 1 in Prefix(w, CLEARED, 3).a.marks && Prefix(w, CLEARED, 3).a.marks[1] == 100.0
  {
    hide Act, Stage, OwnBar, RestartWorld, MicroOk, Run, Prefix;
    Begins(CASH);
    NoStep(w);
    NextPrefix(w, CLEARED, 0);
    Marked(w, Opening(CASH), 100.0);
    NextPrefix(w, CLEARED, 1);
    Enters(Prefix(w, CLEARED, 1));
    NextPrefix(w, CLEARED, 2);
    Halts(Prefix(w, CLEARED, 2));
  }

  lemma NoStep(w: World)
    requires forall m :: m in CLEARED ==> MicroOk(m)
    ensures Prefix(w, CLEARED, 0) == w
  {
    assert CLEARED[..0] == [];
  }

  lemma EntersTwice(w: World)
    requires forall m :: m in CLEARED ==> MicroOk(m)
    requires Stage(Prefix(w, CLEARED, 3), ENTERED.(state := Halted))
    requires 1 in Prefix(w, CLEARED, 3).a.marks && Prefix(w, CLEARED, 3).a.marks[1] == 100.0
    ensures Stage(Prefix(w, CLEARED, 8), ENTERED.(waits := 2, num := 2, size := 1.0, queue := [])) && OwnBar(Prefix(w, CLEARED, 5), CLEARED[5])
  {
    hide Act, Stage, OwnBar, MicroOk, Run, Prefix;
    NextPrefix(w, CLEARED, 3);
    Clears(Prefix(w, CLEARED, 3));
    NextPrefix(w, CLEARED, 4);
    Scripted(Prefix(w, CLEARED, 4), ENTERED.(state := Flat), Drop);
    NextPrefix(w, CLEARED, 5);
    EntersAgain(Prefix(w, CLEARED, 5));
    NextPrefix(w, CLEARED, 6);
    var s := ENTERED.(waits := 2, num := 2);
    assert FIRST == [Done(1, 1.0)] + [Bought(1, 1.0, 100.0)];
    PumpDone(Prefix(w, CLEARED, 6), s, 1, 1.0, [Bought(1, 1.0, 100.0)]);
    NextPrefix(w, CLEARED, 7);
    PumpStrayFill(Prefix(w, CLEARED, 7), s.(queue := [Bought(1, 1.0, 100.0)]), 1, 1.0, 100.0);
  }

  /** Every hypothesis of PositionsAreGuarded but the one on operator clears holds of this run, each of its bar calls is
      the portfolio's own bar at that moment, and it ends with a position, no fill on its way and no stop. */
  lemma EarlyClearUncoversAPosition()
    ensures StoreWf(Empty(CASH)) && AllClosed(CLEARED) && RunSized(CLEARED, map[])
    ensures var w1 := RestartWorld(Empty(CASH), 0);
      && CleanAdoptions(w1, CLEARED)
      && OwnBar(Prefix(w1, CLEARED, 1), CLEARED[1]) && OwnBar(Prefix(w1, CLEARED, 5), CLEARED[5])
    ensures var w2 := Run(RestartWorld(Empty(CASH), 0), CLEARED);
      FillsOf(w2.a.queue, 1) == [] && Size(w2.a, 1) != 0.0 && 1 !in w2.a.stops
  {
    hide RestartWorld, Run, OwnBar, CLEARED, RunSized, StoreWf, NoneGivenUp, CleanAdoptions, Wf, Agree, MicroOk;
    StoreOk(CASH);
    ClearedOk();
    var w1 := RestartWorld(Empty(CASH), 0);
    HaltsFirst(w1);
    EntersTwice(w1);
    Eight();
    RestartWf(Empty(CASH), 0);
    RestartAgrees(Empty(CASH), 0);
    Uncovered(w1, Prefix(w1, CLEARED, 8), ENTERED.(waits := 2, num := 2, size := 1.0, queue := []));
    NothingGivenUpIsClean(w1, CLEARED);
  }

  lemma Eight()
    ensures |CLEARED| == 8 && CLEARED[..8] == CLEARED
  {
  }

  // ----- the late fill -----

  const STOPS: map<int, real> := map[1 := StopPrice(true, 100.0)]

  const SOLD := FillUpdate(Ours(1, 2), 1, Sell, 1.0, 100.0, 0.0)

  const ADOPTED := ENTERED.(state := Open, size := 1.0, waits := 0, stops := STOPS, lost := 1)

  const LEAVE: Micro := Ask(100.0, 0.0, Seen(CASH, HELD, 100.0).(stops := STOPS))

  const LEAVING := ADOPTED.(state := ExitPending, waits := 2, num := 2, queue := FIRST + [Done(2, 1.0), SOLD], held := NO_POS)

  const GONE := LEAVING.(state := Flat, size := 0.0, waits := 0, stops := map[], queue := [Done(2, 1.0), SOLD])

  lemma LostListed(db: Db, num: nat)
    requires Listed(db.orders, num, 0) && num >= 1
    ensures var db2 := SetStatus(db, Ours(1, 1), TimeoutAdopted); db2 == db.(orders := db2.orders) && Listed(db2.orders, num, 1)
  {
  }

  lemma SeenHeld(equity: real)
    ensures var p := Seen(equity, HELD, 100.0).Position(1); p.Some? && p.value.size == 1.0 && p.value.entry == 100.0
    ensures Seen(equity, NO_POS, 100.0).Position(1) == None
  {
    hide LiquidationPrice;
  }

  /** The time-out takes the venue's contract and gives the order up; its fill is still on its way. */
  lemma TimesOut(w: World)
    requires Stage(w, ENTERED) && 1 in w.a.marks && w.a.marks[1] == 100.0 && w.routers[1].pendingSince == Some(0)
    ensures Stage(Act(w, TimeoutCall(1, 31)), ADOPTED) && Act(w, TimeoutCall(1, 31)).a.marks == w.a.marks
  {
    hide Snapshot, Seen, Listed, StopPrice, SetStatus, OwnBar;
    VenueOf(w, ENTERED);
    SnapshotIs(w.a, ENTERED, 100.0);
    SeenHeld(CASH);
    LostListed(w.db, 1);
  }

  lemma SoldOut(a: Account, s: Scene)
    requires OnVenue(a, s) && 1 in a.marks && a.marks[1] == 100.0 && s.held == HELD && s.fails == []
    ensures var req := OrderRequest(Ours(1, 2), 1, Sell, 1.0, true);
      var b := Submit(a, req).0;
      Submit(a, req).1 == Ack(true) && OnVenue(b, s.(queue := s.queue + [Done(2, 1.0), SOLD], held := NO_POS)) && b.marks == a.marks
  {
    hide Fee;
    var req := OrderRequest(Ours(1, 2), 1, Sell, 1.0, true);
    var c := Arrive(a, req);
    NoFee(c, 1.0, 100.0);
    assert PosOf(c, 1) == HELD && FillQuantity(c, req) == 1.0;
    assert Book(HELD, -1.0, 100.0) == (NO_POS, 0.0);
    assert Submit(a, req) == (Execute(c, req), Ack(true));
  }

  lemma Leaves(w: World)
    requires Stage(w, ADOPTED) && 1 in w.a.marks && w.a.marks[1] == 100.0
    ensures Stage(Act(w, LEAVE), LEAVING) && Act(w, LEAVE).a.marks == w.a.marks && OwnBar(w, LEAVE)
  {
    hide OwnBar, Snapshot, Submit, STOPS, Cents, Send, OnVenue, Listed;
    VenueOf(w, ADOPTED);
    SnapshotIs(w.a, ADOPTED, 100.0);
    AskIsOwnBar(w, ADOPTED, 100.0, 0.0, Seen(CASH, HELD, 100.0).(stops := STOPS));
    var intent := ExitIntent(1, 1.0, 100.0);
    assert Clamp(0.0) == 0.0;
    assert Act(w, LEAVE) == Put(w, 1, Send(DeskOf(w, 1), intent, 0));
    SoldOut(w.a, ADOPTED);
    var b := Submit(w.a, Request(Ours(1, 2), intent)).0;
    FreshNumber(w, ADOPTED);
    VenueScene(b, ADOPTED.(queue := FIRST + [Done(2, 1.0), SOLD], held := NO_POS), LEAVING);
    Sent(w, ADOPTED, intent, b, LEAVING);
  }

  lemma LateListed(db: Db, num: nat)
    requires Listed(db.orders, num, 1) && num >= 1
    ensures var c := Ours(1, 1);
      c in db.orders && GaveUp(db.orders[c].status)
      && forall x :: Listed(db.orders[c := db.orders[c].(filled := x)], num, 1)
  {
  }

  /** The entry's fill makes the router adopt the venue's zero, with the exit's fill still on its way. */
  lemma ComesLate(w: World)
    requires Stage(w, LEAVING.(queue := [Bought(1, 1.0, 100.0), Done(2, 1.0), SOLD])) && 1 in w.a.marks && w.a.marks[1] == 100.0
    ensures Stage(Act(w, Pump), GONE) && Act(w, Pump).a.marks == w.a.marks
  {
    hide Snapshot, Listed, StopPrice;
    var s := LEAVING.(queue := [Bought(1, 1.0, 100.0), Done(2, 1.0), SOLD]);
    assert s.queue[1..] == GONE.queue;
    VenueOf(w, s);
    SnapshotIs(w.a.(queue := GONE.queue), s.(queue := GONE.queue), 100.0);
    LateListed(w.db, 2);
    assert STOPS - {1} == map[];
  }

  /** The exit's fill then opens a short the venue does not hold, and stops it. */
  lemma OpensNothing(w: World)
    requires Stage(w, GONE.(queue := [SOLD]))
    ensures Stage(Act(w, Pump), GONE.(state := Open, size := -1.0, queue := [], stops := map[1 := StopPrice(false, 100.0)]))
  {
    hide Listed, RecordFill, StopPrice;
    assert [SOLD][1..] == [];
    FillListed(ApplyFill(DeskOf(w, 1), Sell, 1.0, 100.0).db, 2, 1.0, 100.0, 2, 1);
  }

  const LATE: seq<Micro> := [Tick(1, 100.0), ENTER, TimeoutCall(1, 31), LEAVE, Pump, Pump, Pump, Pump]

  const END := GONE.(state := Open, size := -1.0, queue := [], stops := map[1 := StopPrice(false, 100.0)])

  lemma LateOk()
    ensures AllClosed(LATE) && RunSized(LATE, map[]) && forall m :: m in LATE ==> MicroOk(m) && !m.Operator? && !m.Restart?
  {
    hide Seen, EntryIntent, RoomForAQuantum, STOPS;
    OneMore(NO_POS);
    assert Clamp(0.0) == 0.0 && Clamp(1.0) == 1.0;
  }

  lemma NoLateStep(w: World)
    requires forall m :: m in LATE ==> MicroOk(m)
    ensures Prefix(w, LATE, 0) == w
  {
    assert LATE[..0] == [];
  }

  lemma Adopts(w: World)
    requires w == RestartWorld(Empty(CASH), 0) && forall m :: m in LATE ==> MicroOk(m)
    ensures var x := Prefix(w, LATE, 3); Stage(x, ADOPTED) && 1 in x.a.marks && x.a.marks[1] == 100.0
    ensures OwnBar(Prefix(w, LATE, 1), LATE[1])
  {
    hide Act, Stage, OwnBar, RestartWorld, MicroOk, Run, Prefix, ADOPTED, LEAVE;
    Begins(CASH);
    NoLateStep(w);
    NextPrefix(w, LATE, 0);
    Marked(w, Opening(CASH), 100.0);
    NextPrefix(w, LATE, 1);
    Enters(Prefix(w, LATE, 1));
    NextPrefix(w, LATE, 2);
    TimesOut(Prefix(w, LATE, 2));
  }

  lemma Delivers(w: World)
    requires forall m :: m in LATE ==> MicroOk(m)
    requires var x := Prefix(w, LATE, 3); Stage(x, ADOPTED) && 1 in x.a.marks && x.a.marks[1] == 100.0
    ensures Stage(Prefix(w, LATE, 8), END) && OwnBar(Prefix(w, LATE, 3), LATE[3])
  {
    hide Act, Stage, OwnBar, MicroOk, Run, Prefix, ENTER, ADOPTED, LEAVE, STOPS;
    NextPrefix(w, LATE, 3);
    Leaves(Prefix(w, LATE, 3));
    NextPrefix(w, LATE, 4);
    var rest := [Bought(1, 1.0, 100.0), Done(2, 1.0), SOLD];
    assert LEAVING.queue == [Done(1, 1.0)] + rest;
    PumpDone(Prefix(w, LATE, 4), LEAVING, 1, 1.0, rest);
    NextPrefix(w, LATE, 5);
    ComesLate(Prefix(w, LATE, 5));
    NextPrefix(w, LATE, 6);
    assert GONE.queue == [Done(2, 1.0)] + [SOLD];
    PumpDone(Prefix(w, LATE, 6), GONE, 2, 1.0, [SOLD]);
    NextPrefix(w, LATE, 7);
    OpensNothing(Prefix(w, LATE, 7));
  }

  lemma Inexact(w: World)
    requires Stage(w, END)
    ensures !StopsExact(w.a, [1])
  {
    hide StopPrice;
    assert 1 in [1] && FillsOf(w.a.queue, 1) == [];
  }

  /** Every hypothesis of StopsMatchPositions but the one on adoptions holds of this run, each of its bar calls is the
      portfolio's own bar at that moment, nothing restarts, and it ends with a stop and no position. */
  lemma LateFillLeavesAStop()
    ensures StoreWf(Empty(CASH)) && NoOrphan(Empty(CASH).a, [1]) && AllClosed(LATE) && RunSized(LATE, map[])
    ensures forall m :: m in LATE ==> !m.Operator? && !m.Restart?
    ensures var w1 := RestartWorld(Empty(CASH), 0);
      && OwnBar(Prefix(w1, LATE, 1), LATE[1]) && OwnBar(Prefix(w1, LATE, 3), LATE[3])
      && !StopsExact(Prefix(w1, LATE, |LATE|).a, [1])
  {
    hide RestartWorld, Run, OwnBar, RunSized, StoreWf, MicroOk, Stage, AllClosed, StopsExact, ADOPTED, END, LEAVE, ENTER;
    StoreOk(CASH);
    LateOk();
    var w1 := RestartWorld(Empty(CASH), 0);
    Adopts(w1);
    Delivers(w1);
    Inexact(Prefix(w1, LATE, 8));
    assert |LATE| == 8;
  }
}
