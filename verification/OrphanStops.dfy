/** How an orphan stop comes about: an exit fills and the process crashes before the fill is delivered. */
module OrphanStops {
  import opened Types
  import opened Guards
  import opened Sizing
  import opened Sim
  import opened Routing
  import opened Delivery
  import opened Runtime
  import opened Runs
  import opened Recovery
  import opened Conservation
  import opened Freezing
  import opened StopCoverage
  import opened Portfolio
  import opened Stories

  const CASH := 100.0

  const HELD := Pos(0.6, 100.0, 0.0)

  const STOPS: map<int, real> := map[1 := StopPrice(true, 100.0)]

  /** The cluster cap leaves 60 of room for the fixed 100. */
  lemma SixtyToBuy()
    ensures EntryIntent(1, Buy, 100.0, Seen(CASH, NO_POS, 100.0), map[], []) == Some(Intent(1, Buy, 0.6, 60.0, false))
    ensures RoomForAQuantum(1, Buy, 100.0, Seen(CASH, NO_POS, 100.0), map[], [])
  {
    var snap := Seen(CASH, NO_POS, 100.0);
    assert NOTIONAL / 100.0 * 100000000.0 == 100000000.0;
    var intent := PlainEntry(1, Buy, 100.0);
    assert intent.quantity == 1.0;
    var (v1, v2) := EntryVerdicts(intent, 100.0, snap, map[], []);
    assert v1 == Allow && v2 == Resize(0.6);
    assert [v1, v2][1..] == [v2] && [v2][1..] == [];
    assert MinResize([v2], 1.0) == 0.6;
    assert Scaled(NOTIONAL, 0.6, 1.0) == 60.0 && Cents(60.0) == 60.0;
    EntrySizedExactly(1, Buy, 100.0, snap, map[], []);
  }

  const ENTERED := Opening(CASH).(state := EntryPending, waits := 1, num := 1, queue := [Done(1, 0.6), Bought(1, 0.6, 100.0)], held := HELD)

  const HOLDING := Opening(CASH).(state := Open, size := 0.6, num := 1, held := HELD, stops := STOPS)

  const ENTER: Micro := Ask(100.0, 1.0, Seen(CASH, NO_POS, 100.0))

  const LEAVE: Micro := Ask(100.0, 0.0, Seen(CASH, HELD, 100.0).(stops := STOPS))

  lemma Enters(w: World)
    requires Stage(w, Opening(CASH)) && w.a.marks == map[1 := 100.0]
    ensures Stage(Act(w, ENTER), ENTERED) && Act(w, ENTER).a.marks == w.a.marks && OwnBar(w, ENTER)
  {
    hide EntryIntent, RoomForAQuantum, Stage, OwnBar, Execute, Snapshot, Send;
    var s := Opening(CASH);
    VenueOf(w, s);
    SixtyToBuy();
    SnapshotIs(w.a, s, 100.0);
    AskIsOwnBar(w, s, 100.0, 1.0, Seen(CASH, NO_POS, 100.0));
    var intent := Intent(1, Buy, 0.6, 60.0, false);
    Asked(w, s, 100.0, Seen(CASH, NO_POS, 100.0), intent);
    var req := Request(Ours(1, 1), intent);
    Executed(w.a, s, 1, 0.6, 100.0);
    var b := Execute(Arrive(w.a, req), req);
    assert Submit(w.a, req) == (b, Ack(true));
    FreshNumber(w, s);
    Sent(w, s, intent, b, ENTERED);
  }

  /** The awaited fill opens the position and places its stop. */
  lemma Lands(w: World)
    requires Stage(w, ENTERED.(queue := [Bought(1, 0.6, 100.0)]))
    ensures Stage(Act(w, Pump), HOLDING) && Act(w, Pump).a.marks == w.a.marks
  {
    hide StopPrice;
    assert [Bought(1, 0.6, 100.0)][1..] == [];
  }

  /** The exit fills at once on the venue; the stop stays until the fill is delivered. */
  lemma Leaves(w: World)
    requires Wf(w) && Stage(w, HOLDING) && 1 in w.a.marks && w.a.marks[1] == 100.0
    ensures OwnBar(w, LEAVE)
    ensures var w2 := Act(w, LEAVE);
      && Size(w2.a, 1) == 0.0 && w2.a.stops == STOPS && NoneGivenUp(w.db, w2.db) && w2.ids == [1]
  {
    hide OwnBar, Snapshot, SubmitWithRecovery, Wf, Touches, STOPS, Cents, Prepare;
    VenueOf(w, HOLDING);
    SnapshotIs(w.a, HOLDING, 100.0);
    AskIsOwnBar(w, HOLDING, 100.0, 0.0, Seen(CASH, HELD, 100.0).(stops := STOPS));
    var intent := ExitIntent(1, 0.6, 100.0);
    assert Clamp(0.0) == 0.0;
    var d := DeskOf(w, 1);
    assert Act(w, LEAVE) == Put(w, 1, Send(d, intent, 0));
    WfOk(w);
    FlattenAcked(w.a, Ours(1, 2), 100.0, 0.6);
    RecoveryTouches(w.a, Request(Ours(1, 2), intent), 0.6);
    FreshNumber(w, HOLDING);
    SentDesk(d, intent);
  }

  // ----- the run -----

  const STORY: seq<Micro> := [Tick(1, 100.0), ENTER, Pump, Pump, LEAVE, Restart(0)]

  lemma StoryOk()
    ensures AllClosed(STORY) && RunSized(STORY, map[]) && forall m :: m in STORY ==> MicroOk(m) && !m.Operator?
  {
    hide Seen, EntryIntent, RoomForAQuantum;
    SixtyToBuy();
    assert Clamp(0.0) == 0.0 && Clamp(1.0) == 1.0;
  }

  lemma PrefixWf(w: World, k: nat)
    requires Wf(w) && k <= |STORY| && AllClosed(STORY) && forall m :: m in STORY ==> MicroOk(m)
    ensures Wf(Prefix(w, STORY, k))
  {
    hide Wf, STORY;
    assert forall m :: m in STORY[..k] ==> m in STORY;
    RunWf(w, STORY[..k]);
  }

  lemma Holds(w: World)
    requires w == RestartWorld(Empty(CASH), 0) && forall m :: m in STORY ==> MicroOk(m)
    ensures var x := Prefix(w, STORY, 4); Stage(x, HOLDING) && 1 in x.a.marks && x.a.marks[1] == 100.0
    ensures OwnBar(Prefix(w, STORY, 1), STORY[1])
  {
    hide Act, Stage, OwnBar, RestartWorld, MicroOk;
    Begins(CASH);
    assert STORY[..0] == [];
    NextPrefix(w, STORY, 0);
    Marked(w, Opening(CASH), 100.0);
    NextPrefix(w, STORY, 1);
    Enters(Prefix(w, STORY, 1));
    NextPrefix(w, STORY, 2);
    assert [Done(1, 0.6), Bought(1, 0.6, 100.0)] == [Done(1, 0.6)] + [Bought(1, 0.6, 100.0)];
    PumpDone(Prefix(w, STORY, 2), ENTERED, 1, 0.6, [Bought(1, 0.6, 100.0)]);
    NextPrefix(w, STORY, 3);
    Lands(Prefix(w, STORY, 3));
  }

  /** An orphan is reachable: this run meets every hypothesis of StopsMatchPositions, each of its bar calls is the
      portfolio's own bar at that moment, and after its restart a stop stands without its position and no fill is on
      its way. */
  lemma OrphanIsReachable()
    ensures StoreWf(Empty(CASH)) && NoOrphan(Empty(CASH).a, [1]) && AllClosed(STORY) && RunSized(STORY, map[])
    ensures var w1 := RestartWorld(Empty(CASH), 0);
      && Careful(w1, STORY)
      && OwnBar(Prefix(w1, STORY, 1), STORY[1]) && OwnBar(Prefix(w1, STORY, 4), STORY[4])
    ensures var w2 := Run(RestartWorld(Empty(CASH), 0), STORY);
      w2.a.queue == [] && 1 in w2.a.stops && Size(w2.a, 1) == 0.0
  {
    hide RestartWorld, OwnBar, Stage, Wf, StoreWf, Act, RunSized, AllClosed, MicroOk, Careful, Agree;
    StoreOk(CASH);
    StoryOk();
    var w1 := RestartWorld(Empty(CASH), 0);
    RestartWf(Empty(CASH), 0);
    Holds(w1);
    PrefixWf(w1, 4);
    NextPrefix(w1, STORY, 4);
    var x, y := Prefix(w1, STORY, 4), Prefix(w1, STORY, 5);
    Leaves(x);
    NothingGivenUp(w1, x);
    PrefixWf(w1, 5);
    WfStore(y);
    NextPrefix(w1, STORY, 5);
    assert STORY[..6] == STORY;
    RestartEffect(y, 0);
    RestartOrders(y, 0);
    RestartIs(y);
    RestartAgrees(Empty(CASH), 0);
    NothingGivenUpIsCareful(w1, STORY);
  }

  lemma RestartIs(w: World)
    ensures Act(w, Restart(0)) == RestartWorld(w, 0)
  {
    hide RestartWorld;
  }

  lemma NothingGivenUp(w: World, x: World)
    requires Stage(x, HOLDING)
    ensures NoneGivenUp(w.db, x.db)
  {
  }
}
