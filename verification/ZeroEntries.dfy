/** Why stop coverage asks that every entry has a quantity: a run in which one has none leaves a position without a
    stop. The account is nearly spent, so at ordinary prices the guards' room can be less than one quantum. */
module ZeroEntries {
  import opened Types
  import opened Guards
  import opened Sizing
  import opened Sim
  import opened Routing
  import opened Runtime
  import opened Runs
  import opened Conservation
  import opened StopCoverage
  import opened Stories

  const CASH := 0.000001

  const BEFORE := Pos(0.0, 100.0, 0.0)
  const AFTER := Pos(0.00000001, 50.0, 0.0)

  // ----- the three entries the rule asks for -----

  lemma TwoResizes(x: Verdict, y: Verdict, q: real)
    requires x.Resize? && y.Resize?
    ensures MinResize([x, y], q) == Min(x.quantity, Min(y.quantity, q)) && Reject !in [x, y]
  {
    assert [x, y][1..] == [y] && [y][1..] == [];
    assert MinResize([y], q) == Min(y.quantity, MinResize([], q));
  }

  /** The cluster cap leaves 6e-7 of room, and a quantum costs 1e-6. */
  lemma NothingToBuy()
    ensures EntryIntent(1, Buy, 100.0, Seen(CASH, NO_POS, 100.0), map[], []) == Some(Intent(1, Buy, 0.0, 0.0, false))
    ensures !RoomForAQuantum(1, Buy, 100.0, Seen(CASH, NO_POS, 100.0), map[], [])
  {
    var mark := 100.0;
    var snap := Seen(CASH, NO_POS, mark);
    assert NOTIONAL / mark * 100000000.0 == 100000000.0;
    var intent := PlainEntry(1, Buy, mark);
    assert intent.quantity == 1.0;
    var (v1, v2) := EntryVerdicts(intent, mark, snap, map[], []);
    assert v1 == Resize(0.00000003) && v2 == Resize(0.0);
    TwoResizes(v1, v2, 1.0);
    assert Scaled(NOTIONAL, 0.0, 1.0) == 0.0 && Cents(0.0) == 0.0;
    EntrySizedExactly(1, Buy, mark, snap, map[], []);
  }

  /** At half the price the same room holds one quantum. */
  lemma OneQuantum()
    ensures EntryIntent(1, Buy, 50.0, Seen(CASH, BEFORE, 50.0), map[], []) == Some(Intent(1, Buy, 0.00000001, 0.0, false))
  {
    var mark := 50.0;
    var snap := Seen(CASH, BEFORE, mark);
    assert NOTIONAL / mark * 100000000.0 == 200000000.0;
    var intent := PlainEntry(1, Buy, mark);
    assert intent.quantity == 2.0;
    var (v1, v2) := EntryVerdicts(intent, mark, snap, map[], []);
    assert v1 == Resize(0.00000006) && v2 == Resize(0.00000001);
    TwoResizes(v1, v2, 2.0);
    assert Scaled(NOTIONAL, 0.00000001, 2.0) == 0.0000005 && Cents(0.0000005) == 0.0;
  }

  /** Lower still, the position is worth 1e-7, equity is 6e-7, and two quanta fit. */
  lemma TwoQuanta()
    ensures EntryIntent(1, Buy, 10.0, Seen(0.0000006, AFTER, 10.0), map[], []) == Some(Intent(1, Buy, 0.00000002, 0.0, false))
  {
    hide LiquidationPrice;
    var mark := 10.0;
    var snap := Seen(0.0000006, AFTER, mark);
    assert NOTIONAL / mark * 100000000.0 == 1000000000.0;
    var intent := PlainEntry(1, Buy, mark);
    assert intent.quantity == 10.0;
    var ps := snap.positions;
    assert ps[1..] == [];
    assert |ps| == 1 && ps[0].iid == 1 && ps[0].size > 0.0 && ps[0].notional == 0.0000001;
    assert PositionNotional([]) == 0.0 && ClusterPositions([], map[], 4) == 0.0;
    assert PositionNotional(ps) == 0.0000001 && ClusterPositions(ps, map[], 4) == 0.0000001;
    var (v1, v2) := EntryVerdicts(intent, mark, snap, map[], []);
    assert v1 == Resize(0.00000017) && v2 == Resize(0.00000002);
    TwoResizes(v1, v2, 10.0);
    assert Scaled(NOTIONAL, 0.00000002, 10.0) == 0.0000002 && Cents(0.0000002) == 0.0;
  }

  // ----- the sends -----

  const E1 := Done(1, 0.0)
  const F1 := Bought(1, 0.0, 100.0)
  const E2 := Done(2, 0.00000001)
  const F2 := Bought(2, 0.00000001, 50.0)

  lemma NotLanded(a: Account, req: OrderRequest)
    requires Size(a, 1) == 0.0 && a.resting == [] && (a.ids == [] || a.ids == [1]) && req.iid == 1
    ensures !Landed(req, Snapshot(a), 0.0)
  {
    assert a.ids == [1] ==> a.ids[1..] == [];
    assert Views(a, a.ids) == [];
  }

  lemma VenueFacts(a: Account, s: Scene)
    requires OnVenue(a, s)
    ensures a.queue == s.queue && a.resting == [] && (a.ids == [] || a.ids == [1]) && Size(a, 1) == s.held.size
    ensures a.failNext == None && a.failQueue == s.fails
  {
  }

  /** Order 1, quantity zero: the first attempt fills but times out and does not look landed; the retry fills again. */
  lemma FirstSend(w: World, s: Scene)
    requires s == Opening(CASH).(fails := [Timeout]) && Stage(w, s) && w.a.marks == map[1 := 100.0]
    ensures var m := Ask(100.0, 1.0, Seen(CASH, NO_POS, 100.0));
      && Stage(Act(w, m), s.(state := EntryPending, waits := 1, num := 1, queue := [E1, F1, E1, F1], held := BEFORE, fails := []))
      && Act(w, m).a.marks == w.a.marks && OwnBar(w, m)
  {
    hide EntryIntent, RoomForAQuantum, Stage, OnVenue, OwnBar, Execute, Snapshot, Landed, Send;
    VenueOf(w, s);
    VenueFacts(w.a, s);
    NothingToBuy();
    SnapshotIs(w.a, s, 100.0);
    AskIsOwnBar(w, s, 100.0, 1.0, Seen(CASH, NO_POS, 100.0));
    var intent := Intent(1, Buy, 0.0, 0.0, false);
    StageParts(w, s);
    Asked(w, s, 100.0, Seen(CASH, NO_POS, 100.0), intent);
    var req := Request(Ours(1, 1), intent);
    Executed(w.a, s, 1, 0.0, 100.0);
    var b := Execute(Arrive(w.a, req), req);
    var sb := s.(queue := [E1, F1], held := BEFORE, fails := []);
    assert [] + [E1, F1] == [E1, F1];
    assert Submit(w.a, req) == (b, TimedOut);
    VenueFacts(b, sb);
    NotLanded(b, req);
    Executed(b, sb, 1, 0.0, 100.0);
    var c := Execute(Arrive(b, req), req);
    assert Submit(b, req) == (c, Ack(true));
    assert [E1, F1] + [E1, F1] == [E1, F1, E1, F1];
    FreshNumber(w, s);
    var s2 := s.(state := EntryPending, waits := 1, num := 1, queue := [E1, F1, E1, F1], held := BEFORE, fails := []);
    VenueScene(c, sb.(queue := [E1, F1, E1, F1]), s2);
    Sent(w, s, intent, c, s2);
  }

  /** Order 2 fills a quantum while order 1's second, empty fill is still queued. */
  lemma SecondSend(w: World, s: Scene)
    requires s == Opening(CASH).(num := 1, queue := [E1, F1], held := BEFORE) && Stage(w, s) && 1 in w.a.marks && w.a.marks[1] == 50.0
    ensures var m := Ask(50.0, 1.0, Seen(CASH, BEFORE, 50.0));
      && Stage(Act(w, m), s.(state := EntryPending, waits := 2, num := 2, queue := [E1, F1, E2, F2], held := AFTER))
      && Act(w, m).a.marks == w.a.marks && OwnBar(w, m)
  {
    hide EntryIntent, Stage, OnVenue, OwnBar, Execute, Snapshot, Landed, Send;
    VenueOf(w, s);
    VenueFacts(w.a, s);
    OneQuantum();
    SnapshotIs(w.a, s, 50.0);
    AskIsOwnBar(w, s, 50.0, 1.0, Seen(CASH, BEFORE, 50.0));
    var intent := Intent(1, Buy, 0.00000001, 0.0, false);
    StageParts(w, s);
    Asked(w, s, 50.0, Seen(CASH, BEFORE, 50.0), intent);
    var req := Request(Ours(1, 2), intent);
    Executed(w.a, s, 2, 0.00000001, 50.0);
    var b := Execute(Arrive(w.a, req), req);
    assert Submit(w.a, req) == (b, Ack(true));
    assert [E1, F1] + [E2, F2] == [E1, F1, E2, F2];
    FreshNumber(w, s);
    var s2 := s.(state := EntryPending, waits := 2, num := 2, queue := [E1, F1, E2, F2], held := AFTER);
    VenueScene(b, s.(queue := [E1, F1, E2, F2], held := AFTER), s2);
    Sent(w, s, intent, b, s2);
  }

  /** Order 3 is dropped, but order 2's position makes it look landed. */
  lemma ThirdSend(w: World, s: Scene)
    requires s == Opening(CASH).(num := 2, queue := [E2, F2], held := AFTER, fails := [Drop]) && Stage(w, s)
    requires 1 in w.a.marks && w.a.marks[1] == 10.0
    ensures var m := Ask(10.0, 1.0, Seen(0.0000006, AFTER, 10.0));
      && Stage(Act(w, m), s.(state := EntryPending, waits := 3, num := 3, fails := [])) && OwnBar(w, m)
  {
    hide EntryIntent, Stage, OwnBar;
    TwoQuanta();
    StageParts(w, s);
    VenueOf(w, s);
    SnapshotIs(w.a, s, 10.0);
    AskIsOwnBar(w, s, 10.0, 1.0, Seen(0.0000006, AFTER, 10.0));
    DroppedSend(w, s, 10.0, Seen(0.0000006, AFTER, 10.0), Intent(1, Buy, 0.00000002, 0.0, false));
  }

  // ----- deliveries -----

  /** An empty fill resets a router that is not long yet, whatever order it waits for. */
  lemma PumpEmptyFill(w: World, s: Scene, k: nat, price: real, rest: seq<Event>)
    requires Stage(w, s) && s.state == EntryPending && s.size == 0.0 && s.stops == map[] && s.lost == 0
    requires s.queue == [Bought(k, 0.0, price)] + rest && 1 <= k <= s.num
    ensures Stage(Act(w, Pump), s.(state := Flat, waits := 0, queue := rest)) && Act(w, Pump).a.marks == w.a.marks
  {
    hide Listed, RecordFill, FillEntry;
    assert s.queue[1..] == rest;
    FillListed(ApplyFill(DeskOf(w, 1), Buy, 0.0, price).db, k, 0.0, price, s.num, s.lost);
  }

  // ----- the counterexample -----

  const STORY: seq<Micro> := [
    Tick(1, 100.0), Inject(None, [Timeout]), Ask(100.0, 1.0, Seen(CASH, NO_POS, 100.0)), Pump, Pump,
    Tick(1, 50.0), Ask(50.0, 1.0, Seen(CASH, BEFORE, 50.0)), Pump, Pump,
    Tick(1, 10.0), Inject(None, [Drop]), Ask(10.0, 1.0, Seen(0.0000006, AFTER, 10.0)), Pump, Pump]

  lemma PartsOk()
    ensures forall p, t, snap :: PriceOk(p) ==> Closed(Ask(p, t, snap)) && Closed(Tick(1, p))
    ensures forall f :: Closed(Inject(None, [f]))
    ensures Closed(Pump)
  {
  }

  lemma StoryOk()
    ensures AllClosed(STORY) && forall m :: m in STORY ==> MicroOk(m) && !m.Operator?
  {
    hide Seen, Closed, MicroOk;
    PartsOk();
    forall m | m in STORY ensures Closed(m) && !m.Operator? && MicroOk(m) {
      var k :| 0 <= k < |STORY| && STORY[k] == m;
      ClosedOk(m);
    }
  }

  lemma ClosedOk(m: Micro)
    requires Closed(m)
    ensures MicroOk(m)
  {
    hide MicroOk;
  }

  /** The world the story reaches after k steps. */
  ghost predicate Reached(w: World, k: nat, s: Scene, mark: real)
    requires k <= |STORY| && forall m :: m in STORY ==> MicroOk(m)
  {
    Stage(Prefix(w, STORY, k), s) && 1 in Prefix(w, STORY, k).a.marks && Prefix(w, STORY, k).a.marks[1] == mark
  }

  /** The first order's two empty fills: one releases the router early, the other is still queued. */
  lemma FirstAct(w: World)
    requires w == RestartWorld(Empty(CASH), 0) && forall m :: m in STORY ==> MicroOk(m)
    ensures Reached(w, 5, Opening(CASH).(num := 1, queue := [E1, F1], held := BEFORE), 100.0)
    ensures OwnBar(Prefix(w, STORY, 2), STORY[2])
  {
    hide Act, Stage, OwnBar, Run, RestartWorld, MicroOk;
    Begins(CASH);
    var s := Opening(CASH);
    assert STORY[..0] == [];
    NothingRuns(w);
    NextPrefix(w, STORY, 0);
    Marked(w, s, 100.0);
    NextPrefix(w, STORY, 1);
    Scripted(Prefix(w, STORY, 1), s, Timeout);
    NextPrefix(w, STORY, 2);
    FirstSend(Prefix(w, STORY, 2), s.(fails := [Timeout]));
    var s3 := s.(state := EntryPending, waits := 1, num := 1, queue := [E1, F1, E1, F1], held := BEFORE);
    NextPrefix(w, STORY, 3);
    assert [E1, F1, E1, F1] == [E1] + [F1, E1, F1];
    PumpDone(Prefix(w, STORY, 3), s3, 1, 0.0, [F1, E1, F1]);
    NextPrefix(w, STORY, 4);
    assert [F1, E1, F1] == [F1] + [E1, F1];
    PumpEmptyFill(Prefix(w, STORY, 4), s3.(queue := [F1, E1, F1]), 1, 100.0, [E1, F1]);
  }

  /** The second order fills; the stray empty fill resets the router before that fill is delivered. */
  lemma SecondAct(w: World)
    requires forall m :: m in STORY ==> MicroOk(m)
    requires Reached(w, 5, Opening(CASH).(num := 1, queue := [E1, F1], held := BEFORE), 100.0)
    ensures Reached(w, 9, Opening(CASH).(num := 2, queue := [E2, F2], held := AFTER), 50.0)
    ensures OwnBar(Prefix(w, STORY, 6), STORY[6])
  {
    hide Act, Stage, OwnBar, Run, MicroOk, Prefix;
    var s := Opening(CASH).(num := 1, queue := [E1, F1], held := BEFORE);
    NextPrefix(w, STORY, 5);
    Marked(Prefix(w, STORY, 5), s, 50.0);
    NextPrefix(w, STORY, 6);
    SecondSend(Prefix(w, STORY, 6), s);
    var s3 := s.(state := EntryPending, waits := 2, num := 2, queue := [E1, F1, E2, F2], held := AFTER);
    NextPrefix(w, STORY, 7);
    assert [E1, F1, E2, F2] == [E1] + [F1, E2, F2];
    PumpDone(Prefix(w, STORY, 7), s3, 1, 0.0, [F1, E2, F2]);
    NextPrefix(w, STORY, 8);
    assert [F1, E2, F2] == [F1] + [E2, F2];
    PumpEmptyFill(Prefix(w, STORY, 8), s3.(queue := [F1, E2, F2]), 1, 100.0, [E2, F2]);
  }

  /** The third order is dropped and taken for landed; the second order's fill finds a router waiting for the third. */
  lemma ThirdAct(w: World)
    requires forall m :: m in STORY ==> MicroOk(m)
    requires Reached(w, 9, Opening(CASH).(num := 2, queue := [E2, F2], held := AFTER), 50.0)
    ensures Stage(Prefix(w, STORY, 14), Opening(CASH).(state := EntryPending, size := AFTER.size, waits := 3, num := 3, held := AFTER))
    ensures OwnBar(Prefix(w, STORY, 11), STORY[11])
  {
    hide Act, Stage, OwnBar, Run, MicroOk, Prefix;
    var s := Opening(CASH).(num := 2, queue := [E2, F2], held := AFTER);
    NextPrefix(w, STORY, 9);
    Marked(Prefix(w, STORY, 9), s, 10.0);
    NextPrefix(w, STORY, 10);
    Scripted(Prefix(w, STORY, 10), s, Drop);
    NextPrefix(w, STORY, 11);
    ThirdSend(Prefix(w, STORY, 11), s.(fails := [Drop]));
    var s3 := s.(state := EntryPending, waits := 3, num := 3);
    NextPrefix(w, STORY, 12);
    assert [E2, F2] == [E2] + [F2];
    PumpDone(Prefix(w, STORY, 12), s3, 2, 0.00000001, [F2]);
    NextPrefix(w, STORY, 13);
    PumpStrayFill(Prefix(w, STORY, 13), s3.(queue := [F2]), 2, 0.00000001, 50.0);
  }

  /** Every hypothesis of PositionsAreGuarded but the one on quantities holds of this run, each of its bar calls is the
      portfolio's own bar at that moment, and it ends with a position, no fill on its way and no stop. */
  lemma ZeroQuantityUncoversAPosition()
    ensures StoreWf(Empty(CASH)) && AllClosed(STORY) && !RunSized(STORY, map[])
    ensures var w1 := RestartWorld(Empty(CASH), 0);
      && Careful(w1, STORY)
      && (forall k :: 0 <= k < |STORY| && STORY[k].BarCall? ==> OwnBar(Prefix(w1, STORY, k), STORY[k]))
    ensures var w2 := Run(RestartWorld(Empty(CASH), 0), STORY);
      FillsOf(w2.a.queue, 1) == [] && Size(w2.a, 1) != 0.0 && 1 !in w2.a.stops
  {
    hide RestartWorld, Run, OwnBar, Stage, STORY, RunSized, StoreWf, NoneGivenUp, Careful, Wf, Agree;
    StoreOk(CASH);
    StoryOk();
    var w1 := RestartWorld(Empty(CASH), 0);
    FirstAct(w1);
    SecondAct(w1);
    ThirdAct(w1);
    Fourteen();
    Uncovered(w1, Prefix(w1, STORY, 14), Opening(CASH).(state := EntryPending, size := AFTER.size, waits := 3, num := 3, held := AFTER));
    forall k | 0 <= k < |STORY| && STORY[k].BarCall? ensures OwnBar(Prefix(w1, STORY, k), STORY[k]) { TheAsks(k); }
    Unsized();
    RestartWf(Empty(CASH), 0);
    RestartAgrees(Empty(CASH), 0);
    NothingGivenUpIsCareful(w1, STORY);
  }

  lemma Fourteen()
    ensures |STORY| == 14 && STORY[..14] == STORY
  {
  }

  lemma TheAsks(k: nat)
    requires k < |STORY| && STORY[k].BarCall?
    ensures k == 2 || k == 6 || k == 11
  {
    hide Seen;
  }

  lemma Unsized()
    requires AllClosed(STORY)
    ensures !RunSized(STORY, map[])
  {
    hide EntryIntent, RoomForAQuantum, Seen;
    NothingToBuy();
    var m := STORY[2];
    assert m in STORY && Clamp(1.0) == 1.0;
    assert !CallSized(m, map[]);
  }
}
