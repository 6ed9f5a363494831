/** A bar that takes a cluster's net past its cap with no order resized: at a very large price an entry is recorded at
    more than it is worth, and that makes room for entries on the other side. */
module ClusterGap {
  import opened Types
  import opened Guards
  import opened Sim
  import opened Routing
  import opened Runtime
  import opened Portfolio
  import opened Caps

  const LARGE := 6000000000.0

  const IDS := [1, 2, 3, 4, 5]

  const CLOSES: map<int, real> := map[1 := LARGE, 2 := 100.0, 3 := 100.0, 4 := 100.0, 5 := 100.0]

  const FREE: Config := Costs(0.0, 0.0, 0.0, 100.0)

  const FRESH := map i | i in {1, 2, 3, 4, 5} :: NewRouter(i)

  /** Five idle routers, 500 of equity, no position. */
  const START := World(IDS, FRESH, Account(FREE, 500.0, CLOSES, [], map[], map[], [], 0, None, [], []), Db([], map[], [], map[]), map[])

  const SEEN := AccountSnapshot(500.0, [], [], map[], false)

  /** One long at the large price, then four shorts. */
  function SideOf(i: int): Side {
    if i == 1 then Buy else Sell
  }

  function HistoryOf(i: int): BarEvent
    requires i in CLOSES
  {
    BarEvent(i, BarInput(Some(CLOSES[i]), true, true, if i == 1 then 1.0 else -1.0))
  }

  const EVENTS := [HistoryOf(1), HistoryOf(2), HistoryOf(3), HistoryOf(4), HistoryOf(5)]

  function OrderOf(i: int): Intent
    requires i in CLOSES
  {
    Intent(i, SideOf(i), if i == 1 then 0.00000001 else 1.0, 100.0, false)
  }

  lemma Plain(i: int)
    requires i in CLOSES
    ensures PlainEntry(i, SideOf(i), CLOSES[i]) == OrderOf(i)
  {
    if i == 1 {
      var x := NOTIONAL / LARGE;
      assert 0.00000001 <= x < 0.00000002;
      assert 1.0 <= x * 100000000.0 < 2.0;
    } else {
      assert NOTIONAL / 100.0 * 100000000.0 == 100000000.0;
    }
  }

  /** With room for the whole order under every cap both guards allow it as it is. */
  lemma Allowed(i: int, pending: seq<Intent>)
    requires i in CLOSES && EntryNotional(pending) <= 400.0
    requires Signed(SideOf(i), ClusterEntries(pending, map[], 4)) <= 200.0
    ensures EntryIntent(i, SideOf(i), CLOSES[i], SEEN, map[], pending) == Some(OrderOf(i))
    ensures !EntryRaises(i, SideOf(i), CLOSES[i], SEEN, map[], pending)
  {
    hide EntryNotional, ClusterEntries, EntryQuantity;
    Plain(i);
    var intent := OrderOf(i);
    assert PositionNotional([]) == 0.0 && ClusterPositions([], map[], 4) == 0.0;
    assert ClusterOf(map[], i) == 4;
    var (v1, v2) := EntryVerdicts(intent, CLOSES[i], SEEN, map[], pending);
    assert v1 == Allow && v2 == Allow;
    assert [v1, v2][1..] == [v2] && [v2][1..] == [];
    assert MinResize([v2], intent.quantity) == intent.quantity;
  }

  // ----- the loop -----

  /** The first k routers have their entries in flight. */
  ghost predicate Lined(w: World, k: nat) {
    && w.ids == IDS && w.categories == map[] && w.routers.Keys == {1, 2, 3, 4, 5}
    && (forall i :: i in w.routers ==> w.routers[i].iid == i)
    && (forall i :: i in w.routers && i <= k ==> w.routers[i].state == EntryPending && w.routers[i].pendingIntent == Some(OrderOf(i)))
    && (forall i :: i in w.routers && i > k ==> w.routers[i] == NewRouter(i))
    && NoFailures(w.a) && w.a.marks == CLOSES
  }

  lemma SumFive(m: map<int, real>)
    ensures Sum(IDS, m) == At(m, 1) + At(m, 2) + At(m, 3) + At(m, 4) + At(m, 5)
  {
    assert IDS[1..] == [2, 3, 4, 5] && [2, 3, 4, 5][1..] == [3, 4, 5] && [3, 4, 5][1..] == [4, 5] && [4, 5][1..] == [5];
    assert [5][1..] == [];
    assert Sum([5], m) == At(m, 5) + Sum([], m);
    assert Sum([4, 5], m) == At(m, 4) + Sum([5], m);
    assert Sum([3, 4, 5], m) == At(m, 3) + Sum([4, 5], m);
    assert Sum([2, 3, 4, 5], m) == At(m, 2) + Sum([3, 4, 5], m);
  }

  lemma InFlightSoFar(w: World, k: nat)
    requires Lined(w, k) && k < 5
    ensures EntryNotional(PendingOthers(w, IDS, k + 1)) == 100.0 * k as real
    ensures ClusterEntries(PendingOthers(w, IDS, k + 1), map[], 4) == if k == 0 then 0.0 else 100.0 - 100.0 * (k - 1) as real
  {
    hide NoFailures;
    var i := k + 1;
    assert i in w.routers && w.routers[i] == NewRouter(i);
    PendingSum(w, IDS, i);
    PendingNetSum(w, IDS, i, 4);
    var m, n := RecordedMap(w), NetMap(w, 4);
    SumFive(m);
    SumFive(n);
    forall j | j in w.routers
      ensures At(m, j) == (if j <= k then 100.0 else 0.0)
      ensures At(n, j) == (if j <= k then Signed(SideOf(j), 100.0) else 0.0)
    {
    }
    assert 1 in w.routers && 2 in w.routers && 3 in w.routers && 4 in w.routers && 5 in w.routers;
  }

  lemma Clean(a: Account, req: OrderRequest, sizeBefore: real)
    requires NoFailures(a) && req.iid in a.marks && !req.reduceOnly
    ensures var (b, out) := SubmitWithRecovery(a, req, sizeBefore);
      out == Acked && b.marks == a.marks && NoFailures(b)
  {
    hide Book, Fee;
  }

  lemma SendLines(d: Desk, intent: Intent)
    requires d.r == NewRouter(intent.iid) && !intent.reduceOnly && NoFailures(d.a) && intent.iid in d.a.marks
    ensures var d2 := Send(d, intent, 0);
      && d2.r.iid == intent.iid && d2.r.state == EntryPending && d2.r.pendingIntent == Some(intent)
      && NoFailures(d2.a) && d2.a.marks == d.a.marks
  {
    hide SubmitWithRecovery;
    Clean(d.a, Request(Ours(intent.iid, 1), intent), 0.0);
  }

  lemma NextLines(w: World, k: nat)
    requires Lined(w, k) && k < 5
    ensures !EventRaises(w, HistoryOf(k + 1), SEEN, KeepRunning)
    ensures Lined(Act(w, BarMicro(w, HistoryOf(k + 1), SEEN, KeepRunning, 0)), k + 1)
  {
    hide EntryIntent, EntryRaises, PendingOthers, Send, NoFailures, EntryNotional, ClusterEntries;
    var i := k + 1;
    InFlightSoFar(w, k);
    var pending := PendingOthers(w, IDS, i);
    Allowed(i, pending);
    assert i in w.routers && w.routers[i] == NewRouter(i);
    assert Clamp(1.0) == 1.0 && Clamp(-1.0) == -1.0;
    var d := DeskOf(w, i);
    SendLines(d, OrderOf(i));
    assert OnBar(d, HistoryOf(i).bar, SEEN, KeepRunning, map[], pending, 0) == Send(d, OrderOf(i), 0);
  }

  lemma AllPriced()
    ensures forall e :: e in EVENTS ==> Priced(e) && e.iid in START.routers
  {
  }

  lemma {:induction false} RestLines(w: World, k: nat)
    requires Lined(w, k) && k <= 5 && forall e :: e in EVENTS[k..] ==> Priced(e)
    ensures Lined(OnBarLoop(w, EVENTS[k..], SEEN, KeepRunning, 0), 5)
    decreases 5 - k
  {
    hide Lined, Act, EventRaises, Priced;
    if k < 5 {
      assert EVENTS[k..][0] == HistoryOf(k + 1) && EVENTS[k..][1..] == EVENTS[k + 1..];
      assert EVENTS[k..][0] in EVENTS[k..];
      NextLines(w, k);
      RestLines(Act(w, BarMicro(w, HistoryOf(k + 1), SEEN, KeepRunning, 0)), k + 1);
    }
  }

  lemma Starts()
    ensures Lined(START, 0) && Snapshot(START.a) == SEEN
  {
  }

  // ----- the witness -----

  /** No position, 500 of equity, a cluster cap of 300. After this bar the recorded net is -300, which is the cap, and the
      actual net is -340; no order was resized. So half a cent per resized order does not bound a cluster's net, nor do
      cents per order: the quantum's worth in CapsHoldAcrossABar is needed. */
  lemma ClusterNetPassesItsCap()
    ensures ClosesOf(EVENTS, CLOSES) && forall e :: e in EVENTS ==> Priced(e) && e.iid in START.routers
    ensures var w2 := PortfolioOnBar(START, EVENTS, KeepRunning, 0);
      var t := TotalsOf(START, CLOSES, w2, 4);
      && Snapshot(START.a) == SEEN && TotalsOf(START, CLOSES, START, 4).net == 0.0
      && t.slack == 0.0 && t.net == -300.0 && t.actualNet == -340.0
      && Abs(t.net) == CLUSTER_CAP * SEEN.equity
      && Abs(t.actualNet) > CLUSTER_CAP * SEEN.equity + HALF_CENT + 2.0 * HALF_CENT * EntriesSent(START, CLOSES, w2)
  {
    hide Snapshot, OnBarLoop, TotalsOf, EntriesSent, Lined, START, EVENTS;
    AllPriced();
    Starts();
    RestLines(START, 0);
    WholeBar();
    Idle();
    Totalled(PortfolioOnBar(START, EVENTS, KeepRunning, 0));
  }

  lemma WholeBar()
    ensures EVENTS[0..] == EVENTS && ClosesOf(EVENTS, CLOSES)
  {
  }

  lemma Idle()
    ensures TotalsOf(START, CLOSES, START, 4).net == 0.0
  {
    hide Sum;
    SumFive(NetMap(START, 4));
  }

  lemma Totalled(w: World)
    requires Lined(w, 5)
    ensures var t := TotalsOf(START, CLOSES, w, 4);
      t.slack == 0.0 && t.net == -300.0 && t.actualNet == -340.0 && EntriesSent(START, CLOSES, w) == 5.0
  {
    hide Sum, NoFailures, EntryQuantity;
    SumFive(SlackMap(START, CLOSES, w));
    SumFive(NetMap(w, 4));
    SumFive(ActualNetMap(START, CLOSES, w, 4));
    SumFive(SentMap(START, CLOSES, w));
    assert 1 in w.routers && 2 in w.routers && 3 in w.routers && 4 in w.routers && 5 in w.routers;
    forall i | i in w.routers ensures EntryQuantity(CLOSES[i]) == OrderOf(i).quantity { Plain(i); }
  }
}
