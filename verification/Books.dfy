/** Size and entry price are conserved together: what the venue holds of an instrument, entry price included, is what the
    router holds with the undelivered fills replayed on it. */
module Books {
  import opened Types
  import opened Guards
  import opened Sim
  import opened SimLaws
  import opened Routing
  import opened Accumulators
  import opened Delivery
  import opened Discipline
  import opened Runtime
  import opened Runs
  import opened Recovery
  import opened Conservation
  import opened Adoptions
  import opened Sizing
  import opened StopCoverage

  // ----- replaying fills -----

  predicate AllFills(fs: seq<Event>) {
    forall k :: 0 <= k < |fs| ==> fs[k].FillUpdate?
  }

  /** A venue position after fills. */
  function VenueAfter(p: Pos, fs: seq<Event>): Pos
    requires AllFills(fs)
    decreases |fs|
  {
    if fs == [] then p else VenueAfter(Book(p, Signed(fs[0].side, fs[0].quantity), fs[0].price).0, fs[1..])
  }

  /** A router's size and entry. */
  datatype Held = Held(size: real, entry: Option<real>)

  function Booked(h: Held, ev: Event): Held
    requires ev.FillUpdate?
  {
    var delta := Signed(ev.side, ev.quantity);
    Held(h.size + delta, FillEntry(h.size, h.entry, delta, ev.price))
  }

  /** The same after fills. */
  function RouterAfter(h: Held, fs: seq<Event>): Held
    requires AllFills(fs)
    decreases |fs|
  {
    if fs == [] then h else RouterAfter(Booked(h, fs[0]), fs[1..])
  }

  function HeldBy(r: Router): Held {
    Held(r.size, r.entry)
  }

  /** An entry price exactly when there is a position. */
  predicate WellEntered(h: Held) {
    h.size == 0.0 <==> h.entry.None?
  }

  lemma {:induction false} FillsAreFills(q: seq<Event>, i: int)
    ensures AllFills(FillsOf(q, i))
  {
    if q != [] { FillsAreFills(q[1..], i); }
  }

  /** Venue and router stay the same book over the same fills. */
  lemma {:induction false} ReplaysAgree(p: Pos, h: Held, fs: seq<Event>)
    requires AllFills(fs) && SameBooks(p, h.size, h.entry)
    ensures var q, g := VenueAfter(p, fs), RouterAfter(h, fs); SameBooks(q, g.size, g.entry)
    decreases |fs|
  {
    hide Book, FillEntry, SameBooks;
    if fs != [] {
      OneTrade(p, h.size, h.entry, Signed(fs[0].side, fs[0].quantity), fs[0].price);
      ReplaysAgree(Book(p, Signed(fs[0].side, fs[0].quantity), fs[0].price).0, Booked(h, fs[0]), fs[1..]);
    }
  }

  lemma {:induction false} RouterSplits(h: Held, fs: seq<Event>, gs: seq<Event>)
    requires AllFills(fs) && AllFills(gs)
    ensures AllFills(fs + gs) && RouterAfter(h, fs + gs) == RouterAfter(RouterAfter(h, fs), gs)
    decreases |fs|
  {
    hide Booked;
    if fs == [] {
      assert fs + gs == gs;
    } else {
      RouterSplits(Booked(h, fs[0]), fs[1..], gs);
      assert (fs + gs)[0] == fs[0] && (fs + gs)[1..] == fs[1..] + gs;
    }
  }

  lemma {:induction false} VenueSplits(p: Pos, fs: seq<Event>, gs: seq<Event>)
    requires AllFills(fs) && AllFills(gs)
    ensures AllFills(fs + gs) && VenueAfter(p, fs + gs) == VenueAfter(VenueAfter(p, fs), gs)
    decreases |fs|
  {
    hide Book;
    if fs == [] {
      assert fs + gs == gs;
    } else {
      VenueSplits(Book(p, Signed(fs[0].side, fs[0].quantity), fs[0].price).0, fs[1..], gs);
      assert (fs + gs)[0] == fs[0] && (fs + gs)[1..] == fs[1..] + gs;
    }
  }

  lemma BookedIsWell(h: Held, ev: Event)
    requires ev.FillUpdate? && WellEntered(h)
    ensures WellEntered(Booked(h, ev))
  {
    hide AverageEntry;
  }

  /** However the fills of an instrument are ordered, the router's size after them is its size plus their sum, and it has
      an entry exactly when that is not zero. */
  lemma {:induction false} ReplayedSize(h: Held, q: seq<Event>, i: int)
    requires WellEntered(h)
    ensures AllFills(FillsOf(q, i))
    ensures var g := RouterAfter(h, FillsOf(q, i)); WellEntered(g) && g.size == h.size + Undelivered(q, i)
    decreases |q|
  {
    hide FillEntry, WellEntered;
    FillsAreFills(q, i);
    if q != [] {
      if q[0].FillUpdate? && q[0].iid == i {
        FillsOfHead(q[0], q[1..], i);
        assert q == [q[0]] + q[1..];
        BookedIsWell(h, q[0]);
        ReplayedSize(Booked(h, q[0]), q[1..], i);
        assert FillsOf(q, i)[1..] == FillsOf(q[1..], i);
      } else {
        ReplayedSize(h, q[1..], i);
        PopFills(q, i);
      }
    }
  }

  // ----- what a submission does to the venue's book -----

  /** The venue's book of instrument i moved by exactly the fills it queued. */
  ghost predicate Moves(i: int, a: Account, b: Account) {
    && a.queue <= b.queue && AllFills(FillsOf(b.queue[|a.queue|..], i))
    && PosOf(b, i) == VenueAfter(PosOf(a, i), FillsOf(b.queue[|a.queue|..], i))
  }

  lemma StillMoves(i: int, a: Account, b: Account)
    requires b.queue == a.queue && PosOf(b, i) == PosOf(a, i)
    ensures Moves(i, a, b)
  {
    assert b.queue[|a.queue|..] == [];
  }

  lemma MovesTrans(i: int, a: Account, b: Account, c: Account)
    requires Moves(i, a, b) && Moves(i, b, c)
    ensures Moves(i, a, c)
  {
    hide Book, FillsOf;
    var x, y := b.queue[|a.queue|..], c.queue[|b.queue|..];
    assert c.queue[|a.queue|..] == x + y;
    FillsOfConcat(x, y, i);
    VenueSplits(PosOf(a, i), FillsOf(x, i), FillsOf(y, i));
  }

  lemma SubmitMoves(a: Account, req: OrderRequest)
    requires Ok(a)
    ensures Ok(Submit(a, req).0) && Moves(req.iid, a, Submit(a, req).0)
  {
    hide Submit, Executes, Ok, Arrive, Fee, FillQuantity, Book;
    var b := Submit(a, req).0;
    if Executes(a, req) {
      SubmitExecutes(a, req);
      var e1, e2 := OrderUpdate(req.cid, Filled, FillQuantity(a, req)), NewFill(a, req);
      assert b.queue[|a.queue|..] == [e1, e2];
      FillsOfPair(e1, e2, req.iid);
      ExecutedBook(a, req);
      assert FillsOf(b.queue[|a.queue|..], req.iid) == [e2] && [e2][1..] == [];
      OneFillAfter(PosOf(a, req.iid), e2);
    } else {
      SubmitFails(a, req);
      StillMoves(req.iid, a, b);
    }
  }

  lemma OneFillAfter(p: Pos, ev: Event)
    requires ev.FillUpdate?
    ensures VenueAfter(p, [ev]) == Book(p, Signed(ev.side, ev.quantity), ev.price).0
  {
    hide Book;
    assert [ev][1..] == [];
    assert VenueAfter(Book(p, Signed(ev.side, ev.quantity), ev.price).0, []) == Book(p, Signed(ev.side, ev.quantity), ev.price).0;
  }

  lemma ExecutedBook(a: Account, req: OrderRequest)
    requires Executes(a, req)
    ensures var ev := NewFill(a, req);
      && ev.FillUpdate? && ev.iid == req.iid
      && PosOf(Submit(a, req).0, req.iid) == Book(PosOf(a, req.iid), Signed(ev.side, ev.quantity), ev.price).0
  {
    hide Book, Fee;
    var c := Arrive(a, req);
    assert PosOf(c, req.iid) == PosOf(a, req.iid);
  }

  lemma RecoveryMoves(a: Account, req: OrderRequest, sizeBefore: real)
    requires Ok(a)
    ensures Moves(req.iid, a, SubmitWithRecovery(a, req, sizeBefore).0)
  {
    hide Submit, Moves, Landed, Snapshot, Ok;
    SubmitMoves(a, req);
    var (b, first) := Attempt(a, req, sizeBefore);
    if first.None? {
      SubmitMoves(b, req);
      MovesTrans(req.iid, a, b, Submit(b, req).0);
    }
  }

  // ----- what a call does to the router's book -----

  /** The call moved the venue's book by the fills it queued, and the router's only by adopting the venue's. */
  ghost predicate Rebooks(d: Desk, d2: Desk) {
    && Moves(d.r.iid, d.a, d2.a)
    && (NotAdopted(d.db, d2.db) ==> HeldBy(d2.r) == HeldBy(d.r))
    && (!NotAdopted(d.db, d2.db) ==> Mirrors(d2.r, d2.a))
  }

  lemma ConcludeKeeps(d: Desk, cid: Cid, out: Outcome, prior: State)
    requires cid in d.db.orders && d.db.orders[cid].status == Submitting && Ok(d.a)
    ensures var d2 := Conclude(d, cid, out, prior);
      && d2.a.queue == d.a.queue && PosOf(d2.a, d.r.iid) == PosOf(d.a, d.r.iid)
      && (if out == Failed then Mirrors(d2.r, d2.a) && cid in d2.db.orders && d2.db.orders[cid].status == Error
          else HeldBy(d2.r) == HeldBy(d.r)
               && d2.db.orders == d.db.orders[cid := d.db.orders[cid].(status := d2.db.orders[cid].status)] && !Adopting(d2.db.orders[cid].status))
  {
    hide Ok, Adopt, Snapshot, Mirrors, PosOf;
    AdoptEffect(Halt(d.(db := SetStatus(d.db, cid, Error))));
  }

  lemma ConcludeRebooks(d: Desk, d1: Desk, cid: Cid, out: Outcome, prior: State)
    requires Moves(d.r.iid, d.a, d1.a) && d1.r.iid == d.r.iid && HeldBy(d1.r) == HeldBy(d.r) && Ok(d1.a)
    requires cid in d1.db.orders && d1.db.orders[cid].status == Submitting && NotAdopted(d.db, d1.db) && cid !in d.db.orders
    ensures Rebooks(d, Conclude(d1, cid, out, prior))
  {
    hide Ok, Conclude, Mirrors, Moves;
    ConcludeKeeps(d1, cid, out, prior);
    MovesOn(d.r.iid, d.a, d1.a, Conclude(d1, cid, out, prior).a);
  }

  lemma MovesOn(i: int, a: Account, b: Account, c: Account)
    requires Moves(i, a, b)
    ensures c.queue == b.queue && PosOf(c, i) == PosOf(b, i) ==> Moves(i, a, c)
  {
  }

  lemma SameAdopted(db: Db, db1: Db, db2: Db)
    requires db2.orders == db1.orders
    ensures NotAdopted(db, db2) == NotAdopted(db, db1)
  {
  }

  lemma SendRebooks(d: Desk, intent: Intent, now: int)
    requires Good(d) && intent.iid == d.r.iid && intent.quantity >= 0.0
    ensures Rebooks(d, Send(d, intent, now))
  {
    hide Ok, SubmitWithRecovery, Conclude, OrdersWf, DecisionsWf, PendingWf, RowWf, Moves, Rebooks, Mirrors;
    var d1 := Prepare(d, intent, now);
    var cid := Ours(d.r.iid, d.r.num + 1);
    var (a, out) := SubmitWithRecovery(d1.a, Request(cid, intent), d.r.size);
    RecoveryTouches(d1.a, Request(cid, intent), d.r.size);
    TouchesTo(d.r.iid, d1.a, a);
    RecoveryMoves(d1.a, Request(cid, intent), d.r.size);
    assert NotAdopted(d.db, d1.db);
    ConcludeRebooks(d, d1.(a := a), cid, out, d.r.state);
  }

  lemma ExitRebooks(d: Desk, size: real, mark: real, now: int)
    requires Good(d)
    ensures Rebooks(d, Exit(d, size, mark, now))
  {
    hide Good, Rebooks, Send;
    SendRebooks(d, ExitIntent(d.r.iid, size, mark), now);
  }

  lemma SameRebooks(d: Desk, d2: Desk)
    requires d2.db.orders == d.db.orders && d2.a == d.a && HeldBy(d2.r) == HeldBy(d.r)
    ensures Rebooks(d, d2)
  {
    StillMoves(d.r.iid, d.a, d2.a);
  }

  lemma OnBarRebooks(d: Desk, bar: BarInput, snap: AccountSnapshot, kill: Kill, categories: map<int, Category>,
                     pending: seq<Intent>, now: int)
    requires Good(d) && (bar.close.Some? ==> PriceOk(bar.close.value))
    ensures Rebooks(d, OnBar(d, bar, snap, kill, categories, pending, now))
  {
    hide Good, Rebooks, Send, EntryIntent, EntryRaises, Exit, Clamp;
    SameRebooks(d, Skip(d));
    SameRebooks(d, d);
    if !Pending(d.r.state) && !Frozen(d.r.state) && bar.close.Some? {
      var mark := bar.close.value;
      ExitRebooks(d, d.r.size, mark, now);
      var intent := EntryIntent(d.r.iid, EntrySide(bar), mark, snap, categories, pending);
      EntryIntentShape(d.r.iid, EntrySide(bar), mark, snap, categories, pending);
      if intent.Some? { SendRebooks(d, intent.value, now); }
    }
  }

  lemma OnFastRebooks(d: Desk, mark: real, snap: AccountSnapshot, now: int)
    requires Good(d) && PriceOk(mark)
    ensures Rebooks(d, OnFast(d, mark, snap, now))
  {
    hide Good, Rebooks, Exit;
    SameRebooks(d, d);
    SameRebooks(d, SetState(d, Liquidated));
    ExitRebooks(d, d.r.size, mark, now);
  }

  lemma StateRebooks(d: Desk, d1: Desk, s: State)
    requires Rebooks(d, d1)
    ensures Rebooks(d, SetState(d1, s))
  {
    hide Moves;
    SameAdopted(d.db, d1.db, SetState(d1, s).db);
  }

  lemma ShutdownRebooks(d: Desk, mark: real, held: real, now: int)
    requires Good(d)
    ensures Rebooks(d, Shutdown(d, mark, held, now))
  {
    hide Good, Exit, Rebooks;
    ExitRebooks(d, held, mark, now);
    SameRebooks(d, d);
    StateRebooks(d, d, Halted);
    StateRebooks(d, Exit(d, held, mark, now), Halted);
  }

  lemma CheckPendingRebooks(d: Desk, now: int)
    requires Good(d)
    ensures Rebooks(d, CheckPending(d, Snapshot(d.a), now))
  {
    hide Ok, AdoptAndSettle, Snapshot, OrdersWf, DecisionsWf, NumbersWf, RowWf, Mirrors, Moves;
    SameRebooks(d, d);
    if Pending(d.r.state) && d.r.pendingSince.Some? && now - d.r.pendingSince.value > PENDING_TIMEOUT {
      AdoptAndSettleEffect(d.(db := SetStatus(d.db, d.r.pendingCid.value, TimeoutAdopted)));
      StillMoves(d.r.iid, d.a, CheckPending(d, Snapshot(d.a), now).a);
    }
  }

  lemma CalledRebooks(w: World, m: Micro)
    requires Wf(w) && MicroOk(m) && IsCall(m) && m.iid in w.routers
    ensures Rebooks(DeskOf(w, m.iid), Called(w, m))
  {
    hide Wf, Good, Rebooks, OnBar, OnFast, CheckPending, Shutdown, Snapshot;
    DeskGood(w, m.iid);
    var d := DeskOf(w, m.iid);
    match m
    case BarCall(_, bar, snap, kill, pending, now) => OnBarRebooks(d, bar, snap, kill, w.categories, pending, now);
    case FastCall(_, mark, liq, now) => OnFastRebooks(d, mark, Snapshot(w.a).(inLiquidation := liq), now);
    case TimeoutCall(_, now) => CheckPendingRebooks(d, now);
    case ShutdownCall(_, mark, now) => ShutdownRebooks(d, mark, Size(w.a, m.iid), now);
    case HaltCall(_) => SameRebooks(d, Halt(d));
    case Operator(_) => SameRebooks(d, ClearHalt(d));
  }

  // ----- the invariant -----

  /** The venue's book is the router's with the fills on their way replayed on it. */
  ghost predicate BooksAt(r: Router, a: Account) {
    && WellEntered(HeldBy(r)) && AllFills(FillsOf(a.queue, r.iid))
    && var g := RouterAfter(HeldBy(r), FillsOf(a.queue, r.iid));
    SameBooks(PosOf(a, r.iid), g.size, g.entry)
  }

  ghost predicate BooksHold(w: World) {
    forall i :: i in w.routers && NoGivenUpFill(w.a.queue, w.db, i) ==> BooksAt(w.routers[i], w.a)
  }

  /** Size and entry of every position are the same in both accounts. */
  ghost predicate SamePositions(a: Account, b: Account) {
    forall j :: PosOf(b, j).size == PosOf(a, j).size && PosOf(b, j).entry == PosOf(a, j).entry
  }

  lemma BooksCarry(r: Router, r2: Router, a: Account, b: Account)
    requires BooksAt(r, a) && r2.iid == r.iid && HeldBy(r2) == HeldBy(r) && FillsOf(b.queue, r.iid) == FillsOf(a.queue, r.iid)
    requires PosOf(b, r.iid).size == PosOf(a, r.iid).size && PosOf(b, r.iid).entry == PosOf(a, r.iid).entry
    ensures BooksAt(r2, b)
  {
    hide FillsOf, RouterAfter;
  }

  /** A router that mirrors the venue with nothing on its way. */
  lemma MirrorsBooks(r: Router, a: Account)
    requires Mirrors(r, a) && FillsOf(a.queue, r.iid) == []
    ensures BooksAt(r, a)
  {
    assert RouterAfter(HeldBy(r), []) == HeldBy(r);
  }

  lemma MovedBooks(r: Router, r2: Router, a: Account, b: Account)
    requires BooksAt(r, a) && r2.iid == r.iid && HeldBy(r2) == HeldBy(r) && Moves(r.iid, a, b)
    ensures BooksAt(r2, b)
  {
    hide FillsOf, RouterAfter, VenueAfter, SameBooks, WellEntered;
    var more := b.queue[|a.queue|..];
    assert b.queue == a.queue + more;
    FillsOfConcat(a.queue, more, r.iid);
    RouterSplits(HeldBy(r), FillsOf(a.queue, r.iid), FillsOf(more, r.iid));
    ReplaysAgree(PosOf(a, r.iid), RouterAfter(HeldBy(r), FillsOf(a.queue, r.iid)), FillsOf(more, r.iid));
  }

  lemma CallBooks(w: World, m: Micro)
    requires Wf(w) && BooksHold(w) && Closed(m) && IsCall(m) && m.iid in w.routers && CleanStep(w, m)
    ensures BooksHold(Act(w, m))
  {
    hide Wf, Step, Called, NotAdopted, NoGivenUpFill, NoLiveFill, Kept, Good, Touches, RowWf, PendingWf, NumbersWf, OrdersWf, DecisionsWf,
      DbKept, BooksAt, Moves, Mirrors, FillsOf, Rebooks, Ok;
    var w2 := Act(w, m);
    CalledSteps(w, m);
    CalledRebooks(w, m);
    ActWf(w, m);
    IidOf(w);
    var d, d2 := DeskOf(w, m.iid), Called(w, m);
    StepParts(d, d2);
    TouchesTo(m.iid, w.a, d2.a);
    forall i | i in w2.routers && NoGivenUpFill(w2.a.queue, w2.db, i) ensures BooksAt(w2.routers[i], w2.a) {
      FreeBefore(w, w2, i);
      if i != m.iid {
        TouchesOthers(m.iid, i, w.a, w2.a);
        TouchesPos(m.iid, i, w.a, w2.a);
        BooksCarry(w.routers[i], w2.routers[i], w.a, w2.a);
      } else {
        RebookedBooks(w, m);
      }
    }
  }

  lemma TouchesPos(i: int, j: int, a: Account, b: Account)
    requires Touches(i, a, b) && j != i
    ensures PosOf(b, j) == PosOf(a, j)
  {
  }

  lemma RebookedBooks(w: World, m: Micro)
    requires Closed(m) && IsCall(m) && m.iid in w.routers && CleanStep(w, m) && Act(w, m) == Put(w, m.iid, Called(w, m))
    requires Rebooks(DeskOf(w, m.iid), Called(w, m)) && Called(w, m).r.iid == w.routers[m.iid].iid == m.iid
    requires BooksAt(w.routers[m.iid], w.a) && NoGivenUpFill(Act(w, m).a.queue, Act(w, m).db, m.iid)
    ensures BooksAt(Called(w, m).r, Act(w, m).a)
  {
    hide Called, NotAdopted, NoGivenUpFill, NoLiveFill, BooksAt, Moves, Mirrors, FillsOf, Act;
    var d, d2 := DeskOf(w, m.iid), Called(w, m);
    if NotAdopted(d.db, d2.db) {
      MovedBooks(d.r, d2.r, d.a, d2.a);
    } else {
      assert AdoptsFor(w, m, m.iid);
      NeitherKind(d2.a.queue, d2.db, m.iid);
      MirrorsBooks(d2.r, d2.a);
    }
  }

  // ----- deliveries -----

  ghost predicate KeepsHeld(w: World, w2: World) {
    && w2.a == w.a && w2.ids == w.ids && (forall i :: i in w2.routers <==> i in w.routers)
    && forall i :: i in w.routers ==> HeldBy(w2.routers[i]) == HeldBy(w.routers[i]) && w2.routers[i].iid == w.routers[i].iid
  }

  lemma OneKept(w: World, i: int, cid: Cid, s: OrderStatus)
    requires i in w.routers
    ensures KeepsHeld(w, Put(w, i, HandleUpdate(DeskOf(w, i), cid, s)))
  {
    hide HandleUpdate, HeldBy;
    UpdateKeepsBook(DeskOf(w, i), cid, s);
  }

  lemma KeptTwice(w: World, w1: World, w2: World)
    requires KeepsHeld(w, w1) && KeepsHeld(w1, w2)
    ensures KeepsHeld(w, w2)
  {
    hide HeldBy;
  }

  lemma {:induction false} UpdateKeepsBooks(w: World, ids: seq<int>, cid: Cid, s: OrderStatus)
    ensures KeepsHeld(w, UpdateAll(w, ids, cid, s))
    decreases |ids|
  {
    hide HandleUpdate, KeepsHeld, Put;
    if ids == [] {
      NoneKept(w);
    } else if ids[0] in w.routers {
      var w1 := Put(w, ids[0], HandleUpdate(DeskOf(w, ids[0]), cid, s));
      OneKept(w, ids[0], cid, s);
      UpdateKeepsBooks(w1, ids[1..], cid, s);
      KeptTwice(w, w1, UpdateAll(w1, ids[1..], cid, s));
    } else {
      UpdateKeepsBooks(w, ids[1..], cid, s);
    }
  }

  lemma NoneKept(w: World)
    ensures KeepsHeld(w, w)
  {
  }

  lemma UpdateKeepsBook(d: Desk, cid: Cid, s: OrderStatus)
    ensures var d2 := HandleUpdate(d, cid, s); d2.a == d.a && HeldBy(d2.r) == HeldBy(d.r) && d2.r.iid == d.r.iid
  {
  }

  /** A fill that is not late is booked and nothing else. */
  lemma FillBooks(d: Desk, ev: Event)
    requires ev.FillUpdate? && ev.iid == d.r.iid && !LateFill(d, ev.cid)
    ensures HeldBy(HandleFill(d, ev).r) == Booked(HeldBy(d.r), ev)
  {
    hide FillEntry, StopPrice, RecordFill;
  }

  lemma LateMirrors(d: Desk, ev: Event)
    requires ev.FillUpdate? && ev.iid == d.r.iid && LateFill(d, ev.cid) && Ok(d.a)
    ensures Mirrors(HandleFill(d, ev).r, HandleFill(d, ev).a)
  {
    hide Ok, AdoptAndSettle, Snapshot, Mirrors;
    var row := d.db.orders[ev.cid];
    AdoptAndSettleEffect(d.(db := d.db.(orders := d.db.orders[ev.cid := row.(filled := row.filled + ev.quantity)])));
  }

  lemma PumpBooks(w: World)
    requires Wf(w) && BooksHold(w) && CleanStep(w, Pump)
    ensures BooksHold(Act(w, Pump))
  {
    hide Wf, UpdateAll, HandleFill, NoGivenUpFill, Kept, Ok, LateFill, BooksAt, FillsOf, CleanStep;
    if w.a.queue != [] {
      var ev := w.a.queue[0];
      var w1 := w.(a := w.a.(queue := w.a.queue[1..]));
      var w2 := Act(w, Pump);
      ActWf(w, Pump);
      IidOf(w);
      WfOk(w);
      if ev.OrderUpdate? {
        UpdateKeepsBooks(w1, w1.ids, ev.cid, ev.status);
      } else if ev.iid in w.routers {
        PopOk(w);
        FillFrame(DeskOf(w1, ev.iid), ev);
      }
      forall i | i in w2.routers && NoGivenUpFill(w2.a.queue, w2.db, i) ensures BooksAt(w2.routers[i], w2.a) {
        if ev.FillUpdate? && ev.iid == i {
          FilledBooks(w, ev);
        } else {
          FreePopped(w, w2, i);
          PopFills(w.a.queue, i);
          BooksCarry(w.routers[i], w2.routers[i], w.a, w2.a);
        }
      }
    }
  }

  lemma FilledBooks(w: World, ev: Event)
    requires Wf(w) && BooksHold(w) && CleanStep(w, Pump) && w.a.queue != [] && ev == w.a.queue[0] && ev.FillUpdate? && ev.iid in w.routers
    requires w.routers[ev.iid].iid == ev.iid && Ok(w.a) && Kept(w, Act(w, Pump))
    requires NoGivenUpFill(Act(w, Pump).a.queue, Act(w, Pump).db, ev.iid)
    ensures BooksAt(Act(w, Pump).routers[ev.iid], Act(w, Pump).a)
  {
    hide Wf, HandleFill, NoGivenUpFill, NoLiveFill, Kept, Ok, LateFill, BooksAt, FillsOf, Mirrors;
    var i := ev.iid;
    var rest := w.a.queue[1..];
    var w1 := w.(a := w.a.(queue := rest));
    var d := DeskOf(w1, i);
    var w2 := Act(w, Pump);
    PopOk(w);
    FillFrame(d, ev);
    assert w2 == Put(w1, i, HandleFill(d, ev));
    SameLate(DeskOf(w, i), d, ev.cid);
    if LateFill(d, ev.cid) {
      LateMirrors(d, ev);
      assert AdoptsFor(w, Pump, i);
      NeitherKind(w2.a.queue, w2.db, i);
      MirrorsBooks(w2.routers[i], w2.a);
    } else {
      NotLateNotGivenUp(w, ev);
      FreePopped(w, w2, i);
      FillBooks(d, ev);
      DeliveredBooks(w.routers[i], w2.routers[i], w.a, w2.a, ev);
    }
  }

  lemma DeliveredBooks(r: Router, r2: Router, a: Account, b: Account, ev: Event)
    requires BooksAt(r, a) && a.queue != [] && a.queue[0] == ev && ev.FillUpdate? && ev.iid == r.iid == r2.iid
    requires b.queue == a.queue[1..] && PosOf(b, r.iid) == PosOf(a, r.iid) && HeldBy(r2) == Booked(HeldBy(r), ev)
    ensures BooksAt(r2, b)
  {
    hide FillEntry, SameBooks;
    assert a.queue == [ev] + b.queue;
    FillsOfHead(ev, b.queue, r.iid);
    FillsAreFills(b.queue, r.iid);
    assert FillsOf(a.queue, r.iid)[1..] == FillsOf(b.queue, r.iid);
    BookedIsWell(HeldBy(r), ev);
  }

  /** A fired stop closes the venue's position at once, and its fill is dispatched ahead of everything queued; replayed
      after it, what is queued still ends flat. */
  lemma StopBooks(w: World, i: int)
    requires Wf(w) && BooksHold(w)
    ensures BooksHold(Act(w, StopFires(i)))
  {
    hide Wf, HandleFill, FireStop, Fires, PlainCash, NoGivenUpFill, Kept, StopFill, Ok, BooksAt, FillsOf, LateFill;
    if Fires(w.a, i) {
      var ev := StopFill(w.a, i);
      var w1 := w.(a := FireStop(w.a, i));
      var w2 := Act(w, StopFires(i));
      IidOf(w);
      WfOk(w);
      ActWf(w, StopFires(i));
      FireStopEffect(w.a, i);
      StopFillIs(w.a, i);
      StopIdsUnrecorded(w, ev.cid);
      if i in w.routers {
        UnrecordedNotLate(DeskOf(w1, i), ev.cid);
        FillAdds(DeskOf(w1, i), ev);
        FillFrame(DeskOf(w1, i), ev);
        FillBooks(DeskOf(w1, i), ev);
      }
      forall j | j in w2.routers && NoGivenUpFill(w2.a.queue, w2.db, j) ensures BooksAt(w2.routers[j], w2.a) {
        FreeBefore(w, w2, j);
        if j == i {
          StoppedBooks(w.routers[i], w2.routers[i], w.a, w2.a, ev);
        } else {
          BooksCarry(w.routers[j], w2.routers[j], w.a, w2.a);
        }
      }
    }
  }

  lemma StoppedBooks(r: Router, r2: Router, a: Account, b: Account, ev: Event)
    requires BooksAt(r, a) && ev.FillUpdate? && r2.iid == r.iid && HeldBy(r2) == Booked(HeldBy(r), ev)
    requires b.queue == a.queue && Size(b, r.iid) == 0.0 && Signed(ev.side, ev.quantity) == -Size(a, r.iid)
    ensures BooksAt(r2, b)
  {
    hide FillEntry, FillsOf, RouterAfter;
    BookedIsWell(HeldBy(r), ev);
    ReplayedSize(HeldBy(r), a.queue, r.iid);
    ReplayedSize(HeldBy(r2), a.queue, r.iid);
  }

  // ----- everything else -----

  lemma VenueBooks(w: World, m: Micro)
    requires Wf(w) && BooksHold(w) && Admissible(m)
    requires m.Tick? || m.Fund? || m.Inject? || m.DropOrphan? || m.CancelOrder? || m.GuardPosition?
    ensures BooksHold(Act(w, m))
  {
    hide Wf, NoGivenUpFill, Kept, BooksAt, FillsOf, Act;
    var w2 := Act(w, m);
    ActWf(w, m);
    VenuePositions(w, m);
    forall j | j in w2.routers && NoGivenUpFill(w2.a.queue, w2.db, j) ensures BooksAt(w2.routers[j], w2.a) {
      FreeBefore(w, w2, j);
      BooksCarry(w.routers[j], w2.routers[j], w.a, w2.a);
    }
  }

  lemma VenuePositions(w: World, m: Micro)
    requires Admissible(m) && (m.Tick? || m.Fund? || m.Inject? || m.DropOrphan? || m.CancelOrder? || m.GuardPosition?)
    ensures var w2 := Act(w, m);
      && SamePositions(w.a, w2.a) && w2.a.queue == w.a.queue && (forall j :: j in w2.routers <==> j in w.routers)
      && forall j :: j in w.routers ==> w2.routers[j] == w.routers[j].(stop := w2.routers[j].stop)
  {
    hide FundingPaid, VenueStop;
  }

  lemma RestartBooks(w: World, now: int)
    requires StoreWf(w)
    ensures BooksHold(RestartWorld(w, now))
  {
    hide RestartWorld, StoreWf, WasFrozen, RecoveredState, Mirrors;
    RestartEffect(w, now);
    RestartWf(w, now);
    var w2 := RestartWorld(w, now);
    IidOf(w2);
    forall i | i in w2.routers ensures BooksAt(w2.routers[i], w2.a) { MirrorsBooks(w2.routers[i], w2.a); }
  }

  lemma ActBooks(w: World, m: Micro)
    requires Wf(w) && BooksHold(w) && Closed(m) && CleanStep(w, m)
    ensures BooksHold(Act(w, m))
  {
    hide Wf, BooksHold, RestartWorld, GuardWorld, Dispatch, FireStop, Fires, StopFill, Called, CleanStep;
    if IsCall(m) {
      if m.iid in w.routers { CallBooks(w, m); }
    } else if m.Restart? {
      WfStore(w);
      RestartBooks(w, m.now);
    } else if m.Pump? {
      PumpBooks(w);
    } else if m.StopFires? {
      StopBooks(w, m.iid);
    } else {
      VenueBooks(w, m);
    }
  }

  lemma {:induction false} RunBooks(w: World, ms: seq<Micro>, k: nat)
    requires Wf(w) && BooksHold(w) && AllClosed(ms) && CleanAdoptions(w, ms) && k <= |ms|
    ensures Wf(Prefix(w, ms, k)) && BooksHold(Prefix(w, ms, k))
    decreases k
  {
    hide Wf, BooksHold, CleanStep, MicroOk, Act, Run;
    if k == 0 {
      assert ms[..0] == [];
      NothingRuns(w);
    } else {
      RunBooks(w, ms, k - 1);
      NextPrefix(w, ms, k - 1);
      assert ms[k - 1] in ms;
      ActWf(Prefix(w, ms, k - 1), ms[k - 1]);
      ActBooks(Prefix(w, ms, k - 1), ms[k - 1]);
    }
  }

  /** Conservation of books. From any restart and over any run in which no adoption of an instrument comes while a live
      fill of it is on its way: whenever no fill of a given-up order of the instrument is on its way, replaying its
      undelivered fills on the router's size and entry gives the venue's size and entry. With nothing on its way the two
      are the same: no entry exactly when flat, and else the venue's. */
  lemma BooksConserved(w: World, start: int, ms: seq<Micro>, i: int)
    requires StoreWf(w) && AllClosed(ms) && i in w.ids && CleanAdoptions(RestartWorld(w, start), ms)
    ensures var w2 := Run(RestartWorld(w, start), ms);
      && i in w2.routers && AllFills(FillsOf(w2.a.queue, i))
      && (NoGivenUpFill(w2.a.queue, w2.db, i) ==>
            var g := RouterAfter(HeldBy(w2.routers[i]), FillsOf(w2.a.queue, i)); SameBooks(PosOf(w2.a, i), g.size, g.entry))
      && (FillsOf(w2.a.queue, i) == [] ==> SameBooks(PosOf(w2.a, i), w2.routers[i].size, w2.routers[i].entry))
  {
    hide RestartWorld, Run, StoreWf, RouterWf, TablesWf, CleanAdoptions, NoGivenUpFill, FillsOf;
    var w1 := RestartWorld(w, start);
    RestartWf(w, start);
    RestartBooks(w, start);
    RunBooks(w1, ms, |ms|);
    assert ms[..|ms|] == ms;
    RunWf(w1, ms);
    var w2 := Run(w1, ms);
    IidOf(w2);
    FillsAreFills(w2.a.queue, i);
    if FillsOf(w2.a.queue, i) == [] { NothingGivenUpOnTheWay(w2.a.queue, w2.db, i); }
  }
}
