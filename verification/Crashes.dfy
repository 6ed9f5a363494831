/** Order numbers when the process can also die inside a send: after the decision row, after the order row, after the
    pending state, or after the order left but before its outcome was written. */
module Crashes {
  import opened Types
  import opened Sim
  import opened Routing
  import opened Delivery
  import opened Discipline
  import opened Runtime
  import opened Runs

  /** How far the send got. */
  datatype Point = DecisionWritten | OrderWritten | StateWritten | Attempted | Submitted

  /** A completed micro, or a send of instrument `iid` that dies at `point` and the restart after it. */
  datatype Leg = Whole(m: Micro) | Crash(iid: int, intent: Intent, now: int, point: Point, start: int)

  ghost predicate LegOk(leg: Leg) {
    match leg
    case Whole(m) => Admissible(m)
    case Crash(i, intent, _, _, _) => intent.iid == i && intent.quantity >= 0.0
  }

  /** The tables as the crash leaves them. */
  function TornDb(d: Desk, intent: Intent, now: int, point: Point): Db {
    var cid := Ours(d.r.iid, d.r.num + 1);
    var d1 := Record(d.(r := d.r.(num := d.r.num + 1)), Some(intent), Some(cid));
    match point
    case DecisionWritten => d1.db
    case OrderWritten =>
      PutOrder(d1.db, cid, OrderRow(intent.iid, intent.side, intent.quantity, intent.reduceOnly, Submitting, 0.0, None))
    case _ => Prepare(d, intent, now).db
  }

  /** The venue as the crash leaves it. */
  function TornVenue(d: Desk, intent: Intent, point: Point): Account {
    var req := Request(Ours(d.r.iid, d.r.num + 1), intent);
    match point
    case Attempted => Submit(d.a, req).0
    case Submitted => SubmitWithRecovery(d.a, req, d.r.size).0
    case _ => d.a
  }

  function Torn(w: World, leg: Leg): World
    requires leg.Crash? && leg.iid in w.routers
  {
    var d := DeskOf(w, leg.iid);
    w.(a := TornVenue(d, leg.intent, leg.point), db := TornDb(d, leg.intent, leg.now, leg.point))
  }

  ghost function Leap(w: World, leg: Leg): World
    requires LegOk(leg)
  {
    match leg
    case Whole(m) => Act(w, m)
    case Crash(i, _, _, _, start) => if i in w.routers then RestartWorld(Torn(w, leg), start) else w
  }

  /** The order ids whose submission the leg began. A completed call submits exactly the order it records. */
  ghost function Submissions(w: World, leg: Leg): iset<Cid>
    requires LegOk(leg)
  {
    match leg
    case Whole(m) => iset c | c in Act(w, m).db.orders && c !in w.db.orders
    case Crash(i, _, _, point, _) =>
      if i in w.routers && (point == Attempted || point == Submitted) then iset{Ours(i, w.routers[i].num + 1)} else iset{}
  }

  ghost function Journey(w: World, legs: seq<Leg>): World
    requires forall leg :: leg in legs ==> LegOk(leg)
  {
    if legs == [] then w else Leap(Journey(w, legs[..|legs| - 1]), legs[|legs| - 1])
  }

  /** What the k-th leg submits. */
  ghost function SubmittedBy(w: World, legs: seq<Leg>, k: nat): iset<Cid>
    requires k < |legs| && forall leg :: leg in legs ==> LegOk(leg)
  {
    Submissions(Journey(w, legs[..k]), legs[k])
  }

  // ----- a torn store is still a store -----

  lemma TornTables(d: Desk, intent: Intent, now: int, point: Point)
    requires Good(d) && intent.iid == d.r.iid
    ensures var db := TornDb(d, intent, now, point);
      && OrdersWf(db) && DecisionsWf(db)
      && (forall c :: c in d.db.orders ==> c in db.orders)
      && (forall j :: j in d.db.positions ==> j in db.positions)
      && (point != DecisionWritten ==> Ours(d.r.iid, d.r.num + 1) in db.orders)
    ensures Ours(d.r.iid, d.r.num + 1) !in d.db.orders
  {
    hide Ok;
    PrepareGood(d, intent, now);
    var db := TornDb(d, intent, now, point);
    var cid := Ours(d.r.iid, d.r.num + 1);
    assert cid !in d.db.orders;
    if point == OrderWritten {
      assert db.orderIds == d.db.orderIds + [cid];
      forall c ensures c in db.orders <==> c in db.orderIds {
        assert c in db.orderIds <==> c in d.db.orderIds || c == cid;
      }
    }
  }

  lemma TornAccount(d: Desk, intent: Intent, point: Point)
    requires Ok(d.a) && QueueWf(d.a) && intent.iid == d.r.iid && intent.quantity >= 0.0
    ensures Ok(TornVenue(d, intent, point)) && QueueWf(TornVenue(d, intent, point))
  {
    hide Ok, QueueWf, Touches, Submit, SubmitWithRecovery;
    var req := Request(Ours(d.r.iid, d.r.num + 1), intent);
    SubmitTouches(d.a, req);
    RecoveryTouches(d.a, req, d.r.size);
    TouchedOk(d.r.iid, d.a, Submit(d.a, req).0);
    TouchedOk(d.r.iid, d.a, SubmitWithRecovery(d.a, req, d.r.size).0);
  }

  lemma TouchedOk(i: int, a: Account, b: Account)
    requires Touches(i, a, b) && QueueWf(a)
    ensures Ok(b) && QueueWf(b)
  {
    QueueStaysWf(i, a, b);
  }

  lemma TornStore(w: World, leg: Leg)
    requires Wf(w) && leg.Crash? && LegOk(leg) && leg.iid in w.routers
    ensures StoreWf(Torn(w, leg))
    ensures forall c :: c in w.db.orders ==> c in Torn(w, leg).db.orders
    ensures Ours(leg.iid, w.routers[leg.iid].num + 1) !in w.db.orders
    ensures leg.point != DecisionWritten ==> Ours(leg.iid, w.routers[leg.iid].num + 1) in Torn(w, leg).db.orders
  {
    hide Ok, OrdersWf, DecisionsWf, QueueWf, TornDb, TornVenue, Good, Wf;
    DeskGood(w, leg.iid);
    WfStore(w);
    WfRows(w);
    var d := DeskOf(w, leg.iid);
    GoodParts(d);
    TornTables(d, leg.intent, leg.now, leg.point);
    TornAccount(d, leg.intent, leg.point);
  }

  /** Every instrument has its row. */
  lemma WfRows(w: World)
    requires Wf(w)
    ensures forall i :: i in w.ids ==> i in w.db.positions
  {
    hide TablesWf;
    forall i | i in w.ids ensures i in w.db.positions { assert RouterWf(w, i); }
  }

  lemma LeapWf(w: World, leg: Leg)
    requires Wf(w) && LegOk(leg)
    ensures Wf(Leap(w, leg)) && forall c :: c in w.db.orders ==> c in Leap(w, leg).db.orders
    ensures forall c :: c in Submissions(w, leg) ==> c in Leap(w, leg).db.orders && c !in w.db.orders
  {
    hide Wf, Act, RestartWorld, Torn, StoreWf;
    match leg
    case Whole(m) => ActWf(w, m);
    case Crash(i, _, _, _, start) =>
      if i in w.routers {
        TornStore(w, leg);
        RestartWf(Torn(w, leg), start);
      }
  }

  lemma {:induction false} JourneyWf(w: World, legs: seq<Leg>, k: nat)
    requires Wf(w) && k <= |legs| && forall leg :: leg in legs ==> LegOk(leg)
    ensures Wf(Journey(w, legs[..k]))
    ensures forall j, c :: 0 <= j < k && c in SubmittedBy(w, legs, j) ==> c in Journey(w, legs[..k]).db.orders
    decreases k
  {
    hide Wf, Leap, Submissions, LegOk;
    if k > 0 {
      var n := k - 1;
      assert legs[..k][..n] == legs[..n] && legs[n] in legs;
      JourneyWf(w, legs, n);
      LeapWf(Journey(w, legs[..n]), legs[n]);
      assert Journey(w, legs[..k]) == Leap(Journey(w, legs[..n]), legs[n]);
    }
  }

  /** From an empty store, over any number of completed calls, of crashes between calls and of crashes inside a send after
      any of its writes, against any venue: no client order id is submitted for two different sends, and no decision key
      repeats. A decision whose order row was lost may be decided again under the same id; it was never submitted. */
  lemma NoIdIsSubmittedTwice(w: World, start: int, legs: seq<Leg>, j: nat, k: nat)
    requires EmptyDb(w.db) && Distinct(w.ids) && Ok(w.a) && QueueWf(w.a) && forall leg :: leg in legs ==> LegOk(leg)
    requires j < k < |legs|
    ensures var w1 := RestartWorld(w, start);
      SubmittedBy(w1, legs, j) !! SubmittedBy(w1, legs, k)
    ensures DecisionsWf(Journey(RestartWorld(w, start), legs).db)
  {
    hide RestartWorld, Leap, Submissions, LegOk, Ok, QueueWf, RouterWf;
    EmptyStoreWf(w);
    RestartWf(w, start);
    var w1 := RestartWorld(w, start);
    JourneyWf(w1, legs, k);
    JourneyWf(w1, legs, |legs|);
    assert legs[..|legs|] == legs && legs[k] in legs;
    LeapWf(Journey(w1, legs[..k]), legs[k]);
  }
}
