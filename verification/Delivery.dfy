/** Fills on their way from the venue to the router, and what one submission does to the account. */
module Delivery {
  import opened Types
  import opened Sim
  import opened SimLaws
  import opened Routing

  function SizeOf(ev: Event, i: int): real {
    if ev.FillUpdate? && ev.iid == i then Signed(ev.side, ev.quantity) else 0.0
  }

  /** Signed sum of the queued fills of instrument i. */
  function Undelivered(queue: seq<Event>, i: int): real {
    if queue == [] then 0.0 else SizeOf(queue[0], i) + Undelivered(queue[1..], i)
  }

  /** The venue's size without the fills still queued: what the router should believe. */
  function Lag(a: Account, i: int): real {
    Size(a, i) - Undelivered(a.queue, i)
  }

  lemma {:induction false} UndeliveredConcat(q: seq<Event>, s: seq<Event>, i: int)
    ensures Undelivered(q + s, i) == Undelivered(q, i) + Undelivered(s, i)
  {
    if q == [] {
      assert q + s == s;
    } else {
      UndeliveredConcat(q[1..], s, i);
      assert (q + s)[1..] == q[1..] + s;
    }
  }

  lemma UndeliveredPair(e1: Event, e2: Event, i: int)
    requires e1.OrderUpdate?
    ensures Undelivered([e1, e2], i) == SizeOf(e2, i)
  {
    var q := [e1, e2];
    assert q[1..] == [e2];
    assert Undelivered([e2], i) == SizeOf(e2, i) + Undelivered([e2][1..], i);
  }

  /** An event of instrument i carrying one of the router's own order ids. */
  predicate EventOf(ev: Event, i: int) {
    ev.cid.Ours? && ev.cid.iid == i && (if ev.FillUpdate? then ev.iid == i && ev.quantity >= 0.0 else ev.status == Filled)
  }

  /** Only instrument i is touched, every other stop stays, new events are i's own, and size minus undelivered
      fills is unchanged for everyone. */
  ghost predicate Touches(i: int, a: Account, b: Account) {
    && Ok(b) && b.marks == a.marks && b.cfg == a.cfg && b.resting == a.resting
    && (forall j :: j != i ==> PosOf(b, j) == PosOf(a, j))
    && (forall j :: j != i ==> (j in b.stops <==> j in a.stops) && (j in a.stops ==> b.stops[j] == a.stops[j]))
    && a.queue <= b.queue && (forall k :: |a.queue| <= k < |b.queue| ==> EventOf(b.queue[k], i))
    && forall j :: Lag(b, j) == Lag(a, j)
  }

  lemma TouchesTrans(i: int, a: Account, b: Account, c: Account)
    requires Touches(i, a, b) && Touches(i, b, c)
    ensures Touches(i, a, c)
  {
    forall k | |a.queue| <= k < |c.queue| ensures EventOf(c.queue[k], i) {
      if k < |b.queue| { assert c.queue[k] == b.queue[k]; }
    }
    assert forall j :: j != i && j in a.stops ==> c.stops[j] == b.stops[j];
  }

  lemma StopTouches(a: Account, i: int, t: real)
    requires Ok(a)
    ensures Touches(i, a, PlaceStop(a, i, t)) && Touches(i, a, CancelStop(a, i)) && Touches(i, a, a)
  {
  }

  // ----- one submission -----

  /** The fill an executed order produces. */
  function NewFill(a: Account, req: OrderRequest): Event {
    ExecutedFill(Arrive(a, req), req)
  }

  /** Settings, marks, stops and every other instrument are as they were. */
  ghost predicate Quiet(a: Account, b: Account, i: int) {
    && Ok(b) && b.marks == a.marks && b.cfg == a.cfg && b.resting == a.resting && b.stops == a.stops
    && forall j :: j != i ==> PosOf(b, j) == PosOf(a, j)
  }

  lemma SubmitExecutes(a: Account, req: OrderRequest)
    requires Ok(a) && Executes(a, req)
    ensures Quiet(a, Submit(a, req).0, req.iid)
    ensures Submit(a, req).0.queue == a.queue + [OrderUpdate(req.cid, Filled, FillQuantity(a, req)), NewFill(a, req)]
    ensures Size(Submit(a, req).0, req.iid) == Size(a, req.iid) + Signed(req.side, FillQuantity(a, req))
    ensures NewFill(a, req).quantity == FillQuantity(a, req)
    ensures Submit(a, req).1 == if NextMode(a).0 == Some(Timeout) then TimedOut else Ack(true)
  {
    ArriveEffect(a, req);
    var c := Arrive(a, req);
    ExecuteEffect(c, req);
    hide PlainCash, Cost, Book, Fee;
  }

  lemma SubmitFails(a: Account, req: OrderRequest)
    requires Ok(a) && !Executes(a, req)
    ensures Quiet(a, Submit(a, req).0, req.iid)
    ensures Submit(a, req).0.queue == a.queue && PosOf(Submit(a, req).0, req.iid) == PosOf(a, req.iid)
    ensures Submit(a, req).1 != Ack(true)
  {
    OrderFails(a, req);
    FailedSubmit(a, req);
    hide PlainCash, Execute, Cost;
  }

  lemma SubmitTouches(a: Account, req: OrderRequest)
    requires Ok(a) && req.cid.Ours? && req.cid.iid == req.iid && req.quantity >= 0.0
    ensures Touches(req.iid, a, Submit(a, req).0)
    ensures Submit(a, req).0.stops == a.stops
    ensures forall k :: |a.queue| <= k < |Submit(a, req).0.queue| ==> Submit(a, req).0.queue[k].cid == req.cid
  {
    var b := Submit(a, req).0;
    if Executes(a, req) { SubmitExecutes(a, req); } else { SubmitFails(a, req); }
    hide Submit, PosOf, Ok, Executes, FillQuantity;
    forall j ensures Lag(b, j) == Lag(a, j) {
      if b.queue != a.queue {
        var e1, e2 := b.queue[|a.queue|], b.queue[|a.queue| + 1];
        UndeliveredConcat(a.queue, [e1, e2], j);
        UndeliveredPair(e1, e2, j);
      }
    }
  }

  // ----- submission with one retry -----

  /** The new account shows only this request's events. */
  ghost predicate OnlyEventsOf(a: Account, b: Account, cid: Cid) {
    a.queue <= b.queue && forall k :: |a.queue| <= k < |b.queue| ==> b.queue[k].cid == cid
  }

  lemma RecoveryTouches(a: Account, req: OrderRequest, sizeBefore: real)
    requires Ok(a) && req.cid.Ours? && req.cid.iid == req.iid && req.quantity >= 0.0
    ensures var b := SubmitWithRecovery(a, req, sizeBefore).0;
      Touches(req.iid, a, b) && OnlyEventsOf(a, b, req.cid) && b.stops == a.stops
  {
    var (b, first) := Attempt(a, req, sizeBefore);
    SubmitTouches(a, req);
    if first.None? {
      var c := Attempt(b, req, sizeBefore).0;
      SubmitTouches(b, req);
      hide Touches;
      TouchesTrans(req.iid, a, b, c);
      forall k | |a.queue| <= k < |c.queue| ensures c.queue[k].cid == req.cid {
        if k < |b.queue| { assert c.queue[k] == b.queue[k]; }
      }
    }
  }

  /** What one attempt tells the router, when local and venue size agreed before the send and the order has not
      landed yet: it is acknowledged exactly when it filled, and a retry only follows an attempt that moved nothing. */
  lemma AttemptOutcome(a: Account, req: OrderRequest)
    requires Ok(a) && req.cid !in a.resting && req.quantity >= 0.0
    ensures var (b, out) := Attempt(a, req, Size(a, req.iid));
      && Ok(b) && req.cid !in b.resting
      && (out == Some(Acked) ==> Executes(a, req) && Size(b, req.iid) == Size(a, req.iid) + Signed(req.side, FillQuantity(a, req)))
      && (out != Some(Acked) ==> Size(b, req.iid) == Size(a, req.iid))
      && (out == Some(Refused) || out == Some(Failed) ==> !Executes(a, req))
      && (out == None && Executes(a, req) ==> FillQuantity(a, req) == 0.0)
  {
    var (b, res) := Submit(a, req);
    if Executes(a, req) { SubmitExecutes(a, req); } else { SubmitFails(a, req); }
    SnapshotPosition(b, req.iid);
    hide Submit, Executes, Snapshot, Ok;
  }

  /** At most once: if router and venue agree when a send starts, then under every script of time-outs, drops
      and rejections the position moves by nothing or by exactly the clamped quantity; a move is always
      acknowledged, and an acknowledgement always means the clamped quantity moved. */
  lemma AtMostOnce(a: Account, req: OrderRequest)
    requires Ok(a) && req.cid !in a.resting && req.quantity >= 0.0
    ensures var (b, out) := SubmitWithRecovery(a, req, Size(a, req.iid));
      var moved := Size(b, req.iid) - Size(a, req.iid);
      && (out == Acked ==> moved == Signed(req.side, FillQuantity(a, req)))
      && (out != Acked ==> moved == 0.0)
  {
    AttemptOutcome(a, req);
    var (b, first) := Attempt(a, req, Size(a, req.iid));
    if first.None? {
      AttemptOutcome(b, req);
    }
    hide Attempt, Executes;
  }

  /** The same through the rows: a send by a router that agrees with the venue ends accepted, rejected, lost or in error;
      the position moves by exactly the clamped quantity if it ends accepted and not at all otherwise. */
  lemma SendMovesOnce(d: Desk, intent: Intent, now: int)
    requires Ok(d.a) && d.r.size == Size(d.a, d.r.iid) && intent.iid == d.r.iid && intent.quantity >= 0.0
    requires Ours(d.r.iid, d.r.num + 1) !in d.a.resting
    ensures var cid := Ours(d.r.iid, d.r.num + 1);
      var d2 := Send(d, intent, now);
      var moved := Size(d2.a, d.r.iid) - Size(d.a, d.r.iid);
      && cid in d2.db.orders
      && d2.db.orders[cid].status in {Accepted, Rejected, Lost, Error}
      && moved == if d2.db.orders[cid].status == Accepted then Signed(intent.side, FillQuantity(d.a, Request(cid, intent))) else 0.0
  {
    hide SubmitWithRecovery, Ok, FillQuantity, Views, Equity, VenueStop;
    var cid := Ours(d.r.iid, d.r.num + 1);
    AtMostOnce(d.a, Request(cid, intent));
    var d1 := Prepare(d, intent, now);
    assert d1.a == d.a && cid in d1.db.orders && d1.db.orders[cid].status == Submitting;
    var (a, out) := SubmitWithRecovery(d.a, Request(cid, intent), d.r.size);
    ConcludeMoves(d1.(a := a), cid, out, d.r.state);
  }

  /** The outcome is what the row says, and writing it moves no position. */
  lemma ConcludeMoves(d: Desk, cid: Cid, out: Outcome, prior: State)
    requires cid in d.db.orders && d.db.orders[cid].status == Submitting
    ensures var d2 := Conclude(d, cid, out, prior);
      && cid in d2.db.orders && d2.a.pos == d.a.pos
      && d2.db.orders[cid].status == (match out case Acked => Accepted case Refused => Rejected case NoAck => Lost case Failed => Error)
  {
    hide Views, Equity, VenueStop, Find;
  }
}
