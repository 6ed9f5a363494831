/** Reconciliation: what differs between the local rows and the venue, and why one pass is enough. */
module Reconciliation {
  import opened Types
  import opened Guards
  import opened Sim
  import opened Routing
  import opened Runtime
  import opened Runs
  import opened Conservation
  import opened Freezing
  import opened Portfolio

  const DRIFT := 0.05

  datatype Mismatch =
    | SizeMismatch(iid: int, local: real, remote: real)
    | UnknownOrder(cid: Cid)
    | MissingStop(iid: int)
    | OrphanStop(iid: int)
    | StopDrift(iid: int, local: real, remote: real)

  // ----- the comparison -----

  function RemoteSize(remote: AccountSnapshot, i: int): real {
    var p := remote.Position(i);
    if p.Some? then p.value.size else 0.0
  }

  function LocalSize(local: map<int, PositionRow>, i: int): real {
    if i in local then local[i].size else 0.0
  }

  predicate RowPending(local: map<int, PositionRow>, i: int) {
    i in local && Pending(local[i].state)
  }

  predicate Drifted(local: real, remote: real) {
    local != 0.0 && Abs(remote - local) / local > DRIFT
  }

  /** The declarative meaning of each kind of mismatch. */
  predicate IsMismatch(m: Mismatch, local: map<int, PositionRow>, remote: AccountSnapshot, known: set<Cid>) {
    match m
    case MissingStop(i) => RemoteSize(remote, i) != 0.0 && i !in remote.stops
    case SizeMismatch(i, l, r) =>
      !RowPending(local, i) && l == LocalSize(local, i) && r == RemoteSize(remote, i) && l != r
    case StopDrift(i, l, r) =>
      && i in local && local[i].state == Open && RemoteSize(remote, i) != 0.0 && local[i].size == RemoteSize(remote, i)
      && i in remote.stops && local[i].stop == Some(l) && r == remote.stops[i] && l > 0.0 && (r < 0.95 * l || r > 1.05 * l)
    case OrphanStop(i) => i in remote.stops && RemoteSize(remote, i) == 0.0
    case UnknownOrder(c) => c in remote.openOrders && (!c.Ours? || c !in known)
  }

  /** Mismatches of one instrument, in the order they are reported. */
  function DiffOne(local: map<int, PositionRow>, remote: AccountSnapshot, i: int): seq<Mismatch> {
    var r := RemoteSize(remote, i);
    (if r != 0.0 && i !in remote.stops then [MissingStop(i)] else []) +
    (if RowPending(local, i) then []
     else if LocalSize(local, i) != r then [SizeMismatch(i, LocalSize(local, i), r)]
     else if r != 0.0 && i in local && local[i].state == Open && i in remote.stops && local[i].stop.Some?
             && Drifted(local[i].stop.value, remote.stops[i]) then
       [StopDrift(i, local[i].stop.value, remote.stops[i])]
     else [])
  }

  function DiffRows(local: map<int, PositionRow>, remote: AccountSnapshot, ids: seq<int>): seq<Mismatch> {
    if ids == [] then [] else DiffRows(local, remote, ids[..|ids| - 1]) + DiffOne(local, remote, ids[|ids| - 1])
  }

  function DiffStops(remote: AccountSnapshot, stopIds: seq<int>): seq<Mismatch> {
    if stopIds == [] then []
    else
      var i := stopIds[|stopIds| - 1];
      DiffStops(remote, stopIds[..|stopIds| - 1]) + (if RemoteSize(remote, i) == 0.0 then [OrphanStop(i)] else [])
  }

  function DiffOrders(orders: seq<Cid>, known: set<Cid>): seq<Mismatch> {
    if orders == [] then []
    else
      var c := orders[|orders| - 1];
      DiffOrders(orders[..|orders| - 1], known) + (if !c.Ours? || c !in known then [UnknownOrder(c)] else [])
  }

  /** `ids` lists the instruments with a row or a venue position, `stopIds` those with a venue stop. */
  ghost predicate Lists(ids: seq<int>, stopIds: seq<int>, local: map<int, PositionRow>, remote: AccountSnapshot) {
    && (forall i :: i in ids <==> i in local || remote.Position(i).Some?)
    && (forall i :: i in stopIds <==> i in remote.stops)
  }

  function DiffOf(local: map<int, PositionRow>, remote: AccountSnapshot, known: set<Cid>, ids: seq<int>, stopIds: seq<int>): seq<Mismatch> {
    DiffRows(local, remote, ids) + DiffStops(remote, stopIds) + DiffOrders(remote.openOrders, known)
  }

  method Diff(local: map<int, PositionRow>, remote: AccountSnapshot, known: set<Cid>, ids: seq<int>, stopIds: seq<int>)
    returns (out: seq<Mismatch>)
    requires forall i :: i in stopIds ==> i in remote.stops
    ensures out == DiffOf(local, remote, known, ids, stopIds)
  {
    out := [];
    for k := 0 to |ids|
      invariant out == DiffRows(local, remote, ids[..k])
    {
      assert ids[..k + 1][..k] == ids[..k];
      var i := ids[k];
      ghost var before := out;
      var rsize := RemoteSize(remote, i);
      if rsize != 0.0 && i !in remote.stops {
        out := out + [MissingStop(i)];
      }
      if i in local && Pending(local[i].state) {
        assert out == before + DiffOne(local, remote, i);
        continue;
      }
      var lsize := if i in local then local[i].size else 0.0;
      if lsize != rsize {
        out := out + [SizeMismatch(i, lsize, rsize)];
        assert out == before + DiffOne(local, remote, i);
        continue;
      }
      if rsize != 0.0 && i in local && local[i].state == Open {
        if i in remote.stops && local[i].stop.Some? {
          var lstop, rstop := local[i].stop.value, remote.stops[i];
          if lstop != 0.0 && Abs(rstop - lstop) / lstop > DRIFT {
            out := out + [StopDrift(i, lstop, rstop)];
          }
        }
      }
      assert out == before + DiffOne(local, remote, i);
    }
    assert ids[..|ids|] == ids;
    ghost var rows := out;
    for k := 0 to |stopIds|
      invariant out == rows + DiffStops(remote, stopIds[..k])
    {
      assert stopIds[..k + 1][..k] == stopIds[..k];
      if RemoteSize(remote, stopIds[k]) == 0.0 {
        out := out + [OrphanStop(stopIds[k])];
      }
    }
    assert stopIds[..|stopIds|] == stopIds;
    ghost var stops := out;
    var orders := remote.openOrders;
    for k := 0 to |orders|
      invariant out == stops + DiffOrders(orders[..k], known)
    {
      assert orders[..k + 1][..k] == orders[..k];
      if !orders[k].Ours? || orders[k] !in known {
        out := out + [UnknownOrder(orders[k])];
      }
    }
    assert orders[..|orders|] == orders;
  }

  lemma {:induction false} RowsExact(local: map<int, PositionRow>, remote: AccountSnapshot, ids: seq<int>, m: Mismatch)
    ensures m in DiffRows(local, remote, ids) <==>
              (m.MissingStop? || m.SizeMismatch? || m.StopDrift?) && m.iid in ids && m in DiffOne(local, remote, m.iid)
  {
    hide DiffOne;
    if ids != [] {
      var n := |ids| - 1;
      RowsExact(local, remote, ids[..n], m);
      assert ids == ids[..n] + [ids[n]];
      if m in DiffOne(local, remote, ids[n]) { OneKinds(local, remote, ids[n], m); }
    }
  }

  lemma OneKinds(local: map<int, PositionRow>, remote: AccountSnapshot, i: int, m: Mismatch)
    requires m in DiffOne(local, remote, i)
    ensures (m.MissingStop? || m.SizeMismatch? || m.StopDrift?) && m.iid == i
  {
  }

  /** A stop has drifted when it is more than a twentieth away from where the row has it. */
  lemma DriftIs(l: real, r: real)
    ensures Drifted(l, r) <==> l > 0.0 && (r < 0.95 * l || r > 1.05 * l)
  {
    if l != 0.0 {
      var gap := Abs(r - l);
      var q := gap / l;
      assert q * l == gap;
      if l > 0.0 {
        if q > 0.05 { assert (q - 0.05) * l > 0.0; } else { assert (0.05 - q) * l >= 0.0; }
      } else {
        NotPositive(gap, l);
      }
    }
  }

  lemma NotPositive(x: real, y: real)
    requires x >= 0.0 && y < 0.0
    ensures x / y <= 0.0
  {
  }

  lemma OneExact(local: map<int, PositionRow>, remote: AccountSnapshot, known: set<Cid>, m: Mismatch)
    requires m.MissingStop? || m.SizeMismatch? || m.StopDrift?
    ensures m in DiffOne(local, remote, m.iid) <==> IsMismatch(m, local, remote, known)
  {
    hide Drifted, Find;
    if m.StopDrift? { DriftIs(m.local, m.remote); }
  }

  lemma {:induction false} StopsExact(remote: AccountSnapshot, stopIds: seq<int>, m: Mismatch)
    ensures m in DiffStops(remote, stopIds) <==> m.OrphanStop? && m.iid in stopIds && RemoteSize(remote, m.iid) == 0.0
  {
    if stopIds != [] {
      var n := |stopIds| - 1;
      StopsExact(remote, stopIds[..n], m);
      assert stopIds == stopIds[..n] + [stopIds[n]];
    }
  }

  lemma {:induction false} OrdersExact(orders: seq<Cid>, known: set<Cid>, m: Mismatch)
    ensures m in DiffOrders(orders, known) <==> m.UnknownOrder? && m.cid in orders && (!m.cid.Ours? || m.cid !in known)
  {
    if orders != [] {
      var n := |orders| - 1;
      OrdersExact(orders[..n], known, m);
      assert orders == orders[..n] + [orders[n]];
    }
  }

  /** The comparison reports exactly the mismatches there are. */
  lemma DiffExact(local: map<int, PositionRow>, remote: AccountSnapshot, known: set<Cid>, ids: seq<int>, stopIds: seq<int>, m: Mismatch)
    requires Lists(ids, stopIds, local, remote)
    ensures m in DiffOf(local, remote, known, ids, stopIds) <==> IsMismatch(m, local, remote, known)
  {
    hide DiffOne, DiffRows, DiffStops, DiffOrders, Drifted, Find;
    RowsExact(local, remote, ids, m);
    StopsExact(remote, stopIds, m);
    OrdersExact(remote.openOrders, known, m);
    if m.MissingStop? || m.SizeMismatch? || m.StopDrift? { OneExact(local, remote, known, m); }
  }

  // ----- the pass -----

  /** Orders we may still have resting on the venue. */
  function Known(db: Db): set<Cid> {
    set c | c in db.orders && !Terminal(db.orders[c].status)
  }

  /** The response to one mismatch; drift and unknown positions are only reported. */
  function Response(m: Mismatch): seq<Micro> {
    match m
    case SizeMismatch(i, _, _) => [HaltCall(i)]
    case UnknownOrder(c) => [CancelOrder(c)]
    case MissingStop(i) => [GuardPosition(i)]
    case OrphanStop(i) => [DropOrphan(i)]
    case StopDrift(_, _, _) => []
  }

  function Responses(ms: seq<Mismatch>): seq<Micro> {
    if ms == [] then [] else Response(ms[0]) + Responses(ms[1..])
  }

  lemma {:induction false} ResponsesOk(ms: seq<Mismatch>)
    ensures forall m :: m in Responses(ms) ==> MicroOk(m) && Closed(m)
  {
    if ms != [] { ResponsesOk(ms[1..]); }
  }

  function Pass(w: World, ids: seq<int>, stopIds: seq<int>): World {
    var ms := DiffOf(w.db.positions, Snapshot(w.a), Known(w.db), ids, stopIds);
    ResponsesOk(ms);
    Run(w, Responses(ms))
  }

  ghost predicate HasOrphan(ms: seq<Mismatch>, i: int) { OrphanStop(i) in ms }

  ghost predicate HasMissing(ms: seq<Mismatch>, i: int) { MissingStop(i) in ms }

  ghost predicate HasSize(ms: seq<Mismatch>, i: int) {
    exists m :: m in ms && m.SizeMismatch? && m.iid == i
  }

  /** What answering a list of mismatches does. */
  ghost predicate Answered(w: World, ms: seq<Mismatch>, w2: World) {
    && Wf(w2) && w2.db.orders == w.db.orders
    && (forall i :: i in w2.routers <==> i in w.routers)
    && (forall i :: PosOf(w2.a, i) == PosOf(w.a, i)) && w2.a.marks == w.a.marks && w2.a.queue == w.a.queue
    && (forall i :: i in w2.a.stops <==>
          (i in w.a.stops && !(HasOrphan(ms, i) && Size(w.a, i) == 0.0)) || (HasMissing(ms, i) && Size(w.a, i) != 0.0))
    && (forall c :: c in w2.a.resting <==> c in w.a.resting && UnknownOrder(c) !in ms)
    && (forall i :: i in w.routers ==> w2.routers[i].size == w.routers[i].size)
    && (forall i :: i in w.routers && (HasSize(ms, i) || Frozen(w.routers[i].state)) ==> Frozen(w2.routers[i].state))
  }

  lemma {:induction false} WithoutExact(s: seq<Cid>, c: Cid, x: Cid)
    ensures x in Without(s, c) <==> x in s && x != c
  {
    if s != [] { WithoutExact(s[1..], c, x); }
  }

  lemma HaltAnswers(w: World, i: int)
    requires Wf(w)
    ensures var w2 := Act(w, HaltCall(i));
      && w2.a == w.a && w2.db.orders == w.db.orders && (forall j :: j in w2.routers <==> j in w.routers)
      && (forall j :: j in w.routers ==> w2.routers[j].size == w.routers[j].size)
      && (forall j :: j in w.routers && (j == i || Frozen(w.routers[j].state)) ==> Frozen(w2.routers[j].state))
  {
    hide Wf;
  }

  lemma GuardAnswers(w: World, i: int)
    requires Wf(w)
    ensures var w2 := Act(w, GuardPosition(i));
      && w2.a == w.a.(stops := w2.a.stops) && w2.db.orders == w.db.orders && (forall j :: j in w2.routers <==> j in w.routers)
      && (forall j :: j in w2.a.stops <==> j in w.a.stops || (j == i && Size(w.a, j) != 0.0))
      && (forall j :: j in w.routers ==> w2.routers[j].size == w.routers[j].size && w2.routers[j].state == w.routers[j].state)
  {
    hide Wf, StopPrice, Dispatch, RestartWorld, Snapshot;
  }

  lemma SizeAnswered(w: World, i: int, l: real, r: real)
    requires Wf(w) && Wf(Act(w, HaltCall(i)))
    ensures Answered(w, [SizeMismatch(i, l, r)], Act(w, HaltCall(i)))
  {
    hide Wf, Act;
    HaltAnswers(w, i);
  }

  lemma OrderAnswered(w: World, c: Cid)
    requires Wf(w) && Wf(Act(w, CancelOrder(c)))
    ensures Answered(w, [UnknownOrder(c)], Act(w, CancelOrder(c)))
  {
    hide Wf, Without;
    forall x ensures x in Without(w.a.resting, c) <==> x in w.a.resting && x != c { WithoutExact(w.a.resting, c, x); }
  }

  lemma StopAnswered(w: World, i: int)
    requires Wf(w) && Wf(Act(w, GuardPosition(i)))
    ensures Answered(w, [MissingStop(i)], Act(w, GuardPosition(i)))
  {
    hide Wf, Act;
    GuardAnswers(w, i);
  }

  lemma OrphanAnswered(w: World, i: int)
    requires Wf(w) && Wf(Act(w, DropOrphan(i)))
    ensures Answered(w, [OrphanStop(i)], Act(w, DropOrphan(i)))
  {
    hide Wf;
  }

  /** Answering one mismatch. */
  lemma OneAnswered(w: World, m: Mismatch)
    requires Wf(w)
    ensures var r := Response(m);
      && |r| <= 1 && (r == [] ==> Answered(w, [m], w))
      && (r != [] ==> MicroOk(r[0]) && Closed(r[0]) && Wf(Act(w, r[0])) && Answered(w, [m], Act(w, r[0])))
  {
    hide Wf, Act, Answered;
    var r := Response(m);
    if r != [] { ActWf(w, r[0]); }
    match m
    case SizeMismatch(i, l, rs) => SizeAnswered(w, i, l, rs);
    case UnknownOrder(c) => OrderAnswered(w, c);
    case MissingStop(i) => StopAnswered(w, i);
    case OrphanStop(i) => OrphanAnswered(w, i);
    case StopDrift(_, _, _) => DriftAnswered(w, m);
  }

  lemma DriftAnswered(w: World, m: Mismatch)
    requires Wf(w) && m.StopDrift?
    ensures Answered(w, [m], w)
  {
    hide Wf;
  }

  lemma AnsweredTrans(w: World, m: Mismatch, w1: World, ms: seq<Mismatch>, w2: World)
    requires Answered(w, [m], w1) && Answered(w1, ms, w2)
    ensures Answered(w, [m] + ms, w2)
  {
    hide Wf;
    var all := [m] + ms;
    forall i | i in w.routers && HasSize(all, i) ensures Frozen(w2.routers[i].state) {
      var x :| x in all && x.SizeMismatch? && x.iid == i;
      if x == m { assert HasSize([m], i); } else { assert HasSize(ms, i); }
    }
  }

  lemma {:induction false} AllAnswered(w: World, ms: seq<Mismatch>)
    requires Wf(w)
    ensures forall m :: m in Responses(ms) ==> MicroOk(m) && Closed(m)
    ensures Answered(w, ms, Run(w, Responses(ms)))
    decreases |ms|
  {
    hide Wf, Act, Answered;
    ResponsesOk(ms);
    if ms == [] {
      NothingAnswered(w);
    } else {
      var m := ms[0];
      assert ms == [m] + ms[1..];
      var r := Response(m);
      OneAnswered(w, m);
      ResponsesOk(ms[1..]);
      var rest := Responses(ms[1..]);
      if r == [] {
        assert Responses(ms) == rest;
        AllAnswered(w, ms[1..]);
        AnsweredTrans(w, m, w, ms[1..], Run(w, rest));
      } else {
        assert r == [r[0]];
        AllAnswered(Act(w, r[0]), ms[1..]);
        RunFromFront(w, r[0], rest);
        AnsweredTrans(w, m, Act(w, r[0]), ms[1..], Run(w, Responses(ms)));
      }
    }
  }

  lemma NothingAnswered(w: World)
    requires Wf(w)
    ensures Answered(w, [], w)
  {
    hide Wf;
  }

  lemma SnapshotSizes(a: Account, i: int)
    requires Ok(a)
    ensures RemoteSize(Snapshot(a), i) == Size(a, i)
  {
    SnapshotPosition(a, i);
  }

  /** Reconciliation converges in one pass. On a venue where cancels and stop writes take effect, after a pass
      stops stand on exactly the non-zero positions, every router whose settled row disagreed with the venue is
      frozen, no size moved, and an immediate second comparison can report nothing but size and stop drift. */
  lemma OnePassConverges(w: World, ids: seq<int>, stopIds: seq<int>, ids2: seq<int>, stopIds2: seq<int>, m: Mismatch)
    requires Wf(w) && Lists(ids, stopIds, w.db.positions, Snapshot(w.a))
    requires var w2 := Pass(w, ids, stopIds); Lists(ids2, stopIds2, w2.db.positions, Snapshot(w2.a))
    ensures var w2 := Pass(w, ids, stopIds);
      && (forall i :: i in w2.a.stops <==> Size(w2.a, i) != 0.0)
      && (forall i :: Size(w2.a, i) == Size(w.a, i))
      && (forall i :: i in w.routers && !Pending(w.routers[i].state) && w.routers[i].size != Size(w.a, i) ==>
            i in w2.routers && Frozen(w2.routers[i].state))
      && (m in DiffOf(w2.db.positions, Snapshot(w2.a), Known(w2.db), ids2, stopIds2) ==> m.SizeMismatch? || m.StopDrift?)
  {
    hide Wf, DiffOf, Responses, Run, Find, Views, Equity, Drifted, Ok, Lists;
    var ms := DiffOf(w.db.positions, Snapshot(w.a), Known(w.db), ids, stopIds);
    AllAnswered(w, ms);
    var w2 := Pass(w, ids, stopIds);
    WfOk(w);
    WfOk(w2);
    forall i ensures RemoteSize(Snapshot(w.a), i) == Size(w.a, i) == Size(w2.a, i) == RemoteSize(Snapshot(w2.a), i) {
      SnapshotSizes(w.a, i);
      SnapshotSizes(w2.a, i);
    }
    forall i ensures i in w2.a.stops <==> Size(w2.a, i) != 0.0 {
      DiffExact(w.db.positions, Snapshot(w.a), Known(w.db), ids, stopIds, MissingStop(i));
      DiffExact(w.db.positions, Snapshot(w.a), Known(w.db), ids, stopIds, OrphanStop(i));
    }
    forall i | i in w.routers && !Pending(w.routers[i].state) && w.routers[i].size != Size(w.a, i)
      ensures i in w2.routers && Frozen(w2.routers[i].state)
    {
      RowOfRouter(w, i);
      var s := SizeMismatch(i, w.routers[i].size, Size(w.a, i));
      DiffExact(w.db.positions, Snapshot(w.a), Known(w.db), ids, stopIds, s);
      assert HasSize(ms, i);
    }
    DiffExact(w2.db.positions, Snapshot(w2.a), Known(w2.db), ids2, stopIds2, m);
    if m.UnknownOrder? {
      DiffExact(w.db.positions, Snapshot(w.a), Known(w.db), ids, stopIds, m);
    }
  }
}
