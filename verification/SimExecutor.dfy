/** The simulated venue as an object: one account updated in place. `View` is its value, and every method is
    proved to move that value exactly as the account functions say. */
module SimVenue {
  import opened Types
  import opened Guards
  import opened Sim

  /** Firing every stop of a listing in turn: the account left, and the fills in firing order. */
  function FireAll(a: Account, listing: seq<int>): (Account, seq<Event>)
    decreases |listing|
  {
    if listing == [] then (a, [])
    else if Fires(a, listing[0]) then
      var (b, fills) := FireAll(FireStop(a, listing[0]), listing[1..]);
      (b, [StopFill(a, listing[0])] + fills)
    else FireAll(a, listing[1..])
  }

  /** Counting an order and booking its fill commute. */
  lemma CountThenFill(a: Account, i: int, side: Side, quantity: real, price: real)
    ensures Fill(a.(n := a.n + 1), i, side, quantity, price) == Fill(a, i, side, quantity, price).(n := a.n + 1)
  {
    hide Book, Fee;
    FeeIgnoresCount(a, quantity, price);
  }

  lemma ExactlyOpen(pos: map<int, Pos>, open: map<int, Pos>)
    requires forall i :: i in open <==> i in pos && pos[i].size != 0.0
    requires forall i :: i in open ==> open[i] == pos[i]
    ensures open == map i | i in pos && pos[i].size != 0.0 :: pos[i]
  {
    var want := map i | i in pos && pos[i].size != 0.0 :: pos[i];
    forall i ensures i in open <==> i in want {}
    assert open.Keys == want.Keys;
    assert forall i :: i in open ==> open[i] == want[i];
    assert open == want;
  }

  lemma NextOpen(pos: map<int, Pos>, ids: seq<int>, k: nat)
    requires k < |ids| && ids[k] in pos
    ensures NonZero(pos, ids[k..]) == (if pos[ids[k]].size != 0.0 then [ids[k]] else []) + NonZero(pos, ids[k + 1..])
  {
    assert ids[k..][0] == ids[k] && ids[k..][1..] == ids[k + 1..];
  }

  lemma NoneOpen(pos: map<int, Pos>)
    ensures NonZero(pos, []) == []
  {
  }

  /** The snapshot's loop, one row at a time. */
  lemma FirstView(a: Account, ids: seq<int>)
    requires ids != []
    ensures Views(a, ids) == (if Size(a, ids[0]) == 0.0 then [] else [Sim.View(a, ids[0])]) + Views(a, ids[1..])
    ensures Unrealised(a, ids) == (if Size(a, ids[0]) == 0.0 then 0.0 else Size(a, ids[0]) * (MarkOf(a, ids[0]) - PosOf(a, ids[0]).entry))
                                  + Unrealised(a, ids[1..])
  {
    hide Sim.View, MarkOf, PosOf;
  }

  lemma NoViewsLeft(a: Account)
    ensures Views(a, []) == [] && Unrealised(a, []) == 0.0
  {
  }

  lemma ViewFields(a: Account, i: int)
    ensures var p := PosOf(a, i);
      Sim.View(a, i) == PositionView(i, p.size, p.entry, Abs(p.size) * MarkOf(a, i), Some(LiquidationPrice(p.size, p.entry)), p.funding)
  {
  }

  lemma FireKeepsOthers(a: Account, i: int)
    requires Fires(a, i)
    ensures FireStop(a, i).stops == a.stops - {i}
  {
    hide Book, Fee;
  }

  lemma FeeIgnoresCount(a: Account, quantity: real, price: real)
    ensures Fee(a.(n := a.n + 1), quantity, price) == Fee(a, quantity, price)
  {
  }

  class SimExecutor {
    const cfg: Config
    var cash: real
    var marks: map<int, real>
    var ids: seq<int>
    var pos: map<int, Pos>
    var stops: map<int, real>
    var queue: seq<Event>
    var n: nat
    var failNext: Option<Failure>
    var failQueue: seq<Failure>

    ghost function View(): Account
      reads this
    {
      Account(cfg, cash, marks, ids, pos, stops, queue, n, failNext, failQueue, [])
    }

    constructor (cfg: Config, equity: real)
      ensures View() == Account(cfg, equity, map[], [], map[], map[], [], 0, None, [], [])
    {
      this.cfg := cfg;
      cash, marks, ids, pos, stops, queue, n, failNext, failQueue := equity, map[], [], map[], map[], [], 0, None, [];
    }

    /** The positions a save writes: the open ones, in the order they were first traded. */
    static method OpenPositions(ids: seq<int>, pos: map<int, Pos>) returns (openIds: seq<int>, open: map<int, Pos>)
      requires forall i :: i in ids <==> i in pos
      ensures openIds == NonZero(pos, ids) && open == map i | i in pos && pos[i].size != 0.0 :: pos[i]
    {
      hide NonZero;
      openIds, open := [], map[];
      NoneOpen(pos);
      for k := 0 to |ids|
        invariant openIds + NonZero(pos, ids[k..]) == NonZero(pos, ids)
        invariant forall i :: i in open <==> i in ids[..k] && pos[i].size != 0.0
        invariant forall i :: i in open ==> open[i] == pos[i]
      {
        var i := ids[k];
        NextOpen(pos, ids, k);
        assert ids[..k + 1] == ids[..k] + [i] && i in ids;
        if pos[i].size != 0.0 { openIds, open := openIds + [i], open[i := pos[i]]; }
      }
      assert ids[|ids|..] == [] && ids[..|ids|] == ids && openIds + [] == openIds;
      ExactlyOpen(pos, open);
    }

    /** What a restart loads: open positions, stops, marks, cash and the counter, but no queued event. */
    constructor Load(saved: SimExecutor)
      requires forall i :: i in saved.ids <==> i in saved.pos
      ensures View() == Reload(old(saved.View()))
    {
      var openIds, open := OpenPositions(saved.ids, saved.pos);
      cfg := saved.cfg;
      cash, marks, ids, pos, stops, queue := saved.cash, saved.marks, openIds, open, saved.stops, [];
      n, failNext, failQueue := saved.n, None, [];
    }

    // ----- market data -----

    method SetMark(i: int, mark: real)
      modifies this`marks
      ensures View() == UpdateMark(old(View()), i, mark)
    {
      marks := marks[i := mark];
    }

    method SettleFunding(i: int, rate: real)
      modifies this`pos, this`cash
      ensures View() == ApplyFunding(old(View()), i, rate)
    {
      if i !in pos || pos[i].size == 0.0 { return; }
      var paid := -pos[i].size * (if i in marks then marks[i] else 0.0) * rate;
      pos := pos[i := pos[i].(funding := pos[i].funding + paid)];
      cash := cash + paid;
    }

    // ----- orders -----

    /** The position row of an instrument, created empty when there is none. */
    method Row(i: int) returns (p: Pos)
      modifies this`pos, this`ids
      ensures View() == WithPos(old(View()), i, PosOf(old(View()), i)) && i in pos && p == pos[i] == PosOf(old(View()), i)
    {
      if i !in pos { ids, pos := ids + [i], pos[i := NO_POS]; }
      p := pos[i];
    }

    /** Average-cost accounting of a signed fill: increase, reduce, close or flip. */
    method ApplyPosition(i: int, delta: real, price: real)
      modifies this`pos, this`ids, this`cash
      ensures var (q, realised) := Book(PosOf(old(View()), i), delta, price);
        View() == WithPos(old(View()), i, q).(cash := old(cash) + realised)
    {
      var p := Row(i);
      var before, after := p.size, p.size + delta;
      if before == 0.0 {
        p := p.(size := after, entry := price);
      } else if (before > 0.0) == (after > 0.0) && Abs(after) > Abs(before) {
        p := p.(entry := AverageEntry(before, p.entry, delta, price), size := after);
      } else if (before > 0.0) == (after > 0.0) && after != 0.0 {
        var closed := Abs(before) - Abs(after);
        cash := cash + closed * (if before > 0.0 then 1.0 else -1.0) * (price - p.entry);
        p := p.(size := after);
      } else {
        cash := cash + before * (price - p.entry);
        p := p.(size := after, entry := if after != 0.0 then price else 0.0);
      }
      if p.size == 0.0 { p := p.(funding := 0.0); }
      pos := pos[i := p];
    }

    /** Books one fill and reports it. */
    method FillOrder(cid: Cid, i: int, side: Side, quantity: real, price: real) returns (fill: Event)
      modifies this`pos, this`ids, this`cash
      ensures View() == Fill(old(View()), i, side, quantity, price)
      ensures fill == FillUpdate(cid, i, side, quantity, price, Fee(old(View()), quantity, price))
    {
      hide Book;
      var fee := FillCost(quantity * price, cfg.notional, cfg.spreadBps, cfg.fee, cfg.impactBps);
      cash := cash - fee;
      ApplyPosition(i, Signed(side, quantity), price);
      fill := FillUpdate(cid, i, side, quantity, price, fee);
    }

    method Submit(req: OrderRequest) returns (res: SubmitResult)
      modifies this
      ensures View() == Sim.Submit(old(View()), req).0 && res == Sim.Submit(old(View()), req).1
    {
      hide Fill, Fee;
      var mode := failNext;
      if failQueue != [] {
        mode, failQueue := Some(failQueue[0]), failQueue[1..];
      } else {
        failNext := None;
      }
      if mode == Some(Drop) { return TimedOut; }
      if mode == Some(RejectIt) { return Ack(false); }
      var p := Row(req.iid);
      if req.reduceOnly && (p.size == 0.0 || (p.size > 0.0) == (req.side == Buy)) { return Ack(false); }
      var quantity := if req.reduceOnly then Min(req.quantity, Abs(p.size)) else req.quantity;
      ghost var c := View();
      assert c == Arrive(old(View()), req);
      n := n + 1;
      if req.iid !in marks { return Raised; }
      CountThenFill(c, req.iid, req.side, quantity, marks[req.iid]);
      FeeIgnoresCount(c, quantity, marks[req.iid]);
      var fill := FillOrder(req.cid, req.iid, req.side, quantity, marks[req.iid]);
      queue := queue + [OrderUpdate(req.cid, Filled, quantity)];
      queue := queue + [fill];
      assert queue == c.queue + [OrderUpdate(req.cid, Filled, quantity), fill];
      assert View() == Execute(c, req);
      res := if mode == Some(Timeout) then TimedOut else Ack(true);
    }

    method CancelOrder(cid: Cid)
      ensures View() == Sim.Cancel(old(View()), cid)
    {
    }

    // ----- stops -----

    method SetStop(i: int, trigger: real)
      modifies this`stops
      ensures View() == PlaceStop(old(View()), i, trigger)
    {
      stops := stops[i := trigger];
    }

    method RemoveStop(i: int)
      modifies this`stops
      ensures View() == CancelStop(old(View()), i)
    {
      stops := stops - {i};
    }

    /** One stop closes its position at the trigger and leaves the table. */
    method FireOne(i: int) returns (fill: Event)
      requires Fires(View(), i)
      modifies this
      ensures View() == FireStop(old(View()), i) && fill == StopFill(old(View()), i)
    {
      hide Fill, Fee;
      var size, trig := pos[i].size, stops[i];
      var side := if size > 0.0 then Sell else Buy;
      CountThenFill(View(), i, side, Abs(size), trig);
      FeeIgnoresCount(View(), Abs(size), trig);
      n := n + 1;
      fill := FillOrder(StopOrder(i, n), i, side, Abs(size), trig);
      stops := stops - {i};
    }

    /** Fires the stops the marks have reached; `listing` is the stop table's order. The fills are returned, not queued. */
    method CheckTriggers(listing: seq<int>) returns (fired: seq<Event>)
      requires Distinct(listing) && forall i :: i in listing <==> i in stops
      modifies this
      ensures View() == FireAll(old(View()), listing).0 && fired == FireAll(old(View()), listing).1
    {
      hide FireStop, StopFill;
      fired := [];
      for k := 0 to |listing|
        invariant forall j :: k <= j < |listing| ==> listing[j] in stops
        invariant FireAll(View(), listing[k..]).0 == FireAll(old(View()), listing).0
        invariant fired + FireAll(View(), listing[k..]).1 == FireAll(old(View()), listing).1
      {
        var i := listing[k];
        assert listing[k..][0] == i && listing[k..][1..] == listing[k + 1..];
        if i in pos && pos[i].size != 0.0 && i in marks {
          var size, mark, trig := pos[i].size, marks[i], stops[i];
          if (size > 0.0 && mark <= trig) || (size < 0.0 && mark >= trig) {
            FireKeepsOthers(View(), i);
            var fill := FireOne(i);
            fired := fired + [fill];
          }
        }
      }
      assert listing[|listing|..] == [];
    }

    // ----- reading -----

    /** Every open position valued at its mark. */
    method TakeSnapshot() returns (snap: AccountSnapshot)
      ensures snap == Snapshot(View())
    {
      hide LiquidationPrice, Sim.View, Views, Unrealised, Abs;
      var views: seq<PositionView> := [];
      var unreal := 0.0;
      for k := 0 to |ids|
        invariant views + Views(View(), ids[k..]) == Views(View(), ids)
        invariant unreal + Unrealised(View(), ids[k..]) == Unrealised(View(), ids)
      {
        var i := ids[k];
        assert ids[k..][0] == i && ids[k..][1..] == ids[k + 1..];
        var p := if i in pos then pos[i] else NO_POS;
        FirstView(View(), ids[k..]);
        if p.size != 0.0 {
          var mark := if i in marks then marks[i] else 0.0;
          var view := PositionView(i, p.size, p.entry, Abs(p.size) * mark, Some(LiquidationPrice(p.size, p.entry)), p.funding);
          ViewFields(View(), i);
          assert p == PosOf(View(), i) && mark == MarkOf(View(), i);
          assert view == Sim.View(View(), i);
          unreal := unreal + p.size * (mark - p.entry);
          views := views + [view];
        }
      }
      assert ids[|ids|..] == [];
      NoViewsLeft(View());
      snap := AccountSnapshot(cash + unreal, views, [], stops, false);
    }

    /** Takes every queued event, oldest first. */
    method DrainEvents() returns (out: seq<Event>)
      modifies this`queue
      ensures out == old(queue) && View() == old(View()).(queue := [])
    {
      out := [];
      while queue != []
        invariant out + queue == old(queue)
        decreases |queue|
      {
        out := out + [queue[0]];
        queue := queue[1..];
      }
    }
  }
}
