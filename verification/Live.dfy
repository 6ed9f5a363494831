/** The paper-trading driver: one router on the simulated venue, driven bar by bar with every event delivered
    at once - the order of events the runner uses. */
module Live {
  import opened Types
  import opened Guards
  import opened Sim
  import opened Routing
  import H = Harness

  datatype Live<S> = Live(d: Desk, trades: seq<H.TradeRow>, strategy: S)

  function Flattenings(hooks: seq<Hook>): nat {
    if hooks == [] then 0 else Flattenings(hooks[..|hooks| - 1]) + (if hooks[|hooks| - 1] == OnFlatten then 1 else 0)
  }

  function Told<S>(s: S, strategy: H.Strategy<S>, times: nat): S {
    if times == 0 then s else strategy.flattened(Told(s, strategy, times - 1))
  }

  /** Router calls reach the strategy as they are made. */
  function WithDesk<S>(l: Live<S>, strategy: H.Strategy<S>, d: Desk): Live<S> {
    var latest := if l.d.r.hooks <= d.r.hooks then d.r.hooks[|l.d.r.hooks|..] else [];
    l.(d := d, strategy := Told(l.strategy, strategy, Flattenings(latest)))
  }

  function Deliver<S>(l: Live<S>, strategy: H.Strategy<S>, ev: Event, ts: int): Live<S> {
    var trades := if ev.FillUpdate? then l.trades + [H.TradeRow(ts, ev.side, ev.quantity)] else l.trades;
    WithDesk(l, strategy, HandleEvent(l.d, ev)).(trades := trades)
  }

  function DeliverAll<S>(l: Live<S>, strategy: H.Strategy<S>, evs: seq<Event>, ts: int): Live<S>
    decreases |evs|
  {
    if evs == [] then l else DeliverAll(Deliver(l, strategy, evs[0], ts), strategy, evs[1..], ts)
  }

  function Drain<S>(l: Live<S>, strategy: H.Strategy<S>, ts: int): Live<S> {
    DeliverAll(l.(d := l.d.(a := l.d.a.(queue := []))), strategy, l.d.a.queue, ts)
  }

  // ----- one bar -----

  predicate FullyPriced(bar: Bar) {
    && bar.open.Some? && bar.high.Some? && bar.low.Some? && bar.close.Some?
    && Sizable(bar.open.value) && Sizable(bar.high.value) && Sizable(bar.low.value) && Sizable(bar.close.value)
  }

  /** The bar's extreme on the stop's side: the venue's stop may fire. */
  function StopTick<S>(l: Live<S>, strategy: H.Strategy<S>, bar: Bar): Live<S>
    requires FullyPriced(bar)
  {
    if l.d.r.size == 0.0 then l
    else
      var i := l.d.r.iid;
      var a := UpdateMark(l.d.a, i, if l.d.r.size > 0.0 then bar.low.value else bar.high.value);
      if Fires(a, i) then Deliver(l.(d := l.d.(a := FireStop(a, i))), strategy, StopFill(a, i), bar.openTs)
      else l.(d := l.d.(a := a))
  }

  /** The close: mark and funding. */
  function CloseTick<S>(l: Live<S>, bar: Bar): Live<S>
    requires FullyPriced(bar)
  {
    var a := UpdateMark(l.d.a, l.d.r.iid, bar.close.value);
    l.(d := l.d.(a := if bar.fundingRate.Some? then ApplyFunding(a, l.d.r.iid, bar.fundingRate.value) else a))
  }

  function FastTick<S>(l: Live<S>, strategy: H.Strategy<S>, bar: Bar, now: int): Live<S>
    requires FullyPriced(bar)
  {
    Drain(WithDesk(l, strategy, OnFast(l.d, bar.close.value, Snapshot(l.d.a), now)), strategy, now)
  }

  /** The bar cycle; the strategy is asked only when the router asks it. */
  function BarTick<S>(l: Live<S>, strategy: H.Strategy<S>, categories: map<int, Category>, history: seq<Bar>, bar: Bar, now: int): Live<S>
    requires FullyPriced(bar)
  {
    var input := BarInput(bar.close, bar.complete, true, 0.0);
    var (s, target) := if AsksTarget(l.d.r, input) then strategy.target(l.strategy, history) else (l.strategy, 0.0);
    var l1 := l.(strategy := s);
    Drain(WithDesk(l1, strategy, OnBar(l.d, input.(target := target), Snapshot(l.d.a), KeepRunning, categories, [], now)), strategy, now)
  }

  /** The state in which bar t's entry decision is taken. */
  function BeforeDecision<S>(l: Live<S>, strategy: H.Strategy<S>, bars: seq<Bar>, t: nat): Live<S>
    requires t + 1 < |bars| && FullyPriced(bars[t])
  {
    FastTick(CloseTick(StopTick(l, strategy, bars[t]), bars[t]), strategy, bars[t], bars[t + 1].openTs)
  }

  function StepLive<S>(l: Live<S>, strategy: H.Strategy<S>, categories: map<int, Category>, bars: seq<Bar>, t: nat): Live<S>
    requires t + 1 < |bars| && FullyPriced(bars[t])
  {
    BarTick(BeforeDecision(l, strategy, bars, t), strategy, categories, bars[..t + 1], bars[t], bars[t + 1].openTs)
  }

  predicate AllPriced(bars: seq<Bar>) {
    forall t :: 0 <= t < |bars| ==> FullyPriced(bars[t])
  }

  /** A fresh router on a fresh account. */
  function StartLive<S>(i: int, a: Account, db: Db, s: S): Live<S> {
    Live(Desk(NewRouter(i), a, db), [], s)
  }

  function LiveAt<S>(l: Live<S>, strategy: H.Strategy<S>, categories: map<int, Category>, bars: seq<Bar>, t: nat): Live<S>
    requires AllPriced(bars) && (t > 0 ==> t < |bars|)
    decreases t
  {
    if t == 0 then l else StepLive(LiveAt(l, strategy, categories, bars, t - 1), strategy, categories, bars, t - 1)
  }
}
