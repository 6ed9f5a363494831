/** Average-cost accounting of the simulated venue refines plain cash accounting over every run. */
module SimLaws {
  import opened Types
  import opened Guards
  import opened Sim

  /** Everything that can move the account. */
  datatype Op =
    | Mark(iid: int, mark: real)
    | Funding(iid: int, rate: real)
    | Order(req: OrderRequest)
    | Stop(iid: int)
    | SetStop(iid: int, trigger: real)
    | DropStop(iid: int)
    | Script(failNext: Option<Failure>, failQueue: seq<Failure>)
    | Pop
    | Restart

  /** One line of a plain cash ledger: contracts bought or sold for cash, or a funding payment. */
  datatype Cashflow = Traded(iid: int, quantity: real, price: real, fee: real) | Paid(amount: real)

  predicate OpOk(op: Op) {
    && (op.Mark? ==> PriceOk(op.mark))
    && (op.Order? ==> op.req.quantity >= 0.0)
  }

  function Do(a: Account, op: Op): Account
    requires Ok(a)
  {
    match op
    case Mark(i, m) => UpdateMark(a, i, m)
    case Funding(i, r) => ApplyFunding(a, i, r)
    case Order(req) => Submit(a, req).0
    case Stop(i) => if Fires(a, i) then FireStop(a, i) else a
    case SetStop(i, t) => PlaceStop(a, i, t)
    case DropStop(i) => CancelStop(a, i)
    case Script(f, q) => a.(failNext := f, failQueue := q)
    case Pop => if a.queue == [] then a else a.(queue := a.queue[1..])
    case Restart => Reload(a)
  }

  function FlowOf(ev: Event): Cashflow
    requires ev.FillUpdate?
  {
    Traded(ev.iid, Signed(ev.side, ev.quantity), ev.price, ev.fee)
  }

  /** Funding on a position: a long pays a positive rate on its value at the mark. */
  function Owed(size: real, mark: real, rate: real): real {
    -(size * mark) * rate
  }

  /** The ledger lines an operation writes, read off the fill it reports or the funding owed. */
  function Flows(a: Account, op: Op): seq<Cashflow>
    requires Ok(a)
  {
    match op
    case Order(req) =>
      var q := Submit(a, req).0.queue;
      if |q| > |a.queue| && q[|q| - 1].FillUpdate? then [FlowOf(q[|q| - 1])] else []
    case Stop(i) => if Fires(a, i) then [FlowOf(StopFill(a, i))] else []
    case Funding(i, r) => if Size(a, i) == 0.0 then [] else [Paid(Owed(Size(a, i), MarkOf(a, i), r))]
    case _ => []
  }

  function Amount(f: Cashflow): real {
    match f
    case Traded(_, q, p, fee) => -(q * p) - fee
    case Paid(x) => x
  }

  lemma AmountPaid(x: real)
    ensures Amount(Paid(x)) == x
  {
  }

  function Net(fs: seq<Cashflow>): real {
    if fs == [] then 0.0 else Net(fs[..|fs| - 1]) + Amount(fs[|fs| - 1])
  }

  /** Contracts of instrument i bought minus sold. */
  function Held(fs: seq<Cashflow>, i: int): real {
    if fs == [] then 0.0
    else Held(fs[..|fs| - 1], i)
         + (var f := fs[|fs| - 1]; if f.Traded? && f.iid == i then f.quantity else 0.0)
  }

  /** What the position cost, signed. */
  function Cost(p: Pos): real {
    p.size * p.entry
  }

  lemma NoCost(p: Pos)
    requires p.size == 0.0
    ensures Cost(p) == 0.0
  {
  }

  lemma CostIgnoresFunding(p: Pos, q: Pos)
    requires p.size == q.size && p.entry == q.entry
    ensures Cost(p) == Cost(q)
  {
  }

  ghost function Basis(a: Account, ids: seq<int>): real {
    if ids == [] then 0.0 else Cost(PosOf(a, ids[0])) + Basis(a, ids[1..])
  }

  /** Signed value of the holdings at the marks. */
  ghost function Exposure(a: Account, ids: seq<int>): real
    requires Ok(a)
  {
    if ids == [] then 0.0
    else (if Size(a, ids[0]) == 0.0 then 0.0 else Size(a, ids[0]) * MarkOf(a, ids[0])) + Exposure(a, ids[1..])
  }

  /** Cash with the cost of the holdings added back: what a plain ledger would show. */
  ghost function PlainCash(a: Account): real {
    a.cash - Basis(a, a.ids)
  }

  lemma SumsOfOne(f: Cashflow)
    ensures Net([f]) == Amount(f)
    ensures forall i :: Held([f], i) == if f.Traded? && f.iid == i then f.quantity else 0.0
  {
    hide Amount;
    assert [f][..0] == [];
  }

  /** Scripted failures are used up in order, and before the single one set for the next order. */
  lemma FailuresInOrder(a: Account)
    ensures var (mode, b) := NextMode(a);
      if |a.failQueue| > 0 then [mode.value] + b.failQueue == a.failQueue && mode.Some? && b.failNext == a.failNext
      else mode == a.failNext && b.failNext == None && b.failQueue == []
  {
  }

  /** A fill costs fee, half spread and impact on the value it trades. */
  lemma FeeIsOnValue(a: Account, quantity: real, price: real, value: real)
    requires value == quantity * price >= 0.0 && a.cfg.fee >= 0.0 && a.cfg.spreadBps >= 0.0 && a.cfg.impactBps >= 0.0
    ensures var c := a.cfg;
      Fee(a, quantity, price)
      == value * c.fee + value * (c.spreadBps / 10000.0) / 2.0 + value * (value / c.notional) * (c.impactBps / 10000.0)
  {
    hide FillCost;
    CostParts(value, a.cfg.notional, a.cfg.spreadBps, a.cfg.fee, a.cfg.impactBps);
  }

  // ----- one fill -----

  lemma IncreaseBasis(before: real, delta: real, n: real, entry: real, price: real, avg: real)
    requires n == before + delta && n != 0.0
    requires avg == (Abs(before) * entry + Abs(delta) * price) / Abs(n)
    requires (before >= 0.0 && delta >= 0.0) || (before <= 0.0 && delta <= 0.0)
    ensures n * avg == before * entry + delta * price
  {
    assert Abs(n) * avg == Abs(before) * entry + Abs(delta) * price;
  }

  /** The realised cash of a fill and the change of cost basis add up to the cash traded. */
  ghost predicate Conserves(p: Pos, delta: real, price: real) {
    && Book(p, delta, price).0.size == p.size + delta
    && Book(p, delta, price).1 - Cost(Book(p, delta, price).0) == -Cost(p) - delta * price
  }

  lemma BookOpen(p: Pos, delta: real, price: real)
    requires p.size == 0.0
    ensures Conserves(p, delta, price)
  {
    NoCost(p);
  }

  lemma BookIncrease(p: Pos, delta: real, price: real)
    requires var n := p.size + delta; p.size != 0.0 && (p.size > 0.0) == (n > 0.0) && Abs(n) > Abs(p.size)
    ensures Conserves(p, delta, price)
  {
    IncreaseBasis(p.size, delta, p.size + delta, p.entry, price, Book(p, delta, price).0.entry);
  }

  lemma BookReduce(p: Pos, delta: real, price: real)
    requires var n := p.size + delta; n != 0.0 && (p.size > 0.0) == (n > 0.0) && p.size != 0.0 && Abs(n) <= Abs(p.size)
    ensures Conserves(p, delta, price)
  {
    var n := p.size + delta;
    var s := if p.size > 0.0 then 1.0 else -1.0;
    var closed := (Abs(p.size) - Abs(n)) * s;
    assert closed == -delta;
    assert Book(p, delta, price).1 == closed * (price - p.entry);
    assert closed * (price - p.entry) == -(delta * price) + delta * p.entry;
    assert n * p.entry == p.size * p.entry + delta * p.entry;
  }

  lemma CloseBasis(before: real, delta: real, n: real, entry: real, price: real)
    requires n == before + delta
    ensures before * (price - entry) - n * price == -(before * entry) - delta * price
  {
  }

  lemma BookClose(p: Pos, delta: real, price: real)
    requires var n := p.size + delta; p.size != 0.0 && (n == 0.0 || (p.size > 0.0) != (n > 0.0))
    ensures Conserves(p, delta, price)
  {
    CloseBasis(p.size, delta, p.size + delta, p.entry, price);
  }

  lemma BookConserves(p: Pos, delta: real, price: real)
    ensures Conserves(p, delta, price)
  {
    hide Conserves;
    var n := p.size + delta;
    if p.size == 0.0 {
      BookOpen(p, delta, price);
    } else if n == 0.0 || (p.size > 0.0) != (n > 0.0) {
      BookClose(p, delta, price);
    } else if Abs(n) > Abs(p.size) {
      BookIncrease(p, delta, price);
    } else {
      BookReduce(p, delta, price);
    }
  }

  lemma BookEntryPositive(p: Pos, delta: real, price: real)
    requires p.size != 0.0 ==> p.entry > 0.0
    requires price > 0.0
    ensures var q := Book(p, delta, price).0; q.size != 0.0 ==> q.entry > 0.0
  {
    var n := p.size + delta;
    if p.size != 0.0 && (p.size > 0.0) == (n > 0.0) && Abs(n) > Abs(p.size) {
      PositiveQuotient(Abs(p.size), p.entry, Abs(delta), price, Abs(n));
    }
  }

  lemma PositiveQuotient(a: real, e: real, d: real, p: real, n: real)
    requires a > 0.0 && e > 0.0 && d >= 0.0 && p > 0.0 && n > 0.0
    ensures (a * e + d * p) / n > 0.0
  {
    assert a * e > 0.0;
    assert d * p >= 0.0;
    DivPositive(a * e + d * p, n);
  }

  lemma DivPositive(x: real, n: real)
    requires x > 0.0 && n > 0.0
    ensures x / n > 0.0
  {
  }

  // ----- sums over the position table -----

  lemma {:induction false} BasisSame(a: Account, b: Account, ids: seq<int>)
    requires forall i :: i in ids ==> Cost(PosOf(a, i)) == Cost(PosOf(b, i))
    ensures Basis(a, ids) == Basis(b, ids)
  {
    hide Cost;
    if ids != [] { BasisSame(a, b, ids[1..]); }
  }

  lemma {:induction false} BasisOne(a: Account, b: Account, ids: seq<int>, i: int)
    requires Distinct(ids) && i in ids
    requires forall j :: j != i ==> PosOf(a, j) == PosOf(b, j)
    ensures Basis(b, ids) - Basis(a, ids)
         == Cost(PosOf(b, i)) - Cost(PosOf(a, i))
  {
    hide Cost;
    if ids[0] == i {
      BasisSame(a, b, ids[1..]);
    } else {
      BasisOne(a, b, ids[1..], i);
    }
  }

  lemma {:induction false} BasisAppend(a: Account, ids: seq<int>, i: int)
    ensures Basis(a, ids + [i]) == Basis(a, ids) + Cost(PosOf(a, i))
  {
    hide Cost;
    if ids != [] {
      BasisAppend(a, ids[1..], i);
      assert (ids + [i])[1..] == ids[1..] + [i];
    }
  }

  /** Replacing one position moves the basis by exactly that position's change. */
  lemma BasisOfWithPos(a: Account, i: int, p: Pos)
    requires Ok(a)
    ensures Basis(WithPos(a, i, p), WithPos(a, i, p).ids)
         == Basis(a, a.ids) + Cost(p) - Cost(PosOf(a, i))
  {
    hide Cost;
    var b := WithPos(a, i, p);
    if i in a.pos {
      BasisOne(a, b, a.ids, i);
    } else {
      NoCost(PosOf(a, i));
      BasisSame(a, b, a.ids);
      BasisAppend(b, a.ids, i);
    }
  }

  lemma {:induction false} UnrealisedSplits(a: Account, ids: seq<int>)
    requires Ok(a)
    ensures Unrealised(a, ids) == Exposure(a, ids) - Basis(a, ids)
  {
    if ids != [] {
      UnrealisedSplits(a, ids[1..]);
      var p := PosOf(a, ids[0]);
      if p.size != 0.0 {
        assert p.size * (MarkOf(a, ids[0]) - p.entry) == p.size * MarkOf(a, ids[0]) - p.size * p.entry;
      }
    }
  }

  // ----- one operation -----

  lemma WithPosOk(a: Account, i: int, p: Pos)
    requires Ok(a) && (p.size != 0.0 ==> i in a.marks && p.entry > 0.0)
    ensures Ok(WithPos(a, i, p))
  {
    var b := WithPos(a, i, p);
    forall j ensures j in b.ids <==> j in b.pos {
      if i !in a.pos { assert b.ids[|a.ids|] == i; }
    }
  }

  /** What a fill does to the account, in plain terms. */
  lemma FillEffect(a: Account, i: int, side: Side, quantity: real, price: real)
    requires Ok(a) && i in a.marks
    requires price > 0.0 || Size(a, i) + Signed(side, quantity) == 0.0
    ensures var b := Fill(a, i, side, quantity, price);
      && Ok(b)
      && Size(b, i) == Size(a, i) + Signed(side, quantity)
      && (forall j :: j != i ==> PosOf(b, j) == PosOf(a, j))
      && PlainCash(b) == PlainCash(a) + Amount(Traded(i, Signed(side, quantity), price, Fee(a, quantity, price)))
  {
    hide Book, Fee, Cost;
    var p := PosOf(a, i);
    var (q, realised) := Book(p, Signed(side, quantity), price);
    BookConserves(p, Signed(side, quantity), price);
    if price > 0.0 { BookEntryPositive(p, Signed(side, quantity), price); }
    WithPosOk(a, i, q);
    BasisOfWithPos(a, i, q);
    var b := WithPos(a, i, q);
    var c := Fill(a, i, side, quantity, price);
    BasisSame(b, c, b.ids);
  }

  lemma ExecuteEffect(a: Account, req: OrderRequest)
    requires Ok(a) && req.iid in a.marks
    ensures Ok(Execute(a, req))
    ensures Size(Execute(a, req), req.iid) == Size(a, req.iid) + Signed(req.side, FillQuantity(a, req))
    ensures forall j :: j != req.iid ==> PosOf(Execute(a, req), j) == PosOf(a, j)
    ensures PlainCash(Execute(a, req)) == PlainCash(a) + Amount(FlowOf(ExecutedFill(a, req)))
  {
    hide Book, Fee, Cost, Amount;
    var q := FillQuantity(a, req);
    FillEffect(a, req.iid, req.side, q, MarkOf(a, req.iid));
    BasisSame(Fill(a, req.iid, req.side, q, MarkOf(a, req.iid)), Execute(a, req), Execute(a, req).ids);
  }

  /** Nothing else in the account matters to its books. */
  lemma UntouchedBooks(a: Account, b: Account)
    requires Ok(a) && b.ids == a.ids && b.pos == a.pos && b.marks == a.marks && b.cfg == a.cfg && b.cash == a.cash
    ensures Ok(b) && PlainCash(b) == PlainCash(a) && forall j :: PosOf(b, j) == PosOf(a, j)
  {
    hide Cost;
    BasisSame(a, b, a.ids);
  }

  lemma DefaultEntry(a: Account, i: int)
    requires Ok(a)
    ensures var b := WithPos(a, i, PosOf(a, i));
      && Ok(b) && PlainCash(b) == PlainCash(a)
      && forall j :: PosOf(b, j) == PosOf(a, j)
  {
    hide Cost;
    WithPosOk(a, i, PosOf(a, i));
    BasisOfWithPos(a, i, PosOf(a, i));
  }

  lemma {:induction false} NonZeroIds(pos: map<int, Pos>, ids: seq<int>)
    requires Distinct(ids)
    ensures Distinct(NonZero(pos, ids))
    ensures forall i :: i in NonZero(pos, ids) <==> i in ids && i in pos && pos[i].size != 0.0
  {
    if ids != [] {
      NonZeroIds(pos, ids[1..]);
      assert ids[0] !in ids[1..];
    }
  }

  lemma {:induction false} BasisNonZero(a: Account, b: Account, ids: seq<int>)
    requires Distinct(ids)
    requires forall i :: PosOf(a, i).size != 0.0 ==> PosOf(b, i) == PosOf(a, i)
    ensures Basis(b, NonZero(a.pos, ids)) == Basis(a, ids)
  {
    hide Cost;
    if ids != [] {
      BasisNonZero(a, b, ids[1..]);
      var rest := NonZero(a.pos, ids[1..]);
      if PosOf(a, ids[0]).size != 0.0 {
        assert ([ids[0]] + rest)[1..] == rest;
      } else {
        NoCost(PosOf(a, ids[0]));
        assert [] + rest == rest;
      }
    }
  }

  /** A reload keeps every position and the plain cash. */
  lemma ReloadKeeps(a: Account)
    requires Ok(a)
    ensures Ok(Reload(a))
    ensures forall i :: Size(Reload(a), i) == Size(a, i) && (Size(a, i) != 0.0 ==> PosOf(Reload(a), i) == PosOf(a, i))
    ensures Basis(Reload(a), Reload(a).ids) == Basis(a, a.ids)
    ensures var b := Reload(a);
      && b.cash == a.cash && b.marks == a.marks && b.stops == a.stops && b.cfg == a.cfg && b.n == a.n
      && b.queue == [] && b.failNext == None && b.failQueue == []
  {
    NonZeroIds(a.pos, a.ids);
    BasisNonZero(a, Reload(a), a.ids);
  }

  lemma FireStopEffect(a: Account, i: int)
    requires Ok(a) && Fires(a, i)
    ensures var b := FireStop(a, i);
      && Ok(b) && Size(b, i) == 0.0
      && (forall j :: j != i ==> PosOf(b, j) == PosOf(a, j))
      && PlainCash(b) == PlainCash(a) + Amount(FlowOf(StopFill(a, i)))
      && b.stops == a.stops - {i} && b.queue == a.queue && b.marks == a.marks
  {
    hide Book, Fee, Cost, Amount;
    var ev := StopFill(a, i);
    FillEffect(a, i, ev.side, ev.quantity, ev.price);
    BasisSame(Fill(a, i, ev.side, ev.quantity, ev.price), FireStop(a, i), FireStop(a, i).ids);
  }

  /** The operation moves plain cash by exactly the ledger lines it writes, and every holding by exactly
      the contracts it traded. */
  ghost predicate Lawful(a: Account, op: Op)
    requires Ok(a)
  {
    && Ok(Do(a, op))
    && |Flows(a, op)| <= 1
    && PlainCash(Do(a, op)) == PlainCash(a) + Net(Flows(a, op))
    && forall i :: Size(Do(a, op), i) == Size(a, i) + Held(Flows(a, op), i)
  }

  lemma ArriveEffect(a: Account, req: OrderRequest)
    requires Ok(a)
    ensures var c := Arrive(a, req);
      && Ok(c) && PlainCash(c) == PlainCash(a) && (forall j :: PosOf(c, j) == PosOf(a, j))
      && c.queue == a.queue && c.marks == a.marks && c.cfg == a.cfg
  {
    var b := NextMode(a).1;
    UntouchedBooks(a, b);
    DefaultEntry(b, req.iid);
  }

  lemma OrderExecutes(a: Account, req: OrderRequest)
    requires Ok(a) && Executes(a, req)
    ensures Lawful(a, Order(req))
  {
    ArriveEffect(a, req);
    var c := Arrive(a, req);
    ExecuteEffect(c, req);
    hide Book, Fee, Amount, Cost, NextMode, Arrive, PlainCash, Fill, FillQuantity;
    assert Do(a, Order(req)) == Execute(c, req);
    var q := Execute(c, req).queue;
    assert q[|q| - 1] == ExecutedFill(c, req);
    SumsOfOne(FlowOf(ExecutedFill(c, req)));
  }

  lemma FailedSubmit(a: Account, req: OrderRequest)
    requires Ok(a) && !Executes(a, req)
    ensures var b, c := NextMode(a).1, Arrive(a, req);
      Submit(a, req).0 == b || Submit(a, req).0 == c || Submit(a, req).0 == c.(n := c.n + 1)
  {
    hide Execute, Book, Fee;
  }

  /** An order that does not reach the book leaves plain cash, holdings and events alone. */
  lemma OrderFails(a: Account, req: OrderRequest)
    requires Ok(a) && !Executes(a, req)
    ensures var b := Submit(a, req).0;
      Ok(b) && PlainCash(b) == PlainCash(a) && b.queue == a.queue && forall j :: PosOf(b, j) == PosOf(a, j)
  {
    ArriveEffect(a, req);
    FailedSubmit(a, req);
    hide Submit, Arrive, Executes, PlainCash, Ok;
    var b, c := NextMode(a).1, Arrive(a, req);
    UntouchedBooks(a, b);
    UntouchedBooks(c, c.(n := c.n + 1));
  }

  lemma OrderLawful(a: Account, req: OrderRequest)
    requires Ok(a) && req.quantity >= 0.0
    ensures Lawful(a, Order(req))
  {
    if Executes(a, req) {
      hide Lawful;
      OrderExecutes(a, req);
    } else {
      OrderFails(a, req);
      hide Submit, PlainCash, Executes;
    }
  }

  lemma FundingIs(a: Account, i: int, rate: real)
    ensures FundingPaid(a, i, rate) == Owed(Size(a, i), MarkOf(a, i), rate)
  {
  }

  lemma FundingLawful(a: Account, i: int, rate: real)
    requires Ok(a)
    ensures Lawful(a, Funding(i, rate))
  {
    hide Amount, Cost, FundingPaid, Owed;
    var p := PosOf(a, i);
    if p.size != 0.0 {
      FundingIs(a, i, rate);
      AmountPaid(FundingPaid(a, i, rate));
      SumsOfOne(Paid(FundingPaid(a, i, rate)));
      var b := ApplyFunding(a, i, rate);
      CostIgnoresFunding(p, PosOf(b, i));
      WithPosOk(a, i, PosOf(b, i));
      BasisOfWithPos(a, i, PosOf(b, i));
      BasisSame(WithPos(a, i, PosOf(b, i)), b, b.ids);
    }
  }

  lemma StopLawful(a: Account, i: int)
    requires Ok(a)
    ensures Lawful(a, Stop(i))
  {
    hide Book, Fee, Amount, Cost;
    if Fires(a, i) {
      FireStopEffect(a, i);
      SumsOfOne(FlowOf(StopFill(a, i)));
    }
  }

  lemma OpConserves(a: Account, op: Op)
    requires Ok(a) && OpOk(op)
    ensures Lawful(a, op)
  {
    match op
    case Order(req) => hide Lawful; OrderLawful(a, req);
    case Stop(i) => hide Lawful; StopLawful(a, i);
    case Funding(i, r) => hide Lawful; FundingLawful(a, i, r);
    case Restart => hide Cost; ReloadKeeps(a);
    case _ => hide Cost; BasisSame(a, Do(a, op), a.ids);
  }

  // ----- whole runs -----

  function Play(a: Account, ops: seq<Op>): Account
    requires Ok(a)
    requires forall op :: op in ops ==> OpOk(op)
    ensures Ok(Play(a, ops))
  {
    if ops == [] then a
    else
      var b := Play(a, ops[..|ops| - 1]);
      OpConserves(b, ops[|ops| - 1]);
      Do(b, ops[|ops| - 1])
  }

  function Ledger(a: Account, ops: seq<Op>): seq<Cashflow>
    requires Ok(a)
    requires forall op :: op in ops ==> OpOk(op)
  {
    if ops == [] then []
    else Ledger(a, ops[..|ops| - 1]) + Flows(Play(a, ops[..|ops| - 1]), ops[|ops| - 1])
  }

  /** A venue that has traded nothing. */
  predicate Fresh(a: Account) {
    a.ids == [] && a.pos == map[]
  }

  lemma SumsConcat(l: seq<Cashflow>, f: seq<Cashflow>)
    requires |f| <= 1
    ensures Net(l + f) == Net(l) + Net(f)
    ensures forall i :: Held(l + f, i) == Held(l, i) + Held(f, i)
  {
    hide Amount;
    if |f| == 1 {
      assert (l + f)[..|l + f| - 1] == l;
      assert f[..0] == [];
    } else {
      assert l + f == l;
    }
  }

  lemma LedgerInvariant(a: Account, ops: seq<Op>)
    requires Ok(a) && Fresh(a)
    requires forall op :: op in ops ==> OpOk(op)
    ensures PlainCash(Play(a, ops)) == a.cash + Net(Ledger(a, ops))
    ensures forall i :: Size(Play(a, ops), i) == Held(Ledger(a, ops), i)
  {
    if ops == [] {
    } else {
      hide Do, Flows, Net, Held, Cost;
      var before := ops[..|ops| - 1];
      LedgerInvariant(a, before);
      var w := Play(a, before);
      OpConserves(w, ops[|ops| - 1]);
      var l, f := Ledger(a, before), Flows(w, ops[|ops| - 1]);
      SumsConcat(l, f);
    }
  }

  /** Path-independent equity: whatever fills, stops, funding, marks and restarts happened, equity is the
      starting cash plus the plain ledger plus the holdings at the marks, and each holding is contracts
      bought minus sold. */
  lemma EquityIsPathIndependent(a: Account, ops: seq<Op>)
    requires Ok(a) && Fresh(a)
    requires forall op :: op in ops ==> OpOk(op)
    ensures Equity(Play(a, ops)) == a.cash + Net(Ledger(a, ops)) + Exposure(Play(a, ops), Play(a, ops).ids)
    ensures forall i :: Size(Play(a, ops), i) == Held(Ledger(a, ops), i)
  {
    LedgerInvariant(a, ops);
    UnrealisedSplits(Play(a, ops), Play(a, ops).ids);
  }
}
