/** The router and the simulated venue each keep a size and an entry price, with differently written case
    splits. Fed the same fills they never differ. */
module Accumulators {
  import opened Types
  import opened Sim
  import opened Routing

  /** A fill as both sides see it: signed contracts and a price. */
  datatype Trade = Trade(delta: real, price: real)

  function VenueBooks(p: Pos, ts: seq<Trade>): Pos {
    if ts == [] then p
    else
      var q := VenueBooks(p, ts[..|ts| - 1]);
      Book(q, ts[|ts| - 1].delta, ts[|ts| - 1].price).0
  }

  function RouterSize(size: real, ts: seq<Trade>): real {
    if ts == [] then size else RouterSize(size, ts[..|ts| - 1]) + ts[|ts| - 1].delta
  }

  function RouterEntry(size: real, entry: Option<real>, ts: seq<Trade>): Option<real> {
    if ts == [] then entry
    else
      var before := ts[..|ts| - 1];
      FillEntry(RouterSize(size, before), RouterEntry(size, entry, before), ts[|ts| - 1].delta, ts[|ts| - 1].price)
  }

  /** Same size; an entry price exactly when not flat, and then the same one. */
  predicate SameBooks(p: Pos, size: real, entry: Option<real>) {
    p.size == size && (size == 0.0 <==> entry.None?) && (size != 0.0 ==> entry == Some(p.entry))
  }

  lemma OneTrade(p: Pos, size: real, entry: Option<real>, delta: real, price: real)
    requires SameBooks(p, size, entry)
    ensures SameBooks(Book(p, delta, price).0, size + delta, FillEntry(size, entry, delta, price))
  {
    hide AverageEntry;
  }

  /** For every sequence of fills, through increases, reductions, closes and flips. */
  lemma {:induction false} AccumulatorsAgree(p: Pos, size: real, entry: Option<real>, ts: seq<Trade>)
    requires SameBooks(p, size, entry)
    ensures SameBooks(VenueBooks(p, ts), RouterSize(size, ts), RouterEntry(size, entry, ts))
  {
    hide Book, FillEntry, SameBooks;
    if ts != [] {
      var n := |ts| - 1;
      AccumulatorsAgree(p, size, entry, ts[..n]);
      OneTrade(VenueBooks(p, ts[..n]), RouterSize(size, ts[..n]), RouterEntry(size, entry, ts[..n]), ts[n].delta, ts[n].price);
    }
  }

  /** The router's fill handler and the venue's fill are these two accumulators: what they leave is what the
      folds leave. */
  lemma HandlersAreTheAccumulators(d: Desk, a: Account, side: Side, quantity: real, price: real)
    requires SameBooks(PosOf(a, d.r.iid), d.r.size, d.r.entry)
    ensures var d2 := ApplyFill(d, side, quantity, price);
      SameBooks(PosOf(Fill(a, d.r.iid, side, quantity, price), d.r.iid), d2.r.size, d2.r.entry)
  {
    hide Book, FillEntry, Fee, SameBooks;
    OneTrade(PosOf(a, d.r.iid), d.r.size, d.r.entry, Signed(side, quantity), price);
  }

  // ----- an order's row -----

  /** One fill of an order: contracts and price. */
  datatype Part = Part(quantity: real, price: real)

  function Recorded(db: Db, cid: Cid, ps: seq<Part>): Db {
    if ps == [] then db
    else RecordFill(Recorded(db, cid, ps[..|ps| - 1]), cid, ps[|ps| - 1].quantity, ps[|ps| - 1].price)
  }

  function Contracts(ps: seq<Part>): real {
    if ps == [] then 0.0 else Contracts(ps[..|ps| - 1]) + ps[|ps| - 1].quantity
  }

  function Paid(ps: seq<Part>): real {
    if ps == [] then 0.0 else Paid(ps[..|ps| - 1]) + ps[|ps| - 1].price * ps[|ps| - 1].quantity
  }

  lemma AverageTimesFilled(row: OrderRow, quantity: real, price: real)
    requires row.filled >= 0.0 && quantity > 0.0 && (row.filled > 0.0 ==> row.avgPrice.Some?)
    ensures AverageFill(row, quantity, price) * (row.filled + quantity)
         == (if row.filled > 0.0 then row.avgPrice.value * row.filled else 0.0) + price * quantity
  {
    var filled := row.filled + quantity;
    if row.filled > 0.0 {
      var total := row.avgPrice.value * row.filled + price * quantity;
      assert total / filled * filled == total;
    }
  }

  /** What one fill writes into its order's row. */
  lemma OneFill(db: Db, cid: Cid, quantity: real, price: real)
    requires cid in db.orders
    ensures var row, next := db.orders[cid], RecordFill(db, cid, quantity, price);
      && cid in next.orders
      && next.orders[cid] == row.(filled := row.filled + quantity, avgPrice := Some(AverageFill(row, quantity, price)),
           status := if Terminal(row.status) then row.status else if row.filled + quantity >= row.quantity then Filled else Partial)
  {
    hide AverageFill;
  }

  lemma FilledIsTerminal()
    ensures Terminal(Filled) && !Terminal(Partial)
  {
  }

  /** However an order is split into fills, its row holds the contracts filled and the price that pays for exactly them,
      and it is filled precisely when they reach the ordered quantity. */
  lemma {:induction false} OrderRowIsExact(db: Db, cid: Cid, ps: seq<Part>)
    requires cid in db.orders && db.orders[cid].filled == 0.0 && db.orders[cid].avgPrice == None && !Terminal(db.orders[cid].status)
    requires forall x :: x in ps ==> x.quantity > 0.0
    ensures cid in Recorded(db, cid, ps).orders && Contracts(ps) >= 0.0
    ensures var row, was := Recorded(db, cid, ps).orders[cid], db.orders[cid];
      && row.filled == Contracts(ps) && row.quantity == was.quantity
      && (ps != [] ==> row.filled > 0.0 && row.avgPrice.Some? && row.avgPrice.value * row.filled == Paid(ps))
      && row.status == if ps == [] then was.status else if Contracts(ps) >= was.quantity then Filled else Partial
  {
    hide AverageFill, RecordFill, Terminal;
    if ps != [] {
      var n := |ps| - 1;
      assert ps[n] in ps;
      OrderRowIsExact(db, cid, ps[..n]);
      var before := Recorded(db, cid, ps[..n]);
      OneFill(before, cid, ps[n].quantity, ps[n].price);
      FilledIsTerminal();
      AverageTimesFilled(before.orders[cid], ps[n].quantity, ps[n].price);
    }
  }
}
