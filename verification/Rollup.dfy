/** The hourly rollup and the prune that follows it, for one instrument's rows: what the readers answer must not
    depend on whether the raw rows are still there. Timestamps are microseconds; hour k is [k * HOUR, (k + 1) * HOUR). */
module Rollup {
  import opened Types

  const HOUR := 3600000000
  const DAY := 24 * HOUR
  const GRACE := 300000000
  const FILL_LATENCY := 2000000

  datatype Source = PolymarketWs | PolymarketRest | Other(name: nat)

  type Price = p: real | p > 0.0 witness 1.0

  datatype Tick = Tick(source: Source, ts: int, index: real, mark: real)

  datatype BookRow = BookRow(source: Source, ts: int, bids: seq<Price>, asks: seq<Price>)

  datatype RollupRow = RollupRow(hour: int, index: Option<real>, spread: Option<real>, mark: Option<real>)

  datatype Store = Store(ticks: seq<Tick>, books: seq<BookRow>, rollup: seq<RollupRow>)

  const EMPTY := Store([], [], [])

  function HourOf(t: int): int {
    t / HOUR
  }

  predicate Native(t: Tick) {
    t.source == PolymarketWs || t.source == PolymarketRest
  }

  // ----- the two raw reductions -----

  function NativeIn(ticks: seq<Tick>, lo: int, hi: int): seq<Tick> {
    if ticks == [] then []
    else
      var t := ticks[|ticks| - 1];
      NativeIn(ticks[..|ticks| - 1], lo, hi) + if Native(t) && lo <= t.ts <= hi then [t] else []
  }

  /** The newest tick; among equal timestamps the one stored last. */
  function Newest(ticks: seq<Tick>): Option<Tick> {
    if ticks == [] then None
    else
      var t := ticks[|ticks| - 1];
      var r := Newest(ticks[..|ticks| - 1]);
      if r.None? || t.ts >= r.value.ts then Some(t) else r
  }

  function LastIndex(ticks: seq<Tick>): Option<real> {
    if Newest(ticks).None? then None else Some(Newest(ticks).value.index)
  }

  function Best(xs: seq<Price>, bid: bool): Price
    requires xs != []
  {
    if |xs| == 1 then xs[0]
    else
      var r := Best(xs[1..], bid);
      if (xs[0] >= r) == bid then xs[0] else r
  }

  function SpreadBps(b: BookRow): Option<real> {
    if b.bids == [] || b.asks == [] then None
    else
      var mid := (Best(b.bids, true) + Best(b.asks, false)) / 2.0;
      Some((Best(b.asks, false) - Best(b.bids, true)) / mid * 10000.0)
  }

  function SpreadsIn(books: seq<BookRow>, lo: int, hi: int): seq<real> {
    if books == [] then []
    else
      var b := books[|books| - 1];
      SpreadsIn(books[..|books| - 1], lo, hi)
      + if lo <= b.ts <= hi && SpreadBps(b).Some? then [SpreadBps(b).value] else []
  }

  function Insert(x: real, xs: seq<real>): (r: seq<real>)
    ensures |r| == |xs| + 1
  {
    if xs == [] || x <= xs[0] then [x] + xs else [xs[0]] + Insert(x, xs[1..])
  }

  function Sorted(xs: seq<real>): (r: seq<real>)
    ensures |r| == |xs|
  {
    if xs == [] then [] else Insert(xs[0], Sorted(xs[1..]))
  }

  function Median(xs: seq<real>): Option<real> {
    var s := Sorted(xs);
    var n := |s|;
    if n == 0 then None
    else if n % 2 == 1 then Some(s[n / 2])
    else Some((s[n / 2 - 1] + s[n / 2]) / 2.0)
  }

  // ----- the readers -----

  function Lookup(rows: seq<RollupRow>, k: int): Option<RollupRow> {
    if rows == [] then None
    else if rows[|rows| - 1].hour == k then Some(rows[|rows| - 1])
    else Lookup(rows[..|rows| - 1], k)
  }

  function RolledIndex(st: Store, k: int): Option<real> {
    if Lookup(st.rollup, k).None? then None else Lookup(st.rollup, k).value.index
  }

  function RolledSpread(st: Store, k: int): Option<real> {
    if Lookup(st.rollup, k).None? then None else Lookup(st.rollup, k).value.spread
  }

  /** Hour k lies fully inside the window. */
  predicate Covered(k: int, start: int, end: int) {
    start <= k * HOUR && (k + 1) * HOUR - 1 <= end
  }

  function Lo(k: int, start: int): int {
    if k * HOUR >= start then k * HOUR else start
  }

  function Hi(k: int, end: int): int {
    if (k + 1) * HOUR - 1 <= end then (k + 1) * HOUR - 1 else end
  }

  /** Index close of hour k in a window: the rollup's for a covered hour that has one, else the newest native tick's. */
  function IndexAt(st: Store, k: int, start: int, end: int): Option<real> {
    if Covered(k, start, end) && RolledIndex(st, k).Some? then RolledIndex(st, k)
    else LastIndex(NativeIn(st.ticks, Lo(k, start), Hi(k, end)))
  }

  function SpreadList(st: Store, k: int, start: int, end: int): seq<real> {
    if Covered(k, start, end) && RolledSpread(st, k).Some? then [RolledSpread(st, k).value]
    else SpreadsIn(st.books, Lo(k, start), Hi(k, end))
  }

  datatype Candle = Candle(open: real, high: real, low: real, close: real)

  datatype HourBar = HourBar(
    hour: int, candle: Option<Candle>, indexClose: Option<real>, fundingRate: Option<real>,
    spreadBps: real, fromBook: bool, complete: bool)

  /** The tables a bar reads besides ticks and books; nothing here ever prunes them. */
  datatype Feeds = Feeds(candles: map<int, Candle>, funding: map<int, real>, native: bool, proxySpread: real)

  function Get<T>(m: map<int, T>, k: int): Option<T> {
    if k in m then Some(m[k]) else None
  }

  function BarAt(st: Store, f: Feeds, k: int, start: int, end: int): HourBar {
    var spreads := if f.native then SpreadList(st, k, start, end) else [];
    var m := Median(spreads);
    HourBar(k, Get(f.candles, k), if f.native then IndexAt(st, k, start, end) else None, Get(f.funding, k + 1),
            if m.Some? then m.value else f.proxySpread, m.Some?, k in f.candles && (k + 1) in f.funding)
  }

  function BarsFrom(st: Store, f: Feeds, first: int, last: int, k: int): seq<HourBar>
    decreases last - k
  {
    if k > last then []
    else [BarAt(st, f, k, first * HOUR, (last + 1) * HOUR - 1)] + BarsFrom(st, f, first, last, k + 1)
  }

  /** The bars of every hour from the one holding `start` to the last one opening before `end`. */
  function Bars(st: Store, f: Feeds, start: int, end: int): seq<HourBar> {
    var first := HourOf(start);
    if first * HOUR >= end then [] else BarsFrom(st, f, first, HourOf(end - 1), first)
  }

  // ----- the rollup -----

  /** The hour is over and late rows have had their grace period. */
  predicate Closed(k: int, now: int) {
    (k + 1) * HOUR + GRACE <= now
  }

  function OpenMark(st: Store, k: int): Option<real> {
    var t := Newest(NativeIn(st.ticks, (k - 1) * HOUR, k * HOUR + FILL_LATENCY));
    if t.None? then None else Some(t.value.mark)
  }

  function RowAt(st: Store, k: int): RollupRow {
    var lo, hi := k * HOUR, (k + 1) * HOUR - 1;
    RollupRow(k, IndexAt(st, k, lo, hi), Median(SpreadList(st, k, lo, hi)), OpenMark(st, k))
  }

  predicate Blank(r: RollupRow) {
    r.index.None? && r.spread.None? && r.mark.None?
  }

  /** The rows of the closed hours from k on that have anything to say. */
  function Walk(st: Store, k: int, now: int): seq<RollupRow>
    decreases now - k * HOUR
  {
    if !Closed(k, now) then []
    else (if Blank(RowAt(st, k)) then [] else [RowAt(st, k)]) + Walk(st, k + 1, now)
  }

  function InsertOrIgnore(rows: seq<RollupRow>, more: seq<RollupRow>): seq<RollupRow>
    decreases |more|
  {
    if more == [] then rows
    else InsertOrIgnore(if Lookup(rows, more[0].hour).Some? then rows else rows + [more[0]], more[1..])
  }

  function LastHour(rows: seq<RollupRow>): Option<int> {
    if rows == [] then None
    else
      var h := rows[|rows| - 1].hour;
      var r := LastHour(rows[..|rows| - 1]);
      if r.None? || h >= r.value then Some(h) else r
  }

  function FirstTick(ticks: seq<Tick>): Option<int> {
    if ticks == [] then None
    else
      var t := ticks[|ticks| - 1].ts;
      var r := FirstTick(ticks[..|ticks| - 1]);
      if r.None? || t <= r.value then Some(t) else r
  }

  function FirstBook(books: seq<BookRow>): Option<int> {
    if books == [] then None
    else
      var t := books[|books| - 1].ts;
      var r := FirstBook(books[..|books| - 1]);
      if r.None? || t <= r.value then Some(t) else r
  }

  function Earliest(x: Option<int>, y: Option<int>): Option<int> {
    if x.None? || (y.Some? && y.value < x.value) then y else x
  }

  /** Where the rollup resumes: at the first raw row's hour, but after the newest hour already written. */
  function StartHour(st: Store): int
    requires st.ticks != [] || st.books != []
  {
    var first := HourOf(Earliest(FirstTick(st.ticks), FirstBook(st.books)).value);
    var last := LastHour(st.rollup);
    if last.Some? && last.value + 1 > first then last.value + 1 else first
  }

  function RolledUp(st: Store, now: int): Store {
    if st.ticks == [] && st.books == [] then st
    else st.(rollup := InsertOrIgnore(st.rollup, Walk(st, StartHour(st), now)))
  }

  // ----- the prune -----

  function TicksFrom(ticks: seq<Tick>, cutoff: int): seq<Tick> {
    if ticks == [] then []
    else
      var t := ticks[|ticks| - 1];
      TicksFrom(ticks[..|ticks| - 1], cutoff) + if t.ts >= cutoff then [t] else []
  }

  function BooksFrom(books: seq<BookRow>, cutoff: int): seq<BookRow> {
    if books == [] then []
    else
      var b := books[|books| - 1];
      BooksFrom(books[..|books| - 1], cutoff) + if b.ts >= cutoff then [b] else []
  }

  function Pruned(st: Store, cutoff: int): Store {
    st.(ticks := TicksFrom(st.ticks, cutoff), books := BooksFrom(st.books, cutoff))
  }

  /** One maintenance run: roll up closed hours, then delete what is older than `days` days. */
  function Maintained(st: Store, now: int, days: int): Store {
    Pruned(RolledUp(st, now), now - days * DAY)
  }

  // ----- inserts: a row whose primary key is taken is ignored -----

  predicate TickKnown(ticks: seq<Tick>, t: Tick) {
    exists u :: u in ticks && u.source == t.source && u.ts == t.ts
  }

  predicate BookKnown(books: seq<BookRow>, b: BookRow) {
    exists c :: c in books && c.source == b.source && c.ts == b.ts
  }

  function WithTick(st: Store, t: Tick): Store {
    if TickKnown(st.ticks, t) then st else st.(ticks := st.ticks + [t])
  }

  function WithBook(st: Store, b: BookRow): Store {
    if BookKnown(st.books, b) then st else st.(books := st.books + [b])
  }

  // ----- facts about the tables -----

  lemma {:induction false} NativeMembers(ticks: seq<Tick>, lo: int, hi: int, t: Tick)
    ensures t in NativeIn(ticks, lo, hi) <==> t in ticks && Native(t) && lo <= t.ts <= hi
  {
    if ticks != [] {
      NativeMembers(ticks[..|ticks| - 1], lo, hi, t);
      assert ticks == ticks[..|ticks| - 1] + [ticks[|ticks| - 1]];
    }
  }

  lemma LastIndexNone(ticks: seq<Tick>)
    ensures LastIndex(ticks).None? <==> ticks == []
  {
  }

  lemma MedianNone(xs: seq<real>)
    ensures Median(xs).None? <==> xs == []
  {
  }

  lemma MedianOne(x: real)
    ensures Median([x]) == Some(x)
  {
    assert [x][1..] == [];
    assert Sorted([x]) == Insert(x, []);
  }

  lemma {:induction false} PruneTicks(ticks: seq<Tick>, cutoff: int, lo: int, hi: int)
    ensures cutoff <= lo ==> NativeIn(TicksFrom(ticks, cutoff), lo, hi) == NativeIn(ticks, lo, hi)
    ensures NativeIn(ticks, lo, hi) == [] ==> NativeIn(TicksFrom(ticks, cutoff), lo, hi) == []
  {
    if ticks != [] {
      var front, t := ticks[..|ticks| - 1], ticks[|ticks| - 1];
      PruneTicks(front, cutoff, lo, hi);
      var kept := TicksFrom(front, cutoff);
      assert (kept + [t])[..|kept|] == kept;
      assert kept + [] == kept;
    }
  }

  lemma {:induction false} PruneBooks(books: seq<BookRow>, cutoff: int, lo: int, hi: int)
    ensures cutoff <= lo ==> SpreadsIn(BooksFrom(books, cutoff), lo, hi) == SpreadsIn(books, lo, hi)
    ensures SpreadsIn(books, lo, hi) == [] ==> SpreadsIn(BooksFrom(books, cutoff), lo, hi) == []
  {
    hide SpreadBps;
    if books != [] {
      var front, b := books[..|books| - 1], books[|books| - 1];
      PruneBooks(front, cutoff, lo, hi);
      var kept := BooksFrom(front, cutoff);
      assert (kept + [b])[..|kept|] == kept;
      assert kept + [] == kept;
    }
  }

  lemma {:induction false} BeforeFirstTick(ticks: seq<Tick>, lo: int, hi: int)
    requires ticks != [] ==> hi < FirstTick(ticks).value
    ensures NativeIn(ticks, lo, hi) == []
  {
    if ticks != [] {
      BeforeFirstTick(ticks[..|ticks| - 1], lo, hi);
    }
  }

  lemma {:induction false} BeforeFirstBook(books: seq<BookRow>, lo: int, hi: int)
    requires books != [] ==> hi < FirstBook(books).value
    ensures SpreadsIn(books, lo, hi) == []
  {
    hide SpreadBps;
    if books != [] {
      BeforeFirstBook(books[..|books| - 1], lo, hi);
    }
  }

  lemma {:induction false} LastHourIsNewest(rows: seq<RollupRow>, k: int)
    ensures Lookup(rows, k).Some? ==> LastHour(rows).Some? && k <= LastHour(rows).value && Lookup(rows, k).value.hour == k
    ensures LastHour(rows) == Some(k) ==> Lookup(rows, k).Some?
  {
    if rows != [] {
      LastHourIsNewest(rows[..|rows| - 1], k);
    }
  }

  lemma {:induction false} InsertedRow(rows: seq<RollupRow>, more: seq<RollupRow>, k: int)
    ensures Lookup(InsertOrIgnore(rows, more), k) == if Lookup(rows, k).Some? then Lookup(rows, k) else FirstOf(more, k)
    decreases |more|
  {
    if more != [] {
      var next := if Lookup(rows, more[0].hour).Some? then rows else rows + [more[0]];
      InsertedRow(next, more[1..], k);
      assert (rows + [more[0]])[..|rows|] == rows;
    }
  }

  /** The first of the new rows for hour k. */
  function FirstOf(more: seq<RollupRow>, k: int): Option<RollupRow> {
    if more == [] then None else if more[0].hour == k then Some(more[0]) else FirstOf(more[1..], k)
  }

  lemma {:induction false} WalkedRow(st: Store, j: int, now: int, k: int)
    ensures FirstOf(Walk(st, j, now), k)
         == if j <= k && Closed(k, now) && !Blank(RowAt(st, k)) then Some(RowAt(st, k)) else None
    decreases now - j * HOUR
  {
    hide IndexAt, SpreadList, Median, OpenMark;
    if Closed(j, now) {
      WalkedRow(st, j + 1, now, k);
      var rest := Walk(st, j + 1, now);
      assert ([RowAt(st, j)] + rest)[1..] == rest;
      assert [] + rest == rest;
    }
  }

  // ----- the invariant: every hour answers as the full raw tables do -----

  function NativeHour(st: Store, k: int): seq<Tick> {
    NativeIn(st.ticks, k * HOUR, (k + 1) * HOUR - 1)
  }

  function SpreadHour(st: Store, k: int): seq<real> {
    SpreadsIn(st.books, k * HOUR, (k + 1) * HOUR - 1)
  }

  /** No hour after k has been written, so a later run still visits it. */
  predicate Ahead(st: Store, k: int) {
    LastHour(st.rollup).None? || k > LastHour(st.rollup).value
  }

  ghost predicate TickHourOk(st: Store, full: Store, k: int) {
    if RolledIndex(st, k).Some? then LastIndex(NativeHour(full, k)) == RolledIndex(st, k)
    else NativeHour(st, k) == NativeHour(full, k) && (Ahead(st, k) || NativeHour(st, k) == [])
  }

  ghost predicate BookHourOk(st: Store, full: Store, k: int) {
    if RolledSpread(st, k).Some? then Median(SpreadHour(full, k)) == RolledSpread(st, k)
    else SpreadHour(st, k) == SpreadHour(full, k) && (Ahead(st, k) || SpreadHour(st, k) == [])
  }

  ghost predicate Agrees(st: Store, full: Store) {
    && full.rollup == []
    && (forall k :: TickHourOk(st, full, k))
    && (forall k :: BookHourOk(st, full, k))
  }

  /** What a run leaves in the row of hour k. */
  lemma RolledUpRow(st: Store, now: int, k: int)
    requires st.ticks != [] || st.books != []
    ensures Lookup(RolledUp(st, now).rollup, k)
         == if Lookup(st.rollup, k).Some? then Lookup(st.rollup, k)
            else if StartHour(st) <= k && Closed(k, now) && !Blank(RowAt(st, k)) then Some(RowAt(st, k))
            else None
  {
    hide RowAt, Blank, StartHour;
    InsertedRow(st.rollup, Walk(st, StartHour(st), now), k);
    WalkedRow(st, StartHour(st), now, k);
  }

  /** An hour no later than the newest written one was written before, was visited by this run, or is over. */
  lemma RolledUpAhead(st: Store, now: int, k: int)
    requires st.ticks != [] || st.books != []
    ensures !Ahead(RolledUp(st, now), k) ==> !Ahead(st, k) || Closed(k, now)
  {
    hide RowAt, Blank, StartHour, RolledUp;
    var st1 := RolledUp(st, now);
    if !Ahead(st1, k) {
      var m := LastHour(st1.rollup).value;
      LastHourIsNewest(st1.rollup, m);
      RolledUpRow(st, now, m);
      LastHourIsNewest(st.rollup, m);
    }
  }

  /** Hours the run does not visit hold nothing, or were written before. */
  lemma NotVisited(st: Store, k: int)
    requires st.ticks != [] || st.books != []
    requires k < StartHour(st)
    ensures !Ahead(st, k) || (NativeHour(st, k) == [] && SpreadHour(st, k) == [])
  {
    hide NativeIn, SpreadsIn, FirstTick, FirstBook, LastHour;
    FirstsExist(st);
    var first := Earliest(FirstTick(st.ticks), FirstBook(st.books)).value;
    if Ahead(st, k) {
      assert k < HourOf(first);
      assert (k + 1) * HOUR - 1 < first;
      BeforeFirstTick(st.ticks, k * HOUR, (k + 1) * HOUR - 1);
      BeforeFirstBook(st.books, k * HOUR, (k + 1) * HOUR - 1);
    }
  }

  lemma FirstsExist(st: Store)
    ensures FirstTick(st.ticks).Some? <==> st.ticks != []
    ensures FirstBook(st.books).Some? <==> st.books != []
  {
  }

  /** The row a visited hour gets carries what its raw rows answer. */
  lemma RowAnswers(st: Store, k: int)
    requires Lookup(st.rollup, k).None?
    ensures RowAt(st, k).index == LastIndex(NativeHour(st, k))
    ensures RowAt(st, k).spread == Median(SpreadHour(st, k))
  {
    hide NativeIn, SpreadsIn, LastIndex, Median, Lookup, OpenMark;
  }

  lemma PrunedHour(st: Store, cutoff: int, k: int)
    ensures cutoff <= k * HOUR ==> NativeHour(Pruned(st, cutoff), k) == NativeHour(st, k)
    ensures cutoff <= k * HOUR ==> SpreadHour(Pruned(st, cutoff), k) == SpreadHour(st, k)
    ensures NativeHour(st, k) == [] ==> NativeHour(Pruned(st, cutoff), k) == []
    ensures SpreadHour(st, k) == [] ==> SpreadHour(Pruned(st, cutoff), k) == []
  {
    hide NativeIn, SpreadsIn, TicksFrom, BooksFrom;
    PruneTicks(st.ticks, cutoff, k * HOUR, (k + 1) * HOUR - 1);
    PruneBooks(st.books, cutoff, k * HOUR, (k + 1) * HOUR - 1);
  }

  lemma EmptyHour(st: Store, k: int)
    ensures st.ticks == [] ==> NativeHour(st, k) == []
    ensures st.books == [] ==> SpreadHour(st, k) == []
  {
  }

  lemma MaintainTickHour(st: Store, full: Store, now: int, days: int, k: int)
    requires TickHourOk(st, full, k) && days >= 1
    ensures TickHourOk(Maintained(st, now, days), full, k)
  {
    hide NativeHour, SpreadHour, LastIndex, Median, Lookup, RowAt, StartHour, RolledUp, Pruned, Ahead;
    var st1 := RolledUp(st, now);
    var cutoff := now - days * DAY;
    PrunedHour(st1, cutoff, k);
    PruneKeepsRows(st1, cutoff, k);
    RollupKeepsRaw(st, now, k);
    LastIndexNone(NativeHour(st, k));
    EmptyHour(st, k);
    LastHourIsNewest(st.rollup, k);
    AheadMeans(st, k);
    if st.ticks == [] && st.books == [] {
      NothingToRoll(st, now);
    } else {
      RolledUpRow(st, now, k);
      RolledUpAhead(st, now, k);
      if k < StartHour(st) { NotVisited(st, k); }
      if Lookup(st.rollup, k).None? { RowAnswers(st, k); }
    }
  }

  lemma MaintainBookHour(st: Store, full: Store, now: int, days: int, k: int)
    requires BookHourOk(st, full, k) && days >= 1
    ensures BookHourOk(Maintained(st, now, days), full, k)
  {
    hide NativeHour, SpreadHour, LastIndex, Median, Lookup, RowAt, StartHour, RolledUp, Pruned, Ahead;
    var st1 := RolledUp(st, now);
    var cutoff := now - days * DAY;
    PrunedHour(st1, cutoff, k);
    PruneKeepsRows(st1, cutoff, k);
    RollupKeepsRaw(st, now, k);
    MedianNone(SpreadHour(st, k));
    EmptyHour(st, k);
    LastHourIsNewest(st.rollup, k);
    AheadMeans(st, k);
    if st.ticks == [] && st.books == [] {
      NothingToRoll(st, now);
    } else {
      RolledUpRow(st, now, k);
      RolledUpAhead(st, now, k);
      if k < StartHour(st) { NotVisited(st, k); }
      if Lookup(st.rollup, k).None? { RowAnswers(st, k); }
    }
  }

  lemma AheadMeans(st: Store, k: int)
    ensures Ahead(st, k) <==> LastHour(st.rollup).None? || k > LastHour(st.rollup).value
  {
  }

  lemma NothingToRoll(st: Store, now: int)
    requires st.ticks == [] && st.books == []
    ensures RolledUp(st, now) == st
  {
  }

  lemma RollupKeepsRaw(st: Store, now: int, k: int)
    ensures NativeHour(RolledUp(st, now), k) == NativeHour(st, k)
    ensures SpreadHour(RolledUp(st, now), k) == SpreadHour(st, k)
  {
    hide NativeIn, SpreadsIn, Walk, InsertOrIgnore, StartHour;
  }

  lemma PruneKeepsRows(st: Store, cutoff: int, k: int)
    ensures RolledIndex(Pruned(st, cutoff), k) == RolledIndex(st, k)
    ensures RolledSpread(Pruned(st, cutoff), k) == RolledSpread(st, k)
    ensures Ahead(Pruned(st, cutoff), k) == Ahead(st, k)
  {
    hide Lookup, LastHour;
  }

  // ----- inserts -----

  lemma InsertTickHour(st: Store, full: Store, t: Tick, k: int)
    requires TickHourOk(st, full, k) && TickHourOk(st, full, HourOf(t.ts))
    requires Ahead(st, HourOf(t.ts))
    ensures TickHourOk(WithTick(st, t), WithTick(full, t), k)
  {
    hide LastIndex, Median, Lookup, LastHour, TickKnown;
    var j := HourOf(t.ts);
    LastHourIsNewest(st.rollup, j);
    TickAppended(st, t, k);
    TickAppended(full, t, k);
    if Native(t) && j == k { SameKeys(st, full, t); }
  }

  lemma TickAppended(st: Store, t: Tick, k: int)
    ensures NativeHour(WithTick(st, t), k)
         == if !TickKnown(st.ticks, t) && Native(t) && HourOf(t.ts) == k then NativeHour(st, k) + [t] else NativeHour(st, k)
  {
    hide TickKnown;
    assert (st.ticks + [t])[..|st.ticks|] == st.ticks;
  }

  lemma SameKeys(st: Store, full: Store, t: Tick)
    requires Native(t) && NativeHour(st, HourOf(t.ts)) == NativeHour(full, HourOf(t.ts))
    ensures TickKnown(st.ticks, t) == TickKnown(full.ticks, t)
  {
    hide NativeIn;
    var lo := HourOf(t.ts) * HOUR;
    forall u: Tick | u.source == t.source && u.ts == t.ts
      ensures u in st.ticks <==> u in full.ticks
    {
      NativeMembers(st.ticks, lo, lo + HOUR - 1, u);
      NativeMembers(full.ticks, lo, lo + HOUR - 1, u);
    }
  }

  lemma InsertBookHour(st: Store, full: Store, b: BookRow, k: int)
    requires BookHourOk(st, full, k)
    requires Ahead(st, HourOf(b.ts)) && (BookKnown(st.books, b) <==> BookKnown(full.books, b))
    ensures BookHourOk(WithBook(st, b), WithBook(full, b), k)
  {
    hide SpreadBps, Median, Lookup, LastHour, BookKnown;
    LastHourIsNewest(st.rollup, HourOf(b.ts));
    BookAppended(st, b, k);
    BookAppended(full, b, k);
  }

  lemma BookAppended(st: Store, b: BookRow, k: int)
    ensures SpreadHour(WithBook(st, b), k)
         == if !BookKnown(st.books, b) && HourOf(b.ts) == k && SpreadBps(b).Some?
            then SpreadHour(st, k) + [SpreadBps(b).value] else SpreadHour(st, k)
  {
    hide SpreadBps, BookKnown;
    assert (st.books + [b])[..|st.books|] == st.books;
  }

  // ----- runs -----

  datatype Op = AddTick(tick: Tick) | AddBook(book: BookRow) | Maintain(now: int, days: int)

  function Step(st: Store, op: Op): Store {
    match op
    case AddTick(t) => WithTick(st, t)
    case AddBook(b) => WithBook(st, b)
    case Maintain(now, days) => Maintained(st, now, days)
  }

  /** The same step on tables that are never rolled up and never pruned. */
  function RawStep(full: Store, op: Op): Store {
    match op
    case AddTick(t) => WithTick(full, t)
    case AddBook(b) => WithBook(full, b)
    case Maintain(_, _) => full
  }

  /** Retention of at least a day; a row is inserted only into an hour newer than every written one; a book's key
      is not used again after its row was pruned. */
  predicate Allowed(st: Store, full: Store, op: Op) {
    match op
    case AddTick(t) => Ahead(st, HourOf(t.ts))
    case AddBook(b) => Ahead(st, HourOf(b.ts)) && (BookKnown(full.books, b) ==> BookKnown(st.books, b))
    case Maintain(_, days) => days >= 1
  }

  predicate RunAllowed(st: Store, full: Store, ops: seq<Op>)
    decreases |ops|
  {
    ops == [] || (Allowed(st, full, ops[0]) && RunAllowed(Step(st, ops[0]), RawStep(full, ops[0]), ops[1..]))
  }

  function Play(st: Store, ops: seq<Op>): Store
    decreases |ops|
  {
    if ops == [] then st else Play(Step(st, ops[0]), ops[1..])
  }

  function PlayRaw(full: Store, ops: seq<Op>): Store
    decreases |ops|
  {
    if ops == [] then full else PlayRaw(RawStep(full, ops[0]), ops[1..])
  }

  /** Rows the pruned tables hold are rows the full tables hold. */
  ghost predicate Within(st: Store, full: Store) {
    forall b :: b in st.books ==> b in full.books
  }

  lemma {:induction false} PrunedSubset(books: seq<BookRow>, cutoff: int, b: BookRow)
    requires b in BooksFrom(books, cutoff)
    ensures b in books
  {
    var n := |books| - 1;
    assert books == books[..n] + [books[n]];
    if b in BooksFrom(books[..n], cutoff) { PrunedSubset(books[..n], cutoff, b); }
  }

  lemma StepAgrees(st: Store, full: Store, op: Op)
    requires Agrees(st, full) && Within(st, full) && Allowed(st, full, op)
    ensures Agrees(Step(st, op), RawStep(full, op)) && Within(Step(st, op), RawStep(full, op))
  {
    hide TickHourOk, BookHourOk, NativeHour, SpreadHour, Ahead, Lookup, RolledUp, HourOf;
    match op
    case AddTick(t) =>
      forall k ensures TickHourOk(WithTick(st, t), WithTick(full, t), k) { InsertTickHour(st, full, t, k); }
      forall k ensures BookHourOk(WithTick(st, t), WithTick(full, t), k) { SameBooks(st, full, WithTick(st, t), WithTick(full, t), k); }
    case AddBook(b) =>
      forall k ensures BookHourOk(WithBook(st, b), WithBook(full, b), k) { InsertBookHour(st, full, b, k); }
      forall k ensures TickHourOk(WithBook(st, b), WithBook(full, b), k) { SameTicks(st, full, WithBook(st, b), WithBook(full, b), k); }
    case Maintain(now, days) =>
      forall k ensures TickHourOk(Maintained(st, now, days), full, k) { MaintainTickHour(st, full, now, days, k); }
      forall k ensures BookHourOk(Maintained(st, now, days), full, k) { MaintainBookHour(st, full, now, days, k); }
      forall b | b in Maintained(st, now, days).books ensures b in st.books {
        RollupKeepsTables(st, now);
        PrunedSubset(st.books, now - days * DAY, b);
      }
  }

  lemma RollupKeepsTables(st: Store, now: int)
    ensures RolledUp(st, now).books == st.books && RolledUp(st, now).ticks == st.ticks
  {
  }

  lemma SameBooks(st: Store, full: Store, st1: Store, full1: Store, k: int)
    requires BookHourOk(st, full, k) && st1.books == st.books && st1.rollup == st.rollup && full1.books == full.books
    ensures BookHourOk(st1, full1, k)
  {
  }

  lemma SameTicks(st: Store, full: Store, st1: Store, full1: Store, k: int)
    requires TickHourOk(st, full, k) && st1.ticks == st.ticks && st1.rollup == st.rollup && full1.ticks == full.ticks
    ensures TickHourOk(st1, full1, k)
  {
  }

  lemma {:induction false} RunAgrees(st: Store, full: Store, ops: seq<Op>)
    requires Agrees(st, full) && Within(st, full) && RunAllowed(st, full, ops)
    ensures Agrees(Play(st, ops), PlayRaw(full, ops))
    decreases |ops|
  {
    hide Agrees, Within, Step, RawStep, Allowed;
    if ops != [] {
      StepAgrees(st, full, ops[0]);
      RunAgrees(Step(st, ops[0]), RawStep(full, ops[0]), ops[1..]);
    }
  }

  // ----- the readers cannot tell -----

  lemma SameBar(st: Store, full: Store, f: Feeds, k: int, start: int, end: int)
    requires TickHourOk(st, full, k) && BookHourOk(st, full, k) && full.rollup == [] && Covered(k, start, end)
    ensures BarAt(st, f, k, start, end) == BarAt(full, f, k, start, end)
  {
    hide NativeIn, SpreadsIn, LastIndex, Median, Ahead;
    assert Lookup(full.rollup, k).None?;
    if RolledSpread(st, k).Some? { MedianOne(RolledSpread(st, k).value); }
  }

  lemma {:induction false} SameBars(st: Store, full: Store, f: Feeds, first: int, last: int, k: int)
    requires Agrees(st, full) && first <= k
    ensures BarsFrom(st, f, first, last, k) == BarsFrom(full, f, first, last, k)
    decreases last - k
  {
    hide TickHourOk, BookHourOk, BarAt;
    if k <= last {
      assert TickHourOk(st, full, k) && BookHourOk(st, full, k);
      SameBar(st, full, f, k, first * HOUR, (last + 1) * HOUR - 1);
      SameBars(st, full, f, first, last, k + 1);
    }
  }

  /** The rollup is invisible: after any interleaving of inserts and roll-up-then-prune runs, every bar over every
      window is the bar the never-pruned raw rows give. */
  lemma RollupIsInvisible(ops: seq<Op>, f: Feeds, start: int, end: int)
    requires RunAllowed(EMPTY, EMPTY, ops)
    ensures Bars(Play(EMPTY, ops), f, start, end) == Bars(PlayRaw(EMPTY, ops), f, start, end)
  {
    hide BarsFrom, Play, PlayRaw, RunAllowed;
    RunAgrees(EMPTY, EMPTY, ops);
    SameBars(Play(EMPTY, ops), PlayRaw(EMPTY, ops), f, HourOf(start), HourOf(end - 1), HourOf(start));
  }

  // ----- the conditions are exact -----

  /** One open hour's tick, on tables that agree, is what a retention below a day loses. */
  lemma ShortRetention(now: int, days: int)
    requires days <= 0
    ensures exists st, full :: Agrees(st, full) && !Agrees(Maintained(st, now, days), full)
  {
    var t := Tick(PolymarketWs, now - 1, 1.0, 1.0);
    var st := Store([t], [], []);
    var k := HourOf(now - 1);
    assert Agrees(st, st) by {
      forall j ensures TickHourOk(st, st, j) && BookHourOk(st, st, j) {}
    }
    var st1 := RolledUp(st, now);
    assert st.ticks[..|st.ticks| - 1] == [];
    assert NativeIn([], k * HOUR, (k + 1) * HOUR - 1) == [];
    RollupKeepsRaw(st, now, k);
    RolledUpRow(st, now, k);
    assert NativeHour(st, k) == [t];
    assert TicksFrom([t], now - days * DAY) == [];
    assert NativeHour(Pruned(st1, now - days * DAY), k) == [];
    assert !TickHourOk(Maintained(st, now, days), st, k);
    assert Agrees(st, st) && !Agrees(Maintained(st, now, days), st);
  }

  /** Maintenance keeps every pair of agreeing tables in agreement exactly when the retention is at least a day. */
  lemma RetentionIsExact(now: int, days: int)
    ensures (forall st, full :: Agrees(st, full) ==> Agrees(Maintained(st, now, days), full)) <==> days >= 1
  {
    hide Agrees, Maintained;
    if days >= 1 {
      forall st, full | Agrees(st, full) ensures Agrees(Maintained(st, now, days), full) {
        MaintainAgrees(st, full, now, days);
      }
    } else {
      ShortRetention(now, days);
    }
  }

  lemma MaintainAgrees(st: Store, full: Store, now: int, days: int)
    requires Agrees(st, full) && days >= 1
    ensures Agrees(Maintained(st, now, days), full)
  {
    hide TickHourOk, BookHourOk, Maintained;
    forall k ensures TickHourOk(Maintained(st, now, days), full, k) { MaintainTickHour(st, full, now, days, k); }
    forall k ensures BookHourOk(Maintained(st, now, days), full, k) { MaintainBookHour(st, full, now, days, k); }
  }

  lemma {:induction false} AllPruned(ticks: seq<Tick>, cutoff: int, lo: int, hi: int)
    requires hi < cutoff
    ensures NativeIn(TicksFrom(ticks, cutoff), lo, hi) == []
  {
    if ticks != [] {
      var front, t := ticks[..|ticks| - 1], ticks[|ticks| - 1];
      AllPruned(front, cutoff, lo, hi);
      var kept := TicksFrom(front, cutoff);
      assert (kept + [t])[..|kept|] == kept;
      assert kept + [] == kept;
    }
  }

  /** Index close of a whole hour. */
  function IndexClose(st: Store, k: int): Option<real> {
    IndexAt(st, k, k * HOUR, (k + 1) * HOUR - 1)
  }

  /** A native tick inserted into an hour no newer than the newest written one is lost once its hour is pruned: the
      reader still answers what the raw rows said before it, which is what they say now exactly when the hour
      already had a newer tick, or one as new that it does not contradict. */
  lemma LateTickIsLost(st: Store, full: Store, t: Tick, now: int, days: int)
    requires Agrees(st, full) && Native(t) && !TickKnown(st.ticks, t) && !TickKnown(full.ticks, t)
    requires !Ahead(st, HourOf(t.ts)) && days >= 1 && (HourOf(t.ts) + 1) * HOUR <= now - days * DAY
    ensures var k := HourOf(t.ts);
      var newest := Newest(NativeHour(full, k));
      IndexClose(Maintained(WithTick(st, t), now, days), k) == IndexClose(WithTick(full, t), k)
      <==> newest.Some? && (t.ts < newest.value.ts || t.index == newest.value.index)
  {
    hide NativeIn, Lookup, LastHour, TicksFrom, RowAt, Blank, TickKnown, Earliest;
    var k := HourOf(t.ts);
    var st1 := WithTick(st, t);
    assert TickHourOk(st, full, k);
    TickAppended(full, t, k);
    assert (NativeHour(full, k) + [t])[..|NativeHour(full, k)|] == NativeHour(full, k);
    RolledUpRow(st1, now, k);
    AllPruned(RolledUp(st1, now).ticks, now - days * DAY, k * HOUR, (k + 1) * HOUR - 1);
    RawClose(full, k);
    RawClose(WithTick(full, t), k);
  }

  lemma RawClose(full: Store, k: int)
    requires full.rollup == []
    ensures IndexClose(full, k) == LastIndex(NativeHour(full, k))
  {
  }

  lemma {:induction false} AllBooksPruned(books: seq<BookRow>, cutoff: int, lo: int, hi: int)
    requires hi < cutoff
    ensures SpreadsIn(BooksFrom(books, cutoff), lo, hi) == []
  {
    hide SpreadBps;
    if books != [] {
      var front, b := books[..|books| - 1], books[|books| - 1];
      AllBooksPruned(front, cutoff, lo, hi);
      var kept := BooksFrom(front, cutoff);
      assert (kept + [b])[..|kept|] == kept;
      assert kept + [] == kept;
    }
  }

  /** Spread of a whole hour; none falls back to the proxy. */
  function SpreadOf(st: Store, k: int): Option<real> {
    Median(SpreadList(st, k, k * HOUR, (k + 1) * HOUR - 1))
  }

  /** The same of a book row: once its hour is pruned the spread is still the median without it, and that is the raw
      rows' median exactly when the row is one-sided or leaves the median where it was. */
  lemma LateBookIsLost(st: Store, full: Store, b: BookRow, now: int, days: int)
    requires Agrees(st, full) && !BookKnown(st.books, b) && !BookKnown(full.books, b)
    requires !Ahead(st, HourOf(b.ts)) && days >= 1 && (HourOf(b.ts) + 1) * HOUR <= now - days * DAY
    ensures var k := HourOf(b.ts);
      var without := SpreadHour(full, k);
      && SpreadOf(Maintained(WithBook(st, b), now, days), k) == Median(without)
      && (SpreadOf(Maintained(WithBook(st, b), now, days), k) == SpreadOf(WithBook(full, b), k)
          <==> SpreadBps(b).None? || Median(without + [SpreadBps(b).value]) == Median(without))
  {
    hide SpreadsIn, SpreadBps, Median, Lookup, LastHour, BooksFrom, RowAt, Blank, BookKnown, Earliest;
    var k := HourOf(b.ts);
    var st1 := WithBook(st, b);
    assert BookHourOk(st, full, k);
    BookAppended(full, b, k);
    RolledUpRow(st1, now, k);
    AllBooksPruned(RolledUp(st1, now).books, now - days * DAY, k * HOUR, (k + 1) * HOUR - 1);
    RawSpread(full, k);
    RawSpread(WithBook(full, b), k);
    if RolledSpread(st, k).Some? { MedianOne(RolledSpread(st, k).value); }
    RollupKeepsTables(st1, now);
  }

  lemma RawSpread(full: Store, k: int)
    requires full.rollup == []
    ensures SpreadOf(full, k) == Median(SpreadHour(full, k))
  {
    hide Median;
  }
}
