/** The client-side token bucket and the rate it guarantees over every window. */
module RateLimiter {
  import opened Types

  /** The bucket's two fields, with its fixed settings. */
  datatype Bucket = Bucket(rate: real, burst: real, tokens: real, last: real)

  predicate Sane(b: Bucket) {
    b.rate > 0.0 && b.burst >= 1.0 && 0.0 <= b.tokens <= b.burst
  }

  /** Tokens a stretch of time earns. */
  function Earned(rate: real, start: real, end: real): real {
    (end - start) * rate
  }

  lemma EarnedAdds(rate: real, t0: real, t1: real, t2: real)
    ensures Earned(rate, t0, t1) + Earned(rate, t1, t2) == Earned(rate, t0, t2)
  {
  }

  lemma EarnedGrows(rate: real, start: real, end: real)
    requires rate > 0.0 && start <= end
    ensures Earned(rate, start, end) >= 0.0
  {
  }

  function Refill(b: Bucket, now: real): Bucket {
    b.(tokens := Min(b.burst, b.tokens + Earned(b.rate, b.last, now)), last := now)
  }

  /** Seconds an acquire at `now` has to sleep. */
  function Wait(b: Bucket, now: real): real
    requires b.rate != 0.0
  {
    var r := Refill(b, now);
    if r.tokens < 1.0 then (1.0 - r.tokens) / b.rate else 0.0
  }

  /** The clock did not go back, and a sleep lasted at least as long as asked. */
  predicate ClockOk(b: Bucket, now: real, later: real)
    requires b.rate != 0.0
  {
    b.last <= now && later >= now + Wait(b, now)
  }

  /** One acquire: refill at `now`; when a token is missing, sleep and refill at `later`; take one. */
  function Take(b: Bucket, now: real, later: real): Bucket {
    var r := Refill(b, now);
    var s := if r.tokens < 1.0 then Refill(r, later) else r;
    s.(tokens := s.tokens - 1.0)
  }

  class TokenBucket {
    const rate: real
    const burst: real
    var tokens: real
    var last: real

    ghost predicate Valid()
      reads this
    {
      Sane(View())
    }

    ghost function View(): Bucket
      reads this
    {
      Bucket(rate, burst, tokens, last)
    }

    constructor (ratePerSec: real, burst: nat, now: real)
      requires ratePerSec > 0.0 && burst >= 1
      ensures Valid() && View() == Bucket(ratePerSec, burst as real, burst as real, now)
    {
      rate := ratePerSec;
      this.burst := burst as real;
      tokens := burst as real;
      last := now;
    }

    /** A bucket, unless the settings are refused. */
    static method Create(ratePerSec: real, burst: int, now: real) returns (b: TokenBucket?)
      ensures b == null <==> ratePerSec <= 0.0 || burst < 1
      ensures b != null ==> fresh(b) && b.Valid() && b.View() == Bucket(ratePerSec, burst as real, burst as real, now)
    {
      if ratePerSec <= 0.0 || burst < 1 { return null; }
      b := new TokenBucket(ratePerSec, burst, now);
    }

    method RefillAt(now: real)
      modifies this
      ensures View() == Refill(old(View()), now)
    {
      tokens := Min(burst, tokens + Earned(rate, last, now));
      last := now;
    }

    /** `later` is the clock's reading after the sleep, if there is one. */
    method Acquire(now: real, later: real) returns (waited: real)
      requires Valid() && ClockOk(View(), now, later)
      modifies this
      ensures Valid() && View() == Take(old(View()), now, later)
      ensures waited == Wait(old(View()), now)
    {
      TakeKeepsSane(View(), now, later);
      RefillAt(now);
      waited := 0.0;
      if tokens < 1.0 {
        waited := (1.0 - tokens) / rate;
        RefillAt(later);
      }
      tokens := tokens - 1.0;
    }
  }

  // ----- the guarantee -----

  lemma WaitFillsOne(tokens: real, rate: real, start: real, end: real)
    requires rate > 0.0 && tokens < 1.0 && end >= start + (1.0 - tokens) / rate
    ensures tokens + Earned(rate, start, end) >= 1.0 && end >= start
  {
    var w := (1.0 - tokens) / rate;
    assert w * rate == 1.0 - tokens;
    assert w >= 0.0;
    assert (end - start) * rate >= w * rate;
  }

  lemma Grows(b: Bucket, now: real)
    requires Sane(b) && b.last <= now
    ensures Sane(Refill(b, now)) && b.tokens <= Refill(b, now).tokens <= b.tokens + Earned(b.rate, b.last, now)
  {
    hide Earned;
    EarnedGrows(b.rate, b.last, now);
  }

  /** Tokens stay in range after every acquire, time passes, and no more is granted than time earns. */
  lemma TakeKeepsSane(b: Bucket, now: real, later: real)
    requires Sane(b) && ClockOk(b, now, later)
    ensures var c := Take(b, now, later);
      && Sane(c) && c.tokens <= c.burst - 1.0 && c.rate == b.rate && c.burst == b.burst
      && c.last >= b.last && c.tokens <= b.tokens + Earned(b.rate, b.last, c.last) - 1.0
  {
    hide Earned;
    var r := Refill(b, now);
    Grows(b, now);
    if r.tokens < 1.0 {
      WaitFillsOne(r.tokens, b.rate, now, later);
      Grows(r, later);
      EarnedAdds(b.rate, b.last, now, later);
    }
  }

  /** The wait is the least one: with no other acquire in between, a refill w seconds later finds a whole token if and
      only if w is at least the wait. */
  lemma WaitIsLeast(b: Bucket, now: real, w: real)
    requires Sane(b) && b.last <= now && w >= 0.0
    ensures Wait(b, now) >= 0.0
    ensures Refill(Refill(b, now), now + w).tokens >= 1.0 <==> w >= Wait(b, now)
  {
    Grows(b, now);
    var r := Refill(b, now);
    var missing := 1.0 - r.tokens;
    TimesRate(w, missing, b.rate);
    assert Earned(r.rate, r.last, now + w) == w * b.rate;
  }

  lemma TimesRate(w: real, missing: real, rate: real)
    requires rate > 0.0 && w >= 0.0
    ensures w * rate >= missing <==> w >= missing / rate
    ensures w * rate >= 0.0
    ensures missing > 0.0 ==> missing / rate > 0.0
  {
    var q := missing / rate;
    assert q * rate == missing;
    if w >= q { assert (w - q) * rate >= 0.0; } else { assert (q - w) * rate > 0.0; }
  }

  /** A run of acquires: the clock readings of each. */
  datatype Call = Call(now: real, later: real)

  predicate RunOk(b: Bucket, calls: seq<Call>)
    decreases |calls|
  {
    calls == [] || (Sane(b) && ClockOk(b, calls[0].now, calls[0].later) && RunOk(Take(b, calls[0].now, calls[0].later), calls[1..]))
  }

  /** The bucket after the first k acquires. */
  function After(b: Bucket, calls: seq<Call>, k: nat): Bucket
    requires k <= |calls|
    decreases k
  {
    if k == 0 then b else After(Take(b, calls[0].now, calls[0].later), calls[1..], k - 1)
  }

  /** When the k-th acquire of the run is granted. */
  function GrantedAt(b: Bucket, calls: seq<Call>, k: nat): real
    requires k < |calls|
  {
    After(b, calls, k + 1).last
  }

  lemma {:induction false} EarnedByTime(b: Bucket, calls: seq<Call>, k: nat)
    requires Sane(b) && RunOk(b, calls) && k <= |calls|
    ensures var c := After(b, calls, k);
      && Sane(c) && c.rate == b.rate && c.burst == b.burst && c.last >= b.last
      && (k > 0 ==> c.tokens <= c.burst - 1.0)
      && c.tokens <= b.tokens + Earned(b.rate, b.last, c.last) - k as real
    decreases k
  {
    hide Earned, Sane, Take, ClockOk;
    if k == 0 {
      EarnedAdds(b.rate, b.last, b.last, b.last);
    } else {
      var b1 := Take(b, calls[0].now, calls[0].later);
      TakeKeepsSane(b, calls[0].now, calls[0].later);
      EarnedByTime(b1, calls[1..], k - 1);
      if k == 1 { assert After(b, calls, k) == b1; }
      EarnedAdds(b.rate, b.last, b1.last, After(b, calls, k).last);
    }
  }

  lemma {:induction false} RunSuffix(b: Bucket, calls: seq<Call>, j: nat, k: nat)
    requires Sane(b) && RunOk(b, calls) && j <= k <= |calls|
    ensures RunOk(After(b, calls, j), calls[j..]) && Sane(After(b, calls, j))
    ensures After(After(b, calls, j), calls[j..], k - j) == After(b, calls, k)
    decreases j
  {
    hide Sane, Take, ClockOk, Wait;
    if j > 0 {
      TakeKeepsSane(b, calls[0].now, calls[0].later);
      RunSuffix(Take(b, calls[0].now, calls[0].later), calls[1..], j - 1, k - 1);
      assert calls[1..][j - 1..] == calls[j..];
    } else {
      assert calls[0..] == calls;
    }
  }

  /** Rate bound: in every run with a monotone clock and honest sleeps, the acquires from the j-th to the k-th
      number at most burst plus rate times the time between the two grants - so no window of length d ever
      sees more than burst + rate * d. */
  lemma RateBound(b: Bucket, calls: seq<Call>, j: nat, k: nat)
    requires Sane(b) && RunOk(b, calls) && j <= k < |calls|
    ensures (k - j + 1) as real <= b.burst + Earned(b.rate, GrantedAt(b, calls, j), GrantedAt(b, calls, k))
    ensures 0.0 <= After(b, calls, k + 1).tokens <= b.burst
  {
    hide Earned, Take, ClockOk, RunOk, After;
    EarnedByTime(b, calls, j + 1);
    RunSuffix(b, calls, j + 1, k + 1);
    EarnedByTime(After(b, calls, j + 1), calls[j + 1..], k - j);
    EarnedByTime(b, calls, k + 1);
  }
}
