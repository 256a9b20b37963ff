/** The token bucket behind the request quotas, over exact reals. Times are whole milliseconds of the Redis clock. */
module TokenBucket {
  import opened Options

  const MAX_CAPACITY: nat := 0x8000_0000
  const MAX_PERIOD: nat := 3_600_000

  datatype Limit = Limit(capacity: int, period: int)

  /** Capacity and refill period as `QuotaLimit.Validate` bounds them, the period in whole milliseconds. */
  predicate ValidLimit(l: Limit)
  {
    0 < l.capacity <= MAX_CAPACITY && 1 <= l.period <= MAX_PERIOD
  }

  predicate ValidCost(l: Limit, cost: int)
  {
    0 < cost <= l.capacity
  }

  datatype Stored = Stored(tokens: real, updated: int)

  /** A stored level is never negative; it may be above a capacity that was lowered since. */
  predicate ValidStored(s: Option<Stored>)
  {
    s.Some? ==> 0.0 <= s.value.tokens
  }

  function Min(a: real, b: real): real
  {
    if a < b then a else b
  }

  function Elapsed(l: Limit, updated: int, now: int): int
  {
    var e := if now - updated < 0 then 0 else now - updated;
    if e < l.period then e else l.period
  }

  /** What comes back in `e` milliseconds. */
  function Refill(l: Limit, e: int): real
    requires ValidLimit(l)
  {
    e as real * l.capacity as real / l.period as real
  }

  /** How long it takes for so many tokens to come back. */
  function RefillTime(l: Limit, missing: real): real
    requires ValidLimit(l)
  {
    missing * l.period as real / l.capacity as real
  }

  /** The tokens there are at `now`, before anything is taken. */
  function Available(l: Limit, s: Option<Stored>, now: int): real
    requires ValidLimit(l)
  {
    var tokens := if s.Some? then s.value.tokens else l.capacity as real;
    var updated := if s.Some? then s.value.updated else now;
    Min(l.capacity as real, tokens + Refill(l, Elapsed(l, updated, now)))
  }

  function Ceil(x: real): int
  {
    if x.Floor as real == x then x.Floor else x.Floor + 1
  }

  datatype Decision = Decision(allowed: bool, retry: int)

  /** One run of the script. */
  function Evaluate(l: Limit, s: Option<Stored>, cost: int, now: int): (Stored, Decision)
    requires ValidLimit(l)
  {
    var tokens := Available(l, s, now);
    if tokens >= cost as real then (Stored(tokens - cost as real, now), Decision(true, 0))
    else (Stored(tokens, now), Decision(false, Ceil(RefillTime(l, cost as real - tokens))))
  }

  /** How long the key lives after a run. */
  function Expiry(l: Limit, retry: int): int
  {
    if 2 * l.period > retry + l.period then 2 * l.period else retry + l.period
  }

  /** What a run of the script finds under the key: nothing when Redis has dropped it. */
  function Found(s: Option<Stored>, gone: bool): Option<Stored>
  {
    if gone then None else s
  }

  class Bucket {
    var stored: Option<Stored>
    var expiry: int

    constructor ()
      ensures stored == None
    {
      stored, expiry := None, 0;
    }

    /**
     * The script as it runs: read, refill, take or refuse, write back, set the expiry. The key may be gone by then; it
     * always lives for two periods of the limit that wrote it.
     */
    method Eval(l: Limit, cost: int, now: int, gone: bool) returns (d: Decision)
      requires ValidLimit(l) && ValidCost(l, cost) && ValidStored(stored)
      modifies this
      ensures
        var r := Evaluate(l, Found(old(stored), gone), cost, now);
        stored == Some(r.0) && d == r.1
      ensures ValidStored(stored) && 0 <= d.retry <= l.period && (d.allowed <==> d.retry == 0)
      ensures expiry == Expiry(l, d.retry) == 2 * l.period
    {
      if gone {
        stored := None;
      }
      var tokens, updated := l.capacity as real, now;
      if stored.Some? {
        tokens, updated := stored.value.tokens, stored.value.updated;
      }
      var elapsed := if now - updated < 0 then 0 else now - updated;
      if l.period < elapsed {
        elapsed := l.period;
      }
      tokens := tokens + Refill(l, elapsed);
      if l.capacity as real < tokens {
        tokens := l.capacity as real;
      }
      assert tokens == Available(l, stored, now);
      AvailableIsValid(l, stored, now);
      d := Decision(true, 0);
      if tokens >= cost as real {
        tokens := tokens - cost as real;
      } else {
        RetryIsBounded(l, tokens, cost);
        d := Decision(false, Ceil(RefillTime(l, cost as real - tokens)));
      }
      stored := Some(Stored(tokens, now));
      expiry := if 2 * l.period > d.retry + l.period then 2 * l.period else d.retry + l.period;
    }
  }

  // ------------------------------------------------------------------ arithmetic

  lemma QuotientAtLeast(x: real, y: real, d: real)
    requires 0.0 < d
    ensures x <= y / d <==> x * d <= y
  {
    var q := y / d;
    assert q * d == y;
    Comparison(x, q, d);
  }

  lemma QuotientAtMost(x: real, y: real, d: real)
    requires 0.0 < d
    ensures x / d <= y <==> x <= y * d
  {
    var q := x / d;
    assert q * d == x;
    Comparison(q, y, d);
  }

  lemma Comparison(x: real, y: real, d: real)
    requires 0.0 < d
    ensures x <= y <==> x * d <= y * d
  {
    if x <= y {
      TimesMonotone(x, y, d);
    } else {
      TimesStrict(y, x, d);
    }
  }

  lemma TimesMonotone(x: real, y: real, z: real)
    requires x <= y && 0.0 <= z
    ensures x * z <= y * z
  {
  }

  lemma TimesStrict(x: real, y: real, z: real)
    requires x < y && 0.0 < z
    ensures x * z < y * z
  {
  }

  /** A part of `d` times `c` over `d` is a part of `c`. */
  lemma PartOf(e: real, c: real, d: real)
    requires 0.0 <= e <= d && 0.0 < c && 0.0 < d
    ensures 0.0 <= e * c / d <= c
  {
    TimesMonotone(0.0, e, c);
    TimesMonotone(e, d, c);
    QuotientAtLeast(0.0, e * c, d);
    QuotientAtMost(e * c, c, d);
  }

  lemma WholeOf(c: real, d: real)
    requires 0.0 < d
    ensures d * c / d == c
  {
    assert d * c == c * d;
  }

  lemma CeilRange(x: real, n: int)
    requires 0.0 < x <= n as real
    ensures 1 <= Ceil(x) <= n
  {
  }

  lemma CeilIsLeast(x: real, n: int)
    ensures x <= n as real <==> Ceil(x) <= n
  {
  }

  // ---------------------------------------------------------------------- bounds

  /** A refill for no longer than the period adds between nothing and the capacity, and all of it after the period. */
  lemma RefillIsBounded(l: Limit, e: int)
    requires ValidLimit(l) && 0 <= e <= l.period
    ensures 0.0 <= Refill(l, e) <= l.capacity as real
    ensures e == l.period ==> Refill(l, e) == l.capacity as real
  {
    PartOf(e as real, l.capacity as real, l.period as real);
    WholeOf(l.capacity as real, l.period as real);
  }

  lemma AvailableIsValid(l: Limit, s: Option<Stored>, now: int)
    requires ValidLimit(l) && ValidStored(s)
    ensures 0.0 <= Available(l, s, now) <= l.capacity as real
  {
    var updated := if s.Some? then s.value.updated else now;
    RefillIsBounded(l, Elapsed(l, updated, now));
  }

  /** The wait is at least one millisecond and at most one period, so the reply is always within its bounds. */
  lemma RetryIsBounded(l: Limit, tokens: real, cost: int)
    requires ValidLimit(l) && ValidCost(l, cost) && 0.0 <= tokens < cost as real
    ensures 1 <= Ceil(RefillTime(l, cost as real - tokens)) <= l.period
  {
    var missing := cost as real - tokens;
    var c, p := l.capacity as real, l.period as real;
    PartOf(missing, p, c);
    TimesStrict(0.0, missing, p);
    QuotientAtMost(missing * p, 0.0, c);
    CeilRange(RefillTime(l, missing), l.period);
  }

  // -------------------------------------------------------------------- theorems

  /** Refilling long enough and having what was missing are the same. */
  lemma RefillReaches(l: Limit, missing: real, e: int)
    requires ValidLimit(l)
    ensures missing <= Refill(l, e) <==> RefillTime(l, missing) <= e as real
  {
    var c, p := l.capacity as real, l.period as real;
    QuotientAtLeast(missing, e as real * c, p);
    QuotientAtMost(missing * p, e as real, c);
  }

  /**
   * A refused caller that comes back alone is admitted exactly from `retry` milliseconds on: not earlier, and at any
   * later time. The wait never exceeds the period.
   */
  lemma RetryIsExact(l: Limit, s: Option<Stored>, cost: int, now: int, later: int)
    requires ValidLimit(l) && ValidCost(l, cost) && ValidStored(s) && now <= later
    requires !Evaluate(l, s, cost, now).1.allowed
    ensures
      var r := Evaluate(l, s, cost, now);
      && 1 <= r.1.retry <= l.period
      && (Evaluate(l, Some(r.0), cost, later).1.allowed <==> later - now >= r.1.retry)
  {
    var tokens := Available(l, s, now);
    AvailableIsValid(l, s, now);
    RetryIsBounded(l, tokens, cost);
    LaterIsEnough(l, tokens, cost, now, later);
  }

  lemma LaterIsEnough(l: Limit, tokens: real, cost: int, now: int, later: int)
    requires ValidLimit(l) && ValidCost(l, cost) && 0.0 <= tokens < cost as real && now <= later
    requires 1 <= Ceil(RefillTime(l, cost as real - tokens)) <= l.period
    ensures Available(l, Some(Stored(tokens, now)), later) >= cost as real <==>
      later - now >= Ceil(RefillTime(l, cost as real - tokens))
  {
    var missing := cost as real - tokens;
    var e := Elapsed(l, now, later);
    RefillReaches(l, missing, e);
    CeilIsLeast(RefillTime(l, missing), e);
  }

  /** A run leaves between nothing and the capacity, less what it took, and the key lives for two periods. */
  lemma TakenAndLeft(l: Limit, s: Option<Stored>, cost: int, now: int)
    requires ValidLimit(l) && ValidStored(s) && ValidCost(l, cost)
    ensures
      var r := Evaluate(l, s, cost, now);
      && r.0.tokens == Available(l, s, now) - (if r.1.allowed then cost as real else 0.0)
      && 0.0 <= r.0.tokens <= l.capacity as real && r.0.updated == now
      && Expiry(l, r.1.retry) == 2 * l.period
  {
    AvailableIsValid(l, s, now);
    if Available(l, s, now) < cost as real {
      RetryIsBounded(l, Available(l, s, now), cost);
    }
  }

  // ---------------------------------------------------------------------- expiry

  /** After a period of its own limit a call finds the bucket full, whether or not the key is still there. */
  lemma FullAfterPeriod(l: Limit, s: Stored, now: int)
    requires ValidLimit(l) && ValidStored(Some(s)) && s.updated + l.period <= now
    ensures Available(l, Some(s), now) == Available(l, None, now) == l.capacity as real
  {
    RefillIsBounded(l, l.period);
    RefillIsBounded(l, 0);
    assert Elapsed(l, s.updated, now) == l.period;
  }

  /** Before that an empty bucket is not full. */
  lemma NotFullBeforePeriod(l: Limit, e: int)
    requires ValidLimit(l) && 0 <= e < l.period
    ensures 0.0 <= Refill(l, e) < l.capacity as real
  {
    var c, p := l.capacity as real, l.period as real;
    RefillIsBounded(l, e);
    TimesStrict(e as real, p, c);
    WholeOf(c, p);
    QuotientAtLeast(c, e as real * c, p);
  }

  /**
   * Whatever a call under `l` wrote, once its key may have expired any call under `l2` gets the same answer, and leaves
   * the same state, with and without the key.
   */
  ghost predicate ExpiryHidden(l: Limit, l2: Limit)
    requires ValidLimit(l) && ValidLimit(l2)
  {
    forall s: Option<Stored>, cost: int, now: int, cost2: int, later: int ::
      ValidStored(s) && ValidCost(l, cost) && ValidCost(l2, cost2) &&
      now + Expiry(l, Evaluate(l, s, cost, now).1.retry) <= later ==>
        Evaluate(l2, Some(Evaluate(l, s, cost, now).0), cost2, later) == Evaluate(l2, None, cost2, later)
  }

  /** Across a change of limit the expiry is unobservable exactly if the new period is at most twice the old one. */
  lemma ExpiryIsUnobservable(l: Limit, l2: Limit)
    requires ValidLimit(l) && ValidLimit(l2)
    ensures ExpiryHidden(l, l2) <==> l2.period <= 2 * l.period
  {
    if l2.period <= 2 * l.period {
      forall s: Option<Stored>, cost: int, now: int, cost2: int, later: int |
        ValidStored(s) && ValidCost(l, cost) && ValidCost(l2, cost2) &&
        now + Expiry(l, Evaluate(l, s, cost, now).1.retry) <= later
        ensures Evaluate(l2, Some(Evaluate(l, s, cost, now).0), cost2, later) == Evaluate(l2, None, cost2, later)
      {
        TakenAndLeft(l, s, cost, now);
        FullAfterPeriod(l2, Evaluate(l, s, cost, now).0, later);
      }
    } else {
      ExpiryShows(l, l2);
    }
  }

  /** The whole capacity is taken at time 0; at the expiry the key, were it still there, would not be full. */
  lemma ExpiryShows(l: Limit, l2: Limit)
    requires ValidLimit(l) && ValidLimit(l2) && 2 * l.period < l2.period
    ensures
      var r := Evaluate(l, None, l.capacity, 0);
      var later := Expiry(l, r.1.retry);
      && r == (Stored(0.0, 0), Decision(true, 0)) && later == 2 * l.period
      && Evaluate(l2, Some(r.0), l2.capacity, later) != Evaluate(l2, None, l2.capacity, later)
      && Evaluate(l2, None, l2.capacity, later).1.allowed
      && Refill(l2, later) < l2.capacity as real
    ensures !ExpiryHidden(l, l2)
  {
    RefillIsBounded(l, 0);
    RefillIsBounded(l2, 0);
    var later := 2 * l.period;
    NotFullBeforePeriod(l2, later);
    assert Available(l, None, 0) == l.capacity as real;
    assert Evaluate(l, None, l.capacity, 0) == (Stored(0.0, 0), Decision(true, 0));
    assert Available(l2, Some(Stored(0.0, 0)), later) == Refill(l2, later);
    assert Available(l2, None, later) == l2.capacity as real;
    assert !Evaluate(l2, Some(Stored(0.0, 0)), l2.capacity, later).1.allowed;
    assert ValidStored(None);
  }

  // ------------------------------------------------------------------ many calls

  /**
   * A call brings its own limit: the operator may change it between calls. It also says whether it finds the key gone,
   * because it expired or because Redis lost it.
   */
  datatype Call = Call(limit: Limit, cost: int, now: int, gone: bool)

  predicate ValidCalls(calls: seq<Call>)
  {
    forall i :: 0 <= i < |calls| ==> ValidLimit(calls[i].limit) && ValidCost(calls[i].limit, calls[i].cost)
  }

  function EvaluateCall(s: Option<Stored>, c: Call): (Stored, Decision)
    requires ValidLimit(c.limit)
  {
    Evaluate(c.limit, Found(s, c.gone), c.cost, c.now)
  }

  /** The cost admitted over a sequence of calls on one bucket. */
  function Admitted(s: Option<Stored>, calls: seq<Call>): int
    requires ValidCalls(calls)
    decreases |calls|
  {
    if calls == [] then 0
    else
      var r := EvaluateCall(s, calls[0]);
      (if r.1.allowed then calls[0].cost else 0) + Admitted(Some(r.0), calls[1..])
  }

  /** What the clock's forward move to a call brings back, at the rate of that call and for at most a period. */
  function Forward(previous: Call, c: Call): real
    requires ValidLimit(c.limit)
  {
    Refill(c.limit, Elapsed(c.limit, previous.now, c.now))
  }

  /** What comes back between the calls: the forward moves, and everything when the key is gone. */
  function Refilled(calls: seq<Call>): real
    requires ValidCalls(calls)
    decreases |calls|
  {
    if |calls| <= 1 then 0.0
    else
      (if calls[1].gone then calls[1].limit.capacity as real else Forward(calls[0], calls[1])) + Refilled(calls[1..])
  }

  /** The forward moves alone: what the quota promises to give back. */
  function Promised(calls: seq<Call>): real
    requires ValidCalls(calls)
    decreases |calls|
  {
    if |calls| <= 1 then 0.0 else Forward(calls[0], calls[1]) + Promised(calls[1..])
  }

  predicate OneLimit(l: Limit, calls: seq<Call>)
  {
    forall i :: 0 <= i < |calls| ==> calls[i].limit == l
  }

  predicate Ordered(calls: seq<Call>)
  {
    forall i, j :: 0 <= i < j < |calls| ==> calls[i].now <= calls[j].now
  }

  /** The key is gone only once the expiry that the previous call set has passed. */
  predicate Timely(s: Option<Stored>, calls: seq<Call>)
    requires ValidCalls(calls)
    decreases |calls|
  {
    |calls| <= 1 ||
    var r := EvaluateCall(s, calls[0]);
    && (calls[1].gone ==> calls[0].now + Expiry(calls[0].limit, r.1.retry) <= calls[1].now)
    && Timely(Some(r.0), calls[1..])
  }

  /** From one call to the next the period at most doubles. */
  predicate GentlyChanged(calls: seq<Call>)
  {
    forall i :: 0 < i < |calls| ==> calls[i].limit.period <= 2 * calls[i - 1].limit.period
  }

  lemma RefillMonotone(l: Limit, a: int, b: int)
    requires ValidLimit(l) && a <= b
    ensures Refill(l, a) <= Refill(l, b)
  {
    var c, p := l.capacity as real, l.period as real;
    TimesMonotone(a as real, b as real, c);
    QuotientAtMost(a as real * c, b as real * c / p, p);
    assert b as real * c / p * p == b as real * c;
  }

  lemma RefillAdds(l: Limit, a: int, b: int)
    requires ValidLimit(l)
    ensures Refill(l, a + b) == Refill(l, a) + Refill(l, b)
  {
    var c, p := l.capacity as real, l.period as real;
    assert (a + b) as real * c == a as real * c + b as real * c;
    SumOfQuotients(a as real * c, b as real * c, p);
  }

  lemma SumOfQuotients(x: real, y: real, d: real)
    requires d != 0.0
    ensures (x + y) / d == x / d + y / d
  {
  }

  /** Whatever clock, limits and keys do, what is admitted is at most what was there plus what came back in between. */
  lemma {:induction false} AdmittedIsCovered(s: Option<Stored>, calls: seq<Call>)
    requires ValidStored(s) && calls != [] && ValidCalls(calls)
    ensures Admitted(s, calls) as real <=
            Available(calls[0].limit, Found(s, calls[0].gone), calls[0].now) + Refilled(calls)
    decreases |calls|
  {
    var c := calls[0];
    TakenAndLeft(c.limit, Found(s, c.gone), c.cost, c.now);
    var r := EvaluateCall(s, c);
    var rest := calls[1..];
    if rest != [] {
      AdmittedIsCovered(Some(r.0), rest);
      AvailableIsValid(rest[0].limit, Found(Some(r.0), rest[0].gone), rest[0].now);
    }
  }

  /** The quota: over any calls at most the capacity at the first one plus what came back, lost keys included. */
  lemma AnyClockBound(s: Option<Stored>, calls: seq<Call>)
    requires ValidStored(s) && calls != [] && ValidCalls(calls)
    ensures Admitted(s, calls) as real <= calls[0].limit.capacity as real + Refilled(calls)
  {
    AdmittedIsCovered(s, calls);
    AvailableIsValid(calls[0].limit, Found(s, calls[0].gone), calls[0].now);
  }

  /** A key that goes in time, under periods that at most double, gives back no more than the forward move does. */
  lemma {:induction false} TimelyIsPromised(s: Option<Stored>, calls: seq<Call>)
    requires ValidStored(s) && ValidCalls(calls) && Timely(s, calls) && GentlyChanged(calls)
    ensures Refilled(calls) == Promised(calls)
    decreases |calls|
  {
    if |calls| > 1 {
      var c, next := calls[0], calls[1];
      TakenAndLeft(c.limit, Found(s, c.gone), c.cost, c.now);
      RefillIsBounded(next.limit, next.limit.period);
      TimelyIsPromised(Some(EvaluateCall(s, c).0), calls[1..]);
    }
  }

  /** The quota with the key's expiry: at most the capacity at the first call plus the clock's forward moves. */
  lemma TimelyBound(s: Option<Stored>, calls: seq<Call>)
    requires ValidStored(s) && calls != [] && ValidCalls(calls) && Timely(s, calls) && GentlyChanged(calls)
    ensures Admitted(s, calls) as real <= calls[0].limit.capacity as real + Promised(calls)
  {
    AnyClockBound(s, calls);
    TimelyIsPromised(s, calls);
  }

  /** With one limit and a nondecreasing clock, no more comes back than the interval refills. */
  lemma {:induction false} PromisedInInterval(l: Limit, calls: seq<Call>)
    requires ValidLimit(l) && calls != [] && ValidCalls(calls) && OneLimit(l, calls) && Ordered(calls)
    ensures Promised(calls) <= Refill(l, calls[|calls| - 1].now - calls[0].now)
    decreases |calls|
  {
    if |calls| == 1 {
      RefillIsBounded(l, 0);
    } else {
      var rest := calls[1..];
      var move := calls[1].now - calls[0].now;
      PromisedInInterval(l, rest);
      RefillMonotone(l, Elapsed(l, calls[0].now, calls[1].now), move);
      RefillAdds(l, move, rest[|rest| - 1].now - rest[0].now);
    }
  }

  /** The quota of an interval: the capacity plus the refill of the interval. */
  lemma WindowBound(l: Limit, s: Option<Stored>, calls: seq<Call>)
    requires ValidLimit(l) && ValidStored(s) && calls != [] && ValidCalls(calls) && OneLimit(l, calls) && Ordered(calls)
    requires Timely(s, calls)
    ensures Admitted(s, calls) as real <= l.capacity as real + Refill(l, calls[|calls| - 1].now - calls[0].now)
  {
    TimelyBound(s, calls);
    PromisedInInterval(l, calls);
  }

  // ------------------------------------------------------------ a change of limit

  /** The calls use `l` up to some point and `l2` from there on. */
  predicate Switched(l: Limit, l2: Limit, calls: seq<Call>)
  {
    && (forall i :: 0 <= i < |calls| ==> calls[i].limit == l || calls[i].limit == l2)
    && (forall i :: 0 < i < |calls| && calls[i].limit == l ==> calls[i - 1].limit == l)
  }

  /** The promise survives the change: every run of the script over it, in order and with keys that go in time. */
  ghost predicate PromiseSurvives(l: Limit, l2: Limit)
  {
    forall s: Option<Stored>, calls: seq<Call> ::
      ValidStored(s) && calls != [] && ValidCalls(calls) && Switched(l, l2, calls) && Ordered(calls) &&
      Timely(s, calls) ==>
        Admitted(s, calls) as real <= calls[0].limit.capacity as real + Promised(calls)
  }

  /** A change of limit keeps the quota exactly if the new period is at most twice the old one. */
  lemma LimitChangeBound(l: Limit, l2: Limit)
    requires ValidLimit(l) && ValidLimit(l2)
    ensures PromiseSurvives(l, l2) <==> l2.period <= 2 * l.period
  {
    if l2.period <= 2 * l.period {
      forall s: Option<Stored>, calls: seq<Call> |
        ValidStored(s) && calls != [] && ValidCalls(calls) && Switched(l, l2, calls) && Ordered(calls) &&
        Timely(s, calls)
        ensures Admitted(s, calls) as real <= calls[0].limit.capacity as real + Promised(calls)
      {
        assert GentlyChanged(calls);
        TimelyBound(s, calls);
      }
    } else {
      LongerPeriodBreaksThePromise(l, l2);
    }
  }

  /** Take everything, wait for the expiry, take everything again: the second time too little has come back. */
  lemma LongerPeriodBreaksThePromise(l: Limit, l2: Limit)
    requires ValidLimit(l) && ValidLimit(l2) && 2 * l.period < l2.period
    ensures
      var calls := [Call(l, l.capacity, 0, true), Call(l2, l2.capacity, 2 * l.period, true)];
      && ValidCalls(calls) && Switched(l, l2, calls) && Ordered(calls) && Timely(None, calls)
      && Admitted(None, calls) == l.capacity + l2.capacity
      && Promised(calls) == Refill(l2, 2 * l.period) < l2.capacity as real
    ensures !PromiseSurvives(l, l2)
  {
    var c1, c2 := Call(l, l.capacity, 0, true), Call(l2, l2.capacity, 2 * l.period, true);
    var calls := [c1, c2];
    ExpiryShows(l, l2);
    assert calls[1..] == [c2] && [c2][1..] == [];
    var r1, r2 := EvaluateCall(None, c1), EvaluateCall(Some(Stored(0.0, 0)), c2);
    assert Admitted(Some(r2.0), [c2][1..]) == 0;
    assert Admitted(Some(r1.0), [c2]) == l2.capacity;
    assert Admitted(None, calls) == l.capacity + l2.capacity;
    assert Promised([c2]) == 0.0;
    assert ValidStored(None);
  }

  /** From 60 in a second to 60 in a minute: 120 are admitted within two seconds, and 62 would be the promise. */
  lemma SlowerRefillAdmitsTwice()
    ensures
      var l, l2 := Limit(60, 1000), Limit(60, 60_000);
      var calls := [Call(l, 60, 0, true), Call(l2, 60, 2000, true)];
      && ValidCalls(calls) && Ordered(calls) && Timely(None, calls)
      && Admitted(None, calls) == 120 && l.capacity as real + Promised(calls) == 62.0
  {
    var l, l2 := Limit(60, 1000), Limit(60, 60_000);
    LongerPeriodBreaksThePromise(l, l2);
    assert Refill(l2, 2000) == 2.0;
  }

  // ------------------------------------------------------- a clock that steps back

  /**
   * With a clock that steps back, the interval from first to last call says too little: a refused call moves the time
   * of the last refill into the past. The bound over the forward moves is reached.
   */
  lemma BackwardClockBreaksTheBound()
    ensures
      var l := Limit(1, 1000);
      var calls := [Call(l, 1, 1000, true), Call(l, 1, 0, false), Call(l, 1, 1000, false)];
      && ValidLimit(l) && ValidCalls(calls) && Admitted(None, calls) == 2
      && Admitted(None, calls) as real > l.capacity as real + Refill(l, calls[2].now - calls[0].now)
      && Timely(None, calls) && Admitted(None, calls) as real == l.capacity as real + Promised(calls)
  {
    var l := Limit(1, 1000);
    var c1, c2, c3 := Call(l, 1, 1000, true), Call(l, 1, 0, false), Call(l, 1, 1000, false);
    var calls := [c1, c2, c3];
    assert calls[1..] == [c2, c3] && [c2, c3][1..] == [c3] && [c3][1..] == [];
    assert Refill(l, 1000) == 1.0 && Refill(l, 0) == 0.0;
    var s1, s2 := Some(Stored(0.0, 1000)), Some(Stored(0.0, 0));
    assert Available(l, None, 1000) == 1.0 && Available(l, s1, 0) == 0.0 && Available(l, s2, 1000) == 1.0;
    assert Evaluate(l, None, 1, 1000) == (s1.value, Decision(true, 0));
    assert Evaluate(l, s1, 1, 0).0 == s2.value && !Evaluate(l, s1, 1, 0).1.allowed;
    assert Evaluate(l, s2, 1, 1000).1.allowed;
    assert Admitted(Some(Evaluate(l, s2, 1, 1000).0), [c3][1..]) == 0;
    assert Admitted(s2, [c3]) == 1;
    assert Admitted(s1, [c2, c3]) == 1;
    assert Admitted(None, calls) == 2;
    assert Promised([c3]) == 0.0 && Promised([c2, c3]) == 1.0 && Promised(calls) == 1.0;
  }

  /**
   * A clock that jumps ahead and back between two calls drops the key although no time has passed for them. Only the
   * bound that counts the lost key holds, and it is reached.
   */
  lemma LostKeyBreaksTheBound()
    ensures
      var l := Limit(1, 1000);
      var calls := [Call(l, 1, 1000, true), Call(l, 1, 1000, true)];
      && ValidLimit(l) && ValidCalls(calls) && OneLimit(l, calls) && Ordered(calls) && !Timely(None, calls)
      && Admitted(None, calls) == 2 && l.capacity as real + Promised(calls) == 1.0
      && Admitted(None, calls) as real == l.capacity as real + Refilled(calls)
  {
    var l := Limit(1, 1000);
    var c := Call(l, 1, 1000, true);
    var calls := [c, c];
    assert calls[1..] == [c] && [c][1..] == [];
    assert Refill(l, 0) == 0.0;
    assert Available(l, None, 1000) == 1.0;
    var r := (Stored(0.0, 1000), Decision(true, 0));
    assert EvaluateCall(None, c) == r && EvaluateCall(Some(r.0), c) == r;
    assert Admitted(Some(r.0), [c][1..]) == 0;
    assert Admitted(Some(r.0), [c]) == 1;
    assert Admitted(None, calls) == 2;
    assert Promised([c]) == 0.0 && Refilled([c]) == 0.0;
    assert Promised(calls) == 0.0 && Refilled(calls) == 1.0;
  }
}
