/** When the telemetry sampler fires. */
module Telemetry {

  const MINIMUM_INTERVAL: nat := 200

  /** The settings read on one tick. */
  datatype Tick = Tick(enabled: bool, intervalMs: nat)

  function Wanted(t: Tick): nat {
    if t.intervalMs < MINIMUM_INTERVAL then MINIMUM_INTERVAL else t.intervalMs
  }

  /** The tick after which the accumulator was last zero: the latest firing before `i`, or the start. */
  function Since(fired: seq<bool>, i: nat): (s: nat)
    requires i <= |fired|
    ensures s <= i
  {
    if i == 0 then 0 else if fired[i - 1] then i else Since(fired, i - 1)
  }

  lemma {:induction false} SinceIsLatest(fired: seq<bool>, i: nat)
    requires i <= |fired|
    ensures var s := Since(fired, i); (s > 0 ==> fired[s - 1]) && forall k :: s <= k < i ==> !fired[k]
  {
    if i > 0 { SinceIsLatest(fired, i - 1); }
  }

  /** The accumulator was last reset by the tick before `s`, or never, `s` being 0, when tick `i` begins. */
  ghost predicate LastReset(fired: seq<bool>, s: nat, i: nat) {
    && s <= i <= |fired|
    && (s > 0 ==> fired[s - 1])
    && forall k :: s <= k < i ==> !fired[k]
  }

  lemma {:induction false} SinceIsLastReset(fired: seq<bool>, s: nat, i: nat)
    requires LastReset(fired, s, i)
    ensures Since(fired, i) == s
  {
    SinceIsLatest(fired, i);
  }

  /** What decides a tick: enabled, and 200 ms per tick since the last firing reach the wanted interval. */
  predicate Due(ticks: seq<Tick>, fired: seq<bool>, i: nat)
    requires i < |ticks| && i <= |fired|
  {
    ticks[i].enabled && (i + 1 - Since(fired, i)) * MINIMUM_INTERVAL >= Wanted(ticks[i])
  }

  /** The tick by tick record agrees with the rule that decides a tick. */
  ghost predicate Faithful(ticks: seq<Tick>, fired: seq<bool>) {
    && |fired| <= |ticks|
    && forall k :: 0 <= k < |fired| ==> (fired[k] <==> Due(ticks, fired, k))
  }

  lemma {:induction false} SincePrefix(a: seq<bool>, b: seq<bool>, i: nat)
    requires a <= b && i <= |a|
    ensures Since(b, i) == Since(a, i)
  {
    if i > 0 { SincePrefix(a, b, i - 1); }
  }

  lemma {:induction false} AppendTick(ticks: seq<Tick>, before: seq<bool>, fire: bool)
    requires Faithful(ticks, before) && |before| < |ticks|
    requires fire <==> Due(ticks, before, |before|)
    ensures Faithful(ticks, before + [fire])
    ensures Since(before + [fire], |before| + 1) == if fire then |before| + 1 else Since(before, |before|)
  {
    var after := before + [fire];
    forall k | 0 <= k <= |before| ensures Since(after, k) == Since(before, k) {
      SincePrefix(before, after, k);
    }
    forall k | 0 <= k < |after| ensures after[k] <==> Due(ticks, after, k) {
      if k < |before| { assert before[k] <==> Due(ticks, before, k); }
    }
  }

  /** `run`, over the ticks seen so far: which of them reset the accumulator. */
  method Run(ticks: seq<Tick>) returns (fired: seq<bool>)
    ensures |fired| == |ticks|
    ensures Faithful(ticks, fired)
    ensures forall s: nat, i: nat :: LastReset(fired, s, i) && i < |ticks| ==>
              (fired[i] <==>
                 ticks[i].enabled && 200 * (i + 1 - s) >= ticks[i].intervalMs && 200 * (i + 1 - s) >= 200)
  {
    fired := [];
    var elapsed := 0;
    for i := 0 to |ticks|
      invariant |fired| == i && Faithful(ticks, fired)
      invariant elapsed == (i - Since(fired, i)) * MINIMUM_INTERVAL
    {
      elapsed := elapsed + MINIMUM_INTERVAL;
      var fire := false;
      if ticks[i].enabled && elapsed >= Wanted(ticks[i]) {
        elapsed := 0;
        fire := true;
      }
      AppendTick(ticks, fired, fire);
      fired := fired + [fire];
    }
    forall s: nat, i: nat | LastReset(fired, s, i) && i < |ticks|
      ensures fired[i] <==>
                ticks[i].enabled && 200 * (i + 1 - s) >= ticks[i].intervalMs && 200 * (i + 1 - s) >= 200
    {
      SinceIsLastReset(fired, s, i);
      assert fired[i] <==> Due(ticks, fired, i);
    }
  }

  /** One sample every `p` ticks: the interval, at least 200 ms, rounded up to whole ticks of 200 ms. */
  predicate IsPeriod(p: nat, intervalMs: nat) {
    p >= 1 && intervalMs <= 200 * p && (p > 1 ==> 200 * (p - 1) < intervalMs)
  }

  predicate Multiple(n: nat, p: nat)
    requires p >= 1
    decreases n
  {
    n == 0 || (n >= p && Multiple(n - p, p))
  }

  function Times(q: nat, p: nat): nat { q * p }

  lemma {:induction false} MultipleMeans(n: nat, p: nat)
    requires p >= 1
    ensures Multiple(n, p) <==> exists q: nat :: n == Times(q, p)
    decreases n
  {
    if n == 0 {
      assert n == Times(0, p);
    } else if n >= p {
      MultipleMeans(n - p, p);
      if Multiple(n - p, p) {
        var q: nat :| n - p == Times(q, p);
        assert n == Times(q + 1, p);
      }
      if q: nat :| n == Times(q, p) {
        assert q > 0;
        assert n - p == Times(q - 1, p);
      }
    } else {
      forall q: nat ensures n != Times(q, p) {
        if q > 0 { assert Times(q, p) == Times(q - 1, p) + p; }
      }
    }
  }

  lemma {:induction false} NoneBetween(s: nat, p: nat, r: nat)
    requires p >= 1 && 0 < r < p && Multiple(s, p)
    ensures !Multiple(s + r, p)
    decreases s
  {
    if s > 0 { NoneBetween(s - p, p, r); }
  }

  lemma MultipleStep(s: nat, p: nat)
    requires p >= 1 && Multiple(s, p)
    ensures Multiple(s + p, p)
  {
    assert (s + p) - p == s;
  }

  /** From a multiple on, the next one is a whole period later. */
  lemma NextMultiple(s: nat, p: nat, i: nat)
    requires p >= 1 && Multiple(s, p) && s <= i < s + p
    ensures i + 1 - s >= p <==> Multiple(i + 1, p)
  {
    if i + 1 - s < p {
      NoneBetween(s, p, i + 1 - s);
    } else {
      assert i + 1 == s + p;
      MultipleStep(s, p);
    }
  }

  lemma {:induction false} NotDueYet(ticks: seq<Tick>, fired: seq<bool>, intervalMs: nat, p: nat, i: nat)
    requires |fired| == |ticks| && i < |ticks| && Faithful(ticks, fired)
    requires ticks[i] == Tick(true, intervalMs) && IsPeriod(p, intervalMs)
    ensures fired[i] <==> i + 1 - Since(fired, i) >= p
  {
    assert fired[i] <==> Due(ticks, fired, i);
  }

  /** Resetting exactly after `p` ticks keeps every reset at a multiple of `p`, the last one less than `p` ago. */
  lemma {:induction false} SinceIsMultiple(fired: seq<bool>, p: nat, n: nat)
    requires p >= 1 && n <= |fired|
    requires forall i :: 0 <= i < |fired| ==> (fired[i] <==> i + 1 - Since(fired, i) >= p)
    ensures Multiple(Since(fired, n), p) && n < Since(fired, n) + p
  {
    if n > 0 {
      SinceIsMultiple(fired, p, n - 1);
      NextMultiple(Since(fired, n - 1), p, n - 1);
    }
  }

  /** A constant, enabled interval samples exactly on every `p`-th tick. */
  lemma {:induction false} ConstantIntervalIsPeriodic(ticks: seq<Tick>, fired: seq<bool>, intervalMs: nat,
                                                      p: nat, i: nat)
    requires |fired| == |ticks| && i < |ticks| && Faithful(ticks, fired) && IsPeriod(p, intervalMs)
    requires forall k :: 0 <= k < |ticks| ==> ticks[k] == Tick(true, intervalMs)
    ensures fired[i] <==> exists q: nat :: i + 1 == Times(q, p)
  {
    forall k | 0 <= k < |fired| ensures fired[k] <==> k + 1 - Since(fired, k) >= p {
      NotDueYet(ticks, fired, intervalMs, p, k);
    }
    SinceIsMultiple(fired, p, i);
    NextMultiple(Since(fired, i), p, i);
    MultipleMeans(i + 1, p);
  }
}
