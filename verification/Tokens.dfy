/** A token bucket. Instants are nanoseconds since the zero time, which stands
    for "never"; tokens are real numbers. */
module Tokens {

  datatype Limits = Limits(burst: int, interval: int)

  /** What a bucket holds, and the latest instant it was refilled at. */
  datatype Level = Level(tokens: real, last: int)

  /** Other limits make no bucket, and never refuse. */
  predicate Limited(l: Limits) {
    l.burst >= 1 && l.interval > 0
  }

  predicate Within(l: Limits, b: Level) {
    0.0 <= b.tokens <= l.burst as real
  }

  function Full(l: Limits): Level {
    Level(l.burst as real, 0)
  }

  /** How far `now` moves the high-water clock. */
  function Gain(b: Level, now: int): nat {
    if b.last != 0 && now > b.last then now - b.last else 0
  }

  function Worth(l: Limits, elapsed: nat): real
    requires Limited(l)
  {
    elapsed as real / l.interval as real
  }

  function Capped(l: Limits, tokens: real): real {
    if tokens > l.burst as real then l.burst as real else tokens
  }

  function Refill(l: Limits, b: Level, now: int): Level
    requires Limited(l)
  {
    if Gain(b, now) > 0 then Level(Capped(l, b.tokens + Worth(l, Gain(b, now))), now)
    else Level(b.tokens, if b.last == 0 then now else b.last)
  }

  predicate Admits(l: Limits, b: Level, now: int)
    requires Limited(l)
  {
    Refill(l, b, now).tokens >= 1.0
  }

  function Allow(l: Limits, b: Level, now: int): Level
    requires Limited(l)
  {
    var r := Refill(l, b, now);
    if r.tokens < 1.0 then r else r.(tokens := r.tokens - 1.0)
  }

  predicate IsIdle(l: Limits, b: Level, now: int)
    requires Limited(l)
  {
    Refill(l, b, now).tokens >= l.burst as real
  }

  // ------------------------------------------------------------ arithmetic

  lemma WorthNotNegative(l: Limits, n: nat)
    requires Limited(l)
    ensures Worth(l, n) >= 0.0
  {
  }

  lemma WorthAdds(l: Limits, a: nat, b: nat)
    requires Limited(l)
    ensures Worth(l, a + b) == Worth(l, a) + Worth(l, b)
  {
    var i := l.interval as real;
    assert Worth(l, a + b) * i == (a + b) as real;
    assert (Worth(l, a) + Worth(l, b)) * i == Worth(l, a) * i + Worth(l, b) * i;
  }

  // ------------------------------------------------------------ any calls at all

  datatype Call = AllowAt(now: int) | Idle(now: int)

  function After(l: Limits, b: Level, call: Call): Level
    requires Limited(l)
  {
    match call
    case AllowAt(now) => Allow(l, b, now)
    case Idle(now) => Refill(l, b, now)
  }

  function Play(l: Limits, b: Level, calls: seq<Call>): Level
    requires Limited(l)
    decreases |calls|
  {
    if calls == [] then b else Play(l, After(l, b, calls[0]), calls[1..])
  }

  /** How many of the calls are let through. */
  function Admitted(l: Limits, b: Level, calls: seq<Call>): nat
    requires Limited(l)
    decreases |calls|
  {
    if calls == [] then 0
    else
      var c := calls[0];
      (if c.AllowAt? && Admits(l, b, c.now) then 1 else 0) + Admitted(l, After(l, b, c), calls[1..])
  }

  /** How far the calls move the high-water clock. */
  function Advance(l: Limits, b: Level, calls: seq<Call>): nat
    requires Limited(l)
    decreases |calls|
  {
    if calls == [] then 0
    else Gain(b, calls[0].now) + Advance(l, After(l, b, calls[0]), calls[1..])
  }

  lemma CallKeepsWithin(l: Limits, b: Level, c: Call)
    requires Limited(l) && Within(l, b)
    ensures Within(l, After(l, b, c))
    ensures After(l, b, c).tokens + (if c.AllowAt? && Admits(l, b, c.now) then 1.0 else 0.0)
         <= b.tokens + Worth(l, Gain(b, c.now))
  {
    WorthNotNegative(l, Gain(b, c.now));
  }

  /** Tokens are conserved: what is spent and what is left never exceed what there
      was and what the advance of the clock is worth, however the clock jumps. */
  lemma {:induction false} NeverMoreThanEarned(l: Limits, b: Level, calls: seq<Call>)
    requires Limited(l) && Within(l, b)
    ensures Within(l, Play(l, b, calls))
    ensures Admitted(l, b, calls) as real + Play(l, b, calls).tokens <= b.tokens + Worth(l, Advance(l, b, calls))
    decreases |calls|
  {
    if calls == [] {
      WorthNotNegative(l, 0);
    } else {
      var c := calls[0];
      CallKeepsWithin(l, b, c);
      NeverMoreThanEarned(l, After(l, b, c), calls[1..]);
      WorthAdds(l, Gain(b, c.now), Advance(l, After(l, b, c), calls[1..]));
    }
  }

  /** At most a burst, and one for every interval the clock advanced. */
  lemma AdmittedAtMost(l: Limits, b: Level, calls: seq<Call>)
    requires Limited(l) && Within(l, b)
    ensures Admitted(l, b, calls) as real <= l.burst as real + Worth(l, Advance(l, b, calls))
  {
    NeverMoreThanEarned(l, b, calls);
  }

  function HighWater(from: int, calls: seq<Call>): int
    decreases |calls|
  {
    if calls == [] then from
    else HighWater(if calls[0].now > from then calls[0].now else from, calls[1..])
  }

  /** Once a bucket has been used, the advance is how far the highest instant seen
      exceeds the one it started from: going back and forth earns nothing twice. */
  lemma {:induction false} AdvanceIsHighWater(l: Limits, b: Level, calls: seq<Call>)
    requires Limited(l) && 0 < b.last
    ensures Play(l, b, calls).last == HighWater(b.last, calls)
    ensures Advance(l, b, calls) == HighWater(b.last, calls) - b.last
    decreases |calls|
  {
    if calls != [] {
      AdvanceIsHighWater(l, After(l, b, calls[0]), calls[1..]);
    }
  }

  /** The first call starts the clock, and earns nothing. */
  lemma FirstCallStartsClock(l: Limits, calls: seq<Call>)
    requires Limited(l) && calls != [] && 0 < calls[0].now
    ensures Advance(l, Full(l), calls) == HighWater(calls[0].now, calls[1..]) - calls[0].now
  {
    AdvanceIsHighWater(l, After(l, Full(l), calls[0]), calls[1..]);
  }

  /** Who waits an interval past everything the bucket has seen is let through. */
  lemma PatienceIsRewarded(l: Limits, b: Level, now: int)
    requires Limited(l) && Within(l, b) && b.last != 0 && now - b.last >= l.interval
    ensures Admits(l, b, now)
  {
    var n := now - b.last;
    assert Worth(l, n) * l.interval as real == n as real;
    assert (Worth(l, n) - 1.0) * l.interval as real >= 0.0;
    assert Worth(l, n) >= 1.0;
  }

  /** How many of the calls ask to be let through. */
  function Asking(calls: seq<Call>): nat {
    if calls == [] then 0 else (if calls[0].AllowAt? then 1 else 0) + Asking(calls[1..])
  }

  /** Nobody is refused what is there: as many as there are tokens are let through,
      whenever they come. */
  lemma {:induction false} WhatIsThereIsGiven(l: Limits, b: Level, calls: seq<Call>)
    requires Limited(l) && Within(l, b) && Asking(calls) as real <= b.tokens
    ensures Admitted(l, b, calls) == Asking(calls)
    decreases |calls|
  {
    if calls != [] {
      var c := calls[0];
      WorthNotNegative(l, Gain(b, c.now));
      CallKeepsWithin(l, b, c);
      WhatIsThereIsGiven(l, After(l, b, c), calls[1..]);
    }
  }

  lemma BurstIsGiven(l: Limits, calls: seq<Call>)
    requires Limited(l) && Asking(calls) <= l.burst
    ensures Admitted(l, Full(l), calls) == Asking(calls)
  {
    WhatIsThereIsGiven(l, Full(l), calls);
  }

  // ------------------------------------------------------------ what has been earned

  /** Refilling brings a bucket to `x` exactly if that is there, or the clock has moved
      for as long as what is missing of it takes to earn. */
  lemma ReachesIffEarned(l: Limits, b: Level, now: int, x: real)
    requires Limited(l) && Within(l, b) && x <= l.burst as real
    ensures Refill(l, b, now).tokens >= x <==>
            || b.tokens >= x
            || (b.last != 0 && (x - b.tokens) * l.interval as real <= (now - b.last) as real)
  {
    var n, i := Gain(b, now), l.interval as real;
    assert Worth(l, n) * i == n as real;
    TimesKeepsOrder(x - b.tokens, Worth(l, n), i);
    TimesKeepsOrder(x - b.tokens, 0.0, i);
  }

  /** So a call is let through exactly if a token is there or has been earned. */
  lemma AdmitsIffEarned(l: Limits, b: Level, now: int)
    requires Limited(l) && Within(l, b)
    ensures Admits(l, b, now) <==>
            || b.tokens >= 1.0
            || (b.last != 0 && (1.0 - b.tokens) * l.interval as real <= (now - b.last) as real)
  {
    ReachesIffEarned(l, b, now, 1.0);
  }

  /** And a bucket is idle exactly if nothing is missing, or it has been earned. */
  lemma IdleIffEarned(l: Limits, b: Level, now: int)
    requires Limited(l) && Within(l, b)
    ensures IsIdle(l, b, now) <==>
            || b.tokens == l.burst as real
            || (b.last != 0 && (l.burst as real - b.tokens) * l.interval as real <= (now - b.last) as real)
  {
    ReachesIffEarned(l, b, now, l.burst as real);
  }

  lemma TimesKeepsOrder(a: real, b: real, i: real)
    requires 0.0 < i
    ensures a <= b <==> a * i <= b * i
  {
    if a <= b {
      assert 0.0 <= (b - a) * i;
    } else {
      assert 0.0 < (a - b) * i;
    }
  }

  /** So one never used is, and one left alone for as long as a whole burst takes. */
  lemma LeftAloneIsIdle(l: Limits, b: Level, now: int)
    requires Limited(l) && Within(l, b)
    requires b == Full(l) || (b.last != 0 && now - b.last >= l.burst * l.interval)
    ensures IsIdle(l, b, now)
  {
    IdleIffEarned(l, b, now);
    TimesKeepsOrder(l.burst as real - b.tokens, l.burst as real, l.interval as real);
    assert l.burst as real * l.interval as real == (l.burst * l.interval) as real;
  }

  /** Whatever was asked of it: a burst's worth past the highest instant seen. */
  lemma EndsUpIdle(l: Limits, calls: seq<Call>, now: int)
    requires Limited(l) && calls != [] && 0 < calls[0].now
    requires now - HighWater(calls[0].now, calls[1..]) >= l.burst * l.interval
    ensures IsIdle(l, Play(l, Full(l), calls), now)
  {
    var b := After(l, Full(l), calls[0]);
    AdvanceIsHighWater(l, b, calls[1..]);
    NeverMoreThanEarned(l, Full(l), calls);
    HighWaterRises(calls[0].now, calls[1..]);
    LeftAloneIsIdle(l, Play(l, Full(l), calls), now);
  }

  lemma {:induction false} HighWaterRises(from: int, calls: seq<Call>)
    ensures HighWater(from, calls) >= from
    decreases |calls|
  {
    if calls != [] {
      HighWaterRises(if calls[0].now > from then calls[0].now else from, calls[1..]);
    }
  }

  // ------------------------------------------------------------ refilling twice

  /** Looking at a bucket on the way does not change what is in it later. */
  lemma RefillTwice(l: Limits, b: Level, t: int, now: int)
    requires Limited(l) && Within(l, b) && 0 < b.last <= t <= now
    ensures Refill(l, Refill(l, b, t), now) == Refill(l, b, now)
  {
    WorthAdds(l, t - b.last, now - t);
    WorthNotNegative(l, t - b.last);
    WorthNotNegative(l, now - t);
  }
}
