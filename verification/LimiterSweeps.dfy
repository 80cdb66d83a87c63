/** Sweeping the table of shared buckets shows in no answer, ever. */
module LimiterSweeps {
  import opened Fanout
  import opened Tokens
  import opened LimiterTable

  /** Two tables that no holder can tell apart, whose buckets may be other ones. */
  ghost predicate Sim(p: Policy, a: State, b: State, clock: int) {
    && Inv(p, a, clock) && Inv(p, b, clock)
    && SameHolders(a, b)
    && (forall key :: AlikeAt(p, a, b, key, clock))
  }

  ghost predicate AlikeAt(p: Policy, a: State, b: State, key: string, clock: int)
    requires Sound(p, a) && Sound(p, b)
  {
    Alike(p(key), Found(p, a, key), Found(p, b, key), clock)
  }

  /** Legal operations at instants that never go back. */
  ghost predicate Timed(p: Policy, s: State, ops: seq<Op>, clock: int)
    requires Sound(p, s)
    decreases |ops|
  {
    ops == [] || (
      && Legal(s, ops[0]) && clock <= Then(ops[0], clock) && (ops[0].Use? || ops[0].Sweep? ==> 0 < ops[0].now)
      && Sound(p, Step(p, s, ops[0]))
      && Timed(p, Step(p, s, ops[0]), ops[1..], Then(ops[0], clock)))
  }

  function Then(op: Op, clock: int): int {
    match op
    case Use(_, now) => now
    case Sweep(now) => now
    case _ => clock
  }

  /** What every use is told, in order. */
  ghost function Answers(p: Policy, s: State, ops: seq<Op>, clock: int): seq<bool>
    requires Sound(p, s) && Timed(p, s, ops, clock)
    decreases |ops|
  {
    if ops == [] then []
    else
      Told(p, s, ops[0]) + Answers(p, Step(p, s, ops[0]), ops[1..], Then(ops[0], clock))
  }

  ghost function Told(p: Policy, s: State, op: Op): seq<bool>
    requires Sound(p, s) && Legal(s, op)
  {
    if op.Use? then [Answer(p(s.holders[op.h].bucket.key), s.buckets[s.holders[op.h].bucket], op.now)] else []
  }

  function WithoutSweeps(ops: seq<Op>): seq<Op> {
    if ops == [] then []
    else (if ops[0].Sweep? then [] else [ops[0]]) + WithoutSweeps(ops[1..])
  }

  // ------------------------------------------------------------ one step

  lemma AcquireAlike(p: Policy, a: State, b: State, key: string, clock: int, k: string)
    requires Inv(p, a, clock) && Inv(p, b, clock) && AlikeAt(p, a, b, k, clock)
    requires Sound(p, AcquireStep(p, a, key)) && Sound(p, AcquireStep(p, b, key))
    ensures AlikeAt(p, AcquireStep(p, a, key), AcquireStep(p, b, key), k, clock)
  {
    AcquireFinds(p, a, key, k, clock);
    AcquireFinds(p, b, key, k, clock);
  }

  predicate SameHolders(a: State, b: State) {
    && |a.holders| == |b.holders|
    && forall h | 0 <= h < |a.holders| ::
         a.holders[h].live == b.holders[h].live && a.holders[h].bucket.key == b.holders[h].bucket.key
  }

  lemma AcquireHolders(p: Policy, a: State, b: State, key: string)
    requires Sound(p, a) && Sound(p, b) && SameHolders(a, b)
    ensures SameHolders(AcquireStep(p, a, key), AcquireStep(p, b, key))
  {
  }

  lemma AcquireSim(p: Policy, a: State, b: State, key: string, clock: int)
    requires Sim(p, a, b, clock)
    ensures Sim(p, AcquireStep(p, a, key), AcquireStep(p, b, key), clock)
  {
    AcquireKeeps(p, a, key, clock);
    AcquireKeeps(p, b, key, clock);
    AcquireHolders(p, a, b, key);
    forall k ensures AlikeAt(p, AcquireStep(p, a, key), AcquireStep(p, b, key), k, clock) {
      assert AlikeAt(p, a, b, k, clock);
      AcquireAlike(p, a, b, key, clock, k);
    }
  }

  /** Taking a bucket changes what is found under no key. */
  lemma AcquireFinds(p: Policy, s: State, key: string, k: string, clock: int)
    requires Inv(p, s, clock) && Sound(p, AcquireStep(p, s, key))
    ensures Found(p, AcquireStep(p, s, key), k) == Found(p, s, k)
  {
  }

  lemma ReleaseSim(p: Policy, a: State, b: State, h: nat, clock: int)
    requires Sim(p, a, b, clock) && Legal(a, Release(h))
    ensures Sim(p, ReleaseStep(a, h), ReleaseStep(b, h), clock)
  {
    ReleaseKeeps(p, a, h, clock);
    ReleaseKeeps(p, b, h, clock);
    var a', b' := ReleaseStep(a, h), ReleaseStep(b, h);
    forall k ensures AlikeAt(p, a', b', k, clock) {
      assert AlikeAt(p, a, b, k, clock);
    }
  }

  /** A use of a live holder is a use of what is found under its key. */
  lemma UseFinds(p: Policy, s: State, h: nat, now: int, k: string, clock: int)
    requires Inv(p, s, clock) && Legal(s, Use(h, now)) && Sound(p, UseStep(p, s, h, now))
    ensures var key := s.holders[h].bucket.key;
      && s.buckets[s.holders[h].bucket] == Found(p, s, key)
      && Found(p, UseStep(p, s, h, now), k) == if k == key then Allowed(p(key), Found(p, s, key), now) else Found(p, s, k)
  {
    assert Shared(s, h);
  }

  lemma UseSim(p: Policy, a: State, b: State, h: nat, clock: int, now: int)
    requires Sim(p, a, b, clock) && Legal(a, Use(h, now)) && clock <= now && 0 < now
    ensures Sim(p, UseStep(p, a, h, now), UseStep(p, b, h, now), now)
    ensures Answer(p(a.holders[h].bucket.key), a.buckets[a.holders[h].bucket], now)
         == Answer(p(b.holders[h].bucket.key), b.buckets[b.holders[h].bucket], now)
  {
    UseKeeps(p, a, h, clock, now);
    UseKeeps(p, b, h, clock, now);
    var key := a.holders[h].bucket.key;
    forall k ensures AlikeAt(p, UseStep(p, a, h, now), UseStep(p, b, h, now), k, now) {
      assert AlikeAt(p, a, b, k, clock);
      UseFinds(p, a, h, now, k, clock);
      UseFinds(p, b, h, now, k, clock);
      if k == key {
        AlikeAnswer(p(k), Found(p, a, k), Found(p, b, k), clock, now);
      } else {
        AlikeLater(p(k), Found(p, a, k), Found(p, b, k), clock, now);
      }
    }
    assert AlikeAt(p, a, b, key, clock);
    AlikeAnswer(p(key), Found(p, a, key), Found(p, b, key), clock, now);
    UseFinds(p, a, h, now, key, clock);
    UseFinds(p, b, h, now, key, clock);
  }

  lemma SweepFinds(p: Policy, s: State, now: int, k: string, clock: int)
    requires Inv(p, s, clock) && Sound(p, SweepStep(p, s, now))
    ensures Found(p, SweepStep(p, s, now), k) ==
            if Goes(p, s, k, now) then Fresh(p(k))
            else if k in s.table && s.table[k].refs == 0 then Refilled(p(k), Found(p, s, k), now)
            else Found(p, s, k)
    ensures Goes(p, s, k, now) ==> Idling(p(k), Found(p, s, k), now)
  {
  }

  lemma SweepSim(p: Policy, a: State, b: State, clock: int, now: int)
    requires Sim(p, a, b, clock) && clock <= now && 0 < now
    ensures Sim(p, SweepStep(p, a, now), b, now)
  {
    SweepKeeps(p, a, clock, now);
    InvLater(p, b, clock, now);
    forall k ensures AlikeAt(p, SweepStep(p, a, now), b, k, now) {
      assert AlikeAt(p, a, b, k, clock);
      SweepFinds(p, a, now, k, clock);
      AlikeLater(p(k), Found(p, a, k), Found(p, b, k), clock, now);
      LookedIsAlike(p(k), Found(p, a, k), Found(p, b, k), clock, now);
    }
  }

  lemma InvLater(p: Policy, s: State, clock: int, now: int)
    requires Inv(p, s, clock) && clock <= now
    ensures Inv(p, s, now)
  {
  }

  lemma BothSim(p: Policy, a: State, b: State, op: Op, clock: int)
    requires Sim(p, a, b, clock) && Legal(a, op) && !op.Sweep? && clock <= Then(op, clock) && (op.Use? ==> 0 < op.now)
    ensures Legal(b, op) && Told(p, a, op) == Told(p, b, op)
    ensures Sim(p, Step(p, a, op), Step(p, b, op), Then(op, clock))
  {
    match op {
      case Acquire(key) => AcquireSim(p, a, b, key, clock);
      case Release(h) => ReleaseSim(p, a, b, h, clock);
      case Use(h, now) => UseSim(p, a, b, h, clock, now);
    }
  }

  // ------------------------------------------------------------ all runs

  lemma {:induction false} TimedEarlier(p: Policy, s: State, ops: seq<Op>, clock: int, now: int)
    requires Sound(p, s) && clock <= now && Timed(p, s, ops, now)
    ensures Timed(p, s, ops, clock) && Answers(p, s, ops, clock) == Answers(p, s, ops, now)
    decreases |ops|
  {
    if ops != [] {
      TimedEarlier(p, Step(p, s, ops[0]), ops[1..], Then(ops[0], clock), Then(ops[0], now));
    }
  }

  lemma OpFirst(p: Policy, s: State, op: Op, rest: seq<Op>, clock: int)
    requires Sound(p, s) && Legal(s, op) && clock <= Then(op, clock) && (op.Use? || op.Sweep? ==> 0 < op.now)
    requires Sound(p, Step(p, s, op)) && Timed(p, Step(p, s, op), rest, Then(op, clock))
    ensures Timed(p, s, [op] + rest, clock)
    ensures Answers(p, s, [op] + rest, clock) == Told(p, s, op) + Answers(p, Step(p, s, op), rest, Then(op, clock))
  {
    assert ([op] + rest)[1..] == rest;
  }

  lemma {:induction false} SweptIsLegal(p: Policy, a: State, b: State, ops: seq<Op>, clock: int)
    requires Sim(p, a, b, clock) && Timed(p, a, ops, clock)
    ensures Timed(p, b, WithoutSweeps(ops), clock)
    ensures Answers(p, a, ops, clock) == Answers(p, b, WithoutSweeps(ops), clock)
    decreases |ops|
  {
    if ops != [] {
      var op, rest := ops[0], ops[1..];
      if op.Sweep? {
        SweepSim(p, a, b, clock, op.now);
        SweptIsLegal(p, Step(p, a, op), b, rest, op.now);
        TimedEarlier(p, b, WithoutSweeps(rest), clock, op.now);
        assert WithoutSweeps(ops) == WithoutSweeps(rest);
        assert Told(p, a, op) == [];
      } else {
        BothSim(p, a, b, op, clock);
        SweptIsLegal(p, Step(p, a, op), Step(p, b, op), rest, Then(op, clock));
        OpFirst(p, b, op, WithoutSweeps(rest), clock);
        assert WithoutSweeps(ops) == [op] + WithoutSweeps(rest);
      }
    }
  }

  /** From an empty table, any legal operations whose clock never goes back are
      answered just as if no sweep had ever run. */
  lemma SweepsAreUnobservable(p: Policy, ops: seq<Op>)
    requires Timed(p, EMPTY, ops, 0)
    ensures Timed(p, EMPTY, WithoutSweeps(ops), 0)
    ensures Answers(p, EMPTY, ops, 0) == Answers(p, EMPTY, WithoutSweeps(ops), 0)
  {
    forall k ensures AlikeAt(p, EMPTY, EMPTY, k, 0) {
    }
    SweptIsLegal(p, EMPTY, EMPTY, ops, 0);
  }

  lemma StepKeeps(p: Policy, s: State, op: Op, clock: int)
    requires Inv(p, s, clock) && Legal(s, op) && clock <= Then(op, clock) && (op.Use? || op.Sweep? ==> 0 < op.now)
    ensures Inv(p, Step(p, s, op), Then(op, clock))
  {
    match op {
      case Acquire(key) => AcquireKeeps(p, s, key, clock);
      case Release(h) => ReleaseKeeps(p, s, h, clock);
      case Use(h, now) => UseKeeps(p, s, h, clock, now);
      case Sweep(now) => SweepKeeps(p, s, clock, now);
    }
  }

  /** After any of them a key's count is its live holders, all of whom hold the
      one bucket the table has for it. */
  lemma {:induction false} HoldersShare(p: Policy, s: State, ops: seq<Op>, clock: int)
    requires Inv(p, s, clock) && Timed(p, s, ops, clock)
    ensures Inv(p, End(p, s, ops, clock), Ends(ops, clock))
    decreases |ops|
  {
    if ops != [] {
      StepKeeps(p, s, ops[0], clock);
      HoldersShare(p, Step(p, s, ops[0]), ops[1..], Then(ops[0], clock));
    }
  }

  /** Where the operations lead. */
  ghost function End(p: Policy, s: State, ops: seq<Op>, clock: int): State
    requires Sound(p, s) && Timed(p, s, ops, clock)
    decreases |ops|
  {
    if ops == [] then s else End(p, Step(p, s, ops[0]), ops[1..], Then(ops[0], clock))
  }

  // ------------------------------------------------------------ housekeeping

  /** After any operations a sweep forgets a key nobody holds if its bucket was never
      used, or a burst's worth of time has passed, or it limits nothing; and it takes
      from the table no key that somebody holds. */
  lemma SweepForgets(p: Policy, s: State, ops: seq<Op>, clock: int, now: int, key: string)
    requires Inv(p, s, clock) && Timed(p, s, ops, clock) && Ends(ops, clock) <= now && 0 < now
    ensures var t := End(p, s, ops, clock);
      && Sound(p, t)
      && (Held(t, key) ==>
            && key in t.table && key in SweepStep(p, t, now).table
            && SweepStep(p, t, now).table[key] == t.table[key])
      && (!Held(t, key) && LongEnough(p(key), Found(p, t, key), Ends(ops, clock), now) ==>
            key !in SweepStep(p, t, now).table)
  {
    HoldersShare(p, s, ops, clock);
    var t := End(p, s, ops, clock);
    if Held(t, key) {
      var h :| 0 <= h < |t.holders| && t.holders[h].live && t.holders[h].bucket.key == key;
      assert Shared(t, h);
      LiveIsCounted(t.holders, h);
    } else if key in t.table {
      NobodyLive(t.holders, key);
      if Limited(p(key)) && LongEnough(p(key), Found(p, t, key), Ends(ops, clock), now) {
        LeftAloneIsIdle(p(key), Found(p, t, key).value, now);
      }
    }
  }

  /** Somebody it was handed to has not given it back. */
  predicate Held(s: State, key: string) {
    exists h | 0 <= h < |s.holders| :: s.holders[h].live && s.holders[h].bucket.key == key
  }

  predicate LongEnough(l: Limits, b: Option<Level>, clock: int, now: int)
    requires Fits(l, b)
  {
    b.None? || b == Some(Full(l)) || now - clock >= l.burst * l.interval
  }

  // ------------------------------------------------------------ the throttle

  /** How many uses of `key` are let through. */
  ghost function Admitted(p: Policy, s: State, ops: seq<Op>, clock: int, key: string): nat
    requires Sound(p, s) && Timed(p, s, ops, clock)
    decreases |ops|
  {
    if ops == [] then 0
    else
      var op := ops[0];
      (if Counts(p, s, op, key) then 1 else 0) + Admitted(p, Step(p, s, op), ops[1..], Then(op, clock), key)
  }

  ghost predicate Counts(p: Policy, s: State, op: Op, key: string)
    requires Sound(p, s) && Legal(s, op)
  {
    op.Use? && s.holders[op.h].bucket.key == key && Answer(p(key), s.buckets[s.holders[op.h].bucket], op.now)
  }

  function Ends(ops: seq<Op>, clock: int): int
    decreases |ops|
  {
    if ops == [] then clock else Ends(ops[1..], Then(ops[0], clock))
  }

  /** What is in a bucket brought up to the clock. */
  function Potential(l: Limits, b: Option<Level>, clock: int): real
    requires Limited(l) && Fits(l, b)
  {
    if clock > 0 then Refill(l, b.value, clock).tokens else b.value.tokens
  }

  lemma PotentialGrows(l: Limits, b: Option<Level>, clock: int, now: int)
    requires Limited(l) && Fits(l, b) && Timely(l, b, clock) && 0 <= clock <= now && 0 < now
    ensures Potential(l, b, now) <= Potential(l, b, clock) + Worth(l, now - clock)
    ensures Potential(l, Refilled(l, b, now), now) == Potential(l, b, now) <= l.burst as real
    ensures Potential(l, Allowed(l, b, now), now) == Potential(l, b, now) - (if Answer(l, b, now) then 1.0 else 0.0)
    ensures 0.0 <= Potential(l, Allowed(l, b, now), now)
  {
    RefillStaysTimely(l, b, clock, now);
    WorthNotNegative(l, now - clock);
    WorthNotNegative(l, Gain(b.value, now));
    if clock > 0 {
      RefillAgain(l, b, clock, now);
      WorthNotNegative(l, Gain(b.value, clock));
    }
  }

  lemma StepSpends(p: Policy, s: State, op: Op, clock: int, key: string)
    requires Inv(p, s, clock) && Legal(s, op) && Limited(p(key)) && clock <= Then(op, clock) && Sound(p, Step(p, s, op))
    requires op.Use? || op.Sweep? ==> 0 < op.now
    ensures (if Counts(p, s, op, key) then 1.0 else 0.0) + Potential(p(key), Found(p, Step(p, s, op), key), Then(op, clock))
         <= Potential(p(key), Found(p, s, key), clock) + Worth(p(key), Then(op, clock) - clock)
  {
    var l, b, now := p(key), Found(p, s, key), Then(op, clock);
    WorthNotNegative(l, now - clock);
    if now > 0 {
      PotentialGrows(l, b, clock, now);
    }
    match op {
      case Acquire(k) => AcquireFinds(p, s, k, key, clock);
      case Release(_) =>
      case Use(h, _) =>
        UseFinds(p, s, h, now, key, clock);
      case Sweep(_) =>
        SweepFinds(p, s, now, key, clock);
    }
  }

  lemma {:induction false} EndsLater(p: Policy, s: State, ops: seq<Op>, clock: int)
    requires Sound(p, s) && Timed(p, s, ops, clock)
    ensures Ends(ops, clock) >= clock
    decreases |ops|
  {
    if ops != [] {
      EndsLater(p, Step(p, s, ops[0]), ops[1..], Then(ops[0], clock));
    }
  }

  lemma OneOpEarns(p: Policy, s: State, op: Op, clock: int, key: string, later: int)
    requires Inv(p, s, clock) && Legal(s, op) && Limited(p(key)) && clock <= Then(op, clock) <= later && Sound(p, Step(p, s, op))
    requires op.Use? || op.Sweep? ==> 0 < op.now
    ensures (if Counts(p, s, op, key) then 1.0 else 0.0) + Potential(p(key), Found(p, Step(p, s, op), key), Then(op, clock))
            + Worth(p(key), later - Then(op, clock))
         <= Potential(p(key), Found(p, s, key), clock) + Worth(p(key), later - clock)
  {
    StepSpends(p, s, op, clock, key);
    WorthAdds(p(key), Then(op, clock) - clock, later - Then(op, clock));
  }

  lemma AdmittedFirst(p: Policy, s: State, ops: seq<Op>, clock: int, key: string)
    requires Sound(p, s) && Timed(p, s, ops, clock) && ops != []
    ensures Admitted(p, s, ops, clock, key) as real ==
            (if Counts(p, s, ops[0], key) then 1.0 else 0.0) + Admitted(p, Step(p, s, ops[0]), ops[1..], Then(ops[0], clock), key) as real
    ensures Ends(ops, clock) == Ends(ops[1..], Then(ops[0], clock))
  {
  }

  lemma {:induction false} SpentIsEarned(p: Policy, s: State, ops: seq<Op>, clock: int, key: string)
    requires Inv(p, s, clock) && Timed(p, s, ops, clock) && Limited(p(key)) && clock <= Ends(ops, clock)
    ensures Admitted(p, s, ops, clock, key) as real
         <= Potential(p(key), Found(p, s, key), clock) + Worth(p(key), Ends(ops, clock) - clock)
    decreases |ops|
  {
    if ops == [] {
      PotentialIsWithin(p, s, clock, key);
      WorthNotNegative(p(key), 0);
    } else {
      var op := ops[0];
      var now := Then(op, clock);
      StepKeeps(p, s, op, clock);
      EndsLater(p, Step(p, s, op), ops[1..], now);
      AdmittedFirst(p, s, ops, clock, key);
      SpentIsEarned(p, Step(p, s, op), ops[1..], now, key);
      OneOpEarns(p, s, op, clock, key, Ends(ops[1..], now));
    }
  }

  /** Neither coming back under another connection nor being swept escapes a
      throttle: over any stretch, a key is let through at most a burst and one for
      every interval of it. */
  lemma ThrottleHolds(p: Policy, s: State, ops: seq<Op>, clock: int, key: string)
    requires Inv(p, s, clock) && Timed(p, s, ops, clock) && Limited(p(key))
    ensures Ends(ops, clock) >= clock
    ensures Admitted(p, s, ops, clock, key) as real <= p(key).burst as real + Worth(p(key), Ends(ops, clock) - clock)
  {
    EndsLater(p, s, ops, clock);
    SpentIsEarned(p, s, ops, clock, key);
    PotentialIsWithin(p, s, clock, key);
  }

  lemma PotentialIsWithin(p: Policy, s: State, clock: int, key: string)
    requires Inv(p, s, clock) && Limited(p(key))
    ensures 0.0 <= Potential(p(key), Found(p, s, key), clock) <= p(key).burst as real
  {
    if clock > 0 {
      WorthNotNegative(p(key), Gain(Found(p, s, key).value, clock));
    }
  }
}
