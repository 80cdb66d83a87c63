/** Buckets shared by key, counted by holder, and swept when nobody holds them. */
module LimiterTable {
  import opened Fanout
  import opened Tokens

  /** A bucket's identity: its key, and when in the table's life it was made. */
  datatype Id = Id(key: string, made: nat)

  datatype Entry = Entry(bucket: Id, refs: nat)

  /** Somebody a bucket was handed to, until they give it back. */
  datatype Holder = Holder(bucket: Id, live: bool)

  /** A bucket that limits nothing is no bucket. */
  datatype State = State(table: map<string, Entry>, made: nat, buckets: map<Id, Option<Level>>, holders: seq<Holder>)

  datatype Op = Acquire(key: string) | Release(h: nat) | Use(h: nat, now: int) | Sweep(now: int)

  /** The limits of each key. */
  type Policy = string -> Limits

  const EMPTY := State(map[], 0, map[], [])

  function Fresh(l: Limits): Option<Level> {
    if Limited(l) then Some(Full(l)) else None
  }

  predicate Fits(l: Limits, b: Option<Level>) {
    b.Some? <==> Limited(l)
  }

  function Refilled(l: Limits, b: Option<Level>, now: int): Option<Level>
    requires Fits(l, b)
  {
    if b.Some? then Some(Refill(l, b.value, now)) else None
  }

  function Allowed(l: Limits, b: Option<Level>, now: int): Option<Level>
    requires Fits(l, b)
  {
    if b.Some? then Some(Allow(l, b.value, now)) else None
  }

  predicate Answer(l: Limits, b: Option<Level>, now: int)
    requires Fits(l, b)
  {
    b.Some? ==> Admits(l, b.value, now)
  }

  predicate Idling(l: Limits, b: Option<Level>, now: int)
    requires Fits(l, b)
  {
    b.Some? ==> IsIdle(l, b.value, now)
  }

  ghost predicate Sound(p: Policy, s: State) {
    && (forall i | i in s.buckets :: Fits(p(i.key), s.buckets[i]))
    && (forall k | k in s.table :: s.table[k].bucket.key == k && s.table[k].bucket in s.buckets)
    && (forall h | 0 <= h < |s.holders| :: s.holders[h].bucket in s.buckets)
  }

  /** Whether a sweep looks into bucket `i`: only those nobody holds. */
  predicate Looked(s: State, i: Id) {
    i.key in s.table && s.table[i.key].bucket == i && s.table[i.key].refs == 0
  }

  ghost predicate Goes(p: Policy, s: State, k: string, now: int)
    requires Sound(p, s)
  {
    k in s.table && s.table[k].refs == 0 && Idling(p(k), s.buckets[s.table[k].bucket], now)
  }

  predicate Legal(s: State, op: Op) {
    match op
    case Release(h) => h < |s.holders| && s.holders[h].live
    case Use(h, _) => h < |s.holders| && s.holders[h].live
    case _ => true
  }

  ghost function AcquireStep(p: Policy, s: State, key: string): State {
    if key in s.table then
      var e := s.table[key];
      s.(table := s.table[key := Entry(e.bucket, e.refs + 1)], holders := s.holders + [Holder(e.bucket, true)])
    else
      var i := Id(key, s.made);
      State(s.table[key := Entry(i, 1)], s.made + 1, s.buckets[i := Fresh(p(key))], s.holders + [Holder(i, true)])
  }

  function ReleaseStep(s: State, h: nat): State
    requires h < |s.holders|
  {
    var key := s.holders[h].bucket.key;
    var table := if key in s.table && s.table[key].refs > 0
                 then s.table[key := Entry(s.table[key].bucket, s.table[key].refs - 1)] else s.table;
    s.(table := table, holders := s.holders[h := Holder(s.holders[h].bucket, false)])
  }

  ghost function UseStep(p: Policy, s: State, h: nat, now: int): State
    requires Sound(p, s) && h < |s.holders|
  {
    var i := s.holders[h].bucket;
    s.(buckets := s.buckets[i := Allowed(p(i.key), s.buckets[i], now)])
  }

  ghost function SweepStep(p: Policy, s: State, now: int): State
    requires Sound(p, s)
  {
    s.(table := map k | k in s.table && !Goes(p, s, k, now) :: s.table[k],
       buckets := map i | i in s.buckets :: if Looked(s, i) then Refilled(p(i.key), s.buckets[i], now) else s.buckets[i])
  }

  ghost function Step(p: Policy, s: State, op: Op): State
    requires Sound(p, s) && Legal(s, op)
  {
    match op
    case Acquire(key) => AcquireStep(p, s, key)
    case Release(h) => ReleaseStep(s, h)
    case Use(h, now) => UseStep(p, s, h, now)
    case Sweep(now) => SweepStep(p, s, now)
  }

  // ------------------------------------------------------------ invariant

  function Live(holders: seq<Holder>, key: string): nat {
    if holders == [] then 0
    else
      var last := holders[|holders| - 1];
      Live(holders[..|holders| - 1], key) + (if last.live && last.bucket.key == key then 1 else 0)
  }

  /** Started no later than the clock, and full if never started. */
  predicate Timely(l: Limits, b: Option<Level>, clock: int) {
    b.Some? ==> Within(l, b.value) && 0 <= b.value.last <= clock && (b.value.last == 0 ==> b.value.tokens == l.burst as real)
  }

  /** `refs` is how many live holders a key has; they all hold the table's bucket. */
  ghost predicate Inv(p: Policy, s: State, clock: int) {
    && 0 <= clock && Sound(p, s)
    && (forall i | i in s.buckets :: i.made < s.made && Timely(p(i.key), s.buckets[i], clock))
    && (forall k | k in s.table :: s.table[k].refs == Live(s.holders, k))
    && (forall h | 0 <= h < |s.holders| && s.holders[h].live :: Shared(s, h))
  }

  predicate Shared(s: State, h: nat)
    requires h < |s.holders|
  {
    s.holders[h].bucket.key in s.table && s.table[s.holders[h].bucket.key].bucket == s.holders[h].bucket
  }

  lemma {:induction false} LiveAfter(holders: seq<Holder>, h: nat, x: Holder, key: string)
    requires h < |holders| && x.bucket == holders[h].bucket
    ensures Live(holders[h := x], key)
         == Live(holders, key) - (if holders[h].live && x.bucket.key == key then 1 else 0)
                               + (if x.live && x.bucket.key == key then 1 else 0)
  {
    var n := |holders| - 1;
    if h == n {
      assert holders[h := x][..n] == holders[..n];
    } else {
      assert holders[h := x][..n] == holders[..n][h := x];
      LiveAfter(holders[..n], h, x, key);
    }
  }

  lemma {:induction false} LiveIsCounted(holders: seq<Holder>, h: nat)
    requires h < |holders| && holders[h].live
    ensures Live(holders, holders[h].bucket.key) > 0
  {
    if h < |holders| - 1 {
      LiveIsCounted(holders[..|holders| - 1], h);
    }
  }

  lemma AcquireKeeps(p: Policy, s: State, key: string, clock: int)
    requires Inv(p, s, clock)
    ensures Inv(p, AcquireStep(p, s, key), clock)
  {
    var t := AcquireStep(p, s, key);
    forall k | k in t.table ensures t.table[k].refs == Live(t.holders, k) {
      assert t.holders[..|s.holders|] == s.holders;
      if k !in s.table {
        NobodyHolds(s, k);
      }
    }
    forall h | 0 <= h < |t.holders| && t.holders[h].live ensures Shared(t, h) {
      assert h < |s.holders| ==> Shared(s, h);
    }
    AcquireSound(p, s, key, clock);
  }

  lemma AcquireSound(p: Policy, s: State, key: string, clock: int)
    requires Sound(p, s) && 0 <= clock
    requires forall i | i in s.buckets :: i.made < s.made && Timely(p(i.key), s.buckets[i], clock)
    ensures Sound(p, AcquireStep(p, s, key))
    ensures var t := AcquireStep(p, s, key);
      forall i | i in t.buckets :: i.made < t.made && Timely(p(i.key), t.buckets[i], clock)
  {
  }

  lemma {:induction false} NobodyLive(holders: seq<Holder>, key: string)
    requires forall h | 0 <= h < |holders| :: holders[h].live ==> holders[h].bucket.key != key
    ensures Live(holders, key) == 0
  {
    if holders != [] {
      NobodyLive(holders[..|holders| - 1], key);
    }
  }

  lemma NobodyHolds(s: State, key: string)
    requires key !in s.table && forall h | 0 <= h < |s.holders| && s.holders[h].live :: Shared(s, h)
    ensures Live(s.holders, key) == 0
  {
    forall h | 0 <= h < |s.holders| ensures s.holders[h].live ==> s.holders[h].bucket.key != key {
      assert s.holders[h].live ==> Shared(s, h);
    }
    NobodyLive(s.holders, key);
  }

  lemma ReleaseKeeps(p: Policy, s: State, h: nat, clock: int)
    requires Inv(p, s, clock) && Legal(s, Release(h))
    ensures Inv(p, ReleaseStep(s, h), clock)
  {
    var t := ReleaseStep(s, h);
    assert Shared(s, h);
    LiveIsCounted(s.holders, h);
    forall k | k in t.table ensures t.table[k].refs == Live(t.holders, k) {
      LiveAfter(s.holders, h, t.holders[h], k);
    }
    forall g | 0 <= g < |t.holders| && t.holders[g].live ensures Shared(t, g) {
      assert Shared(s, g);
    }
  }

  lemma RefillStaysTimely(l: Limits, b: Option<Level>, clock: int, now: int)
    requires Fits(l, b) && Timely(l, b, clock) && 0 <= clock <= now && 0 < now
    ensures Timely(l, b, now) && Timely(l, Refilled(l, b, now), now) && Timely(l, Allowed(l, b, now), now)
  {
    if b.Some? {
      WorthNotNegative(l, Gain(b.value, now));
    }
  }

  lemma UseKeeps(p: Policy, s: State, h: nat, clock: int, now: int)
    requires Inv(p, s, clock) && Legal(s, Use(h, now)) && clock <= now && 0 < now
    ensures Inv(p, UseStep(p, s, h, now), now)
  {
    var t := UseStep(p, s, h, now);
    forall i | i in t.buckets ensures Timely(p(i.key), t.buckets[i], now) {
      RefillStaysTimely(p(i.key), s.buckets[i], clock, now);
    }
    forall g | 0 <= g < |t.holders| && t.holders[g].live ensures Shared(t, g) {
      assert Shared(s, g);
    }
  }

  lemma SweepKeeps(p: Policy, s: State, clock: int, now: int)
    requires Inv(p, s, clock) && clock <= now && 0 < now
    ensures Inv(p, SweepStep(p, s, now), now)
  {
    var t := SweepStep(p, s, now);
    forall i | i in t.buckets ensures Timely(p(i.key), t.buckets[i], now) {
      RefillStaysTimely(p(i.key), s.buckets[i], clock, now);
    }
    forall g | 0 <= g < |t.holders| && t.holders[g].live ensures Shared(t, g) {
      assert Shared(s, g);
      LiveIsCounted(s.holders, g);
    }
  }

  // ------------------------------------------------------------ what a key has

  /** The bucket a holder of `key` would find there now. */
  ghost function Found(p: Policy, s: State, key: string): Option<Level>
    requires Sound(p, s)
  {
    if key in s.table then s.buckets[s.table[key].bucket] else Fresh(p(key))
  }

  /** Alike from the clock on: brought up to any later instant, they are equal. */
  predicate Alike(l: Limits, x: Option<Level>, y: Option<Level>, clock: int) {
    && Fits(l, x) && Fits(l, y) && Timely(l, x, clock) && Timely(l, y, clock)
    && (clock > 0 ==> Refilled(l, x, clock) == Refilled(l, y, clock))
    && (clock == 0 ==> x == y)
  }

  lemma RefillAgain(l: Limits, x: Option<Level>, clock: int, now: int)
    requires Fits(l, x) && Timely(l, x, clock) && 0 < clock <= now
    ensures x.Some? && x.value.last > 0 ==> Refilled(l, Refilled(l, x, clock), now) == Refilled(l, x, now)
    ensures x.Some? && x.value.last == 0 ==> Refilled(l, x, now) == Some(Level(l.burst as real, now))
  {
    if x.Some? && x.value.last > 0 {
      RefillTwice(l, x.value, clock, now);
    }
  }

  lemma FullStaysFull(l: Limits, x: Option<Level>, clock: int, now: int)
    requires Fits(l, x) && Timely(l, x, clock) && 0 < clock <= now
    requires x.Some? && Refilled(l, x, clock).value.tokens == l.burst as real
    ensures Refilled(l, x, now) == Some(Level(l.burst as real, now))
  {
    RefillAgain(l, x, clock, now);
    WorthNotNegative(l, now - clock);
  }

  lemma AlikeLater(l: Limits, x: Option<Level>, y: Option<Level>, clock: int, now: int)
    requires Alike(l, x, y, clock) && 0 <= clock <= now && 0 < now
    ensures Refilled(l, x, now) == Refilled(l, y, now)
    ensures Alike(l, x, y, now)
  {
    if clock > 0 && x.Some? {
      if x.value.last > 0 && y.value.last > 0 {
        RefillAgain(l, x, clock, now);
        RefillAgain(l, y, clock, now);
      } else {
        FullStaysFull(l, x, clock, now);
        FullStaysFull(l, y, clock, now);
      }
    }
    RefillStaysTimely(l, x, clock, now);
    RefillStaysTimely(l, y, clock, now);
  }

  /** Used at once, both answer the same and are the same thereafter. */
  lemma AlikeAnswer(l: Limits, x: Option<Level>, y: Option<Level>, clock: int, now: int)
    requires Alike(l, x, y, clock) && 0 <= clock <= now && 0 < now
    ensures Answer(l, x, now) == Answer(l, y, now) && Allowed(l, x, now) == Allowed(l, y, now)
    ensures Alike(l, Allowed(l, x, now), Allowed(l, y, now), now)
  {
    AlikeLater(l, x, y, clock, now);
    RefillStaysTimely(l, x, clock, now);
  }

  lemma LookedIsAlike(l: Limits, x: Option<Level>, y: Option<Level>, clock: int, now: int)
    requires Alike(l, x, y, clock) && 0 <= clock <= now && 0 < now
    ensures Alike(l, Refilled(l, x, now), y, now)
    ensures Idling(l, x, now) ==> Alike(l, Fresh(l), y, now)
  {
    AlikeLater(l, x, y, clock, now);
    RefillStaysTimely(l, x, clock, now);
    RefillStaysTimely(l, y, clock, now);
    if x.Some? {
      WorthNotNegative(l, Gain(x.value, now));
    }
  }
}
