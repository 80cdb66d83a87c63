/** A latency histogram per connection, merged at the end; quantiles by rank. */
module Histogram {
  import opened Fanout
  import opened Buckets

  // ------------------------------------------------------------ counting samples

  function InBucket(q: seq<nat>, i: nat): (n: nat)
    ensures n <= |q|
  {
    if q == [] then 0 else InBucket(q[..|q| - 1], i) + (if BucketOf(q[|q| - 1]) == i then 1 else 0)
  }

  /** How many fall in the first `i` buckets. */
  function InFirst(q: seq<nat>, i: nat): nat {
    if q == [] then 0 else InFirst(q[..|q| - 1], i) + (if BucketOf(q[|q| - 1]) < i then 1 else 0)
  }

  function Under(q: seq<nat>, t: nat): nat {
    if q == [] then 0 else Under(q[..|q| - 1], t) + (if q[|q| - 1] < t then 1 else 0)
  }

  function Sum(q: seq<nat>): nat {
    if q == [] then 0 else Sum(q[..|q| - 1]) + q[|q| - 1]
  }

  function Largest(q: seq<nat>): nat {
    if q == [] then 0
    else if q[|q| - 1] > Largest(q[..|q| - 1]) then q[|q| - 1] else Largest(q[..|q| - 1])
  }

  /** `t` is the `w`-th smallest: fewer than `w` samples are below it, and at least
      `w` are not above it. */
  ghost predicate IsRank(q: seq<nat>, w: nat, t: nat) {
    t in q && Under(q, t) < w <= Under(q, t + 1)
  }

  // ------------------------------------------------------------ about counting

  lemma {:induction false} Appended(a: seq<nat>, b: seq<nat>, i: nat)
    ensures InBucket(a + b, i) == InBucket(a, i) + InBucket(b, i)
    ensures InFirst(a + b, i) == InFirst(a, i) + InFirst(b, i)
    ensures Under(a + b, i) == Under(a, i) + Under(b, i)
    ensures Sum(a + b) == Sum(a) + Sum(b)
    ensures Largest(a + b) == if Largest(b) > Largest(a) then Largest(b) else Largest(a)
  {
    if b == [] {
      assert a + b == a;
    } else {
      assert (a + b)[..|a + b| - 1] == a + b[..|b| - 1];
      Appended(a, b[..|b| - 1], i);
    }
  }

  lemma {:induction false} NextBucket(q: seq<nat>, i: nat)
    ensures InFirst(q, i + 1) == InFirst(q, i) + InBucket(q, i)
    ensures InFirst(q, 0) == 0
  {
    if q != [] {
      NextBucket(q[..|q| - 1], i);
    }
  }

  lemma {:induction false} AllBuckets(q: seq<nat>)
    ensures InFirst(q, NUM_BUCKETS) == |q|
  {
    if q != [] {
      BucketInRange(q[|q| - 1]);
      AllBuckets(q[..|q| - 1]);
    }
  }

  lemma {:induction false} FirstMonotone(q: seq<nat>, i: nat, j: nat)
    requires i <= j
    ensures InFirst(q, i) <= InFirst(q, j)
  {
    if q != [] {
      FirstMonotone(q[..|q| - 1], i, j);
    }
  }

  /** The buckets sort: those before `t`'s hold only what is below `t`, and those
      up to its own hold all that is not above it. */
  lemma {:induction false} BucketsSort(q: seq<nat>, t: nat)
    ensures InFirst(q, BucketOf(t)) <= Under(q, t)
    ensures Under(q, t + 1) <= InFirst(q, BucketOf(t) + 1)
  {
    if q != [] {
      var x := q[|q| - 1];
      BucketsSort(q[..|q| - 1], t);
      if x < t {
        BucketMonotone(x, t);
      } else {
        BucketMonotone(t, x);
      }
    }
  }

  lemma {:induction false} AtMostLargest(q: seq<nat>, t: nat)
    requires t in q
    ensures t <= Largest(q)
  {
    if q[|q| - 1] != t {
      AtMostLargest(q[..|q| - 1], t);
    }
  }

  /** The largest is a sample, and no sample is above it: the one at the last rank. */
  lemma {:induction false} LargestIsOne(q: seq<nat>)
    requires q != []
    ensures Largest(q) in q && (forall t | t in q :: t <= Largest(q))
    ensures IsRank(q, |q|, Largest(q))
  {
    forall t | t in q ensures t <= Largest(q) {
      AtMostLargest(q, t);
    }
    var p, x := q[..|q| - 1], q[|q| - 1];
    UnderAll(q);
    if p == [] {
    } else if x > Largest(p) {
      UnderShort(p, Largest(q));
    } else {
      LargestIsOne(p);
    }
  }

  lemma {:induction false} UnderAll(q: seq<nat>)
    ensures Under(q, Largest(q) + 1) == |q| && Under(q, 0) == 0
  {
    if q != [] {
      UnderAll(q[..|q| - 1]);
      UnderStable(q[..|q| - 1], Largest(q) + 1);
    }
  }

  lemma {:induction false} UnderStable(q: seq<nat>, t: nat)
    requires Largest(q) < t
    ensures Under(q, t) == |q|
  {
    if q != [] {
      UnderStable(q[..|q| - 1], t);
    }
  }

  lemma {:induction false} UnderStep(q: seq<nat>, t: nat)
    ensures Under(q, t) <= Under(q, t + 1) && (t !in q ==> Under(q, t) == Under(q, t + 1))
  {
    if q != [] {
      UnderStep(q[..|q| - 1], t);
    }
  }

  /** There is a `w`-th smallest for every `w` from one to the number of samples. */
  lemma {:induction false} RankExists(q: seq<nat>, w: nat, bound: nat) returns (t: nat)
    requires 1 <= w <= Under(q, bound)
    ensures IsRank(q, w, t)
    decreases bound
  {
    if bound == 0 {
      UnderAll(q);
      assert false;
    }
    UnderStep(q, bound - 1);
    if w <= Under(q, bound - 1) {
      t := RankExists(q, w, bound - 1);
    } else {
      t := bound - 1;
    }
  }

  /** In sorted samples it is the one at that place. */
  lemma {:induction false} RankIsPlace(q: seq<nat>, w: nat)
    requires 1 <= w <= |q| && forall i, j | 0 <= i < j < |q| :: q[i] <= q[j]
    ensures IsRank(q, w, q[w - 1])
  {
    var p := q[..|q| - 1];
    if w == |q| {
      UnderShort(p, q[w - 1]);
      UnderAllOf(q, q[w - 1] + 1);
    } else {
      RankIsPlace(p, w);
    }
  }

  lemma {:induction false} UnderShort(q: seq<nat>, t: nat)
    ensures Under(q, t) <= |q|
  {
    if q != [] {
      UnderShort(q[..|q| - 1], t);
    }
  }

  lemma {:induction false} UnderAllOf(q: seq<nat>, t: nat)
    requires forall i | 0 <= i < |q| :: q[i] < t
    ensures Under(q, t) == |q|
  {
    if q != [] {
      UnderAllOf(q[..|q| - 1], t);
    }
  }

  lemma TakeOut(b: seq<nat>, x: nat) returns (l: seq<nat>, r: seq<nat>)
    requires x in b
    ensures b == l + [x] + r && multiset(l + r) == multiset(b) - multiset{x}
  {
    var k :| 0 <= k < |b| && b[k] == x;
    l, r := b[..k], b[k + 1..];
    assert b == l + [x] + r;
    assert multiset(b) == multiset(l) + multiset{x} + multiset(r);
  }

  lemma MoveToEnd(l: seq<nat>, x: nat, r: seq<nat>, t: nat)
    ensures Under(l + [x] + r, t) == Under(l + r + [x], t) && Largest(l + [x] + r) == Largest(l + r + [x])
  {
    Appended(l, [x], t);
    Appended(l + [x], r, t);
    Appended(l, r, t);
    Appended(l + r, [x], t);
  }

  /** The order the samples came in, and how they were split, do not matter. */
  lemma {:induction false} CountsIgnoreOrder(a: seq<nat>, b: seq<nat>, t: nat)
    requires multiset(a) == multiset(b)
    ensures Under(a, t) == Under(b, t) && Largest(a) == Largest(b)
  {
    if a == [] {
      assert |multiset(b)| == 0;
    } else {
      var x := a[|a| - 1];
      var a' := a[..|a| - 1];
      assert a == a' + [x];
      assert x in multiset(b);
      var l, r := TakeOut(b, x);
      MoveToEnd(l, x, r, t);
      CountsIgnoreOrder(a', l + r, t);
      Appended(a', [x], t);
      Appended(l + r, [x], t);
    }
  }

  lemma RankIgnoresOrder(a: seq<nat>, b: seq<nat>, w: nat, t: nat)
    requires multiset(a) == multiset(b)
    ensures IsRank(a, w, t) <==> IsRank(b, w, t)
    ensures Report(a, t) == Report(b, t)
  {
    CountsIgnoreOrder(a, b, t);
    CountsIgnoreOrder(a, b, t + 1);
    assert t in a <==> t in multiset(a);
    assert t in b <==> t in multiset(b);
  }

  // ------------------------------------------------------------ quantiles

  /** What a quantile at the rank of sample `t` reports. */
  function Report(q: seq<nat>, t: nat): nat {
    Min(BucketMax(BucketOf(t)), Largest(q))
  }

  /** The report is the sample itself or at most an eighth more, and never more
      than the worst sample, exactly if the sample is within the buckets' range. */
  lemma ReportBounds(q: seq<nat>, t: nat)
    requires t in q
    ensures Report(q, t) <= Largest(q)
    ensures t < LIMIT <==> t <= Report(q, t)
    ensures t < LIMIT ==> Report(q, t) <= t + t / 8
  {
    AtMostLargest(q, t);
    if t < LIMIT {
      BucketBounds(t);
    } else {
      SaturatedIsUnder(t);
    }
  }

  /** The bucket in which the running count first reaches `w` is that of the
      `w`-th smallest. */
  lemma FirstBucketIs(q: seq<nat>, w: nat, t: nat, i: nat)
    requires IsRank(q, w, t) && InFirst(q, i) < w <= InFirst(q, i + 1)
    ensures BucketOf(t) == i
  {
    BucketsSort(q, t);
    if BucketOf(t) < i {
      FirstMonotone(q, BucketOf(t) + 1, i);
    } else if i < BucketOf(t) {
      FirstMonotone(q, i + 1, BucketOf(t));
    }
  }

  /** Where the running count reaches the rank, the report is the one made there. */
  lemma StopsAtReport(q: seq<nat>, w: nat, i: nat)
    requires i < NUM_BUCKETS && InFirst(q, i) < w <= InFirst(q, i + 1)
    ensures w <= |q|
    ensures forall t | IsRank(q, w, t) :: Min(BucketMax(i) * 1000, Largest(q) * 1000) == 1000 * Report(q, t)
  {
    FirstMonotone(q, i + 1, NUM_BUCKETS);
    AllBuckets(q);
    forall t | IsRank(q, w, t) ensures BucketOf(t) == i {
      FirstBucketIs(q, w, t, i);
    }
  }

  lemma NoRankPast(q: seq<nat>, w: nat, t: nat)
    requires |q| < w
    ensures !IsRank(q, w, t)
  {
    UnderShort(q, t + 1);
  }

  function Ceil(x: real): int {
    if x.Floor as real == x then x.Floor else x.Floor + 1
  }

  /** The fraction `q` of all. */
  function Share(q: real, count: nat): real {
    q * count as real
  }

  /** The rank a quantile asks for: the least, from one up, that is at least the
      fraction `q` of all. */
  function Want(q: real, count: nat): (w: nat)
    requires 0.0 <= q
    ensures Share(q, count) <= w as real
    ensures w == 1 || (w > 1 && (w - 1) as real < Share(q, count))
  {
    var w := Ceil(Share(q, count));
    if w <= 0 then 1 else w
  }

  lemma ShareAtMost(q: real, count: nat)
    requires 0.0 <= q <= 1.0
    ensures Share(q, count) <= count as real
  {
  }

  lemma RankAtMost(w: nat, share: real, count: nat)
    requires share <= count as real && 0 < count && (w == 1 || (w > 1 && (w - 1) as real < share))
    ensures 1 <= w <= count
  {
  }

  lemma WantInRange(q: real, count: nat)
    requires 0.0 <= q <= 1.0 && 0 < count
    ensures 1 <= Want(q, count) <= count
  {
    ShareAtMost(q, count);
    RankAtMost(Want(q, count), Share(q, count), count);
  }

  // ------------------------------------------------------------ the histogram

  /** `samples`, in microseconds, is everything recorded or merged in. */
  class Histogram {
    const buckets: array<nat>
    var count: nat
    var sum: nat
    var max: nat
    ghost var samples: seq<nat>

    ghost predicate Valid()
      reads this, buckets
    {
      && buckets.Length == NUM_BUCKETS
      && (forall i | 0 <= i < NUM_BUCKETS :: buckets[i] == InBucket(samples, i))
      && count == |samples| && sum == Sum(samples) && max == Largest(samples)
    }

    constructor ()
      ensures Valid() && fresh(buckets) && samples == []
    {
      buckets := new nat[NUM_BUCKETS](_ => 0);
      count, sum, max := 0, 0, 0;
      samples := [];
    }

    /** Whole microseconds of a duration in nanoseconds; none for a negative one. */
    method Record(d: int)
      requires Valid()
      modifies this, buckets
      ensures Valid() && samples == old(samples) + [if d > 0 then d / 1000 else 0]
    {
      var us := if d > 0 then d / 1000 else 0;
      BucketInRange(us);
      buckets[BucketOf(us)] := buckets[BucketOf(us)] + 1;
      count := count + 1;
      sum := sum + us;
      if us > max {
        max := us;
      }
      samples := samples + [us];
      assert samples[..|samples| - 1] == old(samples);
    }

    /** All of `o`'s samples, as if they had been recorded here. */
    method Merge(o: Histogram)
      requires Valid() && o.Valid() && (o != this ==> o.buckets != buckets)
      modifies this, buckets
      ensures Valid() && samples == old(samples) + old(o.samples)
    {
      ghost var mine, theirs := samples, o.samples;
      var i := 0;
      while i < NUM_BUCKETS
        invariant 0 <= i <= NUM_BUCKETS
        invariant forall k | 0 <= k < i :: buckets[k] == InBucket(mine, k) + InBucket(theirs, k)
        invariant forall k | i <= k < NUM_BUCKETS :: buckets[k] == InBucket(mine, k) && o.buckets[k] == InBucket(theirs, k)
        invariant count == old(count) && sum == old(sum) && max == old(max)
        invariant o.count == old(o.count) && o.sum == old(o.sum) && o.max == old(o.max)
        modifies buckets
      {
        buckets[i] := buckets[i] + o.buckets[i];
        i := i + 1;
      }
      if o.max > max {
        max := o.max;
      }
      count := count + o.count;
      sum := sum + o.sum;
      samples := mine + theirs;
      forall k: nat ensures InBucket(samples, k) == InBucket(mine, k) + InBucket(theirs, k) {
        Appended(mine, theirs, k);
      }
      Appended(mine, theirs, 0);
    }

    /** In nanoseconds, for 0 <= q <= 1 what `Report` says of the sample at the
        rank asked for; past that, the worst. */
    method Quantile(q: real) returns (d: nat)
      requires Valid() && 0.0 <= q
      ensures samples == [] ==> d == 0
      ensures samples != [] && q <= 1.0 ==> exists t :: IsRank(samples, Want(q, |samples|), t)
      ensures samples != [] ==> forall t | IsRank(samples, Want(q, |samples|), t) :: d == 1000 * Report(samples, t)
      ensures Want(q, |samples|) > |samples| > 0 ==> d == 1000 * Largest(samples)
    {
      if count == 0 {
        return 0;
      }
      var want := Want(q, count);
      if q <= 1.0 {
        WantInRange(q, count);
        UnderAll(samples);
        ghost var t := RankExists(samples, want, Largest(samples) + 1);
      }
      var seen := 0;
      var i := 0;
      NextBucket(samples, 0);
      AllBuckets(samples);
      while i < NUM_BUCKETS
        invariant 0 <= i <= NUM_BUCKETS && seen == InFirst(samples, i) < want
      {
        NextBucket(samples, i);
        seen := seen + buckets[i];
        if seen >= want {
          StopsAtReport(samples, want, i);
          return Min(BucketMax(i) * 1000, max * 1000);
        }
        i := i + 1;
      }
      forall t: nat ensures !IsRank(samples, want, t) {
        NoRankPast(samples, want, t);
      }
      return max * 1000;
    }
  }
}
