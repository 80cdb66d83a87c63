/** A window of a history, then one channel's own run of it, less what the window
    already showed: as sequences. */
module JoinerSeqs {
  import opened Rooms
  import opened RoomsInv
  import opened RoomsTheorems

  predicate Shown(window: seq<Payload>, id: nat) {
    exists n | 0 <= n < |window| :: window[n].id == id
  }

  /** The live messages a client keeps: those whose id the window did not hold. */
  function Fresh(live: seq<Payload>, window: seq<Payload>): seq<Payload> {
    if live == [] then []
    else
      var p := live[|live| - 1];
      Fresh(live[..|live| - 1], window) + (if Shown(window, p.id) then [] else [p])
  }

  function View(window: seq<Payload>, live: seq<Payload>): seq<Payload> {
    window + Fresh(Msgs(live), window)
  }

  function Larger(a: nat, b: nat): nat {
    if a < b then b else a
  }

  function Smaller(a: nat, b: nat): nat {
    if a < b then a else b
  }

  // ------------------------------------------------------------ places

  /** Where in the history message `k` of room `r` is, or its end if there is none. */
  function PlaceOf(h: seq<Payload>, r: nat, k: nat): (n: nat)
    ensures n <= |h|
  {
    if h == [] then 0
    else
      var p := h[..|h| - 1];
      if k < |Own(p, r)| then PlaceOf(p, r, k)
      else if h[|h| - 1].room == r && k == |Own(p, r)| then |h| - 1
      else |h|
  }

  lemma {:induction false} PlaceIs(h: seq<Payload>, r: nat, k: nat)
    ensures k < |Own(h, r)| ==> PlaceOf(h, r, k) < |h| && h[PlaceOf(h, r, k)].room == r
    ensures k <= |Own(h, r)| ==> |Own(h[..PlaceOf(h, r, k)], r)| == k
    ensures |Own(h, r)| <= k ==> PlaceOf(h, r, k) == |h|
  {
    if h != [] {
      var p := h[..|h| - 1];
      PlaceIs(p, r, k);
      assert h[..|h|] == h;
      assert k < |Own(p, r)| ==> h[..PlaceOf(p, r, k)] == p[..PlaceOf(p, r, k)];
    }
  }

  /** Earlier in the history, earlier among the room's own. */
  lemma OwnUpTo(h: seq<Payload>, r: nat, a: nat, b: nat)
    requires a <= b <= |h|
    ensures Own(h[..b], r) == Own(h[..a], r) + Own(h[a..b], r)
  {
    OwnConcat(h[..a], h[a..b], r);
    assert h[..a] + h[a..b] == h[..b];
  }

  lemma RankSteps(h: seq<Payload>, r: nat, n: nat)
    requires n < |h| && h[n].room == r
    ensures |Own(h[..n + 1], r)| == |Own(h[..n], r)| + 1
  {
    OwnPlus(h[..n], h[n], r);
    assert h[..n] + [h[n]] == h[..n + 1];
  }

  /** A message of the room stands before place `k` exactly if fewer than `k` do
      before it. */
  lemma PlaceSplits(h: seq<Payload>, r: nat, n: nat, k: nat)
    requires n < |h| && h[n].room == r && k <= |Own(h, r)|
    ensures n < PlaceOf(h, r, k) <==> |Own(h[..n], r)| < k
  {
    PlaceIs(h, r, k);
    RankSteps(h, r, n);
    var q := PlaceOf(h, r, k);
    if n < q {
      OwnUpTo(h, r, n + 1, q);
    } else {
      OwnUpTo(h, r, q, n);
    }
  }

  // ------------------------------------------------------------ what is kept of a run

  lemma ShownIn(h: seq<Payload>, lo: nat, hi: nat, n: nat)
    requires Distinct(h) && lo <= hi <= |h| && n < |h|
    ensures Shown(h[lo..hi], h[n].id) <==> lo <= n < hi
  {
    if lo <= n < hi {
      assert h[lo..hi][n - lo] == h[n];
    }
  }

  /** Room `r`'s messages at the places [a..b) that are not among [lo..hi). */
  function Rest(h: seq<Payload>, r: nat, a: nat, b: nat, lo: nat, hi: nat): seq<Payload>
    requires b <= |h|
  {
    if b <= a then [] else Rest(h, r, a, b - 1, lo, hi) + (if Kept(h, r, b - 1, lo, hi) then [h[b - 1]] else [])
  }

  predicate Kept(h: seq<Payload>, r: nat, n: nat, lo: nat, hi: nat)
    requires n < |h|
  {
    h[n].room == r && !(lo <= n < hi)
  }

  /** Room `r`'s messages whose id the window did not hold. */
  function FreshOf(q: seq<Payload>, r: nat, window: seq<Payload>): seq<Payload> {
    if q == [] then []
    else
      var p := q[|q| - 1];
      FreshOf(q[..|q| - 1], r, window) + (if p.room == r && !Shown(window, p.id) then [p] else [])
  }

  lemma FreshPlus(live: seq<Payload>, p: Payload, window: seq<Payload>)
    ensures Fresh(live + [p], window) == Fresh(live, window) + (if Shown(window, p.id) then [] else [p])
  {
    assert (live + [p])[..|live|] == live;
  }

  lemma {:induction false} FreshOwn(q: seq<Payload>, r: nat, window: seq<Payload>)
    ensures Fresh(Own(q, r), window) == FreshOf(q, r, window)
  {
    if q != [] {
      var p := q[..|q| - 1];
      FreshOwn(p, r, window);
      if q[|q| - 1].room == r {
        FreshPlus(Own(p, r), q[|q| - 1], window);
      } else {
        assert Own(q, r) == Own(p, r);
      }
    }
  }

  lemma {:induction false} FreshOfIsRest(q: seq<Payload>, h: seq<Payload>, r: nat, a: nat, b: nat, w: seq<Payload>, lo: nat, hi: nat)
    requires a <= b <= |h| && |q| == b - a && forall i | 0 <= i < |q| :: q[i] == h[a + i]
    requires forall n | a <= n < b :: Shown(w, h[n].id) <==> lo <= n < hi
    ensures FreshOf(q, r, w) == Rest(h, r, a, b, lo, hi)
  {
    if q != [] {
      FreshOfIsRest(q[..|q| - 1], h, r, a, b - 1, w, lo, hi);
      assert q[|q| - 1] == h[b - 1];
    }
  }

  lemma FreshIsRest(h: seq<Payload>, r: nat, a: nat, b: nat, lo: nat, hi: nat)
    requires Distinct(h) && a <= b <= |h| && lo <= hi <= |h|
    ensures Fresh(Own(h[a..b], r), h[lo..hi]) == Rest(h, r, a, b, lo, hi)
  {
    FreshOwn(h[a..b], r, h[lo..hi]);
    forall n | a <= n < b ensures Shown(h[lo..hi], h[n].id) <==> lo <= n < hi {
      ShownIn(h, lo, hi, n);
    }
    FreshOfIsRest(h[a..b], h, r, a, b, h[lo..hi], lo, hi);
  }

  /** Where a kept message came from. */
  lemma {:induction false} RestFrom(h: seq<Payload>, r: nat, a: nat, b: nat, lo: nat, hi: nat, i: nat) returns (n: nat)
    requires b <= |h| && i < |Rest(h, r, a, b, lo, hi)|
    ensures a <= n < b && h[n] == Rest(h, r, a, b, lo, hi)[i] && Kept(h, r, n, lo, hi)
  {
    if i < |Rest(h, r, a, b - 1, lo, hi)| {
      n := RestFrom(h, r, a, b - 1, lo, hi, i);
    } else {
      n := b - 1;
    }
  }

  lemma {:induction false} RestInOrder(h: seq<Payload>, r: nat, a: nat, b: nat, lo: nat, hi: nat, i: nat, j: nat,
                                       x: nat, y: nat)
    requires Distinct(h) && b <= |h| && i < j < |Rest(h, r, a, b, lo, hi)| && x < |h| && y < |h|
    requires h[x] == Rest(h, r, a, b, lo, hi)[i] && h[y] == Rest(h, r, a, b, lo, hi)[j]
    ensures x < y
  {
    var before := Rest(h, r, a, b - 1, lo, hi);
    if j < |before| {
      RestInOrder(h, r, a, b - 1, lo, hi, i, j, x, y);
    } else {
      var n := RestFrom(h, r, a, b - 1, lo, hi, i);
    }
  }

  /** Nothing kept lies in [a'..a) or [b..b'). */
  lemma RestWider(h: seq<Payload>, r: nat, a': nat, a: nat, b: nat, b': nat, lo: nat, hi: nat)
    requires a' <= a <= b <= b' <= |h|
    requires forall n | a' <= n < b' && Kept(h, r, n, lo, hi) :: a <= n < b
    ensures Rest(h, r, a', b', lo, hi) == Rest(h, r, a, b, lo, hi)
  {
    RestSplits(h, r, a', a, b', lo, hi);
    RestSplits(h, r, a, b, b', lo, hi);
    RestEmpty(h, r, a', a, lo, hi);
    RestEmpty(h, r, b, b', lo, hi);
  }

  lemma {:induction false} RestEmpty(h: seq<Payload>, r: nat, a: nat, b: nat, lo: nat, hi: nat)
    requires b <= |h| && forall n | a <= n < b :: !Kept(h, r, n, lo, hi)
    ensures Rest(h, r, a, b, lo, hi) == []
  {
    if a < b {
      RestEmpty(h, r, a, b - 1, lo, hi);
    }
  }

  lemma {:induction false} RestSplits(h: seq<Payload>, r: nat, a: nat, m: nat, b: nat, lo: nat, hi: nat)
    requires a <= m <= b <= |h|
    ensures Rest(h, r, a, b, lo, hi) == Rest(h, r, a, m, lo, hi) + Rest(h, r, m, b, lo, hi)
  {
    if m < b {
      RestSplits(h, r, a, m, b - 1, lo, hi);
    }
  }

  /** Everything in [a..b) outside [lo..hi) is room `r`'s. */
  predicate Strayless(h: seq<Payload>, r: nat, a: nat, b: nat, lo: nat, hi: nat)
    requires b <= |h|
  {
    forall n | a <= n < b && !(lo <= n < hi) :: h[n].room == r
  }

  lemma {:induction false} RestIsRun(h: seq<Payload>, r: nat, a: nat, b: nat, lo: nat, hi: nat)
    requires a <= b <= |h| && (b <= lo || hi <= a) && Strayless(h, r, a, b, lo, hi)
    ensures Rest(h, r, a, b, lo, hi) == h[a..b]
  {
    if a < b {
      RestIsRun(h, r, a, b - 1, lo, hi);
      assert h[a..b] == h[a..b - 1] + [h[b - 1]];
    }
  }

  lemma RestIsAll(h: seq<Payload>, r: nat, first: nat, end: nat, lo: nat, hi: nat)
    requires first <= lo <= hi <= end <= |h| && Strayless(h, r, first, end, lo, hi)
    ensures Rest(h, r, first, end, lo, hi) == h[first..lo] + h[hi..end]
  {
    RestSplits(h, r, first, lo, end, lo, hi);
    RestSplits(h, r, lo, hi, end, lo, hi);
    RestIsRun(h, r, first, lo, lo, hi);
    RestEmpty(h, r, lo, hi, lo, hi);
    RestIsRun(h, r, hi, end, lo, hi);
  }

  // ------------------------------------------------------------ gaps and order

  /** `v` is the window [lo..hi), then what of room `r`'s own in [a..b) is outside it. */
  ghost predicate Shape(v: seq<Payload>, h: seq<Payload>, r: nat, a: nat, b: nat, lo: nat, hi: nat) {
    && Distinct(h) && a <= b <= |h| && lo <= hi <= |h|
    && v == h[lo..hi] + Rest(h, r, a, b, lo, hi)
  }

  lemma OutsideIsMissed(v: seq<Payload>, h: seq<Payload>, r: nat, a: nat, b: nat, lo: nat, hi: nat, n: nat)
    requires Shape(v, h, r, a, b, lo, hi) && n < |h| && !(lo <= n < hi) && (h[n].room != r || !(a <= n < b))
    ensures h[n] !in v
  {
    forall i | 0 <= i < |v| ensures v[i] != h[n] {
      if i < hi - lo {
        assert v[i] == h[lo + i];
      } else {
        var m := RestFrom(h, r, a, b, lo, hi, i - (hi - lo));
      }
    }
  }

  /** From `first` to `end` all was seen, each exactly once, if and only if nothing
      there outside the window came through another channel object. */
  lemma NoGapIff(v: seq<Payload>, h: seq<Payload>, r: nat, a: nat, b: nat, lo: nat, hi: nat, first: nat, end: nat)
    requires Shape(v, h, r, a, b, lo, hi) && first <= lo && first <= a && hi <= end <= |h| && b <= end
    requires forall n | first <= n < end && Kept(h, r, n, lo, hi) :: a <= n < b
    ensures multiset(v) == multiset(h[first..end]) <==> Strayless(h, r, first, end, lo, hi)
    ensures Strayless(h, r, first, end, lo, hi) && first == lo ==> v == h[lo..end]
  {
    RestWider(h, r, first, a, b, end, lo, hi);
    if Strayless(h, r, first, end, lo, hi) {
      RestIsAll(h, r, first, end, lo, hi);
      AllSeen(v, h, first, end, lo, hi);
    } else {
      var n :| first <= n < end && !(lo <= n < hi) && h[n].room != r;
      MissedIsGap(v, h, r, a, b, lo, hi, first, end, n);
    }
  }

  lemma MissedIsGap(v: seq<Payload>, h: seq<Payload>, r: nat, a: nat, b: nat, lo: nat, hi: nat, first: nat, end: nat, n: nat)
    requires Shape(v, h, r, a, b, lo, hi) && first <= n < end <= |h|
    requires !(lo <= n < hi) && (h[n].room != r || !(a <= n < b))
    ensures multiset(v) != multiset(h[first..end])
  {
    OutsideIsMissed(v, h, r, a, b, lo, hi, n);
    assert h[first..end][n - first] == h[n];
    assert h[n] in multiset(h[first..end]);
  }

  lemma AllSeen(v: seq<Payload>, h: seq<Payload>, first: nat, end: nat, lo: nat, hi: nat)
    requires first <= lo <= hi <= end <= |h| && v == h[lo..hi] + (h[first..lo] + h[hi..end])
    ensures multiset(v) == multiset(h[first..end])
    ensures first == lo ==> v == h[lo..end]
  {
    assert h[first..end] == h[first..lo] + h[lo..hi] + h[hi..end];
  }

  /** No message of `v` stands in `h` after one that `v` has later. */
  ghost predicate InOrderOf(v: seq<Payload>, h: seq<Payload>) {
    forall i, j, x, y | 0 <= i < j < |v| && 0 <= x < |h| && 0 <= y < |h| && h[x] == v[i] && h[y] == v[j] :: x < y
  }

  lemma OrderIff(v: seq<Payload>, h: seq<Payload>, r: nat, a: nat, b: nat, lo: nat, hi: nat)
    requires Shape(v, h, r, a, b, lo, hi) && (a < b ==> h[a].room == r)
    ensures InOrderOf(v, h) <==> lo <= a || a == b || lo == hi
  {
    if lo <= a || a == b || lo == hi {
      forall i, j, x, y | 0 <= i < j < |v| && 0 <= x < |h| && 0 <= y < |h| && h[x] == v[i] && h[y] == v[j] ensures x < y {
        PairInOrder(v, h, r, a, b, lo, hi, i, j, x, y);
      }
    } else {
      FirstKept(h, r, a, b, lo, hi);
      assert v[0] == h[lo] && v[hi - lo] == h[a];
    }
  }

  lemma PairInOrder(v: seq<Payload>, h: seq<Payload>, r: nat, a: nat, b: nat, lo: nat, hi: nat, i: nat, j: nat,
                    x: nat, y: nat)
    requires Shape(v, h, r, a, b, lo, hi) && (lo <= a || a == b || lo == hi)
    requires i < j < |v| && x < |h| && y < |h| && h[x] == v[i] && h[y] == v[j]
    ensures x < y
  {
    var w := hi - lo;
    if j < w {
      assert v[i] == h[lo + i] && v[j] == h[lo + j];
    } else if i < w {
      assert v[i] == h[lo + i];
      var n := RestFrom(h, r, a, b, lo, hi, j - w);
    } else {
      RestInOrder(h, r, a, b, lo, hi, i - w, j - w, x, y);
    }
  }

  lemma {:induction false} FirstKept(h: seq<Payload>, r: nat, a: nat, b: nat, lo: nat, hi: nat)
    requires a < b <= |h| && h[a].room == r && a < lo
    ensures Rest(h, r, a, b, lo, hi) != [] && Rest(h, r, a, b, lo, hi)[0] == h[a]
  {
    if a + 1 < b {
      FirstKept(h, r, a, b - 1, lo, hi);
    }
  }

  lemma RisingIff(v: seq<Payload>, h: seq<Payload>)
    requires Increasing(h) && forall i | 0 <= i < |v| :: v[i] in h
    ensures Increasing(v) <==> InOrderOf(v, h)
  {
    if Increasing(v) {
      RisingIsOrder(v, h);
    }
    if InOrderOf(v, h) {
      forall i, j | 0 <= i < j < |v| ensures v[i].id < v[j].id {
        OrderIsRising(v, h, i, j);
      }
    }
  }

  lemma RisingIsOrder(v: seq<Payload>, h: seq<Payload>)
    requires Increasing(h) && Increasing(v)
    ensures InOrderOf(v, h)
  {
    forall i, j, x, y | 0 <= i < j < |v| && 0 <= x < |h| && 0 <= y < |h| && h[x] == v[i] && h[y] == v[j] ensures x < y {
      assert v[i].id < v[j].id;
    }
  }

  lemma OrderIsRising(v: seq<Payload>, h: seq<Payload>, i: nat, j: nat)
    requires Increasing(h) && InOrderOf(v, h) && i < j < |v| && v[i] in h && v[j] in h
    ensures v[i].id < v[j].id
  {
    var x :| 0 <= x < |h| && h[x] == v[i];
    var y :| 0 <= y < |h| && h[y] == v[j];
    assert x < y;
  }

  lemma AllFromHistory(v: seq<Payload>, h: seq<Payload>, r: nat, a: nat, b: nat, lo: nat, hi: nat)
    requires Shape(v, h, r, a, b, lo, hi)
    ensures forall i | 0 <= i < |v| :: v[i] in h
  {
    forall i | 0 <= i < |v| ensures v[i] in h {
      if i < hi - lo {
        assert v[i] == h[lo + i];
      } else {
        var m := RestFrom(h, r, a, b, lo, hi, i - (hi - lo));
      }
    }
  }
}
