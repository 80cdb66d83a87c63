/** What the fan-out implementations share: frames, errors, and the answer a
    receive owes a subscriber standing at a position of the broadcast log. */
module Fanout {
  import opened Bits

  type Byte = b: int | 0 <= b < 256

  /** An encoded frame. */
  type Msg = seq<Byte>

  datatype Option<+T> = None | Some(value: T)

  datatype Error = ErrClosed | ErrLagged

  const DEFAULT_BUFFER: nat := 256

  /** The result of a receive; `Park` is "nothing yet, sleep until woken". */
  datatype Outcome = Data(msgs: seq<Msg>) | Ended(err: Error) | Park

  function Min(a: int, b: int): int {
    if a < b then a else b
  }

  /** The atomic receive every implementation is measured against: a subscriber
      at `pos` of the log `log`, with slack `cap` and room for `len` frames. */
  function RingRecv(log: seq<Msg>, closed: bool, cap: nat, pos: nat, len: nat): Outcome
    requires pos <= |log|
  {
    if |log| - pos > cap then Ended(ErrLagged)
    else if pos < |log| && len > 0 then Data(log[pos..pos + Min(len, |log| - pos)])
    else if closed then Ended(ErrClosed)
    else Park
  }

  /** The least power of two, from `c` doubling up, that is at least `n`. */
  function RoundUp(n: nat, c: nat): (r: nat)
    requires c >= 1
    ensures r >= n && r >= c
    decreases n - c
  {
    if c < n then RoundUp(n, 2 * c) else c
  }

  /** The slots a ring asked for `capacity` really has. */
  function RingSize(capacity: int): (size: nat)
    ensures size >= 1
  {
    RoundUp(if capacity < 1 then DEFAULT_BUFFER else capacity, 1)
  }

  /** It is a power of two, no smaller than asked for and less than twice that. */
  lemma {:induction false} RoundUpIsPow2(n: nat, k: nat)
    requires n >= 1 && Pow2(k) < 2 * n
    ensures IsPow2(RoundUp(n, Pow2(k)))
    ensures n <= RoundUp(n, Pow2(k)) < 2 * n
    decreases 2 * n - Pow2(k)
  {
    if Pow2(k) < n {
      assert 2 * Pow2(k) == Pow2(k + 1);
      RoundUpIsPow2(n, k + 1);
    }
  }

  lemma RingSizeIsPow2(capacity: int)
    ensures IsPow2(RingSize(capacity))
    ensures capacity >= 1 ==> capacity <= RingSize(capacity) < 2 * capacity
    ensures capacity < 1 ==> RingSize(capacity) == DEFAULT_BUFFER == 256
  {
    RoundUpIsPow2(if capacity < 1 then DEFAULT_BUFFER else capacity, 0);
    if capacity < 1 {
      assert RoundUp(256, 16) == 256;
      assert RoundUp(256, 1) == RoundUp(256, 16);
    }
  }

  /** The slot of sequence number `s` in a ring whose mask is `cap - 1`. */
  function Slot(cap: nat, s: nat): (k: nat)
    requires IsPow2(cap)
    ensures k == s % cap < cap
  {
    ghost var e: nat :| cap == Pow2(e);
    AndMask(s, e);
    And(s, cap - 1)
  }

  /** Slots of sequence numbers less than a lap apart are distinct. */
  lemma SlotsDiffer(cap: nat, a: nat, b: nat)
    requires IsPow2(cap) && a < b < a + cap
    ensures Slot(cap, a) != Slot(cap, b)
  {
    RemaindersDiffer(a, b, cap);
  }

  /** A log only grows: an old slice is still there. */
  lemma SliceOfPrefix<T>(xs: seq<T>, ys: seq<T>, lo: nat, hi: nat)
    requires xs <= ys && lo <= hi <= |xs|
    ensures ys[lo..hi] == xs[lo..hi]
  {
  }

  /** The last `n`, or all there are. */
  function Last<T>(q: seq<T>, n: nat): (r: seq<T>)
    ensures |r| == Min(n, |q|)
  {
    if n < |q| then q[|q| - n..] else q
  }
}
