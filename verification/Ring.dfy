/** The locked ring: each method body that holds the lock is one atomic step. */
module Ring {
  import opened Bits
  import opened Fanout

  method RoundPow2(n: nat) returns (c: nat)
    ensures c == RoundUp(n, 1)
  {
    c := 1;
    while c < n
      invariant 1 <= c && RoundUp(n, c) == RoundUp(n, 1)
    {
      c := c * 2;
    }
  }

  /** A subscription: `pos` is the next sequence to read. */
  class RingSub {
    var pos: nat
    var err: Option<Error>

    constructor (pos: nat, err: Option<Error>)
      ensures this.pos == pos && this.err == err
    {
      this.pos, this.err := pos, err;
    }
  }

  class Ring {
    const buf: array<Msg>
    const mask: nat
    var total: nat
    var closed: bool
    var notify: nat
    var waiters: nat
    var subs: int
    var drops: nat
    /** Every frame ever written. */
    ghost var log: seq<Msg>
    /** The subscriptions not yet finished. */
    ghost var live: set<RingSub>

    ghost predicate Valid()
      reads this, buf, live
    {
      && subs == |live| && (forall s | s in live :: s.err == None)
      && IsPow2(buf.Length) && mask == buf.Length - 1
      && total == |log|
      && forall q: nat | q < total <= q + buf.Length :: buf[Slot(buf.Length, q)] == log[q]
    }

    constructor (capacity: int)
      ensures Valid() && fresh(buf) && buf.Length == RingSize(capacity)
      ensures log == [] && !closed && drops == 0 && waiters == 0 && live == {}
    {
      RingSizeIsPow2(capacity);
      var c := RoundPow2(if capacity < 1 then DEFAULT_BUFFER else capacity);
      buf := new Msg[c](_ => []);
      mask := c - 1;
      total, closed, notify, waiters, subs, drops := 0, false, 0, 0, 0, 0;
      log, live := [], {};
    }

    /** Writes the slot in place; sleepers are woken by swapping `notify`. */
    method Broadcast(msg: Msg)
      requires Valid()
      modifies this, buf
      ensures Valid() && live == old(live) && closed == old(closed) && waiters == old(waiters) && drops == old(drops)
      ensures log == if closed then old(log) else old(log) + [msg]
      ensures notify == if !closed && waiters > 0 then old(notify) + 1 else old(notify)
    {
      if closed {
        return;
      }
      assert And(total, mask) == Slot(buf.Length, total);
      forall q: nat | q < total < q + buf.Length ensures Slot(buf.Length, q) != Slot(buf.Length, total) {
        SlotsDiffer(buf.Length, q, total);
      }
      buf[And(total, mask)] := msg;
      total := total + 1;
      log := log + [msg];
      if waiters > 0 {
        notify := notify + 1;
      }
    }

    /** A subscription's once-only end: the first reason stands. */
    method Finish(s: RingSub, e: Error)
      requires Valid() && (s.err == None ==> s in live)
      modifies this`subs, this`live, s`err
      ensures Valid() && live == old(live) - {s}
      ensures s.err == if old(s.err) == None then Some(e) else old(s.err)
    {
      if s.err == None {
        s.err := Some(e);
        subs := subs - 1;
        live := live - {s};
      }
    }

    /** Counted even when closed; the end takes it back. */
    method Subscribe() returns (s: RingSub)
      requires Valid()
      modifies this`subs, this`live
      ensures Valid() && fresh(s)
      ensures if closed then s.err == Some(ErrClosed) && s.pos == 0 else s.err == None && s.pos == |log|
      ensures live == if closed then old(live) else old(live) + {s}
    {
      s := new RingSub(0, None);
      subs, live := subs + 1, live + {s};
      if closed {
        Finish(s, ErrClosed);
      } else {
        s.pos := total;
      }
    }

    /** Zero once closed: every subscriber is finished, noticed or not. */
    method Len() returns (n: int)
      requires Valid()
      ensures n == if closed then 0 else |live|
    {
      n := if closed then 0 else subs;
    }

    method Close()
      requires Valid()
      modifies this
      ensures Valid() && closed && live == old(live) && log == old(log) && waiters == old(waiters) && drops == old(drops)
      ensures notify == if old(closed) then old(notify) else old(notify) + 1
    {
      if closed {
        return;
      }
      closed := true;
      notify := notify + 1;
    }

    /** The copy loop: fills the front of `dst` in place, moving the cursor. */
    method CopyOut(s: RingSub, dst: array<Msg>) returns (n: nat)
      requires Valid() && s.pos <= total <= s.pos + buf.Length && dst != buf
      modifies s`pos, dst
      ensures n == Min(dst.Length, total - old(s.pos)) && s.pos == old(s.pos) + n
      ensures dst[..n] == log[old(s.pos)..s.pos] && dst[n..] == old(dst[..])[n..]
    {
      n := 0;
      ghost var start := s.pos;
      while s.pos < total && n < dst.Length
        invariant n <= dst.Length && s.pos == start + n <= total
        invariant dst[..n] == log[start..s.pos] && dst[n..] == old(dst[..])[n..]
        decreases total - s.pos
      {
        assert And(s.pos, mask) == Slot(buf.Length, s.pos) && buf[Slot(buf.Length, s.pos)] == log[s.pos];
        dst[n] := buf[And(s.pos, mask)];
        s.pos := s.pos + 1;
        n := n + 1;
      }
    }

    /** One pass of `Recv`'s loop. It fills the front of `dst` and says what
        `RingRecv` says; `Park` has registered as a waiter. */
    method Recv(s: RingSub, dst: array<Msg>) returns (n: nat, o: Outcome)
      requires Valid() && s.pos <= |log| && dst.Length > 0 && dst != buf && (s.err == None ==> s in live)
      modifies this`waiters, this`drops, this`subs, this`live, s, dst
      ensures Valid() && live == if o.Ended? then old(live) - {s} else old(live)
      ensures o == if old(s.err).Some? then Ended(old(s.err).value)
                   else RingRecv(log, closed, buf.Length, old(s.pos), dst.Length)
      ensures n == (if o.Data? then |o.msgs| else 0) <= dst.Length
      ensures dst[..n] == (if o.Data? then o.msgs else []) && dst[n..] == old(dst[..])[n..]
      ensures s.pos == old(s.pos) + n <= |log|
      ensures s.err == if old(s.err) == None && o.Ended? then Some(o.err) else old(s.err)
      ensures drops == old(drops) + (if old(s.err) == None && o == Ended(ErrLagged) then 1 else 0)
      ensures waiters == old(waiters) + (if o.Park? then 1 else 0)
    {
      n := 0;
      if s.err.Some? {
        o := Ended(s.err.value);
        return;
      }
      if total - s.pos > buf.Length {
        drops := drops + 1;
        Finish(s, ErrLagged);
        o := Ended(ErrLagged);
        return;
      }
      n := CopyOut(s, dst);
      if n > 0 {
        o := Data(dst[..n]);
      } else if closed {
        Finish(s, ErrClosed);
        o := Ended(ErrClosed);
      } else {
        waiters := waiters + 1;
        o := Park;
      }
    }
  }
}
