/** The inductive invariant of the lock-free-read ring, and that every step of
    every goroutine keeps it. Each thread's own part is stable under whatever
    the others may do (`Rely`), so one step is checked against one thread. */
module SeqRingInv {
  import opened Fanout
  import opened SeqRing

  // ------------------------------------------------------------ counting

  ghost function Count(rs: seq<Reader>, p: Reader -> bool): nat {
    if rs == [] then 0 else (if p(rs[0]) then 1 else 0) + Count(rs[1..], p)
  }

  lemma {:induction false} CountUpdate(rs: seq<Reader>, p: Reader -> bool, i: nat, x: Reader)
    requires i < |rs|
    ensures Count(rs[i := x], p) == Count(rs, p) - (if p(rs[i]) then 1 else 0) + (if p(x) then 1 else 0)
  {
    if i == 0 {
      assert rs[i := x][1..] == rs[1..];
    } else {
      assert rs[i := x][1..] == rs[1..][i - 1 := x];
      CountUpdate(rs[1..], p, i - 1, x);
    }
  }

  lemma {:induction false} CountAppend(rs: seq<Reader>, p: Reader -> bool, x: Reader)
    ensures Count(rs + [x], p) == Count(rs, p) + (if p(x) then 1 else 0)
  {
    if rs != [] {
      assert (rs + [x])[1..] == rs[1..] + [x];
      CountAppend(rs[1..], p, x);
    } else {
      assert (rs + [x])[1..] == [];
    }
  }

  lemma {:induction false} CountPositive(rs: seq<Reader>, p: Reader -> bool, i: nat)
    requires i < |rs| && p(rs[i])
    ensures Count(rs, p) > 0
  {
    if i > 0 {
      CountPositive(rs[1..], p, i - 1);
    }
  }

  predicate Registered(r: Reader) {
    r.pc.RRecheckPub? || r.pc.RRecheckClosed? || r.pc.RParked? || r.pc.RDropWaiter?
  }

  predicate Counted(r: Reader) { r.end.counted }

  predicate Dropped(r: Reader) { r.h.dropped }

  // ------------------------------------------------------------ invariants

  predicate InCrit(pc: WriterPc) {
    !pc.WLock? && !pc.WWake? && !pc.WDone? && !pc.WPanic?
  }

  function Holder(s: State): Option<Writer> {
    if s.sh.lock.Some? && s.sh.lock.value < |s.writers| then Some(s.writers[s.sh.lock.value]) else None
  }

  /** Inside `Broadcast`'s bracket: `begin` is stored, `published` not yet. */
  predicate Bracket(hold: Option<Writer>) {
    hold.Some? && (hold.value.pc.WSlot? || hold.value.pc.WPublish?)
  }

  /** Still bound to look for sleepers, or to swap their channel out. */
  predicate WakeDue(hold: Option<Writer>) {
    hold.Some? && (hold.value.pc.WWaiters? || hold.value.pc.WSwap?)
  }

  predicate SwapDue(hold: Option<Writer>) {
    hold.Some? && hold.value.pc.WSwap?
  }

  ghost predicate LockOk(s: State) {
    && (s.sh.lock.Some? ==> s.sh.lock.value < |s.writers|)
    && forall i | 0 <= i < |s.writers| :: InCrit(s.writers[i].pc) <==> s.sh.lock == Some(i)
  }

  ghost predicate HolderOk(m: Memory, hold: Option<Writer>) {
    hold.Some? ==>
      var w := hold.value;
      && (w.pc.WBegin? ==> w.pc.s == m.published)
      && (w.pc.WSlot? ==> w.pc.s == m.published)
      && (w.pc.WPublish? ==> w.pc.s == m.published)
  }

  /** Sequence `q` survives until `q + cap` begins being written. */
  ghost predicate SlotsOk(m: Memory, hold: Option<Writer>) {
    && WellSized(m)
    && |m.log| == m.published
    && m.begin == m.published + (if Bracket(hold) then 1 else 0)
    && (forall q: nat | q < m.published :: m.buf[Slot(m.cap, q)].Some?)
    && (forall q: nat | q < m.published && m.begin <= q + m.cap :: m.buf[Slot(m.cap, q)] == Some(m.log[q]))
    && (hold.Some? && hold.value.pc.WPublish? ==>
          m.buf[Slot(m.cap, m.published)] == Some(Payload(hold.value)))
  }

  function Wake(w: Writer): Option<nat> {
    match w.pc
    case WUnlock(wake) => wake
    case WWake(ch) => Some(ch)
    case _ => None
  }

  ghost predicate SomeoneWakes(writers: seq<Writer>, ch: nat) {
    exists i :: 0 <= i < |writers| && Wake(writers[i]) == Some(ch)
  }

  /** A swapped-out channel is closed, or exactly one goroutine still must. */
  ghost predicate ChannelsOk(sh: Shared, writers: seq<Writer>) {
    && (forall ch | ch in sh.shut :: ch < sh.notify)
    && (forall i | 0 <= i < |writers| && Wake(writers[i]).Some? ::
          Wake(writers[i]).value < sh.notify && Wake(writers[i]).value !in sh.shut)
    && (forall i, j | 0 <= i < j < |writers| && Wake(writers[i]).Some? :: Wake(writers[i]) != Wake(writers[j]))
    && (forall ch: nat | ch < sh.notify :: ch in sh.shut || SomeoneWakes(writers, ch))
    && (forall i | 0 <= i < |writers| :: writers[i].pc != WPanic)
  }

  ghost predicate CountsOk(n: Counters, readers: seq<Reader>) {
    && n.waiters == Count(readers, Registered)
    && n.subs == Count(readers, Counted)
    && n.drops == Count(readers, Dropped)
  }

  /** `begun` is whether the subscription has been counted in yet. */
  predicate EndOk(e: End, begun: bool) {
    match e.once
    case Fresh => e.err == None && !e.done && e.counted == begun
    case Running(_, StoreErr, _) => e.err == None && !e.done && e.counted
    case Running(_, DecSubs, x) => e.err == Some(x) && !e.done && e.counted
    case Running(_, CloseDone, x) => e.err == Some(x) && !e.done && !e.counted
    case Done => e.err.Some? && e.done && !e.counted
    case Broken => false
  }

  predicate EndsLagged(e: End) {
    e.err == Some(ErrLagged) || (e.once.Running? && e.once.err == ErrLagged)
  }

  /** The call says what an atomic `Ring.Recv`, run at some moment during the
      call when `pub` frames were published, would have said; ended by the ring's
      own close, it has delivered all that was published before it began. */
  ghost predicate CallOk(log: seq<Msg>, cap: nat, c: Call) {
    && c.len > 0 && c.start <= c.atCall <= c.pub <= |log|
    && match c.outcome
       case Data(ms) => !c.missed && RingRecv(log[..c.pub], false, cap, c.start, c.len) == Data(ms)
       case Ended(ErrLagged) => RingRecv(log[..c.pub], false, cap, c.start, c.len) == Ended(ErrLagged)
       case Ended(ErrClosed) => c.stored || (!c.missed && c.atCall <= c.start)
       case Park => false
  }

  /** What the copy loop holds at offset `j` is the log's frame, unless the
      writer has since begun the lap that overwrites it. */
  ghost predicate CopiedOk(m: Memory, start: nat, dst: seq<Msg>) {
    && start + |dst| <= |m.log|
    && forall j | 0 <= j < |dst| :: dst[j] == m.log[start + j] || m.begin > start + j + m.cap
  }

  predicate Copying(pc: ReaderPc) { pc.RCopy? || pc.RValidate? }

  function Cursor(r: Reader): nat {
    if Copying(r.pc) then r.start else r.pos
  }

  predicate InCall(pc: ReaderPc) {
    !Subscribing(pc) && pc != RIdle && pc != RPanic
  }

  /** Where a reader that found nothing new may be. */
  predicate Waiting(pc: ReaderPc) {
    || pc.RCheckClosed? || pc.RLoadNotify? || pc.RAddWaiter? || pc.RRecheckPub? || pc.RRecheckClosed?
    || pc.RParked? || pc.RDropWaiter? || pc == RFinish(ErrClosed)
  }

  /** What the locals of `Recv` mean at each of its steps. */
  ghost predicate LocalsOk(m: Memory, r: Reader) {
    match r.pc
    case RCopy(pub) =>
      && r.h.atCall <= pub <= m.published && pub - r.start <= m.cap
      && r.start + |r.dst| == r.pos < pub && |r.dst| < r.len && CopiedOk(m, r.start, r.dst)
    case RValidate(pub) =>
      && r.h.atCall <= pub <= m.published && pub - r.start <= m.cap && r.start < pub
      && r.start + |r.dst| == r.pos && |r.dst| == Min(r.len, pub - r.start) && CopiedOk(m, r.start, r.dst)
    case RCountDrop(pub) => r.start == r.pos && r.pos + m.cap < pub <= m.published && !r.h.dropped
    case RFinish(e) =>
      r.start == r.pos && if e == ErrLagged then r.h.dropped && r.pos + m.cap < m.published else r.h.atCall <= r.pos
    case RCheckClosed => r.h.atCall <= r.pos
    case RPanic => false
    case _ => true
  }

  /** A registered reader either holds a channel already swapped out, or has
      seen everything there was to see when somebody last had to swap it. */
  ghost predicate SleepOk(sh: Shared, hold: Option<Writer>, r: Reader) {
    match r.pc
    case RAddWaiter(ch) => ch <= sh.notify
    case RRecheckPub(ch) => ch <= sh.notify
    case RRecheckClosed(ch) => ch <= sh.notify && (ch == sh.notify ==> sh.mem.published == r.pos || WakeDue(hold))
    case RParked(ch) =>
      && ch <= sh.notify
      && (ch == sh.notify ==> sh.mem.published == r.pos || WakeDue(hold))
      && (ch == sh.notify ==> !sh.closed || SwapDue(hold))
    case _ => true
  }

  /** A subscriber has been given a gap-free run of the log, and no more. */
  ghost predicate StreamOk(m: Memory, r: Reader) {
    && r.h.origin <= Cursor(r) <= |m.log| && Received(r.h.calls) == m.log[r.h.origin..Cursor(r)]
    && (forall k | 0 <= k < |r.h.calls| :: CallOk(m.log, m.cap, r.h.calls[k]))
  }

  ghost predicate LifeOk(m: Memory, r: Reader) {
    && EndOk(r.end, r.pc != RCountIn)
    && (Subscribing(r.pc) && !r.pc.RSubFinish? ==> r.end.once == Fresh)
    && (Subscribing(r.pc) ==> r.h == NEW_SUB.h && r.pos == 0)
    && (InCall(r.pc) ==> r.len > 0 && Cursor(r) <= r.h.atCall <= m.published)
    && (InCall(r.pc) && r.h.missed ==> m.begin > Cursor(r) + m.cap && !Waiting(r.pc))
    && (r.h.dropped ==> r.pc == RFinish(ErrLagged) || ((r.pc == RIdle || r.pc == RLoadErr) && r.end.err.Some?))
    && (EndsLagged(r.end) ==> r.h.dropped && Cursor(r) + m.cap < m.published)
  }

  ghost predicate ReaderOk(sh: Shared, hold: Option<Writer>, r: Reader) {
    LifeOk(sh.mem, r) && StreamOk(sh.mem, r) && LocalsOk(sh.mem, r) && SleepOk(sh, hold, r)
  }

  ghost predicate ReadersOk(s: State) {
    forall i | 0 <= i < |s.readers| :: ReaderOk(s.sh, Holder(s), s.readers[i])
  }

  ghost predicate ClosersOk(s: State) {
    && (forall c | 0 <= c < |s.closers| :: s.closers[c].sub < |s.readers| && !Subscribing(s.readers[s.closers[c].sub].pc))
  }

  ghost predicate Inv(s: State) {
    && LockOk(s) && HolderOk(s.sh.mem, Holder(s)) && SlotsOk(s.sh.mem, Holder(s))
    && ChannelsOk(s.sh, s.writers) && CountsOk(s.sh.n, s.readers) && ReadersOk(s) && ClosersOk(s)
  }

  // ------------------------------------------------------------ rely

  ghost predicate MemoryGrows(a: Memory, b: Memory) {
    && b.cap == a.cap && a.log <= b.log && |a.log| == a.published && |b.log| == b.published
    && a.begin <= b.begin
  }

  /** All that a step of somebody else may do, as a reader sees it. */
  ghost predicate Rely(a: Shared, ha: Option<Writer>, b: Shared, hb: Option<Writer>) {
    && MemoryGrows(a.mem, b.mem)
    && (a.closed ==> b.closed) && a.notify <= b.notify
    && (a.notify == b.notify ==>
          && (a.mem.published != b.mem.published ==> WakeDue(hb))
          && (WakeDue(ha) && a.n.waiters > 0 ==> WakeDue(hb))
          && (a.closed != b.closed ==> SwapDue(hb))
          && (SwapDue(ha) ==> SwapDue(hb)))
  }

  lemma CallsStable(a: seq<Msg>, b: seq<Msg>, cap: nat, calls: seq<Call>)
    requires a <= b
    requires forall k | 0 <= k < |calls| :: CallOk(a, cap, calls[k])
    ensures forall k | 0 <= k < |calls| :: CallOk(b, cap, calls[k])
  {
    forall k | 0 <= k < |calls| ensures CallOk(b, cap, calls[k]) {
      assert CallOk(a, cap, calls[k]);
      SliceOfPrefix(a, b, 0, calls[k].pub);
      assert a[..calls[k].pub] == a[0..calls[k].pub] && b[..calls[k].pub] == b[0..calls[k].pub];
    }
  }

  lemma StreamStable(a: Memory, b: Memory, r: Reader)
    requires MemoryGrows(a, b) && StreamOk(a, r) && LifeOk(a, r) && LocalsOk(a, r)
    ensures StreamOk(b, r) && LifeOk(b, r) && LocalsOk(b, r)
  {
    SliceOfPrefix(a.log, b.log, r.h.origin, Cursor(r));
    CallsStable(a.log, b.log, a.cap, r.h.calls);
  }

  lemma ReaderStable(a: Shared, ha: Option<Writer>, b: Shared, hb: Option<Writer>, r: Reader)
    requires Rely(a, ha, b, hb) && ReaderOk(a, ha, r)
    requires Registered(r) ==> a.n.waiters > 0
    ensures ReaderOk(b, hb, r)
  {
    StreamStable(a.mem, b.mem, r);
  }

  lemma ReadersStable(a: State, b: State)
    requires Rely(a.sh, Holder(a), b.sh, Holder(b)) && ReadersOk(a) && CountsOk(a.sh.n, a.readers)
    requires b.readers == a.readers
    ensures ReadersOk(b)
  {
    forall i | 0 <= i < |b.readers| ensures ReaderOk(b.sh, Holder(b), b.readers[i]) {
      if Registered(a.readers[i]) {
        CountPositive(a.readers, Registered, i);
      }
      ReaderStable(a.sh, Holder(a), b.sh, Holder(b), a.readers[i]);
    }
  }
}
