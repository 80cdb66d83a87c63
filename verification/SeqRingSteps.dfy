/** Every step of the lock-free-read ring keeps its invariant. */
module SeqRingSteps {
  import opened Fanout
  import opened SeqRing
  import opened SeqRingInv

  // ------------------------------------------------------------ writers

  lemma WriterKeepsLock(s: State, w: nat)
    requires LockOk(s) && HolderOk(s.sh.mem, Holder(s)) && Enabled(s, MoveWriter(w))
    ensures var s' := Apply(s, MoveWriter(w)); LockOk(s') && HolderOk(s'.sh.mem, Holder(s'))
    ensures var s' := Apply(s, MoveWriter(w));
            if InCrit(s.writers[w].pc) then Holder(s) == Some(s.writers[w])
            else s.writers[w].pc.WLock? || Holder(s') == Holder(s)
    ensures var s' := Apply(s, MoveWriter(w));
            if InCrit(s'.writers[w].pc) then Holder(s') == Some(s'.writers[w])
            else s.writers[w].pc.WUnlock? || Holder(s') == Holder(s)
    ensures s.writers[w].pc.WLock? ==> Holder(s) == None
  {
    var s' := Apply(s, MoveWriter(w));
    assert InCrit(s.writers[w].pc) <==> s.sh.lock == Some(w);
    forall i | 0 <= i < |s'.writers| ensures InCrit(s'.writers[i].pc) <==> s'.sh.lock == Some(i) {
      assert InCrit(s.writers[i].pc) <==> s.sh.lock == Some(i);
    }
  }

  /** Each store of the bracket, and the memory between them. */
  lemma StoreKeepsSlots(m: Memory, w: Writer, pc: WriterPc, place: Option<nat>)
    requires SlotsOk(m, Some(w)) && HolderOk(m, Some(w))
    requires w.pc.WBegin? || w.pc.WSlot? || w.pc.WPublish?
    requires pc == match w.pc { case WBegin(n) => WSlot(n) case WSlot(n) => WPublish(n) case _ => WWaiters }
    ensures SlotsOk(Store(m, w), Some(w.(pc := pc, place := place))) && MemoryGrows(m, Store(m, w))
  {
    var b := Store(m, w);
    if w.pc.WSlot? {
      forall q: nat | q < b.published && b.begin <= q + b.cap ensures b.buf[Slot(b.cap, q)] == Some(b.log[q]) {
        SlotsDiffer(m.cap, q, m.published);
      }
    }
  }

  lemma WriterKeepsSlots(s: State, w: nat)
    requires LockOk(s) && HolderOk(s.sh.mem, Holder(s)) && SlotsOk(s.sh.mem, Holder(s)) && Enabled(s, MoveWriter(w))
    ensures var s' := Apply(s, MoveWriter(w)); SlotsOk(s'.sh.mem, Holder(s')) && MemoryGrows(s.sh.mem, s'.sh.mem)
  {
    WriterKeepsLock(s, w);
    var x := s.writers[w];
    if x.pc.WBegin? || x.pc.WSlot? || x.pc.WPublish? {
      var y := WriterStep(s.sh, w, x).1;
      StoreKeepsSlots(s.sh.mem, x, y.pc, y.place);
    }
  }

  lemma WriterRely(s: State, w: nat)
    requires LockOk(s) && HolderOk(s.sh.mem, Holder(s)) && SlotsOk(s.sh.mem, Holder(s)) && Enabled(s, MoveWriter(w))
    ensures var s' := Apply(s, MoveWriter(w)); Rely(s.sh, Holder(s), s'.sh, Holder(s'))
  {
    WriterKeepsLock(s, w);
    WriterKeepsSlots(s, w);
  }

  lemma WakesKept(a: seq<Writer>, b: seq<Writer>, w: nat, ch: nat)
    requires |b| >= |a| && SomeoneWakes(a, ch)
    requires forall i | 0 <= i < |a| && i != w :: b[i] == a[i]
    requires w < |a| && (Wake(a[w]) == Some(ch) ==> Wake(b[w]) == Some(ch))
    ensures SomeoneWakes(b, ch)
  {
    var i :| 0 <= i < |a| && Wake(a[i]) == Some(ch);
    assert Wake(b[i]) == Some(ch);
  }

  lemma WriterKeepsChannels(sh: Shared, writers: seq<Writer>, w: nat)
    requires WellSized(sh.mem) && ChannelsOk(sh, writers) && w < |writers| && WriterEnabled(sh, writers[w])
    ensures ChannelsOk(WriterStep(sh, w, writers[w]).0, writers[w := WriterStep(sh, w, writers[w]).1])
  {
    var (b, x) := WriterStep(sh, w, writers[w]);
    var ws := writers[w := x];
    assert Wake(writers[w]).Some? ==> Wake(writers[w]).value !in sh.shut;
    forall ch: nat | ch < b.notify ensures ch in b.shut || SomeoneWakes(ws, ch) {
      if ch == sh.notify {
        assert Wake(ws[w]) == Some(ch);
      } else if ch !in b.shut {
        assert ch in sh.shut || SomeoneWakes(writers, ch);
        WakesKept(writers, ws, w, ch);
      }
    }
  }

  lemma WriterKeepsInv(s: State, w: nat)
    requires Inv(s) && Enabled(s, MoveWriter(w))
    ensures Inv(Apply(s, MoveWriter(w)))
  {
    WriterKeepsLock(s, w);
    WriterKeepsSlots(s, w);
    WriterKeepsChannels(s.sh, s.writers, w);
    WriterRely(s, w);
    ReadersStable(s, Apply(s, MoveWriter(w)));
  }

  // ------------------------------------------------------------ readers

  /** No slot a reader loads is empty, and unless the writer is a lap ahead it
      holds the frame of that very sequence number. */
  lemma SlotRead(m: Memory, hold: Option<Writer>, q: nat)
    requires SlotsOk(m, hold) && q < m.published
    ensures m.buf[Slot(m.cap, q)].Some?
    ensures m.begin <= q + m.cap ==> m.buf[Slot(m.cap, q)] == Some(m.log[q])
  {
  }

  lemma CopiedExtends(m: Memory, start: nat, dst: seq<Msg>, frame: Msg)
    requires CopiedOk(m, start, dst) && start + |dst| < |m.log|
    requires frame == m.log[start + |dst|] || m.begin > start + |dst| + m.cap
    ensures CopiedOk(m, start, dst + [frame])
  {
  }

  function WithFrame(r: Reader, frame: Msg): Reader
    requires r.pc.RCopy?
  {
    var more := r.pos + 1 < r.pc.pub && |r.dst| + 1 < r.len;
    r.(dst := r.dst + [frame], pos := r.pos + 1, pc := if more then r.pc else RValidate(r.pc.pub))
  }

  lemma FrameKeeps(sh: Shared, hold: Option<Writer>, r: Reader, frame: Msg)
    requires |sh.mem.log| == sh.mem.published && ReaderOk(sh, hold, r) && r.pc.RCopy?
    requires frame == sh.mem.log[r.pos] || sh.mem.begin > r.pos + sh.mem.cap
    ensures ReaderOk(sh, hold, WithFrame(r, frame))
  {
    CopiedExtends(sh.mem, r.start, r.dst, frame);
  }

  lemma CopyKeeps(sh: Shared, hold: Option<Writer>, r: Reader)
    requires SlotsOk(sh.mem, hold) && ReaderOk(sh, hold, r) && r.pc.RCopy?
    ensures ReaderOk(sh, hold, CopyStep(sh.mem, r))
  {
    SlotRead(sh.mem, hold, r.pos);
    var frame := sh.mem.buf[Slot(sh.mem.cap, r.pos)].value;
    assert CopyStep(sh.mem, r) == WithFrame(r, frame);
    FrameKeeps(sh, hold, r, frame);
  }

  /** The seqlock check: once `begin` has not run a lap past the first frame
      copied, every frame copied is the log's. */
  lemma ValidatedIsLog(m: Memory, start: nat, dst: seq<Msg>)
    requires CopiedOk(m, start, dst) && m.begin - start <= m.cap
    ensures dst == m.log[start..start + |dst|]
  {
    forall j | 0 <= j < |dst| ensures dst[j] == m.log[start + j] {}
  }

  lemma ReceivedMore(calls: seq<Call>, c: Call)
    ensures Received(calls + [c]) == Received(calls) + (match c.outcome case Data(ms) => ms case _ => [])
  {
    assert (calls + [c])[..|calls|] == calls;
  }

  lemma ReturnKeeps(m: Memory, r: Reader, pub: nat, stored: bool, o: Outcome)
    requires |m.log| == m.published && StreamOk(m, r) && LifeOk(m, r) && InCall(r.pc)
    requires CallOk(m.log, m.cap, Call(r.len, r.start, pub, r.h.atCall, r.h.missed, stored, o))
    requires if o.Data? then r.pc.RValidate? && r.start + |o.msgs| == r.pos <= |m.log|
                               && o.msgs == m.log[r.start..r.start + |o.msgs|]
             else !Copying(r.pc)
    requires r.h.dropped ==> r.end.err.Some?
    ensures StreamOk(m, Return(r, pub, stored, o)) && LifeOk(m, Return(r, pub, stored, o))
  {
    var x := Return(r, pub, stored, o);
    var c := Call(r.len, r.start, pub, r.h.atCall, r.h.missed, stored, o);
    ReceivedMore(r.h.calls, c);
    if o.Data? {
      assert m.log[r.h.origin..r.start] + m.log[r.start..r.pos] == m.log[r.h.origin..r.pos];
    }
    forall k | 0 <= k < |x.h.calls| ensures CallOk(m.log, m.cap, x.h.calls[k]) {
      assert k < |r.h.calls| ==> x.h.calls[k] == r.h.calls[k];
    }
  }

  lemma ValidateKeeps(sh: Shared, hold: Option<Writer>, r: Reader)
    requires |sh.mem.log| == sh.mem.published && ReaderOk(sh, hold, r) && r.pc.RValidate?
    ensures ReaderOk(sh, hold, LoadStep(sh, r))
  {
    if sh.mem.begin - r.start <= sh.mem.cap {
      ValidatedKeeps(sh, hold, r);
    }
  }

  lemma ValidatedKeeps(sh: Shared, hold: Option<Writer>, r: Reader)
    requires |sh.mem.log| == sh.mem.published && ReaderOk(sh, hold, r) && r.pc.RValidate? && sh.mem.begin - r.start <= sh.mem.cap
    ensures ReaderOk(sh, hold, LoadStep(sh, r))
  {
    var m, pub, n := sh.mem, r.pc.pub, |r.dst|;
    ValidatedIsLog(m, r.start, r.dst);
    assert m.log[..pub][r.start..r.start + n] == m.log[r.start..r.start + n];
    ReturnKeeps(m, r, pub, false, Data(r.dst));
  }

  lemma LoadErrKeeps(sh: Shared, hold: Option<Writer>, r: Reader)
    requires |sh.mem.log| == sh.mem.published && ReaderOk(sh, hold, r) && r.pc.RLoadErr?
    ensures ReaderOk(sh, hold, LoadStep(sh, r))
  {
    if r.end.err.Some? {
      ReturnKeeps(sh.mem, r.(start := r.pos), sh.mem.published, true, Ended(r.end.err.value));
    }
  }

  predicate PlainLoad(pc: ReaderPc) {
    Loading(pc) && !pc.RLoadErr? && !pc.RValidate?
  }

  lemma LoadKeepsStream(sh: Shared, r: Reader)
    requires |sh.mem.log| == sh.mem.published && PlainLoad(r.pc)
    requires LifeOk(sh.mem, r) && StreamOk(sh.mem, r)
    ensures StreamOk(sh.mem, LoadStep(sh, r))
  {
  }

  lemma LoadKeepsLife(sh: Shared, hold: Option<Writer>, r: Reader)
    requires |sh.mem.log| == sh.mem.published && PlainLoad(r.pc)
    requires sh.mem.cap > 0 && sh.mem.begin <= sh.mem.published + 1
    requires LifeOk(sh.mem, r) && LocalsOk(sh.mem, r) && Cursor(r) <= |sh.mem.log| && SleepOk(sh, hold, r)
    ensures LifeOk(sh.mem, LoadStep(sh, r))
  {
  }

  lemma LoadKeepsLocals(sh: Shared, hold: Option<Writer>, r: Reader)
    requires |sh.mem.log| == sh.mem.published && PlainLoad(r.pc)
    requires sh.mem.cap > 0 && sh.mem.begin <= sh.mem.published + 1
    requires LifeOk(sh.mem, r) && LocalsOk(sh.mem, r) && Cursor(r) <= |sh.mem.log| && SleepOk(sh, hold, r)
    ensures LocalsOk(sh.mem, LoadStep(sh, r)) && SleepOk(sh, hold, LoadStep(sh, r))
  {
  }

  lemma LoadKeeps(sh: Shared, hold: Option<Writer>, r: Reader)
    requires |sh.mem.log| == sh.mem.published && ReaderOk(sh, hold, r) && PlainLoad(r.pc)
    requires sh.mem.cap > 0 && sh.mem.begin <= sh.mem.published + 1
    ensures ReaderOk(sh, hold, LoadStep(sh, r))
  {
    LoadKeepsStream(sh, r);
    LoadKeepsLife(sh, hold, r);
    LoadKeepsLocals(sh, hold, r);
  }

  lemma CountKeeps(sh: Shared, hold: Option<Writer>, r: Reader)
    requires ReaderOk(sh, hold, r) && Counting(r.pc)
    ensures ReaderOk(sh, hold, CountStep(sh.n, r).1)
  {
  }

  lemma FinishKeeps(sh: Shared, hold: Option<Writer>, r: Reader)
    requires |sh.mem.log| == sh.mem.published && ReaderOk(sh, hold, r) && AtOnce(r.pc) && OnceEnabled(r.end, None)
    ensures ReaderOk(sh, hold, FinishStep(sh, r).1)
  {
    if r.end.once.Done? && r.pc.RFinish? {
      ReturnKeeps(sh.mem, r, sh.mem.published, false, Ended(r.pc.err));
    }
  }

  lemma ReaderKeepsOk(sh: Shared, hold: Option<Writer>, r: Reader)
    requires SlotsOk(sh.mem, hold) && ReaderOk(sh, hold, r) && ReaderEnabled(sh, r)
    ensures ReaderOk(sh, hold, ReaderStep(sh, r).1)
  {
    if Counting(r.pc) {
      CountKeeps(sh, hold, r);
    } else if AtOnce(r.pc) {
      FinishKeeps(sh, hold, r);
    } else if r.pc.RCopy? {
      CopyKeeps(sh, hold, r);
    } else if r.pc.RLoadErr? {
      LoadErrKeeps(sh, hold, r);
    } else if r.pc.RValidate? {
      ValidateKeeps(sh, hold, r);
    } else {
      LoadKeeps(sh, hold, r);
    }
  }

  function Bit(b: bool): int { if b then 1 else 0 }

  /** A change of the counters that is the change in what they count. */
  ghost predicate CountsMove(a: Counters, r: Reader, b: Counters, x: Reader) {
    && b.waiters - a.waiters == Bit(Registered(x)) - Bit(Registered(r))
    && b.subs - a.subs == Bit(Counted(x)) - Bit(Counted(r))
    && b.drops - a.drops == Bit(Dropped(x)) - Bit(Dropped(r))
  }

  lemma OnceMoves(n: Counters, e: End, who: Option<nat>, err: Error)
    requires EndOk(e, true)
    ensures var (m, x) := OnceStep(n, e, who, err);
            m == n.(subs := m.subs) && m.subs - n.subs == Bit(x.counted) - Bit(e.counted)
  {
  }

  lemma CountStepMoves(n: Counters, r: Reader)
    requires Counting(r.pc) && (r.pc.RCountIn? ==> !r.end.counted) && (r.pc.RCountDrop? ==> !r.h.dropped)
    ensures CountsMove(n, r, CountStep(n, r).0, CountStep(n, r).1)
    ensures Subscribing(CountStep(n, r).1.pc) ==> Subscribing(r.pc)
  {
  }

  lemma FinishStepMoves(sh: Shared, r: Reader)
    requires AtOnce(r.pc) && EndOk(r.end, true)
    ensures CountsMove(sh.n, r, FinishStep(sh, r).0, FinishStep(sh, r).1)
    ensures Subscribing(FinishStep(sh, r).1.pc) ==> Subscribing(r.pc)
  {
    OnceMoves(sh.n, r.end, None, if r.pc.RFinish? then r.pc.err else ErrClosed);
  }

  lemma LoadStepMoves(sh: Shared, r: Reader)
    requires Loading(r.pc)
    ensures CountsMove(sh.n, r, sh.n, LoadStep(sh, r))
    ensures Subscribing(LoadStep(sh, r).pc) ==> Subscribing(r.pc)
  {
  }

  lemma ReaderMoves(sh: Shared, hold: Option<Writer>, r: Reader)
    requires SlotsOk(sh.mem, hold) && ReaderEnabled(sh, r) && LifeOk(sh.mem, r) && LocalsOk(sh.mem, r)
    ensures CountsMove(sh.n, r, ReaderStep(sh, r).0, ReaderStep(sh, r).1)
    ensures Subscribing(ReaderStep(sh, r).1.pc) ==> Subscribing(r.pc)
  {
    if Counting(r.pc) {
      CountStepMoves(sh.n, r);
    } else if AtOnce(r.pc) {
      FinishStepMoves(sh, r);
    } else if !r.pc.RCopy? {
      LoadStepMoves(sh, r);
    }
  }

  lemma ReaderCounts(readers: seq<Reader>, n: Counters, i: nat, b: Counters, x: Reader)
    requires CountsOk(n, readers) && i < |readers| && CountsMove(n, readers[i], b, x)
    ensures CountsOk(b, readers[i := x])
  {
    CountUpdate(readers, Registered, i, x);
    CountUpdate(readers, Counted, i, x);
    CountUpdate(readers, Dropped, i, x);
  }

  /** Readers do not look at the counters. */
  lemma CountersUnseen(sh: Shared, n: Counters, hold: Option<Writer>, r: Reader)
    requires ReaderOk(sh, hold, r)
    ensures ReaderOk(sh.(n := n), hold, r)
  {
  }

  lemma ReplaceAmong(a: Shared, b: Shared, hold: Option<Writer>, xs: seq<Reader>, ys: seq<Reader>, i: nat)
    requires b == a.(n := b.n) && i < |xs| == |ys| && ys == xs[i := ys[i]] && ReaderOk(a, hold, ys[i])
    requires forall k | 0 <= k < |xs| :: ReaderOk(a, hold, xs[k])
    ensures forall k | 0 <= k < |ys| :: ReaderOk(b, hold, ys[k])
  {
    forall k | 0 <= k < |ys| ensures ReaderOk(b, hold, ys[k]) {
      assert k != i ==> ys[k] == xs[k];
      CountersUnseen(a, b.n, hold, ys[k]);
    }
  }

  /** One reader changes, and the others cannot tell. */
  lemma ReplaceReader(s: State, i: nat, n: Counters, r: Reader)
    requires Inv(s) && i < |s.readers|
    requires CountsMove(s.sh.n, s.readers[i], n, r) && ReaderOk(s.sh, Holder(s), r)
    requires Subscribing(r.pc) ==> Subscribing(s.readers[i].pc)
    ensures Inv(s.(sh := s.sh.(n := n), readers := s.readers[i := r]))
  {
    var s' := s.(sh := s.sh.(n := n), readers := s.readers[i := r]);
    assert Holder(s') == Holder(s);
    ReaderCounts(s.readers, s.sh.n, i, n, r);
    ReplaceAmong(s.sh, s'.sh, Holder(s), s.readers, s'.readers, i);
  }

  lemma ReaderKeepsInv(s: State, i: nat)
    requires Inv(s) && Enabled(s, MoveReader(i))
    ensures Inv(Apply(s, MoveReader(i)))
  {
    var r, hold := s.readers[i], Holder(s);
    assert ReaderOk(s.sh, hold, r);
    var (n, x) := ReaderStep(s.sh, r);
    ReaderKeepsOk(s.sh, hold, r);
    ReaderMoves(s.sh, hold, r);
    ReplaceReader(s, i, n, x);
  }

  // ------------------------------------------------------------ the rest

  lemma CloserKeepsOk(sh: Shared, hold: Option<Writer>, r: Reader, c: nat)
    requires ReaderOk(sh, hold, r) && !Subscribing(r.pc)
    ensures ReaderOk(sh, hold, r.(end := OnceStep(sh.n, r.end, Some(c), ErrClosed).1))
  {
  }

  lemma CloserKeepsInv(s: State, c: nat)
    requires Inv(s) && Enabled(s, MoveCloser(c))
    ensures Inv(Apply(s, MoveCloser(c)))
  {
    var i := s.closers[c].sub;
    var r := s.readers[i];
    assert ReaderOk(s.sh, Holder(s), r);
    if r.end.once.Done? {
      CloserLeaves(s, c);
    } else {
      var (n, e) := OnceStep(s.sh.n, r.end, Some(c), ErrClosed);
      CloserKeepsOk(s.sh, Holder(s), r, c);
      OnceMoves(s.sh.n, r.end, Some(c), ErrClosed);
      ReplaceReader(s, i, n, r.(end := e));
    }
  }

  lemma CloserLeaves(s: State, c: nat)
    requires Inv(s) && c < |s.closers|
    ensures Inv(s.(closers := s.closers[c := Closer(s.closers[c].sub, true)]))
  {
    var s' := s.(closers := s.closers[c := Closer(s.closers[c].sub, true)]);
    assert Holder(s') == Holder(s);
  }

  lemma SpawnKeepsInv(s: State, job: Job)
    requires Inv(s) && Enabled(s, Spawn(job))
    ensures Inv(Apply(s, Spawn(job)))
  {
    var s' := Apply(s, Spawn(job));
    assert Holder(s') == Holder(s);
    forall ch: nat | ch < s'.sh.notify ensures ch in s'.sh.shut || SomeoneWakes(s'.writers, ch) {
      if ch !in s.sh.shut {
        assert SomeoneWakes(s.writers, ch);
        var i :| 0 <= i < |s.writers| && Wake(s.writers[i]) == Some(ch);
        assert Wake(s'.writers[i]) == Some(ch);
      }
    }
  }

  lemma SubscribeKeepsInv(s: State)
    requires Inv(s) && Enabled(s, Subscribe)
    ensures Inv(Apply(s, Subscribe))
  {
    var s' := Apply(s, Subscribe);
    NewSubCounts(s.readers);
    assert Holder(s') == Holder(s);
    forall i | 0 <= i < |s'.readers| ensures ReaderOk(s'.sh, Holder(s'), s'.readers[i]) {
      if i < |s.readers| {
        assert ReaderOk(s.sh, Holder(s), s.readers[i]);
      }
    }
  }

  lemma NewSubCounts(rs: seq<Reader>)
    ensures Count(rs + [NEW_SUB], Registered) == Count(rs, Registered)
    ensures Count(rs + [NEW_SUB], Counted) == Count(rs, Counted)
    ensures Count(rs + [NEW_SUB], Dropped) == Count(rs, Dropped)
  {
    CountAppend(rs, Registered, NEW_SUB);
    CountAppend(rs, Counted, NEW_SUB);
    CountAppend(rs, Dropped, NEW_SUB);
  }

  lemma CallRecvKeepsInv(s: State, i: nat, len: nat)
    requires Inv(s) && Enabled(s, CallRecv(i, len))
    ensures Inv(Apply(s, CallRecv(i, len)))
  {
    assert ReaderOk(s.sh, Holder(s), s.readers[i]);
    var x := Apply(s, CallRecv(i, len)).readers[i];
    ReplaceReader(s, i, s.sh.n, x);
    assert s.sh.(n := s.sh.n) == s.sh;
  }

  lemma StepKeepsInv(s: State, step: Step)
    requires Inv(s) && Enabled(s, step)
    ensures Inv(Apply(s, step))
  {
    match step
    case Spawn(job) => SpawnKeepsInv(s, job);
    case Subscribe => SubscribeKeepsInv(s);
    case CallRecv(i, len) => CallRecvKeepsInv(s, i, len);
    case CallClose(i) =>
      assert Holder(Apply(s, step)) == Holder(s);
    case MoveWriter(w) => WriterKeepsInv(s, w);
    case MoveReader(i) => ReaderKeepsInv(s, i);
    case MoveCloser(c) => CloserKeepsInv(s, c);
  }

  lemma InitInv(s: State, capacity: int)
    requires Init(s, capacity)
    ensures Inv(s)
  {
    RingSizeIsPow2(capacity);
  }

  /** The invariant holds all along every run. */
  lemma {:induction false} RunInv(tr: seq<State>, capacity: int, k: nat)
    requires Run(tr, capacity) && k < |tr|
    ensures Inv(tr[k])
  {
    if k == 0 {
      InitInv(tr[0], capacity);
    } else {
      RunInv(tr, capacity, k - 1);
      assert Follows(tr, k);
      var step :| Enabled(tr[k - 1], step) && tr[k] == Apply(tr[k - 1], step);
      StepKeepsInv(tr[k - 1], step);
    }
  }
}
