/** What the lock-free-read ring promises, over every run. */
module SeqRingTheorems {
  import opened Fanout
  import opened SeqRing
  import opened SeqRingInv
  import opened SeqRingSteps

  // ------------------------------------------------------------ delivery

  lemma StepGrows(s: State, step: Step)
    requires Inv(s) && Enabled(s, step)
    ensures MemoryGrows(s.sh.mem, Apply(s, step).sh.mem)
    ensures Apply(s, step).sh.mem.published <= s.sh.mem.published + 1
  {
    match step
    case MoveWriter(w) =>
      WriterKeepsLock(s, w);
      WriterKeepsSlots(s, w);
    case _ =>
  }

  lemma LogStep(tr: seq<State>, capacity: int, k: nat)
    requires Run(tr, capacity) && 0 < k < |tr|
    ensures MemoryGrows(tr[k - 1].sh.mem, tr[k].sh.mem)
    ensures tr[k].sh.mem.published <= tr[k - 1].sh.mem.published + 1
  {
    RunInv(tr, capacity, k - 1);
    assert Follows(tr, k);
    var step :| Enabled(tr[k - 1], step) && tr[k] == Apply(tr[k - 1], step);
    StepGrows(tr[k - 1], step);
  }

  lemma {:induction false} CapIsFixed(tr: seq<State>, capacity: int, k: nat)
    requires Run(tr, capacity) && k < |tr|
    ensures tr[k].sh.mem.cap == RingSize(capacity)
  {
    if k > 0 {
      CapIsFixed(tr, capacity, k - 1);
      LogStep(tr, capacity, k);
    }
  }

  /** A subscriber's calls, one after another, hand it a gap-free run of the log
      from where it subscribed: nothing twice, nothing skipped, nothing of
      another lap; and between calls its cursor is the end of that run. */
  lemma StreamIsLog(tr: seq<State>, capacity: int, k: nat, i: nat)
    requires Run(tr, capacity) && k < |tr| && i < |tr[k].readers|
    ensures var r, log := tr[k].readers[i], tr[k].sh.mem.log;
            var got := Received(r.h.calls);
            && r.h.origin + |got| <= |log| && got == log[r.h.origin..r.h.origin + |got|]
            && (r.pc == RIdle ==> r.pos == r.h.origin + |got|)
  {
    RunInv(tr, capacity, k);
    assert ReaderOk(tr[k].sh, Holder(tr[k]), tr[k].readers[i]);
  }

  /** Once a validation has failed, the call gives no data: it never parks, its
      reader is already a full lap behind what the writer has begun, and it
      returns `ErrLagged` or the error the subscription was ended with. */
  lemma FailedValidationIsFinal(tr: seq<State>, capacity: int, k: nat, i: nat)
    requires Run(tr, capacity) && k < |tr| && i < |tr[k].readers|
    ensures var r := tr[k].readers[i];
            && (InCall(r.pc) && r.h.missed ==> tr[k].sh.mem.begin > Cursor(r) + RingSize(capacity) && !Waiting(r.pc))
            && forall c | 0 <= c < |r.h.calls| && r.h.calls[c].missed ::
                 r.h.calls[c].outcome == Ended(ErrLagged) || (r.h.calls[c].stored && r.h.calls[c].outcome == Ended(ErrClosed))
  {
    RunInv(tr, capacity, k);
    CapIsFixed(tr, capacity, k);
    var r := tr[k].readers[i];
    assert ReaderOk(tr[k].sh, Holder(tr[k]), r);
    forall c | 0 <= c < |r.h.calls| && r.h.calls[c].missed
      ensures r.h.calls[c].outcome == Ended(ErrLagged) || (r.h.calls[c].stored && r.h.calls[c].outcome == Ended(ErrClosed))
    {
      assert CallOk(tr[k].sh.mem.log, tr[k].sh.mem.cap, r.h.calls[c]);
    }
  }

  /** The retry cannot spin: it finds its reader lapped and drops it as soon as it
      loads `published`, unless the very frame it was lapped by is half published,
      and its writer, who can move, is at most two stores from publishing it. */
  lemma RetryCannotSpin(tr: seq<State>, capacity: int, k: nat, i: nat)
    requires Run(tr, capacity) && k < |tr| && i < |tr[k].readers|
    requires InCall(tr[k].readers[i].pc) && tr[k].readers[i].h.missed
    ensures var s, r := tr[k], tr[k].readers[i];
            var due := Cursor(r) + RingSize(capacity);
            && (due < s.sh.mem.published
                || (s.sh.mem.published == due && Bracket(Holder(s)) && WriterEnabled(s.sh, Holder(s).value)))
            && (r.pc == RLoadPub && due < s.sh.mem.published ==>
                  Enabled(s, MoveReader(i)) && Apply(s, MoveReader(i)).readers[i].pc == RCountDrop(s.sh.mem.published))
  {
    FailedValidationIsFinal(tr, capacity, k, i);
    RunInv(tr, capacity, k);
    CapIsFixed(tr, capacity, k);
    assert ReaderOk(tr[k].sh, Holder(tr[k]), tr[k].readers[i]);
  }

  /** A call ended by the ring's close has delivered everything published before
      that call began, and nothing else was ever published exactly if nothing was
      during the call. */
  lemma ClosedRingWasRead(tr: seq<State>, capacity: int, k: nat, i: nat, c: nat)
    requires Run(tr, capacity) && k < |tr| && i < |tr[k].readers| && c < |tr[k].readers[i].h.calls|
    requires tr[k].readers[i].h.calls[c].outcome == Ended(ErrClosed) && !tr[k].readers[i].h.calls[c].stored
    ensures var call := tr[k].readers[i].h.calls[c]; call.start == call.atCall <= call.pub
    ensures var call := tr[k].readers[i].h.calls[c]; call.pub == call.atCall <==> call.start == call.pub
  {
    RunInv(tr, capacity, k);
    assert ReaderOk(tr[k].sh, Holder(tr[k]), tr[k].readers[i]);
    assert CallOk(tr[k].sh.mem.log, tr[k].sh.mem.cap, tr[k].readers[i].h.calls[c]);
  }

  /** Inside `Broadcast`, past the look at `closed`. */
  predicate Publishing(pc: WriterPc) {
    pc.WLoad? || pc.WBegin? || pc.WSlot? || pc.WPublish?
  }

  ghost predicate ClosedQuiet(s: State) {
    s.sh.closed ==> forall w | 0 <= w < |s.writers| :: !Publishing(s.writers[w].pc)
  }

  lemma StepStaysClosed(s: State, step: Step)
    requires LockOk(s) && ClosedQuiet(s) && Enabled(s, step)
    ensures ClosedQuiet(Apply(s, step))
    ensures s.sh.closed ==> Apply(s, step).sh.closed && Apply(s, step).sh.mem == s.sh.mem
  {
    var t := Apply(s, step);
    if t.sh.closed {
      forall w | 0 <= w < |t.writers| ensures !Publishing(t.writers[w].pc) {
        if w < |s.writers| && !s.sh.closed {
          assert InCrit(s.writers[w].pc) <==> s.sh.lock == Some(w);
          assert step.MoveWriter? && (InCrit(s.writers[step.w].pc) <==> s.sh.lock == Some(step.w));
        }
      }
    }
  }

  lemma {:induction false} RunClosedQuiet(tr: seq<State>, capacity: int, k: nat)
    requires Run(tr, capacity) && k < |tr|
    ensures ClosedQuiet(tr[k])
  {
    if k > 0 {
      RunClosedQuiet(tr, capacity, k - 1);
      RunInv(tr, capacity, k - 1);
      assert Follows(tr, k);
      var step :| Enabled(tr[k - 1], step) && tr[k] == Apply(tr[k - 1], step);
      StepStaysClosed(tr[k - 1], step);
    }
  }

  /** Once the ring is closed nothing is ever stored or published again, whoever
      was already inside `Broadcast`. */
  lemma {:induction false} ClosedIsFinal(tr: seq<State>, capacity: int, j: nat, k: nat)
    requires Run(tr, capacity) && j <= k < |tr| && tr[j].sh.closed
    ensures tr[k].sh.closed && tr[k].sh.mem == tr[j].sh.mem
  {
    if j < k {
      ClosedIsFinal(tr, capacity, j, k - 1);
      ClosedStep(tr, capacity, k);
    }
  }

  lemma ClosedStep(tr: seq<State>, capacity: int, k: nat)
    requires Run(tr, capacity) && 0 < k < |tr| && tr[k - 1].sh.closed
    ensures tr[k].sh.closed && tr[k].sh.mem == tr[k - 1].sh.mem
  {
    RunInv(tr, capacity, k - 1);
    RunClosedQuiet(tr, capacity, k - 1);
    assert Follows(tr, k);
    var step :| Enabled(tr[k - 1], step) && tr[k] == Apply(tr[k - 1], step);
    StepStaysClosed(tr[k - 1], step);
  }

  // ------------------------------------------------------------ accounts

  /** `waiters`, `subs` and `drops` are what their names say at every instant,
      and a subscription is dropped at most once. */
  lemma CountersAreExact(tr: seq<State>, capacity: int, k: nat)
    requires Run(tr, capacity) && k < |tr|
    ensures tr[k].sh.n.waiters == Count(tr[k].readers, Registered)
    ensures tr[k].sh.n.subs == Count(tr[k].readers, Counted)
    ensures tr[k].sh.n.drops == Count(tr[k].readers, Dropped)
    ensures forall i | 0 <= i < |tr[k].readers| && tr[k].readers[i].end.once == Done :: !tr[k].readers[i].end.counted
  {
    RunInv(tr, capacity, k);
    forall i | 0 <= i < |tr[k].readers| && tr[k].readers[i].end.once == Done ensures !tr[k].readers[i].end.counted {
      assert ReaderOk(tr[k].sh, Holder(tr[k]), tr[k].readers[i]);
    }
  }

  /** No goroutine closes a closed channel or loads an empty slot. */
  lemma NothingPanics(tr: seq<State>, capacity: int, k: nat)
    requires Run(tr, capacity) && k < |tr|
    ensures forall w | 0 <= w < |tr[k].writers| :: tr[k].writers[w].pc != WPanic
    ensures forall i | 0 <= i < |tr[k].readers| :: tr[k].readers[i].pc != RPanic && tr[k].readers[i].end.once != Broken
  {
    RunInv(tr, capacity, k);
    forall i | 0 <= i < |tr[k].readers| ensures tr[k].readers[i].pc != RPanic && tr[k].readers[i].end.once != Broken {
      assert ReaderOk(tr[k].sh, Holder(tr[k]), tr[k].readers[i]);
    }
  }

  // ------------------------------------------------------------ wakeups

  /** Goroutine `w` can move now, and is on its way to close channel `ch`: it
      carries it, or holds the lock at a step from which it must take it. */
  ghost predicate MustWake(s: State, w: nat, ch: nat) {
    && w < |s.writers| && WriterEnabled(s.sh, s.writers[w])
    && (Wake(s.writers[w]) == Some(ch)
        || (ch == s.sh.notify && s.sh.lock == Some(w)
            && (s.writers[w].pc == WSwap || (s.writers[w].pc == WWaiters && s.sh.n.waiters > 0))))
  }

  /** No lost wakeup: a parked reader with a frame past its cursor, or a closed
      ring, can move already, or some goroutine that can move must still close
      the very channel it sleeps on. */
  lemma NoLostWakeup(tr: seq<State>, capacity: int, k: nat, i: nat)
    requires Run(tr, capacity) && k < |tr| && i < |tr[k].readers| && tr[k].readers[i].pc.RParked?
    requires tr[k].sh.mem.published != tr[k].readers[i].pos || tr[k].sh.closed
    ensures ReaderEnabled(tr[k].sh, tr[k].readers[i]) || exists w: nat :: MustWake(tr[k], w, tr[k].readers[i].pc.ch)
  {
    RunInv(tr, capacity, k);
    SleeperIsWoken(tr[k], i);
  }

  lemma SleeperIsWoken(s: State, i: nat)
    requires Inv(s) && i < |s.readers| && s.readers[i].pc.RParked? && (s.sh.mem.published != s.readers[i].pos || s.sh.closed)
    ensures ReaderEnabled(s.sh, s.readers[i]) || exists w: nat :: MustWake(s, w, s.readers[i].pc.ch)
  {
    var r := s.readers[i];
    assert ReaderOk(s.sh, Holder(s), r);
    var ch := r.pc.ch;
    if ch == s.sh.notify {
      CountPositive(s.readers, Registered, i);
      assert MustWake(s, s.sh.lock.value, ch);
    } else if ch !in s.sh.shut {
      CarrierWakes(s, ch);
    }
  }

  lemma CarrierWakes(s: State, ch: nat)
    requires ChannelsOk(s.sh, s.writers) && ch < s.sh.notify && ch !in s.sh.shut && LockOk(s)
    ensures exists w: nat :: MustWake(s, w, ch)
  {
    assert SomeoneWakes(s.writers, ch);
    var w :| 0 <= w < |s.writers| && Wake(s.writers[w]) == Some(ch);
    assert s.writers[w].pc != WPanic;
    assert MustWake(s, w, ch);
  }

  /** A goroutine in `Broadcast` or `Close` is stuck only behind the lock, and
      whoever holds the lock can move. */
  lemma WritersNeverStuck(tr: seq<State>, capacity: int, k: nat, w: nat)
    requires Run(tr, capacity) && k < |tr| && w < |tr[k].writers| && tr[k].writers[w].pc != WDone
    ensures || WriterEnabled(tr[k].sh, tr[k].writers[w])
            || (tr[k].sh.lock.Some? && tr[k].sh.lock.value < |tr[k].writers|
                && WriterEnabled(tr[k].sh, tr[k].writers[tr[k].sh.lock.value]))
  {
    RunInv(tr, capacity, k);
    NothingPanics(tr, capacity, k);
    if tr[k].sh.lock.Some? {
      var h := tr[k].sh.lock.value;
      assert InCrit(tr[k].writers[h].pc) <==> tr[k].sh.lock == Some(h);
    }
  }

  // ------------------------------------------------------------ undisturbed

  /** Only reader `i` moves, `n` times. */
  ghost function Solo(s: State, i: nat, n: nat): State
    decreases n
  {
    if n > 0 && Enabled(s, MoveReader(i)) then Solo(Apply(s, MoveReader(i)), i, n - 1) else s
  }

  ghost predicate Answers(s: State, i: nat, n: nat, o: Outcome) {
    var t := Solo(s, i, n);
    && i < |t.readers| && t.readers[i].pc == RIdle
    && |t.readers[i].h.calls| > 0 && t.readers[i].h.calls[|t.readers[i].h.calls| - 1].outcome == o
  }

  /** The call reader `i` is in comes to `o` if nobody else moves. */
  ghost predicate WillAnswer(s: State, i: nat, o: Outcome) {
    exists n: nat :: Answers(s, i, n, o)
  }

  lemma AnswersLater(s: State, i: nat, n: nat, o: Outcome)
    requires Enabled(s, MoveReader(i)) && Answers(Apply(s, MoveReader(i)), i, n, o)
    ensures Answers(s, i, n + 1, o)
  {
  }

  /** Reader `i` has copied one frame more, and nobody else moved. */
  ghost predicate CopiedOne(s: State, t: State, i: nat)
    requires i < |s.readers|
  {
    && t.sh == s.sh && t.writers == s.writers && |t.readers| == |s.readers|
    && var r, x := s.readers[i], t.readers[i];
    && x.start == r.start <= |s.sh.mem.log| && x.len == r.len && x.end == r.end
    && r.pos < s.sh.mem.published && x.pos == r.pos + 1
    && (x.pc == RCopy(s.sh.mem.published) || x.pc == RValidate(s.sh.mem.published))
  }

  lemma CopyIsOne(s: State, i: nat)
    requires Inv(s) && i < |s.readers| && !Bracket(Holder(s))
    requires s.readers[i].pc == RCopy(s.sh.mem.published) && s.readers[i].end.once != Broken
    ensures Enabled(s, MoveReader(i)) && CopiedOne(s, Apply(s, MoveReader(i)), i)
  {
    assert ReaderOk(s.sh, Holder(s), s.readers[i]);
    SlotRead(s.sh.mem, Holder(s), s.readers[i].pos);
  }

  lemma OneCopy(s: State, i: nat) returns (t: State)
    requires Inv(s) && i < |s.readers| && !Bracket(Holder(s))
    requires s.readers[i].pc == RCopy(s.sh.mem.published) && s.readers[i].end.once != Broken
    ensures Enabled(s, MoveReader(i)) && t == Apply(s, MoveReader(i)) && Inv(t) && CopiedOne(s, t, i)
  {
    CopyIsOne(s, i);
    t := Apply(s, MoveReader(i));
    ReaderKeepsInv(s, i);
  }

  /** From inside the copy loop with no frame half published, the loop runs to its
      end and validates. */
  lemma {:induction false} CopyAnswers(s: State, i: nat)
    requires Inv(s) && i < |s.readers| && !Bracket(Holder(s))
    requires s.readers[i].pc == RCopy(s.sh.mem.published) && s.readers[i].end.once != Broken
    ensures var r, m := s.readers[i], s.sh.mem;
            r.start <= |m.log| && WillAnswer(s, i, RingRecv(m.log, s.sh.closed, m.cap, r.start, r.len))
    decreases s.sh.mem.published - s.readers[i].pos
  {
    var s1 := OneCopy(s, i);
    var r, m := s.readers[i], s.sh.mem;
    var o := RingRecv(m.log, s.sh.closed, m.cap, r.start, r.len);
    var n: nat;
    if s1.readers[i].pc.RCopy? {
      CopyAnswers(s1, i);
      n :| Answers(s1, i, n, o);
    } else {
      assert ReaderOk(s1.sh, Holder(s1), s1.readers[i]);
      ValidateAnswers(s1, i);
      n := 1;
    }
    AnswersLater(s, i, n, o);
  }

  lemma ValidateAnswers(s: State, i: nat)
    requires SlotsOk(s.sh.mem, Holder(s)) && !Bracket(Holder(s)) && i < |s.readers| && ReaderOk(s.sh, Holder(s), s.readers[i])
    requires s.readers[i].pc == RValidate(s.sh.mem.published)
    ensures var r, m := s.readers[i], s.sh.mem;
            r.start <= |m.log| && Answers(s, i, 1, RingRecv(m.log, s.sh.closed, m.cap, r.start, r.len))
  {
    var r, m := s.readers[i], s.sh.mem;
    ValidatedIsLog(m, r.start, r.dst);
    var s1 := Apply(s, MoveReader(i));
    assert s1.readers[i] == Return(r, r.pc.pub, false, Data(r.dst));
    assert Solo(s, i, 1) == Solo(s1, i, 0) == s1;
  }

  lemma FirstLoad(s: State, i: nat) returns (t: State)
    requires Inv(s) && i < |s.readers| && s.readers[i].pc == RLoadErr && s.readers[i].end.once == Fresh
    ensures Enabled(s, MoveReader(i)) && t == Apply(s, MoveReader(i)) && Inv(t)
    ensures t == s.(readers := s.readers[i := s.readers[i].(pc := RLoadPub)])
  {
    assert ReaderOk(s.sh, Holder(s), s.readers[i]);
    t := Apply(s, MoveReader(i));
    ReaderKeepsInv(s, i);
  }

  lemma SecondLoad(s: State, i: nat) returns (t: State)
    requires Inv(s) && i < |s.readers| && s.readers[i].pc == RLoadPub && s.readers[i].end.once == Fresh
    requires s.readers[i].pos < s.sh.mem.published <= s.readers[i].pos + s.sh.mem.cap
    ensures Enabled(s, MoveReader(i)) && t == Apply(s, MoveReader(i)) && Inv(t)
    ensures var r := s.readers[i];
      t == s.(readers := s.readers[i := r.(start := r.pos, dst := [], pc := RCopy(s.sh.mem.published))])
  {
    t := Apply(s, MoveReader(i));
    ReaderKeepsInv(s, i);
  }

  /** A fresh call with something within the slack to read gets to the copy loop. */
  lemma CallReachesCopy(s: State, i: nat, len: nat) returns (s2: State)
    requires Inv(s) && Enabled(s, CallRecv(i, len)) && s.readers[i].end.once == Fresh
    requires s.readers[i].pos < s.sh.mem.published <= s.readers[i].pos + s.sh.mem.cap
    ensures Inv(s2) && s2.sh == s.sh && s2.writers == s.writers && |s2.readers| == |s.readers|
    ensures var r := s2.readers[i];
            && r.pc == RCopy(s.sh.mem.published) && r.start == s.readers[i].pos && r.len == len && r.end == s.readers[i].end
    ensures forall n: nat, o :: Answers(s2, i, n, o) ==> Answers(Apply(s, CallRecv(i, len)), i, n + 2, o)
  {
    var s0 := Apply(s, CallRecv(i, len));
    CallRecvKeepsInv(s, i, len);
    var s1 := FirstLoad(s0, i);
    s2 := SecondLoad(s1, i);
    forall n: nat, o | Answers(s2, i, n, o) ensures Answers(s0, i, n + 2, o) {
      AnswersLater(s1, i, n, o);
      AnswersLater(s0, i, n + 1, o);
    }
  }

  lemma QuiescentAnswer(s: State, i: nat, len: nat)
    requires Inv(s) && Enabled(s, CallRecv(i, len)) && s.readers[i].end.once == Fresh && !Bracket(Holder(s))
    requires s.readers[i].pos < s.sh.mem.published <= s.readers[i].pos + s.sh.mem.cap
    ensures var m, pos := s.sh.mem, s.readers[i].pos;
            pos <= |m.log| && WillAnswer(Apply(s, CallRecv(i, len)), i, RingRecv(m.log, s.sh.closed, m.cap, pos, len))
  {
    var s2 := CallReachesCopy(s, i, len);
    CopyAnswers(s2, i);
    var m := s2.sh.mem;
    var o := RingRecv(m.log, s2.sh.closed, m.cap, s2.readers[i].start, len);
    var n: nat :| Answers(s2, i, n, o);
    assert Answers(Apply(s, CallRecv(i, len)), i, n + 2, o);
  }

  lemma RecvWithin(log: seq<Msg>, closed: bool, cap: nat, pos: nat, len: nat)
    requires pos < |log| <= pos + cap && len > 0
    ensures RingRecv(log, closed, cap, pos, len) == Data(log[pos..pos + Min(len, |log| - pos)])
  {
  }

  /** A `Recv` called now by reader `i` and left alone returns the next
      `min(len(dst), pending)` frames of the log. */
  ghost predicate DeliversNext(s: State, i: nat, len: nat)
    requires Enabled(s, CallRecv(i, len))
  {
    var log, pos := s.sh.mem.log, s.readers[i].pos;
    && pos < |log| == s.sh.mem.published
    && WillAnswer(Apply(s, CallRecv(i, len)), i, Data(log[pos..pos + Min(len, |log| - pos)]))
  }

  lemma DeliversIfAnswers(s: State, i: nat, len: nat)
    requires Enabled(s, CallRecv(i, len)) && |s.sh.mem.log| == s.sh.mem.published
    requires s.readers[i].pos < s.sh.mem.published <= s.readers[i].pos + s.sh.mem.cap
    requires WillAnswer(Apply(s, CallRecv(i, len)), i, RingRecv(s.sh.mem.log, s.sh.closed, s.sh.mem.cap, s.readers[i].pos, len))
    ensures DeliversNext(s, i, len)
  {
    RecvWithin(s.sh.mem.log, s.sh.closed, s.sh.mem.cap, s.readers[i].pos, len);
  }

  lemma QuiescentDelivers(s: State, i: nat, len: nat)
    requires Inv(s) && Enabled(s, CallRecv(i, len)) && s.readers[i].end.once == Fresh && !Bracket(Holder(s))
    requires s.readers[i].pos < s.sh.mem.published <= s.readers[i].pos + s.sh.mem.cap
    ensures DeliversNext(s, i, len)
  {
    QuiescentAnswer(s, i, len);
    DeliversIfAnswers(s, i, len);
  }

  /** Left alone with a live subscription, no frame half published and something
      within its slack to read, a `Recv` delivers. */
  lemma QuiescentRecv(tr: seq<State>, capacity: int, k: nat, i: nat, len: nat)
    requires Run(tr, capacity) && k < |tr| && Enabled(tr[k], CallRecv(i, len))
    requires !Bracket(Holder(tr[k])) && tr[k].readers[i].end.once == Fresh
    requires tr[k].readers[i].pos < tr[k].sh.mem.published <= tr[k].readers[i].pos + RingSize(capacity)
    ensures DeliversNext(tr[k], i, len)
  {
    var s := tr[k];
    RunInv(tr, capacity, k);
    CapIsFixed(tr, capacity, k);
    QuiescentDelivers(s, i, len);
  }
}
