/** How subscriptions to the lock-free-read ring end: made after the close, or
    closed by hand. */
module SeqRingEnds {
  import opened Fanout
  import opened SeqRing
  import opened SeqRingInv
  import opened SeqRingSteps
  import opened SeqRingInstants
  import opened SeqRingTheorems
  import opened SeqRingAlone

  // ------------------------------------------------------------ too late

  /** On its way through `Subscribe` to a closed ring, or out of it and ended. */
  predicate TooLate(r: Reader) {
    match r.pc
    case RCountIn => true
    case RSubCheck => true
    case RSubLoad => false
    case RSubFinish =>
      && (r.end.once.Running? ==> r.end.once.who == None && r.end.once.err == ErrClosed)
      && (r.end.once.Done? ==> r.end.err == Some(ErrClosed))
    case _ => r.end.once.Done? && r.end.err == Some(ErrClosed)
  }

  lemma ReaderStaysTooLate(sh: Shared, hold: Option<Writer>, r: Reader)
    requires SlotsOk(sh.mem, hold) && ReaderOk(sh, hold, r) && ReaderEnabled(sh, r) && sh.closed && TooLate(r)
    ensures TooLate(ReaderStep(sh, r).1)
  {
  }

  lemma StepStaysTooLate(s: State, step: Step, i: nat)
    requires Inv(s) && Enabled(s, step) && s.sh.closed && i < |s.readers| && TooLate(s.readers[i])
    ensures i < |Apply(s, step).readers| && TooLate(Apply(s, step).readers[i])
  {
    assert ReaderOk(s.sh, Holder(s), s.readers[i]);
    match step
    case MoveReader(r) =>
      if r == i {
        ReaderStaysTooLate(s.sh, Holder(s), s.readers[i]);
      }
    case MoveCloser(c) => assert !Subscribing(s.readers[s.closers[c].sub].pc);
    case _ =>
  }

  lemma {:induction false} TooLateSince(tr: seq<State>, capacity: int, j: nat, k: nat, i: nat)
    requires Run(tr, capacity) && j <= k < |tr| && tr[j].sh.closed && |tr[j].readers| <= i < |tr[k].readers|
    ensures TooLate(tr[k].readers[i])
  {
    assert k > j;
    if i >= |tr[k - 1].readers| {
      ReaderChanges(tr, capacity, k, i);
    } else {
      TooLateSince(tr, capacity, j, k - 1, i);
      ClosedIsFinal(tr, capacity, j, k - 1);
      var step := StepTo(tr, capacity, k);
      StepStaysTooLate(tr[k - 1], step, i);
    }
  }

  /** Whoever subscribes to a ring already closed comes out with a subscription that
      is ended, counted nowhere, and was given nothing. */
  lemma SubscribedTooLate(tr: seq<State>, capacity: int, j: nat, k: nat, i: nat)
    requires Run(tr, capacity) && j <= k < |tr| && tr[j].sh.closed
    requires |tr[j].readers| <= i < |tr[k].readers| && !Subscribing(tr[k].readers[i].pc)
    ensures var r := tr[k].readers[i];
      r.end.err == Some(ErrClosed) && r.end.done && !r.end.counted
  {
    TooLateSince(tr, capacity, j, k, i);
    RunInv(tr, capacity, k);
    assert ReaderOk(tr[k].sh, Holder(tr[k]), tr[k].readers[i]);
  }

  // ------------------------------------------------------------ closed by hand

  ghost predicate FinishedOk(s: State) {
    forall c | 0 <= c < |s.closers| && s.closers[c].finished ::
      s.closers[c].sub < |s.readers| && s.readers[s.closers[c].sub].end.once.Done?
  }

  lemma DoneStays(s: State, step: Step, i: nat)
    requires Inv(s) && Enabled(s, step) && i < |s.readers| && s.readers[i].end.once.Done?
    ensures i < |Apply(s, step).readers| && Apply(s, step).readers[i].end.once.Done?
  {
    EndMoves(s, step, i);
    if step == MoveReader(i) {
      assert ReaderOk(s.sh, Holder(s), s.readers[i]);
      DoneStaysDone(s.sh, s.readers[i]);
    }
  }

  /** Only its own reader and a closer change how a subscription ends. */
  lemma EndMoves(s: State, step: Step, i: nat)
    requires Enabled(s, step) && i < |s.readers|
    ensures i < |Apply(s, step).readers|
    ensures var x, y := s.readers[i], Apply(s, step).readers[i];
      if step == MoveReader(i) then y == ReaderStep(s.sh, x).1
      else y.end == x.end || (step.MoveCloser? && y.end == OnceStep(s.sh.n, x.end, Some(step.c), ErrClosed).1)
  {
  }

  lemma DoneStaysDone(sh: Shared, r: Reader)
    requires WellSized(sh.mem) && ReaderEnabled(sh, r) && EndOk(r.end, r.pc != RCountIn) && r.end.once.Done?
    ensures ReaderStep(sh, r).1.end.once.Done?
  {
  }

  lemma StepKeepsFinished(s: State, step: Step)
    requires Inv(s) && Enabled(s, step) && FinishedOk(s)
    ensures FinishedOk(Apply(s, step))
  {
    var t := Apply(s, step);
    forall c | 0 <= c < |t.closers| && t.closers[c].finished
      ensures t.closers[c].sub < |t.readers| && t.readers[t.closers[c].sub].end.once.Done?
    {
      ClosersStay(s, step, c);
      DoneStays(s, step, t.closers[c].sub);
    }
  }

  lemma ClosersStay(s: State, step: Step, c: nat)
    requires Inv(s) && Enabled(s, step) && FinishedOk(s) && c < |Apply(s, step).closers| && Apply(s, step).closers[c].finished
    ensures c < |s.closers| && s.closers[c].sub == Apply(s, step).closers[c].sub < |s.readers|
    ensures s.readers[s.closers[c].sub].end.once.Done?
  {
  }

  lemma FinishedNext(tr: seq<State>, capacity: int, k: nat)
    requires Run(tr, capacity) && 0 < k < |tr| && FinishedOk(tr[k - 1])
    ensures FinishedOk(tr[k])
  {
    var step := StepTo(tr, capacity, k);
    StepKeepsFinished(tr[k - 1], step);
  }

  lemma FinishedFirst(s: State, capacity: int)
    requires Init(s, capacity)
    ensures FinishedOk(s)
  {
  }

  lemma {:induction false} RunFinished(tr: seq<State>, capacity: int, k: nat)
    requires Run(tr, capacity) && k < |tr|
    ensures FinishedOk(tr[k])
  {
    if k > 0 {
      RunFinished(tr, capacity, k - 1);
      FinishedNext(tr, capacity, k);
    } else {
      FinishedFirst(tr[0], capacity);
    }
  }

  /** A `Sub.Close` that has returned left its subscription ended and uncounted, as
      closed unless the reader had been found lagging. */
  lemma ClosedByHand(tr: seq<State>, capacity: int, k: nat, c: nat)
    requires Run(tr, capacity) && k < |tr| && c < |tr[k].closers| && tr[k].closers[c].finished
    ensures tr[k].closers[c].sub < |tr[k].readers|
    ensures var r := tr[k].readers[tr[k].closers[c].sub];
      r.end.done && !r.end.counted && (r.end.err == Some(ErrClosed) || (r.end.err == Some(ErrLagged) && r.h.dropped))
  {
    RunFinished(tr, capacity, k);
    RunInv(tr, capacity, k);
    var r := tr[k].readers[tr[k].closers[c].sub];
    assert ReaderOk(tr[k].sh, Holder(tr[k]), r);
    match r.end.err.value
    case ErrClosed =>
    case ErrLagged =>
  }

  /** And if its reader slept, it can wake, and left alone is told. */
  lemma ClosedByHandWakes(tr: seq<State>, capacity: int, k: nat, c: nat)
    requires Run(tr, capacity) && k < |tr| && c < |tr[k].closers| && tr[k].closers[c].finished
    ensures tr[k].closers[c].sub < |tr[k].readers|
    ensures var i := tr[k].closers[c].sub;
      var r := tr[k].readers[i];
      r.pc.RParked? ==> r.end.err.Some? && WillAnswer(tr[k], i, Ended(r.end.err.value))
  {
    ClosedByHand(tr, capacity, k, c);
    RunInv(tr, capacity, k);
    var s, i := tr[k], tr[k].closers[c].sub;
    assert ReaderOk(s.sh, Holder(s), s.readers[i]);
    if s.readers[i].pc.RParked? {
      WakesToItsEnd(s, i);
    }
  }

  lemma WakesToItsEnd(s: State, i: nat)
    requires Inv(s) && i < |s.readers| && s.readers[i].pc.RParked? && s.readers[i].end.done && s.readers[i].end.err.Some?
    requires s.readers[i].end.once.Done?
    ensures WillAnswer(s, i, Ended(s.readers[i].end.err.value))
  {
    var t := Apply(s, MoveReader(i));
    DropsWaiting(t, i);
    OneMove(s, i, Ended(s.readers[i].end.err.value));
  }

  lemma DropsWaiting(t: State, i: nat)
    requires WellSized(t.sh.mem) && i < |t.readers| && t.readers[i].pc.RDropWaiter?
    requires t.readers[i].end.err.Some? && t.readers[i].end.once.Done?
    ensures WillAnswer(t, i, Ended(t.readers[i].end.err.value))
  {
    var u := Apply(t, MoveReader(i));
    Returns(u, i, Ended(t.readers[i].end.err.value));
    OneMove(t, i, Ended(t.readers[i].end.err.value));
  }

  /** Only closer `c` moves, `n` times. */
  ghost function SoloClose(s: State, c: nat, n: nat): State
    decreases n
  {
    if n > 0 && Enabled(s, MoveCloser(c)) then SoloClose(Apply(s, MoveCloser(c)), c, n - 1) else s
  }

  ghost predicate ClosesWith(s: State, c: nat, n: nat, i: nat) {
    var t := SoloClose(s, c, n);
    && c < |t.closers| && t.closers[c].finished
    && i < |t.readers| && t.readers[i].end.err == Some(ErrClosed) && t.readers[i].end.done
  }

  lemma {:induction false} CloseGoesThrough(s: State, c: nat, n: nat)
    requires WellSized(s.sh.mem) && c < |s.closers| && !s.closers[c].finished && s.closers[c].sub < |s.readers|
    requires var e := s.readers[s.closers[c].sub].end;
      && EndOk(e, true) && Phases(e.once) < n
      && (e.once.Running? ==> e.once.who == Some(c) && e.once.err == ErrClosed)
      && (e.once.Done? ==> e.err == Some(ErrClosed))
    ensures ClosesWith(s, c, n, s.closers[c].sub)
    decreases n
  {
    var t := Apply(s, MoveCloser(c));
    if s.readers[s.closers[c].sub].end.once.Done? {
      assert SoloClose(t, c, n - 1) == t;
    } else {
      CloseGoesThrough(t, c, n - 1);
    }
  }

  /** Nobody having ended a subscription, `Sub.Close` does, left alone. */
  lemma CloseEnds(tr: seq<State>, capacity: int, k: nat, i: nat)
    requires Run(tr, capacity) && k < |tr| && Enabled(tr[k], CallClose(i)) && tr[k].readers[i].end.once == Fresh
    ensures ClosesWith(Apply(tr[k], CallClose(i)), |tr[k].closers|, 5, i)
  {
    RunInv(tr, capacity, k);
    assert ReaderOk(tr[k].sh, Holder(tr[k]), tr[k].readers[i]);
    CloseGoesThrough(Apply(tr[k], CallClose(i)), |tr[k].closers|, 5);
  }
}
