/** A `Recv` of the lock-free-read ring that nobody disturbs answers just as the
    locked ring's would, the end of a closed ring included, or goes to sleep. */
module SeqRingAlone {
  import opened Fanout
  import opened SeqRing
  import opened SeqRingInv
  import opened SeqRingSteps
  import opened SeqRingTheorems

  function Phases(o: Once): nat {
    match o
    case Fresh => 4
    case Running(_, StoreErr, _) => 3
    case Running(_, DecSubs, _) => 2
    case Running(_, CloseDone, _) => 1
    case Done => 0
    case Broken => 0
  }

  lemma OneMove(s: State, i: nat, o: Outcome)
    requires Enabled(s, MoveReader(i)) && WillAnswer(Apply(s, MoveReader(i)), i, o)
    ensures WillAnswer(s, i, o)
  {
    var n: nat :| Answers(Apply(s, MoveReader(i)), i, n, o);
    AnswersLater(s, i, n, o);
    assert Answers(s, i, n + 1, o);
  }

  lemma Returns(s: State, i: nat, o: Outcome)
    requires Enabled(s, MoveReader(i))
    requires var x := Apply(s, MoveReader(i)).readers[i];
      x.pc == RIdle && |x.h.calls| > 0 && x.h.calls[|x.h.calls| - 1].outcome == o
    ensures WillAnswer(s, i, o)
  {
    var t := Apply(s, MoveReader(i));
    assert Solo(s, i, 1) == Solo(t, i, 0) == t;
    assert Answers(s, i, 1, o);
  }

  /** Through `once.Do`, and out with its error. */
  lemma {:induction false} FinishAnswers(s: State, i: nat, e: Error)
    requires WellSized(s.sh.mem) && i < |s.readers| && s.readers[i].pc == RFinish(e) && EndOk(s.readers[i].end, true)
    requires s.readers[i].end.once.Running? ==> s.readers[i].end.once.who == None
    ensures WillAnswer(s, i, Ended(e))
    decreases Phases(s.readers[i].end.once)
  {
    if s.readers[i].end.once.Done? {
      Returns(s, i, Ended(e));
    } else {
      FinishAnswers(Apply(s, MoveReader(i)), i, e);
      OneMove(s, i, Ended(e));
    }
  }

  /** Nothing within the slack to read: lapped, or at the end. */
  lemma LaggedAnswers(s: State, i: nat)
    requires Inv(s) && i < |s.readers| && s.readers[i].pc == RLoadPub && s.readers[i].end.once == Fresh
    requires s.readers[i].pos + s.sh.mem.cap < s.sh.mem.published
    ensures WillAnswer(s, i, Ended(ErrLagged))
  {
    assert ReaderOk(s.sh, Holder(s), s.readers[i]);
    var t := Apply(s, MoveReader(i));
    var u := Apply(t, MoveReader(i));
    FinishAnswers(u, i, ErrLagged);
    OneMove(t, i, Ended(ErrLagged));
    OneMove(s, i, Ended(ErrLagged));
  }

  lemma ClosedAnswers(s: State, i: nat)
    requires Inv(s) && i < |s.readers| && s.readers[i].pc == RLoadPub && s.readers[i].end.once == Fresh
    requires s.readers[i].pos == s.sh.mem.published && s.sh.closed
    ensures WillAnswer(s, i, Ended(ErrClosed))
  {
    assert ReaderOk(s.sh, Holder(s), s.readers[i]);
    var t := Apply(s, MoveReader(i));
    var u := Apply(t, MoveReader(i));
    FinishAnswers(u, i, ErrClosed);
    OneMove(t, i, Ended(ErrClosed));
    OneMove(s, i, Ended(ErrClosed));
  }

  /** Asleep on the channel the next broadcast or close swaps out. */
  ghost predicate WillPark(s: State, i: nat) {
    exists n: nat :: Parks(s, i, n)
  }

  ghost predicate Parks(s: State, i: nat, n: nat) {
    i < |Solo(s, i, n).readers| && Solo(s, i, n).readers[i].pc == RParked(s.sh.notify)
  }

  lemma ParkLater(s: State, i: nat)
    requires Enabled(s, MoveReader(i)) && WillPark(Apply(s, MoveReader(i)), i)
    requires Apply(s, MoveReader(i)).sh.notify == s.sh.notify
    ensures WillPark(s, i)
  {
    var t := Apply(s, MoveReader(i));
    var n: nat :| Parks(t, i, n);
    assert Solo(s, i, n + 1) == Solo(t, i, n);
    assert Parks(s, i, n + 1);
  }

  /** How far the way to sleep is still. */
  function ToPark(pc: ReaderPc): nat {
    match pc
    case RLoadPub => 6
    case RCheckClosed => 5
    case RLoadNotify => 4
    case RAddWaiter(_) => 3
    case RRecheckPub(_) => 2
    case RRecheckClosed(_) => 1
    case _ => 0
  }

  lemma {:induction false} EmptyParks(s: State, i: nat)
    requires WellSized(s.sh.mem) && i < |s.readers| && s.readers[i].end.once == Fresh
    requires s.readers[i].pos == s.sh.mem.published && !s.sh.closed
    requires ToPark(s.readers[i].pc) > 0 || s.readers[i].pc == RParked(s.sh.notify)
    requires var pc := s.readers[i].pc; pc.RAddWaiter? || pc.RRecheckPub? || pc.RRecheckClosed? ==> pc.ch == s.sh.notify
    ensures WillPark(s, i)
    decreases ToPark(s.readers[i].pc)
  {
    if s.readers[i].pc.RParked? {
      assert Solo(s, i, 0) == s;
      assert Parks(s, i, 0);
    } else {
      EmptyParks(Apply(s, MoveReader(i)), i);
      ParkLater(s, i);
    }
  }

  /** A subscription already ended answers with its own end. */
  lemma EndedAnswers(tr: seq<State>, capacity: int, k: nat, i: nat, len: nat)
    requires Run(tr, capacity) && k < |tr| && Enabled(tr[k], CallRecv(i, len)) && tr[k].readers[i].end.err.Some?
    ensures WillAnswer(Apply(tr[k], CallRecv(i, len)), i, Ended(tr[k].readers[i].end.err.value))
  {
    RunInv(tr, capacity, k);
    assert ReaderOk(tr[k].sh, Holder(tr[k]), tr[k].readers[i]);
    var s := Apply(tr[k], CallRecv(i, len));
    Returns(s, i, Ended(tr[k].readers[i].end.err.value));
  }

  lemma CallGetsToLoad(s: State, i: nat, len: nat) returns (t: State)
    requires Inv(s) && Enabled(s, CallRecv(i, len)) && s.readers[i].end.once == Fresh
    ensures var called := Apply(s, CallRecv(i, len));
      Enabled(called, MoveReader(i)) && t == Apply(called, MoveReader(i))
    ensures Inv(t) && t.sh == s.sh && |t.readers| == |s.readers| && t.readers[i].pc == RLoadPub
    ensures t.readers[i].end == s.readers[i].end && t.readers[i].pos == s.readers[i].pos
  {
    CallRecvKeepsInv(s, i, len);
    t := FirstLoad(Apply(s, CallRecv(i, len)), i);
  }

  /** What the locked ring's `Recv` would answer: the lag, frames, the close of a
      drained ring; and where that one would wait this one is asleep. */
  ghost predicate AnswersAlike(s: State, called: State, i: nat, pos: nat, len: nat, cap: nat) {
    var log := s.sh.mem.log;
    && pos <= |log|
    && (pos + cap < |log| ==> WillAnswer(called, i, Ended(ErrLagged)))
    && (pos < |log| <= pos + cap ==> WillAnswer(called, i, Data(log[pos..pos + Min(len, |log| - pos)])))
    && (pos == |log| && s.sh.closed ==> WillAnswer(called, i, Ended(ErrClosed)))
    && (pos == |log| && !s.sh.closed ==> WillPark(called, i))
  }

  lemma AloneFrom(s: State, i: nat, len: nat)
    requires Inv(s) && Enabled(s, CallRecv(i, len)) && !Bracket(Holder(s)) && s.readers[i].end.once == Fresh
    ensures AnswersAlike(s, Apply(s, CallRecv(i, len)), i, s.readers[i].pos, len, s.sh.mem.cap)
  {
    CursorIsBehind(s, i);
    if s.readers[i].pos + s.sh.mem.cap < s.sh.mem.published {
      LaggedAlone(s, i, len);
    } else if s.readers[i].pos < s.sh.mem.published {
      QuiescentDelivers(s, i, len);
    } else if s.sh.closed {
      ClosedAlone(s, i, len);
    } else {
      ParksAlone(s, i, len);
    }
  }

  /** Left alone with a live subscription and no frame half published, a `Recv`
      called now answers just so. */
  lemma AloneAnswers(tr: seq<State>, capacity: int, k: nat, i: nat, len: nat)
    requires Run(tr, capacity) && k < |tr| && Enabled(tr[k], CallRecv(i, len))
    requires !Bracket(Holder(tr[k])) && tr[k].readers[i].end.once == Fresh
    ensures AnswersAlike(tr[k], Apply(tr[k], CallRecv(i, len)), i, tr[k].readers[i].pos, len, RingSize(capacity))
  {
    RunInv(tr, capacity, k);
    CapIsFixed(tr, capacity, k);
    AloneFrom(tr[k], i, len);
  }

  lemma CursorIsBehind(s: State, i: nat)
    requires Inv(s) && i < |s.readers| && s.readers[i].pc == RIdle
    ensures s.readers[i].pos <= |s.sh.mem.log| == s.sh.mem.published
  {
    assert ReaderOk(s.sh, Holder(s), s.readers[i]);
  }

  lemma LaggedAlone(s: State, i: nat, len: nat)
    requires Inv(s) && Enabled(s, CallRecv(i, len)) && s.readers[i].end.once == Fresh
    requires s.readers[i].pos + s.sh.mem.cap < s.sh.mem.published
    ensures WillAnswer(Apply(s, CallRecv(i, len)), i, Ended(ErrLagged))
  {
    var t := CallGetsToLoad(s, i, len);
    LaggedAnswers(t, i);
    OneMove(Apply(s, CallRecv(i, len)), i, Ended(ErrLagged));
  }

  lemma ClosedAlone(s: State, i: nat, len: nat)
    requires Inv(s) && Enabled(s, CallRecv(i, len)) && s.readers[i].end.once == Fresh
    requires s.readers[i].pos == s.sh.mem.published && s.sh.closed
    ensures WillAnswer(Apply(s, CallRecv(i, len)), i, Ended(ErrClosed))
  {
    var t := CallGetsToLoad(s, i, len);
    ClosedAnswers(t, i);
    OneMove(Apply(s, CallRecv(i, len)), i, Ended(ErrClosed));
  }

  lemma ParksAlone(s: State, i: nat, len: nat)
    requires Inv(s) && Enabled(s, CallRecv(i, len)) && s.readers[i].end.once == Fresh
    requires s.readers[i].pos == s.sh.mem.published && !s.sh.closed
    ensures WillPark(Apply(s, CallRecv(i, len)), i)
  {
    var t := CallGetsToLoad(s, i, len);
    EmptyParks(t, i);
    ParkLater(Apply(s, CallRecv(i, len)), i);
  }
}
