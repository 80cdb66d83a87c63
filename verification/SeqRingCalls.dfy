/** What the record of a `Recv` says of when it was called and of what happened to
    it, by the very steps. */
module SeqRingCalls {
  import opened Fanout
  import opened SeqRing
  import opened SeqRingInv
  import opened SeqRingSteps
  import opened SeqRingInstants
  import opened SeqRingTheorems

  /** Step `j` calls the `Recv` that reader `i` is still in, in state `k`. */
  ghost predicate CalledAt(tr: seq<State>, j: nat, k: nat, i: nat) {
    && j < k < |tr| && i < |tr[j].readers|
    && tr[j].readers[i].pc == RIdle
    && forall q | j < q <= k :: i < |tr[q].readers| && InCall(tr[q].readers[i].pc)
  }

  /** Step `q` validates what reader `i` has copied, and finds it overwritten. */
  ghost predicate FailsAt(tr: seq<State>, q: nat, i: nat) {
    && q + 1 < |tr| && i < |tr[q].readers| && i < |tr[q + 1].readers|
    && tr[q].readers[i].pc.RValidate? && tr[q + 1].readers[i].pc.RLoadErr?
  }

  ghost predicate FailedIn(tr: seq<State>, j: nat, k: nat, i: nat) {
    exists q: nat :: j < q < k && FailsAt(tr, q, i)
  }

  lemma CallGoesOn(tr: seq<State>, capacity: int, k: nat, i: nat)
    requires Run(tr, capacity) && 0 < k < |tr| && i < |tr[k].readers| && InCall(tr[k].readers[i].pc)
    ensures i < |tr[k - 1].readers|
    ensures var s, x, y := tr[k - 1], tr[k - 1].readers[i], tr[k].readers[i];
      && y.h.calls == x.h.calls && Cursor(y) == Cursor(x)
      && if x.pc == RIdle then y.h.atCall == s.sh.mem.published && !y.h.missed
         else
           && InCall(x.pc) && y.h.atCall == x.h.atCall && y.len == x.len
           && (y.h.missed <==> x.h.missed || FailsAt(tr, k - 1, i))
  {
    ReaderChanges(tr, capacity, k, i);
    RunInv(tr, capacity, k - 1);
    var s := tr[k - 1];
    assert ReaderOk(s.sh, Holder(s), s.readers[i]);
    if Moves(s, s.readers[i], tr[k].readers[i]) {
      InCallMoves(s.sh, Holder(s), s.readers[i]);
    }
  }

  lemma InCallMoves(sh: Shared, hold: Option<Writer>, x: Reader)
    requires WellSized(sh.mem) && ReaderOk(sh, hold, x) && ReaderEnabled(sh, x) && InCall(ReaderStep(sh, x).1.pc)
    ensures var y := ReaderStep(sh, x).1;
      && InCall(x.pc) && y.h.calls == x.h.calls && Cursor(y) == Cursor(x) && y.h.atCall == x.h.atCall && y.len == x.len
      && (y.h.missed <==> x.h.missed || (x.pc.RValidate? && y.pc.RLoadErr?))
  {
  }

  /** Every `Recv` was called, with so much published as its record says. */
  lemma {:induction false} FindCall(tr: seq<State>, capacity: int, k: nat, i: nat) returns (j: nat)
    requires Run(tr, capacity) && k < |tr| && i < |tr[k].readers| && InCall(tr[k].readers[i].pc)
    ensures CalledAt(tr, j, k, i) && i < |tr[j + 1].readers|
    ensures var x, y := tr[j].readers[i], tr[k].readers[i];
      x.h.calls == y.h.calls && x.pos == Cursor(y) && tr[j].sh.mem.published == y.h.atCall && tr[j + 1].readers[i].len == y.len
    ensures tr[k].readers[i].h.missed <==> FailedIn(tr, j, k, i)
  {
    assert k > 0;
    CallGoesOn(tr, capacity, k, i);
    if tr[k - 1].readers[i].pc == RIdle {
      j := k - 1;
    } else {
      j := FindCall(tr, capacity, k - 1, i);
      FailedMore(tr, j, k, i);
    }
  }

  lemma FailedMore(tr: seq<State>, j: nat, k: nat, i: nat)
    requires j + 1 < k
    ensures FailedIn(tr, j, k, i) <==> FailedIn(tr, j, k - 1, i) || FailsAt(tr, k - 1, i)
  {
    if FailsAt(tr, k - 1, i) {
      assert FailedIn(tr, j, k, i);
    }
  }

  /** The record of a finished call is of the stretch from when it was called, at
      step `j`, to when it returned, at step `r`: what was published as it began,
      whether a validation failed during it, and where its cursor stood. */
  lemma RecordIs(tr: seq<State>, capacity: int, k: nat, i: nat, c: nat) returns (j: nat, r: nat)
    requires Run(tr, capacity) && k < |tr| && i < |tr[k].readers| && c < |tr[k].readers[i].h.calls|
    ensures r < k && CalledAt(tr, j, r, i) && |tr[j].readers[i].h.calls| == c
    ensures i < |tr[r + 1].readers| && |tr[r + 1].readers[i].h.calls| == c + 1
    ensures var call := tr[k].readers[i].h.calls[c];
      && tr[r + 1].readers[i].h.calls[c] == call
      && call.atCall == tr[j].sh.mem.published && call.start == tr[j].readers[i].pos
      && (call.missed <==> FailedIn(tr, j, r, i))
      && (call.stored <==> tr[r].readers[i].pc == RLoadErr)
  {
    r := FindReturn(tr, capacity, k, i, c);
    var x := tr[r].readers[i];
    ReturnsFrom(tr[r], x, tr[r + 1].readers[i]);
    MissedFrom(tr[r], x, tr[r + 1].readers[i]);
    RunInv(tr, capacity, r);
    assert ReaderOk(tr[r].sh, Holder(tr[r]), x);
    StartIsCursor(tr[r].sh.mem, x, tr[k].readers[i].h.calls[c]);
    j := FindCall(tr, capacity, r, i);
  }

  lemma MissedFrom(s: State, x: Reader, y: Reader)
    requires Moves(s, x, y) && |y.h.calls| == |x.h.calls| + 1
    ensures InCall(x.pc) && y.h.calls[|x.h.calls|].missed == x.h.missed
  {
  }

  lemma StartIsCursor(m: Memory, x: Reader, call: Call)
    requires LocalsOk(m, x)
    requires if call.stored then x.pc == RLoadErr && call.start == x.pos
             else call.start == x.start && (x.pc.RValidate? || x.pc.RFinish?)
    ensures call.start == Cursor(x)
  {
  }

  /** So a call in which a validation fails gives no data: finished, it was told of
      the lag, or of the end somebody else gave its subscription; not finished, its
      reader is a full lap behind what the writer has begun, and does not wait. */
  lemma FailedCallEnds(tr: seq<State>, capacity: int, k: nat, i: nat, q: nat)
    requires Run(tr, capacity) && q < k < |tr| && FailsAt(tr, q, i)
    ensures i < |tr[k].readers|
    ensures var c, r := |tr[q].readers[i].h.calls|, tr[k].readers[i];
      if c < |r.h.calls| then
        r.h.calls[c].outcome == Ended(ErrLagged) || (r.h.calls[c].stored && r.h.calls[c].outcome == Ended(ErrClosed))
      else InCall(r.pc) && tr[k].sh.mem.begin > Cursor(r) + RingSize(capacity) && !Waiting(r.pc)
  {
    MissedSince(tr, capacity, q, k, i);
    FailedValidationIsFinal(tr, capacity, k, i);
  }

  lemma {:induction false} MissedSince(tr: seq<State>, capacity: int, q: nat, k: nat, i: nat)
    requires Run(tr, capacity) && q < k < |tr| && FailsAt(tr, q, i)
    ensures i < |tr[k].readers|
    ensures var c, r := |tr[q].readers[i].h.calls|, tr[k].readers[i];
      if c < |r.h.calls| then r.h.calls[c].missed else |r.h.calls| == c && InCall(r.pc) && r.h.missed
  {
    if k == q + 1 {
      CallGoesOn(tr, capacity, k, i);
    } else {
      MissedSince(tr, capacity, q, k - 1, i);
      MissedNext(tr, capacity, k, i);
    }
  }

  lemma MissedNext(tr: seq<State>, capacity: int, k: nat, i: nat)
    requires Run(tr, capacity) && 0 < k < |tr| && i < |tr[k - 1].readers|
    ensures i < |tr[k].readers|
    ensures var x, y := tr[k - 1].readers[i], tr[k].readers[i];
      && x.h.calls <= y.h.calls
      && (InCall(x.pc) && x.h.missed ==>
            if y.h.calls == x.h.calls then InCall(y.pc) && y.h.missed
            else |y.h.calls| == |x.h.calls| + 1 && y.h.calls[|x.h.calls|].missed)
  {
    var step := StepTo(tr, capacity, k);
    ReadersStay(tr[k - 1], step, i);
    ReaderChanges(tr, capacity, k, i);
    NoPanic(tr, capacity, k, i);
    var s, x := tr[k - 1], tr[k - 1].readers[i];
    if Moves(s, x, tr[k].readers[i]) {
      MissedMoves(s.sh, x);
    }
  }

  lemma NoPanic(tr: seq<State>, capacity: int, k: nat, i: nat)
    requires Run(tr, capacity) && k < |tr| && i < |tr[k].readers|
    ensures tr[k].readers[i].pc != RPanic
  {
    RunInv(tr, capacity, k);
    assert ReaderOk(tr[k].sh, Holder(tr[k]), tr[k].readers[i]);
  }

  lemma ReadersStay(s: State, step: Step, i: nat)
    requires Enabled(s, step) && i < |s.readers|
    ensures i < |Apply(s, step).readers|
  {
  }

  lemma MissedMoves(sh: Shared, x: Reader)
    requires WellSized(sh.mem) && ReaderEnabled(sh, x)
    ensures var y := ReaderStep(sh, x).1;
      && x.h.calls <= y.h.calls
      && (InCall(x.pc) && x.h.missed ==>
            if y.h.calls == x.h.calls then (InCall(y.pc) || y.pc == RPanic) && y.h.missed
            else |y.h.calls| == |x.h.calls| + 1 && y.h.calls[|x.h.calls|].missed)
  {
  }
}
