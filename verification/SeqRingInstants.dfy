/** The very instants at which a `Recv` of the lock-free-read ring is atomic. */
module SeqRingInstants {
  import opened Fanout
  import opened SeqRing
  import opened SeqRingInv
  import opened SeqRingSteps
  import opened SeqRingTheorems

  // ------------------------------------------------------------ steps of one reader

  lemma StepTo(tr: seq<State>, capacity: int, k: nat) returns (step: Step)
    requires Run(tr, capacity) && 0 < k < |tr|
    ensures Enabled(tr[k - 1], step) && tr[k] == Apply(tr[k - 1], step) && Inv(tr[k - 1])
  {
    RunInv(tr, capacity, k - 1);
    assert Follows(tr, k);
    step :| Enabled(tr[k - 1], step) && tr[k] == Apply(tr[k - 1], step);
  }

  /** But for how its subscription ends, a reader changes by its own steps alone. */
  predicate Idles(x: Reader, y: Reader) {
    y == x.(end := y.end)
  }

  ghost predicate Moves(s: State, x: Reader, y: Reader) {
    WellSized(s.sh.mem) && ReaderEnabled(s.sh, x) && y == ReaderStep(s.sh, x).1
  }

  predicate Calls(s: State, x: Reader, y: Reader) {
    && x.pc == RIdle && y == x.(pc := RLoadErr, len := y.len, h := y.h)
    && y.h == x.h.(missed := false, atCall := s.sh.mem.published)
  }

  lemma StepChanges(s: State, step: Step, i: nat)
    requires Enabled(s, step) && i < |Apply(s, step).readers|
    ensures i < |s.readers| ==>
      var x, y := s.readers[i], Apply(s, step).readers[i];
      Idles(x, y) || Moves(s, x, y) || Calls(s, x, y)
    ensures i >= |s.readers| ==> Apply(s, step).readers[i] == NEW_SUB
  {
  }

  lemma ReaderChanges(tr: seq<State>, capacity: int, k: nat, i: nat)
    requires Run(tr, capacity) && 0 < k < |tr| && i < |tr[k].readers|
    ensures i < |tr[k - 1].readers| ==>
      var x, y := tr[k - 1].readers[i], tr[k].readers[i];
      Idles(x, y) || Moves(tr[k - 1], x, y) || Calls(tr[k - 1], x, y)
    ensures i >= |tr[k - 1].readers| ==> tr[k].readers[i] == NEW_SUB
  {
    var step := StepTo(tr, capacity, k);
    StepChanges(tr[k - 1], step, i);
  }

  // ------------------------------------------------------------ loads

  /** In state `j` reader `i`, having made as many calls as now, with the cursor
      where this call finds it, is about to load `published`. */
  ghost predicate LoadsAt(tr: seq<State>, j: nat, i: nat, r: Reader) {
    && j < |tr| && i < |tr[j].readers|
    && var x := tr[j].readers[i];
    && x.pc == RLoadPub && |x.h.calls| == |r.h.calls| && x.pos == r.start && x.len == r.len && x.h.atCall == r.h.atCall
  }

  predicate HasPub(pc: ReaderPc) {
    pc.RCopy? || pc.RValidate? || pc.RCountDrop?
  }

  function Pub(pc: ReaderPc): nat
    requires HasPub(pc)
  {
    match pc
    case RCopy(p) => p
    case RValidate(p) => p
    case RCountDrop(p) => p
  }

  lemma PubFrom(s: State, x: Reader, y: Reader)
    requires Moves(s, x, y) && HasPub(y.pc)
    ensures x.len == y.len && x.h == y.h
    ensures if x.pc == RLoadPub then Pub(y.pc) == s.sh.mem.published && y.start == x.pos
            else HasPub(x.pc) && Pub(x.pc) == Pub(y.pc) && x.start == y.start
  {
  }

  /** Where the count a copying or lagging call goes by was loaded. */
  lemma {:induction false} FindLoad(tr: seq<State>, capacity: int, k: nat, i: nat) returns (j: nat)
    requires Run(tr, capacity) && k < |tr| && i < |tr[k].readers| && HasPub(tr[k].readers[i].pc)
    ensures j < k && LoadsAt(tr, j, i, tr[k].readers[i]) && tr[j].sh.mem.published == Pub(tr[k].readers[i].pc)
  {
    assert k > 0;
    ReaderChanges(tr, capacity, k, i);
    var x, y := tr[k - 1].readers[i], tr[k].readers[i];
    if Moves(tr[k - 1], x, y) {
      PubFrom(tr[k - 1], x, y);
      if x.pc == RLoadPub {
        j := k - 1;
      } else {
        j := FindLoad(tr, capacity, k - 1, i);
      }
    } else {
      j := FindLoad(tr, capacity, k - 1, i);
    }
  }

  /** Where a call about to end lagged loaded a count that far ahead. */
  lemma {:induction false} FindLag(tr: seq<State>, capacity: int, k: nat, i: nat) returns (j: nat)
    requires Run(tr, capacity) && k < |tr| && i < |tr[k].readers| && tr[k].readers[i].pc == RFinish(ErrLagged)
    ensures j < k && LoadsAt(tr, j, i, tr[k].readers[i])
    ensures tr[k].readers[i].start + RingSize(capacity) < tr[j].sh.mem.published
  {
    ReaderChanges(tr, capacity, k, i);
    if tr[k - 1].readers[i].pc.RCountDrop? {
      j := FindLoad(tr, capacity, k - 1, i);
      DropIsLag(tr, capacity, k - 1, i);
    } else {
      j := FindLag(tr, capacity, k - 1, i);
    }
  }

  lemma DropIsLag(tr: seq<State>, capacity: int, k: nat, i: nat)
    requires Run(tr, capacity) && k < |tr| && i < |tr[k].readers| && tr[k].readers[i].pc.RCountDrop?
    ensures tr[k].readers[i].start + RingSize(capacity) < tr[k].readers[i].pc.pub
  {
    RunInv(tr, capacity, k);
    CapIsFixed(tr, capacity, k);
    assert ReaderOk(tr[k].sh, Holder(tr[k]), tr[k].readers[i]);
  }

  /** Where a call that found nothing new loaded a count equal to its cursor. */
  lemma {:induction false} FindNothing(tr: seq<State>, capacity: int, k: nat, i: nat) returns (j: nat)
    requires Run(tr, capacity) && k < |tr| && i < |tr[k].readers| && tr[k].readers[i].pc == RCheckClosed
    ensures j < k && LoadsAt(tr, j, i, tr[k].readers[i].(start := tr[k].readers[i].pos))
    ensures tr[j].sh.mem.published == tr[k].readers[i].pos
  {
    ReaderChanges(tr, capacity, k, i);
    if tr[k - 1].readers[i].pc == RLoadPub {
      j := k - 1;
    } else {
      j := FindNothing(tr, capacity, k - 1, i);
    }
  }

  /** Where such a call then found the ring closed. */
  lemma {:induction false} FindClosed(tr: seq<State>, capacity: int, k: nat, i: nat) returns (l: nat)
    requires Run(tr, capacity) && k < |tr| && i < |tr[k].readers| && tr[k].readers[i].pc == RFinish(ErrClosed)
    ensures l < k && i < |tr[l].readers| && tr[l].readers[i].pc == RCheckClosed && tr[l].sh.closed
    ensures var x, r := tr[l].readers[i], tr[k].readers[i];
      |x.h.calls| == |r.h.calls| && x.pos == r.start && x.len == r.len && x.h.atCall == r.h.atCall
  {
    ReaderChanges(tr, capacity, k, i);
    if tr[k - 1].readers[i].pc == RCheckClosed {
      l := k - 1;
    } else {
      l := FindClosed(tr, capacity, k - 1, i);
    }
  }

  // ------------------------------------------------------------ returns

  lemma CallsGrow(tr: seq<State>, capacity: int, k: nat, i: nat)
    requires Run(tr, capacity) && 0 < k < |tr| && i < |tr[k].readers|
    ensures i >= |tr[k - 1].readers| ==> tr[k].readers[i].h.calls == []
    ensures i < |tr[k - 1].readers| ==>
      var x, y := tr[k - 1].readers[i], tr[k].readers[i];
      && x.h.calls <= y.h.calls && |y.h.calls| <= |x.h.calls| + 1
      && (|y.h.calls| > |x.h.calls| ==> Moves(tr[k - 1], x, y))
  {
    ReaderChanges(tr, capacity, k, i);
  }

  /** The step with which call `c` returned. */
  lemma {:induction false} FindReturn(tr: seq<State>, capacity: int, k: nat, i: nat, c: nat) returns (r: nat)
    requires Run(tr, capacity) && k < |tr| && i < |tr[k].readers| && c < |tr[k].readers[i].h.calls|
    ensures r < k && i < |tr[r].readers| && i < |tr[r + 1].readers|
    ensures |tr[r].readers[i].h.calls| == c && |tr[r + 1].readers[i].h.calls| == c + 1
    ensures tr[r + 1].readers[i].h.calls[c] == tr[k].readers[i].h.calls[c]
    ensures Moves(tr[r], tr[r].readers[i], tr[r + 1].readers[i])
  {
    if k > 0 {
      CallsGrow(tr, capacity, k, i);
      if c < |tr[k - 1].readers[i].h.calls| {
        r := FindReturn(tr, capacity, k - 1, i, c);
      } else {
        r := k - 1;
      }
    }
  }

  /** From where a call returns, and what it then records. */
  predicate Records(s: State, x: Reader, call: Call) {
    && call.len == x.len && call.atCall == x.h.atCall
    && if call.stored then
         x.pc == RLoadErr && x.end.err.Some? && call.outcome == Ended(x.end.err.value) && call.start == x.pos
       else
         && call.start == x.start
         && match call.outcome
            case Data(ms) => x.pc == RValidate(call.pub) && ms == x.dst
            case Ended(e) => x.pc == RFinish(e) && call.pub == s.sh.mem.published
            case Park => false
  }

  lemma ReturnsFrom(s: State, x: Reader, y: Reader)
    requires Moves(s, x, y) && |y.h.calls| == |x.h.calls| + 1
    ensures Records(s, x, y.h.calls[|x.h.calls|])
  {
  }

  /** In state `j` call `c` of reader `i` is under way, at its load of `published`, or,
      if it found its subscription ended, at its load of the error. */
  ghost predicate Instant(tr: seq<State>, j: nat, i: nat, c: nat, call: Call) {
    && j < |tr| && i < |tr[j].readers|
    && var x := tr[j].readers[i];
    && x.pc == (if call.stored then RLoadErr else RLoadPub)
    && |x.h.calls| == c && x.h.atCall == call.atCall && x.pos == call.start && x.len == call.len
  }

  lemma SameAnswer(log: seq<Msg>, closed: bool, cap: nat, pos: nat, len: nat)
    requires pos <= |log| && (RingRecv(log, false, cap, pos, len).Data? || RingRecv(log, false, cap, pos, len) == Ended(ErrLagged))
    ensures RingRecv(log, closed, cap, pos, len) == RingRecv(log, false, cap, pos, len)
  {
  }

  /** Refinement: whatever the interleaving, a `Recv` that returned frames, or
      `ErrLagged`, returned exactly what the locked ring's would have, run at the
      instant of that very call at which it loaded `published`; or, the subscription
      having lagged before, at which it loaded the error. */
  lemma RecvRefinesRing(tr: seq<State>, capacity: int, k: nat, i: nat, c: nat) returns (j: nat)
    requires Run(tr, capacity) && k < |tr| && i < |tr[k].readers| && c < |tr[k].readers[i].h.calls|
    requires tr[k].readers[i].h.calls[c].outcome != Ended(ErrClosed)
    ensures j < k && Instant(tr, j, i, c, tr[k].readers[i].h.calls[c])
    ensures var call, s := tr[k].readers[i].h.calls[c], tr[j];
      && call.start <= |s.sh.mem.log|
      && RingRecv(s.sh.mem.log, s.sh.closed, RingSize(capacity), call.start, call.len) == call.outcome
  {
    var call := tr[k].readers[i].h.calls[c];
    var r := FindReturn(tr, capacity, k, i, c);
    ReturnsFrom(tr[r], tr[r].readers[i], tr[r + 1].readers[i]);
    match call.outcome {
      case Data(ms) => j := DataInstant(tr, capacity, k, i, c, r);
      case Ended(e) =>
        assert e == ErrLagged by { match e case ErrLagged => case ErrClosed => }
        j := LagInstant(tr, capacity, i, c, call, r);
    }
  }

  lemma DataInstant(tr: seq<State>, capacity: int, k: nat, i: nat, c: nat, r: nat) returns (j: nat)
    requires Run(tr, capacity) && r < k < |tr| && i < |tr[k].readers| && c < |tr[k].readers[i].h.calls|
    requires var call := tr[k].readers[i].h.calls[c];
      && call.outcome.Data? && !call.stored && i < |tr[r].readers| && tr[r].readers[i].pc == RValidate(call.pub)
      && |tr[r].readers[i].h.calls| == c && tr[r].readers[i].start == call.start && tr[r].readers[i].len == call.len
      && tr[r].readers[i].h.atCall == call.atCall
    ensures j < k && Instant(tr, j, i, c, tr[k].readers[i].h.calls[c])
    ensures var call, s := tr[k].readers[i].h.calls[c], tr[j];
      && call.start <= |s.sh.mem.log|
      && RingRecv(s.sh.mem.log, s.sh.closed, RingSize(capacity), call.start, call.len) == call.outcome
  {
    var call := tr[k].readers[i].h.calls[c];
    j := FindLoad(tr, capacity, r, i);
    LogSince(tr, capacity, j, k);
    RecordedCall(tr, capacity, k, i, c);
    assert tr[j].sh.mem.log == tr[k].sh.mem.log[..call.pub];
    SameAnswer(tr[j].sh.mem.log, tr[j].sh.closed, RingSize(capacity), call.start, call.len);
  }

  lemma RecordedCall(tr: seq<State>, capacity: int, k: nat, i: nat, c: nat)
    requires Run(tr, capacity) && k < |tr| && i < |tr[k].readers| && c < |tr[k].readers[i].h.calls|
    ensures CallOk(tr[k].sh.mem.log, RingSize(capacity), tr[k].readers[i].h.calls[c])
  {
    RunInv(tr, capacity, k);
    CapIsFixed(tr, capacity, k);
    assert ReaderOk(tr[k].sh, Holder(tr[k]), tr[k].readers[i]);
  }

  /** The log of an earlier state is as much of it as was published then. */
  lemma {:induction false} LogSince(tr: seq<State>, capacity: int, j: nat, k: nat)
    requires Run(tr, capacity) && j <= k < |tr|
    ensures tr[j].sh.mem.log <= tr[k].sh.mem.log && |tr[j].sh.mem.log| == tr[j].sh.mem.published
  {
    if j < k {
      LogSince(tr, capacity, j, k - 1);
      LogStep(tr, capacity, k);
    } else {
      RunInv(tr, capacity, k);
    }
  }

  lemma LagInstant(tr: seq<State>, capacity: int, i: nat, c: nat, call: Call, r: nat) returns (j: nat)
    requires Run(tr, capacity) && r < |tr| && i < |tr[r].readers| && |tr[r].readers[i].h.calls| == c
    requires call.outcome == Ended(ErrLagged) && call.len == tr[r].readers[i].len && call.atCall == tr[r].readers[i].h.atCall
    requires if call.stored
             then tr[r].readers[i].pc == RLoadErr && tr[r].readers[i].end.err == Some(ErrLagged) && call.start == tr[r].readers[i].pos
             else tr[r].readers[i].pc == RFinish(ErrLagged) && call.start == tr[r].readers[i].start
    ensures j <= r && Instant(tr, j, i, c, call)
    ensures call.start <= |tr[j].sh.mem.log|
    ensures RingRecv(tr[j].sh.mem.log, tr[j].sh.closed, RingSize(capacity), call.start, call.len) == Ended(ErrLagged)
  {
    if call.stored {
      j := r;
      RunInv(tr, capacity, r);
      CapIsFixed(tr, capacity, r);
      assert ReaderOk(tr[r].sh, Holder(tr[r]), tr[r].readers[i]);
    } else {
      j := FindLag(tr, capacity, r, i);
    }
    LogSince(tr, capacity, j, j);
  }

  /** Drained or not: a `Recv` ended by the ring's close had loaded `published` at
      its own cursor, then found the ring closed; it has delivered everything ever
      published exactly if nothing was published between those two loads. */
  lemma ClosedBetweenLoads(tr: seq<State>, capacity: int, k: nat, i: nat, c: nat) returns (j: nat, l: nat)
    requires Run(tr, capacity) && k < |tr| && i < |tr[k].readers| && c < |tr[k].readers[i].h.calls|
    requires tr[k].readers[i].h.calls[c].outcome == Ended(ErrClosed) && !tr[k].readers[i].h.calls[c].stored
    ensures j < l < k && Instant(tr, j, i, c, tr[k].readers[i].h.calls[c])
    ensures i < |tr[l].readers| && tr[l].readers[i].pc == RCheckClosed && |tr[l].readers[i].h.calls| == c && tr[l].sh.closed
    ensures tr[j].sh.mem.published == tr[k].readers[i].h.calls[c].start
    ensures tr[k].readers[i].h.calls[c].start == tr[k].sh.mem.published <==> tr[j].sh.mem.published == tr[l].sh.mem.published
  {
    var r := FindReturn(tr, capacity, k, i, c);
    ReturnsFrom(tr[r], tr[r].readers[i], tr[r + 1].readers[i]);
    l := FindClosed(tr, capacity, r, i);
    j := FindNothing(tr, capacity, l, i);
    ClosedIsFinal(tr, capacity, l, k);
  }
}
