/** The locked ring and the queue-per-subscriber baseline, driven by the same
    broadcasts, receives and closes, seen by one subscriber of each. */
module FanoutCompare {
  import opened Fanout
  import MapChan

  /** `Close` closes the whole, `Leave` is the subscriber closing itself. */
  datatype Op = Send(msg: Msg) | Recv(len: nat) | Close | Leave

  /** A ring subscription as a value; see `Ring.Recv`. */
  datatype RingSide = RingSide(pos: nat, err: Option<Error>)

  /** Both sides: the log from the subscription until the subscriber left, what each
      has been handed, and the terminal error each has reported. `unaware` records
      that it left without the ring having told it that it had lagged. */
  datatype Both = Both(
    log: seq<Msg>, closed: bool, left: bool, unaware: bool,
    ring: RingSide, ringGot: seq<Msg>, ringEnd: Option<Error>,
    queue: MapChan.Queue, mapGot: seq<Msg>, mapEnd: Option<Error>)

  const START: Both := Both([], false, false, false, RingSide(0, None), [], None, MapChan.Queue([], None), [], None)

  function Handed(o: Outcome): seq<Msg> {
    if o.Data? then o.msgs else []
  }

  function Reported(e: Option<Error>, o: Outcome): Option<Error> {
    if o.Ended? then Some(o.err) else e
  }

  function RingAnswer(b: Both, size: nat, len: nat): Outcome
    requires b.ring.pos <= |b.log|
  {
    if b.ring.err.Some? then Ended(b.ring.err.value) else RingRecv(b.log, b.closed, size, b.ring.pos, len)
  }

  /** One broadcast too many while `size` were already unread. */
  predicate RingDoomed(b: Both, size: nat) {
    |b.log| - b.ring.pos > size
  }

  function Step(size: nat, b: Both, op: Op): Both {
    match op
    case Send(msg) =>
      if b.closed || b.left then b else b.(log := b.log + [msg], queue := MapChan.Send(size, b.queue, msg))
    case Close => b.(closed := true, queue := MapChan.End(b.queue))
    case Leave =>
      b.(left := true, unaware := b.unaware || (b.ring.err == None && RingDoomed(b, size)),
         ring := b.ring.(err := if b.ring.err == None then Some(ErrClosed) else b.ring.err), queue := MapChan.End(b.queue))
    case Recv(len) =>
      if len == 0 || b.ring.pos > |b.log| then b
      else
        var o := RingAnswer(b, size, len);
        var (q, p) := MapChan.Take(b.queue, len);
        b.(ring := RingSide(b.ring.pos + |Handed(o)|, if o.Ended? then Some(o.err) else b.ring.err),
           ringGot := b.ringGot + Handed(o), ringEnd := Reported(b.ringEnd, o),
           queue := q, mapGot := b.mapGot + Handed(p), mapEnd := Reported(b.mapEnd, p))
  }

  /** The two sides after a whole schedule. */
  function Play(size: nat, ops: seq<Op>): Both {
    if ops == [] then START else Step(size, Play(size, ops[..|ops| - 1]), ops[|ops| - 1])
  }

  predicate MapDoomed(b: Both) {
    b.queue.ended == Some(ErrLagged)
  }

  /** An end is one of the two errors. */
  predicate OneOf(e: Option<Error>) {
    e == None || e == Some(ErrClosed) || e == Some(ErrLagged)
  }

  ghost predicate Agree(b: Both, size: nat) {
    && OneOf(b.queue.ended) && OneOf(b.ring.err)
    && b.ring.pos <= |b.log| && b.ringGot == b.log[..b.ring.pos]
    && |b.mapGot| + |b.queue.pending| <= |b.log|
    && b.mapGot + b.queue.pending == b.log[..|b.mapGot| + |b.queue.pending|]
    && (RingDoomed(b, size) <==> MapDoomed(b))
    && (!RingDoomed(b, size) ==> |b.mapGot| + |b.queue.pending| == |b.log|)
    && (!RingDoomed(b, size) && !b.left ==> b.ring.pos == |b.mapGot|)
    && b.ring.pos <= |b.mapGot|
    && (RingDoomed(b, size) ==> |b.mapGot| + |b.queue.pending| == b.ring.pos + size)
    && (b.queue.ended.Some? && !MapDoomed(b) ==> b.closed || b.left)
    && (b.closed || b.left ==> b.queue.ended.Some?)
    && (b.left ==> b.ring.err.Some?)
    && (b.ring.err == Some(ErrLagged) ==> RingDoomed(b, size))
    && (b.ring.err == Some(ErrClosed) && !b.left ==> b.closed && !RingDoomed(b, size) && b.ring.pos == |b.log|)
    && (b.unaware <==> b.left && b.ring.err == Some(ErrClosed) && RingDoomed(b, size))
    && (b.ringEnd.Some? ==> b.ringEnd == b.ring.err)
    && (b.mapEnd.Some? ==> b.mapEnd == b.queue.ended && b.queue.pending == [])
  }

  lemma SendAgrees(size: nat, b: Both, msg: Msg)
    requires Agree(b, size) && size > 0
    ensures Agree(Step(size, b, Send(msg)), size)
  {
    if !b.closed && !b.left {
      var b' := Step(size, b, Send(msg));
      assert b'.log[..|b.log|] == b.log;
      assert b.ring.pos <= |b.log| ==> b'.log[..b.ring.pos] == b.log[..b.ring.pos];
      var n := |b.mapGot| + |b.queue.pending|;
      assert b'.log[..n] == b.log[..n];
      assert b.queue.ended != Some(ErrClosed);
      if b.queue.ended == None && |b.queue.pending| < size {
        assert b'.queue.pending == b.queue.pending + [msg];
        assert b'.mapGot + b'.queue.pending == (b.mapGot + b.queue.pending) + [msg];
      }
    }
  }

  lemma RingTakes(size: nat, b: Both, len: nat)
    requires Agree(b, size) && len > 0
    ensures var o := RingAnswer(b, size, len);
            b.ring.pos + |Handed(o)| <= |b.log| && b.ringGot + Handed(o) == b.log[..b.ring.pos + |Handed(o)|]
  {
    var o := RingAnswer(b, size, len);
    if o.Data? {
      assert b.log[..b.ring.pos] + o.msgs == b.log[..b.ring.pos + |o.msgs|];
    }
  }

  lemma RecvAgrees(size: nat, b: Both, len: nat)
    requires Agree(b, size) && size > 0
    ensures Agree(Step(size, b, Recv(len)), size)
  {
    if len > 0 {
      RingTakes(size, b, len);
      var (q, p) := MapChan.Take(b.queue, len);
      assert b.queue.pending == Handed(p) + q.pending;
      assert (b.mapGot + Handed(p)) + q.pending == b.mapGot + b.queue.pending;
    }
  }

  lemma ClosesAgree(size: nat, b: Both, op: Op)
    requires Agree(b, size) && size > 0 && (op.Close? || op.Leave?)
    ensures Agree(Step(size, b, op), size)
  {
  }

  lemma {:induction false} PlayAgrees(size: nat, ops: seq<Op>)
    requires size > 0
    ensures Agree(Play(size, ops), size)
  {
    if ops != [] {
      PlayAgrees(size, ops[..|ops| - 1]);
      match ops[|ops| - 1]
      case Send(msg) => SendAgrees(size, Play(size, ops[..|ops| - 1]), msg);
      case Recv(len) => RecvAgrees(size, Play(size, ops[..|ops| - 1]), len);
      case Close => ClosesAgree(size, Play(size, ops[..|ops| - 1]), Close);
      case Leave => ClosesAgree(size, Play(size, ops[..|ops| - 1]), Leave);
    }
  }

  /** Over every schedule the two doom a subscriber at the same broadcast: the
      one that finds exactly `size` frames unread. */
  lemma DoomedTogether(size: nat, ops: seq<Op>)
    requires size > 0
    ensures RingDoomed(Play(size, ops), size) <==> MapDoomed(Play(size, ops))
    ensures forall msg :: var b := Play(size, ops);
              !MapDoomed(b) ==> (MapDoomed(Play(size, ops + [Send(msg)])) <==> !b.closed && !b.left && |b.log| - b.ring.pos == size)
  {
    PlayAgrees(size, ops);
    forall msg
      ensures var b := Play(size, ops);
              !MapDoomed(b) ==> (MapDoomed(Play(size, ops + [Send(msg)])) <==> !b.closed && !b.left && |b.log| - b.ring.pos == size)
    {
      assert (ops + [Send(msg)])[..|ops|] == ops;
      PlayAgrees(size, ops + [Send(msg)]);
    }
  }

  /** What the ring delivers is a prefix of what the queue delivers, itself a
      gap-free run of the log; until a subscriber is doomed or leaves they are equal. */
  lemma RingDeliversAPrefix(size: nat, ops: seq<Op>)
    requires size > 0
    ensures var b := Play(size, ops); b.ringGot <= b.mapGot <= b.log
    ensures var b := Play(size, ops); !MapDoomed(b) && !b.left ==> b.ringGot == b.mapGot
  {
    PlayAgrees(size, ops);
    var b := Play(size, ops);
    var n := |b.mapGot| + |b.queue.pending|;
    assert b.mapGot == (b.mapGot + b.queue.pending)[..|b.mapGot|];
    assert b.log[..n][..|b.mapGot|] == b.log[..|b.mapGot|];
  }

  /** Both end for the same reason, exactly unless the subscriber left before the ring
      told it that it had lagged; a doomed queue still hands over the `size` frames
      it held, and a ring reports its close, unless left, only after handing over all. */
  lemma SameEnd(size: nat, ops: seq<Op>)
    requires size > 0
    ensures var b := Play(size, ops);
            && (b.ringEnd.Some? && b.mapEnd.Some? ==> (b.ringEnd == b.mapEnd <==> !b.unaware))
            && (b.ringEnd == Some(ErrClosed) && !b.left ==> b.ringGot == b.mapGot == b.log)
            && (b.mapEnd == Some(ErrClosed) ==> b.mapGot == b.log)
            && (b.mapEnd == Some(ErrLagged) ==> |b.mapGot| == |b.ringGot| + size)
  {
    PlayAgrees(size, ops);
    RingDeliversAPrefix(size, ops);
    var b := Play(size, ops);
    assert b.log[..|b.log|] == b.log;
  }

  lemma PlayMore(size: nat, ops: seq<Op>, op: Op)
    ensures Play(size, ops + [op]) == Step(size, Play(size, ops), op)
  {
    assert (ops + [op])[..|ops|] == ops;
  }

  /** Room for one frame, two broadcast, and the subscriber leaves: the ring says
      closed, the queue hands over its frame and says lagged. */
  lemma ReasonsMayDiffer() returns (ops: seq<Op>)
    ensures Play(1, ops).ringEnd == Some(ErrClosed) && Play(1, ops).mapEnd == Some(ErrLagged)
  {
    ops := [Send([])];
    assert Play(1, []) == START && [] + [Send([])] == ops;
    PlayMore(1, [], Send([]));
    PlayMore(1, ops, Send([]));
    ops := ops + [Send([])];
    PlayMore(1, ops, Leave);
    ops := ops + [Leave];
    PlayMore(1, ops, Recv(1));
    ops := ops + [Recv(1)];
    PlayMore(1, ops, Recv(1));
    ops := ops + [Recv(1)];
  }

  // ------------------------------------------------------------ what a receive does

  lemma {:induction false} ClosedIs(size: nat, ops: seq<Op>)
    ensures Play(size, ops).closed <==> Close in ops
    ensures Play(size, ops).left <==> Leave in ops
  {
    if ops != [] {
      ClosedIs(size, ops[..|ops| - 1]);
      assert ops == ops[..|ops| - 1] + [ops[|ops| - 1]];
    }
  }

  /** With something within its slack to read, a receive hands over the next frames
      there are, as many as there is room for, and reports no end. */
  lemma RecvDelivers(size: nat, ops: seq<Op>, len: nat)
    requires size > 0 && len > 0 && Leave !in ops
    requires 0 < |Play(size, ops).log| - |Play(size, ops).ringGot| <= size
    ensures var b, t := Play(size, ops), Play(size, ops + [Recv(len)]);
      var n := |b.ringGot| + (if len < |b.log| - |b.ringGot| then len else |b.log| - |b.ringGot|);
      t.ringGot == t.mapGot == b.log[..n] && t.ringEnd == t.mapEnd == None
  {
    PlayAgrees(size, ops);
    ClosedIs(size, ops);
    PlayMore(size, ops, Recv(len));
    StepDelivers(size, Play(size, ops), len);
  }

  lemma FrontOf(x: seq<Msg>, y: seq<Msg>, all: seq<Msg>, m: nat)
    requires x + y == all && m <= |y|
    ensures x + y[..m] == all[..|x| + m] && all[|x|..|x| + m] == y[..m]
  {
  }

  lemma Unread(b: Both, size: nat)
    requires Agree(b, size) && !b.left && 0 < |b.log| - b.ring.pos <= size
    ensures b.ringGot == b.mapGot && |b.ringGot| == b.ring.pos && b.mapGot + b.queue.pending == b.log
    ensures b.ring.err == b.ringEnd == b.mapEnd == None
  {
    assert b.log[..|b.log|] == b.log;
  }

  lemma StepDelivers(size: nat, b: Both, len: nat)
    requires Agree(b, size) && len > 0 && !b.left && 0 < |b.log| - b.ring.pos <= size
    ensures var t := Step(size, b, Recv(len));
      var n := b.ring.pos + (if len < |b.log| - b.ring.pos then len else |b.log| - b.ring.pos);
      t.ringGot == t.mapGot == b.log[..n] && t.ringEnd == t.mapEnd == None
  {
    Unread(b, size);
    FrontOf(b.mapGot, b.queue.pending, b.log, if len < |b.log| - b.ring.pos then len else |b.log| - b.ring.pos);
  }

  /** A ring that was closed is reported closed to whoever has read it all; one that
      lagged is told so; and nobody else hears of an end. */
  lemma RingEndIsReported(size: nat, ops: seq<Op>, len: nat)
    requires size > 0 && len > 0 && Leave !in ops
    ensures var b, t := Play(size, ops), Play(size, ops + [Recv(len)]);
      && |b.ringGot| <= |b.log|
      && (|b.log| - |b.ringGot| > size ==> t.ringEnd == Some(ErrLagged))
      && (b.ringGot == b.log && Close in ops ==> t.ringEnd == Some(ErrClosed))
      && (b.ringGot == b.log && Close !in ops ==> t.ringEnd == None)
  {
    PlayAgrees(size, ops);
    ClosedIs(size, ops);
    PlayMore(size, ops, Recv(len));
  }

  /** And so with the queue, once it has handed over what it held. */
  lemma QueueEndIsReported(size: nat, ops: seq<Op>, len: nat)
    requires size > 0 && len > 0 && Leave !in ops
    ensures var b, t := Play(size, ops), Play(size, ops + [Recv(len)]);
      && |b.mapGot| <= |b.log|
      && (RingDoomed(b, size) && |b.mapGot| == |b.ringGot| + size ==> t.mapEnd == Some(ErrLagged))
      && (RingDoomed(b, size) && |b.mapGot| < |b.ringGot| + size ==> t.mapEnd == None && |t.mapGot| > |b.mapGot|)
      && (!RingDoomed(b, size) && b.mapGot == b.log && Close in ops ==> t.mapEnd == Some(ErrClosed))
      && (!RingDoomed(b, size) && Close !in ops ==> t.mapEnd == None)
  {
    PlayAgrees(size, ops);
    ClosedIs(size, ops);
    PlayMore(size, ops, Recv(len));
  }

  /** Who has left hears of an end at the next receive, and gets nothing more. */
  lemma LeftIsReported(size: nat, ops: seq<Op>, len: nat)
    requires size > 0 && len > 0 && Leave in ops
    ensures var b, t := Play(size, ops), Play(size, ops + [Recv(len)]); t.ringEnd.Some? && t.ringGot == b.ringGot
  {
    PlayAgrees(size, ops);
    ClosedIs(size, ops);
    PlayMore(size, ops, Recv(len));
  }

  /** The messages of the broadcasts before the close and before leaving. */
  function Sent(ops: seq<Op>): seq<Msg> {
    if ops == [] then []
    else
      var before, op := ops[..|ops| - 1], ops[|ops| - 1];
      Sent(before) + (if op.Send? && Close !in before && Leave !in before then [op.msg] else [])
  }

  lemma {:induction false} LogIsSent(size: nat, ops: seq<Op>)
    ensures Play(size, ops).log == Sent(ops)
  {
    if ops != [] {
      LogIsSent(size, ops[..|ops| - 1]);
      ClosedIs(size, ops[..|ops| - 1]);
    }
  }
}
