/** Where the lock-free ring promises less than the locked one: a frame published
    between the reader's two loads is skipped when the ring is then closed. */
module SeqRingUndrained {
  import opened Bits
  import opened Fanout
  import opened SeqRing

  ghost predicate EndsIn(tr: seq<State>, s: State) {
    Run(tr, 1) && tr[|tr| - 1] == s
  }

  lemma Extend(tr: seq<State>, s: State, step: Step, s': State) returns (more: seq<State>)
    requires EndsIn(tr, s) && Enabled(s, step) && s' == Apply(s, step)
    ensures EndsIn(more, s')
  {
    more := tr + [s'];
    forall k | 0 < k < |more| ensures Follows(more, k) {
      if k < |tr| {
        assert Follows(tr, k) && more[k - 1] == tr[k - 1] && more[k] == tr[k];
      } else {
        assert Enabled(more[k - 1], step);
      }
    }
  }

  const NO_FRAME: seq<Option<Msg>> := [None]

  function Start(pc: ReaderPc, counted: bool): State {
    State(Shared(Memory(1, NO_FRAME, 0, 0, []), false, 0, {}, Counters(0, if counted then 1 else 0, 0), None), [],
          [NEW_SUB.(pc := pc, end := NEW_SUB.end.(counted := counted))], [])
  }

  /** A subscriber has loaded `published`, found nothing, and not yet looked at
      `closed`. */
  function Looking(mem: Memory, closed: bool, lock: Option<nat>, writers: seq<Writer>): State {
    State(Shared(mem, closed, 0, {}, Counters(0, 1, 0), lock), writers,
          [NEW_SUB.(pc := RCheckClosed, len := 1, end := NEW_SUB.end.(counted := true))], [])
  }

  const EMPTY: Memory := Memory(1, NO_FRAME, 0, 0, [])

  lemma Begun() returns (tr: seq<State>)
    ensures EndsIn(tr, Start(RSubCheck, true))
  {
    assert Pow2(0) == 1;
    var s: State := State(Shared(EMPTY, false, 0, {}, Counters(0, 0, 0), None), [], [], []);
    assert RingSize(1) == 1;
    assert seq(1, _ => None) == NO_FRAME;
    tr := [s];
    tr := Extend(tr, s, Subscribe, Start(RCountIn, false));
    tr := Extend(tr, Start(RCountIn, false), MoveReader(0), Start(RSubCheck, true));
  }

  lemma Subscribed() returns (tr: seq<State>)
    ensures EndsIn(tr, Start(RIdle, true))
  {
    assert Pow2(0) == 1;
    tr := Begun();
    tr := Extend(tr, Start(RSubCheck, true), MoveReader(0), Start(RSubLoad, true));
    tr := Extend(tr, Start(RSubLoad, true), MoveReader(0), Start(RIdle, true));
  }

  lemma Calls() returns (tr: seq<State>, called: State)
    ensures Enabled(Start(RIdle, true), CallRecv(0, 1))
    ensures called == Apply(Start(RIdle, true), CallRecv(0, 1)) && EndsIn(tr, called)
  {
    assert Pow2(0) == 1;
    tr := Subscribed();
    called := Apply(Start(RIdle, true), CallRecv(0, 1));
    tr := Extend(tr, Start(RIdle, true), CallRecv(0, 1), called);
  }

  lemma Called() returns (tr: seq<State>)
    ensures EndsIn(tr, Looking(EMPTY, false, None, []))
  {
    assert Pow2(0) == 1;
    var called;
    tr, called := Calls();
    var loading := Apply(called, MoveReader(0));
    tr := Extend(tr, called, MoveReader(0), loading);
    tr := Extend(tr, loading, MoveReader(0), Looking(EMPTY, false, None, []));
  }

  function Sending(mem: Memory, lock: Option<nat>, pc: WriterPc): State {
    Looking(mem, false, lock, [Writer(Send([]), pc, if pc.WWaiters? || pc.WUnlock? || pc.WDone? then Some(0) else None)])
  }

  lemma Writing(before: seq<State>) returns (tr: seq<State>)
    requires EndsIn(before, Looking(EMPTY, false, None, []))
    ensures EndsIn(tr, Sending(EMPTY, Some(0), WLoad))
  {
    assert Pow2(0) == 1;
    tr := Extend(before, Looking(EMPTY, false, None, []), Spawn(Send([])), Sending(EMPTY, None, WLock));
    tr := Extend(tr, Sending(EMPTY, None, WLock), MoveWriter(0), Sending(EMPTY, Some(0), WCheck));
    tr := Extend(tr, Sending(EMPTY, Some(0), WCheck), MoveWriter(0), Sending(EMPTY, Some(0), WLoad));
  }

  lemma Stored(before: seq<State>) returns (tr: seq<State>)
    requires EndsIn(before, Sending(EMPTY, Some(0), WLoad))
    ensures EndsIn(tr, Sending(Memory(1, [Some([])], 1, 0, []), Some(0), WPublish(0)))
  {
    assert Pow2(0) == 1;
    assert Slot(1, 0) == 0;
    var begun, stored := EMPTY.(begin := 1), Memory(1, [Some([])], 1, 0, []);
    tr := Extend(before, Sending(EMPTY, Some(0), WLoad), MoveWriter(0), Sending(EMPTY, Some(0), WBegin(0)));
    tr := Extend(tr, Sending(EMPTY, Some(0), WBegin(0)), MoveWriter(0), Sending(begun, Some(0), WSlot(0)));
    tr := Extend(tr, Sending(begun, Some(0), WSlot(0)), MoveWriter(0), Sending(stored, Some(0), WPublish(0)));
  }

  lemma Published(before: seq<State>) returns (tr: seq<State>)
    requires EndsIn(before, Sending(Memory(1, [Some([])], 1, 0, []), Some(0), WPublish(0)))
    ensures EndsIn(tr, Sending(Memory(1, [Some([])], 1, 1, [[]]), None, WDone))
  {
    assert Pow2(0) == 1;
    var m := Memory(1, [Some([])], 1, 1, [[]]);
    var stored := Sending(Memory(1, [Some([])], 1, 0, []), Some(0), WPublish(0));
    tr := Extend(before, stored, MoveWriter(0), Sending(m, Some(0), WWaiters));
    tr := Extend(tr, Sending(m, Some(0), WWaiters), MoveWriter(0), Sending(m, Some(0), WUnlock(None)));
    tr := Extend(tr, Sending(m, Some(0), WUnlock(None)), MoveWriter(0), Sending(m, None, WDone));
  }

  function Closing(closed: bool, lock: Option<nat>, pc: WriterPc): State {
    Looking(Memory(1, [Some([])], 1, 1, [[]]), closed, lock, [Writer(Send([]), WDone, Some(0)), Writer(Shutdown, pc, None)])
  }

  lemma ClosedAfter(before: seq<State>) returns (tr: seq<State>)
    requires EndsIn(before, Sending(Memory(1, [Some([])], 1, 1, [[]]), None, WDone))
    ensures EndsIn(tr, Closing(true, Some(1), WSwap))
  {
    assert Pow2(0) == 1;
    var sent := Sending(Memory(1, [Some([])], 1, 1, [[]]), None, WDone);
    tr := Extend(before, sent, Spawn(Shutdown), Closing(false, None, WLock));
    tr := Extend(tr, Closing(false, None, WLock), MoveWriter(1), Closing(false, Some(1), WCheck));
    tr := Extend(tr, Closing(false, Some(1), WCheck), MoveWriter(1), Closing(false, Some(1), WClosed));
    tr := Extend(tr, Closing(false, Some(1), WClosed), MoveWriter(1), Closing(true, Some(1), WSwap));
  }

  lemma Returned(before: seq<State>, s: State) returns (tr: seq<State>)
    requires EndsIn(before, s) && s == Closing(true, Some(1), WSwap)
    ensures Run(tr, 1)
    ensures var t := tr[|tr| - 1];
            && |t.readers| == 1 && t.sh.mem.published == 1
            && t.readers[0].h.calls == [Call(1, 0, 1, 0, false, false, Ended(ErrClosed))]
  {
    assert Pow2(0) == 1;
    tr := before;
    var t := s;
    for k := 0 to 6
      invariant EndsIn(tr, t) && WellSized(t.sh.mem) && |t.readers| == 1 && t.sh.closed
      invariant t.sh.mem == s.sh.mem && t.sh.closed
      invariant k == 0 ==> t == s
      invariant 0 < k < 6 ==>
        t.readers[0] == s.readers[0].(pc := RFinish(ErrClosed), end :=
          if k == 1 then End(None, Fresh, false, true)
          else if k == 2 then End(None, Running(None, StoreErr, ErrClosed), false, true)
          else if k == 3 then End(Some(ErrClosed), Running(None, DecSubs, ErrClosed), false, true)
          else if k == 4 then End(Some(ErrClosed), Running(None, CloseDone, ErrClosed), false, false)
          else End(Some(ErrClosed), Done, true, false))
      invariant k == 6 ==> t.readers[0].h.calls == [Call(1, 0, 1, 0, false, false, Ended(ErrClosed))]
    {
      var next := Apply(t, MoveReader(0));
      tr := Extend(tr, t, MoveReader(0), next);
      t := next;
    }
  }

  /** One reader, one broadcast, one close: the call ends with `ErrClosed` while
      a frame published before the close was never delivered. */
  lemma CloseMaySkipAFrame() returns (tr: seq<State>)
    ensures Run(tr, 1)
    ensures var t := tr[|tr| - 1];
            && |t.readers| == 1 && |t.readers[0].h.calls| == 1
            && var call := t.readers[0].h.calls[0];
            && call.outcome == Ended(ErrClosed) && !call.stored && call.start < t.sh.mem.published
  {
    tr := Called();
    tr := Writing(tr);
    tr := Stored(tr);
    tr := Published(tr);
    tr := ClosedAfter(tr);
    tr := Returned(tr, Closing(true, Some(1), WSwap));
  }
}
