/** What the log of the lock-free-read ring holds: every broadcast's own message,
    once, in the order in which the broadcasts ran. */
module SeqRingBroadcasts {
  import opened Fanout
  import opened SeqRing
  import opened SeqRingSteps
  import opened SeqRingTheorems
  import opened SeqRingInstants

  /** Past the bracket, or turned away. */
  predicate Through(pc: WriterPc) {
    pc.WWaiters? || pc.WSwap? || pc.WUnlock? || pc.WWake? || pc.WDone? || pc.WPanic?
  }

  /** What a goroutine in `Broadcast` or `Close` has put down. */
  ghost predicate WriterOk(mem: Memory, closed: bool, w: Writer) {
    match w.job
    case Send(msg) =>
      && !w.pc.WClosed?
      && (w.place.Some? ==> Through(w.pc) && w.place.value < |mem.log| && mem.log[w.place.value] == msg)
      && (w.place == None && Through(w.pc) ==> closed && !w.pc.WWaiters? && !w.pc.WSwap?)
    case Shutdown =>
      && w.place == None && !w.pc.WLoad? && !w.pc.WBegin? && !w.pc.WSlot? && !w.pc.WPublish? && !w.pc.WWaiters?
      && (Through(w.pc) ==> closed)
  }

  ghost predicate Placed(ws: seq<Writer>, q: nat) {
    exists w: nat :: w < |ws| && ws[w].place == Some(q)
  }

  ghost predicate PlacesOk(s: State) {
    && (forall w | 0 <= w < |s.writers| :: WriterOk(s.sh.mem, s.sh.closed, s.writers[w]))
    && (forall w, v | 0 <= w < v < |s.writers| && s.writers[w].place.Some? :: s.writers[w].place != s.writers[v].place)
    && (forall q: nat | q < |s.sh.mem.log| :: Placed(s.writers, q))
  }

  lemma OwnWriterOk(sh: Shared, me: nat, w: Writer)
    requires WellSized(sh.mem) && WriterEnabled(sh, w) && WriterOk(sh.mem, sh.closed, w)
    ensures var (t, x) := WriterStep(sh, me, w); WriterOk(t.mem, t.closed, x)
    ensures var (t, x) := WriterStep(sh, me, w); sh.mem.log <= t.mem.log && (sh.closed ==> t.closed)
    ensures var (t, x) := WriterStep(sh, me, w);
            if |t.mem.log| > |sh.mem.log| then x.place == Some(|sh.mem.log|) && w.place == None && |t.mem.log| == |sh.mem.log| + 1
            else x.place == w.place
  {
  }

  lemma PlacedStill(a: seq<Writer>, b: seq<Writer>, q: nat)
    requires Placed(a, q) && |a| <= |b| && forall w | 0 <= w < |a| && a[w].place.Some? :: b[w].place == a[w].place
    ensures Placed(b, q)
  {
    var w: nat :| w < |a| && a[w].place == Some(q);
    assert b[w].place == Some(q);
  }

  lemma WriterKeepsPlaces(s: State, w: nat)
    requires PlacesOk(s) && Enabled(s, MoveWriter(w))
    ensures PlacesOk(Apply(s, MoveWriter(w)))
  {
    var t := Apply(s, MoveWriter(w));
    OwnWriterOk(s.sh, w, s.writers[w]);
    forall v | 0 <= v < |t.writers| ensures WriterOk(t.sh.mem, t.sh.closed, t.writers[v]) {
      assert WriterOk(s.sh.mem, s.sh.closed, s.writers[v]);
    }
    forall q: nat | q < |t.sh.mem.log| ensures Placed(t.writers, q) {
      if q < |s.sh.mem.log| {
        PlacedStill(s.writers, t.writers, q);
      } else {
        assert t.writers[w].place == Some(q);
      }
    }
  }

  lemma StepKeepsPlaces(s: State, step: Step)
    requires PlacesOk(s) && Enabled(s, step)
    ensures PlacesOk(Apply(s, step))
  {
    if step.MoveWriter? {
      WriterKeepsPlaces(s, step.w);
    } else {
      var t := Apply(s, step);
      OthersKeepWriters(s, step);
      forall q: nat | q < |t.sh.mem.log| ensures Placed(t.writers, q) {
        PlacedStill(s.writers, t.writers, q);
      }
    }
  }

  lemma OthersKeepWriters(s: State, step: Step)
    requires Enabled(s, step) && !step.MoveWriter?
    ensures var t := Apply(s, step);
      && t.sh.mem == s.sh.mem && t.sh.closed == s.sh.closed
      && if step.Spawn? then t.writers == s.writers + [Writer(step.job, WLock, None)] else t.writers == s.writers
  {
  }

  lemma PlacesNext(tr: seq<State>, capacity: int, k: nat)
    requires Run(tr, capacity) && 0 < k < |tr| && PlacesOk(tr[k - 1])
    ensures PlacesOk(tr[k])
  {
    var step := StepTo(tr, capacity, k);
    StepKeepsPlaces(tr[k - 1], step);
  }

  lemma {:induction false} RunPlaces(tr: seq<State>, capacity: int, k: nat)
    requires Run(tr, capacity) && k < |tr|
    ensures PlacesOk(tr[k])
  {
    if k > 0 {
      RunPlaces(tr, capacity, k - 1);
      PlacesNext(tr, capacity, k);
    }
  }

  /** Every frame of the log is the message of a broadcast, and of one only. */
  lemma EveryFrameWasBroadcast(tr: seq<State>, capacity: int, k: nat, q: nat) returns (w: nat)
    requires Run(tr, capacity) && k < |tr| && q < |tr[k].sh.mem.log|
    ensures w < |tr[k].writers| && tr[k].writers[w].place == Some(q) && tr[k].writers[w].job == Send(tr[k].sh.mem.log[q])
    ensures forall v | 0 <= v < |tr[k].writers| && tr[k].writers[v].place == Some(q) :: v == w
  {
    RunPlaces(tr, capacity, k);
    var s := tr[k];
    assert Placed(s.writers, q);
    w :| w < |s.writers| && s.writers[w].place == Some(q);
    assert WriterOk(s.sh.mem, s.sh.closed, s.writers[w]);
  }

  /** A `Broadcast` that is through has its message in the log, or found the ring
      closed; a `Close` that is through has closed it, and put nothing there. */
  lemma EveryBroadcastIsPublished(tr: seq<State>, capacity: int, k: nat, w: nat)
    requires Run(tr, capacity) && k < |tr| && w < |tr[k].writers| && Through(tr[k].writers[w].pc)
    ensures var s, x := tr[k], tr[k].writers[w];
      match x.job
      case Send(msg) =>
        if x.place.Some? then x.place.value < |s.sh.mem.log| && s.sh.mem.log[x.place.value] == msg else s.sh.closed
      case Shutdown => x.place == None && s.sh.closed
  {
    RunPlaces(tr, capacity, k);
    assert WriterOk(tr[k].sh.mem, tr[k].sh.closed, tr[k].writers[w]);
  }

  ghost predicate HasPlace(s: State, w: nat) {
    w < |s.writers| && s.writers[w].place.Some?
  }

  /** Its place is the log's end as it publishes. */
  lemma PlaceFrom(s: State, step: Step, w: nat)
    requires PlacesOk(s) && Enabled(s, step) && HasPlace(Apply(s, step), w)
    ensures if HasPlace(s, w) then Apply(s, step).writers[w].place == s.writers[w].place
            else Apply(s, step).writers[w].place == Some(|s.sh.mem.log|)
  {
    if step.MoveWriter? {
      assert WriterOk(s.sh.mem, s.sh.closed, s.writers[step.w]);
      OwnWriterOk(s.sh, step.w, s.writers[step.w]);
    } else {
      OthersKeepWriters(s, step);
    }
  }

  lemma PlaceNext(tr: seq<State>, capacity: int, k: nat, w: nat)
    requires Run(tr, capacity) && 0 < k < |tr| && HasPlace(tr[k], w)
    ensures if HasPlace(tr[k - 1], w) then tr[k].writers[w].place == tr[k - 1].writers[w].place
            else tr[k].writers[w].place == Some(|tr[k - 1].sh.mem.log|)
  {
    RunPlaces(tr, capacity, k - 1);
    var step := StepTo(tr, capacity, k);
    PlaceFrom(tr[k - 1], step, w);
  }

  lemma {:induction false} PlaceIsLater(tr: seq<State>, capacity: int, j: nat, k: nat, w: nat)
    requires Run(tr, capacity) && j <= k < |tr| && HasPlace(tr[k], w) && !HasPlace(tr[j], w)
    ensures |tr[j].sh.mem.log| <= tr[k].writers[w].place.value
  {
    PlaceNext(tr, capacity, k, w);
    if HasPlace(tr[k - 1], w) {
      PlaceIsLater(tr, capacity, j, k - 1, w);
    } else {
      LogSince(tr, capacity, j, k - 1);
    }
  }

  /** The log's order is that of the broadcasts: one that was through before another
      had published comes before it. */
  lemma EarlierBroadcastFirst(tr: seq<State>, capacity: int, j: nat, k: nat, v: nat, w: nat)
    requires Run(tr, capacity) && j <= k < |tr| && HasPlace(tr[j], v) && !HasPlace(tr[j], w) && HasPlace(tr[k], w)
    ensures tr[j].writers[v].place.value < tr[k].writers[w].place.value
  {
    RunPlaces(tr, capacity, j);
    assert WriterOk(tr[j].sh.mem, tr[j].sh.closed, tr[j].writers[v]);
    PlaceIsLater(tr, capacity, j, k, w);
  }

  // ------------------------------------------------------------ subscribing

  lemma {:induction false} OriginSince(tr: seq<State>, capacity: int, j: nat, k: nat, i: nat)
    requires Run(tr, capacity) && j <= k < |tr| && i < |tr[j].readers| && !Subscribing(tr[j].readers[i].pc)
    ensures i < |tr[k].readers| && !Subscribing(tr[k].readers[i].pc) && tr[k].readers[i].h.origin == tr[j].readers[i].h.origin
  {
    if j < k {
      OriginSince(tr, capacity, j, k - 1, i);
      var step := StepTo(tr, capacity, k);
      OriginStays(tr[k - 1], step, i);
    }
  }

  lemma OriginStays(s: State, step: Step, i: nat)
    requires Enabled(s, step) && i < |s.readers| && !Subscribing(s.readers[i].pc)
    ensures i < |Apply(s, step).readers|
    ensures !Subscribing(Apply(s, step).readers[i].pc) && Apply(s, step).readers[i].h.origin == s.readers[i].h.origin
  {
  }

  /** A subscription made at step `j`, the ring having been found open, is given the
      log from what was published at that very step. */
  lemma SubscribesAtPublished(tr: seq<State>, capacity: int, j: nat, k: nat, i: nat)
    requires Run(tr, capacity) && j < k < |tr| && i < |tr[j].readers| && i < |tr[j + 1].readers|
    requires tr[j].readers[i].pc.RSubLoad? && !tr[j + 1].readers[i].pc.RSubLoad?
    ensures i < |tr[k].readers| && tr[k].readers[i].h.origin == tr[j].sh.mem.published == |tr[j].sh.mem.log|
    ensures tr[j].sh.mem.log <= tr[k].sh.mem.log
    ensures var from, got := |tr[j].sh.mem.log|, Received(tr[k].readers[i].h.calls);
      && from + |got| <= |tr[k].sh.mem.log| && got == tr[k].sh.mem.log[from..from + |got|]
      && (tr[k].readers[i].pc == RIdle ==> tr[k].readers[i].pos == from + |got|)
  {
    ReaderChanges(tr, capacity, j + 1, i);
    OriginSince(tr, capacity, j + 1, k, i);
    LogSince(tr, capacity, j, k);
    StreamIsLog(tr, capacity, k, i);
  }
}
