/** What a membership's pump hands its socket: the channel's ring from where the
    membership subscribed, in order. */
module MembershipStream {
  import opened Fanout
  import opened Membership
  import opened MembershipInv
  import opened MembershipSteps
  import opened MembershipLife
  import opened MembershipFrames
  import opened MembershipOnce

  /** The frames membership `m`'s pump has delivered, in order. */
  function PumpedFrom(sent: seq<Sent>, m: nat): seq<Frame> {
    if sent == [] then []
    else
      var x := sent[|sent| - 1];
      PumpedFrom(sent[..|sent| - 1], m) + (if x.Pumped? && x.m == m then [x.frame] else [])
  }

  lemma PumpedMore(sent: seq<Sent>, x: Sent, m: nat)
    ensures PumpedFrom(sent + [x], m) == PumpedFrom(sent, m) + (if x.Pumped? && x.m == m then [x.frame] else [])
  {
    assert (sent + [x])[..|sent|] == sent;
  }

  lemma {:induction false} NonePumped(sent: seq<Sent>, m: nat)
    requires forall i | 0 <= i < |sent| && sent[i].Pumped? :: sent[i].m != m
    ensures PumpedFrom(sent, m) == []
  {
    if sent != [] {
      NonePumped(sent[..|sent| - 1], m);
    }
  }

  /** The pump's deliveries begin at the subscription and end at the cursor. */
  ghost predicate StreamOk(s: State, m: nat)
    requires m < |s.membs|
  {
    var x := s.membs[m];
    && x.conn < |s.conns| && x.chan < |s.hub.chans|
    && var got, ring := PumpedFrom(s.conns[x.conn].sent, m), s.hub.chans[x.chan].ring;
    && x.origin <= x.cursor <= |ring| && got == ring[x.origin..x.cursor]
  }

  // ------------------------------------------------------------ cursors

  /** A subscription's beginning is fixed, and this step leaves its cursor. */
  predicate SamePlace(s: State, t: State, m: nat)
    requires m < |s.membs| && m < |t.membs|
  {
    t.membs[m].origin == s.membs[m].origin && t.membs[m].cursor == s.membs[m].cursor
  }

  lemma PartCursor(s: State, c: nat, who: Thread, p: PartPc, ok: bool, m: nat)
    requires PartEnabled(s, c, p) && m < |s.membs|
    ensures var t := PartStep(s, c, who, p, ok).0; |t.membs| == |s.membs| && SamePlace(s, t, m)
  {
  }

  /** A membership is made where its channel's ring then ends. */
  lemma EnterCursor(s: State, c: nat, j: JoinPc, ok: bool, m: nat)
    requires JoinEnabled(s, c, j) && !Searching(j)
    ensures var t := EnterStep(s, c, j, ok);
      && |s.membs| <= |t.membs| <= |s.membs| + 1
      && (m < |s.membs| ==> SamePlace(s, t, m))
      && (|s.membs| <= m < |t.membs| ==>
            && t.membs[m].conn == c && t.membs[m].chan < |s.hub.chans| && t.hub == s.hub && t.conns[c].sent == s.conns[c].sent
            && t.membs[m].origin == t.membs[m].cursor == |s.hub.chans[t.membs[m].chan].ring|)
  {
  }

  lemma ConnCursor(s: State, c: nat, ok: bool, pick: nat, m: nat)
    requires ConnEnabled(s, c, pick)
    ensures var t := ConnStep(s, c, ok, pick);
      && |s.membs| <= |t.membs| <= |s.membs| + 1
      && (m < |s.membs| ==> SamePlace(s, t, m))
      && (|s.membs| <= m < |t.membs| ==>
            && t.membs[m].conn == c && t.membs[m].chan < |s.hub.chans| && t.hub == s.hub
            && c < |t.conns| && t.conns[c].sent == s.conns[c].sent
            && t.membs[m].origin == t.membs[m].cursor == |s.hub.chans[t.membs[m].chan].ring|)
  {
    match s.conns[c].task {
      case Joining(j) =>
        if !Searching(j) {
          EnterCursor(s, c, j, ok, m);
        }
      case Parting(p) =>
        if p != Over && m < |s.membs| { PartCursor(s, c, Owner, p, ok, m); }
      case Leaving(p, _) =>
        if p != Over && m < |s.membs| { PartCursor(s, c, Owner, p, ok, m); }
      case _ =>
    }
  }

  lemma OtherCursor(s: State, step: Step, m: nat)
    requires Enabled(s, step) && !step.MoveConn? && m < |s.membs| && step != Deliver(m)
    ensures |Apply(s, step).membs| == |s.membs| && SamePlace(s, Apply(s, step), m)
  {
    if step.MoveMod? && s.mods[step.a].pc.MPart? && s.mods[step.a].pc.p != Over {
      PartCursor(s, s.mods[step.a].target, Mod(step.a), s.mods[step.a].pc.p, step.ok, m);
    }
  }

  // ------------------------------------------------------------ one step

  lemma NotOurs(s: State, step: Step, m: nat)
    requires Enabled(s, step) && step != Deliver(m) && NewSent(s, step).Some?
    ensures var x := NewSent(s, step).value.1; !(x.Pumped? && x.m == m)
  {
  }

  lemma NothingPumped(a: seq<Sent>, c: nat, add: Option<(nat, Sent)>, m: nat)
    requires add.Some? ==> !(add.value.1.Pumped? && add.value.1.m == m)
    ensures PumpedFrom(Plus(a, c, add), m) == PumpedFrom(a, m)
  {
    if add.Some? {
      PumpedMore(a, add.value.1, m);
    }
  }

  lemma StreamKept(s: State, t: State, f: Option<(nat, Frame)>, x: Option<(nat, Sent)>, m: nat)
    requires Grown(s, t, f, x) && m < |s.membs| && StreamOk(s, m) && (x.Some? ==> !(x.value.1.Pumped? && x.value.1.m == m))
    requires m < |t.membs| && t.membs[m].conn == s.membs[m].conn && t.membs[m].chan == s.membs[m].chan && SamePlace(s, t, m)
    ensures StreamOk(t, m)
  {
    var y := s.membs[m];
    NothingPumped(s.conns[y.conn].sent, y.conn, x, m);
    SliceOfPrefix(s.hub.chans[y.chan].ring, t.hub.chans[y.chan].ring, y.origin, y.cursor);
  }

  lemma StreamStays(s: State, step: Step, t: State, m: nat)
    requires Enabled(s, step) && t == Apply(s, step) && m < |s.membs| && StreamOk(s, m) && step != Deliver(m)
    requires Evolves(s, t) && Grown(s, t, NewFrame(s, step), NewSent(s, step)) && SamePlace(s, t, m)
    ensures StreamOk(t, m)
  {
    if NewSent(s, step).Some? {
      NotOurs(s, step, m);
    }
    StreamKept(s, t, NewFrame(s, step), NewSent(s, step), m);
  }

  lemma DeliverStreams(s: State, m: nat)
    requires Enabled(s, Deliver(m)) && StreamOk(s, m)
    ensures StreamOk(Apply(s, Deliver(m)), m)
  {
    var x := s.membs[m];
    var ring := s.hub.chans[x.chan].ring;
    var got := PumpedFrom(s.conns[x.conn].sent, m);
    PumpedMore(s.conns[x.conn].sent, Pumped(m, ring[x.cursor]), m);
    assert got + [ring[x.cursor]] == ring[x.origin..x.cursor + 1];
  }

  ghost predicate StreamsOk(s: State) {
    forall m | 0 <= m < |s.membs| :: StreamOk(s, m)
  }

  lemma NewStream(s: State, step: Step, m: nat)
    requires Core(s) && SocketsOk(s) && Enabled(s, step) && |s.membs| <= m < |Apply(s, step).membs|
    ensures StreamOk(Apply(s, step), m)
  {
    var t := Apply(s, step);
    NewIsJoined(s, step);
    ConnCursor(s, step.c, step.ok, step.pick, m);
    assert SentOk(s, step.c);
    forall i | 0 <= i < |s.conns[step.c].sent| && s.conns[step.c].sent[i].Pumped? ensures s.conns[step.c].sent[i].m != m {
      assert PumpedOk(s, step.c, s.conns[step.c].sent[i].m, s.conns[step.c].sent[i].frame);
    }
    NonePumped(t.conns[step.c].sent, m);
  }

  lemma NewIsJoined(s: State, step: Step)
    requires Enabled(s, step) && |s.membs| < |Apply(s, step).membs|
    ensures step.MoveConn?
  {
    if step.MoveMod? && s.mods[step.a].pc.MPart? && s.mods[step.a].pc.p != Over {
      PartMembs(s, s.mods[step.a].target, Mod(step.a), s.mods[step.a].pc.p, step.ok);
    }
  }

  lemma PartMembs(s: State, c: nat, who: Thread, p: PartPc, ok: bool)
    requires PartEnabled(s, c, p)
    ensures |PartStep(s, c, who, p, ok).0.membs| == |s.membs|
  {
  }

  lemma StepKeepsStreams(s: State, step: Step)
    requires Core(s) && SocketsOk(s) && StreamsOk(s) && Enabled(s, step)
    ensures StreamsOk(Apply(s, step))
  {
    var t := Apply(s, step);
    StepEvolves(s, step);
    StepGrows(s, step);
    forall m | 0 <= m < |t.membs| ensures StreamOk(t, m) {
      if m >= |s.membs| {
        NewStream(s, step, m);
      } else if step == Deliver(m) {
        DeliverStreams(s, m);
      } else {
        if step.MoveConn? {
          ConnCursor(s, step.c, step.ok, step.pick, m);
        } else {
          OtherCursor(s, step, m);
        }
        StreamStays(s, step, t, m);
      }
    }
  }

  lemma StreamsNext(tr: seq<State>, k: nat)
    requires Run(tr) && 0 < k < |tr| && StreamsOk(tr[k - 1])
    ensures StreamsOk(tr[k])
  {
    RunSockets(tr, k - 1);
    var step := StepTo(tr, k);
    StepKeepsStreams(tr[k - 1], step);
  }

  lemma {:induction false} RunStreams(tr: seq<State>, k: nat)
    requires Run(tr) && k < |tr|
    ensures StreamsOk(tr[k])
  {
    if k > 0 {
      RunStreams(tr, k - 1);
      StreamsNext(tr, k);
    }
  }

  /** Whatever else reaches the socket in between, a membership's pump has
      delivered its channel's ring from where the membership subscribed up to its
      cursor: no frame skipped, none twice, none out of order, none from elsewhere. */
  lemma PumpIsGapFree(tr: seq<State>, k: nat, m: nat)
    requires Run(tr) && k < |tr| && m < |tr[k].membs|
    ensures var s := tr[k];
      var x := s.membs[m];
      && x.conn < |s.conns| && x.chan < |s.hub.chans|
      && x.origin <= x.cursor <= |s.hub.chans[x.chan].ring|
      && PumpedFrom(s.conns[x.conn].sent, m) == s.hub.chans[x.chan].ring[x.origin..x.cursor]
  {
    RunStreams(tr, k);
    assert StreamOk(tr[k], m);
  }
}
