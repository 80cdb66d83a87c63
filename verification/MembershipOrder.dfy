/** Orders no interleaving breaks: JOIN before PART in the room, BACKLOG before
    the pump at the socket, and one PART and one MOD for whom a ban removed. */
module MembershipOrder {
  import opened Membership
  import opened MembershipInv
  import opened MembershipSteps
  import opened MembershipLife
  import opened MembershipFrames

  // ------------------------------------------------------------ bans move on

  /** What a ban has taken or announced stays so. */
  ghost predicate ModsEvolve(s: State, t: State) {
    && |t.mods| >= |s.mods|
    && (forall a | 0 <= a < |s.mods| ::
          && t.mods[a].target == s.mods[a].target && t.mods[a].name == s.mods[a].name
          && (s.mods[a].announced ==> t.mods[a].announced)
          && (s.mods[a].took.Some? ==> t.mods[a].took == s.mods[a].took)
          && (s.mods[a].announced || s.mods[a].pc == MDone ==> t.mods[a].took == s.mods[a].took)
          && (s.mods[a].pc == MDone ==> t.mods[a] == s.mods[a]))
  }

  lemma ModMovesOn(s: State, a: nat, ok: bool)
    requires Core(s) && ModEnabled(s, a)
    ensures ModsEvolve(s, ModStep(s, a, ok))
  {
    assert ConnCore(s, s.mods[a].target);
    assert ModOk(s, a);
    if s.mods[a].pc.MPart? && s.mods[a].pc.p != Over {
      PartKeepsMods(s, s.mods[a].target, Mod(a), s.mods[a].pc.p, ok);
    }
  }

  lemma PartKeepsMods(s: State, c: nat, who: Thread, p: PartPc, ok: bool)
    requires PartEnabled(s, c, p)
    ensures PartStep(s, c, who, p, ok).0.mods == s.mods
    ensures PartStep(s, c, who, p, ok).1.Tell? ==> p.Take?
  {
  }

  lemma ConnKeepsMods(s: State, c: nat, ok: bool, pick: nat)
    requires ConnEnabled(s, c, pick)
    ensures ConnStep(s, c, ok, pick).mods == s.mods
  {
    match s.conns[c].task
    case Parting(p) =>
      if p != Over { PartKeepsMods(s, c, Owner, p, ok); }
    case Leaving(p, todo) =>
      if p != Over { PartKeepsMods(s, c, Owner, p, ok); }
    case _ =>
  }

  lemma StepMovesMods(s: State, step: Step)
    requires Core(s) && Enabled(s, step)
    ensures ModsEvolve(s, Apply(s, step))
  {
    match step
    case MoveConn(c, ok, pick) => ConnKeepsMods(s, c, ok, pick);
    case MoveMod(a, ok) => ModMovesOn(s, a, ok);
    case _ =>
  }

  // ------------------------------------------------------------ the rings

  ghost predicate FrameOk(s: State, h: nat, f: Frame)
    requires h < |s.hub.chans|
  {
    match f
    case Joined(m) => m < |s.membs| && s.membs[m].chan == h && s.membs[m].joinSent
    case Parted(m) => m < |s.membs| && s.membs[m].chan == h && s.membs[m].partSent
    case Moderated(a) => a < |s.mods| && s.mods[a].name == s.hub.chans[h].name && s.mods[a].announced
    case _ => true
  }

  /** At most one of each, and no JOIN of a membership after its PART. */
  ghost predicate Ordered(ring: seq<Frame>) {
    && (forall i, j | 0 <= i < j < |ring| && ring[i] == ring[j] :: ring[i] == Talk)
    && (forall i, j | 0 <= i < j < |ring| && ring[i].Parted? :: ring[j] != Joined(ring[i].m))
    && (forall i | 0 <= i < |ring| :: !ring[i].Backlog?)
  }

  ghost predicate RingOk(s: State, h: nat)
    requires h < |s.hub.chans|
  {
    Ordered(s.hub.chans[h].ring) && forall i | 0 <= i < |s.hub.chans[h].ring| :: FrameOk(s, h, s.hub.chans[h].ring[i])
  }

  ghost predicate RingsOk(s: State) {
    forall h | 0 <= h < |s.hub.chans| :: RingOk(s, h)
  }

  lemma FrameStays(s: State, t: State, h: nat, f: Frame)
    requires Evolves(s, t) && ModsEvolve(s, t) && h < |s.hub.chans| && FrameOk(s, h, f)
    ensures FrameOk(t, h, f)
  {
  }

  /** The frame may be added: it is new, and no PART bars a JOIN. */
  ghost predicate Fits(ring: seq<Frame>, f: Frame) {
    && !f.Backlog? && (f == Talk || f !in ring) && (f.Joined? ==> Parted(f.m) !in ring)
  }

  lemma PartFits(s: State, c: nat, who: Thread, m: nat)
    requires Core(s) && RingsOk(s) && c < |s.conns| && m < |s.membs| && s.membs[m].custody == TakenBy(who)
    ensures s.membs[m].chan < |s.hub.chans| && Fits(s.hub.chans[s.membs[m].chan].ring, Parted(m))
  {
    assert InRange(s);
    assert ConnCore(s, s.membs[m].conn);
    assert MembOk(s, m);
    assert RingOk(s, s.membs[m].chan);
  }

  lemma JoinFits(s: State, c: nat, m: nat)
    requires Core(s) && RingsOk(s) && c < |s.conns| && s.conns[c].task == Joining(JAnnounce(m))
    ensures m < |s.membs| && s.membs[m].chan < |s.hub.chans| && Fits(s.hub.chans[s.membs[m].chan].ring, Joined(m))
  {
    assert ConnCore(s, c);
    assert MembOk(s, m);
    assert RingOk(s, s.membs[m].chan);
  }

  lemma ModFits(s: State, a: nat, h: nat)
    requires Core(s) && RingsOk(s) && a < |s.mods| && s.mods[a].pc.MSay? && h < |s.hub.chans|
    ensures Fits(s.hub.chans[h].ring, Moderated(a))
  {
    assert InRange(s);
    assert ConnCore(s, s.mods[a].target);
    assert ModOk(s, a);
    assert RingOk(s, h);
  }

  lemma NewFrameFits(s: State, step: Step)
    requires Core(s) && RingsOk(s) && Enabled(s, step) && NewFrame(s, step).Some?
    ensures var (h, f) := NewFrame(s, step).value; h < |s.hub.chans| && Fits(s.hub.chans[h].ring, f)
  {
    match step
    case MoveConn(c, ok, _) =>
      assert ConnCore(s, c);
      match s.conns[c].task {
       case Joining(j) => JoinFits(s, c, j.m);
       case Parting(p) => PartFits(s, c, Owner, p.m);
       case Leaving(p, _) => PartFits(s, c, Owner, p.m);
      }
    case MoveMod(a, ok) =>
      assert ConnCore(s, s.mods[a].target);
      assert ModOk(s, a);
      match s.mods[a].pc {
       case MPart(p) => PartFits(s, s.mods[a].target, Mod(a), p.m);
       case MSay(ch) => ModFits(s, a, ch);
      }
    case Chat(ch) =>
  }

  lemma PartFrameOk(s: State, c: nat, who: Thread, m: nat, ok: bool)
    requires PartEnabled(s, c, Announce(m))
    ensures var t := PartStep(s, c, who, Announce(m), ok).0;
            s.membs[m].chan < |t.hub.chans| && FrameOk(t, s.membs[m].chan, Parted(m))
  {
  }

  lemma NewFrameOk(s: State, step: Step)
    requires Core(s) && RingsOk(s) && Enabled(s, step) && NewFrame(s, step).Some?
    ensures var (h, f) := NewFrame(s, step).value; h < |Apply(s, step).hub.chans| && FrameOk(Apply(s, step), h, f)
  {
    match step
    case MoveConn(c, ok, _) =>
      match s.conns[c].task {
       case Joining(j) => assert ConnCore(s, c); assert s.membs[j.m].conn == c;
       case Parting(p) => PartFrameOk(s, c, Owner, p.m, ok);
       case Leaving(p, _) => PartFrameOk(s, c, Owner, p.m, ok);
      }
    case MoveMod(a, ok) =>
      match s.mods[a].pc {
       case MPart(p) => PartFrameOk(s, s.mods[a].target, Mod(a), p.m, ok);
       case MSay(_) => assert ConnCore(s, s.mods[a].target) && ModOk(s, a);
      }
    case Chat(ch) =>
  }

  lemma OrderedPlus(ring: seq<Frame>, f: Frame)
    requires Ordered(ring) && Fits(ring, f)
    ensures Ordered(ring + [f])
  {
    var q := ring + [f];
    forall i, j | 0 <= i < j < |q| && q[i] == q[j] ensures q[i] == Talk {
      assert q[i] == ring[i];
    }
    forall i, j | 0 <= i < j < |q| && q[i].Parted? ensures q[j] != Joined(q[i].m) {
      assert q[i] == ring[i];
    }
  }

  lemma StepKeepsRings(s: State, step: Step)
    requires Core(s) && RingsOk(s) && Enabled(s, step)
    ensures RingsOk(Apply(s, step))
  {
    var t := Apply(s, step);
    StepEvolves(s, step);
    StepMovesMods(s, step);
    MembershipFrames.StepGrows(s, step);
    forall h | 0 <= h < |t.hub.chans| ensures RingOk(t, h) {
      if h < |s.hub.chans| {
        RingStep(s, step, t, h);
      }
    }
  }

  lemma RingStep(s: State, step: Step, t: State, h: nat)
    requires Core(s) && RingsOk(s) && Enabled(s, step) && t == Apply(s, step) && h < |s.hub.chans|
    requires Evolves(s, t) && ModsEvolve(s, t) && Grown(s, t, NewFrame(s, step), NewSent(s, step))
    ensures h < |t.hub.chans| && RingOk(t, h)
  {
    assert RingOk(s, h);
    var ring, ring' := s.hub.chans[h].ring, t.hub.chans[h].ring;
    if NewFrame(s, step).Some? && NewFrame(s, step).value.0 == h {
      NewFrameFits(s, step);
      NewFrameOk(s, step);
      OrderedPlus(ring, NewFrame(s, step).value.1);
    }
    forall i | 0 <= i < |ring'| ensures FrameOk(t, h, ring'[i]) {
      if i < |ring| {
        FrameStays(s, t, h, ring[i]);
      }
    }
  }

  lemma RingsNext(tr: seq<State>, k: nat)
    requires Run(tr) && 0 < k < |tr| && RingsOk(tr[k - 1])
    ensures RingsOk(tr[k])
  {
    var step := StepTo(tr, k);
    StepKeepsRings(tr[k - 1], step);
  }

  lemma {:induction false} RunRings(tr: seq<State>, k: nat)
    requires Run(tr) && k < |tr|
    ensures RingsOk(tr[k])
  {
    if k > 0 {
      RunRings(tr, k - 1);
      RingsNext(tr, k);
    }
  }

  /** For any one membership, no channel's ring ever carries its JOIN after its
      PART, nor either of them twice; nor one ban's MOD twice. */
  lemma JoinNeverAfterPart(tr: seq<State>, k: nat, h: nat)
    requires Run(tr) && k < |tr| && h < |tr[k].hub.chans|
    ensures var ring := tr[k].hub.chans[h].ring;
            && (forall i, j | 0 <= i < |ring| && 0 <= j < |ring| && ring[i].Parted? && ring[j] == Joined(ring[i].m) :: j < i)
            && (forall i, j | 0 <= i < j < |ring| && ring[i] == ring[j] :: ring[i] == Talk)
  {
    RunRings(tr, k);
    assert RingOk(tr[k], h);
  }
}
