/** What a banned connection is sent: one PART and one MOD, and no copies of
    either from the pump of the membership the ban removed. */
module MembershipOnce {
  import opened Fanout
  import opened Membership
  import opened MembershipInv
  import opened MembershipSteps
  import opened MembershipLife
  import opened MembershipFrames
  import opened MembershipOrder

  /** Whoever took `m` for a part has told its connection. */
  predicate Told(s: State, m: nat) {
    && m < |s.membs| && s.membs[m].conn < |s.conns|
    && match s.membs[m].custody
       case Untaken => false
       case TakenBy(Owner) => s.conns[s.membs[m].conn].task != Parting(Tell(m))
       case TakenBy(Mod(a)) => a < |s.mods| && s.mods[a].pc != MPart(Tell(m))
       case Released => true
  }

  ghost predicate PumpedOk(s: State, c: nat, m: nat, f: Frame) {
    && m < |s.membs| && s.membs[m].conn == c && s.membs[m].pump != Unstarted && f != Parted(m)
    && (f.Parted? ==> f.m < |s.membs| && s.membs[f.m].partSent)
    && (f.Moderated? ==> f.a < |s.mods| && s.mods[f.a].announced && s.mods[f.a].took != Some(m))
  }

  ghost predicate SentOk(s: State, c: nat)
    requires c < |s.conns|
  {
    var sent := s.conns[c].sent;
    && (forall i | 0 <= i < |sent| && sent[i].Pumped? :: PumpedOk(s, c, sent[i].m, sent[i].frame))
    && (forall m: nat :: multiset(sent)[Direct(Parted(m))] <= if Told(s, m) && s.membs[m].conn == c then 1 else 0)
    && (forall a: nat :: multiset(sent)[Direct(Moderated(a))] <=
          if a < |s.mods| && s.mods[a].target == c && s.mods[a].pc == MDone then 1 else 0)
    && (forall i, j | 0 <= i < j < |sent| && sent[i].Pumped? :: sent[j] != Direct(Backlog(sent[i].m)))
  }

  ghost predicate DuesPaid(s: State, a: nat)
    requires a < |s.mods|
  {
    var b := s.mods[a];
    b.target < |s.conns| &&
    var sent := s.conns[b.target].sent;
    && (b.took.Some? && b.pc != MPart(Tell(b.took.value)) ==> Direct(Parted(b.took.value)) in sent)
    && (b.pc == MDone ==> Direct(Moderated(a)) in sent)
  }

  ghost predicate SocketsOk(s: State) {
    && (forall c | 0 <= c < |s.conns| :: SentOk(s, c))
    && (forall a | 0 <= a < |s.mods| :: DuesPaid(s, a))
  }

  // ------------------------------------------------------------ keeping it

  lemma PartTold(s: State, c: nat, who: Thread, p: PartPc, ok: bool, m: nat)
    requires Core(s) && PartEnabled(s, c, p) && PartOk(s, c, who, p) && m < |s.membs| && s.membs[m].custody != Untaken
    ensures var (t, q) := PartStep(s, c, who, p, ok);
      && (q.Tell? ==> q.m != m)
      && m < |t.membs| && t.membs[m].conn == s.membs[m].conn
      && (t.membs[m].custody == s.membs[m].custody || t.membs[m].custody == Released)
      && |t.conns| == |s.conns| && (forall k | 0 <= k < |s.conns| :: t.conns[k].task == s.conns[k].task) && t.mods == s.mods
  {
    assert ConnCore(s, c);
  }

  lemma ConnTold(s: State, c: nat, ok: bool, pick: nat, m: nat)
    requires Core(s) && ConnEnabled(s, c, pick) && Told(s, m)
    ensures Told(ConnStep(s, c, ok, pick), m)
  {
    assert ConnCore(s, c);
    match s.conns[c].task
    case Joining(j) =>
      if Searching(j) {
        SeekTold(s, c, j, ok, m);
      } else {
        EnterTold(s, c, j, ok, m);
      }
    case Parting(p) =>
      if p != Over { PartTold(s, c, Owner, p, ok, m); }
    case Leaving(p, todo) =>
      if p != Over { PartTold(s, c, Owner, p, ok, m); }
    case _ =>
  }

  lemma SeekTold(s: State, c: nat, j: JoinPc, ok: bool, m: nat)
    requires JoinEnabled(s, c, j) && Searching(j)
    requires s.conns[c].task == Joining(j) && Told(s, m)
    ensures Told(SeekStep(s, c, j, ok), m)
  {
  }

  lemma EnterTold(s: State, c: nat, j: JoinPc, ok: bool, m: nat)
    requires JoinEnabled(s, c, j) && !Searching(j)
    requires s.conns[c].task == Joining(j) && Told(s, m) && MapOk(s, c) && JoinOk(s, c, j)
    ensures Told(EnterStep(s, c, j, ok), m)
  {
    if j.JUndo? || j.JUndoRemove? || j.JUndoClose? || j.JUndoDone? {
      UndoTold(s, c, j, ok, m);
    }
  }

  lemma UndoTold(s: State, c: nat, j: JoinPc, ok: bool, m: nat)
    requires JoinEnabled(s, c, j) && (j.JUndo? || j.JUndoRemove? || j.JUndoClose? || j.JUndoDone?)
    requires s.conns[c].task == Joining(j) && Told(s, m) && MapOk(s, c) && JoinOk(s, c, j)
    ensures Told(EnterStep(s, c, j, ok), m)
  {
  }

  lemma ModTold(s: State, a: nat, ok: bool, m: nat)
    requires Core(s) && ModEnabled(s, a) && Told(s, m)
    ensures Told(ModStep(s, a, ok), m)
  {
    assert ConnCore(s, s.mods[a].target);
    assert ModOk(s, a);
    match s.mods[a].pc
    case MPart(p) =>
      if p != Over { PartTold(s, s.mods[a].target, Mod(a), p, ok, m); }
    case _ =>
  }

  lemma StaysTold(s: State, step: Step, m: nat)
    requires Core(s) && Enabled(s, step) && Told(s, m)
    ensures Told(Apply(s, step), m)
  {
    match step
    case MoveConn(c, ok, pick) => ConnTold(s, c, ok, pick, m);
    case MoveMod(a, ok) => ModTold(s, a, ok, m);
    case _ =>
  }

  /** Telling happens once: not told before, told after. */
  lemma TellsOnce(s: State, step: Step, m: nat)
    requires Core(s) && Enabled(s, step) && NewSent(s, step).Some? && NewSent(s, step).value.1 == Direct(Parted(m))
    ensures !Told(s, m) && Told(Apply(s, step), m)
    ensures m < |s.membs| && s.membs[m].conn == NewSent(s, step).value.0
  {
    match step
    case MoveConn(c, ok, pick) =>
      assert ConnCore(s, c);
    case MoveMod(a, ok) =>
      assert ConnCore(s, s.mods[a].target);
      assert ModOk(s, a);
  }

  lemma PumpedStays(s: State, t: State, c: nat, m: nat, f: Frame)
    requires Evolves(s, t) && ModsEvolve(s, t) && PumpedOk(s, c, m, f)
    ensures PumpedOk(t, c, m, f)
  {
  }

  /** A running pump carries neither its membership's PART nor the MOD of the
      ban that removed it: both enter the ring after it has stopped. */
  lemma DeliverOk(s: State, m: nat)
    requires Core(s) && RingsOk(s) && Enabled(s, Deliver(m))
    ensures PumpedOk(s, s.membs[m].conn, m, s.hub.chans[s.membs[m].chan].ring[s.membs[m].cursor])
  {
    assert InRange(s);
    assert ConnCore(s, s.membs[m].conn);
    assert MembOk(s, m);
    var h := s.membs[m].chan;
    var f := s.hub.chans[h].ring[s.membs[m].cursor];
    assert RingOk(s, h);
    assert FrameOk(s, h, f);
    if f.Moderated? {
      assert ConnCore(s, s.mods[f.a].target);
      assert ModOk(s, f.a);
    }
  }

  lemma NewPumped(s: State, step: Step)
    requires Core(s) && RingsOk(s) && Enabled(s, step) && NewSent(s, step).Some?
    ensures var (c, x) := NewSent(s, step).value;
            && (x.Pumped? ==> PumpedOk(s, c, x.m, x.frame))
            && (x.Direct? && x.frame.Backlog? ==> x.frame.m < |s.membs| && s.membs[x.frame.m].pump == Unstarted)
            && (x.Direct? && x.frame.Moderated? ==>
                  && step.MoveMod? && step.a == x.frame.a < |s.mods| && s.mods[x.frame.a].target == c
                  && s.mods[x.frame.a].pc == MEnforce && step.a < |Apply(s, step).mods| && Apply(s, step).mods[step.a].pc == MDone)
  {
    match step
    case Deliver(m) => DeliverOk(s, m);
    case MoveConn(c, _, _) =>
      assert ConnCore(s, c);
      if s.conns[c].task.Joining? {
        assert MembOk(s, s.conns[c].task.j.m);
      }
    case _ =>
  }

  lemma CountPlus<T>(q: seq<T>, x: T, y: T)
    ensures multiset(q + [x])[y] == multiset(q)[y] + (if x == y then 1 else 0)
  {
  }

  lemma SentStep(s: State, step: Step, t: State, c: nat)
    requires Core(s) && RingsOk(s) && Enabled(s, step) && t == Apply(s, step) && c < |s.conns| && SentOk(s, c)
    requires Evolves(s, t) && ModsEvolve(s, t) && Grown(s, t, NewFrame(s, step), NewSent(s, step))
    ensures c < |t.conns| && SentOk(t, c)
  {
    SentPumps(s, step, t, c);
    forall m: nat ensures multiset(t.conns[c].sent)[Direct(Parted(m))] <= if Told(t, m) && t.membs[m].conn == c then 1 else 0 {
      SentParted(s, step, t, c, m);
    }
    forall a: nat ensures multiset(t.conns[c].sent)[Direct(Moderated(a))] <=
        if a < |t.mods| && t.mods[a].target == c && t.mods[a].pc == MDone then 1 else 0 {
      SentModerated(s, step, t, c, a);
    }
  }

  lemma SentPumps(s: State, step: Step, t: State, c: nat)
    requires Core(s) && RingsOk(s) && Enabled(s, step) && t == Apply(s, step) && c < |s.conns| && SentOk(s, c)
    requires Evolves(s, t) && ModsEvolve(s, t) && Grown(s, t, NewFrame(s, step), NewSent(s, step))
    ensures var sent := t.conns[c].sent;
            && (forall i | 0 <= i < |sent| && sent[i].Pumped? :: PumpedOk(t, c, sent[i].m, sent[i].frame))
            && (forall i, j | 0 <= i < j < |sent| && sent[i].Pumped? :: sent[j] != Direct(Backlog(sent[i].m)))
  {
    var sent := t.conns[c].sent;
    forall i | 0 <= i < |sent| && sent[i].Pumped? ensures PumpedOk(t, c, sent[i].m, sent[i].frame) {
      PumpedAt(s, step, t, c, i);
    }
    if NewSent(s, step).Some? && NewSent(s, step).value.0 == c {
      NewPumped(s, step);
    }
  }

  lemma PumpedAt(s: State, step: Step, t: State, c: nat, i: nat)
    requires Core(s) && RingsOk(s) && Enabled(s, step) && t == Apply(s, step) && c < |s.conns| && SentOk(s, c)
    requires Evolves(s, t) && ModsEvolve(s, t) && Grown(s, t, NewFrame(s, step), NewSent(s, step))
    requires i < |t.conns[c].sent| && t.conns[c].sent[i].Pumped?
    ensures PumpedOk(t, c, t.conns[c].sent[i].m, t.conns[c].sent[i].frame)
  {
    var x := t.conns[c].sent[i];
    if i >= |s.conns[c].sent| {
      NewPumped(s, step);
    }
    PumpedStays(s, t, c, x.m, x.frame);
  }

  lemma SentModerated(s: State, step: Step, t: State, c: nat, a: nat)
    requires Core(s) && RingsOk(s) && Enabled(s, step) && t == Apply(s, step) && c < |s.conns|
    requires ModsEvolve(s, t) && Grown(s, t, NewFrame(s, step), NewSent(s, step))
    requires multiset(s.conns[c].sent)[Direct(Moderated(a))] <=
        if a < |s.mods| && s.mods[a].target == c && s.mods[a].pc == MDone then 1 else 0
    ensures multiset(t.conns[c].sent)[Direct(Moderated(a))] <=
        if a < |t.mods| && t.mods[a].target == c && t.mods[a].pc == MDone then 1 else 0
  {
    if NewSent(s, step).Some? && NewSent(s, step).value.0 == c {
      NewPumped(s, step);
      CountPlus(s.conns[c].sent, NewSent(s, step).value.1, Direct(Moderated(a)));
    }
  }

  lemma SentParted(s: State, step: Step, t: State, c: nat, m: nat)
    requires Core(s) && Enabled(s, step) && t == Apply(s, step) && c < |s.conns|
    requires Evolves(s, t) && Grown(s, t, NewFrame(s, step), NewSent(s, step))
    requires multiset(s.conns[c].sent)[Direct(Parted(m))] <= if Told(s, m) && s.membs[m].conn == c then 1 else 0
    ensures multiset(t.conns[c].sent)[Direct(Parted(m))] <= if Told(t, m) && t.membs[m].conn == c then 1 else 0
  {
    if Told(s, m) {
      StaysTold(s, step, m);
    }
    if NewSent(s, step).Some? && NewSent(s, step).value.0 == c {
      CountPlus(s.conns[c].sent, NewSent(s, step).value.1, Direct(Parted(m)));
      if NewSent(s, step).value.1 == Direct(Parted(m)) {
        TellsOnce(s, step, m);
      }
    }
  }

  lemma ModPays(s: State, a: nat, ok: bool)
    requires Core(s) && ModEnabled(s, a) && DuesPaid(s, a)
    ensures a < |ModStep(s, a, ok).mods| && DuesPaid(ModStep(s, a, ok), a)
  {
    assert ConnCore(s, s.mods[a].target);
    assert ModOk(s, a);
    var step := MoveMod(a, ok);
    MembershipFrames.StepGrows(s, step);
    match s.mods[a].pc
    case MPart(p) =>
      if p != Over { PartKeepsMods(s, s.mods[a].target, Mod(a), p, ok); }
    case _ =>
  }

  /** Another ban, or nobody's, moves. */
  lemma OtherModSame(s: State, step: Step, a: nat)
    requires Enabled(s, step) && a < |s.mods| && (step.MoveMod? ==> step.a != a)
    ensures a < |Apply(s, step).mods| && Apply(s, step).mods[a] == s.mods[a]
  {
    match step
    case MoveMod(i, ok) =>
      if s.mods[i].pc.MPart? && s.mods[i].pc.p != Over {
        PartKeepsMods(s, s.mods[i].target, Mod(i), s.mods[i].pc.p, ok);
      }
    case MoveConn(c, ok, pick) => ConnKeepsMods(s, c, ok, pick);
    case _ =>
  }

  lemma DuesKept(s: State, step: Step, t: State, a: nat)
    requires Core(s) && Enabled(s, step) && t == Apply(s, step) && a < |s.mods| && DuesPaid(s, a)
    requires Grown(s, t, NewFrame(s, step), NewSent(s, step))
    ensures a < |t.mods| && DuesPaid(t, a)
  {
    if step.MoveMod? && step.a == a {
      ModPays(s, a, step.ok);
    } else {
      OtherModSame(s, step, a);
    }
  }

  lemma StepKeepsSockets(s: State, step: Step)
    requires Core(s) && RingsOk(s) && SocketsOk(s) && Enabled(s, step)
    ensures SocketsOk(Apply(s, step))
  {
    var t := Apply(s, step);
    StepEvolves(s, step);
    StepMovesMods(s, step);
    MembershipFrames.StepGrows(s, step);
    forall c | 0 <= c < |t.conns| ensures SentOk(t, c) {
      if c < |s.conns| {
        SentStep(s, step, t, c);
      }
    }
    forall a | 0 <= a < |t.mods| ensures DuesPaid(t, a) {
      if a < |s.mods| {
        DuesKept(s, step, t, a);
      } else {
        NewMod(s, step, a);
      }
    }
  }

  lemma NewMod(s: State, step: Step, a: nat)
    requires Enabled(s, step) && |s.mods| <= a < |Apply(s, step).mods|
    ensures DuesPaid(Apply(s, step), a)
  {
    match step
    case MoveConn(c, ok, pick) => ConnKeepsMods(s, c, ok, pick);
    case MoveMod(i, ok) =>
      if s.mods[i].pc.MPart? && s.mods[i].pc.p != Over {
        PartKeepsMods(s, s.mods[i].target, Mod(i), s.mods[i].pc.p, ok);
      }
    case _ =>
  }

  lemma SocketsNext(tr: seq<State>, k: nat)
    requires Run(tr) && 0 < k < |tr| && SocketsOk(tr[k - 1])
    ensures SocketsOk(tr[k])
  {
    var step := StepTo(tr, k);
    RunRings(tr, k - 1);
    StepKeepsSockets(tr[k - 1], step);
  }

  lemma {:induction false} RunSockets(tr: seq<State>, k: nat)
    requires Run(tr) && k < |tr|
    ensures SocketsOk(tr[k])
  {
    if k > 0 {
      RunSockets(tr, k - 1);
      SocketsNext(tr, k);
    }
  }

  /** A ban whose own part removed membership `m`, once through: its target was
      told `m`'s PART once and the ban's MOD once, and `m`'s pump carried
      neither, whatever ran in between. */
  lemma BanToldOnce(tr: seq<State>, k: nat, a: nat, m: nat)
    requires Run(tr) && k < |tr| && a < |tr[k].mods| && tr[k].mods[a].took == Some(m)
    requires tr[k].mods[a].pc == MDone
    ensures tr[k].mods[a].target < |tr[k].conns|
    ensures var sent := tr[k].conns[tr[k].mods[a].target].sent;
            && multiset(sent)[Direct(Parted(m))] == 1 && multiset(sent)[Direct(Moderated(a))] == 1
            && Pumped(m, Parted(m)) !in sent && Pumped(m, Moderated(a)) !in sent
  {
    RunSockets(tr, k);
    RunCore(tr, k);
    assert DuesPaid(tr[k], a);
    assert SentOk(tr[k], tr[k].mods[a].target);
  }

  /** The backlog goes out before anything the membership's pump delivers. */
  lemma BacklogFirst(tr: seq<State>, k: nat, c: nat, i: nat, j: nat)
    requires Run(tr) && k < |tr| && c < |tr[k].conns|
    requires i < |tr[k].conns[c].sent| && j < |tr[k].conns[c].sent|
    requires tr[k].conns[c].sent[i].Pumped? && tr[k].conns[c].sent[j] == Direct(Backlog(tr[k].conns[c].sent[i].m))
    ensures j < i
  {
    RunSockets(tr, k);
    assert SentOk(tr[k], c);
  }
}
