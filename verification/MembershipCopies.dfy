/** How often a frame reaches a socket: once for every time it was sent directly,
    and once for every membership whose stretch of the ring holds it. */
module MembershipCopies {
  import opened Membership
  import opened MembershipInv
  import opened MembershipSteps
  import opened MembershipLife
  import opened MembershipFrames
  import opened MembershipOrder
  import opened MembershipOnce
  import opened MembershipClean
  import opened MembershipStream

  // ------------------------------------------------------------ copies

  /** How often `f` was handed to a socket, by whatever goroutine. */
  function Copies(sent: seq<Sent>, f: Frame): nat {
    if sent == [] then 0
    else Copies(sent[..|sent| - 1], f) + (if sent[|sent| - 1].frame == f then 1 else 0)
  }

  /** The stretch membership `m`'s pump has delivered holds `f`. */
  ghost predicate Covers(s: State, m: nat, f: Frame) {
    && m < |s.membs| && s.membs[m].chan < |s.hub.chans|
    && exists q :: s.membs[m].origin <= q < s.membs[m].cursor && q < |s.hub.chans[s.membs[m].chan].ring|
                   && s.hub.chans[s.membs[m].chan].ring[q] == f
  }

  ghost predicate NobodyCovers(s: State, c: nat, f: Frame) {
    forall m: nat | m < |s.membs| && s.membs[m].conn == c :: !Covers(s, m, f)
  }

  lemma {:induction false} CopiesAre(sent: seq<Sent>, f: Frame)
    ensures Copies(sent, f) >= multiset(sent)[Direct(f)]
    ensures Copies(sent, f) == multiset(sent)[Direct(f)] <==>
            forall i | 0 <= i < |sent| && sent[i].Pumped? :: sent[i].frame != f
  {
    if sent != [] {
      var p, x := sent[..|sent| - 1], sent[|sent| - 1];
      CopiesAre(p, f);
      assert sent == p + [x];
      CountPlus(p, x, Direct(f));
    }
  }

  lemma {:induction false} PumpedCount(sent: seq<Sent>, m: nat, f: Frame)
    ensures multiset(PumpedFrom(sent, m))[f] == multiset(sent)[Pumped(m, f)]
  {
    if sent != [] {
      var p, x := sent[..|sent| - 1], sent[|sent| - 1];
      PumpedCount(p, m, f);
      assert sent == p + [x];
      CountPlus(p, x, Pumped(m, f));
      if x.Pumped? && x.m == m {
        CountPlus(PumpedFrom(p, m), x.frame, f);
      }
    }
  }

  lemma {:induction false} AtMostOne(q: seq<Frame>, f: Frame)
    requires forall i, j | 0 <= i < j < |q| && q[i] == q[j] :: q[i] != f
    ensures multiset(q)[f] == if f in q then 1 else 0
  {
    if q != [] {
      var p := q[..|q| - 1];
      assert q == p + [q[|q| - 1]];
      AtMostOne(p, f);
      CountPlus(p, q[|q| - 1], f);
    }
  }

  lemma StretchHolds(ring: seq<Frame>, lo: nat, hi: nat, f: Frame)
    requires Ordered(ring) && lo <= hi <= |ring| && f != Talk
    ensures multiset(ring[lo..hi])[f] == if exists q :: lo <= q < hi && ring[q] == f then 1 else 0
  {
    var got := ring[lo..hi];
    forall i, j | 0 <= i < j < |got| && got[i] == got[j] ensures got[i] != f {
      assert ring[lo + i] == ring[lo + j];
    }
    AtMostOne(got, f);
    if f in got {
      var i :| 0 <= i < |got| && got[i] == f;
      assert ring[lo + i] == f;
    } else {
      forall q | lo <= q < hi ensures ring[q] != f {
        assert got[q - lo] == ring[q];
      }
    }
  }

  /** A pump hands over a frame other than talk once if its stretch holds it, and
      never otherwise. */
  lemma PumpedExactly(tr: seq<State>, k: nat, m: nat, f: Frame)
    requires Run(tr) && k < |tr| && m < |tr[k].membs| && f != Talk
    ensures tr[k].membs[m].conn < |tr[k].conns|
    ensures multiset(tr[k].conns[tr[k].membs[m].conn].sent)[Pumped(m, f)] == if Covers(tr[k], m, f) then 1 else 0
  {
    PumpIsGapFree(tr, k, m);
    RingIsOrdered(tr, k, tr[k].membs[m].chan);
    var s, x := tr[k], tr[k].membs[m];
    PumpedCount(s.conns[x.conn].sent, m, f);
    StretchHolds(s.hub.chans[x.chan].ring, x.origin, x.cursor, f);
  }

  lemma RingIsOrdered(tr: seq<State>, k: nat, h: nat)
    requires Run(tr) && k < |tr| && h < |tr[k].hub.chans|
    ensures Ordered(tr[k].hub.chans[h].ring)
  {
    RunRings(tr, k);
    assert RingOk(tr[k], h);
  }

  /** A frame sent directly once reached the socket once in all exactly if no
      membership of that connection delivered it too. */
  lemma OnceIf(tr: seq<State>, k: nat, c: nat, f: Frame)
    requires Run(tr) && k < |tr| && c < |tr[k].conns| && f != Talk && multiset(tr[k].conns[c].sent)[Direct(f)] == 1
    ensures Copies(tr[k].conns[c].sent, f) == 1 <==> NobodyCovers(tr[k], c, f)
  {
    var s := tr[k];
    var sent := s.conns[c].sent;
    RunSockets(tr, k);
    assert SentOk(s, c);
    CopiesAre(sent, f);
    forall m: nat | m < |s.membs| && s.membs[m].conn == c ensures Pumped(m, f) in sent <==> Covers(s, m, f) {
      PumpedExactly(tr, k, m, f);
    }
    if i :| 0 <= i < |sent| && sent[i].Pumped? && sent[i].frame == f {
      assert PumpedOk(s, c, sent[i].m, sent[i].frame) && sent[i] == Pumped(sent[i].m, f);
    }
  }

  /** A ban that is through told its target of its MOD once, however many
      goroutines speak to that socket, exactly if no membership of theirs delivered
      the MOD from the ring; and so for the PART of the membership it removed. */
  lemma ToldOnceIff(tr: seq<State>, k: nat, a: nat)
    requires Run(tr) && k < |tr| && a < |tr[k].mods| && tr[k].mods[a].pc == MDone
    ensures tr[k].mods[a].target < |tr[k].conns|
    ensures var s, b := tr[k], tr[k].mods[a];
      var sent := s.conns[b.target].sent;
      && (Copies(sent, Moderated(a)) == 1 <==> NobodyCovers(s, b.target, Moderated(a)))
      && (b.took.Some? ==> (Copies(sent, Parted(b.took.value)) == 1 <==> NobodyCovers(s, b.target, Parted(b.took.value))))
  {
    RunSockets(tr, k);
    RunCore(tr, k);
    var s, b := tr[k], tr[k].mods[a];
    assert DuesPaid(s, a) && SentOk(s, b.target);
    OnceIf(tr, k, b.target, Moderated(a));
    if b.took.Some? {
      BanToldOnce(tr, k, a, b.took.value);
      OnceIf(tr, k, b.target, Parted(b.took.value));
    }
  }

  // ------------------------------------------------------------ where a frame is

  /** It has had its turn to enter a ring, and has no other. */
  predicate Spent(s: State, f: Frame) {
    match f
    case Joined(m) => m < |s.membs| && s.membs[m].joinSent
    case Parted(m) => m < |s.membs| && s.membs[m].partSent
    case Moderated(a) => a < |s.mods| && s.mods[a].announced
    case _ => false
  }

  lemma SpentStays(s: State, step: Step, f: Frame)
    requires Core(s) && Enabled(s, step) && Spent(s, f)
    ensures Spent(Apply(s, step), f)
  {
    StepEvolves(s, step);
    StepMovesMods(s, step);
  }

  lemma PartUnspent(s: State, c: nat, who: Thread, m: nat)
    requires Core(s) && c < |s.conns| && PartOk(s, c, who, Announce(m))
    ensures !Spent(s, Parted(m))
  {
    assert ConnCore(s, c);
    assert MembOk(s, m);
  }

  lemma NewIsUnspent(s: State, step: Step)
    requires Core(s) && Enabled(s, step) && NewFrame(s, step).Some?
    ensures !Spent(s, NewFrame(s, step).value.1)
  {
    match step
    case MoveConn(c, ok, _) =>
      assert ConnCore(s, c);
      match s.conns[c].task {
        case Joining(j) => assert MembOk(s, j.m);
        case Parting(p) => PartUnspent(s, c, Owner, p.m);
        case Leaving(p, _) => PartUnspent(s, c, Owner, p.m);
      }
    case MoveMod(a, ok) =>
      assert ConnCore(s, s.mods[a].target);
      assert ModOk(s, a);
      match s.mods[a].pc {
        case MPart(p) => PartUnspent(s, s.mods[a].target, Mod(a), p.m);
        case MSay(_) =>
      }
    case Chat(_) =>
  }

  /** `f` stands at place `q` of channel `h`'s ring. */
  predicate At(s: State, h: nat, q: nat, f: Frame) {
    h < |s.hub.chans| && q < |s.hub.chans[h].ring| && s.hub.chans[h].ring[q] == f
  }

  lemma StepPlaces(s: State, step: Step, h: nat, q: nat, f: Frame)
    requires Core(s) && Enabled(s, step) && Spent(s, f) && At(Apply(s, step), h, q, f)
    ensures At(s, h, q, f)
  {
    MembershipFrames.StepGrows(s, step);
    if NewFrame(s, step).Some? {
      NewIsUnspent(s, step);
    }
  }

  lemma StepRings(s: State, step: Step, h: nat)
    requires Enabled(s, step) && h < |s.hub.chans|
    ensures h < |Apply(s, step).hub.chans| && s.hub.chans[h].ring <= Apply(s, step).hub.chans[h].ring
  {
    MembershipFrames.StepGrows(s, step);
  }

  lemma {:induction false} RingsKeep(tr: seq<State>, i: nat, k: nat, h: nat)
    requires Run(tr) && i <= k < |tr| && h < |tr[i].hub.chans|
    ensures h < |tr[k].hub.chans| && tr[i].hub.chans[h].ring <= tr[k].hub.chans[h].ring
  {
    if i < k {
      RingsKeep(tr, i, k - 1, h);
      RingsNext(tr, k, h);
    }
  }

  lemma RingsNext(tr: seq<State>, k: nat, h: nat)
    requires Run(tr) && 0 < k < |tr| && h < |tr[k - 1].hub.chans|
    ensures h < |tr[k].hub.chans| && tr[k - 1].hub.chans[h].ring <= tr[k].hub.chans[h].ring
  {
    var step := StepTo(tr, k);
    StepRings(tr[k - 1], step, h);
  }

  /** What has had its turn never moves and never comes again. */
  lemma {:induction false} PlacesKeep(tr: seq<State>, i: nat, k: nat, h: nat, q: nat, f: Frame)
    requires Run(tr) && i <= k < |tr| && Spent(tr[i], f) && At(tr[k], h, q, f)
    ensures At(tr[i], h, q, f)
  {
    if i < k {
      SpentSince(tr, i, k - 1, f);
      PlacesBefore(tr, k, h, q, f);
      PlacesKeep(tr, i, k - 1, h, q, f);
    }
  }

  lemma PlacesBefore(tr: seq<State>, k: nat, h: nat, q: nat, f: Frame)
    requires Run(tr) && 0 < k < |tr| && Spent(tr[k - 1], f) && At(tr[k], h, q, f)
    ensures At(tr[k - 1], h, q, f)
  {
    var step := StepTo(tr, k);
    StepPlaces(tr[k - 1], step, h, q, f);
  }

  lemma {:induction false} SpentSince(tr: seq<State>, i: nat, k: nat, f: Frame)
    requires Run(tr) && i <= k < |tr| && Spent(tr[i], f)
    ensures Spent(tr[k], f)
  {
    if i < k {
      SpentSince(tr, i, k - 1, f);
      SpentNext(tr, k, f);
    }
  }

  lemma SpentNext(tr: seq<State>, k: nat, f: Frame)
    requires Run(tr) && 0 < k < |tr| && Spent(tr[k - 1], f)
    ensures Spent(tr[k], f)
  {
    var step := StepTo(tr, k);
    SpentStays(tr[k - 1], step, f);
  }

  lemma {:induction false} FindTurn(tr: seq<State>, k: nat, f: Frame) returns (i: nat)
    requires Run(tr) && k < |tr| && Spent(tr[k], f)
    ensures i < k && !Spent(tr[i], f) && Spent(tr[i + 1], f)
  {
    if k > 0 && Spent(tr[k - 1], f) {
      i := FindTurn(tr, k - 1, f);
    } else {
      i := k - 1;
    }
  }

  // ------------------------------------------------------------ where a membership is

  predicate SameMembership(s: State, t: State, m: nat) {
    && m < |s.membs| && m < |t.membs|
    && t.membs[m].conn == s.membs[m].conn && t.membs[m].chan == s.membs[m].chan && t.membs[m].name == s.membs[m].name
    && t.membs[m].origin == s.membs[m].origin
  }

  lemma StepPlace(s: State, step: Step, m: nat)
    requires Core(s) && Enabled(s, step) && m < |s.membs|
    ensures var t := Apply(s, step);
      SameMembership(s, t, m) && (step != Deliver(m) ==> t.membs[m].cursor == s.membs[m].cursor)
  {
    StepEvolves(s, step);
    if step == Deliver(m) {
    } else if step.MoveConn? {
      ConnCursor(s, step.c, step.ok, step.pick, m);
    } else {
      OtherCursor(s, step, m);
    }
  }

  lemma PlaceNext(tr: seq<State>, k: nat, m: nat)
    requires Run(tr) && 0 < k < |tr| && m < |tr[k - 1].membs|
    ensures SameMembership(tr[k - 1], tr[k], m)
  {
    var step := StepTo(tr, k);
    StepPlace(tr[k - 1], step, m);
  }

  lemma {:induction false} PlaceSince(tr: seq<State>, i: nat, k: nat, m: nat)
    requires Run(tr) && i <= k < |tr| && m < |tr[i].membs|
    ensures SameMembership(tr[i], tr[k], m)
  {
    if i < k {
      PlaceSince(tr, i, k - 1, m);
      PlaceNext(tr, k, m);
    }
  }

  /** A membership's stretch begins where its channel's ring ended as it subscribed. */
  lemma OriginIs(tr: seq<State>, i: nat, k: nat, m: nat)
    requires Run(tr) && i < k < |tr| && |tr[i].membs| <= m < |tr[i + 1].membs|
    ensures SameMembership(tr[i + 1], tr[k], m)
    ensures tr[k].membs[m].chan < |tr[i].hub.chans|
    ensures tr[k].membs[m].origin == |tr[i].hub.chans[tr[k].membs[m].chan].ring|
  {
    Birth(tr, i, m);
    PlaceSince(tr, i + 1, k, m);
  }

  lemma Birth(tr: seq<State>, i: nat, m: nat)
    requires Run(tr) && i + 1 < |tr| && |tr[i].membs| <= m < |tr[i + 1].membs|
    ensures tr[i + 1].membs[m].chan < |tr[i].hub.chans|
    ensures tr[i + 1].membs[m].origin == |tr[i].hub.chans[tr[i + 1].membs[m].chan].ring|
  {
    var step := StepTo(tr, i + 1);
    NewIsJoined(tr[i], step);
    ConnCursor(tr[i], step.c, step.ok, step.pick, m);
  }

  lemma {:induction false} FindBirth(tr: seq<State>, i: nat, k: nat, m: nat) returns (j: nat)
    requires Run(tr) && i <= k < |tr| && |tr[i].membs| <= m < |tr[k].membs|
    ensures i <= j < k && |tr[j].membs| <= m < |tr[j + 1].membs|
  {
    if m < |tr[k - 1].membs| {
      j := FindBirth(tr, i, k - 1, m);
    } else {
      j := k - 1;
    }
  }

  lemma StepOver(s: State, step: Step, m: nat)
    requires Core(s) && Enabled(s, step) && Core(Apply(s, step)) && m < |s.membs| && s.membs[m].dones == 1
    ensures var t := Apply(s, step);
      SameMembership(s, t, m) && t.membs[m].dones == 1 && t.membs[m].cursor == s.membs[m].cursor
  {
    StepEvolves(s, step);
    StepPlace(s, step, m);
    StillEnded(Apply(s, step), m);
    StillEnded(s, m);
    NotRunning(s, m);
  }

  lemma NotRunning(s: State, m: nat)
    requires Core(s) && m < |s.membs| && s.membs[m].dones == 1
    ensures s.membs[m].pump != Running
  {
    assert InRange(s) && ConnCore(s, s.membs[m].conn) && MembOk(s, m);
  }

  /** Over for good, and its pump delivers nothing more. */
  lemma {:induction false} OverStaysPut(tr: seq<State>, i: nat, k: nat, m: nat)
    requires Run(tr) && i <= k < |tr| && m < |tr[i].membs| && tr[i].membs[m].dones == 1
    ensures SameMembership(tr[i], tr[k], m) && tr[k].membs[m].dones == 1 && tr[k].membs[m].cursor == tr[i].membs[m].cursor
  {
    if i < k {
      OverStaysPut(tr, i, k - 1, m);
      OverNext(tr, k, m);
    }
  }

  lemma OverNext(tr: seq<State>, k: nat, m: nat)
    requires Run(tr) && 0 < k < |tr| && m < |tr[k - 1].membs| && tr[k - 1].membs[m].dones == 1
    ensures SameMembership(tr[k - 1], tr[k], m) && tr[k].membs[m].dones == 1 && tr[k].membs[m].cursor == tr[k - 1].membs[m].cursor
  {
    var step := StepTo(tr, k);
    RunCore(tr, k);
    StepOver(tr[k - 1], step, m);
  }
}
