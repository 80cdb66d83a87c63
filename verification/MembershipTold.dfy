/** When a ban's PART and MOD reach its target once: whenever every membership
    they ever had of that channel is over as the frame enters the ring. */
module MembershipTold {
  import opened Fanout
  import opened Membership
  import opened MembershipInv
  import opened MembershipSteps
  import opened MembershipLife
  import opened MembershipBans
  import opened MembershipOrder
  import opened MembershipOnce
  import opened MembershipClean
  import opened MembershipStream
  import opened MembershipCopies

  /** Every membership `c` ever had of `n` has come to its end. */
  ghost predicate AllOver(s: State, c: nat, n: Name) {
    forall m: nat | Mine(s, c, n, m) :: s.membs[m].dones == 1
  }

  /** Only rings of channels called `n` hold `f`. */
  ghost predicate OnlyIn(s: State, f: Frame, n: Name) {
    forall h: nat, q: nat | At(s, h, q, f) :: s.hub.chans[h].name == n
  }

  // ------------------------------------------------------------ one frame

  lemma InRingIsSpent(tr: seq<State>, k: nat, h: nat, q: nat, f: Frame)
    requires Run(tr) && k < |tr| && At(tr[k], h, q, f) && f != Talk
    ensures Spent(tr[k], f)
  {
    RunRings(tr, k);
    assert RingOk(tr[k], h) && FrameOk(tr[k], h, tr[k].hub.chans[h].ring[q]);
  }

  /** A frame's turn is neither a delivery nor a subscription. */
  lemma TurnIsApart(s: State, step: Step, f: Frame)
    requires Enabled(s, step) && !Spent(s, f) && Spent(Apply(s, step), f)
    ensures !step.Deliver? && |Apply(s, step).membs| <= |s.membs|
  {
    if |Apply(s, step).membs| > |s.membs| {
      MembsGrow(s, step, |s.membs|);
    }
  }

  /** As `f` has its turn no cursor moves, and no ring holds it yet. */
  lemma CursorsAtTurn(tr: seq<State>, i: nat, m: nat, q: nat, f: Frame)
    requires Run(tr) && i + 1 < |tr| && !Spent(tr[i], f) && Spent(tr[i + 1], f) && f != Talk
    requires m < |tr[i + 1].membs| && At(tr[i + 1], tr[i + 1].membs[m].chan, q, f)
    ensures tr[i + 1].membs[m].cursor <= q
  {
    var step := StepTo(tr, i + 1);
    TurnIsApart(tr[i], step, f);
    PumpIsGapFree(tr, i, m);
    StepPlace(tr[i], step, m);
    StepRings(tr[i], step, tr[i].membs[m].chan);
    if q < |tr[i].hub.chans[tr[i].membs[m].chan].ring| {
      InRingIsSpent(tr, i, tr[i].membs[m].chan, q, f);
      assert false;
    }
  }

  /** A membership over by then never delivers it. */
  lemma OldMisses(tr: seq<State>, i: nat, k: nat, m: nat, f: Frame)
    requires Run(tr) && i < k < |tr| && !Spent(tr[i], f) && Spent(tr[i + 1], f) && f != Talk
    requires m < |tr[i + 1].membs| && tr[i + 1].membs[m].dones == 1
    ensures !Covers(tr[k], m, f)
  {
    OverStaysPut(tr, i + 1, k, m);
    var x := tr[k].membs[m];
    forall q: nat | At(tr[k], x.chan, q, f) ensures x.cursor <= q {
      PlacesKeep(tr, i + 1, k, x.chan, q, f);
      CursorsAtTurn(tr, i, m, q, f);
    }
    if Covers(tr[k], m, f) {
      var q :| x.origin <= q < x.cursor && q < |tr[k].hub.chans[x.chan].ring| && tr[k].hub.chans[x.chan].ring[q] == f;
      assert At(tr[k], x.chan, q, f);
    }
  }

  /** Nor does one made afterwards. */
  lemma NewMisses(tr: seq<State>, i: nat, k: nat, m: nat, f: Frame)
    requires Run(tr) && i < k < |tr| && Spent(tr[i], f) && |tr[i].membs| <= m < |tr[k].membs|
    ensures !Covers(tr[k], m, f)
  {
    var j := FindBirth(tr, i, k, m);
    OriginIs(tr, j, k, m);
    var x := tr[k].membs[m];
    forall q: nat | At(tr[k], x.chan, q, f) ensures q < x.origin {
      PlacesKeep(tr, i, k, x.chan, q, f);
      RingsKeep(tr, i, j, x.chan);
    }
    if Covers(tr[k], m, f) {
      var q :| x.origin <= q < x.cursor && q < |tr[k].hub.chans[x.chan].ring| && tr[k].hub.chans[x.chan].ring[q] == f;
      assert At(tr[k], x.chan, q, f);
    }
  }

  lemma NameOfMembership(tr: seq<State>, k: nat, m: nat)
    requires Run(tr) && k < |tr| && m < |tr[k].membs|
    ensures tr[k].membs[m].chan < |tr[k].hub.chans| && tr[k].hub.chans[tr[k].membs[m].chan].name == tr[k].membs[m].name
  {
    RunCore(tr, k);
    assert InRange(tr[k]) && ConnCore(tr[k], tr[k].membs[m].conn) && MembOk(tr[k], m);
  }

  /** All over as it has its turn, nobody's stretch ever holds it. */
  lemma OverMeansMissed(tr: seq<State>, i: nat, k: nat, c: nat, n: Name, f: Frame)
    requires Run(tr) && i < k < |tr| && !Spent(tr[i], f) && Spent(tr[i + 1], f) && f != Talk
    requires AllOver(tr[i + 1], c, n) && OnlyIn(tr[k], f, n)
    ensures NobodyCovers(tr[k], c, f)
  {
    forall m: nat | m < |tr[k].membs| && tr[k].membs[m].conn == c ensures !Covers(tr[k], m, f) {
      if m >= |tr[i + 1].membs| {
        NewMisses(tr, i + 1, k, m, f);
      } else {
        PlaceSince(tr, i + 1, k, m);
        NameOfMembership(tr, k, m);
        if tr[k].membs[m].name == n {
          assert Mine(tr[i + 1], c, n, m);
          OldMisses(tr, i, k, m, f);
        } else if Covers(tr[k], m, f) {
          var x := tr[k].membs[m];
          var q :| x.origin <= q < x.cursor && q < |tr[k].hub.chans[x.chan].ring| && tr[k].hub.chans[x.chan].ring[q] == f;
          assert At(tr[k], x.chan, q, f);
        }
      }
    }
  }

  lemma UnspentIsMissed(tr: seq<State>, k: nat, c: nat, f: Frame)
    requires Run(tr) && k < |tr| && !Spent(tr[k], f) && f != Talk
    ensures NobodyCovers(tr[k], c, f)
  {
    forall m: nat | m < |tr[k].membs| && tr[k].membs[m].conn == c ensures !Covers(tr[k], m, f) {
      var x := tr[k].membs[m];
      if Covers(tr[k], m, f) {
        var q :| x.origin <= q < x.cursor && q < |tr[k].hub.chans[x.chan].ring| && tr[k].hub.chans[x.chan].ring[q] == f;
        InRingIsSpent(tr, k, x.chan, q, f);
      }
    }
  }

  // ------------------------------------------------------------ a ban's frames

  lemma ModIsThere(tr: seq<State>, k: nat, a: nat)
    requires Run(tr) && k < |tr| && a < |tr[k].mods|
    ensures OnlyIn(tr[k], Moderated(a), tr[k].mods[a].name)
  {
    RunRings(tr, k);
    forall h: nat, q: nat | At(tr[k], h, q, Moderated(a)) ensures tr[k].hub.chans[h].name == tr[k].mods[a].name {
      assert RingOk(tr[k], h) && FrameOk(tr[k], h, tr[k].hub.chans[h].ring[q]);
    }
  }

  lemma PartIsThere(tr: seq<State>, k: nat, m: nat)
    requires Run(tr) && k < |tr| && m < |tr[k].membs|
    ensures OnlyIn(tr[k], Parted(m), tr[k].membs[m].name)
  {
    RunRings(tr, k);
    NameOfMembership(tr, k, m);
    forall h: nat, q: nat | At(tr[k], h, q, Parted(m)) ensures tr[k].hub.chans[h].name == tr[k].membs[m].name {
      assert RingOk(tr[k], h) && FrameOk(tr[k], h, tr[k].hub.chans[h].ring[q]);
    }
  }

  /** Saying a MOD touches nobody's membership. */
  lemma SayingIsApart(s: State, step: Step, a: nat, c: nat, n: Name)
    requires Core(s) && Enabled(s, step) && !Spent(s, Moderated(a)) && Spent(Apply(s, step), Moderated(a)) && AllOver(s, c, n)
    ensures AllOver(Apply(s, step), c, n)
  {
    if a < |s.mods| && step == MoveMod(a, true) {
    } else if a < |s.mods| {
      OtherModSame(s, step, a);
    } else {
      ModsGrow(s, step, a);
    }
  }

  /** The guard: if, as a ban's MOD is about to enter the ring, every membership its
      target ever had of that channel is over, they are told of it once. */
  lemma OverIsOnce(tr: seq<State>, i: nat, k: nat, a: nat)
    requires Run(tr) && i < k < |tr| && a < |tr[i].mods| && tr[i].mods[a].pc.MSay?
    requires a < |tr[i + 1].mods| && tr[i + 1].mods[a].announced
    requires AllOver(tr[i], tr[i].mods[a].target, tr[i].mods[a].name)
    requires a < |tr[k].mods| && tr[k].mods[a].pc == MDone
    ensures tr[k].mods[a].target < |tr[k].conns|
    ensures Copies(tr[k].conns[tr[k].mods[a].target].sent, Moderated(a)) == 1
  {
    var f := Moderated(a);
    var c, n := tr[i].mods[a].target, tr[i].mods[a].name;
    UnsaidAt(tr, i, a);
    SaidNext(tr, i, a, c, n);
    BanSince(tr, i, k, a);
    ModIsThere(tr, k, a);
    OverMeansMissed(tr, i, k, c, n, f);
    ToldOnceIff(tr, k, a);
  }

  lemma UnsaidAt(tr: seq<State>, i: nat, a: nat)
    requires Run(tr) && i < |tr| && a < |tr[i].mods| && tr[i].mods[a].pc.MSay?
    ensures !Spent(tr[i], Moderated(a))
  {
    RunCore(tr, i);
    assert InRange(tr[i]) && ConnCore(tr[i], tr[i].mods[a].target) && ModOk(tr[i], a);
  }

  lemma SaidNext(tr: seq<State>, i: nat, a: nat, c: nat, n: Name)
    requires Run(tr) && i + 1 < |tr| && !Spent(tr[i], Moderated(a)) && Spent(tr[i + 1], Moderated(a)) && AllOver(tr[i], c, n)
    ensures AllOver(tr[i + 1], c, n)
  {
    var step := StepTo(tr, i + 1);
    SayingIsApart(tr[i], step, a, c, n);
  }

  /** Whom a ban aims at, and from where, is fixed; and so is what it took once said. */
  lemma {:induction false} BanSince(tr: seq<State>, i: nat, k: nat, a: nat)
    requires Run(tr) && i <= k < |tr| && a < |tr[i].mods|
    ensures a < |tr[k].mods| && tr[k].mods[a].target == tr[i].mods[a].target && tr[k].mods[a].name == tr[i].mods[a].name
    ensures tr[i].mods[a].announced ==> tr[k].mods[a].announced && tr[k].mods[a].took == tr[i].mods[a].took
    ensures tr[i].mods[a].took.Some? ==> tr[k].mods[a].took == tr[i].mods[a].took
    ensures Stored(tr[i].mods[a]) ==> Stored(tr[k].mods[a])
  {
    if i < k {
      BanSince(tr, i, k - 1, a);
      BanNext(tr, k, a);
    }
  }

  lemma BanNext(tr: seq<State>, k: nat, a: nat)
    requires Run(tr) && 0 < k < |tr| && a < |tr[k - 1].mods|
    ensures a < |tr[k].mods| && tr[k].mods[a].target == tr[k - 1].mods[a].target && tr[k].mods[a].name == tr[k - 1].mods[a].name
    ensures tr[k - 1].mods[a].announced ==> tr[k].mods[a].announced && tr[k].mods[a].took == tr[k - 1].mods[a].took
    ensures tr[k - 1].mods[a].took.Some? ==> tr[k].mods[a].took == tr[k - 1].mods[a].took
    ensures Stored(tr[k - 1].mods[a]) ==> Stored(tr[k].mods[a])
  {
    var step := StepTo(tr, k);
    StepMovesMods(tr[k - 1], step);
    RunBans(tr, k - 1);
    BookKept(tr[k - 1], step, a);
  }

  // ------------------------------------------------------------ while it stands

  lemma StoodNext(tr: seq<State>, k: nat, a: nat)
    requires Run(tr) && 0 < k < |tr| && a < |tr[k - 1].mods| && Stored(tr[k - 1].mods[a])
    requires a < |tr[k].mods| && tr[k].mods[a].target < |tr[k].conns| && Standing(tr[k], a)
    ensures tr[k - 1].mods[a].target < |tr[k - 1].conns| && Standing(tr[k - 1], a)
  {
    var step := StepTo(tr, k);
    RunBans(tr, k - 1);
    StoodBefore(tr[k - 1], step, a);
  }

  lemma {:induction false} StoodSince(tr: seq<State>, i: nat, k: nat, a: nat)
    requires Run(tr) && i <= k < |tr| && a < |tr[i].mods| && Stored(tr[i].mods[a])
    requires a < |tr[k].mods| && tr[k].mods[a].target < |tr[k].conns| && Standing(tr[k], a)
    ensures tr[i].mods[a].target < |tr[i].conns| && Standing(tr[i], a)
  {
    if i < k {
      BanSince(tr, i, k - 1, a);
      StoodNext(tr, k, a);
      StoodSince(tr, i, k - 1, a);
    }
  }

  lemma HastyNext(tr: seq<State>, k: nat, c: nat)
    requires Run(tr) && 0 < k < |tr| && c < |tr[k - 1].conns|
    ensures tr[k - 1].mishaps.hasty <= tr[k].mishaps.hasty && c < |tr[k].conns| && tr[k].conns[c].key == tr[k - 1].conns[c].key
  {
    var step := StepTo(tr, k);
    HastyGrows(tr[k - 1], step);
    StepEvolves(tr[k - 1], step);
  }

  lemma {:induction false} OrderlyBefore(tr: seq<State>, i: nat, k: nat, c: nat, n: Name)
    requires Run(tr) && i <= k < |tr| && c < |tr[i].conns| && c < |tr[k].conns| && Orderly(tr[k], c, n)
    ensures Orderly(tr[i], c, n)
    decreases k
  {
    if i < k {
      ConnSince(tr, i, k - 1, c);
      HastyNext(tr, k, c);
      OrderlyBefore(tr, i, k - 1, c, n);
    }
  }

  lemma {:induction false} ConnSince(tr: seq<State>, i: nat, k: nat, c: nat)
    requires Run(tr) && i <= k < |tr| && c < |tr[i].conns|
    ensures c < |tr[k].conns|
  {
    if i < k {
      ConnSince(tr, i, k - 1, c);
      HastyNext(tr, k, c);
    }
  }

  /** What a standing ban took is the last, and so all the rest is over too. */
  lemma AllOverAt(tr: seq<State>, j: nat, a: nat, m: nat)
    requires Run(tr) && j < |tr| && a < |tr[j].mods| && tr[j].mods[a].took == Some(m)
    requires tr[j].mods[a].target < |tr[j].conns| && Standing(tr[j], a) && Orderly(tr[j], tr[j].mods[a].target, tr[j].mods[a].name)
    requires m < |tr[j].membs| && tr[j].membs[m].dones == 1 && Mine(tr[j], tr[j].mods[a].target, tr[j].mods[a].name, m)
    ensures AllOver(tr[j], tr[j].mods[a].target, tr[j].mods[a].name)
  {
    var s, c, n := tr[j], tr[j].mods[a].target, tr[j].mods[a].name;
    RunClean(tr, j, c, n);
    forall i: nat | Mine(s, c, n, i) ensures s.membs[i].dones == 1 {
      assert i <= m;
    }
  }

  lemma TakenIsMine(tr: seq<State>, j: nat, a: nat, m: nat)
    requires Run(tr) && j < |tr| && a < |tr[j].mods| && tr[j].mods[a].took == Some(m)
    ensures Stored(tr[j].mods[a]) && tr[j].mods[a].target < |tr[j].conns|
    ensures Mine(tr[j], tr[j].mods[a].target, tr[j].mods[a].name, m)
    ensures tr[j].mods[a].announced || tr[j].membs[m].partSent ==> tr[j].membs[m].dones == 1
  {
    RunCore(tr, j);
    var s := tr[j];
    assert InRange(s) && ConnCore(s, s.mods[a].target) && ModOk(s, a);
    assert MembOk(s, m);
  }

  /** A membership once taken was taken by whoever is said to have. */
  lemma {:induction false} TookBefore(tr: seq<State>, i: nat, k: nat, a: nat, m: nat)
    requires Run(tr) && i <= k < |tr| && a < |tr[k].mods| && tr[k].mods[a].took == Some(m)
    requires m < |tr[i].membs| && tr[i].membs[m].custody != Untaken
    ensures a < |tr[i].mods| && tr[i].mods[a].took == Some(m)
  {
    if i < k {
      TakenSince(tr, i, k - 1, m);
      TookPrev(tr, k, a, m);
      TookBefore(tr, i, k - 1, a, m);
    }
  }

  lemma {:induction false} TakenSince(tr: seq<State>, i: nat, k: nat, m: nat)
    requires Run(tr) && i <= k < |tr| && m < |tr[i].membs| && tr[i].membs[m].custody != Untaken
    ensures m < |tr[k].membs| && tr[k].membs[m].custody != Untaken
  {
    if i < k {
      TakenSince(tr, i, k - 1, m);
      TakenNext(tr, k, m);
    }
  }

  lemma TakenNext(tr: seq<State>, k: nat, m: nat)
    requires Run(tr) && 0 < k < |tr| && m < |tr[k - 1].membs| && tr[k - 1].membs[m].custody != Untaken
    ensures m < |tr[k].membs| && tr[k].membs[m].custody != Untaken
  {
    var step := StepTo(tr, k);
    StepEvolves(tr[k - 1], step);
  }

  lemma TookPrev(tr: seq<State>, k: nat, a: nat, m: nat)
    requires Run(tr) && 0 < k < |tr| && a < |tr[k].mods| && tr[k].mods[a].took == Some(m)
    requires m < |tr[k - 1].membs| && tr[k - 1].membs[m].custody != Untaken
    ensures a < |tr[k - 1].mods| && tr[k - 1].mods[a].took == Some(m)
  {
    var step := StepTo(tr, k);
    if a >= |tr[k - 1].mods| {
      ModsGrow(tr[k - 1], step, a);
    } else if tr[k - 1].mods[a].took == None {
      TakesFromMap(tr[k - 1], step, a);
    } else {
      StepMovesMods(tr[k - 1], step);
    }
  }

  /** A channel ban whose own part removed a membership, not lifted since it was
      stored, and no ban of that person there ever lifted in the middle of its part:
      of all the frames handed to their socket, by whatever goroutine, exactly one
      is that membership's PART and exactly one that ban's MOD. */
  lemma BanReachesOnce(tr: seq<State>, k: nat, a: nat, m: nat)
    requires Run(tr) && k < |tr| && a < |tr[k].mods| && tr[k].mods[a].took == Some(m) && tr[k].mods[a].pc == MDone
    ensures tr[k].mods[a].target < |tr[k].conns|
    ensures var s, b := tr[k], tr[k].mods[a];
      Standing(s, a) && Orderly(s, b.target, b.name) ==>
        Copies(s.conns[b.target].sent, Parted(m)) == 1 && Copies(s.conns[b.target].sent, Moderated(a)) == 1
  {
    TakenIsMine(tr, k, a, m);
    ToldOnceIff(tr, k, a);
    var s, b := tr[k], tr[k].mods[a];
    if Standing(s, a) && Orderly(s, b.target, b.name) {
      FrameReachesOnce(tr, k, a, m, Parted(m));
      FrameReachesOnce(tr, k, a, m, Moderated(a));
    }
  }

  lemma FrameReachesOnce(tr: seq<State>, k: nat, a: nat, m: nat, f: Frame)
    requires Run(tr) && k < |tr| && a < |tr[k].mods| && tr[k].mods[a].took == Some(m) && (f == Parted(m) || f == Moderated(a))
    requires tr[k].mods[a].target < |tr[k].conns| && Standing(tr[k], a) && Orderly(tr[k], tr[k].mods[a].target, tr[k].mods[a].name)
    ensures NobodyCovers(tr[k], tr[k].mods[a].target, f)
  {
    var c, n := tr[k].mods[a].target, tr[k].mods[a].name;
    if !Spent(tr[k], f) {
      UnspentIsMissed(tr, k, c, f);
    } else {
      var i := FindTurn(tr, k, f);
      OverAtTurn(tr, i + 1, k, a, m, f);
      TakenIsMine(tr, k, a, m);
      ModIsThere(tr, k, a);
      PartIsThere(tr, k, m);
      OverMeansMissed(tr, i, k, c, n, f);
    }
  }

  lemma OverAtTurn(tr: seq<State>, j: nat, k: nat, a: nat, m: nat, f: Frame)
    requires Run(tr) && j <= k < |tr| && a < |tr[k].mods| && tr[k].mods[a].took == Some(m) && (f == Parted(m) || f == Moderated(a))
    requires tr[k].mods[a].target < |tr[k].conns| && Standing(tr[k], a) && Orderly(tr[k], tr[k].mods[a].target, tr[k].mods[a].name)
    requires Spent(tr[j], f)
    ensures AllOver(tr[j], tr[k].mods[a].target, tr[k].mods[a].name)
  {
    if f == Parted(m) {
      PartedIsTaken(tr, j, m);
      TookBefore(tr, j, k, a, m);
    }
    BanSince(tr, j, k, a);
    TakenIsMine(tr, j, a, m);
    StoodSince(tr, j, k, a);
    OrderlyBefore(tr, j, k, tr[k].mods[a].target, tr[k].mods[a].name);
    AllOverAt(tr, j, a, m);
  }

  lemma PartedIsTaken(tr: seq<State>, j: nat, m: nat)
    requires Run(tr) && j < |tr| && m < |tr[j].membs| && tr[j].membs[m].partSent
    ensures tr[j].membs[m].custody != Untaken
  {
    RunCore(tr, j);
    assert InRange(tr[j]) && ConnCore(tr[j], tr[j].membs[m].conn) && MembOk(tr[j], m);
  }
}
