/** When a member's own JOIN is the first thing their pump delivers. */
module MembershipFirst {
  import opened Membership
  import opened MembershipSteps
  import opened MembershipStream
  import opened MembershipCopies
  import opened MembershipTold
  import opened MembershipRuns

  lemma RingByOne(tr: seq<State>, j: nat, h: nat)
    requires Run(tr) && j + 1 < |tr| && h < |tr[j].hub.chans|
    ensures h < |tr[j + 1].hub.chans| && tr[j].hub.chans[h].ring <= tr[j + 1].hub.chans[h].ring
    ensures |tr[j + 1].hub.chans[h].ring| <= |tr[j].hub.chans[h].ring| + 1
  {
    var step := StepTo(tr, j + 1);
    MembershipFrames.StepGrows(tr[j], step);
  }

  /** A pump's first delivery is its member's own JOIN exactly if nothing entered
      the channel's ring between the membership's subscribing and its announcement,
      and the announcement did. */
  lemma JoinIsFirstIff(tr: seq<State>, i: nat, j: nat, k: nat, m: nat)
    requires Run(tr) && i < j < k < |tr|
    requires |tr[i].membs| <= m < |tr[i + 1].membs|
    requires !Spent(tr[j], Joined(m)) && Spent(tr[j + 1], Joined(m))
    requires m < |tr[k].membs| && tr[k].membs[m].conn < |tr[k].conns|
    requires PumpedFrom(tr[k].conns[tr[k].membs[m].conn].sent, m) != []
    ensures var h := tr[k].membs[m].chan;
      && h < |tr[i].hub.chans| && h < |tr[j].hub.chans| && h < |tr[j + 1].hub.chans|
      && (PumpedFrom(tr[k].conns[tr[k].membs[m].conn].sent, m)[0] == Joined(m) <==>
            && tr[j].hub.chans[h].ring == tr[i].hub.chans[h].ring
            && tr[j + 1].hub.chans[h].ring == tr[j].hub.chans[h].ring + [Joined(m)])
  {
    var h := tr[k].membs[m].chan;
    PumpIsGapFree(tr, k, m);
    OriginIs(tr, i, k, m);
    RingsKeep(tr, i, j, h);
    RingByOne(tr, j, h);
    RingsKeep(tr, j + 1, k, h);
    var origin := |tr[i].hub.chans[h].ring|;
    assert PumpedFrom(tr[k].conns[tr[k].membs[m].conn].sent, m)[0] == tr[k].hub.chans[h].ring[origin];
    if At(tr[k], h, origin, Joined(m)) {
      PlacesKeep(tr, j + 1, k, h, origin, Joined(m));
      if origin < |tr[j].hub.chans[h].ring| {
        InRingIsSpent(tr, j, h, origin, Joined(m));
        assert false;
      }
    }
  }

  /** Talk between subscribing and announcing is delivered before the JOIN. */
  lemma TalkMayComeFirst() returns (tr: seq<State>)
    ensures Run(tr)
    ensures var s := tr[|tr| - 1];
      && |s.membs| == 1 && |s.conns| == 1 && s.hub.chans != [] && s.membs[0].joinSent
      && Joined(0) in s.hub.chans[0].ring && PumpedFrom(s.conns[0].sent, 0) == [Talk]
  {
    tr := Arrives();
    tr := Subscribes(tr, [], [], [], QUIET);
    var none: seq<Memb>, silence: seq<Frame> := [], [];
    assert none + [Fresh(0)] == [Fresh(0)] && silence + [Talk] == [Talk];
    tr := Extend(tr, Seeking(JInsert(0), Room(HERE, []), [], [Fresh(0)], QUIET), Chat(0),
                 Seeking(JInsert(0), Room(HERE, [Talk]), [], [Fresh(0)], QUIET));
    tr := Inserts(tr, [Talk], [], [], 0, QUIET);
    tr := Announces(tr, [Talk], [], [], 0, QUIET);
    tr := DeliversTalk(tr);
  }

  lemma DeliversTalk(before: seq<State>) returns (tr: seq<State>)
    requires EndsIn(before, World(Room(HERE, [Talk] + [Joined(0)]), Person(IN, Idle, [] + SAID), [] + [Pumping(0)], QUIET))
    ensures Run(tr)
    ensures var s := tr[|tr| - 1];
      && |s.membs| == 1 && |s.conns| == 1 && s.hub.chans != [] && s.membs[0].joinSent
      && Joined(0) in s.hub.chans[0].ring && PumpedFrom(s.conns[0].sent, 0) == [Talk]
  {
    var none: seq<Memb>, quiet: seq<Sent> := [], [];
    assert none + [Pumping(0)] == [Pumping(0)] && quiet + SAID == SAID;
    var ring := [Talk] + [Joined(0)];
    assert ring[0] == Talk && ring[1] == Joined(0);
    tr := Extend(before, World(Room(HERE, ring), Person(IN, Idle, SAID), [Pumping(0)], QUIET), Deliver(0),
                 World(Room(HERE, ring), Person(IN, Idle, SAID + [Pumped(0, Talk)]), [Pumping(0).(cursor := 1)], QUIET));
    PumpedMore(SAID, Pumped(0, Talk), 0);
    NonePumped(SAID, 0);
  }
}
