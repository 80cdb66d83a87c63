/** Why a ban's MOD may reach its target twice: lifted after its part is over, it
    lets them rejoin before the MOD enters the ring. */
module MembershipLifted {
  import opened Fanout
  import opened Membership
  import opened MembershipRuns
  import opened MembershipCopies

  const BARE: Hub := Room(map[], [Joined(0)])
  const SHUT: Memb := TAKEN.(subClosed := true)
  const ENDED: Memb := SHUT.(pump := Stopped, dones := 1)
  const RELEASED: Memb := ENDED.(custody := Released, partSent := true)
  const PARTED: seq<Frame> := [Joined(0), Parted(0)]
  const LEFT: Hub := Room(map[], PARTED)

  lemma BanCloses(before: seq<State>) returns (tr: seq<State>)
    requires EndsIn(before, Banning(MPart(Remove(0)), Some(0), FULL, map[], TOLD, TAKEN, STANDING))
    ensures EndsIn(tr, Banning(MPart(Wait(0)), Some(0), BARE, map[], TOLD, SHUT, STANDING))
  {
    ListsMove();
    tr := Extend(before, Banning(MPart(Remove(0)), Some(0), FULL, map[], TOLD, TAKEN, STANDING), MoveMod(0, true),
                 Banning(MPart(Close(0)), Some(0), BARE, map[], TOLD, TAKEN, STANDING));
    tr := Extend(tr, Banning(MPart(Close(0)), Some(0), BARE, map[], TOLD, TAKEN, STANDING), MoveMod(0, true),
                 Banning(MPart(Wait(0)), Some(0), BARE, map[], TOLD, SHUT, STANDING));
  }

  /** The pump stops. */
  lemma PumpStops(before: seq<State>) returns (tr: seq<State>)
    requires EndsIn(before, Banning(MPart(Wait(0)), Some(0), BARE, map[], TOLD, SHUT, STANDING))
    ensures EndsIn(tr, Banning(MPart(Announce(0)), Some(0), BARE, map[], TOLD, ENDED, STANDING))
  {
    tr := Extend(before, Banning(MPart(Wait(0)), Some(0), BARE, map[], TOLD, SHUT, STANDING), StopPump(0),
                 Banning(MPart(Wait(0)), Some(0), BARE, map[], TOLD, ENDED, STANDING));
    tr := Extend(tr, Banning(MPart(Wait(0)), Some(0), BARE, map[], TOLD, ENDED, STANDING), MoveMod(0, true),
                 Banning(MPart(Announce(0)), Some(0), BARE, map[], TOLD, ENDED, STANDING));
  }

  /** The part ends. */
  lemma PartEnds(before: seq<State>) returns (tr: seq<State>)
    requires EndsIn(before, Banning(MPart(Announce(0)), Some(0), BARE, map[], TOLD, ENDED, STANDING))
    ensures EndsIn(tr, Banning(MAnnounce, Some(0), LEFT, map[], TOLD, RELEASED, STANDING))
  {
    assert [Joined(0)] + [Parted(0)] == PARTED;
    tr := Extend(before, Banning(MPart(Announce(0)), Some(0), BARE, map[], TOLD, ENDED, STANDING), MoveMod(0, true),
                 Banning(MPart(Over), Some(0), LEFT, map[], TOLD, RELEASED, STANDING));
    tr := Extend(tr, Banning(MPart(Over), Some(0), LEFT, map[], TOLD, RELEASED, STANDING), MoveMod(0, true),
                 Banning(MAnnounce, Some(0), LEFT, map[], TOLD, RELEASED, STANDING));
  }

  const UNSAID: Aside := OneBan(MSay(0), Some(0), LIFTED)

  /** The channel is looked up, and the ban lifted before it is announced. */
  lemma Lifts(before: seq<State>) returns (tr: seq<State>)
    requires EndsIn(before, Banning(MAnnounce, Some(0), LEFT, map[], TOLD, RELEASED, STANDING))
    ensures EndsIn(tr, World(LEFT, Person(map[], Idle, TOLD), [RELEASED], UNSAID))
  {
    var s := Banning(MSay(0), Some(0), LEFT, map[], TOLD, RELEASED, STANDING);
    tr := Extend(before, Banning(MAnnounce, Some(0), LEFT, map[], TOLD, RELEASED, STANDING), MoveMod(0, true), s);
    assert !MidPart(s, ROOM, KEY) && !UnderWay(s, ROOM, KEY);
    assert {(ROOM, KEY)} - {(ROOM, KEY)} == {};
    tr := Extend(tr, s, Lift(ROOM, KEY), World(LEFT, Person(map[], Idle, TOLD), [RELEASED], UNSAID));
  }

  const AGAIN: seq<Sent> := TOLD + [Direct(Backlog(1))]
  const RING: seq<Frame> := PARTED + [Joined(1)]

  lemma Rejoins(before: seq<State>) returns (tr: seq<State>)
    requires EndsIn(before, World(LEFT, Person(map[], Idle, TOLD), [RELEASED], UNSAID))
    ensures EndsIn(tr, World(Room(HERE, RING), Person(map[ROOM := 1], Idle, AGAIN), [RELEASED, Pumping(2)], UNSAID))
  {
    ListsMove();
    tr := Seeks(before, LEFT, TOLD, [RELEASED], UNSAID);
    tr := Extend(tr, Seeking(JFind(ROOM), LEFT, TOLD, [RELEASED], UNSAID), MoveConn(0, true, 0),
                 Seeking(JSub(ROOM, 0), Room(HERE, PARTED), TOLD, [RELEASED], UNSAID));
    tr := Enters(tr, PARTED, TOLD, [RELEASED], UNSAID);
    assert [RELEASED] + [Pumping(2)] == [RELEASED, Pumping(2)];
  }

  function Delivered(pc: BanPc, cursor: nat, sent: seq<Sent>): State {
    World(Room(HERE, RING + [Moderated(0)]), Person(map[ROOM := 1], Idle, sent), [RELEASED, Pumping(2).(cursor := cursor)],
          UNSAID.(mods := [UNSAID.mods[0].(pc := pc, announced := true)]))
  }

  /** The MOD enters the ring; the new pump and the ban each deliver it. */
  lemma Delivers(before: seq<State>) returns (tr: seq<State>)
    requires EndsIn(before, World(Room(HERE, RING), Person(map[ROOM := 1], Idle, AGAIN), [RELEASED, Pumping(2)], UNSAID))
    ensures EndsIn(tr, Delivered(MEnforce, 4, AGAIN + [Pumped(1, Joined(1))] + [Pumped(1, Moderated(0))]))
  {
    var s := World(Room(HERE, RING), Person(map[ROOM := 1], Idle, AGAIN), [RELEASED, Pumping(2)], UNSAID);
    var ring := RING + [Moderated(0)];
    assert ring[2] == Joined(1) && ring[3] == Moderated(0);
    tr := Extend(before, s, MoveMod(0, true), Delivered(MEnforce, 2, AGAIN));
    var first := AGAIN + [Pumped(1, Joined(1))];
    tr := Extend(tr, Delivered(MEnforce, 2, AGAIN), Deliver(1), Delivered(MEnforce, 3, first));
    tr := Extend(tr, Delivered(MEnforce, 3, first), Deliver(1),
                 Delivered(MEnforce, 4, first + [Pumped(1, Moderated(0))]));
  }

  /** Lifted before it was announced, a ban can reach its target's socket twice:
      by the pump of the membership they came back with, and directly. */
  lemma LiftedModMayComeTwice() returns (tr: seq<State>)
    ensures Run(tr)
    ensures var s := tr[|tr| - 1];
      && |s.mods| == 1 && |s.conns| == 1 && s.mods[0].took == Some(0) && s.mods[0].pc == MDone && s.mods[0].target == 0
      && Copies(s.conns[0].sent, Moderated(0)) == 2
      && s.mishaps == NOTHING_WRONG
  {
    tr := FirstJoin();
    tr := BanTakes(tr);
    tr := BanCloses(tr);
    tr := PumpStops(tr);
    tr := PartEnds(tr);
    tr := Lifts(tr);
    tr := Rejoins(tr);
    tr := Delivers(tr);
    var sent := AGAIN + [Pumped(1, Joined(1))] + [Pumped(1, Moderated(0))];
    tr := Extend(tr, Delivered(MEnforce, 4, sent), MoveMod(0, true),
                 Delivered(MDone, 4, sent + [Direct(Moderated(0))]));
    TwoCopies();
  }

  lemma TwoCopies()
    ensures Copies(AGAIN + [Pumped(1, Joined(1))] + [Pumped(1, Moderated(0))] + [Direct(Moderated(0))], Moderated(0)) == 2
  {
    var a := AGAIN + [Pumped(1, Joined(1))];
    var b := a + [Pumped(1, Moderated(0))];
    CopiesMore(b, Direct(Moderated(0)), Moderated(0));
    CopiesMore(a, Pumped(1, Moderated(0)), Moderated(0));
    CopiesMore(AGAIN, Pumped(1, Joined(1)), Moderated(0));
    CopiesMore(TOLD, Direct(Backlog(1)), Moderated(0));
    assert TOLD == [] + [Direct(Backlog(0))] + [Direct(Parted(0))];
    CopiesMore([] + [Direct(Backlog(0))], Direct(Parted(0)), Moderated(0));
    CopiesMore([], Direct(Backlog(0)), Moderated(0));
  }

  lemma CopiesMore(sent: seq<Sent>, x: Sent, f: Frame)
    ensures Copies(sent + [x], f) == Copies(sent, f) + (if x.frame == f then 1 else 0)
  {
    assert (sent + [x])[..|sent|] == sent;
  }
}
