/** The two mishaps that take a member off the list of a channel they are in. */
module MembershipUnseated {
  import opened Fanout
  import opened Membership
  import opened MembershipSeats
  import opened MembershipRuns

  /** The channel's list after a second connection of the same nick put itself there. */
  const USURPED: map<Nick, nat> := map[WHO := 1]
  const OTHER: Key := "other"

  function Two(hub: Hub, task: Task): State {
    World(hub, Person(IN, Idle, SAID), [JOINED], QUIET).(
      conns := [Person(IN, Idle, SAID), Conn(WHO, OTHER, map[], task, [])], mishaps := NOTHING_WRONG.(collided := {WHO}))
  }

  /** Two live connections of one nick: the second's join takes the first's seat. */
  lemma SharedNickUnseats() returns (tr: seq<State>)
    ensures Run(tr)
    ensures var s := tr[|tr| - 1];
      && |s.conns| == 2 && |s.membs| == 1 && s.membs[0].chan == 0
      && s.conns[0].memberships == map[ROOM := 0] && !Seated(s, 0, 0) && !Latest(s, 0, 0) && Spared(s, 0, 0)
  {
    tr := FirstJoin();
    var s := World(FULL, Person(IN, Idle, SAID), [JOINED], QUIET);
    assert s.conns[0].nick == WHO && NickTaken(s, WHO);
    tr := Extend(tr, s, Connect(WHO, OTHER), Two(FULL, Idle));
    tr := Extend(tr, Two(FULL, Idle), StartJoin(1, ROOM), Two(FULL, Joining(JCheck(ROOM))));
    tr := Usurps(tr);
  }

  lemma Usurps(before: seq<State>) returns (tr: seq<State>)
    requires EndsIn(before, Two(FULL, Joining(JCheck(ROOM))))
    ensures EndsIn(tr, Two(Room(USURPED, [Joined(0)]), Joining(JSub(ROOM, 0))))
  {
    tr := Extend(before, Two(FULL, Joining(JCheck(ROOM))), MoveConn(1, true, 0), Two(FULL, Joining(JBan1(ROOM))));
    tr := Extend(tr, Two(FULL, Joining(JBan1(ROOM))), MoveConn(1, true, 0), Two(FULL, Joining(JHook(ROOM))));
    tr := Extend(tr, Two(FULL, Joining(JHook(ROOM))), MoveConn(1, true, 0), Two(FULL, Joining(JFind(ROOM))));
    tr := TakesSeat(tr);
  }

  lemma TakesSeat(before: seq<State>) returns (tr: seq<State>)
    requires EndsIn(before, Two(FULL, Joining(JFind(ROOM))))
    ensures EndsIn(tr, Two(Room(USURPED, [Joined(0)]), Joining(JSub(ROOM, 0))))
  {
    ListsMove();
    assert HERE[WHO := 1] == USURPED;
    tr := Extend(before, Two(FULL, Joining(JFind(ROOM))), MoveConn(1, true, 0),
                 Two(Room(USURPED, [Joined(0)]), Joining(JSub(ROOM, 0))));
  }

  const MIDWAY: Aside := Aside([Ban(0, ROOM, MPart(Remove(0)), Some(0), 0, false)], LIFTED, Mishaps({}, {(ROOM, KEY)}, {(ROOM, KEY)}))

  /** A ban lifted before its part reaches the list. */
  lemma LiftsMidPart(before: seq<State>) returns (tr: seq<State>)
    requires EndsIn(before, Banning(MPart(Remove(0)), Some(0), FULL, map[], TOLD, TAKEN, STANDING))
    ensures EndsIn(tr, World(FULL, Person(map[], Idle, TOLD), [TAKEN], MIDWAY))
  {
    var s := Banning(MPart(Remove(0)), Some(0), FULL, map[], TOLD, TAKEN, STANDING);
    assert BeforeRemoval(s.mods[0]) && MidPart(s, ROOM, KEY) && UnderWay(s, ROOM, KEY);
    assert {(ROOM, KEY)} - {(ROOM, KEY)} == {} && NOTHING_WRONG.hasty + {(ROOM, KEY)} == {(ROOM, KEY)};
    tr := Extend(before, s, Lift(ROOM, KEY), World(FULL, Person(map[], Idle, TOLD), [TAKEN], MIDWAY));
  }

  /** The target comes back while that part is still under way. */
  lemma ComesBack(before: seq<State>) returns (tr: seq<State>)
    requires EndsIn(before, World(FULL, Person(map[], Idle, TOLD), [TAKEN], MIDWAY))
    ensures EndsIn(tr, World(Room(HERE, [Joined(0)] + [Joined(1)]), Person(map[ROOM := 1], Idle, TOLD + [Direct(Backlog(1))]),
                             [TAKEN] + [Pumping(1)], MIDWAY))
  {
    tr := Seeks(before, FULL, TOLD, [TAKEN], MIDWAY);
    ListsMove();
    tr := Extend(tr, Seeking(JFind(ROOM), FULL, TOLD, [TAKEN], MIDWAY), MoveConn(0, true, 0),
                 Seeking(JSub(ROOM, 0), FULL, TOLD, [TAKEN], MIDWAY));
    tr := Enters(tr, [Joined(0)], TOLD, [TAKEN], MIDWAY);
  }

  /** A ban lifted mid-part: its removal from the list hits the membership the
      target came back with. */
  lemma LiftedMidPartUnseats() returns (tr: seq<State>)
    ensures Run(tr)
    ensures var s := tr[|tr| - 1];
      && |s.conns| == 1 && |s.membs| == 2 && s.membs[1].chan == 0
      && s.conns[0].memberships == map[ROOM := 1] && !Seated(s, 0, 0) && Latest(s, 0, 0) && !Spared(s, 0, 0)
  {
    tr := FirstJoin();
    tr := BanTakes(tr);
    tr := LiftsMidPart(tr);
    tr := ComesBack(tr);
    var ring, sent, membs := [Joined(0)] + [Joined(1)], TOLD + [Direct(Backlog(1))], [TAKEN] + [Pumping(1)];
    var s := World(Room(HERE, ring), Person(map[ROOM := 1], Idle, sent), membs, MIDWAY);
    ListsMove();
    tr := Extend(tr, s, MoveMod(0, true),
                 World(Room(map[], ring), Person(map[ROOM := 1], Idle, sent), membs, MIDWAY.(mods := [MIDWAY.mods[0].(pc := MPart(Close(0)))])));
  }
}
