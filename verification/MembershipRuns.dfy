/** Pieces of runs: one connection, allowed one channel of one possible, going in. */
module MembershipRuns {
  import opened Fanout
  import opened Membership

  const ROOM: Name := "room"
  const WHO: Nick := "nick"
  const KEY: Key := "key"

  ghost predicate EndsIn(tr: seq<State>, s: State) {
    Run(tr) && tr[|tr| - 1] == s
  }

  lemma Extend(tr: seq<State>, s: State, step: Step, t: State) returns (more: seq<State>)
    requires EndsIn(tr, s) && Enabled(s, step) && t == Apply(s, step)
    ensures EndsIn(more, t) && tr <= more
  {
    more := tr + [t];
    forall k | 0 < k < |more| ensures Follows(more, k) {
      if k < |tr| {
        assert Follows(tr, k) && more[k - 1] == tr[k - 1] && more[k] == tr[k];
      } else {
        assert Enabled(more[k - 1], step);
      }
    }
  }

  /** The moderators' side of the world. */
  datatype Aside = Aside(mods: seq<Ban>, book: Book, mishaps: Mishaps)

  function World(hub: Hub, x: Conn, membs: seq<Memb>, a: Aside): State {
    State(Limits(1, 1), hub, [x], membs, a.mods, a.book, a.mishaps)
  }

  function Person(memberships: map<Name, nat>, task: Task, sent: seq<Sent>): Conn {
    Conn(WHO, KEY, memberships, task, sent)
  }

  /** Its list, when empty, was emptied by a ban's removal of connection 0. */
  function Room(members: map<Nick, nat>, ring: seq<Frame>): Hub {
    var there := WHO in members;
    Hub(map[ROOM := 0], [Chan(ROOM, members, true, ring, if there then members else HERE, if there then {} else {0})], false)
  }

  const NOBODY: set<nat> := {}

  lemma ListsMove()
    ensures HERE - {WHO} == map[] && HERE[WHO := 0] == HERE && map[][WHO := 0] == HERE
    ensures NOBODY + {0} == {0} && {0} - {0} == NOBODY && NOBODY - {0} == NOBODY && NOBODY - {1} == NOBODY
  {
  }

  const NOWHERE: Hub := Hub(map[], [], false)
  const NOBANS: Book := Book({}, multiset{})
  const NOTHING_WRONG: Mishaps := Mishaps({}, {}, {})
  const QUIET: Aside := Aside([], NOBANS, NOTHING_WRONG)
  const HERE: map<Nick, nat> := map[WHO := 0]

  /** A membership subscribed at `origin`. */
  function Fresh(origin: nat): Memb {
    Memb(0, 0, ROOM, false, 0, Unstarted, origin, origin, Untaken, 0, false, false)
  }

  function Pumping(origin: nat): Memb {
    Fresh(origin).(joinSent := true, pump := Running)
  }

  function Seeking(j: JoinPc, hub: Hub, sent: seq<Sent>, membs: seq<Memb>, a: Aside): State {
    World(hub, Person(map[], Joining(j), sent), membs, a)
  }

  /** From the check to the lookup, with no ban in the way. */
  lemma Seeks(before: seq<State>, hub: Hub, sent: seq<Sent>, membs: seq<Memb>, a: Aside) returns (tr: seq<State>)
    requires EndsIn(before, World(hub, Person(map[], Idle, sent), membs, a)) && a.book.bans == {}
    ensures EndsIn(tr, Seeking(JFind(ROOM), hub, sent, membs, a))
  {
    var s := World(hub, Person(map[], Idle, sent), membs, a);
    tr := Extend(before, s, StartJoin(0, ROOM), Seeking(JCheck(ROOM), hub, sent, membs, a));
    tr := Extend(tr, Seeking(JCheck(ROOM), hub, sent, membs, a), MoveConn(0, true, 0),
                 Seeking(JBan1(ROOM), hub, sent, membs, a));
    tr := Extend(tr, Seeking(JBan1(ROOM), hub, sent, membs, a), MoveConn(0, true, 0),
                 Seeking(JHook(ROOM), hub, sent, membs, a));
    tr := Extend(tr, Seeking(JHook(ROOM), hub, sent, membs, a), MoveConn(0, true, 0),
                 Seeking(JFind(ROOM), hub, sent, membs, a));
  }

  function Carrying(j: JoinPc, ring: seq<Frame>, sent: seq<Sent>, m: nat, membs: seq<Memb>, a: Aside): State {
    World(Room(HERE, ring), Person(map[ROOM := m], Joining(j), sent), membs, a)
  }

  /** Subscribing. */
  lemma Subscribes(before: seq<State>, ring: seq<Frame>, sent: seq<Sent>, membs: seq<Memb>,
                   a: Aside) returns (tr: seq<State>)
    requires EndsIn(before, Seeking(JSub(ROOM, 0), Room(HERE, ring), sent, membs, a))
    ensures EndsIn(tr, Seeking(JInsert(|membs|), Room(HERE, ring), sent, membs + [Fresh(|ring|)], a))
  {
    tr := Extend(before, Seeking(JSub(ROOM, 0), Room(HERE, ring), sent, membs, a), MoveConn(0, true, 0),
                 Seeking(JInsert(|membs|), Room(HERE, ring), sent, membs + [Fresh(|ring|)], a));
  }

  /** Storing the membership, and looking for a ban again. */
  lemma Inserts(before: seq<State>, ring: seq<Frame>, sent: seq<Sent>, membs: seq<Memb>, origin: nat,
                a: Aside) returns (tr: seq<State>)
    requires EndsIn(before, Seeking(JInsert(|membs|), Room(HERE, ring), sent, membs + [Fresh(origin)], a)) && a.book.bans == {}
    ensures EndsIn(tr, Carrying(JBacklog(|membs|), ring, sent, |membs|, membs + [Fresh(origin)], a))
  {
    var m, more := |membs|, membs + [Fresh(origin)];
    tr := Extend(before, Seeking(JInsert(m), Room(HERE, ring), sent, more, a), MoveConn(0, true, 0),
                 Carrying(JBan2(m), ring, sent, m, more, a));
    tr := Extend(tr, Carrying(JBan2(m), ring, sent, m, more, a), MoveConn(0, true, 0),
                 Carrying(JBacklog(m), ring, sent, m, more, a));
  }

  /** Backlog, JOIN, and the pump. */
  lemma Announces(before: seq<State>, ring: seq<Frame>, sent: seq<Sent>, membs: seq<Memb>, origin: nat,
                  a: Aside) returns (tr: seq<State>)
    requires EndsIn(before, Carrying(JBacklog(|membs|), ring, sent, |membs|, membs + [Fresh(origin)], a))
    ensures var m := |membs|;
      EndsIn(tr, World(Room(HERE, ring + [Joined(m)]), Person(map[ROOM := m], Idle, sent + [Direct(Backlog(m))]), membs + [Pumping(origin)], a))
  {
    var m := |membs|;
    var told := sent + [Direct(Backlog(m))];
    var more := membs + [Fresh(origin)];
    var said := membs + [Fresh(origin).(joinSent := true)];
    assert more[m := said[m]] == said;
    tr := Extend(before, Carrying(JBacklog(m), ring, sent, m, more, a), MoveConn(0, true, 0),
                 Carrying(JAnnounce(m), ring, told, m, more, a));
    tr := Extend(tr, Carrying(JAnnounce(m), ring, told, m, more, a), MoveConn(0, true, 0),
                 Carrying(JPump(m), ring + [Joined(m)], told, m, said, a));
    tr := Pumps(tr, ring + [Joined(m)], told, membs, origin, a);
  }

  lemma Pumps(before: seq<State>, ring: seq<Frame>, sent: seq<Sent>, membs: seq<Memb>, origin: nat,
              a: Aside) returns (tr: seq<State>)
    requires EndsIn(before, Carrying(JPump(|membs|), ring, sent, |membs|, membs + [Fresh(origin).(joinSent := true)], a))
    ensures EndsIn(tr, World(Room(HERE, ring), Person(map[ROOM := |membs|], Idle, sent), membs + [Pumping(origin)], a))
  {
    var m := |membs|;
    var said, pumped := membs + [Fresh(origin).(joinSent := true)], membs + [Pumping(origin)];
    assert said[m := pumped[m]] == pumped;
    tr := Extend(before, Carrying(JPump(m), ring, sent, m, said, a), MoveConn(0, true, 0),
                 World(Room(HERE, ring), Person(map[ROOM := m], Idle, sent), pumped, a));
  }

  /** From subscribing to the pump, undisturbed. */
  lemma Enters(before: seq<State>, ring: seq<Frame>, sent: seq<Sent>, membs: seq<Memb>,
               a: Aside) returns (tr: seq<State>)
    requires EndsIn(before, Seeking(JSub(ROOM, 0), Room(HERE, ring), sent, membs, a)) && a.book.bans == {}
    ensures var m := |membs|;
      EndsIn(tr, World(Room(HERE, ring + [Joined(m)]), Person(map[ROOM := m], Idle, sent + [Direct(Backlog(m))]), membs + [Pumping(|ring|)], a))
  {
    tr := Subscribes(before, ring, sent, membs, a);
    tr := Inserts(tr, ring, sent, membs, |ring|, a);
    tr := Announces(tr, ring, sent, membs, |ring|, a);
  }

  /** From connecting to a channel made anew. */
  lemma Arrives() returns (tr: seq<State>)
    ensures EndsIn(tr, Seeking(JSub(ROOM, 0), Room(HERE, []), [], [], QUIET))
  {
    var s := State(Limits(1, 1), NOWHERE, [], [], [], NOBANS, NOTHING_WRONG);
    tr := [s];
    assert !NickTaken(s, WHO);
    tr := Extend(tr, s, Connect(WHO, KEY), World(NOWHERE, Person(map[], Idle, []), [], QUIET));
    tr := Seeks(tr, NOWHERE, [], [], QUIET);
    tr := Extend(tr, Seeking(JFind(ROOM), NOWHERE, [], [], QUIET), MoveConn(0, true, 0),
                 Seeking(JMake(ROOM), NOWHERE, [], [], QUIET));
    tr := Extend(tr, Seeking(JMake(ROOM), NOWHERE, [], [], QUIET), MoveConn(0, true, 0),
                 Seeking(JSub(ROOM, 0), Room(HERE, []), [], [], QUIET));
  }

  const IN: map<Name, nat> := map[ROOM := 0]
  const SAID: seq<Sent> := [Direct(Backlog(0))]
  const JOINED: Memb := Pumping(0)
  const FULL: Hub := Room(HERE, [Joined(0)])

  /** A first join, to its end. */
  lemma FirstJoin() returns (tr: seq<State>)
    ensures EndsIn(tr, World(FULL, Person(IN, Idle, SAID), [JOINED], QUIET))
  {
    tr := Arrives();
    tr := Enters(tr, [], [], [], QUIET);
    var none: seq<Frame>, quiet: seq<Sent>, nobody: seq<Memb> := [], [], [];
    assert none + [Joined(0)] == [Joined(0)] && quiet + SAID == SAID && nobody + [JOINED] == [JOINED];
  }

  const STANDING: Book := Book({(ROOM, KEY)}, multiset{})
  const LIFTED: Book := Book({}, multiset{(ROOM, KEY)})
  const TAKEN: Memb := JOINED.(custody := TakenBy(Mod(0)), takes := 1)
  const TOLD: seq<Sent> := [Direct(Backlog(0)), Direct(Parted(0))]

  function OneBan(pc: BanPc, took: Option<nat>, book: Book): Aside {
    Aside([Ban(0, ROOM, pc, took, 0, false)], book, NOTHING_WRONG)
  }

  function Banning(pc: BanPc, took: Option<nat>, hub: Hub, memberships: map<Name, nat>, sent: seq<Sent>, m: Memb, book: Book): State {
    World(hub, Person(memberships, Idle, sent), [m], OneBan(pc, took, book))
  }

  /** A ban whose part takes that membership out, and tells its target. */
  lemma BanTakes(before: seq<State>) returns (tr: seq<State>)
    requires EndsIn(before, World(FULL, Person(IN, Idle, SAID), [JOINED], QUIET))
    ensures EndsIn(tr, Banning(MPart(Remove(0)), Some(0), FULL, map[], TOLD, TAKEN, STANDING))
  {
    tr := Extend(before, World(FULL, Person(IN, Idle, SAID), [JOINED], QUIET), StartBan(0, ROOM),
                 Banning(MStore, None, FULL, IN, SAID, JOINED, NOBANS));
    tr := Extend(tr, Banning(MStore, None, FULL, IN, SAID, JOINED, NOBANS), MoveMod(0, true),
                 Banning(MPart(Take(ROOM)), None, FULL, IN, SAID, JOINED, STANDING));
    assert IN - {ROOM} == map[];
    tr := Extend(tr, Banning(MPart(Take(ROOM)), None, FULL, IN, SAID, JOINED, STANDING), MoveMod(0, true),
                 Banning(MPart(Tell(0)), Some(0), FULL, map[], SAID, TAKEN, STANDING));
    assert SAID + [Direct(Parted(0))] == TOLD;
    tr := Extend(tr, Banning(MPart(Tell(0)), Some(0), FULL, map[], SAID, TAKEN, STANDING), MoveMod(0, true),
                 Banning(MPart(Remove(0)), Some(0), FULL, map[], TOLD, TAKEN, STANDING));
  }
}
