/** Two channels of one name: a send still under way when the first is swept adds
    its message to the history behind the back of everybody in the second. */
module RoomsStray {
  import opened Fanout
  import opened Rooms
  import opened RoomsInv
  import opened JoinerSeqs
  import opened JoinerView

  ghost predicate EndsIn(tr: seq<State>, s: State) {
    Run(tr) && tr[|tr| - 1] == s
  }

  lemma Extend(tr: seq<State>, s: State, step: Step, t: State) returns (more: seq<State>)
    requires EndsIn(tr, s) && Enabled(s, step) && t == Apply(s, step)
    ensures EndsIn(more, t)
  {
    more := tr + [t];
    forall k | 0 < k < |more| ensures Follows(more, k) {
      if k < |tr| {
        assert Follows(tr, k) && more[k - 1] == tr[k - 1] && more[k] == tr[k];
      } else {
        assert Enabled(more[k - 1], step);
      }
    }
  }

  const CHANNEL: Name := "channel"
  const EARLY: Payload := Payload(1, true, "drawn first", 0)
  const LATE: Payload := Payload(2, true, "drawn second", 1)

  /** The swept channel, its lock held by sender 0. */
  function Older(open: bool, log: seq<Payload>): Room {
    Room(CHANNEL, Some(0), [[]], [open], 0, 0, log)
  }

  function Newer(lock: Option<nat>, ring: seq<Payload>, log: seq<Payload>): Room {
    Room(CHANNEL, lock, [ring], [true], 0, 1, log)
  }

  function Encoded(pc: SendPc): Option<bool> {
    if pc.SLock? || pc.SId? || pc.SEncode? then None else Some(true)
  }

  function Slow(pc: SendPc): Sender {
    Sender(0, true, EARLY.body, pc, Encoded(pc))
  }

  function Quick(pc: SendPc): Sender {
    Sender(1, true, LATE.body, pc, Encoded(pc))
  }

  function World(seqno: nat, hists: map<Name, seq<Payload>>, rooms: seq<Room>, senders: seq<Sender>, joiners: seq<Joiner>): State {
    State(Setup(1, 1), seqno, hists, rooms, senders, joiners)
  }

  lemma OneOfEach()
    ensures seq<seq<Payload>>(1, _ => []) == [[]] && seq(1, _ => true) == [true]
  {
  }

  /** A sender has drawn id 1, and is still encoding. */
  lemma DrawsFirst() returns (tr: seq<State>)
    ensures EndsIn(tr, World(1, map[], [Older(true, [])], [Slow(SEncode(1))], []))
  {
    var nothing := World(0, map[], [], [], []);
    var made := Older(true, []).(lock := None);
    OneOfEach();
    tr := [nothing];
    tr := Extend(tr, nothing, Open(CHANNEL), World(0, map[], [made], [], []));
    tr := Extend(tr, World(0, map[], [made], [], []), Send(0, true, EARLY.body),
                 World(0, map[], [made], [Slow(SLock)], []));
    tr := Extend(tr, World(0, map[], [made], [Slow(SLock)], []), MoveSender(0, true, 0),
                 World(0, map[], [Older(true, [])], [Slow(SId)], []));
    tr := Extend(tr, World(0, map[], [Older(true, [])], [Slow(SId)], []), MoveSender(0, true, 0),
                 World(1, map[], [Older(true, [])], [Slow(SEncode(1))], []));
  }

  function Joined(seqno: nat, hists: map<Name, seq<Payload>>, room: Room, quick: seq<Sender>): State {
    World(seqno, hists, [Older(false, []), room], [Slow(SEncode(1))] + quick, [Joiner(1, 0, Live(0, [], 0))])
  }

  /** The channel is swept, made again, and joined: ring and history are empty. */
  lemma SweptAndJoined(before: seq<State>) returns (tr: seq<State>)
    requires EndsIn(before, World(1, map[], [Older(true, [])], [Slow(SEncode(1))], []))
    ensures EndsIn(tr, Joined(1, map[], Newer(None, [], []), []))
  {
    var x := Slow(SEncode(1));
    var two := [Older(false, []), Newer(None, [], [])];
    OneOfEach();
    assert [true][0 := false] == [false];
    tr := Extend(before, World(1, map[], [Older(true, [])], [x], []), CloseRing(0, 0),
                 World(1, map[], [Older(false, [])], [x], []));
    tr := Extend(tr, World(1, map[], [Older(false, [])], [x], []), Open(CHANNEL), World(1, map[], two, [x], []));
    tr := Extend(tr, World(1, map[], two, [x], []), Join(1, 0), World(1, map[], two, [x], [Joiner(1, 0, Subscribing)]));
    tr := Extend(tr, World(1, map[], two, [x], [Joiner(1, 0, Subscribing)]), MoveJoiner(0),
                 World(1, map[], two, [x], [Joiner(1, 0, Reading(0))]));
    tr := Extend(tr, World(1, map[], two, [x], [Joiner(1, 0, Reading(0))]), MoveJoiner(0),
                 Joined(1, map[], Newer(None, [], []), []));
  }

  /** Id 2 is drawn on the new channel, and kept. */
  lemma DrawsSecond(before: seq<State>) returns (tr: seq<State>)
    requires EndsIn(before, Joined(1, map[], Newer(None, [], []), []))
    ensures EndsIn(tr, Joined(2, map[CHANNEL := [LATE]], Newer(Some(1), [], [LATE]), [Quick(SWrite(2, {0}))]))
  {
    var held := Newer(Some(1), [], []);
    assert Codecs(1) == {0};
    assert [] + [LATE] == [LATE];
    tr := Extend(before, Joined(1, map[], Newer(None, [], []), []), Send(1, true, LATE.body),
                 Joined(1, map[], Newer(None, [], []), [Quick(SLock)]));
    tr := Extend(tr, Joined(1, map[], Newer(None, [], []), [Quick(SLock)]), MoveSender(1, true, 0),
                 Joined(1, map[], held, [Quick(SId)]));
    tr := Extend(tr, Joined(1, map[], held, [Quick(SId)]), MoveSender(1, true, 0),
                 Joined(2, map[], held, [Quick(SEncode(2))]));
    tr := Extend(tr, Joined(2, map[], held, [Quick(SEncode(2))]), MoveSender(1, true, 0),
                 Joined(2, map[], held, [Quick(SAfter(2))]));
    tr := Extend(tr, Joined(2, map[], held, [Quick(SAfter(2))]), MoveSender(1, true, 0),
                 Joined(2, map[CHANNEL := [LATE]], Newer(Some(1), [], [LATE]), [Quick(SWrite(2, {0}))]));
  }

  /** And written. */
  lemma Writes(before: seq<State>) returns (tr: seq<State>)
    requires EndsIn(before, Joined(2, map[CHANNEL := [LATE]], Newer(Some(1), [], [LATE]), [Quick(SWrite(2, {0}))]))
    ensures EndsIn(tr, Joined(2, map[CHANNEL := [LATE]], Newer(None, [LATE], [LATE]), [Quick(SDone(2, true))]))
  {
    var kept := map[CHANNEL := [LATE]];
    assert [] + [LATE] == [LATE] && {0} - {0} == {};
    assert [[]][0 := [LATE]] == [[LATE]];
    tr := Extend(before, Joined(2, kept, Newer(Some(1), [], [LATE]), [Quick(SWrite(2, {0}))]), MoveSender(1, true, 0),
                 Joined(2, kept, Newer(Some(1), [LATE], [LATE]), [Quick(SWrite(2, {}))]));
    tr := Extend(tr, Joined(2, kept, Newer(Some(1), [LATE], [LATE]), [Quick(SWrite(2, {}))]), MoveSender(1, true, 0),
                 Joined(2, kept, Newer(Some(1), [LATE], [LATE]), [Quick(SUnlock(2, true))]));
    tr := Extend(tr, Joined(2, kept, Newer(Some(1), [LATE], [LATE]), [Quick(SUnlock(2, true))]), MoveSender(1, true, 0),
                 Joined(2, kept, Newer(None, [LATE], [LATE]), [Quick(SDone(2, true))]));
  }

  function Strayed(log: seq<Payload>, hists: map<Name, seq<Payload>>, pc: SendPc): State {
    World(2, hists, [Older(false, log), Newer(None, [LATE], [LATE])], [Slow(pc), Quick(SDone(2, true))], [Joiner(1, 0, Live(0, [], 0))])
  }

  /** The send on the swept channel keeps its message now. */
  lemma Strays(before: seq<State>) returns (tr: seq<State>)
    requires EndsIn(before, Strayed([], map[CHANNEL := [LATE]], SEncode(1)))
    ensures EndsIn(tr, Strayed([EARLY], map[CHANNEL := [LATE, EARLY]], SWrite(1, {0})))
  {
    assert Codecs(1) == {0};
    assert [] + [EARLY] == [EARLY] && [LATE] + [EARLY] == [LATE, EARLY];
    assert map[CHANNEL := [LATE]][CHANNEL := [LATE, EARLY]] == map[CHANNEL := [LATE, EARLY]];
    tr := Extend(before, Strayed([], map[CHANNEL := [LATE]], SEncode(1)), MoveSender(0, true, 0),
                 Strayed([], map[CHANNEL := [LATE]], SAfter(1)));
    tr := Extend(tr, Strayed([], map[CHANNEL := [LATE]], SAfter(1)), MoveSender(0, true, 0),
                 Strayed([EARLY], map[CHANNEL := [LATE, EARLY]], SWrite(1, {0})));
  }

  lemma SeesOnlyLate(s: State)
    requires s == Strayed([EARLY], map[CHANNEL := [LATE, EARLY]], SWrite(1, {0}))
    ensures Reads(s, 0, 1) && CaughtUp(s, 0, 1) && Seen(s, 0, 1) == [LATE] && Start(s, 0, 1) == Lo(s, 0) == 0
  {
    assert [LATE][0..1] == [LATE] && [LATE][..0] == [] && [LATE, EARLY][..1] == [LATE];
    assert Msgs([LATE]) == [LATE] && Fresh([LATE], []) == [LATE];
    assert Own([LATE], 1) == [LATE] && PlaceOf([LATE], 1, 0) == 0;
  }

  /** A joiner of the new channel has caught up, and has not seen a message the
      history holds; nor do the history's ids rise. */
  lemma StrayIsNeverSeen() returns (tr: seq<State>)
    ensures Run(tr)
    ensures var s := tr[|tr| - 1];
      && Reads(s, 0, 1) && CaughtUp(s, 0, 1) && Start(s, 0, 1) == Lo(s, 0) == 0
      && Seen(s, 0, 1) == [LATE] && History(s, 0) == [LATE, EARLY] && !Increasing(History(s, 0))
  {
    tr := DrawsFirst();
    tr := SweptAndJoined(tr);
    tr := DrawsSecond(tr);
    tr := Writes(tr);
    assert Joined(2, map[CHANNEL := [LATE]], Newer(None, [LATE], [LATE]), [Quick(SDone(2, true))]) == Strayed([], map[CHANNEL := [LATE]], SEncode(1));
    tr := Strays(tr);
    SeesOnlyLate(tr[|tr| - 1]);
    assert [LATE, EARLY][0].id > [LATE, EARLY][1].id;
  }
}
