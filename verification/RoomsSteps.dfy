/** Every step of `broadcastTo`, of a joiner, and of opening and sweeping channels
    keeps the rooms in order. */
module RoomsSteps {
  import opened Fanout
  import opened Rooms
  import opened RoomsInv

  /** What a step of sender `i` has to show. */
  ghost predicate Kept(s: State, t: State, i: nat) {
    && Local(s, t, i) && Keeps(s, t, s.senders[i].room)
    && RoomGrows(s.rooms[s.senders[i].room], t.rooms[s.senders[i].room])
    && RoomOk(t, s.senders[i].room) && KeptOk(t, s.senders[i].room) && SenderOk(t, i)
  }

  // ------------------------------------------------------------ senders

  lemma QuietRings(s: State, t: State, i: nat, ok: bool, pick: nat)
    requires SenderEnabled(s, i, pick) && t == SenderStep(s, i, ok, pick) && RoomOk(s, s.senders[i].room) && SenderOk(s, i)
    requires s.senders[i].pc.SLock? || s.senders[i].pc.SId? || s.senders[i].pc.SEncode? || s.senders[i].pc.SUnlock?
    ensures RoomOk(t, s.senders[i].room)
  {
    var r := s.senders[i].room;
    assert Pending(s, r) == {} && Pending(t, r) == {};
    forall k | 0 <= k < t.setup.codecs ensures RingOk(t, r, k) {
      assert RingOk(s, r, k);
    }
  }

  /** Steps that move only the program counter, neither into nor out of the writes. */
  lemma QuietStep(s: State, t: State, i: nat, ok: bool, pick: nat)
    requires SenderEnabled(s, i, pick) && t == SenderStep(s, i, ok, pick)
    requires RoomOk(s, s.senders[i].room) && KeptOk(s, s.senders[i].room) && SenderOk(s, i)
    requires s.senders[i].pc.SLock? || s.senders[i].pc.SId? || s.senders[i].pc.SEncode? || s.senders[i].pc.SUnlock?
    ensures Kept(s, t, i)
  {
    QuietRings(s, t, i, ok, pick);
    QuietElsewhere(s, t, i, ok, pick);
  }

  lemma QuietElsewhere(s: State, t: State, i: nat, ok: bool, pick: nat)
    requires SenderEnabled(s, i, pick) && t == SenderStep(s, i, ok, pick) && KeptOk(s, s.senders[i].room)
    requires s.senders[i].pc.SLock? || s.senders[i].pc.SId? || s.senders[i].pc.SEncode? || s.senders[i].pc.SUnlock?
    ensures Local(s, t, i) && Keeps(s, t, s.senders[i].room) && KeptOk(t, s.senders[i].room)
    ensures RoomGrows(s.rooms[s.senders[i].room], t.rooms[s.senders[i].room])
  {
  }

  lemma AfterRings(s: State, t: State, i: nat)
    requires i < |s.senders| && s.senders[i].pc.SAfter? && SenderEnabled(s, i, 0) && t == SenderStep(s, i, true, 0)
    requires RoomOk(s, s.senders[i].room) && s.rooms[s.senders[i].room].lock == Some(i)
    ensures WellFormed(t, s.senders[i].room)
    ensures forall k | 0 <= k < t.setup.codecs :: RingOk(t, s.senders[i].room, k)
  {
    var r := s.senders[i].room;
    assert Pending(s, r) == {} && Pending(t, r) == Codecs(s.setup.codecs);
    assert t.rooms[r].log[..|t.rooms[r].log| - 1] == s.rooms[r].log;
    forall k | 0 <= k < t.setup.codecs ensures RingOk(t, r, k) {
      assert RingOk(s, r, k);
    }
  }

  lemma LogPlus(log: seq<Payload>, p: Payload, r: nat, born: nat)
    requires born < p.id && p.room == r && Increasing(log) && Below(log, p.id - 1) && SentHere(log, r, born)
    ensures Increasing(log + [p]) && Below(log + [p], p.id) && SentHere(log + [p], r, born)
  {
  }

  lemma BelowMore(log: seq<Payload>, a: nat, b: nat)
    requires Below(log, a) && a <= b
    ensures Below(log, b)
  {
  }

  lemma AfterLog(s: State, t: State, i: nat)
    requires i < |s.senders| && s.senders[i].pc.SAfter? && SenderEnabled(s, i, 0) && t == SenderStep(s, i, true, 0)
    requires LogOk(s, s.senders[i].room) && SenderOk(s, i)
    ensures LogOk(t, s.senders[i].room)
  {
    var x := s.senders[i];
    LogPlus(s.rooms[x.room].log, Payload(x.pc.id, x.msg, x.body, x.room), x.room, s.rooms[x.room].born);
    BelowMore(t.rooms[x.room].log, x.pc.id, s.seqno);
  }

  lemma KeptPlus(hist: seq<Payload>, log: seq<Payload>, p: Payload, r: nat, since: nat)
    requires Own(hist, r) == Msgs(log) && p.room == r && since <= |hist|
    ensures Own(if p.msg then hist + [p] else hist, r) == Msgs(log + [p])
    ensures (hist + [p])[..since] == hist[..since]
  {
    MsgsPlus(log, p);
    if p.msg {
      OwnPlus(hist, p, r);
    }
  }

  lemma AfterKept(s: State, t: State, i: nat)
    requires i < |s.senders| && s.senders[i].pc.SAfter? && SenderEnabled(s, i, 0) && t == SenderStep(s, i, true, 0)
    requires KeptOk(s, s.senders[i].room) && SenderOk(s, i)
    ensures KeptOk(t, s.senders[i].room) && Keeps(s, t, s.senders[i].room)
  {
    var x := s.senders[i];
    var p := Payload(x.pc.id, x.msg, x.body, x.room);
    KeptPlus(HistOf(s, x.room), s.rooms[x.room].log, p, x.room, s.rooms[x.room].since);
    if x.msg {
      assert t.hists == s.hists[s.rooms[x.room].name := HistOf(s, x.room) + [p]];
    }
  }

  lemma AfterStep(s: State, t: State, i: nat)
    requires i < |s.senders| && s.senders[i].pc.SAfter? && SenderEnabled(s, i, 0) && t == SenderStep(s, i, true, 0)
    requires RoomOk(s, s.senders[i].room) && KeptOk(s, s.senders[i].room) && SenderOk(s, i)
    ensures Kept(s, t, i)
  {
    AfterElsewhere(s, t, i);
    AfterRings(s, t, i);
    AfterLog(s, t, i);
    AfterKept(s, t, i);
  }

  lemma AfterElsewhere(s: State, t: State, i: nat)
    requires i < |s.senders| && s.senders[i].pc.SAfter? && SenderEnabled(s, i, 0) && t == SenderStep(s, i, true, 0)
    requires SenderOk(s, i)
    ensures Local(s, t, i) && RoomGrows(s.rooms[s.senders[i].room], t.rooms[s.senders[i].room]) && SenderOk(t, i)
  {
  }

  lemma WriteRings(s: State, t: State, i: nat, pick: nat)
    requires SenderEnabled(s, i, pick) && t == SenderStep(s, i, true, pick) && s.senders[i].pc.SWrite?
    requires RoomOk(s, s.senders[i].room) && SenderOk(s, i)
    ensures WellFormed(t, s.senders[i].room)
    ensures forall k | 0 <= k < t.setup.codecs :: RingOk(t, s.senders[i].room, k)
  {
    var x := s.senders[i];
    var r := x.room;
    var log := s.rooms[r].log;
    assert log == log[..|log| - 1] + [log[|log| - 1]];
    assert Pending(s, r) == x.pc.todo && Pending(t, r) == x.pc.todo - {pick};
    if x.pc.todo != {} {
      assert RingOk(s, r, pick);
    }
    forall k | 0 <= k < t.setup.codecs ensures RingOk(t, r, k) {
      assert RingOk(s, r, k);
    }
  }

  lemma WriteStep(s: State, t: State, i: nat, pick: nat)
    requires SenderEnabled(s, i, pick) && t == SenderStep(s, i, true, pick) && s.senders[i].pc.SWrite?
    requires RoomOk(s, s.senders[i].room) && KeptOk(s, s.senders[i].room) && SenderOk(s, i)
    ensures Kept(s, t, i)
  {
    WriteRings(s, t, i, pick);
  }

  lemma SenderKeeps(s: State, t: State, i: nat, ok: bool, pick: nat)
    requires Inv(s) && SenderEnabled(s, i, pick) && t == SenderStep(s, i, ok, pick)
    ensures Inv(t)
  {
    assert SenderOk(s, i) && RoomOk(s, s.senders[i].room) && KeptOk(s, s.senders[i].room);
    match s.senders[i].pc {
      case SAfter(_) => AfterStep(s, t, i);
      case SWrite(_, _) => WriteStep(s, t, i, pick);
      case _ => QuietStep(s, t, i, ok, pick);
    }
    Elsewhere(s, t, i);
  }

  // ------------------------------------------------------------ the rest

  /** Steps of anybody but senders: no log, no history and no lock changes. */
  lemma RoomsStay(s: State, t: State)
    requires Inv(s) && t.setup == s.setup && t.hists == s.hists && s.seqno <= t.seqno
    requires |t.rooms| >= |s.rooms| && s.senders <= t.senders
    requires forall r | 0 <= r < |s.rooms| :: t.rooms[r] == s.rooms[r].(open := t.rooms[r].open) && |t.rooms[r].open| == |s.rooms[r].open|
    requires forall r, k | 0 <= r < |s.rooms| && 0 <= k < |t.rooms[r].open| && t.rooms[r].open[k] :: s.rooms[r].open[k]
    ensures forall r | 0 <= r < |s.rooms| :: RoomOk(t, r) && KeptOk(t, r)
    ensures forall n | n in t.hists :: HistOk(t, n)
    ensures forall i | 0 <= i < |s.senders| :: SenderOk(t, i)
  {
    forall r | 0 <= r < |s.rooms| ensures RoomOk(t, r) && KeptOk(t, r) {
      assert RoomOk(s, r) && KeptOk(s, r) && Pending(t, r) == Pending(s, r);
      forall k | 0 <= k < t.setup.codecs ensures RingOk(t, r, k) {
        assert RingOk(s, r, k);
      }
    }
    forall i | 0 <= i < |s.senders| ensures SenderOk(t, i) {
      assert SenderOk(s, i);
    }
    forall n | n in t.hists ensures HistOk(t, n) {
      assert HistOk(s, n);
    }
  }

  lemma JoinersStay(s: State, t: State)
    requires Inv(s) && Grows(s, t) && s.joiners <= t.joiners
    ensures forall j | 0 <= j < |s.joiners| :: JoinerOk(t, j)
  {
    forall j | 0 <= j < |s.joiners| ensures JoinerOk(t, j) {
      assert JoinerOk(s, j);
      JoinerStays(s, t, j);
    }
  }

  /** Appended before it is written: by the time the history is read, it holds
      every MSG the ring had when subscribed to. */
  lemma CursorBehind(s: State, j: nat)
    requires Inv(s) && JoinerEnabled(s, j)
    ensures JoinerOk(JoinerStep(s, j), j)
  {
    var x := s.joiners[j];
    var room := s.rooms[x.room];
    assert JoinerOk(s, j) && RoomOk(s, x.room) && KeptOk(s, x.room) && RingOk(s, x.room, x.codec);
    if x.pc.Reading? {
      MsgsPrefix(room.rings[x.codec][..x.pc.cursor], room.log);
    }
    assert HistOf(s, x.room)[..|HistOf(s, x.room)|] == HistOf(s, x.room);
  }

  lemma JoinerKeeps(s: State, t: State, j: nat)
    requires Inv(s) && JoinerEnabled(s, j) && t == JoinerStep(s, j)
    ensures Inv(t)
  {
    RoomsStay(s, t);
    forall k | 0 <= k < |t.joiners| ensures JoinerOk(t, k) {
      assert JoinerOk(s, k);
      if k == j {
        CursorBehind(s, j);
      }
    }
  }

  lemma OpenGrows(s: State, t: State, name: Name)
    requires Enabled(s, Open(name)) && t == Apply(s, Open(name))
    ensures Grows(s, t)
    ensures forall r | 0 <= r < |s.rooms| :: t.rooms[r] == s.rooms[r]
  {
  }

  lemma OpenKeeps(s: State, t: State, name: Name)
    requires Inv(s) && Enabled(s, Open(name)) && t == Apply(s, Open(name))
    ensures Inv(t)
  {
    OpenGrows(s, t, name);
    RoomsStay(s, t);
    JoinersStay(s, t);
    OpenedOk(s, t, name);
  }

  lemma OpenedOk(s: State, t: State, name: Name)
    requires Inv(s) && Enabled(s, Open(name)) && t == Apply(s, Open(name))
    ensures RoomOk(t, |s.rooms|) && KeptOk(t, |s.rooms|)
  {
    OpenedRoom(s, t, name);
    assert name in s.hists ==> HistOk(s, name);
    OwnNone(Hist(s, name), |s.rooms|);
    OpenedKept(s, t, name);
  }

  lemma OpenedRoom(s: State, t: State, name: Name)
    requires Enabled(s, Open(name)) && t == Apply(s, Open(name))
    ensures RoomOk(t, |s.rooms|)
  {
    assert Pending(t, |s.rooms|) == {};
  }

  lemma OpenedKept(s: State, t: State, name: Name)
    requires Enabled(s, Open(name)) && t == Apply(s, Open(name)) && Own(Hist(s, name), |s.rooms|) == []
    requires name in s.hists ==> HistOk(s, name)
    ensures KeptOk(t, |s.rooms|)
  {
    var hist := Hist(s, name);
    assert hist[..|hist|] == hist && Msgs([]) == [];
  }

  lemma {:induction false} OwnNone(q: seq<Payload>, r: nat)
    requires forall i | 0 <= i < |q| :: q[i].room != r
    ensures Own(q, r) == []
  {
    if q != [] {
      OwnNone(q[..|q| - 1], r);
    }
  }

  lemma CloseKeeps(s: State, t: State, q: nat, c: nat)
    requires Inv(s) && Enabled(s, CloseRing(q, c)) && t == Apply(s, CloseRing(q, c))
    ensures Inv(t)
  {
    RoomsStay(s, t);
    JoinersStay(s, t);
  }

  /** A new sender or joiner, or an id spent on another channel's traffic. */
  lemma ArrivalKeeps(s: State, t: State, step: Step)
    requires Inv(s) && Enabled(s, step) && (step.OtherId? || step.Send? || step.Join?) && t == Apply(s, step)
    ensures Inv(t)
  {
    RoomsStay(s, t);
    JoinersStay(s, t);
    if step.Join? {
      assert RoomOk(s, step.r);
    }
  }

  lemma StepKeeps(s: State, t: State, step: Step)
    requires Inv(s) && Enabled(s, step) && t == Apply(s, step)
    ensures Inv(t)
  {
    match step {
      case Open(name) => OpenKeeps(s, t, name);
      case CloseRing(r, k) => CloseKeeps(s, t, r, k);
      case MoveSender(i, ok, pick) => SenderKeeps(s, t, i, ok, pick);
      case MoveJoiner(j) => JoinerKeeps(s, t, j);
      case _ => ArrivalKeeps(s, t, step);
    }
  }

  /** The step that led to state `k`. */
  lemma StepTo(tr: seq<State>, k: nat) returns (step: Step)
    requires Run(tr) && 0 < k < |tr|
    ensures Enabled(tr[k - 1], step) && tr[k] == Apply(tr[k - 1], step)
  {
    assert Follows(tr, k);
    step :| Enabled(tr[k - 1], step) && tr[k] == Apply(tr[k - 1], step);
  }

  lemma {:induction false} RunInv(tr: seq<State>, k: nat)
    requires Run(tr) && k < |tr|
    ensures Inv(tr[k])
  {
    if k > 0 {
      RunInv(tr, k - 1);
      var step := StepTo(tr, k);
      StepKeeps(tr[k - 1], tr[k], step);
    }
  }
}
