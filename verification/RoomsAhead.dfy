/** A history read so late that its window is ahead of the live stream. */
module RoomsAhead {
  import opened Fanout
  import opened Rooms
  import opened JoinerSeqs
  import opened JoinerView
  import opened RoomsStray

  function Said(id: nat): Payload {
    Payload(id, true, "", 0)
  }

  function Alone(lock: Option<nat>, ring: seq<Payload>, log: seq<Payload>): Room {
    Room(CHANNEL, lock, [ring], [true], 0, 0, log)
  }

  function Hists(q: seq<Payload>): map<Name, seq<Payload>> {
    if q == [] then map[] else map[CHANNEL := q]
  }

  /** Nobody is sending: ring, log and history are `q`, its ids counting from one. */
  function Calm(q: seq<Payload>, senders: seq<Sender>, joiners: seq<Joiner>): State {
    World(|q|, Hists(q), [Alone(None, q, q)], senders, joiners)
  }

  /** And one more is sending. */
  function Busy(seqno: nat, q: seq<Payload>, ring: seq<Payload>, senders: seq<Sender>, pc: SendPc, joiners: seq<Joiner>): State {
    World(seqno, Hists(q), [Alone(Some(|senders|), ring, q)], senders + [Sender(0, true, "", pc, Encoded(pc))], joiners)
  }

  lemma Draws(before: seq<State>, q: seq<Payload>, xs: seq<Sender>, js: seq<Joiner>) returns (tr: seq<State>)
    requires EndsIn(before, Calm(q, xs, js))
    ensures EndsIn(tr, Busy(|q| + 1, q, q, xs, SAfter(|q| + 1), js))
  {
    var waiting := World(|q|, Hists(q), [Alone(None, q, q)], xs + [Sender(0, true, "", SLock, None)], js);
    tr := Extend(before, Calm(q, xs, js), Send(0, true, ""), waiting);
    tr := Extend(tr, waiting, MoveSender(|xs|, true, 0), Busy(|q|, q, q, xs, SId, js));
    tr := Extend(tr, Busy(|q|, q, q, xs, SId, js), MoveSender(|xs|, true, 0), Busy(|q| + 1, q, q, xs, SEncode(|q| + 1), js));
    tr := Extend(tr, Busy(|q| + 1, q, q, xs, SEncode(|q| + 1), js), MoveSender(|xs|, true, 0),
                 Busy(|q| + 1, q, q, xs, SAfter(|q| + 1), js));
  }

  lemma Appends(before: seq<State>, q: seq<Payload>, xs: seq<Sender>, js: seq<Joiner>) returns (tr: seq<State>)
    requires EndsIn(before, Busy(|q| + 1, q, q, xs, SAfter(|q| + 1), js))
    ensures EndsIn(tr, Busy(|q| + 1, q + [Said(|q| + 1)], q, xs, SWrite(|q| + 1, {0}), js))
  {
    assert Codecs(1) == {0};
    assert Hists(q)[CHANNEL := q + [Said(|q| + 1)]] == Hists(q + [Said(|q| + 1)]);
    tr := Extend(before, Busy(|q| + 1, q, q, xs, SAfter(|q| + 1), js), MoveSender(|xs|, true, 0),
                 Busy(|q| + 1, q + [Said(|q| + 1)], q, xs, SWrite(|q| + 1, {0}), js));
  }

  lemma Sends(before: seq<State>, q: seq<Payload>, xs: seq<Sender>, js: seq<Joiner>) returns (tr: seq<State>)
    requires EndsIn(before, Calm(q, xs, js))
    ensures EndsIn(tr, Calm(q + [Said(|q| + 1)], xs + [Sender(0, true, "", SDone(|q| + 1, true), Some(true))], js))
  {
    var id, more := |q| + 1, q + [Said(|q| + 1)];
    tr := Draws(before, q, xs, js);
    tr := Appends(tr, q, xs, js);
    assert [q][0 := more] == [more] && {0} - {0} == {};
    tr := Extend(tr, Busy(id, more, q, xs, SWrite(id, {0}), js), MoveSender(|xs|, true, 0), Busy(id, more, more, xs, SWrite(id, {}), js));
    tr := Extend(tr, Busy(id, more, more, xs, SWrite(id, {}), js), MoveSender(|xs|, true, 0),
                 Busy(id, more, more, xs, SUnlock(id, true), js));
    tr := Extend(tr, Busy(id, more, more, xs, SUnlock(id, true), js), MoveSender(|xs|, true, 0),
                 Calm(more, xs + [Sender(0, true, "", SDone(id, true), Some(true))], js));
  }

  /** Subscribed to the still empty channel. */
  lemma SubscribesFirst() returns (tr: seq<State>)
    ensures EndsIn(tr, Calm([], [], [Joiner(0, 0, Reading(0))]))
  {
    var nothing := World(0, map[], [], [], []);
    OneOfEach();
    tr := [nothing];
    tr := Extend(tr, nothing, Open(CHANNEL), Calm([], [], []));
    tr := Extend(tr, Calm([], [], []), Join(0, 0), Calm([], [], [Joiner(0, 0, Subscribing)]));
    tr := Extend(tr, Calm([], [], [Joiner(0, 0, Subscribing)]), MoveJoiner(0), Calm([], [], [Joiner(0, 0, Reading(0))]));
  }

  const THREE: seq<Payload> := [Said(1), Said(2), Said(3)]

  function Done(id: nat): Sender {
    Sender(0, true, "", SDone(id, true), Some(true))
  }

  lemma ThreeSend(before: seq<State>, js: seq<Joiner>) returns (tr: seq<State>)
    requires EndsIn(before, Calm([], [], js))
    ensures EndsIn(tr, Calm(THREE, [Done(1), Done(2), Done(3)], js))
  {
    var none: seq<Payload>, nobody: seq<Sender> := [], [];
    tr := Sends(before, none, nobody, js);
    assert none + [Said(1)] == [Said(1)] && nobody + [Done(1)] == [Done(1)];
    tr := Sends(tr, [Said(1)], [Done(1)], js);
    assert [Said(1)] + [Said(2)] == [Said(1), Said(2)] && [Done(1)] + [Done(2)] == [Done(1), Done(2)];
    tr := Sends(tr, [Said(1), Said(2)], [Done(1), Done(2)], js);
    assert [Said(1), Said(2)] + [Said(3)] == THREE && [Done(1), Done(2)] + [Done(3)] == [Done(1), Done(2), Done(3)];
  }

  lemma SeesThirdThenFirst(s: State)
    requires s == Calm(THREE, [Done(1), Done(2), Done(3)], [Joiner(0, 0, Live(0, [Said(3)], 3))])
    ensures Reads(s, 0, 1) && Seen(s, 0, 1) == [Said(3), Said(1)] && History(s, 0) == THREE
  {
    assert THREE[0..1] == [Said(1)];
    FirstIsFresh();
  }

  lemma FirstIsFresh()
    ensures Msgs([Said(1)]) == [Said(1)] && Fresh([Said(1)], [Said(3)]) == [Said(1)]
  {
  }

  /** With a window of one, three messages between subscribing and reading the
      history, and one of them read live: the joiner has seen the third, then the
      first, and the second not at all, though all are the channel's own. */
  lemma WindowMayBeAhead() returns (tr: seq<State>)
    ensures Run(tr)
    ensures var s := tr[|tr| - 1];
      && Reads(s, 0, 1) && Seen(s, 0, 1) == [Said(3), Said(1)] && History(s, 0) == [Said(1), Said(2), Said(3)]
  {
    tr := SubscribesFirst();
    tr := ThreeSend(tr, [Joiner(0, 0, Reading(0))]);
    var senders := [Done(1), Done(2), Done(3)];
    assert Last(THREE, 1) == [Said(3)];
    var s := Calm(THREE, senders, [Joiner(0, 0, Live(0, [Said(3)], 3))]);
    tr := Extend(tr, Calm(THREE, senders, [Joiner(0, 0, Reading(0))]), MoveJoiner(0), s);
    SeesThirdThenFirst(s);
  }
}
