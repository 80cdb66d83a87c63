/** Sending to a channel: one server-wide id counter, one history for each channel
    name, one lock and one ring per codec for each channel made under it. A step is
    one critical section or one atomic operation of `broadcastTo`, `Subscribe` or
    `Recent`; joiners read without the channel's lock. */
module Rooms {
  import opened Fanout

  type Name = string

  /** What is broadcast under an id, and the channel object it was sent through,
      which steers nothing; only MSGs are kept in the history. */
  datatype Payload = Payload(id: nat, msg: bool, body: string, room: nat)

  /** A channel object. `rings` holds, per codec, the payloads whose frames were
      written to it. `since` is how many messages the history had for the name, and
      `born` what the id counter stood at, when it was made. `log` is every payload
      encoded for it, in order. These three steer nothing. */
  datatype Room = Room(
    name: Name, lock: Option<nat>, rings: seq<seq<Payload>>, open: seq<bool>, since: nat, born: nat, log: seq<Payload>)

  datatype SendPc =
    | SLock | SId | SEncode(id: nat) | SAfter(id: nat) | SWrite(id: nat, todo: set<nat>) | SUnlock(id: nat, sent: bool)
    | SDone(id: nat, sent: bool)

  /** `encoded` is what encoding came to; it steers nothing. */
  datatype Sender = Sender(room: nat, msg: bool, body: string, pc: SendPc, encoded: Option<bool>)

  /** A join reading a channel: where its ring's cursor was set, then the window
      the history gave it, when it held `had` messages. */
  datatype JoinPc = Subscribing | Reading(cursor: nat) | Live(cursor: nat, backlog: seq<Payload>, had: nat)

  datatype Joiner = Joiner(room: nat, codec: nat, pc: JoinPc)

  /** `codecs` encodings, and a replay window of `backlog`. */
  datatype Setup = Setup(codecs: nat, backlog: nat)

  /** `hists` is everything the history was ever given, by channel name. */
  datatype State = State(
    setup: Setup, seqno: nat, hists: map<Name, seq<Payload>>, rooms: seq<Room>, senders: seq<Sender>, joiners: seq<Joiner>)

  datatype Step =
    | Open(name: Name) | CloseRing(r: nat, k: nat) | OtherId
    | Send(r: nat, msg: bool, body: string) | MoveSender(i: nat, ok: bool, pick: nat)
    | Join(r: nat, codec: nat) | MoveJoiner(j: nat)

  predicate Increasing(q: seq<Payload>) {
    forall i, j | 0 <= i < j < |q| :: q[i].id < q[j].id
  }

  predicate Below(q: seq<Payload>, bound: nat) {
    forall i | 0 <= i < |q| :: q[i].id <= bound
  }

  function Hist(s: State, n: Name): seq<Payload> {
    if n in s.hists then s.hists[n] else []
  }

  /** The history that room `r` writes to. */
  function HistOf(s: State, r: nat): seq<Payload>
    requires r < |s.rooms|
  {
    Hist(s, s.rooms[r].name)
  }

  /** The MSG subsequence. */
  function Msgs(q: seq<Payload>): (r: seq<Payload>)
    ensures |r| <= |q|
  {
    if q == [] then [] else Msgs(q[..|q| - 1]) + (if q[|q| - 1].msg then [q[|q| - 1]] else [])
  }

  function Codecs(n: nat): (r: set<nat>)
    ensures forall k: nat :: k in r <==> k < n
  {
    if n == 0 then {} else Codecs(n - 1) + {n - 1}
  }

  function SetRoom(s: State, r: nat, x: Room): State
    requires r < |s.rooms|
  {
    s.(rooms := s.rooms[r := x])
  }

  function SetSender(s: State, i: nat, pc: SendPc): State
    requires i < |s.senders|
  {
    s.(senders := s.senders[i := s.senders[i].(pc := pc)])
  }

  predicate WellFormed(s: State, r: nat) {
    r < |s.rooms| && |s.rooms[r].rings| == s.setup.codecs && |s.rooms[r].open| == s.setup.codecs
  }

  predicate SenderEnabled(s: State, i: nat, pick: nat) {
    && i < |s.senders| && WellFormed(s, s.senders[i].room)
    && match s.senders[i].pc
       case SLock => s.rooms[s.senders[i].room].lock == None
       case SWrite(_, todo) => todo == {} || (pick in todo && pick < s.setup.codecs)
       case SDone(_, _) => false
       case _ => true
  }

  /** `broadcastTo`, step by step. All codecs encode before any ring is written;
      the history comes before the rings; the rings in any order. */
  function SenderStep(s: State, i: nat, ok: bool, pick: nat): State
    requires SenderEnabled(s, i, pick)
  {
    var x := s.senders[i];
    var room := s.rooms[x.room];
    match x.pc
    case SLock => SetSender(SetRoom(s, x.room, room.(lock := Some(i))), i, SId)
    case SId => SetSender(s.(seqno := s.seqno + 1), i, SEncode(s.seqno + 1))
    case SEncode(id) =>
      s.(senders := s.senders[i := x.(pc := if ok then SAfter(id) else SUnlock(id, false), encoded := Some(ok))])
    case SAfter(id) =>
      var p := Payload(id, x.msg, x.body, x.room);
      var kept := if x.msg then s.(hists := s.hists[room.name := Hist(s, room.name) + [p]]) else s;
      SetSender(SetRoom(kept, x.room, room.(log := room.log + [p])), i, SWrite(id, Codecs(s.setup.codecs)))
    case SWrite(id, todo) =>
      if todo == {} then SetSender(s, i, SUnlock(id, true))
      else
        var p := Payload(id, x.msg, x.body, x.room);
        var rings := if room.open[pick] then room.rings[pick := room.rings[pick] + [p]] else room.rings;
        SetSender(SetRoom(s, x.room, room.(rings := rings)), i, SWrite(id, todo - {pick}))
    case SUnlock(id, sent) => SetSender(SetRoom(s, x.room, room.(lock := None)), i, SDone(id, sent))
    case SDone(_, _) => s
  }

  predicate JoinerEnabled(s: State, j: nat) {
    && j < |s.joiners| && WellFormed(s, s.joiners[j].room) && s.joiners[j].codec < s.setup.codecs
    && !s.joiners[j].pc.Live?
  }

  /** Subscribes at the ring's write cursor, then reads the history's window. */
  function JoinerStep(s: State, j: nat): State
    requires JoinerEnabled(s, j)
  {
    var x := s.joiners[j];
    var room := s.rooms[x.room];
    var pc := match x.pc
              case Subscribing => Reading(|room.rings[x.codec]|)
              case Reading(cursor) => Live(cursor, Last(HistOf(s, x.room), s.setup.backlog), |HistOf(s, x.room)|)
              case Live(_, _, _) => x.pc;
    s.(joiners := s.joiners[j := x.(pc := pc)])
  }

  /** Every channel made under `n` so far was swept, its rings closed. */
  ghost predicate Free(s: State, n: Name) {
    forall r, k | 0 <= r < |s.rooms| && 0 <= k < |s.rooms[r].open| && s.rooms[r].name == n :: !s.rooms[r].open[k]
  }

  ghost predicate Enabled(s: State, step: Step) {
    match step
    case Open(name) => Free(s, name)
    case CloseRing(r, k) => WellFormed(s, r) && k < s.setup.codecs
    case OtherId => true
    case Send(r, _, _) => r < |s.rooms|
    case MoveSender(i, _, pick) => SenderEnabled(s, i, pick)
    case Join(r, codec) => r < |s.rooms| && codec < s.setup.codecs
    case MoveJoiner(j) => JoinerEnabled(s, j)
  }

  ghost function Apply(s: State, step: Step): State
    requires Enabled(s, step)
  {
    match step
    case Open(name) =>
      s.(rooms := s.rooms + [Room(name, None, seq(s.setup.codecs, _ => []), seq(s.setup.codecs, _ => true), |Hist(s, name)|, s.seqno, [])])
    case CloseRing(r, k) => SetRoom(s, r, s.rooms[r].(open := s.rooms[r].open[k := false]))
    case OtherId => s.(seqno := s.seqno + 1)
    case Send(r, msg, body) => s.(senders := s.senders + [Sender(r, msg, body, SLock, None)])
    case MoveSender(i, ok, pick) => SenderStep(s, i, ok, pick)
    case Join(r, codec) => s.(joiners := s.joiners + [Joiner(r, codec, Subscribing)])
    case MoveJoiner(j) => JoinerStep(s, j)
  }

  ghost predicate Init(s: State) {
    s.seqno == 0 && s.hists == map[] && s.rooms == [] && s.senders == [] && s.joiners == []
  }

  ghost predicate Next(s: State, s': State) {
    exists step :: Enabled(s, step) && s' == Apply(s, step)
  }

  ghost predicate Follows(tr: seq<State>, k: nat)
    requires 0 < k < |tr|
  {
    Next(tr[k - 1], tr[k])
  }

  ghost predicate Run(tr: seq<State>) {
    && |tr| > 0 && Init(tr[0])
    && forall k | 0 < k < |tr| :: Follows(tr, k)
  }
}
