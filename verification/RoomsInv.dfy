/** One order per channel, in every codec's ring, and its MSGs in the history. */
module RoomsInv {
  import opened Fanout
  import opened Rooms

  // ------------------------------------------------------------ sequences

  /** What was sent through channel object `r`. */
  function Own(q: seq<Payload>, r: nat): (own: seq<Payload>)
    ensures |own| <= |q|
  {
    if q == [] then [] else Own(q[..|q| - 1], r) + (if q[|q| - 1].room == r then [q[|q| - 1]] else [])
  }

  lemma {:induction false} MsgsFrom(q: seq<Payload>, p: Payload)
    ensures p in Msgs(q) <==> p in q && p.msg
  {
    if q != [] {
      MsgsFrom(q[..|q| - 1], p);
      assert q == q[..|q| - 1] + [q[|q| - 1]];
    }
  }

  lemma {:induction false} OwnFrom(q: seq<Payload>, p: Payload, r: nat)
    ensures p in Own(q, r) <==> p in q && p.room == r
  {
    if q != [] {
      OwnFrom(q[..|q| - 1], p, r);
      assert q == q[..|q| - 1] + [q[|q| - 1]];
    }
  }

  lemma MsgsPlus(q: seq<Payload>, p: Payload)
    ensures Msgs(q + [p]) == Msgs(q) + (if p.msg then [p] else [])
  {
    assert (q + [p])[..|q|] == q;
  }

  lemma OwnPlus(q: seq<Payload>, p: Payload, r: nat)
    ensures Own(q + [p], r) == Own(q, r) + (if p.room == r then [p] else [])
  {
    assert (q + [p])[..|q|] == q;
  }

  /** The MSGs of a beginning are a beginning of the MSGs. */
  lemma {:induction false} MsgsPrefix(a: seq<Payload>, b: seq<Payload>)
    requires a <= b
    ensures Msgs(a) <= Msgs(b)
  {
    if |a| < |b| {
      MsgsPrefix(a, b[..|b| - 1]);
    } else {
      assert a == b;
    }
  }

  // ------------------------------------------------------------ statements

  function Id(pc: SendPc): Option<nat> {
    match pc
    case SEncode(id) => Some(id)
    case SAfter(id) => Some(id)
    case SWrite(id, _) => Some(id)
    case SUnlock(id, _) => Some(id)
    case SDone(id, _) => Some(id)
    case _ => None
  }

  predicate InLock(pc: SendPc) {
    !pc.SLock? && !pc.SDone?
  }

  /** The rings the lock's holder has yet to write. */
  function Pending(s: State, r: nat): set<nat>
    requires r < |s.rooms|
  {
    var l := s.rooms[r].lock;
    if l.Some? && l.value < |s.senders| && s.senders[l.value].pc.SWrite? then s.senders[l.value].pc.todo else {}
  }

  /** An open ring carries the log, less the one frame in flight to it; a closed
      one stopped somewhere along it. */
  ghost predicate RingOk(s: State, r: nat, k: nat)
    requires WellFormed(s, r) && k < s.setup.codecs
  {
    var room := s.rooms[r];
    && room.rings[k] <= room.log
    && (room.open[k] ==>
          if k in Pending(s, r) then room.log != [] && room.rings[k] == room.log[..|room.log| - 1] else room.rings[k] == room.log)
    && (k in Pending(s, r) ==> room.log != [] && room.rings[k] <= room.log[..|room.log| - 1])
  }

  predicate SentHere(log: seq<Payload>, r: nat, born: nat) {
    forall n | 0 <= n < |log| :: log[n].room == r && born < log[n].id
  }

  /** The room's own log. */
  ghost predicate LogOk(s: State, r: nat)
    requires r < |s.rooms|
  {
    var room := s.rooms[r];
    Increasing(room.log) && Below(room.log, s.seqno) && SentHere(room.log, r, room.born) && room.born <= s.seqno
  }

  ghost predicate RoomOk(s: State, r: nat)
    requires r < |s.rooms|
  {
    var room := s.rooms[r];
    && WellFormed(s, r) && LogOk(s, r)
    && (forall k | 0 <= k < s.setup.codecs :: RingOk(s, r, k))
    && (room.lock.Some? ==> room.lock.value < |s.senders| && s.senders[room.lock.value].room == r && InLock(s.senders[room.lock.value].pc))
  }

  /** What the history holds of room `r`: its MSGs, in its order, all of them after
      what there was when it was made. */
  ghost predicate KeptOk(s: State, r: nat)
    requires r < |s.rooms|
  {
    var room, hist := s.rooms[r], HistOf(s, r);
    && Own(hist, r) == Msgs(room.log)
    && room.since <= |hist| && Below(hist[..room.since], room.born)
    && (forall n | 0 <= n < room.since :: hist[n].room < r)
  }

  /** A name's messages were sent through channels of that name. */
  ghost predicate HistOk(s: State, n: Name) {
    var hist := Hist(s, n);
    && Below(hist, s.seqno)
    && (forall i | 0 <= i < |hist| :: hist[i].msg && hist[i].room < |s.rooms| && s.rooms[hist[i].room].name == n)
  }

  /** What is sent is what encoded. */
  predicate EncodedOk(x: Sender) {
    x.encoded == match x.pc
                 case SAfter(_) => Some(true)
                 case SWrite(_, _) => Some(true)
                 case SUnlock(_, sent) => Some(sent)
                 case SDone(_, sent) => Some(sent)
                 case _ => None
  }

  ghost predicate SenderOk(s: State, i: nat)
    requires i < |s.senders|
  {
    var x := s.senders[i];
    && x.room < |s.rooms| && EncodedOk(x)
    && (InLock(x.pc) ==> s.rooms[x.room].lock == Some(i))
    && (Id(x.pc).Some? ==> s.rooms[x.room].born < Id(x.pc).value <= s.seqno)
    && (x.pc.SEncode? || x.pc.SAfter? ==> Below(s.rooms[x.room].log, x.pc.id - 1))
    && (x.pc.SWrite? ==> s.rooms[x.room].log != [] && s.rooms[x.room].log[|s.rooms[x.room].log| - 1] == Payload(x.pc.id, x.msg, x.body, x.room)
                         && forall k | k in x.pc.todo :: k < s.setup.codecs)
  }

  ghost predicate JoinerOk(s: State, j: nat)
    requires j < |s.joiners|
  {
    var x := s.joiners[j];
    && x.room < |s.rooms| && x.codec < s.setup.codecs && WellFormed(s, x.room)
    && match x.pc
       case Subscribing => true
       case Reading(cursor) => cursor <= |s.rooms[x.room].rings[x.codec]|
       case Live(cursor, backlog, had) =>
         var room, hist := s.rooms[x.room], HistOf(s, x.room);
         && cursor <= |room.rings[x.codec]| && room.since <= had <= |hist|
         && backlog == Last(hist[..had], s.setup.backlog)
         && |Msgs(room.rings[x.codec][..cursor])| <= |Own(hist[..had], x.room)|
  }

  ghost predicate Inv(s: State) {
    && (forall r | 0 <= r < |s.rooms| :: RoomOk(s, r))
    && (forall r | 0 <= r < |s.rooms| :: KeptOk(s, r))
    && (forall n | n in s.hists :: HistOk(s, n))
    && (forall i | 0 <= i < |s.senders| :: SenderOk(s, i))
    && (forall j | 0 <= j < |s.joiners| :: JoinerOk(s, j))
  }

  // ------------------------------------------------------------ framing

  /** Histories and rings only grow, and rooms keep their names and beginnings. */
  ghost predicate Grows(s: State, t: State) {
    && t.setup == s.setup && |t.rooms| >= |s.rooms| && s.seqno <= t.seqno
    && (forall n :: Hist(s, n) <= Hist(t, n))
    && (forall r | 0 <= r < |s.rooms| :: RoomGrows(s.rooms[r], t.rooms[r]))
  }

  ghost predicate RoomGrows(a: Room, b: Room) {
    && |b.rings| == |a.rings| && |b.open| == |a.open| && (forall k | 0 <= k < |a.rings| :: a.rings[k] <= b.rings[k])
    && b.name == a.name && b.since == a.since && b.born == a.born
  }

  lemma JoinerStays(s: State, t: State, j: nat)
    requires j < |s.joiners| && JoinerOk(s, j) && Grows(s, t) && j < |t.joiners| && t.joiners[j] == s.joiners[j]
    ensures JoinerOk(t, j)
  {
    var x := s.joiners[j];
    var a, b := s.rooms[x.room], t.rooms[x.room];
    match x.pc
    case Live(cursor, backlog, had) =>
      assert Hist(s, a.name) <= Hist(t, a.name);
      assert HistOf(t, x.room)[..had] == HistOf(s, x.room)[..had];
      assert b.rings[x.codec][..cursor] == a.rings[x.codec][..cursor];
    case _ =>
  }

  /** A step of sender `i`, on its room and the history of that room's name. */
  ghost predicate Local(s: State, t: State, i: nat) {
    && i < |s.senders| && s.senders[i].room < |s.rooms|
    && |t.rooms| == |s.rooms| && |t.senders| == |s.senders| && s.seqno <= t.seqno
    && t.setup == s.setup && t.joiners == s.joiners
    && t.senders == s.senders[i := t.senders[i]] && t.senders[i].room == s.senders[i].room
    && t.rooms == s.rooms[s.senders[i].room := t.rooms[s.senders[i].room]]
  }

  /** The history is left alone, or given one more message of room `r`. */
  ghost predicate Keeps(s: State, t: State, r: nat)
    requires r < |s.rooms|
  {
    t.hists == s.hists
    || exists p: Payload :: p.room == r && p.msg && p.id <= t.seqno && t.hists == s.hists[s.rooms[r].name := HistOf(s, r) + [p]]
  }

  lemma OtherRoom(s: State, t: State, i: nat, q: nat)
    requires Local(s, t, i) && q < |s.rooms| && q != s.senders[i].room && RoomOk(s, q)
    ensures RoomOk(t, q)
  {
    assert Pending(t, q) == Pending(s, q);
    forall k | 0 <= k < t.setup.codecs ensures RingOk(t, q, k) {
      assert RingOk(s, q, k);
    }
  }

  lemma OtherKept(s: State, t: State, i: nat, q: nat)
    requires Local(s, t, i) && q < |s.rooms| && q != s.senders[i].room && KeptOk(s, q) && Keeps(s, t, s.senders[i].room)
    ensures KeptOk(t, q)
  {
    var r := s.senders[i].room;
    if t.hists != s.hists && s.rooms[q].name == s.rooms[r].name {
      var p: Payload :| p.room == r && p.msg && p.id <= t.seqno && t.hists == s.hists[s.rooms[r].name := HistOf(s, r) + [p]];
      OwnPlus(HistOf(s, q), p, q);
      assert HistOf(t, q)[..s.rooms[q].since] == HistOf(s, q)[..s.rooms[q].since];
    }
  }

  lemma HistStays(s: State, t: State, i: nat, n: Name)
    requires Local(s, t, i) && Keeps(s, t, s.senders[i].room) && n in t.hists && (n in s.hists ==> HistOk(s, n))
    requires RoomGrows(s.rooms[s.senders[i].room], t.rooms[s.senders[i].room])
    ensures HistOk(t, n)
  {
  }

  lemma LocalGrows(s: State, t: State, i: nat)
    requires Local(s, t, i) && Keeps(s, t, s.senders[i].room)
    requires RoomGrows(s.rooms[s.senders[i].room], t.rooms[s.senders[i].room])
    ensures Grows(s, t)
  {
  }

  /** It is enough to look at the sender's own room. */
  lemma Elsewhere(s: State, t: State, i: nat)
    requires Inv(s) && Local(s, t, i) && Keeps(s, t, s.senders[i].room)
    requires RoomGrows(s.rooms[s.senders[i].room], t.rooms[s.senders[i].room])
    requires InLock(s.senders[i].pc) || (s.senders[i].pc == SLock && s.rooms[s.senders[i].room].lock == None)
    requires RoomOk(t, s.senders[i].room) && KeptOk(t, s.senders[i].room) && SenderOk(t, i)
    ensures Inv(t)
  {
    LocalGrows(s, t, i);
    forall q | 0 <= q < |t.rooms| ensures RoomOk(t, q) && KeptOk(t, q) {
      if q != s.senders[i].room {
        assert RoomOk(s, q) && KeptOk(s, q);
        OtherRoom(s, t, i, q);
        OtherKept(s, t, i, q);
      }
    }
    forall n | n in t.hists ensures HistOk(t, n) {
      HistStays(s, t, i, n);
    }
    forall k | 0 <= k < |t.senders| ensures SenderOk(t, k) {
      if k != i {
        OtherSender(s, t, i, k);
      }
    }
    forall j | 0 <= j < |t.joiners| ensures JoinerOk(t, j) {
      assert JoinerOk(s, j);
      JoinerStays(s, t, j);
    }
  }

  lemma OtherSender(s: State, t: State, i: nat, k: nat)
    requires Local(s, t, i) && k < |s.senders| && k != i && SenderOk(s, k) && SenderOk(s, i)
    requires RoomGrows(s.rooms[s.senders[i].room], t.rooms[s.senders[i].room])
    requires InLock(s.senders[i].pc) || (s.senders[i].pc == SLock && s.rooms[s.senders[i].room].lock == None)
    ensures SenderOk(t, k)
  {
  }
}
