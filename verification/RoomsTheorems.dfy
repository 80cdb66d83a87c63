/** What every run of senders, joiners and sweeps leaves in a channel. */
module RoomsTheorems {
  import opened Fanout
  import opened Rooms
  import opened RoomsInv
  import opened RoomsSteps

  // ------------------------------------------------------------ one order

  /** Whenever nobody holds the lock, every open ring of the channel, in every
      encoding, carries the same frames, the ids rising strictly; and what the
      history holds of this channel is exactly the MSGs among them, in that order. */
  lemma OneOrder(tr: seq<State>, k: nat, r: nat)
    requires Run(tr) && k < |tr| && r < |tr[k].rooms|
    ensures var room := tr[k].rooms[r];
      && |room.rings| == |room.open| == tr[k].setup.codecs && Increasing(room.log)
      && Own(HistOf(tr[k], r), r) == Msgs(room.log)
      && (room.lock == None ==> forall c | 0 <= c < |room.rings| :: room.open[c] ==> room.rings[c] == room.log)
  {
    RunInv(tr, k);
    var s := tr[k];
    assert RoomOk(s, r) && KeptOk(s, r);
    if s.rooms[r].lock == None {
      assert Pending(s, r) == {};
      forall c | 0 <= c < s.setup.codecs ensures s.rooms[r].open[c] ==> s.rooms[r].rings[c] == s.rooms[r].log {
        assert RingOk(s, r, c);
      }
    }
  }

  /** At every moment a ring is a beginning of that one order, and an open one
      lacks at most the frame in flight; so no two open rings are further apart. */
  lemma OneFrameApart(tr: seq<State>, k: nat, r: nat, c: nat)
    requires Run(tr) && k < |tr| && r < |tr[k].rooms| && c < tr[k].setup.codecs
    ensures var room := tr[k].rooms[r];
      && c < |room.rings| && c < |room.open|
      && room.rings[c] <= room.log
      && (room.open[c] ==> |room.log| - 1 <= |room.rings[c]|)
  {
    RunInv(tr, k);
    assert RoomOk(tr[k], r) && RingOk(tr[k], r, c);
  }

  // ------------------------------------------------------------ one history

  /** No other channel of the name has added to the history since room `r` opened. */
  predicate AloneSince(s: State, r: nat, n: nat)
    requires r < |s.rooms|
  {
    forall i | n <= i < |HistOf(s, r)| :: HistOf(s, r)[i].room == r
  }

  lemma {:induction false} OwnConcat(a: seq<Payload>, b: seq<Payload>, r: nat)
    ensures Own(a + b, r) == Own(a, r) + Own(b, r)
  {
    if b == [] {
      assert a + b == a;
    } else {
      var c := b[..|b| - 1];
      OwnConcat(a, c, r);
      OwnPlus(a + c, b[|b| - 1], r);
      assert a + b == a + c + [b[|b| - 1]];
    }
  }

  lemma {:induction false} OwnIsAll(q: seq<Payload>, r: nat)
    ensures Own(q, r) == q <==> forall i | 0 <= i < |q| :: q[i].room == r
    ensures |Own(q, r)| == |q| ==> Own(q, r) == q
  {
    if q != [] {
      var p := q[..|q| - 1];
      OwnIsAll(p, r);
      assert q == p + [q[|q| - 1]];
    }
  }

  lemma OwnSince(s: State, r: nat)
    requires r < |s.rooms| && KeptOk(s, r)
    ensures Own(HistOf(s, r)[s.rooms[r].since..], r) == Msgs(s.rooms[r].log)
  {
    var hist, since := HistOf(s, r), s.rooms[r].since;
    OwnNone(hist[..since], r);
    OwnConcat(hist[..since], hist[since..], r);
    assert hist[..since] + hist[since..] == hist;
  }

  lemma RestIsOwn(q: seq<Payload>, own: seq<Payload>, since: nat, r: nat)
    requires since <= |q| && Own(q[since..], r) == own
    ensures q == q[..since] + own <==> q[since..] == own
    ensures q[since..] == own <==> forall i | 0 <= i < |q[since..]| :: q[since..][i].room == r
  {
    OwnIsAll(q[since..], r);
    assert q == q[..since] + q[since..];
    assert (q[..since] + own)[since..] == own;
  }

  /** The history is what it was when the channel was made plus the channel's own
      MSGs exactly if no other channel of that name, swept before or made after, has
      added to it since. */
  lemma HistoryIsOwnIff(tr: seq<State>, k: nat, r: nat)
    requires Run(tr) && k < |tr| && r < |tr[k].rooms|
    ensures var room, hist := tr[k].rooms[r], HistOf(tr[k], r);
      && room.since <= |hist|
      && (hist == hist[..room.since] + Msgs(room.log) <==> AloneSince(tr[k], r, room.since))
  {
    RunInv(tr, k);
    assert KeptOk(tr[k], r);
    OwnSince(tr[k], r);
    RestIsOwn(HistOf(tr[k], r), Msgs(tr[k].rooms[r].log), tr[k].rooms[r].since, r);
    AloneIsRest(tr[k], r, tr[k].rooms[r].since);
  }

  lemma AloneIsRest(s: State, r: nat, n: nat)
    requires r < |s.rooms| && n <= |HistOf(s, r)|
    ensures AloneSince(s, r, n) <==> forall i | 0 <= i < |HistOf(s, r)[n..]| :: HistOf(s, r)[n..][i].room == r
  {
    var q := HistOf(s, r)[n..];
    if forall i | 0 <= i < |q| :: q[i].room == r {
      forall i | n <= i < |HistOf(s, r)| ensures HistOf(s, r)[i].room == r {
        assert q[i - n] == HistOf(s, r)[i];
      }
    }
  }

  // ------------------------------------------------------------ rising ids

  lemma {:induction false} MsgsRise(q: seq<Payload>)
    requires Increasing(q)
    ensures Increasing(Msgs(q))
  {
    if q != [] {
      var p := q[..|q| - 1];
      MsgsRise(p);
      forall i | 0 <= i < |Msgs(p)| ensures Msgs(p)[i].id < q[|q| - 1].id {
        MsgsFrom(p, Msgs(p)[i]);
      }
    }
  }

  lemma {:induction false} OwnRises(q: seq<Payload>, r: nat, i: nat, j: nat)
    requires Increasing(Own(q, r)) && i < j < |q| && q[i].room == r && q[j].room == r
    ensures q[i].id < q[j].id
  {
    var p := q[..|q| - 1];
    assert Own(p, r) <= Own(q, r);
    if j < |q| - 1 {
      OwnRises(p, r, i, j);
    } else {
      OwnFrom(p, q[i], r);
      assert q[i] in p by { assert p[i] == q[i]; }
      var m :| 0 <= m < |Own(p, r)| && Own(p, r)[m] == q[i];
      assert Own(q, r)[m] == q[i] && Own(q, r)[|Own(p, r)|] == q[j];
    }
  }

  /** Through one channel, ids rise in the history whatever else is added to it. */
  lemma SameRoomRises(tr: seq<State>, k: nat, n: Name, i: nat, j: nat)
    requires Run(tr) && k < |tr| && i < j < |Hist(tr[k], n)| && Hist(tr[k], n)[i].room == Hist(tr[k], n)[j].room
    ensures Hist(tr[k], n)[i].id < Hist(tr[k], n)[j].id
  {
    RunInv(tr, k);
    var s := tr[k];
    assert HistOk(s, n);
    var r := Hist(s, n)[i].room;
    assert RoomOk(s, r) && KeptOk(s, r);
    MsgsRise(s.rooms[r].log);
    OwnRises(Hist(s, n), r, i, j);
  }

  lemma {:induction false} RisesStepwise(q: seq<Payload>)
    requires forall i | 0 < i < |q| :: q[i - 1].id < q[i].id
    ensures Increasing(q)
  {
    if |q| > 1 {
      var p := q[..|q| - 1];
      RisesStepwise(p);
      forall i | 0 <= i < |p| ensures q[i].id < q[|q| - 1].id {
        assert q[|q| - 2].id < q[|q| - 1].id;
        assert i < |p| - 1 ==> p[i].id < p[|p| - 1].id;
      }
    }
  }

  /** From one message to the next, where the channel object changes. */
  predicate RisesAtHandovers(q: seq<Payload>) {
    forall i | 0 < i < |q| && q[i - 1].room != q[i].room :: q[i - 1].id < q[i].id
  }

  /** A name's history is in id order exactly if it is wherever one channel object's
      message follows another's. */
  lemma HistoryRisesIff(tr: seq<State>, k: nat, n: Name)
    requires Run(tr) && k < |tr|
    ensures Increasing(Hist(tr[k], n)) <==> RisesAtHandovers(Hist(tr[k], n))
  {
    var q := Hist(tr[k], n);
    if RisesAtHandovers(q) {
      forall i | 0 < i < |q| ensures q[i - 1].id < q[i].id {
        if q[i - 1].room == q[i].room {
          SameRoomRises(tr, k, n, i - 1, i);
        }
      }
      RisesStepwise(q);
    }
  }

  /** Every message was added by the newest channel of the name there then was. */
  predicate NoStray(s: State, n: Name) {
    forall i, r | 0 <= i < |Hist(s, n)| && 0 <= r < |s.rooms| && s.rooms[r].name == n && Hist(s, n)[i].room < r :: i < s.rooms[r].since
  }

  /** And so it is whenever no swept channel's send came after its successor opened. */
  lemma NoStrayRises(tr: seq<State>, k: nat, n: Name)
    requires Run(tr) && k < |tr| && NoStray(tr[k], n)
    ensures Increasing(Hist(tr[k], n))
  {
    RunInv(tr, k);
    var s, q := tr[k], Hist(tr[k], n);
    forall i | 0 < i < |q| && q[i - 1].room != q[i].room ensures q[i - 1].id < q[i].id {
      HandoverRises(s, n, i);
    }
    HistoryRisesIff(tr, k, n);
  }

  lemma HandoverRises(s: State, n: Name, i: nat)
    requires Inv(s) && NoStray(s, n) && 0 < i < |Hist(s, n)| && Hist(s, n)[i - 1].room != Hist(s, n)[i].room
    ensures Hist(s, n)[i - 1].id < Hist(s, n)[i].id
  {
    var q := Hist(s, n);
    assert HistOk(s, n);
    var u, v := q[i - 1].room, q[i].room;
    assert KeptOk(s, u) && KeptOk(s, v) && RoomOk(s, v);
    if u < v {
      OwnFrom(q, q[i], v);
      MsgsFrom(s.rooms[v].log, q[i]);
      assert q[..s.rooms[v].since][i - 1] == q[i - 1];
    }
  }

  // ------------------------------------------------------------ ids

  predicate Unsent(pc: SendPc) {
    pc.SEncode? || pc.SAfter? || (pc.SUnlock? && !pc.sent) || (pc.SDone? && !pc.sent)
  }

  predicate Absent(q: seq<Payload>, id: nat) {
    forall n | 0 <= n < |q| :: q[n].id != id
  }

  ghost predicate Nowhere(s: State, id: nat) {
    && (forall r | 0 <= r < |s.rooms| :: Absent(s.rooms[r].log, id))
    && (forall n :: Absent(Hist(s, n), id))
  }

  /** Ids are never shared, and an unsent one is nowhere. */
  ghost predicate Ids(s: State) {
    && (forall i, j | 0 <= i < j < |s.senders| :: Id(s.senders[i].pc).Some? ==> Id(s.senders[i].pc) != Id(s.senders[j].pc))
    && (forall i | 0 <= i < |s.senders| && Unsent(s.senders[i].pc) :: Nowhere(s, Id(s.senders[i].pc).value))
    && (forall n :: Distinct(Hist(s, n)))
  }

  predicate Distinct(q: seq<Payload>) {
    forall i, j | 0 <= i < j < |q| :: q[i].id != q[j].id
  }

  lemma FreshId(s: State)
    requires Inv(s)
    ensures Nowhere(s, s.seqno + 1)
  {
    forall r | 0 <= r < |s.rooms| ensures Absent(s.rooms[r].log, s.seqno + 1) {
      assert RoomOk(s, r);
    }
    forall n ensures Absent(Hist(s, n), s.seqno + 1) {
      assert n in s.hists ==> HistOk(s, n);
    }
  }

  /** A sender keeps its id, or draws the next. */
  lemma IdFrom(s: State, t: State, step: Step, i: nat)
    requires Enabled(s, step) && t == Apply(s, step) && i < |t.senders|
    ensures if i >= |s.senders| then Id(t.senders[i].pc) == None
            else Id(t.senders[i].pc) == Id(s.senders[i].pc)
                 || (step.MoveSender? && step.i == i && Id(t.senders[i].pc) == Some(s.seqno + 1))
  {
    if step.MoveSender? {
      assert t == SenderStep(s, step.i, step.ok, step.pick);
    }
  }

  lemma IdsApart(s: State, t: State, step: Step, i: nat, j: nat)
    requires Inv(s) && Ids(s) && Enabled(s, step) && t == Apply(s, step)
    requires i < j < |t.senders| && Id(t.senders[i].pc).Some?
    ensures Id(t.senders[i].pc) != Id(t.senders[j].pc)
  {
    IdFrom(s, t, step, i);
    IdFrom(s, t, step, j);
    assert i < |s.senders| && SenderOk(s, i);
    assert j < |s.senders| ==> SenderOk(s, j);
  }

  /** Only a sender past encoding puts anything down, and that is its own. */
  lemma StaysNowhere(s: State, t: State, step: Step, id: nat)
    requires Enabled(s, step) && t == Apply(s, step) && Nowhere(s, id)
    requires step.MoveSender? && s.senders[step.i].pc.SAfter? ==> s.senders[step.i].pc.id != id
    ensures Nowhere(t, id)
  {
    forall r | 0 <= r < |t.rooms| ensures Absent(t.rooms[r].log, id) {
      assert r < |s.rooms| ==> Absent(s.rooms[r].log, id);
    }
    forall n ensures Absent(Hist(t, n), id) {
      assert Absent(Hist(s, n), id);
    }
  }

  /** Whose id is unsent had it before, or has just drawn it. */
  lemma UnsentFrom(s: State, t: State, step: Step, i: nat)
    requires Enabled(s, step) && t == Apply(s, step) && i < |t.senders| && Unsent(t.senders[i].pc)
    ensures i < |s.senders|
    ensures if step.MoveSender? && step.i == i && s.senders[i].pc.SId? then Id(t.senders[i].pc) == Some(s.seqno + 1)
            else Unsent(s.senders[i].pc) && Id(t.senders[i].pc) == Id(s.senders[i].pc)
    ensures step.MoveSender? && step.i == i ==> !s.senders[i].pc.SAfter?
  {
    if step.MoveSender? {
      assert t == SenderStep(s, step.i, step.ok, step.pick);
    }
  }

  lemma UnsentNowhere(s: State, t: State, step: Step, i: nat)
    requires Inv(s) && Ids(s) && Enabled(s, step) && t == Apply(s, step) && i < |t.senders| && Unsent(t.senders[i].pc)
    ensures Nowhere(t, Id(t.senders[i].pc).value)
  {
    UnsentFrom(s, t, step, i);
    if step.MoveSender? && step.i == i && s.senders[i].pc.SId? {
      FreshId(s);
    }
    StaysNowhere(s, t, step, Id(t.senders[i].pc).value);
  }

  lemma StaysDistinct(s: State, t: State, step: Step, n: Name)
    requires Ids(s) && Enabled(s, step) && t == Apply(s, step)
    ensures Distinct(Hist(t, n))
  {
    assert Distinct(Hist(s, n));
    if step.MoveSender? && s.senders[step.i].pc.SAfter? {
      assert Nowhere(s, s.senders[step.i].pc.id);
      assert Absent(Hist(s, n), s.senders[step.i].pc.id);
    }
  }

  lemma IdsNext(tr: seq<State>, k: nat)
    requires Run(tr) && 0 < k < |tr| && Ids(tr[k - 1])
    ensures Ids(tr[k])
  {
    RunInv(tr, k - 1);
    var s, t := tr[k - 1], tr[k];
    var step := StepTo(tr, k);
    forall i, j | 0 <= i < j < |t.senders| && Id(t.senders[i].pc).Some? ensures Id(t.senders[i].pc) != Id(t.senders[j].pc) {
      IdsApart(s, t, step, i, j);
    }
    forall i | 0 <= i < |t.senders| && Unsent(t.senders[i].pc) ensures Nowhere(t, Id(t.senders[i].pc).value) {
      UnsentNowhere(s, t, step, i);
    }
    forall n ensures Distinct(Hist(t, n)) {
      StaysDistinct(s, t, step, n);
    }
  }

  lemma {:induction false} RunIds(tr: seq<State>, k: nat)
    requires Run(tr) && k < |tr|
    ensures Ids(tr[k])
  {
    if k > 0 {
      RunIds(tr, k - 1);
      IdsNext(tr, k);
    }
  }

  /** A broadcast that failed to encode reports no id, and the id it spent no ring of
      any channel, in any encoding, and no history ever shows. */
  lemma FailedEncodeLeavesNothing(tr: seq<State>, k: nat, i: nat, r: nat, n: Name)
    requires Run(tr) && k < |tr| && i < |tr[k].senders| && r < |tr[k].rooms|
    requires tr[k].senders[i].pc.SDone? && tr[k].senders[i].encoded != Some(true)
    ensures !tr[k].senders[i].pc.sent && tr[k].senders[i].encoded == Some(false)
    ensures Absent(Hist(tr[k], n), tr[k].senders[i].pc.id)
    ensures forall c | 0 <= c < |tr[k].rooms[r].rings| :: Absent(tr[k].rooms[r].rings[c], tr[k].senders[i].pc.id)
  {
    RunIds(tr, k);
    RunInv(tr, k);
    assert SenderOk(tr[k], i);
    assert Nowhere(tr[k], tr[k].senders[i].pc.id) && RoomOk(tr[k], r);
    forall c | 0 <= c < |tr[k].rooms[r].rings| ensures Absent(tr[k].rooms[r].rings[c], tr[k].senders[i].pc.id) {
      assert RingOk(tr[k], r, c);
    }
  }

  // ------------------------------------------------------------ delivery

  /** What a sender that got past encoding put down. */
  ghost predicate Logged(s: State, i: nat)
    requires i < |s.senders|
  {
    var x := s.senders[i];
    x.room < |s.rooms| && (Id(x.pc).Some? && !Unsent(x.pc) ==> Payload(Id(x.pc).value, x.msg, x.body, x.room) in s.rooms[x.room].log)
  }

  lemma LogsGrow(s: State, t: State, step: Step, r: nat)
    requires Enabled(s, step) && t == Apply(s, step) && r < |s.rooms|
    ensures r < |t.rooms| && s.rooms[r].log <= t.rooms[r].log
  {
    if step.MoveSender? {
      assert t == SenderStep(s, step.i, step.ok, step.pick);
    }
  }

  lemma LoggedAfter(s: State, t: State, i: nat)
    requires SenderEnabled(s, i, 0) && s.senders[i].pc.SAfter? && t == SenderStep(s, i, true, 0)
    ensures Logged(t, i)
  {
    var log := t.rooms[s.senders[i].room].log;
    assert log[|log| - 1] == Payload(s.senders[i].pc.id, s.senders[i].msg, s.senders[i].body, s.senders[i].room);
  }

  lemma SenderIs(s: State, t: State, step: Step, i: nat)
    requires Enabled(s, step) && t == Apply(s, step) && i < |t.senders|
    ensures if i < |s.senders| then t.senders[i] == s.senders[i].(pc := t.senders[i].pc, encoded := t.senders[i].encoded)
            else t.senders[i].pc == SLock && t.senders[i].room < |s.rooms|
    ensures i < |s.senders| && !(step.MoveSender? && step.i == i) ==> t.senders[i] == s.senders[i]
  {
  }

  /** Only a sender past encoding comes to have sent. */
  lemma SentFrom(s: State, t: State, i: nat, ok: bool, pick: nat)
    requires SenderEnabled(s, i, pick) && t == SenderStep(s, i, ok, pick) && !s.senders[i].pc.SAfter?
    requires Id(t.senders[i].pc).Some? && !Unsent(t.senders[i].pc)
    ensures Id(s.senders[i].pc) == Id(t.senders[i].pc) && !Unsent(s.senders[i].pc)
  {
  }

  lemma LoggedStays(s: State, t: State, step: Step, i: nat)
    requires Enabled(s, step) && t == Apply(s, step) && i < |t.senders|
    requires i < |s.senders| ==> Logged(s, i)
    ensures Logged(t, i)
  {
    SenderIs(s, t, step, i);
    if i < |s.senders| && step.MoveSender? && step.i == i && s.senders[i].pc.SAfter? {
      LoggedAfter(s, t, i);
    } else {
      LogsGrow(s, t, step, t.senders[i].room);
      if i < |s.senders| && step.MoveSender? && step.i == i && Id(t.senders[i].pc).Some? && !Unsent(t.senders[i].pc) {
        SentFrom(s, t, i, step.ok, step.pick);
      }
    }
  }

  lemma {:induction false} RunLogged(tr: seq<State>, k: nat, i: nat)
    requires Run(tr) && k < |tr| && i < |tr[k].senders|
    ensures Logged(tr[k], i)
  {
    if k > 0 {
      var step := StepTo(tr, k);
      if i < |tr[k - 1].senders| {
        RunLogged(tr, k - 1, i);
      }
      LoggedStays(tr[k - 1], tr[k], step, i);
    }
  }

  /** A broadcast that encoded and is through has reported its id, and is in every
      ring of its channel that is still open, and, if a MSG, in the history of the
      channel's name. */
  lemma SentIsEverywhere(tr: seq<State>, k: nat, i: nat)
    requires Run(tr) && k < |tr| && i < |tr[k].senders|
    requires tr[k].senders[i].pc.SDone? && tr[k].senders[i].encoded == Some(true)
    ensures tr[k].senders[i].pc.sent
    ensures var x := tr[k].senders[i];
      var p := Payload(x.pc.id, x.msg, x.body, x.room);
      && x.room < |tr[k].rooms|
      && (tr[k].rooms[x.room].lock == None ==>
            forall c | 0 <= c < |tr[k].rooms[x.room].rings| && c < |tr[k].rooms[x.room].open| ::
              tr[k].rooms[x.room].open[c] ==> p in tr[k].rooms[x.room].rings[c])
      && (x.msg ==> p in HistOf(tr[k], x.room))
  {
    var x := tr[k].senders[i];
    var p := Payload(x.pc.id, x.msg, x.body, x.room);
    RunInv(tr, k);
    assert SenderOk(tr[k], i);
    RunLogged(tr, k, i);
    OneOrder(tr, k, x.room);
    if x.msg {
      MsgsFrom(tr[k].rooms[x.room].log, p);
      OwnFrom(HistOf(tr[k], x.room), p, x.room);
    }
  }

  // ------------------------------------------------------------ no invention

  /** Payload `p` is what sender `i`'s broadcast was given, under the id it drew. */
  predicate Of(x: Sender, p: Payload) {
    && Id(x.pc) == Some(p.id) && x.room == p.room && x.msg == p.msg && x.body == p.body && x.encoded == Some(true)
  }

  ghost predicate FromSender(s: State, p: Payload) {
    exists i: nat :: i < |s.senders| && Of(s.senders[i], p)
  }

  ghost predicate AllFromSenders(s: State) {
    forall r, q | 0 <= r < |s.rooms| && 0 <= q < |s.rooms[r].log| :: FromSender(s, s.rooms[r].log[q])
  }

  lemma OfStays(s: State, t: State, step: Step, i: nat, p: Payload)
    requires Inv(s) && Enabled(s, step) && t == Apply(s, step) && i < |s.senders| && Of(s.senders[i], p)
    ensures i < |t.senders| && Of(t.senders[i], p)
  {
    assert SenderOk(s, i);
    SenderIs(s, t, step, i);
    if step.MoveSender? && step.i == i {
      assert t == SenderStep(s, i, step.ok, step.pick);
    }
  }

  lemma FromSenderStays(s: State, t: State, step: Step, p: Payload)
    requires Inv(s) && Enabled(s, step) && t == Apply(s, step) && FromSender(s, p)
    ensures FromSender(t, p)
  {
    var i: nat :| i < |s.senders| && Of(s.senders[i], p);
    OfStays(s, t, step, i, p);
  }

  lemma LogFrom(s: State, t: State, step: Step, r: nat)
    requires Inv(s) && Enabled(s, step) && t == Apply(s, step) && r < |t.rooms|
    ensures if r >= |s.rooms| then t.rooms[r].log == []
            else t.rooms[r].log == s.rooms[r].log
                 || exists p :: FromSender(t, p) && t.rooms[r].log == s.rooms[r].log + [p]
  {
    if step.MoveSender? && s.senders[step.i].pc.SAfter? && s.senders[step.i].room == r {
      var x := s.senders[step.i];
      assert SenderOk(s, step.i);
      var p := Payload(x.pc.id, x.msg, x.body, x.room);
      assert Of(t.senders[step.i], p);
      assert t.rooms[r].log == s.rooms[r].log + [p];
    }
  }

  lemma FromNext(tr: seq<State>, k: nat)
    requires Run(tr) && 0 < k < |tr| && AllFromSenders(tr[k - 1])
    ensures AllFromSenders(tr[k])
  {
    RunInv(tr, k - 1);
    var s, t := tr[k - 1], tr[k];
    var step := StepTo(tr, k);
    forall r, q | 0 <= r < |t.rooms| && 0 <= q < |t.rooms[r].log| ensures FromSender(t, t.rooms[r].log[q]) {
      LogFrom(s, t, step, r);
      if q < |s.rooms[r].log| {
        FromSenderStays(s, t, step, s.rooms[r].log[q]);
      }
    }
  }

  lemma {:induction false} RunFrom(tr: seq<State>, k: nat)
    requires Run(tr) && k < |tr|
    ensures AllFromSenders(tr[k])
  {
    if k > 0 {
      RunFrom(tr, k - 1);
      FromNext(tr, k);
    }
  }

  /** Nothing is made up: every frame of every ring is what one broadcast on that
      channel was given, under its id, once it had encoded. */
  lemma EveryFrameWasSent(tr: seq<State>, k: nat, r: nat, c: nat, q: nat) returns (i: nat)
    requires Run(tr) && k < |tr| && r < |tr[k].rooms| && c < |tr[k].rooms[r].rings| && q < |tr[k].rooms[r].rings[c]|
    ensures i < |tr[k].senders| && tr[k].senders[i].room == r && Of(tr[k].senders[i], tr[k].rooms[r].rings[c][q])
    ensures forall j | 0 <= j < |tr[k].senders| && Of(tr[k].senders[j], tr[k].rooms[r].rings[c][q]) :: j == i
  {
    RunFrom(tr, k);
    RunIds(tr, k);
    RunInv(tr, k);
    var s := tr[k];
    assert RoomOk(s, r) && RingOk(s, r, c);
    assert s.rooms[r].rings[c][q] == s.rooms[r].log[q];
    assert FromSender(s, s.rooms[r].log[q]);
    i :| 0 <= i < |s.senders| && Of(s.senders[i], s.rooms[r].log[q]);
  }

  // ------------------------------------------------------------ closed rings

  lemma ShutKeeps(s: State, t: State, step: Step, r: nat, c: nat)
    requires Enabled(s, step) && t == Apply(s, step) && Shut(s, r, c)
    ensures Shut(t, r, c) && t.rooms[r].rings[c] == s.rooms[r].rings[c]
  {
    if step.MoveSender? {
      SenderKeepsShut(s, t, step.i, step.ok, step.pick, r, c);
    }
  }

  predicate Shut(s: State, r: nat, c: nat) {
    r < |s.rooms| && c < |s.rooms[r].rings| && c < |s.rooms[r].open| && !s.rooms[r].open[c]
  }

  lemma SenderKeepsShut(s: State, t: State, i: nat, ok: bool, pick: nat, r: nat, c: nat)
    requires SenderEnabled(s, i, pick) && t == SenderStep(s, i, ok, pick) && Shut(s, r, c)
    ensures Shut(t, r, c) && t.rooms[r].rings[c] == s.rooms[r].rings[c]
  {
  }

  /** From the step that closes a ring nothing is ever written to it again, whoever
      was already sending. */
  lemma {:induction false} ShutIsFinal(tr: seq<State>, i: nat, k: nat, r: nat, c: nat)
    requires Run(tr) && i < k < |tr| && Enabled(tr[i], CloseRing(r, c)) && tr[i + 1] == Apply(tr[i], CloseRing(r, c))
    ensures Shut(tr[k], r, c) && c < |tr[i].rooms[r].rings| && tr[k].rooms[r].rings[c] == tr[i].rooms[r].rings[c]
  {
    if i + 1 < k {
      ShutIsFinal(tr, i, k - 1, r, c);
      var step := StepTo(tr, k);
      ShutKeeps(tr[k - 1], tr[k], step, r, c);
    }
  }
}
