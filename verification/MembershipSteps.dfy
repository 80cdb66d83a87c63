/** Every step keeps the core invariant. */
module MembershipSteps {
  import opened Fanout
  import opened Membership
  import opened MembershipInv

  // ------------------------------------------------------------ framing

  /** Only the channels change, and none loses its name. */
  ghost predicate SameButChans(s: State, t: State) {
    && t.conns == s.conns && t.membs == s.membs && t.mods == s.mods
    && |t.hub.chans| >= |s.hub.chans| && (forall h | 0 <= h < |s.hub.chans| :: t.hub.chans[h].name == s.hub.chans[h].name)
  }

  lemma ChansFrame(s: State, t: State, c: nat)
    requires SameButChans(s, t) && c < |s.conns| && ConnCore(s, c)
    ensures ConnCore(t, c)
  {
    forall m | 0 <= m < |t.membs| && t.membs[m].conn == c ensures MembOk(t, m) {
      assert MembOk(s, m);
    }
    forall a | 0 <= a < |t.mods| && t.mods[a].target == c ensures ModOk(t, a) {
      assert ModOk(s, a);
    }
  }

  lemma ChansKeepCore(s: State, t: State)
    requires Core(s) && SameButChans(s, t) && RegistryOk(t)
    ensures Core(t)
  {
    forall c | 0 <= c < |t.conns| ensures ConnCore(t, c) {
      ChansFrame(s, t, c);
    }
  }

  /** A task that has no membership in its hands. */
  predicate Light(t: Task) {
    match t
    case Joining(j) => Carried(t) == None
    case Parting(p) => !Held(p)
    case Leaving(p, todo) => !Held(p) && todo == {}
    case _ => true
  }

  /** From one empty-handed task to another. */
  lemma Retask(s: State, c: nat, x: Conn)
    requires c < |s.conns| && ConnCore(s, c) && Light(s.conns[c].task) && Light(x.task)
    requires x == s.conns[c].(task := x.task, sent := x.sent) && TaskOk(SetConn(s, c, x), c)
    ensures ConnCore(SetConn(s, c, x), c)
  {
    var t := SetConn(s, c, x);
    forall m | 0 <= m < |t.membs| && t.membs[m].conn == c ensures MembOk(t, m) {
      assert MembOk(s, m);
    }
    forall a | 0 <= a < |t.mods| && t.mods[a].target == c ensures ModOk(t, a) {
      assert ModOk(s, a);
    }
  }

  lemma RetaskCore(s: State, c: nat, x: Conn)
    requires Core(s) && c < |s.conns| && Light(s.conns[c].task) && Light(x.task)
    requires x == s.conns[c].(task := x.task, sent := x.sent) && TaskOk(SetConn(s, c, x), c)
    ensures Core(SetConn(s, c, x))
  {
    assert ConnCore(s, c);
    Retask(s, c, x);
    Local(s, SetConn(s, c, x), c);
  }

  /** Bans cannot tell membership `x` from `y`. */
  predicate ModSafe(x: Memb, y: Memb) {
    && y.conn == x.conn && y.name == x.name && y.chan == x.chan
    && (x.custody == Untaken || x.custody == TakenBy(Owner) || y.custody == x.custody)
    && (x.subClosed ==> y.subClosed) && (x.dones == 1 ==> y.dones == 1)
  }

  /** The connection's other memberships cannot tell `x` from `y`. */
  ghost predicate OthersSafe(x: Conn, y: Conn, m: nat) {
    && y.nick == x.nick && y.key == x.key
    && (y.task == x.task
        || ((Carried(x.task) == None || Carried(x.task) == Some(m)) && (Carried(y.task) == None || Carried(y.task) == Some(m))))
    && (forall k: nat | k != m && OwnerHolds(x.task, k) :: OwnerHolds(y.task, k))
    && (forall n | n in x.memberships && x.memberships[n] != m :: n in y.memberships && y.memberships[n] == x.memberships[n])
  }

  /** One membership of `c`, its map and its task change. */
  lemma Rework(s: State, c: nat, m: nat, x: Conn, y: Memb)
    requires Core(s) && c < |s.conns| && m < |s.membs| && s.membs[m].conn == c
    requires ModSafe(s.membs[m], y) && OthersSafe(s.conns[c], x, m)
    requires var t := SetMemb(SetConn(s, c, x), m, y); TaskOk(t, c) && MapOk(t, c) && MembOk(t, m)
    ensures Core(SetMemb(SetConn(s, c, x), m, y))
  {
    assert ConnCore(s, c);
    ReworkMembs(s, c, m, x, y);
    ReworkMods(s, c, m, x, y);
    Local(s, SetMemb(SetConn(s, c, x), m, y), c);
  }

  lemma ReworkMembs(s: State, c: nat, m: nat, x: Conn, y: Memb)
    requires c < |s.conns| && ConnCore(s, c) && m < |s.membs| && s.membs[m].conn == c && y.conn == c && OthersSafe(s.conns[c], x, m)
    requires MembOk(SetMemb(SetConn(s, c, x), m, y), m)
    ensures var t := SetMemb(SetConn(s, c, x), m, y); forall k | 0 <= k < |t.membs| && t.membs[k].conn == c :: MembOk(t, k)
  {
    var t := SetMemb(SetConn(s, c, x), m, y);
    forall k | 0 <= k < |t.membs| && t.membs[k].conn == c ensures MembOk(t, k) {
      if k != m {
        assert MembOk(s, k);
      }
    }
  }

  lemma ReworkMods(s: State, c: nat, m: nat, x: Conn, y: Memb)
    requires c < |s.conns| && ConnCore(s, c) && m < |s.membs| && s.membs[m].conn == c && ModSafe(s.membs[m], y)
    ensures var t := SetMemb(SetConn(s, c, x), m, y); forall a | 0 <= a < |t.mods| && t.mods[a].target == c :: ModOk(t, a)
  {
    var t := SetMemb(SetConn(s, c, x), m, y);
    forall a | 0 <= a < |t.mods| && t.mods[a].target == c ensures ModOk(t, a) {
      assert ModOk(s, a);
    }
  }

  // ------------------------------------------------------------ join

  lemma SeekKeeps(s: State, c: nat, j: JoinPc, ok: bool)
    requires Core(s) && JoinEnabled(s, c, j) && s.conns[c].task == Joining(j)
    requires j.JCheck? || j.JBan1? || j.JHook?
    ensures Core(SeekStep(s, c, j, ok))
  {
    assert ConnCore(s, c);
    var t := SeekStep(s, c, j, ok);
    RetaskCore(s, c, t.conns[c]);
  }

  /** The join has a channel: only it and what the connection is doing change. */
  lemma FoundKeeps(s: State, u: State, c: nat, name: Name, ch: nat)
    requires Core(s) && c < |s.conns| && SameButChans(s, u) && RegistryOk(u)
    requires s.conns[c].task == Joining(JFind(name)) || s.conns[c].task == Joining(JMake(name))
    requires ch < |u.hub.chans| && u.hub.chans[ch].name == name
    ensures Core(SetTask(u, c, Joining(JSub(name, ch))))
  {
    assert ConnCore(s, c);
    ChansKeepCore(s, u);
    RetaskCore(u, c, u.conns[c].(task := Joining(JSub(name, ch))));
  }

  lemma FindKeeps(s: State, c: nat, j: JoinPc, ok: bool)
    requires Core(s) && JoinEnabled(s, c, j) && s.conns[c].task == Joining(j)
    requires j.JFind? || j.JMake?
    ensures Core(SeekStep(s, c, j, ok))
  {
    if j.name in s.hub.registry {
      FoundKeeps(s, AddMember(s, s.hub.registry[j.name], c), c, j.name, s.hub.registry[j.name]);
    } else if j.JMake? && |s.hub.registry| < s.limits.channels {
      FoundKeeps(s, MakeChannel(s, c, j.name), c, j.name, |s.hub.chans|);
    } else {
      assert ConnCore(s, c);
      var t := SeekStep(s, c, j, ok);
      RetaskCore(s, c, t.conns[c]);
    }
  }

  lemma SubscribeKeeps(s: State, c: nat, j: JoinPc, ok: bool)
    requires Core(s) && JoinEnabled(s, c, j) && s.conns[c].task == Joining(j) && j.JSub?
    ensures Core(EnterStep(s, c, j, ok))
  {
    var t := EnterStep(s, c, j, ok);
    assert ConnCore(s, c);
    forall k | 0 <= k < |t.membs| && t.membs[k].conn == c ensures MembOk(t, k) {
      if k < |s.membs| {
        assert MembOk(s, k);
      }
    }
    forall a | 0 <= a < |t.mods| && t.mods[a].target == c ensures ModOk(t, a) {
      assert ModOk(s, a);
    }
    Local(s, t, c);
  }

  lemma InsertKeeps(s: State, c: nat, m: nat)
    requires Core(s) && Carries(s, c, m) && s.conns[c].task == Joining(JInsert(m))
    ensures Core(InsertStep(s, c, m))
  {
    assert ConnCore(s, c);
    assert MembOk(s, m);
    var t := InsertStep(s, c, m);
    assert t == SetMemb(SetConn(s, c, t.conns[c]), m, s.membs[m]);
    Rework(s, c, m, t.conns[c], s.membs[m]);
  }

  /** The same membership carried from one step of the join to a later one. */
  lemma CarryOn(s: State, c: nat, m: nat, x: Conn, j: JoinPc)
    requires Core(s) && Carries(s, c, m) && Carried(s.conns[c].task) == Some(m) && Carried(Joining(j)) == Some(m)
    requires !s.conns[c].task.j.JInsert? && !s.conns[c].task.j.JPump? && !j.JInsert?
    requires x == s.conns[c].(task := Joining(j), sent := x.sent) && JoinOk(s, c, j)
    requires s.membs[m].custody == TakenBy(Owner) ==> OwnerHolds(Joining(j), m)
    ensures Core(SetConn(s, c, x))
  {
    assert ConnCore(s, c);
    assert MembOk(s, m);
    var t := SetConn(s, c, x);
    assert t == SetMemb(t, m, s.membs[m]);
    Rework(s, c, m, x, s.membs[m]);
  }

  lemma RecheckKeeps(s: State, c: nat, m: nat)
    requires Core(s) && Carries(s, c, m) && s.conns[c].task == Joining(JBan2(m))
    ensures Core(RecheckStep(s, c, m))
  {
    assert ConnCore(s, c);
    assert MembOk(s, m);
    var t := RecheckStep(s, c, m);
    CarryOn(s, c, m, t.conns[c], t.conns[c].task.j);
  }

  /** The owner's goroutine takes `m` out of the map, and holds it. */
  lemma OwnTaken(s: State, c: nat, m: nat, x: Conn, y: Memb)
    requires Carries(s, c, m) && InMap(s, c, m) && MapOk(s, c) && TaskOk(s, c) && MembOk(s, m)
    requires (s.conns[c].task == Joining(JUndo(m)) && x.task == Joining(JUndoRemove(m)))
             || (s.conns[c].task.Parting? && !Held(s.conns[c].task.p) && x.task == Parting(Tell(m)))
    requires x == s.conns[c].(memberships := s.conns[c].memberships - {s.membs[m].name}, task := x.task)
    requires y == s.membs[m].(custody := TakenBy(Owner), takes := s.membs[m].takes + 1)
    ensures ModSafe(s.membs[m], y) && OthersSafe(s.conns[c], x, m)
    ensures var t := SetMemb(SetConn(s, c, x), m, y); TaskOk(t, c) && MapOk(t, c) && MembOk(t, m)
  {
  }

  lemma OwnTakes(s: State, c: nat, m: nat, task: Task)
    requires Core(s) && Carries(s, c, m) && InMap(s, c, m)
    requires (s.conns[c].task == Joining(JUndo(m)) && task == Joining(JUndoRemove(m)))
             || (s.conns[c].task.Parting? && !Held(s.conns[c].task.p) && task == Parting(Tell(m)))
    ensures Core(SetTask(TakeOut(s, m, Owner), c, task))
  {
    assert ConnCore(s, c);
    assert MembOk(s, m);
    var x := s.conns[c].(memberships := s.conns[c].memberships - {s.membs[m].name}, task := task);
    var y := s.membs[m].(custody := TakenBy(Owner), takes := s.membs[m].takes + 1);
    OwnTaken(s, c, m, x, y);
    Rework(s, c, m, x, y);
    assert SetTask(TakeOut(s, m, Owner), c, task) == SetMemb(SetConn(s, c, x), m, y);
  }

  lemma UndoKeeps(s: State, c: nat, m: nat)
    requires Core(s) && Carries(s, c, m) && s.conns[c].task == Joining(JUndo(m))
    ensures Core(UndoStep(s, c, m))
  {
    assert ConnCore(s, c);
    assert MembOk(s, m);
    if InMap(s, c, m) {
      OwnTakes(s, c, m, Joining(JUndoRemove(m)));
    } else {
      CarryOn(s, c, m, s.conns[c].(task := Joining(JUndoDone(m))), JUndoDone(m));
    }
  }

  lemma UndoRemoveKeeps(s: State, c: nat, m: nat)
    requires Core(s) && Carries(s, c, m) && s.conns[c].task == Joining(JUndoRemove(m))
    ensures Core(SetTask(RemoveMember(s, s.membs[m].chan, c, Owner), c, Joining(JUndoClose(m))))
  {
    var u := RemoveMember(s, s.membs[m].chan, c, Owner);
    ChansKeepCore(s, u);
    assert ConnCore(u, c);
    CarryOn(u, c, m, u.conns[c].(task := Joining(JUndoClose(m))), JUndoClose(m));
  }

  lemma UndoCloseKeeps(s: State, c: nat, m: nat)
    requires Core(s) && Carries(s, c, m) && s.conns[c].task == Joining(JUndoClose(m))
    ensures Core(UndoCloseStep(s, c, m))
  {
    assert ConnCore(s, c);
    assert MembOk(s, m);
    var t := UndoCloseStep(s, c, m);
    assert t == SetMemb(SetConn(s, c, t.conns[c]), m, t.membs[m]);
    Rework(s, c, m, t.conns[c], t.membs[m]);
  }

  lemma UndoDoneKeeps(s: State, c: nat, m: nat)
    requires Core(s) && Carries(s, c, m) && s.conns[c].task == Joining(JUndoDone(m))
    ensures Core(UndoDoneStep(s, c, m))
  {
    assert ConnCore(s, c);
    assert MembOk(s, m);
    var t := UndoDoneStep(s, c, m);
    assert t == SetMemb(SetConn(s, c, t.conns[c]), m, t.membs[m]);
    Rework(s, c, m, t.conns[c], t.membs[m]);
  }

  lemma AnnounceJoinKeeps(s: State, c: nat, m: nat, ok: bool)
    requires Core(s) && Carries(s, c, m) && s.conns[c].task == Joining(JAnnounce(m))
    ensures Core(AnnounceStep(s, c, m, ok))
  {
    var u := Broadcast(s, s.membs[m].chan, Joined(m), ok);
    ChansKeepCore(s, u);
    AnnouncedKeeps(u, c, m);
  }

  lemma AnnouncedKeeps(s: State, c: nat, m: nat)
    requires Core(s) && Carries(s, c, m) && s.conns[c].task == Joining(JAnnounce(m))
    ensures Core(SetTask(SetMemb(s, m, s.membs[m].(joinSent := true)), c, Joining(JPump(m))))
  {
    assert ConnCore(s, c);
    assert MembOk(s, m);
    var x, y := s.conns[c].(task := Joining(JPump(m))), s.membs[m].(joinSent := true);
    Rework(s, c, m, x, y);
    assert SetTask(SetMemb(s, m, y), c, Joining(JPump(m))) == SetMemb(SetConn(s, c, x), m, y);
  }

  lemma PumpKeeps(s: State, c: nat, m: nat)
    requires Core(s) && Carries(s, c, m) && s.conns[c].task == Joining(JPump(m))
    ensures Core(SetTask(SetMemb(s, m, s.membs[m].(pump := Running)), c, Idle))
  {
    assert ConnCore(s, c);
    assert MembOk(s, m);
    var x, y := s.conns[c].(task := Idle), s.membs[m].(pump := Running);
    Rework(s, c, m, x, y);
    assert SetTask(SetMemb(s, m, y), c, Idle) == SetMemb(SetConn(s, c, x), m, y);
  }

  lemma EnterKeeps(s: State, c: nat, j: JoinPc, ok: bool)
    requires Core(s) && JoinEnabled(s, c, j) && s.conns[c].task == Joining(j)
    requires !Searching(j)
    ensures Core(EnterStep(s, c, j, ok))
  {
    match j
    case JSub(_, _) => SubscribeKeeps(s, c, j, ok);
    case JInsert(m) => InsertKeeps(s, c, m);
    case JBan2(m) => RecheckKeeps(s, c, m);
    case JUndo(m) => UndoKeeps(s, c, m);
    case JUndoRemove(m) => UndoRemoveKeeps(s, c, m);
    case JUndoClose(m) => UndoCloseKeeps(s, c, m);
    case JUndoDone(m) => UndoDoneKeeps(s, c, m);
    case JBacklog(m) => BacklogKeeps(s, c, m);
    case JAnnounce(m) => AnnounceJoinKeeps(s, c, m, ok);
    case JPump(m) => PumpKeeps(s, c, m);
  }

  lemma BacklogKeeps(s: State, c: nat, m: nat)
    requires Core(s) && Carries(s, c, m) && s.conns[c].task == Joining(JBacklog(m))
    ensures Core(SetTask(Tells(s, c, Direct(Backlog(m))), c, Joining(JAnnounce(m))))
  {
    assert ConnCore(s, c);
    assert MembOk(s, m);
    var t := SetTask(Tells(s, c, Direct(Backlog(m))), c, Joining(JAnnounce(m)));
    CarryOn(s, c, m, t.conns[c], JAnnounce(m));
    assert t == SetConn(s, c, t.conns[c]);
  }

  // ------------------------------------------------------------ part, leave

  /** The tasks that run a part: the owner's own, and leaving everything. */
  predicate Parts(t: Task, p: PartPc) {
    t == Parting(p) || (t.Leaving? && t.l == p)
  }

  function Resume(t: Task, q: PartPc): Task
    requires t.Parting? || t.Leaving?
  {
    if t.Parting? then Parting(q) else Leaving(q, t.todo)
  }

  lemma OwnTakeKeeps(s: State, c: nat, p: PartPc, ok: bool)
    requires Core(s) && PartEnabled(s, c, p) && s.conns[c].task == Parting(p) && p.Take?
    ensures Core(SetTask(PartStep(s, c, Owner, p, ok).0, c, Parting(PartStep(s, c, Owner, p, ok).1)))
  {
    assert ConnCore(s, c);
    if p.name in s.conns[c].memberships {
      var m := s.conns[c].memberships[p.name];
      assert MembOk(s, m);
      OwnTakes(s, c, m, Parting(Tell(m)));
    } else {
      RetaskCore(s, c, s.conns[c].(task := Parting(Over)));
    }
  }

  /** The same membership held from one step of the part to the next. */
  lemma HoldOn(s: State, c: nat, m: nat, x: Conn, q: PartPc, y: Memb)
    requires Core(s) && c < |s.conns| && m < |s.membs| && (s.conns[c].task.Parting? || s.conns[c].task.Leaving?)
    requires var p := if s.conns[c].task.Parting? then s.conns[c].task.p else s.conns[c].task.l; Holds(p, m)
    requires x == s.conns[c].(task := Resume(s.conns[c].task, q), sent := x.sent)
    requires y == s.membs[m].(subClosed := y.subClosed, custody := y.custody, partSent := y.partSent)
    requires s.membs[m].subClosed ==> y.subClosed
    requires if q == Over then y.custody == Released && s.membs[m].dones == 1 && y.subClosed
             else Holds(q, m) && y.custody == s.membs[m].custody && !y.partSent
    requires q.Wait? || q.Announce? ==> y.subClosed
    requires q.Announce? ==> y.dones == 1
    requires q.Tell? ==> false
    ensures Core(SetMemb(SetConn(s, c, x), m, y))
  {
    assert ConnCore(s, c);
    assert MembOk(s, m);
    Rework(s, c, m, x, y);
  }

  /** A step of the part that broadcasts nothing and keeps the member list. */
  lemma OwnHoldKeeps(s: State, c: nat, p: PartPc, ok: bool)
    requires Core(s) && PartEnabled(s, c, p) && Parts(s.conns[c].task, p) && (p.Tell? || p.Close? || p.Wait?)
    ensures var (t, q) := PartStep(s, c, Owner, p, ok); Core(SetTask(t, c, Resume(s.conns[c].task, q)))
  {
    assert ConnCore(s, c);
    assert MembOk(s, p.m);
    var (t, q) := PartStep(s, c, Owner, p, ok);
    var x := t.conns[c].(task := Resume(s.conns[c].task, q));
    HoldOn(s, c, p.m, x, q, t.membs[p.m]);
    assert SetTask(t, c, Resume(s.conns[c].task, q)) == SetMemb(SetConn(s, c, x), p.m, t.membs[p.m]);
  }

  lemma OwnRemoveKeeps(s: State, c: nat, m: nat)
    requires Core(s) && PartEnabled(s, c, Remove(m)) && Parts(s.conns[c].task, Remove(m))
    ensures Core(SetTask(RemoveMember(s, s.membs[m].chan, c, Owner), c, Resume(s.conns[c].task, Close(m))))
  {
    var u := RemoveMember(s, s.membs[m].chan, c, Owner);
    ChansKeepCore(s, u);
    assert ConnCore(u, c);
    assert MembOk(u, m);
    var x := u.conns[c].(task := Resume(s.conns[c].task, Close(m)));
    HoldOn(u, c, m, x, Close(m), u.membs[m]);
    assert SetConn(u, c, x) == SetMemb(SetConn(u, c, x), m, u.membs[m]);
  }

  lemma OwnFarewellKeeps(s: State, c: nat, m: nat, ok: bool)
    requires Core(s) && PartEnabled(s, c, Announce(m)) && Parts(s.conns[c].task, Announce(m))
    ensures var (t, q) := PartStep(s, c, Owner, Announce(m), ok); Core(SetTask(t, c, Resume(s.conns[c].task, Over)))
  {
    var u := Broadcast(s, s.membs[m].chan, Parted(m), ok);
    ChansKeepCore(s, u);
    assert ConnCore(u, c);
    var x := u.conns[c].(task := Resume(s.conns[c].task, Over));
    var y := u.membs[m].(custody := Released, partSent := true);
    HoldOn(u, c, m, x, Over, y);
    assert SetTask(SetMemb(u, m, y), c, Resume(s.conns[c].task, Over)) == SetMemb(SetConn(u, c, x), m, y);
  }

  lemma OwnPartKeeps(s: State, c: nat, p: PartPc, ok: bool)
    requires Core(s) && PartEnabled(s, c, p) && Parts(s.conns[c].task, p) && Held(p)
    ensures var (t, q) := PartStep(s, c, Owner, p, ok); Core(SetTask(t, c, Resume(s.conns[c].task, q)))
  {
    match p
    case Remove(m) => OwnRemoveKeeps(s, c, m);
    case Announce(m) => OwnFarewellKeeps(s, c, m, ok);
    case _ => OwnHoldKeeps(s, c, p, ok);
  }

  lemma SwapKeeps(s: State, c: nat)
    requires Core(s) && c < |s.conns| && s.conns[c].task == Swap
    ensures Core(SwapStep(s, c))
  {
    var t := SwapStep(s, c);
    assert ConnCore(s, c);
    forall m | 0 <= m < |t.membs| && t.membs[m].conn == c ensures MembOk(t, m) {
      assert MembOk(s, m);
    }
    forall a | 0 <= a < |t.mods| && t.mods[a].target == c ensures ModOk(t, a) {
      assert ModOk(s, a);
    }
    Local(s, t, c);
  }

  lemma NextLeaveKeeps(s: State, c: nat, pick: nat)
    requires Core(s) && ConnEnabled(s, c, pick) && s.conns[c].task.Leaving? && s.conns[c].task.l == Over
    ensures Core(ConnStep(s, c, true, pick))
  {
    assert ConnCore(s, c);
    var todo := s.conns[c].task.todo;
    if todo == {} {
      RetaskCore(s, c, s.conns[c].(task := Gone));
    } else {
      assert MembOk(s, pick);
      var x := s.conns[c].(task := Leaving(Remove(pick), todo - {pick}));
      assert SetConn(s, c, x) == SetMemb(SetConn(s, c, x), pick, s.membs[pick]);
      Rework(s, c, pick, x, s.membs[pick]);
    }
  }

  lemma ConnKeeps(s: State, c: nat, ok: bool, pick: nat)
    requires Core(s) && ConnEnabled(s, c, pick)
    ensures Core(ConnStep(s, c, ok, pick))
  {
    match s.conns[c].task
    case Swap => SwapKeeps(s, c);
    case Joining(j) =>
      if j.JCheck? || j.JBan1? || j.JHook? {
        SeekKeeps(s, c, j, ok);
      } else if j.JFind? || j.JMake? {
        FindKeeps(s, c, j, ok);
      } else {
        EnterKeeps(s, c, j, ok);
      }
    case Parting(p) =>
      if p == Over {
        RetaskCore(s, c, s.conns[c].(task := Idle));
      } else if p.Take? {
        OwnTakeKeeps(s, c, p, ok);
      } else {
        OwnPartKeeps(s, c, p, ok);
      }
    case Leaving(p, todo) =>
      if p == Over {
        NextLeaveKeeps(s, c, pick);
      } else {
        assert ConnCore(s, c);
        OwnPartKeeps(s, c, p, ok);
      }
    case _ =>
  }

  // ------------------------------------------------------------ bans

  /** Membership `m`, its connection's map, and the ban `a` that acts on it. */
  lemma ReworkMod(s: State, m: nat, x: Conn, y: Memb, a: nat, b: Ban)
    requires Core(s) && m < |s.membs| && a < |s.mods| && s.mods[a].target == s.membs[m].conn
    requires var o := s.membs[m];
      && y.conn == o.conn && y.name == o.name && y.chan == o.chan
      && (o.custody == Untaken || o.custody == TakenBy(Mod(a))) && (o.subClosed ==> y.subClosed) && (o.dones == 1 ==> y.dones == 1)
    requires x == s.conns[s.membs[m].conn].(memberships := x.memberships, sent := x.sent)
    requires forall n | n in s.conns[s.membs[m].conn].memberships && s.conns[s.membs[m].conn].memberships[n] != m ::
      n in x.memberships && x.memberships[n] == s.conns[s.membs[m].conn].memberships[n]
    requires b.target == s.mods[a].target
    requires s.mods[a].pc.MPart? && (Held(s.mods[a].pc.p) ==> s.mods[a].pc.p.m == m)
    requires var t := SetMod(SetMemb(SetConn(s, s.membs[m].conn, x), m, y), a, b);
      TaskOk(t, y.conn) && MapOk(t, y.conn) && MembOk(t, m) && ModOk(t, a)
    ensures Core(SetMod(SetMemb(SetConn(s, s.membs[m].conn, x), m, y), a, b))
  {
    var c := s.membs[m].conn;
    var t := SetMod(SetMemb(SetConn(s, c, x), m, y), a, b);
    assert ConnCore(s, c);
    ReworkModMembs(s, m, x, y, a, b);
    ReworkModBans(s, m, x, y, a, b);
    Local(s, t, c);
  }

  lemma ReworkModBans(s: State, m: nat, x: Conn, y: Memb, a: nat, b: Ban)
    requires m < |s.membs| && a < |s.mods| && s.membs[m].conn < |s.conns| && ConnCore(s, s.membs[m].conn)
    requires var o := s.membs[m];
      && y.conn == o.conn && y.name == o.name && y.chan == o.chan
      && (o.custody == Untaken || o.custody == TakenBy(Mod(a))) && (o.subClosed ==> y.subClosed) && (o.dones == 1 ==> y.dones == 1)
    requires b.target == s.mods[a].target == s.membs[m].conn
    requires ModOk(SetMod(SetMemb(SetConn(s, s.membs[m].conn, x), m, y), a, b), a)
    ensures var t := SetMod(SetMemb(SetConn(s, s.membs[m].conn, x), m, y), a, b);
            forall k | 0 <= k < |t.mods| && t.mods[k].target == s.membs[m].conn :: ModOk(t, k)
  {
    var t := SetMod(SetMemb(SetConn(s, s.membs[m].conn, x), m, y), a, b);
    forall k | 0 <= k < |t.mods| && t.mods[k].target == s.membs[m].conn ensures ModOk(t, k) {
      if k != a {
        assert ModOk(s, k);
      }
    }
  }

  lemma ReworkModMembs(s: State, m: nat, x: Conn, y: Memb, a: nat, b: Ban)
    requires m < |s.membs| && a < |s.mods| && s.membs[m].conn < |s.conns| && ConnCore(s, s.membs[m].conn)
    requires y.conn == s.membs[m].conn
    requires x == s.conns[s.membs[m].conn].(memberships := x.memberships, sent := x.sent)
    requires forall n | n in s.conns[s.membs[m].conn].memberships && s.conns[s.membs[m].conn].memberships[n] != m ::
      n in x.memberships && x.memberships[n] == s.conns[s.membs[m].conn].memberships[n]
    requires s.mods[a].pc.MPart? && (Held(s.mods[a].pc.p) ==> s.mods[a].pc.p.m == m)
    requires MembOk(SetMod(SetMemb(SetConn(s, s.membs[m].conn, x), m, y), a, b), m)
    ensures var t := SetMod(SetMemb(SetConn(s, s.membs[m].conn, x), m, y), a, b);
            forall k | 0 <= k < |t.membs| && t.membs[k].conn == s.membs[m].conn :: MembOk(t, k)
  {
    var t := SetMod(SetMemb(SetConn(s, s.membs[m].conn, x), m, y), a, b);
    forall k | 0 <= k < |t.membs| && t.membs[k].conn == s.membs[m].conn ensures MembOk(t, k) {
      if k != m {
        assert MembOk(s, k);
      }
    }
  }

  /** A ban moves on without a membership in its hands. */
  lemma ModLight(s: State, a: nat, b: Ban)
    requires Core(s) && a < |s.mods| && b.target == s.mods[a].target
    requires s.mods[a].pc.MPart? ==> !Held(s.mods[a].pc.p)
    requires ModOk(SetMod(s, a, b), a)
    ensures Core(SetMod(s, a, b))
  {
    var t := SetMod(s, a, b);
    assert ConnCore(s, b.target);
    forall k | 0 <= k < |t.membs| && t.membs[k].conn == b.target ensures MembOk(t, k) {
      assert MembOk(s, k);
    }
    forall k | 0 <= k < |t.mods| && t.mods[k].target == b.target ensures ModOk(t, k) {
      if k != a {
        assert ModOk(s, k);
      }
    }
    Local(s, t, b.target);
  }

  lemma ModTakeKeeps(s: State, a: nat, ok: bool)
    requires Core(s) && ModEnabled(s, a) && s.mods[a].pc.MPart? && s.mods[a].pc.p.Take?
    ensures Core(ModStep(s, a, ok))
  {
    var b := s.mods[a];
    assert ConnCore(s, b.target);
    if b.name in s.conns[b.target].memberships {
      var m := s.conns[b.target].memberships[b.name];
      assert MembOk(s, m);
      var x := s.conns[b.target].(memberships := s.conns[b.target].memberships - {b.name});
      var y := s.membs[m].(custody := TakenBy(Mod(a)), takes := s.membs[m].takes + 1);
      ReworkMod(s, m, x, y, a, b.(pc := MPart(Tell(m)), took := Some(m)));
    } else {
      ModLight(s, a, b.(pc := MPart(Over)));
    }
  }

  lemma ModHeldOn(s: State, a: nat, m: nat, q: PartPc, y: Memb)
    requires a < |s.mods| && s.mods[a].target < |s.conns| && ConnCore(s, s.mods[a].target)
    requires s.mods[a].pc.MPart? && Held(s.mods[a].pc.p) && s.mods[a].pc.p.m == m < |s.membs|
    requires Holds(q, m) && !q.Tell? && ModOk(s, a) && MembOk(s, m)
    requires y == s.membs[m].(subClosed := y.subClosed) && (s.membs[m].subClosed ==> y.subClosed)
    requires (q.Wait? || q.Announce? ==> y.subClosed) && (q.Announce? ==> y.dones == 1)
    ensures var t := SetMod(SetMemb(s, m, y), a, s.mods[a].(pc := MPart(q)));
      TaskOk(t, s.mods[a].target) && MapOk(t, s.mods[a].target) && MembOk(t, m) && ModOk(t, a)
  {
  }

  /** The ban keeps hold of its membership from one step to the next. */
  lemma ModHoldOn(s: State, a: nat, q: PartPc, y: Memb)
    requires Core(s) && ModEnabled(s, a) && s.mods[a].pc.MPart? && Held(s.mods[a].pc.p)
    requires var m := s.mods[a].pc.p.m; Holds(q, m) && !q.Tell?
    requires var m := s.mods[a].pc.p.m; y == s.membs[m].(subClosed := y.subClosed) && (s.membs[m].subClosed ==> y.subClosed)
    requires (q.Wait? || q.Announce? ==> y.subClosed) && (q.Announce? ==> y.dones == 1)
    ensures Core(SetMod(SetMemb(s, s.mods[a].pc.p.m, y), a, s.mods[a].(pc := MPart(q))))
  {
    var b := s.mods[a];
    var m := b.pc.p.m;
    assert ConnCore(s, b.target);
    assert MembOk(s, m);
    assert SetMemb(SetConn(s, b.target, s.conns[b.target]), m, y) == SetMemb(s, m, y);
    assert ModOk(s, a);
    ModHeldOn(s, a, m, q, y);
    ReworkMod(s, m, s.conns[b.target], y, a, b.(pc := MPart(q)));
  }

  lemma ModHoldKeeps(s: State, a: nat, ok: bool)
    requires Core(s) && ModEnabled(s, a) && s.mods[a].pc.MPart?
    requires s.mods[a].pc.p.Tell? || s.mods[a].pc.p.Close? || s.mods[a].pc.p.Wait?
    ensures Core(ModStep(s, a, ok))
  {
    var b := s.mods[a];
    var m := b.pc.p.m;
    assert ConnCore(s, b.target);
    assert MembOk(s, m);
    match b.pc.p
    case Tell(_) =>
      var u := Tells(s, b.target, Direct(Parted(m)));
      TellsKeeps(s, b.target, Direct(Parted(m)));
      ModHoldOn(u, a, Remove(m), u.membs[m]);
      assert SetMemb(u, m, u.membs[m]) == u;
    case Close(_) => ModHoldOn(s, a, Wait(m), s.membs[m].(subClosed := true));
    case Wait(_) =>
      ModHoldOn(s, a, Announce(m), s.membs[m]);
      assert SetMemb(s, m, s.membs[m]) == s;
  }

  lemma ModRemoveKeeps(s: State, a: nat, ok: bool)
    requires Core(s) && ModEnabled(s, a) && s.mods[a].pc.MPart? && s.mods[a].pc.p.Remove?
    ensures Core(ModStep(s, a, ok))
  {
    var b := s.mods[a];
    var m := b.pc.p.m;
    var u := RemoveMember(s, s.membs[m].chan, b.target, Mod(a));
    ChansKeepCore(s, u);
    ModHoldOn(u, a, Close(m), u.membs[m]);
    assert SetMemb(u, m, u.membs[m]) == u;
  }

  lemma ModFarewellKeeps(s: State, a: nat, ok: bool)
    requires Core(s) && ModEnabled(s, a) && s.mods[a].pc.MPart? && s.mods[a].pc.p.Announce?
    ensures Core(ModStep(s, a, ok))
  {
    var b := s.mods[a];
    var m := b.pc.p.m;
    var u := Broadcast(s, s.membs[m].chan, Parted(m), ok);
    ChansKeepCore(s, u);
    ModReleases(u, a);
  }

  lemma ModReleases(s: State, a: nat)
    requires Core(s) && ModEnabled(s, a) && s.mods[a].pc.MPart? && s.mods[a].pc.p.Announce?
    ensures var m := s.mods[a].pc.p.m;
            Core(SetMod(SetMemb(s, m, s.membs[m].(custody := Released, partSent := true)), a, s.mods[a].(pc := MPart(Over))))
  {
    var b := s.mods[a];
    var m := b.pc.p.m;
    assert ConnCore(s, b.target);
    assert MembOk(s, m);
    var y := s.membs[m].(custody := Released, partSent := true);
    assert SetMemb(SetConn(s, b.target, s.conns[b.target]), m, y) == SetMemb(s, m, y);
    ReworkMod(s, m, s.conns[b.target], y, a, b.(pc := MPart(Over)));
  }

  /** Storing, announcing and telling. */
  lemma ModTalkKeeps(s: State, a: nat, ok: bool)
    requires Core(s) && ModEnabled(s, a) && (s.mods[a].pc.MPart? ==> s.mods[a].pc.p == Over)
    ensures Core(ModStep(s, a, ok))
  {
    var b := s.mods[a];
    assert ConnCore(s, b.target);
    match b.pc
    case MStore =>
      var entry := (b.name, s.conns[b.target].key);
      var u := s.(book := s.book.(bans := s.book.bans + {entry}));
      ChansKeepCore(s, u);
      ModLight(u, a, b.(pc := MPart(Take(b.name)), lifts0 := s.book.lifts[entry]));
    case MPart(_) => ModLight(s, a, b.(pc := MAnnounce));
    case MAnnounce =>
      if b.name !in s.hub.registry {
        ModLight(s, a, b.(pc := MEnforce));
      } else {
        ModLight(s, a, b.(pc := MSay(s.hub.registry[b.name])));
      }
    case MSay(_) => ModSayKeeps(s, a, ok);
    case MEnforce =>
      var u := Tells(s, b.target, Direct(Moderated(a)));
      TellsKeeps(s, b.target, Direct(Moderated(a)));
      ModLight(u, a, b.(pc := MDone));
  }

  lemma ModSayKeeps(s: State, a: nat, ok: bool)
    requires Core(s) && ModEnabled(s, a) && s.mods[a].pc.MSay?
    ensures Core(ModStep(s, a, ok))
  {
    var b := s.mods[a];
    assert ConnCore(s, b.target);
    if !ok {
      ModLight(s, a, b.(pc := MFailed));
    } else {
      var u := Broadcast(s, b.pc.ch, Moderated(a), true);
      ChansKeepCore(s, u);
      assert ConnCore(u, b.target);
      ModLight(u, a, b.(pc := MEnforce, announced := true));
    }
  }

  lemma TellsKeeps(s: State, c: nat, f: Sent)
    requires Core(s) && c < |s.conns|
    ensures Core(Tells(s, c, f))
  {
    var t := Tells(s, c, f);
    assert ConnCore(s, c);
    forall k | 0 <= k < |t.membs| && t.membs[k].conn == c ensures MembOk(t, k) {
      assert MembOk(s, k);
    }
    forall k | 0 <= k < |t.mods| && t.mods[k].target == c ensures ModOk(t, k) {
      assert ModOk(s, k);
    }
    Local(s, t, c);
  }

  lemma ModKeeps(s: State, a: nat, ok: bool)
    requires Core(s) && ModEnabled(s, a)
    ensures Core(ModStep(s, a, ok))
  {
    if s.mods[a].pc.MPart? && s.mods[a].pc.p != Over {
      match s.mods[a].pc.p
      case Take(_) => ModTakeKeeps(s, a, ok);
      case Remove(_) => ModRemoveKeeps(s, a, ok);
      case Announce(_) => ModFarewellKeeps(s, a, ok);
      case _ => ModHoldKeeps(s, a, ok);
    } else {
      ModTalkKeeps(s, a, ok);
    }
  }

  // ------------------------------------------------------------ the rest

  lemma ConnectKeeps(s: State, nick: Nick, key: Key)
    requires Core(s)
    ensures Core(Apply(s, Connect(nick, key)))
  {
    var t := Apply(s, Connect(nick, key));
    forall c | 0 <= c < |t.conns| ensures ConnCore(t, c) {
      if c < |s.conns| {
        assert ConnCore(s, c);
        forall m | 0 <= m < |t.membs| && t.membs[m].conn == c ensures MembOk(t, m) {
          assert MembOk(s, m);
        }
        forall a | 0 <= a < |t.mods| && t.mods[a].target == c ensures ModOk(t, a) {
          assert ModOk(s, a);
        }
      }
    }
  }

  lemma StartBanKeeps(s: State, c: nat, name: Name)
    requires Core(s) && Enabled(s, StartBan(c, name))
    ensures Core(Apply(s, StartBan(c, name)))
  {
    var t := Apply(s, StartBan(c, name));
    forall k | 0 <= k < |t.conns| ensures ConnCore(t, k) {
      assert ConnCore(s, k);
      forall m | 0 <= m < |t.membs| && t.membs[m].conn == k ensures MembOk(t, m) {
        assert MembOk(s, m);
      }
      forall a | 0 <= a < |t.mods| && t.mods[a].target == k ensures ModOk(t, a) {
        if a < |s.mods| {
          assert ModOk(s, a);
        }
      }
    }
  }

  lemma StopKeeps(s: State, m: nat)
    requires Core(s) && Enabled(s, StopPump(m))
    ensures Core(Apply(s, StopPump(m)))
  {
    var c := s.membs[m].conn;
    assert ConnCore(s, c);
    assert MembOk(s, m);
    OneMembKeeps(s, m, s.membs[m].(pump := Stopped, dones := s.membs[m].dones + 1));
  }

  /** What a membership's pump does to it. */
  lemma OneMembKeeps(s: State, m: nat, y: Memb)
    requires Core(s) && m < |s.membs| && s.membs[m].conn < |s.conns| && s.membs[m].pump == Running
    requires var x := s.membs[m];
      || y == x.(cursor := y.cursor) || y == x.(pump := Stopped, dones := x.dones + 1)
    ensures Core(SetMemb(s, m, y))
  {
    var c := s.membs[m].conn;
    assert ConnCore(s, c);
    assert MembOk(s, m);
    assert SetMemb(s, m, y) == SetMemb(SetConn(s, c, s.conns[c]), m, y);
    Rework(s, c, m, s.conns[c], y);
  }

  lemma DeliverKeeps(s: State, m: nat)
    requires Core(s) && Enabled(s, Deliver(m))
    ensures Core(Apply(s, Deliver(m)))
  {
    var c := s.membs[m].conn;
    assert ConnCore(s, c);
    assert MembOk(s, m);
    var x := s.membs[m];
    var u := Tells(s, c, Pumped(m, s.hub.chans[x.chan].ring[x.cursor]));
    TellsKeeps(s, c, Pumped(m, s.hub.chans[x.chan].ring[x.cursor]));
    OneMembKeeps(u, m, x.(cursor := x.cursor + 1));
  }

  lemma StepKeeps(s: State, step: Step)
    requires Core(s) && Enabled(s, step)
    ensures Core(Apply(s, step))
  {
    match step
    case Connect(nick, key) => ConnectKeeps(s, nick, key);
    case StartJoin(c, name) => assert ConnCore(s, c); RetaskCore(s, c, s.conns[c].(task := Joining(JCheck(name))));
    case StartPart(c, name) => assert ConnCore(s, c); RetaskCore(s, c, s.conns[c].(task := Parting(Take(name))));
    case Hangup(c) => assert ConnCore(s, c); RetaskCore(s, c, s.conns[c].(task := Swap));
    case MoveConn(c, ok, pick) => ConnKeeps(s, c, ok, pick);
    case StartBan(c, name) => StartBanKeeps(s, c, name);
    case MoveMod(a, ok) => ModKeeps(s, a, ok);
    case Deliver(m) => DeliverKeeps(s, m);
    case StopPump(m) => StopKeeps(s, m);
    case _ => ChansKeepCore(s, Apply(s, step));
  }

  lemma InitCore(s: State)
    requires Init(s)
    ensures Core(s)
  {
  }

  /** The core invariant holds all along every run. */
  lemma {:induction false} RunCore(tr: seq<State>, k: nat)
    requires Run(tr) && k < |tr|
    ensures Core(tr[k])
  {
    if k == 0 {
      InitCore(tr[0]);
    } else {
      RunCore(tr, k - 1);
      assert Follows(tr, k);
      var step :| Enabled(tr[k - 1], step) && tr[k] == Apply(tr[k - 1], step);
      StepKeeps(tr[k - 1], step);
    }
  }

  /** The step that led to state `k`, and what held before it. */
  lemma StepTo(tr: seq<State>, k: nat) returns (step: Step)
    requires Run(tr) && 0 < k < |tr|
    ensures Core(tr[k - 1]) && Enabled(tr[k - 1], step) && tr[k] == Apply(tr[k - 1], step)
  {
    RunCore(tr, k - 1);
    assert Follows(tr, k);
    step :| Enabled(tr[k - 1], step) && tr[k] == Apply(tr[k - 1], step);
  }
}
