/** The memberships one connection has had of one channel, one after another: when
    the earlier ones are over, and that a standing ban's is the last. */
module MembershipClean {
  import opened Fanout
  import opened Membership
  import opened MembershipInv
  import opened MembershipSteps
  import opened MembershipLife
  import opened MembershipBans
  import opened MembershipOrder
  import opened MembershipOnce

  /** Past the first look at the bans, and without a membership yet. */
  predicate Seeks(t: Task, n: Name) {
    t.Joining? && (t.j.JHook? || t.j.JFind? || t.j.JMake? || t.j.JSub?) && t.j.name == n
  }

  predicate Mine(s: State, c: nat, n: Name, m: nat) {
    m < |s.membs| && s.membs[m].conn == c && s.membs[m].name == n
  }

  /** No ban of theirs there was ever lifted while a part of it was under way. */
  ghost predicate Orderly(s: State, c: nat, n: Name)
    requires c < |s.conns|
  {
    (n, s.conns[c].key) !in s.mishaps.hasty
  }

  /** Stored, and not lifted since. */
  ghost predicate Standing(s: State, a: nat)
    requires a < |s.mods| && s.mods[a].target < |s.conns|
  {
    Stored(s.mods[a]) && s.mods[a].lifts0 == s.book.lifts[Entry(s, s.mods[a])]
  }

  /** A ban lifted before its part is over has been noted. */
  ghost predicate HasteNoted(s: State, a: nat)
    requires a < |s.mods| && s.mods[a].target < |s.conns|
  {
    s.mods[a].pc.MPart? && s.mods[a].pc.p != Over && !Standing(s, a) ==> Entry(s, s.mods[a]) in s.mishaps.hasty
  }

  ghost predicate HasteOk(s: State) {
    forall a | 0 <= a < |s.mods| :: s.mods[a].target < |s.conns| && HasteNoted(s, a)
  }

  /** Only the latest membership can still be in the map. */
  ghost predicate LastInMap(s: State, c: nat, n: Name) {
    forall i: nat, j: nat | Mine(s, c, n, i) && Mine(s, c, n, j) && i < j :: s.membs[i].custody != Untaken
  }

  ghost predicate EarlierEnded(s: State, c: nat, n: Name)
    requires c < |s.conns|
  {
    && (forall i: nat, j: nat | Mine(s, c, n, i) && Mine(s, c, n, j) && i < j :: s.membs[i].dones == 1)
    && (Seeks(s.conns[c].task, n) ==> forall i: nat | Mine(s, c, n, i) :: s.membs[i].dones == 1)
  }

  /** Nothing comes after what a standing ban took. */
  ghost predicate TookLast(s: State, c: nat, n: Name)
    requires c < |s.conns|
  {
    forall a | 0 <= a < |s.mods| && s.mods[a].target == c && s.mods[a].name == n && s.mods[a].took.Some? && Standing(s, a) ::
      !Seeks(s.conns[c].task, n) && forall j: nat | Mine(s, c, n, j) :: j <= s.mods[a].took.value
  }

  ghost predicate Clean(s: State, c: nat, n: Name)
    requires c < |s.conns|
  {
    LastInMap(s, c, n) && TookLast(s, c, n) && (Orderly(s, c, n) ==> EarlierEnded(s, c, n))
  }

  // ------------------------------------------------------------ what a step may do

  lemma PartKeepsMembs(s: State, c: nat, who: Thread, p: PartPc, ok: bool)
    requires PartEnabled(s, c, p)
    ensures |PartStep(s, c, who, p, ok).0.membs| == |s.membs|
  {
  }

  lemma JoinCreates(s: State, c: nat, j: JoinPc, ok: bool, m: nat)
    requires JoinEnabled(s, c, j)
    ensures var t := if Searching(j) then SeekStep(s, c, j, ok) else EnterStep(s, c, j, ok);
            |s.membs| <= m < |t.membs| ==>
              j.JSub? && m == |s.membs| && t.membs[m].conn == c && t.membs[m].name == j.name
  {
  }

  /** A new membership is the one a join creates after subscribing. */
  lemma MembsGrow(s: State, step: Step, m: nat)
    requires Enabled(s, step) && |s.membs| <= m < |Apply(s, step).membs|
    ensures step.MoveConn? && m == |s.membs| && s.conns[step.c].task.Joining? && s.conns[step.c].task.j.JSub?
    ensures Mine(Apply(s, step), step.c, s.conns[step.c].task.j.name, m)
  {
    match step
    case MoveConn(c, ok, pick) =>
      match s.conns[c].task {
        case Joining(j) => JoinCreates(s, c, j, ok, m);
        case Parting(p) => if p != Over { PartKeepsMembs(s, c, Owner, p, ok); }
        case Leaving(p, _) => if p != Over { PartKeepsMembs(s, c, Owner, p, ok); }
        case _ =>
      }
    case MoveMod(a, ok) =>
      if s.mods[a].pc.MPart? && s.mods[a].pc.p != Over {
        PartKeepsMembs(s, s.mods[a].target, Mod(a), s.mods[a].pc.p, ok);
      }
    case _ =>
  }

  lemma JoinSeeks(s: State, c: nat, j: JoinPc, ok: bool, n: Name)
    requires JoinEnabled(s, c, j)
    ensures var t := if Searching(j) then SeekStep(s, c, j, ok) else EnterStep(s, c, j, ok);
            c < |t.conns| && (Seeks(t.conns[c].task, n) ==>
              (Seeks(Joining(j), n) && !j.JSub?) || (j == JBan1(n) && !Banned(s, n, s.conns[c].key)))
  {
  }

  /** Nobody gets past the first look while a ban stands. */
  lemma SeeksFrom(s: State, step: Step, c: nat, n: Name)
    requires Enabled(s, step) && c < |s.conns|
    ensures var t := Apply(s, step);
            c < |t.conns| && (Seeks(t.conns[c].task, n) ==>
              Seeks(s.conns[c].task, n) || (s.conns[c].task == Joining(JBan1(n)) && !Banned(s, n, s.conns[c].key)))
    ensures var t := Apply(s, step);
            c < |t.conns| && Seeks(t.conns[c].task, n) && step.MoveConn? && step.c == c ==>
              !s.conns[c].task.Joining? || !s.conns[c].task.j.JSub?
  {
    if !Concerns(s, step, c) {
      OthersCaught(s, step, c);
    } else {
      match step
      case MoveConn(_, ok, pick) =>
        match s.conns[c].task {
          case Joining(j) => JoinSeeks(s, c, j, ok, n);
          case Parting(p) => if p != Over { PartSameTasks(s, c, Owner, p, ok); }
          case Leaving(p, _) => if p != Over { PartSameTasks(s, c, Owner, p, ok); }
          case _ =>
        }
      case MoveMod(a, ok) =>
        if s.mods[a].pc.MPart? && s.mods[a].pc.p != Over {
          PartSameTasks(s, c, Mod(a), s.mods[a].pc.p, ok);
        }
      case _ =>
    }
  }

  lemma PartSameTasks(s: State, c: nat, who: Thread, p: PartPc, ok: bool)
    requires PartEnabled(s, c, p)
    ensures var t := PartStep(s, c, who, p, ok).0; |t.conns| == |s.conns| && t.conns[c].task == s.conns[c].task
  {
  }

  // ------------------------------------------------------------ keeping it

  lemma KeepsLastInMap(s: State, step: Step, c: nat, n: Name)
    requires Core(s) && Enabled(s, step) && c < |s.conns| && LastInMap(s, c, n)
    ensures LastInMap(Apply(s, step), c, n)
  {
    var t := Apply(s, step);
    StepEvolves(s, step);
    forall i: nat, j: nat | Mine(t, c, n, i) && Mine(t, c, n, j) && i < j ensures t.membs[i].custody != Untaken {
      if j >= |s.membs| {
        MembsGrow(s, step, j);
        assert ConnCore(s, c);
        assert MembOk(s, i);
      } else {
        assert Mine(s, c, n, i) && Mine(s, c, n, j);
      }
    }
  }

  /** Getting past the first look, a join finds every earlier membership over. */
  lemma PastTheBan(s: State, c: nat, n: Name, m: nat)
    requires Core(s) && BansOk(s) && HasteOk(s) && c < |s.conns|
    requires s.conns[c].task == Joining(JBan1(n)) && !Banned(s, n, s.conns[c].key)
    ensures Orderly(s, c, n) && Mine(s, c, n, m) ==> s.membs[m].dones == 1
  {
    NoneStands(s, c, n);
    assert ConnCore(s, c);
    if Mine(s, c, n, m) {
      assert MembOk(s, m);
      match s.membs[m].custody
      case TakenBy(Mod(a)) => assert HasteNoted(s, a);
      case _ =>
    }
  }

  lemma NoneStands(s: State, c: nat, n: Name)
    requires BansOk(s) && c < |s.conns| && !Banned(s, n, s.conns[c].key)
    ensures forall a | 0 <= a < |s.mods| && s.mods[a].target == c && s.mods[a].name == n :: !Standing(s, a)
  {
    forall a | 0 <= a < |s.mods| && s.mods[a].target == c && s.mods[a].name == n ensures !Standing(s, a) {
      assert BanOk(s, a);
    }
  }

  lemma KeepsEnded(s: State, step: Step, t: State, c: nat, n: Name)
    requires Core(s) && Core(t) && BansOk(s) && HasteOk(s) && Enabled(s, step) && t == Apply(s, step) && Evolves(s, t)
    requires c < |s.conns| && Orderly(s, c, n) && EarlierEnded(s, c, n)
    ensures c < |t.conns| && EarlierEnded(t, c, n)
  {
    forall i: nat, j: nat | Mine(t, c, n, i) && Mine(t, c, n, j) && i < j ensures t.membs[i].dones == 1 {
      StillEnded(t, i);
      if j >= |s.membs| {
        MembsGrow(s, step, j);
        assert Mine(s, c, n, i);
      } else {
        assert Mine(s, c, n, i) && Mine(s, c, n, j);
      }
    }
    SeeksFrom(s, step, c, n);
    if Seeks(t.conns[c].task, n) {
      forall i: nat | Mine(t, c, n, i) ensures t.membs[i].dones == 1 {
        StillEnded(t, i);
        if i >= |s.membs| {
          MembsGrow(s, step, i);
        } else if Seeks(s.conns[c].task, n) {
          assert Mine(s, c, n, i);
        } else {
          PastTheBan(s, c, n, i);
        }
      }
    }
  }

  lemma StillEnded(t: State, m: nat)
    requires Core(t) && m < |t.membs|
    ensures t.membs[m].dones <= 1
  {
    assert InRange(t);
    assert ConnCore(t, t.membs[m].conn);
    assert MembOk(t, m);
  }

  /** A ban takes what is in the map. */
  lemma TakesFromMap(s: State, step: Step, a: nat)
    requires Core(s) && Enabled(s, step) && a < |s.mods| && a < |Apply(s, step).mods|
    requires s.mods[a].took == None && Apply(s, step).mods[a].took.Some?
    ensures var c, n, m := s.mods[a].target, s.mods[a].name, Apply(s, step).mods[a].took.value;
            c < |s.conns| && n in s.conns[c].memberships && s.conns[c].memberships[n] == m
            && Mine(s, c, n, m) && s.membs[m].custody == Untaken && !Seeks(s.conns[c].task, n)
            && step.MoveMod? && step.a == a
  {
    if step.MoveMod? && step.a == a {
      var c := s.mods[a].target;
      assert ConnCore(s, c);
      assert ModOk(s, a);
      match s.mods[a].pc
      case MPart(p) =>
        if p != Over { PartKeepsMods(s, c, Mod(a), p, step.ok); }
      case _ =>
    } else {
      OtherModSame(s, step, a);
    }
  }

  /** A ban standing now stood before, if it was stored. */
  lemma StoodBefore(s: State, step: Step, a: nat)
    requires Core(s) && BansOk(s) && Enabled(s, step) && a < |s.mods|
    requires a < |Apply(s, step).mods| && Apply(s, step).mods[a].target < |Apply(s, step).conns| && Standing(Apply(s, step), a)
    ensures s.mods[a].target < |s.conns| && (Stored(s.mods[a]) ==> Standing(s, a))
  {
    assert BanOk(s, a);
    BookKept(s, step, a);
  }

  lemma KeepsTookLast(s: State, step: Step, t: State, c: nat, n: Name)
    requires Core(s) && BansOk(s) && HasteOk(s) && Enabled(s, step) && t == Apply(s, step) && Evolves(s, t) && ModsEvolve(s, t)
    requires c < |s.conns| && LastInMap(s, c, n) && TookLast(s, c, n)
    ensures c < |t.conns| && TookLast(t, c, n)
  {
    forall a | 0 <= a < |t.mods| && t.mods[a].target == c && t.mods[a].name == n && t.mods[a].took.Some? && Standing(t, a)
      ensures !Seeks(t.conns[c].task, n) && forall j: nat | Mine(t, c, n, j) :: j <= t.mods[a].took.value
    {
      if a >= |s.mods| {
        ModsGrow(s, step, a);
      } else {
        StoodBefore(s, step, a);
        StillLast(s, step, t, c, n, a);
      }
    }
  }

  lemma StillLast(s: State, step: Step, t: State, c: nat, n: Name, a: nat)
    requires Core(s) && BansOk(s) && HasteOk(s) && Enabled(s, step) && t == Apply(s, step) && Evolves(s, t) && ModsEvolve(s, t)
    requires c < |s.conns| && LastInMap(s, c, n) && TookLast(s, c, n) && a < |s.mods| && s.mods[a].target == c && s.mods[a].name == n
    requires t.mods[a].took.Some? && (Stored(s.mods[a]) ==> Standing(s, a))
    ensures c < |t.conns| && !Seeks(t.conns[c].task, n)
    ensures forall j: nat | Mine(t, c, n, j) :: j <= t.mods[a].took.value
  {
    SeeksFrom(s, step, c, n);
    assert ConnCore(s, c);
    assert ModOk(s, a);
    if s.mods[a].took == None {
      TakesFromMap(s, step, a);
      assert t.conns[c].task == s.conns[c].task by { ModSameTask(s, step.a, step.ok); }
    } else if s.conns[c].task == Joining(JBan1(n)) && !Banned(s, n, s.conns[c].key) {
      NoneStands(s, c, n);
    }
    forall j: nat | Mine(t, c, n, j) ensures j <= t.mods[a].took.value {
      if j >= |s.membs| {
        MembsGrow(s, step, j);
      } else {
        assert Mine(s, c, n, j);
      }
    }
  }

  lemma ModSameTask(s: State, a: nat, ok: bool)
    requires ModEnabled(s, a)
    ensures s.mods[a].target < |ModStep(s, a, ok).conns| == |s.conns|
    ensures ModStep(s, a, ok).conns[s.mods[a].target].task == s.conns[s.mods[a].target].task
  {
    if s.mods[a].pc.MPart? && s.mods[a].pc.p != Over {
      PartSameTasks(s, s.mods[a].target, Mod(a), s.mods[a].pc.p, ok);
    }
  }

  // ------------------------------------------------------------ haste

  lemma HastyGrows(s: State, step: Step)
    requires Enabled(s, step)
    ensures s.mishaps.hasty <= Apply(s, step).mishaps.hasty
    ensures !step.Lift? ==> Apply(s, step).book.lifts == s.book.lifts
  {
    match step
    case MoveConn(k, ok, pick) => ConnKeepsBook(s, k, ok, pick);
    case MoveMod(i, ok) =>
      if s.mods[i].pc.MPart? && s.mods[i].pc.p != Over {
        PartKeepsBook(s, s.mods[i].target, Mod(i), s.mods[i].pc.p, ok);
      }
    case _ =>
  }

  lemma HasteStays(s: State, step: Step, a: nat)
    requires Core(s) && BansOk(s) && HasteOk(s) && Enabled(s, step) && a < |s.mods|
    ensures var t := Apply(s, step); a < |t.mods| && t.mods[a].target < |t.conns| && HasteNoted(t, a)
  {
    var t := Apply(s, step);
    SameAim(s, step, a);
    HastyGrows(s, step);
    assert HasteNoted(s, a);
    match step
    case Lift(name, key) =>
      if s.mods[a].pc.MPart? && s.mods[a].pc.p != Over && Entry(s, s.mods[a]) == (name, key) {
        assert UnderWay(s, name, key);
      }
    case MoveMod(i, ok) =>
      if i == a {
        OwnHaste(s, a, ok);
      } else {
        OtherModSame(s, step, a);
      }
    case MoveConn(c, ok, pick) => ConnKeepsBook(s, c, ok, pick);
    case _ =>
  }

  lemma OwnHaste(s: State, a: nat, ok: bool)
    requires ModEnabled(s, a) && HasteNoted(s, a)
    ensures var t := ModStep(s, a, ok);
      && a < |t.mods| && t.mods[a].target == s.mods[a].target && t.mods[a].name == s.mods[a].name
      && (t.mods[a].pc.MPart? && t.mods[a].pc.p != Over && s.mods[a].pc.MPart? ==>
            s.mods[a].pc.p != Over && t.mods[a].lifts0 == s.mods[a].lifts0)
      && (t.mods[a].pc.MPart? && !s.mods[a].pc.MPart? ==>
            t.mods[a].lifts0 == s.book.lifts[Entry(s, s.mods[a])])
  {
    if s.mods[a].pc.MPart? && s.mods[a].pc.p != Over {
      PartKeepsBook(s, s.mods[a].target, Mod(a), s.mods[a].pc.p, ok);
    }
  }

  lemma HasteNext(tr: seq<State>, k: nat)
    requires Run(tr) && 0 < k < |tr| && HasteOk(tr[k - 1])
    ensures HasteOk(tr[k])
  {
    RunBans(tr, k - 1);
    var step := StepTo(tr, k);
    forall a | 0 <= a < |tr[k].mods| ensures tr[k].mods[a].target < |tr[k].conns| && HasteNoted(tr[k], a) {
      if a < |tr[k - 1].mods| {
        HasteStays(tr[k - 1], step, a);
      } else {
        ModsGrow(tr[k - 1], step, a);
      }
    }
  }

  lemma {:induction false} RunHaste(tr: seq<State>, k: nat)
    requires Run(tr) && k < |tr|
    ensures HasteOk(tr[k])
  {
    if k > 0 {
      RunHaste(tr, k - 1);
      HasteNext(tr, k);
    }
  }

  // ------------------------------------------------------------ every run

  lemma KeepsClean(s: State, step: Step, t: State, c: nat, n: Name)
    requires Core(s) && Core(t) && BansOk(s) && HasteOk(s) && Enabled(s, step) && t == Apply(s, step)
    requires c < |s.conns| && Clean(s, c, n)
    ensures c < |t.conns| && Clean(t, c, n)
  {
    StepEvolves(s, step);
    StepMovesMods(s, step);
    HastyGrows(s, step);
    KeepsLastInMap(s, step, c, n);
    KeepsTookLast(s, step, t, c, n);
    if Orderly(t, c, n) {
      KeepsEnded(s, step, t, c, n);
    }
  }

  lemma FreshIsClean(s: State, t: State, step: Step, c: nat, n: Name)
    requires Core(s) && Core(t) && Enabled(s, step) && t == Apply(s, step) && |s.conns| <= c < |t.conns|
    ensures Clean(t, c, n)
  {
    assert InRange(s) && InRange(t);
    StepEvolves(s, step);
    forall m: nat | Mine(t, c, n, m) ensures false {
      if m >= |s.membs| {
        MembsGrow(s, step, m);
      }
    }
    StepMovesMods(s, step);
    forall a | 0 <= a < |t.mods| && t.mods[a].target == c ensures false {
      if a >= |s.mods| {
        ModsGrow(s, step, a);
      }
    }
    ConnsGrow(s, step, c);
  }

  lemma ConnsGrow(s: State, step: Step, c: nat)
    requires Enabled(s, step) && |s.conns| <= c < |Apply(s, step).conns|
    ensures step.Connect? && Apply(s, step).conns[c].task == Idle
  {
    match step
    case MoveConn(k, ok, pick) => ConnSameConns(s, k, ok, pick);
    case MoveMod(a, ok) => ModSameTask(s, a, ok);
    case _ =>
  }

  lemma ConnSameConns(s: State, c: nat, ok: bool, pick: nat)
    requires ConnEnabled(s, c, pick)
    ensures |ConnStep(s, c, ok, pick).conns| == |s.conns|
  {
    match s.conns[c].task
    case Joining(j) => if Searching(j) { SeekSameConns(s, c, j, ok); } else { EnterSameConns(s, c, j, ok); }
    case Parting(p) => if p != Over { PartSameTasks(s, c, Owner, p, ok); }
    case Leaving(p, _) => if p != Over { PartSameTasks(s, c, Owner, p, ok); }
    case _ =>
  }

  lemma SeekSameConns(s: State, c: nat, j: JoinPc, ok: bool)
    requires JoinEnabled(s, c, j) && Searching(j)
    ensures |SeekStep(s, c, j, ok).conns| == |s.conns|
  {
  }

  lemma EnterSameConns(s: State, c: nat, j: JoinPc, ok: bool)
    requires JoinEnabled(s, c, j) && !Searching(j)
    ensures |EnterStep(s, c, j, ok).conns| == |s.conns|
  {
  }

  lemma CleanNext(tr: seq<State>, k: nat, c: nat, n: Name)
    requires Run(tr) && 0 < k < |tr| && c < |tr[k].conns| && (c < |tr[k - 1].conns| ==> Clean(tr[k - 1], c, n))
    ensures Clean(tr[k], c, n)
  {
    var step := StepTo(tr, k);
    RunCore(tr, k);
    RunBans(tr, k - 1);
    RunHaste(tr, k - 1);
    if c < |tr[k - 1].conns| {
      KeepsClean(tr[k - 1], step, tr[k], c, n);
    } else {
      FreshIsClean(tr[k - 1], tr[k], step, c, n);
    }
  }

  lemma {:induction false} RunClean(tr: seq<State>, k: nat, c: nat, n: Name)
    requires Run(tr) && k < |tr| && c < |tr[k].conns|
    ensures Clean(tr[k], c, n)
  {
    if k > 0 {
      if c < |tr[k - 1].conns| {
        RunClean(tr, k - 1, c, n);
      }
      CleanNext(tr, k, c, n);
    }
  }
}
