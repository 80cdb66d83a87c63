/** Nobody lingers on a channel's member list: whoever is on it is on the way in,
    has a membership there, or is about to be taken off by somebody at work. */
module MembershipLists {
  import opened Membership
  import opened MembershipInv
  import opened MembershipSteps
  import opened MembershipLife
  import opened MembershipBans
  import opened MembershipSweep
  import opened MembershipSeats

  // ------------------------------------------------------------ what is due

  /** The connection's own goroutine has yet to take `m` off the list. */
  predicate OwnerDue(t: Task, m: nat) {
    match t
    case Parting(p) => p == Tell(m) || p == Remove(m)
    case Leaving(p, todo) => p == Remove(m) || m in todo
    case Joining(j) => j == JUndoRemove(m)
    case _ => false
  }

  predicate ModDue(s: State, a: nat, m: nat) {
    a < |s.mods| && (s.mods[a].pc == MPart(Tell(m)) || s.mods[a].pc == MPart(Remove(m)))
  }

  /** Membership `m` is live, or its removal from the list is still to come. */
  predicate Due(s: State, m: nat)
    requires m < |s.membs|
  {
    match s.membs[m].custody
    case Untaken => true
    case TakenBy(Owner) => s.membs[m].conn < |s.conns| && OwnerDue(s.conns[s.membs[m].conn].task, m)
    case TakenBy(Mod(a)) => ModDue(s, a, m)
    case Released => false
  }

  predicate Owed(s: State, m: nat, c: nat, h: nat) {
    m < |s.membs| && s.membs[m].conn == c && s.membs[m].chan == h && Due(s, m)
  }

  predicate Subscribes(s: State, c: nat, h: nat) {
    c < |s.conns| && s.conns[c].task.Joining? && s.conns[c].task.j.JSub? && s.conns[c].task.j.ch == h
  }

  ghost predicate Accounted(s: State, c: nat, h: nat) {
    Subscribes(s, c, h) || exists m: nat :: Owed(s, m, c, h)
  }

  ghost predicate ListsOk(s: State) {
    forall c, h | Seated(s, c, h) :: Accounted(s, c, h)
  }

  // ------------------------------------------------------------ one step

  /** It stays due, unless this step is what takes it off the list. */
  ghost predicate DueOrOff(s: State, step: Step, t: State, m: nat)
    requires m < |s.membs| && Enabled(s, step)
  {
    && m < |t.membs| && t.membs[m].conn == s.membs[m].conn && t.membs[m].chan == s.membs[m].chan
    && (Due(t, m) || TakesOff(ChangeOf(s, step), s.membs[m].chan, s.membs[m].conn))
  }

  lemma PartingDue(s: State, c: nat, ok: bool, pick: nat, m: nat)
    requires ConnEnabled(s, c, pick) && s.conns[c].task.Parting? && MapOk(s, c) && TaskOk(s, c) && m < |s.membs| && Due(s, m)
    ensures DueOrOff(s, MoveConn(c, ok, pick), ConnStep(s, c, ok, pick), m)
  {
    if s.conns[c].task.p.Take? {
      TakingDue(s, c, ok, pick, m);
    }
  }

  lemma TakingDue(s: State, c: nat, ok: bool, pick: nat, m: nat)
    requires ConnEnabled(s, c, pick) && s.conns[c].task.Parting? && s.conns[c].task.p.Take? && MapOk(s, c) && m < |s.membs| && Due(s, m)
    ensures DueOrOff(s, MoveConn(c, ok, pick), ConnStep(s, c, ok, pick), m)
  {
  }

  lemma LeavingDue(s: State, c: nat, ok: bool, pick: nat, m: nat)
    requires ConnEnabled(s, c, pick) && s.conns[c].task.Leaving? && TaskOk(s, c) && m < |s.membs| && Due(s, m)
    ensures DueOrOff(s, MoveConn(c, ok, pick), ConnStep(s, c, ok, pick), m)
  {
  }

  lemma SwapDue(s: State, c: nat, m: nat)
    requires c < |s.conns| && s.conns[c].task.Swap? && MapOk(s, c) && m < |s.membs| && Due(s, m)
    requires s.membs[m].custody == Untaken ==> s.membs[m].conn == c ==> InMap(s, c, m)
    ensures var t := SwapStep(s, c);
      m < |t.membs| && t.membs[m].conn == s.membs[m].conn && t.membs[m].chan == s.membs[m].chan && Due(t, m)
  {
  }

  lemma SeekDue(s: State, c: nat, j: JoinPc, ok: bool, m: nat)
    requires JoinEnabled(s, c, j) && Searching(j)
    requires s.conns[c].task == Joining(j) && m < |s.membs| && Due(s, m)
    ensures SeekStep(s, c, j, ok).membs == s.membs && Due(SeekStep(s, c, j, ok), m)
  {
  }

  lemma EnterDue(s: State, c: nat, j: JoinPc, ok: bool, m: nat)
    requires JoinEnabled(s, c, j) && !Searching(j)
    requires s.conns[c].task == Joining(j) && JoinOk(s, c, j) && m < |s.membs| && Due(s, m)
    ensures var t := EnterStep(s, c, j, ok);
      && m < |t.membs| && t.membs[m].conn == s.membs[m].conn && t.membs[m].chan == s.membs[m].chan
      && (Due(t, m) || (j == JUndoRemove(m) && s.membs[m].conn == c))
  {
  }

  lemma OwnDue(s: State, c: nat, ok: bool, pick: nat, m: nat)
    requires ConnEnabled(s, c, pick) && MapOk(s, c) && TaskOk(s, c) && m < |s.membs| && Due(s, m)
    requires s.membs[m].custody == Untaken ==> MembOk(s, m)
    ensures DueOrOff(s, MoveConn(c, ok, pick), ConnStep(s, c, ok, pick), m)
  {
    match s.conns[c].task {
      case Parting(_) => PartingDue(s, c, ok, pick, m);
      case Leaving(_, _) => LeavingDue(s, c, ok, pick, m);
      case Swap => SwapDue(s, c, m);
      case Joining(j) =>
        if Searching(j) {
          SeekDue(s, c, j, ok, m);
        } else {
          EnterDue(s, c, j, ok, m);
        }
      case _ =>
    }
  }

  lemma ModsDue(s: State, a: nat, ok: bool, m: nat)
    requires ModEnabled(s, a) && MapOk(s, s.mods[a].target) && ModOk(s, a) && m < |s.membs| && Due(s, m)
    ensures DueOrOff(s, MoveMod(a, ok), ModStep(s, a, ok), m)
  {
    if s.mods[a].pc.MPart? {
      ModPartDue(s, a, ok, m);
    }
  }

  lemma ModPartDue(s: State, a: nat, ok: bool, m: nat)
    requires ModEnabled(s, a) && s.mods[a].pc.MPart?
    requires MapOk(s, s.mods[a].target) && ModOk(s, a) && m < |s.membs| && Due(s, m)
    ensures DueOrOff(s, MoveMod(a, ok), ModStep(s, a, ok), m)
  {
  }

  lemma QuietDue(s: State, step: Step, m: nat)
    requires Enabled(s, step) && !step.MoveConn? && !step.MoveMod? && m < |s.membs| && Due(s, m)
    ensures DueOrOff(s, step, Apply(s, step), m)
  {
  }

  lemma StepDue(s: State, step: Step, m: nat)
    requires Core(s) && Enabled(s, step) && m < |s.membs| && Due(s, m)
    ensures DueOrOff(s, step, Apply(s, step), m)
  {
    match step {
      case MoveConn(c, ok, pick) =>
        assert ConnCore(s, c) && ConnCore(s, s.membs[m].conn);
        OwnDue(s, c, ok, pick, m);
      case MoveMod(a, ok) =>
        assert ConnCore(s, s.mods[a].target);
        ModsDue(s, a, ok, m);
      case _ => QuietDue(s, step, m);
    }
  }

  // ------------------------------------------------------------ every run

  /** A join that has put itself on a list goes on to subscribe there, and one that
      subscribes makes a membership there. */
  lemma StepSubscribes(s: State, step: Step, c: nat, h: nat)
    requires Core(s) && Enabled(s, step) && c < |s.conns| && Subscribes(s, c, h)
    ensures Accounted(Apply(s, step), c, h)
  {
    var t := Apply(s, step);
    if step.MoveConn? && step.c == c {
      assert Owed(t, |s.membs|, c, h);
    } else {
      OthersTask(s, step, c);
    }
  }

  lemma PartTask(s: State, c: nat, who: Thread, p: PartPc, ok: bool, k: nat)
    requires PartEnabled(s, c, p) && k < |s.conns|
    ensures k < |PartStep(s, c, who, p, ok).0.conns| && PartStep(s, c, who, p, ok).0.conns[k].task == s.conns[k].task
  {
  }

  lemma OthersTask(s: State, step: Step, c: nat)
    requires Enabled(s, step) && c < |s.conns| && s.conns[c].task.Joining? && !(step.MoveConn? && step.c == c)
    ensures c < |Apply(s, step).conns| && Apply(s, step).conns[c].task == s.conns[c].task
  {
    match step
    case MoveConn(k, ok, pick) => ConnTouchesOne(s, k, ok, pick, c);
    case MoveMod(a, ok) =>
      if s.mods[a].pc.MPart? && s.mods[a].pc.p != Over {
        PartTask(s, s.mods[a].target, Mod(a), s.mods[a].pc.p, ok, c);
      }
    case _ =>
  }

  lemma AddedSubscribes(s: State, step: Step, c: nat, h: nat)
    requires Core(s) && Enabled(s, step) && ChangeOf(s, step) == Added(h, c)
    ensures Subscribes(Apply(s, step), c, h)
  {
  }

  lemma CreatedSubscribes(s: State, step: Step)
    requires Core(s) && Enabled(s, step) && Creates(s, step)
    ensures Subscribes(Apply(s, step), step.c, |s.hub.chans|)
  {
  }

  /** Who is on a list was on it before, or has just put itself there. */
  lemma SeatedBefore(s: State, step: Step, t: State, c: nat, h: nat)
    requires Core(s) && Enabled(s, step) && t == Apply(s, step) && Evolves(s, t) && Seated(t, c, h)
    requires forall k | 0 <= k < |s.hub.chans| :: DoorOk(s, k)
    ensures || (Seated(s, c, h) && !TakesOff(ChangeOf(s, step), h, c))
            || ChangeOf(s, step) == Added(h, c)
            || (Creates(s, step) && h == |s.hub.chans| && c == step.c)
  {
    StepLists(s, step);
    if h < |s.hub.chans| {
      assert DoorOk(s, h);
    } else {
      NewChannel(s, step);
    }
  }

  lemma NewChannel(s: State, step: Step)
    requires Enabled(s, step)
    ensures |Apply(s, step).hub.chans| > |s.hub.chans| ==>
      Creates(s, step) && Apply(s, step).hub == MakeChannel(s, step.c, s.conns[step.c].task.j.name).hub
  {
    StepLists(s, step);
  }

  lemma StepKeepsLists(s: State, step: Step)
    requires Core(s) && DoorsOk(s) && ListsOk(s) && Enabled(s, step)
    ensures ListsOk(Apply(s, step))
  {
    var t := Apply(s, step);
    StepEvolves(s, step);
    forall c, h | Seated(t, c, h) ensures Accounted(t, c, h) {
      SeatedBefore(s, step, t, c, h);
      if ChangeOf(s, step) == Added(h, c) {
        AddedSubscribes(s, step, c, h);
      } else if Creates(s, step) && h == |s.hub.chans| && c == step.c {
        CreatedSubscribes(s, step);
      } else {
        StaysAccounted(s, step, c, h);
      }
    }
  }

  lemma StaysAccounted(s: State, step: Step, c: nat, h: nat)
    requires Core(s) && Enabled(s, step) && c < |s.conns| && Accounted(s, c, h) && !TakesOff(ChangeOf(s, step), h, c)
    ensures Accounted(Apply(s, step), c, h)
  {
    if Subscribes(s, c, h) {
      StepSubscribes(s, step, c, h);
    } else {
      var m: nat :| Owed(s, m, c, h);
      StepDue(s, step, m);
      assert Owed(Apply(s, step), m, c, h);
    }
  }

  lemma ListsNext(tr: seq<State>, k: nat)
    requires Run(tr) && 0 < k < |tr| && ListsOk(tr[k - 1])
    ensures ListsOk(tr[k])
  {
    RunDoors(tr, k - 1);
    var step := StepTo(tr, k);
    StepKeepsLists(tr[k - 1], step);
  }

  lemma {:induction false} RunLists(tr: seq<State>, k: nat)
    requires Run(tr) && k < |tr|
    ensures ListsOk(tr[k])
  {
    if k > 0 {
      RunLists(tr, k - 1);
      ListsNext(tr, k);
    }
  }

  // ------------------------------------------------------------ theorems

  ghost predicate BanUnderWay(s: State, c: nat) {
    exists a :: 0 <= a < |s.mods| && s.mods[a].target == c && BeforeRemoval(s.mods[a])
  }

  /** On a list while doing nothing, and nobody's ban about to take it off: a
      connection has a membership of that very channel. So an idle server's lists
      are exactly its memberships, and a channel everyone left is empty. */
  lemma ListedHaveMemberships(tr: seq<State>, k: nat, c: nat, h: nat)
    requires Run(tr) && k < |tr| && Seated(tr[k], c, h)
    requires tr[k].conns[c].task == Idle && !BanUnderWay(tr[k], c)
    ensures var s := tr[k];
      exists n :: n in s.conns[c].memberships && s.conns[c].memberships[n] < |s.membs| && s.membs[s.conns[c].memberships[n]].chan == h
  {
    var s := tr[k];
    RunLists(tr, k);
    RunCore(tr, k);
    assert ConnCore(s, c) && Accounted(s, c, h);
    var m: nat :| Owed(s, m, c, h);
    assert MembOk(s, m);
    StillLive(s, m, c);
    assert s.membs[m].name in s.conns[c].memberships;
  }

  /** A connection that is gone is on no list, once no ban of it is under way. */
  lemma GoneAreNowhere(tr: seq<State>, k: nat, c: nat, h: nat)
    requires Run(tr) && k < |tr| && c < |tr[k].conns|
    requires tr[k].conns[c].task == Gone && !BanUnderWay(tr[k], c)
    ensures !Seated(tr[k], c, h)
  {
    var s := tr[k];
    RunLists(tr, k);
    RunCore(tr, k);
    if Seated(s, c, h) {
      assert ConnCore(s, c) && Accounted(s, c, h);
      var m: nat :| Owed(s, m, c, h);
      assert MembOk(s, m);
      StillLive(s, m, c);
      assert false;
    }
  }

  lemma StillLive(s: State, m: nat, c: nat)
    requires m < |s.membs| && MembOk(s, m) && Due(s, m) && s.membs[m].conn == c && !BanUnderWay(s, c)
    requires s.conns[c].task == Idle || s.conns[c].task == Gone
    ensures InMap(s, c, m)
  {
  }
}
