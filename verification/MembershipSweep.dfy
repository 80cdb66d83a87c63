/** The janitor never takes a channel away from somebody in it or on the way in. */
module MembershipSweep {
  import opened Membership
  import opened MembershipInv
  import opened MembershipSteps
  import opened MembershipLife

  // ------------------------------------------------------------ member lists

  datatype Change = Same | Added(h: nat, c: nat) | Removed(h: nat, c: nat, who: Thread)

  predicate TakesOff(ch: Change, h: nat, c: nat) {
    ch.Removed? && ch.h == h && ch.c == c
  }

  function PartChange(s: State, c: nat, who: Thread, p: PartPc): Change
    requires PartEnabled(s, c, p)
  {
    if p.Remove? then Removed(s.membs[p.m].chan, c, who) else Same
  }

  function JoinChange(s: State, c: nat, j: JoinPc): Change
    requires JoinEnabled(s, c, j)
  {
    if (j.JFind? || j.JMake?) && j.name in s.hub.registry then Added(s.hub.registry[j.name], c)
    else if j.JUndoRemove? then Removed(s.membs[j.m].chan, c, Owner)
    else Same
  }

  /** What a step does to the member list of an existing channel. */
  ghost function ChangeOf(s: State, step: Step): Change
    requires Enabled(s, step)
  {
    match step
    case MoveConn(c, ok, _) =>
      (match s.conns[c].task
       case Joining(j) => JoinChange(s, c, j)
       case Parting(p) => if p == Over then Same else PartChange(s, c, Owner, p)
       case Leaving(p, _) => if p == Over then Same else PartChange(s, c, Owner, p)
       case _ => Same)
    case MoveMod(a, ok) =>
      (match s.mods[a].pc
       case MPart(p) => if p == Over then Same else PartChange(s, s.mods[a].target, Mod(a), p)
       case _ => Same)
    case _ => Same
  }

  function After(s: State, h: nat, ch: Change): map<Nick, nat>
    requires h < |s.hub.chans|
  {
    var members := s.hub.chans[h].members;
    match ch
    case Same => members
    case Added(k, c) => if k == h && c < |s.conns| then members[s.conns[c].nick := c] else members
    case Removed(k, c, _) =>
      if k == h && c < |s.conns| && s.conns[c].nick in members && members[s.conns[c].nick] == c
      then members - {s.conns[c].nick} else members
  }

  ghost predicate Lists(s: State, t: State, ch: Change) {
    && |t.hub.chans| >= |s.hub.chans|
    && (forall h | 0 <= h < |s.hub.chans| :: t.hub.chans[h].members == After(s, h, ch))
  }

  /** Neither the registry nor any channel's being open changes. */
  ghost predicate SameDoors(s: State, t: State) {
    && t.hub.registry == s.hub.registry && t.hub.shut == s.hub.shut && t.limits == s.limits
    && |t.hub.chans| == |s.hub.chans| && (forall h | 0 <= h < |s.hub.chans| :: t.hub.chans[h].open == s.hub.chans[h].open)
  }

  lemma PartLists(s: State, c: nat, who: Thread, p: PartPc, ok: bool)
    requires PartEnabled(s, c, p)
    ensures Lists(s, PartStep(s, c, who, p, ok).0, PartChange(s, c, who, p)) && SameDoors(s, PartStep(s, c, who, p, ok).0)
  {
  }

  predicate Creating(s: State, j: JoinPc) {
    j.JMake? && j.name !in s.hub.registry && |s.hub.registry| < s.limits.channels
  }

  predicate Creates(s: State, step: Step) {
    step.MoveConn? && step.c < |s.conns| && s.conns[step.c].task.Joining? && Creating(s, s.conns[step.c].task.j)
  }

  lemma SeekLists(s: State, c: nat, j: JoinPc, ok: bool)
    requires JoinEnabled(s, c, j) && Searching(j)
    ensures var t := SeekStep(s, c, j, ok);
            && Lists(s, t, JoinChange(s, c, j))
            && if Creating(s, j) then t.hub == MakeChannel(s, c, j.name).hub && t.limits == s.limits else SameDoors(s, t)
  {
  }

  lemma EnterLists(s: State, c: nat, j: JoinPc, ok: bool)
    requires JoinEnabled(s, c, j) && !Searching(j)
    ensures Lists(s, EnterStep(s, c, j, ok), JoinChange(s, c, j)) && SameDoors(s, EnterStep(s, c, j, ok))
  {
  }

  lemma ModLists(s: State, a: nat, ok: bool)
    requires ModEnabled(s, a)
    ensures Lists(s, ModStep(s, a, ok), ChangeOf(s, MoveMod(a, ok))) && SameDoors(s, ModStep(s, a, ok))
  {
    if s.mods[a].pc.MPart? && s.mods[a].pc.p != Over {
      PartLists(s, s.mods[a].target, Mod(a), s.mods[a].pc.p, ok);
    }
  }

  lemma ConnLists(s: State, c: nat, ok: bool, pick: nat)
    requires ConnEnabled(s, c, pick)
    ensures var t := ConnStep(s, c, ok, pick);
            && Lists(s, t, ChangeOf(s, MoveConn(c, ok, pick)))
            && if Creates(s, MoveConn(c, ok, pick)) then t.hub == MakeChannel(s, c, s.conns[c].task.j.name).hub && t.limits == s.limits
               else SameDoors(s, t)
  {
    match s.conns[c].task
    case Joining(j) =>
      if Searching(j) {
        SeekLists(s, c, j, ok);
      } else {
        EnterLists(s, c, j, ok);
      }
    case Parting(p) =>
      if p != Over { PartLists(s, c, Owner, p, ok); }
    case Leaving(p, todo) =>
      if p != Over { PartLists(s, c, Owner, p, ok); }
    case _ =>
  }

  lemma StepLists(s: State, step: Step)
    requires Enabled(s, step)
    ensures Lists(s, Apply(s, step), ChangeOf(s, step))
    ensures !Creates(s, step) && !step.SweepOne? && !step.CloseAll? ==> SameDoors(s, Apply(s, step))
    ensures Creates(s, step) ==> Apply(s, step).hub == MakeChannel(s, step.c, s.conns[step.c].task.j.name).hub && Apply(s, step).limits == s.limits
  {
    match step
    case MoveConn(c, ok, pick) => ConnLists(s, c, ok, pick);
    case MoveMod(a, ok) => ModLists(s, a, ok);
    case _ =>
  }

  // ------------------------------------------------------------ doors

  /** A channel with anybody in it is the registered one, and open. */
  ghost predicate DoorOk(s: State, h: nat)
    requires h < |s.hub.chans|
  {
    var x := s.hub.chans[h];
    var there := x.name in s.hub.registry && s.hub.registry[x.name] == h;
    && (x.members != map[] ==> there)
    && (there && !s.hub.shut ==> x.open)
    && (forall k | k in x.members :: x.members[k] < |s.conns| && s.conns[x.members[k]].nick == k)
  }

  ghost predicate DoorsOk(s: State) {
    && |s.hub.registry| <= s.limits.channels
    && RegistryOk(s)
    && (forall h | 0 <= h < |s.hub.chans| :: DoorOk(s, h))
  }

  lemma AddedWhereOpen(s: State, step: Step)
    requires Core(s) && Enabled(s, step) && ChangeOf(s, step).Added?
    ensures var ch := ChangeOf(s, step);
            && ch.h < |s.hub.chans| && s.hub.chans[ch.h].name in s.hub.registry
            && s.hub.registry[s.hub.chans[ch.h].name] == ch.h && !Creates(s, step)
            && step.MoveConn? && ch.c == step.c < |s.conns| && s.conns[step.c].task.Joining?
            && (s.conns[step.c].task.j.JFind? || s.conns[step.c].task.j.JMake?) && s.conns[step.c].task.j.name == s.hub.chans[ch.h].name
  {
  }

  lemma DoorStep(s: State, step: Step, t: State, h: nat)
    requires Core(s) && DoorsOk(s) && Enabled(s, step) && t == Apply(s, step) && Evolves(s, t) && h < |s.hub.chans|
    requires !Creates(s, step) && !step.SweepOne? && !step.CloseAll?
    ensures h < |t.hub.chans| && DoorOk(t, h)
  {
    StepLists(s, step);
    assert DoorOk(s, h);
    if ChangeOf(s, step).Added? {
      AddedWhereOpen(s, step);
    }
  }

  lemma RemoveKey(m: map<Name, nat>, n: Name)
    requires n in m
    ensures |m - {n}| <= |m|
  {
    assert (m - {n}).Keys <= m.Keys;
    SubsetSize((m - {n}).Keys, m.Keys);
  }

  lemma {:induction false} SubsetSize<T>(a: set<T>, b: set<T>)
    requires a <= b
    ensures |a| <= |b|
  {
    if x :| x in a {
      SubsetSize(a - {x}, b - {x});
    }
  }

  lemma CreateKeepsDoors(s: State, step: Step)
    requires Core(s) && DoorsOk(s) && Enabled(s, step) && Creates(s, step)
    ensures DoorsOk(Apply(s, step))
  {
    var t := Apply(s, step);
    StepLists(s, step);
    StepEvolves(s, step);
    var name := s.conns[step.c].task.j.name;
    forall h | 0 <= h < |t.hub.chans| ensures DoorOk(t, h) {
      if h < |s.hub.chans| {
        assert DoorOk(s, h);
      }
    }
    assert |t.hub.registry| == |s.hub.registry| + 1 by {
      assert t.hub.registry.Keys == s.hub.registry.Keys + {name};
    }
  }

  lemma SweepKeepsDoors(s: State, name: Name)
    requires DoorsOk(s) && Enabled(s, SweepOne(name))
    ensures DoorsOk(Apply(s, SweepOne(name)))
  {
    var t := Apply(s, SweepOne(name));
    RemoveKey(s.hub.registry, name);
    forall h | 0 <= h < |t.hub.chans| ensures DoorOk(t, h) {
      assert DoorOk(s, h);
    }
  }

  lemma StepKeepsDoors(s: State, step: Step)
    requires Core(s) && DoorsOk(s) && Enabled(s, step)
    ensures DoorsOk(Apply(s, step))
  {
    var t := Apply(s, step);
    if Creates(s, step) {
      CreateKeepsDoors(s, step);
    } else if step.SweepOne? {
      SweepKeepsDoors(s, step.name);
    } else if step.CloseAll? {
      forall h | 0 <= h < |t.hub.chans| ensures DoorOk(t, h) {
        assert DoorOk(s, h);
      }
    } else {
      StepLists(s, step);
      StepEvolves(s, step);
      forall h | 0 <= h < |t.hub.chans| ensures DoorOk(t, h) {
        DoorStep(s, step, t, h);
      }
    }
  }

  lemma DoorsNext(tr: seq<State>, k: nat)
    requires Run(tr) && 0 < k < |tr| && DoorsOk(tr[k - 1])
    ensures DoorsOk(tr[k])
  {
    var step := StepTo(tr, k);
    StepKeepsDoors(tr[k - 1], step);
  }

  lemma {:induction false} RunDoors(tr: seq<State>, k: nat)
    requires Run(tr) && k < |tr|
    ensures DoorsOk(tr[k])
  {
    if k > 0 {
      RunDoors(tr, k - 1);
      DoorsNext(tr, k);
    }
  }

  /** Sweep never strands a member: before shutdown a connection in a channel's
      member list is in the very channel registered under that name, with its
      rings open; and there are never more channels than the limit. */
  lemma NobodyIsStranded(tr: seq<State>, k: nat, h: nat)
    requires Run(tr) && k < |tr| && h < |tr[k].hub.chans| && tr[k].hub.chans[h].members != map[]
    ensures var s := tr[k];
            var name := s.hub.chans[h].name;
            && name in s.hub.registry && s.hub.registry[name] == h && (!s.hub.shut ==> s.hub.chans[h].open)
    ensures |tr[k].hub.registry| <= tr[k].limits.channels
  {
    RunDoors(tr, k);
    assert DoorOk(tr[k], h);
  }
}
