/** When a membership has its place in its channel's member list, so that no sweep
    can take the channel from under it. */
module MembershipSeats {
  import opened Membership
  import opened MembershipInv
  import opened MembershipSteps
  import opened MembershipLife
  import opened MembershipBans
  import opened MembershipOrder
  import opened MembershipOnce
  import opened MembershipClean
  import opened MembershipSweep

  // ------------------------------------------------------------ seats

  /** `c` is in channel `h`'s member list. */
  predicate Seated(s: State, c: nat, h: nat) {
    && c < |s.conns| && h < |s.hub.chans|
    && s.conns[c].nick in s.hub.chans[h].members && s.hub.chans[h].members[s.conns[c].nick] == c
  }

  /** Nobody has put themselves on channel `h`'s list under `c`'s nick since `c` did. */
  predicate Latest(s: State, c: nat, h: nat) {
    && c < |s.conns| && h < |s.hub.chans|
    && s.conns[c].nick in s.hub.chans[h].last && s.hub.chans[h].last[s.conns[c].nick] == c
  }

  /** No ban's removal has come for `c` since it put itself on channel `h`'s list. */
  predicate Spared(s: State, c: nat, h: nat) {
    h < |s.hub.chans| && c !in s.hub.chans[h].ousted
  }

  /** No two live connections ever shared `c`'s nick. */
  predicate OwnNick(s: State, c: nat)
    requires c < |s.conns|
  {
    s.conns[c].nick !in s.mishaps.collided
  }

  /** No ban of `c`'s person from `n` was ever lifted between its storing and its
      part's removal from the list. */
  predicate NoneLifted(s: State, c: nat, n: Name)
    requires c < |s.conns|
  {
    (n, s.conns[c].key) !in s.mishaps.liftedMidPart
  }

  /** `c`, in channel `h` or past adding itself, is on its list exactly if it is the
      latest under its nick and was spared; and what makes sure of either. */
  ghost predicate Placed(s: State, c: nat, h: nat) {
    && c < |s.conns| && h < |s.hub.chans|
    && (Seated(s, c, h) <==> Latest(s, c, h) && Spared(s, c, h))
    && (OwnNick(s, c) ==> Latest(s, c, h))
    && (NoneLifted(s, c, s.hub.chans[h].name) ==> Spared(s, c, h))
  }

  ghost predicate TaskPlaced(s: State, c: nat)
    requires c < |s.conns|
  {
    match s.conns[c].task
    case Joining(JSub(_, h)) => Placed(s, c, h)
    case Joining(JInsert(m)) => m < |s.membs| && Placed(s, c, s.membs[m].chan)
    case _ => true
  }

  /** So for every membership, and every join past adding itself. */
  ghost predicate SeatsOk(s: State, c: nat)
    requires c < |s.conns|
  {
    && (forall n | n in s.conns[c].memberships ::
          s.conns[c].memberships[n] < |s.membs| && Placed(s, c, s.membs[s.conns[c].memberships[n]].chan))
    && TaskPlaced(s, c)
  }

  /** On the way into `n`, or in it. */
  predicate Within(s: State, c: nat, n: Name)
    requires c < |s.conns|
  {
    || n in s.conns[c].memberships || Seeks(s.conns[c].task, n)
    || (s.conns[c].task.Joining? && s.conns[c].task.j.JInsert? && s.conns[c].task.j.m < |s.membs|
        && s.membs[s.conns[c].task.j.m].name == n)
  }

  /** A goroutine about to take `c` off a channel's list does so from a name `c`
      is not in. */
  ghost predicate OwnerOut(s: State, c: nat)
    requires c < |s.conns|
  {
    match s.conns[c].task
    case Parting(p) => (p.Tell? || p.Remove?) && p.m < |s.membs| ==> !Within(s, c, s.membs[p.m].name)
    case Joining(JUndoRemove(m)) => m < |s.membs| ==> !Within(s, c, s.membs[m].name)
    case _ => true
  }

  ghost predicate ModOut(s: State, a: nat)
    requires a < |s.mods| && s.mods[a].target < |s.conns|
  {
    var b := s.mods[a];
    BeforeRemoval(b) ==> Entry(s, b) in s.book.bans && (b.pc.p.Tell? || b.pc.p.Remove? ==> !Within(s, b.target, b.name))
  }

  /** Of two connections with a nick never shared live, one is gone. */
  ghost predicate NicksApart(s: State) {
    forall c, d | 0 <= c < d < |s.conns| && s.conns[c].nick == s.conns[d].nick && OwnNick(s, c) ::
      s.conns[c].task == Gone || s.conns[d].task == Gone
  }

  ghost predicate ModKeptOut(s: State, a: nat)
    requires a < |s.mods|
  {
    s.mods[a].target < |s.conns| && (NoneLifted(s, s.mods[a].target, s.mods[a].name) ==> ModOut(s, a))
  }

  ghost predicate OutOk(s: State) {
    && (forall c | 0 <= c < |s.conns| :: OwnerOut(s, c))
    && (forall a | 0 <= a < |s.mods| :: ModKeptOut(s, a))
    && NicksApart(s)
  }

  ghost predicate SeatedOk(s: State) {
    forall c | 0 <= c < |s.conns| :: SeatsOk(s, c)
  }

  // ------------------------------------------------------------ what lists record

  function LastAfter(s: State, h: nat, ch: Change): map<Nick, nat>
    requires h < |s.hub.chans|
  {
    var last := s.hub.chans[h].last;
    if ch.Added? && ch.h == h && ch.c < |s.conns| then last[s.conns[ch.c].nick := ch.c] else last
  }

  function OustedAfter(s: State, h: nat, ch: Change): set<nat>
    requires h < |s.hub.chans|
  {
    var ousted := s.hub.chans[h].ousted;
    if ch.Same? || ch.h != h then ousted
    else if ch.Added? then ousted - {ch.c}
    else if ch.who == Owner then ousted
    else ousted + {ch.c}
  }

  ghost predicate Records(s: State, t: State, ch: Change) {
    && |t.hub.chans| >= |s.hub.chans|
    && (forall h | 0 <= h < |s.hub.chans| ::
          t.hub.chans[h].last == LastAfter(s, h, ch) && t.hub.chans[h].ousted == OustedAfter(s, h, ch))
  }

  lemma PartRecords(s: State, c: nat, who: Thread, p: PartPc, ok: bool)
    requires PartEnabled(s, c, p)
    ensures Records(s, PartStep(s, c, who, p, ok).0, PartChange(s, c, who, p))
  {
  }

  lemma SeekRecords(s: State, c: nat, j: JoinPc, ok: bool)
    requires JoinEnabled(s, c, j) && Searching(j)
    ensures Records(s, SeekStep(s, c, j, ok), JoinChange(s, c, j))
  {
  }

  lemma EnterRecords(s: State, c: nat, j: JoinPc, ok: bool)
    requires JoinEnabled(s, c, j) && !Searching(j)
    ensures Records(s, EnterStep(s, c, j, ok), JoinChange(s, c, j))
  {
  }

  lemma ModRecords(s: State, a: nat, ok: bool)
    requires ModEnabled(s, a)
    ensures Records(s, ModStep(s, a, ok), ChangeOf(s, MoveMod(a, ok)))
  {
    if s.mods[a].pc.MPart? && s.mods[a].pc.p != Over {
      PartRecords(s, s.mods[a].target, Mod(a), s.mods[a].pc.p, ok);
    }
  }

  lemma ConnRecords(s: State, c: nat, ok: bool, pick: nat)
    requires ConnEnabled(s, c, pick)
    ensures Records(s, ConnStep(s, c, ok, pick), ChangeOf(s, MoveConn(c, ok, pick)))
  {
    match s.conns[c].task
    case Joining(j) =>
      if Searching(j) {
        SeekRecords(s, c, j, ok);
      } else {
        EnterRecords(s, c, j, ok);
      }
    case Parting(p) =>
      if p != Over { PartRecords(s, c, Owner, p, ok); }
    case Leaving(p, todo) =>
      if p != Over { PartRecords(s, c, Owner, p, ok); }
    case _ =>
  }

  lemma StepRecords(s: State, step: Step)
    requires Enabled(s, step)
    ensures Records(s, Apply(s, step), ChangeOf(s, step))
  {
    match step
    case MoveConn(c, ok, pick) => ConnRecords(s, c, ok, pick);
    case MoveMod(a, ok) => ModRecords(s, a, ok);
    case _ =>
  }

  // ------------------------------------------------------------ going in

  lemma SeekWithin(s: State, c: nat, j: JoinPc, ok: bool, n: Name)
    requires JoinEnabled(s, c, j) && s.conns[c].task == Joining(j)
    requires Searching(j)
    ensures var t := SeekStep(s, c, j, ok);
            c < |t.conns| && (Within(t, c, n) ==> Within(s, c, n) || (j == JBan1(n) && !Banned(s, n, s.conns[c].key)))
  {
  }

  lemma EnterWithin(s: State, c: nat, j: JoinPc, ok: bool, n: Name)
    requires JoinEnabled(s, c, j) && s.conns[c].task == Joining(j)
    requires !Searching(j)
    ensures var t := EnterStep(s, c, j, ok); c < |t.conns| && (Within(t, c, n) ==> Within(s, c, n))
  {
  }

  lemma PartWithin(s: State, c: nat, who: Thread, p: PartPc, ok: bool, n: Name)
    requires PartEnabled(s, c, p)
    ensures var t := PartStep(s, c, who, p, ok).0;
      && |t.conns| == |s.conns| && |t.membs| == |s.membs|
      && t.conns[c].task == s.conns[c].task
      && (n in t.conns[c].memberships ==> n in s.conns[c].memberships && t.conns[c].memberships[n] == s.conns[c].memberships[n])
      && (p.Take? && p.name == n ==> n !in t.conns[c].memberships)
      && (forall m | 0 <= m < |s.membs| :: t.membs[m].name == s.membs[m].name && t.membs[m].chan == s.membs[m].chan)
  {
  }

  lemma ConnWithin(s: State, c: nat, ok: bool, pick: nat, n: Name)
    requires Core(s) && ConnEnabled(s, c, pick)
    ensures var t := ConnStep(s, c, ok, pick);
            c < |t.conns| && (Within(t, c, n) ==>
              Within(s, c, n) || (s.conns[c].task == Joining(JBan1(n)) && !Banned(s, n, s.conns[c].key)))
  {
    match s.conns[c].task
    case Joining(j) =>
      if Searching(j) {
        SeekWithin(s, c, j, ok, n);
      } else {
        EnterWithin(s, c, j, ok, n);
      }
    case Parting(p) =>
      if p != Over { PartWithin(s, c, Owner, p, ok, n); }
    case Leaving(p, todo) =>
      if p != Over { PartWithin(s, c, Owner, p, ok, n); }
    case _ =>
  }

  lemma ModWithin(s: State, a: nat, ok: bool, n: Name)
    requires Core(s) && ModEnabled(s, a)
    ensures var t, c := ModStep(s, a, ok), s.mods[a].target;
      && c < |t.conns| && t.conns[c].task == s.conns[c].task && |t.membs| == |s.membs|
      && (Within(t, c, n) ==> Within(s, c, n))
      && (n in t.conns[c].memberships ==> n in s.conns[c].memberships && t.conns[c].memberships[n] == s.conns[c].memberships[n])
  {
    if s.mods[a].pc.MPart? && s.mods[a].pc.p != Over {
      PartWithin(s, s.mods[a].target, Mod(a), s.mods[a].pc.p, ok, n);
    }
  }

  /** Only the first look at the bans stands between outside and within. */
  lemma WithinFrom(s: State, step: Step, c: nat, n: Name)
    requires Core(s) && Enabled(s, step) && c < |s.conns|
    ensures var t := Apply(s, step);
            c < |t.conns| && (Within(t, c, n) ==>
              Within(s, c, n) || (step.MoveConn? && step.c == c && s.conns[c].task == Joining(JBan1(n)) && !Banned(s, n, s.conns[c].key)))
  {
    if Concerns(s, step, c) {
      match step
      case MoveConn(_, ok, pick) => ConnWithin(s, c, ok, pick, n);
      case MoveMod(a, ok) => ModWithin(s, a, ok, n);
      case _ =>
    } else {
      OthersCaught(s, step, c);
      OtherMembs(s, step, c, n);
    }
  }

  lemma OtherMembs(s: State, step: Step, c: nat, n: Name)
    requires Core(s) && Enabled(s, step) && c < |s.conns| && Untouched(s, Apply(s, step), c)
    ensures Within(Apply(s, step), c, n) ==> Within(s, c, n)
  {
    StepEvolves(s, step);
    assert ConnCore(s, c);
  }

  // ------------------------------------------------------------ staying out

  lemma OwnOut(s: State, c: nat, ok: bool, pick: nat)
    requires Core(s) && ConnEnabled(s, c, pick) && OwnerOut(s, c)
    ensures var t := ConnStep(s, c, ok, pick); c < |t.conns| && OwnerOut(t, c)
  {
    assert ConnCore(s, c);
    match s.conns[c].task
    case Joining(j) => JoinOut(s, c, j, ok);
    case Parting(p) =>
      if p != Over {
        PartOut(s, c, p, ok);
      }
    case Leaving(p, todo) =>
      if p != Over { PartSameTasks(s, c, Owner, p, ok); }
    case _ =>
  }

  lemma PartOut(s: State, c: nat, p: PartPc, ok: bool)
    requires Core(s) && PartEnabled(s, c, p) && s.conns[c].task == Parting(p) && OwnerOut(s, c)
    ensures var (t, q) := PartStep(s, c, Owner, p, ok); c < |t.conns| && OwnerOut(SetTask(t, c, Parting(q)), c)
  {
    assert ConnCore(s, c);
    if p.Take? {
      PartWithin(s, c, Owner, p, ok, p.name);
    } else {
      PartWithin(s, c, Owner, p, ok, s.membs[p.m].name);
    }
  }

  lemma JoinOut(s: State, c: nat, j: JoinPc, ok: bool)
    requires Core(s) && JoinEnabled(s, c, j) && s.conns[c].task == Joining(j)
    ensures var t := if Searching(j) then SeekStep(s, c, j, ok) else EnterStep(s, c, j, ok);
            c < |t.conns| && OwnerOut(t, c)
  {
    if Searching(j) {
      SeekOut(s, c, j, ok);
    } else {
      EnterOut(s, c, j, ok);
    }
  }

  lemma SeekOut(s: State, c: nat, j: JoinPc, ok: bool)
    requires JoinEnabled(s, c, j) && Searching(j)
    ensures var t := SeekStep(s, c, j, ok); c < |t.conns| && OwnerOut(t, c)
  {
  }

  lemma EnterOut(s: State, c: nat, j: JoinPc, ok: bool)
    requires Core(s) && JoinEnabled(s, c, j) && !Searching(j) && s.conns[c].task == Joining(j)
    ensures var t := EnterStep(s, c, j, ok); c < |t.conns| && OwnerOut(t, c)
  {
    assert ConnCore(s, c);
  }

  lemma OwnerOutStep(s: State, step: Step, t: State, c: nat)
    requires Core(s) && Enabled(s, step) && t == Apply(s, step) && Evolves(s, t) && c < |s.conns| && OwnerOut(s, c)
    ensures c < |t.conns| && OwnerOut(t, c)
  {
    assert ConnCore(s, c);
    if step.MoveConn? && step.c == c {
      OwnOut(s, c, step.ok, step.pick);
    } else if step.MoveMod? && s.mods[step.a].target == c {
      match s.conns[c].task
      case Parting(p) => if Held(p) { ModWithin(s, step.a, step.ok, s.membs[p.m].name); } else { ModSameTask(s, step.a, step.ok); }
      case Joining(j) => if j.JUndoRemove? { ModWithin(s, step.a, step.ok, s.membs[j.m].name); } else { ModSameTask(s, step.a, step.ok); }
      case _ => ModSameTask(s, step.a, step.ok);
    } else if !Concerns(s, step, c) {
      OthersCaught(s, step, c);
      match s.conns[c].task
      case Parting(p) => if Held(p) { OtherMembs(s, step, c, s.membs[p.m].name); }
      case Joining(j) => if j.JUndoRemove? { OtherMembs(s, step, c, s.membs[j.m].name); }
      case _ =>
    }
  }

  /** A ban about to take its target off the list keeps it out meanwhile. */
  lemma ModOutStep(s: State, step: Step, t: State, a: nat)
    requires Core(s) && BansOk(s) && Enabled(s, step) && t == Apply(s, step) && Evolves(s, t) && a < |s.mods|
    requires s.mods[a].target < |t.conns| && NoneLifted(t, s.mods[a].target, s.mods[a].name)
    requires s.mods[a].target < |s.conns| && ModOut(s, a)
    ensures a < |t.mods| && t.mods[a].target < |t.conns| && ModOut(t, a)
  {
    var b := s.mods[a];
    BookKept(s, step, a);
    if step.MoveMod? && step.a == a {
      OwnModOut(s, a, step.ok);
    } else {
      OtherModSame(s, step, a);
      if BeforeRemoval(b) {
        NotLifted(s, step, a);
        WithinFrom(s, step, b.target, b.name);
      }
    }
  }

  lemma NotLifted(s: State, step: Step, a: nat)
    requires Core(s) && Enabled(s, step) && a < |s.mods| && s.mods[a].target < |s.conns| && BeforeRemoval(s.mods[a])
    requires Entry(s, s.mods[a]) !in Apply(s, step).mishaps.liftedMidPart && Entry(s, s.mods[a]) in s.book.bans
    ensures Entry(s, s.mods[a]) in Apply(s, step).book.bans
  {
    match step
    case MoveConn(c, ok, pick) => ConnKeepsBook(s, c, ok, pick);
    case MoveMod(i, ok) =>
      if s.mods[i].pc.MPart? && s.mods[i].pc.p != Over {
        PartKeepsBook(s, s.mods[i].target, Mod(i), s.mods[i].pc.p, ok);
      }
    case _ =>
  }

  lemma OwnModOut(s: State, a: nat, ok: bool)
    requires Core(s) && ModEnabled(s, a) && ModOut(s, a)
    ensures var t := ModStep(s, a, ok); a < |t.mods| && t.mods[a].target < |t.conns| && ModOut(t, a)
  {
    if s.mods[a].pc.MPart? && s.mods[a].pc.p != Over {
      PartModOut(s, a, ok);
    }
  }

  lemma PartModOut(s: State, a: nat, ok: bool)
    requires Core(s) && ModEnabled(s, a) && ModOut(s, a) && s.mods[a].pc.MPart? && s.mods[a].pc.p != Over
    ensures var t := ModStep(s, a, ok); a < |t.mods| && t.mods[a].target < |t.conns| && ModOut(t, a)
  {
    var c, n, p := s.mods[a].target, s.mods[a].name, s.mods[a].pc.p;
    assert ConnCore(s, c);
    assert ModOk(s, a);
    PartKeepsMods(s, c, Mod(a), p, ok);
    PartKeepsBook(s, c, Mod(a), p, ok);
    PartWithin(s, c, Mod(a), p, ok, n);
    PartKeepsKeys(s, c, Mod(a), p, ok);
  }

  lemma PartKeepsKeys(s: State, c: nat, who: Thread, p: PartPc, ok: bool)
    requires PartEnabled(s, c, p)
    ensures var t := PartStep(s, c, who, p, ok).0; c < |t.conns| && t.conns[c].key == s.conns[c].key
  {
  }

  lemma GoneStays(s: State, step: Step, c: nat)
    requires Enabled(s, step) && c < |s.conns| && s.conns[c].task == Gone
    ensures c < |Apply(s, step).conns| && Apply(s, step).conns[c].task == Gone
  {
    if Concerns(s, step, c) {
      ModSameTask(s, step.a, step.ok);
    } else {
      OthersCaught(s, step, c);
    }
  }

  lemma MishapsGrow(s: State, step: Step)
    requires Enabled(s, step)
    ensures s.mishaps.collided <= Apply(s, step).mishaps.collided
    ensures s.mishaps.liftedMidPart <= Apply(s, step).mishaps.liftedMidPart
  {
    match step
    case MoveConn(c, ok, pick) => ConnKeepsBook(s, c, ok, pick);
    case MoveMod(a, ok) =>
      if s.mods[a].pc.MPart? && s.mods[a].pc.p != Over {
        PartKeepsBook(s, s.mods[a].target, Mod(a), s.mods[a].pc.p, ok);
      }
    case _ =>
  }

  lemma NicksStep(s: State, step: Step)
    requires Core(s) && Enabled(s, step) && NicksApart(s)
    ensures NicksApart(Apply(s, step))
  {
    var t := Apply(s, step);
    StepEvolves(s, step);
    MishapsGrow(s, step);
    forall c, d | 0 <= c < d < |t.conns| && t.conns[c].nick == t.conns[d].nick && OwnNick(t, c)
      ensures t.conns[c].task == Gone || t.conns[d].task == Gone
    {
      if d < |s.conns| {
        if s.conns[c].task == Gone {
          GoneStays(s, step, c);
        } else {
          GoneStays(s, step, d);
        }
      } else {
        ConnsGrow(s, step, d);
      }
    }
  }

  lemma StepKeepsOut(s: State, step: Step)
    requires Core(s) && BansOk(s) && Enabled(s, step) && OutOk(s)
    ensures OutOk(Apply(s, step))
  {
    var t := Apply(s, step);
    StepEvolves(s, step);
    MishapsGrow(s, step);
    forall c | 0 <= c < |t.conns| ensures OwnerOut(t, c) {
      if c < |s.conns| {
        OwnerOutStep(s, step, t, c);
      } else {
        ConnsGrow(s, step, c);
      }
    }
    forall a | 0 <= a < |t.mods| ensures ModKeptOut(t, a) {
      ModKeptOutStep(s, step, t, a);
    }
    NicksStep(s, step);
  }

  lemma ModKeptOutStep(s: State, step: Step, t: State, a: nat)
    requires Core(s) && BansOk(s) && Enabled(s, step) && OutOk(s) && t == Apply(s, step) && Evolves(s, t) && a < |t.mods|
    ensures ModKeptOut(t, a)
  {
    MishapsGrow(s, step);
    if a >= |s.mods| {
      ModsGrow(s, step, a);
    } else {
      assert ModKeptOut(s, a);
      if NoneLifted(t, s.mods[a].target, s.mods[a].name) {
        ModOutStep(s, step, t, a);
      }
    }
  }

  // ------------------------------------------------------------ keeping the place

  /** An owner takes itself off a list only from a name it is out of. */
  lemma OwnerRemovesOutside(s: State, step: Step, c: nat)
    requires Core(s) && OutOk(s) && Enabled(s, step) && c < |s.conns|
    requires ChangeOf(s, step).Removed? && ChangeOf(s, step).c == c && ChangeOf(s, step).who == Owner
    ensures ChangeOf(s, step).h < |s.hub.chans| && !Within(s, c, s.hub.chans[ChangeOf(s, step).h].name)
  {
    assert ConnCore(s, c);
    assert OwnerOut(s, c);
    match s.conns[c].task {
      case Joining(j) => assert MembOk(s, j.m);
      case Parting(p) => assert MembOk(s, p.m);
      case Leaving(p, _) => assert MembOk(s, p.m);
    }
  }

  /** And so does a ban, unless one of that person there was lifted mid-part. */
  lemma BanRemovesOutside(s: State, step: Step, c: nat)
    requires Core(s) && OutOk(s) && Enabled(s, step) && c < |s.conns|
    requires ChangeOf(s, step).Removed? && ChangeOf(s, step).c == c && ChangeOf(s, step).who != Owner
    ensures ChangeOf(s, step).h < |s.hub.chans|
    ensures var n := s.hub.chans[ChangeOf(s, step).h].name; NoneLifted(s, c, n) ==> !Within(s, c, n)
  {
    var a := step.a;
    assert ConnCore(s, c);
    assert ModKeptOut(s, a) && ModOk(s, a);
    assert MembOk(s, s.mods[a].pc.p.m);
  }

  /** Whoever it concerns is who and where it was. */
  ghost predicate SamePlace(s: State, t: State, c: nat, h: nat) {
    && c < |s.conns| && c < |t.conns| && h < |s.hub.chans| && h < |t.hub.chans|
    && t.conns[c].nick == s.conns[c].nick && t.conns[c].key == s.conns[c].key && t.hub.chans[h].name == s.hub.chans[h].name
    && s.mishaps.collided <= t.mishaps.collided && s.mishaps.liftedMidPart <= t.mishaps.liftedMidPart
  }

  /** A change may take a place from `c` only as a shared nick or a lifted ban lets it. */
  ghost predicate Fair(s: State, c: nat, h: nat, ch: Change)
    requires c < |s.conns| && h < |s.hub.chans|
  {
    && (ch.Added? && ch.h == h && ch.c != c && ch.c < |s.conns| && s.conns[ch.c].nick == s.conns[c].nick ==> !OwnNick(s, c))
    && (TakesOff(ch, h, c) ==> ch.who != Owner && !NoneLifted(s, c, s.hub.chans[h].name))
  }

  lemma PlacedAfter(s: State, t: State, c: nat, h: nat, ch: Change)
    requires Placed(s, c, h) && SamePlace(s, t, c, h) && Fair(s, c, h, ch) && Lists(s, t, ch) && Records(s, t, ch)
    requires ch.Added? || ch.Removed? ==> ch.c < |s.conns|
    ensures Placed(t, c, h)
  {
  }

  lemma AddIsFair(s: State, step: Step, c: nat, h: nat)
    requires Core(s) && OutOk(s) && Enabled(s, step) && c < |s.conns| && h < |s.hub.chans|
    requires Within(s, c, s.hub.chans[h].name) && ChangeOf(s, step).Added?
    ensures ChangeOf(s, step).c < |s.conns| && Fair(s, c, h, ChangeOf(s, step))
  {
    AddedWhereOpen(s, step);
    assert ConnCore(s, c);
  }

  lemma RemovalIsFair(s: State, step: Step, c: nat, h: nat)
    requires Core(s) && OutOk(s) && Enabled(s, step) && c < |s.conns| && h < |s.hub.chans|
    requires Within(s, c, s.hub.chans[h].name) && ChangeOf(s, step).Removed?
    ensures Fair(s, c, h, ChangeOf(s, step))
  {
    if ChangeOf(s, step).c == c {
      if ChangeOf(s, step).who == Owner {
        OwnerRemovesOutside(s, step, c);
      } else {
        BanRemovesOutside(s, step, c);
      }
    }
  }

  lemma RemovedIsThere(s: State, step: Step)
    requires Enabled(s, step) && ChangeOf(s, step).Removed?
    ensures ChangeOf(s, step).c < |s.conns|
  {
  }

  lemma PlacedStays(s: State, step: Step, t: State, c: nat, h: nat)
    requires Core(s) && OutOk(s) && Enabled(s, step) && t == Apply(s, step) && Evolves(s, t)
    requires Placed(s, c, h) && Within(s, c, s.hub.chans[h].name)
    ensures Placed(t, c, h)
  {
    var ch := ChangeOf(s, step);
    if ch.Added? {
      AddIsFair(s, step, c, h);
    } else if ch.Removed? {
      RemovalIsFair(s, step, c, h);
      RemovedIsThere(s, step);
    }
    StepLists(s, step);
    StepRecords(s, step);
    MishapsGrow(s, step);
    PlacedAfter(s, t, c, h, ch);
  }

  /** The seat a join has when it gets past adding itself. */
  lemma JoinSits(s: State, c: nat, j: JoinPc, ok: bool)
    requires Core(s) && JoinEnabled(s, c, j) && s.conns[c].task == Joining(j) && SeatsOk(s, c)
    requires j.JFind? || j.JMake? || j.JSub?
    ensures var t := if j.JSub? then EnterStep(s, c, j, ok) else SeekStep(s, c, j, ok);
            c < |t.conns| && TaskPlaced(t, c)
  {
  }

  /** New maplets and seats come from the join alone. */
  lemma EnterSeats(s: State, c: nat, j: JoinPc, ok: bool)
    requires Core(s) && JoinEnabled(s, c, j) && s.conns[c].task == Joining(j)
    requires !(Searching(j) || j.JSub?)
    ensures var t := EnterStep(s, c, j, ok);
      && c < |t.conns| && !(t.conns[c].task.Joining? && (t.conns[c].task.j.JSub? || t.conns[c].task.j.JInsert?))
      && forall n | n in t.conns[c].memberships ::
           || (n in s.conns[c].memberships && t.conns[c].memberships[n] == s.conns[c].memberships[n])
           || (j.JInsert? && j.m < |s.membs| && t.conns[c].memberships[n] == j.m && n == s.membs[j.m].name)
  {
  }

  lemma MapFacts(s: State, c: nat, n: Name)
    requires Core(s) && c < |s.conns| && n in s.conns[c].memberships
    ensures var m := s.conns[c].memberships[n];
      m < |s.membs| && s.membs[m].name == n && s.membs[m].chan < |s.hub.chans| && s.hub.chans[s.membs[m].chan].name == n
  {
    assert ConnCore(s, c);
    assert MembOk(s, s.conns[c].memberships[n]);
  }

  predicate Inserting(s: State, c: nat, n: Name, m: nat)
    requires c < |s.conns|
  {
    s.conns[c].task == Joining(JInsert(m)) && m < |s.membs| && s.membs[m].name == n
  }

  lemma ConnMaps(s: State, c: nat, ok: bool, pick: nat, n: Name)
    requires Core(s) && ConnEnabled(s, c, pick)
    ensures var t := ConnStep(s, c, ok, pick);
            c < |t.conns| && (n in t.conns[c].memberships ==>
              || (n in s.conns[c].memberships && t.conns[c].memberships[n] == s.conns[c].memberships[n])
              || Inserting(s, c, n, t.conns[c].memberships[n]))
  {
    match s.conns[c].task
    case Joining(j) =>
      if Searching(j) || j.JSub? {
        SeekMaps(s, c, j, ok);
      } else {
        EnterSeats(s, c, j, ok);
      }
    case Parting(p) => if p != Over { PartWithin(s, c, Owner, p, ok, n); }
    case Leaving(p, _) => if p != Over { PartWithin(s, c, Owner, p, ok, n); }
    case _ =>
  }

  /** A maplet is an old one, or the one a join is inserting. */
  lemma MapFrom(s: State, step: Step, c: nat, n: Name)
    requires Core(s) && Enabled(s, step) && c < |s.conns|
    ensures var t := Apply(s, step);
            c < |t.conns| && (n in t.conns[c].memberships ==>
              || (n in s.conns[c].memberships && t.conns[c].memberships[n] == s.conns[c].memberships[n])
              || Inserting(s, c, n, t.conns[c].memberships[n]))
  {
    if !Concerns(s, step, c) {
      OthersCaught(s, step, c);
    } else {
      match step
      case MoveConn(_, ok, pick) => ConnMaps(s, c, ok, pick, n);
      case MoveMod(a, ok) => ModWithin(s, a, ok, n);
      case _ =>
    }
  }

  /** Where a membership in the map after a step had its seat before. */
  lemma SeatBefore(s: State, step: Step, t: State, c: nat, n: Name) returns (m: nat)
    requires Core(s) && Core(t) && Enabled(s, step) && t == Apply(s, step) && Evolves(s, t)
    requires c < |s.conns| && SeatsOk(s, c) && c < |t.conns| && n in t.conns[c].memberships
    ensures m == t.conns[c].memberships[n] && m < |s.membs| && m < |t.membs|
    ensures Within(s, c, n) && Placed(s, c, s.membs[m].chan)
    ensures s.membs[m].chan == t.membs[m].chan && s.hub.chans[s.membs[m].chan].name == n
  {
    m := t.conns[c].memberships[n];
    MapFrom(s, step, c, n);
    MapFacts(t, c, n);
    if n in s.conns[c].memberships {
      MapFacts(s, c, n);
    }
  }

  lemma SeekMaps(s: State, c: nat, j: JoinPc, ok: bool)
    requires JoinEnabled(s, c, j) && (Searching(j) || j.JSub?)
    ensures var t := if j.JSub? then EnterStep(s, c, j, ok) else SeekStep(s, c, j, ok);
            c < |t.conns| && t.conns[c].memberships == s.conns[c].memberships
  {
  }

  lemma OwnTaskPlaced(s: State, c: nat, ok: bool, pick: nat)
    requires Core(s) && ConnEnabled(s, c, pick) && SeatsOk(s, c)
    ensures var t := ConnStep(s, c, ok, pick); c < |t.conns| && TaskPlaced(t, c)
  {
    match s.conns[c].task
    case Joining(j) =>
      if j.JFind? || j.JMake? || j.JSub? {
        JoinSits(s, c, j, ok);
      } else if !Searching(j) {
        EnterSeats(s, c, j, ok);
      }
    case Parting(p) => if p != Over { PartSameTasks(s, c, Owner, p, ok); }
    case Leaving(p, _) => if p != Over { PartSameTasks(s, c, Owner, p, ok); }
    case _ =>
  }

  lemma TaskSeat(s: State, step: Step, t: State, c: nat)
    requires Core(s) && OutOk(s) && Enabled(s, step) && t == Apply(s, step) && Evolves(s, t)
    requires c < |s.conns| && SeatsOk(s, c) && c < |t.conns|
    ensures TaskPlaced(t, c)
  {
    if step.MoveConn? && step.c == c {
      OwnTaskPlaced(s, c, step.ok, step.pick);
    } else {
      OthersTask(s, step, c);
      KeptTaskSeat(s, step, t, c);
    }
  }

  /** But by its own steps, a connection's task is only ever begun. */
  lemma OthersTask(s: State, step: Step, c: nat)
    requires Enabled(s, step) && c < |s.conns| && !(step.MoveConn? && step.c == c)
    ensures c < |Apply(s, step).conns|
    ensures var a, b := s.conns[c].task, Apply(s, step).conns[c].task;
            b == a || !(b.Joining? && (b.j.JSub? || b.j.JInsert?))
  {
    if step.StartJoin? || step.StartPart? || step.Hangup? {
    } else if Concerns(s, step, c) {
      ModSameTask(s, step.a, step.ok);
    } else {
      OthersCaught(s, step, c);
    }
  }

  lemma KeptTaskSeat(s: State, step: Step, t: State, c: nat)
    requires Core(s) && OutOk(s) && Enabled(s, step) && t == Apply(s, step) && Evolves(s, t)
    requires c < |s.conns| && SeatsOk(s, c) && c < |t.conns|
    requires t.conns[c].task == s.conns[c].task
             || !(t.conns[c].task.Joining? && (t.conns[c].task.j.JSub? || t.conns[c].task.j.JInsert?))
    ensures TaskPlaced(t, c)
  {
    assert ConnCore(s, c);
    match t.conns[c].task
    case Joining(JSub(n, h)) => PlacedStays(s, step, t, c, h);
    case Joining(JInsert(m)) =>
      assert MembOk(s, m);
      PlacedStays(s, step, t, c, s.membs[m].chan);
    case _ =>
  }

  lemma SeatsStep(s: State, step: Step, t: State, c: nat)
    requires Core(s) && Core(t) && OutOk(s) && Enabled(s, step) && t == Apply(s, step) && Evolves(s, t)
    requires c < |s.conns| && SeatsOk(s, c) && c < |t.conns|
    ensures SeatsOk(t, c)
  {
    TaskSeat(s, step, t, c);
    forall n | n in t.conns[c].memberships
      ensures t.conns[c].memberships[n] < |t.membs| && Placed(t, c, t.membs[t.conns[c].memberships[n]].chan)
    {
      var m := SeatBefore(s, step, t, c, n);
      MapFacts(t, c, n);
      PlacedStays(s, step, t, c, s.membs[m].chan);
    }
  }

  lemma NewConn(s: State, step: Step, c: nat)
    requires Enabled(s, step) && |s.conns| <= c < |Apply(s, step).conns|
    ensures SeatsOk(Apply(s, step), c)
  {
    ConnsGrow(s, step, c);
  }

  lemma StepKeepsSeats(s: State, step: Step)
    requires Core(s) && OutOk(s) && SeatedOk(s) && Enabled(s, step)
    ensures SeatedOk(Apply(s, step))
  {
    var t := Apply(s, step);
    StepKeeps(s, step);
    StepEvolves(s, step);
    forall c | 0 <= c < |t.conns| ensures SeatsOk(t, c) {
      if c < |s.conns| {
        SeatsStep(s, step, t, c);
      } else {
        NewConn(s, step, c);
      }
    }
  }

  lemma SeatsNext(tr: seq<State>, k: nat)
    requires Run(tr) && 0 < k < |tr| && OutOk(tr[k - 1]) && SeatedOk(tr[k - 1])
    ensures OutOk(tr[k]) && SeatedOk(tr[k])
  {
    RunBans(tr, k - 1);
    var step := StepTo(tr, k);
    StepKeepsOut(tr[k - 1], step);
    StepKeepsSeats(tr[k - 1], step);
  }

  lemma {:induction false} RunSeats(tr: seq<State>, k: nat)
    requires Run(tr) && k < |tr|
    ensures OutOk(tr[k]) && SeatedOk(tr[k])
  {
    if k > 0 {
      RunSeats(tr, k - 1);
      SeatsNext(tr, k);
    }
  }

  /** A member is on the list of their channel exactly if, since they last put
      themselves on it, nobody else has under their nick, and no ban's removal has
      come for them; the first is so if no two live connections ever shared that
      nick, the second if no ban of that person there was ever lifted mid-part. */
  lemma SeatedIff(tr: seq<State>, k: nat, c: nat, n: Name)
    requires Run(tr) && k < |tr| && c < |tr[k].conns| && n in tr[k].conns[c].memberships
    ensures tr[k].conns[c].memberships[n] < |tr[k].membs|
    ensures var s := tr[k];
            var h := s.membs[s.conns[c].memberships[n]].chan;
            && h < |s.hub.chans| && s.hub.chans[h].name == n
            && (Seated(s, c, h) <==> Latest(s, c, h) && Spared(s, c, h))
            && (OwnNick(s, c) ==> Latest(s, c, h))
            && (NoneLifted(s, c, n) ==> Spared(s, c, h))
  {
    RunSeats(tr, k);
    RunCore(tr, k);
    var s := tr[k];
    assert SeatsOk(s, c);
    MapFacts(s, c, n);
  }

  /** Has a membership, therefore is counted: with a nick no two live connections
      ever shared, and no ban of theirs there ever lifted mid-part, a member is on
      the list of their channel, the registered one, open until shutdown. */
  lemma MembersAreSeated(tr: seq<State>, k: nat, c: nat, n: Name)
    requires Run(tr) && k < |tr| && c < |tr[k].conns| && n in tr[k].conns[c].memberships
    requires OwnNick(tr[k], c) && NoneLifted(tr[k], c, n)
    ensures tr[k].conns[c].memberships[n] < |tr[k].membs|
    ensures var s := tr[k];
            var h := s.membs[s.conns[c].memberships[n]].chan;
            && Seated(s, c, h) && s.hub.chans[h].name == n
            && n in s.hub.registry && s.hub.registry[n] == h && (!s.hub.shut ==> s.hub.chans[h].open)
  {
    SeatedIff(tr, k, c, n);
    NobodyIsStranded(tr, k, tr[k].membs[tr[k].conns[c].memberships[n]].chan);
  }
}
