/** A channel ban against a join in flight. */
module MembershipBans {
  import opened Membership
  import opened MembershipInv
  import opened MembershipSteps
  import opened MembershipLife

  predicate Stored(b: Ban) {
    b.pc != MStore
  }

  /** Its part has looked for the membership. */
  predicate Looked(b: Ban) {
    Stored(b) && !(b.pc.MPart? && b.pc.p.Take?)
  }

  function Entry(s: State, b: Ban): (Name, Key)
    requires b.target < |s.conns|
  {
    (b.name, s.conns[b.target].key)
  }

  /** A membership of `name` still in the map belongs to a join that has yet to
      look for the ban again, or has seen it. */
  predicate Caught(x: Conn, name: Name) {
    name in x.memberships ==>
      x.task == Joining(JBan2(x.memberships[name])) || x.task == Joining(JUndo(x.memberships[name]))
  }

  ghost predicate BanOk(s: State, a: nat)
    requires a < |s.mods| && s.mods[a].target < |s.conns|
  {
    var b := s.mods[a];
    Stored(b) ==>
      && b.lifts0 <= s.book.lifts[Entry(s, b)]
      && (b.lifts0 == s.book.lifts[Entry(s, b)] ==>
            Entry(s, b) in s.book.bans && (Looked(b) ==> Caught(s.conns[b.target], b.name)))
  }

  ghost predicate BansOk(s: State) {
    forall a | 0 <= a < |s.mods| :: s.mods[a].target < |s.conns| && BanOk(s, a)
  }

  /** A stored ban keeps whatever it has caught. */
  lemma EnterKeepsCaught(s: State, c: nat, j: JoinPc, ok: bool, name: Name)
    requires Core(s) && JoinEnabled(s, c, j) && s.conns[c].task == Joining(j)
    requires !Searching(j)
    requires (name, s.conns[c].key) in s.book.bans && Caught(s.conns[c], name)
    ensures Caught(EnterStep(s, c, j, ok).conns[c], name)
  {
    assert ConnCore(s, c);
  }

  lemma SeekKeepsCaught(s: State, c: nat, j: JoinPc, ok: bool, name: Name)
    requires Core(s) && JoinEnabled(s, c, j) && s.conns[c].task == Joining(j)
    requires Searching(j)
    requires Caught(s.conns[c], name)
    ensures Caught(SeekStep(s, c, j, ok).conns[c], name)
  {
  }

  lemma PartKeepsCaught(s: State, c: nat, who: Thread, p: PartPc, ok: bool, name: Name)
    requires Core(s) && PartEnabled(s, c, p) && Caught(s.conns[c], name)
    ensures Caught(PartStep(s, c, who, p, ok).0.conns[c], name)
    ensures PartStep(s, c, who, p, ok).0.conns[c].task == s.conns[c].task
    ensures !s.conns[c].task.Joining? ==> name !in PartStep(s, c, who, p, ok).0.conns[c].memberships
    ensures p.Take? && p.name == name ==> name !in PartStep(s, c, who, p, ok).0.conns[c].memberships
  {
    assert ConnCore(s, c);
    if Held(p) {
      assert s.membs[p.m].conn == c;
    }
  }

  lemma JoinKeepsCaught(s: State, c: nat, j: JoinPc, ok: bool, name: Name)
    requires Core(s) && JoinEnabled(s, c, j) && s.conns[c].task == Joining(j)
    requires (name, s.conns[c].key) in s.book.bans && Caught(s.conns[c], name)
    ensures var t := if Searching(j) then SeekStep(s, c, j, ok) else EnterStep(s, c, j, ok);
            c < |t.conns| && Caught(t.conns[c], name)
  {
    if Searching(j) {
      SeekKeepsCaught(s, c, j, ok, name);
    } else {
      EnterKeepsCaught(s, c, j, ok, name);
    }
  }

  lemma ConnKeepsCaught(s: State, c: nat, ok: bool, pick: nat, name: Name)
    requires Core(s) && ConnEnabled(s, c, pick)
    requires (name, s.conns[c].key) in s.book.bans && Caught(s.conns[c], name)
    ensures c < |ConnStep(s, c, ok, pick).conns| && Caught(ConnStep(s, c, ok, pick).conns[c], name)
  {
    match s.conns[c].task
    case Swap =>
    case Joining(j) => JoinKeepsCaught(s, c, j, ok, name);
    case Parting(p) =>
      if p != Over { PartKeepsCaught(s, c, Owner, p, ok, name); }
    case Leaving(p, todo) =>
      if p != Over { PartKeepsCaught(s, c, Owner, p, ok, name); }
    case _ =>
  }

  /** A step about one connection leaves the others' maps and tasks alone. */
  ghost predicate Untouched(s: State, t: State, c: nat) {
    && c < |s.conns| && c < |t.conns|
    && t.conns[c].memberships == s.conns[c].memberships && t.conns[c].task == s.conns[c].task
  }

  lemma PartTouchesOne(s: State, k: nat, who: Thread, p: PartPc, ok: bool, c: nat)
    requires PartEnabled(s, k, p) && c < |s.conns| && c != k
    ensures Untouched(s, PartStep(s, k, who, p, ok).0, c)
  {
  }

  lemma JoinTouchesOne(s: State, k: nat, j: JoinPc, ok: bool, c: nat)
    requires JoinEnabled(s, k, j) && c < |s.conns| && c != k
    ensures var t := if Searching(j) then SeekStep(s, k, j, ok) else EnterStep(s, k, j, ok);
            Untouched(s, t, c)
  {
  }

  lemma ConnTouchesOne(s: State, k: nat, ok: bool, pick: nat, c: nat)
    requires ConnEnabled(s, k, pick) && c < |s.conns| && c != k
    ensures Untouched(s, ConnStep(s, k, ok, pick), c)
  {
    match s.conns[k].task
    case Joining(j) => JoinTouchesOne(s, k, j, ok, c);
    case Parting(p) =>
      if p != Over { PartTouchesOne(s, k, Owner, p, ok, c); }
    case Leaving(p, todo) =>
      if p != Over { PartTouchesOne(s, k, Owner, p, ok, c); }
    case _ =>
  }

  lemma ModTouchesOne(s: State, a: nat, ok: bool, c: nat)
    requires ModEnabled(s, a) && c < |s.conns| && c != s.mods[a].target
    ensures Untouched(s, ModStep(s, a, ok), c)
  {
    if s.mods[a].pc.MPart? && s.mods[a].pc.p != Over {
      PartTouchesOne(s, s.mods[a].target, Mod(a), s.mods[a].pc.p, ok, c);
    }
  }

  /** The connection a step is about, if it is about one's map or task. */
  predicate Concerns(s: State, step: Step, c: nat) {
    match step
    case MoveConn(k, _, _) => k == c
    case MoveMod(a, _) => a < |s.mods| && s.mods[a].target == c
    case StartJoin(k, _) => k == c
    case StartPart(k, _) => k == c
    case Hangup(k) => k == c
    case _ => false
  }

  lemma OthersCaught(s: State, step: Step, c: nat)
    requires Enabled(s, step) && c < |s.conns| && !Concerns(s, step, c)
    ensures Untouched(s, Apply(s, step), c)
  {
    match step
    case MoveConn(k, ok, pick) => ConnTouchesOne(s, k, ok, pick, c);
    case MoveMod(a, ok) => ModTouchesOne(s, a, ok, c);
    case _ =>
  }

  lemma ModKeepsCaught(s: State, a: nat, ok: bool, name: Name)
    requires Core(s) && ModEnabled(s, a) && Caught(s.conns[s.mods[a].target], name)
    ensures s.mods[a].target < |ModStep(s, a, ok).conns| && Caught(ModStep(s, a, ok).conns[s.mods[a].target], name)
  {
    if s.mods[a].pc.MPart? && s.mods[a].pc.p != Over {
      PartKeepsCaught(s, s.mods[a].target, Mod(a), s.mods[a].pc.p, ok, name);
    }
  }

  lemma StepKeepsCaught(s: State, step: Step, c: nat, name: Name)
    requires Core(s) && Enabled(s, step) && c < |s.conns|
    requires (name, s.conns[c].key) in s.book.bans && Caught(s.conns[c], name)
    ensures c < |Apply(s, step).conns| && Caught(Apply(s, step).conns[c], name)
  {
    if step.MoveConn? && step.c == c {
      ConnKeepsCaught(s, c, step.ok, step.pick, name);
    } else if step.MoveMod? && s.mods[step.a].target == c {
      ModKeepsCaught(s, step.a, step.ok, name);
    } else if !Concerns(s, step, c) {
      OthersCaught(s, step, c);
    }
  }

  lemma PartKeepsBook(s: State, c: nat, who: Thread, p: PartPc, ok: bool)
    requires PartEnabled(s, c, p)
    ensures var t := PartStep(s, c, who, p, ok).0; t.book == s.book && t.mods == s.mods && t.mishaps == s.mishaps
  {
  }

  lemma ConnKeepsBook(s: State, c: nat, ok: bool, pick: nat)
    requires ConnEnabled(s, c, pick)
    ensures var t := ConnStep(s, c, ok, pick); t.book == s.book && t.mods == s.mods && t.mishaps == s.mishaps
  {
    match s.conns[c].task
    case Parting(p) =>
      if p != Over { PartKeepsBook(s, c, Owner, p, ok); }
    case Leaving(p, todo) =>
      if p != Over { PartKeepsBook(s, c, Owner, p, ok); }
    case _ =>
  }

  lemma SameAim(s: State, step: Step, a: nat)
    requires Core(s) && Enabled(s, step) && a < |s.mods|
    ensures var t := Apply(s, step);
      && a < |t.mods| && t.mods[a].target == s.mods[a].target < |t.conns| && t.mods[a].name == s.mods[a].name
      && t.conns[s.mods[a].target].key == s.conns[s.mods[a].target].key
  {
    StepEvolves(s, step);
  }

  /** A ban is stored once, and leaves the store only by being lifted. */
  lemma BookKept(s: State, step: Step, a: nat)
    requires Core(s) && BansOk(s) && Enabled(s, step) && a < |s.mods|
    ensures var t := Apply(s, step);
      && a < |t.mods| && t.mods[a].target == s.mods[a].target < |t.conns| && t.mods[a].name == s.mods[a].name
      && t.conns[s.mods[a].target].key == s.conns[s.mods[a].target].key
      && (forall e :: t.book.lifts[e] >= s.book.lifts[e])
      && (forall e | e in s.book.bans && t.book.lifts[e] == s.book.lifts[e] :: e in t.book.bans)
      && (Stored(s.mods[a]) ==> Stored(t.mods[a]) && t.mods[a].lifts0 == s.mods[a].lifts0)
      && (Stored(t.mods[a]) && !Stored(s.mods[a]) ==>
            t.mods[a].lifts0 == t.book.lifts[Entry(t, t.mods[a])] && Entry(t, t.mods[a]) in t.book.bans && !Looked(t.mods[a]))
      && (Looked(s.mods[a]) ==> Looked(t.mods[a]))
  {
    SameAim(s, step, a);
    match step
    case MoveConn(c, ok, pick) => ConnKeepsBook(s, c, ok, pick);
    case MoveMod(i, ok) => ModKeepsBook(s, i, ok, a);
    case _ =>
  }

  lemma ModKeepsBook(s: State, i: nat, ok: bool, a: nat)
    requires ModEnabled(s, i) && a < |s.mods| && s.mods[a].target < |s.conns|
    ensures var t := ModStep(s, i, ok);
      && a < |t.mods| && t.book.lifts == s.book.lifts && s.book.bans <= t.book.bans
      && (Stored(s.mods[a]) ==> Stored(t.mods[a]) && t.mods[a].lifts0 == s.mods[a].lifts0)
      && (Stored(t.mods[a]) && !Stored(s.mods[a]) ==>
            && t.mods[a].target == s.mods[a].target && t.conns == s.conns && t.mods[a].lifts0 == t.book.lifts[Entry(t, t.mods[a])]
            && Entry(t, t.mods[a]) in t.book.bans && !Looked(t.mods[a]))
      && (Looked(s.mods[a]) ==> Looked(t.mods[a]))
  {
    if s.mods[i].pc.MPart? && s.mods[i].pc.p != Over {
      PartKeepsBook(s, s.mods[i].target, Mod(i), s.mods[i].pc.p, ok);
    }
  }

  lemma LookIsOwn(s: State, step: Step, a: nat)
    requires Enabled(s, step) && a < |s.mods|
    requires a < |Apply(s, step).mods| && !Looked(s.mods[a]) && Looked(Apply(s, step).mods[a])
    ensures step.MoveMod? && step.a == a
  {
    match step
    case MoveMod(i, ok) =>
      if i != a && s.mods[i].pc.MPart? && s.mods[i].pc.p != Over {
        PartKeepsBook(s, s.mods[i].target, Mod(i), s.mods[i].pc.p, ok);
      }
    case MoveConn(c, ok, pick) => ConnKeepsBook(s, c, ok, pick);
    case _ =>
  }

  /** The part's own look takes the membership out. */
  lemma LookCatches(s: State, step: Step, a: nat)
    requires Core(s) && BansOk(s) && Enabled(s, step) && a < |s.mods|
    requires a < |Apply(s, step).mods| && Stored(s.mods[a]) && !Looked(s.mods[a]) && Looked(Apply(s, step).mods[a])
    ensures var t := Apply(s, step); s.mods[a].target < |t.conns| && Caught(t.conns[s.mods[a].target], s.mods[a].name)
  {
    LookIsOwn(s, step, a);
    assert ConnCore(s, s.mods[a].target);
    assert ModOk(s, a);
    PartKeepsCaughtOnTake(s, a, step.ok);
  }

  lemma PartKeepsCaughtOnTake(s: State, a: nat, ok: bool)
    requires Core(s) && ModEnabled(s, a) && s.mods[a].pc.MPart? && s.mods[a].pc.p.Take? && s.mods[a].pc.p.name == s.mods[a].name
    ensures s.mods[a].name !in ModStep(s, a, ok).conns[s.mods[a].target].memberships
  {
  }

  lemma BanKept(s: State, step: Step, a: nat)
    requires Core(s) && BansOk(s) && Enabled(s, step) && a < |s.mods|
    ensures var t := Apply(s, step); a < |t.mods| && t.mods[a].target < |t.conns| && BanOk(t, a)
  {
    var t := Apply(s, step);
    BookKept(s, step, a);
    assert BanOk(s, a);
    var b := s.mods[a];
    if Looked(t.mods[a]) && t.mods[a].lifts0 == t.book.lifts[Entry(t, t.mods[a])] {
      if Looked(b) {
        StepKeepsCaught(s, step, b.target, b.name);
      } else {
        LookCatches(s, step, a);
      }
    }
  }

  lemma ModsGrow(s: State, step: Step, a: nat)
    requires Enabled(s, step) && |s.mods| <= a < |Apply(s, step).mods|
    ensures step.StartBan? && a == |s.mods|
  {
    match step
    case MoveConn(c, ok, pick) => ConnKeepsBook(s, c, ok, pick);
    case MoveMod(i, ok) =>
      if s.mods[i].pc.MPart? && s.mods[i].pc.p != Over {
        PartKeepsBook(s, s.mods[i].target, Mod(i), s.mods[i].pc.p, ok);
      }
    case _ =>
  }

  lemma StepKeepsBans(s: State, step: Step)
    requires Core(s) && BansOk(s) && Enabled(s, step)
    ensures BansOk(Apply(s, step))
  {
    var t := Apply(s, step);
    forall a | 0 <= a < |t.mods| ensures t.mods[a].target < |t.conns| && BanOk(t, a) {
      if a < |s.mods| {
        BanKept(s, step, a);
      } else {
        ModsGrow(s, step, a);
      }
    }
  }

  lemma BansNext(tr: seq<State>, k: nat)
    requires Run(tr) && 0 < k < |tr| && BansOk(tr[k - 1])
    ensures BansOk(tr[k])
  {
    var step := StepTo(tr, k);
    StepKeepsBans(tr[k - 1], step);
  }

  lemma {:induction false} RunBans(tr: seq<State>, k: nat)
    requires Run(tr) && k < |tr|
    ensures BansOk(tr[k])
  {
    if k > 0 {
      RunBans(tr, k - 1);
      BansNext(tr, k);
    }
  }

  /** While a channel ban stands unlifted since it was stored, then once its own
      part has looked and no join of the target is between storing a membership
      and undoing it, the target has no membership of that channel: whichever of
      the two landed second saw the first. */
  lemma BanBeatsJoinInFlight(tr: seq<State>, k: nat, a: nat)
    requires Run(tr) && k < |tr| && a < |tr[k].mods| && Looked(tr[k].mods[a])
    ensures tr[k].mods[a].target < |tr[k].conns|
    ensures var s, b := tr[k], tr[k].mods[a];
            var x := s.conns[b.target];
            s.book.lifts[Entry(s, b)] == b.lifts0 && !(x.task.Joining? && (x.task.j.JBan2? || x.task.j.JUndo?)) ==>
              b.name !in x.memberships
  {
    RunBans(tr, k);
    assert BanOk(tr[k], a);
  }
}
