/** What keeps a connection out of a channel: its own limit, a hook, a ban; and what
    sweeping and shutting down leave of channels. */
module MembershipLimits {
  import opened Membership
  import opened MembershipInv
  import opened MembershipSteps
  import opened MembershipBans
  import opened MembershipSeats
  import opened MembershipClean
  import opened MembershipSweep

  // ------------------------------------------------------------ how many channels

  /** A join past its check and not yet stored. */
  predicate Unstored(t: Task) {
    t.Joining? && (t.j.JBan1? || t.j.JHook? || t.j.JFind? || t.j.JMake? || t.j.JSub? || t.j.JInsert?)
  }

  predicate WithinLimit(limits: Limits, x: Conn) {
    |x.memberships| <= limits.perConn && (Unstored(x.task) ==> |x.memberships| < limits.perConn)
  }

  lemma Without(m: map<Name, nat>, n: Name)
    ensures |m - {n}| <= |m|
  {
    if n in m {
      RemoveKey(m, n);
    } else {
      assert m - {n} == m;
    }
  }

  lemma With(m: map<Name, nat>, n: Name, v: nat)
    ensures |m[n := v]| <= |m| + 1
  {
    if n in m {
      assert m[n := v].Keys == m.Keys;
    } else {
      assert m[n := v].Keys == m.Keys + {n};
    }
  }

  lemma PartWithinLimit(s: State, c: nat, who: Thread, p: PartPc, ok: bool)
    requires PartEnabled(s, c, p)
    ensures var t := PartStep(s, c, who, p, ok).0;
      && c < |t.conns| && |t.conns[c].memberships| <= |s.conns[c].memberships|
      && t.conns[c].task == s.conns[c].task && t.limits == s.limits
  {
    if p.Take? {
      Without(s.conns[c].memberships, p.name);
    }
  }

  lemma SeekWithinLimit(s: State, c: nat, j: JoinPc, ok: bool)
    requires JoinEnabled(s, c, j) && Searching(j) && s.conns[c].task == Joining(j) && WithinLimit(s.limits, s.conns[c])
    ensures var t := SeekStep(s, c, j, ok); c < |t.conns| && WithinLimit(t.limits, t.conns[c]) && t.limits == s.limits
  {
  }

  lemma EnterWithinLimit(s: State, c: nat, j: JoinPc, ok: bool)
    requires JoinEnabled(s, c, j) && !Searching(j) && s.conns[c].task == Joining(j) && WithinLimit(s.limits, s.conns[c])
    ensures var t := EnterStep(s, c, j, ok); c < |t.conns| && WithinLimit(t.limits, t.conns[c]) && t.limits == s.limits
  {
    if j.JInsert? {
      With(s.conns[c].memberships, s.membs[j.m].name, j.m);
    } else if j.JUndo? {
      UndoWithinLimit(s, c, j.m);
    }
  }

  lemma UndoWithinLimit(s: State, c: nat, m: nat)
    requires Carries(s, c, m) && |s.conns[c].memberships| <= s.limits.perConn
    ensures var t := UndoStep(s, c, m); c < |t.conns| && WithinLimit(t.limits, t.conns[c]) && t.limits == s.limits
  {
    Without(s.conns[c].memberships, s.membs[m].name);
  }

  lemma ConnWithinLimit(s: State, c: nat, ok: bool, pick: nat)
    requires ConnEnabled(s, c, pick) && WithinLimit(s.limits, s.conns[c])
    ensures var t := ConnStep(s, c, ok, pick); c < |t.conns| && WithinLimit(t.limits, t.conns[c]) && t.limits == s.limits
  {
    match s.conns[c].task
    case Joining(j) =>
      if Searching(j) {
        SeekWithinLimit(s, c, j, ok);
      } else {
        EnterWithinLimit(s, c, j, ok);
      }
    case Parting(p) => if p != Over { PartWithinLimit(s, c, Owner, p, ok); }
    case Leaving(p, _) => if p != Over { PartWithinLimit(s, c, Owner, p, ok); }
    case _ =>
  }

  lemma ModWithinLimit(s: State, a: nat, ok: bool)
    requires ModEnabled(s, a) && WithinLimit(s.limits, s.conns[s.mods[a].target])
    ensures var t, c := ModStep(s, a, ok), s.mods[a].target;
      c < |t.conns| && WithinLimit(t.limits, t.conns[c]) && t.limits == s.limits
  {
    if s.mods[a].pc.MPart? && s.mods[a].pc.p != Over {
      PartWithinLimit(s, s.mods[a].target, Mod(a), s.mods[a].pc.p, ok);
    }
  }

  ghost predicate AllWithinLimit(s: State) {
    forall c | 0 <= c < |s.conns| :: WithinLimit(s.limits, s.conns[c])
  }

  lemma LimitsStay(s: State, step: Step)
    requires Enabled(s, step) && AllWithinLimit(s) && InRange(s)
    ensures Apply(s, step).limits == s.limits
  {
    match step
    case MoveConn(c, ok, pick) => ConnWithinLimit(s, c, ok, pick);
    case MoveMod(a, ok) => ModWithinLimit(s, a, ok);
    case _ =>
  }

  lemma StepWithinLimit(s: State, step: Step, c: nat)
    requires Core(s) && Enabled(s, step) && AllWithinLimit(s) && c < |Apply(s, step).conns|
    ensures WithinLimit(Apply(s, step).limits, Apply(s, step).conns[c])
  {
    LimitsStay(s, step);
    if c >= |s.conns| {
      NewIsEmpty(s, step, c);
    } else if Concerns(s, step, c) {
      match step
      case MoveConn(_, ok, pick) => ConnWithinLimit(s, c, ok, pick);
      case MoveMod(a, ok) => ModWithinLimit(s, a, ok);
      case _ =>
    } else {
      OthersCaught(s, step, c);
    }
  }

  lemma NewIsEmpty(s: State, step: Step, c: nat)
    requires Enabled(s, step) && |s.conns| <= c < |Apply(s, step).conns|
    ensures Apply(s, step).conns[c].memberships == map[] && Apply(s, step).conns[c].task == Idle
  {
    ConnsGrow(s, step, c);
  }

  lemma LimitNext(tr: seq<State>, k: nat)
    requires Run(tr) && 0 < k < |tr| && AllWithinLimit(tr[k - 1])
    ensures AllWithinLimit(tr[k]) && tr[k].limits == tr[k - 1].limits
  {
    var step := StepTo(tr, k);
    LimitsStay(tr[k - 1], step);
    forall c | 0 <= c < |tr[k].conns| ensures WithinLimit(tr[k].limits, tr[k].conns[c]) {
      StepWithinLimit(tr[k - 1], step, c);
    }
  }

  lemma {:induction false} RunLimit(tr: seq<State>, k: nat)
    requires Run(tr) && k < |tr|
    ensures AllWithinLimit(tr[k]) && tr[k].limits == tr[0].limits
  {
    if k > 0 {
      RunLimit(tr, k - 1);
      LimitNext(tr, k);
    }
  }

  /** No connection is ever in more channels than it may be, though the check and the
      storing are two critical sections. */
  lemma NobodyExceeds(tr: seq<State>, k: nat, c: nat)
    requires Run(tr) && k < |tr| && c < |tr[k].conns|
    ensures |tr[k].conns[c].memberships| <= tr[0].limits.perConn
  {
    RunLimit(tr, k);
  }

  // ------------------------------------------------------------ kept out

  /** `c`'s person is banned from everywhere, or from `n`, in every state of [i..k). */
  ghost predicate BannedAllAlong(tr: seq<State>, i: nat, k: nat, n: Name, key: Key)
    requires i <= k < |tr|
  {
    forall q | i <= q < k :: (GLOBAL, key) in tr[q].book.bans || (n, key) in tr[q].book.bans
  }

  /** While a ban stands, server-wide or of the channel, whoever is outside stays
      outside: not in, and not even past the first look. */
  lemma {:induction false} BannedStaysOut(tr: seq<State>, i: nat, k: nat, c: nat, n: Name)
    requires Run(tr) && i <= k < |tr| && c < |tr[i].conns|
    requires BannedAllAlong(tr, i, k, n, tr[i].conns[c].key) && !Within(tr[i], c, n)
    ensures c < |tr[k].conns| && tr[k].conns[c].key == tr[i].conns[c].key
    ensures !Within(tr[k], c, n) && n !in tr[k].conns[c].memberships
  {
    if i < k {
      BannedStaysOut(tr, i, k - 1, c, n);
      var step := StepTo(tr, k);
      WithinFrom(tr[k - 1], step, c, n);
      MembershipLife.StepEvolves(tr[k - 1], step);
    }
  }

  lemma EntryKept(s: State, step: Step, e: (Name, Key))
    requires Enabled(s, step)
    ensures Apply(s, step).book.lifts[e] >= s.book.lifts[e]
    ensures e in s.book.bans && Apply(s, step).book.lifts[e] == s.book.lifts[e] ==> e in Apply(s, step).book.bans
  {
    match step
    case MoveConn(c, ok, pick) => ConnKeepsBook(s, c, ok, pick);
    case MoveMod(a, ok) => ModKeepsBook(s, a, ok, a);
    case _ =>
  }

  lemma EntryNext(tr: seq<State>, k: nat, e: (Name, Key))
    requires Run(tr) && 0 < k < |tr|
    ensures tr[k].book.lifts[e] >= tr[k - 1].book.lifts[e]
    ensures e in tr[k - 1].book.bans && tr[k].book.lifts[e] == tr[k - 1].book.lifts[e] ==> e in tr[k].book.bans
  {
    var step := StepTo(tr, k);
    EntryKept(tr[k - 1], step, e);
  }

  lemma {:induction false} LiftsGrow(tr: seq<State>, i: nat, k: nat, e: (Name, Key))
    requires Run(tr) && i <= k < |tr|
    ensures tr[k].book.lifts[e] >= tr[i].book.lifts[e]
  {
    if i < k {
      LiftsGrow(tr, i, k - 1, e);
      EntryNext(tr, k, e);
    }
  }

  /** A ban stands until it is lifted. */
  lemma {:induction false} StandsUntilLifted(tr: seq<State>, i: nat, k: nat, e: (Name, Key))
    requires Run(tr) && i <= k < |tr| && e in tr[i].book.bans && tr[k].book.lifts[e] == tr[i].book.lifts[e]
    ensures forall q | i <= q <= k :: e in tr[q].book.bans
  {
    if i < k {
      LiftsGrow(tr, i, k - 1, e);
      EntryNext(tr, k, e);
      StandsUntilLifted(tr, i, k - 1, e);
    }
  }

  /** And nobody is banned but by a ban of theirs, in that scope. */
  lemma BansAreStored(s: State, step: Step, e: (Name, Key))
    requires Enabled(s, step) && e in Apply(s, step).book.bans && e !in s.book.bans
    ensures step == Store(e.0, e.1)
            || (step.MoveMod? && s.mods[step.a].pc == MStore && s.mods[step.a].name == e.0
                && s.conns[s.mods[step.a].target].key == e.1)
  {
    match step
    case MoveConn(c, ok, pick) => ConnKeepsBook(s, c, ok, pick);
    case MoveMod(a, ok) =>
      if s.mods[a].pc.MPart? && s.mods[a].pc.p != Over {
        PartKeepsBook(s, s.mods[a].target, Mod(a), s.mods[a].pc.p, ok);
      }
    case _ =>
  }

  /** So from when a ban is stored, of the channel or server-wide, until it is lifted,
      its person gets in by no connection that is outside as it is stored. */
  lemma StoredKeepsOut(tr: seq<State>, i: nat, k: nat, c: nat, n: Name, scope: Name)
    requires Run(tr) && i < k < |tr| && c < |tr[i + 1].conns| && (scope == n || scope == GLOBAL)
    requires var key := tr[i + 1].conns[c].key;
      tr[i + 1] == Apply(tr[i], Store(scope, key)) && tr[k].book.lifts[(scope, key)] == tr[i].book.lifts[(scope, key)]
    requires !Within(tr[i + 1], c, n)
    ensures c < |tr[k].conns| && n !in tr[k].conns[c].memberships
  {
    StandsUntilLifted(tr, i + 1, k, (scope, tr[i + 1].conns[c].key));
    BannedStaysOut(tr, i + 1, k, c, n);
  }

  /** Why a join that has no channel yet may end, and no other reason. */
  predicate Refused(s: State, c: nat, j: JoinPc, ok: bool)
    requires c < |s.conns|
  {
    var x := s.conns[c];
    || (j.JCheck? && (j.name in x.memberships || |x.memberships| >= s.limits.perConn))
    || (j.JBan1? && ((j.name, x.key) in s.book.bans || (GLOBAL, x.key) in s.book.bans))
    || (j.JHook? && !ok)
    || (j.JMake? && j.name !in s.hub.registry && |s.hub.registry| >= s.limits.channels)
  }

  lemma SeekRefused(s: State, c: nat, j: JoinPc, ok: bool)
    requires JoinEnabled(s, c, j) && Searching(j)
    ensures var t := SeekStep(s, c, j, ok);
      && c < |t.conns| && (t.conns[c].task == Idle <==> Refused(s, c, j, ok))
      && !(t.conns[c].task.Joining? && t.conns[c].task.j.JUndo?)
  {
  }

  lemma EnterUndone(s: State, c: nat, j: JoinPc, ok: bool)
    requires JoinEnabled(s, c, j) && !Searching(j)
    ensures var t := EnterStep(s, c, j, ok);
      && c < |t.conns| && (t.conns[c].task == Idle <==> j.JPump? || j.JUndoDone?)
      && (t.conns[c].task.Joining? && t.conns[c].task.j.JUndo? ==>
            j.JBan2? && ((s.membs[j.m].name, s.conns[c].key) in s.book.bans || (GLOBAL, s.conns[c].key) in s.book.bans))
  {
  }

  /** A join that ends got in, or was undone, for a ban that came meanwhile, or was
      turned away: as at its limit or in already, banned, refused by the hook, or with
      no channel there and no place for one. */
  lemma TurnedAwayFor(s: State, c: nat, ok: bool, pick: nat)
    requires ConnEnabled(s, c, pick) && s.conns[c].task.Joining?
    ensures var x, j, t := s.conns[c], s.conns[c].task.j, ConnStep(s, c, ok, pick);
      && c < |t.conns|
      && (t.conns[c].task == Idle <==> j.JPump? || j.JUndoDone? || Refused(s, c, j, ok))
      && (t.conns[c].task.Joining? && t.conns[c].task.j.JUndo? ==>
            j.JBan2? && ((s.membs[j.m].name, x.key) in s.book.bans || (GLOBAL, x.key) in s.book.bans))
  {
    var j := s.conns[c].task.j;
    if Searching(j) {
      SeekRefused(s, c, j, ok);
    } else {
      EnterUndone(s, c, j, ok);
    }
  }

  /** A hook's refusal ends a join with nothing changed. */
  lemma RefusedStaysOut(s: State, c: nat, n: Name, pick: nat)
    requires c < |s.conns| && s.conns[c].task == Joining(JHook(n))
    ensures Enabled(s, MoveConn(c, false, pick))
    ensures Apply(s, MoveConn(c, false, pick)) == SetTask(s, c, Idle)
  {
  }

  // ------------------------------------------------------------ channels

  /** Sweeping an empty channel closes its rings and frees its place: whoever comes
      next under that name makes a new one, and no other channel changes. */
  lemma SweepFrees(s: State, name: Name)
    requires DoorsOk(s) && Enabled(s, SweepOne(name))
    ensures var t, ch := Apply(s, SweepOne(name)), s.hub.registry[name];
      && name !in t.hub.registry && |t.hub.registry| == |s.hub.registry| - 1 < s.limits.channels
      && !t.hub.chans[ch].open && t.hub.chans[ch].members == map[]
      && (forall n | n != name :: n in t.hub.registry <==> n in s.hub.registry)
      && (forall n | n in t.hub.registry :: t.hub.registry[n] == s.hub.registry[n])
      && |t.hub.chans| == |s.hub.chans| && (forall h | 0 <= h < |s.hub.chans| && h != ch :: t.hub.chans[h] == s.hub.chans[h])
      && t.conns == s.conns && t.membs == s.membs
  {
    var t := Apply(s, SweepOne(name));
    assert s.hub.registry.Keys == t.hub.registry.Keys + {name};
  }

  /** Shutting down closes every channel that can still be found. */
  lemma ShutCloses(s: State, name: Name)
    requires DoorsOk(s) && name in s.hub.registry
    ensures var t := Apply(s, CloseAll);
      && t.hub.shut && t.hub.registry == s.hub.registry && s.hub.registry[name] < |t.hub.chans|
      && !t.hub.chans[s.hub.registry[name]].open
  {
  }
}
