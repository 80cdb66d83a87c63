/** What the record of mishaps is of: the very steps at which a nick came to be
    shared, and at which a ban was lifted under a part of its own. */
module MembershipMishaps {
  import opened Membership
  import opened MembershipSteps
  import opened MembershipBans
  import opened MembershipClean
  import opened MembershipSweep

  /** Somebody connects under the nick of a connection that is not gone. */
  ghost predicate Joins(s: State, t: State, nick: Nick) {
    && |t.conns| == |s.conns| + 1 && t.conns[|s.conns|].nick == nick
    && exists c :: 0 <= c < |s.conns| && s.conns[c].nick == nick && s.conns[c].task != Gone
  }

  /** A ban of `key` from `name` is lifted while one of its parts has yet to take the
      target off the list; and while one is under way at all. */
  ghost predicate LiftsEarly(s: State, t: State, name: Name, key: Key) {
    && t.book.lifts[(name, key)] > s.book.lifts[(name, key)]
    && exists a :: 0 <= a < |s.mods| && OfBan(s, a, name, key) && s.mods[a].pc.MPart?
                   && (s.mods[a].pc.p.Take? || s.mods[a].pc.p.Tell? || s.mods[a].pc.p.Remove?)
  }

  ghost predicate LiftsHastily(s: State, t: State, name: Name, key: Key) {
    && t.book.lifts[(name, key)] > s.book.lifts[(name, key)]
    && exists a :: 0 <= a < |s.mods| && OfBan(s, a, name, key) && s.mods[a].pc.MPart? && s.mods[a].pc.p != Over
  }

  predicate OfBan(s: State, a: nat, name: Name, key: Key)
    requires a < |s.mods|
  {
    s.mods[a].name == name && s.mods[a].target < |s.conns| && s.conns[s.mods[a].target].key == key
  }

  // ------------------------------------------------------------ one step

  lemma QuietStep(s: State, step: Step)
    requires Enabled(s, step) && !step.Connect? && !step.Lift?
    ensures Apply(s, step).mishaps == s.mishaps && Apply(s, step).book.lifts == s.book.lifts
  {
    match step
    case MoveConn(c, ok, pick) => ConnKeepsBook(s, c, ok, pick);
    case MoveMod(a, ok) =>
      if s.mods[a].pc.MPart? && s.mods[a].pc.p != Over {
        PartKeepsBook(s, s.mods[a].target, Mod(a), s.mods[a].pc.p, ok);
      }
    case _ =>
  }

  lemma StepCollides(s: State, step: Step, nick: Nick)
    requires Enabled(s, step)
    ensures var t := Apply(s, step); nick in t.mishaps.collided <==> nick in s.mishaps.collided || Joins(s, t, nick)
  {
    var t := Apply(s, step);
    if step.Connect? || step.Lift? {
    } else {
      QuietStep(s, step);
      if |t.conns| > |s.conns| {
        ConnsGrow(s, step, |s.conns|);
      }
    }
  }

  lemma StepLifts(s: State, step: Step, name: Name, key: Key)
    requires Enabled(s, step)
    ensures var t := Apply(s, step);
      && ((name, key) in t.mishaps.liftedMidPart <==> (name, key) in s.mishaps.liftedMidPart || LiftsEarly(s, t, name, key))
      && ((name, key) in t.mishaps.hasty <==> (name, key) in s.mishaps.hasty || LiftsHastily(s, t, name, key))
  {
    if !step.Connect? && !step.Lift? {
      QuietStep(s, step);
    } else if step == Lift(name, key) {
      LiftsOne(s, name, key);
    }
  }

  lemma LiftsOne(s: State, name: Name, key: Key)
    ensures var t := Apply(s, Lift(name, key));
      && (MidPart(s, name, key) <==> LiftsEarly(s, t, name, key))
      && (UnderWay(s, name, key) <==> LiftsHastily(s, t, name, key))
  {
    var t := Apply(s, Lift(name, key));
    if MidPart(s, name, key) {
      var a :| 0 <= a < |s.mods| && BeforeRemoval(s.mods[a]) && s.mods[a].name == name
               && s.mods[a].target < |s.conns| && s.conns[s.mods[a].target].key == key;
      assert OfBan(s, a, name, key);
    }
    if UnderWay(s, name, key) {
      var a :| 0 <= a < |s.mods| && s.mods[a].pc.MPart? && s.mods[a].pc.p != Over && s.mods[a].name == name
               && s.mods[a].target < |s.conns| && s.conns[s.mods[a].target].key == key;
      assert OfBan(s, a, name, key);
    }
  }

  // ------------------------------------------------------------ all runs

  ghost predicate JoinsAt(tr: seq<State>, j: nat, nick: Nick) {
    j + 1 < |tr| && Joins(tr[j], tr[j + 1], nick)
  }

  ghost predicate LiftsEarlyAt(tr: seq<State>, j: nat, name: Name, key: Key) {
    j + 1 < |tr| && LiftsEarly(tr[j], tr[j + 1], name, key)
  }

  ghost predicate LiftsHastilyAt(tr: seq<State>, j: nat, name: Name, key: Key) {
    j + 1 < |tr| && LiftsHastily(tr[j], tr[j + 1], name, key)
  }

  /** A nick is recorded as shared exactly if somebody once connected under it while
      another connection of that nick was not gone. */
  lemma {:induction false} CollidedIff(tr: seq<State>, k: nat, nick: Nick)
    requires Run(tr) && k < |tr|
    ensures nick in tr[k].mishaps.collided <==> exists j: nat :: j < k && JoinsAt(tr, j, nick)
  {
    if k > 0 {
      CollidedIff(tr, k - 1, nick);
      var step := StepTo(tr, k);
      StepCollides(tr[k - 1], step, nick);
      assert JoinsAt(tr, k - 1, nick) <==> Joins(tr[k - 1], tr[k], nick);
    }
  }

  /** And a ban as lifted mid-part, or in haste, exactly if it once was. */
  lemma {:induction false} LiftedIff(tr: seq<State>, k: nat, name: Name, key: Key)
    requires Run(tr) && k < |tr|
    ensures (name, key) in tr[k].mishaps.liftedMidPart <==> exists j: nat :: j < k && LiftsEarlyAt(tr, j, name, key)
    ensures (name, key) in tr[k].mishaps.hasty <==> exists j: nat :: j < k && LiftsHastilyAt(tr, j, name, key)
  {
    if k > 0 {
      LiftedIff(tr, k - 1, name, key);
      var step := StepTo(tr, k);
      StepLifts(tr[k - 1], step, name, key);
      assert LiftsEarlyAt(tr, k - 1, name, key) <==> LiftsEarly(tr[k - 1], tr[k], name, key);
      assert LiftsHastilyAt(tr, k - 1, name, key) <==> LiftsHastily(tr[k - 1], tr[k], name, key);
    }
  }
}
