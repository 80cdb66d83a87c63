/** What a join, a part and a ban come to when nobody else moves. */
module MembershipAlone {
  import opened Fanout
  import opened Membership
  import opened MembershipInv

  // ------------------------------------------------------------ one goroutine

  /** `step`, taken as often as it can be and at most `n` times. */
  ghost function Repeat(s: State, step: Step, n: nat): State
    decreases n
  {
    if n > 0 && Enabled(s, step) then Repeat(Apply(s, step), step, n - 1) else s
  }

  ghost predicate Comes(s: State, step: Step, t: State) {
    exists n: nat :: Repeat(s, step, n) == t
  }

  lemma Here(s: State, step: Step)
    ensures Comes(s, step, s)
  {
    assert Repeat(s, step, 0) == s;
  }

  lemma OneStep(s: State, step: Step, t: State)
    requires Enabled(s, step) && Comes(Apply(s, step), step, t)
    ensures Comes(s, step, t)
  {
    var n: nat :| Repeat(Apply(s, step), step, n) == t;
    assert Repeat(s, step, n + 1) == t;
  }

  lemma {:induction false} RepeatMore(s: State, step: Step, n: nat, m: nat) returns (k: nat)
    ensures Repeat(s, step, k) == Repeat(Repeat(s, step, n), step, m)
    decreases n
  {
    if n > 0 && Enabled(s, step) {
      k := RepeatMore(Apply(s, step), step, n - 1, m);
      k := k + 1;
    } else {
      k := m;
    }
  }

  lemma Both(s: State, step: Step, t: State, u: State)
    requires Comes(s, step, t) && Comes(t, step, u)
    ensures Comes(s, step, u)
  {
    var n: nat :| Repeat(s, step, n) == t;
    var m: nat :| Repeat(t, step, m) == u;
    var k := RepeatMore(s, step, n, m);
  }

  lemma Twice(s: State, step: Step, t: State)
    requires Enabled(s, step) && Enabled(Apply(s, step), step) && t == Apply(Apply(s, step), step)
    ensures Comes(s, step, t)
  {
    Here(t, step);
    OneStep(Apply(s, step), step, t);
    OneStep(s, step, t);
  }

  lemma Once(s: State, step: Step, t: State)
    requires Enabled(s, step) && t == Apply(s, step)
    ensures Comes(s, step, t)
  {
    Here(t, step);
    OneStep(s, step, t);
  }

  /** Connection `c`'s own goroutine, all going well. */
  function Own(c: nat): Step {
    MoveConn(c, true, 0)
  }

  // ------------------------------------------------------------ joining

  /** Below both limits, and not banned. */
  predicate Admissible(s: State, c: nat, n: Name) {
    && c < |s.conns| && n !in s.conns[c].memberships && |s.conns[c].memberships| < s.limits.perConn
    && Unbanned(s, c, n) && (n in s.hub.registry || |s.hub.registry| < s.limits.channels)
  }

  predicate Unbanned(s: State, c: nat, n: Name)
    requires c < |s.conns|
  {
    (n, s.conns[c].key) !in s.book.bans && (GLOBAL, s.conns[c].key) !in s.book.bans
  }

  lemma JoinLooks(s: State, c: nat, n: Name)
    requires Admissible(s, c, n) && s.conns[c].task == Joining(JCheck(n))
    ensures Comes(s, Own(c), SetTask(s, c, Joining(JFind(n))))
  {
    Twice(s, Own(c), SetTask(s, c, Joining(JHook(n))));
    Once(SetTask(s, c, Joining(JHook(n))), Own(c), SetTask(s, c, Joining(JFind(n))));
    Both(s, Own(c), SetTask(s, c, Joining(JHook(n))), SetTask(s, c, Joining(JFind(n))));
  }

  /** The channel under that name: the one there is, or one made anew. */
  predicate HasChannel(s: State, t: State, c: nat, n: Name, h: nat) {
    && c < |s.conns| && t.conns == s.conns[c := s.conns[c].(task := Joining(JSub(n, h)))]
    && t.membs == s.membs && t.book == s.book && h < |t.hub.chans| && n in t.hub.registry && t.hub.registry[n] == h
    && var x, nick := t.hub.chans[h], s.conns[c].nick;
    && x.name == n && nick in x.members && x.members[nick] == c
    && if n in s.hub.registry then
         h == s.hub.registry[n] < |s.hub.chans| && x.open == s.hub.chans[h].open && x.ring == s.hub.chans[h].ring
       else h == |s.hub.chans| && x.open && x.ring == []
  }

  lemma JoinFinds(s: State, c: nat, n: Name) returns (t: State, h: nat)
    requires Admissible(s, c, n) && RegistryOk(s) && s.conns[c].task == Joining(JFind(n))
    ensures Comes(s, Own(c), t) && HasChannel(s, t, c, n, h)
  {
    t := Apply(s, Own(c));
    if n in s.hub.registry {
      h := s.hub.registry[n];
      Once(s, Own(c), t);
    } else {
      h := |s.hub.chans|;
      t := Apply(t, Own(c));
      Twice(s, Own(c), t);
    }
  }

  lemma JoinGetsChannel(s: State, c: nat, n: Name) returns (found: State, h: nat)
    requires Admissible(s, c, n) && RegistryOk(s) && s.conns[c].task == Idle
    ensures HasChannel(s, found, c, n, h) && Comes(Apply(s, StartJoin(c, n)), Own(c), found)
  {
    var begun := Apply(s, StartJoin(c, n));
    var looking := SetTask(s, c, Joining(JFind(n)));
    JoinLooks(begun, c, n);
    assert SetTask(begun, c, Joining(JFind(n))) == looking;
    found, h := JoinFinds(looking, c, n);
    Both(begun, Own(c), looking, found);
  }

  /** Subscribed and stored. */
  function Stored(s: State, c: nat, n: Name, h: nat): State
    requires c < |s.conns| && h < |s.hub.chans|
  {
    var m, q := |s.membs|, |s.hub.chans[h].ring|;
    s.(conns := s.conns[c := s.conns[c].(memberships := s.conns[c].memberships[n := m], task := Joining(JBacklog(m)))],
       membs := s.membs + [Memb(c, h, n, false, 0, Unstarted, q, q, Untaken, 0, false, false)])
  }

  lemma JoinStores(s: State, c: nat, n: Name, h: nat)
    requires c < |s.conns| && s.conns[c].task == Joining(JSub(n, h)) && h < |s.hub.chans| && Unbanned(s, c, n)
    ensures Comes(s, Own(c), Stored(s, c, n, h))
  {
    var t := Apply(s, Own(c));
    Once(s, Own(c), t);
    JoinInserts(s, t, c, n, h);
    Both(s, Own(c), t, Stored(s, c, n, h));
  }

  lemma JoinInserts(s: State, t: State, c: nat, n: Name, h: nat)
    requires c < |s.conns| && s.conns[c].task == Joining(JSub(n, h)) && h < |s.hub.chans| && Unbanned(s, c, n)
    requires t == SubscribeStep(s, c, n, h)
    ensures Comes(t, Own(c), Stored(s, c, n, h))
  {
    Twice(t, Own(c), Stored(s, c, n, h));
  }

  /** Announced, and its pump running. */
  function Announced(s: State, c: nat, m: nat): State
    requires Carries(s, c, m)
  {
    var h := s.membs[m].chan;
    var x := s.hub.chans[h];
    s.(conns := s.conns[c := s.conns[c].(task := Idle, sent := s.conns[c].sent + [Direct(Backlog(m))])],
       membs := s.membs[m := s.membs[m].(joinSent := true, pump := Running)],
       hub := if x.open then s.hub.(chans := s.hub.chans[h := x.(ring := x.ring + [Joined(m)])]) else s.hub)
  }

  lemma JoinAnnounces(s: State, c: nat, m: nat)
    requires Carries(s, c, m) && s.conns[c].task == Joining(JBacklog(m))
    ensures Comes(s, Own(c), Announced(s, c, m))
  {
    var t := Apply(s, Own(c));
    Once(s, Own(c), t);
    JoinPumps(s, t, c, m);
    Both(s, Own(c), t, Announced(s, c, m));
  }

  lemma JoinPumps(s: State, t: State, c: nat, m: nat)
    requires Carries(s, c, m) && s.conns[c].task == Joining(JBacklog(m))
    requires t == SetTask(Tells(s, c, Direct(Backlog(m))), c, Joining(JAnnounce(m)))
    ensures Comes(t, Own(c), Announced(s, c, m))
  {
    Twice(t, Own(c), Announced(s, c, m));
  }

  /** Below both limits, not banned, and with a hook that allows it, a join gets in:
      on the list of the channel registered under that name, subscribed, stored, given
      the backlog, its JOIN in the ring if that is open, its pump running. */
  lemma JoinGetsIn(s: State, c: nat, n: Name) returns (found: State, h: nat)
    requires Admissible(s, c, n) && RegistryOk(s) && s.conns[c].task == Idle
    ensures Enabled(s, StartJoin(c, n)) && HasChannel(s, found, c, n, h)
    ensures Comes(Apply(s, StartJoin(c, n)), Own(c), Announced(Stored(found, c, n, h), c, |s.membs|))
  {
    var begun := Apply(s, StartJoin(c, n));
    found, h := JoinGetsChannel(s, c, n);
    JoinStores(found, c, n, h);
    Both(begun, Own(c), found, Stored(found, c, n, h));
    JoinAnnounces(Stored(found, c, n, h), c, |s.membs|);
    Both(begun, Own(c), Stored(found, c, n, h), Announced(Stored(found, c, n, h), c, |s.membs|));
  }

  /** At its limit, in already, or banned, it does not begin to look for a channel. */
  lemma JoinKeptOut(s: State, c: nat, n: Name)
    requires c < |s.conns| && s.conns[c].task == Idle
    requires n in s.conns[c].memberships || |s.conns[c].memberships| >= s.limits.perConn || !Unbanned(s, c, n)
    ensures Comes(Apply(s, StartJoin(c, n)), Own(c), s)
  {
    var begun := Apply(s, StartJoin(c, n));
    if n in s.conns[c].memberships || |s.conns[c].memberships| >= s.limits.perConn {
      Once(begun, Own(c), s);
    } else {
      Twice(begun, Own(c), s);
    }
  }

  // ------------------------------------------------------------ parting

  /** Out of the map, off the list, told, its subscription closed. */
  function Out(s: State, c: nat, m: nat): State
    requires Carries(s, c, m)
  {
    var x, y := s.conns[c], s.membs[m];
    RemoveMember(
      s.(conns := s.conns[c := x.(memberships := x.memberships - {y.name}, task := Parting(Wait(m)),
                                  sent := x.sent + [Direct(Frame.Parted(m))])],
         membs := s.membs[m := y.(custody := TakenBy(Owner), takes := y.takes + 1, subClosed := true)]),
      y.chan, c, Owner)
  }

  lemma PartTakes(s: State, c: nat, m: nat)
    requires Carries(s, c, m) && InMap(s, c, m) && s.conns[c].task == Parting(Take(s.membs[m].name))
    ensures Comes(s, Own(c), SetTask(Tells(TakeOut(s, m, Owner), c, Direct(Frame.Parted(m))), c, Parting(Remove(m))))
  {
    Twice(s, Own(c), SetTask(Tells(TakeOut(s, m, Owner), c, Direct(Frame.Parted(m))), c, Parting(Remove(m))));
  }

  lemma PartCloses(s: State, t: State, c: nat, m: nat)
    requires Carries(s, c, m) && InMap(s, c, m)
    requires t == SetTask(Tells(TakeOut(s, m, Owner), c, Direct(Frame.Parted(m))), c, Parting(Remove(m)))
    ensures Comes(t, Own(c), Out(s, c, m))
  {
    var u := SetTask(RemoveMember(t, t.membs[m].chan, c, Owner), c, Parting(Close(m)));
    Once(t, Own(c), u);
    PartShuts(s, t, u, c, m);
    Both(t, Own(c), u, Out(s, c, m));
  }

  lemma PartShuts(s: State, t: State, u: State, c: nat, m: nat)
    requires Carries(s, c, m) && InMap(s, c, m)
    requires t == SetTask(Tells(TakeOut(s, m, Owner), c, Direct(Frame.Parted(m))), c, Parting(Remove(m)))
    requires u == SetTask(RemoveMember(t, t.membs[m].chan, c, Owner), c, Parting(Close(m)))
    ensures Comes(u, Own(c), Out(s, c, m))
  {
    Once(u, Own(c), Out(s, c, m));
  }

  /** `c` is not listed under its nick any more, and nobody else is affected. */
  ghost predicate ListLoses(was: map<Nick, nat>, left: map<Nick, nat>, nick: Nick, c: nat) {
    && (nick in left ==> left[nick] != c) && (nick in was && was[nick] != c ==> nick in left)
    && (forall k | k != nick :: k in left <==> k in was) && (forall k | k in left :: k in was && left[k] == was[k])
  }

  /** A part, left alone, waits for nothing but the pump. */
  lemma PartGetsOut(s: State, c: nat, m: nat)
    requires Carries(s, c, m) && InMap(s, c, m) && s.conns[c].task == Idle
    ensures Comes(Apply(s, StartPart(c, s.membs[m].name)), Own(c), Out(s, c, m))
    ensures ListLoses(s.hub.chans[s.membs[m].chan].members, Out(s, c, m).hub.chans[s.membs[m].chan].members, s.conns[c].nick, c)
  {
    var begun := Apply(s, StartPart(c, s.membs[m].name));
    var told := SetTask(Tells(TakeOut(begun, m, Owner), c, Direct(Frame.Parted(m))), c, Parting(Remove(m)));
    PartTakes(begun, c, m);
    PartCloses(begun, told, c, m);
    Both(begun, Own(c), told, Out(begun, c, m));
    assert Out(begun, c, m) == Out(s, c, m);
  }

  /** Once the pump has stopped, its PART goes to the ring, if that is open. */
  function Parted(s: State, c: nat, m: nat): State
    requires Carries(s, c, m)
  {
    var h := s.membs[m].chan;
    var x := s.hub.chans[h];
    s.(conns := s.conns[c := s.conns[c].(task := Idle)],
       membs := s.membs[m := s.membs[m].(custody := Released, partSent := true)],
       hub := if x.open then s.hub.(chans := s.hub.chans[h := x.(ring := x.ring + [Frame.Parted(m)])]) else s.hub)
  }

  lemma PartAnnounces(s: State, c: nat, m: nat)
    requires Carries(s, c, m) && s.conns[c].task == Parting(Wait(m)) && s.membs[m].dones > 0
    ensures Comes(s, Own(c), Parted(s, c, m))
  {
    var t := SetTask(s, c, Parting(Announce(m)));
    Once(s, Own(c), t);
    PartEnds(s, t, c, m);
    Both(s, Own(c), t, Parted(s, c, m));
  }

  lemma PartEnds(s: State, t: State, c: nat, m: nat)
    requires Carries(s, c, m) && t == SetTask(s, c, Parting(Announce(m)))
    ensures Comes(t, Own(c), Parted(s, c, m))
  {
    Twice(t, Own(c), Parted(s, c, m));
  }

  // ------------------------------------------------------------ banning

  /** Moderator `a`'s goroutine, all going well. */
  function Acts(a: nat): Step {
    MoveMod(a, true)
  }

  /** The ban stored, its target out of the map, off the list and told, the
      subscription closed. */
  function Removed(s: State, a: nat, m: nat): State
    requires a < |s.mods| && Carries(s, s.mods[a].target, m)
  {
    var b, y := s.mods[a], s.membs[m];
    var x := s.conns[b.target];
    RemoveMember(
      s.(conns := s.conns[b.target := x.(memberships := x.memberships - {y.name}, sent := x.sent + [Direct(Frame.Parted(m))])],
         membs := s.membs[m := y.(custody := TakenBy(Mod(a)), takes := y.takes + 1, subClosed := true)],
         book := s.book.(bans := s.book.bans + {(b.name, x.key)}),
         mods := s.mods[a := b.(pc := MPart(Wait(m)), took := Some(m), lifts0 := s.book.lifts[(b.name, x.key)])]),
      y.chan, b.target, Mod(a))
  }

  predicate BanAt(s: State, a: nat, m: nat) {
    && a < |s.mods| && Carries(s, s.mods[a].target, m) && InMap(s, s.mods[a].target, m)
    && s.mods[a].name == s.membs[m].name
  }

  lemma BanStores(s: State, a: nat, m: nat) returns (t: State)
    requires BanAt(s, a, m) && s.mods[a].pc == MStore
    ensures Comes(s, Acts(a), t) && BanAt(t, a, m)
    ensures var entry := (s.mods[a].name, s.conns[s.mods[a].target].key);
      t == s.(book := s.book.(bans := s.book.bans + {entry}),
              mods := s.mods[a := s.mods[a].(pc := MPart(Take(s.membs[m].name)), lifts0 := s.book.lifts[entry])])
  {
    t := Apply(s, Acts(a));
    Once(s, Acts(a), t);
  }

  lemma BanTakes(s: State, a: nat, m: nat) returns (t: State)
    requires BanAt(s, a, m) && s.mods[a].pc == MPart(Take(s.membs[m].name))
    ensures Comes(s, Acts(a), t)
    ensures t == Tells(TakeOut(s, m, Mod(a)), s.mods[a].target, Direct(Frame.Parted(m)))
                 .(mods := s.mods[a := s.mods[a].(pc := MPart(Remove(m)), took := Some(m))])
  {
    var u := Apply(s, Acts(a));
    t := Apply(u, Acts(a));
    Twice(s, Acts(a), t);
  }

  lemma BanRemoves(s: State, a: nat, m: nat) returns (t: State)
    requires a < |s.mods| && Carries(s, s.mods[a].target, m) && s.mods[a].pc == MPart(Remove(m))
    ensures Comes(s, Acts(a), t)
    ensures t == SetMemb(RemoveMember(s, s.membs[m].chan, s.mods[a].target, Mod(a)), m, s.membs[m].(subClosed := true))
                 .(mods := s.mods[a := s.mods[a].(pc := MPart(Wait(m)))])
  {
    var u := Apply(s, Acts(a));
    t := Apply(u, Acts(a));
    Twice(s, Acts(a), t);
  }

  /** A ban, left alone, gets its target out as far as waiting for the pump. */
  lemma BanGetsOut(s: State, a: nat, m: nat)
    requires BanAt(s, a, m) && s.mods[a].pc == MStore
    ensures Comes(s, Acts(a), Removed(s, a, m))
    ensures var c, h := s.mods[a].target, s.membs[m].chan;
      ListLoses(s.hub.chans[h].members, Removed(s, a, m).hub.chans[h].members, s.conns[c].nick, c)
  {
    var t := BanStores(s, a, m);
    var u := BanTakes(t, a, m);
    Both(s, Acts(a), t, u);
    var v := BanRemoves(u, a, m);
    Both(s, Acts(a), u, v);
    assert v == Removed(s, a, m);
  }

  /** The PART in the membership's ring, if that is open, once the pump has stopped. */
  function BanParted(s: State, a: nat, m: nat): State
    requires a < |s.mods| && Carries(s, s.mods[a].target, m)
  {
    var h := s.membs[m].chan;
    var x := s.hub.chans[h];
    s.(membs := s.membs[m := s.membs[m].(custody := Released, partSent := true)],
       mods := s.mods[a := s.mods[a].(pc := MPart(Over))],
       hub := if x.open then s.hub.(chans := s.hub.chans[h := x.(ring := x.ring + [Frame.Parted(m)])]) else s.hub)
  }

  lemma BanParts(s: State, a: nat, m: nat)
    requires a < |s.mods| && Carries(s, s.mods[a].target, m) && s.mods[a].pc == MPart(Wait(m)) && s.membs[m].dones > 0
    ensures Comes(s, Acts(a), BanParted(s, a, m))
  {
    Twice(s, Acts(a), BanParted(s, a, m));
  }

  /** The MOD in the ring of the channel there is under that name, if that is open,
      and told to the target, in a channel or not. */
  function BanTold(s: State, a: nat): State
    requires a < |s.mods| && s.mods[a].target < |s.conns| && RegistryOk(s)
  {
    var b := s.mods[a];
    var x, found := s.conns[b.target], b.name in s.hub.registry;
    s.(conns := s.conns[b.target := x.(sent := x.sent + [Direct(Moderated(a))])],
       mods := s.mods[a := b.(pc := MDone, announced := found || b.announced)],
       hub := if found && s.hub.chans[s.hub.registry[b.name]].open then
                var h := s.hub.registry[b.name];
                s.hub.(chans := s.hub.chans[h := s.hub.chans[h].(ring := s.hub.chans[h].ring + [Moderated(a)])])
              else s.hub)
  }

  /** And, its part over, everybody in the channel and the target hear of it. */
  lemma BanIsTold(s: State, a: nat)
    requires a < |s.mods| && s.mods[a].target < |s.conns| && RegistryOk(s) && s.mods[a].pc == MPart(Over)
    ensures Comes(s, Acts(a), BanTold(s, a))
  {
    var t := SetMod(s, a, s.mods[a].(pc := MAnnounce));
    Once(s, Acts(a), t);
    if s.mods[a].name in s.hub.registry {
      SayIsTold(s, t, a);
    } else {
      Twice(t, Acts(a), BanTold(s, a));
    }
    Both(s, Acts(a), t, BanTold(s, a));
  }

  lemma SayIsTold(s: State, t: State, a: nat)
    requires a < |s.mods| && s.mods[a].target < |s.conns| && RegistryOk(s) && s.mods[a].name in s.hub.registry
    requires t == SetMod(s, a, s.mods[a].(pc := MAnnounce))
    ensures Comes(t, Acts(a), BanTold(s, a))
  {
    var u := SetMod(s, a, s.mods[a].(pc := MSay(s.hub.registry[s.mods[a].name])));
    Once(t, Acts(a), u);
    Twice(u, Acts(a), BanTold(s, a));
    Both(t, Acts(a), u, BanTold(s, a));
  }

  /** Of somebody who is not in, it stores the ban and goes on to telling. */
  lemma BanOfOutsider(s: State, a: nat)
    requires a < |s.mods| && s.mods[a].target < |s.conns| && s.mods[a].pc == MStore
    requires s.mods[a].name !in s.conns[s.mods[a].target].memberships
    ensures var entry := (s.mods[a].name, s.conns[s.mods[a].target].key);
      Comes(s, Acts(a), s.(book := s.book.(bans := s.book.bans + {entry}),
                          mods := s.mods[a := s.mods[a].(pc := MPart(Over), lifts0 := s.book.lifts[entry])]))
  {
    Twice(s, Acts(a), Apply(Apply(s, Acts(a)), Acts(a)));
  }
}
