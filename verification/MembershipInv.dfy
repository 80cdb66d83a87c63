/** The life of a membership, whoever ends it: the inductive invariant tying the
    maps, the memberships and every goroutine's place together. */
module MembershipInv {
  import opened Fanout
  import opened Membership

  // ------------------------------------------------------------ statements

  /** The connection's own goroutine is taking `m` down. */
  predicate OwnerHolds(t: Task, m: nat) {
    match t
    case Parting(p) => Holds(p, m)
    case Leaving(p, todo) => Holds(p, m) || m in todo
    case Joining(j) => (j.JUndoRemove? || j.JUndoClose? || j.JUndoDone?) && j.m == m
    case _ => false
  }

  predicate ModHolds(s: State, a: nat, m: nat)
    requires m < |s.membs|
  {
    && a < |s.mods| && s.mods[a].target == s.membs[m].conn && s.mods[a].name == s.membs[m].name
    && s.mods[a].pc.MPart? && Holds(s.mods[a].pc.p, m)
  }

  ghost predicate MembOk(s: State, m: nat)
    requires m < |s.membs|
  {
    var x := s.membs[m];
    && x.conn < |s.conns| && x.chan < |s.hub.chans| && s.hub.chans[x.chan].name == x.name
    && var t := s.conns[x.conn].task;
    && x.dones == (if x.pump == Stopped || (x.pump == Unstarted && Carried(t) != Some(m)) then 1 else 0)
    && (Carried(t) == Some(m) ==> x.pump == Unstarted && (t.j.JPump? || !x.joinSent))
    && x.takes == (if x.custody == Untaken then 0 else 1)
    && match x.custody
       case Untaken => (InMap(s, x.conn, m) || t == Joining(JInsert(m))) && !x.partSent
       case TakenBy(Owner) => OwnerHolds(t, m) && !x.partSent
       case TakenBy(Mod(a)) => ModHolds(s, a, m) && !x.partSent
       case Released => x.dones == 1 && x.subClosed
  }

  /** What a goroutine taking `p.m` down for `who` may count on. */
  ghost predicate PartOk(s: State, c: nat, who: Thread, p: PartPc) {
    && (Held(p) ==>
          && p.m < |s.membs| && s.membs[p.m].conn == c && s.membs[p.m].custody == TakenBy(who)
          && (p.Wait? || p.Announce? ==> s.membs[p.m].subClosed)
          && (p.Announce? ==> s.membs[p.m].dones == 1))
  }

  ghost predicate JoinOk(s: State, c: nat, j: JoinPc)
    requires c < |s.conns|
  {
    && (Carried(Joining(j)).Some? ==> j.m < |s.membs| && s.membs[j.m].conn == c)
    && match j
       case JHook(n) => n !in s.conns[c].memberships
       case JFind(n) => n !in s.conns[c].memberships
       case JMake(n) => n !in s.conns[c].memberships
       case JBan1(n) => n !in s.conns[c].memberships
       case JSub(n, ch) => n !in s.conns[c].memberships && ch < |s.hub.chans| && s.hub.chans[ch].name == n
       case JInsert(m) => s.membs[m].custody == Untaken && s.membs[m].name !in s.conns[c].memberships
       case JUndoRemove(m) => s.membs[m].custody == TakenBy(Owner)
       case JUndoClose(m) => s.membs[m].custody == TakenBy(Owner)
       case JUndoDone(m) =>
         s.membs[m].custody != Untaken && (s.membs[m].custody == TakenBy(Owner) ==> s.membs[m].subClosed)
       case _ => true
  }

  ghost predicate TaskOk(s: State, c: nat)
    requires c < |s.conns|
  {
    match s.conns[c].task
    case Joining(j) => JoinOk(s, c, j)
    case Parting(p) => PartOk(s, c, Owner, p)
    case Leaving(p, todo) =>
      && s.conns[c].memberships == map[] && !p.Take? && !p.Tell?
      && PartOk(s, c, Owner, p) && (Held(p) ==> p.m !in todo)
      && (forall m | m in todo :: m < |s.membs| && s.membs[m].conn == c && s.membs[m].custody == TakenBy(Owner))
    case Gone => s.conns[c].memberships == map[]
    case _ => true
  }

  ghost predicate MapOk(s: State, c: nat)
    requires c < |s.conns|
  {
    forall n | n in s.conns[c].memberships ::
      var m := s.conns[c].memberships[n];
      m < |s.membs| && s.membs[m].conn == c && s.membs[m].name == n && s.membs[m].custody == Untaken
  }

  /** The membership a ban's part removed, once that part is over. */
  ghost predicate TookOk(s: State, b: Ban, m: nat) {
    m < |s.membs| && s.membs[m].conn == b.target && s.membs[m].name == b.name && s.membs[m].custody == Released
  }

  ghost predicate ModOk(s: State, a: nat)
    requires a < |s.mods|
  {
    var b := s.mods[a];
    && b.target < |s.conns|
    && match b.pc
       case MStore => b.took == None && !b.announced
       case MPart(p) =>
         && !b.announced && PartOk(s, b.target, Mod(a), p)
         && (p.Take? ==> p.name == b.name && b.took == None)
         && (Held(p) ==> b.took == Some(p.m) && s.membs[p.m].name == b.name)
         && (p == Over && b.took.Some? ==> TookOk(s, b, b.took.value))
       case MAnnounce => !b.announced && (b.took.Some? ==> TookOk(s, b, b.took.value))
       case MSay(ch) =>
         && !b.announced && (b.took.Some? ==> TookOk(s, b, b.took.value))
         && ch < |s.hub.chans| && s.hub.chans[ch].name == b.name
       case _ => b.took.Some? ==> TookOk(s, b, b.took.value)
  }

  ghost predicate RegistryOk(s: State) {
    forall n | n in s.hub.registry :: s.hub.registry[n] < |s.hub.chans| && s.hub.chans[s.hub.registry[n]].name == n
  }

  /** Everything about connection `c`: its map, its task, the memberships that
      are or were its own, the bans aimed at it. */
  ghost predicate ConnCore(s: State, c: nat)
    requires c < |s.conns|
  {
    && MapOk(s, c) && TaskOk(s, c)
    && (forall m | 0 <= m < |s.membs| && s.membs[m].conn == c :: MembOk(s, m))
    && (forall a | 0 <= a < |s.mods| && s.mods[a].target == c :: ModOk(s, a))
  }

  ghost predicate InRange(s: State) {
    && (forall m | 0 <= m < |s.membs| :: s.membs[m].conn < |s.conns|)
    && (forall a | 0 <= a < |s.mods| :: s.mods[a].target < |s.conns|)
  }

  ghost predicate Core(s: State) {
    RegistryOk(s) && InRange(s) && forall c | 0 <= c < |s.conns| :: ConnCore(s, c)
  }

  /** A step about connection `c`: nobody else's affairs change, and channels
      keep their names. */
  ghost predicate OnlyAbout(s: State, t: State, c: nat) {
    && |t.conns| == |s.conns| && (forall k | 0 <= k < |s.conns| && k != c :: t.conns[k] == s.conns[k])
    && |t.membs| >= |s.membs|
    && (forall m | 0 <= m < |s.membs| :: t.membs[m].conn == s.membs[m].conn && (s.membs[m].conn != c ==> t.membs[m] == s.membs[m]))
    && (forall m | |s.membs| <= m < |t.membs| :: t.membs[m].conn == c)
    && |t.mods| == |s.mods|
    && (forall a | 0 <= a < |s.mods| :: t.mods[a].target == s.mods[a].target && (s.mods[a].target != c ==> t.mods[a] == s.mods[a]))
    && |t.hub.chans| >= |s.hub.chans| && (forall h | 0 <= h < |s.hub.chans| :: t.hub.chans[h].name == s.hub.chans[h].name)
  }

  lemma Elsewhere(s: State, t: State, c: nat, k: nat)
    requires OnlyAbout(s, t, c) && InRange(s) && k < |s.conns| && k != c && ConnCore(s, k)
    ensures ConnCore(t, k)
  {
    forall m | 0 <= m < |t.membs| && t.membs[m].conn == k ensures MembOk(t, m) {
      assert MembOk(s, m);
    }
    forall a | 0 <= a < |t.mods| && t.mods[a].target == k ensures ModOk(t, a) {
      assert ModOk(s, a);
    }
  }

  /** It is enough to look at the connection a step is about. */
  lemma Local(s: State, t: State, c: nat)
    requires Core(s) && c < |s.conns| && OnlyAbout(s, t, c) && RegistryOk(t) && ConnCore(t, c)
    ensures Core(t)
  {
    forall k | 0 <= k < |t.conns| ensures ConnCore(t, k) {
      if k != c {
        Elsewhere(s, t, c, k);
      }
    }
  }
}
