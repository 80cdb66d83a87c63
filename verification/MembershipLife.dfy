/** Every membership ends at most once, and nobody waits for an end that nobody
    is left to bring about. */
module MembershipLife {
  import opened Fanout
  import opened Membership
  import opened MembershipInv
  import opened MembershipSteps

  /** However rollback, parts, bans and teardown race, one of them takes a
      membership out of its map, and its `done` is closed once: by the join that
      never started a pump, or by the pump. Once it is over so is its subscription. */
  lemma EndedOnce(tr: seq<State>, k: nat, m: nat)
    requires Run(tr) && k < |tr| && m < |tr[k].membs|
    ensures var x := tr[k].membs[m];
            && x.takes <= 1 && x.dones <= 1
            && (x.takes == 0 ==> x.conn < |tr[k].conns| && (InMap(tr[k], x.conn, m) || tr[k].conns[x.conn].task == Joining(JInsert(m))))
            && (x.takes == 1 ==> x.conn < |tr[k].conns| && !InMap(tr[k], x.conn, m))
            && (x.pump == Running ==> x.dones == 0)
            && (x.custody == Released ==> x.dones == 1 && x.subClosed)
  {
    RunCore(tr, k);
    var s := tr[k];
    assert InRange(s);
    assert ConnCore(s, s.membs[m].conn);
    assert MembOk(s, m);
  }

  /** Some goroutine stands at `<-m.done`. */
  ghost predicate Waited(s: State, m: nat) {
    || (exists c :: 0 <= c < |s.conns| && (s.conns[c].task == Parting(Wait(m)) || (s.conns[c].task.Leaving? && s.conns[c].task.l == Wait(m))))
    || (exists a :: 0 <= a < |s.mods| && s.mods[a].pc == MPart(Wait(m)))
  }

  /** A `leave` waiting on `done` finds it closed, or the pump running with its
      subscription already ended, or the join that carries the membership free
      to take its next step towards closing it. */
  lemma NoOrphanedWait(tr: seq<State>, k: nat, m: nat)
    requires Run(tr) && k < |tr| && Waited(tr[k], m)
    ensures m < |tr[k].membs|
    ensures var s := tr[k];
            var x := s.membs[m];
            || x.dones == 1
            || (x.pump == Running && x.subClosed)
            || (x.conn < |s.conns| && Carried(s.conns[x.conn].task) == Some(m) && ConnEnabled(s, x.conn, 0))
  {
    RunCore(tr, k);
    var s := tr[k];
    if c :| 0 <= c < |s.conns| && (s.conns[c].task == Parting(Wait(m)) || (s.conns[c].task.Leaving? && s.conns[c].task.l == Wait(m))) {
      assert ConnCore(s, c);
    } else {
      var a :| 0 <= a < |s.mods| && s.mods[a].pc == MPart(Wait(m));
      assert ConnCore(s, s.mods[a].target);
      assert ModOk(s, a);
    }
    assert ConnCore(s, s.membs[m].conn);
    assert MembOk(s, m);
  }

  // ------------------------------------------------------------ what no step undoes

  /** Identities are fixed, and endings stay ended. */
  ghost predicate Evolves(s: State, t: State) {
    && |t.conns| >= |s.conns| && |t.membs| >= |s.membs| && |t.mods| >= |s.mods| && |t.hub.chans| >= |s.hub.chans|
    && (forall c | 0 <= c < |s.conns| :: t.conns[c].nick == s.conns[c].nick && t.conns[c].key == s.conns[c].key)
    && (forall m | 0 <= m < |s.membs| ::
          && t.membs[m].conn == s.membs[m].conn && t.membs[m].name == s.membs[m].name && t.membs[m].chan == s.membs[m].chan
          && t.membs[m].dones >= s.membs[m].dones
          && (s.membs[m].custody != Untaken ==> t.membs[m].custody != Untaken)
          && (s.membs[m].custody == Released ==> t.membs[m].custody == Released)
          && (s.membs[m].joinSent ==> t.membs[m].joinSent) && (s.membs[m].partSent ==> t.membs[m].partSent)
          && (s.membs[m].pump == Stopped ==> t.membs[m].pump == Stopped)
          && (s.membs[m].pump == Running ==> t.membs[m].pump != Unstarted))
    && (forall h | 0 <= h < |s.hub.chans| :: t.hub.chans[h].name == s.hub.chans[h].name)
    && (forall a | 0 <= a < |s.mods| :: t.mods[a].target == s.mods[a].target && t.mods[a].name == s.mods[a].name)
  }

  lemma PartEvolves(s: State, c: nat, who: Thread, p: PartPc, ok: bool)
    requires PartEnabled(s, c, p)
    requires p.Announce? ==> s.membs[p.m].custody != Untaken
    requires p.Take? && p.name in s.conns[c].memberships ==> s.membs[s.conns[c].memberships[p.name]].custody == Untaken
    ensures Evolves(s, PartStep(s, c, who, p, ok).0)
  {
  }

  lemma EnterEvolves(s: State, c: nat, j: JoinPc, ok: bool)
    requires JoinEnabled(s, c, j) && !Searching(j)
    requires s.conns[c].task == Joining(j) && MapOk(s, c)
    requires Carried(Joining(j)).Some? ==> MembOk(s, j.m)
    ensures Evolves(s, EnterStep(s, c, j, ok))
  {
    if j.JUndo? || j.JUndoRemove? || j.JUndoClose? || j.JUndoDone? {
      UndoEvolves(s, c, j, ok);
    }
  }

  lemma UndoEvolves(s: State, c: nat, j: JoinPc, ok: bool)
    requires JoinEnabled(s, c, j) && (j.JUndo? || j.JUndoRemove? || j.JUndoClose? || j.JUndoDone?)
    requires s.conns[c].task == Joining(j) && MapOk(s, c) && MembOk(s, j.m)
    ensures Evolves(s, EnterStep(s, c, j, ok))
  {
  }

  lemma ConnEvolves(s: State, c: nat, ok: bool, pick: nat)
    requires Core(s) && ConnEnabled(s, c, pick)
    ensures Evolves(s, ConnStep(s, c, ok, pick))
  {
    assert ConnCore(s, c);
    match s.conns[c].task
    case Swap => SwapEvolves(s, c);
    case Joining(j) =>
      if Searching(j) {
        SeekEvolves(s, c, j, ok);
      } else {
        assert Carried(Joining(j)).Some? ==> MembOk(s, j.m);
        EnterEvolves(s, c, j, ok);
      }
    case Parting(p) =>
      if p != Over { PartEvolves(s, c, Owner, p, ok); }
    case Leaving(p, todo) =>
      if p != Over { PartEvolves(s, c, Owner, p, ok); }
    case _ =>
  }

  lemma SwapEvolves(s: State, c: nat)
    requires Core(s) && c < |s.conns|
    ensures Evolves(s, SwapStep(s, c))
  {
    assert ConnCore(s, c);
  }

  lemma SeekEvolves(s: State, c: nat, j: JoinPc, ok: bool)
    requires JoinEnabled(s, c, j) && Searching(j)
    ensures Evolves(s, SeekStep(s, c, j, ok))
  {
  }

  lemma ModEvolves(s: State, a: nat, ok: bool)
    requires Core(s) && ModEnabled(s, a)
    ensures Evolves(s, ModStep(s, a, ok))
  {
    assert ConnCore(s, s.mods[a].target);
    assert ModOk(s, a);
    if s.mods[a].pc.MPart? && s.mods[a].pc.p != Over {
      PartEvolves(s, s.mods[a].target, Mod(a), s.mods[a].pc.p, ok);
    }
  }

  lemma QuietEvolves(s: State, step: Step)
    requires InRange(s) && Enabled(s, step) && !step.MoveConn? && !step.MoveMod?
    ensures Evolves(s, Apply(s, step))
  {
  }

  lemma StepEvolves(s: State, step: Step)
    requires Core(s) && Enabled(s, step)
    ensures Evolves(s, Apply(s, step))
  {
    match step
    case MoveConn(c, ok, pick) => ConnEvolves(s, c, ok, pick);
    case MoveMod(a, ok) => ModEvolves(s, a, ok);
    case _ => QuietEvolves(s, step);
  }
}
