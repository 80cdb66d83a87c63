/** What reaches a channel's ring and a connection's socket, and in what order. */
module MembershipFrames {
  import opened Fanout
  import opened Membership

  // ------------------------------------------------------------ effects of a step

  function IfOpen(s: State, ch: nat, f: Frame, ok: bool): Option<(nat, Frame)>
    requires ch < |s.hub.chans|
  {
    if ok && s.hub.chans[ch].open then Some((ch, f)) else None
  }

  /** The frame a step adds to a ring. */
  ghost function NewFrame(s: State, step: Step): Option<(nat, Frame)>
    requires Enabled(s, step)
  {
    match step
    case MoveConn(c, ok, _) =>
      (match s.conns[c].task
       case Joining(j) => if j.JAnnounce? then IfOpen(s, s.membs[j.m].chan, Joined(j.m), ok) else None
       case Parting(p) => if p.Announce? then IfOpen(s, s.membs[p.m].chan, Parted(p.m), ok) else None
       case Leaving(p, _) => if p.Announce? then IfOpen(s, s.membs[p.m].chan, Parted(p.m), ok) else None
       case _ => None)
    case MoveMod(a, ok) =>
      (match s.mods[a].pc
       case MPart(p) => if p.Announce? then IfOpen(s, s.membs[p.m].chan, Parted(p.m), ok) else None
       case MSay(ch) => IfOpen(s, ch, Moderated(a), ok)
       case _ => None)
    case Chat(ch) => IfOpen(s, ch, Talk, true)
    case _ => None
  }

  /** The frame a step hands to a socket. */
  ghost function NewSent(s: State, step: Step): Option<(nat, Sent)>
    requires Enabled(s, step)
  {
    match step
    case MoveConn(c, ok, _) =>
      (match s.conns[c].task
       case Joining(j) => if j.JBacklog? then Some((c, Direct(Backlog(j.m)))) else None
       case Parting(p) => if p.Tell? then Some((c, Direct(Parted(p.m)))) else None
       case Leaving(p, _) => if p.Tell? then Some((c, Direct(Parted(p.m)))) else None
       case _ => None)
    case MoveMod(a, ok) =>
      (match s.mods[a].pc
       case MPart(p) => if p.Tell? then Some((s.mods[a].target, Direct(Parted(p.m)))) else None
       case MEnforce => Some((s.mods[a].target, Direct(Moderated(a))))
       case _ => None)
    case Deliver(m) => Some((s.membs[m].conn, Pumped(m, s.hub.chans[s.membs[m].chan].ring[s.membs[m].cursor])))
    case _ => None
  }

  function Plus<T>(q: seq<T>, here: nat, add: Option<(nat, T)>): seq<T> {
    if add.Some? && add.value.0 == here then q + [add.value.1] else q
  }

  /** Rings and sockets after a step are what they were plus what it adds. */
  ghost predicate Grown(s: State, t: State, f: Option<(nat, Frame)>, x: Option<(nat, Sent)>) {
    && |t.hub.chans| >= |s.hub.chans| && |t.conns| >= |s.conns|
    && (forall h | 0 <= h < |s.hub.chans| :: t.hub.chans[h].ring == Plus(s.hub.chans[h].ring, h, f))
    && (forall h | |s.hub.chans| <= h < |t.hub.chans| :: t.hub.chans[h].ring == [])
    && (forall c | 0 <= c < |s.conns| :: t.conns[c].sent == Plus(s.conns[c].sent, c, x))
    && (forall c | |s.conns| <= c < |t.conns| :: t.conns[c].sent == [])
  }

  lemma PartGrows(s: State, c: nat, who: Thread, p: PartPc, ok: bool)
    requires PartEnabled(s, c, p)
    ensures Grown(s, PartStep(s, c, who, p, ok).0,
                  if p.Announce? then IfOpen(s, s.membs[p.m].chan, Parted(p.m), ok) else None,
                  if p.Tell? then Some((c, Direct(Parted(p.m)))) else None)
  {
  }

  lemma SeekGrows(s: State, c: nat, j: JoinPc, ok: bool)
    requires JoinEnabled(s, c, j) && Searching(j)
    ensures Grown(s, SeekStep(s, c, j, ok), None, None)
  {
  }

  lemma EnterGrows(s: State, c: nat, j: JoinPc, ok: bool)
    requires JoinEnabled(s, c, j) && !Searching(j)
    ensures Grown(s, EnterStep(s, c, j, ok), if j.JAnnounce? then IfOpen(s, s.membs[j.m].chan, Joined(j.m), ok) else None,
                  if j.JBacklog? then Some((c, Direct(Backlog(j.m)))) else None)
  {
  }

  lemma ConnGrows(s: State, c: nat, ok: bool, pick: nat)
    requires ConnEnabled(s, c, pick)
    ensures Grown(s, ConnStep(s, c, ok, pick), NewFrame(s, MoveConn(c, ok, pick)), NewSent(s, MoveConn(c, ok, pick)))
  {
    match s.conns[c].task
    case Joining(j) =>
      if Searching(j) {
        SeekGrows(s, c, j, ok);
      } else {
        EnterGrows(s, c, j, ok);
      }
    case Parting(p) =>
      if p != Over { PartGrows(s, c, Owner, p, ok); }
    case Leaving(p, todo) =>
      if p != Over { PartGrows(s, c, Owner, p, ok); }
    case _ =>
  }

  lemma ModGrows(s: State, a: nat, ok: bool)
    requires ModEnabled(s, a)
    ensures Grown(s, ModStep(s, a, ok), NewFrame(s, MoveMod(a, ok)), NewSent(s, MoveMod(a, ok)))
  {
    match s.mods[a].pc
    case MPart(p) =>
      if p != Over { PartGrows(s, s.mods[a].target, Mod(a), p, ok); }
    case _ =>
  }

  lemma StepGrows(s: State, step: Step)
    requires Enabled(s, step)
    ensures Grown(s, Apply(s, step), NewFrame(s, step), NewSent(s, step))
  {
    match step
    case MoveConn(c, ok, pick) => ConnGrows(s, c, ok, pick);
    case MoveMod(a, ok) => ModGrows(s, a, ok);
    case _ =>
  }
}
