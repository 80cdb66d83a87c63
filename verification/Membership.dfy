/** Joining, parting, banning and sweeping, one critical section a step.

    Every connection's own goroutine runs one task at a time; moderators'
    goroutines part other people; a pump runs per membership; the janitor sweeps.
    A state is the maps they share and where each of them stands. Hooks' answers
    and encoding failures are the `ok` a step is taken with. */
module Membership {
  import opened Fanout

  type Name = string
  type Nick = string

  /** What identifies somebody to the ban store. */
  type Key = string

  /** Frames of a channel's ring, and of a socket. `m` is a membership, `a` a ban. */
  datatype Frame = Joined(m: nat) | Parted(m: nat) | Moderated(a: nat) | Backlog(m: nat) | Talk

  /** `open` is whether its rings are. `last` is who last put themselves on the list
      under each nick, `ousted` whom a ban's removal has come for since they last put
      themselves on it; these two record what happened and steer nothing. */
  datatype Chan = Chan(
    name: Name, members: map<Nick, nat>, open: bool, ring: seq<Frame>, last: map<Nick, nat>, ousted: set<nat>)

  /** Who took a membership out of its connection's map. */
  datatype Custody = Untaken | TakenBy(who: Thread) | Released

  datatype Thread = Owner | Mod(a: nat)

  datatype Pump = Unstarted | Running | Stopped

  /** The subscription stands at `cursor` of the channel's ring, having begun at
      `origin`. `dones` counts the closes of `done`; `origin`, `takes`, `joinSent`,
      `partSent` record what happened and steer nothing. */
  datatype Memb = Memb(
    conn: nat, chan: nat, name: Name, subClosed: bool, dones: nat, pump: Pump, origin: nat, cursor: nat,
    custody: Custody, takes: nat, joinSent: bool, partSent: bool)

  datatype JoinPc =
    | JCheck(name: Name) | JBan1(name: Name) | JHook(name: Name) | JFind(name: Name) | JMake(name: Name)
    | JSub(name: Name, ch: nat) | JInsert(m: nat) | JBan2(m: nat)
    | JUndo(m: nat) | JUndoRemove(m: nat) | JUndoClose(m: nat) | JUndoDone(m: nat)
    | JBacklog(m: nat) | JAnnounce(m: nat) | JPump(m: nat)

  /** `part`, and from `Remove` on `leave` too. */
  datatype PartPc =
    | Take(name: Name) | Tell(m: nat) | Remove(m: nat) | Close(m: nat) | Wait(m: nat) | Announce(m: nat) | Over

  /** What a connection's own goroutine is doing. */
  datatype Task =
    | Idle | Joining(j: JoinPc) | Parting(p: PartPc) | Swap | Leaving(l: PartPc, todo: set<nat>) | Gone

  /** A frame handed to the socket, directly or by a membership's pump. */
  datatype Sent = Direct(frame: Frame) | Pumped(m: nat, frame: Frame)

  datatype Conn = Conn(nick: Nick, key: Key, memberships: map<Name, nat>, task: Task, sent: seq<Sent>)

  datatype BanPc = MStore | MPart(p: PartPc) | MAnnounce | MSay(ch: nat) | MEnforce | MDone | MFailed

  /** A moderator banning `target` from `name`. `took` is the membership its own
      `part` removed; `lifts0` how often the ban had been lifted when stored. It has
      failed when its MOD could not be encoded. */
  datatype Ban = Ban(target: nat, name: Name, pc: BanPc, took: Option<nat>, lifts0: nat, announced: bool)

  datatype Limits = Limits(channels: nat, perConn: nat)

  /** The registry of channels, and every channel there ever was. */
  datatype Hub = Hub(registry: map<Name, nat>, chans: seq<Chan>, shut: bool)

  /** The ban store; `lifts` records every lifting or expiry of a ban. */
  datatype Book = Book(bans: set<(Name, Key)>, lifts: multiset<(Name, Key)>)

  /** What went wrong outside the protocol: which nicks two live connections ever
      shared, which bans were ever lifted between their storing and their part's
      removal from the member list, and which were lifted while a part of theirs
      was still under way at all. */
  datatype Mishaps = Mishaps(collided: set<Nick>, liftedMidPart: set<(Name, Key)>, hasty: set<(Name, Key)>)

  datatype State = State(
    limits: Limits, hub: Hub, conns: seq<Conn>, membs: seq<Memb>, mods: seq<Ban>, book: Book, mishaps: Mishaps)

  datatype Step =
    | Connect(nick: Nick, key: Key) | StartJoin(c: nat, name: Name) | StartPart(c: nat, name: Name) | Hangup(c: nat)
    | MoveConn(c: nat, ok: bool, pick: nat)
    | StartBan(c: nat, name: Name) | MoveMod(a: nat, ok: bool)
    | Store(name: Name, key: Key) | Lift(name: Name, key: Key)
    | SweepOne(name: Name) | CloseAll | Deliver(m: nat) | StopPump(m: nat) | Chat(ch: nat)

  const GLOBAL: Name := ""

  // ------------------------------------------------------------ the maps

  predicate Banned(s: State, name: Name, key: Key) {
    (name, key) in s.book.bans || (GLOBAL, key) in s.book.bans
  }

  function SetConn(s: State, c: nat, x: Conn): State
    requires c < |s.conns|
  {
    s.(conns := s.conns[c := x])
  }

  function SetTask(s: State, c: nat, t: Task): State
    requires c < |s.conns|
  {
    SetConn(s, c, s.conns[c].(task := t))
  }

  function SetMemb(s: State, m: nat, x: Memb): State
    requires m < |s.membs|
  {
    s.(membs := s.membs[m := x])
  }

  function SetChan(s: State, ch: nat, x: Chan): State
    requires ch < |s.hub.chans|
  {
    s.(hub := s.hub.(chans := s.hub.chans[ch := x]))
  }

  /** `ch.add`, under `ch.mu`. */
  function AddMember(s: State, ch: nat, c: nat): State
    requires ch < |s.hub.chans| && c < |s.conns|
  {
    var x, nick := s.hub.chans[ch], s.conns[c].nick;
    SetChan(s, ch, x.(members := x.members[nick := c], last := x.last[nick := c], ousted := x.ousted - {c}))
  }

  /** `ch.remove`: only if still ours. */
  function RemoveMember(s: State, ch: nat, c: nat, who: Thread): State
    requires ch < |s.hub.chans| && c < |s.conns|
  {
    var x, nick := s.hub.chans[ch], s.conns[c].nick;
    var members := if nick in x.members && x.members[nick] == c then x.members - {nick} else x.members;
    SetChan(s, ch, x.(members := members, ousted := if who == Owner then x.ousted else x.ousted + {c}))
  }

  /** `broadcastTo`: one frame into the channel's rings, unless it cannot be
      encoded or they are closed. */
  function Broadcast(s: State, ch: nat, f: Frame, ok: bool): State
    requires ch < |s.hub.chans|
  {
    if ok && s.hub.chans[ch].open then SetChan(s, ch, s.hub.chans[ch].(ring := s.hub.chans[ch].ring + [f])) else s
  }

  function Tells(s: State, c: nat, f: Sent): State
    requires c < |s.conns|
  {
    SetConn(s, c, s.conns[c].(sent := s.conns[c].sent + [f]))
  }

  /** Deletes membership `m` from its connection's map for `who`. */
  function TakeOut(s: State, m: nat, who: Thread): State
    requires m < |s.membs| && s.membs[m].conn < |s.conns|
  {
    var x := s.membs[m];
    var c := s.conns[x.conn];
    SetMemb(SetConn(s, x.conn, c.(memberships := c.memberships - {x.name})), m,
            x.(custody := TakenBy(who), takes := x.takes + 1))
  }

  predicate InMap(s: State, c: nat, m: nat)
    requires c < |s.conns| && m < |s.membs|
  {
    s.membs[m].name in s.conns[c].memberships && s.conns[c].memberships[s.membs[m].name] == m
  }

  // ------------------------------------------------------------ part, leave

  predicate Holds(p: PartPc, m: nat) {
    (p.Tell? || p.Remove? || p.Close? || p.Wait? || p.Announce?) && p.m == m
  }

  predicate Held(p: PartPc) {
    p.Tell? || p.Remove? || p.Close? || p.Wait? || p.Announce?
  }

  predicate PartInRange(s: State, c: nat, p: PartPc) {
    c < |s.conns| && (Held(p) ==> p.m < |s.membs| && s.membs[p.m].conn == c && s.membs[p.m].chan < |s.hub.chans|)
  }

  predicate PartEnabled(s: State, c: nat, p: PartPc) {
    && PartInRange(s, c, p) && p != Over
    && (p.Take? && p.name in s.conns[c].memberships ==>
          var m := s.conns[c].memberships[p.name];
          m < |s.membs| && s.membs[m].conn == c && s.membs[m].name == p.name)
    && (p.Wait? ==> s.membs[p.m].dones > 0)
  }

  /** One critical section of `c.part` run by `who`. */
  function PartStep(s: State, c: nat, who: Thread, p: PartPc, ok: bool): (State, PartPc)
    requires PartEnabled(s, c, p)
  {
    match p
    case Take(name) =>
      if name in s.conns[c].memberships then
        var m := s.conns[c].memberships[name];
        (TakeOut(s, m, who), Tell(m))
      else (s, Over)
    case Tell(m) => (Tells(s, c, Direct(Parted(m))), Remove(m))
    case Remove(m) => (RemoveMember(s, s.membs[m].chan, c, who), Close(m))
    case Close(m) => (SetMemb(s, m, s.membs[m].(subClosed := true)), Wait(m))
    case Wait(m) => (s, Announce(m))
    case Announce(m) =>
      (SetMemb(Broadcast(s, s.membs[m].chan, Parted(m), ok), m, s.membs[m].(custody := Released, partSent := true)), Over)
  }

  // ------------------------------------------------------------ join

  /** The membership a join carries between creating it and handing it over. */
  function Carried(t: Task): Option<nat> {
    if !t.Joining? then None else
    match t.j
    case JInsert(m) => Some(m)
    case JBan2(m) => Some(m)
    case JUndo(m) => Some(m)
    case JUndoRemove(m) => Some(m)
    case JUndoClose(m) => Some(m)
    case JUndoDone(m) => Some(m)
    case JBacklog(m) => Some(m)
    case JAnnounce(m) => Some(m)
    case JPump(m) => Some(m)
    case _ => None
  }

  predicate JoinEnabled(s: State, c: nat, j: JoinPc) {
    && c < |s.conns|
    && (j.JFind? || j.JMake? ==> (j.name in s.hub.registry ==> s.hub.registry[j.name] < |s.hub.chans|))
    && (j.JSub? ==> j.ch < |s.hub.chans|)
    && (Carried(Joining(j)).Some? ==>
          j.m < |s.membs| && s.membs[j.m].conn == c && s.membs[j.m].chan < |s.hub.chans|)
  }

  /** A channel made with its first member in it. */
  function MakeChannel(s: State, c: nat, name: Name): State
    requires c < |s.conns|
  {
    s.(hub := s.hub.(registry := s.hub.registry[name := |s.hub.chans|],
                   chans := s.hub.chans + [Chan(name, map[s.conns[c].nick := c], true, [], map[s.conns[c].nick := c], {})]))
  }

  /** Still without a channel. */
  predicate Searching(j: JoinPc) {
    j.JCheck? || j.JBan1? || j.JHook? || j.JFind? || j.JMake?
  }

  /** `join` up to having a channel: checks, hook, lookup or creation. */
  function SeekStep(s: State, c: nat, j: JoinPc, ok: bool): State
    requires JoinEnabled(s, c, j) && Searching(j)
  {
    match j
    case JCheck(name) =>
      if name in s.conns[c].memberships || |s.conns[c].memberships| >= s.limits.perConn then SetTask(s, c, Idle)
      else SetTask(s, c, Joining(JBan1(name)))
    case JBan1(name) =>
      SetTask(s, c, if Banned(s, name, s.conns[c].key) then Idle else Joining(JHook(name)))
    case JHook(name) => SetTask(s, c, if ok then Joining(JFind(name)) else Idle)
    case JFind(name) =>
      if name in s.hub.registry then SetTask(AddMember(s, s.hub.registry[name], c), c, Joining(JSub(name, s.hub.registry[name])))
      else SetTask(s, c, Joining(JMake(name)))
    case JMake(name) =>
      if name in s.hub.registry then SetTask(AddMember(s, s.hub.registry[name], c), c, Joining(JSub(name, s.hub.registry[name])))
      else if |s.hub.registry| >= s.limits.channels then SetTask(s, c, Idle)
      else SetTask(MakeChannel(s, c, name), c, Joining(JSub(name, |s.hub.chans|)))
  }

  function SubscribeStep(s: State, c: nat, name: Name, ch: nat): State
    requires c < |s.conns| && ch < |s.hub.chans|
  {
    var x := Memb(c, ch, name, false, 0, Unstarted, |s.hub.chans[ch].ring|, |s.hub.chans[ch].ring|, Untaken, 0, false, false);
    SetTask(s.(membs := s.membs + [x]), c, Joining(JInsert(|s.membs|)))
  }

  predicate Carries(s: State, c: nat, m: nat) {
    c < |s.conns| && m < |s.membs| && s.membs[m].conn == c && s.membs[m].chan < |s.hub.chans|
  }

  function InsertStep(s: State, c: nat, m: nat): State
    requires Carries(s, c, m)
  {
    var x := s.conns[c];
    SetConn(s, c, x.(memberships := x.memberships[s.membs[m].name := m], task := Joining(JBan2(m))))
  }

  /** The ban again, the membership being stored. */
  function RecheckStep(s: State, c: nat, m: nat): State
    requires Carries(s, c, m)
  {
    SetTask(s, c, Joining(if Banned(s, s.membs[m].name, s.conns[c].key) then JUndo(m) else JBacklog(m)))
  }

  function UndoStep(s: State, c: nat, m: nat): State
    requires Carries(s, c, m)
  {
    if InMap(s, c, m) then SetTask(TakeOut(s, m, Owner), c, Joining(JUndoRemove(m)))
    else SetTask(s, c, Joining(JUndoDone(m)))
  }

  function UndoCloseStep(s: State, c: nat, m: nat): State
    requires Carries(s, c, m)
  {
    SetTask(SetMemb(s, m, s.membs[m].(subClosed := true)), c, Joining(JUndoDone(m)))
  }

  function UndoDoneStep(s: State, c: nat, m: nat): State
    requires Carries(s, c, m)
  {
    var x := s.membs[m];
    var custody := if x.custody == TakenBy(Owner) then Released else x.custody;
    SetTask(SetMemb(s, m, x.(dones := x.dones + 1, custody := custody)), c, Idle)
  }

  function AnnounceStep(s: State, c: nat, m: nat, ok: bool): State
    requires Carries(s, c, m)
  {
    SetTask(SetMemb(Broadcast(s, s.membs[m].chan, Joined(m), ok), m, s.membs[m].(joinSent := true)), c, Joining(JPump(m)))
  }

  /** From subscribing to the pump, or to the rollback's end. */
  function EnterStep(s: State, c: nat, j: JoinPc, ok: bool): State
    requires JoinEnabled(s, c, j) && !Searching(j)
  {
    match j
    case JSub(name, ch) => SubscribeStep(s, c, name, ch)
    case JInsert(m) => InsertStep(s, c, m)
    case JBan2(m) => RecheckStep(s, c, m)
    case JUndo(m) => UndoStep(s, c, m)
    case JUndoRemove(m) => SetTask(RemoveMember(s, s.membs[m].chan, c, Owner), c, Joining(JUndoClose(m)))
    case JUndoClose(m) => UndoCloseStep(s, c, m)
    case JUndoDone(m) => UndoDoneStep(s, c, m)
    case JBacklog(m) => SetTask(Tells(s, c, Direct(Backlog(m))), c, Joining(JAnnounce(m)))
    case JAnnounce(m) => AnnounceStep(s, c, m, ok)
    case JPump(m) => SetTask(SetMemb(s, m, s.membs[m].(pump := Running)), c, Idle)
  }

  // ------------------------------------------------------------ a connection

  /** `leaveAll`'s swap takes every membership at once. */
  function SwapStep(s: State, c: nat): State
    requires c < |s.conns|
  {
    var taken := set m | 0 <= m < |s.membs| && InMap(s, c, m);
    SetConn(s.(membs := seq(|s.membs|, m requires 0 <= m < |s.membs| =>
                 if m in taken then s.membs[m].(custody := TakenBy(Owner), takes := s.membs[m].takes + 1) else s.membs[m])),
            c, s.conns[c].(memberships := map[], task := Leaving(Over, taken)))
  }

  predicate ConnEnabled(s: State, c: nat, pick: nat) {
    && c < |s.conns|
    && match s.conns[c].task
       case Idle => false
       case Gone => false
       case Swap => true
       case Joining(j) => JoinEnabled(s, c, j)
       case Parting(p) => p == Over || PartEnabled(s, c, p)
       case Leaving(p, todo) =>
         if p == Over then todo == {} || pick in todo else PartEnabled(s, c, p)
  }

  function ConnStep(s: State, c: nat, ok: bool, pick: nat): State
    requires ConnEnabled(s, c, pick)
  {
    match s.conns[c].task
    case Swap => SwapStep(s, c)
    case Joining(j) =>
      if Searching(j) then SeekStep(s, c, j, ok) else EnterStep(s, c, j, ok)
    case Parting(p) =>
      if p == Over then SetTask(s, c, Idle)
      else var (t, q) := PartStep(s, c, Owner, p, ok); SetTask(t, c, Parting(q))
    case Leaving(p, todo) =>
      if p != Over then var (t, q) := PartStep(s, c, Owner, p, ok); SetTask(t, c, Leaving(q, todo))
      else if todo == {} then SetTask(s, c, Gone)
      else SetTask(s, c, Leaving(Remove(pick), todo - {pick}))
  }

  // ------------------------------------------------------------ a ban

  predicate ModEnabled(s: State, a: nat) {
    && a < |s.mods| && s.mods[a].target < |s.conns|
    && match s.mods[a].pc
       case MPart(p) => p == Over || PartEnabled(s, s.mods[a].target, p)
       case MAnnounce => s.mods[a].name in s.hub.registry ==> s.hub.registry[s.mods[a].name] < |s.hub.chans|
       case MSay(ch) => ch < |s.hub.chans|
       case MDone => false
       case MFailed => false
       case _ => true
  }

  function SetMod(s: State, a: nat, x: Ban): State
    requires a < |s.mods|
  {
    s.(mods := s.mods[a := x])
  }

  /** `handleMod` for a channel ban: store, part, announce, tell. */
  function ModStep(s: State, a: nat, ok: bool): State
    requires ModEnabled(s, a)
  {
    var b := s.mods[a];
    var entry := (b.name, s.conns[b.target].key);
    match b.pc
    case MStore =>
      SetMod(s.(book := s.book.(bans := s.book.bans + {entry})), a, b.(pc := MPart(Take(b.name)), lifts0 := s.book.lifts[entry]))
    case MPart(p) =>
      if p == Over then SetMod(s, a, b.(pc := MAnnounce))
      else
        var (t, q) := PartStep(s, b.target, Mod(a), p, ok);
        SetMod(t, a, b.(pc := MPart(q), took := if q.Tell? then Some(q.m) else b.took))
    case MAnnounce =>
      if b.name !in s.hub.registry then SetMod(s, a, b.(pc := MEnforce))
      else SetMod(s, a, b.(pc := MSay(s.hub.registry[b.name])))
    case MSay(ch) =>
      if !ok then SetMod(s, a, b.(pc := MFailed))
      else SetMod(Broadcast(s, ch, Moderated(a), true), a, b.(pc := MEnforce, announced := true))
    case MEnforce => SetMod(Tells(s, b.target, Direct(Moderated(a))), a, b.(pc := MDone))
    case MDone => s
    case MFailed => s
  }

  /** Between storing the ban and its part's removal from the member list. */
  predicate BeforeRemoval(b: Ban) {
    b.pc.MPart? && (b.pc.p.Take? || b.pc.p.Tell? || b.pc.p.Remove?)
  }

  ghost predicate MidPart(s: State, name: Name, key: Key) {
    exists a :: 0 <= a < |s.mods| && BeforeRemoval(s.mods[a]) && s.mods[a].name == name
                && s.mods[a].target < |s.conns| && s.conns[s.mods[a].target].key == key
  }

  /** Some ban of `key` from `name` has not been through its part yet. */
  ghost predicate UnderWay(s: State, name: Name, key: Key) {
    exists a :: 0 <= a < |s.mods| && s.mods[a].pc.MPart? && s.mods[a].pc.p != Over && s.mods[a].name == name
                && s.mods[a].target < |s.conns| && s.conns[s.mods[a].target].key == key
  }

  ghost predicate NickTaken(s: State, nick: Nick) {
    exists c :: 0 <= c < |s.conns| && s.conns[c].nick == nick && s.conns[c].task != Gone
  }

  // ------------------------------------------------------------ runs

  ghost predicate Enabled(s: State, step: Step) {
    match step
    case Connect(_, _) => true
    case StartJoin(c, _) => c < |s.conns| && s.conns[c].task == Idle
    case StartPart(c, _) => c < |s.conns| && s.conns[c].task == Idle
    case Hangup(c) => c < |s.conns| && s.conns[c].task == Idle
    case MoveConn(c, _, pick) => ConnEnabled(s, c, pick)
    case StartBan(c, name) => c < |s.conns| && name != GLOBAL
    case MoveMod(a, _) => ModEnabled(s, a)
    case Store(_, _) => true
    case Lift(_, _) => true
    case SweepOne(name) => name in s.hub.registry && s.hub.registry[name] < |s.hub.chans| && s.hub.chans[s.hub.registry[name]].members == map[]
    case CloseAll => true
    case Deliver(m) =>
      && m < |s.membs| && s.membs[m].pump == Running && s.membs[m].chan < |s.hub.chans| && s.membs[m].conn < |s.conns|
      && s.membs[m].cursor < |s.hub.chans[s.membs[m].chan].ring|
    case StopPump(m) => m < |s.membs| && s.membs[m].pump == Running
    case Chat(ch) => ch < |s.hub.chans|
  }

  ghost function Apply(s: State, step: Step): State
    requires Enabled(s, step)
  {
    match step
    case Connect(nick, key) =>
      s.(conns := s.conns + [Conn(nick, key, map[], Idle, [])],
         mishaps := s.mishaps.(collided := s.mishaps.collided + (if NickTaken(s, nick) then {nick} else {})))
    case StartJoin(c, name) => SetTask(s, c, Joining(JCheck(name)))
    case StartPart(c, name) => SetTask(s, c, Parting(Take(name)))
    case Hangup(c) => SetTask(s, c, Swap)
    case MoveConn(c, ok, pick) => ConnStep(s, c, ok, pick)
    case StartBan(c, name) => s.(mods := s.mods + [Ban(c, name, MStore, None, 0, false)])
    case MoveMod(a, ok) => ModStep(s, a, ok)
    case Store(name, key) => s.(book := s.book.(bans := s.book.bans + {(name, key)}))
    case Lift(name, key) =>
      s.(book := Book(s.book.bans - {(name, key)}, s.book.lifts + multiset{(name, key)}),
         mishaps := s.mishaps.(liftedMidPart := s.mishaps.liftedMidPart + (if MidPart(s, name, key) then {(name, key)} else {}),
                               hasty := s.mishaps.hasty + (if UnderWay(s, name, key) then {(name, key)} else {})))
    case SweepOne(name) =>
      var ch := s.hub.registry[name];
      s.(hub := s.hub.(registry := s.hub.registry - {name}, chans := s.hub.chans[ch := s.hub.chans[ch].(open := false)]))
    case CloseAll =>
      s.(hub := s.hub.(shut := true, chans := seq(|s.hub.chans|, ch requires 0 <= ch < |s.hub.chans| =>
         if s.hub.chans[ch].name in s.hub.registry && s.hub.registry[s.hub.chans[ch].name] == ch
         then s.hub.chans[ch].(open := false) else s.hub.chans[ch])))
    case Deliver(m) =>
      var x := s.membs[m];
      SetMemb(Tells(s, x.conn, Pumped(m, s.hub.chans[x.chan].ring[x.cursor])), m, x.(cursor := x.cursor + 1))
    case StopPump(m) => SetMemb(s, m, s.membs[m].(pump := Stopped, dones := s.membs[m].dones + 1))
    case Chat(ch) => Broadcast(s, ch, Talk, true)
  }

  ghost predicate Init(s: State) {
    s == State(s.limits, Hub(map[], [], false), [], [], [], Book({}, multiset{}), Mishaps({}, {}, {}))
  }

  ghost predicate Next(s: State, s': State) {
    exists step :: Enabled(s, step) && s' == Apply(s, step)
  }

  ghost predicate Follows(tr: seq<State>, k: nat)
    requires 0 < k < |tr|
  {
    Next(tr[k - 1], tr[k])
  }

  /** A run: any interleaving of any number of connections and moderators. */
  ghost predicate Run(tr: seq<State>) {
    && |tr| > 0 && Init(tr[0])
    && forall k | 0 < k < |tr| :: Follows(tr, k)
  }
}
