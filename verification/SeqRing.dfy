/** The lock-free-read ring, one atomic load or store a step.

    Any number of goroutines broadcast, close the ring, subscribe, receive and
    close subscriptions; a state is what they share together with where each of
    them stands, and a step moves one of them across one atomic operation.
    Sequence numbers are unbounded naturals. */
module SeqRing {
  import opened Bits
  import opened Fanout

  /** The seqlock and the slots; `log` is every frame ever published, in order. */
  datatype Memory = Memory(cap: nat, buf: seq<Option<Msg>>, begin: nat, published: nat, log: seq<Msg>)

  datatype Counters = Counters(waiters: int, subs: int, drops: nat)

  /** The ring's own fields. A notify channel is named by how many were swapped
      out before it; `shut` is the closed ones. */
  datatype Shared = Shared(
    mem: Memory, closed: bool, notify: nat, shut: set<nat>, n: Counters, lock: Option<nat>)

  datatype Job = Send(msg: Msg) | Shutdown

  /** Where a goroutine inside `Broadcast` or `SeqRing.Close` stands: the atomic
      operation it does next. */
  datatype WriterPc =
    | WLock | WCheck | WLoad | WBegin(s: nat) | WSlot(s: nat) | WPublish(s: nat)
    | WWaiters | WClosed | WSwap | WUnlock(wake: Option<nat>) | WWake(ch: nat)
    | WDone | WPanic

  /** `place` is where in the log its frame was published; it steers nothing. */
  datatype Writer = Writer(job: Job, pc: WriterPc, place: Option<nat>)

  datatype Phase = StoreErr | DecSubs | CloseDone

  /** The state of a subscription's `sync.Once`; `who` is the closer inside it,
      or nobody for the subscription's own reader. `Broken` is the panic of
      closing `done` a second time. */
  datatype Once = Fresh | Running(who: Option<nat>, phase: Phase, err: Error) | Done | Broken

  /** How a subscription ends; `counted` is whether it is still in `subs`. */
  datatype End = End(err: Option<Error>, once: Once, done: bool, counted: bool)

  datatype ReaderPc =
    | RCountIn | RSubCheck | RSubLoad | RSubFinish
    | RIdle
    | RLoadErr | RLoadPub | RCheckClosed | RLoadNotify | RAddWaiter(ch: nat)
    | RRecheckPub(ch: nat) | RRecheckClosed(ch: nat) | RParked(ch: nat) | RDropWaiter
    | RCopy(pub: nat) | RValidate(pub: nat) | RCountDrop(pub: nat) | RFinish(err: Error)
    | RPanic

  /** The record of one finished `Recv`: where the cursor stood, the published
      count it went by, and what it returned. `atCall` is the published count
      when the call began, `missed` whether a validation failed during it, and
      `stored` whether it found the subscription already ended. */
  datatype Call = Call(len: nat, start: nat, pub: nat, atCall: nat, missed: bool, stored: bool, outcome: Outcome)

  /** The frames a subscriber's calls have handed it, in order. */
  function Received(calls: seq<Call>): seq<Msg> {
    if calls == [] then []
    else Received(calls[..|calls| - 1]) + (match calls[|calls| - 1].outcome case Data(ms) => ms case _ => [])
  }

  /** What happened to a subscription so far; steers nothing. */
  datatype History = History(origin: nat, dropped: bool, missed: bool, atCall: nat, calls: seq<Call>)

  /** A subscription and its one reader, with `Recv`'s locals. */
  datatype Reader = Reader(
    pc: ReaderPc, pos: nat, start: nat, dst: seq<Msg>, len: nat, end: End, h: History)

  /** A goroutine inside `Sub.Close` of subscription `sub`. */
  datatype Closer = Closer(sub: nat, finished: bool)

  datatype State = State(sh: Shared, writers: seq<Writer>, readers: seq<Reader>, closers: seq<Closer>)

  datatype Step =
    | Spawn(job: Job) | Subscribe | CallRecv(r: nat, len: nat) | CallClose(r: nat)
    | MoveWriter(w: nat) | MoveReader(r: nat) | MoveCloser(c: nat)

  // ---------------------------------------------------------------- steps

  predicate WriterEnabled(sh: Shared, w: Writer) {
    && w.pc != WDone && w.pc != WPanic
    && (w.pc == WLock ==> sh.lock == None)
  }

  ghost predicate WellSized(m: Memory) {
    IsPow2(m.cap) && |m.buf| == m.cap
  }

  function Payload(w: Writer): Msg {
    if w.job.Send? then w.job.msg else []
  }

  /** The three stores of the seqlock, in their order. */
  ghost function Store(m: Memory, w: Writer): Memory
    requires WellSized(m)
  {
    match w.pc
    case WBegin(s) => m.(begin := s + 1)
    case WSlot(s) => m.(buf := m.buf[Slot(m.cap, s) := Some(Payload(w))])
    case WPublish(s) => m.(published := s + 1, log := m.log + [Payload(w)])
    case _ => m
  }

  ghost function WriterStep(sh: Shared, me: nat, w: Writer): (Shared, Writer)
    requires WellSized(sh.mem) && WriterEnabled(sh, w)
  {
    match w.pc
    case WLock => (sh.(lock := Some(me)), w.(pc := WCheck))
    case WCheck =>
      if sh.closed then (sh, w.(pc := WUnlock(None)))
      else (sh, w.(pc := if w.job.Send? then WLoad else WClosed))
    case WLoad => (sh, w.(pc := WBegin(sh.mem.published)))
    case WBegin(s) => (sh.(mem := Store(sh.mem, w)), w.(pc := WSlot(s)))
    case WSlot(s) => (sh.(mem := Store(sh.mem, w)), w.(pc := WPublish(s)))
    case WPublish(s) => (sh.(mem := Store(sh.mem, w)), w.(pc := WWaiters, place := Some(|sh.mem.log|)))
    case WWaiters => (sh, w.(pc := if sh.n.waiters > 0 then WSwap else WUnlock(None)))
    case WClosed => (sh.(closed := true), w.(pc := WSwap))
    case WSwap => (sh.(notify := sh.notify + 1), w.(pc := WUnlock(Some(sh.notify))))
    case WUnlock(wake) =>
      (sh.(lock := None), w.(pc := if wake.Some? then WWake(wake.value) else WDone))
    case WWake(ch) =>
      if ch in sh.shut then (sh, w.(pc := WPanic))
      else (sh.(shut := sh.shut + {ch}), w.(pc := WDone))
    case WDone => (sh, w)
    case WPanic => (sh, w)
  }

  /** A goroutine at `once.Do(finish(err))`: others wait while one is inside. */
  predicate OnceEnabled(e: End, who: Option<nat>) {
    e.once.Running? ==> e.once.who == who
  }

  function OnceStep(n: Counters, e: End, who: Option<nat>, err: Error): (Counters, End) {
    match e.once
    case Fresh => (n, e.(once := Running(who, StoreErr, err)))
    case Running(b, StoreErr, x) => (n, e.(err := Some(x), once := Running(b, DecSubs, x)))
    case Running(b, DecSubs, x) =>
      (n.(subs := n.subs - 1), e.(counted := false, once := Running(b, CloseDone, x)))
    case Running(b, CloseDone, x) => (n, if e.done then e.(once := Broken) else e.(done := true, once := Done))
    case Done => (n, e)
    case Broken => (n, e)
  }

  function Return(r: Reader, pub: nat, stored: bool, o: Outcome): Reader {
    r.(pc := RIdle,
       h := r.h.(calls := r.h.calls + [Call(r.len, r.start, pub, r.h.atCall, r.h.missed, stored, o)]))
  }

  predicate AtOnce(pc: ReaderPc) {
    pc.RFinish? || pc.RSubFinish?
  }

  predicate ReaderEnabled(sh: Shared, r: Reader) {
    && r.pc != RIdle && r.pc != RPanic && r.end.once != Broken
    && (r.pc.RParked? ==> r.pc.ch in sh.shut || r.end.done)
    && (AtOnce(r.pc) ==> OnceEnabled(r.end, None))
  }

  /** Steps that touch a counter: what the reader does to it, and where it goes. */
  predicate Counting(pc: ReaderPc) {
    pc.RCountIn? || pc.RAddWaiter? || pc.RDropWaiter? || pc.RCountDrop?
  }

  function CountStep(n: Counters, r: Reader): (Counters, Reader)
    requires Counting(r.pc)
  {
    match r.pc
    case RCountIn => (n.(subs := n.subs + 1), r.(end := r.end.(counted := true), pc := RSubCheck))
    case RAddWaiter(ch) => (n.(waiters := n.waiters + 1), r.(pc := RRecheckPub(ch)))
    case RDropWaiter => (n.(waiters := n.waiters - 1), r.(pc := RLoadErr))
    case RCountDrop(pub) => (n.(drops := n.drops + 1), r.(h := r.h.(dropped := true), pc := RFinish(ErrLagged)))
  }

  /** Inside `once.Do`, and out of it. */
  function FinishStep(sh: Shared, r: Reader): (Counters, Reader)
    requires AtOnce(r.pc)
  {
    if r.end.once.Done? then
      (sh.n, if r.pc.RFinish? then Return(r, sh.mem.published, false, Ended(r.pc.err)) else r.(pc := RIdle))
    else
      var (n, e) := OnceStep(sh.n, r.end, None, if r.pc.RFinish? then r.pc.err else ErrClosed);
      (n, r.(end := e))
  }

  /** The copy loop's load of one slot. A nil slot would be dereferenced. */
  ghost function CopyStep(m: Memory, r: Reader): Reader
    requires WellSized(m) && r.pc.RCopy?
  {
    match m.buf[Slot(m.cap, r.pos)]
    case None => r.(pc := RPanic)
    case Some(frame) =>
      var more := r.pos + 1 < r.pc.pub && |r.dst| + 1 < r.len;
      r.(dst := r.dst + [frame], pos := r.pos + 1, pc := if more then r.pc else RValidate(r.pc.pub))
  }

  /** Steps that only load. */
  predicate Loading(pc: ReaderPc) {
    !Counting(pc) && !AtOnce(pc) && !pc.RCopy?
  }

  function LoadStep(sh: Shared, r: Reader): Reader
    requires Loading(r.pc)
  {
    var pub := sh.mem.published;
    match r.pc
    case RSubCheck => r.(pc := if sh.closed then RSubFinish else RSubLoad)
    case RSubLoad => r.(pos := pub, h := r.h.(origin := pub), pc := RIdle)
    case RLoadErr =>
      if r.end.err.Some? then Return(r.(start := r.pos), pub, true, Ended(r.end.err.value)) else r.(pc := RLoadPub)
    case RLoadPub =>
      if pub == r.pos then r.(pc := RCheckClosed)
      else if pub - r.pos > sh.mem.cap then r.(start := r.pos, pc := RCountDrop(pub))
      else r.(start := r.pos, dst := [], pc := RCopy(pub))
    case RCheckClosed => if sh.closed then r.(start := r.pos, pc := RFinish(ErrClosed)) else r.(pc := RLoadNotify)
    case RLoadNotify => r.(pc := RAddWaiter(sh.notify))
    case RRecheckPub(ch) => r.(pc := if pub != r.pos then RDropWaiter else RRecheckClosed(ch))
    case RRecheckClosed(ch) => r.(pc := if sh.closed then RDropWaiter else RParked(ch))
    case RParked(ch) => r.(pc := RDropWaiter)
    case RValidate(p) =>
      if sh.mem.begin - r.start > sh.mem.cap then r.(pos := r.start, h := r.h.(missed := true), pc := RLoadErr)
      else Return(r, p, false, Data(r.dst))
    case RIdle => r
    case RPanic => r
  }

  /** A reader's step changes no more than the counters and itself. */
  ghost function ReaderStep(sh: Shared, r: Reader): (Counters, Reader)
    requires WellSized(sh.mem) && ReaderEnabled(sh, r)
  {
    if Counting(r.pc) then CountStep(sh.n, r)
    else if AtOnce(r.pc) then FinishStep(sh, r)
    else if r.pc.RCopy? then (sh.n, CopyStep(sh.mem, r))
    else (sh.n, LoadStep(sh, r))
  }

  /** A subscription fresh from `&seqSub{...}`. */
  const NEW_SUB: Reader := Reader(RCountIn, 0, 0, [], 0, End(None, Fresh, false, false), History(0, false, false, 0, []))

  predicate Subscribing(pc: ReaderPc) {
    pc.RCountIn? || pc.RSubCheck? || pc.RSubLoad? || pc.RSubFinish?
  }

  ghost predicate Enabled(s: State, step: Step) {
    && WellSized(s.sh.mem)
    && match step
       case Spawn(_) => true
       case Subscribe => true
       case CallRecv(r, len) => r < |s.readers| && s.readers[r].pc == RIdle && len > 0
       case CallClose(r) => r < |s.readers| && !Subscribing(s.readers[r].pc)
       case MoveWriter(w) => w < |s.writers| && WriterEnabled(s.sh, s.writers[w])
       case MoveReader(r) => r < |s.readers| && ReaderEnabled(s.sh, s.readers[r])
       case MoveCloser(c) =>
         && c < |s.closers| && !s.closers[c].finished && s.closers[c].sub < |s.readers|
         && s.readers[s.closers[c].sub].end.once != Broken
         && OnceEnabled(s.readers[s.closers[c].sub].end, Some(c))
  }

  ghost function Apply(s: State, step: Step): State
    requires Enabled(s, step)
  {
    match step
    case Spawn(job) => s.(writers := s.writers + [Writer(job, WLock, None)])
    case Subscribe => s.(readers := s.readers + [NEW_SUB])
    case CallRecv(r, len) =>
      var x := s.readers[r];
      s.(readers := s.readers[r := x.(pc := RLoadErr, len := len, h := x.h.(missed := false, atCall := s.sh.mem.published))])
    case CallClose(r) => s.(closers := s.closers + [Closer(r, false)])
    case MoveWriter(w) =>
      var (sh, x) := WriterStep(s.sh, w, s.writers[w]);
      s.(sh := sh, writers := s.writers[w := x])
    case MoveReader(r) =>
      var (n, x) := ReaderStep(s.sh, s.readers[r]);
      s.(sh := s.sh.(n := n), readers := s.readers[r := x])
    case MoveCloser(c) =>
      var k := s.closers[c].sub;
      var r := s.readers[k];
      if r.end.once.Done? then s.(closers := s.closers[c := Closer(k, true)])
      else
        var (n, e) := OnceStep(s.sh.n, r.end, Some(c), ErrClosed);
        s.(sh := s.sh.(n := n), readers := s.readers[k := r.(end := e)])
  }

  /** `NewSeqRing(capacity)`. */
  ghost predicate Init(s: State, capacity: int) {
    && var cap := RingSize(capacity);
    && s.sh == Shared(Memory(cap, seq(cap, _ => None), 0, 0, []), false, 0, {}, Counters(0, 0, 0), None)
    && s.writers == [] && s.readers == [] && s.closers == []
  }

  ghost predicate Next(s: State, s': State) {
    exists step :: Enabled(s, step) && s' == Apply(s, step)
  }

  ghost predicate Follows(tr: seq<State>, k: nat)
    requires 0 < k < |tr|
  {
    Next(tr[k - 1], tr[k])
  }

  /** A run: any interleaving of any number of goroutines. */
  ghost predicate Run(tr: seq<State>, capacity: int) {
    && |tr| > 0 && Init(tr[0], capacity)
    && forall k | 0 < k < |tr| :: Follows(tr, k)
  }
}
