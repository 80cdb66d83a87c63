/** Writes held back while any writer is in, and sent as one by the last out. */
module Cork {
  import opened Fanout

  /** What the socket makes of one write: an error, having taken some of it, or all. */
  datatype Reply = Reply(ok: bool, taken: nat)

  /** `calls` counts the socket's writes; `broken` once one of them failed. */
  datatype Socket = Socket(sent: seq<Byte>, calls: nat, armed: bool, broken: bool)

  datatype Conn = Conn(sock: Socket, writers: nat, held: Option<seq<Byte>>)

  datatype Op = Corking | Uncorking(reply: Reply) | Writing(p: seq<Byte>, reply: Reply)

  function Send(s: Socket, p: seq<Byte>, r: Reply): Socket {
    var part := if r.ok then p else p[..Min(r.taken, |p|)];
    s.(sent := s.sent + part, calls := s.calls + 1, broken := s.broken || !r.ok)
  }

  function Held(c: Conn): seq<Byte> {
    if c.held.Some? then c.held.value else []
  }

  /** Only who is in may leave. */
  predicate Legal(c: Conn, op: Op) {
    op.Uncorking? ==> c.writers > 0
  }

  function Step(c: Conn, op: Op): Conn
    requires Legal(c, op)
  {
    match op
    case Corking => c.(writers := c.writers + 1, sock := c.sock.(armed := true))
    case Writing(p, r) =>
      if c.writers == 0 then c.(sock := Send(c.sock, p, r)) else c.(held := Some(Held(c) + p))
    case Uncorking(r) =>
      if c.writers > 1 then c.(writers := c.writers - 1)
      else
        var sock := if c.held.Some? then Send(c.sock, c.held.value, r) else c.sock;
        Conn(sock.(armed := false), 0, None)
  }

  class CorkConn {
    var sock: Socket
    var writers: nat
    var held: Option<seq<Byte>>

    function View(): Conn
      reads this
    {
      Conn(sock, writers, held)
    }

    constructor ()
      ensures View() == Conn(Socket([], 0, false, false), 0, None)
    {
      sock, writers, held := Socket([], 0, false, false), 0, None;
    }

    method Write(p: seq<Byte>, reply: Reply) returns (n: nat, ok: bool)
      modifies this
      ensures View() == Step(old(View()), Writing(p, reply))
      ensures old(writers) > 0 ==> ok && n == |p|
      ensures old(writers) == 0 ==> ok == reply.ok && n == (if reply.ok then |p| else Min(reply.taken, |p|))
      ensures sock.sent == old(sock.sent) + (if old(writers) == 0 then p[..n] else [])
    {
      if writers == 0 {
        sock := Send(sock, p, reply);
        return (if reply.ok then |p| else Min(reply.taken, |p|)), reply.ok;
      }
      if held == None {
        held := Some([]);
      }
      held := Some(held.value + p);
      return |p|, true;
    }

    method Cork()
      modifies this
      ensures View() == Step(old(View()), Corking)
    {
      writers := writers + 1;
      sock := sock.(armed := true);
    }

    /** Its error may belong to another writer. */
    method Uncork(reply: Reply) returns (ok: bool)
      requires writers > 0
      modifies this
      ensures View() == Step(old(View()), Uncorking(reply))
      ensures ok == (writers > 0 || old(held).None? || reply.ok)
    {
      writers := writers - 1;
      if writers > 0 {
        return true;
      }
      ok := true;
      if held.Some? {
        sock := Send(sock, held.value, reply);
        ok := reply.ok;
        held := None;
      }
      sock := sock.(armed := false);
    }
  }

  // ------------------------------------------------------------ any interleaving

  predicate AllLegal(c: Conn, ops: seq<Op>)
    decreases |ops|
  {
    ops == [] || (Legal(c, ops[0]) && AllLegal(Step(c, ops[0]), ops[1..]))
  }

  function Play(c: Conn, ops: seq<Op>): Conn
    requires AllLegal(c, ops)
    decreases |ops|
  {
    if ops == [] then c else Play(Step(c, ops[0]), ops[1..])
  }

  /** Everything written, by anybody, in order. */
  function Written(ops: seq<Op>): seq<Byte> {
    if ops == [] then [] else (if ops[0].Writing? then ops[0].p else []) + Written(ops[1..])
  }

  predicate Quiet(c: Conn) {
    && (c.writers == 0 ==> c.held == None)
    && (c.sock.armed <==> c.writers > 0)
  }

  /** A writer is counted from when it comes in until it leaves. */
  lemma {:induction false} WritersAreCounted(c: Conn, ops: seq<Op>)
    requires AllLegal(c, ops)
    ensures Play(c, ops).writers + Count(ops, false) == c.writers + Count(ops, true)
    decreases |ops|
  {
    if ops != [] {
      WritersAreCounted(Step(c, ops[0]), ops[1..]);
    }
  }

  /** How many of them let a writer in, or out. */
  function Count(ops: seq<Op>, enters: bool): nat {
    if ops == [] then 0
    else (if (if enters then ops[0].Corking? else ops[0].Uncorking?) then 1 else 0) + Count(ops[1..], enters)
  }

  lemma {:induction false} BrokenStays(c: Conn, ops: seq<Op>)
    requires AllLegal(c, ops) && c.sock.broken
    ensures Play(c, ops).sock.broken
    decreases |ops|
  {
    if ops != [] {
      BrokenStays(Step(c, ops[0]), ops[1..]);
    }
  }

  lemma OneOp(c: Conn, op: Op)
    requires Legal(c, op) && Quiet(c) && !Step(c, op).sock.broken
    ensures Step(c, op).sock.sent + Held(Step(c, op)) == c.sock.sent + Held(c) + (if op.Writing? then op.p else [])
  {
  }

  /** Whatever writers overlap, until the socket first fails the bytes it was given
      and then those held are all that was written, in order. Nothing is held with
      no writer in, and the deadline is armed exactly while one is. */
  lemma {:induction false} NothingLostOrReordered(c: Conn, ops: seq<Op>)
    requires AllLegal(c, ops) && Quiet(c)
    ensures Quiet(Play(c, ops))
    ensures !Play(c, ops).sock.broken ==>
              Play(c, ops).sock.sent + Held(Play(c, ops)) == c.sock.sent + Held(c) + Written(ops)
    decreases |ops|
  {
    if ops != [] {
      var d := Step(c, ops[0]);
      NothingLostOrReordered(d, ops[1..]);
      if !Play(c, ops).sock.broken {
        if d.sock.broken {
          BrokenStays(d, ops[1..]);
          assert false;
        }
        OneOp(c, ops[0]);
        var w := if ops[0].Writing? then ops[0].p else [];
        assert c.sock.sent + Held(c) + w + Written(ops[1..]) == c.sock.sent + Held(c) + (w + Written(ops[1..]));
      }
    }
  }

  /** Whatever the socket is asked to write it takes whole. */
  predicate AllTaken(ops: seq<Op>) {
    forall k | 0 <= k < |ops| && !ops[k].Corking? :: ops[k].reply.ok
  }

  /** It fails only by an error of its own: a socket that takes whatever it is given
      has been sent all that was written, but for what is held. */
  lemma {:induction false} TakenIsUnbroken(c: Conn, ops: seq<Op>)
    requires AllLegal(c, ops) && Quiet(c) && !c.sock.broken && AllTaken(ops)
    ensures !Play(c, ops).sock.broken
    ensures Play(c, ops).sock.sent + Held(Play(c, ops)) == c.sock.sent + Held(c) + Written(ops)
    decreases |ops|
  {
    NothingLostOrReordered(c, ops);
    if ops != [] {
      assert AllTaken(ops[1..]) by {
        assert forall k | 0 <= k < |ops[1..]| :: ops[1..][k] == ops[k + 1];
      }
      TakenIsUnbroken(Step(c, ops[0]), ops[1..]);
    }
  }

  lemma OneOpCuts(c: Conn, op: Op)
    requires Legal(c, op) && Quiet(c)
    ensures Step(c, op).sock.sent <= c.sock.sent + Held(c) + (if op.Writing? then op.p else [])
  {
  }

  /** Even as it fails the socket has been given a beginning of what was written. */
  lemma FailureCutsShort(c: Conn, ops: seq<Op>, op: Op)
    requires AllLegal(c, ops) && Quiet(c) && !Play(c, ops).sock.broken && Legal(Play(c, ops), op)
    ensures Step(Play(c, ops), op).sock.sent <= c.sock.sent + Held(c) + Written(ops) + (if op.Writing? then op.p else [])
  {
    NothingLostOrReordered(c, ops);
    OneOpCuts(Play(c, ops), op);
  }

  // ------------------------------------------------------------ one period

  /** None of these lets the last writer out. */
  predicate Stays(c: Conn, ops: seq<Op>)
    decreases |ops|
  {
    ops == [] || (Legal(c, ops[0]) && Step(c, ops[0]).writers > 0 && Stays(Step(c, ops[0]), ops[1..]))
  }

  predicate Wrote(ops: seq<Op>) {
    exists k | 0 <= k < |ops| :: ops[k].Writing?
  }

  lemma {:induction false} OnlyHolds(c: Conn, ops: seq<Op>)
    requires c.writers > 0 && Stays(c, ops)
    ensures AllLegal(c, ops) && Play(c, ops).writers > 0
    ensures Play(c, ops).sock == c.sock.(armed := Play(c, ops).sock.armed)
    ensures Held(Play(c, ops)) == Held(c) + Written(ops)
    ensures Play(c, ops).held.Some? <==> c.held.Some? || Wrote(ops)
    decreases |ops|
  {
    if ops != [] {
      var op, rest := ops[0], ops[1..];
      OnlyHolds(Step(c, op), rest);
      WroteSplits(ops);
      var w := if op.Writing? then op.p else [];
      assert Held(c) + w + Written(rest) == Held(c) + (w + Written(rest));
    }
  }

  lemma WroteSplits(ops: seq<Op>)
    requires ops != []
    ensures Wrote(ops) <==> ops[0].Writing? || Wrote(ops[1..])
  {
    if Wrote(ops) && !ops[0].Writing? {
      var k :| 0 <= k < |ops| && ops[k].Writing?;
      assert ops[1..][k - 1].Writing?;
    } else if Wrote(ops[1..]) {
      var k :| 0 <= k < |ops[1..]| && ops[1..][k].Writing?;
      assert ops[k + 1].Writing?;
    }
  }

  /** From the first writer in to the last one out the socket sees at most one
      write, exactly one if anybody wrote, and that carries all of it in order. */
  lemma OneWriteAPeriod(c: Conn, body: seq<Op>, reply: Reply)
    requires c.writers == 0 && Quiet(c) && Stays(Step(c, Corking), body)
    ensures AllLegal(Step(c, Corking), body)
    ensures var last := Play(Step(c, Corking), body);
      last.writers == 1 ==>
        var end := Step(last, Uncorking(reply));
        && end.writers == 0 && Quiet(end)
        && end.sock.calls == c.sock.calls + (if Wrote(body) then 1 else 0)
        && last.sock.calls == c.sock.calls && last.sock.sent == c.sock.sent
        && end.sock.sent <= c.sock.sent + Written(body)
        && (reply.ok ==> end.sock.sent == c.sock.sent + Written(body))
  {
    OnlyHolds(Step(c, Corking), body);
  }
}
