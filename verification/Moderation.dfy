/** Who is muted and banned, where and until when. Instants are integers, and 0,
    the zero time, stands for no end. Mutes and bans are two books of one kind. */
module Moderation {
  import opened Fanout

  const GLOBAL := ""

  datatype Entry = Entry(scope: string, key: string)

  type Book = map<Entry, int>

  predicate Stands(until: int, now: int) {
    until == 0 || now < until
  }

  predicate StandsIn(m: Book, e: Entry, now: int) {
    e in m && Stands(m[e], now)
  }

  /** Active somewhere that covers `scope`: there, or everywhere. The clock is read
      anew for the second place. */
  predicate Active(m: Book, scope: string, key: string, now: int, again: int) {
    StandsIn(m, Entry(scope, key), now) || StandsIn(m, Entry(GLOBAL, key), if scope == GLOBAL then now else again)
  }

  /** Until when: the scope's own entry speaks before the global one. */
  function Until(m: Book, scope: string, key: string, now: int, again: int): int
    requires Active(m, scope, key, now, again)
  {
    if StandsIn(m, Entry(scope, key), now) then m[Entry(scope, key)] else m[Entry(GLOBAL, key)]
  }

  /** Lifting reports whether there was an entry, standing or not. */
  predicate Lifts(m: Book, e: Entry) {
    e in m
  }

  function Swept(m: Book, now: int): Book {
    map e | e in m && Stands(m[e], now) :: m[e]
  }

  method Lookup(m: Book, scope: string, key: string, now: int, again: int) returns (active: bool, until: int)
    ensures active == Active(m, scope, key, now, again)
    ensures until == if active then Until(m, scope, key, now, again) else 0
  {
    var scopes := [scope];
    if scope != GLOBAL {
      scopes := scopes + [GLOBAL];
    }
    var i := 0;
    while i < |scopes|
      invariant 0 <= i <= |scopes|
      invariant i > 0 ==> !StandsIn(m, Entry(scope, key), now)
      invariant i > 1 ==> !StandsIn(m, Entry(GLOBAL, key), again)
    {
      var e := Entry(scopes[i], key);
      if e in m && Stands(m[e], if i == 0 then now else again) {
        return true, m[e];
      }
      i := i + 1;
    }
    return false, 0;
  }

  method SweepBook(m: Book, now: int) returns (kept: Book, removed: nat)
    ensures kept == Swept(m, now)
    ensures removed == |m| - |kept|
  {
    kept, removed := m, 0;
    var todo := m.Keys;
    while todo != {}
      invariant todo <= kept.Keys <= m.Keys
      invariant forall e | e in m :: e in kept <==> (e in todo || Stands(m[e], now))
      invariant forall e | e in kept :: kept[e] == m[e]
      invariant removed == |m| - |kept|
    {
      var e :| e in todo;
      todo := todo - {e};
      if !Stands(kept[e], now) {
        assert kept.Keys == (kept - {e}).Keys + {e};
        kept := kept - {e};
        removed := removed + 1;
      }
    }
    assert kept == Swept(m, now);
  }

  class Store {
    var mutes: Book
    var bans: Book

    constructor ()
      ensures mutes == map[] && bans == map[]
    {
      mutes, bans := map[], map[];
    }

    method Mute(scope: string, key: string, until: int)
      modifies this
      ensures mutes == old(mutes)[Entry(scope, key) := until] && bans == old(bans)
    {
      mutes := mutes[Entry(scope, key) := until];
    }

    method Ban(scope: string, key: string, until: int)
      modifies this
      ensures bans == old(bans)[Entry(scope, key) := until] && mutes == old(mutes)
    {
      bans := bans[Entry(scope, key) := until];
    }

    /** Lifts only this scope's: a global one was a separate decision. */
    method Unmute(scope: string, key: string) returns (ok: bool)
      modifies this
      ensures ok == Lifts(old(mutes), Entry(scope, key))
      ensures mutes == old(mutes) - {Entry(scope, key)} && bans == old(bans)
    {
      ok := Entry(scope, key) in mutes;
      mutes := mutes - {Entry(scope, key)};
    }

    method Unban(scope: string, key: string) returns (ok: bool)
      modifies this
      ensures ok == Lifts(old(bans), Entry(scope, key))
      ensures bans == old(bans) - {Entry(scope, key)} && mutes == old(mutes)
    {
      ok := Entry(scope, key) in bans;
      bans := bans - {Entry(scope, key)};
    }

    method Muted(scope: string, key: string, now: int, again: int) returns (active: bool, until: int)
      ensures active == Active(mutes, scope, key, now, again)
      ensures until == if active then Until(mutes, scope, key, now, again) else 0
    {
      active, until := Lookup(mutes, scope, key, now, again);
    }

    method Banned(scope: string, key: string, now: int, again: int) returns (active: bool, until: int)
      ensures active == Active(bans, scope, key, now, again)
      ensures until == if active then Until(bans, scope, key, now, again) else 0
    {
      active, until := Lookup(bans, scope, key, now, again);
    }

    method Sweep(now: int) returns (removed: nat)
      modifies this
      ensures mutes == Swept(old(mutes), now) && bans == Swept(old(bans), now)
      ensures removed == |old(mutes)| - |mutes| + |old(bans)| - |bans|
    {
      var m, b: nat;
      mutes, m := SweepBook(mutes, now);
      bans, b := SweepBook(bans, now);
      removed := m + b;
    }
  }

  // ------------------------------------------------------------ what is answered

  function After(ops: seq<Op>): Book {
    if ops == [] then map[] else Step(After(ops[..|ops| - 1]), ops[|ops| - 1])
  }

  /** What was last put there, unless that was lifted. */
  function Left(ops: seq<Op>, e: Entry): Option<int> {
    if ops == [] then None
    else
      match ops[|ops| - 1]
      case Put(x, until) => if x == e then Some(until) else Left(ops[..|ops| - 1], e)
      case Lift(x) => if x == e then None else Left(ops[..|ops| - 1], e)
      case _ => Left(ops[..|ops| - 1], e)
  }

  predicate Unexpired(until: Option<int>, now: int) {
    until.Some? && (until.value == 0 || now < until.value)
  }

  predicate SweptBy(ops: seq<Op>, now: int) {
    forall k | 0 <= k < |ops| && ops[k].Tidy? :: ops[k].now <= now
  }

  lemma {:induction false} StandsIffLeft(ops: seq<Op>, e: Entry, now: int)
    requires SweptBy(ops, now)
    ensures StandsIn(After(ops), e, now) <==> Unexpired(Left(ops, e), now)
    ensures StandsIn(After(ops), e, now) ==> After(ops)[e] == Left(ops, e).value
  {
    if ops != [] {
      StandsIffLeft(ops[..|ops| - 1], e, now);
    }
  }

  /** After any settings, liftings, questions and sweeps, the answer is what was last
      put in this scope and neither lifted nor expired since, or else what was last
      put everywhere, or else no. */
  lemma AnswerIsLastPut(ops: seq<Op>, scope: string, key: string, now: int, again: int)
    requires SweptBy(ops, now) && now <= again
    ensures var own, all := Left(ops, Entry(scope, key)), Left(ops, Entry(GLOBAL, key));
      Told(After(ops), Ask(scope, key, now, again)) ==
      [if Unexpired(own, now) then own else if Unexpired(all, again) then all else None]
  {
    StandsIffLeft(ops, Entry(scope, key), now);
    StandsIffLeft(ops, Entry(GLOBAL, key), now);
    StandsIffLeft(ops, Entry(GLOBAL, key), again);
  }

  /** Neither a question, nor a sweep, nor anything done elsewhere. */
  predicate Elsewhere(ops: seq<Op>, e: Entry) {
    forall k | 0 <= k < |ops| && (ops[k].Put? || ops[k].Lift?) :: ops[k].e != e
  }

  lemma {:induction false} LeftStays(ops: seq<Op>, e: Entry, more: seq<Op>)
    requires Elsewhere(more, e)
    ensures Left(ops + more, e) == Left(ops, e)
  {
    if more == [] {
      assert ops + more == ops;
    } else {
      assert (ops + more)[..|ops + more| - 1] == ops + more[..|more| - 1];
      LeftStays(ops, e, more[..|more| - 1]);
    }
  }

  /** Once set, here or everywhere, it is in force until it expires or its own entry
      is set anew or lifted, whatever else is done; once lifted it is not, unless set
      in the other place. */
  lemma InForceUntil(ops: seq<Op>, op: Op, more: seq<Op>, scope: string, key: string, now: int, again: int)
    requires (op.Put? || op.Lift?) && op.e.key == key && Elsewhere(more, op.e)
    requires SweptBy(ops + [op] + more, now) && now <= again
    ensures var told := Told(After(ops + [op] + more), Ask(scope, key, now, again));
      && (op.Put? && (op.e.scope == scope || op.e.scope == GLOBAL) && (op.until == 0 || again < op.until) ==>
            told[0].Some? && (op.e.scope == scope ==> told == [Some(op.until)]))
      && (op.Lift? && op.e.scope == scope ==>
            var all := Left(ops + more, Entry(GLOBAL, key));
            told == [if scope != GLOBAL && Unexpired(all, again) then all else None])
  {
    AnswerIsLastPut(ops + [op] + more, scope, key, now, again);
    assert (ops + [op])[..|ops|] == ops;
    LeftStays(ops + [op], op.e, more);
    assert Left(ops + [op], op.e) == if op.Put? then Some(op.until) else None;
    if op.Lift? && op.e.scope == scope && scope != GLOBAL {
      LeftWithout(ops, op, more, Entry(GLOBAL, key));
    }
  }

  lemma {:induction false} LeftWithout(ops: seq<Op>, op: Op, more: seq<Op>, e: Entry)
    requires Elsewhere([op], e)
    ensures Left(ops + [op] + more, e) == Left(ops + more, e)
  {
    if more == [] {
      assert ops + [] == ops && ops + [op] + [] == ops + [op];
      LeftStays(ops, e, [op]);
    } else {
      var n := |more| - 1;
      assert (ops + [op] + more)[..|ops| + 1 + n] == ops + [op] + more[..n];
      assert (ops + more)[..|ops| + n] == ops + more[..n];
      LeftWithout(ops, op, more[..n], e);
    }
  }

  // ------------------------------------------------------------ housekeeping

  datatype Op = Put(e: Entry, until: int) | Lift(e: Entry) | Ask(scope: string, key: string, now: int, again: int) | Tidy(now: int)

  function Step(m: Book, op: Op): Book {
    match op
    case Put(e, until) => m[e := until]
    case Lift(e) => m - {e}
    case Ask(_, _, _, _) => m
    case Tidy(now) => Swept(m, now)
  }

  function Told(m: Book, op: Op): seq<Option<int>> {
    if op.Ask? then
      [if Active(m, op.scope, op.key, op.now, op.again) then Some(Until(m, op.scope, op.key, op.now, op.again)) else None]
    else []
  }

  function Answers(m: Book, ops: seq<Op>): seq<Option<int>>
    decreases |ops|
  {
    if ops == [] then [] else Told(m, ops[0]) + Answers(Step(m, ops[0]), ops[1..])
  }

  function Then(op: Op, clock: int): int {
    match op
    case Ask(_, _, _, again) => again
    case Tidy(now) => now
    case _ => clock
  }

  predicate Timed(ops: seq<Op>, clock: int)
    decreases |ops|
  {
    ops == [] || (
      && clock <= Then(ops[0], clock) && (ops[0].Ask? ==> clock <= ops[0].now <= ops[0].again)
      && Timed(ops[1..], Then(ops[0], clock)))
  }

  function Untidied(ops: seq<Op>): seq<Op> {
    if ops == [] then [] else (if ops[0].Tidy? then [] else [ops[0]]) + Untidied(ops[1..])
  }

  /** The same entries stand, from the clock on. */
  ghost predicate Alike(a: Book, b: Book, clock: int) {
    && (forall e :: StandsIn(a, e, clock) <==> StandsIn(b, e, clock))
    && (forall e | StandsIn(a, e, clock) :: a[e] == b[e])
  }

  lemma AlikeLater(a: Book, b: Book, clock: int, now: int, e: Entry)
    requires Alike(a, b, clock) && clock <= now
    ensures StandsIn(a, e, now) <==> StandsIn(b, e, now)
    ensures StandsIn(a, e, now) ==> a[e] == b[e]
  {
    assert StandsIn(a, e, now) ==> StandsIn(a, e, clock);
    assert StandsIn(b, e, now) ==> StandsIn(b, e, clock);
  }

  lemma AlikeTells(a: Book, b: Book, clock: int, op: Op)
    requires Alike(a, b, clock) && op.Ask? && clock <= op.now <= op.again
    ensures Told(a, op) == Told(b, op) && Alike(a, b, op.again)
  {
    AlikeLater(a, b, clock, op.now, Entry(op.scope, op.key));
    AlikeLater(a, b, clock, op.now, Entry(GLOBAL, op.key));
    AlikeLater(a, b, clock, op.again, Entry(GLOBAL, op.key));
    forall e ensures StandsIn(a, e, op.again) <==> StandsIn(b, e, op.again) {
      AlikeLater(a, b, clock, op.again, e);
    }
    forall e | StandsIn(a, e, op.again) ensures a[e] == b[e] {
      AlikeLater(a, b, clock, op.again, e);
    }
  }

  lemma TidyIsAlike(a: Book, b: Book, clock: int, now: int)
    requires Alike(a, b, clock) && clock <= now
    ensures Alike(Swept(a, now), b, now)
  {
    forall e ensures StandsIn(Swept(a, now), e, now) <==> StandsIn(b, e, now) {
      AlikeLater(a, b, clock, now, e);
    }
    forall e | StandsIn(Swept(a, now), e, now) ensures Swept(a, now)[e] == b[e] {
      AlikeLater(a, b, clock, now, e);
    }
  }

  lemma EditKeepsAlike(a: Book, b: Book, clock: int, op: Op)
    requires Alike(a, b, clock) && (op.Put? || op.Lift?)
    ensures Alike(Step(a, op), Step(b, op), clock)
  {
    forall e ensures StandsIn(Step(a, op), e, clock) <==> StandsIn(Step(b, op), e, clock) {
      assert StandsIn(a, e, clock) <==> StandsIn(b, e, clock);
    }
    forall e | StandsIn(Step(a, op), e, clock) ensures Step(a, op)[e] == Step(b, op)[e] {
      assert StandsIn(a, e, clock) ==> a[e] == b[e];
    }
  }

  /** No question is ever answered differently for a sweep, whatever else happens,
      as long as the clock never goes back. */
  lemma {:induction false} SweepIsOnlyHousekeeping(a: Book, b: Book, ops: seq<Op>, clock: int)
    requires Alike(a, b, clock) && Timed(ops, clock)
    ensures Answers(a, ops) == Answers(b, Untidied(ops))
    decreases |ops|
  {
    if ops != [] {
      var op, rest := ops[0], ops[1..];
      if op.Tidy? {
        TidyIsAlike(a, b, clock, op.now);
        SweepIsOnlyHousekeeping(Step(a, op), b, rest, op.now);
        assert Untidied(ops) == Untidied(rest);
      } else {
        if op.Ask? {
          AlikeTells(a, b, clock, op);
        } else {
          EditKeepsAlike(a, b, clock, op);
        }
        assert Untidied(ops)[1..] == Untidied(rest);
        SweepIsOnlyHousekeeping(Step(a, op), Step(b, op), rest, Then(op, clock));
      }
    }
  }

  /** So lifting does see a sweep: what `Unmute` and `Unban` return changes exactly
      if the entry was there and had expired. */
  lemma LiftingSeesSweep(m: Book, e: Entry, now: int)
    ensures Lifts(Swept(m, now), e) != Lifts(m, e) <==> e in m && m[e] != 0 && m[e] <= now
    ensures Swept(m, now) - {e} == Swept(m - {e}, now)
  {
  }
}
