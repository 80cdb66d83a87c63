/** The queue-per-subscriber baseline. Broadcasts are taken one at a time, as the
    server's per-channel lock makes them. */
module MapChan {
  import opened Fanout

  /** One subscription as a value: what is queued, and why its channel was
      closed, if it was. */
  datatype Queue = Queue(pending: seq<Msg>, ended: Option<Error>)

  function Send(size: nat, q: Queue, msg: Msg): Queue {
    if q.ended.Some? then q
    else if |q.pending| < size then q.(pending := q.pending + [msg])
    else q.(ended := Some(ErrLagged))
  }

  function End(q: Queue): Queue {
    if q.ended == None then q.(ended := Some(ErrClosed)) else q
  }

  /** A closed Go channel still yields what it holds, and only then its end. */
  function Take(q: Queue, len: nat): (Queue, Outcome)
    requires len > 0
  {
    var n := Min(len, |q.pending|);
    if n > 0 then (q.(pending := q.pending[n..]), Data(q.pending[..n]))
    else if q.ended.Some? then (q, Ended(q.ended.value))
    else (q, Park)
  }

  class MapSub {
    var ch: seq<Msg>
    var chClosed: bool
    var lagged: bool

    constructor ()
      ensures View() == Queue([], None)
    {
      ch, chClosed, lagged := [], false, false;
    }

    function View(): Queue
      reads this
    {
      Queue(ch, if !chClosed then None else if lagged then Some(ErrLagged) else Some(ErrClosed))
    }

    /** The once-only end. */
    method Finish(lag: bool)
      modifies this
      ensures View() == if old(chClosed) then old(View())
                        else Queue(old(ch), Some(if lag then ErrLagged else ErrClosed))
    {
      if !chClosed {
        lagged := lag;
        chClosed := true;
      }
    }

    /** Takes all that piled up, up to `len`; the end is for the next call. */
    method Recv(len: nat) returns (o: Outcome)
      requires len > 0
      modifies this
      ensures (View(), o) == Take(old(View()), len)
    {
      if ch == [] {
        o := if !chClosed then Park else Ended(if lagged then ErrLagged else ErrClosed);
        return;
      }
      var got := [ch[0]];
      ch := ch[1..];
      while |got| < len && ch != []
        invariant got + ch == old(ch) && 0 < |got| <= len
        invariant chClosed == old(chClosed) && lagged == old(lagged)
        decreases |ch|
      {
        got, ch := got + [ch[0]], ch[1..];
      }
      o := Data(got);
      assert got == old(ch)[..|got|] && ch == old(ch)[|got|..];
    }
  }

  class MapChan {
    const size: nat
    var subs: set<MapSub>
    var closed: bool
    var drops: nat

    constructor (buf: int)
      ensures size == (if buf < 1 then DEFAULT_BUFFER else buf) && subs == {} && !closed && drops == 0
    {
      size := if buf < 1 then DEFAULT_BUFFER else buf;
      subs, closed, drops := {}, false, 0;
    }

    /** Registered subscriptions are exactly the live ones. */
    ghost predicate Valid()
      reads this, subs
    {
      && (forall s | s in subs :: !s.chClosed && |s.ch| <= size)
      && (closed ==> subs == {})
    }

    method Subscribe() returns (s: MapSub)
      requires Valid()
      modifies this
      ensures Valid() && fresh(s) && closed == old(closed) && drops == old(drops)
      ensures s.View() == if closed then Queue([], Some(ErrClosed)) else Queue([], None)
      ensures subs == if closed then old(subs) else old(subs) + {s}
    {
      s := new MapSub();
      if closed {
        s.Finish(false);
      } else {
        subs := subs + {s};
      }
    }

    /** The first pass: an attempted send to each, and the list of the slow. */
    method SendAll(msg: Msg) returns (slow: set<MapSub>)
      requires Valid()
      modifies subs
      ensures Valid() && slow <= subs
      ensures forall s | s in subs :: (s in slow <==> |old(s.ch)| == size)
      ensures forall s | s in subs :: s.ch == if s in slow then old(s.ch) else old(s.ch) + [msg]
      ensures forall s | s in subs :: s.lagged == old(s.lagged)
    {
      slow := {};
      var todo := subs;
      while todo != {}
        invariant todo <= subs && slow <= subs && slow !! todo && Valid()
        invariant forall s | s in todo :: s.ch == old(s.ch)
        invariant forall s | s in subs - todo :: (s in slow <==> |old(s.ch)| == size)
        invariant forall s | s in subs - todo :: s.ch == if s in slow then old(s.ch) else old(s.ch) + [msg]
        invariant forall s | s in subs :: s.lagged == old(s.lagged)
        decreases |todo|
      {
        var s :| s in todo;
        if |s.ch| < size {
          s.ch := s.ch + [msg];
        } else {
          slow := slow + {s};
        }
        todo := todo - {s};
      }
    }

    method Drop(s: MapSub)
      requires Valid() && s in subs
      modifies this, s
      ensures Valid() && closed == old(closed) && subs == old(subs) - {s} && drops == old(drops) + 1
      ensures s.View() == Queue(old(s.ch), Some(ErrLagged))
    {
      subs := subs - {s};
      s.Finish(true);
      drops := drops + 1;
    }

    /** The second pass, under a lock of its own: the slow still registered are
        unregistered, ended and counted; whoever else ended one, counted it. */
    method DropAll(slow: set<MapSub>)
      requires Valid() && forall s | s in slow :: s in subs || s.chClosed
      modifies this, slow
      ensures Valid() && closed == old(closed)
      ensures subs == old(subs) - slow && drops == old(drops) + |old(subs)| - |subs|
      ensures forall s | s in slow :: s.View() == if s in old(subs) then Queue(old(s.ch), Some(ErrLagged)) else old(s.View())
    {
      var todo := slow;
      while todo != {}
        invariant Valid() && closed == old(closed) && todo <= slow && subs <= old(subs)
        invariant forall s | s in old(subs) :: s in subs <==> s !in slow || s in todo
        invariant drops + |subs| == old(drops) + |old(subs)|
        invariant forall s | s in slow && s !in todo && s in old(subs) :: s.View() == Queue(old(s.ch), Some(ErrLagged))
        invariant forall s | s in slow && s !in old(subs) :: s.View() == old(s.View())
        invariant forall s | s in todo :: s.View() == old(s.View())
        decreases |todo|
      {
        var s :| s in todo;
        if s in subs {
          Drop(s);
        }
        todo := todo - {s};
      }
    }

    method Broadcast(msg: Msg)
      requires Valid()
      modifies this, subs
      ensures Valid() && closed == old(closed)
      ensures forall s | s in old(subs) :: s.View() == Send(size, old(s.View()), msg)
      ensures forall s | s in old(subs) :: s in subs <==> s.View().ended == None
      ensures subs <= old(subs) && drops == old(drops) + |old(subs)| - |subs|
    {
      var slow := SendAll(msg);
      if slow == {} {
        return;
      }
      DropAll(slow);
    }

    method Close()
      requires Valid()
      modifies this, subs
      ensures Valid() && closed && subs == {} && drops == old(drops)
      ensures forall s | s in old(subs) :: s.View() == End(old(s.View()))
    {
      if closed {
        return;
      }
      closed := true;
      ghost var all := subs;
      while subs != {}
        invariant subs <= all && closed && drops == old(drops)
        invariant forall s | s in subs :: s.View() == old(s.View()) && !s.chClosed && |s.ch| <= size
        invariant forall s | s in all - subs :: s.View() == End(old(s.View()))
        decreases |subs|
      {
        var s :| s in subs;
        subs := subs - {s};
        s.Finish(false);
      }
    }

    /** `Sub.Close`. */
    method Remove(s: MapSub)
      requires Valid() && (s in subs || s.chClosed)
      modifies this, s
      ensures Valid() && subs == old(subs) - {s} && closed == old(closed) && drops == old(drops)
      ensures s.View() == End(old(s.View()))
    {
      if s in subs {
        subs := subs - {s};
        s.Finish(false);
      }
    }
  }

  method Filled(x: Msg) returns (m: MapChan, s: MapSub)
    ensures fresh(m) && fresh(s) && m.Valid() && m.subs == {s} && m.size == 1 && s.View() == Queue([x], None)
  {
    m := new MapChan(1);
    s := m.Subscribe();
    m.Broadcast(x);
  }

  /** What the per-channel lock is for: were two broadcasts to overlap, a reader
      between their first passes would get the second frame and never the first. */
  method OverlapSkips(x: Msg, a: Msg, b: Msg) returns (got: seq<Msg>, end: Outcome)
    ensures got == [x, b] && end == Ended(ErrLagged)
  {
    var m, s := Filled(x);
    var slowA := m.SendAll(a);
    var o := s.Recv(1);
    got := o.msgs;
    var slowB := m.SendAll(b);
    m.DropAll(slowA);
    m.DropAll(slowB);
    o := s.Recv(1);
    got := got + o.msgs;
    end := s.Recv(1);
  }
}
