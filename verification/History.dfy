/** The default replay window: the last N messages of each channel, in memory. */
module History {
  import opened Fanout

  /** What one more message does to the last `n`. */
  lemma LastStep<T>(q: seq<T>, x: T, n: nat)
    requires 0 < n
    ensures Last(q + [x], n) == if |q| < n then q + [x] else Last(q, n)[1..] + [x]
  {
    if n <= |q| {
      assert (q + [x])[|q| + 1 - n..] == q[|q| - n..][1..] + [x];
    }
  }

  lemma LastAgain<T>(q: seq<T>, x: T, n: nat)
    requires 0 < n
    ensures Last(Last(q, n) + [x], n) == Last(q + [x], n)
  {
    LastStep(q, x, n);
    LastStep(Last(q, n), x, n);
  }

  lemma LastOfLast<T>(q: seq<T>, n: nat, m: nat)
    ensures Last(Last(q, n), m) == Last(q, Min(n, m))
  {
  }

  /** A channel's window: an array filled up once, then shifted in place. */
  class Window<T> {
    const buf: array<T>
    var len: nat

    ghost predicate Valid()
      reads this
    {
      0 < buf.Length && len <= buf.Length
    }

    ghost function Contents(): seq<T>
      requires Valid()
      reads this, buf
    {
      buf[..len]
    }

    constructor (max: nat, fill: T)
      requires 0 < max
      ensures Valid() && fresh(buf) && buf.Length == max && Contents() == []
    {
      buf := new T[max](_ => fill);
      len := 0;
    }

    /** Drops the oldest, moving every other one place down. */
    method Shift()
      requires Valid() && 0 < len
      modifies this`len, buf
      ensures Valid() && Contents() == old(Contents()[1..])
    {
      var i := 0;
      while i < len - 1
        invariant 0 <= i <= len - 1
        invariant len == old(len)
        invariant forall k | 0 <= k < i :: buf[k] == old(buf[k + 1])
        invariant forall k | i <= k < len :: buf[k] == old(buf[k])
      {
        buf[i] := buf[i + 1];
        i := i + 1;
      }
      len := len - 1;
    }

    method Add(x: T)
      requires Valid()
      modifies this`len, buf
      ensures Valid() && Contents() == Last(old(Contents()) + [x], buf.Length)
    {
      LastStep(Contents(), x, buf.Length);
      if len == buf.Length {
        Shift();
      }
      buf[len] := x;
      len := len + 1;
    }
  }

  /** Every channel's window. `given` is all that was ever appended, by channel. */
  class Memory<T> {
    const max: int
    var channels: map<string, Window<T>>
    ghost var given: map<string, seq<T>>
    ghost var Repr: set<object>

    ghost function Given(channel: string): seq<T>
      reads this
    {
      if channel in given then given[channel] else []
    }

    ghost predicate Apart()
      reads this
    {
      forall a, b | a in channels && b in channels && a != b :: channels[a] != channels[b] && channels[a].buf != channels[b].buf
    }

    ghost predicate Holds(c: string)
      requires c in channels
      reads this, channels[c], channels[c].buf
    {
      && channels[c].Valid() && channels[c].buf.Length == max
      && channels[c].Contents() == Last(Given(c), max)
    }

    ghost predicate Valid()
      reads this, Repr
    {
      && this in Repr && Apart()
      && (forall c | c in channels :: channels[c] in Repr && channels[c].buf in Repr)
      && (max < 1 ==> channels == map[])
      && (forall c | c in channels :: Holds(c))
      && (0 < max ==> forall c | c !in channels :: Given(c) == [])
    }

    constructor (max: int)
      ensures Valid() && this.max == max && fresh(Repr)
      ensures forall c :: Given(c) == []
    {
      this.max := max;
      channels := map[];
      given := map[];
      Repr := {this};
    }

    /** The channel's window, made on its first message. */
    method WindowOf(channel: string, fill: T) returns (window: Window<T>)
      requires Valid() && 0 < max
      modifies this`channels, this`Repr
      ensures Valid() && fresh(Repr - old(Repr))
      ensures channel in channels && channels[channel] == window
    {
      if channel !in channels {
        window := new Window<T>(max, fill);
        channels := channels[channel := window];
        Repr := Repr + {window, window.buf};
      }
      window := channels[channel];
    }

    method AddTo(window: Window<T>, channel: string, x: T)
      requires Valid() && 0 < max && channel in channels && channels[channel] == window
      modifies this`given, window`len, window.buf
      ensures Valid() && given == old(given[channel := Given(channel) + [x]])
    {
      LastAgain(Given(channel), x, max);
      window.Add(x);
      given := given[channel := Given(channel) + [x]];
      assert Holds(channel);
      assert forall c | c in channels && c != channel :: old(Holds(c)) && Holds(c);
    }

    method Append(channel: string, x: T)
      requires Valid()
      modifies Repr
      ensures Valid() && fresh(Repr - old(Repr))
      ensures given == old(given[channel := Given(channel) + [x]])
    {
      if max < 1 {
        given := given[channel := Given(channel) + [x]];
        return;
      }
      var window := WindowOf(channel, x);
      AddTo(window, channel, x);
    }

    /** A copy of the last `n` appended, but never more than the window keeps. */
    method Recent(channel: string, n: int) returns (r: seq<T>)
      requires Valid()
      ensures r == Last(Given(channel), if n < 1 || max < 1 then 0 else Min(max, n))
    {
      if n < 1 || channel !in channels {
        return [];
      }
      var window := channels[channel];
      LastOfLast(Given(channel), max, n);
      var k := if window.len < n then window.len else n;
      r := window.buf[window.len - k..window.len];
    }
  }
}
