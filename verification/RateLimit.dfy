/** The token bucket itself, updated in place. */
module RateLimit {
  import opened Tokens

  class Bucket {
    const burst: int
    const interval: int
    var tokens: real
    var last: int

    function Bounds(): Limits {
      Limits(burst, interval)
    }

    function Held(): Level
      reads this
    {
      Level(tokens, last)
    }

    ghost predicate Valid()
      reads this
    {
      Limited(Bounds()) && Within(Bounds(), Held())
    }

    constructor (burst: int, interval: int)
      requires burst >= 1 && interval > 0
      ensures Valid() && Bounds() == Limits(burst, interval) && Held() == Full(Bounds())
    {
      this.burst, this.interval := burst, interval;
      tokens, last := burst as real, 0;
    }

    method RefillLocked(now: int)
      requires Valid()
      modifies this
      ensures Valid() && Held() == Tokens.Refill(Bounds(), old(Held()), now)
    {
      WorthNotNegative(Bounds(), Gain(Held(), now));
      if last == 0 {
        last := now;
      }
      var elapsed := now - last;
      if elapsed <= 0 {
        return;
      }
      tokens := tokens + elapsed as real / interval as real;
      if tokens > burst as real {
        tokens := burst as real;
      }
      last := now;
    }

    method AllowAt(now: int) returns (ok: bool)
      requires Valid()
      modifies this
      ensures Valid() && Held() == Allow(Bounds(), old(Held()), now)
      ensures ok == Admits(Bounds(), old(Held()), now)
    {
      RefillLocked(now);
      if tokens < 1.0 {
        return false;
      }
      tokens := tokens - 1.0;
      return true;
    }

    method Idle(now: int) returns (full: bool)
      requires Valid()
      modifies this
      ensures Valid() && Held() == Tokens.Refill(Bounds(), old(Held()), now)
      ensures full == IsIdle(Bounds(), old(Held()), now)
    {
      RefillLocked(now);
      return tokens >= burst as real;
    }
  }

  /** No bucket at all for limits that limit nothing. */
  method New(burst: int, interval: int) returns (b: Bucket?)
    ensures b == null <==> !Limited(Limits(burst, interval))
    ensures b != null ==> fresh(b) && b.Valid() && b.Bounds() == Limits(burst, interval) && b.Held() == Full(b.Bounds())
  {
    if burst < 1 || interval <= 0 {
      return null;
    }
    b := new Bucket(burst, interval);
  }
}
