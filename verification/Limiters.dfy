/** The table itself, its maps updated under one lock. */
module Limiters {
  import opened Fanout
  import opened Tokens
  import opened LimiterTable

  class Limiters {
    const policy: Policy
    var table: map<string, Entry>
    var made: nat
    var buckets: map<Id, Option<Level>>
    ghost var holders: seq<Holder>

    ghost function View(): State
      reads this
    {
      State(table, made, buckets, holders)
    }

    ghost predicate Valid()
      reads this
    {
      Sound(policy, View())
    }

    constructor (policy: Policy)
      ensures Valid() && this.policy == policy && View() == EMPTY
    {
      this.policy := policy;
      table, made, buckets, holders := map[], 0, map[], [];
    }

    /** A bucket already there keeps what is in it. */
    method Acquire(key: string) returns (bucket: Id)
      requires Valid()
      modifies this
      ensures Valid() && View() == AcquireStep(policy, old(View()), key)
      ensures holders != [] && holders[|holders| - 1] == Holder(bucket, true)
    {
      AcquireStaysSound(policy, View(), key);
      if key in table {
        bucket := table[key].bucket;
        table := table[key := Entry(bucket, table[key].refs + 1)];
      } else {
        bucket := Id(key, made);
        made := made + 1;
        buckets := buckets[bucket := if Limited(policy(key)) then Some(Full(policy(key))) else None];
        table := table[key := Entry(bucket, 1)];
      }
      holders := holders + [Holder(bucket, true)];
    }

    /** Kept at zero holders. */
    method Release(key: string, ghost h: nat)
      requires Valid() && Legal(View(), Op.Release(h)) && holders[h].bucket.key == key
      modifies this
      ensures Valid() && View() == ReleaseStep(old(View()), h)
    {
      if key in table && table[key].refs > 0 {
        table := table[key := Entry(table[key].bucket, table[key].refs - 1)];
      }
      holders := holders[h := Holder(holders[h].bucket, false)];
    }

    method AllowAt(bucket: Id, now: int, ghost h: nat) returns (ok: bool)
      requires Valid() && Legal(View(), Use(h, now)) && holders[h].bucket == bucket
      modifies this
      ensures Valid() && View() == UseStep(policy, old(View()), h, now)
      ensures ok == Answer(policy(bucket.key), old(buckets[bucket]), now)
    {
      var b := buckets[bucket];
      if b.None? {
        ok := true;
      } else {
        ok := Admits(policy(bucket.key), b.value, now);
        buckets := buckets[bucket := Some(Allow(policy(bucket.key), b.value, now))];
      }
    }

    /** One key's turn in a sweep of what was `s`. */
    method Look(key: string, now: int, ghost s: State, ghost todo: set<string>) returns (gone: bool)
      requires Sound(policy, s) && Halfway(policy, s, now, todo, table, buckets) && key in todo
      modifies this`table, this`buckets
      ensures Halfway(policy, s, now, todo - {key}, table, buckets)
      ensures |table| == old(|table|) - (if gone then 1 else 0)
      ensures todo - {key} <= table.Keys
    {
      OneMore(policy, s, now, todo, table, buckets, key);
      var e := table[key];
      if e.refs > 0 {
        return false;
      }
      var b := buckets[e.bucket];
      buckets := buckets[e.bucket := Refilled(policy(key), b, now)];
      gone := Idling(policy(key), b, now);
      if gone {
        assert table.Keys == (table - {key}).Keys + {key};
        table := table - {key};
      }
    }

    /** Looks into every bucket nobody holds, and forgets those that are full. */
    method Sweep(now: int) returns (removed: nat)
      requires Valid()
      modifies this
      ensures Valid() && View() == SweepStep(policy, old(View()), now)
      ensures removed == |old(table)| - |table|
    {
      ghost var s := View();
      var todo := table.Keys;
      removed := 0;
      NoneLooked(policy, s, now);
      while todo != {}
        modifies this`table, this`buckets
        invariant Halfway(policy, s, now, todo, table, buckets)
        invariant removed == |s.table| - |table|
      {
        var key :| key in todo;
        var gone := Look(key, now, s, todo);
        todo := todo - {key};
        removed := removed + if gone then 1 else 0;
      }
      AllLooked(policy, s, now, table, buckets);
    }
  }

  lemma AcquireStaysSound(p: Policy, s: State, key: string)
    requires Sound(p, s)
    ensures Sound(p, AcquireStep(p, s, key))
  {
  }

  /** A sweep of `s` that has yet to come to the keys in `todo`. */
  ghost predicate Halfway(p: Policy, s: State, now: int, todo: set<string>, table: map<string, Entry>,
                          buckets: map<Id, Option<Level>>)
    requires Sound(p, s)
  {
    && todo <= table.Keys <= s.table.Keys && buckets.Keys == s.buckets.Keys
    && (forall k | k in s.table :: k in table <==> (k in todo || !Goes(p, s, k, now)))
    && (forall k | k in table :: table[k] == s.table[k])
    && (forall i | i in buckets :: buckets[i] == SoFar(p, s, now, todo, i))
  }

  ghost function SoFar(p: Policy, s: State, now: int, todo: set<string>, i: Id): Option<Level>
    requires Sound(p, s) && i in s.buckets
  {
    if Looked(s, i) && i.key !in todo then Refilled(p(i.key), s.buckets[i], now) else s.buckets[i]
  }

  lemma NoneLooked(p: Policy, s: State, now: int)
    requires Sound(p, s)
    ensures Halfway(p, s, now, s.table.Keys, s.table, s.buckets)
  {
  }

  lemma AllLooked(p: Policy, s: State, now: int, table: map<string, Entry>, buckets: map<Id, Option<Level>>)
    requires Sound(p, s) && Halfway(p, s, now, {}, table, buckets)
    ensures SweepStep(p, s, now) == s.(table := table, buckets := buckets)
    ensures Sound(p, SweepStep(p, s, now))
  {
    var t := SweepStep(p, s, now);
    assert t.table == table;
    assert t.buckets == buckets;
  }

  lemma OneMore(p: Policy, s: State, now: int, todo: set<string>, table: map<string, Entry>, buckets: map<Id,
                Option<Level>>, key: string)
    requires Sound(p, s) && Halfway(p, s, now, todo, table, buckets) && key in todo
    ensures table[key].bucket in buckets && buckets[table[key].bucket] == s.buckets[s.table[key].bucket]
    ensures Fits(p(key), buckets[table[key].bucket])
    ensures var e := table[key];
      var looked := if e.refs == 0 then buckets[e.bucket := Refilled(p(key), buckets[e.bucket], now)] else buckets;
      var left := if e.refs == 0 && Idling(p(key), buckets[e.bucket], now) then table - {key} else table;
      Halfway(p, s, now, todo - {key}, left, looked)
  {
    assert s.table[key].bucket.key == key;
  }
}
