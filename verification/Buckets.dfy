/** The log-linear buckets of a latency histogram: eight to an octave. */
module Buckets {
  import opened Bits

  /** Three bits, so eight buckets, an octave; 32 octaves, the first three of
      which are a single one: (32 - 3 + 1) * 8. */
  const NUM_BUCKETS: nat := 240
  /** Values from here on saturate into the last bucket. */
  const LIMIT: nat := 0x1_0000_0000

  /** Octave by the leading bit, slot by the three bits after it; small values map
      one to one, and the last octave takes all that is larger. */
  function BucketOf(us: nat): nat {
    if us < 8 then us
    else
      FourBits(us);
      var oct := Len(us) - 1;
      if oct >= 32 then NUM_BUCKETS - 1
      else
        var sub := Slot(Shr(us, oct - 3));
        (oct - 3 + 1) * 8 + sub
  }

  /** The three bits after the leading one. */
  function Slot(lead: nat): nat {
    And(lead, 7)
  }

  function BucketMax(i: nat): nat {
    if i < 8 then i
    else
      var oct := i / 8 + 3 - 1;
      var shift := oct - 3;
      var sub := i % 8;
      Or(Shl(8 + sub, shift), Shl(1, shift) - 1)
  }

  // ------------------------------------------------------------ arithmetic

  lemma Powers()
    ensures Pow2(3) == 8 && Pow2(4) == 16
  {
  }

  lemma FourBits(us: nat)
    requires 8 <= us
    ensures 4 <= Len(us)
  {
    LenMonotone(8, us);
    assert Len(1) == 1 && Len(2) == 2 && Len(4) == 3 && Len(8) == 4;
  }

  lemma Pow2Of32()
    ensures Pow2(32) == LIMIT
  {
    Powers();
    Pow2Add(4, 4);
    Pow2Add(8, 8);
    Pow2Add(16, 16);
  }

  lemma LimitIsLen(us: nat)
    ensures us < LIMIT <==> Len(us) <= 32
  {
    Pow2Of32();
    if Len(us) <= 32 {
      Pow2Monotone(Len(us), 32);
    } else {
      Pow2Monotone(32, Len(us) - 1);
    }
  }

  /** `us` has `s + 4` bits, and `m` is the leading four. */
  predicate Leads(us: nat, s: nat, m: nat) {
    8 <= us && 8 <= m < 16 && Len(us) == s + 4 && Shr(us, s) == m
  }

  lemma LenBounds(us: nat, s: nat)
    requires Len(us) == s + 4
    ensures Shl(8, s) == 8 * Pow2(s) <= us < Shl(16, s)
  {
    Powers();
    ShlPow2(3, s);
    ShlPow2(4, s);
    assert Pow2(s + 3) == 2 * Pow2(s + 2) && Pow2(s + 2) == 2 * Pow2(s + 1);
  }

  lemma LeadOf(us: nat) returns (s: nat, m: nat)
    requires 8 <= us
    ensures Leads(us, s, m)
  {
    FourBits(us);
    s := Len(us) - 4;
    m := Shr(us, s);
    LenBounds(us, s);
    ShrBetween(us, s, 8, 16);
  }

  lemma MaskLead(m: nat)
    requires 8 <= m < 16
    ensures Slot(m) == m - 8
  {
    AndMask(m, 3);
    Powers();
  }

  /** The index, without bit operations: eight to an octave, plus the lead. */
  lemma BucketIs(us: nat, s: nat, m: nat)
    requires Leads(us, s, m) && us < LIMIT
    ensures s <= 28 && BucketOf(us) == 8 * s + m
  {
    LimitIsLen(us);
    MaskLead(m);
  }

  lemma Split(i: nat, s: nat, m: nat)
    requires i == 8 * s + m && 8 <= m < 16
    ensures i / 8 == s + 1 && i % 8 == m - 8
  {
  }

  /** A bucket's largest value, without bit operations. */
  lemma BucketMaxIs(i: nat, s: nat, m: nat)
    requires i == 8 * s + m && 8 <= m < 16
    ensures BucketMax(i) == Shl(m, s) + Pow2(s) - 1
  {
    Split(i, s, m);
    ShlPow2(0, s);
    OrShifted(m, Pow2(s) - 1, s);
  }

  // ------------------------------------------------------------ theorems

  /** Every value lands in a bucket that exists. */
  lemma BucketInRange(us: nat)
    ensures BucketOf(us) < NUM_BUCKETS
  {
    if 8 <= us {
      LimitIsLen(us);
      if us < LIMIT {
        var s, m := LeadOf(us);
        BucketIs(us, s, m);
      }
    }
  }

  /** A bucket's largest value is at least the value put in it, and over it by at
      most an eighth. */
  lemma BucketBounds(us: nat)
    requires us < LIMIT
    ensures us <= BucketMax(BucketOf(us)) <= us + us / 8
  {
    if 8 <= us {
      var s, m := LeadOf(us);
      BucketIs(us, s, m);
      BucketMaxIs(8 * s + m, s, m);
      ShrBounds(us, s);
      LenBounds(us, s);
    }
  }

  lemma TopBucketMax(i: nat, s: nat)
    requires i == 8 * s + 15
    ensures BucketMax(i) == Pow2(s + 4) - 1
  {
    BucketMaxIs(i, s, 15);
    Powers();
    ShlNext(15, s);
    ShlPow2(4, s);
  }

  /** At or past the limit the largest value of the last bucket is an under-estimate. */
  lemma SaturatedIsUnder(us: nat)
    requires LIMIT <= us
    ensures BucketMax(BucketOf(us)) == LIMIT - 1
  {
    LimitIsLen(us);
    TopBucketMax(239, 28);
    Pow2Of32();
  }

  /** Every bucket is used, and a bucket's largest value is in it. */
  lemma BucketOfMax(i: nat)
    requires i < NUM_BUCKETS
    ensures BucketOf(BucketMax(i)) == i && BucketMax(i) < LIMIT
  {
    if 8 <= i {
      var s, m := i / 8 - 1, 8 + i % 8;
      BucketMaxIs(i, s, m);
      MaxLeads(BucketMax(i), s, m);
      LimitIsLen(BucketMax(i));
      BucketIs(BucketMax(i), s, m);
    }
  }

  lemma MaxLeads(v: nat, s: nat, m: nat)
    requires 8 <= m < 16 && v == Shl(m, s) + Pow2(s) - 1
    ensures Leads(v, s, m)
  {
    ShlNext(m, s);
    ShrBetween(v, s, m, m + 1);
    FourBitsUp(v, s, m);
    LenIs(v, s + 4);
  }

  lemma FourBitsUp(v: nat, s: nat, m: nat)
    requires 8 <= m < 16 && v == Shl(m, s) + Pow2(s) - 1
    ensures Pow2(s + 3) <= v < Pow2(s + 4) && 8 <= v
  {
    Powers();
    Pow2Monotone(3, s + 3);
    ShlPow2(3, s);
    ShlPow2(4, s);
    ShlNext(m, s);
    ShlMonotone(8, m, s);
    ShlMonotone(m + 1, 16, s);
  }

  lemma LeadsMonotone(a: nat, s: nat, m: nat, b: nat, s': nat, m': nat)
    requires a <= b && Leads(a, s, m) && Leads(b, s', m')
    ensures 8 * s + m <= 8 * s' + m'
  {
    LenMonotone(a, b);
    assert s <= s';
    if s == s' {
      ShrMonotone(a, b, s);
      assert m <= m';
    } else {
      assert 8 * s + 8 <= 8 * s';
    }
  }

  /** A larger value is never put in an earlier bucket. */
  lemma BucketMonotone(a: nat, b: nat)
    requires a <= b
    ensures BucketOf(a) <= BucketOf(b)
  {
    if b < 8 {
    } else if b < LIMIT {
      var s', m' := LeadOf(b);
      BucketIs(b, s', m');
      if 8 <= a {
        var s, m := LeadOf(a);
        BucketIs(a, s, m);
        LeadsMonotone(a, s, m, b, s', m');
      }
    } else {
      BucketInRange(a);
      LimitIsLen(b);
    }
  }
}
