/** Which of the load generator's connections speak: an exact share of them,
    spread evenly over the channels and evenly within each. */
module Speakers {
  import opened Bits

  datatype Config = Config(conns: nat, percent: real, channels: nat)

  /** What the configuration is checked for before a run. */
  predicate Checked(c: Config) {
    c.conns >= 1 && 0.0 <= c.percent <= 100.0 && c.channels >= 1
  }

  /** The share asked for, rounded down. */
  function Speakers(c: Config): (s: nat)
    requires Checked(c)
    ensures s <= c.conns
    ensures 100.0 * s as real <= c.conns as real * c.percent < 100.0 * (s + 1) as real
  {
    FloorOfShare(c.conns as real, c.percent);
    FloorAtMost(c.conns as real * c.percent / 100.0, c.conns);
    (c.conns as real * c.percent / 100.0).Floor
  }

  lemma FloorOfShare(n: real, percent: real)
    requires 0.0 <= n && 0.0 <= percent <= 100.0
    ensures 0.0 <= n * percent / 100.0 <= n
  {
    assert 0.0 <= n * percent;
    assert 0.0 <= n * (100.0 - percent);
    assert n * (100.0 - percent) == 100.0 * n - n * percent;
  }

  lemma FloorAtMost(x: real, n: int)
    requires x <= n as real
    ensures x.Floor <= n
  {
  }

  /** Channel `i`'s part of `n` dealt round robin over `channels`. */
  function Share(n: nat, channels: nat, i: nat): int
    requires 0 < channels
  {
    (n - i + channels - 1) / channels
  }

  function SpeakersIn(c: Config, i: nat): int
    requires Checked(c)
  {
    Share(Speakers(c), c.channels, i)
  }

  function MembersIn(c: Config, i: nat): int
    requires Checked(c)
  {
    Share(c.conns, c.channels, i)
  }

  /** Whether the member of channel `ch` at position `pos` in it speaks. */
  predicate SpeaksAt(c: Config, ch: nat, pos: nat)
    requires Checked(c) && MembersIn(c, ch) != 0
  {
    var members, speakers := MembersIn(c, ch), SpeakersIn(c, ch);
    pos * speakers / members != (pos + 1) * speakers / members
  }

  /** Whether connection `i` speaks. */
  predicate Speaks(c: Config, i: nat)
    requires Checked(c) && i < c.conns
  {
    Dealt(c.conns, c.channels, i % c.channels);
    QuotientsOrder(i, c.conns, c.channels);
    SpeaksAt(c, i % c.channels, i / c.channels)
  }

  // ------------------------------------------------------------ dealing

  /** The remainder goes one to a channel. */
  lemma Dealt(n: nat, channels: nat, i: nat)
    requires i < channels
    ensures Share(n, channels, i) == n / channels + (if i < n % channels then 1 else 0)
  {
    var q, r := n / channels, n % channels;
    assert n == q * channels + r;
    if i < r {
      assert n - i + channels - 1 == (q + 1) * channels + (r - i - 1);
      DivModUnique(n - i + channels - 1, channels, q + 1, r - i - 1);
    } else {
      DivModUnique(n - i + channels - 1, channels, q, r - i + channels - 1);
    }
  }

  /** Of two connections, the earlier is not placed further down its channel; and
      a channel's members are more than the position of any of them. */
  lemma QuotientsOrder(i: nat, n: nat, channels: nat)
    requires i < n && 0 < channels
    ensures i / channels <= n / channels
    ensures i / channels < n / channels || i % channels < n % channels
  {
    var q, r, q', r' := i / channels, i % channels, n / channels, n % channels;
    assert i == q * channels + r && n == q' * channels + r';
    if q' < q {
      MulMonotone(q' + 1, q, channels);
      assert false;
    }
  }

  /** One more dealt goes to the next channel round, at that channel's end. */
  lemma DealOne(n: nat, channels: nat, i: nat)
    requires i < channels
    ensures Share(n + 1, channels, i) == Share(n, channels, i) + (if i == n % channels then 1 else 0)
    ensures i == n % channels ==> Share(n, channels, i) == n / channels
  {
    var q, r := n / channels, n % channels;
    assert n == q * channels + r;
    Dealt(n, channels, i);
    Dealt(n + 1, channels, i);
    if r + 1 < channels {
      DivModUnique(n + 1, channels, q, r + 1);
    } else {
      assert n + 1 == (q + 1) * channels;
      DivModUnique(n + 1, channels, q + 1, 0);
    }
  }

  /** How many of the first `n` connections go to channel `ch`. */
  function There(n: nat, channels: nat, ch: nat): nat
    requires 0 < channels
  {
    if n == 0 then 0 else There(n - 1, channels, ch) + (if (n - 1) % channels == ch then 1 else 0)
  }

  /** The formula for a channel's members counts exactly those dealt to it. */
  lemma {:induction false} SharesAreCounted(n: nat, channels: nat, ch: nat)
    requires ch < channels
    ensures Share(n, channels, ch) == There(n, channels, ch)
  {
    if n == 0 {
      Dealt(0, channels, ch);
      DivModUnique(0, channels, 0, 0);
    } else {
      SharesAreCounted(n - 1, channels, ch);
      DealOne(n - 1, channels, ch);
    }
  }

  function ShareSum(n: nat, channels: nat, k: nat): int
    requires 0 < channels
  {
    if k == 0 then 0 else ShareSum(n, channels, k - 1) + Share(n, channels, k - 1)
  }

  lemma {:induction false} ShareSumIs(n: nat, channels: nat, k: nat)
    requires 0 < channels && k <= channels
    ensures ShareSum(n, channels, k) == k * (n / channels) + (if k < n % channels then k else n % channels)
  {
    if k > 0 {
      ShareSumIs(n, channels, k - 1);
      Dealt(n, channels, k - 1);
      assert k * (n / channels) == (k - 1) * (n / channels) + n / channels;
    }
  }

  /** All are dealt: over the channels the shares add up to what there was. */
  lemma SharesAddUp(n: nat, channels: nat)
    requires 0 < channels
    ensures ShareSum(n, channels, channels) == n
  {
    ShareSumIs(n, channels, channels);
  }

  // ------------------------------------------------------------ within a channel

  lemma Factor(a: int, b: int, d: int)
    ensures (a + b) * d == a * d + b * d
  {
  }

  /** One step of `s` out of `m` crosses at most one multiple of `m`. */
  lemma StepCrossesOne(p: nat, s: nat, m: nat)
    requires 0 < m && s <= m
    ensures p * s / m <= (p + 1) * s / m <= p * s / m + 1
  {
    Factor(p, 1, s);
    var a := p * s;
    var q, r := a / m, a % m;
    assert a == q * m + r;
    if r + s < m {
      DivModUnique(a + s, m, q, r + s);
    } else {
      Factor(q, 1, m);
      DivModUnique(a + s, m, q + 1, r + s - m);
    }
  }

  predicate HasMembers(c: Config, ch: nat) {
    Checked(c) && ch < c.channels && 0 < MembersIn(c, ch)
  }

  lemma ShareMonotone(a: nat, b: nat, channels: nat, i: nat)
    requires i < channels && a <= b
    ensures 0 <= Share(a, channels, i) <= Share(b, channels, i)
  {
    Dealt(a, channels, i);
    Dealt(b, channels, i);
    if a < b {
      QuotientsOrder(a, b, channels);
    }
  }

  lemma FewerSpeakersThanMembers(c: Config, ch: nat)
    requires Checked(c) && ch < c.channels
    ensures 0 <= SpeakersIn(c, ch) <= MembersIn(c, ch)
  {
    ShareMonotone(Speakers(c), c.conns, c.channels, ch);
  }

  /** How many of the channel's first `k` members speak. */
  function SpeakingIn(c: Config, ch: nat, k: nat): nat
    requires HasMembers(c, ch)
  {
    if k == 0 then 0 else SpeakingIn(c, ch, k - 1) + (if SpeaksAt(c, ch, k - 1) then 1 else 0)
  }

  lemma {:induction false} Telescopes(c: Config, ch: nat, k: nat)
    requires HasMembers(c, ch)
    ensures SpeakingIn(c, ch, k) == k * SpeakersIn(c, ch) / MembersIn(c, ch)
  {
    var s, m := SpeakersIn(c, ch), MembersIn(c, ch);
    FewerSpeakersThanMembers(c, ch);
    if k > 0 {
      Telescopes(c, ch, k - 1);
      StepCrossesOne(k - 1, s, m);
    } else {
      DivModUnique(0, m, 0, 0);
    }
  }

  /** Exactly a channel's share of speakers speak in it. */
  lemma ChannelHasItsSpeakers(c: Config, ch: nat)
    requires HasMembers(c, ch)
    ensures SpeakingIn(c, ch, MembersIn(c, ch)) == SpeakersIn(c, ch)
  {
    var s, m := SpeakersIn(c, ch), MembersIn(c, ch);
    Telescopes(c, ch, m);
    DivModUnique(m * s, m, s, 0);
  }

  lemma Spread(x: int, y: int, m: int)
    requires 0 < m
    ensures -m < m * (y / m - x / m) - (y - x) < m
  {
    var a, b := x / m, y / m;
    assert x == a * m + x % m && y == b * m + y % m;
    Factor(b - a, a, m);
  }

  /** Any `k` members in a row hold their proportional share of the channel's
      speakers, to within one. */
  lemma RunsAreProportional(c: Config, ch: nat, p: nat, k: nat)
    requires HasMembers(c, ch)
    ensures var n := SpeakingIn(c, ch, p + k) - SpeakingIn(c, ch, p);
      -MembersIn(c, ch) < MembersIn(c, ch) * n - k * SpeakersIn(c, ch) < MembersIn(c, ch)
  {
    var s, m := SpeakersIn(c, ch), MembersIn(c, ch);
    FewerSpeakersThanMembers(c, ch);
    Telescopes(c, ch, p);
    Telescopes(c, ch, p + k);
    Factor(p, k, s);
    Spread(p * s, (p + k) * s, m);
  }

  // ------------------------------------------------------------ altogether

  /** How many of the first `n` connections speak. */
  function Speaking(c: Config, n: nat): nat
    requires Checked(c) && n <= c.conns
  {
    if n == 0 then 0 else Speaking(c, n - 1) + (if Speaks(c, n - 1) then 1 else 0)
  }

  /** Of those in channel `ch`, when `n` connections have been dealt. */
  function SpeakingThere(c: Config, ch: nat, n: nat): nat
    requires Checked(c) && ch < c.channels && n <= c.conns
  {
    if HasMembers(c, ch) && Share(n, c.channels, ch) >= 0 then SpeakingIn(c, ch, Share(n, c.channels, ch)) else 0
  }

  function Altogether(c: Config, n: nat, k: nat): nat
    requires Checked(c) && n <= c.conns && k <= c.channels
  {
    if k == 0 then 0 else Altogether(c, n, k - 1) + SpeakingThere(c, k - 1, n)
  }

  lemma {:induction false} NobodyYet(c: Config, k: nat)
    requires Checked(c) && k <= c.channels
    ensures Altogether(c, 0, k) == 0
  {
    if k > 0 {
      NobodyYet(c, k - 1);
      Dealt(0, c.channels, k - 1);
      DivModUnique(0, c.channels, 0, 0);
    }
  }

  lemma OneMoreThere(c: Config, n: nat, ch: nat)
    requires Checked(c) && n < c.conns && ch < c.channels
    ensures SpeakingThere(c, ch, n + 1) == SpeakingThere(c, ch, n) + (if n % c.channels == ch && Speaks(c, n) then 1 else 0)
  {
    DealOne(n, c.channels, ch);
    ShareMonotone(0, n, c.channels, ch);
    ShareMonotone(n + 1, c.conns, c.channels, ch);
  }

  lemma {:induction false} OneMore(c: Config, n: nat, k: nat)
    requires Checked(c) && n < c.conns && k <= c.channels
    ensures Altogether(c, n + 1, k) == Altogether(c, n, k) + (if n % c.channels < k && Speaks(c, n) then 1 else 0)
  {
    if k > 0 {
      OneMore(c, n, k - 1);
      OneMoreThere(c, n, k - 1);
    }
  }

  lemma {:induction false} SpeakingByChannel(c: Config, n: nat)
    requires Checked(c) && n <= c.conns
    ensures Speaking(c, n) == Altogether(c, n, c.channels)
  {
    if n == 0 {
      NobodyYet(c, c.channels);
    } else {
      SpeakingByChannel(c, n - 1);
      OneMore(c, n - 1, c.channels);
    }
  }

  lemma {:induction false} ChannelsAddUp(c: Config, k: nat)
    requires Checked(c) && k <= c.channels
    ensures Altogether(c, c.conns, k) == ShareSum(Speakers(c), c.channels, k)
  {
    if k > 0 {
      ChannelsAddUp(c, k - 1);
      FewerSpeakersThanMembers(c, k - 1);
      if HasMembers(c, k - 1) {
        ChannelHasItsSpeakers(c, k - 1);
      }
    }
  }

  /** Exactly the asked-for share of all connections speaks. */
  lemma ExactlySpeakers(c: Config)
    requires Checked(c)
    ensures Speaking(c, c.conns) == Speakers(c)
  {
    SpeakingByChannel(c, c.conns);
    ChannelsAddUp(c, c.channels);
    SharesAddUp(Speakers(c), c.channels);
  }

  /** No two channels differ by more than one speaker, or by more than one member. */
  lemma ChannelsAreBalanced(c: Config, i: nat, j: nat)
    requires Checked(c) && i < c.channels && j < c.channels
    ensures -1 <= SpeakersIn(c, i) - SpeakersIn(c, j) <= 1
    ensures -1 <= MembersIn(c, i) - MembersIn(c, j) <= 1
  {
    Dealt(Speakers(c), c.channels, i);
    Dealt(Speakers(c), c.channels, j);
    Dealt(c.conns, c.channels, i);
    Dealt(c.conns, c.channels, j);
  }
}
