/** What a joiner sees of a channel's messages: the history's window, then its
    ring from where it subscribed, less what the window already showed. */
module JoinerView {
  import opened Fanout
  import opened Rooms
  import opened RoomsInv
  import opened RoomsSteps
  import opened RoomsTheorems
  import opened JoinerSeqs

  // ------------------------------------------------------------ the ring in the history

  lemma {:induction false} MsgsConcat(a: seq<Payload>, b: seq<Payload>)
    ensures Msgs(a + b) == Msgs(a) + Msgs(b)
  {
    if b == [] {
      assert a + b == a;
    } else {
      var c := b[..|b| - 1];
      MsgsConcat(a, c);
      MsgsPlus(a + c, b[|b| - 1]);
      assert a + b == a + c + [b[|b| - 1]];
    }
  }

  /** A stretch's MSGs are a stretch of the MSGs. */
  lemma MsgsOfStretch(log: seq<Payload>, ring: seq<Payload>, c: nat, p: nat)
    requires ring <= log && c <= p <= |ring|
    ensures |Msgs(ring[..c])| <= |Msgs(ring[..p])| <= |Msgs(log)|
    ensures Msgs(ring[c..p]) == Msgs(log)[|Msgs(ring[..c])|..|Msgs(ring[..p])|]
  {
    assert ring[..p] == ring[..c] + ring[c..p] && log == ring[..p] + log[p..];
    MsgsConcat(ring[..c], ring[c..p]);
    MsgsConcat(ring[..p], log[p..]);
  }

  /** And so are a room's own in a stretch of the history. */
  lemma OwnOfStretch(h: seq<Payload>, r: nat, a: nat, b: nat)
    requires a <= b <= |h|
    ensures |Own(h[..a], r)| <= |Own(h[..b], r)| <= |Own(h, r)|
    ensures Own(h[a..b], r) == Own(h, r)[|Own(h[..a], r)|..|Own(h[..b], r)|]
  {
    assert h[..b] == h[..a] + h[a..b] && h == h[..b] + h[b..];
    OwnConcat(h[..a], h[a..b], r);
    OwnConcat(h[..b], h[b..], r);
  }

  /** From one place to just after another message: where the room's own messages
      `m0` up to `m1` lie. */
  function AfterPlace(h: seq<Payload>, r: nat, m0: nat, m1: nat): nat {
    if m1 <= m0 then PlaceOf(h, r, m0)
    else if PlaceOf(h, r, m1 - 1) < |h| then PlaceOf(h, r, m1 - 1) + 1 else |h|
  }

  lemma PlacesRise(h: seq<Payload>, r: nat, m: nat, n: nat)
    requires m <= n < |Own(h, r)|
    ensures PlaceOf(h, r, m) <= PlaceOf(h, r, n)
  {
    PlaceIs(h, r, m);
    PlaceIs(h, r, n);
    PlaceSplits(h, r, PlaceOf(h, r, n), m);
  }

  lemma RunIsThere(h: seq<Payload>, r: nat, m0: nat, m1: nat)
    requires m0 <= m1 <= |Own(h, r)|
    ensures var a, b := PlaceOf(h, r, m0), AfterPlace(h, r, m0, m1);
      && a <= b <= |h| && |Own(h[..a], r)| == m0 && |Own(h[..b], r)| == m1 && (m0 < m1 ==> a < b && h[a].room == r)
  {
    PlaceIs(h, r, m0);
    if m0 < m1 {
      PlaceIs(h, r, m1 - 1);
      RankSteps(h, r, PlaceOf(h, r, m1 - 1));
      PlacesRise(h, r, m0, m1 - 1);
    }
  }

  /** The messages read off the ring are the room's own there. */
  lemma LiveIsARun(h: seq<Payload>, r: nat, log: seq<Payload>, ring: seq<Payload>, c: nat, p: nat)
    requires Own(h, r) == Msgs(log) && ring <= log && c <= p <= |ring|
    ensures var m0, m1 := |Msgs(ring[..c])|, |Msgs(ring[..p])|;
      && m0 <= m1 <= |Own(h, r)|
      && var a, b := PlaceOf(h, r, m0), AfterPlace(h, r, m0, m1);
         a <= b <= |h| && Msgs(ring[c..p]) == Own(h[a..b], r)
  {
    var m0, m1 := |Msgs(ring[..c])|, |Msgs(ring[..p])|;
    MsgsOfStretch(log, ring, c, p);
    RunIsThere(h, r, m0, m1);
    OwnOfStretch(h, r, PlaceOf(h, r, m0), AfterPlace(h, r, m0, m1));
  }

  // ------------------------------------------------------------ one joiner

  predicate Reads(s: State, j: nat, p: nat) {
    && j < |s.joiners| && s.joiners[j].pc.Live? && s.joiners[j].room < |s.rooms|
    && s.joiners[j].codec < |s.rooms[s.joiners[j].room].rings|
    && s.joiners[j].pc.cursor <= p <= |s.rooms[s.joiners[j].room].rings[s.joiners[j].codec]|
  }

  function Ring(s: State, j: nat): seq<Payload>
    requires j < |s.joiners| && s.joiners[j].room < |s.rooms| && s.joiners[j].codec < |s.rooms[s.joiners[j].room].rings|
  {
    s.rooms[s.joiners[j].room].rings[s.joiners[j].codec]
  }

  function History(s: State, j: nat): seq<Payload>
    requires j < |s.joiners| && s.joiners[j].room < |s.rooms|
  {
    HistOf(s, s.joiners[j].room)
  }

  /** What joiner `j` has seen once it has read its ring up to `p`. */
  function Seen(s: State, j: nat, p: nat): seq<Payload>
    requires Reads(s, j, p)
  {
    View(s.joiners[j].pc.backlog, Ring(s, j)[s.joiners[j].pc.cursor..p])
  }

  /** How many of the ring's messages came before it subscribed, and before `p`. */
  function Before(s: State, j: nat, p: nat): nat
    requires Reads(s, j, p)
  {
    |Msgs(Ring(s, j)[..s.joiners[j].pc.cursor])|
  }

  function Upto(s: State, j: nat, p: nat): nat
    requires Reads(s, j, p)
  {
    |Msgs(Ring(s, j)[..p])|
  }

  /** The window's place in the history: the first it shows, and past the last. */
  function Lo(s: State, j: nat): nat
    requires j < |s.joiners| && s.joiners[j].pc.Live?
  {
    var had := s.joiners[j].pc.had;
    if s.setup.backlog < had then had - s.setup.backlog else 0
  }

  /** The place of the channel's first message after the joiner subscribed. */
  function Start(s: State, j: nat, p: nat): nat
    requires Reads(s, j, p)
  {
    PlaceOf(History(s, j), s.joiners[j].room, Before(s, j, p))
  }

  /** The place just past the last message it has read off the ring. */
  function End(s: State, j: nat, p: nat): nat
    requires Reads(s, j, p)
  {
    AfterPlace(History(s, j), s.joiners[j].room, Before(s, j, p), Upto(s, j, p))
  }

  lemma WindowIs(h: seq<Payload>, had: nat, window: nat)
    requires had <= |h|
    ensures Last(h[..had], window) == h[if window < had then had - window else 0..had]
  {
  }

  /** A joiner's view `v`, its window starting at `lo`, its live messages in [a..b). */
  lemma ViewIs(v: seq<Payload>, h: seq<Payload>, r: nat, log: seq<Payload>, ring: seq<Payload>, c: nat, p: nat,
               a: nat, b: nat, lo: nat, had: nat)
    requires Distinct(h) && Own(h, r) == Msgs(log) && ring <= log && c <= p <= |ring| && lo <= had <= |h|
    requires v == View(h[lo..had], ring[c..p])
    requires a == PlaceOf(h, r, |Msgs(ring[..c])|) && b == AfterPlace(h, r, |Msgs(ring[..c])|, |Msgs(ring[..p])|)
    ensures Shape(v, h, r, a, b, lo, had)
  {
    LiveIsARun(h, r, log, ring, c, p);
    FreshIsRest(h, r, a, b, lo, had);
  }

  /** What the runs say of the history and the ring a joiner reads. */
  lemma Grounds(tr: seq<State>, k: nat, j: nat, p: nat)
    requires Run(tr) && k < |tr| && Reads(tr[k], j, p)
    ensures var s := tr[k];
      var x, h := s.joiners[j], History(s, j);
      && Distinct(h) && Own(h, x.room) == Msgs(s.rooms[x.room].log) && Ring(s, j) <= s.rooms[x.room].log
      && x.pc.had <= |h| && x.pc.backlog == Last(h[..x.pc.had], s.setup.backlog)
      && |Msgs(Ring(s, j)[..x.pc.cursor])| <= |Own(h[..x.pc.had], x.room)|
  {
    RunInv(tr, k);
    RunIds(tr, k);
    var s := tr[k];
    var x := s.joiners[j];
    assert JoinerOk(s, j) && RoomOk(s, x.room) && KeptOk(s, x.room) && RingOk(s, x.room, x.codec);
    assert Distinct(Hist(s, s.rooms[x.room].name));
  }

  /** What joiner `j` has seen, message by message: its window, then, in their order,
      the channel's own messages read since that the window did not show. */
  lemma SeenIs(tr: seq<State>, k: nat, j: nat, p: nat)
    requires Run(tr) && k < |tr| && Reads(tr[k], j, p)
    ensures var s := tr[k];
      Shape(Seen(s, j, p), History(s, j), s.joiners[j].room, Start(s, j, p), End(s, j, p), Lo(s, j), s.joiners[j].pc.had)
  {
    Grounds(tr, k, j, p);
    var s := tr[k];
    var x := s.joiners[j];
    WindowIs(History(s, j), x.pc.had, s.setup.backlog);
    ViewIs(Seen(s, j, p), History(s, j), x.room, s.rooms[x.room].log, Ring(s, j), x.pc.cursor, p, Start(s, j, p),
           End(s, j, p), Lo(s, j), x.pc.had);
  }

  /** The messages read live are the channel's own from the first after subscribing. */
  lemma PlacesAre(tr: seq<State>, k: nat, j: nat, p: nat)
    requires Run(tr) && k < |tr| && Reads(tr[k], j, p)
    ensures var s := tr[k];
      && s.joiners[j].pc.had <= |History(s, j)|
      && Before(s, j, p) <= Upto(s, j, p) <= |Own(History(s, j), s.joiners[j].room)|
      && Before(s, j, p) <= |Own(History(s, j)[..s.joiners[j].pc.had], s.joiners[j].room)|
      && (Before(s, j, p) < Upto(s, j, p) ==>
            Start(s, j, p) < End(s, j, p) && History(s, j)[Start(s, j, p)].room == s.joiners[j].room)
      && (Before(s, j, p) == Upto(s, j, p) ==> Start(s, j, p) == End(s, j, p))
  {
    Grounds(tr, k, j, p);
    var s := tr[k];
    var x := s.joiners[j];
    LiveIsARun(History(s, j), x.room, s.rooms[x.room].log, Ring(s, j), x.pc.cursor, p);
    RunIsThere(History(s, j), x.room, Before(s, j, p), Upto(s, j, p));
  }

  // ------------------------------------------------------------ no gap

  /** From the earlier of the window's start and the first message read live. */
  function First(s: State, j: nat, p: nat): nat
    requires Reads(s, j, p)
  {
    if Before(s, j, p) == Upto(s, j, p) then Lo(s, j) else Smaller(Start(s, j, p), Lo(s, j))
  }

  /** To the later of the window's end and the last message read live. */
  function Until(s: State, j: nat, p: nat): nat
    requires Reads(s, j, p)
  {
    if Before(s, j, p) == Upto(s, j, p) then s.joiners[j].pc.had else Larger(s.joiners[j].pc.had, End(s, j, p))
  }

  /** The next of the channel's own messages, not yet read, does not precede the window. */
  predicate Reached(s: State, j: nat, p: nat)
    requires Reads(s, j, p)
  {
    Before(s, j, p) == Upto(s, j, p) || Lo(s, j) <= PlaceOf(History(s, j), s.joiners[j].room, Upto(s, j, p))
  }

  /** Where the room's own messages outside the window are read. */
  lemma OwnIsRead(h: seq<Payload>, r: nat, m0: nat, m1: nat, lo: nat, had: nat, n: nat)
    requires n < |h| && h[n].room == r && m0 <= m1 <= |Own(h, r)| && had <= |h| && m0 <= |Own(h[..had], r)|
    requires PlaceOf(h, r, m0) <= n || had <= n
    requires n < AfterPlace(h, r, m0, m1) || n < PlaceOf(h, r, m1)
    ensures m0 < m1 ==> PlaceOf(h, r, m0) <= n < AfterPlace(h, r, m0, m1)
  {
    if m0 < m1 {
      PlaceSplits(h, r, n, m0);
      PlaceSplits(h, r, n, m1);
      PlaceIs(h, r, m1 - 1);
      if had <= n {
        OwnUpTo(h, r, had, n);
      }
      if n < PlaceOf(h, r, m1) {
        RankSteps(h, r, PlaceOf(h, r, m1 - 1));
        if PlaceOf(h, r, m1 - 1) < n {
          OwnUpTo(h, r, PlaceOf(h, r, m1 - 1) + 1, n);
        }
      }
    }
  }

  /** No gap and no repeat: what a joiner has seen is every message of the name from
      the first it was shown to the last, each exactly once, if and only if the live
      stream has reached the window and none of those outside the window was sent
      through another channel object of that name. */
  lemma ViewHasNoGapIff(tr: seq<State>, k: nat, j: nat, p: nat)
    requires Run(tr) && k < |tr| && Reads(tr[k], j, p)
    ensures var s := tr[k];
      && First(s, j, p) <= Until(s, j, p) <= |History(s, j)|
      && (multiset(Seen(s, j, p)) == multiset(History(s, j)[First(s, j, p)..Until(s, j, p)]) <==>
          Reached(s, j, p)
          && Strayless(History(s, j), s.joiners[j].room, First(s, j, p), Until(s, j, p), Lo(s, j), s.joiners[j].pc.had))
  {
    SeenIs(tr, k, j, p);
    PlacesAre(tr, k, j, p);
    var s := tr[k];
    GapIff(Seen(s, j, p), History(s, j), s.joiners[j].room, Before(s, j, p), Upto(s, j, p), Lo(s, j), s.joiners[j].pc.had,
           First(s, j, p), Until(s, j, p));
  }

  /** The next own message is past all that was read. */
  lemma NextIsUnread(h: seq<Payload>, r: nat, m0: nat, m1: nat)
    requires m0 < m1 <= |Own(h, r)| && PlaceOf(h, r, m1) < |h|
    ensures AfterPlace(h, r, m0, m1) <= PlaceOf(h, r, m1) && PlaceOf(h, r, m0) <= PlaceOf(h, r, m1)
  {
    PlaceIs(h, r, m1);
    PlaceIs(h, r, m1 - 1);
    PlacesRise(h, r, m1 - 1, m1);
    PlacesRise(h, r, m0, m1);
  }

  lemma GapIff(v: seq<Payload>, h: seq<Payload>, r: nat, m0: nat, m1: nat, lo: nat, had: nat, first: nat, until: nat)
    requires Shape(v, h, r, PlaceOf(h, r, m0), AfterPlace(h, r, m0, m1), lo, had)
    requires m0 <= m1 <= |Own(h, r)| && m0 <= |Own(h[..had], r)|
    requires first == (if m0 == m1 then lo else Smaller(PlaceOf(h, r, m0), lo))
    requires until == (if m0 == m1 then had else Larger(had, AfterPlace(h, r, m0, m1)))
    ensures first <= until <= |h|
    ensures multiset(v) == multiset(h[first..until]) <==>
            (m0 == m1 || lo <= PlaceOf(h, r, m1)) && Strayless(h, r, first, until, lo, had)
  {
    var a, b := PlaceOf(h, r, m0), AfterPlace(h, r, m0, m1);
    if m0 == m1 {
      assert Rest(h, r, a, b, lo, had) == [];
      assert v == h[lo..had];
    } else if PlaceOf(h, r, m1) < lo {
      NextIsUnread(h, r, m0, m1);
      MissedIsGap(v, h, r, a, b, lo, had, first, until, PlaceOf(h, r, m1));
    } else {
      forall n | first <= n < until && JoinerSeqs.Kept(h, r, n, lo, had) ensures a <= n < b {
        OwnIsRead(h, r, m0, m1, lo, had, n);
      }
      NoGapIff(v, h, r, a, b, lo, had, first, until);
    }
  }

  // ------------------------------------------------------------ order

  /** What is seen is in the history's order exactly when no more messages than the
      window holds were added from the first the joiner was to read live until it
      read the history, or when nothing was read live, or there is no window. */
  lemma ViewInOrder(tr: seq<State>, k: nat, j: nat, p: nat)
    requires Run(tr) && k < |tr| && Reads(tr[k], j, p)
    ensures InOrderOf(Seen(tr[k], j, p), History(tr[k], j)) <==>
            || tr[k].joiners[j].pc.had - Start(tr[k], j, p) <= tr[k].setup.backlog
            || Before(tr[k], j, p) == Upto(tr[k], j, p)
            || tr[k].setup.backlog == 0
  {
    SeenIs(tr, k, j, p);
    PlacesAre(tr, k, j, p);
    var s := tr[k];
    OrderIff(Seen(s, j, p), History(s, j), s.joiners[j].room, Start(s, j, p), End(s, j, p), Lo(s, j),
             s.joiners[j].pc.had);
  }

  /** And that is id order, wherever the history's own is. */
  lemma ViewInIdOrder(tr: seq<State>, k: nat, j: nat, p: nat)
    requires Run(tr) && k < |tr| && Reads(tr[k], j, p) && RisesAtHandovers(History(tr[k], j))
    ensures Increasing(Seen(tr[k], j, p)) <==>
            || tr[k].joiners[j].pc.had - Start(tr[k], j, p) <= tr[k].setup.backlog
            || Before(tr[k], j, p) == Upto(tr[k], j, p)
            || tr[k].setup.backlog == 0
  {
    var s := tr[k];
    SeenIs(tr, k, j, p);
    PlacesAre(tr, k, j, p);
    HistoryRisesIff(tr, k, s.rooms[s.joiners[j].room].name);
    AllFromHistory(Seen(s, j, p), History(s, j), s.joiners[j].room, Start(s, j, p), End(s, j, p), Lo(s, j),
                   s.joiners[j].pc.had);
    RisingIff(Seen(s, j, p), History(s, j));
    ViewInOrder(tr, k, j, p);
  }

  // ------------------------------------------------------------ to the end

  /** Nobody sends, the ring is open, and the joiner has read all of it. */
  predicate CaughtUp(s: State, j: nat, p: nat)
    requires Reads(s, j, p)
  {
    var x := s.joiners[j];
    var room := s.rooms[x.room];
    room.lock == None && x.codec < |room.open| && room.open[x.codec] && p == |room.rings[x.codec]|
  }

  lemma CaughtUpReadsAll(tr: seq<State>, k: nat, j: nat, p: nat)
    requires Run(tr) && k < |tr| && Reads(tr[k], j, p) && CaughtUp(tr[k], j, p)
    ensures Upto(tr[k], j, p) == |Own(History(tr[k], j), tr[k].joiners[j].room)|
  {
    OneOrder(tr, k, tr[k].joiners[j].room);
    assert Ring(tr[k], j)[..p] == Ring(tr[k], j);
  }

  /** A joiner that has caught up has everything, every message of the name from the
      first it was shown to the very last, each exactly once, if and only if none of
      those outside its window was sent through another channel object of that name;
      and has it in the history's order if it was not behind its window. */
  lemma CaughtUpHasEverythingIff(tr: seq<State>, k: nat, j: nat, p: nat)
    requires Run(tr) && k < |tr| && Reads(tr[k], j, p) && CaughtUp(tr[k], j, p)
    ensures var s := tr[k];
      var h, first := History(s, j), Smaller(Start(s, j, p), Lo(s, j));
      && first <= |h|
      && (multiset(Seen(s, j, p)) == multiset(h[first..]) <==>
          Strayless(h, s.joiners[j].room, first, |h|, Lo(s, j), s.joiners[j].pc.had))
      && (Strayless(h, s.joiners[j].room, first, |h|, Lo(s, j), s.joiners[j].pc.had) && first == Lo(s, j) ==>
            Seen(s, j, p) == h[first..])
  {
    SeenIs(tr, k, j, p);
    PlacesAre(tr, k, j, p);
    CaughtUpReadsAll(tr, k, j, p);
    var s := tr[k];
    ToTheEnd(Seen(s, j, p), History(s, j), s.joiners[j].room, Before(s, j, p), Lo(s, j), s.joiners[j].pc.had);
    TailIs(History(s, j), Smaller(Start(s, j, p), Lo(s, j)));
  }

  lemma TailIs(h: seq<Payload>, n: nat)
    requires n <= |h|
    ensures h[n..|h|] == h[n..]
  {
  }

  lemma ToTheEnd(v: seq<Payload>, h: seq<Payload>, r: nat, m0: nat, lo: nat, had: nat)
    requires had <= |h| && m0 <= |Own(h, r)| && m0 <= |Own(h[..had], r)|
    requires Shape(v, h, r, PlaceOf(h, r, m0), AfterPlace(h, r, m0, |Own(h, r)|), lo, had)
    ensures var first := Smaller(PlaceOf(h, r, m0), lo);
      && (multiset(v) == multiset(h[first..|h|]) <==> Strayless(h, r, first, |h|, lo, had))
      && (Strayless(h, r, first, |h|, lo, had) && first == lo ==> v == h[first..|h|])
  {
    var a, b, first := PlaceOf(h, r, m0), AfterPlace(h, r, m0, |Own(h, r)|), Smaller(PlaceOf(h, r, m0), lo);
    forall n | first <= n < |h| && JoinerSeqs.Kept(h, r, n, lo, had) ensures a <= n < b {
      AllIsRead(h, r, m0, lo, had, n);
    }
    NoGapIff(v, h, r, a, b, lo, had, first, |h|);
  }

  lemma AllIsRead(h: seq<Payload>, r: nat, m0: nat, lo: nat, had: nat, n: nat)
    requires had <= |h| && m0 <= |Own(h, r)| && m0 <= |Own(h[..had], r)|
    requires Smaller(PlaceOf(h, r, m0), lo) <= n < |h| && JoinerSeqs.Kept(h, r, n, lo, had)
    ensures PlaceOf(h, r, m0) <= n < AfterPlace(h, r, m0, |Own(h, r)|)
  {
    PlaceIs(h, r, |Own(h, r)|);
    OwnIsRead(h, r, m0, |Own(h, r)|, lo, had, n);
    if m0 == |Own(h, r)| && had <= n {
      NoneLeft(h, r, n, had);
    }
  }

  /** With all the room's messages at or before the window, none lies after it. */
  lemma NoneLeft(h: seq<Payload>, r: nat, n: nat, had: nat)
    requires n < |h| && h[n].room == r && had <= |h| && |Own(h, r)| <= |Own(h[..had], r)|
    ensures n < had
  {
    if had <= n {
      RankSteps(h, r, n);
      OwnUpTo(h, r, had, n);
      WholeIs(h, r);
      OwnUpTo(h, r, n + 1, |h|);
    }
  }

  lemma WholeIs(h: seq<Payload>, r: nat)
    ensures Own(h[..|h|], r) == Own(h, r)
  {
    assert h[..|h|] == h;
  }

  /** If no other channel of the name has added anything since this one opened, a
      joiner that has caught up has everything. */
  lemma AloneHasEverything(tr: seq<State>, k: nat, j: nat, p: nat)
    requires Run(tr) && k < |tr| && Reads(tr[k], j, p) && CaughtUp(tr[k], j, p)
    requires AloneSince(tr[k], tr[k].joiners[j].room, tr[k].rooms[tr[k].joiners[j].room].since)
    ensures var s := tr[k];
      var first := Smaller(Start(s, j, p), Lo(s, j));
      first <= |History(s, j)| && multiset(Seen(s, j, p)) == multiset(History(s, j)[first..])
  {
    CaughtUpHasEverythingIff(tr, k, j, p);
    SinceIsBefore(tr, k, j, p);
  }

  /** The channel's own messages, and the joiner's window's end, come after what there
      was when it opened. */
  lemma SinceIsBefore(tr: seq<State>, k: nat, j: nat, p: nat)
    requires Run(tr) && k < |tr| && Reads(tr[k], j, p)
    ensures tr[k].rooms[tr[k].joiners[j].room].since <= Start(tr[k], j, p)
    ensures tr[k].rooms[tr[k].joiners[j].room].since <= tr[k].joiners[j].pc.had
  {
    RunInv(tr, k);
    var s := tr[k];
    assert JoinerOk(s, j) && KeptOk(s, s.joiners[j].room);
    PlaceIs(History(s, j), s.joiners[j].room, Before(s, j, p));
  }
}
