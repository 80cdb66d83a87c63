/** When a joiner subscribed and when it read the history, and what it has seen by
    those two instants. */
module RoomsJoins {
  import opened Fanout
  import opened Rooms
  import opened RoomsInv
  import opened RoomsSteps
  import opened RoomsTheorems
  import opened JoinerSeqs
  import opened JoinerView

  // ------------------------------------------------------------ one step

  predicate SameJoiner(x: Joiner, y: Joiner) {
    x.room == y.room && x.codec == y.codec
  }

  predicate WellPlaced(s: State, j: nat) {
    && j < |s.joiners| && s.joiners[j].room < |s.rooms| && s.joiners[j].codec < |s.rooms[s.joiners[j].room].rings|
  }

  /** What one step makes of a joiner. */
  predicate Moved(s: State, x: Joiner, y: Joiner)
    requires x.room < |s.rooms| && x.codec < |s.rooms[x.room].rings|
  {
    && SameJoiner(x, y)
    && match x.pc
       case Subscribing => y.pc == Subscribing || y.pc == Reading(|s.rooms[x.room].rings[x.codec]|)
       case Reading(cursor) =>
         y.pc == x.pc || y.pc == Live(cursor, Last(HistOf(s, x.room), s.setup.backlog), |HistOf(s, x.room)|)
       case Live(_, _, _) => y.pc == x.pc
  }

  lemma StepMoves(s: State, t: State, step: Step, j: nat)
    requires Enabled(s, step) && t == Apply(s, step) && WellPlaced(s, j)
    ensures j < |t.joiners| && Moved(s, s.joiners[j], t.joiners[j])
  {
  }

  lemma NewSubscribes(s: State, t: State, step: Step, j: nat)
    requires Enabled(s, step) && t == Apply(s, step) && |s.joiners| <= j < |t.joiners|
    ensures t.joiners[j].pc == Subscribing
  {
  }

  lemma PlacedIn(tr: seq<State>, k: nat, j: nat)
    requires Run(tr) && k < |tr| && j < |tr[k].joiners|
    ensures WellPlaced(tr[k], j)
  {
    RunInv(tr, k);
    assert JoinerOk(tr[k], j);
  }

  lemma MovedNext(tr: seq<State>, k: nat, j: nat)
    requires Run(tr) && 0 < k < |tr| && j < |tr[k - 1].joiners|
    ensures WellPlaced(tr[k - 1], j) && j < |tr[k].joiners| && Moved(tr[k - 1], tr[k - 1].joiners[j], tr[k].joiners[j])
  {
    PlacedIn(tr, k - 1, j);
    var step := StepTo(tr, k);
    StepMoves(tr[k - 1], tr[k], step, j);
  }

  lemma GrowsNext(tr: seq<State>, k: nat, r: nat)
    requires Run(tr) && 0 < k < |tr| && r < |tr[k - 1].rooms|
    ensures r < |tr[k].rooms| && tr[k].rooms[r].name == tr[k - 1].rooms[r].name && tr[k].setup == tr[k - 1].setup
    ensures |tr[k].rooms[r].rings| == |tr[k - 1].rooms[r].rings| && HistOf(tr[k - 1], r) <= HistOf(tr[k], r)
    ensures forall c | 0 <= c < |tr[k].rooms[r].rings| :: tr[k - 1].rooms[r].rings[c] <= tr[k].rooms[r].rings[c]
  {
    var step := StepTo(tr, k);
    OneGrows(tr[k - 1], tr[k], step, r);
  }

  lemma OneGrows(s: State, t: State, step: Step, r: nat)
    requires Enabled(s, step) && t == Apply(s, step) && r < |s.rooms|
    ensures r < |t.rooms| && t.rooms[r].name == s.rooms[r].name && t.setup == s.setup
    ensures |t.rooms[r].rings| == |s.rooms[r].rings| && HistOf(s, r) <= HistOf(t, r)
    ensures forall c | 0 <= c < |t.rooms[r].rings| :: s.rooms[r].rings[c] <= t.rooms[r].rings[c]
  {
    if step.MoveSender? {
      SenderGrows(s, t, step.i, step.ok, step.pick, r);
    }
  }

  lemma SenderGrows(s: State, t: State, i: nat, ok: bool, pick: nat, r: nat)
    requires SenderEnabled(s, i, pick) && t == SenderStep(s, i, ok, pick) && r < |s.rooms|
    ensures r < |t.rooms| && t.rooms[r].name == s.rooms[r].name && t.setup == s.setup
    ensures |t.rooms[r].rings| == |s.rooms[r].rings| && HistOf(s, r) <= HistOf(t, r)
    ensures forall c | 0 <= c < |t.rooms[r].rings| :: s.rooms[r].rings[c] <= t.rooms[r].rings[c]
  {
  }

  /** Rings and histories only grow. */
  lemma {:induction false} GrowsSince(tr: seq<State>, i: nat, k: nat, r: nat)
    requires Run(tr) && i <= k < |tr| && r < |tr[i].rooms|
    ensures r < |tr[k].rooms| && tr[k].setup == tr[i].setup
    ensures |tr[k].rooms[r].rings| == |tr[i].rooms[r].rings| && HistOf(tr[i], r) <= HistOf(tr[k], r)
    ensures forall c | 0 <= c < |tr[k].rooms[r].rings| :: tr[i].rooms[r].rings[c] <= tr[k].rooms[r].rings[c]
  {
    if i < k {
      GrowsSince(tr, i, k - 1, r);
      GrowsNext(tr, k, r);
    }
  }

  // ------------------------------------------------------------ the two instants

  /** Step `i` subscribes joiner `j`. */
  predicate SubscribesAt(tr: seq<State>, i: nat, j: nat) {
    && i + 1 < |tr| && j < |tr[i].joiners| && j < |tr[i + 1].joiners|
    && tr[i].joiners[j].pc == Subscribing && tr[i + 1].joiners[j].pc != Subscribing
  }

  /** Step `r` reads the history for it. */
  predicate ReadsAt(tr: seq<State>, r: nat, j: nat) {
    && r + 1 < |tr| && j < |tr[r].joiners| && j < |tr[r + 1].joiners|
    && tr[r].joiners[j].pc.Reading? && tr[r + 1].joiners[j].pc.Live?
  }

  lemma {:induction false} FindSubscribed(tr: seq<State>, k: nat, j: nat) returns (i: nat)
    requires Run(tr) && k < |tr| && j < |tr[k].joiners| && tr[k].joiners[j].pc != Subscribing
    ensures i < k && SubscribesAt(tr, i, j)
  {
    var step := StepTo(tr, k);
    if j < |tr[k - 1].joiners| {
      MovedNext(tr, k, j);
    } else {
      NewSubscribes(tr[k - 1], tr[k], step, j);
    }
    if tr[k - 1].joiners[j].pc == Subscribing {
      i := k - 1;
    } else {
      i := FindSubscribed(tr, k - 1, j);
    }
  }

  lemma {:induction false} FindRead(tr: seq<State>, k: nat, j: nat) returns (r: nat)
    requires Run(tr) && k < |tr| && j < |tr[k].joiners| && tr[k].joiners[j].pc.Live?
    ensures r < k && ReadsAt(tr, r, j)
  {
    var step := StepTo(tr, k);
    if j < |tr[k - 1].joiners| {
      MovedNext(tr, k, j);
    } else {
      NewSubscribes(tr[k - 1], tr[k], step, j);
    }
    if tr[k - 1].joiners[j].pc.Reading? {
      r := k - 1;
    } else {
      r := FindRead(tr, k - 1, j);
    }
  }

  /** Wherever a joiner subscribed, it stays: the cursor is where its channel's ring
      ended at that very step, and it is one step only. */
  lemma {:induction false} CursorIs(tr: seq<State>, i: nat, k: nat, j: nat)
    requires Run(tr) && SubscribesAt(tr, i, j) && i < k < |tr|
    ensures WellPlaced(tr[i], j) && WellPlaced(tr[k], j) && SameJoiner(tr[i].joiners[j], tr[k].joiners[j])
    ensures tr[k].joiners[j].pc != Subscribing
    ensures tr[k].joiners[j].pc.cursor == |Ring(tr[i], j)| && Ring(tr[i], j) <= Ring(tr[k], j)
  {
    if i + 1 < k {
      CursorIs(tr, i, k - 1, j);
    }
    MovedNext(tr, k, j);
    PlacedIn(tr, k, j);
    GrowsNext(tr, k, tr[k - 1].joiners[j].room);
  }

  /** And the window is the end of the history as it was when it read that. */
  lemma {:induction false} WindowWas(tr: seq<State>, r: nat, k: nat, j: nat)
    requires Run(tr) && ReadsAt(tr, r, j) && r < k < |tr|
    ensures WellPlaced(tr[r], j) && WellPlaced(tr[k], j) && SameJoiner(tr[r].joiners[j], tr[k].joiners[j])
    ensures tr[k].joiners[j].pc.Live? && tr[k].setup == tr[r].setup && tr[k].joiners[j].pc.had == |History(tr[r], j)|
    ensures tr[k].joiners[j].pc.backlog == Last(History(tr[r], j), tr[k].setup.backlog)
    ensures History(tr[r], j) <= History(tr[k], j)
  {
    if r + 1 < k {
      WindowWas(tr, r, k - 1, j);
    }
    MovedNext(tr, k, j);
    PlacedIn(tr, k, j);
    GrowsNext(tr, k, tr[k - 1].joiners[j].room);
  }

  lemma SubscribesFirst(tr: seq<State>, i: nat, r: nat, j: nat)
    requires Run(tr) && SubscribesAt(tr, i, j) && ReadsAt(tr, r, j)
    ensures i < r
  {
    if r < i {
      WindowWas(tr, r, i, j);
    }
  }

  /** What a joiner has seen, by its two instants: the last of the history as it was
      at the second, then every message its ring was given since the first, but for
      those the window showed. */
  lemma SeenSince(tr: seq<State>, k: nat, j: nat, p: nat) returns (i: nat, r: nat)
    requires Run(tr) && k < |tr| && Reads(tr[k], j, p)
    ensures i < r < k && SubscribesAt(tr, i, j) && ReadsAt(tr, r, j) && WellPlaced(tr[i], j) && WellPlaced(tr[r], j)
    ensures SameJoiner(tr[i].joiners[j], tr[k].joiners[j]) && SameJoiner(tr[r].joiners[j], tr[k].joiners[j])
    ensures Ring(tr[i], j) <= Ring(tr[k], j)[..p] && History(tr[r], j) <= History(tr[k], j)
    ensures Seen(tr[k], j, p) == View(Last(History(tr[r], j), tr[k].setup.backlog), Ring(tr[k], j)[|Ring(tr[i], j)|..p])
  {
    i := FindSubscribed(tr, k, j);
    r := FindRead(tr, k, j);
    SubscribesFirst(tr, i, r, j);
    CursorIs(tr, i, k, j);
    WindowWas(tr, r, k, j);
  }

  // ------------------------------------------------------------ when it was made

  lemma RoomKeeps(s: State, t: State, step: Step, r: nat)
    requires Enabled(s, step) && t == Apply(s, step) && r < |t.rooms|
    ensures r < |s.rooms| ==> t.rooms[r].since == s.rooms[r].since && t.rooms[r].born == s.rooms[r].born
    ensures |s.rooms| <= r ==> t.rooms[r].since == |Hist(s, t.rooms[r].name)| && t.rooms[r].born == s.seqno && t.hists == s.hists
  {
    if step.MoveSender? {
      SenderKeepsRoom(s, t, step.i, step.ok, step.pick, r);
    }
  }

  lemma SenderKeepsRoom(s: State, t: State, i: nat, ok: bool, pick: nat, r: nat)
    requires SenderEnabled(s, i, pick) && t == SenderStep(s, i, ok, pick) && r < |t.rooms|
    ensures r < |s.rooms| && t.rooms[r].since == s.rooms[r].since && t.rooms[r].born == s.rooms[r].born
  {
  }

  /** What a channel is said to have found is what there was at the step that made it. */
  lemma {:induction false} MadeWith(tr: seq<State>, i: nat, k: nat, r: nat)
    requires Run(tr) && i < k < |tr| && |tr[i].rooms| <= r < |tr[i + 1].rooms|
    ensures r < |tr[k].rooms| && tr[k].rooms[r].since == |Hist(tr[i], tr[k].rooms[r].name)| && tr[k].rooms[r].born == tr[i].seqno
    ensures Hist(tr[i], tr[k].rooms[r].name) <= HistOf(tr[k], r)
  {
    var step := StepTo(tr, k);
    if i + 1 == k {
      RoomKeeps(tr[i], tr[k], step, r);
    } else {
      MadeWith(tr, i, k - 1, r);
      GrowsNext(tr, k, r);
      RoomKeeps(tr[k - 1], tr[k], step, r);
    }
  }

  /** A name's history is what it was at the step that made a channel, and after that
      the channel's own messages, exactly if all that was added since is its own. */
  lemma HistorySinceMade(tr: seq<State>, i: nat, k: nat, r: nat)
    requires Run(tr) && i < k < |tr| && |tr[i].rooms| <= r < |tr[i + 1].rooms|
    ensures r < |tr[k].rooms|
    ensures var was, hist := Hist(tr[i], tr[k].rooms[r].name), HistOf(tr[k], r);
      && was <= hist
      && (hist == was + Msgs(tr[k].rooms[r].log) <==> forall n | |was| <= n < |hist| :: hist[n].room == r)
  {
    MadeWith(tr, i, k, r);
    HistoryIsOwnIff(tr, k, r);
    assert HistOf(tr[k], r)[..tr[k].rooms[r].since] == Hist(tr[i], tr[k].rooms[r].name);
  }

  // ------------------------------------------------------------ order

  /** With nobody sending on the channel as it subscribed, and its ring open. */
  predicate Still(s: State, j: nat)
    requires WellPlaced(s, j)
  {
    var x := s.joiners[j];
    s.rooms[x.room].lock == None && x.codec < |s.rooms[x.room].open| && s.rooms[x.room].open[x.codec]
  }

  lemma OwnBefore(h: seq<Payload>, r: nat, n: nat)
    requires n <= |h|
    ensures n <= PlaceOf(h, r, |Own(h[..n], r)|)
  {
    OwnOfStretch(h, r, n, |h|);
    WholeIs(h, r);
    PlaceIs(h, r, |Own(h[..n], r)|);
    var q := PlaceOf(h, r, |Own(h[..n], r)|);
    if q < n {
      RankSteps(h, r, q);
      OwnUpTo(h, r, q + 1, n);
    }
  }

  /** All that is read live was then added to the history after that step. */
  lemma StartsAfter(tr: seq<State>, i: nat, k: nat, j: nat, p: nat)
    requires Run(tr) && SubscribesAt(tr, i, j) && i < k < |tr| && Reads(tr[k], j, p) && WellPlaced(tr[i], j) && Still(tr[i], j)
    ensures SameJoiner(tr[i].joiners[j], tr[k].joiners[j]) && History(tr[i], j) <= History(tr[k], j)
    ensures |History(tr[i], j)| <= Start(tr[k], j, p)
  {
    CursorIs(tr, i, k, j);
    var room := tr[i].joiners[j].room;
    GrowsSince(tr, i, k, room);
    NamesKeep(tr, i, k, room);
    OneOrder(tr, i, room);
    var h, n := History(tr[k], j), |History(tr[i], j)|;
    assert h[..n] == History(tr[i], j);
    assert Ring(tr[k], j)[..|Ring(tr[i], j)|] == Ring(tr[i], j);
    OwnBefore(h, room, n);
  }

  lemma {:induction false} NamesKeep(tr: seq<State>, i: nat, k: nat, r: nat)
    requires Run(tr) && i <= k < |tr| && r < |tr[i].rooms|
    ensures r < |tr[k].rooms| && tr[k].rooms[r].name == tr[i].rooms[r].name
  {
    if i < k {
      NamesKeep(tr, i, k - 1, r);
      GrowsNext(tr, k, r);
    }
  }

  /** So a joiner sees all in the history's order if nobody was sending as it
      subscribed and no more than a window's worth was added before it had read the
      history. */
  lemma PromptIsInOrder(tr: seq<State>, i: nat, r: nat, k: nat, j: nat, p: nat)
    requires Run(tr) && SubscribesAt(tr, i, j) && ReadsAt(tr, r, j) && r < k < |tr| && Reads(tr[k], j, p)
    requires WellPlaced(tr[i], j) && Still(tr[i], j) && WellPlaced(tr[r], j)
    requires |History(tr[r], j)| - |History(tr[i], j)| <= tr[k].setup.backlog
    ensures InOrderOf(Seen(tr[k], j, p), History(tr[k], j))
  {
    SubscribesFirst(tr, i, r, j);
    WindowWas(tr, r, k, j);
    StartsAfter(tr, i, k, j, p);
    ViewInOrder(tr, k, j, p);
  }

  // ------------------------------------------------------------ undisturbed

  /** A joiner left alone, whatever its codec, has at once the end of the history,
      nobody waited for, and reads on from the end of its own codec's ring. */
  lemma JoinsAtOnce(tr: seq<State>, k: nat, r: nat, codec: nat)
    requires Run(tr) && k < |tr| && r < |tr[k].rooms| && codec < tr[k].setup.codecs
    ensures var s, j := tr[k], |tr[k].joiners|;
      && Enabled(s, Join(r, codec)) && Enabled(Apply(s, Join(r, codec)), MoveJoiner(j))
      && Enabled(Apply(Apply(s, Join(r, codec)), MoveJoiner(j)), MoveJoiner(j))
      && var t := Apply(Apply(Apply(s, Join(r, codec)), MoveJoiner(j)), MoveJoiner(j));
      && t.rooms == s.rooms && t.hists == s.hists
      && j < |t.joiners| && t.joiners[j].pc.Live? && codec < |s.rooms[r].rings|
      && Reads(t, j, |s.rooms[r].rings[codec]|)
      && Seen(t, j, |s.rooms[r].rings[codec]|) == Last(HistOf(s, r), s.setup.backlog)
  {
    RunInv(tr, k);
    assert RoomOk(tr[k], r);
    var ring := tr[k].rooms[r].rings[codec];
    assert ring[|ring|..|ring|] == [];
  }
}
