# A verified model of ws-chat's concurrency and accounting

ws-chat is a WebSocket chat server. Frames are fanned out to subscribers by a
ring whose readers take no lock; channels are joined, parted, banned from and
swept by many goroutines at once; each joiner is shown a window of history and
then the live stream; and a load generator measures it all with a quantised
histogram. This project models those parts and proves what they promise, for
every input, every interleaving and every run.

## How it is laid out

| files | what they model |
|---|---|
| `Bits`, `Fanout` | shifts and masks on naturals; frames, errors, and the answer an atomic receive owes |
| `SeqRing*` | the lock-free-read ring, one atomic load or store a step, any number of writers, readers, closers |
| `Ring`, `MapChan`, `FanoutCompare` | the locked ring and the queue-per-subscriber baseline as classes, and the two compared |
| `Membership*` | join, part, ban, sweep, teardown and pumps over shared maps, one critical section a step |
| `Rooms*`, `JoinerSeqs`, `JoinerView` | sending under a channel's lock with one server-wide id counter and one history a channel name; what a joiner sees |
| `History` | the bounded window of messages, shifted in place |
| `Buckets`, `Histogram` | log-linear buckets, recording, merging and quantiles |
| `Speakers` | which connections of the load generator speak |
| `Tokens`, `RateLimit` | the token bucket |
| `LimiterTable`, `LimiterSweeps`, `Limiters` | the shared, reference-counted and swept table of buckets |
| `Cork` | coalescing socket writes |
| `Moderation` | mutes and bans, with expiry and sweeping |

Protocols are state machines: a `State`, a `Step` for every atomic action of any
goroutine, and `Run`, all sequences of steps. Go's atomics are sequentially
consistent (The Go Memory Model, section "Atomic Values"), and what a lock
protects is one step, so interleavings of steps are all there is to consider.
Objects that one goroutine at a time updates in place are classes, whose methods
are proved against functions of the old state; what is promised is then proved
of those functions. Hooks' answers, encoding failures, socket replies and clock
readings are parameters.

## Where the code does less than its comments say

* `SeqRing` does not always drain before `ErrClosed`: a frame published between
  a reader's load of `published` and its load of `closed` is skipped when the
  ring is then closed (`internal/broadcast/seqring.go:141-146`). The locked ring
  does drain. `SeqRingUndrained.CloseMaySkipAFrame` is a run that shows it;
  `SeqRingInstants.ClosedBetweenLoads` says that the reader has everything exactly
  if nothing was published between those two loads.
* A client's own JOIN is not always first from its pump: anything broadcast
  between subscribing and the JOIN comes before it (`membership.go:59-87`), as in
  the run `MembershipFirst.TalkMayComeFirst`. It is first exactly if nothing was
  (`MembershipFirst.JoinIsFirstIff`). That the BACKLOG precedes everything from
  the pump is proved without condition.
* A channel ban does not always reach its target's socket exactly once: lifted
  after its part is over and before its MOD is broadcast, it lets the target come
  back and be told twice (`MembershipLifted.LiftedModMayComeTwice`). It is told
  once exactly if no membership of the target delivered the MOD from the ring
  (`MembershipCopies.ToldOnceIff`), which holds if every membership they had there
  is over as the MOD is broadcast (`MembershipTold.OverIsOnce`), and so for every
  ban that still stands and was not preceded by one lifted in the middle of its
  part (`MembershipTold.BanReachesOnce`).
* A member can be off the list of a channel they are in: because another live
  connection of their nick joined it after them
  (`MembershipUnseated.SharedNickUnseats`), or because a ban lifted mid-part came to
  take them off after they were back (`MembershipUnseated.LiftedMidPartUnseats`).
  They are on it exactly if, since they last put themselves on it, nobody else has
  under their nick and no ban's removal has come for them; the first is so if no two
  live connections ever shared that nick, the second if no ban of that person there
  was ever lifted mid-part, whatever happened to anybody else
  (`MembershipSeats.SeatedIff`, `MembershipSeats.MembersAreSeated`).
* The history is keyed by name and outlives a channel, so the lock of one channel
  does not give it an order (`init.go:172-184`): a send under way in a channel that
  is swept and made again adds its message behind the back of whoever is in the
  second, and after larger ids, as in the run `RoomsStray.StrayIsNeverSeen`. What
  one channel adds is always its own messages in its own order
  (`RoomsTheorems.OneOrder`); the history is that and nothing else exactly if no
  other channel of the name has added to it since
  (`RoomsTheorems.HistoryIsOwnIff`), rises exactly if it does wherever one
  channel's message follows another's (`RoomsTheorems.HistoryRisesIff`), and a
  joiner misses exactly what another channel added outside its window
  (`JoinerView.CaughtUpHasEverythingIff`).
* A joiner's window can be ahead of its live stream: with more than a window's worth
  sent between subscribing and reading the history, it sees later messages first and
  misses those between until it has read on, as in the run
  `RoomsAhead.WindowMayBeAhead`. Its messages are in the history's order exactly when
  no more than a window's worth came from its first live message until it read the
  history (`JoinerView.ViewInOrder`), and without a gap exactly when the live stream
  has reached the window and no other channel of the name added outside it
  (`JoinerView.ViewHasNoGapIff`).
* The ring and the queue report the same end except to a subscriber that closes itself
  before the ring has told it that it had lagged (`FanoutCompare.SameEnd`,
  `FanoutCompare.ReasonsMayDiffer`).
* `MapChan` relies on broadcasts being taken one at a time, as the channel's lock
  makes them. Were two to overlap, a subscriber could get the second frame without
  the first before it is dropped (`MapChan.OverlapSkips`).
* Sweeping the moderation store is invisible to every question, but not to
  `Unmute` and `Unban`, which report whether an entry was there
  (`Moderation.LiftingSeesSweep`); the server ignores that report.

## Model

| member | source | states |
|---|---|---|
| Fanout.RingSizeIsPow2 | internal/broadcast/ring.go:25-43 | a ring has a power of two of slots, at least what was asked for and less than twice that, or the default for none |
| Fanout.Slot | internal/broadcast/ring.go:56-60 | masking by one less than the size is the sequence number's remainder |
| Fanout.SlotsDiffer | internal/broadcast/seqring.go:42-52 | sequence numbers less than a lap apart never share a slot |
| Ring.RoundPow2 | internal/broadcast/ring.go:37-43 | the doubling loop computes the least doubling of one that is large enough |
| Ring.Ring.constructor | internal/broadcast/ring.go:25-35 | a new ring is empty, open, with the rounded capacity |
| Ring.Ring.Broadcast | internal/broadcast/ring.go:45-66 | unless closed, the log grows by this frame and every frame less than a lap old is still in its slot; sleepers' channel is swapped iff somebody waits |
| Ring.Ring.Subscribe | internal/broadcast/ring.go:68-82 | starts at the write cursor and is counted, or is already ended and uncounted if the ring is closed |
| Ring.Ring.Finish | internal/broadcast/ring.go:119-125 | the first reason stands, and the count of live subscriptions falls once |
| Ring.Ring.Len | internal/broadcast/ring.go:86-94 | the number of subscriptions not yet finished, none once closed |
| Ring.Ring.CopyOut | internal/broadcast/ring.go:148-156 | the copy loop fills the front of the caller's array with the next frames of the log and no other cell |
| Ring.Ring.Recv | internal/broadcast/ring.go:129-180 | answers exactly as the atomic receive on the log, moves the cursor by what it returned, counts a drop once |
| Ring.Ring.Close | internal/broadcast/ring.go:96-108 | closes once, waking sleepers once, leaving the log |
| MapChan.MapChan.SendAll | internal/broadcast/broadcast.go:80-91 | the first critical section: every subscriber with room gets the frame, and exactly the full ones are listed as slow |
| MapChan.MapChan.DropAll | internal/broadcast/broadcast.go:97-108 | the second: of any subscriptions once listed, those still registered are unregistered, ended as lagged and counted, and those ended meanwhile keep their reason |
| MapChan.MapChan.Broadcast | internal/broadcast/broadcast.go:80-108 | undisturbed, every subscriber with room gets the frame, every full one is ended as lagged, unregistered and counted, nobody else changes |
| MapChan.OverlapSkips | internal/broadcast/broadcast.go:80-108 | with two overlapping broadcasts a reader in between gets the second frame and then the end, never the first |
| MapChan.MapChan.Close | internal/broadcast/broadcast.go:118-129 | every subscription is ended as closed, keeping what it had queued |
| MapChan.MapSub.Recv | internal/broadcast/broadcast.go:151-176 | takes what piled up, up to the room there is; the end only when nothing is queued |
| FanoutCompare.DoomedTogether | internal/broadcast/broadcast.go:80-108 | over every schedule ring and queue doom a subscriber at the same broadcast: the one finding exactly the slack unread |
| FanoutCompare.RingDeliversAPrefix | internal/broadcast/ring.go:129-180 | what the ring delivers is a prefix of what the queue delivers, itself a gap-free run of the log; equal until the subscriber is doomed or leaves |
| FanoutCompare.SameEnd | internal/broadcast/broadcast.go:131-176 | both end for the same reason iff the subscriber did not close itself while lagged without having been told; unless it closed itself, the ring says closed only after delivering everything, and the queue always; a doomed queue hands over exactly the slack more |
| FanoutCompare.ReasonsMayDiffer | internal/broadcast/ring.go:119-127 | a concrete schedule in which a subscriber that closes itself hears closed from the ring and lagged from the queue |
| FanoutCompare.RecvDelivers | internal/broadcast/ring.go:129-180 | with something within the slack to read, a receive of either hands over the next frames of the log, as many as there is room for, and no end |
| FanoutCompare.RingEndIsReported | internal/broadcast/ring.go:129-180 | over every schedule a subscriber that has not left is told at its next receive of the close iff the ring was closed and it has read all, of the lag if it lagged, of no end otherwise |
| FanoutCompare.QueueEndIsReported | internal/broadcast/broadcast.go:151-176 | and by the queue once it has handed over what it held, and not before |
| FanoutCompare.LeftIsReported | internal/broadcast/ring.go:119-180 | who closed itself hears of an end at the next receive and gets nothing more |
| FanoutCompare.LogIsSent | internal/broadcast/ring.go:45-66 | the log is the messages broadcast before the close and before leaving, in order |
| SeqRingInstants.RecvRefinesRing | internal/broadcast/seqring.go:130-182 | a receive that returned frames or ErrLagged returned what the locked ring's would have at the very step of that call that loaded `published`, or, ended before, its error |
| SeqRingTheorems.StreamIsLog | internal/broadcast/seqring.go:162-182 | a subscriber's calls together hand it a gap-free run of the log from its subscription, and the cursor is that run's end |
| SeqRingBroadcasts.EveryFrameWasBroadcast | internal/broadcast/seqring.go:42-64 | every frame of the log is the message of one call of Broadcast, and of no other |
| SeqRingBroadcasts.EveryBroadcastIsPublished | internal/broadcast/seqring.go:42-64 | a Broadcast that is through has put its own message in the log, or found the ring closed; a Close that is through has closed it and put nothing there |
| SeqRingBroadcasts.EarlierBroadcastFirst | internal/broadcast/seqring.go:42-64 | the message of a Broadcast that is through comes before that of any that has yet to publish |
| SeqRingBroadcasts.SubscribesAtPublished | internal/broadcast/seqring.go:66-77 | a subscription is given the log from what was published at the very step that made it |
| SeqRingEnds.SubscribedTooLate | internal/broadcast/seqring.go:66-73 | whoever subscribes to a closed ring comes out ended as closed and counted nowhere |
| SeqRingEnds.ClosedByHand | internal/broadcast/seqring.go:113-121 | a Sub.Close that has returned left its subscription ended and uncounted, as closed unless the reader had been found lagging |
| SeqRingEnds.ClosedByHandWakes | internal/broadcast/seqring.go:154-159 | and a reader that slept on it wakes and, left alone, is told so |
| SeqRingEnds.CloseEnds | internal/broadcast/seqring.go:113-121 | nobody having ended a subscription, Sub.Close does, left alone |
| SeqRingCalls.RecordIs | internal/broadcast/seqring.go:130-182 | the record of a call is of the stretch from the step that called it to the step that returned: what was published as it began, where its cursor stood, whether a validation failed in between |
| SeqRingCalls.FailedCallEnds | internal/broadcast/seqring.go:172-182 | a call in which a validation fails is told of the lag, or of the end somebody else gave its subscription, or is still under way, lapped and not waiting |
| SeqRingTheorems.FailedValidationIsFinal | internal/broadcast/seqring.go:172-182 | after a failed validation the call never returns data nor parks: it ends lagged or with the subscription's own end |
| SeqRingTheorems.RetryCannotSpin | internal/broadcast/seqring.go:162-179 | after a failed validation the reader is lapped by what is published, and dropped by its next load of `published`, or the one frame it is lapped by is half published by a writer that can move |
| SeqRingTheorems.ClosedRingWasRead | internal/broadcast/seqring.go:141-146 | a receive ended by the ring's close had delivered everything published before it began, and everything ever published iff nothing was published during it |
| SeqRingInstants.ClosedBetweenLoads | internal/broadcast/seqring.go:141-146 | that receive has delivered everything ever published iff nothing was published between its load of `published` and its load of `closed` |
| SeqRingUndrained.CloseMaySkipAFrame | internal/broadcast/seqring.go:141-146 | a concrete run in which a published frame is skipped when the ring is closed |
| SeqRingTheorems.ClosedIsFinal | internal/broadcast/seqring.go:42-101 | once closed, nothing is stored or published again, whoever was already inside Broadcast |
| SeqRingTheorems.CountersAreExact | internal/broadcast/seqring.go:147-161 | waiters, subs and drops always equal the readers registered, counted and dropped; a subscription drops once at most |
| SeqRingTheorems.NothingPanics | internal/broadcast/seqring.go:89-121 | no channel is closed twice and no empty slot is read |
| SeqRingTheorems.NoLostWakeup | internal/broadcast/seqring.go:53-63 | a parked reader with something to see can move, or a goroutine that can move must still close its very channel |
| SeqRingTheorems.WritersNeverStuck | internal/broadcast/seqring.go:42-64 | a goroutine in Broadcast or Close waits only for the lock, whose holder can move |
| SeqRingTheorems.QuiescentRecv | internal/broadcast/seqring.go:130-182 | left alone within its slack, with no frame half published, a receive returns the next min(len, pending) frames of the log |
| SeqRingAlone.AloneAnswers | internal/broadcast/seqring.go:130-182 | left alone with a live subscription and no frame half published, a receive answers with the lag if lapped, the next frames if there are any, the close if the ring is closed and drained, and else sleeps on the channel the next broadcast or close swaps out |
| SeqRingAlone.EndedAnswers | internal/broadcast/seqring.go:136-139 | and with a subscription already ended, its own end |
| MembershipLife.EndedOnce | membership.go:64-95 | a membership is taken out of its map once at most, its done is closed once at most, never under a running pump; once over, its subscription is closed |
| MembershipLife.NoOrphanedWait | membership.go:131-152 | whoever waits for done finds it closed, or its pump running with an ended subscription, or the join carrying it able to go on |
| MembershipBans.BanBeatsJoinInFlight | membership.go:58-79 | while a channel ban stands, once its part has looked and no join is between storing and undoing, the target has no membership there |
| MembershipOrder.JoinNeverAfterPart | membership.go:116-135 | no ring carries a membership's JOIN after its PART, or either twice, or one ban's MOD twice |
| MembershipOnce.BanToldOnce | moderation.go:70-108 | a ban whose part removed a membership tells the target that PART once and its MOD once, and that membership's pump carries neither |
| MembershipOnce.BacklogFirst | membership.go:81-95 | the BACKLOG goes out before anything the membership's pump delivers |
| MembershipCopies.PumpedExactly | membership.go:161-185 | a pump hands over any JOIN, PART or MOD once if it lies between where the membership subscribed and its cursor, and never otherwise |
| MembershipCopies.OriginIs | membership.go:59-59 | a membership's stretch begins where its channel's ring ended as it subscribed |
| MembershipCopies.ToldOnceIff | moderation.go:70-123 | a ban that is through told its target of its MOD, and of the PART it caused, exactly once iff no membership of theirs pumped that frame |
| MembershipTold.OverIsOnce | moderation.go:125-153 | if every membership the target ever had of the channel is over as the MOD enters the ring, they are told of it once |
| MembershipTold.BanReachesOnce | moderation.go:70-123 | while the ban stands, and no ban of that person there was ever lifted mid-part, exactly one PART and one MOD reach their socket, by any goroutine |
| MembershipLifted.LiftedModMayComeTwice | moderation.go:70-123 | a concrete run in which a ban lifted before it is announced reaches its target twice |
| MembershipFirst.JoinIsFirstIff | membership.go:81-95 | a pump's first delivery is its member's own JOIN iff nothing entered the ring between subscribing and announcing |
| MembershipFirst.TalkMayComeFirst | membership.go:59-95 | a concrete run in which a message comes before the JOIN |
| MembershipSweep.NobodyIsStranded | channel.go:47-83 | a channel with anybody on its list is the one registered under its name, open until shutdown; never more channels than the limit |
| MembershipLimits.NobodyExceeds | membership.go:28-62 | over every run no connection is in more channels than it may be, though the check and the storing are two critical sections |
| MembershipLimits.TurnedAwayFor | membership.go:28-79 | a join ends in, or undone under a ban, or refused, iff it is in already, at its limit, banned, refused by the hook, or finds no channel and no place for one |
| MembershipLimits.BannedStaysOut | membership.go:39-79 | while a ban stands, server-wide or of the channel, no connection of that person that is outside gets in |
| MembershipLimits.StandsUntilLifted | internal/moderation/moderation.go:27-41 | a ban once in the book is there until it is lifted |
| MembershipLimits.BansAreStored | moderation.go:57-74 | nobody comes to be banned but by a ban of theirs, in that scope |
| MembershipLimits.StoredKeepsOut | membership.go:39-79 | so from the step that stores it until it is lifted it keeps them out |
| MembershipLimits.RefusedStaysOut | membership.go:44-51 | a hook's refusal ends the join and changes nothing |
| MembershipLimits.SweepFrees | channel.go:130-146 | sweeping an empty channel closes its rings, frees its place, and touches no other |
| MembershipLimits.ShutCloses | channel.go:148-156 | shutting down closes every channel that can be found |
| MembershipAlone.JoinGetsIn | membership.go:22-100 | below both limits, not banned and allowed by the hook, a join left alone gets in: listed in the channel under that name, made if need be, subscribed, stored, sent the BACKLOG, announced, pumped |
| MembershipAlone.JoinKeptOut | membership.go:28-42 | in already, at its limit or banned, it changes nothing |
| MembershipAlone.PartGetsOut | membership.go:102-135 | a part left alone is out of the map, off the list, told, its subscription closed, and waits for nothing but the pump |
| MembershipAlone.PartAnnounces | membership.go:120-124 | and then puts its PART in the ring |
| MembershipAlone.BanGetsOut | moderation.go:40-74 | a channel ban left alone is stored and gets its target out as far |
| MembershipAlone.BanParts | membership.go:120-124 | and then puts their PART in the ring |
| MembershipAlone.BanOfOutsider | moderation.go:40-74 | of somebody who is not in, it is stored |
| MembershipAlone.BanIsTold | moderation.go:76-123 | and either way its MOD goes to the ring of the channel there is under that name, if any, and to the target |
| MembershipSeats.SeatedIff | channel.go:92-105 | a member is on their channel's list iff, since they last put themselves on it, nobody else has under their nick and no ban's removal has come for them |
| MembershipSeats.MembersAreSeated | channel.go:92-146 | with a nick no two live connections ever shared, and no ban of theirs there ever lifted mid-part, a member is on the list of their channel, the registered one, open until shutdown |
| MembershipMishaps.CollidedIff | channel.go:92-105 | a nick counts as shared iff somebody once connected under it while another connection of that nick was not gone |
| MembershipMishaps.LiftedIff | moderation.go:57-74 | a ban counts as lifted mid-part, or in haste, iff it was once lifted while a part of its own had not yet taken the target off the list, or was under way at all |
| MembershipUnseated.SharedNickUnseats | channel.go:92-105 | a concrete run in which a second connection of the nick takes a member's place on the list, no ban having come for them |
| MembershipUnseated.LiftedMidPartUnseats | membership.go:102-135 | a concrete run in which a ban lifted mid-part takes the place of a membership the target came back with, nobody else having joined under their nick |
| MembershipLists.ListedHaveMemberships | channel.go:98-105 | a connection on a channel's list, with nothing under way for it, has a membership of that very channel: nobody lingers to keep a channel from being swept |
| MembershipLists.GoneAreNowhere | membership.go:137-152 | a connection torn down is on no list, once no ban of it is under way |
| MembershipStream.PumpIsGapFree | membership.go:161-185 | what a pump has delivered is its channel's ring from where the membership subscribed up to its cursor: nothing skipped, repeated, reordered or from elsewhere |
| RoomsTheorems.OneOrder | channel.go:158-183 | with the lock free every open codec ring carries the same frames in strictly rising id order, and what the history holds of this channel is exactly the MSGs among them in that order |
| RoomsTheorems.EveryFrameWasSent | channel.go:158-183 | every frame of a ring is that of one broadcast through that channel, its id, kind and body, and of no other |
| RoomsTheorems.HistoryIsOwnIff | init.go:172-184 | a name's history is what it was when a channel was made plus that channel's MSGs iff no other channel of the name has added to it since |
| RoomsJoins.HistorySinceMade | init.go:172-184 | a name's history is what it was at the very step that made a channel plus that channel's MSGs iff all that was added since is its own |
| RoomsTheorems.SameRoomRises | init.go:172-184 | messages sent through one channel have rising ids in the history, whatever lies between them |
| RoomsTheorems.HistoryRisesIff | init.go:172-184 | a name's history is in id order iff it is wherever one channel's message follows another's |
| RoomsTheorems.NoStrayRises | channel.go:130-146 | it is in id order if no swept channel's send added to it after its successor was made |
| RoomsStray.StrayIsNeverSeen | channel.go:130-146 | a concrete run in which a swept channel's send adds a message out of id order that a caught-up joiner never sees |
| RoomsTheorems.OneFrameApart | channel.go:176-181 | at any moment a ring is a beginning of that order, an open one lacking at most the frame in flight |
| RoomsTheorems.ShutIsFinal | channel.go:130-156 | from the step that closes a ring nothing is written to it again, whoever was already sending |
| RoomsTheorems.FailedEncodeLeavesNothing | channel.go:167-174 | a broadcast whose encoder said no, or has not said yet, is not sent, and its id is in no ring and no history of any channel |
| RoomsTheorems.SentIsEverywhere | channel.go:158-183 | a finished broadcast whose encoder said yes, whatever it is of, is sent: in every open ring of its channel and, if a MSG, in the history |
| RoomsSteps.CursorBehind | membership.go:59-83 | subscribed first, a joiner's window was read when the history already held every message below its cursor |
| JoinerView.SeenIs | init.go:172-217 | a joiner has seen its window, then, in order, the channel's own messages since it subscribed that the window did not show |
| RoomsJoins.CursorIs | membership.go:59-59 | a joiner's cursor is the length its ring had at the very step that subscribed it |
| RoomsJoins.WindowWas | init.go:199-217 | its window is the last of the history as that was at the very step that read it |
| RoomsJoins.SeenSince | membership.go:59-83 | what a joiner has seen is that window, then every message its ring was given since it subscribed, less those the window showed |
| RoomsJoins.JoinsAtOnce | membership.go:59-83 | left alone, a joiner of any codec has at once the end of the history, waiting for nobody, and reads on from the end of its own codec's ring |
| JoinerView.ViewHasNoGapIff | init.go:172-217 | window plus live stream, less repeats, is every message of the name from the first shown to the last, each exactly once, iff the live stream has reached the window and none of those outside it came through another channel of the name |
| RoomsAhead.WindowMayBeAhead | init.go:172-217 | a concrete run in which a joiner has seen the third message, then the first, and not the second |
| JoinerView.ViewInOrder | init.go:172-217 | that view is in the history's order iff no more than a window's worth came from its first live message until it read the history, or nothing was read live, or there is no window |
| RoomsJoins.PromptIsInOrder | membership.go:59-83 | it is so if nobody was sending as the joiner subscribed and no more than a window's worth was added between then and its reading the history |
| JoinerView.ViewInIdOrder | init.go:172-217 | and in id order under the same condition wherever the history itself is |
| JoinerView.CaughtUpHasEverythingIff | init.go:199-217 | a joiner that has read to the end has every message from its first to the very last, each once, iff none outside its window came through another channel of the name |
| JoinerView.AloneHasEverything | init.go:199-217 | and so it has if no other channel of the name has added to the history since this one was made |
| History.Window.Shift | internal/history/history.go:34-37 | the in-place copy drops the oldest and keeps the rest in order |
| History.Memory.Append | internal/history/history.go:25-39 | a channel's window is the last max messages ever appended to it, and no other channel's changes |
| History.Memory.Recent | internal/history/history.go:41-58 | the last min(n, max) messages ever appended, none when either is below one |
| Buckets.BucketInRange | internal/loadgen/hist.go:89-101 | every value has a bucket that exists |
| Buckets.BucketMonotone | internal/loadgen/hist.go:89-101 | a larger value is never in an earlier bucket |
| Buckets.BucketOfMax | internal/loadgen/hist.go:89-113 | every bucket's largest value is in that bucket: the two functions invert each other and all 240 are used |
| Buckets.BucketBounds | internal/loadgen/hist.go:89-113 | below 2^32 a bucket's largest value is at least the value and at most an eighth over it |
| Buckets.SaturatedIsUnder | internal/loadgen/hist.go:95-98 | from 2^32 on the last bucket's largest value is 2^32 - 1 |
| Bits.AndMask | internal/loadgen/hist.go:99-100 | masking by one less than a power of two is the remainder |
| Bits.OrShifted | internal/loadgen/hist.go:112-112 | or-ing what fits below a shift adds it |
| Histogram.Histogram.Record | internal/loadgen/hist.go:28-40 | the histogram is that of the samples so far and this one, in whole microseconds |
| Histogram.Histogram.Merge | internal/loadgen/hist.go:42-51 | the merged histogram is that of both sample sets, a histogram merged with itself included |
| Histogram.Histogram.Quantile | internal/loadgen/hist.go:68-86 | reports for the sample at the rank asked for its bucket's largest value, capped at the worst sample |
| Histogram.ReportBounds | internal/loadgen/hist.go:67-86 | that report never exceeds the worst sample, is at least the sample iff that is below 2^32, and then at most an eighth over |
| Histogram.LargestIsOne | internal/loadgen/hist.go:55-58 | the worst sample is a sample, none is above it, and it is the one at the last rank |
| Histogram.BucketsSort | internal/loadgen/hist.go:78-84 | buckets before a sample's hold only smaller samples, those up to it all that are not larger |
| Histogram.RankIgnoresOrder | internal/loadgen/hist.go:42-51 | ranks and reports depend on the multiset of samples alone, however split and merged |
| Histogram.RankIsPlace | internal/loadgen/hist.go:73-76 | in sorted samples the w-th smallest is the one at place w |
| Histogram.Want | internal/loadgen/hist.go:73-76 | the rank is the least whole number, from one, that reaches the fraction of the count |
| Speakers.Speakers | internal/loadgen/loadgen.go:90-90 | as many are asked to speak as the percentage of the connections comes to, rounded down |
| Speakers.ExactlySpeakers | internal/loadgen/loadgen.go:90-103 | over all connections exactly as many speak as were asked for |
| Speakers.ChannelHasItsSpeakers | internal/loadgen/loadgen.go:98-103 | in each channel with members exactly its share of speakers speak |
| Speakers.RunsAreProportional | internal/loadgen/loadgen.go:98-103 | any run of members in a channel holds its proportional share of speakers to within one |
| Speakers.ChannelsAreBalanced | internal/loadgen/loadgen.go:93-107 | channels differ by at most one speaker and at most one member |
| Speakers.SharesAddUp | internal/loadgen/loadgen.go:93-107 | the channels' shares add up to what was dealt |
| Speakers.SharesAreCounted | internal/loadgen/loadgen.go:105-107 | the members formula counts exactly those dealt to the channel |
| RateLimit.New | internal/ratelimit/ratelimit.go:21-30 | no bucket exactly when burst or interval is not positive; otherwise a full one |
| RateLimit.Bucket.AllowAt | internal/ratelimit/ratelimit.go:37-52 | lets a call through iff a token is there after refilling, and spends it |
| RateLimit.Bucket.RefillLocked | internal/ratelimit/ratelimit.go:55-68 | earns what the advance of the clock is worth, capped at the burst; a clock gone back earns nothing |
| RateLimit.Bucket.Idle | internal/ratelimit/ratelimit.go:71-79 | true exactly when refilling leaves it full |
| Tokens.NeverMoreThanEarned | internal/ratelimit/ratelimit.go:37-68 | over any calls at any instants tokens stay in range and spent plus left never exceed had plus earned |
| Tokens.AdmittedAtMost | internal/ratelimit/ratelimit.go:37-68 | at most a burst and one for each interval the high-water clock advanced |
| Tokens.AdvanceIsHighWater | internal/ratelimit/ratelimit.go:54-68 | that advance is from where the bucket stood to the highest instant seen |
| Tokens.FirstCallStartsClock | internal/ratelimit/ratelimit.go:55-68 | for a new bucket it is from the first instant seen: the first call starts the clock and earns nothing |
| Tokens.PatienceIsRewarded | internal/ratelimit/ratelimit.go:37-68 | whoever waits a whole interval past everything seen is let through |
| Tokens.AdmitsIffEarned | internal/ratelimit/ratelimit.go:37-68 | a call is let through iff a token is there, or the clock has moved for as long as what is missing of one takes to earn |
| Tokens.WhatIsThereIsGiven | internal/ratelimit/ratelimit.go:37-52 | as many calls as there are tokens are let through, whenever they come |
| Tokens.BurstIsGiven | internal/ratelimit/ratelimit.go:21-30 | and so a whole burst from a new bucket |
| Tokens.IdleIffEarned | internal/ratelimit/ratelimit.go:70-79 | a bucket is idle iff nothing is missing from it, or the clock has moved for as long as what is missing takes to earn |
| Tokens.LeftAloneIsIdle | internal/ratelimit/ratelimit.go:70-79 | one never used is, and one left alone for as long as a whole burst takes |
| Tokens.EndsUpIdle | internal/ratelimit/ratelimit.go:70-79 | whatever was asked of it, a bucket is idle a burst's worth of time past the highest instant seen |
| Tokens.RefillTwice | internal/ratelimit/ratelimit.go:55-68 | looking at a bucket on the way does not change what is in it later |
| LimiterSweeps.SweepsAreUnobservable | hooks.go:128-140 | any legal operations with a clock that never goes back are answered as if no sweep had run |
| LimiterSweeps.ThrottleHolds | hooks.go:103-140 | over any stretch a key is let through a burst and one per interval at most, whoever holds it and however often swept |
| LimiterSweeps.HoldersShare | hooks.go:103-126 | after any operations a key's count is its live holders, all holding the table's one bucket |
| LimiterSweeps.SweepForgets | hooks.go:128-140 | after any operations a sweep forgets a key nobody holds whose bucket was never used, or has had a burst's worth of time, or limits nothing; a key somebody holds stays as it is |
| Limiters.Limiters.Acquire | hooks.go:104-117 | an existing bucket is handed out as it is, a missing one made full, and counted |
| Limiters.Limiters.Release | hooks.go:120-126 | one holder fewer, the bucket kept |
| Limiters.Limiters.Sweep | hooks.go:128-140 | the deleting loop removes exactly the unheld full buckets and reports how many |
| Cork.NothingLostOrReordered | cork.go:40-77 | until a socket error, sent then held is all that was written, in order; nothing held and no deadline without a writer in |
| Cork.TakenIsUnbroken | cork.go:40-77 | a socket that takes whatever it is given never fails, and is sent all that was written but for what is held |
| Cork.WritersAreCounted | cork.go:54-66 | the count of writers in is of those that came in and have not left |
| Cork.OneWriteAPeriod | cork.go:54-77 | from first writer in to last out the socket sees one write if anybody wrote and none otherwise, carrying all of it |
| Cork.FailureCutsShort | cork.go:40-77 | even as it fails the socket has been given a beginning of what was written |
| Cork.CorkConn.Write | cork.go:40-51 | straight to the socket with no writer in, reporting what the socket took and whether it failed; held otherwise, reporting all of it and success |
| Cork.CorkConn.Uncork | cork.go:62-77 | only the last one out sends and disarms, and only it sees the error |
| Moderation.Lookup | internal/moderation/moderation.go:71-90 | active iff an entry stands for this scope or everywhere; the scope's own end is reported first |
| Moderation.AnswerIsLastPut | internal/moderation/moderation.go:71-90 | after any settings, liftings, questions and sweeps the answer is what was last put in this scope and neither lifted nor expired since, else what was last put everywhere, else no |
| Moderation.InForceUntil | internal/moderation/moderation.go:27-90 | set here or everywhere, an entry is in force until it expires or is itself set anew or lifted, whatever else is done; lifted here, only the global one is |
| Moderation.SweepBook | internal/moderation/moderation.go:93-109 | the deleting loop keeps exactly what still stands and counts the rest |
| Moderation.Store.Sweep | internal/moderation/moderation.go:93-109 | both books are swept and the removals added |
| Moderation.SweepIsOnlyHousekeeping | internal/moderation/moderation.go:92-109 | no question is ever answered differently for a sweep, whatever is set or lifted before and after |
| Moderation.Store.Unban | internal/moderation/moderation.go:39-41 | lifts this scope's entry and no other, and reports whether there was one, standing or not |
| Moderation.LiftingSeesSweep | internal/moderation/moderation.go:60-68 | what lifting reports changes with a sweep exactly when the entry was there and had expired |

## Left out

- The lock-free ring, the membership protocol and the sending of frames are state machines on values, not classes: they are about interleavings, which methods of a class cannot express. Aliasing of a channel or subscription object is by index.
- Rooms takes a broadcast into one codec's ring as one step; that the lock-free ring behaves so is proved in SeqRing.
- Membership shows one ring a channel; that all codecs' rings agree is proved in Rooms. In it a swept or shut channel's rings close together.
- Membership models the channel ban. Mutes, lifting as a command, server-wide bans and the refusals of `handleMod` add steps without a part; any ban may be stored, lifted or expire at any step.
- A pump delivers frame by frame rather than in batches, and may stop at any step: lagging, a failed write and an ended subscription all look alike.
- Frames sent directly to a connection always encode; a broadcast may fail to.
- Rooms takes an append to the history, and a read of its window, as one step each; that the bounded window is the end of all that was ever appended is proved in History.
- Rooms never forgets a channel, and lets anybody still send to one that was swept.
- MapChan.MapChan.Broadcast: the two passes without another broadcast or reader in between, as the channel's send lock makes broadcasts; the passes by themselves assume no such thing.
- Receiving into an empty slice, which returns at once, is left out of the rings.
- Waiting is a step that is not enabled: no fairness or timing, only that nobody waits for what nobody will do.
- Sequence numbers, counts and sums do not wrap around.
- Tokens, the speaker percentage and the quantile's fraction are real numbers, so rounding of floating point is not modelled. The zero time is instant 0, and the limiter table is driven by clocks after it.
- History windows are made at full size rather than grown by `append`.
- Histogram's `Mean` and plain accessors, and the load generator's dialling and reporting.
- The socket is "takes all, or some and fails"; the WebSocket library, HTTP upgrade, close handshakes and real deadlines are not modelled.
- What a refused join replies, and a history that cannot be read, which gives an empty window.
- JSON and MessagePack, configuration, metrics, logging, hooks' implementations, private messages and the filter chain.
