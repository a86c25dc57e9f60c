# Spectre in Dafny

A Dafny model of the hard core of Spectre, a Warcraft III host bot: the lock-step
game actor with GProxy reconnect and FULL rejoin, the DotaTV spectator stream and
relay, and the codec and arithmetic cores of the Battle.net and spectator
protocols. `dafny verify dfyconfig.toml` checks everything.

## How it is organised

*The game actor.* `Packets`, `Histories`, `GProxy`, `Seats` and `Batching` hold the
values; `Engine` gives every handler as a function on the game's state and runs as
sequences of commands and ticks, the reaper after each. `EngineSafety`, `BoundedLag`,
`Verdicts`, `Feeds` and `TurnOutput` prove what every run guarantees. `Rejoins`,
`Acceptance`, `LoadingRejoins`, `ExactRejoins` and `RejoinRun` are about FULL rejoin,
`Resumption` is about GProxy. `GameServer` is the actor as an object whose methods loop and update
fields in place. Each method is proved to compute the corresponding function of
`Engine`; `Step` handles any command or tick and reaps, and `Run` shows that the
object, driven by any commands, is always in a reachable state, so the run theorems
hold of it.

A link is represented by what it was handed. Every answer of `try_send` (Ok,
Backpressure, Closed) comes from an arbitrary function of round, player and send, so
the theorems hold for all of them; a link that once answered Closed stays closed.
Clocks are inputs of the tick: which timers have fired, which players are past their
grace period. Part of the state is history that the code does not keep: the unbounded
log of in-game broadcasts, the feed of each link and the round it was made in, the
reported checksums, the verdicts, the packets a GProxy client received, numbered or
not.

*The spectator side.* `Crc`, `Streams`, `W3g`, `Bootstrap`, `Replay`, `Publishing` and
`Relays`. zlib is a pair of functions with `inflate(deflate(x)) == x`. The classes
`DotaTvStream`, `ReplayBody`, `Publisher` and `RelayServer` are proved to compute the
value-level operations the run theorems are about.

*Codecs and arithmetic.* `Wire`, `Framing`, `Statstring`, `Snapshots`, `Srp`, `CdKey`,
`CivilDate`, `Ticks`. 32-bit words that are shifted and masked are sequences of 32
bits; big integers are naturals; SHA-1 is an arbitrary function.

## What turned out differently from what one would expect

- `try_full_rejoin` keeps an armed catch-up cursor, and a seat accepted with one can be
  fed in-game packets during its handshake. `LoadingRejoins.RejoinIsQuietIff` says
  exactly when that cannot happen and `ExactRejoins.RejoinIsExactIff` that the rejoiner
  is then, and only then, handed every turn exactly once;
  `RejoinRun.ArmedRejoinIsReachable` is a run on which it happens. It can also happen to
  a rejoin accepted while the game is loading, because a client that reports itself
  loaded before it reports the map lets play start around its handshake.
- A join in the lobby is announced to seated players past their resend buffers, so a
  GProxy client's own count drifts from the server's (`Resumption.JoinMakesStray`). A
  client that reports its count honestly then misses packets
  (`Resumption.HonestClientLosesAPacket`);
  `Resumption.HonestReconnectResumesIff` says exactly when resumption works, and
  `Resumption.ResumesIfNobodyJoined` that it does when nobody joined meanwhile.
- A `GProxyBuffer` of capacity zero numbers one packet too many
  (`GProxy.NumberingIsExactIffPositiveCapacity`).
- `publish_pending` pushes the prologue again after a flush that failed while sending
  it, and returns Ok with bytes still pending when a failed flush is followed by a call
  with nothing new. `Publishing.LiveEqualsSavedIff` gives the exact conditions under
  which the stream is the saved replay. `Publishing.PrologueIsSentTwice` and
  `Publishing.FailureIsHidden` are runs on which the two failures happen.
  The game actor drops the live stream at the first failure
  (crates/spectre-engine/src/actions.rs:465-471), so while it publishes
  `Publishing.LiveStreamEqualsSavedReplay` applies; other callers can run into both.
- The bootstrap's prologue snapshot is lost when the prologue exceeds one block
  (`Bootstrap.SnapshotKeptIff`).
- A relay block too large to frame is broadcast raw but skipped in the history burst
  (`Relays.ViewerReceivesEachBlockOnceIff`), and blocks flushed at the end of a game
  never enter the history.
- In the CD key decoder a character outside the key map is not refused; it counts as
  minus one (`CdKey.WalkKey`).
- `handle_loaded` has no phase guard, so starting play is a reset that can happen
  again; every run theorem allows it.

## Model

| member | source | states |
|---|---|---|
| `EngineSafety.RunIsSound` | crates/spectre-engine/src/actor.rs:25-57 | every state of every run of commands and ticks (the reaper after each) keeps the invariant: unique pids, each seat in step with the log, resend buffers exact, queued checksums reported, verdicts witnessed |
| `EngineSafety.TurnsAreHandedOverExactlyOnce` | crates/spectre-engine/src/state.rs:351-452 | on every run, whatever the links answer, whoever joined in the lobby and is still on that link is handed every in-game broadcast exactly once and in order, and received them all if no live send was refused |
| `ExactRejoins.RejoinIsExactIff` | crates/spectre-engine/src/full_rejoin.rs:19-123 | on every run, whatever the links answer and whatever commands follow an accepted FULL rejoin, its link is handed nothing during the handshake, exactly the log up to the cursor while catching up and the whole log once live, if and only if no catch-up cursor was armed at the acceptance or the history no longer holds what it points at |
| `ExactRejoins.CalmRejoinIsExactlyOnce` | crates/spectre-engine/src/state.rs:351-452 | the same spelt out for one seat in one state of any path that starts with such an acceptance |
| `LoadingRejoins.RejoinIsQuietIff` | crates/spectre-engine/src/full_rejoin.rs:19-123 | on every run, whatever the links answer and whatever commands follow, nothing is handed over on the link of an accepted FULL rejoin during its handshake, if and only if no catch-up cursor was armed at the acceptance or the history no longer holds what it points at |
| `Rejoins.HandshakeIsQuietIff` | crates/spectre-engine/src/state.rs:401-452 | the same for any client in its handshake on a fresh open link, in any sound playing state |
| `Acceptance.AcceptedSeat` | crates/spectre-engine/src/full_rejoin.rs:44-72 | an accepted rejoin puts the seat on a link of its own with nothing handed over, in the handshake and with its sync state reset; the cursor is kept and every other seat undisturbed |
| `RejoinRun.ArmedRejoinIsReachable` | crates/spectre-engine/src/full_rejoin.rs:44-65 | a run of twelve commands from the empty lobby on which a rejoin is accepted with an armed cursor, after which something can be handed over during the handshake |
| `Feeds.OvertakenRejoinerIsDropped` | crates/spectre-engine/src/state.rs:401-420 | on every run, a player whose cursor was overtaken by eviction is handed nothing by the next playing tick and is not seated after it: no gap is ever fed |
| `EngineSafety.LiveClientsSawTheSame` | crates/spectre-engine/src/state.rs:351-399 | lock-step: any two live clients that lost nothing have received the same packets |
| `EngineSafety.HandleLoadedIsSound` | crates/spectre-engine/src/actions.rs:217-271 | GAME_LOADED_SELF, from a rejoiner or from anyone in any phase, keeps the invariant |
| `EngineSafety.BeginPlayingIsSound` | crates/spectre-engine/src/actions.rs:303-349 | starting play as a reset step keeps the invariant, however often it happens |
| `EngineSafety.ReapIsSound` | crates/spectre-engine/src/state.rs:539-594 | reaping keeps the invariant, including pid uniqueness and the restart of play after a leaver |
| `EngineSafety.JoinIsSound` | crates/spectre-engine/src/lobby.rs:31-171 | a join, refused or not (name taken, no slot, no pid, first send refused), keeps the invariant: a joined player has a pid nobody else holds |
| `EngineSafety.PumpIsSound` | crates/spectre-engine/src/state.rs:401-452 | the catch-up pump keeps the invariant whatever the links answer |
| `Resumption.HonestReconnectResumesIff` | crates/spectre-engine/src/gproxy.rs:57-98 | on every run, a client that suffered no Backpressure and no FULL rejoin and reports the true number of packets it counted ends up with every numbered packet, once and in order, if and only if none of those packets had gone past its resend buffer and the buffer still holds the rest; otherwise it is refused or misses as many packets as it counted strays |
| `Resumption.NumberedPacketsHaveNoHole` | crates/spectre-engine/src/gproxy.rs:19-46 | on every run, the numbered packets such a client received are a prefix of those numbered for it, all of them while it is attached |
| `Resumption.JoinMakesStray` | crates/spectre-engine/src/lobby.rs:160-167 | a lobby join makes every seated GProxy client whose link takes the announcement count a packet its buffer does not |
| `Resumption.StraysAreAnnouncements` | crates/spectre-engine/src/lobby.rs:160-167 | nothing else does: along every path, a client counts at most one more stray for each join that was announced |
| `Resumption.ResumesIfNobodyJoined` | crates/spectre-engine/src/gproxy.rs:57-98 | if no join was announced since a state in which the client had counted no stray (say because it had not announced itself), an honest reconnect without Backpressure or FULL rejoin brings every numbered packet if and only if the buffer still holds what is missing |
| `Resumption.HonestClientLosesAPacket` | crates/spectre-engine/src/lobby.rs:160-167 | a run on which an honest client, after one such join, is accepted and never gets a line sent while it was away |
| `EngineSafety.VerdictsAreWitnessed` | crates/spectre-engine/src/actions.rs:73-215 | every desync verdict of every run concerns a turn for which two different players reported different checksums |
| `EngineSafety.HonestReportsNeverDesync` | crates/spectre-engine/src/actions.rs:45-215 | if queued checksums are a function of the turn, no interleaving of keepalives, ticks, leavers and rejoins ever produces a desync verdict |
| `Verdicts.KicksAreVerdicts` | crates/spectre-engine/src/actions.rs:156-214 | the check marks a seat as desynced exactly when it adds a verdict that lists its pid |
| `Verdicts.HonestRunsKickNobody` | crates/spectre-engine/src/actions.rs:45-215 | on every run with honest reports, neither a keepalive nor a tick marks anybody as gone in its desync check |
| `Seats.BroadcastKeepsSeat` | crates/spectre-engine/src/state.rs:355-399 | one seat through one broadcast, for each answer of its link: in step with the longer log, resendable, nothing else disturbed |
| `Seats.SeatIsLostAtTheHundredthRefusal` | crates/spectre-engine/src/state.rs:349-399 | a live seat is lost at exactly the hundredth refused send in a row, and an accepted send starts the count again |
| `Seats.FeedExtends` | crates/spectre-engine/src/state.rs:420-446 | the feed loop extends a lossless prefix of the log packet by packet |
| `Seats.ReconnectKeepsSeat` | crates/spectre-engine/src/gproxy.rs:57-98 | an accepted GPS reconnect keeps the seat in step and resendable |
| `Histories.SnapshotIsLogSuffix` | crates/spectre-engine/src/full_history.rs:38-52 | sequence numbers are absolute: a snapshot from a retained number is the log from there |
| `Histories.PushRetains` | crates/spectre-engine/src/full_history.rs:26-36 | pushing keeps the retained packets the tail of everything pushed, under eviction |
| `Histories.FullHistory.Push` | crates/spectre-engine/src/full_history.rs:26-36 | the in-place push computes the specified history and keeps it the tail of everything ever pushed |
| `Histories.FullHistory.SnapshotFromSeq` | crates/spectre-engine/src/full_history.rs:49-52 | the snapshot is everything ever pushed from the requested number on, or from the oldest packet still held if that one is gone |
| `GProxy.ReplayFromIsExact` | crates/spectre-engine/src/gproxy.rs:38-46 | replay is offered exactly for counts between the first retained id and the total sent, and is then the log from that count |
| `GProxy.NumberingIsExactIffPositiveCapacity` | crates/spectre-engine/src/gproxy.rs:26-36 | the packet numbering agrees with the log if and only if the capacity is positive (or nothing was sent) |
| `GProxy.GProxyBuffer.Push` | crates/spectre-engine/src/gproxy.rs:26-32 | the in-place buffer computes the specified buffer and keeps it the numbered tail of everything ever pushed |
| `GProxy.GProxyBuffer.ReplayFrom` | crates/spectre-engine/src/gproxy.rs:38-46 | offers a replay exactly for counts from the oldest held number to the number of packets ever pushed, and it is then everything pushed from that count on |
| `Verdicts.CheckEndsSettledOrWithVerdict` | crates/spectre-engine/src/actions.rs:73-215 | the check terminates; it ends silently, having only consumed checksums, exactly with fewer than two active players, no queued checksum, or the lowest queued turn still in flight; otherwise it judges the first disputed turn |
| `Verdicts.MajoritySurvives` | crates/spectre-engine/src/actions.rs:156-207 | a unique largest group survives and exactly the other participants are dropped |
| `Verdicts.TieCondemnsEveryParticipant` | crates/spectre-engine/src/actions.rs:183-192 | a tie for largest drops exactly all participants |
| `Verdicts.LargestIsWinner` | crates/spectre-engine/src/actions.rs:156-179 | being the largest bin of the tally is winning the vote among the participants |
| `GameServer.FindLargest` | crates/spectre-engine/src/actions.rs:166-179 | the largest bin and the tie flag, whatever order the hash map is visited in |
| `GameServer.Tally` | crates/spectre-engine/src/actions.rs:156-164 | the bins hold exactly the participants reporting each checksum |
| `BoundedLag.TurnIsSentOnlyWhenLevel` | crates/spectre-engine/src/actions.rs:570-582 | a turn is sent only when every player subject to lag checks is at most the sync limit behind |
| `BoundedLag.LagIsBounded` | crates/spectre-engine/src/lagcheck.rs:8-69 | in every reachable state every paced player is at most the sync limit plus one turn behind |
| `BoundedLag.NobodyFallsBehind` | crates/spectre-engine/src/lagcheck.rs:8-69 | in every reachable state of a running game, everybody who joined in the lobby and never rejoined or reconnected is at most the sync limit plus one turn behind |
| `BoundedLag.TurnCounterIsExact` | crates/spectre-engine/src/actions.rs:695-701 | the turn counter is the number of turns sent, below 2^32 turns |
| `BoundedLag.ReapIsNear` | crates/spectre-engine/src/state.rs:539-594 | reaping removes every player that may have fallen further behind |
| `Batching.CutIsSplit` | crates/spectre-engine/src/actions.rs:703-744 | the batches concatenate to the queue in order, each within 1452 bytes, only the last possibly empty |
| `Batching.CutIsMinimal` | crates/spectre-engine/src/actions.rs:703-744 | no order-preserving split of the queue uses fewer packets |
| `TurnOutput.TickSendsTheQueue` | crates/spectre-engine/src/actions.rs:494-765 | on every run, a playing tick at which nobody is lagging sends the whole queue as a minimal split; log, relay and replay receive the same batches in the same order, exactly one INCOMING_ACTION and last, and nothing else the tick broadcasts carries an action |
| `Engine.NextFreePid` | crates/spectre-engine/src/players.rs:209-211 | the lowest pid in 1..254 that no player holds, if there is one |
| `GameServer.GameState.Run` | crates/spectre-engine/src/actor.rs:25-57 | the object driven by any commands goes through the states of a run, so it is always in a reachable state |
| `GameServer.GameState.Step` | crates/spectre-engine/src/actor.rs:25-57 | one turn of the actor's loop, any command or tick with the reaper after it, computes the specified step and keeps the invariant |
| `GameServer.GameState.Join` | crates/spectre-engine/src/lobby.rs:31-171 | the checks, the announcement past the resend buffers and the seating compute the specified join |
| `GameServer.GameState.OnTick` | crates/spectre-engine/src/actions.rs:494-604 | all five arms of the tick compute the specified step from any sound state |
| `GameServer.GameState.BeginLoading` | crates/spectre-engine/src/actions.rs:273-301 | dropping the virtual host, loading the fake player and perhaps starting play compute the specified step |
| `GameServer.GameState.ToggleFakePlayer` | crates/spectre-engine/src/actions.rs:415-460 | seating and unseating the fake player compute the specified step |
| `GameServer.GameState.Broadcast` | crates/spectre-engine/src/state.rs:351-399 | the in-place loop computes the specified broadcast |
| `GameServer.GameState.SendTo` | crates/spectre-engine/src/state.rs:454-488 | the in-place send computes the specified send |
| `GameServer.GameState.PumpRejoinCatchup` | crates/spectre-engine/src/state.rs:401-452 | the in-place pump computes the specified catch-up of every seat |
| `GameServer.GameState.KickPlayer` | crates/spectre-engine/src/state.rs:490-495 | marks the first player with that pid as gone |
| `GameServer.GameState.SendChatAll` | crates/spectre-engine/src/state.rs:497-537 | broadcasts only when somebody is present |
| `GameServer.GameState.ReapLeftPlayers` | crates/spectre-engine/src/state.rs:539-594 | the in-place reaper computes the specified one |
| `GameServer.GameState.CheckDesync` | crates/spectre-engine/src/actions.rs:73-215 | the loop over deques and hash-map bins computes the specified check, given unique pids |
| `GameServer.GameState.Judge` | crates/spectre-engine/src/actions.rs:156-214 | tally, announcement, kicks in any bin order and pops amount to the specified verdict |
| `GameServer.GameState.HandleKeepalive` | crates/spectre-engine/src/actions.rs:45-71 | counting, catching-up parity, the 512-entry cap and the check amount to the specified step |
| `GameServer.GameState.HandleLoaded` | crates/spectre-engine/src/actions.rs:217-271 | both arms of GAME_LOADED_SELF compute the specified step |
| `GameServer.GameState.BeginPlaying` | crates/spectre-engine/src/actions.rs:303-349 | the reset of every seat and the load-time notices compute the specified step |
| `GameServer.GameState.SendAllActions` | crates/spectre-engine/src/actions.rs:695-765 | the batching loop, interleaved with sending and recording, computes the specified turn |
| `GameServer.GameState.PlayTick` | crates/spectre-engine/src/actions.rs:570-604 | the playing arm of the tick computes the specified step from any sound state and leaves it sound |
| `GameServer.GameState.CheckLag` | crates/spectre-engine/src/lagcheck.rs:8-97 | the hysteresis loop, the announcements and the screen reset compute the specified step |
| `GameServer.GameState.DropLaggingPlayers` | crates/spectre-engine/src/lagcheck.rs:99-127 | drops exactly the checked laggers past their time |
| `GameServer.GameState.TryFullRejoin` | crates/spectre-engine/src/full_rejoin.rs:19-123 | guards, re-attachment and handshake sends compute the specified step; the result says whether the rejoin was accepted |
| `GameServer.GameState.GpsReconnect` | crates/spectre-engine/src/gproxy.rs:57-98 | guards, re-attachment and the resend loop compute the specified step |
| `Ticks.TickScheduler.Advance` | crates/spectre-engine/src/tick.rs:31-39 | the deadline ends strictly after now, moved by period times (skipped + 1), with skipped minimal |
| `Ticks.ClockFollowsDeadline` | crates/spectre-engine/src/actions.rs:695-701 | over any run of sending ticks with period changes, the game clock grows by exactly the deadline displacement modulo 2^32, without saturation |
| `Crc.EightBitsAtOnce` | crates/spectre-spectator/src/dotatv.rs:15-36 | one table step equals eight steps of the bit-serial register of section 8 of RFC 1952 |
| `Crc.CrcTable` | crates/spectre-spectator/src/dotatv.rs:15-29 | entry i of the table is what eight shifts make of i |
| `Crc.CrcPush` | crates/spectre-spectator/src/dotatv.rs:31-36 | the table-driven register equals the bit-serial one on all data |
| `Streams.RunRefines` | crates/spectre-spectator/src/dotatv.rs:118-160 | after any operations, failed flushes included, the inflated frames and the unframed tail are all bytes pushed, every frame is non-empty and inside one 8192-block, and the published CRC is the bit-serial CRC-32 of everything published |
| `Streams.SuccessfulFlushPublishesAll` | crates/spectre-spectator/src/dotatv.rs:123-160 | a successful flush leaves nothing pending and at most 8192 bytes retained, and only adds frames |
| `Streams.CutAllRefines` | crates/spectre-spectator/src/dotatv.rs:123-151 | the cutting loop stops with everything framed or before a chunk that does not fit |
| `Streams.DotaTvStream.Flush` | crates/spectre-spectator/src/dotatv.rs:123-160 | the in-place loop computes the specified flush |
| `Streams.DotaTvStream.MarkPrologueEnd` | crates/spectre-spectator/src/dotatv.rs:101-105 | the end is the number of bytes ever pushed; the snapshot is the part of them still held, and all of them exactly when nothing has been trimmed yet |
| `Bootstrap.BootstrapHandsOver` | crates/spectre-spectator/src/dotatv.rs:209-242 | every later bootstrap returns the same padded body and an index from which the frames continue the prologue to exactly the published bytes |
| `Bootstrap.SnapshotKeptIff` | crates/spectre-spectator/src/dotatv.rs:101-105 | the snapshot is the whole prologue if and only if that is at most one block |
| `Bootstrap.PaddedShape` | crates/spectre-spectator/src/dotatv.rs:220-225 | the body is the prologue, then empty timeslots, then fewer than five zero bytes, up to a block boundary |
| `Bootstrap.BodyIsPackable` | crates/spectre-spectator/src/dotatv.rs:227-229 | the alignment expectation is never reached with None, in any state |
| `Bootstrap.ResumeFindsBoundary` | crates/spectre-spectator/src/dotatv.rs:231-239 | the search returns the frame boundary at the end of the prologue |
| `Bootstrap.FullBootstrapIsComplete` | crates/spectre-spectator/src/dotatv.rs:244-272 | the full bootstrap carries everything published and later frames continue it |
| `Bootstrap.BootstrapViewer` | crates/spectre-spectator/src/dotatv.rs:209-242 | the loops compute the packed body and the resume index |
| `W3g.PackedBodyIsReadBack` | crates/spectre-spectator/src/w3g.rs:43-112 | a body of whole blocks, packed, is read back unchanged by a reader that trusts the size fields; the header carries file size, declared length and replay length |
| `Publishing.LiveEqualsSavedIff` | crates/spectre-spectator/src/dotatv_server.rs:169-212 | for every run, after a successful call the length is the saved one, and the stream is exactly what finish would return with nothing pending, if and only if the call was not stalled and what went out ahead of the blocks is the prologue finish would build; when either holds, equality of the bytes alone is decided by the same condition |
| `Publishing.LiveStreamEqualsSavedReplay` | crates/spectre-spectator/src/dotatv_server.rs:169-212 | in a run without failed calls and with the prologue unchanged since it was sent, the stream is the saved replay after every call, heartbeats included |
| `Publishing.QuietCallHidesFailure` | crates/spectre-spectator/src/dotatv_server.rs:201-208 | a call after a failed flush, with nothing new to push, returns Ok with bytes of the replay missing |
| `Publishing.FailureIsHidden` | crates/spectre-spectator/src/dotatv_server.rs:201-208 | a run of a fresh publisher, with a compressor that round-trips, on which a call fails after the prologue went out and the next returns Ok with a stream that is not the saved replay |
| `Publishing.PrologueIsSentTwice` | crates/spectre-spectator/src/dotatv_server.rs:174-184 | a run of a fresh publisher on which the first attempt to send the prologue fails and the next call returns Ok with a stream that is not the saved replay |
| `Publishing.LostOnlyByFailedPrologue` | crates/spectre-spectator/src/dotatv_server.rs:174-184 | a call leaves a stray prologue behind exactly when it fails before the prologue is out |
| `Publishing.LengthIsSumOfIncrements` | crates/spectre-spectator/src/body.rs:114-121 | the replay length is the sum of all timeslot increments modulo 2^32 |
| `Publishing.Publisher.PublishPending` | crates/spectre-spectator/src/dotatv_server.rs:169-212 | the in-place code computes the specified publish step |
| `Replay.EditAppends` | crates/spectre-spectator/src/body.rs:114-161 | every mutator only appends to the blocks |
| `Replay.RecordedEditsAreReadBack` | crates/spectre-spectator/src/body.rs:114-147 | the appended blocks are self-delimiting: reading them by tag and length gives back the recorded edits in order |
| `Replay.ReplayBody.AddTimeslot` | crates/spectre-spectator/src/body.rs:114-121 | the in-place append computes the specified block and length |
| `Replay.ReplayBody.AddChat` | crates/spectre-spectator/src/body.rs:131-139 | the in-place append computes the specified block |
| `Replay.ReplayBody.DrainNewBlocks` | crates/spectre-spectator/src/body.rs:222-226 | every block byte is drained once: what was ever drained and what is drained now are all the blocks |
| `Relays.RunIsOk` | crates/spectre-spectator/src/relay.rs:261-353 | every run keeps: released blocks followed by waiting ones are all blocks pushed, the queue is ordered by release time, the history is what was released since the last end of game, each viewer was handed what it should be |
| `Relays.HistoryAndQueueAreAllBlocks` | crates/spectre-spectator/src/relay.rs:170-190 | up to the end of the game, history followed by the waiting blocks is everything pushed |
| `Relays.TickReleasesExactlyTheDue` | crates/spectre-spectator/src/relay.rs:170-190 | a tick releases a waiting block exactly when its time has come, in order |
| `Relays.ViewerReceivesEachBlockOnceIff` | crates/spectre-spectator/src/relay.rs:270-294 | a viewer all of whose sends succeed receives every released block exactly once and in order across burst and live feed, if and only if every block of the history it joined on can be framed |
| `Relays.ViewerIsRemovedAfter200Refusals` | crates/spectre-spectator/src/relay.rs:192-215 | a viewer survives 200 refused sends in a row and is removed at the next |
| `Relays.RelayServer.BroadcastMessage` | crates/spectre-spectator/src/relay.rs:192-215 | the retain loop and its drop counts compute the specified broadcast |
| `Relays.RelayServer.ReleaseDueBlocks` | crates/spectre-spectator/src/relay.rs:170-190 | the loop computes the specified release |
| `Relays.RelayServer.HandleGameOver` | crates/spectre-spectator/src/relay.rs:330-341 | the flush at the end of a game computes the specified one |
| `Relays.RelayServer.HandleViewerJoined` | crates/spectre-spectator/src/relay.rs:270-294 | the capacity checks and the burst compute the specified join |
| `Srp.ClientAndServerAgree` | crates/spectre-bnet/src/bncsutil/nls.rs:138-165 | for every credential, secret and salt, the client refuses the server key exactly when it is zero, and otherwise its value is the server's (A v^u)^b mod N of section 3 of RFC 2945, each side using only what the other sent |
| `Srp.KeysAgree` | crates/spectre-bnet/src/bncsutil/nls.rs:146-158 | the algebra of the agreement, for every modulus |
| `Srp.PublicValuesAreExact` | crates/spectre-bnet/src/bncsutil/nls.rs:64-84 | the 32-byte copies of A and v stand for g^a and g^x mod N |
| `Srp.CopyNeverTruncates` | crates/spectre-bnet/src/bncsutil/nls.rs:118-123 | the 32-byte little-endian copy of any number below 2^256 loses nothing |
| `Srp.NlsPrimeIsModulus` | crates/spectre-bnet/src/bncsutil/nls.rs:12-17 | the modulus of the source is one of those covered |
| `CdKey.DecodeTableIsBijective` | crates/spectre-bnet/src/bncsutil/cdkey.rs:424-491 | the permutation network is a bijection on 128-bit tables, with an explicit inverse |
| `CdKey.UnstepStep` | crates/spectre-bnet/src/bncsutil/cdkey.rs:428-466 | each nibble step is undone knowing only the other nibbles |
| `CdKey.ShuffleTwice` | crates/spectre-bnet/src/bncsutil/cdkey.rs:468-491 | the stride-11 pass over 120 bits is its own inverse and leaves the top byte alone |
| `CdKey.TranslateMapPermutes` | crates/spectre-bnet/src/bncsutil/cdkey.rs:144-175 | each of the 30 rows of the translation map is a permutation of 0..15 |
| `CdKey.XorKeepsRow` | crates/spectre-bnet/src/bncsutil/cdkey.rs:440-443 | the second index stays in the row of the first, so every index is inside the map |
| `CdKey.DecodeKeyTable` | crates/spectre-bnet/src/bncsutil/cdkey.rs:424-491 | the nested loops over four words compute the specified network |
| `CdKey.WalkIsBijective` | crates/spectre-bnet/src/bncsutil/cdkey.rs:386-387 | over 52 writes each of the 52 positions is written exactly once |
| `CdKey.KeyMapIsAlphabet` | crates/spectre-bnet/src/bncsutil/cdkey.rs:125-142 | the key map numbers the 25 characters of the key alphabet in either case and gives -1 for everything else |
| `CdKey.WalkKey` | crates/spectre-bnet/src/bncsutil/cdkey.rs:374-391 | the loop leaves both base-5 digits of every character at its two positions; only characters past 255 are refused |
| `CdKey.WalkLosesNothing` | crates/spectre-bnet/src/bncsutil/cdkey.rs:384-390 | the two digits give back the value of their character |
| `CivilDate.DateIsExact` | crates/spectre-bnet/src/bncsutil/exe_info.rs:63-81 | for every timestamp the date is valid and the formula of section 4.16 of IEEE Std 1003.1-2017 takes it back to the timestamp |
| `CivilDate.DateIsUnique` | crates/spectre-bnet/src/bncsutil/exe_info.rs:63-81 | no two valid dates have the same number of seconds |
| `CivilDate.PartsAreTheUniqueDate` | crates/spectre-bnet/src/bncsutil/exe_info.rs:63-81 | the parts reported for a valid date's timestamp are its own, year modulo 100, for years that fit 32 bits |
| `CivilDate.YearOfEraIsExact` | crates/spectre-bnet/src/bncsutil/exe_info.rs:70-73 | the closed formula finds the year of the 400-year era and the day of that year |
| `Framing.FragmentationIndependent` | crates/spectre-protocol/src/frame.rs:40-69 | however a byte stream is cut into reads, decoding yields the same frames, errors and leftover as decoding it at once |
| `Framing.Decode` | crates/spectre-protocol/src/frame.rs:40-69 | a frame or an error consumes at least one byte |
| `Framing.FramesRoundTrip` | crates/spectre-protocol/src/frame.rs:19-30 | any list of encodable frames decodes to itself with nothing left |
| `Framing.EncodableIff` | crates/spectre-protocol/src/frame.rs:19-30 | a list can be encoded exactly when every frame fits 65535 bytes |
| `Framing.GarbageIsSkipped` | crates/spectre-protocol/src/frame.rs:40-48 | bytes without the header byte do not disturb what follows |
| `Framing.Buffer.DecodeNext` | crates/spectre-protocol/src/frame.rs:40-69 | the in-place decoder computes the specified step |
| `Statstring.RoundTrip` | crates/spectre-protocol/src/bytes_ext.rs:67-102 | decoding undoes encoding for all bytes |
| `Statstring.EncodingHasNoZero` | crates/spectre-protocol/src/bytes_ext.rs:67-85 | the encoding has no zero byte and length n + ceil(n/7) |
| `Statstring.EncodeStatstring` | crates/spectre-protocol/src/bytes_ext.rs:67-85 | the nested loops with the patched mask compute the specified encoding |
| `Statstring.DecodeStatstring` | crates/spectre-protocol/src/bytes_ext.rs:87-102 | the nested loops compute the specified decoding |
| `Snapshots.SnapshotRoundTrip` | crates/spectre-protocol/src/dotatv.rs:70-182 | a representable snapshot is refused exactly for more than 255 slots or a frame over 65535 bytes; otherwise its frame is read back and decodes to it |
| `Snapshots.StatstringSurvives` | crates/spectre-engine/src/actions.rs:373-403 | a snapshot carrying an encoded statstring decodes to itself, and the raw bytes are recovered |
| `Snapshots.CStringRoundTrip` | crates/spectre-protocol/src/bytes_ext.rs:45-65 | a zero-free string is read back with exactly the bytes after it left |
| `Snapshots.Cursor.CString` | crates/spectre-protocol/src/bytes_ext.rs:45-58 | the reading loop computes the specified reader |
| `Snapshots.Cursor.Slots` | crates/spectre-protocol/src/dotatv.rs:144-167 | the slot loop computes the specified reader |
| `Wire.LeTruncates` | crates/spectre-protocol/src/frame.rs:25-27 | a little-endian field holds the value modulo its width |

## Left out

- Tokio tasks, sockets, listeners, UDP, locks and the Battle.net client loop: input and output only.
- Packet builders and decoders of W3GS and GPS, and their failures: packets are values that say what they announce, and builders succeed; the lag durations inside lag packets are not represented.
- Slots, colours, teams, map transfer, pings, chat commands and their replies, configuration, the store and telemetry: they would only add easy members.
- Pending connections and their ids: a command names the connection it comes from, ids are between 1 and the virtual host's, and whether a slot is open for a join is an input.
- The lobby time limit, which ends an unstarted game, and autostart.
- Wall-clock texts (load times, countdown steps, GProxy waiting notices) appear as opaque chat packets, and the countdown and the timeouts as inputs of the tick.
- A change of the sync limit during a game: the limit is fixed for a run.
- Chat lines and leavers that the engine writes to the replay and the relay are not part of the engine's trace, only the action packets are; `Replay` models their blocks.
- The iCCup variant of the GPS handshake.
- zlib, SHA-1 and big-integer internals: a pair of inverse functions, an arbitrary function, and arithmetic on naturals.
- The 13- and 16-character CD keys, the base-5 accumulation of the 26-character key and the extraction of its product and public value.
- UTF-8 decoding: names in the snapshot and the replay are their bytes.
- `count_delayed` and `status` of the stream: they only read frame times.
- Counters that wrap: sequence numbers, packet ids, byte totals and skip counts are unbounded; the turn counter, the game clock and the replay length wrap at 2^32 as in the code.
- Ticks.TickScheduler.Advance: assumes a positive period, since with a zero period the loop in the code does not end.
- Srp.ClientAndServerAgree: quantifies over every modulus up to 2^256 instead of fixing the one of the source, which `Srp.NlsPrimeIsModulus` shows to be among them.
- CdKey.WalkKey: takes at most 26 characters, the only length its caller passes.
- Feeds.OvertakenRejoinerIsDropped: leaves out virtual hosts, which the reaper never removes.
- Publishing.LiveEqualsSavedIff: for a stalled call whose prologue does not match, says that bytes are pending, not whether the bytes sent so far happen to equal the saved replay.
- Publishing.LiveStreamEqualsSavedReplay: the text of a heartbeat is an arbitrary function of replay time, published length and CRC.
