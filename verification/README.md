# Verified models of the relay, the terminal filters and the stores around them

Dafny models of the stateful parts of this repository, each proved over every input, run or schedule.
`dafny verify dfyconfig.toml` checks the whole project.

| files | what they model |
|---|---|
| `Basics` | the types that several models share |
| `Markers`, `Framing` | finding byte markers in a stream that arrives in chunks: searching, holding back a partial marker, and the loop that both terminal filters share. A one-shot reference (`Split`, `Seen`) cuts the whole stream at once |
| `SyncFilter`, `MetaFilter`, `MetaHistory`, `MetaPages`, `MetaBodies`, `TermPages` | the synchronized-output filter of `web/static/sync.js`, the OSC 7707 filter of `web/static/term.js`, and a page's whole life of chunks and reconnects: which history text it shows, which payloads make a history, and what the one filter piped into the other writes to the terminal |
| `RelayTables`, `RelayProtocol`, `RelayTakeover`, `RelayCloses`, `RelaySparing`, `RelayDelivery` | the relay's session tables as objects updated in place, then the relay as a step system in which any number of connections interleave: every mutex section, read, write and close is one step, and a write happens after its lock is released |
| `IdlePump` | the timed pump that closes both ends after silence |
| `PushCache`, `PushTheorems`, `PushContents`, `PushRaces` | pushing sessions through a cache, against the plain form that reads the store every time; what the documents then hold; and a PC's deletion with pushes between its halves |
| `OAuth`, `OAuthRuns`, `OAuthReplies` | authorization codes, refresh rotation and revocation (sections 4.1.2 and 6 of RFC 6749, section 4.6 of RFC 7636, section 4.14.2 of RFC 9700), one request after the other |
| `Commands` | the command queue: push, claim, acknowledge, poll |
| `Asks`, `AskReplies`, `AskOverlaps` | questions, answers and replies of the glasses endpoint, one after the other and then overlapping, and the pull loop |
| `RateLimits` | the token bucket and the fixed window, as two steps over one table of keys |
| `Scroll` | where a page scrolls while it follows the cursor |

Classes carry the source's fields and update them in place; their methods are proved equal to functions on
values, and the theorems are about those functions. An error return that does not say whether a write
landed is modelled as either. Clock readings, random values and the results of reads and writes are inputs.

## Where the code does less than its comments say

For each there is an exact condition, or the input that shows it.

- History once per page (`web/static/term.js:120-127`): `feed.reset` keeps `blockHasHist`, so a connection cut
  inside a `hist=1` block followed by a `hist_end` outside any block marks the history as shown.
  `MetaPages.HistoryOnceIffStrayFree` gives the condition, `MetaPages.StrayEndHidesHistory` the chunks.
- Single use of a code (`state/oauth.go:92-94`): the result of the delete is ignored, so a code is used again if
  and only if that delete failed: `OAuthRuns.SecondUseIffDeleteFailed`, `OAuthRuns.KeptCodePaysTwice`.
- A command is handed out once (`state/commands.go:212-214`): the acknowledge endpoint passes any status through,
  so an acknowledgement of "pending" opens the command again: `Commands.SecondHandoutIffReopened`,
  `Commands.AckPendingHandsOutTwice`.
- A delivered reply can be fetched again for a minute (`glasses/ask.go:41-43`), and a delivery shortens its life
  (`glasses/ask_firestore.go:69`): an answer given after a delivery gets no grace of its own
  (`Asks.ReAnswerHasNoGrace`). Overlapping takes can make an expiry later (`AskOverlaps.LaterIff`, with
  `OverlappingTakesExtend` and `NewTakeExtends`), and one that has read an older reply, or an answer under way, can
  cut a delivered reply short (`AskOverlaps.ReplyLastsIff`, with `OldTakeCutsNewReply`).
- A takeover does not disturb the other side (`relay/relay.go:147-149`): a write under way to the replaced connection
  fails, and its reader then folds the session with the newcomer in it. `RelaySparing.TakeoverSparesPeerIff` gives the
  condition, `RelaySparing.TakeoverDisturbs` the run.
- Both ends are closed when no byte flows (`relay/relay.go:268-270`): a tick between a read and its bump can close on a
  byte just read: `IdlePump.SilentCloseIffBumped`, `IdlePump.ClosesOnUnbumpedRead`.
- After a PC's deletion the next push finds the truth (`state/state.go:209`): a push between the two halves of the
  deletion vouches for a document that is then removed: `PushRaces.RacedDeleteAgreesIff`,
  `PushRaces.RacedDeletionLosesSession`.
- A reader who has scrolled up is not moved (`web/static/term.js:84-85`): when so little of the page is hidden that the
  browser moves the place itself, the handler takes that for the user's scroll and follows again:
  `Scroll.FollowsUntilUserLeaves`, `Scroll.GrowingWindowFollows`.

## Model

| member | source | states |
|---|---|---|
| Markers.IndexOf | web/static/sync.js:12-21 | the leftmost place at or after `from` where the pattern stands, or -1 when there is none |
| Markers.TailPrefix | web/static/sync.js:23-33 | the longest tail of the data, shorter than the pattern, that the pattern starts with |
| Markers.SearchResumes | web/static/term.js:138-158 | searching the held tail and the next chunk finds what searching the whole stream finds |
| Markers.HoldResumes | web/static/term.js:148-158 | without a marker, the tail held after another chunk depends on the held tail and that chunk only |
| Markers.NoEarlyStart | web/static/sync.js:56-62 | no marker of the longer stream begins before the held tail |
| Framing.LoopIsSplit | web/static/sync.js:54-86 | fed in one go, the loop yields the texts, frames and held bytes of the one-shot cut |
| Framing.Resume | web/static/sync.js:50-53 | from the state left by any stream, feeding one more chunk yields what the one-shot cut of the longer stream yields |
| Framing.Chunking | web/static/sync.js:43-88 | for every chunking the final state and the joined pieces are those of the one-shot cut |
| Framing.Conservation | web/static/sync.js:44-53 | after any chunks the pieces' bytes followed by the held bytes are the input so far |
| Framing.PiecesGood | web/static/sync.js:54-86 | under any chunking a text has no opening marker, a frame ends at the first closing marker after its opening one, the carry is shorter than the awaited marker |
| SyncFilter.Filter.constructor | web/static/sync.js:45-48 | a new filter is outside a block and holds nothing |
| SyncFilter.Filter.Feed | web/static/sync.js:50-87 | one call performs one step of the common loop: new carry, block and calls of emit |
| SyncFilter.Filter.Scan | web/static/sync.js:54-86 | the loop over the bytes in hand ends in that step's state with exactly its writes appended |
| SyncFilter.Filter.KeepText | web/static/sync.js:57-63 | at a chunk's end outside a block everything but a possible start of a BSU is written |
| SyncFilter.Filter.KeepBlock | web/static/sync.js:71-77 | at a chunk's end inside a block nothing is written and all but a possible start of an ESU is collected |
| SyncFilter.Lossless | web/static/sync.js:43-44 | the writes, the collected block and the carry, concatenated, are the input so far, for every chunking |
| SyncFilter.SameForAnyChunks | web/static/sync.js:45-88 | any chunking of the same bytes ends in the state, and writes the texts and blocks, of the cut at the leftmost BSU and then the leftmost ESU |
| SyncFilter.WritesWholeBlocks | web/static/sync.js:54-86 | every write has no BSU in it or is one whole block from a BSU to the first ESU after it; the carry stays shorter than a marker |
| SyncFilter.OpenBlockIsHeld | web/static/sync.js:40-43 | while a block is open, all of it from its BSU on is held and everything before it has been written |
| SyncFilter.WritesAreWire | web/static/sync.js:79-84 | the writes, concatenated, are the bytes their pieces stand for |
| MetaFilter.Filter.constructor | web/static/term.js:131-137 | a new filter is outside a sequence and outside history, with no history shown |
| MetaFilter.Filter.Out | web/static/term.js:164-168 | text reaches emit unless it is empty or is history after a completed one |
| MetaFilter.Filter.Payload | web/static/term.js:199-209 | a payload moves the gate as v= and hist_end say and is always handed to onMeta |
| MetaFilter.Filter.Feed | web/static/term.js:169-212 | one call performs one step of the common loop, with its calls of emit and onMeta in order through the gate |
| MetaFilter.Filter.Scan | web/static/term.js:173-211 | the loop over the bytes in hand ends in that step's state, gate and calls |
| MetaFilter.Filter.KeepText | web/static/term.js:177-182 | at a chunk's end outside a sequence everything but a possible start of an OSC goes out |
| MetaFilter.Filter.KeepMeta | web/static/term.js:191-196 | at a chunk's end inside a sequence all but a possible start of its ST is collected |
| MetaFilter.Filter.Reset | web/static/term.js:213-218 | a reconnect forgets the carry, the sequence and the block, and keeps whether history was shown |
| MetaFilter.SameForAnyChunks | web/static/term.js:128-212 | for every chunking of a connection the emitted bytes, the payloads, their order and the gate are those of the one-shot parser |
| MetaFilter.StripsOnlySequences | web/static/term.js:173-211 | only whole OSC 7707 ... ST sequences are removed: everything else is text or still held |
| MetaFilter.NoMarkerPassesThrough | web/static/term.js:174-183 | a stream without the marker passes through, except a held tail shorter than the marker |
| MetaFilter.JoinCalls | web/static/term.js:164-168 | gating commutes with joining texts, so where a text was cut does not change what passes |
| MetaHistory.PageShowsKept | web/static/term.js:133-218 | over any chunks and reconnects the page's calls are every text and payload in order, except block text once a block has completed or a stray end has come |
| MetaHistory.HistoryOnce | web/static/term.js:120-127 | when every hist_end follows a v= of its connection, block text is shown exactly until a hist=1 block has completed, other text always |
| MetaHistory.FollowingEndsAreHarmless | web/static/term.js:202-208 | under that condition a second hist_end does no harm: the block before it has completed |
| MetaHistory.OnceIffUnharmed | web/static/term.js:205-208 | the calls so far are the promised ones iff at every block's text no stray end has come before a completed block; there are never more |
| MetaPages.PageIsOneShot | web/static/term.js:128-218 | over any chunks and reconnects a page's state, gate and joined calls are those of the one-shot parser on each connection's bytes |
| MetaPages.SameForAnyChunks | web/static/term.js:124-127 | two pages that receive the same bytes on each connection make the same calls |
| TermPages.TermIsOneShot | web/static/term.js:459-513 | over any chunks and reconnects the terminal's writes, joined, are each connection's bytes stripped and gated at once and then cut at their blocks at once |
| TermPages.SameWritesForAnyChunks | web/static/term.js:459-513 | two pages that receive the same bytes on each connection write the same to the terminal |
| TermPages.ThroughContinues | web/static/term.js:164-212 | the text let through of a longer stream is what was let through and what the chunk adds |
| TermPages.FeedOnContinues | web/static/term.js:462 | feeding the sync filter emit by emit comes to the one-shot cut of the text so far |
| MetaPages.OneSequence | web/static/term.js:184-209 | a chunk of one sequence and its text lets out its payload and the text, but for a held tail |
| MetaPages.NextHistoryIffStrayFree | web/static/term.js:205-218 | whatever history the next connection brings, it is treated as promised iff the page has kept its promise and no harmful stray end has come |
| MetaPages.HistoryOnceIffStrayFree | web/static/term.js:120-127 | after every call of feed and reset any next history is treated as promised, iff no harmful stray end stands there or before a block's text |
| MetaPages.StrayEndHidesHistory | web/static/term.js:205-218 | four chunks and a reset after which the text of the page's only whole history never reaches the screen |
| MetaHistory.GateMeansStep | web/static/term.js:202-208 | the three gate flags say, after each item, that a block is open, that the last v= announced a body, and that a block completed or a stray end came |
| MetaHistory.PiecesMean | web/static/term.js:164-209 | the calls for a chunk's pieces are the ones the history definition keeps |
| MetaBodies.SyncMarkersSpelled | web/static/sync.js:9-10 | the synchronized-output markers are an ESC and `[?2026h`, `[?2026l` |
| MetaBodies.MetaMarkersSpelled | web/static/term.js:129-130 | a sequence begins with an ESC and `]7707;` and ends with an ESC and a backslash |
| MetaBodies.PayloadsSpelled | web/static/term.js:202-204 | the payload words are `v=` and `;hist=1` |
| MetaBodies.EndSpelled | web/static/term.js:205 | and `hist_end` |
| MetaBodies.PayloadMeaning | web/static/term.js:202-208 | a payload that begins with v= opens a block and hist_end ends it; a block has a body iff ;hist=1 stands at any place of its v= payload, and only the end of such a one marks a history as shown |
| MetaBodies.BodilessShowsAll | web/static/term.js:133-137 | over any chunks and reconnects, a page none of whose v= payloads has ;hist=1 anywhere never takes a history for shown, and shows every text |
| MetaBodies.BodyCompletes | web/static/term.js:202-208 | after any life of a page, a v= payload with ;hist=1 anywhere, then hist_end, and a history counts as shown |
| MetaBodies.TwoHistoriesCalls | web/static/term.js:133-218 | of two histories on two connections the second's text is shown iff ;hist=1 stands nowhere in the first's payload |
| MetaBodies.HistoryAfterNoneIsShown | web/static/term.js:133-137 | after a hist=0 block the next connection's history is shown |
| MetaBodies.SecondHistoryIsHidden | web/static/term.js:120-127 | after a hist=1 block it is not |
| RelayTables.Server.Register | relay/relay.go:152-166 | finds or makes the session, puts the connection in its slot, returns the displaced one, closes the old change channel once and installs a new one |
| RelayTables.Server.SessionFor | relay/relay.go:153-157 | the key's session, made empty only if there was none, nothing else changed |
| RelayTables.Server.TakeSlot | relay/relay.go:158-165 | the slot's new occupant, the displaced one, the other slot untouched |
| RelayTables.Server.Announce | relay/relay.go:164-165 | the old channel is closed, and the session gets a new open one |
| RelayTables.Server.FindPeer | relay/relay.go:235-247 | replaced, the peer in the opposite slot, or the channel to wait on |
| RelayTables.Server.Unregister | relay/relay.go:200-212 | only a current connection removes its session and wakes the waiters; it gets its peer to close |
| RelayTables.Server.CheckLone | relay/relay.go:174-178 | true just for a current connection whose opposite slot is empty |
| RelayTables.Sess.IsCurrent | relay/relay.go:220-225 | whether the connection occupies its role's slot |
| RelayTables.AttachTakesSlot | relay/relay.go:152-165 | finding or making the session and then taking the slot over is one registration, whose displaced connection was the slot's occupant |
| RelayProtocol.RunSound | relay/relay.go:151-258 | every schedule keeps the invariant of tables, occupants and readers |
| RelayProtocol.ConnectSound | relay/relay.go:152-169 | a connect or takeover keeps it |
| RelayProtocol.ExitSound | relay/relay.go:200-212 | the exit section keeps it |
| RelayProtocol.LocalSound | relay/relay.go:186-196 | a reader's other steps keep it |
| RelayTakeover.NoLostWakeUp | relay/relay.go:233-257 | a reader blocked on a channel still open is current, its session is in the map, the opposite slot is empty and the channel is the session's own |
| RelayTakeover.ArrivalWakes | relay/relay.go:164-165 | any connect to its key lets a waiting reader go on |
| RelayTakeover.NoDoubleClose | relay/relay.go:202-211 | no step in any reachable state closes a closed channel |
| RelayTakeover.SessionsAreOccupied | relay/relay.go:151-212 | a session in the map has an occupant; every occupant has that key and role and has not run its exit section |
| RelayTakeover.OneSlot | relay/relay.go:152-163 | a connection is in one slot at most |
| RelayTakeover.NeverReturns | relay/relay.go:151-225 | once out of its slot a connection is in no slot ever again |
| RelayTakeover.TakeoverReplaces | relay/relay.go:158-169 | the newcomer is current, the old occupant is not, the peer stays current and untouched |
| RelayTakeover.StaleReaderIsHarmless | relay/relay.go:198-216 | no step of a replaced reader changes a table, wakes anyone or touches another connection |
| RelayTakeover.StaleForever | relay/relay.go:198-212 | a stale reader stays stale over every schedule |
| RelayTakeover.StaleExitIsHarmless | relay/relay.go:198-216 | so in every continuation its exit neither deletes a later session on its key nor closes a connection but its own |
| RelayTakeover.NaturalDeathFolds | relay/relay.go:200-216 | a current connection's exit frees the session, and its next step closes it and its peer whatever happens in between |
| RelayCloses.TakeoverCloses | relay/relay.go:167-169 | whatever comes in between, the newcomer's next step can be made, closes the displaced connection and no other, and that one stays closed over every schedule |
| RelayCloses.ClosedStays | relay/relay.go:167-216 | a closed connection is never open again |
| RelayCloses.EndedIsClosed | relay/relay.go:213 | in every reachable state a reader that has ended has closed its own connection |
| RelayCloses.OnlyWithinSessions | relay/relay.go:240-251 | in every reachable state bytes have passed only between connections of one key and opposite roles |
| RelayCloses.LeavesIff | relay/relay.go:186-196 | a reader leaves just when its read fails without bytes, it finds itself replaced, its write fails or carried the last bytes, or it gives up |
| RelayCloses.LooksIff | relay/relay.go:188-192 | it looks for its peer just with bytes in hand, and again when woken |
| RelayCloses.WokenIff | relay/relay.go:252-256 | in every reachable state a waiting reader can look again iff it is no longer current or its session has changed since it looked |
| RelayCloses.ExitFrees | relay/relay.go:200-212 | a current reader's exit section frees the session and closes its channel, any other's changes nothing shared |
| RelayCloses.LookFindsPeer | relay/relay.go:240-253 | current and without a peer it waits for its session's change, and with one it writes to that |
| RelayCloses.ReadsIff | relay/relay.go:186-196 | it reads again just after its write succeeded, unless the end came with those bytes |
| RelayCloses.ExitThenFinish | relay/relay.go:200-217 | after its exit section a reader closes its connection, once |
| RelayCloses.LoneIffWouldWait | relay/relay.go:173-181 | the lone timer closes a connection just when its reader would have to wait for a peer |
| RelaySparing.TakeoverSparesPeerIff | relay/relay.go:147-169 | peer and newcomer stay current and open, over every schedule in which nothing else ends them, iff at the takeover the peer is open, has not read its end and has no write under way |
| RelaySparing.PairRun | relay/relay.go:186-258 | a pair of which neither has read its end and each writes only to the other stays so over every calm schedule |
| RelaySparing.UnsteadyDisturbs | relay/relay.go:189-216 | otherwise a calm schedule ends the pair |
| RelaySparing.RunHeld | relay/relay.go:167-216 | what a reader may still close besides its own is out of its slot for good |
| RelaySparing.TakeoverDisturbs | relay/relay.go:147-217 | a run of eleven steps after which the session is gone and the newcomer closed |
| RelayDelivery.NoGapNoDuplicate | relay/relay.go:138-258 | in every reachable state what one connection received from another is a contiguous in-order piece of what was read there, and all that left the sender is a prefix of it |
| RelayDelivery.GroupedIsInfix | relay/relay.go:231-251 | a sender that never turns back to an earlier peer gives each peer one contiguous piece |
| RelayDelivery.RunDelivers | relay/relay.go:151-258 | every schedule keeps the delivery invariant |
| RelayDelivery.NothingHeldBack | relay/relay.go:186-196 | a reader back in its read has passed on every byte it read |
| RelayDelivery.AtMostOneMoreChunk | relay/relay.go:158-251 | after a replacement at most one more packet leaves the replaced connection: the chunk whose target had been looked up, to that target |
| IdlePump.RunSound | relay/relay.go:271-315 | every timed run keeps the invariant of clock, ticks, reads, bumps and both directions |
| IdlePump.ClosesOnlyInSilence | relay/relay.go:284-312 | a close for silence comes after at least `idle` without a bump in either direction |
| IdlePump.SilentCloseIffBumped | relay/relay.go:283-312 | at a tick that closes, no byte was read for `idle` iff no direction has read one that it has not bumped yet |
| IdlePump.ClosesOnUnbumpedRead | relay/relay.go:283-312 | a run that closes one nanosecond after a read |
| IdlePump.SilenceCloses | relay/relay.go:298-314 | the close comes before idle + idle/2 after the bump of the latest byte read, or after the start; from then on every state is closed |
| IdlePump.DeliversPrefix | relay/relay.go:279-295 | each direction delivers a prefix of what it read, and all of it when it ended without a failed write |
| IdlePump.TimeCanPass | relay/relay.go:298-314 | the deadline is not met by stopping the clock |
| IdlePump.ClosedForGood | relay/relay.go:300-313 | once closed, neither the time nor the reason changes |
| IdlePump.LineFinishesIff | relay/relay.go:282-294 | a direction finishes just when its read ends without bytes, its write fails, or it has written what came with the end; and it never starts again |
| IdlePump.FinishedClosesBoth | relay/relay.go:300-311 | a finished direction is taken once, which closes both ends unless silence has, and the call returns |
| IdlePump.ClosesOnlyAtAnEnd | relay/relay.go:300-311 | over every run, nothing is closed without silence, and the call does not return, before a direction has finished |
| IdlePump.ChunkPasses | relay/relay.go:283-292 | what is read can be delivered whole, and the direction reads on unless its end came with it |
| PushCache.Client.PushSessions | state/pushcache.go:93-158 | the loop and the parent write leave the store, cache, read count, changed count and error of the cached form |
| PushCache.Client.PushSession | state/pushcache.go:96-134 | the same for one session |
| PushCache.Client.ForgetPC | state/pushcache.go:74-83 | exactly the entries whose key starts with the PC and a slash go |
| PushCache.Client.DeleteSession | state/state.go:350-358 | forgets the entry even when the delete fails and returns its result; an empty key does nothing |
| PushCache.Client.DeletePC | state/state.go:182-203 | removes whichever sessions, parent, slave and wake documents the deletes remove, returns the last one's result, tells the cache nothing |
| PushCache.Client.DeletePCByID | state/state.go:208-211 | the same after forgetting the PC's entries |
| PushTheorems.CacheIsInvisible | state/pushcache.go:93-158 | over any run of pushes and own deletes, any clock, interval and failures, documents, counts and errors are those of the form that reads every time |
| PushTheorems.LoopAgrees | state/pushcache.go:96-134 | one push keeps every entry's hash and version equal to the stored ones, and changes the store as the plain push does |
| PushTheorems.DeleteAgrees | state/state.go:208-211 | deletes keep that agreement |
| PushTheorems.OutsideDeletionIsNoticed | state/pushcache.go:94-134 | after an outside deletion at t, a push of the session at t + interval or later recreates it, whatever came in between |
| PushTheorems.StoredAfterInterval | state/pushcache.go:94-134 | the same whatever cache and store say, for a session last verified by t |
| PushRaces.RacedDeleteAgreesIff | state/state.go:208-211 | with calls between the halves of a PC's deletion the cache is right after it iff no session that it removed was verified in between |
| PushRaces.RacedDeletionIsNoticed | state/state.go:208-211 | with those calls made by t, a push at t + interval or later stores the session again |
| PushRaces.RacedDeletionLosesSession | state/state.go:208-211 | a run after which a session's document is gone and its next push neither looks nor writes |
| PushTheorems.WithinTheIntervalNobodyLooks | state/pushcache.go:100-104 | before that an unchanged session costs no read, no write and no report |
| PushTheorems.ReadsAreBounded | state/pushcache.go:94-134 | n unchanged sessions cost at most n * (1 + T / interval) reads over a span T |
| PushTheorems.FirstPushReadsAll | state/pushcache.go:94-108 | that many are made in no time: the first push reads every session once |
| PushTheorems.CacheKeyInjective | state/pushcache.go:53 | cache keys of different PCs or sessions differ, since a PC id has no slash |
| PushTheorems.CacheKeyOfPC | state/pushcache.go:74-83 | a key has the prefix of a PC just when it is one of that PC's |
| PushTheorems.SlashBreaksKeys | state/pushcache.go:53 | with a slash in a PC id two documents share a key |
| PushContents.HashesEqualIff | state/state.go:65-81 | two sessions have one hash iff they agree in every field but version, updated_at and content_hash |
| PushContents.SessionKeyMeans | state/state.go:84-92 | the key, else the session id, else a fixed word |
| PushContents.OneMeans | state/pushcache.go:96-134 | a session is written iff its fields are not those stored, with the version after the stored one or 1; nothing else in the store changes |
| PushContents.RunOwns | state/pushcache.go:122-129 | over every run each document's hash is that of the fields it holds |
| PushContents.PushedIsHeld | state/pushcache.go:93-158 | after any run, a push without an error leaves each session's document, the last of its key, with exactly the fields pushed |
| PushContents.HeldAfterInterval | state/pushcache.go:94-134 | the same whatever others have done to the store, once the interval has passed |
| PushContents.ChangeIsWritten | state/pushcache.go:100-130 | a change of content is written with the next version, however soon it comes |
| PushContents.LoopCounts | state/pushcache.go:89-134 | for sessions with different keys, the count reported is that of the sessions the store did not hold, and an error is reported iff the write of one of them fails |
| PushContents.PushTouches | state/pushcache.go:135-157 | a push leaves all other documents as they were; the PC's parent is written iff something was and nothing failed, and keeps its agent's version |
| PushContents.DeletesMean | state/state.go:182-198 | the documents that the deletes of a session and of a PC remove, and no others |
| PushContents.OwnDeletionIsNoticed | state/state.go:350-358 | after the client's own deletion the next push writes the session anew, however soon |
| OAuth.Server.TokenFromCode | oauth/token.go:73-100 | reply and store of a code request: consume, check redirect and PKCE, issue a new family |
| OAuth.Server.TokenFromRefresh | oauth/token.go:102-136 | reply and store of a refresh request: reuse revokes the family, expiry refuses, else mark and rotate |
| OAuth.Server.IssueTokenPair | oauth/token.go:141-181 | two tokens with the grant's email, client, scopes and family, or what an interrupted issue leaves |
| OAuth.AccessTTLFor | oauth/token.go:33-40 | a quarter of an hour iff drover.admin is among the scopes |
| OAuth.Server.ConsumeOAuthCode | state/oauth.go:95-111 | the code in time, deleted if the delete lands, expired codes too |
| OAuth.Server.CreateOAuthToken | state/oauth.go:139-149 | the token is stored unless the write did not land |
| OAuth.Server.MarkOAuthTokenSuperseded | state/oauth.go:170-174 | the flag is set and everything else kept; without a document it makes a blank one |
| OAuth.Server.RevokeOAuthTokenFamily | state/oauth.go:200-211 | removes tokens of the family only, all of them unless a delete fails |
| OAuthRuns.RunSound | oauth/token.go:73-181 | every run keeps the links of tokens to grants, one live refresh and the count of code uses |
| OAuthRuns.CodeUses | oauth/token.go:81-99 | a code begins at most one family, plus one for each failed delete |
| OAuthRuns.CodeIsSingleUse | state/oauth.go:92-111 | with deletes that land, at most one token pair for each code |
| OAuthRuns.SecondUseIffDeleteFailed | state/oauth.go:102-103 | a code presented again in time pays out again iff its first delete failed |
| OAuthRuns.KeptCodePaysTwice | state/oauth.go:102-103 | a run of three requests that pays one code out twice |
| OAuthRuns.PairsAreLogged | oauth/token.go:99 | every pair answered to a code request is a use that the count sees |
| OAuthRuns.FamilySharesGrant | oauth/token.go:135 | all tokens of a family share the email, client and scopes of its code |
| OAuthRuns.OneLiveRefresh | oauth/token.go:131-135 | a family has at most one refresh token that is not superseded |
| OAuthRuns.ReuseRevokesForGood | oauth/token.go:118-126 | a reused refresh token yields nothing, and a revocation without a failed delete empties the family for ever; none of its tokens validates again |
| OAuthRuns.EmptyForever | state/oauth.go:196-211 | an emptied family stays empty over every run |
| OAuthRuns.SpentForever | state/oauth.go:179-188 | a token that is gone never comes back |
| OAuthReplies.CodePaysIff | oauth/token.go:73-100 | in every reachable state a code pays out iff it is stored, the verifier's challenge is the one it was issued for, the redirect URI is absent or its own, it is in time, and the pair can be made |
| OAuthReplies.CodeRefusals | oauth/token.go:77-98 | invalid_request iff the code or the verifier is missing, invalid_grant iff the code is not stored or the proof fails |
| OAuthReplies.CodeIsSpentAnyway | state/oauth.go:95-111 | a refused code is spent too, if its delete lands, and makes no token |
| OAuthReplies.CodeMakesPair | oauth/token.go:141-181 | the pair carries the code's email, client and scopes in a new family, with an hour or a quarter of an hour and 30 days to live |
| OAuthReplies.RefreshPaysIff | oauth/token.go:102-136 | a refresh pays out iff the token is a stored refresh token, not superseded and in time, and the writes succeed; the two refusals exactly |
| OAuthReplies.RefreshRotates | oauth/token.go:131-135 | the old token is superseded and two new ones continue its family with its grant |
| OAuthReplies.RefusedRefreshChangesNothing | oauth/token.go:104-130 | a refused refresh that is no reuse changes nothing |
| OAuthReplies.ReuseTakesFamilyDown | oauth/token.go:118-126 | a reused refresh token is refused and removes its whole family unless a delete fails; every other token and every code stays as it is |
| OAuthReplies.RotatedIsRefused | oauth/token.go:131 | the old token of a rotation validates no more, at any time |
| OAuthReplies.UnlinkedForGood | state/oauth.go:191-194 | an unlinked token never validates again over any run; all others stay |
| OAuthReplies.LogMeans | oauth/token.go:81-99 | the log counts a use for each code request that gets as far as making tokens, and a kept code for each delete that fails |
| OAuthReplies.PkceMeans | oauth/pkce.go:28-36 | a verifier is accepted just for the S256 challenge made of it, and never when empty |
| OAuthReplies.AccessValidatesUntilExpiry | state/oauth.go:179-188 | an access token made for a code validates exactly until it expires |
| Commands.CommandQueue.PushCommandArgs | state/commands.go:184-210 | refuses unknown commands and agents and bad args without a write; else a new pending document with exactly the given request |
| Commands.ValidateArgs | state/commands.go:155-170 | refuses an empty key or more than 16 KiB in all, in whatever order the args are counted |
| Commands.SizeWithout | state/commands.go:159-168 | the size of the args is the same counted in any order |
| Commands.CommandQueue.ClaimCommandFor | state/commands.go:346-361 | succeeds only on a pending document, which it sets to running, the rest kept |
| Commands.CommandQueue.AckCommandFor | state/commands.go:416-422 | sets status and detail and keeps the request; a missing document is made |
| Commands.CommandQueue.ClaimPendingCommands | state/commands.go:366-384 | returns what this poll is known to have claimed, in the query's order; every queried document ends as its own claim did, whether won, lost to a rival or failed |
| Commands.WaitCommand | state/commands.go:314-338 | every snapshot before the deciding one shows no final document; that is done or error, a listener's error, or the deadline |
| Commands.PolledIff | state/commands.go:371-383 | a poll returns the requests of exactly the documents that were pending and that it is known to have claimed |
| Commands.PolledInOrder | state/commands.go:371-383 | in the query's order |
| Commands.LifeOfACommand | state/commands.go:184-273 | from any moment: pushed it is pending, claimed it is running and handed out, acknowledged it has the status and detail reported, and no other document changes |
| Commands.LogMeans | state/commands.go:248-273 | a handout is logged just for a claim that finds its command pending and commits, a reopening just for an acknowledgement of pending that lands |
| Commands.RunSound | state/commands.go:215-272 | every interleaving of pushes, claims on old or new snapshots, and acknowledgements keeps the queue's invariant |
| Commands.HandoutsBounded | state/commands.go:212-263 | a command is handed out at most once, and once more for each acknowledgement that set it back to pending |
| Commands.HandedOutAtMostOnce | state/commands.go:212-214 | with proper acknowledgements, at most once |
| Commands.SecondHandoutIffReopened | web/slave.go:352-372 | after a handout a claim succeeds again iff the command is pending again, which only such an acknowledgement can cause |
| Commands.AckPendingHandsOutTwice | web/slave.go:366 | a run of four requests that hands one command out twice |
| Commands.HandsOutWhatWasPushed | state/commands.go:231-239 | what is handed out is, field by field, what was pushed under that id |
| Commands.OnlyForward | state/commands.go:248-273 | claims and proper acknowledgements never change the request, and the status only moves forward |
| Asks.Firestore.RegisterAsk | glasses/ask_firestore.go:12-29 | an unanswered, undelivered question with a full TTL, for valid ids only |
| Asks.Firestore.AskDoc | glasses/ask_firestore.go:32-46 | the document iff it is there and has not expired |
| Asks.Firestore.AnswerAsk | glasses/ask_firestore.go:49-67 | answers a question that was live when read and renews its TTL, keeps its delivery mark; fails when others have removed it in between |
| Asks.Firestore.UpdateAnswer | glasses/ask_firestore.go:55-67 | its update, whatever has happened since the read: fails on a question that is gone |
| Asks.Firestore.TakeAskReply | glasses/ask_firestore.go:70-96 | the answer as read, not yet, or not found; the first delivery marks the question as others have left it and sets its expiry from what was read |
| Asks.Firestore.UpdateDelivered | glasses/ask_firestore.go:78-96 | its second half, whatever has happened since the read: the read document's expiry decides, and a question that is gone fails it |
| Asks.Firestore.PutAnswer | glasses/glasses.go:169-192 | a success writes exactly one document, whatever others do in between: the question's own iff it was live when read, else the pull collection's; refusals write nothing |
| Asks.Firestore.PutPull | glasses/firestore.go:35-55 | the answer in the pull collection with a full TTL |
| Asks.DocIDInjective | glasses/glasses.go:110 | two questions of valid PCs never share a document |
| Asks.TakeOnlyShortens | glasses/ask_firestore.go:82-94 | a take touches only its question's mark and expiry, and never makes that later than it was when read; so never at all with nothing in between |
| Asks.SameReplyThenNotFound | glasses/ask_firestore.go:70-96 | after a delivery the same text is returned until min(old expiry, delivery + 1 minute) and then not-found, over every run that does not answer or register the question again |
| Asks.AnswerIsTaken | glasses/glasses.go:180-190 | a routed answer is what the next take returns until its TTL is over |
| Asks.ReAnswerHasNoGrace | glasses/ask_firestore.go:57-61 | an answer after a delivery stays readable for the whole TTL, its delivery shortens nothing |
| AskReplies.FormatsMean | glasses/glasses.go:62-107 | exactly which ids and texts are valid |
| AskReplies.TakeMeans | glasses/ask_firestore.go:70-96 | not found, not yet, or the answer, exactly by what the document holds; the first delivery leaves it a minute at most |
| AskReplies.UnansweredIsNotYet | glasses/ask_firestore.go:12-80 | over every run a registered question that nobody answers is not-yet for ten minutes and then not-found, and asking changes nothing |
| AskReplies.LifeOfAQuestion | glasses/ask_firestore.go:12-96 | over every run: registered, answered in time and then taken, a question gives the answer for ten minutes from the answer, and then not-found |
| AskReplies.TtlIsInvisible | glasses/ask_firestore.go:41-44 | the TTL policy removes just what has expired, and no later look can tell |
| AskOverlaps.LookedIsTheReply | glasses/ask_firestore.go:70-82 | what a look finds is the reply of a take that nothing interrupts |
| AskOverlaps.AloneIsTake | glasses/ask_firestore.go:70-96 | a take's steps with nothing in between are the operation |
| AskOverlaps.AloneIsPutAnswer | glasses/ask_firestore.go:49-67 | an answer's too |
| AskOverlaps.AloneIsRegister | glasses/ask_firestore.go:12-29 | and a registration's |
| AskOverlaps.RunSound | glasses/ask_firestore.go:12-96 | any overlap of registrations, takes, answers and TTL removals, with writes that land as late as they like, keeps the invariant of expiries and of what is under way |
| AskOverlaps.ExpiryIsBounded | glasses/ask_firestore.go:12-96 | over every overlap an expiry is the TTL from the last registration or answer to land, or within the grace of the last delivery, and never beyond the TTL from the latest |
| AskOverlaps.LaterOnlyAfterAnotherMark | glasses/ask_firestore.go:82-93 | with renewals that land in the order of their clocks, a take makes the expiry later only on a question already delivered |
| AskOverlaps.LaterIff | glasses/ask_firestore.go:82-93 | in every state, a take's write makes the expiry later iff what it sets is beyond the expiry of the delivery since, or, on an undelivered question, beyond the TTL of the renewal that landed last |
| AskOverlaps.OverlappingTakesExtend | glasses/ask_firestore.go:70-96 | a run of two first takes: the first leaves the question a minute, the second half a minute more |
| AskOverlaps.NewTakeExtends | glasses/ask_firestore.go:70-96 | a run in which, at one moment, a take of the old reply leaves ten seconds and one of the new reply a minute |
| AskOverlaps.AnswerBetweenGetsOldGrace | glasses/ask_firestore.go:57-93 | an answer between a take's read and its update is left with the old reply's expiry or grace |
| AskOverlaps.ReplyLastsIff | glasses/ask_firestore.go:70-96 | a live question's text is found until a moment within its expiry and the grace from now, over every continuation that does not begin to register or answer it, iff every request under way is harmless: no registration, no answer with another text, no take of a reply that was to expire before, none with a clock too old |
| AskOverlaps.NothingAfter | glasses/ask_firestore.go:32-46 | with no answer or registration under way or to come, whoever looks finds the one text or nothing, and nothing after the last of the expiries in play |
| AskOverlaps.OldTakeCutsNewReply | glasses/ask_firestore.go:82-93 | a run in which a reply just delivered for a minute is gone after eleven seconds |
| Asks.PullLoop | glasses/glasses.go:139-157 | every query before the last is empty, before the deadline and followed by a whole wait; the last has items, is at the deadline, failed, or is followed by a cancelled wait; at most 26 in all |
| Asks.ClampWait | glasses/glasses.go:127-135 | the wait itself, or 0 if negative, or 25 seconds if longer |
| KeyedCalls.EachKeyAlone | mcp/ratelimit.go:42-50 | a key's entry and answers are those of its own calls alone |
| KeyedCalls.RepliesArePasses | glasses/handler.go:363-373 | the replies one key gets in a mixed run are those of its own calls |
| TokenBucket.Limiter.Allow | mcp/ratelimit.go:37-63 | one call refills, caps and takes a token, on its own key only |
| TokenBucket.LimitOf | mcp/ratelimit.go:13-18 | 20, 10 and 3 calls a minute for input, control and admin, 60 for any other class |
| TokenBucket.KeyInjective | mcp/ratelimit.go:42 | keys of different accounts or classes differ when classes have no bar |
| TokenBucket.FoundIsLeastGrant | mcp/ratelimit.go:51-56 | a call finds the least that the rate grants, over every earlier call it may be counted from |
| TokenBucket.RefusedIffWouldExceed | mcp/ratelimit.go:51-62 | on any clock, a call is refused iff passing it would put more than limit + elapsed * limit / 60 calls after some earlier one |
| TokenBucket.AtMostTheRate | mcp/ratelimit.go:37-63 | at most limit + T * limit / 60 calls of a bucket pass in any stretch of length T |
| TokenBucket.AccountAtMostTheRate | mcp/ratelimit.go:37-63 | the same for one account and class in a run of any accounts and classes |
| FixedWindow.RateLimiter.Allow | glasses/handler.go:363-373 | one call opens a window or is counted in the open one, on its own key only |
| FixedWindow.PassesIffEarlyInWindow | glasses/handler.go:366-372 | a call passes iff it opens a window or is among the first `limit` of its window |
| FixedWindow.AtMostTwiceTheLimit | glasses/handler.go:363-373 | at most 2 * limit - 1 calls pass in any stretch no longer than the window (one when the limit is 0) |
| FixedWindow.MostIsReached | glasses/handler.go:363-373 | that many do pass, within one second |
| FixedWindow.TwiceTheLimitIffPositive | glasses/handler.go:366-372 | twice the limit is a bound iff the limit is positive |
| FixedWindow.AddressAtMostTwice | glasses/handler.go:363-373 | the bound for one address in a run of calls from any addresses |
| Scroll.LastContentRow | web/static/term.js:66-71 | the last row below the cursor with content, or the cursor's |
| Scroll.SettleShowsCursor | web/static/term.js:92-114 | settling while following gives a place on the page with the whole cursor row visible |
| Scroll.SettleShowsPinIffItFits | web/static/term.js:97-100 | the last content row is visible too iff both it and the cursor's row fit |
| Scroll.SettledIsStable | web/static/term.js:101-112 | the scroll event a pin causes keeps following true, and settling again changes nothing |
| Scroll.NeverMovesReader | web/static/term.js:101-113 | while not following, and on a user's scroll, the page is not moved |
| Scroll.UserFollowsIff | web/static/term.js:101-109 | after a user's scroll the page follows iff the cursor's row is not wholly below the window |
| Scroll.SettlesAtLeastPlace | web/static/term.js:93-112 | a settled page is at the least place that shows the last content row, if that and the cursor's row fit, and otherwise the cursor's |
| Scroll.OddViews | web/static/term.js:93-97 | rows without a height count as one pixel, a content row above the cursor as the cursor's |
| Scroll.FollowsUntilUserLeaves | web/static/term.js:73-114 | over any frames and sizes a page that follows goes on following with the cursor row visible; one that does not stays put, and follows again iff a frame is too short for its place |
| Scroll.ReaderKeepsPlaceIff | web/static/term.js:84-87 | over any frames, a reader who scrolls keeps the place iff the cursor's row was wholly below the window there and no frame is too short for the place; otherwise the page follows |
| Scroll.GrowingWindowFollows | web/static/term.js:101-112 | a page whose reader is moved to its top when the window grows |

## Left out

- Commands.Run: a push is not refused there, which allows more runs than the code has.
- AskOverlaps: a pull-collection answer is one step with the read that found no live question.
- PushTheorems.ReadsAreBounded: stated multiplied by the interval, to stay in whole numbers, for writes that succeed and keys that differ.
- PushContents.LoopCounts: for sessions with different keys; of two with one key the second is compared with what the first has left, as in `PushContents.OneMeans`.
- IdlePump.SilenceCloses: counts from the bump of the latest byte, which may come later than its read.
- RelaySparing.TakeoverSparesPeerIff: nothing else may end the pair: no third connection to its key, no end read, no outside close, no giving up, and no failing write into an open connection.
- The lone timer and every other outside close of a connection are one step that may come at any time, which allows more runs than the code has.
- Waiting for a peer gives up at any time, not only after two minutes.
- Real-time behaviour of `slaveCommands` and `slaveWake`: their hold and their listeners; each of their polls is a claimer of the command queue.
- Concurrent token requests: each is one step, as the code promises single use only then.
- The relay's readers and the pump's goroutines are steps on values, since they interleave; their 32 KiB buffers and the reuse of them are not modelled.
- HTTP, WebSocket and DOM glue, cookies, webhooks, Firebase and FCM calls, deployment wiring.
- Cryptography and JSON: hashes and challenges are taken to be injective, random values to be new.
- The document store itself: a map with atomic operations on single documents and atomic transactions; TTL deletion is a removal at any later time; a failed read of a session counts as absence, as in the code. A limit of 0, which `FixedWindow` allows, is no limit the code sets.
- `PushStatus`'s own timestamps and `agent_kind`: a stamp is passed in; `DeletePC`, which does not clear the cache, is an outside deletion.
- Text clamps, release tags and the aliases of old command names: true but easy. Characters stand for bytes in sizes.
- `query` of the pull collection: its filter, sort and cut to 20 items.
- Floating point: tokens and pixels are real numbers.
- `String.fromCharCode.apply` fails on very long payloads; payloads of any length are decoded here.
- `relayclient/`, which repeats the relay's code.
- `pump` for an idle of 0 or less, and the panic of the ticker at an idle of 1ns.
