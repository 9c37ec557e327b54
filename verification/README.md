# The managed runtime of nwep, verified

This project models the concurrent and stateful Rust code of the `nwep` crate and proves what
that code promises. The crate wraps a native library; the part written in Rust that is worth
proving is the managed runtime (`nwep/src/runtime.rs`), the waker under it (`nwep/src/poll.rs`),
the request, handle and callback lifecycles (`nwep/src/client.rs`, `nwep/src/server.rs`) and the
feeder and download loops of its examples and tests.

The native library, tokio, the operating system, clocks and thread scheduling are not modelled
from the inside. Each is a source of arbitrary choices, limited only by what the wrappers
document: a submit returns a fresh id, a poll yields pending, a response or an error and retires
the id on the last two, stream bytes arrive in order, a lookup returns a record of its target or
none, a channel is first in first out and reports disconnection only when it is empty.

## How it is laid out

Three kinds of module appear.

*Step systems* hold the interleavings. `Bridge` is the client actor bridge: any number of callers,
one owner thread with a program counter, a command queue of 64, a waker, reply slots and the
native request table. `Stream` is the streaming pipeline: feeder, native stream, reader thread,
channel of 8, consumer. `Startup` is the handshake of `serve`, `connect_async` and `stream`. Every
choice made outside the code is a parameter of a step, so a statement about all step sequences is
one about all schedules and all native answers. `BridgeInvariant` and `StreamSafety` prove the
invariants; `BridgeSafety`, `BridgeClosed`, `BridgeTable`, `BridgeExit`, `StreamSafety` and
`StreamHangup` draw the results. `BridgeTrace`, `StreamTrace`, `StartupTrace` and `ClientTrace` tie
what the states record to the steps of the run and to what was answered in them, so that a result
about a recorded request, verdict or error is one about what was dispatched and answered.

*Imperative modules* hold the code's loops, with its own variables, arrays and in-place edits.
`BridgeOwner`, `StreamOwner` and `StartupOwner` run the owner threads' code inside the step
systems, other threads moving between any two operations, and prove it to be a run of its system,
so that all results about reachable states hold of the code as written. `Feeder`, `ServerLoop`, `Waker`,
`Marshal`, `ClientOwner`, `RequestHandles`, `ServerLifecycle`, `Download` and `Reassembly` prove
their methods against specification functions or laws whose properties are then lemmas.

*Specification modules* hold those laws: `Announce`, `Lookup`, `ServerLaw`, `ClientLifecycle`, `Bags`,
`Wire`.
`Node` is the outside world of the server's owner thread: its methods are the native calls and clock
readings, each recorded in order, and its state must be what replaying that record gives. What a
lookup or a turn of the loop did is stated over that record and that state. The other imperative
modules record their native calls in the same way: every method says which entries it added.

## What was found

Some promises do not hold of the code on every input. Each has a lemma with a concrete run and a
lemma that says exactly when the code does keep the promise.

- `AsyncStream::recv` documents `Ok(None)` as the verified end. After an error has been read, the
  closed channel also reads as `Ok(None)`: `StreamSafety.EndAfterError` exhibits it, and
  `StreamTrace.EndMeansVerified` proves that the promise holds exactly when no error was read
  before.
- `Client::on_request_done` frees the previous callback box before registering the new one and
  ignores the registration's return code. A refused replacement leaves the native side holding the
  freed box (`ClientLifecycle.RefusedReplacementDangles`); the registered box is live exactly when
  the last registration was not such a refusal (`ClientLifecycle.HookLiveIff`), and every demand of
  the native side is met exactly when no tick or drop falls after one
  (`ClientLifecycle.SoundIff`).
- A `RequestHandle` learns of its end only by polling. Dropped without a poll that reported it, it
  cancels a request that a tick had already completed; beside a completion hook, as in
  `nwep/tests/final_surface.rs:141-160`, even one whose result was handed out
  (`RequestHandles.HookedThenDropped`). `RequestHandles.StrayIffUnpolled` says exactly when, and
  `RequestHandles.CancelHits` what the cancel then hits.
- A `serve` future dropped after the ready verdict was sent and before it was received leaves the
  server running with nobody to stop it (`Startup.ServeCanBeStranded`).
- A stream's connection is documented to close when the stream drops (`nwep/src/runtime.rs:646-648`).
  Its thread looks at its channel only to send, and otherwise sits in a native read with neither
  timer nor waker, so a dropped stream with a silent peer stays open
  (`Startup.StreamCanBeStranded`, `StreamHangup.HungUpAtRead`). It can end without the peer exactly
  when its thread is not at the read or the read has something to return
  (`StreamHangup.EndsWithoutPeerIff`).
- In every case but these two the caller's side can make an owner past its ready point leave, and in
  these two it cannot (`Startup.MadeToLeaveIff`).
- A `connect_async` future dropped at that point disconnects its owner but has no handle to wake it
  with: the owner notices only when the 200 ms cap or the socket ends its wait
  (`Startup.WokenIffHandleDropped`).
- The announce arithmetic needs a positive clock that is not set back: `Announce.ClockMatters`
  gives two clocks that break the 30 seconds, and `Announce.PassIsGood` says exactly which reading
  keeps them. A clock set back wraps the unsigned subtraction of the release build; that is what is
  modelled.
- The download loop looks at one status only. Against a server that answers a range request with
  the whole resource it is right exactly when the resource is shorter than a window and no prefix
  was kept (`Download.IgnoredRanges`).

## Model

| member | source | states |
|---|---|---|
| Marshal.RoundTrip | nwep/src/client.rs:547-584 | a request is refused, with ProtoInvalidHeader, exactly when some string has an interior nul; otherwise the C side, walking the array to its null-name sentinel, reads back the same method, path, headers in order and body, and stays inside the memory it was given |
| Marshal.RequestBuilder.WithC | nwep/src/client.rs:757-786 | the builder's loop, which consumes its headers, produces the one specified view of its request, or the refusal |
| Marshal.SubmitView | nwep/src/client.rs:547-569 | the managed path produces that same view, so the two paths agree on every input |
| Marshal.CollectArray | nwep/src/client.rs:557-569 | the C array has one entry per string pair, in order, then the sentinel |
| Marshal.ReadHeadersOf | nwep/src/client.rs:557-569 | an array built from nul-free headers can be walked to its sentinel and yields exactly them |
| Marshal.StreamRoundTrip | nwep/src/server.rs:415-442 | a streamed response's metadata reads back as the headers without a nul, in order: all of them exactly when none has one; a path with a nul reads as empty |
| Marshal.StreamView | nwep/src/server.rs:415-442 | the responder's filtering loop builds that array and path for every input |
| Waker.KindsAreWakers | nwep/src/poll.rs:41-55 | the eventfd counter and the datagram queue both keep the signal set after every wake, even one lost to a full buffer, and every successful read makes progress |
| Waker.SetSince | nwep/src/poll.rs:41-55 | over any interleaving without a consuming read, the signal is set exactly when it was before or a wake came |
| Waker.DrainVerdict | nwep/src/poll.rs:210-224 | in any event list with a read that finds nothing, the signal is left set exactly when a wake came after the last read that found something |
| Waker.DrainDecides | nwep/src/poll.rs:210-224 | that holds of every whole drain against given wakes, for both kinds of waker |
| Waker.UnixWaker.Drain | nwep/src/poll.rs:51-55 | the read loop on the saturating counter ends as a whole drain: exactly the given wakes happened, every read but the last found something and the last did not, and the signal is left set exactly when a wake came after the last that did |
| Waker.WindowsWaker.Drain | nwep/src/poll.rs:220-224 | the same of the loop over the bounded datagram queue |
| Waker.WindowsWaker.Wake | nwep/src/poll.rs:210-218 | a wake on a full receive buffer is dropped, one on any other adds a datagram |
| BridgeInvariant.StepKeeps | nwep/src/runtime.rs:415-492 | every step of any caller or of the owner keeps the whole invariant: each accepted command in exactly one place, due signals, borrow order, routing, message ownership |
| BridgeSafety.InvariantHolds | nwep/src/runtime.rs:415-545 | hence it holds in every reachable state, for any number of callers |
| BridgeSafety.NoLostWakeup | nwep/src/runtime.rs:480-491 | if the owner is blocked with no signal, every queued command and a closed channel belong to someone whose very next move is enabled and sets the signal, so nothing waits for the 200 ms cap |
| BridgeSafety.WakeStaysDue | nwep/src/runtime.rs:531-544 | no step of anyone else, cancellation included, can take a caller out of the spot between its send and its wake |
| BridgeExit.SignalIsServed | nwep/src/runtime.rs:480-491 | blocked with the signal set and work queued, the owner needs neither timer nor socket: in every run of its own steps, whatever its reads of the waker return, it has taken the oldest queued command within the wakes held plus three steps |
| BridgeSafety.AtMostOnce | nwep/src/runtime.rs:427-492 | in every run a command the channel accepted is resolved at most once, and one it did not accept never |
| BridgeSafety.ResolvedOnlyGrows | nwep/src/runtime.rs:427-492 | no step undoes or reorders what was resolved |
| BridgeSafety.ExactlyOnceAtExit | nwep/src/runtime.rs:444-462 | once the owner has gone every accepted command has exactly one resolution, on both ways out, and each caller still waiting can move |
| BridgeSafety.DisconnectHandlesAll | nwep/src/runtime.rs:444-450 | leaving by the disconnect branch, the owner has taken off the queue and handled every command ever accepted |
| BridgeTrace.RequestsAreBegun | nwep/src/runtime.rs:524-540 | over every run each call's request is the one its dispatch was begun with, unchanged, and there is no other call |
| BridgeTrace.LedgerIsTold | nwep/src/runtime.rs:431-478 | every submission, refusal, answer and failure on record was given by a step of the run, at a submit of that very call or a poll of that very id |
| BridgeTrace.Routed | nwep/src/runtime.rs:431-478 | a dispatch begun with a request and returning Ok got the payload that a poll of its own id answered, the id its own submit was given for that method, path, headers and body; one that returns an error got what its own submit or poll answered, or else NetworkClosed, and then a tick had failed or found the connection dead, or the handle had been dropped |
| BridgeTrace.LeavesForCause | nwep/src/runtime.rs:444-462 | the owner leaves as on a dead connection exactly in the runs where a tick failed or found the connection dead, and by the disconnect branch only in those that dropped the handle |
| BridgeTrace.TakenInOrder | nwep/src/runtime.rs:427-442 | the owner takes commands in the order in which they entered the channel |
| BridgeTrace.RoundsInOrder | nwep/src/runtime.rs:453-491 | a tick that succeeded is followed by a whole poll pass, that by one wait, that by reading the waker until nothing is left, and only then are commands taken and the next tick made |
| BridgeTrace.FatesAreSteps | nwep/src/runtime.rs:524-545 | a command counts as accepted, and a call as cancelled or released, exactly when a step of the run did that to it |
| BridgeSafety.IdsAreApart | nwep/src/runtime.rs:431-442 | no two calls can be given responses of one id |
| BridgeSafety.PollsOnlyLiveIds | nwep/src/runtime.rs:464-478 | in every reachable state the row about to be polled holds an id still in flight, submitted for that row's call |
| BridgeSafety.OneOwner | nwep/src/client.rs:146-151 | every message a poll yielded has exactly one owner among owner thread, reply slot, caller and the frees done, at every step; none is freed twice |
| BridgeSafety.AllFreedAtTheEnd | nwep/src/runtime.rs:464-478 | with the owner gone, every message whose own call released it, was cancelled or returned an error was freed exactly once, whatever other calls did |
| BridgeTable.StepRefines | nwep/src/runtime.rs:415-545 | every step is one move of a table of outstanding requests: it opens one, answers one that is outstanding with an outcome it is entitled to (NetworkClosed only once the owner has left its loop or as the call's own error), or leaves the table alone |
| BridgeExit.RunBounded | nwep/src/runtime.rs:403-410 | once the handle is dropped, in any run the owner takes no more steps than a rank of its program counter, queue, table and wakes |
| BridgeExit.NeverBlocks | nwep/src/runtime.rs:480-491 | until it has left, the owner can always move; its wait finds the signal set |
| BridgeExit.ReachesExit | nwep/src/runtime.rs:444-450 | from any program point its own steps lead to the exit |
| BridgeOwner.SwapRemoveSplit | nwep/src/runtime.rs:464-478 | `swap_remove` at row i leaves the rows before it and a permutation of the others after it |
| BridgeOwner.ClientLoop.PollPass | nwep/src/runtime.rs:464-478 | one pass polls each row present at its start exactly once, keeps exactly those that reported pending, sends every other row its own answer, in polling order, and nothing else |
| BridgeOwner.ClientLoop.PollRequest | nwep/src/client.rs:586-600 | a poll may be made of a live id only and yields pending, a response of that id, or an error |
| BridgeOwner.ClientLoop.SubmitRequest | nwep/src/client.rs:540-584 | a submit marshals, then is given a fresh id, which joins the table, or an error |
| BridgeOwner.ClientLoop.FailPending | nwep/src/runtime.rs:444-462 | draining the table fails each remaining reply with NetworkClosed, in order |
| BridgeOwner.ClientLoop.TickAlive | nwep/src/runtime.rs:453-463 | the step taken is the tick's own outcome: the owner goes on to poll exactly when the connection is alive after it |
| BridgeOwner.ClientLoop.WaitForWork | nwep/src/runtime.rs:480-489 | one wait, for the client's timer or 200 ms, whichever comes first, the timer being asked only while requests are in flight |
| BridgeOwner.ClientLoop.Run | nwep/src/runtime.rs:415-492 | the loop as written is a run of the step system, its own table always the system's, and it returns only through the exits, or is cut after at least `fuel` steps of its own; each part of it takes exactly the steps it states |
| StreamSafety.ConsumerHasPrefix | nwep/src/runtime.rs:702-725 | under every acceptance pattern, chunking and schedule the consumer's bytes are a prefix of the body |
| StreamTrace.ReadsAreSteps | nwep/src/runtime.rs:702-718 | over every run the stream counts as verified exactly when the native check was made and passed, its end as seen exactly when a read reported it, and the bytes taken are those the reads brought |
| StreamTrace.VerdictIsTold | nwep/src/runtime.rs:702-725 | the item sent last is the end only after a check that passed in this run, and an error only when a read or the check answered that very error |
| StreamTrace.OneTerminal | nwep/src/runtime.rs:704-725 | at most one read fails or check is made in a run, and nothing is read after it |
| StreamTrace.FailureIsDelivered | nwep/src/runtime.rs:631-638 | when a read or the check answered an error, no end is ever sent, and a thread that finished with the consumer still there sent that error last |
| StreamTrace.HonestVerdict | nwep/src/runtime.rs:633-638 | the first result that is not a chunk is Ok(None) only if the native check passed in this run, after a read had reported the end, and the whole body was delivered |
| StreamTrace.EndMeansVerified | nwep/src/runtime.rs:624-638 | any Ok(None) is that of a passed check on a whole body exactly when no error was read before it |
| StreamSafety.EndAfterError | nwep/src/runtime.rs:633-638 | a run in which an error is followed by Ok(None) with nothing verified |
| StreamSafety.ItemsWellShaped | nwep/src/runtime.rs:702-725 | the thread sends non-empty chunks of at most 65536 bytes, then at most one terminal item, and nothing after it |
| StreamSafety.ReadAhead | nwep/src/runtime.rs:665-725 | the reader is at most eight queued chunks and one in hand ahead of the consumer |
| StreamTrace.DrainedMeansWhole | nwep/src/runtime.rs:702-725 | a consumer that drains a finished stream has the whole body if the native check passed, and otherwise has read the error that a read or the check answered |
| StreamTrace.FeedIsCalls | nwep/src/server.rs:892-924 | the native stream of every run is what the feeder's calls made it, each of them allowed |
| StreamHangup.EndsUnreadIff | nwep/src/runtime.rs:702-725 | after the consumer hung up, the owner thread can end without another native read exactly when it is not at its read |
| StreamHangup.OneReadSuffices | nwep/src/runtime.rs:704-710 | a read that brings bytes, an end or an error is enough for it to end |
| StreamHangup.OneReadAtMost | nwep/src/runtime.rs:704-710 | in every run after the hang-up at most one read brings anything, and none if the thread was not at its read |
| StreamHangup.EndsWithoutPeerIff | nwep/src/runtime.rs:646-648 | after the hang-up the thread, and so its connection, can end with nothing more from the peer exactly when it is not at its read or the read has something to return already |
| StreamHangup.HungUpAtRead | nwep/src/runtime.rs:646-648 | a run in which the consumer is gone and the thread stays in its read for as long as the peer is silent |
| StreamOwner.StreamRun.Recv | nwep/src/client.rs:643-658 | a read fills a prefix of the reused buffer with the next bytes of the stream, and ends only at the end; the step taken is what it returned |
| StreamOwner.StreamRun.VerifyPeer | nwep/src/runtime.rs:711-717 | the step taken is the check's own answer, and the item to send is the end exactly when it passed, else its error |
| StreamOwner.StreamRun.ReadLoop | nwep/src/runtime.rs:702-725 | the thread's loop over that buffer is a run of the pipeline; it returns only after its last send, which with the consumer still there was what a read or the check answered, or is cut after at least `fuel` steps of its own |
| StreamOwner.StreamRun.Consume | nwep/examples/managed_stream.rs:85-91 | the consumer's loop, ending without an error, counted every byte and chunk of a whole body whose check passed; an error it returns is the one it read last, and one that a read or the check answered; it stops short only after `fuel` items or waiting with none queued and the owner at work |
| Feeder.CallsAreLawful | nwep/src/server.rs:892-924 | on any stream the calls send the body in order; the end comes once, after the last byte, and no call follows it |
| Feeder.FeederDrivesPipeline | nwep/examples/managed_stream.rs:52-70 | the feeder's calls on a stream are a run of that stream's pipeline |
| Feeder.RetainedStep | nwep/examples/managed_stream.rs:56-69 | each step of the in-place pass keeps a subsequence of the rows, dropping only streams that carry the whole body and have ended |
| Feeder.Server.FeedOne | nwep/examples/managed_stream.rs:56-69 | the closure sends the unsent tail in sends that take something until one takes nothing, and then keeps the row, or until all is sent, and then ends the stream and drops the row; it never moves `sent` back and touches no other stream; it ends the thread exactly when a native call on this stream failed, with the stream as far as it got |
| Feeder.Server.Pass | nwep/tests/streaming.rs:65-77 | one pass over the table keeps the order of the rows and accounts for every stream: each is complete after it, or was fed until it was refused; it is cut exactly by one native failure on a row of the table, the rows before it having been served so and those after it not called |
| Feeder.Server.Run | nwep/tests/streaming.rs:60-82 | a stopped feeder has completed and ended every stream it ever took, and it stops at its first look that finds the flag set and no stream left; it dies exactly of one native failure, having made only lawful calls; otherwise it made a pass a tick, and a stream still unfinished was refused once in each |
| Reassembly.Reassemble | nwep/tests/streaming.rs:99-107 | the blocking receive loop ends; without an error it has put the whole body together and no read failed, and its error is that of the read that did |
| Lookup.StartsAtMostOnce | nwep/src/runtime.rs:302-306 | among the native calls of a resolve at most one starts a lookup, for its own target, after a look that missed; none when the record was stored |
| Lookup.FoundIffHit | nwep/src/runtime.rs:303-315 | it returns an address exactly when a look found a record, its last native call, and that record is its target's |
| Lookup.NotFoundIsLate | nwep/src/runtime.rs:307-319 | it reports not found only on a native call that said so, or at a clock reading at or past the deadline, every dht tick until then having been followed by a look that missed |
| Lookup.FailsAsCalled | nwep/src/runtime.rs:296-319 | it fails exactly when its last native call failed, with that call's error, or its last clock reading was at or past the deadline, as not found |
| Lookup.PassesInTime | nwep/src/runtime.rs:307-317 | every pass follows a clock reading before the deadline, and every wait is for the timer just read from the dht, or 20 ms if that is sooner or none is armed |
| Lookup.FoundIsStored | nwep/src/dht.rs:227-247 | the record of calls bears the state out: a returned address is the one stored for the target |
| ServerLoop.Server.LookupPass | nwep/src/runtime.rs:307-317 | one pass ticks the server, ticks the dht, looks, and waits for the dht's timer or 20 ms, ending the lookup at the first failure or hit |
| ServerLoop.Server.BeginLookup | nwep/src/runtime.rs:302-306 | a stored record is returned at once with nothing else done; otherwise one lookup is started for the target and the clock read, unless the start is refused |
| ServerLoop.Server.ResolveOnThread | nwep/src/runtime.rs:296-319 | the loop ends as the clock advances; the native calls it made keep the lookup law; a stored record is returned at once with no lookup started, at most one is started otherwise, and an address is the target's in the store |
| ServerLaw.ResolveIsHonest | nwep/src/runtime.rs:103-114 | a caller is given an address only when the native calls made for it ended by finding its own target's record in the store |
| ServerLaw.CallerLearns | nwep/src/runtime.rs:100-113 | a caller is told an error exactly in three cases: ConfigMissing without a dht, NetworkClosed when its command or its reply was lost, and otherwise the error with which the lookup made for it ended |
| ServerLoop.Server.Service | nwep/src/runtime.rs:265-280 | commands are answered once each, in order of arrival, each with a reply of its own kind earned by native calls made for it and for no other; no call is made that is not an answer's |
| ServerLoop.Server.AnnouncePass | nwep/src/runtime.rs:254-264 | one pass makes exactly one native announce, at its reading, if that reading is due, and otherwise none |
| ServerLoop.Server.DhtWork | nwep/src/runtime.rs:256-281 | the native calls of the dht's part of a turn are the clock reading, the dht's tick, the announce if due, and those of the commands answered, in that order and no other |
| ServerLaw.RunAnnounces | nwep/src/runtime.rs:251-264 | over every run of turns the announces really made are those of the turns and no other |
| ServerLaw.PollWait | nwep/src/runtime.rs:284-290 | the wait is never later than either armed timer or the 200 ms cap, and is one of the three |
| ServerLoop.Server.WaitForTimers | nwep/src/runtime.rs:282-290 | the loop reads the server's timer, and the dht's if there is one, and waits for exactly that, whether or not stop is set meanwhile |
| ServerLoop.Server.DropReceiver | nwep/src/runtime.rs:244-292 | commands left at the exit are answered by dropping their reply |
| ServerLoop.Server.Turn | nwep/src/runtime.rs:252-291 | the native calls of a turn are, in order and no other: the server's tick, which alone can end the loop; the dht's part, which announces if due and really serves every command there was when the turn began; the timers; and the wait for exactly the earlier of them. The announces on the native record are exactly those due; callers and stop may come in between |
| ServerLoop.Server.Run | nwep/src/runtime.rs:244-292 | the native calls are those of its turns and no other, and the announces on the native record are exactly those due at the turns' clock readings; the loop leaves only once stop is set or right after a failed server tick; once stop is set it takes no more commands than were queued then and begins at most one more wait; on leaving, every command that ever arrived was answered once and in order; it is cut short only while stop is not set, after at least `fuel` turns and answers |
| Announce.SpacedAndRecent | nwep/src/runtime.rs:251-264 | on a positive clock that is never set back, announces are at least 30 seconds apart and each pass ends with one less than 30 seconds old |
| Announce.PassIsGood | nwep/src/runtime.rs:258-263 | on any clock, one more pass keeps both properties exactly when it is the first, or its reading has not gone back and does not follow an announce at second zero too soon |
| Announce.RunIsGood | nwep/src/runtime.rs:251-264 | on any clock, both properties hold after every pass of a run exactly when each of its readings, given those before it, is such a one |
| Announce.ClockMatters | nwep/src/runtime.rs:260-262 | two clocks on which two announces follow too closely |
| ClientLifecycle.ReleasedOnce | nwep/src/client.rs:809-822 | over any legal calls the connection is closed at most once, each callback box freed at most once, and both exactly once by the time neither handle is left |
| ClientLifecycle.CacheOutlivesBorrow | nwep/src/client.rs:484-491 | while the connection is open the native side's cache is the one the client owns a reference to, after any mix of accepted and refused attachments |
| ClientLifecycle.HookLiveIff | nwep/src/client.rs:499-513 | the registered callback is a live box exactly when the last registration was not a refused replacement |
| ClientLifecycle.SoundIff | nwep/src/client.rs:499-513 | every demand of the native side is met in a run exactly when no tick or drop falls between a refused replacement and the next accepted registration |
| ClientLifecycle.RefusedReplacementDangles | nwep/src/client.rs:499-513 | a run in which a tick would call a freed box |
| ClientTrace.FieldsAreCalls | nwep/src/client.rs:484-513 | over any legal calls the cell of an open client and the native side's cache are the last one attached with success; as many boxes were made as hooks given, the client keeps the last, and the native side has that of the last registration it took; a handle is open, or gone, exactly by the calls that make it so |
| ClientTrace.ReferencesAreCalls | nwep/src/client.rs:484-491 | the application's variables hold exactly the cache references it made and has neither passed nor dropped: an attach takes its argument whether or not it succeeds |
| ClientOwner.Client.SetCache | nwep/src/client.rs:484-491 | the native call comes first, its code is what is returned, and the cell changes only if it succeeds; the old reference goes last, and on failure the argument's |
| ClientOwner.Client.RequestDone | nwep/src/client.rs:499-513 | the method is the lifecycle's registration: old box freed, a new one made, registered and kept |
| ClientOwner.Client.Drop | nwep/src/client.rs:809-822 | the method is the lifecycle's drop: close, free the box, then let the cache go |
| ClientOwner.Connecting.ToClient | nwep/src/client.rs:883-888 | the connection moves unclosed to a client with empty cells |
| ClientOwner.Connecting.Drop | nwep/src/client.rs:891-896 | a connection never taken is closed |
| RequestHandles.CancelledIffUnreported | nwep/src/client.rs:927-964 | over any calls an id is cancelled at most once, and exactly when its handle went without a poll having reported the end |
| RequestHandles.CancelHits | nwep/src/client.rs:944-964 | what the cancel of an unreported request hits: a result already handed out exactly when the hook was given it, one completed and kept exactly when a tick completed it with no hook, otherwise a request in flight |
| RequestHandles.StrayIffUnpolled | nwep/src/client.rs:944-964 | so a request that completed or failed is cancelled exactly when a tick completed it and the handle went without a poll having reported that |
| RequestHandles.HookedThenDropped | nwep/tests/final_surface.rs:141-160 | a run in which a request whose result the hook was given is cancelled |
| RequestHandles.RequestHandle.Poll | nwep/src/client.rs:927-942 | a poll makes one native poll, hands on its very answer, and marks the handle done exactly on a response or an error |
| RequestHandles.RequestHandle.Cancel | nwep/src/client.rs:944-956 | cancelling consumes the handle, whose own drop then issues nothing more |
| ServerLifecycle.FinishBuild | nwep/src/server.rs:794-823 | a built server owns an open handle and its one live, registered handler box; it fails exactly when the native side refused the handler, with that error, and leaves the box freed once and the handle closed once |
| ServerLifecycle.Server.Drop | nwep/src/server.rs:1219-1229 | close, then free: afterwards everything made was released exactly once with no demand broken |
| ServerLifecycle.Lifetime | nwep/src/server.rs:794-823 | the same over a whole life, whichever way the build went and however often the server ticked |
| ServerLifecycle.OrderMatters | nwep/src/server.rs:1219-1229 | freeing a registered handler before the close breaks a demand, the order used does not |
| Startup.OneVerdict | nwep/src/runtime.rs:167-225 | the owner sends at most one verdict, and the branch for a sender gone without one is never taken |
| Startup.ErrorMeansReleased | nwep/src/runtime.rs:216-224 | an error is returned as Internal before anything was spawned, or as what the failed stage reported, after the owner thread ended and released every native handle |
| Startup.OkMeansReady | nwep/src/runtime.rs:703-745 | success is returned only after every stage of its kind succeeded and the owner passed its ready point |
| StartupTrace.ReturnsTheOutcome | nwep/src/runtime.rs:167-225 | a caller is given its handle exactly when every start-up call of its kind, the dht's attach among a dht server's, was made in order and succeeded; otherwise exactly the error of the call that failed, or Internal for want of a waker or a thread |
| StartupTrace.StagesAreSteps | nwep/src/runtime.rs:167-209 | the stages passed are the start-up calls that succeeded, in order, and the failure on record is that of the one that did not |
| StartupTrace.LeavesForCause | nwep/src/runtime.rs:403-410 | an owner that started up leaves only after a failed tick, on being told, with nobody there for its verdict, or after a stream's last item, and after a failed tick or a last item takes no further turn |
| StartupTrace.PartingsAreSteps | nwep/src/runtime.rs:359-400 | a thread was spawned, a future dropped and a handle dropped exactly when the run says so |
| StartupTrace.FlagsAreSteps | nwep/src/runtime.rs:403-410 | the channel, the stop flag, the waker's signal and a stream's arrivals are those of the steps that change them |
| StartupTrace.OneByOne | nwep/src/runtime.rs:179-209 | each release drops exactly one handle, and one more ends the thread |
| Startup.ReleasedInReverse | nwep/src/runtime.rs:179-209 | the handles held, a stream's metadata message among them, are always the oldest ones built, so each is released before those it was built on |
| Startup.RunBounded | nwep/src/runtime.rs:359-400 | no run has more than 20 steps besides the turns of a serving loop |
| Startup.NeverStuck | nwep/src/runtime.rs:359-400 | until both sides are settled someone can move: neither waits for the other for ever |
| Startup.MadeToLeaveIff | nwep/src/runtime.rs:646-725 | over all runs, an owner past its ready point can be made to leave by the caller's side, with the peer silent, exactly when it is neither a server whose future was dropped nor a stream at or in its native read with nothing to return |
| Startup.ToldLeavesSoon | nwep/src/runtime.rs:403-410 | in every run after it has been told, by stop or by its channel, a server or a connection goes to its wait at most once more, and a stream has at most one more read that brings anything |
| Startup.WokenIffHandleDropped | nwep/src/runtime.rs:384-410 | a waiting connection whose last sender is gone is woken by its waker exactly when a handle was dropped; after a dropped future the timer or the socket is its only way on |
| Startup.AbandonedAfterReady | nwep/src/runtime.rs:203-208 | an owner whose future was dropped is past its ready point only if its verdict had been sent |
| Startup.ServeCanBeStranded | nwep/src/runtime.rs:203-225 | a run of a server that is ready, whose future is dropped unread, and that nothing the caller's side does can end |
| Startup.StreamCanBeStranded | nwep/src/runtime.rs:646-725 | a run of a stream whose handle was dropped during a silent read, and that nothing the caller's side does can end |
| StartupOwner.Handshake.ServeThread | nwep/src/runtime.rs:169-212 | the server's thread body, with its early returns, is a run of the handshake and ends with every handle dropped |
| StartupOwner.Handshake.ConnectThread | nwep/src/runtime.rs:369-382 | the same of the connection's thread |
| StartupOwner.Handshake.StreamThread | nwep/src/runtime.rs:672-726 | the same of the stream's thread, whose loop looks at its channel only where it sends |
| StartupOwner.Handshake.Attempt | nwep/src/runtime.rs:169-209 | the step of a start-up call is its outcome, and the owner goes on exactly when it succeeded |
| StartupOwner.Handshake.Start | nwep/src/runtime.rs:359-400 | the async function, awaited, returns what the handshake returns: Ok with every stage of its kind passed, or the error of the start-up call that failed, with the thread finished, or Internal with none spawned, and nothing held; it returns nothing only while no verdict was sent or the thread to join runs |
| StartupOwner.Handshake.Await | nwep/src/runtime.rs:213-224 | the wait for the verdict, and on an error the join, return only an error whose thread has ended, and nothing only while one of the two is still to come |
| Download.DownloadsTheFile | nwep/examples/nwdrop.rs:111-132 | for every file and every prefix already kept, the bytes held are a prefix of the file, and the loop has stopped, holding the whole file, exactly when the windows asked for reach past its end |
| Download.IgnoredRanges | nwep/examples/nwdrop.rs:67-79 | against a server that ignores ranges the loop stops exactly for files shorter than a window, with the kept prefix and the whole file after it, right exactly when nothing was kept; otherwise it repeats the file for ever |
| Download.WindowServed | nwep/src/server.rs:200-218 | an inclusive, clamped window answers with the bytes at its offset, short exactly at the end of the file and unsatisfiable exactly past it |
| Download.Download | nwep/examples/nwdrop.rs:111-132 | the loop ends with the whole file after exactly the remaining length divided by 16, plus one, requests |

## Left out

- The native library: QUIC, TLS, signatures, the Merkle log, Kademlia, the cache, uri and range parsing, Shamir arithmetic. None of that code is in the repository.
- The wrappers over it (`identity.rs`, `address.rs`, `uri.rs`, `wire.rs`, `dht.rs`, `log.rs`, `cache.rs`, `shamir.rs`, `error.rs`, `trust/*`) and `nwep-sys`: packing helpers and tables that would only add easy members.
- Tokio, eventfd, winsock and poll internals: FIFO channels, one-shot slots, a signal and a wait stand for them.
- Owner-thread panics and `catch_unwind`, allocation failure, callback re-entrancy, and failure of the waker's own descriptors after creation.
- Fairness and bounds on the inner command loops while callers keep enqueuing: the code sets none. The owner loops therefore take a `fuel` that cuts a run at an arbitrary point; every statement holds for every value of it.
- BridgeOwner.ClientLoop.Run: the loop is cut by `fuel`; that it leaves after the handle is dropped is `BridgeExit.RunBounded` and `BridgeExit.ReachesExit`, about the step system it is a run of.
- StreamOwner.StreamRun.ReadLoop: likewise cut by `fuel`, since a read may bring nothing any number of times.
- StreamOwner.StreamRun.NextItem: the item a consumer is given when none is queued may be none, standing for a wait that outlasts the stretch.
- ServerLoop.Server.Run: cut by `fuel` only while stop is not set.
- ServerLoop.Server.AnnouncePass: the announce it makes is an attempt, counted as such, as `announced_at` does: the code moves it even when the native announce failed.
- Waker.UnixWaker.Drain: wakes scheduled before a read that the loop never makes do not land; the drain has ended by then.
- Startup.MadeToLeaveIff: an owner may always leave on its own account (a failed tick, a dead connection, a read that returns), which no caller controls; such runs are the ones it sets aside. A stream's channel capacity is in `Stream`, not here.
- ServerLoop.Server.ResolveOnThread: does not look at stop, as the code does not, so a lookup under way ends by its own deadline.
- StartupOwner.Handshake.Await: may return none, standing for a caller still waiting when the stretch ends; `Startup.NeverStuck` and `Startup.RunBounded` say that it does not wait for ever.
- Feeder.Server.Run: follows the clean stop condition of the test; the example's loop, which may stop with streams unfinished, is any cut of it.
- The release build's wrapping subtraction of clock readings is modelled; the debug build panics there instead.
- `Instant::now() + timeout` overflowing for enormous timeouts, which panics.
- 64-bit widths of byte offsets and request ids, which no in-memory body or run exhausts.
- What a stream's reads return after the connection is lost beyond an error, and retries.
- `LogServer` teardown, which clears a hook on a handle it has freed: its parts are not part of this model.
- `RunningServer::node_id`, `local_port`, `AsyncStream::header` and the other accessors.
- Parsing and formatting of the `range` header, and multi-range responses.
