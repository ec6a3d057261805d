# A verified model of the bfxapi client

A Dafny model of the parts of this Bitfinex client library where a mistake is hard to see: the
WebSocket subscription buckets and their recovery, the client's connection life cycle, the event
ledgers, the classification and retrying of REST writes, and two small pieces of arithmetic.
`dafny verify dfyconfig.toml` checks everything.

## How it is built

Concurrent code is modelled as deterministic state machines. A step is the code between two
suspension points; a label carries what the program does not decide (which frame comes next, when
a socket dies, how a handshake ends, how time passes). Theorems are about every run, that is every
list of enabled labels. Objects whose methods update fields in place are classes, each method
proved against the function the state machine takes for the same step. Fields marked history
record what happened and are read by no step.

| modules | what they hold |
|---|---|
| `Frames`, `BucketState` | the dictionaries a bucket exchanges, and its state |
| `BucketSystem` | bucket, socket, FIFO queues and server as one machine |
| `BucketChannels`, `BucketIntent`, `BucketTheorems`, `BucketClosing` | no leaked channel; the caller's intent; recovery; what a closed bucket still dispatches |
| `BucketRecovery` | what a recovery sends, and what a failed send ends |
| `BucketErasure`, `ClientErasure` | that a request's parameters play no part in what buckets do; capacity and identity |
| `BucketMisuse`, `BucketReuse`, `ClientMisuse` | runs outside the discipline |
| `BucketObject`, `ClientBuckets` | the bucket as an object; the bucket table |
| `Resubscribe`, `ResubscribeLimits` | the two halves of `resubscribe`, and runs in which they break both |
| `Delay`, `Emitter` | the reconnect backoff; the once-only ledgers |
| `Lifecycle` | run loop, supervisors, `close()` and `start()` as one machine |
| `SupervisorSafety`, `CloseWins`, `CloseLimits`, `AuthGate`, `OutageDeadline`, `LeftoverOutage`, `Flapping`, `Sleeps`, `Endings`, `Revival` | what that machine keeps, and where the promises stop |
| `Announcements`, `Strays` | the same machine with subscriptions and the ledger added; buckets that read on after they were taken away |
| `BucketRooms` | that the buckets of that machine are those of `BucketSystem` |
| `GiveUp`, `Watching`, `ClientObject` | one supervisor's loop; all of them in the client's machine; the client as an object |
| `ExceptionSearch`, `ExceptionContext` | the search over linked exceptions; those of a call and those of its caller |
| `Rest`, `Retry` | the classification of REST outcomes, the retry loop |
| `Nonce`, `PlainDecimal` | the nonce generator, the number printer |

## Where the code and its promises differ

Each is a theorem below with its exact condition.

- A write that is not idempotent is promised never to be resent when it may have been applied.
  The search for a refused connection follows `__context__` out of the call, into what the caller
  is handling: a write made in the handler of a refused connection that is received, applied and
  then times out is taken for one that never reached the server, and is sent again
  (`Retry.AtMostOnceIff`, `Retry.ResentIffMisled`).
- The client's documentation says a `start()` after a completed `close()` runs normally. The outage
  record survives both a `close()` and a timeout, so such a `start()` sleeps first, or raises at
  once if the old deadline has passed (`LeftoverOutage.DialsAtOnceIff`,
  `CloseLimits.LeftoverOutageStopsStart`); after a session ended by its deadline no `start()` ever
  dials again (`LeftoverOutage.NoAttemptAfterTheDeadline`).
- `close()` documents a clean end with "disconnected". With a timeout of zero or less it can lose
  to the deadline on the going-away path (`CloseLimits.CloseIsQuietIff`).
- The authentication flag outlives a session that ended without an outage, so the next session's
  first socket passes the gate before any auth reply (`AuthGate.GateHoldsIff`,
  `AuthGate.AuthenticationSurvives`).
- A sub_id subscribed again after a confirmed one was unsubscribed gets no "subscribed", in the same
  bucket or another, until something covers it (`Announcements.AnnouncedIff`).
- A subscription parameter named `pair`, `currency`, `chan_id` or `sub_id`, or with a capital letter
  in its name, is lost by a recovery (`Frames.ReissueRoundTrip`).
- `max_delay` is documented as the cap of every retry delay; waits after a nonce error and after a
  network error have limits of their own (`Retry.CapHoldsIff`).
- The backoff repeats its first delay for ever when initial * 1.618 happens to be 1.92
  (`Delay.DelaysAreClosedForm`).
- A bucket that `unsubscribe` took away reads on until its socket is closed. A confirmation it still
  reads silences the "subscribed" that another bucket owes for the same sub_id
  (`Strays.SilencedIff`, `Strays.SilencedByAStray`).
- Only a connection that stayed up for thirty seconds is said to reset the backoff. The clock is read
  after the supervisors were stopped, so a shorter connection that is slow to leave resets it too
  (`Flapping.OutageResetsIff`, `Flapping.SlowStopResets`).
- Reusing the sub_id of a cancelled, unanswered request streams what nobody wants
  (`BucketReuse.ReuseAlwaysStreams`) and can leave a sub_id confirmed twice
  (`ClientMisuse.ReuseDuplicates`), and a `subscribe` in `resubscribe`'s window overfills the
  bucket or duplicates a sub_id (`Resubscribe.WindowClosesIff`, `Resubscribe.ResubscribeFitsIff`,
  `ResubscribeLimits`).
- `unsubscribe` of a bucket's only subscription closes the bucket. What was received before, and what
  the server sends until it has read the close, is still dispatched
  (`BucketClosing.ClosedBucketIsSilentIff`, `BucketClosing.ClientUnsubscribeIsSilent`).

## Model

| member | source | states |
|---|---|---|
| `Frames.ReissueRoundTrip` | bfxapi/websocket/_client/bfx_websocket_bucket.py:193-202 | A request, confirmed, decoded, recorded and reissued by a recovery, is the original request exactly when none of its parameters is named `pair`, `currency`, `chan_id` or `sub_id` or is one the decoder spells differently; those are lost |
| `Frames.ConfirmationIsRecordable` | bfxapi/websocket/_client/bfx_websocket_bucket.py:171-176 | What `_strip` leaves of any server confirmation of a request still has the channel and sub_id a recovery needs |
| `Frames.CleanRequest` | bfxapi/websocket/_client/bfx_websocket_bucket.py:28-36 | When a request built by `subscribe` survives every recovery unchanged, in terms of its parameters' names: none of the client's own, and no capital letter |
| `Frames.SnakeKeeps` | bfxapi/_utils/json_decoder.py:6-11 | The decoder leaves a name as it is exactly when it has no capital letter |
| `Frames.SnakePlaces` | bfxapi/_utils/json_decoder.py:6-11 | Where each character of a name goes: in lower case, with an underscore before each capital but a leading one, and nothing else |
| `Frames.RenamedIsFinal` | bfxapi/_utils/json_decoder.py:6-11 | A name the decoder produced, decoded again, stays as it is |
| `BucketChannels.NoLeakedChannel` | bfxapi/websocket/_client/bfx_websocket_bucket.py:148-242 | In every reachable state of bucket, socket and server, for any interleaving of calls, confirmations, recoveries, closes and deaths, while the server serves the socket: its open channels are the disjoint union of the map's keys, the channels whose confirmation is in flight and those whose unsubscribe is |
| `BucketChannels.QuietSidesAgree` | bfxapi/websocket/_client/bfx_websocket_bucket.py:148-242 | With both queues empty the server streams exactly the channels in the map, and as many as the map has entries |
| `BucketChannels.StepKeepsAccounts` | bfxapi/websocket/_client/bfx_websocket_bucket.py:95-242 | The channel accounting is kept by every single step, including a death between any two frames or two sends of a recovery |
| `BucketChannels.RunKeepsAccounts` | bfxapi/websocket/_client/bfx_websocket_bucket.py:95-242 | The channel accounting holds over whole runs |
| `BucketIntent.StepKeepsTrack` | bfxapi/websocket/_client/bfx_websocket_bucket.py:148-242 | Every step of a disciplined caller keeps the balance between pendings, confirmed requests, cancellations, unanswered frames and what the caller wants |
| `BucketTheorems.RunKeepsTrack` | bfxapi/websocket/_client/bfx_websocket_bucket.py:148-242 | The balance holds over whole disciplined runs, with arbitrary socket deaths |
| `BucketTheorems.DisciplineIsNeeded` | bfxapi/websocket/_client/bfx_websocket_bucket.py:153-169 | On a live socket an accepted request keeps the balance of `BucketIntent` if and only if its sub_id is neither held nor awaiting the answer to a cancelled request and its parameters survive a recovery |
| `BucketTheorems.EveryAnswerIsExpected` | bfxapi/websocket/_client/bfx_websocket_bucket.py:148-169 | Every unanswered subscribe frame is there once, and its sub_id is either pending or cancelled, never both and never neither |
| `BucketTheorems.QuiescentSetIsWanted` | bfxapi/websocket/_client/bfx_websocket_bucket.py:148-242 | With nothing left to answer on a live socket the confirmed requests are, as a multiset, those accepted and not unsubscribed since; with no unsubscribe in flight the server streams exactly that many channels |
| `BucketTheorems.RecoveryConserves` | bfxapi/websocket/_client/bfx_websocket_bucket.py:180-206 | Any number of deaths, recoveries interrupted anywhere, closes and sessions that reopen the bucket leave the multiset of requests held (sub_id, channel, parameters) unchanged, and the confirmed ones too once all are confirmed |
| `BucketTheorems.DeliveryIsWanted` | bfxapi/websocket/_client/bfx_websocket_bucket.py:140-146 | A data frame goes only to a sub_id that is wanted, on a channel id picked on the current socket |
| `BucketTheorems.EveryDeliveryIsWanted` | bfxapi/websocket/_client/bfx_websocket_bucket.py:140-146 | The same for every data frame of every disciplined run: none is dispatched under a channel id of an earlier socket |
| `BucketTheorems.SilentAfterUnsubscribe` | bfxapi/websocket/_client/bfx_websocket_bucket.py:223-242 | After `unsubscribe` no data frame is dispatched for that sub_id in any continuation that does not subscribe it again |
| `BucketRecovery.RecoveryCompletes` | bfxapi/websocket/_client/bfx_websocket_bucket.py:180-206 | From every state without a socket, once the owner lets the bucket run, a recovery that meets no failure sends every request held, pending ones first and in order, then the configuration, on a fresh socket, and reads on with everything pending |
| `BucketRecovery.FailedSendEndsIt` | bfxapi/websocket/_client/bfx_websocket_bucket.py:180-211 | A send of a recovery that finds the socket dead leaves the bucket what it held, with no socket and nothing left to send |
| `BucketRecovery.FailedCallEndsIt` | bfxapi/websocket/_client/bfx_websocket_bucket.py:213-242 | A request whose send finds the socket dead stays pending for the next socket |
| `BucketClosing.ClosedBucketIsSilentIff` | bfxapi/websocket/_client/bfx_websocket_bucket.py:255-261 | After `close()` on a bucket, in every state, unless a session reopens it: a sub_id can still be handed data if and only if the message loop is running and either a frame received already is for it, or the server still serves the socket and, with what was received read to its end, the sub_id has a channel or a request the server will answer |
| `BucketClosing.ClosedBucketServesItsOwn` | bfxapi/websocket/_client/bfx_websocket_bucket.py:255-261 | Closed on a live socket that is being read, with no cancellation open, no restart unread and no channel 0 given out, a disciplined bucket can still hand data to exactly the sub_ids it holds, confirmed or pending |
| `BucketClosing.ClientUnsubscribeIsSilent` | bfxapi/websocket/_client/bfx_websocket_client.py:809-818 | The client's `unsubscribe` in every reachable state: a bucket that holds more goes on without a data frame for the sub_id; one that held nothing else is closed, and silent exactly under the condition of a closed bucket |
| `BucketMisuse.ReuseStreamsUnwanted` | bfxapi/websocket/_client/bfx_websocket_bucket.py:153-169 | A reachable run: a sub_id reused and cancelled again before its first answer leaves a channel open and recorded that nobody wants |
| `BucketReuse.ReuseAlwaysStreams` | bfxapi/websocket/_client/bfx_websocket_bucket.py:153-169 | From every state of a disciplined run with a cancelled, unanswered sub_id: subscribed and unsubscribed once more, it is recorded for a caller who wants nothing as soon as the socket has answered everything |
| `BucketMisuse.ReuseLosesWanted` | bfxapi/websocket/_client/bfx_websocket_bucket.py:153-169 | A reachable run: the same reuse, not cancelled again, loses a wanted subscription when the socket dies |
| `BucketObject.BfxWebSocketBucket.constructor` | bfxapi/websocket/_client/bfx_websocket_bucket.py:56-78 | A new bucket is the empty bucket the protocol starts from |
| `BucketObject.BfxWebSocketBucket.Ids` | bfxapi/websocket/_client/bfx_websocket_bucket.py:89-93 | `ids` lists every pending and every confirmed sub_id, and as many as `count` says |
| `BucketObject.BfxWebSocketBucket.HasId` | bfxapi/websocket/_client/bfx_websocket_bucket.py:263-277 | `has` is true of the pending and the confirmed sub_ids and of no other |
| `BucketObject.BfxWebSocketBucket.Opened` | bfxapi/websocket/_client/bfx_websocket_bucket.py:95-114 | A socket that came up either serves, with its recovery begun, or finds the bucket closed and changes nothing |
| `BucketObject.BfxWebSocketBucket.RecoverState` | bfxapi/websocket/_client/bfx_websocket_bucket.py:180-205 | The recovery empties cancellations and confirmations and makes everything pending, in order, before anything is sent |
| `BucketObject.BfxWebSocketBucket.Subscribe` | bfxapi/websocket/_client/bfx_websocket_bucket.py:213-221 | `subscribe` appends exactly the frame it sends: the caller's channel and parameters, and the caller's sub_id unless that is empty |
| `BucketObject.BfxWebSocketBucket.Unsubscribe` | bfxapi/websocket/_client/bfx_websocket_bucket.py:223-242 | In-place `unsubscribe` is the protocol's transition: the first pending request of the id is cancelled, or else its confirmed channels are deleted and closed |
| `BucketObject.BfxWebSocketBucket.CancelPending` | bfxapi/websocket/_client/bfx_websocket_bucket.py:225-233 | The loop over the pendings removes the first request of the id and records the cancellation, or changes nothing |
| `BucketObject.BfxWebSocketBucket.DropConfirmed` | bfxapi/websocket/_client/bfx_websocket_bucket.py:235-242 | The loop over the channels deletes each match before its frame is sent; a dead socket ends the loop after the first |
| `BucketObject.BfxWebSocketBucket.OnSubscribed` | bfxapi/websocket/_client/bfx_websocket_bucket.py:148-178 | A confirmation is refused with an unsubscribe if cancelled, else recorded and announced, with the new state in full |
| `BucketObject.BfxWebSocketBucket.Record` | bfxapi/websocket/_client/bfx_websocket_bucket.py:176 | Assignment to a dictionary key: in place if the channel is known, at the end if not |
| `BucketErasure.StepErases` | bfxapi/websocket/_client/bfx_websocket_bucket.py:148-242 | Whatever a bucket does with a request, it does with one that has no parameters: forgetting them maps every step to a step |
| `ClientErasure.CapacityAndIdentity` | bfxapi/websocket/_client/bfx_websocket_client.py:769-807 | In every reachable state, whatever the requests' parameters and however many `subscribe` calls are suspended, each bucket holds at most 25 subscriptions although the test is for equality, and no sub_id occurs twice across all buckets, as long as no sub_id is reused before its cancelled request is answered |
| `ClientMisuse.ReuseDuplicates` | bfxapi/websocket/_client/bfx_websocket_client.py:769-807 | A reachable run of the client: a sub_id reused before its cancelled request is answered ends confirmed twice in one bucket |
| `ClientBuckets.BucketTable.Subscribe` | bfxapi/websocket/_client/bfx_websocket_client.py:781-792 | One pass of the loop: refused exactly when some bucket has the sub_id, else placed in the first open bucket with room, else full |
| `ClientBuckets.BucketTable.Unsubscribe` | bfxapi/websocket/_client/bfx_websocket_client.py:809-823 | The loop finds the first bucket with the sub_id, removes the bucket if it was its last, and knows the sub_id exactly when some bucket has it |
| `Resubscribe.WindowClosesIff` | bfxapi/websocket/_client/bfx_websocket_bucket.py:245-253 | The second half of a `resubscribe` keeps the capacity if and only if the window left a slot free, and the sub_ids distinct if and only if nobody took its own |
| `Resubscribe.CapacityWithResubscribe` | bfxapi/websocket/_client/bfx_websocket_client.py:824-832 | With `resubscribe` among the calls, capacity and identity hold in every run whose second halves find their slot and their sub_id free |
| `Resubscribe.ResubscribeFitsIff` | bfxapi/websocket/_client/bfx_websocket_bucket.py:245-253 | With nothing dropped in the window, the bucket ends within its capacity if and only if what it held and the subscriptions the window accepted fit together |
| `Resubscribe.WindowsFollowCalls` | bfxapi/websocket/_client/bfx_websocket_bucket.py:245-253 | A window stays with its bucket whatever other bucket leaves the table meanwhile, and goes with it |
| `Resubscribe.PastCapacityRefusesNobody` | bfxapi/websocket/_client/bfx_websocket_bucket.py:84-86 | The test is for equality: with a live bucket past its capacity no pass ever finds the client full |
| `ResubscribeLimits.OverfilledBucket` | bfxapi/websocket/_client/bfx_websocket_bucket.py:245-253 | A reachable live bucket with 26 subscriptions |
| `ResubscribeLimits.DuplicatedId` | bfxapi/websocket/_client/bfx_websocket_bucket.py:245-253 | A reachable live bucket that holds a sub_id twice |
| `Emitter.LedgerIsHistory` | bfxapi/websocket/_event_emitter/bfx_event_emitter.py:96-144 | For every sequence of emits and resets: an event is suppressed if and only if it is one of the eight per-connection events and occurred since the last reset of the connection, or one of the eight per-subscription events and occurred for the same sub_id since the last reset of the connection or of that sub_id |
| `Emitter.SubscriptionsApart` | bfxapi/websocket/_event_emitter/bfx_event_emitter.py:136-142 | Whatever is emitted for one subscription, each of the eight per-subscription events stays as deliverable as it was for every other, and the one emitted is suppressed for its own |
| `Emitter.ConnectionEventsOnce` | bfxapi/websocket/_event_emitter/bfx_event_emitter.py:129-134 | Each of the eight per-connection events, once emitted, is suppressed for every sub_id until the connection is reset, and deliverable then |
| `Emitter.OthersAlwaysDelivered` | bfxapi/websocket/_event_emitter/bfx_event_emitter.py:129-144 | No other event is ever suppressed |
| `Emitter.OtherLedgersUntouched` | bfxapi/websocket/_event_emitter/bfx_event_emitter.py:119-127 | A reset for some sub_ids changes nothing for any other sub_id, nor for the once-per-connection events |
| `Emitter.BfxEventEmitter.EmitEvent` | bfxapi/websocket/_event_emitter/bfx_event_emitter.py:129-144 | Delivers a listed event exactly if its own ledger lacks it and any other always, and records it in place |
| `Emitter.BfxEventEmitter.ResetConnectionScope` | bfxapi/websocket/_event_emitter/bfx_event_emitter.py:96-117 | Clears both ledgers |
| `Emitter.BfxEventEmitter.ResetSubscriptionScope` | bfxapi/websocket/_event_emitter/bfx_event_emitter.py:119-127 | The loop removes the rows of exactly the given sub_ids |
| `Delay.DelaysAreClosedForm` | bfxapi/websocket/_client/bfx_websocket_client.py:105-127 | Every delay after a reset is min(initial * 1.618^k, 60) if and only if initial * 1.618 is not the sentinel 1.92 |
| `Delay.DelaysNeverDecrease` | bfxapi/websocket/_client/bfx_websocket_client.py:105-127 | Delays never decrease and lie between one second and the cap, stuck at the sentinel or not |
| `Delay.CapIsReached` | bfxapi/websocket/_client/bfx_websocket_client.py:115-120 | From the tenth delay after a reset on the delay is 60 seconds, unless initial * 1.618 is the sentinel |
| `Delay.DelayTimer.Next` | bfxapi/websocket/_client/bfx_websocket_client.py:115-127 | In place: returns the next delay of the sequence since the last reset |
| `Delay.DelayTimer.Reset` | bfxapi/websocket/_client/bfx_websocket_client.py:129-130 | In place: the sequence starts again with the same initial delay |
| `SupervisorSafety.OneSupervisorPerBucket` | bfxapi/websocket/_client/bfx_websocket_client.py:448-453 | In every reachable state, across outages, sessions and concurrent subscribes, two live supervisors of one bucket are the same |
| `SupervisorSafety.NoneOutlives` | bfxapi/websocket/_client/bfx_websocket_client.py:239-247 | No bucket of the table has a live supervisor once `start()` has returned, while the client has no socket, or once a `close()` has returned and no session began since |
| `SupervisorSafety.UnsubscribedNeverOpens` | bfxapi/websocket/_client/bfx_websocket_client.py:809-816 | A bucket that `unsubscribe` took away opens no socket in any continuation, and never returns to the table |
| `SupervisorSafety.StepIsSafe` | bfxapi/websocket/_client/bfx_websocket_client.py:249-365 | Every step of run loop, supervisors, `close()`, `subscribe` and `unsubscribe` keeps the supervisor invariant |
| `SupervisorSafety.GoneForGood` | bfxapi/websocket/_client/bfx_websocket_client.py:535-544 | From any state in which a bucket was taken away, no run brings it back |
| `CloseWins.NoAttemptAfterClose` | bfxapi/websocket/_client/bfx_websocket_client.py:834-852 | Wherever the client was when `close()` was called, no connection attempt begins until `start()` is called again; a `start()` called before and first run after the close never connects |
| `CloseWins.CloseIsQuiet` | bfxapi/websocket/_client/bfx_websocket_client.py:259-365 | With timeout None or positive and outcomes `__run` handles, a `start()` on which a close landed ends by returning, with exactly one "disconnected" |
| `CloseWins.CloseIsAnswered` | bfxapi/websocket/_client/bfx_websocket_client.py:834-852 | After the close the run loop takes a bounded number of steps whatever else happens, and until it returned it can take one or waits only for its dying socket |
| `CloseWins.RunEnds` | bfxapi/websocket/_client/bfx_websocket_client.py:249-365 | The bound is a rank that every run-loop step lowers and no other step raises |
| `LeftoverOutage.DialsAtOnceIff` | bfxapi/websocket/_client/bfx_websocket_client.py:259-278 | Whatever the sessions before, a `start()` no close landed on dials at once if and only if no connection was lost since the client's last socket came up |
| `LeftoverOutage.OutageIsALoss` | bfxapi/websocket/_client/bfx_websocket_client.py:385-402 | An outage is left over exactly by a loss (or a server going away) with no socket of the client's since, over every run |
| `LeftoverOutage.NoAttemptAfterTheDeadline` | bfxapi/websocket/_client/bfx_websocket_client.py:416-429 | Once a session was ended by its deadline no later `start()` makes an attempt, in any continuation |
| `Endings.EndOfAConnection` | bfxapi/websocket/_client/bfx_websocket_client.py:280-365 | What follows a connection, by how it ended, whether the client was closing, and whether time is left: another sleep, an error, a return with "disconnected", or a crash |
| `Endings.EndOfAnAttempt` | bfxapi/websocket/_client/bfx_websocket_client.py:280-337 | The same of an attempt that failed in its handshake: during an outage OSError, a garbled reply, 408, 429 and 5xx are followed by another attempt while time is left, anything else is raised |
| `Endings.LostConnectionSleepsIff` | bfxapi/websocket/_client/bfx_websocket_client.py:368-376 | In every run a connection lost without a close frame or closed with 1006 or 1012 is followed by a sleep exactly if the timeout leaves time; with any other code it ends `start()` with an error |
| `Endings.OutageBegins` | bfxapi/websocket/_client/bfx_websocket_client.py:385-414 | An outage that begins has its deadline counted from now, one attempt, no authentication and no connection time |
| `Endings.EndOfStopping` | bfxapi/websocket/_client/bfx_websocket_client.py:448-453 | Stopping the supervisors decides nothing: what follows is the same once the last of them has stopped |
| `Endings.FailedAttemptIsCounted` | bfxapi/websocket/_client/bfx_websocket_client.py:318-334 | A failed attempt of an outage adds one to its count and changes nothing else of it |
| `Endings.WaitedForTheBuckets` | bfxapi/websocket/_client/bfx_websocket_client.py:600-640 | A client closed while it waited for its buckets hangs up, without an error; any other reads its socket |
| `Revival.ReconnectSupervisesAll` | bfxapi/websocket/_client/bfx_websocket_client.py:600-628 | In every reachable state in which the client's socket comes up: every bucket of the table gets exactly one new supervisor, ready to begin and named by the table, no other task is touched, and a client that is closing gets none |
| `Revival.EveryBucketComesBack` | bfxapi/websocket/_client/bfx_websocket_client.py:600-628 | From there each bucket of the table can be taken by its supervisor to its next socket |
| `Revival.SessionReopens` | bfxapi/websocket/_client/bfx_websocket_client.py:249-257 | Whatever the sessions before: when one begins no bucket of the table is shut, none taken away is opened, and the backoff begins afresh |
| `Revival.ClosedIsShut` | bfxapi/websocket/_client/bfx_websocket_client.py:834-852 | In every reachable state a `close()` that has been through the buckets has left none of the table open |
| `Revival.CloseWaitsForTheSocket` | bfxapi/websocket/_client/bfx_websocket_client.py:834-852 | `close()` returns no sooner than its socket is down |
| `Revival.ShutNeitherDialsNorServes` | bfxapi/websocket/_client/bfx_websocket_bucket.py:95-107 | A bucket that is shut neither dials nor serves: its supervisor ends |
| `Revival.DiscardedBucketEnds` | bfxapi/websocket/_client/bfx_websocket_client.py:703-742 | A new bucket that did not open in time or whose caller was cancelled leaves the table shut, and its supervisor is cancelled with it or next |
| `CloseWins.StepIsGood` | bfxapi/websocket/_client/bfx_websocket_client.py:222-365 | "disconnected" is emitted by the step that returns and by no other, and a landed close is heeded, step by step |
| `CloseLimits.CloseIsQuietIff` | bfxapi/websocket/_client/bfx_websocket_client.py:326-341 | A closed `start()` always returns with one "disconnected" if and only if the timeout is None or positive |
| `CloseLimits.CloseLosesToTheDeadline` | bfxapi/websocket/_client/bfx_websocket_client.py:331-341 | For every timeout of zero or less, a reachable run in which `close()` lands while a supervisor is awaited on the going-away path and `start()` raises with no "disconnected" |
| `CloseLimits.LeftoverOutageStopsStart` | bfxapi/websocket/_client/bfx_websocket_client.py:211-220 | For every positive timeout, a reachable run in which a `start()` after a completed `close()` raises at once: the outage the close interrupted was never cleared |
| `AuthGate.GateHoldsIff` | bfxapi/websocket/_connection.py:74-91 | Within a session, through any number of outages, whenever the authentication and open checks both pass the current socket has received an OK auth reply, if and only if the session did not begin with the flag set |
| `AuthGate.AuthenticationSurvives` | bfxapi/websocket/_client/bfx_websocket_client.py:385-402 | A session that begins with the flag set is reachable: only an outage clears it, not the end of a session |
| `AuthGate.StepIsGated` | bfxapi/websocket/_client/bfx_websocket_client.py:385-402 | An outage clears the flag and lasts until the socket that ends it, at every step |
| `OutageDeadline.OutageIsBounded` | bfxapi/websocket/_client/bfx_websocket_client.py:385-414 | In every reachable state an outage begun at t has the deadline t + T, its sleep does not pass it, and it has seen fewer than T attempts |
| `OutageDeadline.AttemptsPrecedeTheDeadline` | bfxapi/websocket/_client/bfx_websocket_client.py:259-278 | Every attempt made during an outage begins strictly before t + T and is counted |
| `OutageDeadline.OutagesAreIndependent` | bfxapi/websocket/_client/bfx_websocket_client.py:385-397 | An outage is never replaced or extended while it lasts, and one after a recovery counts from its own loss |
| `OutageDeadline.DeadlineEndsTheOutage` | bfxapi/websocket/_client/bfx_websocket_client.py:416-429 | An outage that lasts to its deadline is woken by then and ends the run with an error |
| `Sleeps.SleepIsTheDelay` | bfxapi/websocket/_client/bfx_websocket_client.py:259-270 | In every reachable state in which the run loop sleeps, the sleep is the delay of the backoff drawn for it, in whole seconds, or what the outage had left when it began, if that was less |
| `Flapping.OutageResetsIff` | bfxapi/websocket/_client/bfx_websocket_client.py:404-414 | In every run, an outage that begins resets the backoff if and only if the uptime of the connection and the time it took since to leave it and to stop the supervisors come to thirty seconds together |
| `Flapping.FlappingSlowsDown` | bfxapi/websocket/_client/bfx_websocket_client.py:404-414 | Through any stretch of a session in which every lost connection was up for less than thirty seconds minus d, and was left within d, the backoff is never reset: the delays drawn only grow by new ones, and never decrease |
| `Flapping.SleepsNeverShrink` | bfxapi/websocket/_client/bfx_websocket_client.py:259-270 | Through such a stretch a sleep that its deadline does not cut short is no shorter than any before it |
| `Flapping.SlowStopResets` | bfxapi/websocket/_client/bfx_websocket_client.py:404-414 | A reachable run: a connection up for 25 seconds whose supervisor takes six to stop resets the backoff |
| `OutageDeadline.StepMoves` | bfxapi/websocket/_client/bfx_websocket_client.py:259-365 | What each step may do to the outage, its attempts and the backoff |
| `Announcements.EveryReturnIsAnnounced` | bfxapi/websocket/_client/bfx_websocket_client.py:487-491 | In every reachable state, for every subscription a bucket brought to its current socket and still holds: it was told there at most once, and until it is confirmed not at all; its "subscribed" will then be delivered unless a bucket out of the table confirmed the same sub_id since the last reset that covers it, and exactly so |
| `Strays.ReturnIsToldIff` | bfxapi/websocket/_client/bfx_websocket_bucket.py:171-178 | A subscription confirmed on the socket it was brought to, and held there at any later point, has been told exactly once if no bucket out of the table had confirmed its sub_id since it was last covered, and not at all if one had |
| `Strays.SilencedIff` | bfxapi/websocket/_client/bfx_websocket_client.py:809-818 | In every reachable state, while the confirmation of such a subscription is awaited: it can still be silenced if and only if a stray confirmation stands or a bucket out of the table still reads its socket and holds the same sub_id pending |
| `Strays.SilencedByAStray` | bfxapi/websocket/_client/bfx_websocket_client.py:809-818 | A reachable run of acts: a bucket brings a subscription back, confirms it, and "subscribed" is never delivered, because a bucket `unsubscribe` took away read its own confirmation first |
| `Announcements.NextSocketOwesEverything` | bfxapi/websocket/_client/bfx_websocket_bucket.py:180-206 | Whatever brings the bucket back, and however long it takes, its next socket owes exactly what the bucket held when the last one died |
| `Announcements.RestartTouchesOnlyItsOwn` | bfxapi/websocket/_client/bfx_websocket_client.py:487-491 | A bucket-only restart forgets the announcements of that bucket's subscriptions and leaves every other bucket's as they were |
| `Announcements.AnnouncedIff` | bfxapi/websocket/_event_emitter/bfx_event_emitter.py:129-144 | In every run, a confirmation delivers "subscribed" if and only if no earlier confirmation of the sub_id, in whatever bucket, in the table or taken away, and on whatever socket, stands since the last act that covers it: a new socket of the client's, or a restart of a bucket then holding the sub_id |
| `Announcements.FirstIsAnnounced` | bfxapi/websocket/_event_emitter/bfx_event_emitter.py:129-144 | A sub_id never confirmed before is always announced |
| `Announcements.ReuseIsSilent` | bfxapi/websocket/_event_emitter/bfx_event_emitter.py:136-142 | The uncovered case exists in every state: a sub_id confirmed, unsubscribed and subscribed again will have its second "subscribed" suppressed |
| `Announcements.ActKeeps` | bfxapi/websocket/_client/bfx_websocket_client.py:600-628 | Every act of client, buckets (in the table or not), server and owner keeps the announcement invariant |
| `BucketRooms.BucketIsARoom` | bfxapi/websocket/_client/bfx_websocket_bucket.py:148-242 | Every disciplined run of bucket, socket and server, seen by its sub_ids, is a run of a bucket of `Announcements`: each act meets its guard there, both hold the same sub_ids in the same order, and "subscribed" is emitted exactly for what is confirmed there |
| `GiveUp.Supervise` | bfxapi/websocket/_client/bfx_websocket_client.py:455-514 | Over any sequence of attempt outcomes: gives up at the first attempt after which five failures stand and only then; never if every attempt returned, lost its socket, failed in the network or was refused with 408, 429 or 5xx; at the fifth if five attempts end in bugs or other refusals without a stable run; and sleeps the right delay after every other attempt |
| `GiveUp.TallyIsHistory` | bfxapi/websocket/_client/bfx_websocket_client.py:473-509 | The count is the number of bugs and of refusals other than 408, 429 and 5xx that no stable run has followed or ended in; drops neither count nor reset it |
| `GiveUp.SinceIsTheDistance` | bfxapi/websocket/_client/bfx_websocket_client.py:499-511 | Each sleep's place in the backoff is its distance from the last stable run |
| `Watching.GivesUpAtTheFifth` | bfxapi/websocket/_client/bfx_websocket_client.py:455-533 | In every run of the client with all its supervisors: an attempt counts as stable exactly if its own supervisor was on a socket for thirty seconds by its end, and a supervisor gives up exactly if its bucket is still wanted and the failures no stable attempt has followed or ended in number five |
| `Watching.DropsNeverGiveUp` | bfxapi/websocket/_client/bfx_websocket_client.py:473-485 | In every run no supervisor gives up on attempts that all returned or were dropped |
| `Watching.FiveFailuresGiveUp` | bfxapi/websocket/_client/bfx_websocket_client.py:499-514 | A supervisor whose five attempts all ended in bugs or meant refusals, none stable, gives up while its bucket is wanted |
| `Watching.GivingUpLeavesTheBucket` | bfxapi/websocket/_client/bfx_websocket_client.py:516-533 | The bucket of a supervisor that gave up stays in the table, with no entry and no other supervisor |
| `Watching.WakesToDial` | bfxapi/websocket/_client/bfx_websocket_client.py:511-514 | A supervisor that wakes dials again exactly if its bucket is still wanted |
| `Watching.UptimeCounts` | bfxapi/websocket/_client/bfx_websocket_bucket.py:279-282 | A bucket's uptime grows with the clock until its next opening, and begins anew there |
| `Watching.UptimeBegins` | bfxapi/websocket/_client/bfx_websocket_bucket.py:107-111 | It is nothing when the supervisor goes on its socket |
| `Watching.AnyAttemptCanEnd` | bfxapi/websocket/_client/bfx_websocket_client.py:469-486 | An attempt can end before its socket came up or after, and in any way |
| `Watching.WatchedIsARun` | bfxapi/websocket/_client/bfx_websocket_client.py:455-533 | Such a run is a run of the client's machine, so all its other properties hold of it |
| `ClientObject.BfxWebSocketClient.constructor` | bfxapi/websocket/_client/bfx_websocket_client.py:134-204 | A new client is the state machine's initial state |
| `ClientObject.BfxWebSocketClient.BeginOutage` | bfxapi/websocket/_client/bfx_websocket_client.py:385-414 | In place: fresh deadline, flag cleared, backoff reset only after a stable connection; equal to the state machine's step |
| `ClientObject.BfxWebSocketClient.TimeLeft` | bfxapi/websocket/_client/bfx_websocket_client.py:416-429 | The error exactly when the deadline has passed, else what is left of it |
| `ClientObject.BfxWebSocketClient.BeginSession` | bfxapi/websocket/_client/bfx_websocket_client.py:249-257 | In place, with the loop over the buckets: the closing flags are cleared, every bucket of the table may run again and no other |
| `ClientObject.BfxWebSocketClient.CancelAll` | bfxapi/websocket/_client/bfx_websocket_client.py:239-247 | The loop of the `finally` empties every entry of the table and cancels exactly the supervisors found there |
| `ClientObject.BfxWebSocketClient.SuperviseAll` | bfxapi/websocket/_client/bfx_websocket_client.py:625-628 | The loop gives every bucket of the table one new supervisor |
| `ClientObject.BfxWebSocketClient.StopBucket` | bfxapi/websocket/_client/bfx_websocket_client.py:448-453 | The entry is emptied and its supervisor cancelled |
| `ClientObject.BfxWebSocketClient.CallClose` | bfxapi/websocket/_client/bfx_websocket_client.py:840-843 | In place: the closing flag, the epoch and the close request, in one step |
| `ClientObject.BfxWebSocketClient.SocketOpens` | bfxapi/websocket/_client/bfx_websocket_client.py:600-628 | In place: the outage is over and the connection time noted; unless a close is under way every bucket of the table gets one new supervisor that the table names, and no other task is touched |
| `ExceptionSearch.NeverReachedServer` | bfxapi/rest/_interface/middleware.py:143-163 | On every finite graph of linked exceptions, cyclic or not, the worklist loop terminates and answers true if and only if the root is a ConnectTimeout or a refused connection is reachable through args, cause, context or a MaxRetryError's reason |
| `ExceptionSearch.LinksAre` | bfxapi/rest/_interface/middleware.py:155-162 | The search goes from an exception exactly to its arguments, its cause, its context and, of a MaxRetryError, its reason |
| `ExceptionContext.ForeignIsHandled` | bfxapi/rest/_interface/middleware.py:159-162 | A search that finds a refusal from outside the call found it through the exception its caller was handling |
| `ExceptionContext.HandledIsForeign` | bfxapi/rest/_interface/middleware.py:159-162 | A refusal in reach of the exception being handled is found by the search from any exception of the call that leads there |
| `Rest.WritesAre` | bfxapi/rest/_interface/middleware.py:116-140 | A call is a write if and only if it is a POST to `auth/w/...` or `v2/auth/w/...` after any number of slashes |
| `Rest.UnknownIffMayApply` | bfxapi/rest/_interface/middleware.py:166-194 | For a write, a network error is marked unknown exactly when the write may have been applied, but for three named families: a failure that is always the same (too many redirects) after the request was received, a search misled by an exception from outside the call, and requests not received whose exceptions do not say so |
| `Rest.RetryableIffMisled` | bfxapi/rest/_interface/middleware.py:166-194 | A write that may have been applied raises a network error marked retryable if and only if a refusal from outside the call is in reach |
| `Rest.RaisesWhat` | bfxapi/rest/_interface/middleware.py:248-413 | The error of every exchange, case by case: what is never sent, failed connections, other transport errors, and replies by status and body, the error codes spelled out |
| `Rest.LimitAsks` | bfxapi/rest/_interface/middleware.py:293-300 | What a rate limit asks to wait: Retry-After, else the time to the reset, else a minute, and never less than a second |
| `Rest.Middleware.Post` | bfxapi/rest/_interface/middleware.py:248-290 | The error each exchange raises, in full, the error codes spelled out, and the two fields only a reply updates |
| `Rest.Middleware.ProcessResponse` | bfxapi/rest/_interface/middleware.py:302-413 | The classification of a reply in the source's order, the error codes spelled out, and the fields it updates |
| `Rest.NetworkError` | bfxapi/rest/exceptions.py:138-146 | An error whose outcome is unknown is never retryable |
| `Retry.RetryWithBackoff` | bfxapi/rest/retry.py:118-169 | The number of calls (at most `max_attempts`), that every call but the last failed retryably, one sleep between consecutive calls and how long each is, and what is raised |
| `Retry.StopsOnce` | bfxapi/rest/retry.py:147-169 | The outcomes, the limit and the flag determine the number of calls |
| `Retry.CallsAgainIff` | bfxapi/rest/retry.py:49-88 | After which exchanges the loop calls again, by what happened on the wire, for reads and writes, idempotent or not |
| `Retry.ErrorListIsRetriedIff` | bfxapi/rest/retry.py:63-88 | With attempts left and without `idempotent`, an error list is followed by another call if and only if its code is 10010, 11010 or 10114 |
| `Retry.RetryableAre` | bfxapi/rest/retry.py:49-88 | Which errors are worth another call, class by class |
| `Retry.WaitsAre` | bfxapi/rest/retry.py:91-115 | The wait after each class of error: what a rate limit asks, a second for nonces, Retry-After or growing steps after network errors |
| `Retry.DefaultWaitDoubles` | bfxapi/rest/retry.py:91-115 | Any other wait begins at the base delay and doubles until it reaches the cap |
| `Retry.WriteAppliedAtMostOnce` | bfxapi/rest/retry.py:63-88 | If the exchange applies nothing it did not receive or answers with an error list, 429 or 4xx, and no refused connection is in reach of what the caller is handling, no run of the loop on a non-idempotent write applies it twice: only the last call can have applied it |
| `Retry.AtMostOnceIff` | bfxapi/rest/retry.py:118-169 | No run applies a write twice, whatever exchange and network do, if and only if one attempt is allowed, or the call is not declared idempotent and its caller is handling nothing from which a refused connection is in reach |
| `Retry.ResentWasNotApplied` | bfxapi/rest/retry.py:63-88 | A write the loop sends again without `idempotent` was not applied, where the caller is handling no refusal |
| `Retry.ResentIffMisled` | bfxapi/rest/retry.py:63-88 | A write that was applied is sent again without `idempotent` if and only if a refusal from outside the call is in reach of its exception |
| `Retry.CapHoldsIff` | bfxapi/rest/retry.py:91-115 | Every delay is within `max_delay` if and only if it is at least a second, and at least a minute or the base delay not positive |
| `Nonce.NonceIsCeiling` | bfxapi/_utils/nonce.py:24-40 | For any clock, even one going backwards: the n-th nonce is the maximum of start + n and clock_i + n - i over all i up to n |
| `Nonce.NoncesIncrease` | bfxapi/_utils/nonce.py:24-40 | Nonces strictly increase in the order the lock is taken, whoever draws them |
| `Nonce.NonceGenerator.NextNonce` | bfxapi/_utils/nonce.py:28-40 | In place: the next nonce of that sequence |
| `Nonce.NonceGenerator.ResolveNonce` | bfxapi/_utils/nonce.py:43-85 | A provider's answer is used if it is a positive int and is an error otherwise, and draws nothing; without a provider the generator is drawn from |
| `PlainDecimal.PlainRoundTrip` | bfxapi/_utils/json_encoder.py:53-71 | For every finite decimal: the text has no exponent, no trailing fractional zero, no leading zero and is never "-0", and reads back as the same value |
| `PlainDecimal.SameTextIffSameValue` | bfxapi/_utils/json_encoder.py:60-71 | Two decimals print alike if and only if they are equal |
| `PlainDecimal.PlainReads` | bfxapi/_utils/json_encoder.py:60-71 | Exactly what the text reads back as: the stripped number, without the sign of a zero |
| `PlainDecimal.OnlyFiniteIsPrinted` | bfxapi/_utils/json_encoder.py:53-71 | A number is printed if and only if it is finite; a NaN or an infinity is the error |

## Left out

- BucketTheorems.RunKeepsTrack: assumes callers do not reuse the sub_id of a cancelled, unanswered request and do not call `resubscribe`; `BucketTheorems.DisciplineIsNeeded` and `BucketReuse` show why.
- ClientErasure.CapacityAndIdentity: no reuse of the sub_id of a cancelled, unanswered request; `ClientMisuse.ReuseDuplicates` shows why. A new bucket discarded after it failed to open may take along a subscription another `subscribe` put there, which keeps capacity and identity but not that caller's intent.
- BucketObject.BfxWebSocketBucket.DropConfirmed: the loop deletes several channels of one sub_id in one step; there is never more than one under the discipline.
- Frames.ReissueRoundTrip: letters outside ASCII have no case here; where a message names one key twice the server's own fields win, and among parameters it is not said which does.
- CloseWins.CloseIsQuiet: exceptions `__run` does not handle (version mismatch, bad credentials, a cancelled task) end the session as a crash; they are outside this promise and inside all the others. A task cancelled before its first step, or while its socket is being closed, is not modelled.
- AuthGate.GateHoldsIff: one `start()` at a time, and it is called only once every earlier `start()` and `close()` has returned.
- OutageDeadline.OutageIsBounded: a handshake never raises ConnectionClosedError, as the source's own comment on lost connections supposes.
- Announcements.EveryReturnIsAnnounced: a socket confirms only requests that are pending, as `BucketRooms.BucketIsARoom` shows of one bucket under the discipline; the same for `Announcements.AnnouncedIff` and `Strays.ReturnIsToldIff`.
- BucketClosing.ClosedBucketServesItsOwn: a server that gives out channel 0, which the client never looks up, is outside this one; `BucketClosing.ClosedBucketIsSilentIff` covers it.
- GiveUp.Supervise: the outcomes of the attempts are given as a sequence; the moment `close()` arrives is the end of that sequence.
- ClientObject.BfxWebSocketClient.CancelAll: the current task, which the source skips, is not told apart; the run loop's own task is never a supervisor.
- Rest.Middleware.Post: an exception outside the `requests` hierarchy is one case, and an error's text is two flags.
- Retry.WriteAppliedAtMostOnce: relies on the transport library not to raise a connect timeout, or a refusal of its own, for a request that was received; a write that is redirected to a host that refuses is such a case.
- Resubscribe.WindowClosesIff: a `resubscribe` whose bucket left the table, or whose socket died in the window, has no second half.
- LeftoverOutage.DialsAtOnceIff: a loss is recognised where the run loop begins an outage, after the supervisors were stopped.
- Retry.RetryWithBackoff: the asyncio twin has the same loop and no model of its own.
- PlainDecimal.PlainRoundTrip: floats enter as the Decimal of their shortest text, which Python computes; NaN and infinities are the error case.
- The real sockets, TLS, `requests`, `websockets`, the event loop and listener scheduling are nondeterministic outcomes; callbacks that re-enter the client from inside an emit are not modelled.
- HMAC signing, API keys, JSON text, UUIDs and HTTP dates are inputs; rounding of delays is not modelled, they are reals.
- The 15-second bounds on waiting for buckets are labels that may fire at any time.
- Endpoint wrappers, dataclasses, serializers, channel handlers and the order-book examples would only add easy members.
