# The yggdrasil SDK for Go, modelled and verified

This project models the parts of the SDK in which things can go wrong between
functions, threads or runs, and proves what they guarantee:

- **The AMQP transport under concurrency** (`AmqpTransport`, `AmqpInvariants`,
  `AmqpDeadlock`, `AmqpStuck`, `AmqpReconnect`, `AmqpRecovery`, `AmqpReturns`, `AmqpAlone`). `connectionForUse`, `reconnect`, `watchdogLoop`,
  `publishChannel`, `Close` and `SetDialFunc` are a step system: any number of goroutines,
  one shared access per step, non-reentrant mutexes, and a broker that may drop a
  connection or a channel between any two steps. Theorems speak of every reachable state
  and every path.
- **Subscriptions against their Close** (`AmqpSubscription`, `AmqpShutdown`): the rebind loop
  of `runWithReconnect` interleaved with `subscription.Close`, and which subscriptions the
  transport's Close reaches.
- **Delivery end to end** (`AmqpDelivery`, `AmqpDeliveryProofs`, `AmqpConcurrency`,
  `AmqpRpc`, `Settlement`): broker
  queues, unacknowledged deliveries, redelivery on channel death (section 3.1.8 of the
  AMQP 0-9-1 specification), `deliverLoop`, the settlement policy of `wrap`, and the
  correlated reply loop of `Request`.
- **Framing** (`HttpTransport`, `Json`, `ErrorEnvelope`): the HTTP envelope with its
  raw-body fallback and write-once response, and the hand-printed error envelope against a
  strict parser of JSON texts (RFC 8259).
- **Reconcile dispatch and emission** (`Reconcile`, `Dispatch`, `DispatchHistory`,
  `Identity`, `Events`): the dispatch table with its legacy shims, best-effort events,
  identifier inference, idempotency keys and the emitter's retry loop.
- **The Stripe verifier** (`Stripe`, with `Text` for the string functions it uses).

Concurrency is modelled by functions on a state, one case per shared access, because a
run may stop between any two accesses. Sequential code that updates things is modelled by
classes and loops, each tied to a function whose properties are then proved.

## What the proofs found

Each of these follows from the code as it is; the model keeps the code's behaviour.

1. `publishChannel` holds `pubMu` while its `reconnect` locks `pubMu` again. A publisher
   whose own dial succeeds never returns (`AmqpDeadlock.PublisherDialIsFatal`), and this is
   the only source of deadlock (`AmqpDeadlock.DeadlockIff`, `EveryDeadlockHasPublisher`); one
   `Publish` after a dropped connection is enough (`AmqpDeadlock.DeadlockHappens`). Exactly
   when a goroutine is lost at `pubMu` or `dialMu` for ever is `AmqpStuck.WaitsForEverIff`,
   and exactly when it is lost unless somebody closes the transport,
   `AmqpStuck.LostUntilCloseIff`.
2. The watchdog can be among the lost: transport open, connection dead, the watchdog at
   `pubMu` with `dialMu` in hand, while a publisher holds `pubMu` and waits for `dialMu`
   (`AmqpReconnect.WatchdogLossHappens`) or is still on its way there
   (`AmqpRecovery.WatchdogBoundHappens`). Until a Close such a transport never gets another
   connection, and these are exactly the states it cannot recover from
   (`AmqpRecovery.RecoversIff`).
3. A dial that is past the `closed` check when `Close` runs installs a live connection
   (`AmqpReconnect.LateInstallHappens`) that nobody closes (`LateConnectionStays`); this can
   happen exactly while some goroutine is past the check (`InstallsAfterCloseIff`), and at
   most one such dial starts.
4. `rpc/transport.go:72-73` says that closing a subscription stops new deliveries. After a
   `subscription.Close` that overlaps a rebind, its backoff included, the subscription may
   still consume, and exactly then (`AmqpSubscription.ConsumesAfterCloseIff`,
   `ConsumerOutlivesClose`); such a consumer lives until its channel or the connection under
   it dies, or the transport is closed. The transport's Close closes exactly the
   subscriptions appended before it took its list (`AmqpShutdown.CloseReachesEarlyOnes`); the
   loop of any other never ends (`AmqpSubscription.UnclosedNeverExits`).
5. `rpc/transport.go:96-97` promises at most Concurrency handlers in flight. The semaphore is
   the deliver loop's: handlers of a dead channel run beside those of the next. A rebind
   breaks the promise exactly when a delivery was unfinished at that moment
   (`AmqpConcurrency.RebindExceedsIff`, `ConcurrencyExceeded`).
6. Under `wrap` a message without reply_to is never acknowledged: the reply fails, so every
   success is requeued (`AmqpDeliveryProofs.SettledForAReason`).
7. The error envelope is read back exactly when the message has no backslash and no
   control character (`ErrorEnvelope.RoundTripIff`).
8. An HTTP request with only a content type arrives as its own encoded envelope
   (`HttpTransport.RequestArrivesIff`).
9. The wrapped int64 skew passes the tolerance test at a true difference of 2^63, and again
   within the tolerance of 2^64 (`Stripe.SkewTestIff`, `Stripe.EarliestTimestampPasses`).
10. A legacy name equal to a canonical name of the same registration replaces that handler
    (`Reconcile.CanonicalCleanIff`). Dots in a provider or resource make idempotency keys
    unreadable, and leave only the 32-bit digest to keep two resources apart
    (`Events.KeyDecodesIff`, `Events.DottedProvidersCollide`). A numeric id names the resource
    on ensure and is passed over on destroy (`Identity.NumericIdsDisagree`), and numeric ids
    run together above 2^53 (`Identity.DistinguishesIff`).

Where code and documentation disagree the model follows the code: the transport does not
nack on a handler timeout (`rpc/transport.go:90-94`), `subscription.Close` does not wait for
handlers in flight (`rpc/transport.go:72-73`), and a legacy shim warns on every call, not
on the first (`sdk/reconcile/options.go:79-82`).

## Model

| member | source | states |
|---|---|---|
| `AmqpInvariants.StepKeeps` | rpc/amqp/amqp.go:121-574 | every step of every goroutine, and every drop by the broker, keeps the invariant: each mutex is held by exactly the goroutines whose place in the code says so, at most one connection ever installed is alive, the re-dials match the installed connections; only the mover's place changes |
| `AmqpInvariants.ReachableInv` | rpc/amqp/amqp.go:261-574 | that invariant holds in every reachable state, for any number of goroutines |
| `AmqpInvariants.OthersKeep` | rpc/amqp/amqp.go:261-574 | a step that touches mutexes and shared fields only in the permitted way leaves intact what is known of every other goroutine |
| `AmqpInvariants.ReconnectKeeps` | rpc/amqp/amqp.go:293-318 | a step of `reconnect` up to the end of its dial keeps the invariant and touches nothing others rely on |
| `AmqpInvariants.SwapKeeps` | rpc/amqp/amqp.go:320-339 | the same for the swap, the reset of the publish channel and the release of `dialMu` |
| `AmqpInvariants.PublishKeeps` | rpc/amqp/amqp.go:556-574 | the same for `publishChannel` |
| `AmqpInvariants.CloseKeeps` | rpc/amqp/amqp.go:516-554 | the same for `Close` |
| `AmqpInvariants.DogKeeps` | rpc/amqp/amqp.go:360-409 | the same for `watchdogLoop` |
| `AmqpInvariants.UseKeeps` | rpc/amqp/amqp.go:261-282 | the same for `connectionForUse` |
| `AmqpInvariants.SetDialKeeps` | rpc/amqp/amqp.go:126-134 | the same for `SetDialFunc`, short of spawning the watchdog |
| `AmqpInvariants.SpawnKeeps` | rpc/amqp/amqp.go:354-358 | spawning the watchdog, once, keeps the invariant |
| `AmqpDeadlock.EdgeDescends` | rpc/amqp/amqp.go:293-339 | outside a publisher cycle every wait-for edge over `dialMu`, `connMu`, `pubMu` leads to a goroutine of strictly lower rank |
| `AmqpDeadlock.DeadlockIff` | rpc/amqp/amqp.go:293-339 | in every reachable state some set of goroutines is deadlocked if and only if the holder of `pubMu` is a publisher inside `reconnect` that waits for `pubMu`, or for a `dialMu` whose holder waits for `pubMu` |
| `AmqpDeadlock.EveryDeadlockHasPublisher` | rpc/amqp/amqp.go:556-565 | every deadlocked set of goroutines of a reachable state contains the holder of `pubMu`, and that is a publisher inside `reconnect` |
| `AmqpDeadlock.AcyclicWithoutPublisher` | rpc/amqp/amqp.go:556-574 | with no publisher inside `reconnect` the wait-for relation of a reachable state has no cycle of any length |
| `AmqpDeadlock.BlockedReachesRunnable` | rpc/amqp/amqp.go:293-574 | outside a publisher cycle every blocked goroutine waits, along a finite wait-for path, for one that can take a step |
| `AmqpDeadlock.PublisherDialIsFatal` | rpc/amqp/amqp.go:556-565 | on every path, a publisher that dialed successfully keeps both `pubMu` and `dialMu` for ever |
| `AmqpDeadlock.DeadlockIsPermanent` | rpc/amqp/amqp.go:293-339 | on every path a publisher cycle stays, `pubMu` and `dialMu` keep their holders, whoever waits for either, `Close` and the watchdog included, never moves again, and nothing is ever dialed or installed |
| `AmqpDeadlock.DeadlockHappens` | rpc/amqp/amqp.go:414-422 | a publisher cycle is reachable from any transport with a dial function |
| `AmqpStuck.WaitsForEverIff` | rpc/amqp/amqp.go:293-574 | in every reachable state a goroutine at `pubMu` or `dialMu` stays there on every path, Close or no Close, if and only if the holder of `pubMu` is a publisher whose own dial succeeded, or one that waits for a `dialMu` whose holder has dialed and not yet locked `pubMu` |
| `AmqpStuck.LostUntilCloseIff` | rpc/amqp/amqp.go:293-574 | in every reachable state of an open transport a goroutine at `pubMu` or `dialMu` stays there on every path without a Close if and only if the dialer has dialed and not yet locked `pubMu`, and the holder of `pubMu` is a publisher inside `reconnect` or bound to get there by what it has read or will read |
| `AmqpStuck.BoundUntilClose` | rpc/amqp/amqp.go:261-339 | such a state stays so, with everybody who waits in it, until the transport is closed |
| `AmqpStuck.NobodyLostAtConnMu` | rpc/amqp/amqp.go:262-326 | whoever waits to read or write under `connMu` gets it on some path without a Close |
| `AmqpStuck.ConnMuDrains` | rpc/amqp/amqp.go:262-326 | the readers and the writer of `connMu`, however many, can leave it to a goroutine that waits for it |
| `AmqpStuck.TrapIsPermanent` | rpc/amqp/amqp.go:320-336 | such a trap stays on every path with everybody who waits in it |
| `AmqpStuck.LetGo` | rpc/amqp/amqp.go:293-574 | in every state that is not bound the holders can be played to their release, dials failing and nobody closing, so that the waiting goroutine gets its mutex |
| `AmqpStuck.DeadlockTraps` | rpc/amqp/amqp.go:556-565 | a publisher cycle is a trap, every trap is bound and has its publisher inside `reconnect` |
| `AmqpReconnect.StormsCollapse` | rpc/amqp/amqp.go:284-339 | dials never overlap, the swap never replaces a live connection, and successful re-dials never outnumber the installed connections that died |
| `AmqpReconnect.DeathsAreFinal` | rpc/amqp/amqp.go:320-326 | no step brings a dead installed connection back, so that number counts deaths |
| `AmqpReconnect.RedialsBounded` | rpc/amqp/amqp.go:288-306 | the counting argument: re-dials plus one are the installed connections (and the one waiting to be installed), of which at most one is alive |
| `AmqpReconnect.PublishChannelIsCurrent` | rpc/amqp/amqp.go:328-336 | while open and outside the window between swap and reset, the cached publish channel is nil or was opened on the current connection |
| `AmqpReconnect.ParkedOnCurrentOrDead` | rpc/amqp/amqp.go:399-407 | a watchdog parked on a connection other than the current one is parked on a dead one |
| `AmqpReconnect.NoLostWakeUp` | rpc/amqp/amqp.go:360-409 | until Close, a watchdog facing a dead current connection has an enabled step, or stands at one of its five locks and that lock is taken; it is never off, finished or asleep |
| `AmqpReconnect.WatchdogReachesRunnable` | rpc/amqp/amqp.go:360-409 | outside a publisher cycle that watchdog can run or waits, along a finite wait-for path, for a goroutine that can |
| `AmqpReconnect.WatchdogLossHappens` | rpc/amqp/amqp.go:320-336 | a reachable state has the transport open, its connection dead, and the watchdog waiting for `pubMu` inside a publisher cycle, hence for ever |
| `AmqpReconnect.AtMostOneLateDial` | rpc/amqp/amqp.go:309-318 | after `closed` is set at most one dial starts, by the holder of `dialMu` that was past the check |
| `AmqpReconnect.CheckGuards` | rpc/amqp/amqp.go:308-313 | once `closed` is set no goroutine gets past the check of `reconnect` |
| `AmqpReconnect.OnlyPastCheckInstalls` | rpc/amqp/amqp.go:315-326 | on a closed transport a goroutine not past the check neither dials nor installs, and leaves a nil connection nil |
| `AmqpReconnect.CloseStopsDialing` | rpc/amqp/amqp.go:516-554 | on every path from a closed state with nobody past the check, no dial starts or succeeds, nothing is installed, and a nil connection stays nil |
| `AmqpReconnect.CloseLeavesNil` | rpc/amqp/amqp.go:543-553 | if nobody was past the check when Close set `closed`, the connection is nil from the moment this Close took it out, for ever |
| `AmqpReconnect.CloseShutsEverything` | rpc/amqp/amqp.go:543-551 | once that Close returned, no connection the transport ever held is alive, at any later point of any path |
| `AmqpReconnect.LaterCallsGetErrClosed` | rpc/amqp/amqp.go:261-282 | every `connectionForUse` begun after that returns ErrClosed, under every interleaving |
| `AmqpReconnect.InstallsAfterCloseIff` | rpc/amqp/amqp.go:308-326 | on a closed transport some path installs another connection if and only if some goroutine is past the check of `reconnect` with its swap to come |
| `AmqpReconnect.LateInstallHappens` | rpc/amqp/amqp.go:309-326 | a reachable state has Close returned and a live connection installed |
| `AmqpReconnect.LateConnectionStays` | rpc/amqp/amqp.go:516-554 | on a closed transport with no Close under way a live connection stays the current one and stays up under every step but its drop by the broker |
| `AmqpRecovery.RecoversIff` | rpc/amqp/amqp.go:341-409 | a reachable transport that is open, watched and without a live connection gets another on some path without a Close if and only if its dialer is not at a `pubMu` whose holder is bound for `dialMu` |
| `AmqpRecovery.Recovers` | rpc/amqp/amqp.go:293-409 | the way up: the dialer under way finishes, or gives `dialMu` back and the watchdog, wherever it stands in its loop, dials and installs |
| `AmqpRecovery.DownUntilInstalled` | rpc/amqp/amqp.go:320-326 | on every path a transport without a live connection stays so until another is installed or it is closed |
| `AmqpRecovery.WatchdogBoundHappens` | rpc/amqp/amqp.go:556-564 | a reachable state is lost in this way before any publisher has entered `reconnect` |
| `AmqpReturns.ReturnMeans` | rpc/amqp/amqp.go:261-339 | what a call of `connectionForUse` returns, on every path: ErrClosed only on a closed transport; the error of a dial only after its own dial failed; a connection that was up at some point of the call, or any without a dial function; never a nil connection; and after a swap of its own exactly the connection it swapped in |
| `AmqpReturns.InstallerReturnsIt` | rpc/amqp/amqp.go:320-338 | from its swap on a goroutine can only end by returning that connection without an error; the watchdog goes back to the top of its loop |
| `AmqpReturns.PublishReturns` | rpc/amqp/amqp.go:556-574 | on every path a channel that `publishChannel` returns was open at some point of the call and is then the cached one |
| `AmqpAlone.UseWithoutDial` | rpc/amqp/amqp.go:261-282 | undisturbed and without a dial: the live connection, ErrClosed on a closed transport, the dead connection without a dial function; nothing changes |
| `AmqpAlone.UseDialFails` | rpc/amqp/amqp.go:293-318 | undisturbed, a failed dial is the error returned and changes nothing |
| `AmqpAlone.UseDials` | rpc/amqp/amqp.go:293-339 | undisturbed, a dial that succeeds becomes the current connection and the result; the old connection and publish channel are closed and the cached channel is gone |
| `AmqpAlone.PublishCached` | rpc/amqp/amqp.go:556-562 | undisturbed, an open cached channel is returned and nothing changes |
| `AmqpAlone.PublishOpens` | rpc/amqp/amqp.go:564-573 | undisturbed on a live connection, a channel is opened there, cached and returned; a failed open is an error that changes nothing |
| `AmqpAlone.PublishClosed` | rpc/amqp/amqp.go:564-567 | undisturbed on a closed transport without a connection, an error and no change |
| `AmqpAlone.SetDialSets` | rpc/amqp/amqp.go:126-134 | undisturbed, the dial function is set and the watchdog runs, one that ran already being left alone |
| `AmqpReconnect.CloseRuns` | rpc/amqp/amqp.go:516-554 | undisturbed, Close leaves the transport closed, without a connection or cached channel, and both shut |
| `AmqpAlone.WatchdogParks` | rpc/amqp/amqp.go:360-405 | undisturbed, the watchdog parks on the live connection it finds |
| `AmqpAlone.WatchdogBacksOff` | rpc/amqp/amqp.go:378-393 | undisturbed, a failed dial sends it to its backoff and back to the top |
| `AmqpAlone.WatchdogEnds` | rpc/amqp/amqp.go:363-367 | on a closed transport it ends from the top, asleep or backing off |
| `AmqpSubscription.OneChannelAtATime` | rpc/amqp/amqp.go:625-664 | in every reachable state at most one channel of a subscription is up, the one its loop works on; after `done` closed at most one more is set up |
| `AmqpSubscription.ConsumesAfterCloseIff` | rpc/amqp/amqp.go:600-664 | once Close returned, some continuation has a live consumer if and only if a channel is up now or the loop is in its rebind: in the backoff, whose timer may win against `done`, or in `setupConsumer` |
| `AmqpSubscription.UndisturbedCloseIsFinal` | rpc/amqp/amqp.go:600-610 | a Close during which no channel is set up or swapped in leaves none up, and for good if and only if the loop is not in its backoff when Close returns |
| `AmqpSubscription.OnlyChannelDeathEndsIt` | rpc/amqp/amqp.go:600-610 | a consumer left behind has no step of its own or of its Close; only the death of its channel, by itself or with the connection, ends it, and then for good |
| `AmqpSubscription.ConsumerOutlivesClose` | rpc/amqp/amqp.go:643-654 | a reachable state has Close returned and the loop delivering from a live channel |
| `AmqpSubscription.UnclosedNeverExits` | rpc/amqp/amqp.go:635-663 | without a Close of its own a subscription never leaves its loop; with every setup refused it returns to the same backoff |
| `AmqpShutdown.CloseReachesEarlyOnes` | rpc/amqp/amqp.go:527-534 | when the transport's Close has returned, and ever after, it has closed exactly the subscriptions appended before it took the list |
| `AmqpShutdown.LateSubscriptionHappens` | rpc/amqp/amqp.go:209-213 | a subscription appended after that is left open |
| `AmqpDeliveryProofs.StepKeeps` | rpc/amqp/amqp.go:625-743 | every event (publish, request, consume, rebind, swap, channel death, delivery, start, return, reply, settlement, stray, receive, give up) keeps conservation, the delivery records, the semaphore counts and the match of replies with requests |
| `AmqpDeliveryProofs.NoMessageIsLost` | rpc/amqp/amqp.go:625-743 | at every point of every run each published message is in exactly one of ready, unacked (one tag, one live channel), acked, discarded |
| `AmqpDeliveryProofs.SettlementsAreFinal` | rpc/amqp/amqp.go:690-699 | no event takes back an ack or a discard, or forgets or changes a published message |
| `AmqpDeliveryProofs.SettledForAReason` | adapter/adapter.go:230-245 | acked only after a handler succeeded on this message and its reply was published; discarded only after a handler failed on it; never acked without reply_to |
| `AmqpRpc.SettleOutcome` | adapter/adapter.go:230-245 | the other direction: an outstanding message is discarded after a handler error, acked after a success whose reply went out, back in ready after a success whose reply did not; a settlement that comes too late changes nothing |
| `AmqpDeliveryProofs.RepliesMatchRequests` | rpc/amqp/amqp.go:439-512 | a reply returned by `Request` carries its correlation id and is what a handler run on exactly this request's message answered, for every interleaving, redelivery and swapped channel |
| `AmqpRpc.ReplySentIff` | rpc/amqp/amqp.go:700-721 | a reply is published if and only if there is a reply_to, the publish does not fail and the channel last swapped in for the subscription is up, whatever became of the delivering channel; it is then the last in its waiting request's queue, and no other request is touched |
| `AmqpRpc.ReplyAfterRebind` | rpc/amqp/amqp.go:708-718 | a reachable state has a request answered over the new channel after the delivering one died |
| `AmqpRpc.FirstMatchReturns` | rpc/amqp/amqp.go:489-511 | the reply loop passes over any number of foreign replies and returns the first that matches |
| `AmqpRpc.RpcRoundTrip` | rpc/amqp/amqp.go:439-512 | a request from end to end, undisturbed: the requester gets exactly what the handler returned, the message is acked or, after an error, discarded, and the slot is free again |
| `AmqpRpc.HandledFromItsQueue` | rpc/amqp/amqp.go:231-254 | on every run a message is handled by subscriptions of its own queue alone |
| `AmqpDeliveryProofs.OnlyStraysAreSkipped` | rpc/amqp/amqp.go:496-503 | the reply loop passes over a queued reply if and only if no handler of this request produced it |
| `AmqpDeliveryProofs.ConcurrencyIsBounded` | rpc/amqp/amqp.go:671-677 | at most Concurrency handlers of one deliver loop are in flight, and each that is settling can settle and free its slot |
| `AmqpConcurrency.SubscriptionConcurrency` | rpc/transport.go:96-99 | a subscription has at most Concurrency handlers in flight per deliver loop still busy, so more than Concurrency in all only while handlers of at least two of its channels run |
| `AmqpConcurrency.RebindExceedsIff` | rpc/amqp/amqp.go:633-654 | on every run, after a rebind whose old channels are dead and before the next rebind, more than Concurrency handlers may be in flight if and only if some delivery of the subscription was unfinished when it rebound |
| `AmqpConcurrency.OnlyOnStays` | rpc/amqp/amqp.go:671-678 | without a further rebind all that goes on in a subscription goes on over the one channel |
| `AmqpConcurrency.FillUp` | rpc/amqp/amqp.go:671-678 | a handler left running on another channel does not keep the current one from being filled to its Concurrency |
| `AmqpConcurrency.ConcurrencyExceeded` | rpc/amqp/amqp.go:643-654 | a reachable state has two handlers of a subscription of concurrency one in flight |
| `AmqpDeliveryProofs.KillConserves` | rpc/amqp/amqp.go:612-624 | the death of a channel moves exactly its unacknowledged messages to ready; every other message stays where it is |
| `AmqpDeliveryProofs.SettledConserves` | rpc/amqp/amqp.go:690-699 | over a live channel a settlement moves the message under its tag to the place of the verdict and no other; over a dead channel, or a second time, it moves none |
| `Settlement.Delivery.SettleOnce` | rpc/amqp/amqp.go:682-699 | the first settlement goes out with its error, every later one is dropped and reports success |
| `Settlement.Delivery.Reply` | rpc/amqp/amqp.go:700-721 | at most one publish, none without reply_to, and which error is reported |
| `Settlement.Delivery.Handle` | rpc/amqp/amqp.go:682-733 | whatever the handler calls, in whatever order: the first settlement and the first reply asked for go out, and nothing else |
| `Settlement.FirstSettleAsked` | rpc/amqp/amqp.go:690-699 | the settlement asked for first is that of the first call that is no reply |
| `Settlement.FirstReplyAsked` | rpc/amqp/amqp.go:700-721 | the reply asked for first is the first one called, as JSON when no content type is given |
| `Settlement.Delivery.Run` | rpc/amqp/amqp.go:735-740 | however the handler sequences its calls: exactly one settlement, the first asked for or else the fallback by the handler's error, and at most one reply, the first asked for |
| `Settlement.Delivery.Wrap` | adapter/adapter.go:230-245 | `wrap` alone: the reply, then a nack for good after an error, an ack after a reply that went, a requeue after one that did not |
| `Settlement.Delivery.RunWrapped` | adapter/adapter.go:230-245 | under `wrap` exactly one settlement: a nack without requeue after an error, an ack after a success whose reply goes, else a requeue; and at most the one reply |
| `ErrorEnvelope.RoundTripIff` | adapter/adapter.go:247-254 | a strict parse of the envelope yields the message if and only if it has no backslash and no character below U+0020 |
| `ErrorEnvelope.ParseOutcome` | adapter/adapter.go:247-254 | for any other message the parse fails, or the text read is strictly shorter |
| `ErrorEnvelope.CharsOutcome` | adapter/adapter.go:252-253 | the string parser on the escaped message: reads it all, closes early inside it, or fails, and which of these a clean message gets |
| `ErrorEnvelope.EarlyCloseFails` | adapter/adapter.go:252-253 | when the string closes inside the message, nothing that follows can complete a JSON text |
| `HttpTransport.DecodeEncode` | rpc/transport.go:218-224 | decoding an encoded envelope gives it back, with the empty fields omitted on the way |
| `HttpTransport.RequestArrivesIff` | rpc/http/http.go:321-334 | for every codec that reads back the envelopes it prints: the delivery has the request's body, content type, headers and correlation id if and only if body, headers or correlation id is non-empty; otherwise its body is the encoded envelope; the correlation id always agrees |
| `HttpTransport.EnvelopeArrivesIff` | rpc/http/http.go:321-334 | any envelope arrives as sent if and only if its body, correlation id, headers or reply_to is non-empty; otherwise the handler is given its encoding |
| `HttpTransport.PlainBodyArrives` | rpc/http/http.go:322-333 | a body that is no JSON object, or has none of the envelope's distinguishing members, reaches the handler verbatim |
| `HttpTransport.ReplyReturns` | rpc/http/http.go:193-223 | for every request, the reply's body and content type come back intact under the request's correlation id |
| `HttpTransport.EnvelopeAnswers` | rpc/http/http.go:205-222 | an envelope in the response is returned with its own headers and correlation id |
| `HttpTransport.ClientErrors` | rpc/http/http.go:198-215 | a 404 is an unknown endpoint, any other status from 400 on a remote error, and a body that is no envelope is returned raw under the request's correlation id |
| `HttpTransport.Response.Perform` | rpc/http/http.go:348-380 | a Reply or Nack writes only if nothing was decided before; an Ack writes nothing |
| `HttpTransport.Response.Serve` | rpc/http/http.go:382-411 | exactly one response is committed and never written over, decided by the handler's first Reply or Nack, else by its error |
| `HttpTransport.Response.ServeHTTP` | rpc/http/http.go:295-411 | the same from the door on, with 503 for a closed subscription or a client that gave up and 400 for an unreadable body |
| `HttpTransport.CallHandlerOverHttp` | rpc/http/http.go:342-411 | any handler from end to end: its first Reply comes back intact, its first Nack as a 503 or 500, and one that decides nothing as an empty reply or a 500 |
| `HttpTransport.DecidingIsFirst` | rpc/http/http.go:342-380 | the deciding call is the first that is no Ack |
| `HttpTransport.CallOverHttp` | adapter/adapter.go:230-245 | a call to a wrapped handler over HTTP is always answered with a 200 whose reply is the handler's body, or the error envelope, under the caller's correlation id |
| `Stripe.VerifyStripe` | sig/hmac/stripe.go:42-99 | success if and only if the last t parses as int64, the skew test passes or is off, and some v1 decodes to the MAC; the returned timestamp; and which error every other header gets |
| `Stripe.AcceptsMeans` | sig/hmac/stripe.go:74-97 | in the range where the skew does not wrap: accepted if and only if the timestamp is at most the tolerance away from now, or the test is off, and some candidate is the hex of the MAC |
| `Stripe.RejectionMeans` | sig/hmac/stripe.go:43-98 | which error a rejected header gets, in the order of the tests, and with which timestamp |
| `Stripe.ParseHeader` | sig/hmac/stripe.go:47-60 | the loop yields the last t value and all v1 values in order |
| `Stripe.LaterPartsCount` | sig/hmac/stripe.go:49-60 | with any white space around a part, a later `t=` replaces the timestamp and a `v1=` is one more candidate |
| `Stripe.AnySigns` | sig/hmac/stripe.go:89-98 | true if and only if some candidate is the hex of the expected MAC |
| `Stripe.SkewIsDistance` | sig/hmac/stripe.go:75-78 | the wrapped int64 skew is the distance for every now >= 0 and ts > now - 2^63 |
| `Stripe.SkewTestIff` | sig/hmac/stripe.go:74-82 | the test agrees with the true distance test exactly outside now - ts == 2^63 and now - ts >= 2^64 - tolerance |
| `Stripe.EarliestTimestampPasses` | sig/hmac/stripe.go:75-81 | at every clock reading a timestamp 2^63 seconds old passes every tolerance |
| `Stripe.FramingInjective` | sig/hmac/stripe.go:84 | the signed bytes determine timestamp and payload |
| `Stripe.FramedBytes` | sig/hmac/stripe.go:84 | the signed bytes are the decimal timestamp, a dot and the payload |
| `Stripe.UnknownPartsIgnored` | sig/hmac/stripe.go:49-60 | a part that is neither t nor v1, anywhere, changes neither the timestamp nor the candidates |
| `Stripe.ExtraPartsAreIrrelevant` | sig/hmac/stripe.go:49-99 | hence acceptance of a header is unmoved by unknown parts |
| `Stripe.OrderIsIrrelevant` | sig/hmac/stripe.go:49-99 | acceptance and timestamp are unmoved by permuting the parts of a header with one t |
| `Stripe.HexRoundTrip` | sig/hmac/stripe.go:90 | hex decoding undoes hex encoding |
| `Stripe.HexCaseIrrelevant` | sig/hmac/stripe.go:90 | a signature is read alike in upper and lower case |
| `Stripe.SignedHeaderAccepted` | sig/hmac/stripe.go:31-99 | a header signed as a sender does, with any white space around its parts, is accepted while fresh, with its timestamp |
| `Text.SplitJoin` | sig/hmac/stripe.go:49 | splitting undoes joining for parts without the separator |
| `Text.ParseDecimal` | sig/hmac/stripe.go:69 | the int64 parser reads back every printed int64 |
| `Text.ParseLimits` | sig/hmac/stripe.go:69 | it refuses integers beyond int64 and takes a plus sign |
| `Text.TrimPadded` | sig/hmac/stripe.go:50 | trimming takes the white space off both ends and nothing else |
| `Text.DecimalInjective` | sig/hmac/stripe.go:84 | different integers print differently |
| `Events.HttpEmitter.constructor` | sdk/events/http.go:109-111 | a budget of zero or less falls back to the default, so there is always an attempt |
| `Events.HttpEmitter.Emit` | sdk/events/http.go:123-183 | all attempts post the same bytes; before the last there are transport errors and statuses outside 200..299 and 400..499 alone; it ends before the budget only by a cancellation, a 2xx, a 4xx or a request that cannot be built; success exactly when the last is a 2xx; at most one row at the receiver even when responses are lost |
| `Events.AttemptIsMade` | sdk/events/http.go:134-178 | hence an attempt of the budget is made when all before it were transient and nothing was cancelled, and a 2xx or 4xx there is the last |
| `Events.Receiver.Post` | sdk/events/types.go:67-69 | the receiver keeps the first body per idempotency key |
| `Events.EmitRepeatedly` | sdk/events/types.go:67-69 | any number of Emits of one event adds at most one row and changes no other |
| `Events.KeyDecodesIff` | sdk/reconcile/register.go:186-191 | a synthesized key reads back into its five parts if and only if provider and resource have no dot; the resource id may have any |
| `Events.KeyText` | sdk/reconcile/register.go:186-191 | the texts of a synthesized key, of what is digested in it, and of an event type |
| `Events.EqualKeysSameResource` | sdk/reconcile/register.go:186-191 | equal keys of dot-free providers and resources are about the same provider, resource, verb and id |
| `Events.DottedProvidersCollide` | sdk/reconcile/register.go:186-191 | the keys of provider a.b with resource c and of provider a with resource b.c are equal if and only if their digests are |
| `Identity.SmallIdsExact` | sdk/reconcile/register.go:522-535 | a non-zero integer id up to 2^53 in absolute value becomes its own decimal text |
| `Identity.DistinguishesIff` | sdk/reconcile/register.go:522-535 | numeric ids up to a bound have pairwise different texts if and only if the bound is at most 2^53 |
| `Identity.FirstCollision` | sdk/reconcile/register.go:523-525 | 2^53 + 1 and 2^53 share a text |
| `Identity.RoundsToNearest` | sdk/reconcile/register.go:523-533 | beyond 2^53 an id becomes the nearest number of 53 significant bits, the even one of two as near |
| `Identity.LaddersAgreeIff` | sdk/reconcile/register.go:413-508 | for every object: destroy and ensure name the same resource if and only if the first non-empty member in the destroy order spells the first non-empty member in the ensure order, or neither finds any |
| `Identity.DestroyLookupOrder` | sdk/reconcile/register.go:401-442 | the documented order of the destroy lookup, member by member, with owner and repo joined as owner/repo |
| `Identity.EnsureLookupOrder` | sdk/reconcile/register.go:461-507 | the order of the lookup after an ensure, member by member |
| `Identity.ReflectedIdWins` | sdk/reconcile/register.go:453-460 | a typed state with an ID is named by it; what is no object has no name |
| `Identity.DestroySees` | sdk/reconcile/register.go:413-442 | without a `ref`, and with `id` and `<resource>_id` not at odds, destroy names what ensure would name on the strings destroy reads |
| `Identity.PlainLaddersAgreeIff` | sdk/reconcile/register.go:413-508 | on objects with string identifiers and nothing under `ref`, `ID`, `Id`, `full_name`, the two agree if and only if `id` and `<resource>_id` do not stand there with different values |
| `Identity.NumericIdsDisagree` | sdk/reconcile/register.go:426-428 | in any object a numeric id up to 2^53 names the resource on ensure, and destroy names what it would name without it |
| `Reconcile.StartsWithAnyIff` | sdk/reconcile/options.go:70-77 | the scan finds a prefix exactly when one of the list is one |
| `Reconcile.PrefixClassesDisjoint` | sdk/reconcile/options.go:58-67 | no string is in two of the three legacy prefix classes |
| `Reconcile.PickOpByClass` | sdk/reconcile/options.go:53-68 | so the choice is a matter of class alone, whatever the order of the cases |
| `Reconcile.LegacyVerbs` | sdk/reconcile/options.go:58-67 | whatever follows them, each of the nineteen legacy verbs means its operation |
| `Reconcile.AdapterDispatch.RegisterReconciler` | sdk/reconcile/register.go:237-290 | the table after the call, for any lower-casing: names trimmed and lower-cased, each shim capturing what its canonical name held at that moment |
| `Reconcile.AdapterDispatch.AddShims` | sdk/reconcile/register.go:280-288 | the loop over the legacy names, empty ones skipped |
| `Reconcile.RegistrationOwnsItsNames` | sdk/reconcile/register.go:276-289 | names a registration mentions run, after warnings, one of its own handlers; all others keep their entry |
| `Reconcile.ShimmedIffCollides` | sdk/reconcile/register.go:280-288 | a canonical name is shimmed if and only if it is also a legacy name of the registration |
| `Reconcile.CanonicalCleanIff` | sdk/reconcile/register.go:272-288 | the canonical names run their own handlers without warning if and only if no legacy name collides with them |
| `Reconcile.CanonicalNamesRun` | sdk/reconcile/register.go:272-279 | without collisions ensure_, observe_ and destroy_ with the registered names run the three handlers |
| `Reconcile.LegacyMeaning` | sdk/reconcile/options.go:79-91 | without collisions every legacy name warns once and runs the handler of its prefix class |
| `Reconcile.LegacyWarns` | sdk/reconcile/options.go:47-50 | the one warning of a legacy name is about that name and the canonical one |
| `Dispatch.Session.Emit` | sdk/reconcile/register.go:133-171 | nothing without an emitter, else exactly one event with the request's metadata or its defaults, whether or not emission fails |
| `Dispatch.Session.RunHandler` | sdk/reconcile/register.go:301-393 | by what the reconciler did: a failure or undecodable input is an error reply and no event, an unencodable result too except for a destroy; success is its body, or the deleted literal for a destroy, and one event exactly for an ensure or destroy with a wired emitter |
| `Dispatch.Session.RunEntry` | sdk/reconcile/options.go:37-51 | an entry logs its warnings in order and then behaves as the handler it unrolls to |
| `Dispatch.Session.Execute` | sdk/reconcile/register.go:75-103 | which entry runs, by the trimmed operation or else the capability; the error of every other request; a failed reconciler is an error reply, and an error reply sends nothing |
| `Dispatch.MutatesIff` | sdk/reconcile/register.go:301-393 | a dispatch counts as a mutation exactly when an ensure or destroy of a wired registration was done on readable input |
| `Dispatch.EventMeans` | sdk/reconcile/register.go:133-171 | the event of a mutation member by member: type, verb, identifier, instance, idempotency key and observed state |
| `Dispatch.DestroyRefMeans` | sdk/reconcile/register.go:339-361 | the identifier of a destroy: a given ref, else what the lookup finds, and which inputs are errors |
| `DispatchHistory.Replay` | sdk/reconcile/register.go:75-290 | running a history of registrations and dispatches on the mutable table gives exactly the specified replies and events |
| `DispatchHistory.EveryEntryHasATarget` | sdk/reconcile/register.go:276-289 | after any history of registrations and dispatches every entry unrolls to one handler, of the last registration that mentions the name |
| `DispatchHistory.OneEventPerMutation` | sdk/reconcile/register.go:301-393 | the events of any history number its successful ensures and destroys through wired registrations |
| `DispatchHistory.EventsInOrder` | sdk/reconcile/register.go:133-171 | the events of a prefix of a history are a prefix of its events |
| `DispatchHistory.EventOfMutation` | sdk/reconcile/register.go:158-168 | the k-th event of a history is the event of its k-th mutation, with the registration the table held when it was dispatched |
| `DispatchHistory.TablesSimilar` | sdk/reconcile/register.go:237-290 | two histories that differ in emitters only build tables equal up to the emitters inside their entries |
| `DispatchHistory.EmittersChangeNoReply` | sdk/reconcile/register.go:131-171 | swapping, failing or removing emitters throughout a history changes no reply |
| `DispatchHistory.Registry.TableFor` | sdk/reconcile/register.go:54-68 | the table and the execute handler are made once per adapter, and no two adapters share a table |
| `DispatchHistory.Registry.RegisterExecute` | adapter/adapter.go:121-127 | the author's own execute handler replaces the installed one and touches no table |
| `DispatchHistory.Registry.RegisterReconciler` | sdk/reconcile/register.go:237-290 | one adapter's table changes and the others do not; the first registration installs the execute handler, a later one leaves a replaced handler replaced |
| `DispatchHistory.Registry.Dispatch` | sdk/reconcile/dispatch.go:67-75 | an error exactly for adapters without a table; otherwise the reply and events of the installed execute handler, in every state of the registry |

## Left out

- The AMQP wire protocol and client library: only liveness of connections and channels, channel ownership, delivery, ack, nack and requeue on channel death are modelled.
- JSON and base64 of the HTTP envelope are a codec assumed to read back the envelopes it prints, which holds for valid Unicode text; case-insensitive member names, a body given as a JSON array and replacement of invalid UTF-8 are not modelled.
- HMAC-SHA256 and SHA-256 are uninterpreted functions, the clock is a parameter.
- Real time: timers, timeouts and the doubling backoffs are steps that may happen at any time.
- `connMu` does not tell a writer that is queued from one about to call Lock, so a reader may go in first, which allows more runs than Go does once a writer is queued; the wait-for relation counts every writer at the lock.
- `closeMu`, `subsMu` and the closing of subscriptions are not steps of the transport's step system: which subscriptions Close reaches, and the closing of one, are modelled on their own.
- Queue order and the prefetch limit of the broker: a delivery may take any ready message.
- Handlers on the AMQP side that settle their own delivery are covered for one delivery (`Settlement.Delivery.Run`), not in the step system, which has `wrap`.
- Strays in a reply queue carry a foreign correlation id: the queue is exclusive and named by the broker, so nothing else puts this request's id there.
- AMQP header tables, content types of AMQP requests, endpoint prefixes, and argument checks that only return an error.
- AmqpReconnect.NoLostWakeUp: says what the watchdog can do or waits for, not that it reconnects within any time.
- Events.Receiver.Post: the 24-hour window of the receiver's uniqueness is not modelled, a key is taken for good.
- Reconcile.AdapterDispatch.RegisterReconciler: the panic on an empty name is its precondition.
- Member names of execute requests and destroy inputs are matched exactly; Go also takes a `Ref` for the struct field `ref`.
- Reflection on typed observed states beyond an optional string ID field, the %g text of numbers that are no int64, and the printed text of a destroy's tombstone.
- The dispatch table under concurrent registration: histories are serial, as its lock makes them.
- `Adapter.Run`, the transport helpers of `adapter/transport.go`, `mtls`, `surface`, `webhookhttp`, `sig/hmac/github.go`: they would only add easy members.
- Logging, warn-once maps, environment variables, signals, HTTP server start and stop.
