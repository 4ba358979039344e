# Verified model of the RabbitMQ client library

Two protocols of the library are modelled in Dafny and proved correct over every run: the consumer's retry and
dead-letter protocol against a broker, and the publisher's pool of confirm channels under reconnect and close. The
functions both rest on (retry headers, routing, topology, normalization, backoff, URL masking) are modelled with
them. `dafny verify dfyconfig.toml` checks the whole project.

**Consumer.** `Settlement` has the code that handles one delivery, as methods that make calls on a channel.
`ConsumerMachine` puts any number of sessions, workers and deliveries next to a broker that routes, confirms,
settles and takes deliveries back; every choice of the scheduler, the network and the handlers is part of an action,
and a run is a sequence of actions. `ConsumerInvariant` is the inductive invariant; `ConsumerSafety` (nothing is
lost), `ConsumerWork` (bounded retries, by a potential) and `ConsumerDiscipline` (slots, settlements, reports,
shutdown) draw the conclusions. `ConsumerCalls` shows that the machine's deliveries make the calls that `Settlement`
specifies. `ConsumerRuns` has runs that nothing outside disturbs, `ConsumerCalm` says for which messages the code then
has no failure of its own, and `ConsumerProgress` that those can always be brought to an end. `Topology` declares exchanges and queues, sequentially as the code does and
concurrently; `Routing` gives the meaning of sections 3.1.3.1 to 3.1.3.3 of AMQP 0-9-1; `Retry` is the counter that
travels with a message.

**Publisher.** `Pool` has the methods of the pool as the code has them: a bounded buffer that a reconnect replaces,
a table of creation times, the drain and warm-up loops. `PoolMachine` splits the same methods into their steps (each
lock request, select, check and network call) and interleaves them between threads, with Go's reader-writer locks in
which a waiting writer holds off new readers. `PoolLocks` (mutual exclusion, no deadlock), `PoolOwnership` (the
invariant) and `PoolResults` (exclusive ownership, ages, the swap, after Close) are about all its runs;
`PoolClose` is about Close among other threads, and `PoolReconnect` about a connect after it. `PoolView` specifies what
a borrow and a return do; the methods of `Pool` ensure it, and `PoolSequential` proves it of a borrow and a return that
nobody interrupts in the machine. `PoolAlone` does the same for the other operations: publish, GetChannel, ReturnChannel,
drain, warm-up, connect, reconnect and Close. `PoolRefill` is the run behind one finding below.
`Handoff` is the opening of one confirm channel by two helper goroutines, `PublishOutcome` the meaning of a publish
result in terms of what the broker did, `Backoff` the reconnect loop, `MaskUrl` the masking of passwords.

Assumptions. A positive publisher confirm (a RabbitMQ extension) means that the broker has handled the publish: a
routable copy is on its queue. It comes after the `basic.return` of the same publish. Frames of one channel are
handled in order. Closing a channel fails its pending confirms and closes its return listeners. A connection that has ended tells a new close listener of a graceful close.
Network calls return.
The broker refuses no retry publish for its content: RabbitMQ closes the channel on one whose `user_id` is not the user
of the connection, and a retry copies that field (pkg/rabbitmq/consumer.go:676). A user gives back each channel from
`GetChannel` exactly once, as that method's documentation demands.

What the proofs found out about the code:

- At-least-once delivery has one gap: a confirm does not say that a retry copy was routed. A message is lost exactly
  when its retry key leads nowhere near the queue, for instance because the message came by another exchange
  (`ConsumerSafety.LostIffRetryUnroutable`).
- Retries are not bounded for every counter header. A message whose handler fails is requeued without end, although
  nothing goes wrong outside, when its counter is below int32; when it is negative and MaxRetries is zero, the default,
  or less, as the channel then has no confirms and each publish, although it is sent, counts as failed; and when
  MaxRetries lies beyond int32 and the counter can get to the top of it. In all other cases, and only then, the calls
  are bounded (`ConsumerCalm.BoundedIffRetriesWork`).
- The comment on `returnPooled` (pkg/rabbitmq/pool.go:213-214) says a channel is closed if the publisher is closed.
  The check and the send are separate steps, so a return that is past the check can fill the pool of a closed
  publisher (`PoolResults.RefilledAfterCloseIff`, with the run in `PoolRefill.ClosedPoolRefills`).
- Close (pkg/rabbitmq/publisher.go:50) need not be the end of the connection. Once every call of Close is over, the
  connection comes up again in some continuation exactly if the watcher is in the wait of its reconnect loop, or
  between that wait and its dial: the wait may end by its timer although the publisher is closed, and the connect that
  follows does not look at `closed` (`PoolReconnect.ReconnectsAfterCloseIff`, with the run in
  `PoolReconnect.ClosedPublisherConnects`).
- A mandatory publish can report success although it was not routed, in the cases `PublishOutcome.SuccessMeansRoutedIff`
  rules out: no wait for the confirm, or a timer that fired before the select was reached.
- A mandatory publish can be reported as returned although it was routed and acknowledged: the select does not look
  whether its receive came from a listener that was closed with the channel, and wraps the zero value
  (pkg/rabbitmq/publisher.go:313-314, `PublishOutcome.ReportMeansReturnedIff`).
- A backoff cap above half the largest duration lets the doubling overflow (`Backoff.ClosedFormIff`).

## Model

| member | source | states |
|---|---|---|
| Retry.RetryCountRoundTrip | internal/amqpx/retry.go:17-46 | reading back a written counter gives it, and no other header changes |
| Retry.CounterIsRead | internal/amqpx/retry.go:17-35 | a counter of any of the three integer types is read as the number it carries, and 0 without a header table, without the header and for any other value |
| Retry.ChainFidelity | pkg/rabbitmq/consumer.go:653-682 | the k-th retry exists iff every counter on the way is within int32, and then is the same message with count r+k, mode 0 become persistent, and its own key, or the binding key if that is empty |
| Retry.RetriesAlwaysEncode | pkg/rabbitmq/consumer.go:582-607 | with a non-negative count and MaxRetries within int32, every retry up to MaxRetries can be encoded |
| Retry.RetryEncodesIff | internal/amqpx/retry.go:39-42 | below MaxRetries adding one never overflows, and encoding fails exactly for counts below int32 or at its top |
| Routing.TopicMeaning | pkg/rabbitmq/topology.go:50 | the word-by-word topic matcher accepts a key iff the key can be cut into pieces that the pattern's words stand for |
| Routing.SplitIsWords | pkg/rabbitmq/topology.go:50 | the words of a key are the only dot-free words that give the key back when joined with dots |
| Routing.AcceptsMeaning | pkg/rabbitmq/topology.go:50 | of the keys as strings: a direct binding accepts its own key, a fanout binding every key, and a topic binding a key iff the key, split at its dots, can be cut into pieces that the pattern's words stand for |
| Routing.PatternMatchesItself | pkg/rabbitmq/consumer.go:496-499 | every topic pattern matches itself read as a literal key |
| Routing.RetryRoutesBack | pkg/rabbitmq/consumer.go:496-499 | for each exchange kind the retry key passes the binding that the message passed |
| Config.Normalize | pkg/rabbitmq/config.go:144-182 | every unset field gets its default and no other changes; the result is normalized, and normalized configurations are fixed points |
| Topology.Channel.Declare | pkg/rabbitmq/topology.go:20-50 | a declare succeeds iff the channel still works and the broker accepts it, and only then changes the broker |
| Topology.DeclareQueueTopology | pkg/rabbitmq/topology.go:15-55 | the declares run in order up to the first refusal or channel failure; success leaves the queue with its two dead-letter arguments and its binding, and the direct DLX with the bound DLQ |
| Topology.DeclarationConfluence | pkg/rabbitmq/topology.go:10-14 | under every schedule of any number of declaring clients no declare is refused, and after any client is through the broker is in one order-independent state |
| Topology.RunKeepsProgress | pkg/rabbitmq/topology.go:15-55 | every schedule keeps the broker between its start and the common target, with each client's past declares in force |
| Topology.SameBroker | pkg/rabbitmq/topology.go:15-55 | a broker below the target in which all declares hold is the target |
| Topology.HoldsIsStable | pkg/rabbitmq/topology.go:13-14 | a declare once made stays made as the broker grows |
| Topology.RedeclareIsNoop | pkg/rabbitmq/topology.go:13-14 | redeclaring what is there succeeds and changes nothing |
| Topology.FreshDeclareSucceedsIff | pkg/rabbitmq/topology.go:18-52 | on an empty broker the declares succeed iff the suffixes keep queue and DLQ, and exchange and DLX, apart (a direct exchange may be its own DLX) |
| Topology.DeclareSucceedsIff | pkg/rabbitmq/topology.go:15-55 | with a normalized configuration the declares succeed on exactly the brokers on which nothing that they name is there with other attributes |
| Topology.RetryReachesQueue | pkg/rabbitmq/consumer.go:684-691 | whatever key brought a message to the queue by the exchange, its retry key does so again |
| Topology.DeadLetterReachesDlq | pkg/rabbitmq/topology.go:18-44 | a rejected message goes to exactly the queues bound to the DLX under the literal binding key, the queue's DLQ among them, whatever its own key and the exchange's kind |
| Topology.DeadLetterSideFirst | pkg/rabbitmq/topology.go:15-46 | as soon as the declares have created the queue, even if they stop there, what it rejects reaches its DLQ |
| Topology.NoDeadLetterDrops | pkg/rabbitmq/consumer.go:599-601 | without dead-lettering a rejected message goes nowhere |
| Settlement.Consumer.RepublishWithRetry | pkg/rabbitmq/consumer.go:653-709 | true only for an encodable, published and confirmed copy; at most the one publish is made |
| Settlement.Consumer.HandleHandlerError | pkg/rabbitmq/consumer.go:573-622 | dead-letter, requeue or acknowledge after a retry, with the calls made and the report for each |
| Settlement.Consumer.HandleDelivery | pkg/rabbitmq/consumer.go:489-531 | the calls on the channel are exactly the expected ones and the report is honest about them: acknowledged after success, rejected when no retry is due, else acknowledged or requeued as the retry was confirmed or not, and a retry has the message's key, or the binding key if that is empty |
| ConsumerInvariant.RunsKeepInvariant | pkg/rabbitmq/consumer.go:449-531 | the invariant on messages, copies, deliveries and sessions holds after every run |
| ConsumerSafety.NoLoss | pkg/rabbitmq/consumer.go:513-527 | after any run every message that came by the exchange is ready, unacknowledged, acknowledged after its handler succeeded, or rejected without requeue |
| ConsumerSafety.RejectedMeansDeadLettered | pkg/rabbitmq/consumer.go:592-605 | with dead-lettering on, no run drops a rejected message: its DLQ gets it |
| ConsumerSafety.CopiesAreRetries | pkg/rabbitmq/consumer.go:653-682 | every copy in every run is the k-th retry of its message for some k |
| ConsumerSafety.CopiesKeepMessage | pkg/rabbitmq/consumer.go:496-499 | every copy in every run has the payload of its message, and its key, or the binding key if that is empty |
| ConsumerSafety.UnroutableIsLost | pkg/rabbitmq/consumer.go:684-708 | a run that nothing outside disturbs in which a confirmed but unroutable retry loses its message |
| ConsumerSafety.LostIffRetryUnroutable | pkg/rabbitmq/consumer.go:592-621 | a message can be lost iff it is to be retried, its counter can be encoded and its retry key is not routed to the queue |
| ConsumerWork.CallsBounded | pkg/rabbitmq/consumer.go:582-607 | handler calls of one message: at most one course of retries, and one more for each attempt that the code books as failed (BoundedIffRetriesWork tells when the code itself never does) |
| ConsumerWork.FaultsAreFaultedAttempts | pkg/rabbitmq/consumer.go:607-617 | in every run the faults booked for a message are as many as its faulted attempts, and those of all messages as many as all |
| ConsumerWork.TotalCallsBounded | pkg/rabbitmq/consumer.go:582-607 | N messages of which F attempts are faulted never cause more than (N+F)·(MaxRetries+1) handler calls |
| ConsumerCalm.CalmRunsFaultless | pkg/rabbitmq/consumer.go:592-621 | in a run without lost channels, failed publishes and negative confirms, a message whose retries can be encoded and confirmed has no faulted attempt |
| ConsumerCalm.CountsFromZeroFaultless | pkg/rabbitmq/consumer.go:659-708 | with 0 < MaxRetries <= MaxInt32 that goes for all messages that come with non-negative counts |
| ConsumerCalm.BoundedIffRetriesWork | pkg/rabbitmq/consumer.go:592-615 | over all such runs the handler calls of a message are bounded iff its count has reached MaxRetries, or confirms are on and its counter stays in int32 as far as it can get |
| ConsumerProgress.NeverStranded | pkg/rabbitmq/consumer.go:449-531 | in such a run, as long as the broker has a copy of such a message, some step that is no fault brings it closer to its end |
| ConsumerProgress.FailingMessageEnds | pkg/rabbitmq/consumer.go:582-607 | such a message that always fails is, when it is over, handled exactly max(0, MaxRetries-r)+1 times and rejected once, and every such run can be continued to there |
| ConsumerDiscipline.HandlersBounded | pkg/rabbitmq/consumer.go:449-484 | running handlers never exceed the workers, nor one in a sequential session |
| ConsumerDiscipline.FreeSlotIsTaken | pkg/rabbitmq/consumer.go:468-477 | in every run a delivery waiting for a slot can take one iff fewer deliveries than workers hold one |
| ConsumerDiscipline.SettledOnce | pkg/rabbitmq/consumer.go:513-527 | a delivery is settled at most once, exactly once when its worker is through, and never when it was not handled |
| ConsumerDiscipline.ReportsAreHonest | pkg/rabbitmq/consumer.go:513-530 | on every path of every run the report equals the calls issued, and retried means a confirmed copy came before the ack |
| ConsumerDiscipline.CloseAfterWorkers | pkg/rabbitmq/consumer.go:424-453 | when a session has closed its channel none of its deliveries is with a worker |
| ConsumerDiscipline.OrderlyCloseNeverFaults | pkg/rabbitmq/consumer.go:451-453 | what the broker takes back after an orderly close was never handled |
| ConsumerDiscipline.AbandonedIsReturned | pkg/rabbitmq/consumer.go:468-477 | a delivery abandoned while waiting for a slot is on a channel whose loop is over, and goes back to the queue when that closes |
| ConsumerDiscipline.WorkersFinish | pkg/rabbitmq/consumer.go:478-483 | a running worker always has a next step, which brings it closer to its end |
| ConsumerDiscipline.WorkersNeverSetBack | pkg/rabbitmq/consumer.go:451-453 | no step of anyone sets a running worker back |
| ConsumerCalls.DeliveriesMakeExpectedCalls | pkg/rabbitmq/consumer.go:489-622 | in every run a settled delivery has made exactly the calls that the specification of HandleDelivery gives for its message, the way its handler ended and the reply to its retry publish |
| ConsumerCalls.DeliveriesSettledAccordingly | pkg/rabbitmq/consumer.go:496-622 | in every run a settled delivery is acknowledged after success, rejected when it may not be retried any more, and else acknowledged or requeued as its retry was confirmed or not, under the message's key, or the binding key if that is empty, and with the next count |
| Pool.Publisher.NewChannelOrError | pkg/rabbitmq/pool.go:177-183 | a new channel belongs to the caller with its creation time, or nothing changes |
| Pool.Publisher.BorrowChannel | pkg/rabbitmq/pool.go:150-175 | the effect specified in PoolView: the head if usable, else a new channel with the head closed and forgotten; a borrowed channel is open, young enough, of true age and nobody else's |
| Pool.Publisher.GetChannel | pkg/rabbitmq/pool.go:186-195 | hands out what a borrow gets, with the true creation time recorded for the return: the head of the pool, untouched, if it is open and young enough, and always some channel if the publisher is open, the connection up and the network answers |
| Pool.Publisher.ReturnPooled | pkg/rabbitmq/pool.go:215-238 | the effect specified in PoolView: at the back of the pool if it is open, there is a pool with room and the publisher is open; else closed and forgotten |
| Pool.Publisher.ReturnChannel | pkg/rabbitmq/pool.go:199-211 | the same by the user's way, the entry having the true creation time |
| Pool.Publisher.Release | pkg/rabbitmq/publisher.go:277-284 | the deferred end of a publish: returned or closed and forgotten |
| Pool.Publisher.Publish | pkg/rabbitmq/publisher.go:271-322 | the borrowed channel, which may close meanwhile, ends in the pool or closed; after a mandatory publish always closed, and nobody else's holding changes |
| Pool.Publisher.DrainPool | pkg/rabbitmq/pool.go:248-261 | the loop ends with the pool empty and exactly its channels closed and forgotten |
| Pool.Publisher.WarmOnce | pkg/rabbitmq/pool.go:23-50 | one attempt adds its channel behind the others or closes it again |
| Pool.Publisher.WarmChannelPool | pkg/rabbitmq/pool.go:20-51 | as many new channels as attempts succeed and places are free, behind the old ones; surplus channels are closed |
| Pool.Publisher.EstablishConnection | pkg/rabbitmq/publisher.go:157-206 | success leaves a new empty pool and closes every channel of the old one; failure leaves the pool alone |
| Pool.Publisher.Connect | pkg/rabbitmq/publisher.go:147-154 | a successful connect leaves one open pooled channel for each successful attempt |
| Pool.Publisher.Close | pkg/rabbitmq/publisher.go:414-430 | the first close empties the pool and closes everything, later ones change nothing |
| PoolLocks.RunsKeepLocks | pkg/rabbitmq/pool.go:155-173 | in every run both locks are held exactly by the threads whose program counter says so |
| PoolLocks.WriterIsAlone | pkg/rabbitmq/publisher.go:200-203 | while the pool is swapped nobody else holds either lock |
| PoolLocks.DeadlockFree | pkg/rabbitmq/pool.go:32-45 | in every reachable state an unfinished publisher, watcher or closer can step, or is at the head of a chain of threads, each waiting for the next, that ends with one that can |
| PoolLocks.WaitsGoDown | pkg/rabbitmq/pool.go:32-45 | such a thread can step or waits for another at a lock, and every thread it waits for is unfinished and of a smaller rank: the connection lock is never asked for by who holds or asks for the pool lock |
| PoolLocks.NoWaitCycle | pkg/rabbitmq/publisher.go:200-203 | no reachable state has a cycle of waiting threads, nor a chain of more than six |
| PoolOwnership.RunsKeepOwnership | pkg/rabbitmq/pool.go:150-260 | the ownership invariant holds after every run |
| PoolResults.EveryChannelHasAPlace | pkg/rabbitmq/pool.go:35-50 | a channel is in a pool, with a thread, lent to a user, or closed, forgotten and with nobody |
| PoolResults.ExclusiveOwnership | pkg/rabbitmq/pool.go:150-174 | in every interleaving a channel is in at most one slot or with one holder, and no pool exceeds its size |
| PoolResults.PooledAgesAreTrue | pkg/rabbitmq/pool.go:199-210 | pooled entries carry the true creation time, and no return listener |
| PoolResults.RecordedAgesAreTrue | pkg/rabbitmq/pool.go:186-211 | recorded creation times are true and kept only for channels somebody has; lent channels always have one |
| PoolResults.HandedOutFresh | pkg/rabbitmq/pool.go:163-170 | a pooled channel is handed out iff it is open and its true age is within the maximum, else closed |
| PoolResults.RetiredPoolUntouched | pkg/rabbitmq/publisher.go:200-204 | after the swap only the swapping thread's drain touches the old pool |
| PoolResults.RetiredStaysEmpty | pkg/rabbitmq/publisher.go:200-204 | an emptied old pool stays empty for good |
| PoolResults.RetiredIsEmpty | pkg/rabbitmq/publisher.go:204 | an old pool is empty unless its drain is under way |
| PoolResults.SwapDrainTerminates | pkg/rabbitmq/pool.go:252-259 | that drain is never blocked, gets no more work from others, and each of its steps leaves less |
| PoolResults.RefilledAfterCloseIff | pkg/rabbitmq/pool.go:217-232 | after Close the pool can get a channel again iff some return was past its check of closed |
| PoolRefill.ClosedPoolRefills | pkg/rabbitmq/pool.go:215-232 | for every pool size there is a run in which the pool of a closed publisher, drained and without watcher, gets a channel |
| PoolSequential.ReturnAlone | pkg/rabbitmq/pool.go:215-238 | an uninterrupted return in the machine has the effect that is specified for ReturnPooled |
| PoolSequential.BorrowAlone | pkg/rabbitmq/pool.go:150-183 | an uninterrupted borrow in the machine has the effect, and gets the channel, that is specified for BorrowChannel |
| PoolAlone.PublishAlone | pkg/rabbitmq/publisher.go:267-322 | an uninterrupted publish in the machine has the effect that method Publish ensures |
| PoolAlone.GetAlone | pkg/rabbitmq/pool.go:186-195 | an uninterrupted GetChannel has the effect that the method ensures, and its channel is lent |
| PoolAlone.GiveBackAlone | pkg/rabbitmq/pool.go:199-211 | an uninterrupted ReturnChannel returns an open channel under its recorded creation time |
| PoolAlone.GiveBackClosedAlone | pkg/rabbitmq/pool.go:199-203 | and only forgets a closed one |
| PoolAlone.DrainAlone | pkg/rabbitmq/pool.go:248-261 | an uninterrupted drain ends with the pool empty and exactly its channels closed and forgotten |
| PoolAlone.WarmAlone | pkg/rabbitmq/pool.go:20-51 | an uninterrupted warm-up adds as many new channels as there is room for, behind the old ones, and closes the surplus |
| PoolAlone.ConnectAlone | pkg/rabbitmq/publisher.go:147-206 | an uninterrupted connect leaves the connection up and a new pool full of new channels, those of the old pool closed and forgotten |
| PoolAlone.DialFailsAlone | pkg/rabbitmq/publisher.go:174-182 | without a broker a reconnect leaves connection and pool as they are and goes on, and the first connect gives up |
| PoolAlone.DeclareFailsAlone | pkg/rabbitmq/publisher.go:186-197 | when the exchange cannot be declared the new connection is closed and the pool stays as it is |
| PoolAlone.ReconnectAlone | pkg/rabbitmq/publisher.go:433-508 | a watcher that nobody interrupts gets from the lost connection to an up one with a full new pool |
| PoolAlone.CloseAlone | pkg/rabbitmq/publisher.go:414-430 | an uninterrupted Close leaves the publisher closed, its pool empty with those channels closed and forgotten, and its connection not up |
| PoolClose.CloseEmptiesPools | pkg/rabbitmq/publisher.go:419-425 | in every run, at the moment Close goes on to the connection every pool is empty, the publisher is closed, and nobody else holds the connection lock |
| PoolClose.CloseDisconnects | pkg/rabbitmq/publisher.go:425-430 | in every run, when Close is about to release the lock the publisher is closed and its connection not up |
| PoolClose.ClosedForGood | pkg/rabbitmq/pool.go:151-153 | once closed, in every continuation the publisher is closed and every borrow that begins is refused |
| PoolReconnect.ReconnectsAfterCloseIff | pkg/rabbitmq/publisher.go:482-501 | once every call of Close is over, the connection comes up in some continuation iff the watcher is in the wait of its reconnect loop, or between that wait and its dial |
| PoolReconnect.ClosedPublisherConnects | pkg/rabbitmq/publisher.go:489-501 | a run after which the connection of a closed publisher is up |
| Handoff.OneOwner | pkg/rabbitmq/pool.go:84-118 | at every moment an opened channel is in exactly one place, and done is closed at most once |
| Handoff.ReturnedXorClosed | pkg/rabbitmq/pool.go:84-144 | in the end an opened channel was returned or closed once, never both and never neither |
| Handoff.ReturnedIsUsable | pkg/rabbitmq/pool.go:120-144 | a returned channel has confirms enabled, and no helper can close it any more |
| Handoff.ReturnedIffEnabled | pkg/rabbitmq/pool.go:84-144 | in the end the caller has the channel iff the connection was up, the channel was opened, its confirms were enabled and neither wait timed out |
| Handoff.ChannelIsReturned | pkg/rabbitmq/pool.go:84-144 | a run in which a channel is opened, its confirms are enabled and it is returned |
| Handoff.HelpersFinish | pkg/rabbitmq/pool.go:86-121 | runs have at most twelve steps and end only when the caller and both helpers are finished |
| Handoff.CallerNeverStuck | pkg/rabbitmq/pool.go:97-142 | the caller has a step of its own until it returns |
| PublishOutcome.SuccessMeansAcked | pkg/rabbitmq/publisher.go:372-400 | success of a publish that waits means that the broker acknowledged this very publish, whatever was pending on the channel |
| PublishOutcome.RejectedMeansRefused | pkg/rabbitmq/publisher.go:397-399 | a publish reported as not acknowledged was refused by the broker, or the channel closed before the client read its confirm |
| PublishOutcome.DueOrDisturbed | pkg/rabbitmq/publisher.go:303-400 | in every run a publish that waits gets the result that the broker's answer calls for (refused, returned, or success), unless the channel dies, a wait times out or is cancelled, or the timer fires first |
| PublishOutcome.DueIsReported | pkg/rabbitmq/publisher.go:303-400 | from every moment at which the broker has answered the publish that the client waits for, the client alone goes on to report exactly that result |
| PublishOutcome.AnsweredIsReachable | pkg/rabbitmq/publisher.go:372-390 | such moments exist for every kind of publish and of answer |
| PublishOutcome.FireAndForget | pkg/rabbitmq/publisher.go:322-370 | a publish that neither waits nor is mandatory is a success once it is sent |
| PublishOutcome.DeathEndsWaits | pkg/rabbitmq/publisher.go:312-400 | on a dead channel neither the wait for the confirm nor the select goes on waiting |
| PublishOutcome.ReaderNeverBlocks | pkg/rabbitmq/publisher.go:304-308 | the listener's buffer of one suffices: in no run does the reader of the connection wait for room in it |
| PublishOutcome.ReusedUnlessMandatory | pkg/rabbitmq/publisher.go:303-308 | between publishes a channel is used again iff nothing mandatory was published or tried on it |
| PublishOutcome.ConfirmAnswers | pkg/rabbitmq/publisher.go:390 | a confirm answers its own publish, and with `multiple` all earlier ones that are pending, and no answer changes |
| PublishOutcome.UnroutableMeansReturned | pkg/rabbitmq/publisher.go:312-314 | a publish reported unroutable was returned itself, or its channel died |
| PublishOutcome.LateTimerHidesReturn | pkg/rabbitmq/publisher.go:312-316 | a run in which a returned and acknowledged mandatory publish reports success |
| PublishOutcome.SuccessMeansRoutedIff | pkg/rabbitmq/publisher.go:303-320 | success of a mandatory publish means that it was routed, in all runs, iff it waits for the confirm and the timer had not fired before the select |
| PublishOutcome.DeadChannelFakesReturn | pkg/rabbitmq/publisher.go:312-314 | a run in which a routed and acknowledged mandatory publish is reported as returned |
| PublishOutcome.ReportMeansReturnedIff | pkg/rabbitmq/publisher.go:312-314 | a reported return means in all runs that the publish was returned iff the report carries a message of the broker, and is not what a closed listener yields |
| Backoff.Reconnect | pkg/rabbitmq/consumer.go:185-211 | the loop waits before every attempt, the k-th time as specified, goes on while connecting fails, and ends with the first round that stops it or connects |
| Backoff.WaitIsClosedForm | pkg/rabbitmq/publisher.go:481-507 | for a cap up to half the largest duration: 1s, then 2^k s up to the cap, no overflow, no wait above max(1s, cap), and the cap once reached is kept |
| Backoff.LargeCapOverflows | pkg/rabbitmq/publisher.go:503-506 | for every larger cap the wait before attempt 34 is negative |
| Backoff.ClosedFormIff | pkg/rabbitmq/consumer.go:207-210 | every wait is as intended iff the cap is at most half the largest duration |
| MaskUrl.MaskedForm | internal/amqpx/connection.go:118-146 | masking replaces the password and keeps scheme, user and everything from the authority's last '@' |
| MaskUrl.PasswordIsHidden | internal/amqpx/connection.go:126-138 | URLs that differ only in passwords free of '/', '?' and '#' mask to the same string |
| MaskUrl.MaskedHasPassword | internal/amqpx/connection.go:132-143 | whatever masking changes has the form of a URL with a password |
| MaskUrl.UnchangedIff | internal/amqpx/connection.go:118-146 | a string is left alone iff it has no password, or the mask stands in its place |
| MaskUrl.MaskIsIdempotent | internal/amqpx/connection.go:118-146 | masking twice is masking once |

## Left out

- Network I/O, TLS, SASL, heartbeats, real time, and the inside of the AMQP library: they are choices in actions and parameters, with the assumptions stated above.
- Dialling, and a late connection that Dial does not close (internal/amqpx/connection.go:72-79).
- Logging, instrumentation and error texts; IsNonRetryable is an outcome of the handler.
- Headers exchanges, server-named queues, names reserved for the broker, message TTL, broker restarts, priorities and the `redelivered` flag.
- The consume loops (pkg/rabbitmq/consumer.go:385-400, 455-485) are steps of ConsumerMachine and not loops of a method, because other goroutines run between any two of their steps; the pool's methods are modelled both ways.
- Delivery order and the prefetch limit: the machine may deliver any ready copy to any open session, which covers every order and limit.
- The broker's topology is fixed while consumers run; declaring it is the subject of Topology alone.
- ConsumerWork.CallsBounded: an attempt counts as faulted whenever its retry publish is reported failed, also when the reason is the code's own: no confirms, or a counter that does not fit.
- ConsumerProgress.FailingMessageEnds: says that the end can always be reached, not that a scheduler reaches it; fairness of the Go scheduler, the broker and the network is not modelled.
- PoolResults.RetiredPoolUntouched: the watcher's drain of the current pool on connection loss, and that of Close, are in the machine, but no liveness is claimed for them, because returns may refill a current pool meanwhile.
- PoolLocks.DeadlockFree: states that some thread can step, not that a given one will; fairness of the Go scheduler and of its locks is not modelled.
- PoolReconnect.ReconnectsAfterCloseIff: says that the connection can come up, not how likely that is; how the select picks among ready cases, and real time, are not modelled.
- PublishOutcome.DueIsReported: says that the client can go on to that result, not that no timer interferes; which disturbances there are is the subject of DueOrDisturbed.
- That the watcher always reconnects: its listener is registered after connecting, and a graceful close notice ends it (pkg/rabbitmq/publisher.go:452-467).
- Two queues with the same exchange and key share their dead letters, as both DLQs bind the same key; DLQ exclusivity is not claimed.
- Exactly-once delivery: a lost confirm leaves the original and a copy.
- The body of PublishMessage and of ReturnedMessage, which only copy fields, and the Immediate flag.
