# DIDComm mediator: a verified model

The mediator lets agents without a reachable address receive DIDComm messages. A
sender posts a message over HTTP; the mediator finds the endpoint behind a routing
key, pushes the message through a redis stream to whichever process holds the
agent's connection, and waits for an acknowledgement. Agents without a live
connection fetch queued messages with the Pickup protocol. Everything is keyed by a
few tables that are read through a memcached cache.

Five parts are modelled, each as the code is written. Where tasks share state in
memory (the pickup queue, the push protocol, the session) a step is what a coroutine
does between two `await`s, and steps interleave arbitrarily. A repository call awaits
memcached and the database several times; most modules take it as one step, and four
take it apart: in `RepoInterleaved` and `RepoSlowLoads` the steps of all loads,
deletions and changes interleave, in `OnboardingRuns` sessions run between an
endpoint's load and its write, and in `TableRaces` the `ensure_*` transactions overlap
between their deletes and their writes.

- **Pickup queue** (`PickupQueue`, `PickupSystem`, `PickupTheorems`, `PickupPuts`,
  `PickupBatches`, `PickupBlocked`). A
  bounded monitor made of an ordered dictionary, a separate counter and two
  `asyncio.Event`s. `Event.set` wakes every waiter; a woken putter does not look again, a woken consumer
  does. The class `PickUpStateMachine` updates the dictionary and the counter in place
  and is proved against the queue as a value; the system of producers and consumers is
  a step function over an arbitrary schedule.
- **Push and acknowledgement** (`Packets`, `RedisGroups`, `PushAck`, `PushCompleteness`,
  `PushSharing`, `PushClient`, `EndpointListener`). A redis stream with consumer groups, a
  broadcast reverse channel, pushers that share channel objects, and listeners that hand a
  message on before they acknowledge it.
- **Cache over tables** (`Tables`, `TableRaces`, `RepoCache`, `RepoCoherence`,
  `RepoAgents`, `RepoEndpoints`, `RepoExact`, `RepoInterleaved`, `RepoSlowLoads`,
  `Onboarding`, `OnboardingRuns`). The
  `crud` transactions, the repository's cached loads and invalidating writes with expiry,
  and onboarding composed from them.
- **Forwarding and routing** (`Forward`, `KeyNames`, `Routing`). The onion that
  `forward_wired` builds, its peeling, key list updates, and the HTTP route down to the
  endpoint, with failover to another redis server.
- **Session** (`Session`, `PairwiseList`). The table of protocol listeners and the inbound
  listener of one websocket session, and the pairwise list whose kept metadata dicts
  are aliased with its callers'.

Functions on values say what one step does; the imperative classes and methods are
proved to do exactly that; the main theorems are about all runs of the functions.

## Results that are not plain confirmations

- Backpressure is M + k - 1 for k producers, and the bound is reached. Putting a live id
  again inflates the counter; the queue can be made ready again exactly as long as this
  drift is below M, and no schedule can jam it exactly when there is at most one
  producer (`RecoverableIff`, `JamFreeIff`).
- A batch request without delay never suspends again once it evaluates its loop with some
  but too few entries: when it starts, or when it is woken (`SpinsIff`, `WokenBatchSpins`).
  Runs in which every batch for more than one entry has a delay never do (`NeverSpins`).
- An aborted unsubscribe waits in `put` inside the session's own loop, which then reads no
  pickup request. It can get free if and only if the requests that wait already can take
  enough out: some that fit what is counted, and any with a deadline
  (`BlockedPutFreesIff`). On a queue that is just full one such request is needed and
  enough (`FullQueueFreesIff`); with none waiting the session stays there.
- An acknowledgement that is there is enough, whatever the schedule of reads, if and only if
  no other push waits on the same channel object, and so also when pushes start there after
  it was read (`AckEnoughIff`, `AckEnoughWithStartsIff`). A push that starts there before
  takes the certainty away again (`EarlyStartUnsettles`), and a run from the start in which
  the ack is lost is given (`SharedChannelLosesAck`). Soundness survives sharing.
- A packet on the reverse channel that is neither data nor close makes `read` wait again
  with its full timeout: the wait for an ack can outlast `expire_at`, which only such
  packets do (`OddPacketExtends`, `AnswersWithoutOdd`).
- `__get_session_channel_address` ends without a return when it finds a cached address, so
  the address cache is never used; every push reads the table. The retry loop in `push`
  never goes round twice.
- Reads stay exact through everything that may follow a change, other changes aside, if and
  only if no copy of a row that it changes is cached or on its way to the cache
  (`CleanChangeIff`). A call that runs alone without a takeover writes so
  (`CallWritesCleanly`); a load that overlaps a write does not let it (`OverlapGoesStale`).
- With takeovers and writes past the repository, agent reads are never older than one cache
  lifetime as long as calls run one at a time (`AgentStaleness`). When they overlap, the
  time between a slow load's read and its fill comes on top, for every kind of read, and
  that bound is reached (`SlowLoadStaleness`, `SlowLoadReached`).
- The database does not keep verkeys unique: two overlapping transactions that bring one
  verkey to different rows do not see each other, and both rows get it (`TwoAgentsShare`,
  `TwoEndpointsShare`). Uniqueness survives if and only if no transaction commits next to
  a row with its verkey that it had not found (`UniqueIff`).
- Endpoint writes consult the agents' reverse index, so a verkey read after an endpoint
  write is exact if and only if nothing was cached under the verkey or the arguments leave
  its holder alone (`VerkeyReadExactIff`); a row behind a routing key may be almost two
  cache lifetimes old, and that is reached (`TwiceTtlReached`).
- A stored redis address can change without any failover: two overlapping first sessions of
  one DID both load nothing and the second write replaces the first one's address
  (`FirstStartsRace`). Addresses stay as they are throughout if and only if no write brings
  one, because none was loaded, to an endpoint that has another by now, or takes a verkey
  over (`AddressesKeptIff`).
- The first onboarding of a DID links its endpoint to its agent only if the peer named a
  device, because the pairwise list has already written the row that is compared with
  (`FirstOnboarding`).
- The onion's `to` values are right if and only if equal routing keys have equal next hops
  (`RoundTripIff`).
- A failover writes back all the fields it read earlier; it changes nothing but the address
  if and only if these are still current (`FailoverOnlyMovesIff`). `routing` turns every
  failure, 410 and 421 included, into 400.
- An unsubscribe request that names no id and whose parent thread matches nothing removes
  every listener (`UnsubscribeExact`).
- A bare `except` around the pairwise lookup of the inbound listener
  (app/routers/mediator_scenarios.py:465-468) catches the cancellation on Python 3.8. A
  listener cancelled there goes on to read the group, acknowledges what it reads and keeps
  doing so after its session (`ListenerOutlivesSession`), or beside its successor
  (`TwoListenersRun`). All tasks end with the session if and only if no inbound listener
  had its last cancellation there (`SessionEndsIff`, `OneInboundIff`).
- Passing the kept metadata dict again loses the update (`AliasedIff`,
  `ReusedDictLosesUpdate`).

## Model

| member | source | states |
|---|---|---|
| PickupQueue.PickUpStateMachine.CompletePut | app/rfc/pickup.py:227-246 | what `put` does after its wait: the entry goes to the end under the id the message itself carries, the counter grows even when the id was live, and the readiness event follows the counter; a message whose id cannot be read changes nothing |
| PickupQueue.PickUpStateMachine.FinishBatch | app/rfc/pickup.py:275-285 | a batch takes exactly the oldest entries, in order, and lowers the counter by as many; both events are then settled |
| PickupQueue.PickUpStateMachine.TakeFront | app/rfc/pickup.py:276-282 | the removal loop over the dictionary equals taking a prefix of the sequence of entries |
| PickupQueue.PickUpStateMachine.ListPickup | app/rfc/pickup.py:286-294 | a list request returns the queued entry of each requested id, in the order asked, and removes none |
| PickupQueue.PickUpStateMachine.PrepareResponse | app/rfc/pickup.py:317-326 | `filled` is cleared only on an empty counter; readiness follows counter and capacity |
| PickupQueue.PickUpStateMachine.constructor | app/rfc/pickup.py:212-219 | a new queue is empty and ready for puts |
| PickupQueue.StoreLast | app/rfc/pickup.py:237-238 | assigning to the key and moving it to the end leaves the dictionary holding the other entries in order, then this one |
| PickupQueue.WithoutAt | app/rfc/pickup.py:237-238 | dropping a live id drops exactly its one entry and keeps the others in order |
| PickupQueue.ListedExact | app/rfc/pickup.py:286-294 | a list answer is complete and in the order asked: the k-th requested id that is queued has its entry at place k, and there is nothing else |
| PickupPuts.PutIsStored | app/rfc/pickup.py:225-246 | the message goes behind all others, under its own id; without one, a dictionary or text under a fresh id and anything else under the id `put` was given; a JSON text that is no object is not stored |
| PickupPuts.PutNeverLost | app/rfc/pickup.py:225-246 | in every run a put that has started still waits with its message, or the message was accepted under the id it belongs under, unless it is cancelled |
| PickupPuts.CancelledPutIsOver | app/rfc/pickup.py:226-226 | a put that is cancelled while it waits stores nothing, then or later |
| PickupSystem.StepKeeps | app/rfc/pickup.py:225-315 | every step of any producer or consumer keeps: events mirror the counter, nobody sleeps on a set event, counter plus woken putters is bounded, delivered and queued entries are the accepted ones in order with one left out per re-used id |
| PickupSystem.RunKeeps | app/rfc/pickup.py:225-315 | the same over every interleaving |
| PickupTheorems.BackpressureBound | app/rfc/pickup.py:225-246 | with capacity M and k producers the counter never exceeds M + k - 1 |
| PickupTheorems.BoundReached | app/rfc/pickup.py:225-246 | for every M and k some schedule reaches the bound, and the largest drift with it |
| PickupTheorems.NeverBothAsleep | app/rfc/pickup.py:226-285 | no lost wakeup: a sleeping consumer means an empty counter, a sleeping putter a full one, so never both |
| PickupTheorems.FifoRefinement | app/rfc/pickup.py:235-311 | in every run delivered followed by queued entries is a subsequence of the accepted puts, and all of them if and only if no put re-used a live id |
| PickupTheorems.CounterConservation | app/rfc/pickup.py:235-282 | in every run the counter exceeds the number of queued entries by exactly the number of re-used ids; no drift for M = 1 and one producer |
| PickupTheorems.DriftBound | app/rfc/pickup.py:235-246 | the drift never exceeds M + k - 2 |
| PickupTheorems.RunShape | app/rfc/pickup.py:225-315 | over a run the drift never decreases, and what was accepted or delivered stays a prefix |
| PickupTheorems.RecoverableIff | app/rfc/pickup.py:242-246 | puts can ever become possible again if and only if the drift is below M |
| PickupTheorems.JamFreeIff | app/rfc/pickup.py:225-246 | no schedule jams the queue if and only if there is at most one producer |
| PickupBatches.BatchResult | app/rfc/pickup.py:257-285 | in every run what requests hand out is what is delivered, in order; without drift a request gets fewer entries than it asked for only after its start time plus its delay, so without a delay exactly as many |
| PickupBatches.OverdueLeaves | app/rfc/pickup.py:261-273 | progress: past its deadline a request is answered as soon as its timeout fires, whatever else runs, unless it is cancelled or the loop stopped suspending |
| PickupBatches.AnsweredInTime | app/rfc/pickup.py:257-285 | in every run a batch or noop with a delay that is not negative is answered by the time its timeout fires at its start plus its delay or later, unless it is cancelled or the loop stopped suspending |
| PickupBatches.EmptyAnswerOnTime | app/rfc/pickup.py:257-285 | on a queue that stays empty the answer is empty, given when the delay is over and not before |
| PickupBatches.AnswersTakeAll | app/rfc/pickup.py:275-285 | every answer takes the oldest entries, never more than asked for, and fewer only if nothing is left in the queue |
| PickupBatches.CancelledRequestIsOver | app/rfc/pickup.py:270-273 | a request that is cancelled gets nothing, then or later |
| PickupBatches.LoopFollowsRun | app/rfc/pickup.py:261-273 | in any run a request goes on waiting if and only if none of the moments its loop is evaluated at lets it go |
| PickupBatches.SpinsIff | app/rfc/pickup.py:261-273 | for every event: exactly a first evaluation or one after a wake-up, with no delay and 0 < counter < size, starts a loop that never suspends |
| PickupBatches.SpinForever | app/rfc/pickup.py:261-273 | then nothing else ever happens |
| PickupBatches.WokenBatchSpins | app/rfc/pickup.py:261-273 | a run in which a woken batch gets there |
| PickupBatches.NeverSpins | app/rfc/pickup.py:261-273 | no run gets there if every batch for more than one entry has a delay |
| PickupBlocked.BlockedPutFreesIff | app/routers/mediator_scenarios.py:333-336 | a session that waits in `put`, and so reads no more requests, can get free if and only if the requests that wait already can bring the counter below the capacity |
| PickupBlocked.FullQueueFreesIff | app/routers/mediator_scenarios.py:333-336 | on a queue that is exactly full that is: the counter is not all drift, and one request waits that has a deadline or fits |
| PickupBlocked.DeadlineFrees | app/routers/mediator_scenarios.py:373-385 | progress: a delayed request with a deadline frees the session once its timeout fires, unless the loop stopped suspending |
| PickupBlocked.RunAsks | app/rfc/pickup.py:261-273 | in no run does a request for nothing wait |
| PickupBatches.NoopServesOldest | app/rfc/pickup.py:295-306 | a noop that finds something answers at once with the oldest entry |
| PickupBatches.NoopOnEmpty | app/rfc/pickup.py:295-299 | a noop without a delay on an empty queue is answered at once and waits for nothing |
| PickupBatches.WaitLoop | app/rfc/pickup.py:261-273 | the wait loop over the moments it is evaluated at ends at the first that lets it go |
| RedisGroups.GroupsPartition | app/core/redis.py:231-351 | for every interleaving and read count, a group deals the stream out entry by entry, and returned plus locally queued messages of a reader are its share in stream order |
| RedisGroups.CaughtUp | app/core/redis.py:321-377 | a single reader that caught up and lost no reply holds every payload since the group began |
| RedisGroups.GroupsIndependent | app/core/redis.py:321-377 | what other groups' readers do makes no difference to a group |
| RedisGroups.NewGroupBegins | app/core/redis.py:362-377 | in every run a new group hands out exactly the first entries written since it was created; creating it again changes nothing |
| RedisGroups.FetchExact | app/core/redis.py:321-351 | one read is given as many entries as it may have and as there are, the next ones in stream order, all to its reader |
| RedisGroups.AsyncRedisGroup.Poll | app/core/redis.py:321-351 | creates the group on first use, then moves up to `read_count` new entries into the local queue, skipping those without payload |
| RedisGroups.AsyncRedisGroup.Read | app/core/redis.py:231-257 | with a timeout: answers from the local queue without the connection, else reads once, and returns the first payload of what the group hands out next, or times out if there is none or the reply is lost; a connection that breaks, also in mid-read, returns nothing and what it had handed out is lost |
| RedisGroups.AsyncRedisGroup.ReadWaiting | app/core/redis.py:353-356 | without a timeout: reads again exactly as long as a read was handed nothing; returns the first payload it is handed, or the connection error of its last read; keeps every group's partition |
| RedisGroups.AsyncRedisGroup.constructor | app/core/redis.py:184-198 | defaults for the group id and the read count |
| PushAck.PushSoundness | app/core/redis.py:402-436 | in every interleaving of pushers and listeners, True is returned only if a listener had handed on the message of that very request |
| PushAck.NextKeeps | app/core/redis.py:402-558 | every step keeps: an ack in flight belongs to a request whose message was handed on before |
| PushAck.PushIsWritten | app/core/redis.py:407-420 | a push writes one entry at the end of its stream, with its id, its message and the address it waits at; an id that was used starts nothing |
| PushAck.RequestServed | app/routers/mediator_scenarios.py:417-451 | a free listener takes its reader's oldest message, delivers it once and sends its ack to every channel at its reverse address and to no other |
| PushAck.GivesUpForGood | app/core/redis.py:391-400 | a push that timed out stays answered False, whatever comes later |
| PushSharing.AckEnoughIff | app/core/redis.py:421-433 | every schedule of reads answers the push True once its ack is there if and only if no other push waits on the channel object |
| PushSharing.AckEnoughWithStartsIff | app/core/redis.py:416-433 | likewise every schedule of reads and starting pushes in which none starts on the channel object before the push is answered |
| PushSharing.EarlyStartUnsettles | app/core/redis.py:416-433 | a push that starts on the channel object before that leaves schedules in which the ack is read away |
| PushSharing.SureIff | app/core/redis.py:416-433 | at every point of every schedule of reads and starts: the answer True is certain if and only if it was given, or the ack is there and nobody else waits on the channel object |
| PushSharing.SharedChannelLosesAck | app/core/redis.py:425-451 | a run from the start: two pushes share the cached channel object, the first is delivered and acked, the second pusher reads the ack, and both wait on with nothing left to read |
| PushCompleteness.AckCompleteness | app/core/redis.py:416-433 | a push alone on its channel, undisturbed, is answered with True once its ack was sent and it has read what is there, however many stale acks precede |
| PushCompleteness.EventKeepsWaiting | app/core/redis.py:421-433 | no undisturbed step of anyone ends the wait other than with True |
| PushClient.AwaitAck | app/core/redis.py:421-433 | the ack-wait loop with the loop inside `read`: its outcome, and that it does not outlast `expire_at` unless packets arrive that are neither data nor close |
| PushClient.AwaitedIff | app/core/redis.py:421-433 | the wait ends with True if and only if it reaches an ack of its id with status True, and with a connection error if and only if it reaches the loss of the connection: before the deadline of the read in force, behind nothing but odd packets, other data and acks of other requests |
| PushClient.AnswersWithoutOdd | app/core/redis.py:112-132 | without packets that are neither data nor close that deadline is `expire_at` throughout |
| PushClient.OddPacketExtends | app/core/redis.py:118-125 | with one at a time `t`, an ack counts if and only if it comes within the timeout of the read, counted from `t` |
| PushClient.DataEndsExtension | app/core/redis.py:118-129 | data behind the odd packet ends that, and `expire_at` holds again |
| PushClient.RedisPush.Push | app/core/redis.py:391-436 | whatever the two caches hold, the push uses the address in the table and writes exactly one entry if there is one, under an id no entry had before; it returns True exactly if its own ack came in time, never by the ack of an earlier request, and raises exactly if the write fails or the connection is lost in the wait; then no cache entry is left behind |
| PushClient.PushTwice | app/core/redis.py:391-436 | two pushes in a row: acks of requests written before the second one, the first one's in particular, never make it return True |
| PushClient.RedisPush.GetChannel | app/core/redis.py:438-457 | a channel pair is always that of the table's address, and both caches have it afterwards; without one the channels stay |
| PushClient.RedisPush.SessionChannelAddress | app/core/redis.py:459-472 | the second pass gives the table's address; the first pass gives it or nothing |
| PushClient.RedisPush.CleanOnDisconnect | app/core/redis.py:474-482 | drops exactly the endpoint's address and the channel pair |
| EndpointListener.Serve | app/routers/mediator_scenarios.py:417-453 | up to the first read that is not ok or fails, the k-th push message read is handed on as the action 2k and then acked under its id at its own reverse address; nothing else is done |
| EndpointListener.AckFollowsHandOn | app/routers/mediator_scenarios.py:431-450 | every ack directly follows handing that request's message on |
| Tables.Database.EnsureAgentExists | app/db/crud.py:27-56 | row by row: the agent's fields follow what is given, a new row drops metadata and device id, other rows with the verkey are deleted and all others stay |
| Tables.Database.EnsureEndpointExists | app/db/crud.py:59-98 | row by row: null arguments keep the stored fields, rivals for a non-empty verkey are deleted and all other rows stay |
| Tables.Database.LoadAgentViaVerkey | app/db/crud.py:150-156 | gives the one row with the verkey, if there is one |
| Tables.Database.LoadEndpointViaVerkey | app/db/crud.py:159-165 | gives an endpoint with the verkey if there is one, the only one unless the verkey is empty |
| Tables.TablesInvariant | app/db/crud.py:27-98 | over all sequences of transactions that run one at a time no two agents share a verkey, no two endpoints a non-empty one, an agent's id is fixed while its row lives, and no set endpoint field becomes null |
| TableRaces.UniqueIff | app/db/crud.py:27-98 | for every interleaving of transactions that overlap between their deletes and their writes: verkeys stay unique throughout if and only if none commits beside a row with its verkey that it had not found |
| TableRaces.TwoAgentsShare | app/db/crud.py:28-56 | two overlapping calls with one verkey for different agents both insert |
| TableRaces.TwoEndpointsShare | app/db/crud.py:64-98 | and for different endpoints likewise |
| TableRaces.OrderlyKeepsUnique | app/db/crud.py:27-98 | uniqueness survives every interleaving in which no transaction is overtaken by one that brings its verkey |
| TableRaces.AloneIsSerial | app/db/crud.py:27-98 | a transaction that nobody overlaps is the one of `Tables` |
| Tables.EnsureAgentTwiceIff | app/db/crud.py:27-56 | ensuring an agent twice equals once if and only if the row existed or the call carries nothing a new row drops |
| Tables.KeyListsInOrder | app/db/crud.py:179-205 | over all sequences of writes no two routing key rows share an id, and an endpoint's list has exactly its rows in the order of their ids |
| Tables.OwnerIsFirst | app/db/crud.py:168-176 | a key leads to the endpoint of the first row with it, and nowhere if there is none |
| Tables.OwnerAfterAdd | app/db/crud.py:168-189 | an added key that nobody else holds leads to the adder |
| Tables.OwnerAfterRemove | app/db/crud.py:168-194 | a removed key that nobody else holds leads nowhere |
| RepoCache.Repo.EnsureAgentExists | app/core/repo.py:38-44 | invalidates the DID's entry and, through the reverse index, the verkey's, then writes |
| RepoCache.Repo.LoadAgentByDid | app/core/repo.py:46-56 | a cached row, or the table's row cached together with its reverse-index entry |
| RepoCache.Repo.LoadAgentByVerkey | app/core/repo.py:58-68 | likewise by verkey |
| RepoCache.Repo.EnsureEndpointExists | app/core/repo.py:70-79 | invalidates the uid's entry and consults the agents' reverse index, as written |
| RepoCache.Repo.LoadEndpointByUid | app/core/repo.py:81-91 | a cached row, or the table's |
| RepoCache.Repo.LoadEndpointByVerkey | app/core/repo.py:93-103 | likewise by verkey |
| RepoCache.Repo.LoadEndpointByRoutingKey | app/core/repo.py:105-117 | key to uid in the table, then the possibly cached row, cached once more under the key |
| RepoCache.Repo.ListRoutingKey | app/core/repo.py:128-135 | cached list, unless empty, else the table's |
| RepoCache.Repo.GetGlobalSetting | app/core/repo.py:137-144 | cached value, or the table's |
| RepoCache.StepWellFormed | app/core/repo.py:38-148 | every repository call keeps the tables well-formed |
| RepoCoherence.AgentReadsExact | app/core/repo.py:38-68 | after any sequence of calls that run one at a time and any passing of time, without takeovers, agent reads by DID and by verkey give exactly the table's row |
| RepoInterleaved.InterleavedReadsExact | app/core/repo.py:38-148 | for calls taken apart into their steps, with entries lost at any time: all reads stay exact in every interleaving of clean changes |
| RepoInterleaved.CleanChangeIff | app/core/repo.py:38-148 | exactly the changes of rows of which no copy is cached or on its way there keep reads exact through whatever follows, other changes aside |
| RepoInterleaved.EmptyCacheCurrent | app/core/repo.py:26-28 | an empty cache is where this starts |
| RepoInterleaved.AgentLoadIsWhole | app/core/repo.py:46-56 | the steps of a load that nobody interrupts make up the whole call |
| RepoInterleaved.EndpointLoadIsWhole | app/core/repo.py:81-91 | likewise by uid |
| RepoInterleaved.RouteLoadIsWhole | app/core/repo.py:105-117 | and by routing key, once the row's own load is over |
| RepoInterleaved.CallWritesCleanly | app/core/repo.py:38-44 | a call that runs alone and takes nothing over leaves no copy when it writes |
| RepoInterleaved.OverlapGoesStale | app/core/repo.py:38-56 | a load that reads before a write and fills after it makes reads stale, whatever the write invalidated |
| RepoSlowLoads.SlowLoadStaleness | app/core/repo.py:38-148 | over every interleaving of steps, with no load filling later than `slow` after it began to read: an answer was true within one cache lifetime plus `slow`; by routing key, the key led there within that time and the row is at most twice that old |
| RepoSlowLoads.SlowLoadReached | app/core/repo.py:46-56 | the bound is reached for any `slow` |
| RepoSlowLoads.RemovedKeyExpires | app/core/repo.py:105-126 | a key nobody has owned for a cache lifetime plus `slow` leads nowhere |
| RepoSlowLoads.TellKeeps | app/core/repo.py:38-148 | every step keeps: each cached or carried row has a dated source in the table's past |
| RepoAgents.AgentStaleness | app/core/repo.py:38-68 | after any calls that run one at a time, takeovers and changes past the repository, an agent row read by DID or verkey was in the table within one cache lifetime, and an absent answer is never stale |
| RepoAgents.DoKeeps | app/core/repo.py:38-68 | every call, if they run one at a time, and every direct change keeps: each cached agent row has a dated source in the table's past |
| RepoCoherence.EmptyCacheCoherent | app/core/repo.py:26-28 | a cache that starts empty is coherent with any well-formed tables |
| RepoCoherence.StepCoherent | app/core/repo.py:38-148 | every call keeps: a row cached by verkey is current and its reverse-index entry lives at least as long |
| RepoCoherence.TakeoverIff | app/db/crud.py:29-35 | after a takeover agent reads are exact if and only if nothing of the deleted row was cached |
| RepoEndpoints.BoundedStaleness | app/core/repo.py:70-117 | at any time after any calls that run one at a time: an endpoint row read by uid or verkey was in the table within one cache lifetime; by routing key, the key led there within one and the row is at most two old; an absent answer is never stale |
| RepoEndpoints.EmptyCacheInv | app/core/repo.py:26-28 | the starting point of the staleness bound: an empty cache |
| RepoEndpoints.NextKeeps | app/core/repo.py:81-117 | every call, if they run one at a time, keeps: each cached endpoint row has a dated source in the table's past |
| RepoEndpoints.RemovedKeyExpires | app/core/repo.py:105-126 | if calls run one at a time, a key nobody has owned for a TTL leads nowhere, whatever is still cached |
| RepoEndpoints.VerkeyReadExactIff | app/core/repo.py:70-103 | right after any endpoint write, takeovers included, a verkey read that was exact stays so if and only if nothing was cached under the verkey or the arguments leave its holder alone |
| RepoExact.ListsAndSettingsExact | app/core/repo.py:119-148 | key lists and settings are exact after any calls that run one at a time |
| RepoExact.AddedIsListed | app/core/repo.py:119-122 | after any calls an added key is listed last at once; other endpoints' lists do not change |
| RepoExact.RemovedIsNotListed | app/core/repo.py:124-126 | after any calls a removed key leaves its endpoint's list at once, every copy of it, the rest in order; other lists do not change |
| RepoExact.SetIsGot | app/core/repo.py:146-148 | after any calls a setting that is set is got at once; others are as before |
| RepoCache.EntryLifetime | app/core/repo.py:150-193 | what was put is got under its own key alone for less than a cache lifetime, unless dropped or taken for false |
| RepoCache.AgentLoadsAreKept | app/core/repo.py:46-68 | what a load of an agent answers from the table is answered again for a cache lifetime, whatever becomes of the table, and no longer; an absent row is looked for each time |
| RepoCache.EndpointLoadsAreKept | app/core/repo.py:81-103 | likewise endpoints by uid and verkey |
| RepoCache.RouteLoadIsKept | app/core/repo.py:105-117 | and by routing key |
| RepoCache.OtherLoadsAreKept | app/core/repo.py:128-144 | and key lists and settings, but an empty list is read again each time |
| RepoExact.UidReadsExact | app/core/repo.py:70-91 | endpoint reads by uid are exact after any calls that run one at a time, without a takeover |
| RepoExact.UidTakeoverIff | app/db/crud.py:64-71 | a taken-over endpoint is still read if and only if it was cached |
| RepoExact.TwiceTtlReached | app/core/repo.py:105-117 | the double bound behind a routing key is reached |
| Onboarding.BuildDidDocExtra | app/routers/utils.py:53-78 | writes the endpoint only if it is new or has another verkey, and an address only if none is stored |
| Onboarding.PostCreatePairwise | app/routers/utils.py:93-121 | links agent and endpoint only if the stored agent differs |
| Onboarding.ExtractFcm | app/routers/utils.py:86-92 | the device id of the first FCM service |
| OnboardingRuns.AddressesKeptIff | app/routers/utils.py:53-78 | for every interleaving of sessions between load, choice and write: endpoints and addresses stay as they are throughout if and only if no write brings an address to an endpoint that has another by now, or takes a verkey over |
| OnboardingRuns.HarmfulIff | app/db/crud.py:64-98 | the same for each single event |
| OnboardingRuns.FirstStartsRace | app/routers/utils.py:54-77 | two overlapping first sessions of one DID: the second write replaces the address of the first |
| OnboardingRuns.AddressesNeverChange | app/routers/utils.py:53-121 | as long as no session is overtaken between its load and its write of an address and no verkey is taken over, endpoints keep existing under their uid and a stored address never changes |
| OnboardingRuns.UninterruptedStart | app/routers/utils.py:53-78 | a session nobody interrupts does what the whole function does |
| Onboarding.StartedSettles | app/routers/utils.py:53-78 | when a start succeeds, that it leaves the verkey of the day and the old address, or a new one named after the endpoint, and touches nothing when the verkey is stored or the start fails |
| Onboarding.ConfigureWrites | app/routers/utils.py:53-78 | a start is nothing or one write of the endpoint with the verkey, and with a new address exactly if none is stored |
| Onboarding.LinkWrites | app/routers/utils.py:93-121 | linking is nothing if the agent is stored with this verkey and device; else the agent is written and then the endpoint, with the agent's id, the verkey and the device |
| Onboarding.FirstOnboarding | app/core/pairwise.py:20-35 | the whole result of a DID's first onboarding; the endpoint is linked to its agent if and only if a device was named |
| Onboarding.LaterOnboarding | app/routers/utils.py:93-121 | a known DID's agent follows the verkey, metadata and device and keeps its id; the endpoint is linked to it afresh if and only if verkey or device changed, else nothing changes at all |
| Forward.ForwardWired | app/core/forward.py:11-30 | the two loops build the layers given by the successor map; an empty key list is the only error |
| Forward.KeysMapIs | app/core/forward.py:12-17 | the map gives each key the predecessor of its first occurrence, and their_vk for the first key |
| Forward.RoundTripIff | app/core/forward.py:11-30 | peeling with kn, ..., k1 gives back the payload; the hops are k(n-1), ..., k1, their_vk if and only if equal keys have equal next hops |
| Forward.OnionRoundTrip | app/core/forward.py:11-30 | with distinct keys the round trip holds |
| Forward.OnlyTheKeyOpens | app/core/forward.py:28-28 | the wrapped message opens for its last routing key and no other |
| KeyNames.BothSpellings | app/core/rfc.py:1-10 | both spellings of a key lead to the same bare key |
| KeyNames.SplitsAtLast | app/core/rfc.py:1-10 | the bare key is the longest end of the string without the separator, the whole string if there is none |
| KeyNames.SameChannel | app/utils.py:102-104 | the channel keeps its name on a new server |
| Routing.UpdateKeyList | app/routers/mediator_scenarios.py:220-233 | updates run in order; an unexpected action is an error that leaves the earlier ones done; otherwise there is one confirmation for each update, in order, of its kind and with its did:key |
| Routing.KeyListMeaning | app/routers/mediator_scenarios.py:220-231 | afterwards the endpoint holds a key if the last word about it was `add`, or it held it and nothing was said; others keep theirs |
| Routing.PostToDevice | app/routers/mediator.py:76-187 | accepted if and only if the push was acked or an enabled Firebase took it; 421 if and only if there is a device but no Firebase; else 410; the tables change only if the connection was lost, a server was found and the fields have an address, and then the endpoint has its channel on that server while agents, keys, settings and other endpoints stay, but for rows that hold the verkey |
| Routing.Route | app/routers/mediator.py:225-258 | at most one endpoint is handed one message, the destination's; every failure is a 400 |
| Routing.UnwrappedGoesToFirst | app/routers/mediator.py:249-256 | unwrapped input goes unchanged to the endpoint of the first registered recipient key and to no other |
| Routing.WrappedGoesToItsKey | app/routers/mediator.py:233-248 | input wrapped for the mediator is routed if and only if it is a forward message with a `to` and a `msg`: by the `to`, with the `msg` alone |
| Routing.EndToEnd | app/routers/mediator.py:233-248 | after an endpoint added K, which nobody else holds, a message wrapped for K has K as its destination, and K leads to that endpoint if and only if no other endpoint is still cached under K |
| Routing.EndToEndUnclaimed | app/routers/mediator.py:233-248 | so it leads to that endpoint if no other endpoint has owned K for a cache lifetime, whatever was called before, one call at a time |
| Routing.AddWrapAndPost | app/core/forward.py:11-30 | key list update, wrapping and posting in a row: exactly one endpoint is handed the message, unchanged, and it is the one that added K under the same condition |
| Routing.PostThroughRedis | app/routers/mediator.py:99-104 | the stream entry goes to the address the row has now, whatever the fields say; without a device the post is accepted if and only if its own ack came in time |
| Routing.NextPushMoves | app/routers/mediator.py:104-114 | after a failover the next push goes to the new server on a channel of the same name |
| Routing.FailoverOnlyMovesIff | app/routers/mediator.py:109-114 | a failover changes nothing but the address if and only if the fields it carries are current and no other endpoint has the verkey |
| Session.SessionSafe | app/routers/mediator_scenarios.py:284-301 | over every sequence of events each live protocol listener is the table's only one for its id |
| Session.OneInboundIff | app/routers/mediator_scenarios.py:162-179 | over every sequence of events: every inbound listener but the current one has ended or must end if and only if none of them had its last cancellation in its pairwise lookup |
| Session.SessionEndsIff | app/routers/mediator_scenarios.py:394-400 | after the clean-up, also when it comes in the middle of a subscribe request, every protocol listener ends, and every task does if and only if no inbound listener had its last cancellation in its lookup |
| Session.NoMeetingAllEnd | app/routers/mediator_scenarios.py:394-400 | over every sequence of events none of which cancels an inbound listener in its lookup: at most one runs, and all tasks end with the session if and only if the clean-up does not find the current one there |
| Session.ConnectionStarts | app/routers/mediator_scenarios.py:162-179 | after any course of events a connection over the queue starts exactly one inbound listener, on the group named last or the default one, unless that is `off`; either kind of connection tells the former one to stop and touches no other task |
| Session.CourseSame | app/routers/mediator_scenarios.py:162-323 | over every sequence of events a listener keeps the group, or the thread and the parent, it was started with |
| Session.ListenerOutlivesSession | app/routers/mediator_scenarios.py:461-494 | a run from the start: a listener cancelled in its lookup by the clean-up reads on for any number of steps |
| Session.TwoListenersRun | app/routers/mediator_scenarios.py:162-179 | a run from the start: after a second connection two inbound listeners read on |
| Session.HappenKeeps | app/routers/mediator_scenarios.py:162-323 | every stretch of the session and of its tasks keeps: each live protocol listener is in the table, and each inbound listener but the current one was told to end and either does or had that in its lookup |
| Session.UnsubscribeExact | app/routers/mediator_scenarios.py:303-323 | the report has no repeats and names exactly the removed entries: those asked for by id or parent, or all when nothing is listed; the rest is untouched |
| Session.UnsubscribeSpares | app/routers/mediator_scenarios.py:303-323 | it leaves the inbound listener and the group alone |
| Session.ParentFinds | app/routers/mediator_scenarios.py:283-314 | a listener keeps the parent it was subscribed under: an unsubscribe request for that parent removes it, one for another parent that is found does not |
| Session.QueueInUse | app/routers/mediator_scenarios.py:166-167 | over every sequence of events answers may go over the queue if and only if a connection over the queue was made |
| Session.SubscribeServes | app/routers/mediator_scenarios.py:283-301 | every id named is served, nobody loses service; without a group the inbound listener is told to end, which it does unless it is in its lookup, and with one every task goes on as it was |
| Session.GroupInForce | app/routers/mediator_scenarios.py:118-121 | over every sequence of events the group in force is the one named last; requests without a group do not change it |
| Session.Onboard.Connect | app/routers/mediator_scenarios.py:162-179 | a new inbound listener only after the old one was told to stop, and none for group `off` |
| Session.Onboard.SubscribeTo | app/routers/mediator_scenarios.py:284-301 | a listener for each id that has none running, done ones replaced |
| Session.Onboard.UnsubscribeFrom | app/routers/mediator_scenarios.py:303-343 | removal, report, and where the answer goes |
| Session.Onboard.Answer | app/routers/mediator_scenarios.py:326-343 | an answer that was asked for goes over the socket exactly once; an aborted one goes to pickup first if and only if the transport is a queue and the route is not `all`, and else over the socket |
| Session.Onboard.Finish | app/routers/mediator_scenarios.py:394-400 | cancels the inbound listener and every listener in the table |
| PairwiseList.MediatorPairwiseList.EnsureExists | app/core/pairwise.py:63-67 | rows and the caller's dict after a call, aliased or not |
| PairwiseList.MediatorPairwiseList.Create | app/core/pairwise.py:20-35 | stores the row and keeps a reference to the caller's dict unless it was empty |
| PairwiseList.MediatorPairwiseList.Update | app/core/pairwise.py:37-55 | writes unless the kept dict equals the new metadata |
| PairwiseList.LastWriteWins | app/core/pairwise.py:20-67 | with a fresh dict on each call, every row is that of the last pairwise given and restoring it gives that pairwise back |
| PairwiseList.RestoreWritten | app/core/pairwise.py:109-148 | a row has the pairwise's names in its columns and its other metadata untouched; restoring undoes building, and building again changes nothing |
| PairwiseList.AliasedIff | app/core/pairwise.py:38-42 | a call stores its pairwise if and only if the dict is not the one kept for the DID, or the row was right already |
| PairwiseList.ReusedDictLosesUpdate | app/core/pairwise.py:38-42 | reusing the kept dict, a changed verkey is never stored |

## Left out

- Cryptography and the SDK: packing is a constructor that only the named keys open; the handshake of the connection protocol is an outcome.
- Redis, memcached, Postgres, websocket and HTTP clients: their abstract state and an adversarial connection error remain. Early eviction is modelled in `RepoInterleaved` alone, and memcached failures are left out: a delete that fails, or a reverse-index entry evicted early, would break `RepoCoherence.AgentReadsExact`.
- Wall-clock precision: the clock is an integer that does not go back. A packet that arrives exactly at the deadline counts as late.
- Python 3.8 `asyncio` is assumed: `wait_for` with a timeout that is not positive times out at once, and without one it does not suspend if the event is set.
- Identifiers made with `uuid4` are taken to be fresh: request ids come from a counter, message and agent ids are parameters.
- Tables.OwnerIsFirst: when several endpoints hold one key the database may give any of the rows; the model takes the first.
- Pickup: `batch_size` is not negative and `max_queue_size` at least one; the `~thread` decoration, `last_added_time` and the status response are left out; a noop with return route `thread` on a text message raises after removing it, which is left out.
- The ring of bus servers, the bus's own delivery, and the delayed pickup tasks of a session, which appear only as consumers of the pickup queue.
- Push: the `expire_at` field carries the current time and no consumer reads it; a foreign packet on the reverse channel without an `@id` raises a KeyError, which is left out; the variant with a separate reverse channel is covered by `PushAck`, where the forward address is free, and not by `PushClient`.
- RedisGroups: `close` and its `xgroup_delconsumer` are left out.
- Call atomicity: a repository call is one step in `RepoCoherence`, `RepoAgents`, `RepoEndpoints`, `RepoExact` and `Routing`, and so is `RedisPush.Push` with its caches; `RepoInterleaved`, `RepoSlowLoads`, `OnboardingRuns`, `PushAck` and `PushSharing` take their calls apart.
- Transactions run one at a time everywhere but in `TableRaces`; the schema does not enforce it, since neither verkey column is unique (app/db/models.py:20-27, app/db/models.py:42-49). Row locks, and the duplicate-key error of two first writes of one DID or uid, are not modelled.
- Session: a second cancellation of an inbound listener while it closes its reader is left out.
- PickupBlocked.BlockedPutFreesIff: starts where every putter that was woken has run.
- RepoCache.Repo.LoadEndpointByVerkey: several endpoints may share the empty verkey, and the database decides which row comes first; the contract allows any of them. It assumes the table invariant, which every write keeps.
- Repository reads: DIDs and verkeys, and uids, verkeys and routing keys, are taken to be disjoint sets of names.
- RepoEndpoints.VerkeyReadExactIff: the repaired form, in which an endpoint write would consult the endpoints' own reverse index, is not modelled.
- Settings are modelled as a map instead of one JSON row; a JSON round trip gives back the value.
- OnboardingRuns.AddressesNeverChange: the endpoint id is any function of the DID; a failover, which changes an address on purpose, is excluded. The sender's verkey is taken to be present.
- Routing.PostToDevice: the choice among reachable redis servers is a parameter, and so are Firebase and, except in `PostThroughRedis`, the push outcome; a payload that is not JSON is left out. Long-lived listeners stay on the old server after a failover.
- The direct `endpoint` handler and content types: one lookup in front of `PostToDevice`.
- Key-list queries and their paging, mediate requests, trust pings: single reads without an invariant.
- Session.Onboard.SubscribeTo: the listener's start is assumed to succeed; if it fails before it is on, the session waits until it is cancelled. The extra problem report for an invalid cast is left out.
- PairwiseList: DID documents and routing keys inside a pairwise are values, so aliasing is modelled for the metadata dict alone; the pairwise cache of the class is never filled, so its lookups are left out; one writer is assumed.
- Admin pages, login, mail, certificates, backups, migrations and examples.
