# Delivery and resilience of otus-app, modelled and proved

otus-app is a Go service that stores messages in PostgreSQL, announces them to Kafka, RabbitMQ and NATS through a
transactional outbox, and projects them into Cassandra and Elasticsearch. This project models its two hard parts, the
delivery protocol and the resilience package, together with the rate limiter and the list cache, and proves what they
promise over whole runs: any number of workers, readers, calls, crashes, lost replies and clock values.

`dafny verify dfyconfig.toml` checks everything.

| module | what it models |
|---|---|
| `Messaging`, `MessageStore` | messages, their creation event, `Create` with idempotency keys and fan-out |
| `OutboxTable` | the table `message_outbox` and its statements |
| `OutboxProtocol`, `OutboxInvariants`, `OutboxTheorems` | workers, statements under way, replies, brokers; invariants; theorems |
| `OutboxWorker`, `OutboxRecovery` | the worker loop amid interference; draining, alone and from every reachable state |
| `Consumer`, `ConsumerLoops`, `Projections` | consumer groups, the three consuming loops and the supervisor, the handler's stores |
| `EndToEnd`, `EndToEndRecovery` | all of the above composed, from the creating transaction to the stores; convergence, and that it stays reachable |
| `Retry`, `CircuitBreaker`, `Transport` | delays and retry budget, the breaker under overlapping calls, the HTTP transport |
| `Limiter`, `ListCache` | the fixed-window limiter, the cached message list |

How the models are built. A machine is a value with `Enabled` and a step function; `Exec` runs a list of steps and is
`None` when a step was not possible, so "for every run" is a quantifier over lists. Objects the source mutates are
classes whose methods are proved equal to those step functions. The worker, the consuming loops and the cached handlers
are methods that take the rest of the world as an argument: between any two of their actions everybody else takes
arbitrary possible steps.

Assumptions. Each SQL statement and each transaction is atomic. Lease tokens are never repeated (version 4 UUIDs,
section 5.4 of RFC 9562), and sequences never repeat an identifier. A `Publish` that returns nil means the broker holds
the event; one that fails may or may not have stored it, and a broker that deduplicates may confirm without appending.
JSON is lossless and SHA-256 is an arbitrary function. A logged Cassandra batch is applied to both tables or to none.
One clock, which does not run backwards, serves all machines: the limiter's key is formed and its hit executed on the
clocks of the application and of Valkey, and an expiry is computed by one replica and compared by another, so with
skewed clocks neither the limiter's results nor the eleven seconds are claimed. A copy of the cache only moves forward
through the operations the leader executed, and may skip some. `GetBody` and the upstream transport never return the
transport's private error.

Findings.

- The list cache can serve an old list in four ways: no Delete is issued, because the commit of `Create` was applied and
  its reply was lost (internal/handlers/handlers.go:163-174) or because the message came over gRPC
  (internal/grpcserver/server.go:94); the Delete fails, which is only logged (internal/tcache/tcache.go:106-108); the
  Delete has not reached the copy that answers, since writes go to the leader and reads to any copy
  (internal/tcache/tcache.go:58-60, 102-105); or the Delete runs while a list request is between its read and its write.
  Three lemmas give the inputs (`LostReplyServesOldList`, `LaggingCopyServesOldList`, `OverlapServesOldList`).
  `EveryHit` says of every HIT exactly when it is the current list: when no message committed since its read is among the
  newest hundred. With requests one at a time, one copy and no failing Delete, only the first way is left, and without it
  every HIT is the current list (`OneAtATimeAgrees`).
- The limiter's counter is exact if and only if every hit of a key is executed less than one window length after the
  key's first (`CounterIsExactIff`). A limit n is kept if and only if that holds, or the key has no more than n hits, or n
  lets nothing through (`LimitHoldsIff`). Executing every hit inside the window named in its key is sufficient
  (`InTimeIsSustained`), and one reading of the clock guarantees that (`OneReadingIsInTime`); a slow hit can break the
  limit (`LateCountingBreaksTheLimit`).
- Cassandra keeps creation times to the millisecond, PostgreSQL to the microsecond, so the Cassandra copies carry the
  creation time truncated to milliseconds and only the search index carries it exactly (`Convergence`).

## Model

| member | source | states |
|---|---|---|
| EndToEnd.Convergence | internal/storage/postgres.go:119-129 | in every run of creations, crashes, lost replies, duplicates, failed writes and restarts: once the consumed brokers have no undelivered rows and their logs are acknowledged, both Cassandra tables and the index hold exactly one entry per message with a job for them, with its text, checksum, creation time and feed key, and nothing else |
| EndToEndRecovery.ConvergenceIsAlwaysReachable | internal/outbox/worker.go:76-162 | every state of every composed run, whatever failed, has a continuation after which all consumed brokers have settled and the stores have converged |
| EndToEndRecovery.CatchUpBroker | cmd/consumer/main.go:139-171 | from any state, a new reader of a broker whose entries decode can acknowledge its whole log, by commits for Kafka and by acknowledgements for the queues; an entry that does not decode is never acknowledged (`Consumer.AcknowledgedMeansHandled`), so the condition is exact |
| EndToEndRecovery.HandleIsARun | cmd/consumer/main.go:81-102 | whatever becomes of its two writes, the handler is a run of the composed machine: the stores end as `Handle` leaves them, and the record is marked handled exactly when it returns nil |
| EndToEndRecovery.DrainAll | internal/outbox/worker.go:76-162 | one idle worker can empty the queues of all targets without disturbing consumers or stores |
| EndToEnd.TrueCopiesConverge | internal/cstore/cstore.go:158-164 | true copies of every wanted message are exactly one entry each, with its text, checksum, creation time and feed key, and nothing else |
| EndToEnd.SettledMeansStored | cmd/consumer/main.go:81-102 | one settled broker is enough for every message with a job for it to be in every configured store with its text, checksum, creation time and feed key |
| EndToEnd.EveryRun | internal/outbox/worker.go:93-152 | every state of every composed run keeps: stores hold only true copies of committed messages, what was handled was written, and all outbox and consumer invariants |
| EndToEnd.OutboxStep | internal/outbox/worker.go:66-163 | no outbox step invalidates what consumers and stores rely on |
| EndToEnd.StoreStep | internal/cstore/cstore.go:154-168 | a write of any log entry, at any time, leaves only true copies in the stores |
| EndToEnd.LogTellsFacts | internal/domain/messaging/message.go:47-49 | a decoded log entry is the creation event of a committed message with a job for that broker: its text, checksum and time, produced by otus-app |
| OutboxTheorems.EveryRun | internal/outbox/worker.go:66-163 | every state of every run of the outbox protocol keeps all thirteen invariants |
| OutboxTheorems.NoLossNoPhantom | internal/storage/outbox.go:36-79 | a row is undelivered or its exact event is in its broker's log; every log entry belongs to a committed message with a job for that broker |
| OutboxTheorems.DeliveredForever | internal/storage/outbox.go:56-66 | a delivered row never changes again, over any continuation of the run |
| OutboxTheorems.Fencing | internal/storage/outbox.go:33-79 | attempts equals the number of claims that took effect; the token is empty or the latest claim's; Complete and Retry under any other token change nothing and report the lease lost |
| OutboxTheorems.LeasesDoNotOverlap | internal/storage/outbox.go:36-43 | two claims of a row with no effective retry between them are at least 45 s apart |
| OutboxTheorems.RetriesAreSpaced | internal/outbox/worker.go:139-140 | retries back off over whole runs: a row given back after its n-th claim is not claimed again for half of min(30 s, 2^(n-1) s), never less than half a second |
| OutboxTheorems.AttemptsCountClaims | internal/storage/outbox.go:40-43 | the attempt number a claim hands out is the number of claims of that row up to and with this one |
| OutboxTheorems.NewMessagesAreClaimable | internal/storage/outbox.go:15-26 | in every run a new message has, for each target, a job that can be claimed at the very moment of its creation |
| OutboxTheorems.BoundedUnavailability | internal/storage/outbox.go:40-41 | in every reachable state an undelivered row becomes available within 45 s |
| OutboxTheorems.LiveWorkersKeepTheirLease | internal/outbox/worker.go:89-152 | if a worker meets its 3 s, 10 s and 3 s deadlines, however the other workers stall, its finishing statement finds its own lease, with 29 s of it left: no newer claim |
| OutboxTheorems.PromptRunsKeepPace | internal/outbox/worker.go:89-131 | in such runs each phase of that worker starts within the sum of the deadlines before it, counted from the moment of the claim |
| OutboxInvariants.RowsPersist | internal/storage/outbox.go:56-79 | no step removes a row, changes its payload, or touches a delivered row |
| OutboxInvariants.DataStep | internal/storage/postgres.go:119-129 | every step keeps rows, messages and logs consistent |
| OutboxInvariants.FenceStep | internal/storage/outbox.go:40-43 | every step keeps attempts equal to the claim count and the token at the latest claim |
| OutboxInvariants.LeaseStep | internal/storage/outbox.go:36-43 | until it is finished or 45 s pass, a granted lease keeps its row, whatever step comes next |
| OutboxInvariants.EndStep | internal/outbox/worker.go:131-152 | every delivery is finished by at most one statement, sent by the worker that holds it |
| OutboxInvariants.SpaceStep | internal/storage/outbox.go:36-43 | every step keeps unretried claims one lease apart |
| OutboxInvariants.ConfirmStep | internal/outbox/worker.go:117-152 | Complete is only ever sent for an event that is in the log |
| OutboxInvariants.AttemptStep | internal/storage/outbox.go:40-43 | every step keeps the handed-out attempt numbers equal to the claim counts |
| OutboxInvariants.RestStep | internal/storage/outbox.go:68-79 | every step keeps the back-off distance after retries |
| OutboxRecovery.AlwaysDrains | internal/outbox/worker.go:76-162 | from every reachable state, after one lease, one undisturbed worker delivers the undelivered rows of a target by its own rounds alone, one per row; the log grows by exactly their events in (available_at, message_id) order |
| OutboxRecovery.DeliverRound | internal/outbox/worker.go:89-161 | from any state, an idle worker and an eligible row have a round that publishes and completes that row and changes no other |
| OutboxRecovery.DeliverableAtOnce | internal/outbox/worker.go:89-161 | a new message can be delivered without waiting: one round of any idle worker publishes and completes it |
| OutboxWorker.Drain | internal/outbox/worker.go:76-162 | the loop on a quiet table delivers all pending rows, each once, in order, then finds nothing; other rows are untouched |
| OutboxWorker.Deliver | internal/outbox/worker.go:93-161 | one round claims the first pending row, appends its event to the log and completes it, or does nothing when none is pending |
| OutboxWorker.Worker.Claim | internal/outbox/worker.go:89-111 | the claim half amid interference: failed exactly when no answer came, nothing exactly when the answer was empty, else a leased row |
| OutboxWorker.Worker.Round | internal/outbox/worker.go:76-162 | under arbitrary interference a round is exactly one of four, decided by what it met: claim failed, nothing there, delivered, given back; its steps in the run, its counters and its publisher are stated for each |
| OutboxWorker.Worker.Finish | internal/outbox/worker.go:117-161 | a success exactly when there is a publisher, it reports success and the broker holds the event at the moment of the report; then Complete is sent and the count reset, otherwise Retry with the worker's own attempt count and the publisher closed |
| OutboxWorker.Worker.Run | internal/outbox/worker.go:66-163 | the whole loop is such rounds, one after the other up to the first that meets the end of the context; its two counters are the streaks of failed publications and failed claims; every publisher built is closed when it returns |
| OutboxTable.Outbox.Claim | internal/storage/outbox.go:33-54 | the claimed row is the first eligible unlocked one by (available_at, message_id), with new token, lease and attempt; None exactly when there is none |
| OutboxTable.Outbox.Complete | internal/storage/outbox.go:56-66 | effective exactly when the token matches and the row is undelivered, otherwise lease lost |
| OutboxTable.Outbox.Retry | internal/storage/outbox.go:68-79 | likewise, with the row available again after the delay |
| OutboxProtocol.RetryDelayMs | internal/outbox/worker.go:139-140 | the delay lies between half of min(30 s, 2^(n-1) s) and all of it, n being the larger of the row's and the worker's own number of attempts |
| MessageStore.Postgres.Create | internal/storage/postgres.go:89-130 | one transaction: inserts the message, stamped with its text, checksum and time, and one claimable job per target, or changes nothing; the answer is the one the key's owner, the text and the fault determine, also when the connection breaks at the SELECT of the owner; with no fault and valid targets a new key is created and a taken one found or refused |
| MessageStore.Postgres.InsertJobs | internal/storage/postgres.go:123-128 | exactly one job per distinct target, or failure on a broken connection or a target the table refuses |
| MessageStore.NewJobsAreClaimable | internal/storage/postgres.go:123-128 | a creation adds exactly one job per target, eligible at once, with no attempt, token or delivery, and changes no other row |
| MessageStore.NewJobIsNext | internal/storage/outbox.go:36-43 | when nothing else is pending for the target, the new job is exactly what the next claim takes |
| MessageStore.CallsRefine | internal/storage/postgres.go:99-113 | over any sequence of calls and faults, creation refines a plain map from keys to messages, answer by answer |
| MessageStore.CallsKeepSound | internal/storage/postgres.go:89-130 | each key owns at most one message, messages and rows never change, checksums match, and rows are exactly messages times targets |
| MessageStore.KeyAnswersForever | internal/storage/postgres.go:103-114 | a key once committed, even unheard, keeps its one message; a later call with it changes nothing and is answered with that message if its text is the same, with a conflict otherwise |
| Messaging.ValidTextIsNotBlank | internal/domain/messaging/message.go:26-31 | a text is valid exactly when trimming white space leaves something of it |
| Consumer.AcknowledgedMeansHandled | internal/broker/kafka.go:160-188 | for any number of readers, failures, rebalances, late commits and restarts: everything below a committed offset, and every acknowledged delivery, was handled |
| Consumer.EveryRun | internal/broker/kafka.go:160-188 | the underlying invariant: each reader's position has only handled records below it, except the one in hand |
| Consumer.FetchesAreConsecutive | internal/broker/kafka.go:160-188 | in every run a reader goes through a partition record by record: until it is placed anew, each fetch takes the next record, skipping none and repeating none |
| ConsumerLoops.KafkaTurn | internal/broker/kafka.go:160-188 | amid interference: if a record can be fetched it is; if it decodes and its handler succeeds it is handled and its commit asked for, in that order; the reader fails exactly when decoding, handler or commit fails, and stops only on a cancelled context with nothing to fetch |
| ConsumerLoops.QueueTurn | internal/broker/rabbit.go:216-234 | likewise for RabbitMQ, and for NATS of the same shape, with the acknowledgement of the one delivery |
| ConsumerLoops.Consume | internal/broker/kafka.go:160-188 | the loop is such turns, one after the other up to the first that ends it, and returns how that one ended |
| ConsumerLoops.HandleOne | internal/broker/nats.go:155-165 | a record is marked handled exactly when it decodes and its handler succeeds; otherwise it stays in hand as it was |
| ConsumerLoops.Supervise | cmd/consumer/main.go:139-171 | lives of a reader, each joining, consuming and leaving, up to the end of the context; the waiting grows by one attempt per restart since the handler last succeeded; acknowledged implies handled throughout |
| Projections.Handler.Handle | cmd/consumer/main.go:81-102 | nil exactly when every configured write was confirmed; Cassandra first; the index is untouched unless Cassandra confirmed or is switched off |
| Projections.DuplicatesCollapse | internal/search/search.go:186-224 | a repeated event leaves both stores as they were, after any sequence of writes for other messages |
| Retry.ExponentialDelay | internal/resilience/retry.go:15-25 | the loop computes the capped doubling inside 64 bits, in logarithmically many rounds |
| Retry.CappedDelayClosedForm | internal/resilience/retry.go:15-25 | which is min(limit, base * 2^(max(attempt,1)-1)) on normalised arguments |
| Retry.Jitter | internal/resilience/retry.go:15-28 | the returned delay is half of it plus a draw below the rest |
| Retry.JitterCoversItsInterval | internal/resilience/retry.go:26-28 | the possible delays are exactly the interval from half to the full delay, upper end excluded |
| Retry.JitterValue | internal/resilience/retry.go:26-28 | the delay lies in that interval |
| Retry.BackoffValue | internal/resilience/retry.go:10-12 | between half of min(30 s, 2^(attempt-1) s) and all of it |
| Retry.Backoff | internal/resilience/retry.go:10-12 | the method returns that value for every 64-bit attempt |
| Retry.DoWithRetries | internal/resilience/retry.go:37-60 | the loop's calls, metrics, pauses and result are the recursive report |
| Retry.RetryAccounting | internal/resilience/retry.go:37-60 | at most max(Attempts,1) calls, calls-1 retries, exhaustion at most once and exactly on a retryable last error with a live context; fewer pauses than attempts allowed, one per call but possibly the last, each between half of its capped exponential delay and all of it |
| Retry.RetryEnding | internal/resilience/retry.go:37-60 | exactly which attempt is the last and what is returned: the first attempt that does not go on decides, or the context that ended before the next |
| CircuitBreaker.SingleProbe | internal/resilience/breaker.go:60-76 | in half-open exactly one unfinished call holds the current generation if the probe is out, else none; the probe implies half-open |
| CircuitBreaker.ProbeDecides | internal/resilience/breaker.go:78-102 | over whole runs the answer of the probe decides: success closes with a clean count, an error opens for another five to ten seconds, a cancellation frees the probe |
| CircuitBreaker.AdmissionDecides | internal/resilience/breaker.go:60-76 | over whole runs a call is let in exactly when the circuit is closed, or half-open with no probe out, or open past its deadline; a refused call changes nothing |
| CircuitBreaker.LeavesClosedOnThirdError | internal/resilience/breaker.go:89-101 | while closed the counter is the trailing run of errors of this epoch, and the circuit leaves closed exactly when it becomes three |
| CircuitBreaker.OldAnswersChangeNothing | internal/resilience/breaker.go:81-84 | a completion changes the breaker only if its call was admitted after the latest move, and never an open one |
| CircuitBreaker.GenerationCountsMoves | internal/resilience/breaker.go:104-109 | the generation counts the moves, which are only closed to open, open to half-open, half-open to closed or open, each from where the last one led |
| CircuitBreaker.CoolDownWindow | internal/resilience/breaker.go:60-101 | after a trip at T nothing is admitted before T+5 s; a call finding it open at T+10 s or later is admitted as the only probe |
| CircuitBreaker.EveryRun | internal/resilience/breaker.go:60-109 | every state of every run of overlapping calls keeps the four invariants behind these |
| CircuitBreaker.Breaker.TryAdmit | internal/resilience/breaker.go:60-76 | the method is the admission step of those runs |
| CircuitBreaker.Breaker.Settle | internal/resilience/breaker.go:78-102 | the method is the completion step of those runs |
| Transport.HTTPTransport.RoundTrip | internal/resilience/http.go:35-87 | at most three copies of the original body go upstream, at most one unless GET, HEAD or PUT with a replayable body (idempotent methods, section 9.2.2 of RFC 9110); a response comes back exactly when the last attempt got an answer that is not 429, 500, 502, 503 or 504, or one that will not be asked again; success, error and cancellation are each recorded on exactly those results, whatever other calls do to the breaker meanwhile; every response obtained is closed except the returned one, which is open |
| Transport.HTTPTransport.Guard | internal/resilience/breaker.go:39-58 | refusal, skipping and running are told apart; success, error and cancellation are each recorded exactly when the policy returned so; the breaker settles from the state other calls left it in, and alone and closed it counts exactly the errors and opens on the third |
| Transport.SendingEnds | internal/resilience/http.go:37-73 | exactly how many attempts a request gets and whether an answer goes back: another attempt follows exactly on a busy status, a network error or an end of file of a repeatable request with attempts and context left |
| Transport.PausesBetweenAttempts | internal/resilience/http.go:31-32 | at most two pauses, of 50 to 100 ms and of 100 to 200 ms |
| Transport.HTTPTransport.Send | internal/resilience/http.go:42-73 | the retry policy around the closure: result and number of calls are the policy's report, and a deliverable result comes with an open response |
| Transport.HTTPTransport.Call | internal/resilience/http.go:45-72 | one attempt: previous response closed, body rewound, outcome judged |
| Transport.TailsOf | internal/resilience/retry.go:37-60 | the per-attempt facts the loop uses are those of the policy's report |
| Limiter.CounterIsExactIff | internal/ratelimit/ratelimit.go:34-42 | in every run a key's counter equals its executed hits if and only if none of them came one window length or more after the first |
| Limiter.LimitHolds | internal/ratelimit/ratelimit.go:91-119 | under that condition at most the largest limit in force plus the requests waved through pass per client and window; in any case a counter never expires inside the window it names |
| Limiter.LimitHoldsIff | internal/ratelimit/ratelimit.go:105-116 | for every limit n, when the executed hits of the key were answered and judged by n: at most n requests pass on their count if and only if the hits came within one window length of the first, or there are at most n of them, or n is not positive |
| Limiter.InTimeIsSustained | internal/ratelimit/ratelimit.go:96-104 | the condition holds when every hit is executed inside the window named in its key |
| Limiter.StretchHolds | internal/ratelimit/ratelimit.go:96-111 | any stretch of one window length passes at most twice the largest limit of counted requests, when both windows it touches meet the condition |
| Limiter.RefusedOnlyWhenFull | internal/ratelimit/ratelimit.go:111-116 | a request is refused only after as many requests of its client and window as the limit allows |
| Limiter.OneReadingIsInTime | internal/ratelimit/ratelimit.go:96-104 | forming the key and counting at one clock reading puts every hit inside its window |
| Limiter.LateCountingBreaksTheLimit | internal/ratelimit/ratelimit.go:34-38 | the failing input: counting one window length after the first hit lets two requests pass a limit of one |
| Limiter.Valkey.Hit | internal/ratelimit/ratelimit.go:34-42 | the script counts from one and sets the expiry on the first hit only |
| Limiter.RateLimiter.Serve | internal/ratelimit/ratelimit.go:95-118 | pass when the limiter is unavailable or the count is within the limit, refuse otherwise |
| Limiter.RateLimiter.SetLimit | internal/ratelimit/ratelimit.go:74-82 | non-positive limits are ignored |
| ListCache.EveryHit | internal/tcache/tcache.go:54-96 | every HIT of every interleaving, from any copy, with any Set or Delete failing, late or not yet replicated: at t it serves a tuple that was written, with its expiry computed at some s with t < s + 11 s; its list is the one of the moment of its read, and is the current one if and only if no message committed since is among the newest hundred |
| ListCache.EveryHitInOrder | internal/storage/postgres.go:134-136 | when commits come in the order of identifiers: if and only if nothing was committed since the read |
| ListCache.WhyAMessageIsMissing | internal/tcache/tcache.go:76-109 | a message missing from a served list was committed after as many executed operations as the list's read, or more: its Delete is not executed yet, or lies before the list's write, or has not reached the copy |
| ListCache.CalmHitIsCurrentIff | internal/handlers/handlers.go:146-201 | from a copy that is up to date, with no overtaken page and no issued Delete outstanding, a HIT is the current list if and only if no visible message was committed since its read by a request that issued no Delete |
| ListCache.OneAtATimeIsCalm | internal/handlers/handlers.go:146-201 | requests one at a time, with one copy and no failing Delete, whatever Gets, reads and Sets fail, keep that condition |
| ListCache.OneAtATimeHitIsCurrentIff | internal/handlers/handlers.go:146-201 | so there a HIT is the current list if and only if no visible message was stored since its read by a request that issued no Delete |
| ListCache.OneAtATimeAgrees | internal/handlers/handlers.go:146-201 | with no creation that stores its message and issues no Delete, every such HIT is the current list |
| ListCache.EveryRun | internal/tcache/tcache.go:54-109 | the invariant behind these, over every run of the machine |
| ListCache.OldPageIsCurrentIff | internal/storage/postgres.go:134-136 | an earlier list of the newest hundred by identifier is still the list if and only if no later message is among them |
| ListCache.NewestIsTheNewest | internal/storage/postgres.go:134-136 | the list has min(100, stored) messages, newest first, and everything left out is older than all of them |
| ListCache.LostReplyServesOldList | internal/handlers/handlers.go:163-174 | inputs: a lost reply to the commit, or a failed Delete, and then a HIT with the old list |
| ListCache.LaggingCopyServesOldList | internal/tcache/tcache.go:58-60 | input: nothing fails or overlaps, and a copy that lags behind serves the old list |
| ListCache.OverlapServesOldList | internal/handlers/handlers.go:188-199 | input: a creation between the read and the write of a list request, and then a HIT with the old list |
| ListCache.LifeOfAnEntry | internal/tcache/tcache.go:78-88 | an entry computed at s is live up to s + 10 s, and never from s + 11 s on |
| ListCache.Site.CreateMessage | internal/handlers/handlers.go:146-176 | amid other steps: the commit if there was one, and a Delete issued after a successful answer of the store and only then |
| ListCache.Site.ListMessages | internal/handlers/handlers.go:178-201 | amid other steps: a HIT exactly when the asked copy holds a live tuple, answered from it; otherwise the list of the moment of the read, which is what the Set carries; an error when the store fails |
| ListCache.Site.List | internal/storage/postgres.go:134-155 | the newest hundred messages by identifier, greatest first |

## Left out

- ConsumerLoops.Supervise: the lengths of its pauses are `Retry.BackoffValue` of the attempt numbers it returns; pauses themselves only let the rest of the world move.
- OutboxWorker.Worker.Round: the once-a-second statistics query and the lengths of the pauses between rounds are not part of the model; pauses only let the rest of the world move.
- ConsumerLoops.QueueTurn: reconnecting, prefetching and negative acknowledgements are seen only as redelivery of what was not acknowledged.
- ListCache.Site.ListMessages: a cache that is not configured at all is not modelled; every list request then reads the store. Tuples are always well formed.
- Client internals of PostgreSQL, Kafka, RabbitMQ, NATS, Cassandra, Elasticsearch, Valkey and Tarantool: replaced by the assumptions above.
- The publishers' own attempts (internal/broker/rabbit.go:136-181): a publication may store its event any number of times, confirmed or not.
- The 64-bit width of the breaker's generation, and calls that never return.
- `OutboxStats` counts the pending rows of a target and finds the oldest; `Search` and `Scan` find messages by a part of their text, `Recent` by day, `ByID` by identifier: queries that change nothing the theorems speak of.
- HTTP routing, gRPC, the gateway, the chaos proxy, JWT, TLS, metrics, tracing and the status page.
- File storage with its download ranges, and the etcd configuration watch.
