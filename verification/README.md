# Harbor scanner adapter for Trivy: a verified model

The adapter accepts scan requests from Harbor, queues one job for every report a request asks for, and
lets any number of pods take jobs from a shared Redis stream, run Trivy and store the reports. This
project models the durable queue as a state machine over a Redis server and proves what it guarantees
over every run. It also models six smaller algorithms of the adapter: naming and fan-out of jobs, the
bounded output buffer, the vulnerability report of the build, the cache size sampler, the Go memory limit
and the child environment. `dafny verify dfyconfig.toml` checks everything.

## The scan queue

`Redis.dfy` holds the server as a value (stream, consumer group, leases, job records, reports, quarantine,
clock) and each Lua script as one transition of it. `RedisServer.dfy` runs every script command by command
on a server that changes in place, and proves that it makes exactly that transition. `RedisLaws.dfy` says
what each transition means for those who look later: what is there after any wait.

`ScanQueue.dfy` is the protocol. An *agent* is one invocation of `process`, named by the lease token it
draws. Every event is one Redis round trip or one local decision, and the events of any number of agents
interleave freely with the environment: time passes, leases and records expire, the consumer group is
destroyed and recreated, idle consumers are deleted, entries no worker can decode are added, keys are
evicted. An agent that never moves again has crashed. An agent may give up at any point, and a script it
has sent may be executed any number of times until its success is known, also long after the agent gave
up, because Redis may apply a script whose reply was lost. Redis is one linearizable server that never
takes an entry back; scripts are atomic.

`ScanQueueInvariant.dfy` proves an inductive invariant, `ScanQueueSteps.dfy` what a single step can
change, and `ScanQueueTheorems.dfy` the guarantees over whole runs; `ScanQueueScenarios.dfy` reaches the
states in which two of its weaknesses show. `StreamWorker.dfy` and `Enqueuer.dfy` are the worker and the
enqueuer as imperative code in the order of the source. Every round trip of them is proved to be an event of
the state machine, and a loop over the worker proves that a delivery is retired within a fixed number of runs.

The proofs rest on these assumptions:

- Lease tokens and request ids are fresh. A key is only offered again while its record exists, by a retry.
- A script whose success reply has arrived is not applied once more afterwards. The same holds for the SETNX
  that takes a lease: once its reply has arrived, no delayed duplicate of it can take the lease again.
- The server clock does not run backwards, and the stream is never deleted as a whole.
- Calls into the store and the metrics do not panic.

## What the proofs brought out

- `Get` reads the record and the report in two round trips. A reader that sees Finished gets the finishing
  attempt's report exactly if the record still exists at the second one (`GetReturnsFinishersReport`).
  Otherwise it gets a Finished job with an empty report: from every reachable state with a Finished record
  under an expiry, waiting brings this about (`ReaderComesTooLate`), and such states are reached
  (`ReportCanBeMissed`).
- Retention is not set once. The expiry of a retired record changes exactly when an acknowledgement passes the
  fence with a positive TTL at another time (`ExpiryMovesExactly`), and a second agent that holds a stale
  message gets there (`ExpiryCanMove`). It never moves earlier and never goes away (`RecordOverRun`).
- `MIMEType.Equal` is equality for every type without an empty parameter and for no other: an empty
  parameter is mistaken for one the other type does not have (`MimeEqualDecides`).
- `setEnv` is idempotent exactly for settings that contain `=`: a bare name is never found as an old entry
  for its key (`SetTwice`).
- Keys under two request ids can share their text exactly if one id continues the other by a colon and the
  text of a supported MIME type, and goes on with a colon if it goes on (`IdsCollideExactly`). Ids without a
  colon, such as the hexadecimal ones that are generated, never do (`KeyTextInjective`).
- `analyze` groups findings by a joined text. The result is the report for each pair of vulnerability and
  module exactly if no two pairs of the stream share that text (`Analyze`), which takes a vulnerability id that
  starts with another one and a NUL (`IdsMeetExactly`); a stream with such a pair is `NulInIdCollides`.

## Model

| member | source | states |
|---|---|---|
| ScanQueueTheorems.NoLostUpdate | pkg/persistence/redis/store.go:220-247 | the first time a status update takes effect in any run, the stored record is still the one it was computed from; executed again, the record is the one it wrote, so no interleaving loses an update |
| ScanQueueTheorems.AtMostThreeScans | pkg/queue/stream.go:347-363 | over any run the wrapper is called at most three times for a job, and never more often than its record counts attempts, which never exceed three |
| ScanQueueTheorems.ScansCounted | pkg/scan/controller.go:96-123 | the calls of the wrapper along a run are as many as the distinct agents that made one, which are exactly those with such an event; each of them works on this job, and its own Pending write took effect and is one of the attempts the record counts |
| ScanQueueTheorems.NotStranded | pkg/queue/stream.go:238-279 | a stored job that is not terminal has exactly one stream entry, and while the group exists every entry is pending or ahead of the last delivered one, also after the group was lost and recreated |
| ScanQueueTheorems.NeverStuck | pkg/queue/stream.go:132-180 | from every reachable state, whether the group is lost and whoever holds the lease, nothing but commands of the worker loop and at most one lease period of waiting hand every entry to a new agent, pending, with a free lease, and with all records that do not expire as they were |
| ScanQueueTheorems.RecordOverRun | pkg/persistence/redis/store.go:23-60 | between any two states of a run: Finished and Failed records and their reports do not change, a record that is gone stays gone, and an expiry set at retirement is neither removed nor moved earlier |
| ScanQueueTheorems.ReportOfFinisher | pkg/scan/controller.go:128-138 | the report stored beside a Finished record is the one scanned by the agent whose Finished write took effect, never a mix of attempts |
| ScanQueueTheorems.FinisherWroteFinished | pkg/scan/controller.go:128-138 | whoever counts as the finisher became it in an earlier step of the run, in which its Finished write passed the fence of its own lease beside its own report |
| ScanQueueTheorems.GetExactly | pkg/persistence/redis/store.go:158-193 | for all states at its two round trips `Get` finds nothing if and only if there is no record at the first; otherwise key, status, attempts, error and finishing time are those of that record, and the report is the one stored at the second, or else the one in the record |
| ScanQueueTheorems.AcceptedIsFound | pkg/persistence/redis/store.go:158-193 | over any run a read finds every accepted job that is not retired or still has its record, whatever its status, with its own key, attempts and error, unless it was evicted |
| ScanQueueTheorems.RetiredIsKept | pkg/persistence/redis/store.go:26-37 | a retired record and its report are there, unchanged, in every later state before their expiry, and for good without one, unless they were evicted |
| ScanQueueTheorems.GetReturnsFinishersReport | pkg/persistence/redis/store.go:158-193 | a read that sees Finished returns the finisher's report, whatever happens between its two round trips, exactly when the record exists at the second; otherwise an empty report |
| ScanQueueTheorems.DeliveriesConserved | pkg/persistence/redis/store.go:26-46 | in every state each entry ever added is in exactly one of stream, acknowledged and quarantined, and over a run none of the last two is ever left |
| ScanQueueTheorems.LeftForAReason | pkg/queue/stream.go:336-367 | an acknowledged entry has a terminal record for as long as it has one; a quarantined one was undecodable or its record was evicted |
| ScanQueueTheorems.RetentionStartsAtRetirement | pkg/persistence/redis/store.go:81-108 | while a delivery is in the stream neither record nor report has an expiry; once acknowledged, the record has one exactly if the TTL is positive, and the report has the same |
| ScanQueueTheorems.OneWriter | pkg/queue/stream.go:288-298 | at most one agent can pass the fence for a job, also after redelivery by a recreated group |
| ScanQueueTheorems.LostLeaseStaysLost | pkg/queue/stream.go:38-46 | an agent that has lost its lease, or never got it, never holds it again in any run |
| ScanQueueTheorems.LateLeaseScriptsDoNothing | pkg/queue/stream.go:38-46 | however long after an agent has lost its lease its renewal or release arrives, the server stays as it is: no newer lease is extended or deleted |
| ScanQueueTheorems.RenewedLeaseStays | pkg/queue/stream.go:304-327 | an agent that holds its lease, renews it before a minute has passed since the last time, and neither releases it nor retires its delivery, holds it in every later state of the run, whatever others do |
| ScanQueueInvariant.EventKeeps | pkg/queue/stream.go:281-368 | every event of the protocol and of its environment keeps the invariant from which the guarantees follow |
| ScanQueueInvariant.SetStatusRecord | pkg/persistence/redis/store.go:234-246 | a status write that takes effect keeps the stored attempts equal to the number of agents that have begun, at most three, however often it is executed |
| ScanQueueInvariant.OneEntryPerJob | pkg/persistence/redis/store.go:38-46 | two agents with messages for one job hold the same entry, so they compete for the same lease |
| ScanQueueSteps.OnlyTheHolderWrites | pkg/persistence/redis/store.go:47-59 | whatever a step changes in the record or report of an accepted job is the work of the current lease holder |
| ScanQueueSteps.QuarantineOnce | pkg/queue/quarantine.go:12-23 | a failed copy to quarantine changes nothing, and an entry already quarantined or acknowledged is not copied or removed again |
| ScanQueueSteps.AlwaysPossible | pkg/queue/stream.go:246-279 | nothing that the environment or a failing agent may do is ruled out: time, loss of the group, evictions, foreign entries and clean-up in every state, giving up at any point, and execution of a sent script also afterwards |
| ScanQueueSteps.LeaseTriedExactly | pkg/queue/stream.go:288-298 | an agent goes on if and only if it took the lease and heard so; a lost reply leaves the lease taken and the agent done |
| ScanQueueSteps.ExpiryMovesExactly | pkg/persistence/redis/store.go:26-37 | once a delivery is acknowledged, a step changes the expiry of its record if and only if it is an acknowledgement that passes the fence with a positive TTL and would set another expiry |
| ScanQueueScenarios.ExpiryCanMove | pkg/queue/stream.go:364-367 | for every job and every TTL above a millisecond a reachable state in which a stale acknowledgement moves the expiry |
| ScanQueueScenarios.ReaderComesTooLate | pkg/persistence/redis/store.go:166-175 | from every reachable state with a Finished record under an expiry, waiting makes a read in progress return Finished without a report |
| ScanQueueScenarios.ReportCanBeMissed | pkg/persistence/redis/store.go:158-193 | for every job, report and positive TTL a reachable state in which that report is stored and a read in progress misses it |
| RedisServer.Server.RunEnqueue | pkg/persistence/redis/store.go:38-46 | adds record and delivery together, or changes nothing observable when the record exists or cannot be stored |
| RedisServer.Server.RunUpdateJob | pkg/persistence/redis/store.go:47-52 | replaces the record under the lease and clears the expiry of record and report; without the lease or the record it changes nothing and says which |
| RedisServer.Server.RunUpdateReport | pkg/persistence/redis/store.go:54-59 | stores the report under the lease and clears the expiry of record and report; without the lease or the record it changes nothing and says which |
| RedisServer.Server.RunAcknowledge | pkg/persistence/redis/store.go:26-37 | under the lease removes the entry from stream, pending list and leases and gives record and report one expiry; otherwise changes nothing |
| RedisServer.Server.RunRenewLease | pkg/queue/stream.go:38-42 | the commands make exactly the transition of `LeaseRenewed`: only the caller's own lease, extended before a lost group is an error, and the entry claimed only if it is pending |
| RedisServer.Server.RunReleaseLease | pkg/queue/stream.go:44-46 | removes the lease exactly if it carries the caller's token |
| RedisServer.Server.RunQuarantine | pkg/queue/quarantine.go:16-23 | moves an entry from stream and pending list to quarantine, or changes nothing if it is gone or the copy fails |
| RedisServer.Server.RunCleanConsumers | pkg/queue/stream.go:48-59 | the loop over a snapshot of consumers deletes exactly those without pending entries that are named or idle too long, and loses no pending entry |
| RedisServer.IdleConsumerLosesNothing | pkg/queue/stream.go:48-50 | deleting a consumer that has nothing pending removes no recovery record, although Redis discards a deleted consumer's pending entries |
| RedisLaws.LeaseTaken | pkg/queue/stream.go:288-298 | a free lease that is taken is held for exactly one minute; a taken one is left alone |
| RedisLaws.LeaseRenewed | pkg/queue/stream.go:38-42 | a renewal by the owner makes the lease last exactly one minute from now, keeps a pending entry from being reclaimed for exactly as long, and touches no other lease |
| RedisLaws.LeaseReleased | pkg/queue/stream.go:44-46 | after a release by the owner anybody can take the lease at once, and nothing else has changed |
| RedisLaws.ReadHandsOut | pkg/queue/stream.go:159-163 | a read entry is pending for the consumer who got it, can be taken over exactly after one minute, and is not read again |
| RedisLaws.ReclaimHandsOut | pkg/queue/stream.go:139-142 | a reclaimed entry is pending for its new consumer and can be taken over exactly after one more minute |
| RedisLaws.GroupRecreated | pkg/queue/stream.go:234-244 | a recreated group delivers every entry of the stream again; an existing one is left alone |
| RedisLaws.CleanedExactly | pkg/queue/stream.go:48-59 | a consumer stays if and only if it has a pending entry, or is neither named nor idle for longer than allowed |
| RedisLaws.StatusWritten | pkg/persistence/redis/store.go:47-52 | an effective status write stores the record, and keeps the report, for as long as anybody waits; otherwise nothing changes, and the reply says why |
| RedisLaws.ReportWritten | pkg/persistence/redis/store.go:54-59 | an effective report write stores the report, and keeps the record, for as long as anybody waits; otherwise nothing changes, and the reply says why |
| RedisLaws.Acknowledged | pkg/persistence/redis/store.go:26-37 | an effective acknowledgement takes out entry and lease, and leaves record and report for exactly a positive TTL, or as they were |
| RedisLaws.Enqueued | pkg/persistence/redis/store.go:38-46 | a new job is stored for as long as anybody waits with its entry last in the stream; otherwise stream and records are as they were |
| RedisLaws.Isolated | pkg/queue/quarantine.go:16-23 | an entry is copied, whole and with its reason, and taken out, or nothing changes |
| RedisLaws.KeptUntilExpiry | pkg/persistence/redis/store.go:23-24 | a key is there until its expiry and no longer |
| RedisLaws.TtlMillisExact | pkg/persistence/redis/store.go:329-338 | the scripts see a positive TTL if and only if the configured duration is positive, and it is off by less than a millisecond |
| StreamWorker.Worker.SetNX | pkg/queue/stream.go:288-298 | the lease is taken exactly if nobody holds it, as one step of the protocol |
| StreamWorker.Worker.UpdateStatus | pkg/persistence/redis/store.go:220-247 | a missing record or a lost lease is reported and changes nothing on the server; otherwise read, change and fenced write are steps of the protocol that leave entry, group and leases alone and hand the agent on to what its caller does next |
| StreamWorker.Worker.UpdateReport | pkg/persistence/redis/store.go:249-280 | a lost lease or a missing record is reported and changes nothing on the server; otherwise the scanned report is stored, the record's value stays, and only then Finished is allowed |
| StreamWorker.Worker.AcknowledgeDelivery | pkg/persistence/redis/store.go:84-108 | refuses a missing or non-terminal record and a lost lease without any effect; otherwise the delivery leaves the stream as acknowledged, its lease is gone, and record and report keep their values |
| StreamWorker.Worker.Scan | pkg/scan/controller.go:49-141 | for every outcome uses up exactly one attempt, and leaves the status, error text, finishing time and report of that outcome: Finished with its own report, Failed with the reason, or Pending to be retried |
| StreamWorker.Worker.QuarantineDelivery | pkg/queue/quarantine.go:32-45 | the message and the reason given are preserved, and the entry is taken out of stream and pending list; records, reports and other entries stay |
| StreamWorker.Worker.ProcessRecord | pkg/queue/stream.go:347-367 | a terminal record is retired untouched, three used-up attempts end in Failed with the retry-limit message, and otherwise the outcome of one attempt is recorded; only a retryable one leaves delivery and group as they were |
| StreamWorker.Worker.Process | pkg/queue/stream.go:281-368 | for every message, fresh or stale: undecodable and orphaned ones are quarantined with the reason, one whose lease is taken is left alone, any other ends as its record and this attempt demand, with its lease freed |
| StreamWorker.Worker.ReadUpTo | pkg/queue/stream.go:139-180 | recreating a lost group from the start and reading on make every delivery of the stream pending, and change no record and no report |
| StreamWorker.Worker.RetireDelivery | pkg/queue/stream.go:347-367 | from every reachable state with the delivery in the stream and its record stored, whether the group is lost or the entry still undelivered, and for all scan outcomes: retired with a terminal record within 4 minus its attempts runs, and record and report are those of the first outcome that is not to be retried, or the verdict of giving up after three attempts |
| StreamWorker.RunAfterRuns | pkg/queue/stream.go:347-367 | one more run after runs that were all to be retried either leads to another retry or retires the delivery with the verdict of that run |
| StreamWorker.WaitFreesTheDelivery | pkg/queue/stream.go:139-142 | after one lease period without renewal a pending delivery of any reachable state can be reclaimed, its lease is free and its record unchanged |
| ScanJobKeys.SupportedText | pkg/http/api/base_handler.go:88-101 | each supported MIME type has one text, whatever the iteration order over its parameters |
| ScanJobKeys.MimeTextParts | pkg/http/api/base_handler.go:88-101 | a type with both names reads type/subtype, followed by its parameters if there are any; any other is empty text |
| ScanJobKeys.ParamsTextGrows | pkg/http/api/base_handler.go:96-100 | every parameter is written as name=value, with a semicolon before every further one |
| ScanJobKeys.MimeTypeVariable.Parse | pkg/http/api/base_handler.go:103-117 | assigns all fields of a supported type, or reports an error and assigns none |
| ScanJobKeys.ParseUndoesText | pkg/http/api/base_handler.go:88-117 | parsing the text of a supported type yields that type, and nothing else parses except the two ways to ask for the default |
| ScanJobKeys.ParsesExactly | pkg/http/api/base_handler.go:103-117 | empty text, the wildcard and its own text yield the vulnerability report, its own text yields the SBOM report, and nothing else is accepted |
| ScanJobKeys.MimeEqualDecides | pkg/http/api/base_handler.go:119-129 | comparing a type with all others decides equality if and only if it has no empty parameter |
| ScanJobKeys.IdsCollideExactly | pkg/job/model.go:40-45 | for all pairs of request ids: two different keys under them share a text if and only if one id is the other, a colon and a supported MIME text, or starts with these and another colon |
| ScanJobKeys.KeyTextInjective | pkg/job/model.go:40-45 | for request ids without a colon and supported MIME types no two job keys have the same text, for every media type; by the exact condition |
| ScanJobKeys.ColonInIdCollides | pkg/job/model.go:40-45 | every request id collides with some other id |
| ScanJobKeys.RedisKeysApart | pkg/persistence/redis/store.go:340-346 | in one namespace job keys and report keys are injective in the key text and never coincide |
| ScanJobKeys.NamespacesApart | pkg/persistence/redis/store.go:340-346 | adapters with different colon-free namespaces share no job key and no report key |
| Enqueuer.ValidateCapabilities | pkg/http/api/v1/handler.go:173-209 | accepts exactly the lists of acceptable capabilities; otherwise the first unacceptable one determines status code and message, for any rendering of %q |
| Enqueuer.ValidateScanRequest | pkg/http/api/v1/handler.go:137-171 | accepts exactly the requests with acceptable capabilities, a registry URL that parses, a repository and a digest; otherwise the first failing check determines the error |
| Enqueuer.SomethingWanted | pkg/http/api/v1/handler.go:112-120 | an accepted request, completed by the default capability, asks for at least one report |
| Enqueuer.WantedExactly | pkg/queue/enqueuer.go:66-78 | a job is wanted if and only if some capability lists its MIME type and, unless it is a vulnerability scan, whose media type is empty, lists its media type |
| Enqueuer.AskedExactly | pkg/http/api/v1/handler.go:112-120 | the same for a request as it comes in, where an empty list asks for the vulnerability report alone |
| Enqueuer.OneMore | pkg/persistence/redis/store.go:38-46 | one more execution of the enqueue script, first or retried, adds a wanted job with one delivery of its own or nothing |
| Enqueuer.Enqueuer.EnqueueOne | pkg/queue/enqueuer.go:104-122 | after any number of executions, failures and lost replies the job is stored once or not at all, and success means once; every execution is an event of the scan queue |
| Enqueuer.Enqueuer.Enqueue | pkg/queue/enqueuer.go:59-102 | success leaves exactly the jobs the capabilities ask for under the new id stored as Queued with one delivery of this request each, in a reachable state of the queue that has accepted exactly these; failure leaves a part of it, each again with its delivery; nothing else changes |
| Enqueuer.Enqueuer.AcceptScanRequest | pkg/http/api/v1/handler.go:95-135 | an improper request changes nothing; an accepted one leaves under its id exactly the jobs its capabilities ask for, and at least one |
| Enqueuer.FanOutOverRun | pkg/queue/enqueuer.go:66-99 | with the scripts of a request interleaved in any way with workers, other requests and the environment: once each has got through, exactly the jobs its capabilities ask for are accepted under its id, each with an entry of its own that carries the request, in one of stream, acknowledged and quarantined, and in the stream while the job is not finished |
| Enqueuer.WantedNamesApart | pkg/job/model.go:32-45 | the jobs of one request have distinct names in Redis |
| LimitedBuffer.TailOfAppend | pkg/ext/buffer.go:27-31 | of a history and a write only the tail of each can be in the tail of both |
| LimitedBuffer.Buffer.Trim | pkg/ext/buffer.go:45-49 | the overlapping move to the front of the same array leaves exactly the last limit bytes |
| LimitedBuffer.Buffer.Write | pkg/ext/buffer.go:20-43 | keeps the invariant: the buffer ends in the last limit bytes ever written, rests at no more than twice the limit, knows whether anything was dropped, and has moved no more bytes by trimming than it has appended |
| LimitedBuffer.Buffer.Bytes | pkg/ext/buffer.go:51-57 | returns the last limit bytes of everything written |
| LimitedBuffer.Buffer.Truncated | pkg/ext/buffer.go:61-65 | true exactly if more was written than the limit |
| LimitedBuffer.WriteAll | pkg/ext/buffer.go:20-57 | for every sequence of writes: the reader gets the last limit bytes, is told of a loss exactly if there was one, and the buffer rested within twice the limit |
| VulnReport.ReadStream | tools/govulncheck-report/report.go:112-131 | one pass collects configuration, table and findings of the whole stream, whose meaning the next rows state |
| VulnReport.ConfigIsLast | tools/govulncheck-report/report.go:123-125 | the configuration is that of the last message with one |
| VulnReport.TableHoldsLast | tools/govulncheck-report/report.go:126-127 | the table holds the last entry of each vulnerability that has one, and no other |
| VulnReport.FindingsInOrder | tools/govulncheck-report/report.go:128-130 | each finding comes after as many others as come before it in the stream |
| VulnReport.OnlyFindings | tools/govulncheck-report/report.go:128-130 | each collected finding stems from a message |
| VulnReport.DescribedByFirstFrame | tools/govulncheck-report/report.go:213-236 | version, level, trace text, fix and summary of a description are what the first frame, the finding and the entry say: Called if and only if that frame has a function, Required if and only if it has not even a package |
| VulnReport.DescribedModule | tools/govulncheck-report/report.go:213-225 | the module is that of the first frame if it is named, otherwise the first affected package with a name, or unknown |
| VulnReport.FirstFrameDecides | tools/govulncheck-report/report.go:221 | whatever follows the first frame of a trace does not matter |
| VulnReport.FallbackExactly | tools/govulncheck-report/report.go:256-263 | the fallback is the first name that is not empty, or unknown |
| VulnReport.LabelExactly | tools/govulncheck-report/report.go:238-254 | a symbol reads last path segment, receiver and function, with dots between those that are there |
| VulnReport.MergeStep | tools/govulncheck-report/report.go:133-163 | for all streams, merging one more finding keeps, for each key met so far, the name of the first finding, the maximum level, the trace of the first that reaches it, and the first non-empty fix and version |
| VulnReport.RepresentsUnique | tools/govulncheck-report/report.go:137-162 | a stream determines the finding of a group completely, by key as by pair |
| VulnReport.NulInIdCollides | tools/govulncheck-report/report.go:137 | a concrete stream for which the report by key is not the report by pair |
| VulnReport.LessOrders | tools/govulncheck-report/report.go:174-177 | string comparison is a strict total order |
| VulnReport.LessExactly | tools/govulncheck-report/report.go:174-177 | one string is before another if and only if it ends, or has the smaller character, where they first differ |
| VulnReport.BeforeOrders | tools/govulncheck-report/report.go:169-178 | the sort order is strict and decides between any two findings for different pairs |
| VulnReport.BeforeExactly | tools/govulncheck-report/report.go:169-178 | called before imported before required, then by vulnerability, then by module |
| VulnReport.ReportUnique | tools/govulncheck-report/report.go:165-178 | two sorted reports of one stream are equal, so map iteration order and sorting algorithm cannot show |
| VulnReport.PairReportExactly | tools/govulncheck-report/report.go:133-168 | the report made by key is the report for each pair of vulnerability and module if and only if no two pairs of the stream share a key |
| VulnReport.IdsMeetExactly | tools/govulncheck-report/report.go:137 | two different vulnerability ids can share a key if and only if one starts with the other and a NUL |
| VulnReport.NulFreeApart | tools/govulncheck-report/report.go:133-137 | the pairs of a stream of NUL-free ids never share a key, whatever its modules are called |
| VulnReport.MergeFindings | tools/govulncheck-report/report.go:133-163 | for all streams the loop over the findings ends with exactly one merged finding for each key |
| VulnReport.Analyze | tools/govulncheck-report/report.go:103-211 | for every stream the summary lists its one report by key, which is the one by pair if and only if no two pairs share a key, and then each finding stems from a message for its pair, each such message has its finding, and it is Called exactly if the first frame of some such message has a function; most actionable first; the counts are those of the list, the configuration is the last one, and the scanner counts as failed exactly in the four cases |
| Summaries.ShortenKeeps | tools/govulncheck-report/report.go:265-279 | a summary fits its limit, has single blanks only, is not changed by shortening again, is the line of words if that fits, and otherwise fills the limit with its start and three dots |
| Summaries.FieldsExactly | tools/govulncheck-report/report.go:273-274 | the words of a text are what white space separates, in order |
| CacheWalk.WalkOfTree | pkg/metrics/background.go:347-390 | a walk without limits fails exactly on trees that are not walkable; it is charged every node where it succeeds and no more than these where it fails |
| CacheWalk.TreeIsItsNodes | pkg/metrics/background.go:351-389 | node count, file sizes and walkability of a tree are the number, the sum and the soundness of its nodes |
| CacheWalk.DirectoryBytes | pkg/metrics/background.go:347-390 | the recursion with shared budget and context returns what an unlimited walk would if both suffice for its cost, and otherwise the limit that is met first; what it examines and what is left never add up to more than before |
| CacheWalk.FitsOrFails | pkg/metrics/background.go:345-390 | success exactly if the tree is walkable and neither budget nor context ends before its node count, then with the sum of the file sizes and the budget lowered by exactly the count |
| CacheWalk.LimitsExactly | pkg/metrics/background.go:348-354 | a cancelled context spends nothing, an exhausted budget is left negative, and the walk reports the limit that ends first |
| CacheWalk.FaultAtTop | pkg/metrics/background.go:249-255 | the error names the walked path itself as vanished if and only if it is this entry that is gone, and not one below it |
| CacheWalk.TrivyTempBytes | pkg/metrics/background.go:275-336 | states a total exactly if all was walked, apart from whole directories that ended meanwhile, within budget and context, which is asked once more for each batch; an absent root costs nothing |
| CacheWalk.Recorder.CollectPart | pkg/metrics/background.go:246-261 | the gauge shows the part at its size, or zero for a missing part of an existing cache, exactly if budget and context suffice for it after all before it, and drops an older sample otherwise |
| CacheWalk.Recorder.CollectCache | pkg/metrics/background.go:235-273 | whatever was shown before, the gauge shows analysis cache, vulnerability database, Java database and running scans, in this order exactly those that could be measured within what earlier ones left of budget and context, at their full sizes; no more entries are examined than configured; the sample fails exactly if an active kind is missing |
| GoMemLimit.ValidExactlyWhenItFits | pkg/trivy/memory.go:30-54 | a setting is accepted if and only if it is digits followed by a unit and their product fits in an int64 |
| GoMemLimit.UnitSizes | pkg/trivy/memory.go:32-34 | the units are one byte and the first four powers of 1024 |
| GoMemLimit.ValueOfDecimal | pkg/trivy/memory.go:88 | reading undoes printing for every number |
| GoMemLimit.DecimalOfValue | pkg/trivy/memory.go:42-54 | printing undoes reading exactly for digits without a superfluous leading zero |
| GoMemLimit.LimitIn | pkg/trivy/memory.go:104-111 | whatever a file contains, a limit read from it is positive and below 2^62 |
| GoMemLimit.LimitInExactly | pkg/trivy/memory.go:104-111 | a limit is read from a file if and only if the file holds just this number in white space, with or without a plus sign, and the number is positive and below 2^62 |
| GoMemLimit.LineIsRead | pkg/trivy/memory.go:104-111 | every positive number below 2^62 printed on a line of its own is read back |
| GoMemLimit.CgroupMemoryLimit | pkg/trivy/memory.go:91-114 | the loop over the paths answers from the first readable file only |
| GoMemLimit.FirstReadableDecides | pkg/trivy/memory.go:99-113 | a readable file ends the search even if it states no limit; unreadable ones before it do not matter |
| GoMemLimit.LimitOfExactly | pkg/trivy/memory.go:91-114 | there is a limit if and only if the first readable file states one, and then it is that one |
| GoMemLimit.DerivedLimitIsAccepted | pkg/trivy/memory.go:83-89 | however the floating-point product rounds, the derived limit is four fifths of the cgroup limit up to a thousandth, not negative, strictly below it, and printed as a setting that the validator accepts for that many bytes |
| GoMemLimit.ChildGoMemLimit | pkg/trivy/memory.go:60-81 | for every configured text and cgroup content the result is empty or valid; "off" gives nothing, a valid setting passes unchanged, and anything else gives a setting if and only if the first readable file states a limit, and then one below it |
| Environment.SetsItsKey | pkg/trivy/wrapper.go:471-474 | the prefix comparison finds exactly the entries for this key, none for a longer key and no bare name |
| Environment.SetEnv | pkg/trivy/wrapper.go:469-481 | the nested loops compute the settings applied one after the other |
| Environment.SettingsOverride | pkg/trivy/wrapper.go:467-481 | read last entry first, the result is the inherited environment overridden by the last setting for each key |
| Environment.SetOnce | pkg/trivy/wrapper.go:467-481 | each key set with a value occurs exactly once, and no other key gains or loses an entry |
| Environment.UntouchedThenSettings | pkg/trivy/wrapper.go:469-481 | inherited entries nobody set keep their order in front of settings that do not depend on the inherited environment |
| Environment.SetTwice | pkg/trivy/wrapper.go:469-481 | a second application changes nothing if and only if every setting contains an equals sign |

## Left out

- StreamWorker.Worker.Process: the imperative worker runs alone and without faults; failures, lost replies, lost leases and other agents between its round trips are events of the state machine instead, over which the guarantees are proved.
- StreamWorker.Worker.ProcessRecord: the same; it starts with the lease and the record its caller has just seen.
- StreamWorker.Worker.Scan: the same; a write that is refused between the others is an event of the state machine.
- StreamWorker.Worker.RetireDelivery: no storage fault or lease loss happens between its runs, as the source promises progress only then; messages of other deliveries that are read on the way stay pending.
- ScanQueueTheorems.NeverStuck: the cursor of XAUTOCLAIM is not modelled, any entry idle for a lease period may be reclaimed next.
- ScanQueueTheorems.GetReturnsFinishersReport: excludes evicted keys, and records older than the split into two keys, which carry their report inline.
- Enqueuer.Enqueuer.Enqueue: runs on a server nobody else uses meanwhile; `FanOutOverRun` covers the interleaving of its scripts.
- Enqueuer.Enqueuer.AcceptScanRequest: decoding of the request body; which URLs parse and how %q renders are parameters.
- LimitedBuffer.Buffer.Bytes: a negative limit before the first write makes the source panic; the model requires a limit that is not negative.
- CacheWalk.DirectoryBytes: the sum of sizes does not wrap at 2^63; a tree is what the file system answers during the walk, and the context is the number of checks it passes before it is cancelled.
- GoMemLimit.DerivedLimitIsAccepted: rounding is any relative error up to 2^-53 in each of the three conversions and products, not the exact result.
- VulnReport.Analyze: decoding of the JSON stream; the order in which a map is ranged over is arbitrary and proved not to matter.
- JSON and gzip encodings of records, reports and payloads, which are taken to be inverse pairs, and the size cap on decompression.
- The Trivy subprocess, the registry and the report transformer: a scan has an arbitrary outcome, and a panic counts as a rejection.
- Cancellation of contexts in the queue: an agent may give up at any point instead. Renewal every third of a lease: a lease may expire at any point.
- Redis failover with loss of data, deletion of the stream, and eviction of a key that is then enqueued again.
- The status dispatch of GetScanReport, rendering, routing, metrics, logging and configuration: each is settled by reading its branches.
- The version cache of pkg/metrics/recorder.go: its generation check would only add an easy member.
