# Verified model of the Sumo Logic Lambda extension's delivery pipeline

Telemetry payloads arrive by HTTP, wait in a bounded queue, are drained by one consumer, enhanced item by item, packed
into size-limited newline separated chunks, and posted with bounded retry and optional S3 failover. This project models
that pipeline in Dafny and proves what it delivers, what it can lose, when it can stop, and where its guarantees end.

| file | what it models |
|---|---|
| `Packing.dfy` | the greedy packer as a cut of the list of lines: losslessness, sizes, optimality, chunk count, round trips |
| `Telemetry.dfy` | payloads, JSON items, what enhancement does to an item, the lines of a batch |
| `Utils.dfy` | the attempt loop `Retry`, for any retried function |
| `Wire.dfy` | HTTP and S3 as arbitrary oracles with a history; the exact meaning of one chunk's post |
| `SumoClient.dfy` | the sender as a class: enhancement in place, packing, retry, failover, `SendLogs`, `SendAllLogs`, `FlushAll` |
| `Delivery.dfy` | what a nil send is worth line by line and on the network; receipts; batching against one-by-one sending |
| `ManagedProtocol.dfy`, `ManagedTheorems.dfy` | managed-instance mode as atomic steps of any number of handlers and one consumer |
| `ManagedInstance.dfy` | the managed producer and consumer as imperative code; every channel operation is one protocol step |
| `StandardProtocol.dfy`, `StandardTheorems.dfy` | standard mode as atomic steps of blocking handlers and the event loop |
| `StandardInstance.dfy` | the standard producer, consumer and event loop as imperative code over that protocol |

How the two layers fit: a protocol file defines `Enabled` and `Next` for single steps, `After` for runs and `Reachable`
for the states of all runs. An `Instance` object keeps the protocol state of every agent next to the real channels.
Each channel operation of the code is followed by `Record`, which accepts it only when the channels hold what the protocol
step says; before each operation `Interfere` lets the other agents take any scheduled steps. So the code is a refinement
of the protocol, and every theorem about reachable states holds at every point of the code.

## Main results

* **Packing** is lossless, respects the size limit and uses the fewest chunks that its own layout rules allow
  (`PackOptimal`); its cut is the only full one (`FullCutUnique`); its chunks joined with newlines are the object that the
  failover flush stores (`PackJoin`).
* **A post** makes at most `1 + max(0, min(NumRetry, max(1, MaxRetryAttempts)))` requests with identical bodies, stops at
  the first 200, 302 or 5xx, and its contract determines it completely (`ExchangeDetermined`). With failover on, a nil error
  means delivered, and nothing else does; with failover off, it means delivered exactly when some attempt was settled
  (`NilMeansDelivered`, `NilUndelivered`). When a request is followed by another one and when the bucket is tried is stated
  on status codes and bounds for every entry of the log (`EntryInNumbers`).
* **Enhancement** is stated key by key and determined by what is stated (`EnhancedMeans`, `EnhancedDetermined`); a REPORT
  line is read back at its tabs, each value under its own title (`ReportLineReads`).
* **The log is the network's history**: `Client.Valid` says that all requests and all uploads since the client was made are
  those of its log entries, in order. Every method keeps it, so no entry stands for traffic that did not happen.
* **End to end**: in every finite run of either mode, each acknowledged message has a receipt: a call of `SendAllLogs` or
  `FlushAll` with a nil error, with log entries of its own. Its payload parsed, and every item's line is a record of exactly
  one text of that call, at named positions of the network's requests or uploads. With failover on, or when some attempt
  was settled, one of these is where the endpoint answered 200, 302 or 5xx or the bucket stored the object
  (`ReceiptDelivers`, `AcknowledgedDelivered`, and the contracts of `ProcessEvents` and `ProcessFlushSignals`).
* **The event loop** does what the answers of the next-event calls say: only the last answer can be an error or a shutdown,
  and it decides how the run ends (`AnswersDecide`, and on the code `ProcessEvents`).
* **Managed mode** never loses a wake-up unless the last drain's send failed (`NoLostWakeUp`). Over all reachable states it
  is known exactly when an idle consumer leaves a queue that no one will drain (`StrandedExactlyWhen`), when the end of a
  requeue does, whatever handlers did meanwhile (`StrandedByRequeueExactlyWhen`), and when the next POST ends the wait
  (`NextPostWakesExactlyWhen`); a concrete run gets there (`StrandedIsReachable`). All runs end within an explicit number of
  steps (`WholeRunsAreBounded`). Loss is accounted for exactly (`ReachableLedger`, `RequeueLoss`).
* **Standard mode** loses nothing (`Conservation`), but its blocking requeue can deadlock the process. A requeue can still be
  completed if and only if the batch and the messages accepted since the queue was seen empty fit into the queue together
  (`RequeueFinishesIffFits`). Runs stop only in that deadlock or after the event loop's end (`StuckExactlyWhen`), and the
  deadlock is reachable if and only if the run has more POSTs than the queue has slots (`DeadlockReachableExactlyWhen`);
  a queue of length 0 is the worst case, where one POST and one failed send are enough.

## Where the code and its description differ

The model follows the code in these places.

* A 302 or any status of 500 and above counts as success: no retry, nil error. With failover off, exhausted retries are
  a nil error as well, so the batch counts as acknowledged although nothing was delivered.
* The managed consumer is meant to drain whenever the queue is at its threshold. After a failed send the batch is put
  back without a signal, and even a full queue then waits for the next POST (`StrandedExactlyWhen`,
  `NextPostWakesLongQueue`).
* "DataQueue completely drained and closed" also ends a flush whose error put the whole batch back into the queue.
* An item that cannot be marshalled makes `SendAllLogs` post nothing at all, while `FlushAll` stores the other lines.
* A next-event call that fails ends `processEvents` without another drain or flush, also when it failed because the
  context was cancelled.
* The managed consumer is started with a context that is never cancelled; its flush is modelled for a context that can be.

## Modelling choices

* Bytes are characters of a `string`; a message carries the number of its POST, so equal bodies stay distinguishable.
* `json.Unmarshal`, `json.Marshal`, gzip, `strings.TrimSpace` and the verb `%v` are functions of `Codec`. Marshalled text is
  assumed non-empty and free of newlines, as section 7 of RFC 8259 and compact output give it; gzip is assumed injective.
* The clock is an oracle read once an item. HTTP answers and S3 results are oracles indexed by the number of calls so far;
  an error before the request leaves (endpoint, request object) is `RequestError`, a missing key name is `NoKey`.
* `int(float64(cap) * 0.8)` is written `4 * cap / 5`. For 32-bit capacities they agree: the constant is slightly above
  four fifths, the product's error is far below one fifth, and an exact multiple cannot be rounded down below itself.
* A function with side effects cannot be passed as a value, so `Utils.Retry` takes the answers of the retried function as an
  arbitrary function of the attempt; `SumoClient.Client.Retry` is the same loop around real requests, with the same outcome.
* Runs are finite: finitely many POSTs and, in `ProcessEvents`, finitely many answers to next-event calls. Interleaving is
  unrestricted: schedules are arbitrary functions.
* The queue may have any length from 0. Without a buffer a standard handler's push goes through when a drain's receive
  meets it (`HandOver`), and never otherwise; in managed mode neither side waits, so every push is refused.
* `MaxConcurrentRequests` is positive, as the code needs.
* `hide` statements keep function bodies out of proofs that do not need them.

## Model

| member | source | states |
|---|---|---|
| `Packing.SegmentsCut` | lambda-extensions/sumoclient/sumoclient.go:335-353 | the packer's segments concatenate to the input lines in order, each obeys the size rule of its position, and every closed one is full |
| `Packing.PackOptimal` | lambda-extensions/sumoclient/sumoclient.go:327-359 | no order-preserving cut under the same rules (first chunk may be empty and prefixes each line, later ones non-empty, below the limit or one line) has fewer chunks |
| `Packing.StaysAhead` | lambda-extensions/sumoclient/sumoclient.go:335-353 | greedy stays ahead: a full cut that has covered at least as much as a legal one never needs more segments |
| `Packing.FullCutUnique` | lambda-extensions/sumoclient/sumoclient.go:335-353 | two legal and full cuts of the same lines are equal, so the packer's output is determined by its properties |
| `Packing.PackSizes` | lambda-extensions/sumoclient/sumoclient.go:343-350 | for a positive limit each chunk is shorter than it or is exactly one line |
| `Packing.PackCount` | lambda-extensions/sumoclient/sumoclient.go:335-353 | with n chunks and B bytes of lines and newlines, (n-1)·(Max+1) ≤ 2·B |
| `Packing.PackJoin` | lambda-extensions/sumoclient/sumoclient.go:182-214 | chunks joined with newlines equal the text that the failover flush builds from the same lines |
| `Packing.PackRecords` | lambda-extensions/sumoclient/sumoclient.go:343-353 | splitting the chunks on newlines and dropping empties returns the lines in order, each once |
| `Packing.BatchingSaves` | lambda-extensions/sumoclient/sumoclient.go:402-423 | packing several messages together takes no more chunks than packing them separately |
| `Packing.GrowRender` | lambda-extensions/sumoclient/sumoclient.go:342-350 | one loop round closes the chunk and opens a bare line, or appends newline and line; the counted size is the buffer's length |
| `Telemetry.EnhancedFrame` | lambda-extensions/sumoclient/sumoclient.go:265-314 | an item that is not replaced stays an object with the four stamps at their values; its message is the trimmed text or the parsed JSON of a function item, the REPORT line of a report, otherwise what it was; its record changes only by dropping function text or, when configured, the spans of a runtimeDone record; every other key is kept |
| `Telemetry.ReplacedValue` | lambda-extensions/sumoclient/sumoclient.go:284-299 | with JSON enhancement off a function item is replaced by an object with its trimmed text as only key, by the JSON object that the text is, or by null |
| `Telemetry.ReportLineReads` | lambda-extensions/sumoclient/sumoclient.go:233-253 | split at tabs, the REPORT line has five pieces, six exactly with initDurationMs, each its title, the value of its own key and its unit |
| `Telemetry.EnhancedDetermined` | lambda-extensions/sumoclient/sumoclient.go:265-314 | these statements determine the enhanced value |
| `Telemetry.EnhancedTwiceLosesText` | lambda-extensions/sumoclient/sumoclient.go:279-288 | enhancing an enhanced plain function line wipes its message, so enhancement must not be repeated |
| `Telemetry.RedoYieldsSameItems` | lambda-extensions/workers/consumer.go:109-116 | a later drain of the same raw payloads whose own clock readings show the same values yields the same items and lines |
| `Telemetry.StampOnly` | lambda-extensions/sumoclient/sumoclient.go:273-312 | at any two stamps the enhanced values are equal for a replaced item and otherwise agree on every key but logStream |
| `Telemetry.RedoDiffersInStreamOnly` | lambda-extensions/workers/consumer.go:109-116 | whatever the clock does, a later drain of the same raw payloads yields items that differ at most in logStream, and the same items and lines when all are replaced |
| `Wire.NilMeansDelivered` | lambda-extensions/sumoclient/sumoclient.go:443-503 | with failover a nil error is equivalent to delivery; without it, to successful compression, and it is a delivery exactly when some attempt was settled; an error means no settled answer, failover on and nothing stored |
| `Wire.NilUndelivered` | lambda-extensions/sumoclient/sumoclient.go:486-497 | without failover any chunk that compresses has an exchange with a nil error and no delivery |
| `Wire.DeliveredByOracle` | lambda-extensions/sumoclient/sumoclient.go:443-503 | a chunk that compresses is delivered if and only if one of the answers within its whole budget settles or, with failover on, the bucket stores it |
| `Delivery.EntryDeliveredByOracle` | lambda-extensions/sumoclient/sumoclient.go:443-503 | the same for every entry of the log, at its own positions in the network's history |
| `Wire.ExchangeDetermined` | lambda-extensions/sumoclient/sumoclient.go:443-503 | chunk, configuration and oracle answers determine the attempts, uploads and result |
| `Utils.Retry` | lambda-extensions/utils/utils.go:19-35 | for any retried function and bound: each call before the last failed and asked for another, it stops early only at a success or a refusal, and its error is nil exactly when the last call's is |
| `Utils.AttemptedOnce` | lambda-extensions/utils/utils.go:19-35 | this determines the number of calls and the error |
| `Utils.SucceedsExactlyWhen` | lambda-extensions/utils/utils.go:19-35 | it succeeds exactly when some call within the bound does and every call before it asks for another |
| `Wire.RetriesAreAttempts` | lambda-extensions/sumoclient/sumoclient.go:468-484 | for the function that postToSumo retries, this is: stop at the first settled answer, otherwise use the smaller of both bounds, at least one |
| `Wire.FaithfulInNumbers` | lambda-extensions/sumoclient/sumoclient.go:443-503 | a request is followed by another exactly when its answer is an error or a status other than 200, 302 and 500 or above, with retries and attempts left; the bucket is tried exactly when the last answer is of that kind and failover is on, and then decides the error |
| `Delivery.EntryInNumbers` | lambda-extensions/sumoclient/sumoclient.go:443-503 | every post in the log does so at its own positions in the network's history |
| `SumoClient.Client.EnhanceItem` | lambda-extensions/sumoclient/sumoclient.go:273-312 | the in-place update of one map and its slot at one clock reading: replaced as ReplacedValue says or changed key by key as EnhancedFrame says |
| `SumoClient.Client.EnhanceLogs` | lambda-extensions/sumoclient/sumoclient.go:265-314 | over distinct maps, slot i holds item i so enhanced at its own clock reading; length and order stay |
| `SumoClient.Client.CreateCWLogLine` | lambda-extensions/sumoclient/sumoclient.go:233-253 | only the message key changes, and it gets a line that reads back, piece by piece, the values under their titles |
| `SumoClient.Client.CreateChunks` | lambda-extensions/sumoclient/sumoclient.go:327-359 | returns the greedy packing of the items that marshal, and an error exactly when some item does not; the running size is the buffer's length |
| `SumoClient.Client.Retry` | lambda-extensions/sumoclient/sumoclient.go:468-484 | the same calls and the same error as Utils.Retry with this function, each call one request with the same bytes |
| `SumoClient.Client.PostToSumo` | lambda-extensions/sumoclient/sumoclient.go:443-503 | adds one exchange to the log and exactly its requests and uploads to the network, from the current positions on and following the law in numbers |
| `SumoClient.Client.FailoverHandler` | lambda-extensions/sumoclient/sumoclient.go:164-180 | nothing and nil with failover off, otherwise one put of the buffer and nil exactly when stored |
| `SumoClient.Client.SendLogs` | lambda-extensions/sumoclient/sumoclient.go:362-390 | posts the packing of one payload's lines, or nothing; nil exactly when empty, or parsed, marshalled and all posts nil |
| `SumoClient.Client.SendAllLogs` | lambda-extensions/sumoclient/sumoclient.go:392-441 | posts the packing of the whole batch's lines, or nothing when an item does not marshal; nil exactly when all parsed and all posts nil |
| `SumoClient.Client.FlushAll` | lambda-extensions/sumoclient/sumoclient.go:182-231 | with failover, stores the text of every line that could be made as one object, one log entry; nil exactly when stored with no parse or marshal failure; without failover, nothing and nil |
| `Delivery.ExactlyOneCarrier` | lambda-extensions/sumoclient/sumoclient.go:427-432 | each record of the posted stream sits in exactly one chunk, at the place its number says |
| `Delivery.LineDelivered` | lambda-extensions/sumoclient/sumoclient.go:392-441 | after a call with a nil error, each item of its batch was marshalled and its line is in exactly one text of the call, which went over the network and, with failover on, was answered 200, 302 or 5xx or stored |
| `Delivery.CallOkExactlyWhen` | lambda-extensions/sumoclient/sumoclient.go:392-441 | a batch call has a nil error if and only if the batch is empty, or every payload parsed, every item marshalled and every post or the upload went without error; when it makes no entry, and that a send without items posts one empty chunk |
| `Delivery.SoloExactlyWhen` | lambda-extensions/sumoclient/sumoclient.go:362-390 | the same for a SendLogs call on one payload |
| `Delivery.ReceiptDelivers` | lambda-extensions/workers/consumer.go:91-126 | every payload of a call with a nil error parsed and every item's line went out at a position of the network's history that belongs to the call |
| `Delivery.Ships` | lambda-extensions/sumoclient/sumoclient.go:443-503 | each log entry without error has its own positions in the network's history; whatever text compresses to a body found there has the given line at the given place, and with failover on or a settled answer one of the positions landed |
| `Delivery.AcknowledgedDelivered` | lambda-extensions/workers/consumer.go:91-126 | every message of a list of receipts is delivered by one of them |
| `Delivery.BatchRefinesSeparate` | lambda-extensions/sumoclient/sumoclient.go:362-441 | for payloads that SendLogs sends, one SendAllLogs call posts the same records in the same order in no more chunks |
| `ManagedTheorems.ReachableLedger` | lambda-extensions/workers/managed_instance_producer.go:105-111 | each offered POST is once queued, in hand, acknowledged, refused or lost; capacities hold; each drop met a full queue |
| `ManagedTheorems.RequeueLoss` | lambda-extensions/workers/managed_instance_consumer.go:137-151 | a failed drain keeps a prefix of its batch in order and loses exactly the rest, \|batch\| + arrivals − capacity messages when any |
| `ManagedTheorems.NoLostWakeUp` | lambda-extensions/workers/managed_instance_producer.go:61-137 | unless draining or after a failed drain, a queue of length n >= 1 with 5n + 4 >= 4 cap has a signal pending or a handler about to check, and a finished handler's queued payload with a platform.report event has a signal pending |
| `ManagedTheorems.StrandedExactlyWhen` | lambda-extensions/workers/managed_instance_consumer.go:48-75 | in every reachable idle state, the queue should have been drained and no one will do it if and only if all is at rest, the last drain put its batch back, and the queue is at the alarm length or holds a report |
| `ManagedTheorems.StrandedByRequeueExactlyWhen` | lambda-extensions/workers/managed_instance_consumer.go:137-151 | the same at the end of a requeue, whatever handlers did while it ran: batch and arrivals since the queue was seen empty reach the alarm length together, or a report is queued |
| `ManagedTheorems.StrandedExactlyWhenSendFails` | lambda-extensions/workers/managed_instance_consumer.go:137-154 | when no handler is under way during a send, the finished drain leaves a queue that no one will drain if and only if the send failed and what remains reaches the alarm length or what fits back holds a report |
| `ManagedTheorems.StrandedIsReachable` | lambda-extensions/workers/managed_instance_consumer.go:137-154 | a concrete run with one POST and one failed send loses a wake-up |
| `ManagedTheorems.HandlerRunExactly` | lambda-extensions/workers/managed_instance_producer.go:61-143 | a handler run with no one in between appends its message if there is room and offers one signal when 5n + 4 >= 4 cap holds of the length n then, and one for each report event, of which the channel keeps what ten slots hold |
| `ManagedTheorems.NextPostWakesExactlyWhen` | lambda-extensions/workers/managed_instance_producer.go:61-137 | with no signal pending, the whole run of a new handler leaves one if and only if the queue is at the threshold after its push or its payload has a report event |
| `ManagedTheorems.NextPostWakesLongQueue` | lambda-extensions/workers/managed_instance_producer.go:61-79 | so the next POST ends every lost wake-up of a queue at the alarm length |
| `ManagedTheorems.EveryStepCounts` | lambda-extensions/workers/managed_instance_consumer.go:48-164 | every step of every agent lowers the bound on the steps still possible |
| `ManagedTheorems.WholeRunsAreBounded` | lambda-extensions/workers/managed_instance_producer.go:82-143 | a run of n POSTs with r report events has at most (3n+r)·(2·cap+8) steps, plus 2·cap+5 for each flush drain |
| `ManagedTheorems.StuckExactlyWhenQuiescent` | lambda-extensions/workers/managed_instance_consumer.go:48-75 | a run can stop exactly when the consumer is idle, no signal is pending and every handler is done |
| `ManagedTheorems.ReachesQuiescence` | lambda-extensions/workers/managed_instance_consumer.go:48-164 | every run can be continued to such a state even when sends fail |
| `ManagedTheorems.SuccessfulRunsEndDrained` | lambda-extensions/workers/managed_instance_consumer.go:128-158 | if all sends succeeded, the final queue is empty or its length n has 5n + 4 < 4 cap, and it holds no payload with a platform.report event |
| `ManagedInstance.Instance.CheckQueueThreshold` | lambda-extensions/workers/managed_instance_producer.go:61-79 | the length n read at one step decides: if 5n + 4 >= 4 cap the last step signals, dropped only when ten signals are pending, and otherwise nothing is sent; others may act in between |
| `ManagedInstance.Instance.LogsHandler` | lambda-extensions/workers/managed_instance_producer.go:82-143 | push, check and report signals take the handler to its end; its message was offered exactly once |
| `ManagedInstance.Instance.PutBackAll` | lambda-extensions/workers/managed_instance_consumer.go:144-151 | under interference the queue keeps a prefix of the batch in order and exactly the rest is lost |
| `ManagedInstance.Instance.DrainQueue` | lambda-extensions/workers/managed_instance_consumer.go:121-164 | takes everything queued first and makes one SendAllLogs call with its own log entries; acknowledges the batch with a receipt after a nil error, otherwise puts back what fits; exact restoration when handlers are quiet |
| `ManagedInstance.Instance.FlushWithFailover` | lambda-extensions/workers/managed_instance_consumer.go:81-109 | one FlushAll call gets the whole queue in order; the channel ends closed and empty, or closed and as it was |
| `ManagedInstance.Instance.FlushByDraining` | lambda-extensions/workers/managed_instance_consumer.go:110-117 | len/MaxConcurrentRequests+1 SendAllLogs calls, one after the other in the log; with quiet handlers each gets the whole queue until one on a batch has a nil error, which is when the queue is empty and acknowledged once, and it is as it was otherwise |
| `ManagedInstance.Instance.ProcessFlushSignals` | lambda-extensions/workers/managed_instance_consumer.go:48-75 | terminates in finite runs and every acknowledged message is delivered; it flushes and returns at the first look that finds the context done and can flush, and reports the flush (calls, what was queued, what is left); when it waits for ever the system is quiet, and after a drain that did not fail the queue is below the alarm length and free of reports |
| `StandardTheorems.Conservation` | lambda-extensions/workers/consumer.go:91-122 | each accepted POST is once queued, in hand or acknowledged; the capacity holds |
| `StandardTheorems.FailedDrainRestores` | lambda-extensions/workers/consumer.go:110-117 | a failed drain leaves its whole batch queued in its old order among exactly the later arrivals |
| `StandardTheorems.RequeueFinishesIffFits` | lambda-extensions/workers/consumer.go:115-117 | a continuation that completes the blocking requeue exists if and only if batch and arrivals since the queue was seen empty fit together |
| `StandardTheorems.CrowdedNeverFinishes` | lambda-extensions/workers/consumer.go:115-117 | once they do not fit, no continuation of the run ends the requeue |
| `StandardTheorems.StuckExactlyWhen` | lambda-extensions/workers/producer.go:63-66 | in a reachable state no step is enabled if and only if a requeue meets a full queue, or the event loop has ended and the queue is closed or full or every POST is in |
| `StandardTheorems.DeadlockReachableExactlyWhen` | lambda-extensions/workers/consumer.go:115-117 | for every queue length, 0 included, some run reaches a requeue at a full queue if and only if there are more POSTs than slots |
| `StandardTheorems.EventLoopRuns` | lambda-extensions/sumologic-extension.go:135-176 | a completed drain lies between any two next-event calls; Shutdown ends with a drain, cancellation with a drain or with one flush and the only close, a failed call with neither; nothing is received after the end |
| `StandardTheorems.AnswersDecide` | lambda-extensions/sumologic-extension.go:143-173 | over the answers of a run: no error before the last one and no shutdown between the first and the last; failed exactly when the last is an error, draining for or ended by a shutdown exactly when it is a shutdown after the first |
| `StandardTheorems.NothingLeftBehind` | lambda-extensions/sumologic-extension.go:143-175 | after an end whose last batch was not put back, the queue holds only later arrivals, and with none everything accepted is acknowledged |
| `StandardTheorems.LastOutcome` | lambda-extensions/sumologic-extension.go:145-172 | whether the last batch was put back is the error that the last drain or flush met |
| `StandardInstance.Instance.LogsHandler` | lambda-extensions/workers/producer.go:44-67 | a push into the queue's buffer is blocked exactly while it is full, otherwise the message is appended and nothing else changes; without a buffer it waits for TakeFromHandler |
| `StandardInstance.Instance.TakeFromHandler` | lambda-extensions/workers/consumer.go:100-106 | without a buffer a drain's receive takes its message straight from a handler blocked in its push |
| `StandardInstance.Instance.ReceiveAll` | lambda-extensions/workers/consumer.go:94-110 | receives everything queued first in order, sees the queue empty, and flags exactly the batches in which some body is a + "platform.runtimeDone" + b |
| `StandardInstance.Instance.DrainQueue` | lambda-extensions/workers/consumer.go:91-126 | makes one SendAllLogs call with its own log entries; acknowledges the batch with a receipt after a nil error, otherwise restores it or, exactly when it cannot fit, blocks for ever |
| `StandardInstance.Instance.FlushWithFailover` | lambda-extensions/workers/consumer.go:46-69 | one FlushAll call gets the whole queue in order; the queue ends closed and empty, or closed and as it was |
| `StandardInstance.Instance.FlushByDraining` | lambda-extensions/workers/consumer.go:70-76 | len/MaxConcurrentRequests+1 SendAllLogs calls, one after the other in the log; with quiet handlers each gets the whole queue until one on a batch has a nil error, which is when the queue is empty and acknowledged once, and it is as it was otherwise |
| `StandardInstance.Instance.ProcessEvents` | lambda-extensions/sumologic-extension.go:96-176 | on the answers used: no error before the last, no shutdown between first and last; ends failed exactly after an error, shut down exactly after a shutdown, cancelled exactly at the first look that finds the context done and can flush, with one look before each drain and a report of the flush; otherwise it waits in a next-event call or in a requeue that can never finish; every acknowledged message is delivered by a receipt with its own place in the network's history |

## Left out

- Panics: a negative queue length fails at start; null array elements and platform.report items without `record.metrics` are excluded by `Codec.Valid`; pushing to a closed channel is excluded by letting a closing flush start only when the handlers are done.
- NilMeansDelivered: says nothing about what the endpoint does with a 302 or 5xx request; the code counts these as delivered.
- ProcessFlushSignals: the branch for unknown signal strings, which nothing sends, and the log lines are not modelled.
- HTTP servers, request headers, the Lambda registration and telemetry calls, KMS decryption, S3 key names and configuration parsing: network and environment wrappers, present only as oracles and constants.
- `consumeTask` in consumer.go, which has no caller, and managed mode of `processEvents`, whose consumer is never set.
- Unbounded producers: a drain that is fed for ever never reaches its send; the imperative methods assume finitely many POSTs.
- The panic recovery in `main`, sleep durations and logging.
