# Verified accounting for fastapi-observer

The library promises that its own numbers stay exact: that a log record is delivered, still queued or counted as
dropped; that a call of a request is counted once and on that request; that a failing sink costs a bounded number of
attempts; that what a policy hides does not reach a log line. These files model the code that keeps those promises and
prove them for every input and every run, with threads interleaved as the sections below say; where the code falls
short, they prove exactly when.

`dafny verify dfyconfig.toml` checks the whole project.

## What is modelled

**The log pipeline.** `LogItems` holds what travels through the queue and the six totals. `LogPipeline` is a step
system: one producer at a time under the handler lock, a listener thread, flushers that take no lock, and a stopper
that may retry. A step is one operation that Python performs without another thread in between, such as the put and,
later, the bump of its counter. Two histories, everything ever put and everything that left, turn an index into the
name of one admission. `LogPipelineSafety` states the invariants and proves that each actor keeps them;
`LogPipelineTheorems` draws the conclusions, `LogFlush` says when `flush` answers True and that it gets there, and
`LogProgress` what becomes of one `enqueue` call and that a teardown gets to its end. `LogQueue`, `LogOutputs` and
`LogSetup` are the same code as objects updated in place: the queue handler, the listener, the outputs and the
teardown. `LogQueue.SharedQueue.OthersAct` lets the other threads do anything they may do between two operations of
the caller. `EnqueueIsARun` connects the object to the protocol.

**The circuit breaker** around each output (`CircuitBreaker`), as an object and as runs of its three locked operations
in any order; `BreakerRuns` says of any such run when it opens, skips, probes and closes.

**Held logs** (`HeldLogs`, `HeldRuns`): the request's filter, the stamp on terminal records, their cached sampling
decision, the bounded deque of held records, and the arithmetic of the sampling bound. Here the records, stamps and
keeps of one request are taken one at a time. The source takes no lock for the decision, and none for the swap of the
held records at a keep: `SamplingThreads` and `HoldThreads` interleave the single reads and writes of any number of
threads and prove exactly when the sequential results still hold.

**Request calls.** `RequestCalls` has the totals and what it means that they match a list of admitted calls.
`RequestState` has the state and the handle as objects. `CallProtocol` lets any number of threads race inside `finish`
with each other, with the closing summary and with forks; `CallRuns`, `CallErrors`, `CallOwnership`, `CallSources`,
`CallExecutions`, `CallLines` and `CallTheorems` are the conclusions. `RequestDrivers` adds the operation that closes
a state, span starts, and the SQLAlchemy hooks. A thread inside `finish` can be between the owner check and the
`_finished` test, or between that test and the recording; the state may close at either place.

**Span ownership** (`SpanOwners`, `SpanRuns`): the bounded table of weakly held owners against a plain unbounded map,
with threads between the token, the table's lock and `drop_span`, threads that keep a token alive, closes and forks.

**HTTP calls counted once** (`HttpCalls`, `HttpRuns`): any number of tasks, clients that call each other, spans inside
sends and sends inside spans.

**Redaction** (`Redaction`, `RedactionPaths`): the recursion over a tree of mappings, lists, tuples and scalars, the
loops that compute it, and what the policy's key sets mean for every path of an event.

**The request middleware** (`RequestMiddleware`, `RequestTimings`): sends that succeed or raise, disconnects, three
endings, one observation, one status, exact timings. Legal order is that of the ASGI HTTP specification ("Response
Start" and "Response Body" send events) and its HTTP Trailers extension; a send that raised may be repeated or passed
over.

The modules whose names end in `Runs` speak of the steps of a run alone: they define from the list of steps what the
state machines keep in their fields and histories, and prove that the two agree in every run.

## Where the code and its promises part

- `dropped_oldest_total` also counts evicted flush markers. `LogPipelineTheorems.StepMiscounts` and
  `LogQueue.DroppedOldestOfCall` name the guard, a marker at the head of a full queue, and
  `LogPipelineTheorems.MarkerCanBeEvicted` is a run in which it is met.
- A log record whose policy names `event` itself as a redacted field has the mask or the hash overwritten by the
  event allowlist pass. `Redaction.RecordEventRedacted` proves exactly when, and `Redaction.EventWrittenBack` is an
  input.
- When the send of the response start raises and the rest of the response is sent all the same, the metric keeps the
  attempted status and the log line may not. `RequestMiddleware.MetricMatchesLog` proves exactly when the two differ,
  and `RequestMiddleware.StatusesCanDiffer` is a request.
- `on_start` drops a span after its capture was refused. When another thread closes the state in between, the table has
  counted the span and the state never does. `SpanOwners.DroppedSpansExact` proves exactly when the two agree, and
  `SpanOwners.DropCanComeLate` is a history.
- A keep can be undone by a thread that found no sampling decision before it and assigns a no after it; the terminal
  record, stamped with certainty, is then held. `SamplingThreads.KeepLasts` and `SamplingThreads.CertainPasses` prove
  exactly when, and `SamplingThreads.PromotionCanBeLost` is a run. Without any keep two crossing threads can do the
  same: `SamplingThreads.StampedPasses` and `SamplingThreads.CertaintyCanBeCrossed`.
- A record whose hold overlaps a keep, or whose append comes after the keep's store, can be lost, or the hold can raise.
  `HoldThreads.WrittenOrLost` proves that exactly the guards of `HoldThreads.StepLost` lose records, and
  `HoldThreads.HeldRecordCanBeLost` and `HoldThreads.LateHoldIsLost` are runs.
- The log line of a request copies the call totals before the state is closed. A call recorded in between is told True
  and is in no line. `CallLines.LineMisses` proves that these are exactly what a line misses, and
  `CallLines.LineCanMissACall` is a run.

## Assumptions

The standard library's `Queue` is a bounded FIFO with a counter of unfinished tasks, and the listener's loop is: get,
stop at the sentinel, handle, `task_done`. Outputs raise only `Exception` from `flush`; a record that makes an output
raise ends the listener thread (`Crashed`). A timed put that fails has waited its timeout, and clocks do not run
backwards. An entry of a weak dictionary lives as long as its token is referred to, by its open state or by a thread,
and goes at once with the last reference. Recording with source `sqlalchemy` comes only from a started handle. A
thread of the parent process does not exist in a forked child.

## Model

| member | source | states |
|---|---|---|
| LogPipelineTheorems.Conservation | src/fastapiobserver/logging/queueing.py:217-278 | In every reachable state in which no producer holds the handler lock, records enqueued plus flush markers plus sentinels put equal items the listener took plus `dropped_oldest_total` plus what is queued; unfinished tasks are the queue plus the item in hand; `dropped_total` is oldest plus newest; each accepted or failed record is counted once; the queue never exceeds its bound. |
| LogPipelineTheorems.ConservationMidCall | src/fastapiobserver/logging/queueing.py:71-91 | At every single step: what was admitted is what left, in order, followed by what is queued, and the same equation holds with the put or eviction that the lock holder has not counted yet. |
| LogPipelineTheorems.DroppedOldestCountsRecords | src/fastapiobserver/logging/queueing.py:250-257 | Between any two moments of any run with no producer in the lock, `dropped_oldest_total` grows by the records evicted plus the evictions made while a flush marker was at the head of the queue; it counts records if and only if that guard was never met. |
| LogPipelineTheorems.StepMiscounts | src/fastapiobserver/logging/queueing.py:250-257 | Any single step of any thread makes the total count one too many if it is an eviction with a flush marker at the head of the queue, and otherwise leaves the difference alone. |
| LogQueue.DroppedOldestOfCall | src/fastapiobserver/logging/queueing.py:217-264 | One call without interference raises `dropped_oldest_total` by the records it evicts, and by one more exactly if the policy is `drop_oldest`, the queue is full and its head is no record. |
| LogPipelineTheorems.MarkerCanBeEvicted | src/fastapiobserver/logging/queueing.py:250-257 | For any queue of one place under `drop_oldest`, a run that ends with one eviction counted and no record lost: a flush marker was. |
| LogPipelineTheorems.DeliveryExact | src/fastapiobserver/logging/queueing.py:139-150 | Each output was given, once each and in admission order, exactly the taken records that its level admits, except the one in hand for outputs not reached yet. |
| LogPipelineTheorems.OnlyDropOldestEvicts | src/fastapiobserver/logging/queueing.py:217-240 | Under the other two policies whatever was admitted leaves the queue only to the listener. |
| LogPipelineTheorems.SentinelTaken | src/fastapiobserver/logging/queueing.py:163-177 | Over any number of retried stops at most one sentinel is put; it is never evicted, and nothing is read after it. |
| LogPipelineTheorems.OutputsOutliveListener | src/fastapiobserver/logging/setup.py:87-114 | When outputs are closed the listener thread is dead. |
| LogPipelineTheorems.AdmissionsStopForGood | src/fastapiobserver/logging/setup.py:71-86 | After the handler's `close` returned, through any later run, no record is admitted, nothing is evicted and neither counter moves. |
| LogPipelineTheorems.ExitDrains | src/fastapiobserver/logging/queueing.py:163-181 | A listener that exited at the sentinel has taken every admitted record that was not evicted and given it to exactly the outputs whose level admits it. |
| LogPipelineTheorems.FlushBarrier | src/fastapiobserver/logging/queueing.py:139-161 | If `flush` returned True, every output was flushed successfully, at a moment when it had been given exactly the records put before the marker that it admits and that were not evicted. |
| LogPipelineTheorems.LostFlushNeverTrue | src/fastapiobserver/logging/queueing.py:152-161 | A flush whose marker was evicted or was put behind the sentinel never returns True. |
| LogFlush.FlushTrueExactly | src/fastapiobserver/logging/queueing.py:139-161 | In any run from before its marker was put, a flush that looks now is answered True if and only if the listener took the marker and is done with it and no output failed to flush for it. |
| LogFlush.FlushSucceeds | src/fastapiobserver/logging/queueing.py:152-161 | From any reachable state with room, no sentinel put and a live listener, a flush that puts its marker is answered True after the steps of the listener alone, if no output raises or fails to flush. |
| LogPipelineTheorems.ListenerProgress | src/fastapiobserver/logging/queueing.py:139-150 | A live listener with anything to do has an enabled operation, and it reduces the work left. |
| LogPipelineTheorems.SentinelStopsListener | src/fastapiobserver/logging/queueing.py:163-181 | Once the sentinel is queued, a live listener whose outputs do not raise can reach its exit by its own steps alone. |
| LogPipelineTheorems.EnqueueIsARun | src/fastapiobserver/logging/queueing.py:217-278 | One thread's steps from a free lock end with exactly the queue and totals that the object's `Enqueue` computes without interference. |
| LogProgress.CallOutcome | src/fastapiobserver/logging/queueing.py:217-278 | For one accepted `enqueue` among any steps of the other threads, the lengths that its own queue operations found decide everything: enqueued if and only if one of its puts found room, an eviction counted if and only if its read found an item, otherwise a dropped newest, after a wait and a timeout under `block`; the only record put meanwhile is its own. |
| LogProgress.TeardownFinishes | src/fastapiobserver/logging/setup.py:65-119 | From every reachable state with no producer in the lock, whatever attempts gave up before and even with a full queue, the stopper and the listener alone can get to the closed outputs. |
| LogPipelineSafety.StepKeeps | src/fastapiobserver/logging/queueing.py:132-278 | Every operation of every thread keeps the eleven invariants of queue, counters, gate, sentinel, deliveries and flush markers. |
| LogPipelineSafety.ExpectedMeaning | src/fastapiobserver/logging/queueing.py:139-150 | The expected deliveries of an output are precisely the taken records at or above its level, in order. |
| LogQueue.OverflowKeeps | src/fastapiobserver/logging/queueing.py:217-278 | With no other thread at work, n records leave the last min(n, capacity) under `drop_oldest` and the first min(n, capacity) under the other policies, and all six totals are the exact ones. |
| LogQueue.OverflowPolicyQueueHandler.Enqueue | src/fastapiobserver/logging/queueing.py:217-240 | Whatever other threads do in between: a closed handler changes nothing; an accepting one adds exactly one to enqueued or dropped-newest, enqueued only if this record was admitted, and counts its evictions exactly; the lengths its own puts and its own read found decide all six totals. |
| LogQueue.OverflowPolicyQueueHandler.DropOldestThenEnqueue | src/fastapiobserver/logging/queueing.py:250-264 | One eviction, counted, exactly if the read found an item; then one admission exactly if the put found room, otherwise one dropped-newest, even if others take the freed slot. |
| LogQueue.OverflowPolicyQueueHandler.BlockThenEnqueue | src/fastapiobserver/logging/queueing.py:266-278 | One blocked call, then an admission exactly if the timed put found room, otherwise a timeout that is also a dropped-newest. |
| LogQueue.OverflowPolicyQueueHandler.Close | src/fastapiobserver/logging/queueing.py:242-248 | The handler stops accepting and nothing else changes. |
| LogQueue.OverflowPolicyQueueHandler.HandleError | src/fastapiobserver/logging/queueing.py:201-203 | A record that failed before the queue is one dropped-newest. |
| LogQueue.DrainingQueueListener.Stop | src/fastapiobserver/logging/queueing.py:163-181 | Success means that the thread is dead and detached, and a thread that was dead is a success. Failure keeps it attached for a retry, and then either the sentinel is in the queue and the thread lives, or puts were tried until the timeout had passed. At most 1 + timeout/0.05 (rounded up) attempts, none if an earlier call put the sentinel, exactly one, which puts it, for a live listener whose queue nobody else uses and that has room; one sentinel over all calls. |
| LogQueue.PacedStep | src/fastapiobserver/logging/queueing.py:167-177 | One failed timed put keeps attempts and elapsed time in step, within the attempt limit. |
| LogOutputs.HandleRecord | src/fastapiobserver/logging/queueing.py:149-150 | A record is given to every output whose level admits it and to no other. |
| LogOutputs.HandleMarker | src/fastapiobserver/logging/queueing.py:139-148 | Every output is flushed once even if others fail, `done` is set, and `succeeded` stays true exactly if all flushes went well. |
| LogOutputs.CloseAll | src/fastapiobserver/logging/setup.py:106-114 | Every output is closed once even if others raise, and exactly the ones that raised are answered. |
| LogSetup.Managed.Teardown | src/fastapiobserver/logging/setup.py:65-119 | Admissions stop first; if the listener did not stop no output is closed and all is kept for a retry, which happens only if it is alive or no sentinel could be put; otherwise its thread is dead, each output is closed once and forgotten, and the ones that raised are answered; with room in a queue of its own the sentinel of a live listener is put; nothing queued is evicted and at most one sentinel is ever put. |
| CircuitBreaker.RunAccounted | src/fastapiobserver/logging/circuit_breaker.py:147-182 | For any order of attempts, failures and successes, flush failures while open included: the failure streak stays below the threshold, openings bound probes and probes bound closings, and every opening that was not a failed probe cost a whole threshold of failures. |
| CircuitBreaker.OpensOnlyOnStreak | src/fastapiobserver/logging/circuit_breaker.py:159-173 | The breaker opens only on a failed probe or after a threshold of failures with no success between them. |
| CircuitBreaker.ProbeRate | src/fastapiobserver/logging/circuit_breaker.py:147-173 | `half_open_total` times the recovery time fits into the time since the first opening. |
| CircuitBreaker.EmissionsCounted | src/fastapiobserver/logging/circuit_breaker.py:91-106 | After any sequence of emits, handled plus failures plus skipped is their number. |
| CircuitBreaker.OutageAttempts | src/fastapiobserver/logging/circuit_breaker.py:91-106 | A sink that keeps failing is tried a threshold of times until the breaker opens and then exactly once per probe; every other record is skipped. |
| CircuitBreaker.OutageCost | src/fastapiobserver/logging/circuit_breaker.py:147-173 | During an outage the attempts beyond the threshold, one recovery time for each, fit into the time since the first opening, however many records arrive. |
| BreakerRuns.PhaseExact | src/fastapiobserver/logging/circuit_breaker.py:147-182 | After any operations: open if and only if no attempt came a recovery time after the failure that opened it last; half open if and only if one did and only attempts came since; the failure count is that since the last success or opening. |
| BreakerRuns.OpensExactly | src/fastapiobserver/logging/circuit_breaker.py:159-173 | An operation opens the breaker if and only if it is a failure, and either a probe is out with only attempts since or the failures since the last success or opening reach the threshold. |
| BreakerRuns.SkipsExactly | src/fastapiobserver/logging/circuit_breaker.py:147-157 | An attempt is skipped if and only if the breaker opened, no probe was let through since, and less than a recovery time has passed since the failure that opened it. |
| BreakerRuns.TotalsExact | src/fastapiobserver/logging/circuit_breaker.py:125-182 | After any operations each of the six totals is the number of the operations it stands for: successes, failures, attempts skipped, openings, probes let through and successes that closed the breaker. |
| BreakerRuns.NeverStarved | src/fastapiobserver/logging/circuit_breaker.py:147-157 | After any operations, an attempt that comes a recovery time after every failure is let through. |
| BreakerRuns.RecoversForGood | src/fastapiobserver/logging/circuit_breaker.py:91-106 | After any emits, the first record that comes a recovery time after all failures reaches the sink; if it is written the breaker is closed and skips none of the records that are written after it. |
| CircuitBreaker.SinkCircuitBreakerHandler.constructor | src/fastapiobserver/logging/circuit_breaker.py:55-83 | A fresh breaker is closed with zero totals, at least one failure as threshold and at least a millisecond to recover. |
| CircuitBreaker.SinkCircuitBreakerHandler.Emit | src/fastapiobserver/logging/circuit_breaker.py:91-106 | The delegate is reached exactly when the breaker is not open or its time has come, and the record adds one to exactly one of handled, failures and skipped. |
| CircuitBreaker.SinkCircuitBreakerHandler.Flush | src/fastapiobserver/logging/circuit_breaker.py:117-123 | A flush that raises counts as a failure in any state; one that does not changes nothing. |
| CircuitBreaker.SinkCircuitBreakerHandler.SkipOrProbe | src/fastapiobserver/logging/circuit_breaker.py:147-157 | In place, the state and the answer of the `_should_skip` transition that the run theorems are about. |
| CircuitBreaker.SinkCircuitBreakerHandler.NoteFailure | src/fastapiobserver/logging/circuit_breaker.py:159-173 | In place, the state of the `_record_failure` transition. |
| CircuitBreaker.SinkCircuitBreakerHandler.NoteSuccess | src/fastapiobserver/logging/circuit_breaker.py:175-182 | In place, the state of the `_record_success` transition. |
| HeldLogs.SampledShare | src/fastapiobserver/logging/held.py:46-47 | Exactly `sample_bound` of the 2^64 bit patterns are kept, and that is the rate to within half a pattern. |
| HeldLogs.SampledSetsNest | src/fastapiobserver/logging/held.py:46-69 | Whatever a lower rate keeps, a higher rate keeps. |
| HeldLogs.RunConserves | src/fastapiobserver/logging/held.py:49-109 | For any records, stamps and keeps of a request, taken one at a time in any order, the multiset of records that reached the filter is split exactly into handed on, still held, pushed out by newer ones and left behind by a keep, and only records below the level are left behind. |
| HeldLogs.KeptRequestWrites | src/fastapiobserver/logging/held.py:93-132 | After any records and stamps, taken one at a time, a request that is kept has written the records that passed at once, by the decision of the first record or stamp that needed one, followed by what a keep writes of the last 200 held ones. |
| HeldRuns.KeptRequestOrder | src/fastapiobserver/logging/held.py:93-109 | The held records that a keep writes, in order: all of the last 200 if it failed, those at the level if it was slow. |
| HeldRuns.WarningsPass | src/fastapiobserver/logging/held.py:49-59 | A record at WARNING or above, and at the level, is handed on at once whatever was decided. |
| HeldRuns.OnlyFailureShowsDetail | src/fastapiobserver/logging/held.py:93-109 | Unless the request is kept as failed, nothing below the level is ever handed on. |
| HeldRuns.DecisionExact | src/fastapiobserver/logging/held.py:61-105 | After any records, stamps and keeps: the decision is yes once kept, otherwise that of the first record or stamp that needed one; the probability is the one noted with it; the retention reason is that of the last keep. |
| HeldRuns.StampExact | src/fastapiobserver/logging/held.py:115-136 | After any records, stamps and keeps, the stamp on a terminal record is 1.0 if the request was kept, the record is at WARNING or the rate is full; otherwise 1.0 if the record that decided for the request has no sampling bits, and else the rate. |
| HeldLogs.FailedRequestLosesNothing | src/fastapiobserver/logging/held.py:93-109 | A failed request that held at most 200 records has written all of its records, once each, whatever was stamped in between. |
| HeldLogs.DecisionOnlyPromoted | src/fastapiobserver/logging/held.py:61-69 | Taken one at a time, records and stamps leave a sampling decision once made, and only a keep changes it, from no to yes. |
| HeldLogs.CertainRecordsPass | src/fastapiobserver/logging/held.py:112-140 | After any history of records, stamps and keeps, taken one at a time, a terminal record stamped with inclusion probability 1.0, at or above the level, passes the held filter. |
| HeldLogs.RequestLogs.Sampled | src/fastapiobserver/logging/held.py:61-69 | In place, the decision and the probability noted with it. |
| HeldLogs.RequestLogs.StampRecord | src/fastapiobserver/logging/held.py:115-136 | In place: the probability stamped on an observer-owned terminal record, and the decision that stamping may make. |
| HeldLogs.RequestLogs.FilterRecord | src/fastapiobserver/logging/held.py:49-59 | In place: the record is handed on or held, never both, and the deque keeps the newest 200. |
| HeldLogs.RequestLogs.KeepRequestLogs | src/fastapiobserver/logging/held.py:93-109 | In place: the request is promoted, its deque emptied and the written records appended in order. |
| SamplingThreads.CallAlone | src/fastapiobserver/logging/held.py:61-69 | The steps of one `_sampled` call with no other thread in between are the decision of the sequential model. |
| SamplingThreads.KeepAlone | src/fastapiobserver/logging/held.py:93-105 | The steps of one keep with no other thread in between promote the request as that of the sequential model. |
| SamplingThreads.DecisionLasts | src/fastapiobserver/logging/held.py:61-69 | Over every run of any number of threads without a keep, a decision lasts if and only if it was made and no thread is between its None test and its assignment with the other decision. |
| SamplingThreads.YesLasts | src/fastapiobserver/logging/held.py:61-105 | A yes lasts over every run, keeps included, if and only if it was made and no such thread has a record that is not kept. |
| SamplingThreads.KeepLasts | src/fastapiobserver/logging/held.py:93-105 | A keep lasts if and only if, when it happens, no thread is past the None test with a record that is not kept. |
| SamplingThreads.AgreedDecisionStands | src/fastapiobserver/logging/held.py:61-90 | Threads whose records decide alike, as those of one trace do, never undo each other's decision. |
| SamplingThreads.StandingAnswer | src/fastapiobserver/logging/held.py:61-69 | From the moment a decision lasts, every `_sampled` call that returns later answers it, whenever it began and whatever its own record says. |
| SamplingThreads.RecordPasses | src/fastapiobserver/logging/held.py:49-69 | A record of a decided request passes the filter whenever it gets there, if and only if its level or the rate sees to that or the yes lasts. |
| SamplingThreads.CertainPasses | src/fastapiobserver/logging/held.py:112-140 | A terminal record of a kept request is stamped with 1.0, and it passes the filter in every run under exactly that condition. |
| SamplingThreads.StampMeaning | src/fastapiobserver/logging/held.py:121-132 | When a stamp says 1.0 of a decided request: it was kept, the level or the rate sees to it, or a thread noted 1.0. |
| SamplingThreads.StampedPasses | src/fastapiobserver/logging/held.py:112-140 | Whatever made the stamp 1.0, a keep or not, the terminal record passes in every run under the same condition as any record. |
| SamplingThreads.PromotionCanBeLost | src/fastapiobserver/logging/held.py:61-109 | A run that shows it: a thread finds no decision, the slow request is kept, the thread assigns no, and the terminal record is stamped with 1.0 and held. |
| SamplingThreads.CertaintyCanBeCrossed | src/fastapiobserver/logging/held.py:61-69 | Another run, without any keep: two threads cross in their assignments, none is left inside, and the terminal record is stamped with 1.0 and held. |
| HoldThreads.StepLost | src/fastapiobserver/request_context.py:262-267 | A step of a hold or a keep loses exactly the records its guard names: a hold that finds no deque, or appends to one the keep will not come to any more, as after its store; and at a store of None what was held since a load that found nothing. |
| HoldThreads.LostExactly | src/fastapiobserver/logging/held.py:93-109 | Over every run of one request, the records neither written nor still to be come to by the keep are exactly those its steps lost by their guards. |
| HoldThreads.WrittenOrLost | src/fastapiobserver/logging/held.py:93-109 | When the keep is done and no hold is under way, a record is not written if and only if some step lost it by its guard; all were written if and only if no guard was met. |
| HoldThreads.WrittenInOrder | src/fastapiobserver/logging/held.py:93-109 | In every run the written records are in the order in which they were held, each once. |
| HoldThreads.QuietSwap | src/fastapiobserver/logging/held.py:106 | A keep that finds no hold under way, and stores None before the next begins, loses nothing by its swap. |
| HoldThreads.HeldRecordCanBeLost | src/fastapiobserver/logging/held.py:106 | A run that shows it: the keep finds nothing held, a record is held, the keep stores None, and the record is never written. |
| HoldThreads.LateHoldIsLost | src/fastapiobserver/request_context.py:262-267 | Another: a hold begun before the keep appends after it, to a deque that no continuation writes. |
| RequestCalls.RecordKeeps | src/fastapiobserver/request_context.py:130-164 | Totals that match a list of admitted calls still match it after one more: counts, seconds, error sums, bounded categories, statement counts and the failed executions kept apart. |
| RequestCalls.AddErrorBounded | src/fastapiobserver/request_context.py:48-56 | However many categories arrive, at most 32 keys besides `other` are kept; which ones, with what counts, is the next row. |
| CallErrors.CategoriesExact | src/fastapiobserver/request_context.py:53-56 | In every reachable state, for the calls of a kind and for the failed executions, open or in the closing summary: a category that has a counter has the exact number of its admitted calls; one that occurred and has none met a spent budget of 32; `other` counts the calls of all those and of its own name. |
| CallErrors.FewCategoriesExact | src/fastapiobserver/request_context.py:53-56 | While at most 32 distinct categories were admitted, every count is exact, and `other` counts only the calls that name it. |
| RequestCalls.RecordedIsAdmitted | src/fastapiobserver/request_context.py:130-164 | The two call counts plus the failed executions are the number of admitted calls. |
| RequestCalls.MostRepeatedIsMaximum | src/fastapiobserver/request_context.py:203-205 | The most repeated statement is reported with its exact number of runs, and it is the true maximum while at most 128 distinct statements were seen. |
| CallTheorems.ClosingSummaryExact | src/fastapiobserver/request_context.py:227-253 | However completions race with the close, the closing snapshot counts exactly the calls whose recording returned True. |
| CallTheorems.OpenTotalsExact | src/fastapiobserver/request_context.py:130-164 | The same holds at every moment while the state is open. |
| CallTheorems.FinishAtMostOnce | src/fastapiobserver/core/recording.py:82-96 | Of any two threads that finish one handle at most one is told True. |
| CallTheorems.InFlightExact | src/fastapiobserver/request_context.py:110-123 | `pending_calls` of a kind is the number of its unfinished handles, and `sql.attempted` is succeeded plus failed plus unfinished SQLAlchemy handles. |
| CallTheorems.ClampNeverActs | src/fastapiobserver/request_context.py:166-169 | Whenever a completion is about to be recorded on an open state, the pending count is at least one. |
| CallTheorems.NoFallback | src/fastapiobserver/core/recording.py:34-96 | In every reachable state and for every owner, kind and source, the started calls the owner admitted are as many as the admitted handles that were started on it with that kind and source. |
| CallTheorems.HandlesKeepOwner | src/fastapiobserver/core/recording.py:67-80 | Owner, kind, source and process of a handle never change, and its flags only rise. |
| CallRuns.StateFollowsSteps | src/fastapiobserver/request_context.py:110-164 | In every run: a handle has the state, kind and source it was started with, and the token of the process that first asked for one while that state was open; and the admitted calls of a state are exactly those that its steps completed, well formed, finite and before its close, with the seconds, statement and error they gave. |
| CallRuns.FinishAlone | src/fastapiobserver/core/recording.py:82-96 | A `finish` with no other thread in between is told True if and only if its state was open at its start and still is, the process is that of the token, the handle is unfinished and the call is well formed and finite; the state has then admitted exactly this call. |
| CallTheorems.ParentHandlesRefused | src/fastapiobserver/core/recording.py:60-88 | Over any run, a handle from before a fork is never claimed and never admitted in the child. |
| CallTheorems.CloseIsFinal | src/fastapiobserver/request_context.py:241-253 | After a close no later step of any thread changes the state or is told True about it. |
| CallLines.LineMisses | src/fastapiobserver/middleware/request_logging.py:294-295 | For every interleaving, the totals in the log line of an open request match the calls admitted before it, and miss of the closing totals exactly the calls told True between the line and the close. |
| CallLines.LineCanMissACall | src/fastapiobserver/middleware/context.py:80-83 | A run that shows it: the line, then a call told True, then the close. |
| CallTheorems.GroupsBounded | src/fastapiobserver/request_context.py:48-56 | An open state holds at most 128 fingerprints and 33 error keys per group. |
| CallTheorems.UntrackedStaysUntracked | src/fastapiobserver/request_context.py:159-163 | Over any run in which the state stays open, a statement that was seen and not tracked is never tracked. |
| CallSources.SourcesExact | src/fastapiobserver/request_context.py:116-117 | An open state lists a source for a kind if and only if such a call was started on it or admitted to it. |
| CallExecutions.ExecutionsExact | src/fastapiobserver/request_context.py:110-158 | While a state is open, `attempted` is the number of SQLAlchemy executions started on it, `succeeded` the admitted ones without an error and `failed` those with one. |
| RequestState.State.CallOwner | src/fastapiobserver/request_context.py:110-123 | A closed state hands out no token; an open one hands out the one token it ever has, of the process that first asked, and notes source, pending call and SQL attempt together. |
| RequestState.State.RecordCall | src/fastapiobserver/request_context.py:130-164 | A call is admitted exactly when the state is open and the total finite, and a refused one changes nothing. |
| RequestState.State.CompleteCall | src/fastapiobserver/request_context.py:166-169 | In place, the source note and the clamped decrement. |
| RequestState.State.SummarizeCalls | src/fastapiobserver/request_context.py:227-239 | The snapshot is the state before, and the optional freeze empties it in the same step. |
| RequestState.State.Release | src/fastapiobserver/request_context.py:241-253 | The state is closed, has no token and empty totals. |
| RequestState.State.MostRepeatedStatement | src/fastapiobserver/request_context.py:203-205 | Nothing for an empty table, otherwise a tracked statement with the maximum count. |
| RequestState.CallHandle.constructor | src/fastapiobserver/core/recording.py:70-80 | The handle gets its owner's token exactly if the owner was open, and then its start is noted there. |
| RequestState.CallHandle.Finish | src/fastapiobserver/core/recording.py:82-96 | True exactly for the first valid, finite completion by the process that made the token, while the owner is open, and only then are the totals changed, by this call. |
| RequestDrivers.Operation.Enter | src/fastapiobserver/experimental.py:43-58 | An operation is entered once; then it has a fresh open state with empty totals. |
| RequestDrivers.Operation.RecordCall | src/fastapiobserver/experimental.py:77-86 | An exception before any change, or an answer that is True exactly when its own state is open and the total finite, and then the totals hold this call. |
| RequestDrivers.Operation.StartCall | src/fastapiobserver/experimental.py:88-92 | A handle bound to this operation's state exactly when the operation is active. |
| RequestDrivers.Operation.Exit | src/fastapiobserver/experimental.py:60-72 | It takes effect once; whatever raises, the state ends closed and empty, and the summary, if it was reached, is exactly the totals at that moment. |
| RequestDrivers.StartSpan | src/fastapiobserver/otel/tracing.py:140-149 | With another thread closing the state at any moment: a span of a state open at the start is captured, with that state's token, or counted by the table, and the state counts it too if and only if it is still open when `drop_span` comes. |
| RequestDrivers.BeforeExecute | src/fastapiobserver/db_queries.py:42-50 | An execution for an open request is one more SQL attempt in flight, on that request. |
| RequestDrivers.EndExecution | src/fastapiobserver/db_queries.py:53-68 | However many of the two ending hooks run, the execution leaves the flight once, as succeeded or as failed, and the totals hold exactly its call. |
| RequestDrivers.ExecutionEnds | src/fastapiobserver/request_context.py:130-158 | An admitted SQLAlchemy call takes exactly one attempt out of flight. |
| SpanRuns.PopAnswers | src/fastapiobserver/core/recording.py:128-132 | For every history of threads, closes and forks, and however late it looks, `pop` answers the state of the last accepted capture of its key since the last fork or `pop` of it, if that state was not closed and its token was made in this process; otherwise nothing. |
| SpanRuns.CaptureThenPop | src/fastapiobserver/core/recording.py:116-132 | A span that starts with room in an open state of this process is given back to that state when it ends, if in between its key was neither captured again nor popped, nothing forked and the state did not close. |
| SpanRuns.TableExact | src/fastapiobserver/core/recording.py:99-132 | For every history: the table has an entry for a key if and only if the last accepted capture of it, since the last fork or `pop`, is of a state whose token exists, and it is that state; `dropped` is the number of captures since the fork that found no room. |
| SpanRuns.OpenDropsExact | src/fastapiobserver/otel/tracing.py:146-149 | For every history, the dropped spans of a state that is not closed are its refused captures, less those whose `drop_span` is still to come and those a fork left behind. |
| SpanRuns.ClosedCountsNothing | src/fastapiobserver/request_context.py:171-174 | Over every history, a closed state counts no further dropped span. |
| SpanRuns.SpanStartRefused | src/fastapiobserver/otel/tracing.py:140-149 | A span that starts without room, in an open state and with nothing in between, adds one to the dropped spans of the table and one to those of the state. |
| SpanOwners.RunRefines | src/fastapiobserver/core/recording.py:99-132 | At every moment the table is the plain map restricted to the states whose token exists: open ones, and closed ones whose token a thread still holds. |
| SpanOwners.TableBounded | src/fastapiobserver/core/recording.py:116-126 | Entries never exceed the limit, none belongs to a closed state whose token no thread holds, and `dropped` is the number of captures refused in this process. |
| SpanOwners.DroppedSpansExact | src/fastapiobserver/otel/tracing.py:146-149 | For every history of threads, closes and forks, `dropped_spans` of a state plus the drops still to come plus those that came after the close or were left behind by a fork are its refused captures; the count is exact if and only if there are none of either. |
| SpanOwners.DropCanComeLate | src/fastapiobserver/otel/tracing.py:146-149 | A history that shows it: the table refuses and counts a span, another thread closes the state, and the state never counts it. |
| SpanOwners.AcceptsMeaning | src/fastapiobserver/core/recording.py:116-126 | A capture that got a token is accepted if and only if its key is live or the table is not full of other live entries. |
| SpanOwners.ClosingFreesSlots | src/fastapiobserver/request_context.py:241-249 | Closing an owner that holds an entry and whose token no thread holds makes room: whoever waits at the lock is then accepted. |
| SpanOwners.Owners.ResetAfterFork | src/fastapiobserver/core/recording.py:109-114 | In place, the empty table of a new process. |
| SpanOwners.Owners.CaptureSpan | src/fastapiobserver/core/recording.py:116-126 | In place, the capture whose histories the refinement is about. |
| SpanOwners.Owners.PopSpan | src/fastapiobserver/core/recording.py:128-132 | In place, the removal whose histories the refinement is about. |
| HttpCalls.EachCallOnce | src/fastapiobserver/http_calls.py:62-80 | In every run of any number of tasks, the HTTP count is the completed outermost instrumented calls plus the ended captured HTTP client spans that neither started under an active client nor were current when such a call began. |
| HttpRuns.StateFollowsSteps | src/fastapiobserver/http_calls.py:69-80 | In every run the active client of a task is that of its innermost send in progress, or what it inherited when it was spawned; a span started under a client if and only if its task had one then; it was found current if and only if some outermost send began with it current, live and of client kind. |
| HttpRuns.CountFollowsSteps | src/fastapiobserver/http_calls.py:62-80 | In every run the HTTP count is the number of completions plus the number of ends of such lone spans, and the calls are begun by the outermost sends alone; all told by the steps. |
| HttpRuns.SpanCountedWhenLone | src/fastapiobserver/otel/tracing.py:151-173 | In every run the end of a span raises the HTTP count, by one, if and only if the span was captured, is HTTP, did not start in a task with an active client and was not found current by the start of an outermost send: never for a span that starts inside a send, whatever happens until it ends. |
| HttpRuns.MarksLeft | src/fastapiobserver/http_calls.py:62-66 | A mark that is left is of a span that has not ended or was never captured. |
| HttpCalls.ReentrantSendAddsNothing | src/fastapiobserver/http_calls.py:179-191 | A send through the client that is already active adds no call and no mark, and its return restores everything. |
| HttpCalls.OutermostSendRestores | src/fastapiobserver/http_calls.py:193-206 | An outermost send adds one call and leaves its task's context as it found it. |
| HttpCalls.HttpAccounting.Begin | src/fastapiobserver/http_calls.py:179-198 | In place: the call to complete, or none for a re-entrant send; the current client span is marked; the accounting is kept. |
| HttpCalls.HttpAccounting.OnStart | src/fastapiobserver/otel/tracing.py:140-149 | In place: a captured span that starts under an active client is marked, and no other; it is one step of the runs of `HttpRuns`. |
| HttpCalls.HttpAccounting.OnEnd | src/fastapiobserver/otel/tracing.py:151-173 | In place: a captured span gives up its mark and is counted if it is HTTP and was not marked; the accounting is kept. |
| Redaction.EventNonInterference | src/fastapiobserver/security/redaction.py:105-107 | Two events that differ only beneath sensitive keys, in entries an allowlist removes or inside containers deeper than 32 are written identically; in hash mode if the hashes of the redacted values agree too. |
| Redaction.NonInterference | src/fastapiobserver/security/redaction.py:139-240 | The same for any value at any place of the tree. |
| Redaction.FixedPoints | src/fastapiobserver/security/redaction.py:139-240 | In mask and drop modes redaction leaves a value alone if and only if it holds nothing to remove, mask or cut, its mappings are dictionaries and their keys are distinct strings. |
| Redaction.EventIdempotent | src/fastapiobserver/security/redaction.py:105-107 | In mask and drop modes redacting twice is redacting once. |
| Redaction.EventNesting | src/fastapiobserver/security/redaction.py:14 | A redacted event nests at most 33 containers, whatever the input. |
| Redaction.ChainCut | src/fastapiobserver/security/redaction.py:187-205 | The cap is exact: nested lists keep as many levels as there is room for and no fewer. |
| Redaction.Provenance | src/fastapiobserver/security/redaction.py:139-240 | Every scalar in the output was at the same path of the input, reached only through kept keys and within the depth cap, or stands for what is hidden at that very path: the mask or the hash of the value under a sensitive key there, or the mask of a container beyond the cap. |
| Redaction.Survival | src/fastapiobserver/security/redaction.py:139-240 | Every scalar so reached is written unchanged at the same path and every such replacement where it stands, when no two keys on the way share a string form. |
| Redaction.OutputExact | src/fastapiobserver/security/redaction.py:139-240 | On such paths the scalars of the output are exactly the visible ones and the replacements. |
| RedactionPaths.OutputFollows | src/fastapiobserver/security/redaction.py:139-240 | Conversely, whatever the output holds at a path is let through by the key sets and the depth limit, and is the copy or the replacement of what the input holds there. |
| RedactionPaths.WritableIsWritten | src/fastapiobserver/security/redaction.py:139-240 | For any value and place, and containers too: what the key sets and the depth limit let through is written, as the copy or the replacement of what the input holds there, when no two keys on the way share a string form. |
| RedactionPaths.EventFollowsPolicy | src/fastapiobserver/security/redaction.py:139-170 | Whatever a redacted event holds, at any path: no step but the last has a key among the sensitive fields, or among the sensitive headers directly under a key named `headers`; the last one has only in mask and hash modes, and then the mask or the hash stands there; every key directly under `headers` is in the header allowlist and every top-level key in the event allowlist. |
| RedactionPaths.PlainPathCopied | src/fastapiobserver/security/redaction.py:139-240 | A path without a sensitive key holds a scalar in the output if and only if every key on it is in the allowlists that apply, it is no longer than 33, and the input holds that scalar there or, at length 33, the mask stands for a container. |
| RedactionPaths.SensitivePathReplaced | src/fastapiobserver/security/redaction.py:139-170 | At a path whose last key alone is sensitive, the output has the mask, or the hash of what the input has there, if and only if the mode does not drop, the path is no longer than 33 and every key on it is in the allowlists that apply. |
| RedactionPaths.RecordParts | src/fastapiobserver/security/redaction.py:110-118 | In a redacted record every field is as in an event without an event allowlist, except that an `event` that is a dictionary, was not left out, and meets such a list is the redacted event. |
| Redaction.RedactedIn | src/fastapiobserver/security/redaction.py:42-54 | Under a sensitive key the output has the mask, the hash of the last value with that string form, or nothing at all, by mode. |
| Redaction.RecordEventRedacted | src/fastapiobserver/security/redaction.py:110-118 | A policy that names `event` as a field: drop mode removes the event; in mask and hash mode the replacement stays if and only if there is no event allowlist or the event is no dictionary, and otherwise the redacted event is written back. |
| Redaction.EventWrittenBack | src/fastapiobserver/security/redaction.py:114-117 | An input that shows it: under mask mode an event named for redaction is written in clear. |
| Redaction.SanitizeMapping | src/fastapiobserver/security/redaction.py:139-184 | The loop computes the recursion that the theorems are about. |
| Redaction.Sanitize | src/fastapiobserver/security/redaction.py:187-240 | The dispatch on the kind of a value computes that recursion too. |
| RequestMiddleware.ObservedOnce | src/fastapiobserver/middleware/request_logging.py:158-166 | For any sends, legal or not, and any ending: one observation, or none exactly if the response never finished and logging raised. |
| RequestMiddleware.FinalStatus | src/fastapiobserver/middleware/request_logging.py:168-191 | Under legal order, failed sends repeated or passed over included: if a start was sent the status is the last one attempted; if none was, 500 for an exception, 499 for a cancellation or a client that left before the end, otherwise the one attempted or 500. |
| RequestMiddleware.SentStatusLogged | src/fastapiobserver/middleware/request_logging.py:119-191 | Under legal order a status that was sent is the one logged, whatever follows. |
| RequestMiddleware.MetricMatchesLog | src/fastapiobserver/middleware/request_logging.py:158-191 | Under legal order the observed and the logged status are the same, if and only if it is not the case that the last message of the response was sent, no start was, and the ending is an exception with a status other than 500 attempted, or a cancellation or an early leave with one other than 499. |
| RequestMiddleware.StatusesCanDiffer | src/fastapiobserver/middleware/request_logging.py:119-191 | A legal request that shows it: a start that raised, a body that was sent and an exception observe 200 and log 500. |
| RequestMiddleware.FirstBodyIsFirstChunk | src/fastapiobserver/middleware/request_logging.py:146-161 | The first-body moment is that of the first body chunk with bytes that was sent. |
| RequestMiddleware.FinishedIsDelivered | src/fastapiobserver/middleware/request_logging.py:150-166 | The response counts as finished if and only if its last legal message was sent, from the moment it was. |
| RequestMiddleware.RunOrdered | src/fastapiobserver/middleware/request_logging.py:119-166 | Under legal order and a clock that does not run backwards, start, first body and finish are in order. |
| RequestMiddleware.TimingsNest | src/fastapiobserver/middleware/request_logging.py:232-284 | The reported times satisfy 0 <= response start <= first body <= duration <= application duration, and the stream's duration is the rest of the duration. |
| RequestTimings.TimingsExact | src/fastapiobserver/middleware/request_logging.py:232-284 | Under legal order and a clock that does not run backwards each reported time is that of the event it stands for: the start that was sent, the first chunk with bytes, the last message, the end of the application, and the stream from its first chunk to its last message. |
| RequestTimings.ObservationExact | src/fastapiobserver/middleware/request_logging.py:162-166 | Under legal order the one observation has, for a delivered response, the status attempted by then and the time of its last message, and otherwise the final status and the time of the application. |
| RequestTimings.NeverNegative | src/fastapiobserver/middleware/request_logging.py:211-284 | Whatever the events and the clock, no reported time is negative. |
| RequestTimings.LeftMoment | src/fastapiobserver/middleware/request_logging.py:110-117 | Under legal order the disconnect is noted at the first one received before the response was complete. |
| RequestMiddleware.ShortcutAgrees | src/fastapiobserver/middleware/request_logging.py:273-284 | The shortcut for a response sent in one piece reports what the general formula would. |
| RequestMiddleware.Middleware.Receive | src/fastapiobserver/middleware/request_logging.py:110-117 | In place, the first disconnect before the response finished. |
| RequestMiddleware.Middleware.Send | src/fastapiobserver/middleware/request_logging.py:119-166 | In place, what a send that succeeds or raises leaves behind. |
| RequestMiddleware.Middleware.Finish | src/fastapiobserver/middleware/request_logging.py:175-191 | In place, the final status and the observation that is still due. |

## Left out

- Real sinks, sockets, OTLP exporters and Prometheus rendering: an output is something that succeeds, fails or raises.
- One pipeline from its setup to its teardown: `setup_logging`, `telemetry.reset`, restarting the listener in a forked child and unique sink names are not modelled.
- `KeyboardInterrupt` and other `BaseException`s out of an output's flush, after which a flush could report success.
- Key normalization and the keyed hash: any functions will do. No idempotence is claimed in hash mode, where it does not hold.
- Parsing: `redact_body`, JSON, form bodies and URL credentials; the sanitizer starts from a parsed tree.
- Floating point: seconds and rates are real numbers, and a total that would not be finite is a refusal that may come at any time. Rounding to milliseconds is left out.
- Garbage collection later than the last reference, and owners dropped without being closed, which are treated as open.
- Appends to the held records while a keep iterates over them: the writing of a keep is one step. A request is kept once.
- The event dictionary of an `Operation`, its context variables and the log record it hands on.
- `add_diagnostic`, the repeated-statement warning and the observation's coverage label: easy functions of the totals proved here.
- SQLAlchemy, HTTPX, Requests and OpenTelemetry: only the order of their hooks is modelled; a failed execution is a finish with an error.
- HTTP deduplication across different request states, where a span captured by a parent and marked from a child counts in both.
- Records logged outside a request, or on a request state that was already closed: they are written or dropped at once and nothing is held.
- The level and message of the terminal record, and when a request counts as slow.
- The error category that a completion gets (`_error_category`) and the text of log lines.
- Sends of one response that run at the same time.
