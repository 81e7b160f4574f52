# Verified model of the batch inference pipeline

This project models how a batch of prompts is turned into one results file, and proves what that
pipeline promises. A batch's prompt file lies in object storage as NDJSON. An orchestrator plans
fixed-size chunks; workers lease a chunk, read its lines, ask a provider behind a shared rate
limiter, write a checkpoint object, and commit; a completion check requeues what got lost; a
finalizer concatenates the checkpoints and writes a manifest; a webhook tells the client. Jobs are
delivered at least once and may be lost, workers die at any point, leases expire, and a slow worker
may go on after its lease was given to another.

`dafny verify dfyconfig.toml` checks everything.

## How it is built

| file | what it holds |
|---|---|
| `Ndjson.dfy` | framing of lines, the simple splitter, the buffered reader and the ranged reader |
| `Keys.dfy`, `Planning.dfy`, `Backoff.dfy` | object keys, chunk planning, retry delays |
| `Rows.dfy` | result rows and their codec, ordering, the attempt loop of one item |
| `Spaces.dfy` | class `SpacesClient`: uploads, ranged reads, checkpoints, concatenation |
| `TokenBucket.dfy`, `Grants.dfy`, `RateLimiter.dfy` | the Lua scripts as a state machine; exactly what they grant; class `SharedBucket` with the acquire loop |
| `Pipeline.dfy` | the state machine: one event per database transaction, plus the checkpoint write |
| `Worker.dfy` | the job functions as methods that update row objects and loop over rows and items, each proved to do its transaction in `Pipeline` |
| `Sums.dfy`, `Invariants.dfy` | the inductive invariant of every reachable state |
| `Steps.dfy` | what each event leaves behind, row by row and job by job, without naming the transactions |
| `Refinement.dfy`, `Results.dfy` | a completed batch is what a plain sequential program computes from its prompt file, and reports on every line |
| `Lifecycle.dfy`, `Webhooks.dfy` | status changes, failures recorded once, delivery chains and POSTs |
| `Budget.dfy`, `Progress.dfy` | attempt budget and termination of retries; no batch is stranded |
| `Counters.dfy` | progress and retry counters against the chunks done and the runs started |
| `Leases.dfy` | what holds when every run ends before its lease does |
| `LateRuns.dfy`, `FailedNudges.dfy` | how it fails when one does not, or when queueing the check after a success fails |
| `Scenarios.dfy` | building the event sequences that these two exhibit |
| `SampleCodec.dfy` | a codec that meets the assumption made about JSON |

`Pipeline.Event` carries all that the environment decides, so a theorem about all event sequences
is a theorem about all interleavings: duplicate jobs (`Redeliver`), lost jobs (`Lose`), worker
deaths (`Crash`, `CheckCrash`), exceptions at any point of a run, before and after its success is
committed (`CommitFailure`), cancellation, and the clock (`Tick`); `Steps.EnvironmentIsFree` says that
none of this is ever ruled out. `Invariants`, `Refinement`, `Results`, `Lifecycle`, `Budget` and
`Webhooks` make no assumption on timing; `Leases` assumes that no run is
alive at its lease deadline, and `LateRuns` shows, for every batch, that each of its results fails
without that assumption. One result of `Leases`, that succeeded rows do not change, also assumes
that no run fails to queue the completion check after its success; `FailedNudges` says exactly what
happens when one does.

The JSON codec is a parameter: `Rows.Codec.Valid` says that an encoded row is a non-blank line
without a raw newline and that decoding undoes encoding, and `SampleCodec.UnaryIsValid` shows that
this can be met. Provider answers, POST results, jitter and clocks are parameters or event fields
too.

## Where the code and its documentation disagree

The model follows the code.

- `docs/design.md` (line 323) says that a succeeded chunk is never recomputed. The exception
  handler and the cancel path of a run do not ask whether the run still holds the lease, so a late
  run can take a succeeded chunk back to `pending` (`LateRuns.LateFailureUnsettles`). The handler
  also covers the enqueue that follows the success commit, so a run that is on time can take its
  own succeeded chunk back, and with its attempts used up even fail a batch all of whose chunks
  have succeeded (`FailedNudges.FailedNudgeFailsBatch`). Results and progress bounds survive both
  (`Refinement.EndToEnd`, `Invariants.CountersAreSound`).
- `docs/design.md` (line 143) says that the reclaim cron job runs every second; `app/workers/main.py`
  (line 54) runs it at second 0 of every minute. Line 322 says that it requeues chunks; it only
  reclaims them. In the model `Reclaim` can happen at any time and requeues nothing.
- The branch of `check_batch_completion` that fails a batch is dead code: no batch that it looks at
  has a failed chunk (`Invariants.ScanIsSafe`).
- A failed batch is not final: `finalize_batch` does not return early for `failed`
  (`LateRuns.LateSuccessRevives`).

## Model

| member | source | states |
|---|---|---|
| Ndjson.StreamLines | app/core/spaces.py:139-154 | However the object's bytes are divided into reads, the buffered reader yields exactly the non-blank segments of the whole split at newlines, in order |
| Ndjson.ReadLineRange | app/core/spaces.py:156-167 | The ranged reader returns the lines in [offset, offset + limit), clipped to the stream |
| Ndjson.SplitThenJoin | app/core/spaces.py:149-150 | The simple splitter is a real splitter: its segments hold no newline and join back to the data |
| Ndjson.SplitIsUnique | app/core/spaces.py:149-150 | It is the only one: newline-free segments are recovered from their join |
| Ndjson.LinesOfBody | app/core/spaces.py:79 | Framing round trip: reading back a written body of non-blank, newline-free lines returns exactly those lines |
| Ndjson.LinesOfTerminated | app/core/spaces.py:181-182 | Adding a missing final newline changes nothing that is read |
| Ndjson.LinesOfConcatenation | app/core/spaces.py:174-184 | The lines of a concatenation are the lines of its parts in order, even if parts are empty or lack their final newline |
| Ndjson.TextsAreStrippedLines | app/core/spaces.py:97-101 | Without carriage returns, the uploader's lines are the reader's lines, stripped |
| Ndjson.SplitLinesCuts | app/core/spaces.py:97 | An upload is cut at every newline, carriage return or pair of the two, and nowhere else: with their ends put back the lines are the data |
| Ndjson.StripCuts | app/core/spaces.py:98 | Stripping cuts whitespace off both ends of a line and nothing else |
| Ndjson.TextsAreLines | app/core/spaces.py:97-100 | The uploaded texts are the stripped non-blank lines, all of them and in order |
| Spaces.SpacesClient.UploadPrompts | app/core/spaces.py:70-81 | A reader finds one line per prompt, in order, as many as the count returned; line p holds the text or the fields of prompt p, and the index that prompt brought or else p |
| Spaces.SpacesClient.UploadRaw | app/core/spaces.py:89-120 | A reader finds one document per non-blank line, in order, as many as the count returned; document p holds the p-th stripped line or what it parses to, an object keeps an index it brings, all else is numbered without gaps |
| Spaces.SpacesClient.ReadRange | app/core/spaces.py:139-167 | A ranged read returns that slice of the object's lines, whatever pieces the store delivers; a missing object is an error |
| Spaces.SpacesClient.WriteChunkResults | app/core/spaces.py:169-172 | Exactly one object is written: the framed, encoded rows |
| Spaces.SpacesClient.ConcatenateChunks | app/core/spaces.py:174-191 | Writes the concatenation under the destination key and nothing else; writes nothing if any part is missing; the result's lines are the parts' lines |
| Keys.PaddedRoundTrip | app/core/spaces.py:233 | The zero-padded index can be read back, beyond six digits too |
| Keys.PaddedIsSixDigits | app/core/spaces.py:233 | Below a million the index takes exactly six decimal digits, and beyond that as many as it needs |
| Keys.ChunkKeysDiffer | app/core/spaces.py:232-233 | Chunk result keys are injective in the index |
| Keys.KeysAreDistinct | app/core/spaces.py:224-241 | No two objects of a batch share a key, for all chunk indices |
| Planning.PlanChunks | app/services/batches.py:148-158 | The loop computes the plan, and refuses a chunk size below 1 |
| Planning.PlanTiles | app/services/batches.py:148-158 | Planned ranges start at 0, follow each other without gap, are non-empty, all but the last exactly chunk_size long and the last no longer, and end at total_items |
| Planning.EveryItemInOneChunk | app/services/batches.py:148-158 | Every item lies in exactly one planned range |
| Planning.RangesTile | app/core/spaces.py:156-167 | Reading every planned range in index order gives back every line exactly once |
| Backoff.WebhookBound | app/core/backoff.py:26-34 | A webhook delay is bounded by 1 to 300 s |
| Backoff.Deferral | app/workers/jobs.py:529-530 | A deferral is the drawn delay to within half a second, but at least 1 s, and at most the bound of its attempt |
| Backoff.Round | app/workers/jobs.py:530 | Rounding goes to the nearest second, and from halfway to the even one |
| Backoff.ItemBoundDoubles | app/core/backoff.py:8-23 | The item retry bound doubles from 1 s up to its cap of 8 s |
| Backoff.WorstDeferralClosed | app/core/backoff.py:26-34 | The worst total deferral of m attempts is 2^(m-1) - 1 for m <= 10 and 511 + 300 (m - 10) beyond |
| Rows.RunOne | app/workers/jobs.py:192-263 | A cancelled batch yields a cancelled row unasked; otherwise at most three attempts, and only retryable replies are retried. The row has the item's index, is ok exactly if the last reply is an answer, names the kind of failure otherwise, and carries that reply's output or error. Each retryable reply costs its jittered sleep, at most 7 s in all |
| Rows.CountOkCounts | app/workers/jobs.py:277-278 | The counts are the numbers of ok rows and of all others, retryable failures included |
| Rows.SortByIndexSorts | app/workers/jobs.py:276 | Rows are ordered by index, none lost or added |
| Rows.SortByIndexIsStable | app/workers/jobs.py:276 | Rows with equal index keep their order |
| Rows.Codec.ReadBack | app/core/spaces.py:169-172 | Written rows are read back exactly |
| TokenBucket.StoredTokensInRange | app/rate_limit/__init__.py:25-44 | Stored tokens stay in [0, capacity] over any sequence of calls |
| TokenBucket.RateBound | app/rate_limit/__init__.py:15-53 | In any window [s, t] at most C + R (t - s) tokens are granted, for any callers within capacity C and rate R, pauses and key expiry included |
| TokenBucket.RateBoundNeedsRefill | app/rate_limit/__init__.py:38-43 | With key expiry the condition C <= 3600 R is exact: beyond it two calls exceed the bound |
| TokenBucket.PauseHolds | app/rate_limit/__init__.py:21-24 | Nothing is granted before the end of a pause of at most 3600 s unless another pause is set |
| TokenBucket.LongPauseIsForgotten | app/rate_limit/__init__.py:47-53 | A longer pause is cut short when the key is dropped |
| TokenBucket.ExpiryIsInvisible | app/rate_limit/__init__.py:25-53 | A bucket dropped 3600 s after its last write gives the same replies as one never dropped, if capacity <= 3600 rate for each caller and pauses are at most 3600 s |
| TokenBucket.ExpiryShows | app/rate_limit/__init__.py:25-53 | The capacity condition is exact: for any other caller two calls tell the difference |
| TokenBucket.QuoteIsTight | app/rate_limit/__init__.py:32-44 | An undisturbed retry after d seconds succeeds exactly if d >= need / rate (or the key was dropped), and the quote is at most a millisecond above that |
| TokenBucket.OversizedIsRefused | app/rate_limit/__init__.py:33-39 | A request above the capacity is never granted |
| Grants.GrantsExactly | app/rate_limit/__init__.py:25-44 | Exactly which requests of one caller a full bucket grants: those that, with all that was granted since any earlier call, stay within C + R * (time since that call); refused requests take nothing |
| Grants.AllGrantedExactly | app/rate_limit/__init__.py:25-44 | All requests of a caller are granted exactly if those of every stretch of calls fit within C + R * (its duration) |
| Grants.ReplyFromStock | app/rate_limit/__init__.py:25-44 | The same from any stock of tokens left at an earlier time |
| Grants.SameTimeGrants | app/rate_limit/__init__.py:33-44 | In any state, after a granted request a second one at the same time is granted exactly if both together would have been |
| Grants.PauseIsExact | app/rate_limit/__init__.py:21-24 | Until its end a pause refuses, and quotes the time left to within a millisecond; from then on it, and any earlier pause it replaced, leaves no trace |
| RateLimiter.SharedBucket.AcquireTokens | app/rate_limit/__init__.py:15-45 | The acquire script as it overwrites the hash is the step of the bucket machine |
| RateLimiter.SharedBucket.PauseFor | app/rate_limit/__init__.py:47-53 | The pause script likewise |
| RateLimiter.SharedBucket.Acquire | app/rate_limit/__init__.py:68-95 | Whatever other callers do, at most max_wait / 0.01 + 1 script calls; after each refusal one sleep of what was quoted, but 0.01 to 1 s, none of which would pass the deadline; proceeding exactly on the first granted reply, timing out only if the next wait would pass the deadline, and always timing out on a request above the capacity |
| Worker.Service.constructor | app/services/batches.py:90-110 | A created batch is the initial state: prompts stored, first job queued, no chunk rows |
| Worker.Service.CreateChunkRows | app/services/batches.py:161-179 | Existing rows are kept untouched; otherwise one pending row per planned chunk |
| Worker.Service.ReclaimExpiredLeases | app/workers/jobs.py:34-47 | Exactly the expired leased rows go back to pending |
| Worker.Service.OrchestrateBatch | app/workers/jobs.py:50-87 | The method takes the state to what the orchestrate transaction says |
| Worker.Service.LeaseChunk | app/workers/jobs.py:134-161 | A lease is granted exactly if the row is neither succeeded, nor failed with its attempts used up, nor under a live lease; attempts and the live retry counter are bumped |
| Worker.Service.StartChunk | app/workers/jobs.py:164-183 | The start of a chunk run, lease commit included |
| Worker.RunEach | app/workers/jobs.py:192-266 | Each item ends cancelled, or with a report of its provider's last reply: the first that is not retryable, or the third; in item order; whether any was cancelled is noted |
| Worker.Service.RunItems | app/workers/jobs.py:187-276 | Reading a chunk's lines and running them does a Gather event that the machine allows; with a deterministic provider it is the event that the end-to-end result assumes; a missing prompt object raises |
| Worker.Service.WriteCheckpoint | app/workers/jobs.py:276-280 | The checkpoint object is written, and counted, before anything is committed |
| Worker.Service.RecomputeCounters | app/workers/jobs.py:90-131 | Accumulating row by row gives the column sums: progress over succeeded rows, retries over all rows |
| Worker.Service.CommitSuccess | app/workers/jobs.py:282-299 | The success transaction, which leaves the run committed but not over |
| Worker.Service.Nudge | app/workers/jobs.py:301-302 | Queueing the completion check ends a committed run |
| Worker.Service.CommitCancelled | app/workers/jobs.py:266-274 | The cancel path puts the row back to pending |
| Worker.Service.CommitFailure | app/workers/jobs.py:312-338 | The exception handler: retry, or fail row and batch, or commit nothing if the batch is not running |
| Worker.Service.CountByStatus | app/workers/jobs.py:353-362 | Counting row by row gives the number of rows of each status |
| Worker.Service.ScanCompletion | app/workers/jobs.py:343-378 | The first transaction of a completion check: reclaim, count, and act on the counts as the model concludes |
| Worker.Service.RequeuePending | app/workers/jobs.py:380-404 | The second transaction of a completion check |
| Worker.Service.FinalizeBatch | app/workers/jobs.py:414-473 | Finalization, which succeeds exactly if no checkpoint it needs is missing |
| Worker.Service.DeliverWebhook | app/workers/jobs.py:476-532 | One delivery is the Deliver step of the machine, which `Webhooks.DeliveryKeepsEvent` spells out |
| Worker.Service.CancelBatch | app/services/batches.py:139-145 | Cancellation is the Cancel step of the machine, which `Steps.CancelEnds` spells out |
| Worker.SafeCheckpointsArePresent | app/workers/jobs.py:438-441 | No checkpoint that finalization needs is ever missing from a reachable state |
| Steps.EnvironmentIsFree | docs/design.md:316-326 | Jobs may be duplicated or lost, the batch cancelled, leases reclaimed, runs killed and checks interrupted in every state |
| Steps.AnyRunCanRaise | app/workers/jobs.py:185-312 | So may any run raise, before or after its success is committed |
| Steps.QueuedJobsRun | app/workers/main.py:45-53 | For every queued job there is an event that takes it |
| Steps.EnvironmentSteps | docs/design.md:316-326 | Duplicating, losing, crashing and ticking change the queue, the runs in flight or the clock, and nothing else |
| Steps.CancelEnds | app/services/batches.py:139-145 | Cancelling a pending or running batch makes it cancelled, an ended one is left alone, and nothing else changes |
| Steps.CancelledIsInert | app/workers/jobs.py:60-70 | Along every continuation a cancelled batch stays cancelled, no run starts, no row gains an attempt, and neither results.ndjson nor the manifest is written |
| Steps.StartLeases | app/workers/jobs.py:134-183 | A process job starts a run exactly if the batch has not ended and the row is open, a lease from its deadline on; attempt, deadline and retry are recorded and nothing else changes; otherwise the job is just dropped |
| Steps.FailureLeaves | app/workers/jobs.py:312-338 | With attempts left the chunk is pending again with one more job; with none left a running batch fails with its row and one `batch.failed` is queued; of any other batch nothing changes |
| Steps.RetryFollowsFailure | app/workers/jobs.py:331-337 | The job that a raising run leaves behind starts a new run of the same chunk, with one attempt more and a full lease, and leaves the queue as it was |
| Steps.AbortFrees | app/workers/jobs.py:266-274 | A run that saw the batch cancelled leaves its chunk free to be leased |
| Steps.NudgeChecks | app/workers/jobs.py:301-302 | The nudge queues one completion check |
| Steps.SuccessRecords | app/workers/jobs.py:282-299 | A success frees the lease, records key and counts, and sets progress to exactly the items of the succeeded chunks |
| Steps.ReclaimReclaims | app/workers/jobs.py:34-47 | Exactly the leased rows whose deadline lies in the past go back to pending |
| Steps.OrchestrateQueues | app/workers/jobs.py:50-79 | A batch that has not ended is set running with untried rows as planned, or its old rows reclaimed, one job per unfinished chunk and one check |
| Steps.ScanConcludes | app/workers/jobs.py:343-378 | A check takes its job, reclaims, and queues one finalize job exactly if all rows have succeeded |
| Steps.RequeueQueues | app/workers/jobs.py:380-404 | Then exactly one job per pending chunk is queued, and one check |
| Steps.FinalizePublishes | app/workers/jobs.py:414-473 | Finalizing leaves ended batches alone, sends unfinished ones to another check, and otherwise writes the checkpoints' lines end to end, a manifest copied from counters and rows, and queues one `batch.completed` |
| Invariants.StepIsSafe | app/workers/jobs.py:34-541 | Every transaction keeps the whole invariant |
| Invariants.ReachableIsSafe | app/workers/jobs.py:34-541 | Every reachable state satisfies it, under any interleaving, late runs included |
| Invariants.CheckpointBeforeSuccess | app/workers/jobs.py:276-299 | A succeeded chunk's checkpoint exists under its key and holds exactly `limit` rows, none cancelled |
| Invariants.CountersAreSound | app/workers/jobs.py:90-131 | 0 <= failed <= completed <= total always; retry_count is the sum of max(0, attempts - 1) always; progress is exact once all chunks succeeded |
| Counters.ProgressCoversDone | app/workers/jobs.py:90-131 | Progress is never less than the items of the succeeded chunks, late runs or not |
| Counters.ProgressIsExact | app/workers/jobs.py:90-131 | If runs are timely and nudges arrive, it is exactly that at all times |
| Counters.RetriesAreExtraRuns | app/workers/jobs.py:134-161 | retry_count is the number of runs ever started beyond the first of each chunk |
| Invariants.CompletedIsComplete | app/workers/jobs.py:442-471 | A completed batch has one result row per prompt line, and a manifest with one entry per planned chunk, in order, naming its checkpoint and accounting for all its items; the manifest's totals are the sums of its entries |
| Invariants.ResultKeysOf | app/workers/jobs.py:438-441 | The filter on result keys drops nothing: the keys are those of all chunks in index order |
| Invariants.ScanIsSafe | app/workers/jobs.py:343-371 | A completion check never changes the batch row: its failure branch is dead |
| Refinement.GatheredRows | app/workers/jobs.py:184-276 | A run with deterministic outcomes gathers exactly its slice's rows, stably sorted by the index each line carries |
| Refinement.FinalResultsAreBatch | app/workers/jobs.py:438-442 | What finalization concatenates is the encoded output of the sequential program |
| Refinement.EndToEnd | app/workers/jobs.py:164-473 | If an item's index and outcome are functions of its line, every completed batch leaves results.ndjson equal to the sequential program's output: slice by slice of the plan, one row per line, stably sorted by index; the manifest's failure count is its number of failures; under any interleaving, late runs included |
| Refinement.EndToEndInOrder | app/workers/jobs.py:164-473 | When each line's index is its position, that output is the sequential map over all prompt lines in order |
| Results.RowsReportLines | app/workers/jobs.py:184-473 | Row p of a completed batch's results is then ok exactly if the model answers line p, with that output, and otherwise carries its error |
| Results.ChunksReportLines | app/workers/jobs.py:184-473 | Whatever indices lines carry, the part of the results that a chunk covers is ordered by index and holds exactly one such report per line of the chunk, reports of equal index in line order |
| Results.FailedItemsAreUnanswered | app/workers/jobs.py:90-131 | The manifest's failure count is the number of lines that the model does not answer |
| Refinement.UploadedPromptsAreIndexed | app/core/spaces.py:70-81 | Prompts that bring no index are uploaded with their positions |
| Refinement.NoLineIsLost | app/services/batches.py:148-158 | The sequential program has one row for each line that the first k chunks cover |
| Lifecycle.StepDecides | app/workers/jobs.py:312-338 | A chunk is newly failed only in the step that moves the batch from running to failed and starts the `batch.failed` chain; `batch.completed` starts exactly when the batch completes; all other status changes follow the lifecycle |
| Lifecycle.EndedStaysEnded | app/workers/jobs.py:60-70 | `completed` and `cancelled` are absorbing, an ended batch never runs again, and no batch returns to pending |
| Lifecycle.AtMostOneVerdict | app/workers/jobs.py:312-337 | Over a whole run at most one chunk ever becomes failed, and at most one `batch.failed` and one `batch.completed` chain is started |
| Lifecycle.AtMostOneFailedRow | app/workers/jobs.py:312-338 | At any time at most one row is failed, and none while the batch is not failed |
| Budget.AttemptBudget | app/workers/jobs.py:134-152 | A chunk's attempts never exceed chunk_max_attempts (at least one) plus the number of times its lease was reclaimed or taken over |
| Budget.OnlyExpiredLeasesAreLost | app/workers/jobs.py:34-47 | A lease is reclaimed or taken over only once it has run out |
| Budget.LeasedRunsBounded | app/workers/jobs.py:312-337 | A batch leases at most chunks times attempts runs, plus one per expiry |
| Webhooks.ChainEnds | app/workers/jobs.py:511-532 | One chain posts at most max - already counted times (once at least), ends delivered or dead, dead exactly if every POST failed |
| Webhooks.ChainDefers | app/workers/jobs.py:527-531 | A chain defers once between any two POSTs, each time by 1 to 300 s, and in all by at most the sum of the capped powers of two |
| Webhooks.FirstChain | app/core/backoff.py:26-34 | A first chain makes at most m POSTs, and its deferrals add up to at most 2^(m-1) - 1 s, or 511 + 300 (m - 10) s beyond ten attempts |
| Webhooks.PostsBounded | app/workers/jobs.py:476-532 | Over a batch's whole life the attempt counter is the number of POSTs, below the maximum plus chains plus duplicated delivery jobs: without duplicates at most m with one chain and m + 1 with two; when no delivery job is left the webhook is delivered or dead |
| Webhooks.DeliveryKeepsEvent | app/workers/jobs.py:511-532 | A failed POST with attempts left puts back one job of the same event, any other none; the counter and the status are what was just posted; nothing else changes |
| Webhooks.DeliveriesPerEvent | app/workers/jobs.py:476-532 | Over any run, queued jobs of an event come from its own chain or from duplicates of its own jobs |
| Webhooks.PostsAreTrue | app/workers/jobs.py:476-532 | No `batch.failed` is posted for a batch that never failed, no `batch.completed` for one that never completed, however often deliveries are repeated |
| Webhooks.WebhookStatusMeans | app/workers/jobs.py:479-525 | Without a URL nothing is posted and the status stays `none`; with one it is `pending` exactly as long as all POSTs failed and the maximum is not reached |
| Progress.RunningIsWatched | app/workers/jobs.py:74-79 | With a reliable queue, every running batch has a check or finalize job queued, or a check between its transactions |
| Progress.CheckRequeuesPending | app/workers/jobs.py:380-404 | Right after a check, every pending chunk has its job queued, no expired lease is left, and another check is queued |
| Progress.OrchestrateQueuesUnfinished | app/workers/jobs.py:74-79 | Orchestration queues every unfinished chunk and the first check |
| Progress.CanStillComplete | app/workers/jobs.py:343-473 | From every such state the batch can complete by its own jobs alone |
| Progress.PendingIsQueued | app/api/routes.py:138-139 | With a reliable queue, every pending batch has its first job queued |
| Progress.NeverStranded | app/workers/jobs.py:50-473 | No run with a reliable queue leads a batch that has not ended, pending or running, into a state from which it could not complete |
| Leases.LeaseExclusion | app/workers/jobs.py:134-161 | If every run ends before its lease deadline, every live run holds its chunk's lease or has committed the chunk's success, and no chunk has two live runs |
| Leases.SettledRowsAreFinal | app/workers/jobs.py:265-337 | Under that assumption failed rows never change, and succeeded rows never change if no nudge after a success fails |
| Leases.FailedBatchStaysFailed | app/workers/jobs.py:421-436 | Under that assumption a failed batch never completes |
| Leases.CountsMatchCheckpoints | app/workers/jobs.py:276-299 | Under that assumption the counts of every succeeded row are those of its checkpoint object |
| FailedNudges.SucceededRowChanges | app/workers/jobs.py:302-333 | In a timely state a succeeded row changes exactly when its own run's nudge fails and attempts are left or the batch is running |
| FailedNudges.FailedNudgeUnsettles | app/workers/jobs.py:302-333 | For every batch with a retry left there is a timely run in which a failing nudge takes a succeeded chunk back to pending |
| FailedNudges.FailedNudgeFailsBatch | app/workers/jobs.py:302-327 | For every batch there is a timely run in which a failing nudge fails a batch all of whose chunks have succeeded, with the failed chunk's checkpoint complete |
| LateRuns.LateRunsOverlap | app/workers/jobs.py:134-161 | Without it, for every batch: any number of runs can be live on one chunk at once |
| LateRuns.LateFailureUnsettles | app/workers/jobs.py:312-337 | Without it, for every batch: a late run's failure takes a succeeded chunk back, with no nudge failing |
| LateRuns.LateWriteMiscounts | app/workers/jobs.py:276-299 | Without it, for every batch: a succeeded row's counts can differ from its checkpoint's |
| LateRuns.LateSuccessRevives | app/workers/jobs.py:421-436 | Without it, for every batch: a failed batch can complete |

## Left out

- Several batches at once: `reclaim_expired_leases` updates the rows of all batches, the model has one batch; key prefixes and row filters keep batches apart.
- Database isolation: every transaction is serializable; lost updates of the ORM are not modelled.
- A crash, or a failing enqueue, between a commit and the enqueue that follows it, other than after a run's success (`Nudge`, `CommitFailure`): to the batch it is a job that the queue loses (`Lose`), and the progress results assume that none is lost.
- A database session that raises when it is closed after its commit went through. After a success this has the effect of a failing nudge; after the cancel path's commit the batch is cancelled already.
- Storage errors inside `finalize_batch` other than a missing object.
- Delays of deferred jobs: a queued job may run at any time. For webhooks the deferral itself is bounded in `Webhooks`.
- Worker clocks are one non-decreasing clock. The bucket is given non-decreasing times: the script stores an earlier time when the clock goes back, which would credit time twice.
- Floating point and Redis number formatting: the bucket is over reals; `plan_chunks` uses an integer ceiling.
- JSON itself: encoding and parsing are abstract. An index that is not an integer raises in the run; such a run is one that fails.
- UTF-8: a line that does not decode raises in the run; such a run is one that fails.
- Columns that nothing reads back (error texts, started_at, completed_at), metrics, logs, and rows or batches that do not exist.
- A row's position stands for its database id; job payloads carry the chunk index only.
- Model routing, HTTP routes and schemas, listing, idempotent creation, provider and webhook HTTP, signing, presigned URLs: plumbing or foreign code.
- The per-process concurrency gate: a semaphore per batch, it would add only easy members.
- Uploads by key copy or by URL: the first copies an object, the second is the raw upload after a download.
- Fairness of workers, queue and providers: a running batch is shown to be able to complete, not to do so in bounded time.
