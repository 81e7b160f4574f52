/**
 The batch pipeline as a state machine. The state is one batch with its chunk rows, the object
 store, the job queue, the chunk runs in flight and the clock. Every database transaction is one
 event; writing a checkpoint object is an event of its own, before the transaction that records it,
 and so is queueing the completion check after that transaction, which may still fail.

 Events carry everything the environment decides: which job runs next, what the items answer, when
 a run fails or its worker dies, how far the clock moves. Theorems hold for all event sequences.
 */
module Pipeline {
  import opened Options
  import opened Ndjson
  import opened Rows
  import opened Planning
  import opened Keys

  datatype BatchStatus = BatchPending | Running | Completed | BatchFailed | BatchCancelled

  datatype ChunkStatus = ChunkPending | Leased | Succeeded | ChunkFailed

  datatype WebhookStatus = NoWebhook | Undelivered | Delivered | Dead

  datatype Hook = FailedHook | CompletedHook

  datatype Job =
    | OrchestrateJob
    | ProcessJob(chunk: nat)
    | CheckJob
    | FinalizeJob
    | WebhookJob(hook: Hook)

  /** A chunk row. Rows are kept in chunk_index order, and a row's position stands for its id. */
  datatype Chunk = Chunk(slot: Slot, status: ChunkStatus, attempts: nat, leasedUntil: Option<int>,
                         resultKey: Option<string>, okCount: nat, failCount: nat)

  /** How far a chunk run has come. */
  datatype Phase =
    | Working
    | Aborting
    | Gathered(rows: seq<Row>)
    | Checkpointed(okCount: nat, failCount: nat)
    | Committed

  /** A chunk run in flight, with the lease deadline it was granted. */
  datatype Run = Run(chunk: nat, deadline: int, phase: Phase)

  datatype Config = Config(batchId: string, prompts: Bytes, chunkSize: nat, leaseSeconds: nat, maxAttempts: int,
                           hasWebhook: bool, webhookMaxAttempts: int, codec: Codec)
  {
    /** What batch creation guarantees: at least one prompt line, and a chunk size of at least 1. */
    ghost predicate Valid() {
      chunkSize >= 1 && Items() != [] && codec.Valid()
    }

    /** The prompt lines, in order. */
    function Items(): seq<Bytes> {
      Lines(prompts)
    }

    function Slots(): seq<Slot>
      requires chunkSize >= 1
    {
      Plan(|Items()|, chunkSize)
    }

    /** The key of chunk i's checkpoint object. */
    function Key(i: nat): string {
      ChunkResultKey(batchId, i)
    }
  }

  /** The batch row. */
  datatype Batch = Batch(status: BatchStatus, completedItems: nat, failedItems: nat, retryCount: nat,
                         resultsKey: Option<string>, manifestKey: Option<string>,
                         webhookStatus: WebhookStatus, webhookAttempts: nat)

  datatype State = State(
    now: int,
    batch: Batch,
    chunks: seq<Chunk>,
    objects: map<string, Bytes>,
    queue: multiset<Job>,
    runs: map<nat, Run>,
    nextRun: nat,
    scans: nat)   // completion checks between their two transactions

  datatype Event =
    | Tick(time: int)
    | Redeliver(job: Job)                                   // at-least-once delivery, or an operator
    | Lose(job: Job)                                        // the queue forgets a job
    | Cancel
    | Orchestrate
    | Start(chunk: nat)                                     // process_chunk up to its lease commit
    | Gather(run: nat, outcomes: seq<Row>)                  // all items of the chunk have answered
    | Checkpoint(run: nat)
    | CommitSuccess(run: nat)
    | Nudge(run: nat)                                       // the check queued after a success, and the run's end
    | CommitCancelled(run: nat)
    | CommitFailure(run: nat)                               // the exception handler
    | Crash(run: nat)
    | Reclaim                                               // the cron job
    | CheckScan
    | CheckRequeue
    | CheckCrash(redelivered: bool)
    | Finalize
    | Deliver(hook: Hook, ok: bool)

  predicate Ended(status: BatchStatus) {
    status.Completed? || status.BatchFailed? || status.BatchCancelled?
  }

  // ---- Column sums -----------------------------------------------------------------------

  datatype Column = Retries | Processed | Failures | Attempts | Limits

  function ValueOf(column: Column, c: Chunk): nat {
    match column
    case Retries => if c.attempts > 1 then c.attempts - 1 else 0
    case Processed => if c.status.Succeeded? then c.okCount + c.failCount else 0
    case Failures => if c.status.Succeeded? then c.failCount else 0
    case Attempts => c.attempts
    case Limits => c.slot.limit
  }

  function Sum(column: Column, chunks: seq<Chunk>): nat {
    if chunks == [] then 0
    else Sum(column, chunks[..|chunks| - 1]) + ValueOf(column, chunks[|chunks| - 1])
  }

  function CountStatus(status: ChunkStatus, chunks: seq<Chunk>): (n: nat)
    ensures n <= |chunks|
  {
    if chunks == [] then 0
    else CountStatus(status, chunks[..|chunks| - 1]) + if chunks[|chunks| - 1].status == status then 1 else 0
  }

  // ---- Pieces of the transactions --------------------------------------------------------

  /** A row as `create_chunk_rows` inserts it. */
  function FreshChunk(slot: Slot): Chunk {
    Chunk(slot, ChunkPending, 0, None, None, 0, 0)
  }

  function FreshChunks(slots: seq<Slot>): (chunks: seq<Chunk>)
    ensures |chunks| == |slots|
  {
    seq(|slots|, i requires 0 <= i < |slots| => FreshChunk(slots[i]))
  }

  predicate LeaseExpired(c: Chunk, now: int) {
    c.status.Leased? && c.leasedUntil.Some? && c.leasedUntil.value < now
  }

  function ReclaimOne(c: Chunk, now: int): Chunk {
    if LeaseExpired(c, now) then c.(status := ChunkPending, leasedUntil := None) else c
  }

  /** The bulk update of `reclaim_expired_leases`. */
  function ReclaimAll(chunks: seq<Chunk>, now: int): (reclaimed: seq<Chunk>)
    ensures |reclaimed| == |chunks|
  {
    seq(|chunks|, i requires 0 <= i < |chunks| => ReclaimOne(chunks[i], now))
  }

  /** Process jobs for the first k chunks: all unfinished ones, or the pending ones only. */
  function JobsFor(chunks: seq<Chunk>, k: nat, pendingOnly: bool): multiset<Job>
    requires k <= |chunks|
  {
    if k == 0 then multiset{}
    else
      var earlier := JobsFor(chunks, k - 1, pendingOnly);
      if Wanted(chunks[k - 1], pendingOnly) then earlier + multiset{ProcessJob(k - 1)} else earlier
  }

  predicate Wanted(c: Chunk, pendingOnly: bool) {
    if pendingOnly then c.status.ChunkPending? else !c.status.Succeeded?
  }

  predicate Leasable(c: Chunk, now: int, maxAttempts: int) {
    && !c.status.Succeeded?
    && !(c.attempts >= maxAttempts && c.status.ChunkFailed?)
    && !(c.status.Leased? && c.leasedUntil.Some? && c.leasedUntil.value > now)
  }

  function Fetch(objects: map<string, Bytes>, key: string): Bytes {
    if key in objects then objects[key] else []
  }

  /** `[c.result_key for c in chunks if c.result_key]`. */
  function ResultKeys(chunks: seq<Chunk>): seq<string> {
    if chunks == [] then []
    else
      var last := chunks[|chunks| - 1];
      ResultKeys(chunks[..|chunks| - 1])
      + if last.resultKey.Some? && last.resultKey.value != "" then [last.resultKey.value] else []
  }

  function FetchAll(objects: map<string, Bytes>, keys: seq<string>): (parts: seq<Bytes>)
    ensures |parts| == |keys|
  {
    seq(|keys|, i requires 0 <= i < |keys| => Fetch(objects, keys[i]))
  }

  function Entries(chunks: seq<Chunk>): (entries: seq<ManifestEntry>)
    ensures |entries| == |chunks|
  {
    seq(|chunks|, i requires 0 <= i < |chunks| =>
      var c := chunks[i];
      ManifestEntry(c.slot.index, c.resultKey, c.okCount, c.failCount, c.attempts))
  }

  function ManifestOf(cfg: Config, batch: Batch, chunks: seq<Chunk>): Manifest {
    Manifest(cfg.batchId, |cfg.Items()|, batch.completedItems, batch.failedItems, batch.retryCount,
             Entries(chunks), ResultsKey(cfg.batchId))
  }

  predicate AllSucceeded(chunks: seq<Chunk>) {
    forall i | 0 <= i < |chunks| :: chunks[i].status.Succeeded?
  }

  // ---- The transactions ------------------------------------------------------------------

  function Enqueue(s: State, job: Job): State {
    s.(queue := s.queue + multiset{job})
  }

  function Consume(s: State, job: Job): State {
    s.(queue := s.queue - multiset{job})
  }

  function EndRun(s: State, run: nat): State {
    s.(runs := s.runs - {run})
  }

  function CancelBatch(s: State): State {
    if Ended(s.batch.status) then s else s.(batch := s.batch.(status := BatchCancelled))
  }

  /** The rows after `create_chunk_rows`: existing rows are kept as they are. */
  function CreateChunkRows(cfg: Config, chunks: seq<Chunk>): seq<Chunk>
    requires cfg.chunkSize >= 1
  {
    if chunks != [] then chunks else FreshChunks(cfg.Slots())
  }

  function OrchestrateBatch(cfg: Config, s: State): State
    requires cfg.chunkSize >= 1
  {
    var t := Consume(s, OrchestrateJob);
    if Ended(s.batch.status) then t
    else
      var chunks := ReclaimAll(CreateChunkRows(cfg, s.chunks), s.now);
      t.(batch := s.batch.(status := Running), chunks := chunks,
         queue := t.queue + JobsFor(chunks, |chunks|, false) + multiset{CheckJob})
  }

  /** The row as `_lease_chunk` leaves it. */
  function LeaseRow(c: Chunk, deadline: int): Chunk {
    c.(status := Leased, leasedUntil := Some(deadline), attempts := c.attempts + 1)
  }

  /** The lease is taken, and a retry is counted at once. */
  function LeaseChunk(s: State, i: nat, deadline: int): State
    requires i < |s.chunks|
  {
    var leased := LeaseRow(s.chunks[i], deadline);
    s.(chunks := s.chunks[i := leased],
       batch := s.batch.(retryCount := s.batch.retryCount + if leased.attempts > 1 then 1 else 0))
  }

  /** `process_chunk` up to its lease commit. */
  function StartRun(cfg: Config, s: State, i: nat): State {
    var t := Consume(s, ProcessJob(i));
    if Ended(s.batch.status) || i >= |s.chunks| || !Leasable(s.chunks[i], s.now, cfg.maxAttempts) then t
    else
      var deadline := s.now + cfg.leaseSeconds;
      LeaseChunk(t, i, deadline).(runs := s.runs[s.nextRun := Run(i, deadline, Working)], nextRun := s.nextRun + 1)
  }

  function GatherOutcomes(s: State, run: nat, outcomes: seq<Row>): State
    requires run in s.runs
  {
    var phase := if NoneCancelled(outcomes) then Gathered(SortByIndex(outcomes)) else Aborting;
    s.(runs := s.runs[run := s.runs[run].(phase := phase)])
  }

  function WriteCheckpoint(cfg: Config, s: State, run: nat): State
    requires run in s.runs && s.runs[run].phase.Gathered?
  {
    var r := s.runs[run];
    var rows := r.phase.rows;
    s.(objects := s.objects[cfg.Key(r.chunk) := cfg.codec.Written(rows)],
       runs := s.runs[run := r.(phase := Checkpointed(CountOk(rows), |rows| - CountOk(rows)))])
  }

  /** `_recompute_batch_counters`: progress from the succeeded rows, retries from all of them. */
  function Recompute(batch: Batch, chunks: seq<Chunk>): Batch {
    batch.(completedItems := Sum(Processed, chunks), failedItems := Sum(Failures, chunks),
           retryCount := Sum(Retries, chunks))
  }

  function SucceededRow(c: Chunk, key: string, okCount: nat, failCount: nat): Chunk {
    c.(status := Succeeded, resultKey := Some(key), okCount := okCount, failCount := failCount, leasedUntil := None)
  }

  function CommitSucceeded(cfg: Config, s: State, run: nat): State
    requires run in s.runs && s.runs[run].phase.Checkpointed? && s.runs[run].chunk < |s.chunks|
  {
    var r := s.runs[run];
    var row := SucceededRow(s.chunks[r.chunk], cfg.Key(r.chunk), r.phase.okCount, r.phase.failCount);
    var chunks := s.chunks[r.chunk := row];
    s.(chunks := chunks, batch := Recompute(s.batch, chunks), runs := s.runs[run := r.(phase := Committed)])
  }

  function NudgeCheck(s: State, run: nat): State {
    Enqueue(EndRun(s, run), CheckJob)
  }

  function PendingRow(c: Chunk): Chunk {
    c.(status := ChunkPending, leasedUntil := None)
  }

  function CommitAborted(s: State, run: nat): State
    requires run in s.runs && s.runs[run].chunk < |s.chunks|
  {
    var i := s.runs[run].chunk;
    EndRun(s.(chunks := s.chunks[i := PendingRow(s.chunks[i])]), run)
  }

  /** The handler never asks whether the run still holds the lease, or has already committed its success. */
  function CommitFailed(cfg: Config, s: State, run: nat): State
    requires run in s.runs && s.runs[run].chunk < |s.chunks|
  {
    var i := s.runs[run].chunk;
    var c := s.chunks[i];
    if c.attempts >= cfg.maxAttempts then
      if s.batch.status.Running? then
        var failed := c.(status := ChunkFailed, leasedUntil := None);
        Enqueue(EndRun(s.(chunks := s.chunks[i := failed], batch := s.batch.(status := BatchFailed)), run),
                WebhookJob(FailedHook))
      else EndRun(s, run)   // never committed
    else
      Enqueue(EndRun(s.(chunks := s.chunks[i := PendingRow(c)]), run), ProcessJob(i))
  }

  datatype Conclusion = AllFailed | AllDone | KeepWaiting | NothingToDo

  /** What a completion check concludes from the status counts. */
  function Conclude(chunks: seq<Chunk>): Conclusion {
    var succeeded := CountStatus(Succeeded, chunks);
    var failed := CountStatus(ChunkFailed, chunks);
    var pendingish := CountStatus(ChunkPending, chunks) + CountStatus(Leased, chunks);
    if failed > 0 && pendingish == 0 && succeeded + failed == |chunks| then AllFailed
    else if succeeded == |chunks| && |chunks| > 0 then AllDone
    else if pendingish > 0 then KeepWaiting
    else NothingToDo
  }

  /** What a check does about its conclusion. */
  function ActOn(s: State, conclusion: Conclusion): State {
    match conclusion
    case AllFailed => Enqueue(s.(batch := s.batch.(status := BatchFailed)), WebhookJob(FailedHook))
    case AllDone => Enqueue(s, FinalizeJob)
    case KeepWaiting => s.(scans := s.scans + 1)
    case NothingToDo => s
  }

  function ScanCompletion(s: State): State {
    var t := Consume(s, CheckJob);
    if Ended(s.batch.status) then t
    else
      var chunks := ReclaimAll(s.chunks, s.now);
      ActOn(t.(chunks := chunks), Conclude(chunks))
  }

  function RequeuePending(s: State): State
    requires s.scans > 0
  {
    var chunks := ReclaimAll(s.chunks, s.now);
    s.(chunks := chunks, scans := s.scans - 1,
       queue := s.queue + JobsFor(chunks, |chunks|, true) + multiset{CheckJob})
  }

  /** The body of results.ndjson. */
  function ResultsBody(objects: map<string, Bytes>, chunks: seq<Chunk>): Bytes {
    Concatenation(FetchAll(objects, ResultKeys(chunks)))
  }

  /** Results and manifest are written, and the batch row completed. */
  function Publish(cfg: Config, s: State): State {
    var rkey, mkey := ResultsKey(cfg.batchId), ManifestKey(cfg.batchId);
    var manifest := cfg.codec.encManifest(ManifestOf(cfg, s.batch, s.chunks));
    s.(objects := s.objects[rkey := ResultsBody(s.objects, s.chunks)][mkey := manifest],
       batch := s.batch.(resultsKey := Some(rkey), manifestKey := Some(mkey), status := Completed))
  }

  function FinalizeBatch(cfg: Config, s: State): State {
    var t := Consume(s, FinalizeJob);
    if s.batch.status.Completed? || s.batch.status.BatchCancelled? then t
    else if s.chunks == [] || !AllSucceeded(s.chunks) then Enqueue(t, CheckJob)
    else
      Enqueue(Publish(cfg, t), WebhookJob(CompletedHook))
  }

  /** The batch row after one POST. */
  function RecordPost(batch: Batch, maxAttempts: int, ok: bool): Batch {
    var counted := batch.(webhookAttempts := batch.webhookAttempts + 1);
    if ok then counted.(webhookStatus := Delivered)
    else if counted.webhookAttempts >= maxAttempts then counted.(webhookStatus := Dead)
    else counted
  }

  /** Whether a POST is followed by another delivery, given the attempts counted so far. */
  predicate TriesAgain(attempts: nat, maxAttempts: int, ok: bool) {
    !ok && attempts < maxAttempts
  }

  function DeliverHook(cfg: Config, s: State, hook: Hook, ok: bool): State {
    var t := Consume(s, WebhookJob(hook));
    if !cfg.hasWebhook then t
    else
      var batch := RecordPost(s.batch, cfg.webhookMaxAttempts, ok);
      var u := t.(batch := batch);
      if TriesAgain(batch.webhookAttempts, cfg.webhookMaxAttempts, ok) then Enqueue(u, WebhookJob(hook)) else u
  }

  // ---- The machine -----------------------------------------------------------------------

  /** When an event can happen. */
  predicate Enabled(cfg: Config, s: State, e: Event) {
    match e
    case Tick(time) => s.now <= time
    case Redeliver(_) => true
    case Lose(job) => job in s.queue
    case Cancel => true
    case Orchestrate => OrchestrateJob in s.queue && cfg.chunkSize >= 1
    case Start(i) => ProcessJob(i) in s.queue
    case Gather(run, outcomes) =>
      && run in s.runs && s.runs[run].phase.Working? && s.runs[run].chunk < |s.chunks|
      && |outcomes| == |ItemsRead(cfg, s, s.runs[run].chunk)|
      && (NoneCancelled(outcomes) || s.batch.status.BatchCancelled?)
    case Checkpoint(run) => run in s.runs && s.runs[run].phase.Gathered?
    case CommitSuccess(run) => run in s.runs && s.runs[run].phase.Checkpointed? && s.runs[run].chunk < |s.chunks|
    case Nudge(run) => run in s.runs && s.runs[run].phase.Committed?
    case CommitCancelled(run) => run in s.runs && s.runs[run].phase.Aborting? && s.runs[run].chunk < |s.chunks|
    case CommitFailure(run) => run in s.runs && s.runs[run].chunk < |s.chunks|
    case Crash(run) => run in s.runs
    case Reclaim => true
    case CheckScan => CheckJob in s.queue
    case CheckRequeue => s.scans > 0
    case CheckCrash(_) => s.scans > 0
    case Finalize => FinalizeJob in s.queue
    case Deliver(hook, _) => WebhookJob(hook) in s.queue
  }

  /** The lines a run of chunk i reads from the prompt object. */
  function ItemsRead(cfg: Config, s: State, i: nat): seq<Bytes>
    requires i < |s.chunks|
  {
    Range(Lines(Fetch(s.objects, PromptsKey(cfg.batchId))), s.chunks[i].slot.offset, s.chunks[i].slot.limit)
  }

  function Next(cfg: Config, s: State, e: Event): State
    requires Enabled(cfg, s, e)
  {
    match e
    case Tick(time) => s.(now := time)
    case Redeliver(job) => Enqueue(s, job)
    case Lose(job) => Consume(s, job)
    case Cancel => CancelBatch(s)
    case Orchestrate => OrchestrateBatch(cfg, s)
    case Start(i) => StartRun(cfg, s, i)
    case Gather(run, outcomes) => GatherOutcomes(s, run, outcomes)
    case Checkpoint(run) => WriteCheckpoint(cfg, s, run)
    case CommitSuccess(run) => CommitSucceeded(cfg, s, run)
    case Nudge(run) => NudgeCheck(s, run)
    case CommitCancelled(run) => CommitAborted(s, run)
    case CommitFailure(run) => CommitFailed(cfg, s, run)
    case Crash(run) => EndRun(s, run)
    case Reclaim => s.(chunks := ReclaimAll(s.chunks, s.now))
    case CheckScan => ScanCompletion(s)
    case CheckRequeue => RequeuePending(s)
    case CheckCrash(redelivered) =>
      var t := s.(scans := s.scans - 1);
      if redelivered then Enqueue(t, CheckJob) else t
    case Finalize => FinalizeBatch(cfg, s)
    case Deliver(hook, ok) => DeliverHook(cfg, s, hook, ok)
  }

  /** A batch just created, its prompts uploaded and its first job queued. */
  function Init(cfg: Config, now: int): State {
    State(now, Batch(BatchPending, 0, 0, 0, None, None, if cfg.hasWebhook then Undelivered else NoWebhook, 0),
          [], map[PromptsKey(cfg.batchId) := cfg.prompts], multiset{OrchestrateJob}, map[], 0, 0)
  }

  // ---- Runs of the machine ---------------------------------------------------------------

  /** Events that can happen one after the other, from the given state. */
  predicate Feasible(cfg: Config, s: State, es: seq<Event>)
    decreases |es|, 0
  {
    es == [] || (
      && Feasible(cfg, s, es[..|es| - 1])
      && Enabled(cfg, Exec(cfg, s, es[..|es| - 1]), es[|es| - 1]))
  }

  function Exec(cfg: Config, s: State, es: seq<Event>): State
    requires Feasible(cfg, s, es)
    decreases |es|, 1
  {
    if es == [] then s else Next(cfg, Exec(cfg, s, es[..|es| - 1]), es[|es| - 1])
  }

  /** The states a batch can be in. */
  ghost predicate Reachable(cfg: Config, s: State) {
    exists now: int, es: seq<Event> :: Feasible(cfg, Init(cfg, now), es) && Exec(cfg, Init(cfg, now), es) == s
  }
}
