/**
 The job functions, written as the workers run them: they update the fields of row objects, push
 jobs on the queue and write objects. Each method is one transaction (or the checkpoint write) and
 is proved to take the abstract state to exactly the state its transaction function in `Pipeline`
 says, the function that `Pipeline.Next` applies for the event.
 */
module Worker {
  import opened Options
  import opened Backoff
  import opened Ndjson
  import opened Rows
  import opened Planning
  import opened Keys
  import opened Pipeline
  import opened Spaces
  import opened Sums
  import Invariants
  import opened Refinement

  /** The batch's row in the database. */
  class BatchRecord {
    var status: BatchStatus
    var completedItems: nat
    var failedItems: nat
    var retryCount: nat
    var resultsKey: Option<string>
    var manifestKey: Option<string>
    var webhookStatus: WebhookStatus
    var webhookAttempts: nat

    constructor (hasWebhook: bool)
      ensures Value() == Batch(BatchPending, 0, 0, 0, None, None, if hasWebhook then Undelivered else NoWebhook, 0)
    {
      status, completedItems, failedItems, retryCount := BatchPending, 0, 0, 0;
      resultsKey, manifestKey := None, None;
      webhookStatus, webhookAttempts := if hasWebhook then Undelivered else NoWebhook, 0;
    }

    function Value(): Batch
      reads this
    {
      Batch(status, completedItems, failedItems, retryCount, resultsKey, manifestKey, webhookStatus, webhookAttempts)
    }

    method Recount(completed: nat, failed: nat, retries: nat)
      modifies this
      ensures Value() == old(Value()).(completedItems := completed, failedItems := failed, retryCount := retries)
    {
      completedItems := completed;
      failedItems := failed;
      retryCount := retries;
    }

    /** Counts a POST and says whether another one is to follow. */
    method RecordPost(maxAttempts: int, ok: bool) returns (again: bool)
      modifies this
      ensures Value() == Pipeline.RecordPost(old(Value()), maxAttempts, ok)
      ensures again == TriesAgain(webhookAttempts, maxAttempts, ok)
    {
      webhookAttempts := webhookAttempts + 1;
      if ok {
        webhookStatus := Delivered;
        return false;
      }
      if webhookAttempts >= maxAttempts {
        webhookStatus := Dead;
        return false;
      }
      return true;
    }

    method Complete(resultsKey: string, manifestKey: string)
      modifies this
      ensures Value() == old(Value()).(resultsKey := Some(resultsKey), manifestKey := Some(manifestKey),
          status := Completed)
    {
      this.resultsKey := Some(resultsKey);
      this.manifestKey := Some(manifestKey);
      status := Completed;
    }
  }

  /** A chunk's row in the database. */
  class ChunkRecord {
    const slot: Slot
    var status: ChunkStatus
    var attempts: nat
    var leasedUntil: Option<int>
    var resultKey: Option<string>
    var okCount: nat
    var failCount: nat

    constructor (slot: Slot)
      ensures Value() == FreshChunk(slot)
    {
      this.slot := slot;
      status, attempts, leasedUntil := ChunkPending, 0, None;
      resultKey, okCount, failCount := None, 0, 0;
    }

    function Value(): Chunk
      reads this
    {
      Chunk(slot, status, attempts, leasedUntil, resultKey, okCount, failCount)
    }

    method Lease(deadline: int)
      modifies this
      ensures Value() == LeaseRow(old(Value()), deadline)
    {
      status := Leased;
      leasedUntil := Some(deadline);
      attempts := attempts + 1;
    }

    method Succeed(key: string, okCount: nat, failCount: nat)
      modifies this
      ensures Value() == SucceededRow(old(Value()), key, okCount, failCount)
    {
      status := Succeeded;
      resultKey := Some(key);
      this.okCount := okCount;
      this.failCount := failCount;
      leasedUntil := None;
    }

    method Release()
      modifies this
      ensures Value() == PendingRow(old(Value()))
    {
      status := ChunkPending;
      leasedUntil := None;
    }

    method Fail()
      modifies this
      ensures Value() == old(Value()).(status := ChunkFailed, leasedUntil := None)
    {
      leasedUntil := None;
      status := ChunkFailed;
    }
  }

  /** The values of a table of rows. */
  function ValuesOf(rows: seq<ChunkRecord>): (values: seq<Chunk>)
    reads rows
    ensures |values| == |rows|
    ensures forall i | 0 <= i < |rows| :: values[i] == rows[i].Value()
  {
    if rows == [] then [] else ValuesOf(rows[..|rows| - 1]) + [rows[|rows| - 1].Value()]
  }

  /** No row object appears twice in the table. */
  ghost predicate Distinct(rows: seq<ChunkRecord>) {
    forall i, j | 0 <= i < j < |rows| :: rows[i] != rows[j]
  }

  /** What the items of a run meet: their indices, cancellation as each sees it, answers and jitter per attempt. */
  datatype Items = Items(index: (Bytes, int) -> int, cancelled: nat -> bool,
                         infer: (nat, nat) -> Inference, jitter: (nat, nat) -> real) {
    ghost predicate Valid() {
      forall k: nat, a: nat :: 0.0 <= jitter(k, a) <= ItemBound(a) as real
    }

    /** The provider is deterministic: every attempt at an item answers as the model does. */
    ghost predicate Follows(model: Model, lines: seq<Bytes>) {
      && (forall k, offset: int | 0 <= k < |lines| :: index(lines[k], offset) == model.index(lines[k], offset))
      && (forall k, a: nat | 0 <= k < |lines| :: infer(k, a) == model.answer(lines[k]))
    }
  }

  /** Runs the items of a chunk one by one, and notes whether any was cancelled. */
  method RunEach(lines: seq<Bytes>, offset: int, items: Items) returns (outcomes: seq<Row>, anyCancelled: bool)
    requires items.Valid()
    ensures |outcomes| == |lines| && (anyCancelled <==> !NoneCancelled(outcomes))
    ensures anyCancelled ==> exists k: nat :: items.cancelled(k)
    ensures forall k | 0 <= k < |lines| :: RunsTo(items, k, lines[k], offset, outcomes[k])
  {
    outcomes, anyCancelled := [], false;
    var k := 0;
    while k < |lines|
      invariant 0 <= k == |outcomes| <= |lines|
      invariant anyCancelled <==> !NoneCancelled(outcomes)
      invariant anyCancelled ==> exists j: nat :: items.cancelled(j)
      invariant forall j | 0 <= j < k :: RunsTo(items, j, lines[j], offset, outcomes[j])
    {
      var infer, jitter := (a: nat) => items.infer(k, a), (a: nat) => items.jitter(k, a);
      var row, asked, slept := RunOne(items.index(lines[k], offset), items.cancelled(k), infer, jitter);
      assert forall a: nat :: items.infer(k, a) == infer(a);
      assert !items.cancelled(k) ==> LastAttempt(items, k, asked - 1);
      assert RunsTo(items, k, lines[k], offset, row);
      OneMoreOutcome(outcomes, row);
      outcomes := outcomes + [row];
      anyCancelled := anyCancelled || row.verdict.Cancelled?;
      k := k + 1;
    }
  }

  lemma OneMoreOutcome(rows: seq<Row>, row: Row)
    ensures NoneCancelled(rows + [row]) <==> NoneCancelled(rows) && !row.verdict.Cancelled?
  {
    assert forall i | 0 <= i < |rows| :: (rows + [row])[i] == rows[i];
    assert (rows + [row])[|rows|] == row;
  }

  /** The attempt that settles item k: all before it were retryable, and it is not or is the third. */
  ghost predicate LastAttempt(items: Items, k: nat, a: nat) {
    && a < 3
    && (forall b: nat | b < a :: items.infer(k, b).Retryable?)
    && (items.infer(k, a).Retryable? ==> a == 2)
  }

  /** A row that item k can end with: cancelled, or a report of its provider's reply to the last attempt. */
  ghost predicate RunsTo(items: Items, k: nat, line: Bytes, offset: int, row: Row) {
    if items.cancelled(k) then row == Row(items.index(line, offset), Cancelled, [])
    else exists a: nat :: LastAttempt(items, k, a) && Reports(row, items.index(line, offset), items.infer(k, a))
  }

  lemma ModelledRows(model: Model, lines: seq<Bytes>, offset: int, items: Items, outcomes: seq<Row>)
    requires |outcomes| == |lines| && NoneCancelled(outcomes) && items.Follows(model, lines)
    requires forall k | 0 <= k < |lines| :: RunsTo(items, k, lines[k], offset, outcomes[k])
    ensures outcomes == LineRows(model, lines, offset)
  {
    forall k | 0 <= k < |lines|
      ensures outcomes[k] == ItemRow(model, lines[k], offset)
    {
      assert RunsTo(items, k, lines[k], offset, outcomes[k]);
    }
  }

  /** `ok_count` and `fail_count`. */
  method CountVerdicts(results: seq<Row>) returns (okCount: nat, failCount: nat)
    ensures okCount == CountOk(results) && okCount + failCount == |results|
  {
    okCount, failCount := 0, 0;
    var i := 0;
    while i < |results|
      invariant 0 <= i <= |results|
      invariant okCount == CountOk(results[..i]) && okCount + failCount == i
    {
      if results[i].verdict.Ok? {
        okCount := okCount + 1;
      } else {
        failCount := failCount + 1;
      }
      CountOkAppend(results[..i], [results[i]]);
      assert results[..i + 1] == results[..i] + [results[i]];
      i := i + 1;
    }
    assert results[..i] == results;
  }

  lemma CountsOfNone()
    ensures forall status :: CountStatus(status, []) == 0
  {
  }

  lemma CountsOfPrefix(chunks: seq<Chunk>, k: nat)
    requires 0 < k <= |chunks|
    ensures forall status ::
              CountStatus(status, chunks[..k]) ==
              CountStatus(status, chunks[..k - 1]) + (if chunks[k - 1].status == status then 1 else 0)
  {
    forall status {
      CountOfPrefix(status, chunks, k);
    }
  }

  lemma NoJobs(chunks: seq<Chunk>, pendingOnly: bool)
    ensures JobsFor(chunks, 0, pendingOnly) == multiset{}
  {
  }

  lemma OneMoreJob(chunks: seq<Chunk>, k: nat, pendingOnly: bool)
    requires k < |chunks|
    ensures var earlier := JobsFor(chunks, k, pendingOnly);
            JobsFor(chunks, k + 1, pendingOnly) ==
            if Wanted(chunks[k], pendingOnly) then earlier + multiset{ProcessJob(k)} else earlier
  {
  }

  lemma OrchestrateUnfolds(cfg: Config, s: State)
    requires cfg.chunkSize >= 1
    ensures var t := Consume(s, OrchestrateJob);
            && t.batch == s.batch
            && Pipeline.OrchestrateBatch(cfg, s) ==
               if Ended(t.batch.status) then t
               else
                 var chunks := ReclaimAll(Pipeline.CreateChunkRows(cfg, t.chunks), t.now);
                 t.(batch := t.batch.(status := Running), chunks := chunks,
                    queue := t.queue + JobsFor(chunks, |chunks|, false) + multiset{CheckJob})
  {
    hide ReclaimAll, JobsFor, Pipeline.CreateChunkRows;
  }

  /** Finalizing would not fail for want of a checkpoint object. */
  predicate CheckpointsPresent(s: State) {
    || s.batch.status.Completed?
    || s.batch.status.BatchCancelled?
    || s.chunks == []
    || !AllSucceeded(s.chunks)
    || AllPresent(s.objects, ResultKeys(s.chunks))
  }

  class Service {
    const cfg: Config
    const batch: BatchRecord
    const spaces: SpacesClient
    var rows: seq<ChunkRecord>
    var now: int
    var queue: multiset<Job>
    var runs: map<nat, Run>
    var nextRun: nat
    var scans: nat

    /** A batch as creation leaves it: prompts uploaded, first job queued, no chunk rows yet. */
    constructor (cfg: Config, now: int)
      ensures Valid() && this.cfg == cfg && View() == Init(cfg, now)
      ensures fresh(batch) && fresh(spaces)
    {
      this.cfg := cfg;
      batch := new BatchRecord(cfg.hasWebhook);
      spaces := new SpacesClient();
      rows, this.now, queue := [], now, multiset{OrchestrateJob};
      runs, nextRun, scans := map[], 0, 0;
      new;
      spaces.PutBytes(PromptsKey(cfg.batchId), cfg.prompts);
    }

    ghost predicate Valid()
      reads this
    {
      Distinct(rows)
    }

    /** The chunk table. */
    function Table(): (values: seq<Chunk>)
      reads this`rows, rows
      ensures |values| == |rows|
    {
      ValuesOf(rows)
    }

    ghost function View(): State
      reads this, batch, spaces, rows
    {
      State(now, batch.Value(), Table(), spaces.objects, queue, runs, nextRun, scans)
    }

    lemma RowAt(i: nat)
      requires i < |rows|
      ensures Table()[i] == rows[i].Value()
    {
      hide ValuesOf;
    }

    /** After one row alone has changed, the table is the old one with that row replaced. */
    twostate lemma RowReplaced(i: nat)
      requires Valid() && rows == old(rows) && i < |rows|
      requires forall r | r in rows && r != rows[i] :: unchanged(r)
      ensures Table() == old(Table())[i := rows[i].Value()]
    {
      hide ValuesOf;
      forall j | 0 <= j < |rows| && j != i
        ensures rows[j].Value() == old(rows[j].Value())
      {
        assert rows[j] in rows && rows[j] != rows[i];
      }
    }

    /** A worker takes a job off the queue. */
    method Take(job: Job)
      modifies `queue
      ensures queue == old(queue) - multiset{job} && View() == Consume(old(View()), job)
    {
      hide Table;
      queue := queue - multiset{job};
    }

    method Enqueue(job: Job)
      modifies `queue
      ensures queue == old(queue) + multiset{job} && View() == Pipeline.Enqueue(old(View()), job)
    {
      hide Table;
      queue := queue + multiset{job};
    }

    /** `create_chunk_rows`: keeps existing rows, and otherwise inserts one row per planned chunk. */
    method CreateChunkRows()
      requires Valid() && cfg.chunkSize >= 1
      modifies `rows
      ensures Valid() && Table() == Pipeline.CreateChunkRows(cfg, old(Table()))
      ensures old(rows) != [] ==> rows == old(rows)
      ensures rows == old(rows) || forall i | 0 <= i < |rows| :: fresh(rows[i])
    {
      if rows != [] {
        return;
      }
      var ok, slots := PlanChunks(|cfg.Items()|, cfg.chunkSize);
      rows := InsertRows(slots);
      CreatedRows(rows, slots);
    }

    lemma CreatedRows(created: seq<ChunkRecord>, slots: seq<Slot>)
      requires |created| == |slots| && forall k | 0 <= k < |slots| :: created[k].Value() == FreshChunk(slots[k])
      ensures ValuesOf(created) == FreshChunks(slots)
    {
      hide ValuesOf;
    }

    static method InsertRows(slots: seq<Slot>) returns (created: seq<ChunkRecord>)
      ensures |created| == |slots| && Distinct(created) && forall k | 0 <= k < |created| :: fresh(created[k])
      ensures forall k | 0 <= k < |slots| :: created[k].Value() == FreshChunk(slots[k])
    {
      created := [];
      var i := 0;
      while i < |slots|
        invariant 0 <= i == |created| <= |slots|
        invariant forall k | 0 <= k < i :: fresh(created[k])
        invariant Distinct(created)
        invariant forall k | 0 <= k < i :: created[k].Value() == FreshChunk(slots[k])
      {
        var row := new ChunkRecord(slots[i]);
        created := created + [row];
        i := i + 1;
      }
    }

    /** `reclaim_expired_leases`: one bulk update of all expired rows. */
    method ReclaimExpiredLeases()
      requires Valid()
      modifies rows
      ensures View() == old(View()).(chunks := ReclaimAll(old(View()).chunks, old(View()).now))
    {
      hide Table, Distinct, ReclaimAll;
      ReleaseExpired();
    }

    method ReleaseExpired()
      modifies rows
      ensures Table() == ReclaimAll(old(Table()), now)
    {
      hide ValuesOf;
      var expired := set r | r in rows && r.status == Leased && r.leasedUntil.Some? && r.leasedUntil.value < now;
      forall r | r in expired {
        r.status := ChunkPending;
      }
      forall r | r in expired {
        r.leasedUntil := None;
      }
    }

    /** Queues a process job for every unfinished chunk, or for every pending one. */
    method EnqueueChunks(pendingOnly: bool)
      requires Valid()
      modifies `queue
      ensures var s := old(View()); View() == s.(queue := s.queue + JobsFor(s.chunks, |s.chunks|, pendingOnly))
    {
      hide Table, Distinct, JobsFor;
      ghost var values := Table();
      var jobs := multiset{};
      var i := 0;
      NoJobs(values, pendingOnly);
      while i < |rows|
        invariant 0 <= i <= |rows| == |values| && Table() == values && queue == old(queue)
        invariant jobs == JobsFor(values, i, pendingOnly)
      {
        RowAt(i);
        OneMoreJob(values, i, pendingOnly);
        var row := rows[i];
        if if pendingOnly then row.status == ChunkPending else row.status != Succeeded {
          jobs := jobs + multiset{ProcessJob(i)};
        }
        i := i + 1;
      }
      queue := queue + jobs;
    }

    method SetRunning()
      modifies batch
      ensures View() == old(View()).(batch := old(View()).batch.(status := Running))
    {
      hide Table;
      batch.status := Running;
    }

    method HasEnded() returns (ended: bool)
      ensures ended == Ended(View().batch.status)
    {
      ended := batch.status in {Completed, BatchFailed, BatchCancelled};
    }

    /** The chunk rows of a batch that starts or starts over: created if missing, then reclaimed. */
    method PrepareChunks()
      requires Valid() && cfg.chunkSize >= 1
      modifies `rows, rows
      ensures Valid()
      ensures var s := old(View()); View() == s.(chunks := ReclaimAll(Pipeline.CreateChunkRows(cfg, s.chunks), s.now))
      ensures rows == old(rows) || forall i | 0 <= i < |rows| :: fresh(rows[i])
    {
      hide Table, Distinct, ReclaimAll, Pipeline.CreateChunkRows;
      CreateChunkRows();
      ReclaimExpiredLeases();
    }

    method OrchestrateBatch()
      requires Valid() && cfg.chunkSize >= 1
      modifies `queue, `rows, batch, rows
      ensures Valid() && View() == Pipeline.OrchestrateBatch(cfg, old(View()))
      ensures rows == old(rows) || forall i | 0 <= i < |rows| :: fresh(rows[i])
    {
      hide View, Table, Distinct, ReclaimAll, JobsFor, Pipeline.CreateChunkRows, Pipeline.OrchestrateBatch, Consume;
      OrchestrateUnfolds(cfg, View());
      Take(OrchestrateJob);
      var ended := HasEnded();
      if !ended {
        SetRunning();
        PrepareAndQueue();
      }
    }

    /** The rows of a batch that is running now, and the jobs for them. */
    method PrepareAndQueue()
      requires Valid() && cfg.chunkSize >= 1
      modifies `queue, `rows, rows
      ensures Valid()
      ensures var s := old(View());
              var chunks := ReclaimAll(Pipeline.CreateChunkRows(cfg, s.chunks), s.now);
              View() == s.(chunks := chunks, queue := s.queue + JobsFor(chunks, |chunks|, false) + multiset{CheckJob})
      ensures rows == old(rows) || forall i | 0 <= i < |rows| :: fresh(rows[i])
    {
      hide View, Table, Distinct, ReclaimAll, JobsFor, Pipeline.CreateChunkRows;
      PrepareChunks();
      EnqueueChunks(false);
      Enqueue(CheckJob);
    }

    /** `_lease_chunk`: takes the lease unless the row is done, exhausted or held by a live lease. */
    method LeaseChunk(chunk: nat) returns (leased: bool)
      requires Valid() && chunk < |rows|
      modifies batch, rows[chunk]
      ensures leased == Leasable(old(Table()[chunk]), now, cfg.maxAttempts)
      ensures View() == if leased then Pipeline.LeaseChunk(old(View()), chunk, now + cfg.leaseSeconds) else old(View())
    {
      hide Table, Distinct;
      var row := rows[chunk];
      RowAt(chunk);
      if row.status == Succeeded {
        return false;
      }
      if row.attempts >= cfg.maxAttempts && row.status == ChunkFailed {
        return false;
      }
      if row.status == Leased && row.leasedUntil.Some? && row.leasedUntil.value > now {
        return false;
      }
      TakeLease(chunk);
      leased := true;
    }

    method TakeLease(chunk: nat)
      requires Valid() && chunk < |rows|
      modifies batch, rows[chunk]
      ensures View() == Pipeline.LeaseChunk(old(View()), chunk, now + cfg.leaseSeconds)
    {
      hide Table, Distinct;
      var row := rows[chunk];
      RowAt(chunk);
      row.Lease(now + cfg.leaseSeconds);
      RowReplaced(chunk);
      if row.attempts > 1 {
        batch.retryCount := batch.retryCount + 1;
      }
    }

    /** `process_chunk` up to its lease commit. */
    method StartChunk(chunk: nat)
      requires Valid()
      modifies `queue, `runs, `nextRun, batch, rows
      ensures Valid() && View() == Pipeline.StartRun(cfg, old(View()), chunk)
    {
      hide Table, Distinct, Leasable, Pipeline.LeaseChunk;
      Take(ProcessJob(chunk));
      if Ended(batch.status) || chunk >= |rows| {
        return;
      }
      var leased := LeaseChunk(chunk);
      if leased {
        BeginRun(Run(chunk, now + cfg.leaseSeconds, Working));
      }
    }

    method BeginRun(run: Run)
      modifies `runs, `nextRun
      ensures View() == old(View()).(runs := old(runs)[old(nextRun) := run], nextRun := old(nextRun) + 1)
    {
      hide Table;
      runs := runs[nextRun := run];
      nextRun := nextRun + 1;
    }

    /**
     The middle of `process_chunk`: reads the chunk's lines, runs every item, and aborts if one was
     cancelled or else orders the rows. A missing prompt object raises. What it does is a Gather
     event that can happen; and with items that a model determines, the event the model allows.
     */
    method RunItems(run: nat, pieces: seq<Bytes>, items: Items) returns (ok: bool, outcomes: seq<Row>)
      requires Valid() && run in runs && runs[run].phase.Working? && runs[run].chunk < |rows|
      requires items.Valid() && forall k: nat | items.cancelled(k) :: batch.status == BatchCancelled
      requires Delivers(spaces.objects, PromptsKey(cfg.batchId), pieces)
      modifies `runs
      ensures ok <==> PromptsKey(cfg.batchId) in spaces.objects
      ensures !ok ==> View() == old(View())
      ensures ok ==> Enabled(cfg, old(View()), Gather(run, outcomes))
      ensures ok ==> View() == Pipeline.GatherOutcomes(old(View()), run, outcomes)
      ensures ok ==> forall model: Model | items.Follows(model, ItemsRead(cfg, old(View()), old(runs[run].chunk))) ::
                AnswersByModel(cfg, model, old(View()), Gather(run, outcomes))
    {
      hide Table, Enabled, ItemsRead, NoneCancelled, SortByIndex, Items.Follows, LineRows;
      var row := rows[runs[run].chunk];
      RowAt(runs[run].chunk);
      ghost var before := View();
      var read := spaces.ReadRange(PromptsKey(cfg.batchId), pieces, row.slot.offset, row.slot.limit);
      if read.NoSuchKey? {
        return false, [];
      }
      var anyCancelled: bool;
      outcomes, anyCancelled := RunEach(read.lines, row.slot.offset, items);
      ItemsAreRead(before, run, read.lines, outcomes);
      forall model: Model | items.Follows(model, read.lines) && NoneCancelled(outcomes)
        ensures outcomes == LineRows(model, read.lines, row.slot.offset)
      {
        ModelledRows(model, read.lines, row.slot.offset, items, outcomes);
      }
      SetPhase(run, if anyCancelled then Aborting else Gathered(SortByIndex(outcomes)));
      ok := true;
    }

    lemma ItemsAreRead(s: State, run: nat, lines: seq<Bytes>, outcomes: seq<Row>)
      requires run in s.runs && s.runs[run].phase.Working? && s.runs[run].chunk < |s.chunks|
      requires PromptsKey(cfg.batchId) in s.objects && |outcomes| == |lines|
      requires var slot := s.chunks[s.runs[run].chunk].slot;
               lines == Range(Lines(s.objects[PromptsKey(cfg.batchId)]), slot.offset, slot.limit)
      requires NoneCancelled(outcomes) || s.batch.status.BatchCancelled?
      ensures lines == ItemsRead(cfg, s, s.runs[run].chunk)
      ensures Enabled(cfg, s, Gather(run, outcomes))
    {
    }

    /** The checkpoint is written before the transaction that records it. */
    method WriteCheckpoint(run: nat)
      requires Valid() && run in runs && runs[run].phase.Gathered?
      modifies `runs, spaces
      ensures Valid() && View() == Pipeline.WriteCheckpoint(cfg, old(View()), run)
    {
      hide Table, Codec.Written, ChunkResultKey;
      var r := runs[run];
      var results := r.phase.rows;
      var okCount, failCount := CountVerdicts(results);
      var key := ChunkResultKey(cfg.batchId, r.chunk);
      spaces.WriteChunkResults(key, results, cfg.codec);
      SetPhase(run, Checkpointed(okCount, failCount));
    }

    /** `_recompute_batch_counters`: progress from the succeeded rows, retries from all of them. */
    method RecomputeCounters()
      modifies batch
      ensures batch.Value() == Recompute(old(batch.Value()), Table())
    {
      hide Table, Sum;
      ghost var table := Table();
      var completed, failed, retries, i := 0, 0, 0, 0;
      SumOfNone(Processed);
      SumOfNone(Failures);
      SumOfNone(Retries);
      assert table[..0] == [];
      while i < |rows|
        invariant 0 <= i <= |rows| && Table() == table && batch.Value() == old(batch.Value())
        invariant completed == Sum(Processed, table[..i])
        invariant failed == Sum(Failures, table[..i])
        invariant retries == Sum(Retries, table[..i])
      {
        var row := rows[i];
        if row.status == Succeeded {
          completed := completed + row.okCount + row.failCount;
          failed := failed + row.failCount;
        }
        if row.attempts > 1 {
          retries := retries + row.attempts - 1;
        }
        RowAt(i);
        i := i + 1;
        SumOfPrefix(Processed, table, i);
        SumOfPrefix(Failures, table, i);
        SumOfPrefix(Retries, table, i);
      }
      assert table[..i] == table;
      batch.Recount(completed, failed, retries);
      assert Table() == table;
    }

    method CommitSuccess(run: nat)
      requires Valid() && run in runs && runs[run].phase.Checkpointed? && runs[run].chunk < |rows|
      modifies `runs, batch, rows[runs[run].chunk]
      ensures Valid() && View() == Pipeline.CommitSucceeded(cfg, old(View()), run)
    {
      hide Table, Sum, ChunkResultKey;
      var r := runs[run];
      var row := rows[r.chunk];
      var key := ChunkResultKey(cfg.batchId, r.chunk);
      RowAt(r.chunk);
      row.Succeed(key, r.phase.okCount, r.phase.failCount);
      RowReplaced(r.chunk);
      RecomputeCounters();
      SetPhase(run, Committed);
    }

    /** The nudge of a completion check, after which the run is over. If it raises, CommitFailure follows. */
    method Nudge(run: nat)
      requires run in runs && runs[run].phase.Committed?
      modifies `queue, `runs
      ensures View() == NudgeCheck(old(View()), run)
    {
      hide Table;
      DropRun(run);
      Enqueue(CheckJob);
    }

    /** Some item saw the batch cancelled: the chunk goes back to pending. */
    method CommitCancelled(run: nat)
      requires Valid() && run in runs && runs[run].chunk < |rows|
      modifies `runs, rows[runs[run].chunk]
      ensures Valid() && View() == Pipeline.CommitAborted(old(View()), run)
    {
      hide Table, Distinct;
      var i := runs[run].chunk;
      RetryChunk(i);
      DropRun(run);
    }

    /** The exception handler. Exhausting the attempts of a batch that is not running commits nothing. */
    method CommitFailure(run: nat)
      requires Valid() && run in runs && runs[run].chunk < |rows|
      modifies `queue, `runs, batch, rows[runs[run].chunk]
      ensures Valid() && View() == Pipeline.CommitFailed(cfg, old(View()), run)
    {
      hide Table, Distinct;
      var i := runs[run].chunk;
      var row := rows[i];
      RowAt(i);
      DropRun(run);
      if row.attempts >= cfg.maxAttempts {
        if batch.status == Running {
          FailChunk(i);
          Enqueue(WebhookJob(FailedHook));
        }
      } else {
        RetryChunk(i);
        Enqueue(ProcessJob(i));
      }
    }

    method FailChunk(i: nat)
      requires Valid() && i < |rows|
      modifies batch, rows[i]
      ensures var s := old(View());
              && i < |s.chunks|
              && View() == s.(chunks := s.chunks[i := s.chunks[i].(status := ChunkFailed, leasedUntil := None)],
                              batch := s.batch.(status := BatchFailed))
    {
      hide Table, Distinct;
      RowAt(i);
      rows[i].Fail();
      RowReplaced(i);
      batch.status := BatchFailed;
    }

    method RetryChunk(i: nat)
      requires Valid() && i < |rows|
      modifies rows[i]
      ensures var s := old(View()); i < |s.chunks| && View() == s.(chunks := s.chunks[i := PendingRow(s.chunks[i])])
    {
      hide Table, Distinct;
      RowAt(i);
      rows[i].Release();
      RowReplaced(i);
    }

    method DropRun(run: nat)
      modifies `runs
      ensures View() == EndRun(old(View()), run)
    {
      hide Table;
      runs := runs - {run};
    }

    method SetPhase(run: nat, phase: Phase)
      requires run in runs
      modifies `runs
      ensures runs == old(runs)[run := old(runs)[run].(phase := phase)]
      ensures View() == old(View()).(runs := runs)
    {
      hide Table;
      runs := runs[run := runs[run].(phase := phase)];
    }

    /** Counts the rows by status: succeeded, failed, and still to do. */
    method CountByStatus() returns (succeeded: nat, failed: nat, pendingish: nat)
      ensures succeeded == CountStatus(Succeeded, Table()) && failed == CountStatus(ChunkFailed, Table())
      ensures pendingish == CountStatus(ChunkPending, Table()) + CountStatus(Leased, Table())
    {
      hide Table, CountStatus;
      succeeded, failed, pendingish := 0, 0, 0;
      CountsOfNone();
      assert Table()[..0] == [];
      var i := 0;
      while i < |rows|
        invariant 0 <= i <= |rows|
        invariant succeeded == CountStatus(Succeeded, Table()[..i])
        invariant failed == CountStatus(ChunkFailed, Table()[..i])
        invariant pendingish == CountStatus(ChunkPending, Table()[..i]) + CountStatus(Leased, Table()[..i])
      {
        match rows[i].status {
          case Succeeded => succeeded := succeeded + 1;
          case ChunkFailed => failed := failed + 1;
          case ChunkPending => pendingish := pendingish + 1;
          case Leased => pendingish := pendingish + 1;
        }
        RowAt(i);
        i := i + 1;
        CountsOfPrefix(Table(), i);
      }
      assert Table()[..i] == Table();
    }

    /** What `check_batch_completion` does about the counts. */
    method ActOnCounts(succeeded: nat, failed: nat, pendingish: nat)
      requires succeeded == CountStatus(Succeeded, Table()) && failed == CountStatus(ChunkFailed, Table())
      requires pendingish == CountStatus(ChunkPending, Table()) + CountStatus(Leased, Table())
      modifies `queue, `scans, batch
      ensures View() == Pipeline.ActOn(old(View()), Conclude(old(Table())))
    {
      hide Table, CountStatus;
      hide View, Pipeline.Enqueue;
      var total := |rows|;
      if failed > 0 && pendingish == 0 && succeeded + failed == total {
        FailBatch();
        Enqueue(WebhookJob(FailedHook));
        return;
      }
      if succeeded == total && total > 0 {
        Enqueue(FinalizeJob);
        return;
      }
      if pendingish > 0 {
        BeginScan();
      }
    }

    method FailBatch()
      modifies batch
      ensures View() == old(View()).(batch := old(View()).batch.(status := BatchFailed))
    {
      hide Table;
      batch.status := BatchFailed;
    }

    method BeginScan()
      modifies `scans
      ensures View() == old(View()).(scans := old(View()).scans + 1)
    {
      hide Table;
      scans := scans + 1;
    }

    /** `check_batch_completion`, first transaction: reclaim, count, conclude. */
    method ScanCompletion()
      requires Valid()
      modifies `queue, `scans, batch, rows
      ensures Valid() && View() == Pipeline.ScanCompletion(old(View()))
    {
      hide Table, Distinct, ReclaimAll, Conclude, Pipeline.ActOn;
      Take(CheckJob);
      if Ended(batch.status) {
        return;
      }
      ReclaimExpiredLeases();
      var succeeded, failed, pendingish := CountByStatus();
      ActOnCounts(succeeded, failed, pendingish);
    }

    /** `check_batch_completion`, second transaction: requeue what is pending, then check again. */
    method RequeuePending()
      requires Valid() && scans > 0
      modifies `queue, `scans, rows
      ensures Valid() && View() == Pipeline.RequeuePending(old(View()))
    {
      hide View, Table, Distinct, ReclaimAll, JobsFor;
      EndScan();
      ReclaimExpiredLeases();
      EnqueueChunks(true);
      Enqueue(CheckJob);
    }

    method EndScan()
      requires scans > 0
      modifies `scans
      ensures View() == old(View()).(scans := old(scans) - 1) && old(View()).scans == old(scans)
    {
      hide Table;
      scans := scans - 1;
    }

    /**
     `finalize_batch`. A checkpoint object that is missing raises and leaves the batch as it is;
     SafeCheckpointsArePresent shows that none is ever missing.
     */
    method FinalizeBatch() returns (ok: bool)
      requires Valid()
      modifies `queue, batch, spaces
      ensures Valid()
      ensures ok == CheckpointsPresent(old(View()))
      ensures View() == if ok then Pipeline.FinalizeBatch(cfg, old(View())) else Consume(old(View()), FinalizeJob)
    {
      hide Table, Distinct, AllSucceeded, AllPresent, ResultKeys, Pipeline.Publish;
      Take(FinalizeJob);
      if batch.status == Completed || batch.status == BatchCancelled {
        return true;
      }
      var chunks := Table();
      if chunks == [] || !AllSucceeded(chunks) {
        Enqueue(CheckJob);
        return true;
      }
      ok := Publish();
      if ok {
        Enqueue(WebhookJob(CompletedHook));
      }
    }

    /** Writes results.ndjson and the manifest, and completes the batch row. */
    method Publish() returns (ok: bool)
      modifies batch, spaces
      ensures ok <==> AllPresent(old(spaces.objects), ResultKeys(Table()))
      ensures View() == if ok then Pipeline.Publish(cfg, old(View())) else old(View())
    {
      hide Table, ManifestOf, ResultKeys, FetchAll, Concatenation;
      var chunks := Table();
      var keys := ResultKeys(chunks);
      var rkey, mkey := ResultsKey(cfg.batchId), ManifestKey(cfg.batchId);
      ghost var stored := spaces.objects;
      ok := spaces.ConcatenateChunks(keys, rkey);
      if ok {
        PresentIsFetched(stored, keys);
        spaces.PutBytes(mkey, cfg.codec.encManifest(ManifestOf(cfg, batch.Value(), chunks)));
        batch.Complete(rkey, mkey);
      }
    }

    /** `deliver_batch_webhook`, given how the POST went; says whether it is deferred again. */
    method DeliverWebhook(hook: Hook, ok: bool) returns (again: bool)
      requires Valid()
      modifies `queue, batch
      ensures Valid() && View() == Pipeline.DeliverHook(cfg, old(View()), hook, ok)
      ensures again <==> cfg.hasWebhook && TriesAgain(batch.webhookAttempts, cfg.webhookMaxAttempts, ok)
    {
      hide Table, Distinct;
      Take(WebhookJob(hook));
      if !cfg.hasWebhook {
        return false;
      }
      again := batch.RecordPost(cfg.webhookMaxAttempts, ok);
      if again {
        Enqueue(WebhookJob(hook));
      }
    }

    /** `cancel_batch`. */
    method CancelBatch()
      requires Valid()
      modifies batch
      ensures Valid() && View() == Pipeline.CancelBatch(old(View()))
    {
      if !Ended(batch.status) {
        batch.status := BatchCancelled;
      }
    }
  }

  /** No checkpoint is ever missing from a state the machine can reach. */
  lemma SafeCheckpointsArePresent(cfg: Config, s: State)
    requires cfg.Valid() && Invariants.Safe(cfg, s)
    ensures CheckpointsPresent(s)
  {
    if AllSucceeded(s.chunks) {
      Invariants.ResultKeysOf(cfg, s.chunks, |s.chunks|);
      assert s.chunks[..|s.chunks|] == s.chunks;
    }
  }

  lemma PresentIsFetched(objects: map<string, Bytes>, keys: seq<string>)
    requires AllPresent(objects, keys)
    ensures ObjectsAt(objects, keys) == FetchAll(objects, keys)
  {
  }
}
