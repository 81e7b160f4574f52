/**
 What every step of the pipeline keeps, whatever the interleaving: duplicate and lost jobs,
 crashes, reclaims, cancellation, and runs that outlive their lease.
 */
module Invariants {
  import opened Options
  import opened Ndjson
  import opened Rows
  import opened Planning
  import opened Keys
  import opened Pipeline
  import opened Sums

  // ---- The invariant ---------------------------------------------------------------------

  /** An object that holds exactly n rows, none of them cancelled. */
  ghost predicate HoldsRows(cfg: Config, data: Bytes, n: nat) {
    |cfg.codec.RowsIn(data)| == n && NoneCancelled(cfg.codec.RowsIn(data))
  }

  ghost predicate RowFits(cfg: Config, c: Chunk, i: nat)
    requires cfg.chunkSize >= 1 && i < |cfg.Slots()|
  {
    && c.slot == cfg.Slots()[i]
    && (c.status.Leased? <==> c.leasedUntil.Some?)
    && (c.status.ChunkFailed? ==> c.attempts >= cfg.maxAttempts)
    && (c.resultKey.Some? ==> c.resultKey.value == cfg.Key(i))
    && (c.status.Succeeded? ==> c.resultKey.Some? && c.okCount + c.failCount == c.slot.limit)
  }

  /** Chunk rows follow the plan and are each consistent. */
  ghost predicate RowsFit(cfg: Config, chunks: seq<Chunk>)
    requires cfg.chunkSize >= 1
  {
    && (chunks == [] || |chunks| == |cfg.Slots()|)
    && (forall i | 0 <= i < |chunks| :: RowFits(cfg, chunks[i], i))
  }

  ghost predicate NoFailedRow(chunks: seq<Chunk>) {
    forall i | 0 <= i < |chunks| :: !chunks[i].status.ChunkFailed?
  }

  /** Rows exist only once the batch has left pending; a failed row only in a failed batch. */
  ghost predicate LifecycleSound(status: BatchStatus, chunks: seq<Chunk>) {
    && (status.BatchPending? ==> chunks == [])
    && (chunks == [] ==> status.BatchPending? || status.BatchCancelled?)
    && (!status.BatchFailed? ==> NoFailedRow(chunks))
  }

  /** The prompt object is untouched, and every checkpoint object is complete. */
  ghost predicate StoreSound(cfg: Config, objects: map<string, Bytes>)
    requires cfg.chunkSize >= 1
  {
    && PromptsKey(cfg.batchId) in objects && objects[PromptsKey(cfg.batchId)] == cfg.prompts
    && (forall i: nat {:trigger cfg.Key(i)} :: cfg.Key(i) in objects ==>
          i < |cfg.Slots()| && HoldsRows(cfg, objects[cfg.Key(i)], cfg.Slots()[i].limit))
  }

  /** Checkpoint before success. */
  ghost predicate Backed(cfg: Config, objects: map<string, Bytes>, chunks: seq<Chunk>) {
    forall i | 0 <= i < |chunks| :: chunks[i].status.Succeeded? ==> cfg.Key(i) in objects
  }

  ghost predicate RunSound(cfg: Config, s: State, r: Run)
    requires cfg.chunkSize >= 1
  {
    && r.chunk < |s.chunks| && r.chunk < |cfg.Slots()|
    && match r.phase
       case Working => true
       case Aborting => s.batch.status.BatchCancelled?
       case Gathered(rows) => |rows| == cfg.Slots()[r.chunk].limit && NoneCancelled(rows)
       case Checkpointed(ok, fail) => ok + fail == cfg.Slots()[r.chunk].limit && cfg.Key(r.chunk) in s.objects
       case Committed => true
  }

  ghost predicate RunsSound(cfg: Config, s: State)
    requires cfg.chunkSize >= 1
  {
    forall r | r in s.runs :: r < s.nextRun && RunSound(cfg, s, s.runs[r])
  }

  /** Progress stays in range, the retry counter is exact, and progress is exact at the end. */
  ghost predicate CountersSound(cfg: Config, batch: Batch, chunks: seq<Chunk>) {
    && batch.failedItems <= batch.completedItems <= |cfg.Items()|
    && batch.retryCount == Sum(Retries, chunks)
    && (chunks != [] && AllSucceeded(chunks) ==>
          batch.completedItems == |cfg.Items()| && batch.completedItems == Sum(Processed, chunks)
          && batch.failedItems == Sum(Failures, chunks))
  }

  /** Entry i of a manifest is about chunk i, its checkpoint object, and all of its items. */
  ghost predicate EntrySound(cfg: Config, entry: ManifestEntry, i: nat)
    requires cfg.chunkSize >= 1 && i < |cfg.Slots()|
  {
    && entry.chunkIndex == i && entry.resultKey == Some(cfg.Key(i))
    && entry.okCount + entry.failCount == cfg.Slots()[i].limit
  }

  /** A manifest names its batch and results, has one entry per chunk in order, and adds up. */
  ghost predicate ManifestSound(cfg: Config, m: Manifest)
    requires cfg.chunkSize >= 1
  {
    && m.batchId == cfg.batchId && m.resultsKey == ResultsKey(cfg.batchId)
    && |m.chunks| == |cfg.Slots()| && (forall i | 0 <= i < |m.chunks| :: EntrySound(cfg, m.chunks[i], i))
    && m.retryCount == EntryRetries(m.chunks)
    && m.totalItems == m.completedItems == |cfg.Items()| == EntryItems(m.chunks)
    && m.failedItems == EntryFailures(m.chunks)
  }

  /** A completed batch has its results and manifest, and they are complete. */
  ghost predicate ResultsSound(cfg: Config, batch: Batch, objects: map<string, Bytes>)
    requires cfg.chunkSize >= 1
  {
    batch.status.Completed? ==>
      var rkey, mkey := ResultsKey(cfg.batchId), ManifestKey(cfg.batchId);
      && batch.resultsKey == Some(rkey) && rkey in objects && HoldsRows(cfg, objects[rkey], |cfg.Items()|)
      && batch.manifestKey == Some(mkey) && mkey in objects
      && ManifestSound(cfg, cfg.codec.decManifest(objects[mkey]))
  }

  ghost predicate Safe(cfg: Config, s: State)
    requires cfg.chunkSize >= 1
  {
    && RowsFit(cfg, s.chunks)
    && LifecycleSound(s.batch.status, s.chunks)
    && StoreSound(cfg, s.objects)
    && Backed(cfg, s.objects, s.chunks)
    && RunsSound(cfg, s)
    && CountersSound(cfg, s.batch, s.chunks)
    && ResultsSound(cfg, s.batch, s.objects)
  }

  // ---- Rows ------------------------------------------------------------------------------

  /** A batch with at least one item has at least one chunk, and no chunk reaches past the items. */
  lemma PlanIsNotEmpty(cfg: Config)
    requires cfg.Valid()
    ensures cfg.Slots() != []
    ensures forall i | 0 <= i < |cfg.Slots()| ::
              && cfg.Slots()[i].index == i && cfg.Slots()[i].limit >= 1
              && cfg.Slots()[i].offset + cfg.Slots()[i].limit <= |cfg.Items()|
  {
    var total := |cfg.Items()|;
    ChunkCountBounds(total, cfg.chunkSize);
    PlanTiles(total, cfg.chunkSize);
    forall i | 0 <= i < |cfg.Slots()|
      ensures cfg.Slots()[i].offset + cfg.Slots()[i].limit <= total
    {
      BoundariesRise(total, cfg.chunkSize, i + 1, ChunkCount(total, cfg.chunkSize));
    }
  }

  lemma ReclaimKeepsRows(cfg: Config, batch: Batch, objects: map<string, Bytes>, chunks: seq<Chunk>, now: int)
    requires cfg.chunkSize >= 1 && RowsFit(cfg, chunks) && Backed(cfg, objects, chunks)
        && CountersSound(cfg, batch, chunks)
    ensures var after := ReclaimAll(chunks, now);
            && RowsFit(cfg, after) && Backed(cfg, objects, after) && CountersSound(cfg, batch, after)
            && (NoFailedRow(chunks) ==> NoFailedRow(after))
  {
    hide Sum, Config.Slots, Config.Items;
    var after := ReclaimAll(chunks, now);
    forall i | 0 <= i < |after| ensures RowFits(cfg, after[i], i) {
      assert RowFits(cfg, chunks[i], i);
    }
    ReclaimKeepsSum(Retries, chunks, now);
    if AllSucceeded(after) {
      assert after == chunks;
    }
  }

  lemma FreshRowsFit(cfg: Config, batch: Batch, objects: map<string, Bytes>)
    requires cfg.Valid() && CountersSound(cfg, batch, [])
    ensures var created := FreshChunks(cfg.Slots());
            created != [] && RowsFit(cfg, created) && Backed(cfg, objects, created)
                && CountersSound(cfg, batch, created)
            && NoFailedRow(created)
  {
    PlanIsNotEmpty(cfg);
    var created := FreshChunks(cfg.Slots());
    SumOfFresh(Retries, created);
    assert !created[0].status.Succeeded?;
  }

  /** Replacing one row by one that fits and is not succeeded. */
  lemma UnfinishedRow(cfg: Config, batch: Batch, objects: map<string, Bytes>, chunks: seq<Chunk>, i: nat, c: Chunk,
      after: Batch)
    requires cfg.chunkSize >= 1 && i < |chunks|
    requires RowsFit(cfg, chunks) && Backed(cfg, objects, chunks) && CountersSound(cfg, batch, chunks)
    requires RowFits(cfg, c, i) && !c.status.Succeeded?
    requires after.completedItems == batch.completedItems && after.failedItems == batch.failedItems
    requires after.retryCount == batch.retryCount + ValueOf(Retries, c) - ValueOf(Retries, chunks[i])
    ensures var updated := chunks[i := c];
            && RowsFit(cfg, updated) && Backed(cfg, objects, updated) && CountersSound(cfg, after, updated)
            && (NoFailedRow(chunks) && !c.status.ChunkFailed? ==> NoFailedRow(updated))
  {
    SumUpdate(Retries, chunks, i, c);
    assert !chunks[i := c][i].status.Succeeded?;
  }

  /** Sums of progress are bounded by the number of items, and meet it when every row succeeded. */
  lemma ProgressInRange(cfg: Config, chunks: seq<Chunk>)
    requires cfg.Valid() && RowsFit(cfg, chunks) && chunks != []
    ensures Sum(Failures, chunks) <= Sum(Processed, chunks) <= |cfg.Items()|
    ensures AllSucceeded(chunks) ==> Sum(Processed, chunks) == |cfg.Items()|
  {
    hide Sum, Codec.Valid, Config.Slots, Config.Items;
    assert forall i | 0 <= i < |chunks| :: RowFits(cfg, chunks[i], i);
    SumMonotone(Failures, chunks, Processed, chunks);
    SumMonotone(Processed, chunks, Limits, chunks);
    SumOfAllLimits(cfg, chunks);
    if AllSucceeded(chunks) {
      SumMonotone(Limits, chunks, Processed, chunks);
    }
  }

  lemma FinishedRow(cfg: Config, batch: Batch, objects: map<string, Bytes>, chunks: seq<Chunk>, i: nat, c: Chunk)
    requires cfg.Valid() && i < |chunks|
    requires RowsFit(cfg, chunks) && Backed(cfg, objects, chunks)
    requires RowFits(cfg, c, i) && c.status.Succeeded? && cfg.Key(i) in objects
    ensures var updated := chunks[i := c];
            && RowsFit(cfg, updated) && Backed(cfg, objects, updated)
            && CountersSound(cfg, Recompute(batch, updated), updated)
            && (NoFailedRow(chunks) ==> NoFailedRow(updated))
  {
    ProgressInRange(cfg, chunks[i := c]);
  }

  // ---- The transactions ------------------------------------------------------------------

  /** Runs that do not change stay sound while rows, objects and cancellation persist. */
  lemma RunsStaySound(cfg: Config, s: State, t: State)
    requires cfg.chunkSize >= 1 && RunsSound(cfg, s)
    requires s.nextRun <= t.nextRun && |s.chunks| <= |t.chunks| && s.objects.Keys <= t.objects.Keys
    requires s.batch.status.BatchCancelled? ==> t.batch.status.BatchCancelled?
    requires forall r | r in t.runs ::
               (r in s.runs && t.runs[r] == s.runs[r]) || (r < t.nextRun && RunSound(cfg, t, t.runs[r]))
    ensures RunsSound(cfg, t)
  {
    forall r | r in t.runs ensures r < t.nextRun && RunSound(cfg, t, t.runs[r]) {
      if r in s.runs && t.runs[r] == s.runs[r] {
        assert RunSound(cfg, s, s.runs[r]);
      }
    }
  }

  /** Nothing but the clock, the queue, the scans or the delivery record changes. */
  lemma QuietStep(cfg: Config, s: State, t: State)
    requires cfg.Valid() && Safe(cfg, s)
    requires t.chunks == s.chunks && t.objects == s.objects && t.runs == s.runs && t.nextRun == s.nextRun
    requires t.batch == s.batch.(webhookAttempts := t.batch.webhookAttempts, webhookStatus := t.batch.webhookStatus)
    ensures Safe(cfg, t)
  {
    hide RunSound, RowsFit, StoreSound, Backed, Codec.Valid, HoldsRows, ManifestSound;
    RunsStaySound(cfg, s, t);
  }

  lemma DeliverIsSafe(cfg: Config, s: State, hook: Hook, ok: bool)
    requires cfg.Valid() && Safe(cfg, s)
    ensures Safe(cfg, DeliverHook(cfg, s, hook, ok))
  {
    hide Safe, Codec.Valid;
    QuietStep(cfg, s, DeliverHook(cfg, s, hook, ok));
  }

  lemma CancelIsSafe(cfg: Config, s: State)
    requires cfg.Valid() && Safe(cfg, s)
    ensures Safe(cfg, CancelBatch(s))
  {
    hide RunSound, RowsFit, StoreSound, Backed, Codec.Valid, HoldsRows, ManifestSound;
    var t := CancelBatch(s);
    RunsStaySound(cfg, s, t);
  }

  lemma OrchestrateIsSafe(cfg: Config, s: State)
    requires cfg.Valid() && Safe(cfg, s)
    ensures Safe(cfg, OrchestrateBatch(cfg, s))
  {
    hide JobsFor, RunSound, RowsFit, StoreSound, Backed, CountersSound, Codec.Valid, NoFailedRow, ReclaimAll,
         FreshChunks;
    var t := OrchestrateBatch(cfg, s);
    if Ended(s.batch.status) {
      QuietStep(cfg, s, t);
    } else {
      if s.chunks == [] {
        FreshRowsFit(cfg, s.batch, s.objects);
      }
      ReclaimKeepsRows(cfg, s.batch, s.objects, CreateChunkRows(cfg, s.chunks), s.now);
      SameCounters(cfg, s.batch, t.batch, t.chunks);
      RunsStaySound(cfg, s, t);
    }
  }

  /**
   One row changes and does not become succeeded, a running batch may fail, runs may end, and a
   new one may start on the row. Starting, aborting and failing a run are all of this kind.
   */
  lemma OneRowIsSafe(cfg: Config, s: State, t: State, i: nat)
    requires cfg.Valid() && Safe(cfg, s) && i < |s.chunks| == |t.chunks| && t.chunks == s.chunks[i := t.chunks[i]]
    requires RowFits(cfg, t.chunks[i], i) && !t.chunks[i].status.Succeeded?
    requires t.chunks[i].status.ChunkFailed? ==> t.batch.status.BatchFailed?
    requires t.objects == s.objects && s.nextRun <= t.nextRun
    requires t.batch == s.batch.(status := t.batch.status, retryCount := t.batch.retryCount)
    requires t.batch.retryCount == s.batch.retryCount + ValueOf(Retries, t.chunks[i]) - ValueOf(Retries, s.chunks[i])
    requires t.batch.status == s.batch.status || (s.batch.status.Running? && t.batch.status.BatchFailed?)
    requires forall r | r in t.runs ::
               (r in s.runs && t.runs[r] == s.runs[r]) ||
               (r < t.nextRun && t.runs[r].chunk == i && t.runs[r].phase.Working?)
    ensures Safe(cfg, t)
  {
    hide RowsFit, StoreSound, Backed, RunSound, CountersSound, NoFailedRow, Codec.Valid, Config.Slots, ResultsSound;
    UnfinishedRow(cfg, s.batch, s.objects, s.chunks, i, t.chunks[i], t.batch);
    RowsHaveSlots(cfg, s.chunks, i);
    forall r | r in t.runs
      ensures (r in s.runs && t.runs[r] == s.runs[r]) || (r < t.nextRun && RunSound(cfg, t, t.runs[r]))
    {
      if !(r in s.runs && t.runs[r] == s.runs[r]) {
        WorkingIsSound(cfg, t, t.runs[r]);
      }
    }
    RunsStaySound(cfg, s, t);
    SameResults(cfg, s.batch, t.batch, s.objects);
  }

  lemma RowsHaveSlots(cfg: Config, chunks: seq<Chunk>, i: nat)
    requires cfg.chunkSize >= 1 && RowsFit(cfg, chunks) && i < |chunks|
    ensures i < |cfg.Slots()| == |chunks| && RowFits(cfg, chunks[i], i)
  {
    hide RowFits, Config.Slots;
  }

  lemma WorkingIsSound(cfg: Config, t: State, r: Run)
    requires cfg.chunkSize >= 1 && r.phase.Working? && r.chunk < |t.chunks| && r.chunk < |cfg.Slots()|
    ensures RunSound(cfg, t, r)
  {
  }

  lemma SameResults(cfg: Config, batch: Batch, after: Batch, objects: map<string, Bytes>)
    requires cfg.chunkSize >= 1 && ResultsSound(cfg, batch, objects)
    requires after.status.Completed? ==> batch.status.Completed?
    requires after.resultsKey == batch.resultsKey && after.manifestKey == batch.manifestKey
    ensures ResultsSound(cfg, after, objects)
  {
    hide HoldsRows, ManifestSound;
  }

  lemma LeasedRowFits(cfg: Config, chunks: seq<Chunk>, i: nat, deadline: int)
    requires cfg.chunkSize >= 1 && RowsFit(cfg, chunks) && i < |chunks|
    ensures i < |cfg.Slots()| && RowFits(cfg, LeaseRow(chunks[i], deadline), i)
  {
    hide Config.Slots;
    assert RowFits(cfg, chunks[i], i);
  }

  /** From s to t a run of chunk i has started, and nothing else but the queue has changed. */
  predicate StartedOn(cfg: Config, s: State, t: State, i: nat) {
    var deadline := s.now + cfg.leaseSeconds;
    && i < |s.chunks|
    && t.now == s.now && t.objects == s.objects
    && t.chunks == s.chunks[i := LeaseRow(s.chunks[i], deadline)]
    && t.batch == s.batch.(retryCount := s.batch.retryCount + if s.chunks[i].attempts > 0 then 1 else 0)
    && t.runs == s.runs[s.nextRun := Run(i, deadline, Working)] && t.nextRun == s.nextRun + 1
  }

  /** Whether a process job for chunk i starts a run. */
  predicate CanStart(cfg: Config, s: State, i: nat) {
    !Ended(s.batch.status) && i < |s.chunks| && Leasable(s.chunks[i], s.now, cfg.maxAttempts)
  }

  lemma StartCases(cfg: Config, s: State, i: nat)
    ensures CanStart(cfg, s, i) ==> StartedOn(cfg, s, StartRun(cfg, s, i), i)
    ensures StartRun(cfg, s, i).queue == s.queue - multiset{ProcessJob(i)} && StartRun(cfg, s, i).scans == s.scans
    ensures !CanStart(cfg, s, i) ==> StartRun(cfg, s, i) == Consume(s, ProcessJob(i))
  {
    hide Leasable, Ended;
  }

  lemma JobOfStart(cfg: Config, s: State, i: nat)
    requires Enabled(cfg, s, Start(i))
    ensures ProcessJob(i) in s.queue
  {
  }

  lemma NextOfStart(cfg: Config, s: State, i: nat)
    requires ProcessJob(i) in s.queue
    ensures Enabled(cfg, s, Start(i)) && Next(cfg, s, Start(i)) == StartRun(cfg, s, i)
  {
    hide StartRun;
  }

  lemma StartIsSafe(cfg: Config, s: State, i: nat)
    requires cfg.Valid() && Safe(cfg, s)
    ensures Safe(cfg, StartRun(cfg, s, i))
  {
    hide Safe, StartRun, CanStart, StartedOn, Codec.Valid;
    StartCases(cfg, s, i);
    if CanStart(cfg, s, i) {
      StartedIsSafe(cfg, s, StartRun(cfg, s, i), i);
    } else {
      QuietStep(cfg, s, StartRun(cfg, s, i));
    }
  }

  lemma StartedIsSafe(cfg: Config, s: State, t: State, i: nat)
    requires cfg.Valid() && Safe(cfg, s) && StartedOn(cfg, s, t, i)
    ensures Safe(cfg, t)
  {
    hide Safe, RowFits, Codec.Valid, Config.Slots;
    LeaseFitsSafely(cfg, s, i);
    OneRowIsSafe(cfg, s, t, i);
  }

  lemma LeaseFitsSafely(cfg: Config, s: State, i: nat)
    requires cfg.chunkSize >= 1 && Safe(cfg, s) && i < |s.chunks|
    ensures i < |cfg.Slots()| && RowFits(cfg, LeaseRow(s.chunks[i], s.now + cfg.leaseSeconds), i)
  {
    hide RowsFit, RowFits, StoreSound, Backed, RunsSound, CountersSound, ResultsSound, LifecycleSound, Config.Slots;
    LeasedRowFits(cfg, s.chunks, i, s.now + cfg.leaseSeconds);
  }

  lemma GatherIsSafe(cfg: Config, s: State, run: nat, outcomes: seq<Row>)
    requires cfg.Valid() && Safe(cfg, s) && Enabled(cfg, s, Gather(run, outcomes))
    ensures Safe(cfg, GatherOutcomes(s, run, outcomes))
  {
    hide RowsFit, StoreSound, Backed, CountersSound, LifecycleSound, ResultsSound, Codec.Valid, RunSound;
    var t := GatherOutcomes(s, run, outcomes);
    assert RunSound(cfg, s, s.runs[run]);
    GatheredIsSound(cfg, s, run, outcomes);
    RunsStaySound(cfg, s, t);
  }

  lemma GatheredIsSound(cfg: Config, s: State, run: nat, outcomes: seq<Row>)
    requires cfg.Valid() && Safe(cfg, s) && Enabled(cfg, s, Gather(run, outcomes)) && RunSound(cfg, s, s.runs[run])
    ensures RunSound(cfg, GatherOutcomes(s, run, outcomes), GatherOutcomes(s, run, outcomes).runs[run])
  {
    hide RunsSound, CountersSound, LifecycleSound, ResultsSound, Backed, Codec.Valid, Config.Slots, SortByIndex,
         NoneCancelled;
    assert RowFits(cfg, s.chunks[s.runs[run].chunk], s.runs[run].chunk);
    PlanIsNotEmpty(cfg);
    SortByIndexSorts(outcomes);
    SortKeepsNoneCancelled(outcomes);
  }

  lemma CheckpointKeepsStore(cfg: Config, objects: map<string, Bytes>, i: nat, rows: seq<Row>)
    requires cfg.Valid() && StoreSound(cfg, objects) && i < |cfg.Slots()|
    requires |rows| == cfg.Slots()[i].limit && NoneCancelled(rows)
    ensures StoreSound(cfg, objects[cfg.Key(i) := cfg.codec.Written(rows)])
  {
    KeysAreDistinct(cfg.batchId);
    cfg.codec.ReadBack(rows);
  }

  lemma CheckpointKeepsResults(cfg: Config, batch: Batch, objects: map<string, Bytes>, i: nat, data: Bytes)
    requires cfg.chunkSize >= 1 && ResultsSound(cfg, batch, objects)
    ensures ResultsSound(cfg, batch, objects[cfg.Key(i) := data])
  {
    hide HoldsRows, ManifestSound;
    KeysAreDistinct(cfg.batchId);
  }

  lemma CheckpointKeepsBacking(cfg: Config, objects: map<string, Bytes>, chunks: seq<Chunk>, i: nat, data: Bytes)
    requires Backed(cfg, objects, chunks)
    ensures Backed(cfg, objects[cfg.Key(i) := data], chunks)
  {
    hide Config.Key;
  }

  lemma CheckpointedIsSound(cfg: Config, s: State, run: nat)
    requires cfg.chunkSize >= 1 && run in s.runs && s.runs[run].phase.Gathered? && RunSound(cfg, s, s.runs[run])
    ensures RunSound(cfg, WriteCheckpoint(cfg, s, run), WriteCheckpoint(cfg, s, run).runs[run])
  {
    hide Codec.Written, CountOk, Config.Slots;
  }

  lemma WriteIsSafe(cfg: Config, s: State, run: nat)
    requires cfg.Valid() && Safe(cfg, s) && Enabled(cfg, s, Checkpoint(run))
    ensures Safe(cfg, WriteCheckpoint(cfg, s, run))
  {
    hide RowsFit, StoreSound, Backed, CountersSound, LifecycleSound, ResultsSound, Codec.Valid, Codec.Written,
         CountOk, Config.Key, Config.Slots;
    var t := WriteCheckpoint(cfg, s, run);
    var r := s.runs[run];
    var data := cfg.codec.Written(r.phase.rows);
    assert RunSound(cfg, s, r);
    CheckpointKeepsStore(cfg, s.objects, r.chunk, r.phase.rows);
    CheckpointKeepsBacking(cfg, s.objects, s.chunks, r.chunk, data);
    CheckpointKeepsResults(cfg, s.batch, s.objects, r.chunk, data);
    CheckpointedIsSound(cfg, s, run);
    hide RunSound;
    RunsStaySound(cfg, s, t);
  }

  lemma SuccessIsSafe(cfg: Config, s: State, run: nat)
    requires cfg.Valid() && Safe(cfg, s) && Enabled(cfg, s, CommitSuccess(run))
    ensures Safe(cfg, CommitSucceeded(cfg, s, run))
  {
    hide Sum, RowsFit, RowFits, StoreSound, Backed, CountersSound, ResultsSound, NoFailedRow, Codec.Valid,
         Config.Key, Config.Slots;
    var t := CommitSucceeded(cfg, s, run);
    var r := s.runs[run];
    assert RunSound(cfg, s, r);
    SucceededRowFits(cfg, s.chunks, r.chunk, r.phase.okCount, r.phase.failCount);
    FinishedRow(cfg, s.batch, s.objects, s.chunks, r.chunk, t.chunks[r.chunk]);
    SameResults(cfg, s.batch, t.batch, s.objects);
    CommittedIsSound(cfg, s, t, run);
  }

  lemma SucceededRowFits(cfg: Config, chunks: seq<Chunk>, i: nat, ok: nat, fail: nat)
    requires cfg.chunkSize >= 1 && RowsFit(cfg, chunks) && i < |chunks| && i < |cfg.Slots()|
    requires ok + fail == cfg.Slots()[i].limit
    ensures RowFits(cfg, SucceededRow(chunks[i], cfg.Key(i), ok, fail), i)
  {
    hide Config.Slots, Config.Key;
    assert RowFits(cfg, chunks[i], i);
  }

  lemma CommittedIsSound(cfg: Config, s: State, t: State, run: nat)
    requires cfg.chunkSize >= 1 && RunsSound(cfg, s) && run in s.runs && RunSound(cfg, s, s.runs[run])
    requires t.runs == s.runs[run := s.runs[run].(phase := Committed)] && t.nextRun == s.nextRun
    requires |t.chunks| == |s.chunks| && t.objects == s.objects && t.batch.status == s.batch.status
    ensures RunsSound(cfg, t)
  {
    hide Config.Slots, Config.Key;
    assert RunSound(cfg, t, t.runs[run]);
    hide RunSound;
    RunsStaySound(cfg, s, t);
  }

  lemma AbortIsSafe(cfg: Config, s: State, run: nat)
    requires cfg.Valid() && Safe(cfg, s) && Enabled(cfg, s, CommitCancelled(run))
    ensures Safe(cfg, CommitAborted(s, run))
  {
    hide Safe, RowFits, Codec.Valid, Config.Slots;
    var i := s.runs[run].chunk;
    RowFitsSafely(cfg, s, i);
    OneRowIsSafe(cfg, s, CommitAborted(s, run), i);
  }

  /** A row that goes back to pending, or fails with its attempts used up, still fits. */
  lemma RowFitsSafely(cfg: Config, s: State, i: nat)
    requires cfg.chunkSize >= 1 && Safe(cfg, s) && i < |s.chunks|
    ensures i < |cfg.Slots()| && RowFits(cfg, PendingRow(s.chunks[i]), i)
    ensures s.chunks[i].attempts >= cfg.maxAttempts ==>
              RowFits(cfg, s.chunks[i].(status := ChunkFailed, leasedUntil := None), i)
  {
    hide RunsSound, StoreSound, Backed, CountersSound, LifecycleSound, ResultsSound, Config.Slots;
    assert RowFits(cfg, s.chunks[i], i);
  }

  lemma FailureIsSafe(cfg: Config, s: State, run: nat)
    requires cfg.Valid() && Safe(cfg, s) && Enabled(cfg, s, CommitFailure(run))
    ensures Safe(cfg, CommitFailed(cfg, s, run))
  {
    hide Safe, RowFits, Codec.Valid, Config.Slots;
    var i := s.runs[run].chunk;
    RowFitsSafely(cfg, s, i);
    if s.chunks[i].attempts >= cfg.maxAttempts && !s.batch.status.Running? {
      CrashIsSafe(cfg, s, run);
    } else {
      OneRowIsSafe(cfg, s, CommitFailed(cfg, s, run), i);
    }
  }

  lemma CrashIsSafe(cfg: Config, s: State, run: nat)
    requires cfg.Valid() && Safe(cfg, s)
    ensures Safe(cfg, EndRun(s, run))
  {
    hide RunSound, RowsFit, StoreSound, Backed, CountersSound, LifecycleSound, ResultsSound, Codec.Valid,
         Config.Slots;
    var t := EndRun(s, run);
    RunsStaySound(cfg, s, t);
  }

  /** The reclaiming transactions: the cron job, both halves of a completion check. */
  lemma ReclaimIsSafe(cfg: Config, s: State, t: State)
    requires cfg.Valid() && Safe(cfg, s)
    requires t.chunks == ReclaimAll(s.chunks, s.now)
    requires t.batch == s.batch && t.objects == s.objects && t.runs == s.runs && t.nextRun == s.nextRun
    ensures Safe(cfg, t)
  {
    hide RowsFit, StoreSound, Backed, CountersSound, ResultsSound, NoFailedRow, RunSound, Codec.Valid, ReclaimAll,
         Config.Slots;
    ReclaimKeepsRows(cfg, s.batch, s.objects, s.chunks, s.now);
    RunsStaySound(cfg, s, t);
  }

  lemma ScanChunks(s: State)
    ensures ScanCompletion(s).chunks == if Ended(s.batch.status) then s.chunks else ReclaimAll(s.chunks, s.now)
    ensures ScanCompletion(s).runs == s.runs && ScanCompletion(s).nextRun == s.nextRun
    ensures ScanCompletion(s).objects == s.objects && ScanCompletion(s).now == s.now
  {
    hide Conclude, ReclaimAll, Ended, ActOn;
    if !Ended(s.batch.status) {
      var chunks := ReclaimAll(s.chunks, s.now);
      ActingKeepsRows(Consume(s, CheckJob).(chunks := chunks), Conclude(chunks));
    }
  }

  lemma ActingKeepsRows(s: State, conclusion: Conclusion)
    ensures var t := ActOn(s, conclusion);
            t.chunks == s.chunks && t.runs == s.runs && t.nextRun == s.nextRun && t.objects == s.objects
                && t.now == s.now
  {
  }

  /** The check's own failure branch is dead: no batch it looks at has a failed chunk. */
  lemma ScanIsSafe(cfg: Config, s: State)
    requires cfg.Valid() && Safe(cfg, s)
    ensures Safe(cfg, ScanCompletion(s))
    ensures ScanCompletion(s).batch == s.batch
    ensures Ended(s.batch.status) ==> ScanCompletion(s).chunks == s.chunks
  {
    hide Safe, Conclude, ScanCompletion, Codec.Valid, ReclaimAll;
    var t := ScanCompletion(s);
    ScanChunks(s);
    ScanKeepsBatch(cfg, s);
    if Ended(s.batch.status) {
      QuietStep(cfg, s, t);
    } else {
      ReclaimIsSafe(cfg, s, t);
    }
  }

  lemma ScanKeepsBatch(cfg: Config, s: State)
    requires cfg.Valid() && Safe(cfg, s)
    ensures ScanCompletion(s).batch == s.batch
  {
    hide Safe, Conclude, ReclaimAll, Codec.Valid;
    if !Ended(s.batch.status) {
      NoneFails(cfg, s);
    }
  }

  lemma NoneFails(cfg: Config, s: State)
    requires cfg.Valid() && Safe(cfg, s) && !Ended(s.batch.status)
    ensures !Conclude(ReclaimAll(s.chunks, s.now)).AllFailed?
  {
    hide Conclude, ReclaimAll, StoreSound, Backed, RunsSound, CountersSound, ResultsSound, RowsFit, Codec.Valid;
    ReclaimFailsNone(s.chunks, s.now);
    ConcludeMeans(ReclaimAll(s.chunks, s.now));
  }

  lemma ReclaimFailsNone(chunks: seq<Chunk>, now: int)
    requires NoFailedRow(chunks)
    ensures NoFailedRow(ReclaimAll(chunks, now))
  {
  }

  // ---- Finalizing ------------------------------------------------------------------------

  lemma KeyOfRow(cfg: Config, chunks: seq<Chunk>, i: nat)
    requires cfg.chunkSize >= 1 && RowsFit(cfg, chunks) && AllSucceeded(chunks) && i < |chunks|
    ensures chunks[i].resultKey == Some(cfg.Key(i)) && cfg.Key(i) != ""
  {
    hide Config.Slots;
    assert RowFits(cfg, chunks[i], i);
    assert |cfg.Key(i)| > 0;
  }

  /** The filter on result keys drops nothing: the keys are those of all chunks, in order. */
  lemma {:induction false} ResultKeysOf(cfg: Config, chunks: seq<Chunk>, k: nat)
    requires cfg.chunkSize >= 1 && RowsFit(cfg, chunks) && AllSucceeded(chunks) && k <= |chunks|
    ensures |ResultKeys(chunks[..k])| == k
    ensures forall i | 0 <= i < k :: ResultKeys(chunks[..k])[i] == cfg.Key(i)
  {
    hide RowsFit, AllSucceeded, ResultKeys, Config.Key, Config.Slots;
    if k == 0 {
      NoResultKeys();
      assert chunks[..0] == [];
    } else {
      ResultKeysOf(cfg, chunks, k - 1);
      KeyOfRow(cfg, chunks, k - 1);
      OneMoreResultKey(chunks, k - 1, cfg.Key(k - 1));
    }
  }

  lemma NoResultKeys()
    ensures ResultKeys([]) == []
  {
  }

  lemma OneMoreResultKey(chunks: seq<Chunk>, k: nat, key: string)
    requires k < |chunks| && chunks[k].resultKey == Some(key) && key != ""
    ensures ResultKeys(chunks[..k + 1]) == ResultKeys(chunks[..k]) + [key]
  {
    assert chunks[..k + 1][..k] == chunks[..k];
  }

  /** The objects that finalizing the first k chunks would concatenate. */
  function Parts(cfg: Config, objects: map<string, Bytes>, k: nat): (parts: seq<Bytes>)
    ensures |parts| == k
  {
    seq(k, i requires 0 <= i < k => Fetch(objects, cfg.Key(i)))
  }

  lemma PartsAreFetched(cfg: Config, objects: map<string, Bytes>, chunks: seq<Chunk>)
    requires cfg.chunkSize >= 1 && RowsFit(cfg, chunks) && AllSucceeded(chunks)
    ensures FetchAll(objects, ResultKeys(chunks)) == Parts(cfg, objects, |chunks|)
  {
    ResultKeysOf(cfg, chunks, |chunks|);
    assert chunks[..|chunks|] == chunks;
  }

  /** The rows read back from the concatenation: one per item of the chunks concatenated. */
  lemma {:induction false} ConcatenatedRows(cfg: Config, objects: map<string, Bytes>, chunks: seq<Chunk>, k: nat)
    requires cfg.Valid() && RowsFit(cfg, chunks) && AllSucceeded(chunks) && k <= |chunks|
    requires StoreSound(cfg, objects) && Backed(cfg, objects, chunks)
    ensures HoldsRows(cfg, Concatenation(Parts(cfg, objects, k)), Sum(Limits, chunks[..k]))
  {
    hide Sum, RowsFit, StoreSound, Backed, AllSucceeded, Parts, Concatenation, Config.Key, Codec.Valid, Codec.RowsIn,
         NoneCancelled;
    if k == 0 {
      NoPart(cfg, objects);
      assert chunks[..0] == [];
      SumOfNone(Limits);
    } else {
      ConcatenatedRows(cfg, objects, chunks, k - 1);
      OneMorePart(cfg, objects, k - 1);
      StoredRows(cfg, objects, chunks, k - 1);
      SumOfPrefix(Limits, chunks, k);
      NoneCancelledAppend(cfg.codec.RowsIn(Concatenation(Parts(cfg, objects, k - 1))),
          cfg.codec.RowsIn(Fetch(objects, cfg.Key(k - 1))));
    }
  }

  lemma NoPart(cfg: Config, objects: map<string, Bytes>)
    requires cfg.Valid()
    ensures HoldsRows(cfg, Concatenation(Parts(cfg, objects, 0)), 0)
  {
    LinesOfNothing();
  }

  lemma StoredRows(cfg: Config, objects: map<string, Bytes>, chunks: seq<Chunk>, i: nat)
    requires cfg.chunkSize >= 1 && RowsFit(cfg, chunks) && AllSucceeded(chunks) && i < |chunks|
    requires StoreSound(cfg, objects) && Backed(cfg, objects, chunks)
    ensures HoldsRows(cfg, Fetch(objects, cfg.Key(i)), chunks[i].slot.limit)
  {
    hide HoldsRows;
    assert RowFits(cfg, chunks[i], i);
    assert cfg.Key(i) in objects;
  }

  lemma NoneCancelledAppend(a: seq<Row>, b: seq<Row>)
    requires NoneCancelled(a) && NoneCancelled(b)
    ensures NoneCancelled(a + b)
  {
  }

  lemma OneMorePart(cfg: Config, objects: map<string, Bytes>, k: nat)
    ensures cfg.codec.RowsIn(Concatenation(Parts(cfg, objects, k + 1)))
         == cfg.codec.RowsIn(Concatenation(Parts(cfg, objects, k))) + cfg.codec.RowsIn(Fetch(objects, cfg.Key(k)))
  {
    var front, last := Parts(cfg, objects, k), Fetch(objects, cfg.Key(k));
    assert Parts(cfg, objects, k + 1) == front + [last];
    LinesOfConcatenation(front);
    LinesOfConcatenation(front + [last]);
    LinesOfEachAppend(front, last);
    cfg.codec.DecodeAppend(Lines(Concatenation(front)), Lines(last));
  }

  lemma FinalResults(cfg: Config, s: State)
    requires cfg.Valid() && Safe(cfg, s) && s.chunks != [] && AllSucceeded(s.chunks)
    ensures HoldsRows(cfg, ResultsBody(s.objects, s.chunks), |cfg.Items()|)
    ensures ManifestSound(cfg, ManifestOf(cfg, s.batch, s.chunks))
  {
    hide Sum, HoldsRows, StoreSound, Backed, RunsSound, FetchAll, ResultKeys, Parts, Concatenation, Codec.Valid,
         Entries, EntrySound;
    PartsAreFetched(cfg, s.objects, s.chunks);
    ConcatenatedRows(cfg, s.objects, s.chunks, |s.chunks|);
    assert s.chunks[..|s.chunks|] == s.chunks;
    assert forall i | 0 <= i < |s.chunks| :: RowFits(cfg, s.chunks[i], i);
    SumOfAllLimits(cfg, s.chunks);
    EntriesAddUp(s.chunks);
    EntriesAreSound(cfg, s.chunks);
  }

  lemma EntriesAreSound(cfg: Config, chunks: seq<Chunk>)
    requires cfg.Valid() && RowsFit(cfg, chunks) && AllSucceeded(chunks) && |chunks| == |cfg.Slots()|
    ensures forall i | 0 <= i < |chunks| :: EntrySound(cfg, Entries(chunks)[i], i)
  {
    hide Config.Slots, Codec.Valid, Config.Key;
    PlanIsNotEmpty(cfg);
    forall i | 0 <= i < |chunks| ensures EntrySound(cfg, Entries(chunks)[i], i) {
      assert RowFits(cfg, chunks[i], i);
    }
  }

  lemma PublishedIsCompleted(cfg: Config, s: State)
    ensures var t := Publish(cfg, Consume(s, FinalizeJob));
            t.batch.status.Completed? && t.chunks == s.chunks && t.runs == s.runs && t.now == s.now
                && t.nextRun == s.nextRun
  {
    hide ResultsBody, ManifestOf;
  }

  lemma PublishKeepsStore(cfg: Config, objects: map<string, Bytes>, chunks: seq<Chunk>, results: Bytes, manifest: Bytes)
    requires cfg.chunkSize >= 1 && StoreSound(cfg, objects) && Backed(cfg, objects, chunks)
    ensures ResultsKey(cfg.batchId) != ManifestKey(cfg.batchId)
    ensures var after := objects[ResultsKey(cfg.batchId) := results][ManifestKey(cfg.batchId) := manifest];
            StoreSound(cfg, after) && Backed(cfg, after, chunks)
  {
    hide HoldsRows;
    KeysAreDistinct(cfg.batchId);
  }

  lemma FinalizeIsSafe(cfg: Config, s: State)
    requires cfg.Valid() && Safe(cfg, s)
    ensures Safe(cfg, FinalizeBatch(cfg, s))
  {
    hide ResultsBody, ManifestOf, HoldsRows, ManifestSound, CountersSound, RunSound, RowsFit, StoreSound, Backed;
    var t := FinalizeBatch(cfg, s);
    if s.batch.status.Completed? || s.batch.status.BatchCancelled? || s.chunks == [] || !AllSucceeded(s.chunks) {
      QuietStep(cfg, s, t);
    } else {
      PublishKeepsStore(cfg, s.objects, s.chunks, ResultsBody(s.objects, s.chunks),
                        cfg.codec.encManifest(ManifestOf(cfg, s.batch, s.chunks)));
      FinalResults(cfg, s);
      SameCounters(cfg, s.batch, t.batch, s.chunks);
      RunsStaySound(cfg, s, t);
    }
  }

  lemma SameCounters(cfg: Config, batch: Batch, after: Batch, chunks: seq<Chunk>)
    requires CountersSound(cfg, batch, chunks)
    requires after.completedItems == batch.completedItems && after.failedItems == batch.failedItems
    requires after.retryCount == batch.retryCount
    ensures CountersSound(cfg, after, chunks)
  {
  }

  // ---- Every step, every run -------------------------------------------------------------

  lemma StepIsSafe(cfg: Config, s: State, e: Event)
    requires cfg.Valid() && Safe(cfg, s) && Enabled(cfg, s, e)
    ensures Safe(cfg, Next(cfg, s, e))
  {
    hide Safe, CancelBatch, OrchestrateBatch, StartRun, GatherOutcomes, WriteCheckpoint, CommitSucceeded,
         CommitAborted, CommitFailed, ScanCompletion, ReclaimAll, FinalizeBatch, DeliverHook;
    match e {
      case Cancel => CancelIsSafe(cfg, s);
      case Orchestrate => OrchestrateIsSafe(cfg, s);
      case Start(i) => StartIsSafe(cfg, s, i);
      case Gather(run, outcomes) => GatherIsSafe(cfg, s, run, outcomes);
      case Checkpoint(run) => WriteIsSafe(cfg, s, run);
      case CommitSuccess(run) => SuccessIsSafe(cfg, s, run);
      case Nudge(run) => CrashIsSafe(cfg, s, run); QuietStep(cfg, EndRun(s, run), Next(cfg, s, e));
      case CommitCancelled(run) => AbortIsSafe(cfg, s, run);
      case CommitFailure(run) => FailureIsSafe(cfg, s, run);
      case Crash(run) => CrashIsSafe(cfg, s, run);
      case CheckScan => ScanIsSafe(cfg, s);
      case Deliver(hook, ok) => DeliverIsSafe(cfg, s, hook, ok);
      case Reclaim => ReclaimIsSafe(cfg, s, Next(cfg, s, e));
      case CheckRequeue => ReclaimIsSafe(cfg, s, Next(cfg, s, e));
      case Finalize => FinalizeIsSafe(cfg, s);
      case _ => QuietStep(cfg, s, Next(cfg, s, e));
    }
  }

  lemma InitIsSafe(cfg: Config, now: int)
    requires cfg.Valid()
    ensures Safe(cfg, Init(cfg, now))
  {
    KeysAreDistinct(cfg.batchId);
  }

  lemma {:induction false} RunIsSafe(cfg: Config, now: int, es: seq<Event>)
    requires cfg.Valid() && Feasible(cfg, Init(cfg, now), es)
    ensures Safe(cfg, Exec(cfg, Init(cfg, now), es))
  {
    if es == [] {
      InitIsSafe(cfg, now);
    } else {
      RunIsSafe(cfg, now, es[..|es| - 1]);
      StepIsSafe(cfg, Exec(cfg, Init(cfg, now), es[..|es| - 1]), es[|es| - 1]);
    }
  }

  /** The invariant holds in every reachable state, under any interleaving. */
  lemma ReachableIsSafe(cfg: Config, s: State)
    requires cfg.Valid() && Reachable(cfg, s)
    ensures Safe(cfg, s)
  {
    var now, es :| Feasible(cfg, Init(cfg, now), es) && Exec(cfg, Init(cfg, now), es) == s;
    RunIsSafe(cfg, now, es);
  }

  // ---- What the invariant says of reachable states ---------------------------------------

  /** A succeeded chunk's checkpoint exists and holds exactly its items' rows, none of them cancelled. */
  lemma CheckpointBeforeSuccess(cfg: Config, s: State, i: nat)
    requires cfg.Valid() && Reachable(cfg, s) && i < |s.chunks| && s.chunks[i].status.Succeeded?
    ensures s.chunks[i].resultKey == Some(cfg.Key(i)) && cfg.Key(i) in s.objects
    ensures |cfg.codec.RowsIn(s.objects[cfg.Key(i)])| == s.chunks[i].slot.limit ==
        s.chunks[i].okCount + s.chunks[i].failCount
    ensures NoneCancelled(cfg.codec.RowsIn(s.objects[cfg.Key(i)]))
  {
    hide Reachable, Codec.RowsIn, Codec.Valid, RunsSound, CountersSound, ResultsSound;
    ReachableIsSafe(cfg, s);
    assert RowFits(cfg, s.chunks[i], i);
    assert HoldsRows(cfg, s.objects[cfg.Key(i)], cfg.Slots()[i].limit);
  }

  /** Progress never leaves its range, is exact once all chunks succeeded, and retries are always exact. */
  lemma CountersAreSound(cfg: Config, s: State)
    requires cfg.Valid() && Reachable(cfg, s)
    ensures s.batch.failedItems <= s.batch.completedItems <= |cfg.Items()|
    ensures s.batch.retryCount == Sum(Retries, s.chunks)
    ensures s.chunks != [] && AllSucceeded(s.chunks) ==>
              s.batch.completedItems == |cfg.Items()| && s.batch.failedItems == Sum(Failures, s.chunks)
  {
    hide Reachable;
    ReachableIsSafe(cfg, s);
  }

  /**
   A completed batch has one result row per prompt line, and a manifest with one entry per planned
   chunk, in order, that names the chunk's checkpoint and accounts for all its items; the manifest's
   totals are the sums over its entries.
   */
  lemma CompletedIsComplete(cfg: Config, s: State)
    requires cfg.Valid() && Reachable(cfg, s) && s.batch.status.Completed?
    ensures s.batch.resultsKey == Some(ResultsKey(cfg.batchId)) && ResultsKey(cfg.batchId) in s.objects
    ensures |cfg.codec.RowsIn(s.objects[ResultsKey(cfg.batchId)])| == |cfg.Items()|
    ensures NoneCancelled(cfg.codec.RowsIn(s.objects[ResultsKey(cfg.batchId)]))
    ensures s.batch.manifestKey == Some(ManifestKey(cfg.batchId)) && ManifestKey(cfg.batchId) in s.objects
    ensures var manifest := cfg.codec.decManifest(s.objects[ManifestKey(cfg.batchId)]);
            && manifest.batchId == cfg.batchId && manifest.resultsKey == ResultsKey(cfg.batchId)
            && manifest.totalItems == manifest.completedItems == |cfg.Items()| == EntryItems(manifest.chunks)
            && manifest.failedItems == EntryFailures(manifest.chunks)
            && manifest.retryCount == EntryRetries(manifest.chunks)
            && |manifest.chunks| == |cfg.Slots()|
            && (forall i | 0 <= i < |cfg.Slots()| ::
                  var entry := manifest.chunks[i];
                  && entry.chunkIndex == i && entry.resultKey == Some(cfg.Key(i))
                  && entry.okCount + entry.failCount == cfg.Slots()[i].limit)
  {
    hide Reachable, RowsFit, StoreSound, Backed, RunsSound, CountersSound, LifecycleSound, Config.Slots, Config.Key;
    ReachableIsSafe(cfg, s);
  }
}
