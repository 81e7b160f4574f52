/**
 What each event leaves behind, read off the states before and after it: rows field by field, jobs
 by their number in the queue. Nothing is said here through the transaction functions themselves.
 */
module Steps {
  import opened Options
  import opened Ndjson
  import opened Rows
  import opened Planning
  import opened Keys
  import opened Pipeline
  import opened Sums
  import opened Invariants
  import opened Lifecycle
  import opened Refinement
  import opened Counters
  import Progress

  // ---- The environment -------------------------------------------------------------------

  /**
   The environment is free: jobs may be duplicated or lost, the batch cancelled, leases reclaimed,
   runs killed and checks interrupted at any time.
   */
  lemma EnvironmentIsFree(cfg: Config, s: State)
    ensures Enabled(cfg, s, Cancel) && Enabled(cfg, s, Reclaim)
    ensures forall time | time >= s.now :: Enabled(cfg, s, Tick(time))
    ensures forall job :: Enabled(cfg, s, Redeliver(job))
    ensures forall job | job in s.queue :: Enabled(cfg, s, Lose(job))
    ensures forall run | run in s.runs :: Enabled(cfg, s, Crash(run))
    ensures s.scans > 0 ==> forall redelivered :: Enabled(cfg, s, CheckCrash(redelivered))
  {
    hide ItemsRead, NoneCancelled;
  }

  /** And any run may raise, whatever it has done so far. */
  lemma AnyRunCanRaise(cfg: Config, s: State, run: nat)
    requires cfg.Valid() && Safe(cfg, s) && run in s.runs
    ensures Enabled(cfg, s, CommitFailure(run))
  {
    hide Safe, Codec.Valid, ItemsRead, NoneCancelled, Config.Slots;
    RunHasSlot(cfg, s, run);
  }

  /** Whatever job is queued can be taken: there is an event for each. */
  lemma QueuedJobsRun(cfg: Config, s: State)
    requires cfg.chunkSize >= 1
    ensures OrchestrateJob in s.queue ==> Enabled(cfg, s, Orchestrate)
    ensures forall i: nat | ProcessJob(i) in s.queue :: Enabled(cfg, s, Start(i))
    ensures CheckJob in s.queue ==> Enabled(cfg, s, CheckScan)
    ensures s.scans > 0 ==> Enabled(cfg, s, CheckRequeue)
    ensures FinalizeJob in s.queue ==> Enabled(cfg, s, Finalize)
    ensures forall hook, ok | WebhookJob(hook) in s.queue :: Enabled(cfg, s, Deliver(hook, ok))
  {
    hide ItemsRead, NoneCancelled;
  }

  /** What it does is no more than that. */
  lemma EnvironmentSteps(cfg: Config, s: State, e: Event)
    requires Enabled(cfg, s, e)
    ensures e.Tick? ==> Next(cfg, s, e) == s.(now := e.time)
    ensures e.Redeliver? ==> Next(cfg, s, e) == s.(queue := s.queue + multiset{e.job})
    ensures e.Lose? ==> Next(cfg, s, e) == s.(queue := s.queue - multiset{e.job})
    ensures e.Crash? ==> Next(cfg, s, e) == s.(runs := s.runs - {e.run})
    ensures e.CheckCrash? ==>
              Next(cfg, s, e) == s.(scans := s.scans - 1,
                                    queue := s.queue + if e.redelivered then multiset{CheckJob} else multiset{})
  {
    hide OrchestrateBatch, StartRun, GatherOutcomes, WriteCheckpoint, CommitSucceeded, CommitAborted, CommitFailed,
         ScanCompletion, RequeuePending, FinalizeBatch, DeliverHook, CancelBatch, ReclaimAll;
    assert s.queue + multiset{} == s.queue;
  }

  // ---- Cancelling ------------------------------------------------------------------------

  /** Cancelling cancels a batch that has not ended, leaves one that has alone, and touches nothing else. */
  lemma CancelEnds(cfg: Config, s: State)
    ensures Enabled(cfg, s, Cancel)
    ensures var t, status := Next(cfg, s, Cancel), s.batch.status;
            && t == s.(batch := s.batch.(status := t.batch.status))
            && (status == BatchPending || status == Running ==> t.batch.status == BatchCancelled)
            && (status != BatchPending && status != Running ==> t.batch.status == status)
            && t.batch.status in {Completed, BatchFailed, BatchCancelled}
  {
    hide OrchestrateBatch, StartRun, GatherOutcomes, WriteCheckpoint, CommitSucceeded, CommitAborted, CommitFailed,
         ScanCompletion, RequeuePending, FinalizeBatch, DeliverHook, ReclaimAll;
  }

  /** From s to t no run starts, no row gains an attempt, and neither result object is written. */
  ghost predicate Inert(cfg: Config, s: State, t: State) {
    && t.batch.status == BatchCancelled
    && t.nextRun == s.nextRun
    && (forall i | 0 <= i < |t.chunks| :: i < |s.chunks| && t.chunks[i].attempts == s.chunks[i].attempts)
    && SameObject(s.objects, t.objects, ResultsKey(cfg.batchId))
    && SameObject(s.objects, t.objects, ManifestKey(cfg.batchId))
  }

  predicate SameObject(before: map<string, Bytes>, after: map<string, Bytes>, key: string) {
    (key in after <==> key in before) && (key in before ==> after[key] == before[key])
  }

  lemma StartOfCancelled(cfg: Config, s: State, i: nat)
    requires s.batch.status == BatchCancelled
    ensures Inert(cfg, s, StartRun(cfg, s, i))
  {
    hide Leasable;
  }

  lemma OrchestrateOfCancelled(cfg: Config, s: State)
    requires s.batch.status == BatchCancelled && cfg.chunkSize >= 1
    ensures Inert(cfg, s, OrchestrateBatch(cfg, s))
  {
    hide JobsFor, ReclaimAll, CreateChunkRows;
  }

  lemma ScanOfCancelled(cfg: Config, s: State)
    requires s.batch.status == BatchCancelled
    ensures Inert(cfg, s, ScanCompletion(s))
  {
    hide Conclude, ReclaimAll, ActOn;
  }

  lemma FinalizeOfCancelled(cfg: Config, s: State)
    requires s.batch.status == BatchCancelled
    ensures Inert(cfg, s, FinalizeBatch(cfg, s))
  {
    hide Publish, AllSucceeded;
  }

  lemma CheckpointOfCancelled(cfg: Config, s: State, run: nat)
    requires s.batch.status == BatchCancelled && run in s.runs && s.runs[run].phase.Gathered?
    ensures Inert(cfg, s, WriteCheckpoint(cfg, s, run))
  {
    hide Codec.Written, CountOk;
    KeysAreDistinct(cfg.batchId);
  }

  lemma CommitsOfCancelled(cfg: Config, s: State, run: nat)
    requires s.batch.status == BatchCancelled && run in s.runs && s.runs[run].chunk < |s.chunks|
    ensures s.runs[run].phase.Checkpointed? ==> Inert(cfg, s, CommitSucceeded(cfg, s, run))
    ensures Inert(cfg, s, CommitAborted(s, run)) && Inert(cfg, s, CommitFailed(cfg, s, run))
  {
    hide Sum, SameObject, ResultsKey, ManifestKey;
    SameStore(s.objects, ResultsKey(cfg.batchId));
    SameStore(s.objects, ManifestKey(cfg.batchId));
  }

  lemma SameStore(objects: map<string, Bytes>, key: string)
    ensures SameObject(objects, objects, key)
  {
  }

  lemma QuietOfCancelled(cfg: Config, s: State, t: State)
    requires s.batch.status == BatchCancelled && t.batch.status == BatchCancelled
    requires t.nextRun == s.nextRun && t.objects == s.objects
    requires t.chunks == s.chunks || t.chunks == ReclaimAll(s.chunks, s.now)
    ensures Inert(cfg, s, t)
  {
  }

  lemma DeliverOfCancelled(cfg: Config, s: State, hook: Hook, ok: bool)
    requires s.batch.status == BatchCancelled
    ensures Inert(cfg, s, DeliverHook(cfg, s, hook, ok))
  {
    hide SameObject, ResultsKey, ManifestKey;
    SameStore(s.objects, ResultsKey(cfg.batchId));
    SameStore(s.objects, ManifestKey(cfg.batchId));
  }

  lemma StepOfCancelled(cfg: Config, s: State, e: Event)
    requires s.batch.status == BatchCancelled && Enabled(cfg, s, e)
    ensures Inert(cfg, s, Next(cfg, s, e))
  {
    hide OrchestrateBatch, StartRun, WriteCheckpoint, CommitSucceeded, CommitAborted, CommitFailed, ScanCompletion,
         FinalizeBatch, DeliverHook, ReclaimAll, Inert, ItemsRead, NoneCancelled, JobsFor, SortByIndex;
    match e {
      case Start(i) => StartOfCancelled(cfg, s, i);
      case Orchestrate => OrchestrateOfCancelled(cfg, s);
      case CheckScan => ScanOfCancelled(cfg, s);
      case Finalize => FinalizeOfCancelled(cfg, s);
      case Checkpoint(run) => CheckpointOfCancelled(cfg, s, run);
      case CommitSuccess(run) => CommitsOfCancelled(cfg, s, run);
      case CommitCancelled(run) => CommitsOfCancelled(cfg, s, run);
      case CommitFailure(run) => CommitsOfCancelled(cfg, s, run);
      case Deliver(hook, ok) => DeliverOfCancelled(cfg, s, hook, ok);
      case _ => QuietOfCancelled(cfg, s, Next(cfg, s, e));
    }
  }

  lemma SameObjectTwice(a: map<string, Bytes>, b: map<string, Bytes>, c: map<string, Bytes>, key: string)
    requires SameObject(a, b, key) && SameObject(b, c, key)
    ensures SameObject(a, c, key)
  {
  }

  lemma InertTwice(cfg: Config, s: State, t: State, u: State)
    requires Inert(cfg, s, t) && Inert(cfg, t, u)
    ensures Inert(cfg, s, u)
  {
    hide SameObject, ResultsKey, ManifestKey;
    SameObjectTwice(s.objects, t.objects, u.objects, ResultsKey(cfg.batchId));
    SameObjectTwice(s.objects, t.objects, u.objects, ManifestKey(cfg.batchId));
    forall i | 0 <= i < |u.chunks| ensures i < |s.chunks| && u.chunks[i].attempts == s.chunks[i].attempts {
      assert u.chunks[i].attempts == t.chunks[i].attempts;
      assert t.chunks[i].attempts == s.chunks[i].attempts;
    }
  }

  /**
   Cancelling is final: whatever happens to a cancelled batch, it stays cancelled, none of its
   chunks is started again, and neither results.ndjson nor the manifest is ever written.
   */
  lemma {:induction false} CancelledIsInert(cfg: Config, s: State, es: seq<Event>)
    requires s.batch.status == BatchCancelled && Feasible(cfg, s, es)
    ensures Inert(cfg, s, Exec(cfg, s, es))
  {
    hide Inert, Next, Enabled;
    if es == [] {
      QuietOfCancelled(cfg, s, s);
    } else {
      var front := es[..|es| - 1];
      CancelledIsInert(cfg, s, front);
      CancelledStatus(cfg, s, Exec(cfg, s, front));
      StepOfCancelled(cfg, Exec(cfg, s, front), es[|es| - 1]);
      InertTwice(cfg, s, Exec(cfg, s, front), Exec(cfg, s, es));
    }
  }

  lemma CancelledStatus(cfg: Config, s: State, t: State)
    requires Inert(cfg, s, t)
    ensures t.batch.status == BatchCancelled
  {
  }

  // ---- A chunk run -----------------------------------------------------------------------

  /** Whether a row can be leased: not done, not failed for good, and no lease on it that still runs. */
  predicate Open(c: Chunk, now: int, maxAttempts: int) {
    match c.status
    case ChunkPending => true
    case Leased => c.leasedUntil.None? || c.leasedUntil.value <= now
    case Succeeded => false
    case ChunkFailed => c.attempts < maxAttempts
  }

  /**
   A process job starts a run exactly if the batch has not ended and the row is open; a lease can be
   taken over from its deadline on. The new run gets the lease, the attempt and, from the second
   attempt on, the retry are counted, and nothing else changes. Otherwise the job is just dropped.
   */
  lemma StartLeases(cfg: Config, s: State, i: nat)
    requires Enabled(cfg, s, Start(i))
    ensures var t, status := Next(cfg, s, Start(i)), s.batch.status;
            && t.queue == s.queue - multiset{ProcessJob(i)}
            && if (status == BatchPending || status == Running) && i < |s.chunks|
                  && Open(s.chunks[i], s.now, cfg.maxAttempts) then
                 var c, deadline := s.chunks[i], s.now + cfg.leaseSeconds;
                 var row := Chunk(c.slot, Leased, c.attempts + 1, Some(deadline), c.resultKey, c.okCount, c.failCount);
                 var retries := s.batch.retryCount + if c.attempts >= 1 then 1 else 0;
                 t == s.(queue := t.queue, chunks := s.chunks[i := row], batch := s.batch.(retryCount := retries),
                         runs := s.runs[s.nextRun := Run(i, deadline, Working)], nextRun := s.nextRun + 1)
               else t == s.(queue := t.queue)
  {
    hide Next, Enabled;
    JobOfStart(cfg, s, i);
    NextOfStart(cfg, s, i);
  }

  /** A committed run that nudges leaves one more completion check behind, and is over. */
  lemma NudgeChecks(cfg: Config, s: State, run: nat)
    requires Enabled(cfg, s, Nudge(run))
    ensures Next(cfg, s, Nudge(run)) == s.(runs := s.runs - {run}, queue := s.queue + multiset{CheckJob})
  {
    hide OrchestrateBatch, StartRun, GatherOutcomes, WriteCheckpoint, CommitSucceeded, CommitAborted, CommitFailed,
         ScanCompletion, RequeuePending, FinalizeBatch, DeliverHook, ReclaimAll, CancelBatch;
  }

  /** A run that saw the batch cancelled gives its chunk back, free to be leased, and is over. */
  lemma AbortFrees(cfg: Config, s: State, run: nat)
    requires Enabled(cfg, s, CommitCancelled(run))
    ensures var t, i := Next(cfg, s, CommitCancelled(run)), s.runs[run].chunk;
            && t == s.(runs := s.runs - {run}, chunks := s.chunks[i := t.chunks[i]])
            && t.chunks[i] == s.chunks[i].(status := ChunkPending, leasedUntil := None)
            && Open(t.chunks[i], t.now, cfg.maxAttempts)
  {
    hide OrchestrateBatch, StartRun, GatherOutcomes, WriteCheckpoint, CommitSucceeded, CommitFailed, ScanCompletion,
         RequeuePending, FinalizeBatch, DeliverHook, ReclaimAll, CancelBatch;
  }

  /**
   A run that raises is over. With attempts left its chunk is pending again and has one more process
   job. With none left a running batch fails together with the row, and one `batch.failed` delivery
   is queued; of a batch that is not running nothing changes.
   */
  lemma FailureLeaves(cfg: Config, s: State, run: nat)
    requires Enabled(cfg, s, CommitFailure(run))
    ensures var t, i := Next(cfg, s, CommitFailure(run)), s.runs[run].chunk;
            var c, over := s.chunks[i], s.(runs := s.runs - {run});
            if c.attempts < cfg.maxAttempts then
              t == over.(chunks := s.chunks[i := c.(status := ChunkPending, leasedUntil := None)],
                         queue := s.queue + multiset{ProcessJob(i)})
            else if s.batch.status == Running then
              t == over.(chunks := s.chunks[i := c.(status := ChunkFailed, leasedUntil := None)],
                         batch := s.batch.(status := BatchFailed), queue := s.queue + multiset{WebhookJob(FailedHook)})
            else t == over
  {
    hide OrchestrateBatch, StartRun, GatherOutcomes, WriteCheckpoint, CommitSucceeded, CommitAborted, ScanCompletion,
         RequeuePending, FinalizeBatch, DeliverHook, ReclaimAll, CancelBatch;
  }

  /**
   A retry follows: the job that a raising run leaves behind starts a new run of the same chunk, with
   one attempt more and a full lease, and is gone then.
   */
  lemma RetryFollowsFailure(cfg: Config, s: State, run: nat)
    requires Enabled(cfg, s, CommitFailure(run)) && (s.batch.status == BatchPending || s.batch.status == Running)
    requires s.chunks[s.runs[run].chunk].attempts < cfg.maxAttempts
    ensures var t, i := Next(cfg, s, CommitFailure(run)), s.runs[run].chunk;
            && Enabled(cfg, t, Start(i))
            && var u := Next(cfg, t, Start(i));
            && s.nextRun in u.runs && u.runs[s.nextRun] == Run(i, s.now + cfg.leaseSeconds, Working)
            && (run != s.nextRun ==> run !in u.runs)
            && i < |u.chunks| == |s.chunks| && u.chunks[i].attempts == s.chunks[i].attempts + 1
            && (forall j | 0 <= j < |s.chunks| && j != i :: u.chunks[j] == s.chunks[j])
            && u.queue == s.queue
  {
    var t, i := Next(cfg, s, CommitFailure(run)), s.runs[run].chunk;
    hide Next, Enabled;
    RunOfFailure(cfg, s, run);
    FailureLeaves(cfg, s, run);
    NextOfStart(cfg, t, i);
    StartLeases(cfg, t, i);
  }

  lemma RunOfFailure(cfg: Config, s: State, run: nat)
    requires Enabled(cfg, s, CommitFailure(run))
    ensures run in s.runs && s.runs[run].chunk < |s.chunks|
  {
  }

  /**
   Committing a success records the checkpoint in the row and frees its lease, and brings progress up
   to date: it is exactly the items of the succeeded chunks, whatever it was before.
   */
  lemma SuccessRecords(cfg: Config, s: State, run: nat)
    requires cfg.Valid() && Safe(cfg, s) && Enabled(cfg, s, CommitSuccess(run))
    ensures var t, r := Next(cfg, s, CommitSuccess(run)), s.runs[run];
            && t == s.(runs := s.runs[run := Run(r.chunk, r.deadline, Committed)], batch := t.batch,
                       chunks := s.chunks[r.chunk :=
                         Chunk(s.chunks[r.chunk].slot, Succeeded, s.chunks[r.chunk].attempts, None,
                               Some(cfg.Key(r.chunk)), r.phase.okCount, r.phase.failCount)])
            && t.batch == s.batch.(completedItems := DoneItems(t.chunks), failedItems := FailedItems(t.chunks))
  {
    var t := Next(cfg, s, CommitSuccess(run));
    hide Next, Enabled, Safe, Sum, Codec.Valid;
    StepIsSafe(cfg, s, CommitSuccess(run));
    NextOfSuccess(cfg, s, run);
    SuccessUpdates(cfg, s, run);
    RetriesAreExact(cfg, s);
    RetriesAreExact(cfg, t);
    SameRetries(s.chunks, t.chunks);
  }

  lemma RetriesAreExact(cfg: Config, s: State)
    requires cfg.chunkSize >= 1 && Safe(cfg, s)
    ensures s.batch.retryCount == Sum(Retries, s.chunks)
  {
    hide RowsFit, StoreSound, Backed, RunsSound, LifecycleSound, ResultsSound, Sum;
  }

  lemma SameRetries(a: seq<Chunk>, b: seq<Chunk>)
    requires |a| == |b| && forall i | 0 <= i < |a| :: a[i].attempts == b[i].attempts
    ensures Sum(Retries, a) == Sum(Retries, b)
  {
    SumSame(Retries, a, b);
  }

  // ---- Bulk updates ----------------------------------------------------------------------

  /** Exactly the leased rows whose deadline has passed are pending again; a deadline that is now has not. */
  predicate Reclaimed(before: seq<Chunk>, after: seq<Chunk>, now: int) {
    && |after| == |before|
    && forall i | 0 <= i < |after| ::
         if before[i].status == Leased && before[i].leasedUntil.Some? && before[i].leasedUntil.value < now then
           after[i] == before[i].(status := ChunkPending, leasedUntil := None)
         else after[i] == before[i]
  }

  lemma ReclaimAllReclaims(chunks: seq<Chunk>, now: int)
    ensures Reclaimed(chunks, ReclaimAll(chunks, now), now)
  {
  }

  lemma ReclaimReclaims(cfg: Config, s: State)
    ensures Enabled(cfg, s, Reclaim)
    ensures var t := Next(cfg, s, Reclaim);
            t == s.(chunks := t.chunks) && Reclaimed(s.chunks, t.chunks, s.now)
  {
    hide OrchestrateBatch, StartRun, GatherOutcomes, WriteCheckpoint, CommitSucceeded, CommitAborted, CommitFailed,
         ScanCompletion, RequeuePending, FinalizeBatch, DeliverHook, ReclaimAll, CancelBatch, Reclaimed;
    ReclaimAllReclaims(s.chunks, s.now);
  }

  /** A chunk that a process job is queued for: a pending one, or any that has not succeeded. */
  predicate Due(c: Chunk, pendingOnly: bool) {
    if pendingOnly then c.status == ChunkPending else c.status != Succeeded
  }

  lemma {:induction false} JobsForCount(chunks: seq<Chunk>, k: nat, pendingOnly: bool, i: nat)
    requires k <= |chunks|
    ensures JobsFor(chunks, k, pendingOnly)[ProcessJob(i)] == if i < k && Due(chunks[i], pendingOnly) then 1 else 0
  {
    if k > 0 {
      JobsForCount(chunks, k - 1, pendingOnly, i);
    }
  }

  /** The queue has gained one process job for each chunk that is due, one completion check, and no more. */
  ghost predicate Queued(before: multiset<Job>, after: multiset<Job>, chunks: seq<Chunk>, pendingOnly: bool) {
    && (forall i: nat ::
          after[ProcessJob(i)] ==
          before[ProcessJob(i)] + if i < |chunks| && Due(chunks[i], pendingOnly) then 1 else 0)
    && (forall job: Job | !job.ProcessJob? :: after[job] == before[job] + if job == CheckJob then 1 else 0)
  }

  lemma JobsAreQueued(before: multiset<Job>, chunks: seq<Chunk>, pendingOnly: bool)
    ensures Queued(before, before + JobsFor(chunks, |chunks|, pendingOnly) + multiset{CheckJob}, chunks, pendingOnly)
  {
    hide JobsFor;
    var jobs := JobsFor(chunks, |chunks|, pendingOnly);
    JobsForAreProcessJobs(chunks, |chunks|, pendingOnly);
    forall i: nat
      ensures jobs[ProcessJob(i)] == if i < |chunks| && Due(chunks[i], pendingOnly) then 1 else 0
    {
      JobsForCount(chunks, |chunks|, pendingOnly, i);
    }
    assert forall job: Job | !job.ProcessJob? :: job !in jobs;
  }

  /** The second half of a check requeues exactly what is pending, and checks again once. */
  lemma RequeueQueues(cfg: Config, s: State)
    requires Enabled(cfg, s, CheckRequeue)
    ensures var t := Next(cfg, s, CheckRequeue);
            && t == s.(chunks := t.chunks, queue := t.queue, scans := s.scans - 1)
            && Reclaimed(s.chunks, t.chunks, s.now)
            && Queued(s.queue, t.queue, t.chunks, true)
  {
    hide Next, ReclaimAll, JobsFor, Reclaimed, Queued;
    ScansOfRequeue(cfg, s);
    Progress.NextOfRequeue(cfg, s);
    ReclaimAllReclaims(s.chunks, s.now);
    JobsAreQueued(s.queue, ReclaimAll(s.chunks, s.now), true);
  }

  lemma ScansOfRequeue(cfg: Config, s: State)
    requires Enabled(cfg, s, CheckRequeue)
    ensures s.scans > 0
  {
  }

  /** A row of a planned chunk before its first run. */
  predicate Untried(c: Chunk, slot: Slot) {
    && c.slot == slot && c.status == ChunkPending && c.attempts == 0 && c.leasedUntil == None
    && c.resultKey == None && c.okCount == 0 && c.failCount == 0
  }

  predicate Planned(chunks: seq<Chunk>, slots: seq<Slot>) {
    |chunks| == |slots| && forall i | 0 <= i < |chunks| :: Untried(chunks[i], slots[i])
  }

  /**
   Orchestrating sets a batch that has not ended running, plans its rows if there are none and
   otherwise reclaims them, and queues one job for each chunk that has not succeeded, and one check.
   */
  lemma OrchestrateQueues(cfg: Config, s: State)
    requires Enabled(cfg, s, Orchestrate)
    ensures var t, status := Next(cfg, s, Orchestrate), s.batch.status;
            var taken := s.queue - multiset{OrchestrateJob};
            if status == BatchPending || status == Running then
              && t == s.(batch := s.batch.(status := Running), chunks := t.chunks, queue := t.queue)
              && Queued(taken, t.queue, t.chunks, false)
              && if s.chunks != [] then Reclaimed(s.chunks, t.chunks, s.now) else Planned(t.chunks, cfg.Slots())
            else t == s.(queue := taken)
  {
    hide Next, ReclaimAll, JobsFor, Reclaimed, Queued, Config.Slots, CreateChunkRows;
    JobOfOrchestrate(cfg, s);
    Progress.NextOfOrchestrate(cfg, s);
    if !Ended(s.batch.status) {
      var rows := CreateChunkRows(cfg, s.chunks);
      RowsCreated(cfg, s.chunks);
      ReclaimAllReclaims(rows, s.now);
      JobsAreQueued(s.queue - multiset{OrchestrateJob}, ReclaimAll(rows, s.now), false);
      if s.chunks == [] {
        UntriedStay(cfg.Slots(), rows, ReclaimAll(rows, s.now), s.now);
      }
    }
  }

  lemma JobOfOrchestrate(cfg: Config, s: State)
    requires Enabled(cfg, s, Orchestrate)
    ensures OrchestrateJob in s.queue && cfg.chunkSize >= 1
  {
  }

  lemma RowsCreated(cfg: Config, chunks: seq<Chunk>)
    requires cfg.chunkSize >= 1
    ensures var rows := CreateChunkRows(cfg, chunks);
            if chunks != [] then rows == chunks else Planned(rows, cfg.Slots())
  {
    hide Config.Slots;
  }

  lemma UntriedStay(slots: seq<Slot>, rows: seq<Chunk>, after: seq<Chunk>, now: int)
    requires Planned(rows, slots) && Reclaimed(rows, after, now)
    ensures Planned(after, slots)
  {
  }

  /**
   The first half of a check takes its job, reclaims, and concludes from the rows: all succeeded, one
   finalize job; else a requeue to come. The batch row it leaves alone.
   */
  lemma ScanConcludes(cfg: Config, s: State)
    requires cfg.Valid() && Safe(cfg, s) && Enabled(cfg, s, CheckScan)
    ensures var t, taken := Next(cfg, s, CheckScan), s.queue - multiset{CheckJob};
            if s.batch.status == Running then
              && Reclaimed(s.chunks, t.chunks, s.now)
              && if forall i | 0 <= i < |t.chunks| :: t.chunks[i].status == Succeeded
                 then t == s.(chunks := t.chunks, queue := taken + multiset{FinalizeJob})
                 else t == s.(chunks := t.chunks, queue := taken, scans := s.scans + 1)
            else t == s.(queue := taken)
  {
    hide Next, ReclaimAll, Reclaimed, Safe, Conclude, Codec.Valid;
    JobOfScan(cfg, s);
    Progress.NextOfScan(cfg, s);
    ReclaimAllReclaims(s.chunks, s.now);
    if s.batch.status == Running {
      Progress.ReclaimedConclusion(cfg, s);
    } else if s.batch.status == BatchPending {
      PendingConcludesNothing(cfg, s);
    }
  }

  lemma JobOfScan(cfg: Config, s: State)
    requires Enabled(cfg, s, CheckScan)
    ensures CheckJob in s.queue
  {
  }

  lemma PendingConcludesNothing(cfg: Config, s: State)
    requires cfg.Valid() && Safe(cfg, s) && s.batch.status == BatchPending
    ensures s.chunks == [] == ReclaimAll(s.chunks, s.now) && Conclude(ReclaimAll(s.chunks, s.now)) == NothingToDo
  {
    ConcludeMeans([]);
  }

  // ---- Finalizing ------------------------------------------------------------------------

  /** What finalizing writes: the checkpoints end to end, and a manifest copied from the rows. */
  ghost predicate Published(cfg: Config, s: State, objects: map<string, Bytes>) {
    var rkey, mkey := ResultsKey(cfg.batchId), ManifestKey(cfg.batchId);
    && (forall key | key != rkey && key != mkey :: SameObject(s.objects, objects, key))
    && rkey in objects && Lines(objects[rkey]) == LinesOfEach(Parts(cfg, s.objects, |s.chunks|))
    && mkey in objects && Copies(cfg, s, cfg.codec.decManifest(objects[mkey]))
  }

  /** A manifest that copies the batch's counters, and from each row its key, counts and attempts. */
  predicate Copies(cfg: Config, s: State, m: Manifest) {
    && m.completedItems == s.batch.completedItems && m.failedItems == s.batch.failedItems
    && m.retryCount == s.batch.retryCount && |m.chunks| == |s.chunks|
    && forall i | 0 <= i < |s.chunks| ::
         m.chunks[i] ==
         ManifestEntry(i, Some(cfg.Key(i)), s.chunks[i].okCount, s.chunks[i].failCount, s.chunks[i].attempts)
  }

  /**
   Finalizing takes its job. A batch that has completed or was cancelled it leaves alone; one whose
   chunks have not all succeeded gets another check; any other is published and completed, and one
   `batch.completed` delivery is queued.
   */
  lemma FinalizePublishes(cfg: Config, s: State)
    requires cfg.Valid() && Safe(cfg, s) && Enabled(cfg, s, Finalize)
    ensures var t, taken := Next(cfg, s, Finalize), s.queue - multiset{FinalizeJob};
            if s.batch.status == Completed || s.batch.status == BatchCancelled then t == s.(queue := taken)
            else if s.chunks == [] || exists i :: 0 <= i < |s.chunks| && s.chunks[i].status != Succeeded then
              t == s.(queue := taken + multiset{CheckJob})
            else
              && t == s.(queue := taken + multiset{WebhookJob(CompletedHook)}, objects := t.objects,
                         batch := s.batch.(status := Completed, resultsKey := Some(ResultsKey(cfg.batchId)),
                                           manifestKey := Some(ManifestKey(cfg.batchId))))
              && Published(cfg, s, t.objects)
  {
    hide Next, Safe, Published, ResultsBody, ManifestOf, Codec.Valid;
    JobOfFinalize(cfg, s);
    Progress.NextOfFinalize(cfg, s);
    if s.chunks != [] && AllSucceeded(s.chunks) {
      ManifestCopies(cfg, s);
      PublishedObjects(cfg, s);
    }
  }

  lemma JobOfFinalize(cfg: Config, s: State)
    requires Enabled(cfg, s, Finalize)
    ensures FinalizeJob in s.queue
  {
  }

  lemma ManifestCopies(cfg: Config, s: State)
    requires cfg.Valid() && Safe(cfg, s) && s.chunks != [] && AllSucceeded(s.chunks)
    ensures Copies(cfg, s, ManifestOf(cfg, s.batch, s.chunks))
    ensures Lines(ResultsBody(s.objects, s.chunks)) == LinesOfEach(Parts(cfg, s.objects, |s.chunks|))
  {
    hide StoreSound, Backed, RunsSound, CountersSound, LifecycleSound, ResultsSound, Config.Slots, Config.Key, Lines,
         LinesOfEach, Concatenation, Codec.Valid, FetchAll, ResultKeys, Parts;
    PlanIsNotEmpty(cfg);
    forall i | 0 <= i < |s.chunks|
      ensures s.chunks[i].slot.index == i && s.chunks[i].resultKey == Some(cfg.Key(i))
    {
      assert RowFits(cfg, s.chunks[i], i);
    }
    PartsAreFetched(cfg, s.objects, s.chunks);
    LinesOfConcatenation(Parts(cfg, s.objects, |s.chunks|));
  }

  lemma PublishedObjects(cfg: Config, s: State)
    requires cfg.Valid() && Copies(cfg, s, ManifestOf(cfg, s.batch, s.chunks))
    requires Lines(ResultsBody(s.objects, s.chunks)) == LinesOfEach(Parts(cfg, s.objects, |s.chunks|))
    ensures Published(cfg, s, Publish(cfg, Consume(s, FinalizeJob)).objects)
  {
    hide ManifestOf, Copies, ResultsBody, Lines, LinesOfEach, Parts, Config.Key;
    KeysAreDistinct(cfg.batchId);
  }
}
