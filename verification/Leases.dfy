/**
 Lease exclusion. Under the assumption that every run ends or dies before its lease deadline, each
 chunk has at most one live run, settled rows do not change except when the nudge after a success
 fails, a failed batch stays failed, and the counts match the checkpoints.
 */
module Leases {
  import opened Options
  import opened Ndjson
  import opened Rows
  import opened Keys
  import opened Pipeline
  import opened Invariants
  import opened Lifecycle
  import opened Refinement

  /** No live run has reached its lease deadline. */
  ghost predicate Timely(s: State) {
    forall r | r in s.runs :: s.now < s.runs[r].deadline
  }

  ghost predicate TimelyRun(cfg: Config, s: State, es: seq<Event>)
    requires Feasible(cfg, s, es)
  {
    Timely(Exec(cfg, s, es)) && (es != [] ==> TimelyRun(cfg, s, es[..|es| - 1]))
  }

  /** A run holds its chunk's lease until it has committed its success; then the row is succeeded. */
  ghost predicate HoldsLease(s: State, r: Run) {
    && r.chunk < |s.chunks|
    && if r.phase.Committed? then s.chunks[r.chunk].status.Succeeded?
       else s.chunks[r.chunk].status.Leased? && s.chunks[r.chunk].leasedUntil == Some(r.deadline)
  }

  /** The exception handler of a run whose success is already committed: its nudge has failed. */
  predicate NudgeFails(s: State, e: Event) {
    e.CommitFailure? && e.run in s.runs && s.runs[e.run].phase.Committed?
  }

  /** No run's nudge fails after its success was committed. */
  ghost predicate NudgesArrive(cfg: Config, s: State, es: seq<Event>)
    requires Feasible(cfg, s, es)
  {
    es == [] || (
      && NudgesArrive(cfg, s, es[..|es| - 1])
      && !NudgeFails(Exec(cfg, s, es[..|es| - 1]), es[|es| - 1]))
  }

  /** Every live run holds its chunk's lease or has finished it, and no two runs share a chunk. */
  ghost predicate Exclusive(s: State) {
    && (forall r | r in s.runs :: HoldsLease(s, s.runs[r]))
    && (forall r, q | r in s.runs && q in s.runs && s.runs[r].chunk == s.runs[q].chunk :: r == q)
  }

  predicate Settled(c: Chunk) {
    c.status.Succeeded? || c.status.ChunkFailed?
  }

  /** The counts of chunk i are those of the rows in its checkpoint object. */
  ghost predicate CountsMatch(cfg: Config, objects: map<string, Bytes>, i: nat, okCount: nat, failCount: nat) {
    && cfg.Key(i) in objects
    && okCount == CountOk(cfg.codec.RowsIn(objects[cfg.Key(i)]))
    && failCount == |cfg.codec.RowsIn(objects[cfg.Key(i)])| - okCount
  }

  ghost predicate RunMatches(cfg: Config, objects: map<string, Bytes>, r: Run) {
    r.phase.Checkpointed? ==> CountsMatch(cfg, objects, r.chunk, r.phase.okCount, r.phase.failCount)
  }

  ghost predicate RowMatches(cfg: Config, objects: map<string, Bytes>, c: Chunk, i: nat) {
    c.status.Succeeded? ==> CountsMatch(cfg, objects, i, c.okCount, c.failCount)
  }

  ghost predicate Matching(cfg: Config, s: State) {
    && (forall r | r in s.runs :: RunMatches(cfg, s.objects, s.runs[r]))
    && (forall i | 0 <= i < |s.chunks| :: RowMatches(cfg, s.objects, s.chunks[i], i))
  }

  // ---- Exclusion -------------------------------------------------------------------------

  /** Runs that keep their chunk, deadline and side of the commit, on rows that have not changed. */
  ghost predicate RunsKept(s: State, t: State) {
    forall r | r in t.runs ::
      && r in s.runs && t.runs[r].chunk == s.runs[r].chunk && t.runs[r].deadline == s.runs[r].deadline
      && t.runs[r].phase.Committed? == s.runs[r].phase.Committed?
      && (var i := s.runs[r].chunk; i < |s.chunks| ==> i < |t.chunks| && t.chunks[i] == s.chunks[i])
  }

  lemma KeptRunsExclude(s: State, t: State)
    requires Exclusive(s) && RunsKept(s, t)
    ensures Exclusive(t)
  {
    forall r | r in t.runs ensures HoldsLease(t, t.runs[r]) {
      assert HoldsLease(s, s.runs[r]);
    }
  }

  lemma BulkExcludes(s: State, t: State)
    requires Exclusive(s) && Timely(s)
    requires t.chunks == ReclaimAll(s.chunks, s.now) && t.runs == s.runs
    ensures Exclusive(t)
    ensures forall i | 0 <= i < |s.chunks| && Settled(s.chunks[i]) :: t.chunks[i] == s.chunks[i]
  {
    forall r | r in t.runs
      ensures s.runs[r].chunk < |s.chunks| && t.chunks[s.runs[r].chunk] == s.chunks[s.runs[r].chunk]
    {
      assert HoldsLease(s, s.runs[r]);
    }
    KeptRunsExclude(s, t);
  }

  lemma StartExcludes(cfg: Config, s: State, i: nat)
    requires cfg.Valid() && Safe(cfg, s) && Exclusive(s) && Timely(s)
    ensures Exclusive(StartRun(cfg, s, i))
  {
    hide Safe, StartRun, Leasable, Exclusive, Timely, Codec.Valid;
    var t := StartRun(cfg, s, i);
    StartCases(cfg, s, i);
    if CanStart(cfg, s, i) {
      FreshRunId(cfg, s);
      LeasableIsUnheld(cfg, s, i);
      NewRunExcludes(s, t, i, LeaseRow(s.chunks[i], s.now + cfg.leaseSeconds), s.now + cfg.leaseSeconds);
    } else {
      SameRunsExclude(s, t);
    }
  }

  lemma SameRunsExclude(s: State, t: State)
    requires Exclusive(s) && t.chunks == s.chunks && t.runs == s.runs
    ensures Exclusive(t)
  {
    KeptRunsExclude(s, t);
  }

  /** No run is live on a chunk that can be leased. */
  lemma LeasableIsUnheld(cfg: Config, s: State, i: nat)
    requires Exclusive(s) && Timely(s) && i < |s.chunks| && Leasable(s.chunks[i], s.now, cfg.maxAttempts)
    ensures forall r | r in s.runs :: s.runs[r].chunk != i
  {
    forall r | r in s.runs ensures s.runs[r].chunk != i {
      assert HoldsLease(s, s.runs[r]);
    }
  }

  lemma NewRunExcludes(s: State, t: State, i: nat, c: Chunk, deadline: int)
    requires Exclusive(s) && i < |s.chunks| && s.nextRun !in s.runs
    requires forall r | r in s.runs :: s.runs[r].chunk != i
    requires c.status.Leased? && c.leasedUntil == Some(deadline)
    requires t.chunks == s.chunks[i := c] && t.runs == s.runs[s.nextRun := Run(i, deadline, Working)]
    ensures Exclusive(t)
  {
    forall r | r in t.runs ensures HoldsLease(t, t.runs[r]) {
      assert r in s.runs ==> HoldsLease(s, s.runs[r]);
    }
  }

  lemma FreshRunId(cfg: Config, s: State)
    requires cfg.Valid() && Safe(cfg, s)
    ensures s.nextRun !in s.runs
  {
    hide RunSound, RowsFit, StoreSound, Backed, CountersSound, LifecycleSound, ResultsSound, Codec.Valid;
    assert s.nextRun in s.runs ==> s.nextRun < s.nextRun;
  }

  lemma StartKeepsSettled(cfg: Config, s: State, i: nat, c: nat)
    requires cfg.Valid() && Safe(cfg, s) && c < |s.chunks| && Settled(s.chunks[c])
    ensures c < |StartRun(cfg, s, i).chunks| && StartRun(cfg, s, i).chunks[c] == s.chunks[c]
  {
    assert RowFits(cfg, s.chunks[c], c);
  }

  lemma OthersElsewhere(s: State, run: nat)
    requires Exclusive(s) && run in s.runs
    ensures HoldsLease(s, s.runs[run])
    ensures forall r | r in s.runs && r != run :: s.runs[r].chunk != s.runs[run].chunk
  {
  }

  lemma CommitExcludes(cfg: Config, s: State, run: nat)
    requires Exclusive(s) && run in s.runs && s.runs[run].chunk < |s.chunks|
    ensures Exclusive(CommitAborted(s, run))
    ensures Exclusive(CommitFailed(cfg, s, run))
    ensures s.runs[run].phase.Checkpointed? ==> Exclusive(CommitSucceeded(cfg, s, run))
  {
    hide Exclusive, Recompute;
    OthersElsewhere(s, run);
    KeptRunsExclude(s, CommitAborted(s, run));
    KeptRunsExclude(s, CommitFailed(cfg, s, run));
    if s.runs[run].phase.Checkpointed? {
      SuccessExcludes(cfg, s, run);
    }
  }

  lemma SuccessExcludes(cfg: Config, s: State, run: nat)
    requires Exclusive(s) && run in s.runs && s.runs[run].chunk < |s.chunks| && s.runs[run].phase.Checkpointed?
    ensures Exclusive(CommitSucceeded(cfg, s, run))
  {
    hide Recompute;
    var t := CommitSucceeded(cfg, s, run);
    forall r | r in t.runs ensures HoldsLease(t, t.runs[r]) {
      assert HoldsLease(s, s.runs[r]);
    }
  }

  lemma CommitKeepsSettled(cfg: Config, s: State, run: nat, c: nat)
    requires Exclusive(s) && run in s.runs && s.runs[run].chunk < |s.chunks|
    requires c < |s.chunks| && Settled(s.chunks[c])
    ensures |CommitAborted(s, run).chunks| == |CommitFailed(cfg, s, run).chunks| == |s.chunks|
    ensures s.runs[run].phase.Checkpointed? ==> |CommitSucceeded(cfg, s, run).chunks| == |s.chunks|
    ensures s.runs[run].phase.Aborting? ==> CommitAborted(s, run).chunks[c] == s.chunks[c]
    ensures s.chunks[c].status.ChunkFailed? || !s.runs[run].phase.Committed? ==>
        CommitFailed(cfg, s, run).chunks[c] == s.chunks[c]
    ensures s.runs[run].phase.Checkpointed? ==> CommitSucceeded(cfg, s, run).chunks[c] == s.chunks[c]
  {
    hide Recompute;
    assert HoldsLease(s, s.runs[run]);
  }

  lemma OrchestrateExcludes(cfg: Config, s: State)
    requires cfg.Valid() && Exclusive(s) && Timely(s)
    ensures Exclusive(OrchestrateBatch(cfg, s))
    ensures forall i | 0 <= i < |s.chunks| && Settled(s.chunks[i]) ::
              i < |OrchestrateBatch(cfg, s).chunks| && OrchestrateBatch(cfg, s).chunks[i] == s.chunks[i]
  {
    hide JobsFor, Exclusive;
    var t := OrchestrateBatch(cfg, s);
    if Ended(s.batch.status) {
      KeptRunsExclude(s, t);
    } else if s.chunks != [] {
      BulkExcludes(s, t);
    } else {
      NoRowsNoRuns(s);
      KeptRunsExclude(s, t);
    }
  }

  lemma NoRowsNoRuns(s: State)
    requires Exclusive(s) && s.chunks == []
    ensures forall r :: r !in s.runs
  {
    forall r ensures r !in s.runs {
      assert r in s.runs ==> HoldsLease(s, s.runs[r]);
    }
  }

  lemma ScanExcludes(s: State)
    requires Exclusive(s) && Timely(s)
    ensures Exclusive(ScanCompletion(s))
    ensures forall i | 0 <= i < |s.chunks| && Settled(s.chunks[i]) ::
              i < |ScanCompletion(s).chunks| && ScanCompletion(s).chunks[i] == s.chunks[i]
  {
    hide ScanCompletion, Exclusive;
    ScanChunks(s);
    if Ended(s.batch.status) {
      KeptRunsExclude(s, ScanCompletion(s));
    } else {
      BulkExcludes(s, ScanCompletion(s));
    }
  }

  lemma QuietKeepsRuns(cfg: Config, s: State, e: Event)
    requires Enabled(cfg, s, e)
    requires e.Gather? || e.Checkpoint? || e.Finalize? || e.Deliver?
    ensures RunsKept(s, Next(cfg, s, e)) && Next(cfg, s, e).chunks == s.chunks
  {
    hide GatherOutcomes, WriteCheckpoint, FinalizeBatch, DeliverHook, OrchestrateBatch, StartRun, CommitSucceeded,
         CommitAborted, CommitFailed, ScanCompletion, RequeuePending, CancelBatch, ReclaimAll, RunsKept;
    match e {
      case Gather(run, outcomes) => GatherKeepsRuns(s, run, outcomes);
      case Checkpoint(run) => WriteKeepsRuns(cfg, s, run);
      case Finalize => FinalizeKeepsRuns(cfg, s);
      case Deliver(hook, ok) => DeliverKeepsRuns(cfg, s, hook, ok);
    }
  }

  lemma GatherKeepsRuns(s: State, run: nat, outcomes: seq<Row>)
    requires run in s.runs && s.runs[run].phase.Working?
    ensures RunsKept(s, GatherOutcomes(s, run, outcomes)) && GatherOutcomes(s, run, outcomes).chunks == s.chunks
  {
    hide SortByIndex, NoneCancelled;
  }

  lemma WriteKeepsRuns(cfg: Config, s: State, run: nat)
    requires run in s.runs && s.runs[run].phase.Gathered?
    ensures RunsKept(s, WriteCheckpoint(cfg, s, run)) && WriteCheckpoint(cfg, s, run).chunks == s.chunks
  {
    hide Codec.Written, CountOk;
  }

  lemma FinalizeKeepsRuns(cfg: Config, s: State)
    ensures RunsKept(s, FinalizeBatch(cfg, s)) && FinalizeBatch(cfg, s).chunks == s.chunks
  {
    hide Publish, AllSucceeded;
    PublishedIsCompleted(cfg, s);
  }

  lemma DeliverKeepsRuns(cfg: Config, s: State, hook: Hook, ok: bool)
    ensures RunsKept(s, DeliverHook(cfg, s, hook, ok)) && DeliverHook(cfg, s, hook, ok).chunks == s.chunks
  {
  }

  /** A row that a step leaves alone: failed, or succeeded and its run's nudge does not fail. */
  predicate Untouched(s: State, e: Event, c: nat) {
    c < |s.chunks| && (s.chunks[c].status.ChunkFailed? || (s.chunks[c].status.Succeeded? && !NudgeFails(s, e)))
  }

  ghost predicate KeepsSettled(s: State, e: Event, t: State) {
    forall c: nat | Untouched(s, e, c) :: c < |t.chunks| && t.chunks[c] == s.chunks[c]
  }

  lemma SettledRowsKept(s: State, e: Event, t: State)
    requires forall c | 0 <= c < |s.chunks| && Settled(s.chunks[c]) :: c < |t.chunks| && t.chunks[c] == s.chunks[c]
    ensures KeepsSettled(s, e, t)
  {
  }

  lemma StartExcludesAndKeeps(cfg: Config, s: State, i: nat)
    requires cfg.Valid() && Safe(cfg, s) && Exclusive(s) && Timely(s) && ProcessJob(i) in s.queue
    ensures Exclusive(StartRun(cfg, s, i)) && KeepsSettled(s, Start(i), StartRun(cfg, s, i))
  {
    hide Safe, Exclusive, StartRun, Timely, Settled, KeepsSettled, Codec.Valid;
    StartExcludes(cfg, s, i);
    forall c | 0 <= c < |s.chunks| && Settled(s.chunks[c])
      ensures c < |StartRun(cfg, s, i).chunks| && StartRun(cfg, s, i).chunks[c] == s.chunks[c]
    {
      StartKeepsSettled(cfg, s, i, c);
    }
    SettledRowsKept(s, Start(i), StartRun(cfg, s, i));
  }

  /** Runs and rows untouched. */
  lemma QuietExcludes(s: State, e: Event, t: State)
    requires Exclusive(s) && RunsKept(s, t) && t.chunks == s.chunks
    ensures Exclusive(t) && KeepsSettled(s, e, t)
  {
    hide Exclusive, RunsKept;
    KeptRunsExclude(s, t);
  }

  lemma BulkExcludesAndKeeps(s: State, e: Event, t: State)
    requires Exclusive(s) && Timely(s) && t.chunks == ReclaimAll(s.chunks, s.now) && t.runs == s.runs
    ensures Exclusive(t) && KeepsSettled(s, e, t)
  {
    hide Exclusive, ReclaimAll, KeepsSettled, Timely;
    BulkExcludes(s, t);
    SettledRowsKept(s, e, t);
  }

  /** Steps that neither start nor move a run and leave the rows alone. */
  lemma SameRowsAndRuns(s: State, e: Event, t: State)
    requires Exclusive(s) && t.chunks == s.chunks && forall r | r in t.runs :: r in s.runs && t.runs[r] == s.runs[r]
    ensures Exclusive(t) && KeepsSettled(s, e, t)
  {
    hide Exclusive, KeepsSettled;
    QuietExcludes(s, e, t);
  }

  /** One step of a timely batch keeps exclusion, and every settled row unless a nudge fails. */
  lemma StepExcludes(cfg: Config, s: State, e: Event)
    requires cfg.Valid() && Safe(cfg, s) && Exclusive(s) && Timely(s) && Enabled(cfg, s, e)
    ensures Exclusive(Next(cfg, s, e)) && KeepsSettled(s, e, Next(cfg, s, e))
  {
    hide Safe, Exclusive, KeepsSettled, Timely, OrchestrateBatch, StartRun, GatherOutcomes, WriteCheckpoint,
         CommitSucceeded, CommitAborted, CommitFailed, ScanCompletion, ReclaimAll, FinalizeBatch, DeliverHook,
         CancelBatch, JobsFor, ItemsRead, NoneCancelled, RunsKept, Codec.Valid;
    match e {
      case Orchestrate => OrchestrateExcludes(cfg, s); SettledRowsKept(s, e, Next(cfg, s, e));
      case Start(i) => StartExcludesAndKeeps(cfg, s, i);
      case CommitSuccess(run) => CommitExcludesAndKeeps(cfg, s, e, run);
      case CommitCancelled(run) => CommitExcludesAndKeeps(cfg, s, e, run);
      case CommitFailure(run) => CommitExcludesAndKeeps(cfg, s, e, run);
      case CheckScan => ScanExcludes(s); SettledRowsKept(s, e, Next(cfg, s, e));
      case Reclaim => BulkExcludesAndKeeps(s, e, Next(cfg, s, e));
      case CheckRequeue => BulkExcludesAndKeeps(s, e, Next(cfg, s, e));
      case Gather(_, _) => QuietKeepsRuns(cfg, s, e); QuietExcludes(s, e, Next(cfg, s, e));
      case Checkpoint(_) => QuietKeepsRuns(cfg, s, e); QuietExcludes(s, e, Next(cfg, s, e));
      case Finalize => QuietKeepsRuns(cfg, s, e); QuietExcludes(s, e, Next(cfg, s, e));
      case Deliver(_, _) => QuietKeepsRuns(cfg, s, e); QuietExcludes(s, e, Next(cfg, s, e));
      case Cancel => CancelKeepsRuns(s); QuietExcludes(s, e, Next(cfg, s, e));
      case _ => SameRowsAndRuns(s, e, Next(cfg, s, e));
    }
  }

  lemma CancelKeepsRuns(s: State)
    ensures RunsKept(s, CancelBatch(s)) && CancelBatch(s).chunks == s.chunks
  {
  }

  lemma CommitExcludesAndKeeps(cfg: Config, s: State, e: Event, run: nat)
    requires Exclusive(s) && Enabled(cfg, s, e)
    requires e == CommitSuccess(run) || e == CommitCancelled(run) || e == CommitFailure(run)
    ensures Exclusive(Next(cfg, s, e)) && KeepsSettled(s, e, Next(cfg, s, e))
  {
    hide Exclusive, CommitSucceeded, CommitAborted, CommitFailed, OrchestrateBatch, StartRun, GatherOutcomes,
         WriteCheckpoint, ScanCompletion, RequeuePending, FinalizeBatch, DeliverHook, ReclaimAll, CancelBatch,
         ItemsRead, NoneCancelled;
    CommitExcludes(cfg, s, run);
    forall c: nat | Untouched(s, e, c)
      ensures c < |Next(cfg, s, e).chunks| && Next(cfg, s, e).chunks[c] == s.chunks[c]
    {
      CommitKeepsSettled(cfg, s, run, c);
    }
  }

  /**
   Lease exclusion over whole runs: in every state reached by timely events, each live run holds
   its chunk's lease or has finished the chunk, and no two live runs share a chunk.
   */
  lemma {:induction false} LeaseExclusion(cfg: Config, now: int, es: seq<Event>)
    requires cfg.Valid() && Feasible(cfg, Init(cfg, now), es) && TimelyRun(cfg, Init(cfg, now), es)
    ensures Exclusive(Exec(cfg, Init(cfg, now), es))
  {
    if es != [] {
      hide Exclusive;
      var front := es[..|es| - 1];
      LeaseExclusion(cfg, now, front);
      RunIsSafe(cfg, now, front);
      StepExcludes(cfg, Exec(cfg, Init(cfg, now), front), es[|es| - 1]);
    }
  }

  /**
   From any point of a timely run on, failed rows are final, and so are succeeded rows if no nudge
   fails. FailedNudges shows that the last condition cannot be dropped.
   */
  lemma {:induction false} SettledRowsAreFinal(cfg: Config, s: State, es: seq<Event>, c: nat)
    requires cfg.Valid() && Safe(cfg, s) && Exclusive(s)
    requires Feasible(cfg, s, es) && TimelyRun(cfg, s, es)
    requires c < |s.chunks| && Settled(s.chunks[c])
    requires s.chunks[c].status.Succeeded? ==> NudgesArrive(cfg, s, es)
    ensures Safe(cfg, Exec(cfg, s, es)) && Exclusive(Exec(cfg, s, es))
    ensures c < |Exec(cfg, s, es).chunks| && Exec(cfg, s, es).chunks[c] == s.chunks[c]
  {
    if es != [] {
      hide Exclusive, Safe;
      var front := es[..|es| - 1];
      SettledRowsAreFinal(cfg, s, front, c);
      assert Untouched(Exec(cfg, s, front), es[|es| - 1], c);
      StepIsSafe(cfg, Exec(cfg, s, front), es[|es| - 1]);
      StepExcludes(cfg, Exec(cfg, s, front), es[|es| - 1]);
    }
  }

  // ---- Failed stays failed ---------------------------------------------------------------

  /** A failed batch has a failed row to show for it. */
  ghost predicate FailureShown(s: State) {
    s.batch.status.BatchFailed? ==> exists i :: 0 <= i < |s.chunks| && s.chunks[i].status.ChunkFailed?
  }

  lemma StepShowsFailure(cfg: Config, s: State, e: Event)
    requires cfg.Valid() && Safe(cfg, s) && Exclusive(s) && Timely(s) && Enabled(cfg, s, e) && FailureShown(s)
    ensures FailureShown(Next(cfg, s, e))
  {
    hide Safe, Exclusive, Next;
    var t := Next(cfg, s, e);
    StepExcludes(cfg, s, e);
    StepDecides(cfg, s, e);
    if t.batch.status.BatchFailed? {
      if s.batch.status.BatchFailed? {
        var i :| 0 <= i < |s.chunks| && s.chunks[i].status.ChunkFailed?;
        assert Untouched(s, e, i);
        assert t.chunks[i].status.ChunkFailed?;
      } else {
        assert NewlyFailed(s, t) != {};
        var i :| i in NewlyFailed(s, t);
        assert t.chunks[i].status.ChunkFailed?;
      }
    }
  }

  lemma {:induction false} FailureIsShown(cfg: Config, now: int, es: seq<Event>)
    requires cfg.Valid() && Feasible(cfg, Init(cfg, now), es) && TimelyRun(cfg, Init(cfg, now), es)
    ensures FailureShown(Exec(cfg, Init(cfg, now), es))
  {
    if es != [] {
      hide FailureShown;
      var front := es[..|es| - 1];
      FailureIsShown(cfg, now, front);
      RunIsSafe(cfg, now, front);
      LeaseExclusion(cfg, now, front);
      StepShowsFailure(cfg, Exec(cfg, Init(cfg, now), front), es[|es| - 1]);
    }
  }

  /** With the failed row in place, finalizing cannot complete the batch. */
  lemma FailedDoesNotComplete(cfg: Config, s: State, e: Event)
    requires cfg.Valid() && Safe(cfg, s) && Enabled(cfg, s, e) && FailureShown(s) && s.batch.status.BatchFailed?
    ensures Next(cfg, s, e).batch.status.BatchFailed?
  {
    hide Safe, OrchestrateBatch, StartRun, GatherOutcomes, WriteCheckpoint, CommitSucceeded, CommitAborted,
         CommitFailed, ScanCompletion, RequeuePending, DeliverHook, CancelBatch, ReclaimAll, ResultsBody, ManifestOf;
    StepDecides(cfg, s, e);
    if Next(cfg, s, e).batch.status.Completed? {
      OnlyFinalizeCompletes(cfg, s, e);
      var i :| 0 <= i < |s.chunks| && s.chunks[i].status.ChunkFailed?;
      assert !AllSucceeded(s.chunks);
    }
  }

  lemma OnlyFinalizeCompletes(cfg: Config, s: State, e: Event)
    requires cfg.Valid() && Safe(cfg, s) && Enabled(cfg, s, e)
    requires !s.batch.status.Completed? && Next(cfg, s, e).batch.status.Completed?
    ensures e.Finalize?
  {
    hide Safe, Next;
    if e.CommitFailure? {
      FailureDecidesNext(cfg, s, e.run);
    } else if e.Deliver? || e.Lose? || e.Redeliver? {
      DeliveryDecides(cfg, s, e);
    } else if !e.Finalize? {
      MostStepsAreUndecided(cfg, s, e);
    }
  }

  lemma FailureDecidesNext(cfg: Config, s: State, run: nat)
    requires cfg.Valid() && Safe(cfg, s) && Enabled(cfg, s, CommitFailure(run)) && !s.batch.status.Completed?
    ensures !Next(cfg, s, CommitFailure(run)).batch.status.Completed?
  {
    hide Safe, CommitFailed;
    FailureDecides(cfg, s, run);
  }

  /** A failed batch never becomes completed, if runs are timely: over any run, and its continuation. */
  lemma {:induction false} FailedBatchStaysFailed(cfg: Config, now: int, es: seq<Event>, k: nat)
    requires cfg.Valid() && Feasible(cfg, Init(cfg, now), es) && TimelyRun(cfg, Init(cfg, now), es)
    requires k <= |es| && Feasible(cfg, Init(cfg, now), es[..k])
    requires Exec(cfg, Init(cfg, now), es[..k]).batch.status.BatchFailed?
    ensures Exec(cfg, Init(cfg, now), es).batch.status.BatchFailed?
  {
    if k == |es| {
      assert es[..k] == es;
    } else {
      hide FailureShown, Exclusive;
      var front := es[..|es| - 1];
      assert front[..k] == es[..k];
      FailedBatchStaysFailed(cfg, now, front, k);
      RunIsSafe(cfg, now, front);
      FailureIsShown(cfg, now, front);
      FailedDoesNotComplete(cfg, Exec(cfg, Init(cfg, now), front), es[|es| - 1]);
    }
  }

  // ---- Counts match the checkpoints ------------------------------------------------------

  /** No object changes and no run or row newly carries counts. */
  lemma NothingFinishedMatches(cfg: Config, s: State, t: State)
    requires Matching(cfg, s)
    requires t.objects == s.objects
    requires forall r | r in t.runs :: (r in s.runs && t.runs[r] == s.runs[r]) || !t.runs[r].phase.Checkpointed?
    requires forall i | 0 <= i < |t.chunks| && t.chunks[i].status.Succeeded? ::
               i < |s.chunks| && t.chunks[i] == s.chunks[i]
    ensures Matching(cfg, t)
  {
    hide RunMatches, RowMatches, CountsMatch;
    forall r | r in t.runs ensures RunMatches(cfg, t.objects, t.runs[r]) {
      if t.runs[r].phase.Checkpointed? {
        assert RunMatches(cfg, s.objects, s.runs[r]);
      } else {
        NoCountsYet(cfg, t.objects, t.runs[r]);
      }
    }
    forall i | 0 <= i < |t.chunks| ensures RowMatches(cfg, t.objects, t.chunks[i], i) {
      if t.chunks[i].status.Succeeded? {
        assert RowMatches(cfg, s.objects, s.chunks[i], i);
      } else {
        NoRowCounts(cfg, t.objects, t.chunks[i], i);
      }
    }
  }

  lemma NoCountsYet(cfg: Config, objects: map<string, Bytes>, r: Run)
    requires !r.phase.Checkpointed?
    ensures RunMatches(cfg, objects, r)
  {
  }

  lemma NoRowCounts(cfg: Config, objects: map<string, Bytes>, c: Chunk, i: nat)
    requires !c.status.Succeeded?
    ensures RowMatches(cfg, objects, c, i)
  {
  }

  lemma CountsKept(cfg: Config, objects: map<string, Bytes>, i: nat, data: Bytes, j: nat, ok: nat, fail: nat)
    requires i != j && CountsMatch(cfg, objects, j, ok, fail)
    ensures CountsMatch(cfg, objects[cfg.Key(i) := data], j, ok, fail)
  {
    KeysAreDistinct(cfg.batchId);
  }

  lemma CountsWritten(cfg: Config, objects: map<string, Bytes>, i: nat, rows: seq<Row>)
    requires cfg.Valid()
    ensures CountsMatch(cfg, objects[cfg.Key(i) := cfg.codec.Written(rows)], i, CountOk(rows), |rows| - CountOk(rows))
  {
    cfg.codec.ReadBack(rows);
  }

  lemma WriteMatches(cfg: Config, s: State, run: nat)
    requires cfg.Valid() && Safe(cfg, s) && Exclusive(s) && Matching(cfg, s) && Enabled(cfg, s, Checkpoint(run))
    ensures Matching(cfg, WriteCheckpoint(cfg, s, run))
  {
    hide Safe, Exclusive, CountsMatch, Codec.Written, CountOk, Config.Key;
    var t := WriteCheckpoint(cfg, s, run);
    var i, rows := s.runs[run].chunk, s.runs[run].phase.rows;
    CountsWritten(cfg, s.objects, i, rows);
    OthersElsewhere(s, run);
    forall q | q in t.runs ensures RunMatches(cfg, t.objects, t.runs[q]) {
      if q != run && t.runs[q].phase.Checkpointed? {
        assert RunMatches(cfg, s.objects, s.runs[q]);
        var r := s.runs[q];
        CountsKept(cfg, s.objects, i, cfg.codec.Written(rows), r.chunk, r.phase.okCount, r.phase.failCount);
      }
    }
    forall j | 0 <= j < |t.chunks| ensures RowMatches(cfg, t.objects, t.chunks[j], j) {
      var c := s.chunks[j];
      assert RowMatches(cfg, s.objects, c, j);
      if c.status.Succeeded? {
        CountsKept(cfg, s.objects, i, cfg.codec.Written(rows), j, c.okCount, c.failCount);
      }
    }
  }

  lemma SuccessMatches(cfg: Config, s: State, run: nat)
    requires Matching(cfg, s) && Enabled(cfg, s, CommitSuccess(run))
    ensures Matching(cfg, CommitSucceeded(cfg, s, run))
  {
    hide Recompute;
    var t := CommitSucceeded(cfg, s, run);
    assert RunMatches(cfg, s.objects, s.runs[run]);
    forall q | q in t.runs ensures RunMatches(cfg, t.objects, t.runs[q]) {
      assert RunMatches(cfg, s.objects, s.runs[q]);
    }
    forall i | 0 <= i < |t.chunks| ensures RowMatches(cfg, t.objects, t.chunks[i], i) {
      assert RowMatches(cfg, s.objects, s.chunks[i], i);
    }
  }

  lemma FinalizeMatches(cfg: Config, s: State)
    requires Matching(cfg, s)
    ensures Matching(cfg, FinalizeBatch(cfg, s))
  {
    hide ResultsBody, ManifestOf, AllSucceeded, Config.Key, CountsMatch;
    var t := FinalizeBatch(cfg, s);
    forall i: nat
      ensures cfg.Key(i) in s.objects ==> cfg.Key(i) in t.objects && t.objects[cfg.Key(i)] == s.objects[cfg.Key(i)]
    {
      FinalizeKeepsCheckpoints(cfg, s, i);
    }
    SameCheckpointsMatch(cfg, s, t);
  }

  lemma FinalizeKeepsCheckpoints(cfg: Config, s: State, i: nat)
    ensures var t := FinalizeBatch(cfg, s);
            cfg.Key(i) in s.objects ==> cfg.Key(i) in t.objects && t.objects[cfg.Key(i)] == s.objects[cfg.Key(i)]
  {
    hide ResultsBody, ManifestOf, AllSucceeded;
    KeysAreDistinct(cfg.batchId);
  }

  lemma SameCheckpointsMatch(cfg: Config, s: State, t: State)
    requires Matching(cfg, s) && t.chunks == s.chunks && t.runs == s.runs
    requires forall i: nat | cfg.Key(i) in s.objects ::
               cfg.Key(i) in t.objects && t.objects[cfg.Key(i)] == s.objects[cfg.Key(i)]
    ensures Matching(cfg, t)
  {
    forall q | q in t.runs ensures RunMatches(cfg, t.objects, t.runs[q]) {
      assert RunMatches(cfg, s.objects, s.runs[q]);
    }
    forall i | 0 <= i < |t.chunks| ensures RowMatches(cfg, t.objects, t.chunks[i], i) {
      assert RowMatches(cfg, s.objects, s.chunks[i], i);
    }
  }

  lemma OthersMatch(cfg: Config, s: State, e: Event)
    requires cfg.Valid() && Matching(cfg, s) && Enabled(cfg, s, e)
    requires !e.Checkpoint? && !e.CommitSuccess? && !e.Finalize?
    ensures Matching(cfg, Next(cfg, s, e))
  {
    hide Matching, Next;
    if e.Gather? {
      GatherCounts(cfg, s, e.run, e.outcomes);
    } else {
      OtherEventsFinishNothing(cfg, s, e);
    }
    NothingFinishedMatches(cfg, s, Next(cfg, s, e));
  }

  lemma GatherCounts(cfg: Config, s: State, run: nat, outcomes: seq<Row>)
    requires Enabled(cfg, s, Gather(run, outcomes))
    ensures var t := Next(cfg, s, Gather(run, outcomes));
            && t.objects == s.objects && t.chunks == s.chunks
            && forall r | r in t.runs :: (r in s.runs && t.runs[r] == s.runs[r]) || !t.runs[r].phase.Checkpointed?
  {
    hide OrchestrateBatch, StartRun, CommitSucceeded, CommitAborted, CommitFailed, ScanCompletion, RequeuePending,
         CancelBatch, ReclaimAll, FinalizeBatch, DeliverHook, SortByIndex, NoneCancelled, ItemsRead;
  }

  lemma StepMatches(cfg: Config, s: State, e: Event)
    requires cfg.Valid() && Safe(cfg, s) && Exclusive(s) && Matching(cfg, s) && Enabled(cfg, s, e)
    ensures Matching(cfg, Next(cfg, s, e))
  {
    hide Safe, Exclusive, Matching, OrchestrateBatch, StartRun, GatherOutcomes, WriteCheckpoint, CommitSucceeded,
         CommitAborted, CommitFailed, ScanCompletion, RequeuePending, FinalizeBatch, DeliverHook, CancelBatch,
         ReclaimAll;
    match e {
      case Checkpoint(run) => WriteMatches(cfg, s, run);
      case CommitSuccess(run) => SuccessMatches(cfg, s, run);
      case Finalize => FinalizeMatches(cfg, s);
      case _ => OthersMatch(cfg, s, e);
    }
  }

  /** In a timely run the counts of every succeeded row are those of its checkpoint object. */
  lemma {:induction false} CountsMatchCheckpoints(cfg: Config, now: int, es: seq<Event>)
    requires cfg.Valid() && Feasible(cfg, Init(cfg, now), es) && TimelyRun(cfg, Init(cfg, now), es)
    ensures Matching(cfg, Exec(cfg, Init(cfg, now), es))
  {
    if es != [] {
      hide Matching, Exclusive;
      var front := es[..|es| - 1];
      CountsMatchCheckpoints(cfg, now, front);
      RunIsSafe(cfg, now, front);
      LeaseExclusion(cfg, now, front);
      StepMatches(cfg, Exec(cfg, Init(cfg, now), front), es[|es| - 1]);
    }
  }
}
