/**
 The batch row's counters against what they stand for: progress against the chunks that have
 succeeded, retries against the runs that were started.
 */
module Counters {
  import opened Rows
  import opened Pipeline
  import opened Sums
  import opened Invariants
  import opened Refinement
  import opened Leases
  import Budget

  // ---- Progress --------------------------------------------------------------------------

  /** The items of the succeeded chunks. */
  function DoneItems(chunks: seq<Chunk>): nat {
    if chunks == [] then 0
    else
      var last := chunks[|chunks| - 1];
      DoneItems(chunks[..|chunks| - 1]) + if last.status == Succeeded then last.slot.limit else 0
  }

  /** How many of them were recorded as failed. */
  function FailedItems(chunks: seq<Chunk>): nat {
    if chunks == [] then 0
    else
      var last := chunks[|chunks| - 1];
      FailedItems(chunks[..|chunks| - 1]) + if last.status == Succeeded then last.failCount else 0
  }

  lemma {:induction false} ProgressSums(chunks: seq<Chunk>)
    requires forall i | 0 <= i < |chunks| && chunks[i].status.Succeeded? ::
               chunks[i].okCount + chunks[i].failCount == chunks[i].slot.limit
    ensures Sum(Processed, chunks) == DoneItems(chunks) && Sum(Failures, chunks) == FailedItems(chunks)
  {
    if chunks != [] {
      ProgressSums(chunks[..|chunks| - 1]);
    }
  }

  /** Rows of t that have succeeded had in s, as they are. */
  predicate NoneNewlyDone(s: seq<Chunk>, t: seq<Chunk>) {
    forall i | 0 <= i < |t| && t[i].status.Succeeded? :: i < |s| && t[i] == s[i]
  }

  /** Rows that have succeeded in s are as they were in t. */
  predicate AllStillDone(s: seq<Chunk>, t: seq<Chunk>) {
    forall i | 0 <= i < |s| && s[i].status.Succeeded? :: i < |t| && t[i] == s[i]
  }

  lemma {:induction false} DoneGrows(s: seq<Chunk>, t: seq<Chunk>)
    requires NoneNewlyDone(s, t)
    ensures DoneItems(t) <= DoneItems(s) && FailedItems(t) <= FailedItems(s)
    decreases |s| + |t|
  {
    if |t| > 0 && |t| > |s| {
      DoneGrows(s, t[..|t| - 1]);
    } else if |t| > 0 && |t| == |s| {
      DoneGrows(s[..|s| - 1], t[..|t| - 1]);
    } else if |s| > |t| {
      DoneGrows(s[..|s| - 1], t);
    }
  }

  lemma DoneStays(s: seq<Chunk>, t: seq<Chunk>)
    requires NoneNewlyDone(s, t) && AllStillDone(s, t)
    ensures DoneItems(t) == DoneItems(s) && FailedItems(t) == FailedItems(s)
  {
    DoneGrows(s, t);
    DoneGrows(t, s);
  }

  lemma SucceededRowsAddUp(cfg: Config, s: State)
    requires cfg.chunkSize >= 1 && Safe(cfg, s)
    ensures forall i | 0 <= i < |s.chunks| && s.chunks[i].status.Succeeded? ::
              s.chunks[i].okCount + s.chunks[i].failCount == s.chunks[i].slot.limit
  {
    hide StoreSound, Backed, RunsSound, CountersSound, LifecycleSound, ResultsSound, Config.Slots;
    forall i | 0 <= i < |s.chunks| && s.chunks[i].status.Succeeded?
      ensures s.chunks[i].okCount + s.chunks[i].failCount == s.chunks[i].slot.limit
    {
      assert RowFits(cfg, s.chunks[i], i);
    }
  }

  lemma NextOfSuccess(cfg: Config, s: State, run: nat)
    requires Enabled(cfg, s, CommitSuccess(run))
    ensures run in s.runs && s.runs[run].phase.Checkpointed? && s.runs[run].chunk < |s.chunks|
    ensures Next(cfg, s, CommitSuccess(run)) == CommitSucceeded(cfg, s, run)
  {
    hide CommitSucceeded;
  }

  /** Progress is brought up to date by every success, whatever it was before. */
  lemma SuccessUpdates(cfg: Config, s: State, run: nat)
    requires cfg.Valid() && Safe(cfg, s) && Enabled(cfg, s, CommitSuccess(run))
    ensures var t := Next(cfg, s, CommitSuccess(run));
            t.batch.completedItems == DoneItems(t.chunks) && t.batch.failedItems == FailedItems(t.chunks)
  {
    var t := Next(cfg, s, CommitSuccess(run));
    hide Next, Enabled, Safe, Sum, Codec.Valid;
    StepIsSafe(cfg, s, CommitSuccess(run));
    NextOfSuccess(cfg, s, run);
    SucceededRowsAddUp(cfg, t);
    ProgressSums(t.chunks);
  }

  lemma OthersLeaveProgress(cfg: Config, s: State, e: Event)
    requires cfg.Valid() && Safe(cfg, s) && Enabled(cfg, s, e) && !e.CommitSuccess?
    ensures var t := Next(cfg, s, e);
            && t.batch.completedItems == s.batch.completedItems && t.batch.failedItems == s.batch.failedItems
            && NoneNewlyDone(s.chunks, t.chunks)
  {
    hide Safe, Codec.Valid, NoneNewlyDone, NothingFinished, OrchestrateBatch, StartRun, GatherOutcomes,
         WriteCheckpoint, CommitSucceeded, CommitAborted, CommitFailed, ScanCompletion, RequeuePending,
         FinalizeBatch, DeliverHook, CancelBatch, ReclaimAll;
    if e.Gather? || e.Checkpoint? || e.Finalize? {
      QuietKeepsRuns(cfg, s, e);
      SameRows(s.chunks);
    } else {
      OtherEventsFinishNothing(cfg, s, e);
      FinishedRows(s, Next(cfg, s, e));
    }
    ProgressUnmoved(cfg, s, e);
  }

  lemma SameRows(chunks: seq<Chunk>)
    ensures NoneNewlyDone(chunks, chunks)
  {
  }

  lemma FinishedRows(s: State, t: State)
    requires NothingFinished(s, t)
    ensures NoneNewlyDone(s.chunks, t.chunks)
  {
  }

  predicate SameProgress(a: Batch, b: Batch) {
    a.completedItems == b.completedItems && a.failedItems == b.failedItems
  }

  lemma CommitsKeepProgress(cfg: Config, s: State, run: nat)
    requires run in s.runs && s.runs[run].chunk < |s.chunks|
    ensures SameProgress(s.batch, CommitAborted(s, run).batch) && SameProgress(s.batch, CommitFailed(cfg, s, run).batch)
  {
  }

  lemma BatchStepsKeepProgress(cfg: Config, s: State)
    ensures SameProgress(s.batch, CancelBatch(s).batch)
    ensures cfg.chunkSize >= 1 ==> SameProgress(s.batch, OrchestrateBatch(cfg, s).batch)
    ensures SameProgress(s.batch, FinalizeBatch(cfg, s).batch)
  {
    hide ReclaimAll, CreateChunkRows, JobsFor, ResultsBody, ManifestOf, AllSucceeded;
  }

  lemma DeliverKeepsProgress(cfg: Config, s: State, hook: Hook, ok: bool)
    ensures SameProgress(s.batch, DeliverHook(cfg, s, hook, ok).batch)
  {
  }

  lemma RunsKeepProgress(cfg: Config, s: State, run: nat, outcomes: seq<Row>)
    requires run in s.runs
    ensures GatherOutcomes(s, run, outcomes).batch == s.batch
    ensures s.runs[run].phase.Gathered? ==> WriteCheckpoint(cfg, s, run).batch == s.batch
  {
    hide NoneCancelled, SortByIndex, CountOk, Codec.Written;
  }

  lemma StartKeepsProgress(cfg: Config, s: State, i: nat)
    ensures SameProgress(s.batch, StartRun(cfg, s, i).batch)
  {
    hide StartRun, CanStart;
    StartCases(cfg, s, i);
  }

  lemma ProgressUnmoved(cfg: Config, s: State, e: Event)
    requires cfg.Valid() && Safe(cfg, s) && Enabled(cfg, s, e) && !e.CommitSuccess?
    ensures SameProgress(s.batch, Next(cfg, s, e).batch)
  {
    hide Safe, Codec.Valid, OrchestrateBatch, StartRun, GatherOutcomes, WriteCheckpoint, CommitSucceeded,
         CommitAborted, CommitFailed, ScanCompletion, FinalizeBatch, DeliverHook, CancelBatch, ReclaimAll, JobsFor,
         ItemsRead, NoneCancelled;
    match e {
      case CheckScan => ScanKeepsBatch(cfg, s);
      case Start(i) => StartKeepsProgress(cfg, s, i);
      case Gather(run, outcomes) => RunsKeepProgress(cfg, s, run, outcomes);
      case Checkpoint(run) => RunsKeepProgress(cfg, s, run, []);
      case CommitCancelled(run) => CommitsKeepProgress(cfg, s, run);
      case CommitFailure(run) => CommitsKeepProgress(cfg, s, run);
      case Cancel => BatchStepsKeepProgress(cfg, s);
      case Orchestrate => BatchStepsKeepProgress(cfg, s);
      case Finalize => BatchStepsKeepProgress(cfg, s);
      case Deliver(hook, ok) => DeliverKeepsProgress(cfg, s, hook, ok);
      case _ =>
    }
  }

  /** In every reachable state, late runs or not, progress is at least the items of the succeeded chunks. */
  lemma {:induction false} ProgressCoversDone(cfg: Config, now: int, es: seq<Event>)
    requires cfg.Valid() && Feasible(cfg, Init(cfg, now), es)
    ensures var s := Exec(cfg, Init(cfg, now), es);
            s.batch.completedItems >= DoneItems(s.chunks) && s.batch.failedItems >= FailedItems(s.chunks)
  {
    hide Next, Enabled;
    if es != [] {
      var front, e := es[..|es| - 1], es[|es| - 1];
      var s := Exec(cfg, Init(cfg, now), front);
      ProgressCoversDone(cfg, now, front);
      RunIsSafe(cfg, now, front);
      if e.CommitSuccess? {
        SuccessUpdates(cfg, s, e.run);
      } else {
        OthersLeaveProgress(cfg, s, e);
        DoneGrows(s.chunks, Next(cfg, s, e).chunks);
      }
    }
  }

  /**
   If every run ends before its lease does and every nudge arrives, progress is exact at all times:
   the items of the chunks that have succeeded, and those of them that failed.
   */
  lemma {:induction false} ProgressIsExact(cfg: Config, now: int, es: seq<Event>)
    requires cfg.Valid() && Feasible(cfg, Init(cfg, now), es)
    requires TimelyRun(cfg, Init(cfg, now), es) && NudgesArrive(cfg, Init(cfg, now), es)
    ensures var s := Exec(cfg, Init(cfg, now), es);
            s.batch.completedItems == DoneItems(s.chunks) && s.batch.failedItems == FailedItems(s.chunks)
  {
    hide Next, Enabled, Exclusive, NudgeFails;
    if es != [] {
      var front, e := es[..|es| - 1], es[|es| - 1];
      var s := Exec(cfg, Init(cfg, now), front);
      ProgressIsExact(cfg, now, front);
      RunIsSafe(cfg, now, front);
      if e.CommitSuccess? {
        SuccessUpdates(cfg, s, e.run);
      } else {
        OthersLeaveProgress(cfg, s, e);
        LeaseExclusion(cfg, now, front);
        StepExcludes(cfg, s, e);
        SettledAreDone(s, e, Next(cfg, s, e));
        DoneStays(s.chunks, Next(cfg, s, e).chunks);
      }
    }
  }

  lemma SettledAreDone(s: State, e: Event, t: State)
    requires KeepsSettled(s, e, t) && !NudgeFails(s, e)
    ensures AllStillDone(s.chunks, t.chunks)
  {
    forall i | 0 <= i < |s.chunks| && s.chunks[i].status.Succeeded?
      ensures i < |t.chunks| && t.chunks[i] == s.chunks[i]
    {
      assert Untouched(s, e, i);
    }
  }

  // ---- Retries ---------------------------------------------------------------------------

  /** The chunks among the first k that have been tried. */
  function Tried(chunks: seq<Chunk>, k: nat): set<nat>
    requires k <= |chunks|
  {
    set i: nat | i < k && chunks[i].attempts >= 1
  }

  lemma {:induction false} RetriesAndTried(chunks: seq<Chunk>, k: nat)
    requires k <= |chunks|
    ensures Sum(Retries, chunks[..k]) + |Tried(chunks, k)| == Sum(Attempts, chunks[..k])
  {
    hide Sum;
    if k == 0 {
      assert chunks[..0] == [] && Tried(chunks, 0) == {};
      SumOfNone(Retries);
      SumOfNone(Attempts);
    } else {
      RetriesAndTried(chunks, k - 1);
      SumOfPrefix(Retries, chunks, k);
      SumOfPrefix(Attempts, chunks, k);
      assert Tried(chunks, k) == Tried(chunks, k - 1) + if chunks[k - 1].attempts >= 1 then {k - 1} else {};
    }
  }

  /** The retry counter is the number of runs ever started beyond the first one of each chunk. */
  lemma RetriesAreExtraRuns(cfg: Config, now: int, es: seq<Event>)
    requires cfg.Valid() && Feasible(cfg, Init(cfg, now), es)
    ensures var s := Exec(cfg, Init(cfg, now), es);
            s.batch.retryCount == s.nextRun - |set i: nat | i < |s.chunks| && s.chunks[i].attempts >= 1|
  {
    var s := Exec(cfg, Init(cfg, now), es);
    hide Exec, Feasible, Init, Sum, RowsFit, StoreSound, Backed, RunsSound, LifecycleSound, ResultsSound;
    RunIsSafe(cfg, now, es);
    Budget.RunsAreAttempts(cfg, now, es);
    RetriesAndTried(s.chunks, |s.chunks|);
    assert s.chunks[..|s.chunks|] == s.chunks;
    assert Tried(s.chunks, |s.chunks|) == set i: nat | i < |s.chunks| && s.chunks[i].attempts >= 1;
  }
}
