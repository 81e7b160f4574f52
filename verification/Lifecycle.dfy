/**
 How a batch moves between its statuses, how often a chunk is recorded as failed, and how many
 webhook chains and POSTs a batch gives rise to. All results are for arbitrary interleavings.
 */
module Lifecycle {
  import opened Options
  import opened Rows
  import opened Pipeline
  import opened Invariants

  /** The status changes one step can make. */
  predicate Follows(a: BatchStatus, b: BatchStatus) {
    || a == b
    || (a.BatchPending? && (b.Running? || b.BatchCancelled?))
    || (a.Running? && (b.BatchFailed? || b.BatchCancelled? || b.Completed?))
    || (a.BatchFailed? && b.Completed?)
  }

  /** Jobs that deliver a given event. */
  function Hooks(s: State, hook: Hook): nat {
    s.queue[WebhookJob(hook)]
  }

  /** The chunks that a step newly records as failed. */
  function NewlyFailed(s: State, t: State): set<nat> {
    set i: nat | i < |t.chunks| && t.chunks[i].status.ChunkFailed?
                 && !(i < |s.chunks| && s.chunks[i].status.ChunkFailed?)
  }

  /** Chains a step starts: delivery jobs it adds, other than after a failed POST or as a duplicate. */
  function ChainsStarted(cfg: Config, s: State, e: Event, hook: Hook): int
    requires Enabled(cfg, s, e)
  {
    if e.Deliver? || e.Lose? || e.Redeliver? then 0 else Hooks(Next(cfg, s, e), hook) - Hooks(s, hook)
  }

  function Chains(cfg: Config, s: State, es: seq<Event>, hook: Hook): int
    requires Feasible(cfg, s, es)
  {
    if es == [] then 0
    else Chains(cfg, s, es[..|es| - 1], hook) + ChainsStarted(cfg, Exec(cfg, s, es[..|es| - 1]), es[|es| - 1], hook)
  }

  /** How often, over a run, some chunk is newly recorded as failed. */
  function FailuresRecorded(cfg: Config, s: State, es: seq<Event>): nat
    requires Feasible(cfg, s, es)
  {
    if es == [] then 0
    else
      var before := Exec(cfg, s, es[..|es| - 1]);
      FailuresRecorded(cfg, s, es[..|es| - 1]) + |NewlyFailed(before, Next(cfg, before, es[|es| - 1]))|
  }

  /** A step that settles nothing: no verdict on the batch, no new failed chunk, no new delivery. */
  ghost predicate Undecided(s: State, t: State) {
    && Follows(s.batch.status, t.batch.status)
    && (t.batch.status.Completed? || t.batch.status.BatchFailed? ==> t.batch.status == s.batch.status)
    && NewlyFailed(s, t) == {}
    && Hooks(t, FailedHook) == Hooks(s, FailedHook) && Hooks(t, CompletedHook) == Hooks(s, CompletedHook)
  }

  lemma {:induction false} JobsForAreProcessJobs(chunks: seq<Chunk>, k: nat, pendingOnly: bool)
    requires k <= |chunks|
    ensures forall job | job in JobsFor(chunks, k, pendingOnly) :: job.ProcessJob?
  {
    if k > 0 {
      JobsForAreProcessJobs(chunks, k - 1, pendingOnly);
    }
  }

  lemma RowsStayUndecided(s: State, t: State)
    requires t.batch.status == s.batch.status
    requires Hooks(t, FailedHook) == Hooks(s, FailedHook) && Hooks(t, CompletedHook) == Hooks(s, CompletedHook)
    requires forall i | 0 <= i < |t.chunks| && t.chunks[i].status.ChunkFailed? ::
               i < |s.chunks| && s.chunks[i].status.ChunkFailed?
    ensures Undecided(s, t)
  {
  }

  lemma OrchestrateIsUndecided(cfg: Config, s: State)
    requires cfg.Valid() && Safe(cfg, s)
    ensures Undecided(s, OrchestrateBatch(cfg, s))
  {
    hide JobsFor, Safe, NewlyFailed, ReclaimAll, CreateChunkRows, FreshChunks, Codec.Valid;
    if !Ended(s.batch.status) {
      var chunks := ReclaimAll(CreateChunkRows(cfg, s.chunks), s.now);
      JobsForAreProcessJobs(chunks, |chunks|, false);
      PreparingFailsNone(cfg, s, OrchestrateBatch(cfg, s));
    } else {
      RowsStayUndecided(s, OrchestrateBatch(cfg, s));
    }
  }

  lemma PreparingFailsNone(cfg: Config, s: State, t: State)
    requires cfg.chunkSize >= 1 && t.chunks == ReclaimAll(CreateChunkRows(cfg, s.chunks), s.now)
    ensures NewlyFailed(s, t) == {}
  {
    hide Config.Slots;
  }

  lemma StartIsUndecided(cfg: Config, s: State, i: nat)
    ensures Undecided(s, StartRun(cfg, s, i))
  {
    hide StartRun, CanStart, Hooks;
    StartCases(cfg, s, i);
    StartHooks(cfg, s, i);
    RowsStayUndecided(s, StartRun(cfg, s, i));
  }

  lemma StartHooks(cfg: Config, s: State, i: nat)
    ensures forall hook :: Hooks(StartRun(cfg, s, i), hook) == Hooks(s, hook)
  {
    hide StartRun, CanStart, StartedOn;
    StartCases(cfg, s, i);
  }

  lemma SuccessIsUndecided(cfg: Config, s: State, run: nat)
    requires Enabled(cfg, s, CommitSuccess(run))
    ensures Undecided(s, CommitSucceeded(cfg, s, run))
  {
    hide Sum;
    RowsStayUndecided(s, CommitSucceeded(cfg, s, run));
  }

  lemma AbortIsUndecided(s: State, run: nat)
    requires run in s.runs && s.runs[run].chunk < |s.chunks|
    ensures Undecided(s, CommitAborted(s, run))
  {
    RowsStayUndecided(s, CommitAborted(s, run));
  }

  lemma ScanRows(s: State)
    ensures forall i | 0 <= i < |ScanCompletion(s).chunks| && ScanCompletion(s).chunks[i].status.ChunkFailed? ::
              i < |s.chunks| && s.chunks[i].status.ChunkFailed?
  {
    hide ScanCompletion;
    ScanChunks(s);
  }

  lemma ScanHooks(s: State)
    requires !Ended(s.batch.status) ==> !Conclude(ReclaimAll(s.chunks, s.now)).AllFailed?
    ensures ScanCompletion(s).batch == s.batch
    ensures Hooks(ScanCompletion(s), FailedHook) == Hooks(s, FailedHook)
    ensures Hooks(ScanCompletion(s), CompletedHook) == Hooks(s, CompletedHook)
  {
    hide Conclude, ReclaimAll;
  }

  lemma ScanIsUndecided(cfg: Config, s: State)
    requires cfg.Valid() && Safe(cfg, s)
    ensures Undecided(s, ScanCompletion(s))
  {
    hide ScanCompletion, Conclude, Safe, ReclaimAll;
    if !Ended(s.batch.status) {
      NoneFails(cfg, s);
    }
    ScanRows(s);
    ScanHooks(s);
    RowsStayUndecided(s, ScanCompletion(s));
  }

  lemma RequeueIsUndecided(s: State)
    requires s.scans > 0
    ensures Undecided(s, RequeuePending(s))
  {
    hide JobsFor;
    var chunks := ReclaimAll(s.chunks, s.now);
    JobsForAreProcessJobs(chunks, |chunks|, true);
    RowsStayUndecided(s, RequeuePending(s));
  }

  lemma CancelIsUndecided(s: State)
    ensures Undecided(s, CancelBatch(s))
  {
  }

  /** Only an exhausted chunk and a finalized batch settle anything. */
  lemma MostStepsAreUndecided(cfg: Config, s: State, e: Event)
    requires cfg.Valid() && Safe(cfg, s) && Enabled(cfg, s, e)
    requires !e.CommitFailure? && !e.Finalize? && !e.Deliver? && !e.Lose? && !e.Redeliver?
    ensures Undecided(s, Next(cfg, s, e))
  {
    hide Safe, OrchestrateBatch, StartRun, GatherOutcomes, WriteCheckpoint, CommitSucceeded, CommitAborted,
         CommitFailed, ScanCompletion, RequeuePending, FinalizeBatch, DeliverHook;
    match e {
      case Cancel => CancelIsUndecided(s);
      case Orchestrate => OrchestrateIsUndecided(cfg, s);
      case Start(i) => StartIsUndecided(cfg, s, i);
      case CommitSuccess(run) => SuccessIsUndecided(cfg, s, run);
      case CommitCancelled(run) => AbortIsUndecided(s, run);
      case CheckScan => ScanIsUndecided(cfg, s);
      case CheckRequeue => RequeueIsUndecided(s);
      case Gather(run, outcomes) => GatherIsUndecided(s, run, outcomes);
      case Checkpoint(run) => WriteIsUndecided(cfg, s, run);
      case CommitFailure(_) =>
      case Finalize =>
      case Deliver(_, _) =>
      case Lose(_) =>
      case Redeliver(_) =>
      case _ => RowsStayUndecided(s, Next(cfg, s, e));
    }
  }

  lemma GatherIsUndecided(s: State, run: nat, outcomes: seq<Row>)
    requires run in s.runs
    ensures Undecided(s, GatherOutcomes(s, run, outcomes))
  {
  }

  lemma WriteIsUndecided(cfg: Config, s: State, run: nat)
    requires run in s.runs && s.runs[run].phase.Gathered?
    ensures Undecided(s, WriteCheckpoint(cfg, s, run))
  {
  }

  /** The exception handler either decides nothing, or fails one chunk and the running batch at once. */
  lemma FailureDecides(cfg: Config, s: State, run: nat)
    requires cfg.Valid() && Safe(cfg, s) && Enabled(cfg, s, CommitFailure(run))
    ensures var t := CommitFailed(cfg, s, run);
            || Undecided(s, t)
            || (&& s.batch.status.Running? && t.batch.status.BatchFailed?
                && NewlyFailed(s, t) == {s.runs[run].chunk}
                && Hooks(t, FailedHook) == Hooks(s, FailedHook) + 1
                && Hooks(t, CompletedHook) == Hooks(s, CompletedHook))
  {
    hide Undecided, NewlyFailed, StoreSound, RunsSound, CountersSound, ResultsSound, Backed, RowsFit, Codec.Valid;
    var t := CommitFailed(cfg, s, run);
    var i := s.runs[run].chunk;
    if s.chunks[i].attempts >= cfg.maxAttempts && s.batch.status.Running? {
      OneRowFails(s, t, i);
    } else {
      RetryIsUndecided(cfg, s, run);
    }
  }

  lemma RetryIsUndecided(cfg: Config, s: State, run: nat)
    requires run in s.runs && s.runs[run].chunk < |s.chunks|
    requires s.chunks[s.runs[run].chunk].attempts < cfg.maxAttempts || !s.batch.status.Running?
    ensures Undecided(s, CommitFailed(cfg, s, run))
  {
    hide Undecided;
    RowsStayUndecided(s, CommitFailed(cfg, s, run));
  }

  lemma OneRowFails(s: State, t: State, i: nat)
    requires i < |s.chunks| && NoFailedRow(s.chunks)
    requires t.chunks == s.chunks[i := s.chunks[i].(status := ChunkFailed, leasedUntil := None)]
    ensures NewlyFailed(s, t) == {i}
  {
  }

  lemma FinalizeDecides(cfg: Config, s: State)
    requires cfg.Valid() && Safe(cfg, s)
    ensures var t := FinalizeBatch(cfg, s);
            || Undecided(s, t)
            || (&& (s.batch.status.Running? || s.batch.status.BatchFailed?) && t.batch.status.Completed?
                && NewlyFailed(s, t) == {}
                && Hooks(t, FailedHook) == Hooks(s, FailedHook)
                && Hooks(t, CompletedHook) == Hooks(s, CompletedHook) + 1)
  {
    hide ResultsBody, ManifestOf, AllSucceeded;
    var t := FinalizeBatch(cfg, s);
    if t.batch.status == s.batch.status {
      RowsStayUndecided(s, t);
    }
  }

  lemma DeliveryDecides(cfg: Config, s: State, e: Event)
    requires Enabled(cfg, s, e) && (e.Deliver? || e.Lose? || e.Redeliver?)
    ensures Next(cfg, s, e).batch.status == s.batch.status && NewlyFailed(s, Next(cfg, s, e)) == {}
  {
    hide OrchestrateBatch, StartRun, GatherOutcomes, WriteCheckpoint, CommitSucceeded, CommitAborted, CommitFailed,
         ScanCompletion, RequeuePending, FinalizeBatch, CancelBatch, ReclaimAll, DeliverHook, NewlyFailed;
    if e.Deliver? {
      DeliverDecidesNothing(cfg, s, e.hook, e.ok);
    }
    SameRowsNoneFailed(s, Next(cfg, s, e));
  }

  lemma DeliverDecidesNothing(cfg: Config, s: State, hook: Hook, ok: bool)
    ensures DeliverHook(cfg, s, hook, ok).batch.status == s.batch.status
    ensures DeliverHook(cfg, s, hook, ok).chunks == s.chunks
  {
  }

  lemma SameRowsNoneFailed(s: State, t: State)
    requires t.chunks == s.chunks
    ensures NewlyFailed(s, t) == {}
  {
  }

  /** What one step can do to the batch's status, its failed chunks and its webhook chains. */
  ghost predicate Decision(cfg: Config, s: State, e: Event)
    requires Enabled(cfg, s, e)
  {
    var t := Next(cfg, s, e);
    && Follows(s.batch.status, t.batch.status)
    && ChainsStarted(cfg, s, e, FailedHook) == |NewlyFailed(s, t)|
    && |NewlyFailed(s, t)| == (if !s.batch.status.BatchFailed? && t.batch.status.BatchFailed? then 1 else 0)
    && (|NewlyFailed(s, t)| > 0 ==> s.batch.status.Running?)
    && ChainsStarted(cfg, s, e, CompletedHook)
       == (if !s.batch.status.Completed? && t.batch.status.Completed? then 1 else 0)
  }

  lemma HandlerIsNext(cfg: Config, s: State, run: nat)
    requires Enabled(cfg, s, CommitFailure(run))
    ensures Next(cfg, s, CommitFailure(run)) == CommitFailed(cfg, s, run)
    ensures run in s.runs && s.runs[run].chunk < |s.chunks|
  {
    hide CommitFailed;
  }

  lemma FailureStepDecides(cfg: Config, s: State, run: nat)
    requires cfg.Valid() && Safe(cfg, s) && Enabled(cfg, s, CommitFailure(run))
    ensures Decision(cfg, s, CommitFailure(run))
  {
    hide Safe, Enabled, Next, CommitFailed, Hooks, NewlyFailed, Codec.Valid;
    FailureDecides(cfg, s, run);
    HandlerIsNext(cfg, s, run);
  }

  lemma FinalizeStepDecides(cfg: Config, s: State)
    requires cfg.Valid() && Safe(cfg, s) && Enabled(cfg, s, Finalize)
    ensures Decision(cfg, s, Finalize)
  {
    hide Safe, FinalizeBatch, Hooks, NewlyFailed, Codec.Valid;
    FinalizeDecides(cfg, s);
  }

  lemma DeliveryStepDecides(cfg: Config, s: State, e: Event)
    requires Enabled(cfg, s, e) && (e.Deliver? || e.Lose? || e.Redeliver?)
    ensures Decision(cfg, s, e)
  {
    hide Enabled, Next, Hooks, NewlyFailed;
    DeliveryDecides(cfg, s, e);
  }

  lemma UndecidedStepDecides(cfg: Config, s: State, e: Event)
    requires cfg.Valid() && Safe(cfg, s) && Enabled(cfg, s, e)
    requires !e.CommitFailure? && !e.Finalize? && !e.Deliver? && !e.Lose? && !e.Redeliver?
    ensures Decision(cfg, s, e)
  {
    hide Safe, Enabled, Next, Hooks, NewlyFailed, Codec.Valid;
    MostStepsAreUndecided(cfg, s, e);
  }

  lemma StepDecides(cfg: Config, s: State, e: Event)
    requires cfg.Valid() && Safe(cfg, s) && Enabled(cfg, s, e)
    ensures Decision(cfg, s, e)
  {
    hide Safe, Enabled, Decision, Codec.Valid;
    if e.CommitFailure? {
      FailureStepDecides(cfg, s, e.run);
    } else if e.Finalize? {
      FinalizeStepDecides(cfg, s);
    } else if e.Deliver? || e.Lose? || e.Redeliver? {
      DeliveryStepDecides(cfg, s, e);
    } else {
      UndecidedStepDecides(cfg, s, e);
    }
  }

  // ---- Whole runs ------------------------------------------------------------------------

  lemma {:induction false} SafeAlong(cfg: Config, s: State, es: seq<Event>)
    requires cfg.Valid() && Safe(cfg, s) && Feasible(cfg, s, es)
    ensures Safe(cfg, Exec(cfg, s, es))
  {
    if es != [] {
      SafeAlong(cfg, s, es[..|es| - 1]);
      StepIsSafe(cfg, Exec(cfg, s, es[..|es| - 1]), es[|es| - 1]);
    }
  }

  /** `completed` and `cancelled` are final, and no ended batch ever runs again. */
  lemma {:induction false} EndedStaysEnded(cfg: Config, s: State, es: seq<Event>)
    requires cfg.Valid() && Safe(cfg, s) && Feasible(cfg, s, es)
    ensures Ended(s.batch.status) ==> Ended(Exec(cfg, s, es).batch.status)
    ensures s.batch.status.Completed? || s.batch.status.BatchCancelled? ==>
              Exec(cfg, s, es).batch.status == s.batch.status
    ensures !s.batch.status.BatchPending? ==> !Exec(cfg, s, es).batch.status.BatchPending?
  {
    if es != [] {
      EndedStaysEnded(cfg, s, es[..|es| - 1]);
      SafeAlong(cfg, s, es[..|es| - 1]);
      StepDecides(cfg, Exec(cfg, s, es[..|es| - 1]), es[|es| - 1]);
    }
  }

  /**
   Over a whole run at most one chunk is ever recorded as failed, exactly as often as a
   `batch.failed` chain is started, and at most one `batch.completed` chain is started.
   */
  lemma {:induction false} AtMostOneVerdict(cfg: Config, now: int, es: seq<Event>)
    requires cfg.Valid() && Feasible(cfg, Init(cfg, now), es)
    ensures var s := Exec(cfg, Init(cfg, now), es);
            && FailuresRecorded(cfg, Init(cfg, now), es) == Chains(cfg, Init(cfg, now), es, FailedHook) <= 1
            && (s.batch.status.BatchFailed? ==> Chains(cfg, Init(cfg, now), es, FailedHook) == 1)
            && (!s.batch.status.BatchFailed? && !s.batch.status.Completed? ==>
                  Chains(cfg, Init(cfg, now), es, FailedHook) == 0)
            && Chains(cfg, Init(cfg, now), es, CompletedHook) == (if s.batch.status.Completed? then 1 else 0)
  {
    if es != [] {
      hide NewlyFailed, ChainsStarted;
      var front := es[..|es| - 1];
      AtMostOneVerdict(cfg, now, front);
      RunIsSafe(cfg, now, front);
      StepDecides(cfg, Exec(cfg, Init(cfg, now), front), es[|es| - 1]);
    }
  }

  /** At any time at most one row is failed, and only while the batch is failed. */
  lemma {:induction false} AtMostOneFailedRow(cfg: Config, now: int, es: seq<Event>)
    requires cfg.Valid() && Feasible(cfg, Init(cfg, now), es)
    ensures var s := Exec(cfg, Init(cfg, now), es);
            && (forall i, j | 0 <= i < |s.chunks| && 0 <= j < |s.chunks| ::
                  s.chunks[i].status.ChunkFailed? && s.chunks[j].status.ChunkFailed? ==> i == j)
            && (!s.batch.status.BatchFailed? ==> NoFailedRow(s.chunks))
  {
    RunIsSafe(cfg, now, es);
    if es != [] {
      var front := es[..|es| - 1];
      var before := Exec(cfg, Init(cfg, now), front);
      AtMostOneFailedRow(cfg, now, front);
      RunIsSafe(cfg, now, front);
      StepDecides(cfg, before, es[|es| - 1]);
      FailedRowsStep(before, Exec(cfg, Init(cfg, now), es));
    }
  }

  lemma FailedRowsStep(s: State, t: State)
    requires |NewlyFailed(s, t)| <= 1
    requires |NewlyFailed(s, t)| > 0 ==> NoFailedRow(s.chunks)
    requires forall i, j | 0 <= i < |s.chunks| && 0 <= j < |s.chunks| ::
               s.chunks[i].status.ChunkFailed? && s.chunks[j].status.ChunkFailed? ==> i == j
    ensures forall i, j | 0 <= i < |t.chunks| && 0 <= j < |t.chunks| ::
              t.chunks[i].status.ChunkFailed? && t.chunks[j].status.ChunkFailed? ==> i == j
  {
    forall i, j | 0 <= i < |t.chunks| && 0 <= j < |t.chunks| && t.chunks[i].status.ChunkFailed?
        && t.chunks[j].status.ChunkFailed?
      ensures i == j
    {
      var failed := NewlyFailed(s, t);
      if i in failed || j in failed {
        assert failed != {};
        assert {i, j} <= failed;
        SubsetIsSmaller({i, j}, failed);
      }
    }
  }

  lemma {:induction false} SubsetIsSmaller(a: set<nat>, b: set<nat>)
    requires a <= b
    ensures |a| <= |b|
  {
    if a != {} {
      var x :| x in a;
      SubsetIsSmaller(a - {x}, b - {x});
    }
  }
}
