/**
 The attempt budget: how many runs a chunk can be leased to, and why the retry loop ends.
 */
module Budget {
  import opened Rows
  import opened Pipeline
  import opened Sums
  import opened Invariants

  /** `chunk_max_attempts`, except that a chunk is always tried once. */
  function Allowed(cfg: Config): nat {
    if cfg.maxAttempts >= 1 then cfg.maxAttempts else 1
  }

  /** Steps that can take leases away. */
  predicate TakesLeases(e: Event) {
    e.Orchestrate? || e.Start? || e.Reclaim? || e.CheckScan? || e.CheckRequeue?
  }

  /** Whether a step takes chunk c's lease away from its holder: a reclaim, or a takeover by a new run. */
  predicate LeaseLost(cfg: Config, s: State, e: Event, c: nat)
    requires Enabled(cfg, s, e)
  {
    && TakesLeases(e)
    && c < |s.chunks| && s.chunks[c].status.Leased?
    && c < |Next(cfg, s, e).chunks| && Next(cfg, s, e).chunks[c] != s.chunks[c]
  }

  /** How often chunk c's lease was lost over a run. */
  function Expiries(cfg: Config, s: State, es: seq<Event>, c: nat): nat
    requires Feasible(cfg, s, es)
  {
    if es == [] then 0
    else
      var front := es[..|es| - 1];
      Expiries(cfg, s, front, c) + if LeaseLost(cfg, Exec(cfg, s, front), es[|es| - 1], c) then 1 else 0
  }

  function ExpiriesOfFirst(cfg: Config, s: State, es: seq<Event>, k: nat): nat
    requires Feasible(cfg, s, es)
  {
    if k == 0 then 0 else ExpiriesOfFirst(cfg, s, es, k - 1) + Expiries(cfg, s, es, k - 1)
  }

  /** A row within its budget, with room for one more lease unless it will not be leased again. */
  predicate RowInBudget(row: Chunk, cancelled: bool, allowed: nat, expiries: nat) {
    && row.attempts <= allowed + expiries
    && (row.status.ChunkPending? && !cancelled ==> row.attempts < allowed + expiries)
  }

  predicate InBudget(cfg: Config, s: State, c: nat, expiries: nat) {
    c < |s.chunks| ==> RowInBudget(s.chunks[c], s.batch.status.BatchCancelled?, Allowed(cfg), expiries)
  }

  lemma BulkInBudget(cfg: Config, s: State, t: State, c: nat, expiries: nat)
    requires InBudget(cfg, s, c, expiries)
    requires t.chunks == ReclaimAll(s.chunks, s.now)
    requires s.batch.status.BatchCancelled? ==> t.batch.status.BatchCancelled?
    ensures InBudget(cfg, t, c,
                     expiries + if c < |s.chunks| && s.chunks[c].status.Leased?
                         && t.chunks[c] != s.chunks[c] then 1 else 0)
  {
  }

  lemma ScanInBudget(cfg: Config, s: State, c: nat, expiries: nat)
    requires InBudget(cfg, s, c, expiries) && CheckJob in s.queue
    ensures InBudget(cfg, ScanCompletion(s), c, expiries + if LeaseLost(cfg, s, CheckScan, c) then 1 else 0)
  {
    hide Conclude, InBudget, ReclaimAll, ActOn;
    ScanChunks(s);
    if Ended(s.batch.status) {
      SameRowInBudget(cfg, s, ScanCompletion(s), c, expiries);
    } else {
      BulkInBudget(cfg, s, ScanCompletion(s), c, expiries);
    }
  }

  lemma SameRowInBudget(cfg: Config, s: State, t: State, c: nat, expiries: nat)
    requires InBudget(cfg, s, c, expiries)
    requires c < |t.chunks| ==> c < |s.chunks| && t.chunks[c] == s.chunks[c]
    requires s.batch.status.BatchCancelled? ==> t.batch.status.BatchCancelled?
    ensures InBudget(cfg, t, c, expiries)
  {
  }

  lemma OrchestrateInBudget(cfg: Config, s: State, c: nat, expiries: nat)
    requires cfg.Valid() && InBudget(cfg, s, c, expiries) && OrchestrateJob in s.queue
    ensures InBudget(cfg, OrchestrateBatch(cfg, s), c, expiries + if LeaseLost(cfg, s, Orchestrate, c) then 1 else 0)
  {
    hide JobsFor;
  }

  lemma StartInBudget(cfg: Config, s: State, i: nat, c: nat, expiries: nat)
    requires cfg.Valid() && Safe(cfg, s) && InBudget(cfg, s, c, expiries) && ProcessJob(i) in s.queue
    ensures InBudget(cfg, StartRun(cfg, s, i), c, expiries + if LeaseLost(cfg, s, Start(i), c) then 1 else 0)
  {
    hide Safe, InBudget, StartRun, CanStart, Enabled, Next, Codec.Valid;
    NextOfStart(cfg, s, i);
    StartCases(cfg, s, i);
    if CanStart(cfg, s, i) {
      StartedRowIsOpen(cfg, s, i);
      LeaseInBudget(cfg, s, StartRun(cfg, s, i), i, c, expiries);
    } else {
      SameRowInBudget(cfg, s, StartRun(cfg, s, i), c, expiries);
    }
  }

  lemma StartedRowIsOpen(cfg: Config, s: State, i: nat)
    requires cfg.Valid() && Safe(cfg, s) && CanStart(cfg, s, i)
    ensures s.chunks[i].status.ChunkPending? || s.chunks[i].status.Leased?
    ensures !s.batch.status.BatchCancelled?
  {
    hide RowsFit, StoreSound, Backed, RunsSound, CountersSound, ResultsSound, Codec.Valid;
  }

  /** Leasing a pending row uses up its room; taking over a lease uses up the expiry. */
  lemma LeaseInBudget(cfg: Config, s: State, t: State, i: nat, c: nat, expiries: nat)
    requires InBudget(cfg, s, c, expiries) && StartedOn(cfg, s, t, i) && !s.batch.status.BatchCancelled?
    requires s.chunks[i].status.ChunkPending? || s.chunks[i].status.Leased?
    ensures InBudget(cfg, t, c,
                     expiries + if c < |s.chunks| && s.chunks[c].status.Leased?
                         && t.chunks[c] != s.chunks[c] then 1 else 0)
  {
  }

  lemma FailureInBudget(cfg: Config, s: State, run: nat, c: nat, expiries: nat)
    requires InBudget(cfg, s, c, expiries) && Enabled(cfg, s, CommitFailure(run))
    ensures InBudget(cfg, CommitFailed(cfg, s, run), c, expiries)
  {
  }

  lemma AbortInBudget(cfg: Config, s: State, run: nat, c: nat, expiries: nat)
    requires cfg.Valid() && Safe(cfg, s)
    requires InBudget(cfg, s, c, expiries) && Enabled(cfg, s, CommitCancelled(run))
    ensures InBudget(cfg, CommitAborted(s, run), c, expiries)
  {
    assert RunSound(cfg, s, s.runs[run]);
  }

  lemma SuccessInBudget(cfg: Config, s: State, run: nat, c: nat, expiries: nat)
    requires InBudget(cfg, s, c, expiries) && Enabled(cfg, s, CommitSuccess(run))
    ensures InBudget(cfg, CommitSucceeded(cfg, s, run), c, expiries)
  {
    hide Sum;
  }

  lemma FinalizeInBudget(cfg: Config, s: State, c: nat, expiries: nat)
    requires InBudget(cfg, s, c, expiries)
    ensures InBudget(cfg, FinalizeBatch(cfg, s), c, expiries)
  {
    hide ResultsBody, ManifestOf, AllSucceeded;
  }

  lemma TakingStepInBudget(cfg: Config, s: State, e: Event, c: nat, expiries: nat)
    requires cfg.Valid() && Safe(cfg, s) && Enabled(cfg, s, e) && InBudget(cfg, s, c, expiries) && TakesLeases(e)
    ensures InBudget(cfg, Next(cfg, s, e), c, expiries + if LeaseLost(cfg, s, e, c) then 1 else 0)
  {
    hide Safe, InBudget, OrchestrateBatch, StartRun, CommitSucceeded, CommitAborted, CommitFailed, GatherOutcomes,
         WriteCheckpoint, ScanCompletion, FinalizeBatch, DeliverHook, CancelBatch, ReclaimAll, JobsFor, ItemsRead,
         NoneCancelled, Codec.Valid;
    match e {
      case Orchestrate => OrchestrateInBudget(cfg, s, c, expiries);
      case Start(i) => StartInBudget(cfg, s, i, c, expiries);
      case CheckScan => ScanInBudget(cfg, s, c, expiries);
      case Reclaim => BulkInBudget(cfg, s, Next(cfg, s, e), c, expiries);
      case CheckRequeue => BulkInBudget(cfg, s, Next(cfg, s, e), c, expiries);
    }
  }

  lemma OtherStepInBudget(cfg: Config, s: State, e: Event, c: nat, expiries: nat)
    requires cfg.Valid() && Safe(cfg, s) && Enabled(cfg, s, e) && InBudget(cfg, s, c, expiries) && !TakesLeases(e)
    ensures InBudget(cfg, Next(cfg, s, e), c, expiries)
  {
    hide Safe, InBudget, OrchestrateBatch, StartRun, CommitSucceeded, CommitAborted, CommitFailed, GatherOutcomes,
         WriteCheckpoint, ScanCompletion, RequeuePending, FinalizeBatch, DeliverHook, CancelBatch, ReclaimAll,
         JobsFor, ItemsRead, NoneCancelled, Codec.Valid;
    match e {
      case Gather(run, outcomes) => GatherInBudget(cfg, s, run, outcomes, c, expiries);
      case Checkpoint(run) => WriteInBudget(cfg, s, run, c, expiries);
      case Cancel => CancelInBudget(cfg, s, c, expiries);
      case CommitSuccess(run) => SuccessInBudget(cfg, s, run, c, expiries);
      case CommitCancelled(run) => AbortInBudget(cfg, s, run, c, expiries);
      case CommitFailure(run) => FailureInBudget(cfg, s, run, c, expiries);
      case Finalize => FinalizeInBudget(cfg, s, c, expiries);
      case Deliver(hook, ok) =>
        DeliverKeepsRows(cfg, s, hook, ok);
        SameRowInBudget(cfg, s, Next(cfg, s, e), c, expiries);
      case Tick(_) => SameRowInBudget(cfg, s, Next(cfg, s, e), c, expiries);
      case Redeliver(_) => SameRowInBudget(cfg, s, Next(cfg, s, e), c, expiries);
      case Lose(_) => SameRowInBudget(cfg, s, Next(cfg, s, e), c, expiries);
      case Nudge(_) => SameRowInBudget(cfg, s, Next(cfg, s, e), c, expiries);
      case Crash(_) => SameRowInBudget(cfg, s, Next(cfg, s, e), c, expiries);
      case CheckCrash(_) => SameRowInBudget(cfg, s, Next(cfg, s, e), c, expiries);
    }
  }

  lemma StepInBudget(cfg: Config, s: State, e: Event, c: nat, expiries: nat)
    requires cfg.Valid() && Safe(cfg, s) && Enabled(cfg, s, e) && InBudget(cfg, s, c, expiries)
    ensures InBudget(cfg, Next(cfg, s, e), c, expiries + if LeaseLost(cfg, s, e, c) then 1 else 0)
  {
    hide Safe, InBudget, Enabled, Next, Codec.Valid;
    if TakesLeases(e) {
      TakingStepInBudget(cfg, s, e, c, expiries);
    } else {
      OtherStepInBudget(cfg, s, e, c, expiries);
    }
  }

  lemma GatherInBudget(cfg: Config, s: State, run: nat, outcomes: seq<Row>, c: nat, expiries: nat)
    requires InBudget(cfg, s, c, expiries) && run in s.runs
    ensures InBudget(cfg, GatherOutcomes(s, run, outcomes), c, expiries)
  {
    hide NoneCancelled, SortByIndex;
  }

  lemma WriteInBudget(cfg: Config, s: State, run: nat, c: nat, expiries: nat)
    requires InBudget(cfg, s, c, expiries) && run in s.runs && s.runs[run].phase.Gathered?
    ensures InBudget(cfg, WriteCheckpoint(cfg, s, run), c, expiries)
  {
    hide Codec.Written, CountOk;
  }

  lemma CancelInBudget(cfg: Config, s: State, c: nat, expiries: nat)
    requires InBudget(cfg, s, c, expiries)
    ensures InBudget(cfg, CancelBatch(s), c, expiries)
  {
  }

  lemma DeliverKeepsRows(cfg: Config, s: State, hook: Hook, ok: bool)
    ensures DeliverHook(cfg, s, hook, ok).chunks == s.chunks
    ensures DeliverHook(cfg, s, hook, ok).batch.status == s.batch.status
  {
  }

  lemma StartTakesExpiredLeases(cfg: Config, s: State, i: nat, c: nat)
    requires c < |s.chunks| && s.chunks[c].status.Leased? && s.chunks[c].leasedUntil.Some?
    requires s.chunks[c].leasedUntil.value > s.now
    ensures c < |StartRun(cfg, s, i).chunks| && StartRun(cfg, s, i).chunks[c] == s.chunks[c]
  {
  }

  /** Steps that take leases without starting a run take them by reclaiming. */
  lemma OthersReclaim(cfg: Config, s: State, e: Event)
    requires Enabled(cfg, s, e) && TakesLeases(e) && !e.Start? && s.chunks != []
    ensures Next(cfg, s, e).chunks == s.chunks || Next(cfg, s, e).chunks == ReclaimAll(s.chunks, s.now)
  {
    hide StartRun, CommitSucceeded, CommitAborted, CommitFailed, GatherOutcomes, WriteCheckpoint, ScanCompletion,
         FinalizeBatch, DeliverHook, CancelBatch, JobsFor, ReclaimAll;
    ScanChunks(s);
  }

  lemma LeasedHasDeadline(cfg: Config, s: State, c: nat)
    requires cfg.Valid() && Safe(cfg, s) && c < |s.chunks| && s.chunks[c].status.Leased?
    ensures s.chunks[c].leasedUntil.Some?
  {
    hide StoreSound, Backed, RunsSound, CountersSound, LifecycleSound, ResultsSound, Codec.Valid, Config.Slots;
    assert RowFits(cfg, s.chunks[c], c);
  }

  /** A lease is only ever lost once it has run out. */
  lemma OnlyExpiredLeasesAreLost(cfg: Config, s: State, e: Event, c: nat)
    requires cfg.Valid() && Safe(cfg, s) && Enabled(cfg, s, e) && LeaseLost(cfg, s, e, c)
    ensures s.chunks[c].leasedUntil.Some? && s.chunks[c].leasedUntil.value <= s.now
  {
    hide Safe, Next, Enabled, StartRun, Codec.Valid;
    LeasedHasDeadline(cfg, s, c);
    if e.Start? {
      JobOfStart(cfg, s, e.chunk);
      NextOfStart(cfg, s, e.chunk);
      if s.chunks[c].leasedUntil.value > s.now {
        StartTakesExpiredLeases(cfg, s, e.chunk, c);
      }
    } else {
      OthersReclaim(cfg, s, e);
    }
  }

  /**
   Attempt budget: over any run, a chunk's attempts never exceed the allowed attempts plus the
   number of times its lease expired and was reclaimed or taken over.
   */
  lemma {:induction false} AttemptBudget(cfg: Config, now: int, es: seq<Event>, c: nat)
    requires cfg.Valid() && Feasible(cfg, Init(cfg, now), es)
    ensures var s := Exec(cfg, Init(cfg, now), es);
            && InBudget(cfg, s, c, Expiries(cfg, Init(cfg, now), es, c))
            && (c < |s.chunks| ==> s.chunks[c].attempts <= Allowed(cfg) + Expiries(cfg, Init(cfg, now), es, c))
  {
    if es != [] {
      hide LeaseLost;
      var front := es[..|es| - 1];
      AttemptBudget(cfg, now, front, c);
      RunIsSafe(cfg, now, front);
      StepInBudget(cfg, Exec(cfg, Init(cfg, now), front), es[|es| - 1], c, Expiries(cfg, Init(cfg, now), front, c));
    }
  }

  // ---- All runs of a batch ---------------------------------------------------------------

  ghost predicate AttemptsAreRuns(s: State) {
    s.nextRun == Sum(Attempts, s.chunks)
  }

  lemma SameAttempts(s: State, t: State)
    requires AttemptsAreRuns(s) && t.nextRun == s.nextRun && |t.chunks| == |s.chunks|
    requires forall i | 0 <= i < |t.chunks| :: t.chunks[i].attempts == s.chunks[i].attempts
    ensures AttemptsAreRuns(t)
  {
    SumSame(Attempts, t.chunks, s.chunks);
  }

  lemma OrchestrateCountsRuns(cfg: Config, s: State)
    requires cfg.Valid() && AttemptsAreRuns(s)
    ensures AttemptsAreRuns(OrchestrateBatch(cfg, s))
  {
    hide JobsFor;
    if !Ended(s.batch.status) {
      var rows := CreateChunkRows(cfg, s.chunks);
      if s.chunks == [] {
        SumOfFresh(Attempts, rows);
      }
      ReclaimKeepsSum(Attempts, rows, s.now);
    }
  }

  lemma StartCountsRuns(cfg: Config, s: State, i: nat)
    requires AttemptsAreRuns(s)
    ensures AttemptsAreRuns(StartRun(cfg, s, i))
  {
    hide Leasable;
    if i < |s.chunks| {
      SumUpdate(Attempts, s.chunks, i, LeaseRow(s.chunks[i], s.now + cfg.leaseSeconds));
    }
  }

  lemma CommitCountsRuns(cfg: Config, s: State, run: nat)
    requires run in s.runs && s.runs[run].chunk < |s.chunks| && AttemptsAreRuns(s)
    ensures AttemptsAreRuns(CommitAborted(s, run))
    ensures AttemptsAreRuns(CommitFailed(cfg, s, run))
    ensures s.runs[run].phase.Checkpointed? ==> AttemptsAreRuns(CommitSucceeded(cfg, s, run))
  {
    hide AttemptsAreRuns, Sum;
    SameAttempts(s, CommitAborted(s, run));
    SameAttempts(s, CommitFailed(cfg, s, run));
    if s.runs[run].phase.Checkpointed? {
      SameAttempts(s, CommitSucceeded(cfg, s, run));
    }
  }

  lemma ScanCountsRuns(s: State)
    requires AttemptsAreRuns(s)
    ensures AttemptsAreRuns(ScanCompletion(s))
  {
    hide ScanCompletion, AttemptsAreRuns;
    ScanChunks(s);
    SameAttempts(s, ScanCompletion(s));
  }

  lemma FinalizeCountsRuns(cfg: Config, s: State)
    requires AttemptsAreRuns(s)
    ensures AttemptsAreRuns(FinalizeBatch(cfg, s))
  {
    hide ResultsBody, ManifestOf, AllSucceeded, Sum;
  }

  lemma StepCountsRuns(cfg: Config, s: State, e: Event)
    requires cfg.Valid() && Enabled(cfg, s, e) && AttemptsAreRuns(s)
    ensures AttemptsAreRuns(Next(cfg, s, e))
  {
    hide AttemptsAreRuns, OrchestrateBatch, StartRun, CommitSucceeded, CommitAborted, CommitFailed, ScanCompletion,
         FinalizeBatch, DeliverHook, JobsFor;
    match e {
      case Orchestrate => OrchestrateCountsRuns(cfg, s);
      case Start(i) => StartCountsRuns(cfg, s, i);
      case CommitSuccess(run) => CommitCountsRuns(cfg, s, run);
      case CommitCancelled(run) => CommitCountsRuns(cfg, s, run);
      case CommitFailure(run) => CommitCountsRuns(cfg, s, run);
      case CheckScan => ScanCountsRuns(s);
      case Finalize => FinalizeCountsRuns(cfg, s);
      case Deliver(hook, ok) => DeliverCountsRuns(cfg, s, hook, ok);
      case _ => SameAttempts(s, Next(cfg, s, e));
    }
  }

  lemma DeliverCountsRuns(cfg: Config, s: State, hook: Hook, ok: bool)
    requires AttemptsAreRuns(s)
    ensures AttemptsAreRuns(DeliverHook(cfg, s, hook, ok))
  {
    hide Sum;
  }

  lemma {:induction false} RunsAreAttempts(cfg: Config, now: int, es: seq<Event>)
    requires cfg.Valid() && Feasible(cfg, Init(cfg, now), es)
    ensures AttemptsAreRuns(Exec(cfg, Init(cfg, now), es))
  {
    if es != [] {
      RunsAreAttempts(cfg, now, es[..|es| - 1]);
      StepCountsRuns(cfg, Exec(cfg, Init(cfg, now), es[..|es| - 1]), es[|es| - 1]);
    }
  }

  lemma {:induction false} SumOfAttempts(cfg: Config, now: int, es: seq<Event>, k: nat)
    requires cfg.Valid() && Feasible(cfg, Init(cfg, now), es) && k <= |Exec(cfg, Init(cfg, now), es).chunks|
    ensures Sum(Attempts, Exec(cfg, Init(cfg, now), es).chunks[..k])
         <= k * Allowed(cfg) + ExpiriesOfFirst(cfg, Init(cfg, now), es, k)
  {
    hide Feasible, Exec, Expiries, Init, InBudget, Allowed;
    if k > 0 {
      var chunks := Exec(cfg, Init(cfg, now), es).chunks;
      SumOfAttempts(cfg, now, es, k - 1);
      AttemptBudget(cfg, now, es, k - 1);
      assert chunks[..k][..k - 1] == chunks[..k - 1];
      OneMore(k - 1, Allowed(cfg));
    }
  }

  lemma OneMore(k: nat, a: nat)
    ensures (k + 1) * a == k * a + a
  {
  }

  lemma {:induction false} NoExpiriesNoSum(cfg: Config, s: State, es: seq<Event>, k: nat)
    requires Feasible(cfg, s, es) && forall c: nat | c < k :: Expiries(cfg, s, es, c) == 0
    ensures ExpiriesOfFirst(cfg, s, es, k) == 0
  {
    if k > 0 {
      NoExpiriesNoSum(cfg, s, es, k - 1);
    }
  }

  /**
   Termination of the retry loop: the runs a batch ever leases are at most chunks times allowed
   attempts, plus one for every expired lease; with no expiries, chunks times attempts.
   */
  lemma LeasedRunsBounded(cfg: Config, now: int, es: seq<Event>)
    requires cfg.Valid() && Feasible(cfg, Init(cfg, now), es)
    ensures var s := Exec(cfg, Init(cfg, now), es);
            var n := |s.chunks|;
            && s.nextRun <= n * Allowed(cfg) + ExpiriesOfFirst(cfg, Init(cfg, now), es, n)
            && ((forall c: nat | c < n :: Expiries(cfg, Init(cfg, now), es, c) == 0) ==> s.nextRun <= n * Allowed(cfg))
  {
    hide Expiries, Feasible, Exec;
    var chunks := Exec(cfg, Init(cfg, now), es).chunks;
    RunsAreAttempts(cfg, now, es);
    SumOfAttempts(cfg, now, es, |chunks|);
    assert chunks[..|chunks|] == chunks;
    if forall c: nat | c < |chunks| :: Expiries(cfg, Init(cfg, now), es, c) == 0 {
      NoExpiriesNoSum(cfg, Init(cfg, now), es, |chunks|);
    }
  }
}
