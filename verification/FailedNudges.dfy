/**
 What a failing nudge can do. The exception handler of a run also catches the failure of queueing
 the completion check, when the run's success is committed already. Within its lease, on time, the
 run then takes its own succeeded chunk back. SucceededRowChanges says exactly when a timely step
 does so; the rest shows, for every batch, that it happens and that it can cost the whole batch.
 */
module FailedNudges {
  import opened Rows
  import opened Pipeline
  import opened Invariants
  import opened Leases
  import opened Lifecycle
  import opened Scenarios

  /** In a timely state, a succeeded row changes exactly when its own run's nudge fails and the handler commits. */
  lemma SucceededRowChanges(cfg: Config, s: State, e: Event, c: nat)
    requires cfg.Valid() && Safe(cfg, s) && Exclusive(s) && Timely(s) && Enabled(cfg, s, e)
    requires c < |s.chunks| && s.chunks[c].status.Succeeded?
    ensures c < |Next(cfg, s, e).chunks|
    ensures Next(cfg, s, e).chunks[c] != s.chunks[c] <==>
              && NudgeFails(s, e) && s.runs[e.run].chunk == c
              && (s.chunks[c].attempts < cfg.maxAttempts || s.batch.status.Running?)
  {
    hide Safe, Exclusive, Next;
    if NudgeFails(s, e) {
      HandlerIsNext(cfg, s, e.run);
    } else {
      StepExcludes(cfg, s, e);
      assert Untouched(s, e, c);
    }
  }

  // ---- Runs without a tick are timely ----------------------------------------------------

  /** All runs began at the present time. */
  predicate Prompt(cfg: Config, s: State, now: int) {
    s.now == now && forall r | r in s.runs :: s.runs[r].deadline == now + cfg.leaseSeconds
  }

  predicate NoNewRuns(s: State, t: State) {
    t.now == s.now && forall r | r in t.runs :: r in s.runs && t.runs[r].deadline == s.runs[r].deadline
  }

  lemma CommitsStartNoRun(cfg: Config, s: State, run: nat)
    requires run in s.runs && s.runs[run].chunk < |s.chunks|
    ensures s.runs[run].phase.Checkpointed? ==> NoNewRuns(s, CommitSucceeded(cfg, s, run))
    ensures NoNewRuns(s, CommitAborted(s, run)) && NoNewRuns(s, CommitFailed(cfg, s, run))
  {
    hide Recompute;
  }

  lemma WriteStartsNoRun(cfg: Config, s: State, run: nat)
    requires run in s.runs && s.runs[run].phase.Gathered?
    ensures NoNewRuns(s, WriteCheckpoint(cfg, s, run))
  {
  }

  lemma GatherStartsNoRun(s: State, run: nat, outcomes: seq<Row>)
    requires run in s.runs
    ensures NoNewRuns(s, GatherOutcomes(s, run, outcomes))
  {
  }

  lemma BatchStepsStartNoRun(cfg: Config, s: State)
    requires cfg.chunkSize >= 1
    ensures NoNewRuns(s, OrchestrateBatch(cfg, s)) && NoNewRuns(s, FinalizeBatch(cfg, s))
        && NoNewRuns(s, ScanCompletion(s))
  {
    hide JobsFor, ReclaimAll, Pipeline.CreateChunkRows, ScanCompletion, Publish, AllSucceeded;
    ScanChunks(s);
    PublishedIsCompleted(cfg, s);
  }

  lemma DeliverStartsNoRun(cfg: Config, s: State, hook: Hook, ok: bool)
    ensures NoNewRuns(s, DeliverHook(cfg, s, hook, ok))
  {
  }

  lemma StartIsPrompt(cfg: Config, s: State, i: nat, now: int)
    requires Prompt(cfg, s, now)
    ensures Prompt(cfg, StartRun(cfg, s, i), now)
  {
    hide Leasable, LeaseRow;
  }

  lemma StepStaysPrompt(cfg: Config, s: State, e: Event, now: int)
    requires cfg.chunkSize >= 1 && Enabled(cfg, s, e) && !e.Tick? && Prompt(cfg, s, now)
    ensures Prompt(cfg, Next(cfg, s, e), now)
  {
    hide OrchestrateBatch, StartRun, GatherOutcomes, WriteCheckpoint, CommitSucceeded, CommitAborted, CommitFailed,
         ScanCompletion, FinalizeBatch, DeliverHook, ReclaimAll, JobsFor;
    match e {
      case Start(i) => StartIsPrompt(cfg, s, i, now);
      case Gather(run, outcomes) => GatherStartsNoRun(s, run, outcomes);
      case Checkpoint(run) => WriteStartsNoRun(cfg, s, run);
      case CommitSuccess(run) => CommitsStartNoRun(cfg, s, run);
      case CommitCancelled(run) => CommitsStartNoRun(cfg, s, run);
      case CommitFailure(run) => CommitsStartNoRun(cfg, s, run);
      case Orchestrate => BatchStepsStartNoRun(cfg, s);
      case CheckScan => BatchStepsStartNoRun(cfg, s);
      case Finalize => BatchStepsStartNoRun(cfg, s);
      case Deliver(hook, ok) => DeliverStartsNoRun(cfg, s, hook, ok);
      case Redeliver(_) =>
      case Lose(_) =>
      case Cancel =>
      case Nudge(_) =>
      case Crash(_) =>
      case Reclaim =>
      case CheckRequeue =>
      case CheckCrash(_) =>
    }
  }

  predicate Still(es: seq<Event>) {
    forall i | 0 <= i < |es| :: !es[i].Tick?
  }

  lemma {:induction false} StillIsTimely(cfg: Config, now: int, es: seq<Event>)
    requires cfg.chunkSize >= 1 && cfg.leaseSeconds >= 1 && Feasible(cfg, Init(cfg, now), es) && Still(es)
    ensures Prompt(cfg, Exec(cfg, Init(cfg, now), es), now)
    ensures TimelyRun(cfg, Init(cfg, now), es)
  {
    if es != [] {
      hide Next, Enabled;
      StillIsTimely(cfg, now, es[..|es| - 1]);
      StepStaysPrompt(cfg, Exec(cfg, Init(cfg, now), es[..|es| - 1]), es[|es| - 1], now);
    }
  }

  // ---- Using up the attempts -------------------------------------------------------------

  lemma CalmIsStill(es: seq<Event>, longer: seq<Event>)
    requires Still(es) && Calmly(es, longer)
    ensures Still(longer)
  {
    forall i | 0 <= i < |longer| ensures !longer[i].Tick? {
      if i < |es| {
        assert longer[i] == es[i];
      }
    }
  }

  lemma FailureIsStill(es: seq<Event>, run: nat)
    requires Still(es)
    ensures Still(es + [CommitFailure(run)])
  {
  }

  lemma NothingIsStill()
    ensures Still([])
  {
  }

  /** Chunk 0 is pending after n failed attempts; all other chunks have succeeded; nothing is in flight. */
  predicate Retried(cfg: Config, s: State, n: nat)
    requires cfg.chunkSize >= 1
  {
    && s.batch.status.Running? && s.runs == map[] && |s.chunks| == |cfg.Slots()| > 0
    && s.chunks[0].status.ChunkPending? && s.chunks[0].attempts == n
    && (forall i | 1 <= i < |s.chunks| :: s.chunks[i].status.Succeeded?)
  }

  lemma {:induction false} Retry(cfg: Config, now: int, n: nat) returns (es: seq<Event>)
    requires cfg.Valid() && (n == 0 || n < cfg.maxAttempts)
    ensures Feasible(cfg, Init(cfg, now), es) && Still(es)
    ensures Retried(cfg, Exec(cfg, Init(cfg, now), es), n)
    decreases n
  {
    hide Feasible, Exec, Enabled, Next, Init, FinishedFrom, Retried, StartedOn, CommitFailed, Still, Calmly,
         Codec.Valid, Config.Slots;
    if n == 0 {
      PlanIsNotEmpty(cfg);
      var first := Orchestrated(cfg, now);
      es := FinishOthers(cfg, now, first, |cfg.Slots()|);
      NothingIsStill();
      CalmIsStill([], first);
      CalmIsStill(first, es);
      NotYetTried(cfg, Exec(cfg, Init(cfg, now), es));
    } else {
      es := Retry(cfg, now, n - 1);
      es := RetryOnce(cfg, now, es, n - 1);
    }
  }

  /** One more run of chunk 0 starts and fails. */
  lemma RetryOnce(cfg: Config, now: int, es: seq<Event>, n: nat) returns (longer: seq<Event>)
    requires cfg.Valid() && Feasible(cfg, Init(cfg, now), es) && Still(es) && n + 1 < cfg.maxAttempts
    requires Retried(cfg, Exec(cfg, Init(cfg, now), es), n)
    ensures Feasible(cfg, Init(cfg, now), longer) && Still(longer)
    ensures Retried(cfg, Exec(cfg, Init(cfg, now), longer), n + 1)
  {
    hide Feasible, Exec, Enabled, Next, Init, Retried, StartedOn, CommitFailed, Still, Calmly, Codec.Valid,
         Config.Slots;
    var s := Exec(cfg, Init(cfg, now), es);
    CanBeLeased(cfg, s, n);
    var leased := Lease(cfg, now, es, 0);
    CalmIsStill(es, leased);
    var a := Exec(cfg, Init(cfg, now), leased);
    JustWorking(cfg, s, a, 0);
    CanFail(cfg, a, s.nextRun);
    FailureIsStill(leased, s.nextRun);
    longer := Fail(cfg, now, leased, s.nextRun);
    OneMoreTry(cfg, s, a, n);
  }

  lemma NotYetTried(cfg: Config, s: State)
    requires cfg.chunkSize >= 1 && FinishedFrom(cfg, s, 1) && |cfg.Slots()| > 0
    ensures Retried(cfg, s, 0)
  {
  }

  lemma CanBeLeased(cfg: Config, s: State, n: nat)
    requires cfg.chunkSize >= 1 && Retried(cfg, s, n)
    ensures s.batch.status.Running? && 0 < |s.chunks| && Leasable(s.chunks[0], s.now, cfg.maxAttempts)
  {
  }

  lemma OneMoreTry(cfg: Config, s: State, a: State, n: nat)
    requires cfg.chunkSize >= 1 && Retried(cfg, s, n) && StartedOn(cfg, s, a, 0) && n + 1 < cfg.maxAttempts
    requires s.nextRun in a.runs && a.runs[s.nextRun].chunk < |a.chunks|
    ensures Retried(cfg, CommitFailed(cfg, a, s.nextRun), n + 1)
  {
    assert CommitFailed(cfg, a, s.nextRun).runs == map[];
  }

  // ---- What a failing nudge does ---------------------------------------------------------

  /** All chunks have succeeded, chunk 0 at its attempt n + 1 and by a run whose nudge is still to come. */
  predicate AboutToNudge(cfg: Config, s: State, n: nat, run: nat)
    requires cfg.chunkSize >= 1
  {
    && s.batch.status.Running? && |s.chunks| == |cfg.Slots()| > 0 && AllSucceeded(s.chunks)
    && s.chunks[0].attempts == n + 1
    && run in s.runs && s.runs[run].chunk == 0 && s.runs[run].phase.Committed?
  }

  lemma NudgeFailsAfter(cfg: Config, now: int, n: nat) returns (before: seq<Event>, after: seq<Event>, run: nat)
    requires cfg.Valid() && cfg.leaseSeconds >= 1 && (n == 0 || n < cfg.maxAttempts)
    ensures Feasible(cfg, Init(cfg, now), before) && AboutToNudge(cfg, Exec(cfg, Init(cfg, now), before), n, run)
    ensures after == before + [CommitFailure(run)] && Feasible(cfg, Init(cfg, now), after)
    ensures TimelyRun(cfg, Init(cfg, now), after)
    ensures Exec(cfg, Init(cfg, now), after) == CommitFailed(cfg, Exec(cfg, Init(cfg, now), before), run)
  {
    hide Feasible, Exec, Enabled, Next, Init, Retried, StartedOn, Succeeds, AboutToNudge, CommitFailed, Still,
         Calmly, TimelyRun, Codec.Valid, Config.Slots;
    var ready := Retry(cfg, now, n);
    var s := Exec(cfg, Init(cfg, now), ready);
    run := s.nextRun;
    CanBeLeased(cfg, s, n);
    var leased := Lease(cfg, now, ready, 0);
    CalmIsStill(ready, leased);
    var a := Exec(cfg, Init(cfg, now), leased);
    JustWorking(cfg, s, a, 0);
    before := SucceedRun(cfg, now, leased, run);
    CalmIsStill(leased, before);
    var b := Exec(cfg, Init(cfg, now), before);
    NowAboutToNudge(cfg, s, a, b, n);
    CanFail(cfg, b, run);
    FailureIsStill(before, run);
    after := Fail(cfg, now, before, run);
    StillIsTimely(cfg, now, after);
  }

  lemma NowAboutToNudge(cfg: Config, s: State, a: State, b: State, n: nat)
    requires cfg.chunkSize >= 1 && Retried(cfg, s, n) && StartedOn(cfg, s, a, 0) && Succeeds(cfg, a, b, s.nextRun)
    ensures AboutToNudge(cfg, b, n, s.nextRun)
    ensures s.nextRun in b.runs && b.runs[s.nextRun].chunk < |b.chunks|
  {
  }

  /** Every batch with retries left, on time: a failing nudge takes a succeeded chunk back to pending. */
  lemma FailedNudgeUnsettles(cfg: Config, now: int) returns (before: seq<Event>, after: seq<Event>)
    requires cfg.Valid() && cfg.leaseSeconds >= 1 && cfg.maxAttempts >= 2
    ensures before <= after && Feasible(cfg, Init(cfg, now), before)
    ensures Feasible(cfg, Init(cfg, now), after) && TimelyRun(cfg, Init(cfg, now), after)
    ensures var s, t := Exec(cfg, Init(cfg, now), before), Exec(cfg, Init(cfg, now), after);
            s.chunks != [] && s.chunks[0].status.Succeeded? && t.chunks != [] && t.chunks[0].status.ChunkPending?
  {
    hide Feasible, Exec, Init, Codec.Valid, TimelyRun, Config.Slots;
    var run: nat;
    before, after, run := NudgeFailsAfter(cfg, now, 0);
  }

  /**
   Every batch, on time: when the attempts are used up, a failing nudge fails a batch all of whose
   chunks have succeeded, with the failed chunk's checkpoint complete.
   */
  lemma FailedNudgeFailsBatch(cfg: Config, now: int) returns (before: seq<Event>, after: seq<Event>)
    requires cfg.Valid() && cfg.leaseSeconds >= 1
    ensures before <= after && Feasible(cfg, Init(cfg, now), before)
    ensures Feasible(cfg, Init(cfg, now), after) && TimelyRun(cfg, Init(cfg, now), after)
    ensures var s, t := Exec(cfg, Init(cfg, now), before), Exec(cfg, Init(cfg, now), after);
            && s.batch.status.Running? && s.chunks != [] && AllSucceeded(s.chunks)
            && t.batch.status.BatchFailed? && t.chunks != [] && t.chunks[0].status.ChunkFailed?
            && cfg.Key(0) in t.objects && HoldsRows(cfg, t.objects[cfg.Key(0)], t.chunks[0].slot.limit)
  {
    hide Feasible, Exec, Init, Codec.Valid, TimelyRun, HoldsRows, Config.Slots;
    var run: nat;
    before, after, run := NudgeFailsAfter(cfg, now, if cfg.maxAttempts >= 1 then cfg.maxAttempts - 1 else 0);
    RunIsSafe(cfg, now, before);
    CheckpointIsComplete(cfg, Exec(cfg, Init(cfg, now), before));
  }

  lemma CheckpointIsComplete(cfg: Config, s: State)
    requires cfg.Valid() && Safe(cfg, s) && s.chunks != [] && s.chunks[0].status.Succeeded?
    ensures cfg.Key(0) in s.objects && HoldsRows(cfg, s.objects[cfg.Key(0)], s.chunks[0].slot.limit)
  {
    hide HoldsRows;
    assert RowFits(cfg, s.chunks[0], 0);
  }
}
