/**
 No batch is stranded. With a reliable queue a pending batch has its first job queued, and a running
 one a completion check or a finalize job under way; from every such state the batch can still
 complete with its own jobs alone.
 */
module Progress {
  import opened Rows
  import opened Pipeline
  import opened Sums
  import opened Invariants
  import opened Lifecycle

  /** A job that will look at the batch again: queued, or a check between its two transactions. */
  predicate Watched(s: State) {
    CheckJob in s.queue || FinalizeJob in s.queue || s.scans > 0
  }

  /** The queue keeps its jobs, and hands an interrupted check to another worker. */
  predicate Reliable(e: Event) {
    !e.Lose? && !(e.CheckCrash? && !e.redelivered)
  }

  predicate AllReliable(es: seq<Event>) {
    forall i | 0 <= i < |es| :: Reliable(es[i])
  }

  // ---- Someone is always watching --------------------------------------------------------

  lemma ScanWatches(cfg: Config, s: State)
    requires cfg.Valid() && Safe(cfg, s) && CheckJob in s.queue && s.batch.status.Running?
    ensures Watched(ScanCompletion(s))
  {
    hide Safe, Conclude, Sum;
    ReclaimedConclusion(cfg, s);
  }

  lemma ReclaimedConclusion(cfg: Config, s: State)
    requires cfg.Valid() && Safe(cfg, s) && s.batch.status.Running?
    ensures s.chunks != []
    ensures Conclude(ReclaimAll(s.chunks, s.now))
         == if AllSucceeded(ReclaimAll(s.chunks, s.now)) then AllDone else KeepWaiting
  {
    ConcludeMeans(ReclaimAll(s.chunks, s.now));
  }

  lemma OrchestrateWatches(cfg: Config, s: State)
    requires cfg.Valid() && !Ended(s.batch.status)
    ensures Watched(OrchestrateBatch(cfg, s))
  {
    hide JobsFor;
  }

  lemma FinalizeWatches(cfg: Config, s: State)
    requires s.batch.status.Running?
    ensures FinalizeBatch(cfg, s).batch.status.Completed? || Watched(FinalizeBatch(cfg, s))
  {
    hide ResultsBody, ManifestOf, AllSucceeded;
  }

  lemma OthersKeepWatching(cfg: Config, s: State, e: Event)
    requires Enabled(cfg, s, e) && Reliable(e)
    requires !e.CheckScan? && !e.Finalize? && !e.Orchestrate?
    ensures Watched(s) ==> Watched(Next(cfg, s, e))
    ensures OrchestrateJob in s.queue ==> OrchestrateJob in Next(cfg, s, e).queue
    ensures Next(cfg, s, e).batch.status.Running? ==> s.batch.status.Running?
  {
    hide OrchestrateBatch, ScanCompletion, FinalizeBatch, StartRun, CommitSucceeded, CommitAborted, CommitFailed,
         GatherOutcomes, WriteCheckpoint, DeliverHook, CancelBatch, JobsFor, ReclaimAll;
    match e {
      case Start(i) => StartKeepsJobs(cfg, s, i);
      case CommitSuccess(run) => CommitsKeepJobs(cfg, s, run);
      case CommitCancelled(run) => CommitsKeepJobs(cfg, s, run);
      case CommitFailure(run) => CommitsKeepJobs(cfg, s, run);
      case Gather(run, outcomes) => GatherKeepsJobs(s, run, outcomes);
      case Checkpoint(run) => CheckpointKeepsJobs(cfg, s, run);
      case Deliver(hook, ok) => DeliverKeepsJobs(cfg, s, hook, ok);
      case Cancel => CancelKeepsJobs(s);
      case Tick(_) =>
      case Redeliver(_) =>
      case Crash(_) =>
      case Nudge(_) =>
      case Reclaim =>
      case CheckRequeue =>
      case CheckCrash(_) =>
    }
  }

  /** What was queued to watch the batch still is, and the batch does not start to run. */
  predicate KeepsJobs(s: State, t: State) {
    && (CheckJob in s.queue ==> CheckJob in t.queue)
    && (FinalizeJob in s.queue ==> FinalizeJob in t.queue)
    && (OrchestrateJob in s.queue ==> OrchestrateJob in t.queue)
    && s.scans <= t.scans
    && (t.batch.status.Running? ==> s.batch.status.Running?)
  }

  lemma StartKeepsJobs(cfg: Config, s: State, i: nat)
    ensures KeepsJobs(s, StartRun(cfg, s, i))
  {
    hide StartRun, CanStart;
    StartCases(cfg, s, i);
  }

  lemma CommitsKeepJobs(cfg: Config, s: State, run: nat)
    requires run in s.runs && s.runs[run].chunk < |s.chunks|
    ensures s.runs[run].phase.Checkpointed? ==> KeepsJobs(s, CommitSucceeded(cfg, s, run))
    ensures KeepsJobs(s, CommitAborted(s, run)) && KeepsJobs(s, CommitFailed(cfg, s, run))
  {
    hide Recompute;
    if s.runs[run].phase.Checkpointed? {
      RecomputeKeepsStatus(s.batch, CommitSucceeded(cfg, s, run).chunks);
    }
  }

  lemma GatherKeepsJobs(s: State, run: nat, outcomes: seq<Row>)
    requires run in s.runs
    ensures KeepsJobs(s, GatherOutcomes(s, run, outcomes))
  {
  }

  lemma CheckpointKeepsJobs(cfg: Config, s: State, run: nat)
    requires run in s.runs && s.runs[run].phase.Gathered?
    ensures KeepsJobs(s, WriteCheckpoint(cfg, s, run))
  {
  }

  lemma DeliverKeepsJobs(cfg: Config, s: State, hook: Hook, ok: bool)
    ensures KeepsJobs(s, DeliverHook(cfg, s, hook, ok))
  {
  }

  lemma CancelKeepsJobs(s: State)
    ensures KeepsJobs(s, CancelBatch(s))
  {
  }

  lemma StepWatches(cfg: Config, s: State, e: Event)
    requires cfg.Valid() && Safe(cfg, s) && Enabled(cfg, s, e) && Reliable(e)
    requires s.batch.status.Running? ==> Watched(s)
    ensures Next(cfg, s, e).batch.status.Running? ==> Watched(Next(cfg, s, e))
  {
    hide Safe, Watched, Next;
    StepDecides(cfg, s, e);
    if Next(cfg, s, e).batch.status.Running? {
      match e {
        case CheckScan => NextOfScan(cfg, s); ScanWatches(cfg, s);
        case Finalize => NextOfFinalize(cfg, s); FinalizeWatches(cfg, s);
        case Orchestrate => NextOfOrchestrate(cfg, s); OrchestrateWatches(cfg, s);
        case _ =>
          OthersKeepWatching(cfg, s, e);
      }
    }
  }

  lemma ScanKeepsFirstJob(s: State)
    requires OrchestrateJob in s.queue
    ensures OrchestrateJob in ScanCompletion(s).queue
  {
    hide Conclude, ReclaimAll;
  }

  lemma FinalizeKeepsFirstJob(cfg: Config, s: State)
    requires OrchestrateJob in s.queue
    ensures OrchestrateJob in FinalizeBatch(cfg, s).queue
  {
    hide ResultsBody, ManifestOf, AllSucceeded;
  }

  lemma FirstJobStays(cfg: Config, s: State, e: Event)
    requires cfg.Valid() && Safe(cfg, s) && Enabled(cfg, s, e) && Reliable(e)
    requires s.batch.status.BatchPending? ==> OrchestrateJob in s.queue
    ensures Next(cfg, s, e).batch.status.BatchPending? ==> OrchestrateJob in Next(cfg, s, e).queue
  {
    hide Safe, Watched, Next;
    StepDecides(cfg, s, e);
    if Next(cfg, s, e).batch.status.BatchPending? {
      match e {
        case CheckScan => NextOfScan(cfg, s); ScanKeepsFirstJob(s);
        case Finalize => NextOfFinalize(cfg, s); FinalizeKeepsFirstJob(cfg, s);
        case Orchestrate => NextOfOrchestrate(cfg, s); OrchestrateRuns(cfg, s);
        case _ => OthersKeepWatching(cfg, s, e);
      }
    }
  }

  lemma OrchestrateRuns(cfg: Config, s: State)
    requires cfg.chunkSize >= 1 && !Ended(s.batch.status)
    ensures OrchestrateBatch(cfg, s).batch.status.Running? && CheckJob in OrchestrateBatch(cfg, s).queue
  {
    hide JobsFor, ReclaimAll, CreateChunkRows;
  }

  /** A batch that is still pending has its first job queued. */
  lemma {:induction false} PendingIsQueued(cfg: Config, now: int, es: seq<Event>)
    requires cfg.Valid() && Feasible(cfg, Init(cfg, now), es) && AllReliable(es)
    ensures var s := Exec(cfg, Init(cfg, now), es);
            s.batch.status.BatchPending? ==> OrchestrateJob in s.queue
  {
    if es != [] {
      var front := es[..|es| - 1];
      PendingIsQueued(cfg, now, front);
      RunIsSafe(cfg, now, front);
      FirstJobStays(cfg, Exec(cfg, Init(cfg, now), front), es[|es| - 1]);
    }
  }

  lemma NextOfScan(cfg: Config, s: State)
    requires cfg.Valid() && Safe(cfg, s) && CheckJob in s.queue
    ensures Enabled(cfg, s, CheckScan) && Next(cfg, s, CheckScan) == ScanCompletion(s)
    ensures ScanCompletion(s).batch == s.batch
  {
    hide ScanCompletion, Safe, Codec.Valid;
    ScanKeepsBatch(cfg, s);
  }

  lemma NextOfFinalize(cfg: Config, s: State)
    requires FinalizeJob in s.queue
    ensures Enabled(cfg, s, Finalize) && Next(cfg, s, Finalize) == FinalizeBatch(cfg, s)
    ensures FinalizeBatch(cfg, s).batch.status.Running? ==> s.batch.status.Running?
  {
    hide Publish, AllSucceeded;
    PublishedIsCompleted(cfg, s);
  }

  lemma NextOfRequeue(cfg: Config, s: State)
    requires s.scans > 0
    ensures Enabled(cfg, s, CheckRequeue) && Next(cfg, s, CheckRequeue) == RequeuePending(s)
    ensures RequeuePending(s).batch == s.batch
  {
    hide JobsFor, ReclaimAll;
  }

  lemma NextOfOrchestrate(cfg: Config, s: State)
    requires OrchestrateJob in s.queue && cfg.chunkSize >= 1
    ensures Next(cfg, s, Orchestrate) == OrchestrateBatch(cfg, s)
    ensures OrchestrateBatch(cfg, s).batch.status.Running? ==> !Ended(s.batch.status)
  {
    hide JobsFor;
  }

  /** No stranded batch: in every state a reliable run reaches, a running batch is being watched. */
  lemma {:induction false} RunningIsWatched(cfg: Config, now: int, es: seq<Event>)
    requires cfg.Valid() && Feasible(cfg, Init(cfg, now), es) && AllReliable(es)
    ensures var s := Exec(cfg, Init(cfg, now), es);
            s.batch.status.Running? ==> Watched(s)
  {
    if es != [] {
      hide Watched;
      var front := es[..|es| - 1];
      RunningIsWatched(cfg, now, front);
      RunIsSafe(cfg, now, front);
      StepWatches(cfg, Exec(cfg, Init(cfg, now), front), es[|es| - 1]);
    }
  }

  // ---- A check requeues what is pending --------------------------------------------------

  lemma {:induction false} JobsForContain(chunks: seq<Chunk>, k: nat, pendingOnly: bool, i: nat)
    requires k <= |chunks|
    ensures ProcessJob(i) in JobsFor(chunks, k, pendingOnly) <==> i < k && Wanted(chunks[i], pendingOnly)
  {
    if k > 0 {
      JobsForContain(chunks, k - 1, pendingOnly, i);
    }
  }

  /** Right after a check every pending chunk has a process job queued, and so does another check. */
  lemma CheckRequeuesPending(s: State)
    requires s.scans > 0
    ensures var t := RequeuePending(s);
            && CheckJob in t.queue
            && (forall i | 0 <= i < |t.chunks| && t.chunks[i].status.ChunkPending? :: ProcessJob(i) in t.queue)
            && (forall i | 0 <= i < |t.chunks| && t.chunks[i].status.Leased? && t.chunks[i].leasedUntil.Some? ::
                  t.chunks[i].leasedUntil.value >= t.now)
  {
    hide JobsFor;
    var chunks := ReclaimAll(s.chunks, s.now);
    forall i | 0 <= i < |chunks| && chunks[i].status.ChunkPending?
      ensures ProcessJob(i) in JobsFor(chunks, |chunks|, true)
    {
      JobsForContain(chunks, |chunks|, true, i);
    }
  }

  /** Orchestration queues every unfinished chunk, and the first check. */
  lemma OrchestrateQueuesUnfinished(cfg: Config, s: State)
    requires cfg.Valid() && !Ended(s.batch.status)
    ensures var t := OrchestrateBatch(cfg, s);
            && CheckJob in t.queue
            && (forall i | 0 <= i < |t.chunks| && !t.chunks[i].status.Succeeded? :: ProcessJob(i) in t.queue)
  {
    hide JobsFor;
    var chunks := ReclaimAll(CreateChunkRows(cfg, s.chunks), s.now);
    forall i | 0 <= i < |chunks| && !chunks[i].status.Succeeded?
      ensures ProcessJob(i) in JobsFor(chunks, |chunks|, false)
    {
      JobsForContain(chunks, |chunks|, false, i);
    }
  }

  // ---- A watched batch can still complete ------------------------------------------------

  /** Events that need no outside help: no job appears from nowhere, none is lost. */
  predicate OwnEvent(e: Event) {
    !e.Redeliver? && !e.Lose? && !e.Cancel? && !e.CheckCrash?
  }

  /** State t can be reached from s by the batch's own events. */
  ghost predicate Reaches(cfg: Config, s: State, t: State) {
    exists es: seq<Event> ::
      Feasible(cfg, s, es) && Exec(cfg, s, es) == t && forall i | 0 <= i < |es| :: OwnEvent(es[i])
  }

  lemma ReachesItself(cfg: Config, s: State)
    ensures Reaches(cfg, s, s)
  {
    var es: seq<Event> := [];
    assert Feasible(cfg, s, es) && Exec(cfg, s, es) == s;
  }

  lemma ReachesNext(cfg: Config, s: State, t: State, e: Event)
    requires Reaches(cfg, s, t) && Enabled(cfg, t, e) && OwnEvent(e)
    ensures Reaches(cfg, s, Next(cfg, t, e))
  {
    hide Enabled, Next, OwnEvent;
    var es :| Feasible(cfg, s, es) && Exec(cfg, s, es) == t && forall i | 0 <= i < |es| :: OwnEvent(es[i]);
    var longer := es + [e];
    assert longer[..|longer| - 1] == es;
    assert Feasible(cfg, s, longer) && Exec(cfg, s, longer) == Next(cfg, t, e);
  }

  /** A step on the way, with the invariant carried along. */
  lemma Advance(cfg: Config, s: State, t: State, e: Event)
    requires cfg.Valid() && Reaches(cfg, s, t) && Safe(cfg, t) && Enabled(cfg, t, e) && OwnEvent(e)
    ensures Reaches(cfg, s, Next(cfg, t, e)) && Safe(cfg, Next(cfg, t, e))
  {
    hide Reaches, Safe;
    ReachesNext(cfg, s, t, e);
    StepIsSafe(cfg, t, e);
  }

  function Latest(chunks: seq<Chunk>): (time: int)
    ensures forall i | 0 <= i < |chunks| && chunks[i].leasedUntil.Some? :: chunks[i].leasedUntil.value < time
  {
    if chunks == [] then 0
    else
      var rest := Latest(chunks[1..]);
      assert forall i | 1 <= i < |chunks| :: chunks[i] == chunks[1..][i - 1];
      var first := chunks[0].leasedUntil;
      if first.Some? && first.value >= rest then first.value + 1 else rest
  }

  predicate NothingLeased(chunks: seq<Chunk>) {
    forall i | 0 <= i < |chunks| :: !chunks[i].status.Leased?
  }

  /** The clock passes every lease deadline. */
  lemma LetLeasesExpire(cfg: Config, s: State, t: State) returns (u: State)
    requires cfg.Valid() && Reaches(cfg, s, t) && Safe(cfg, t)
    ensures Reaches(cfg, s, u) && Safe(cfg, u) && u == t.(now := u.now)
    ensures NothingLeased(ReclaimAll(u.chunks, u.now))
  {
    hide Reaches;
    var time := if Latest(t.chunks) > t.now then Latest(t.chunks) else t.now;
    Advance(cfg, s, t, Tick(time));
    u := t.(now := time);
    forall i | 0 <= i < |u.chunks| ensures !ReclaimAll(u.chunks, u.now)[i].status.Leased? {
      assert RowFits(cfg, u.chunks[i], i);
    }
  }

  /** Whoever is watching, a check gets queued; or the batch completes on the spot. */
  lemma GetCheck(cfg: Config, s: State, t: State) returns (u: State)
    requires cfg.Valid() && Reaches(cfg, s, t) && Safe(cfg, t) && t.batch.status.Running? && Watched(t)
    ensures Reaches(cfg, s, u) && Safe(cfg, u)
    ensures u.batch.status.Completed? || (u.batch.status.Running? && CheckJob in u.queue)
  {
    hide Reaches, Safe, Enabled, Next, FinalizeBatch, RequeuePending, Codec.Valid;
    if CheckJob in t.queue {
      u := t;
    } else if FinalizeJob in t.queue {
      NextOfFinalize(cfg, t);
      Advance(cfg, s, t, Finalize);
      u := FinalizeBatch(cfg, t);
      FinalizeNext(cfg, t);
    } else {
      NextOfRequeue(cfg, t);
      Advance(cfg, s, t, CheckRequeue);
      u := RequeuePending(t);
      RequeueQueuesCheck(t);
    }
  }

  lemma RequeueQueuesCheck(t: State)
    requires t.scans > 0
    ensures CheckJob in RequeuePending(t).queue
  {
    hide JobsFor, ReclaimAll;
  }

  lemma FinalizeNext(cfg: Config, t: State)
    requires t.batch.status.Running?
    ensures var u := FinalizeBatch(cfg, t);
            u.batch.status.Completed? || (u.batch.status.Running? && CheckJob in u.queue)
    ensures t.chunks != [] && AllSucceeded(t.chunks) ==> FinalizeBatch(cfg, t).batch.status.Completed?
  {
    hide Publish, AllSucceeded;
    PublishedIsCompleted(cfg, t);
  }

  /** A completion check when all rows have succeeded, and the finalize job it queues. */
  lemma CheckAndFinalize(cfg: Config, s: State, t: State) returns (u: State)
    requires cfg.Valid() && Reaches(cfg, s, t) && Safe(cfg, t) && t.batch.status.Running? && CheckJob in t.queue
    requires AllSucceeded(ReclaimAll(t.chunks, t.now))
    ensures Reaches(cfg, s, u) && Safe(cfg, u) && u.batch.status.Completed?
  {
    hide Reaches, Safe, Enabled, Next, ScanCompletion, FinalizeBatch, ReclaimAll, AllSucceeded, Codec.Valid;
    ScanOfAllSucceeded(cfg, t);
    NextOfScan(cfg, t);
    Advance(cfg, s, t, CheckScan);
    var v := ScanCompletion(t);
    NextOfFinalize(cfg, v);
    Advance(cfg, s, v, Finalize);
    FinalizeNext(cfg, v);
    u := FinalizeBatch(cfg, v);
  }

  lemma ScanOfAllSucceeded(cfg: Config, t: State)
    requires cfg.Valid() && Safe(cfg, t) && t.batch.status.Running? && CheckJob in t.queue
    requires AllSucceeded(ReclaimAll(t.chunks, t.now))
    ensures var v := ScanCompletion(t);
            && v.batch == t.batch && v.chunks != [] && AllSucceeded(v.chunks) && FinalizeJob in v.queue
  {
    hide Safe, Conclude;
    ReclaimedConclusion(cfg, t);
  }

  /** Every chunk is finished or pending with its job queued, from chunk k on. */
  predicate ReadyFrom(s: State, k: nat) {
    && s.batch.status.Running? && CheckJob in s.queue
    && (forall i | 0 <= i < |s.chunks| :: s.chunks[i].status.Succeeded? ||
          (i >= k && s.chunks[i].status.ChunkPending? && ProcessJob(i) in s.queue))
  }

  /** The two halves of a check make every unfinished chunk ready. */
  lemma CheckMakesReady(cfg: Config, s: State, t: State) returns (u: State)
    requires cfg.Valid() && Reaches(cfg, s, t) && Safe(cfg, t) && t.batch.status.Running? && CheckJob in t.queue
    requires NothingLeased(ReclaimAll(t.chunks, t.now)) && !AllSucceeded(ReclaimAll(t.chunks, t.now))
    ensures Reaches(cfg, s, u) && Safe(cfg, u) && ReadyFrom(u, 0)
  {
    hide Reaches, Safe, Enabled, Next, ScanCompletion, RequeuePending, ReclaimAll, AllSucceeded, NothingLeased,
         ReadyFrom, Codec.Valid;
    NextOfScan(cfg, t);
    Advance(cfg, s, t, CheckScan);
    var v := ScanCompletion(t);
    ScanOfUnfinished(cfg, t);
    NextOfRequeue(cfg, v);
    Advance(cfg, s, v, CheckRequeue);
    u := RequeuePending(v);
    RequeueMakesReady(cfg, v);
  }

  lemma ScanOfUnfinished(cfg: Config, t: State)
    requires cfg.Valid() && Safe(cfg, t) && t.batch.status.Running? && CheckJob in t.queue
    requires NothingLeased(ReclaimAll(t.chunks, t.now)) && !AllSucceeded(ReclaimAll(t.chunks, t.now))
    ensures var v := ScanCompletion(t);
            v.batch == t.batch && v.scans > 0 && v.now == t.now && NothingLeased(v.chunks)
  {
    hide Safe, Conclude, ReclaimAll, NothingLeased;
    ReclaimedConclusion(cfg, t);
  }

  lemma RequeueMakesReady(cfg: Config, v: State)
    requires cfg.Valid() && Safe(cfg, v) && v.batch.status.Running? && v.scans > 0 && NothingLeased(v.chunks)
    ensures ReadyFrom(RequeuePending(v), 0)
  {
    hide JobsFor;
    CheckRequeuesPending(v);
    var u := RequeuePending(v);
    forall i | 0 <= i < |u.chunks| ensures !u.chunks[i].status.ChunkFailed? && !u.chunks[i].status.Leased? {
      assert !v.chunks[i].status.ChunkFailed?;
    }
  }

  function Answers(n: nat): (rows: seq<Row>)
    ensures |rows| == n && NoneCancelled(rows)
  {
    seq(n, _ => Row(0, Ok, []))
  }

  /** The job of chunk k runs and succeeds. */
  lemma FinishChunk(cfg: Config, s: State, t: State, k: nat) returns (u: State)
    requires cfg.Valid() && Reaches(cfg, s, t) && Safe(cfg, t) && ReadyFrom(t, k)
    requires k < |t.chunks|
    ensures Reaches(cfg, s, u) && Safe(cfg, u) && ReadyFrom(u, k + 1) && |u.chunks| == |t.chunks|
  {
    hide Reaches, Safe, StartRun, CommitSucceeded, Next, ReadyFrom;
    if t.chunks[k].status.Succeeded? {
      u := t;
      SkipReady(t, k);
    } else {
      StartOfReady(cfg, t, k);
      Advance(cfg, s, t, Start(k));
      var c := AnswerAndStore(cfg, s, StartRun(cfg, t, k), t.nextRun);
      SuccessOfReady(cfg, t, c, t.nextRun, k);
      Advance(cfg, s, c, CommitSuccess(t.nextRun));
      u := CommitSucceeded(cfg, c, t.nextRun);
    }
  }

  lemma SkipReady(t: State, k: nat)
    requires ReadyFrom(t, k) && k < |t.chunks| && t.chunks[k].status.Succeeded?
    ensures ReadyFrom(t, k + 1)
  {
  }

  /** A working run's items answer, and its checkpoint is written. */
  lemma AnswerAndStore(cfg: Config, s: State, a: State, run: nat) returns (c: State)
    requires cfg.Valid() && Reaches(cfg, s, a) && Safe(cfg, a)
    requires run in a.runs && a.runs[run].phase.Working? && a.runs[run].chunk < |a.chunks|
    ensures Reaches(cfg, s, c) && Safe(cfg, c)
    ensures c.batch == a.batch && c.chunks == a.chunks && c.queue == a.queue && run in c.runs
    ensures c.runs[run].chunk == a.runs[run].chunk && c.runs[run].phase.Checkpointed?
  {
    hide Reaches, Safe, GatherOutcomes, WriteCheckpoint, Next, ItemsRead;
    var rows := Answers(|ItemsRead(cfg, a, a.runs[run].chunk)|);
    GatherOfReady(cfg, a, run, rows);
    Advance(cfg, s, a, Gather(run, rows));
    var b := GatherOutcomes(a, run, rows);
    WriteOfReady(cfg, b, run);
    Advance(cfg, s, b, Checkpoint(run));
    c := WriteCheckpoint(cfg, b, run);
  }

  lemma StartOfReady(cfg: Config, t: State, k: nat)
    requires cfg.Valid() && Safe(cfg, t) && ReadyFrom(t, k) && k < |t.chunks| && !t.chunks[k].status.Succeeded?
    ensures var a := StartRun(cfg, t, k);
            && Enabled(cfg, t, Start(k)) && Next(cfg, t, Start(k)) == a
            && a.batch.status.Running? && a.queue == t.queue - multiset{ProcessJob(k)}
            && a.chunks == t.chunks[k := LeaseRow(t.chunks[k], t.now + cfg.leaseSeconds)]
            && t.nextRun in a.runs && a.runs[t.nextRun] == Run(k, t.now + cfg.leaseSeconds, Working)
  {
    hide StartRun, Enabled, Next, Safe, Codec.Valid;
    assert CanStart(cfg, t, k);
    StartCases(cfg, t, k);
    NextOfStart(cfg, t, k);
  }

  lemma GatherOfReady(cfg: Config, a: State, run: nat, rows: seq<Row>)
    requires Enabled(cfg, a, Gather(run, rows)) && NoneCancelled(rows)
    ensures var b := GatherOutcomes(a, run, rows);
            && Next(cfg, a, Gather(run, rows)) == b
            && b.batch == a.batch && b.chunks == a.chunks && b.queue == a.queue && run in b.runs
            && b.runs[run].chunk == a.runs[run].chunk && b.runs[run].phase.Gathered?
  {
  }

  lemma WriteOfReady(cfg: Config, b: State, run: nat)
    requires run in b.runs && b.runs[run].phase.Gathered?
    ensures var c := WriteCheckpoint(cfg, b, run);
            && Enabled(cfg, b, Checkpoint(run)) && Next(cfg, b, Checkpoint(run)) == c
            && c.batch == b.batch && c.chunks == b.chunks && c.queue == b.queue && run in c.runs
            && c.runs[run].chunk == b.runs[run].chunk && c.runs[run].phase.Checkpointed?
  {
  }

  lemma SuccessOfReady(cfg: Config, t: State, c: State, run: nat, k: nat)
    requires ReadyFrom(t, k) && k < |t.chunks|
    requires c.batch.status.Running? && c.queue == t.queue - multiset{ProcessJob(k)}
    requires |c.chunks| == |t.chunks| && forall i | 0 <= i < |t.chunks| && i != k :: c.chunks[i] == t.chunks[i]
    requires run in c.runs && c.runs[run].chunk == k && c.runs[run].phase.Checkpointed?
    ensures Enabled(cfg, c, CommitSuccess(run)) && Next(cfg, c, CommitSuccess(run)) == CommitSucceeded(cfg, c, run)
    ensures ReadyFrom(CommitSucceeded(cfg, c, run), k + 1)
    ensures |CommitSucceeded(cfg, c, run).chunks| == |t.chunks|
  {
    hide Sum;
  }

  lemma {:induction false} FinishAll(cfg: Config, s: State, t: State, k: nat) returns (u: State)
    requires cfg.Valid() && Reaches(cfg, s, t) && Safe(cfg, t) && ReadyFrom(t, k) && k <= |t.chunks|
    ensures Reaches(cfg, s, u) && Safe(cfg, u) && ReadyFrom(u, |u.chunks|)
    decreases |t.chunks| - k
  {
    hide Reaches, Safe, ReadyFrom;
    if k == |t.chunks| {
      u := t;
    } else {
      var v := FinishChunk(cfg, s, t, k);
      u := FinishAll(cfg, s, v, k + 1);
    }
  }

  /**
   A running, watched batch can always still complete, by its own jobs alone: nothing has to be
   redelivered, re-orchestrated or repaired.
   */
  lemma CanStillComplete(cfg: Config, s: State) returns (u: State)
    requires cfg.Valid() && Safe(cfg, s) && s.batch.status.Running? && Watched(s)
    ensures Reaches(cfg, s, u) && u.batch.status.Completed?
  {
    hide Reaches, Safe;
    ReachesItself(cfg, s);
    u := GetCheck(cfg, s, s);
    if !u.batch.status.Completed? {
      u := LetLeasesExpire(cfg, s, u);
      if !AllSucceeded(ReclaimAll(u.chunks, u.now)) {
        u := CheckMakesReady(cfg, s, u);
        u := FinishAll(cfg, s, u, 0);
        assert AllSucceeded(ReclaimAll(u.chunks, u.now));
      }
      u := CheckAndFinalize(cfg, s, u);
    }
  }

  /** So can a pending batch whose first job is queued. */
  lemma CanStillStart(cfg: Config, s: State) returns (u: State)
    requires cfg.Valid() && Safe(cfg, s) && s.batch.status.BatchPending? && OrchestrateJob in s.queue
    ensures Reaches(cfg, s, u) && u.batch.status.Completed?
  {
    hide Reaches, Safe, Enabled, Next, OrchestrateBatch, Codec.Valid;
    ReachesItself(cfg, s);
    FirstJobRuns(cfg, s);
    Advance(cfg, s, s, Orchestrate);
    var t := Next(cfg, s, Orchestrate);
    var v := CanStillComplete(cfg, t);
    u := v;
    ReachesOnward(cfg, s, t, v);
  }

  lemma FirstJobRuns(cfg: Config, s: State)
    requires cfg.Valid() && s.batch.status.BatchPending? && OrchestrateJob in s.queue
    ensures Enabled(cfg, s, Orchestrate)
    ensures Next(cfg, s, Orchestrate).batch.status.Running? && Watched(Next(cfg, s, Orchestrate))
  {
    hide OrchestrateBatch, Next;
    NextOfOrchestrate(cfg, s);
    OrchestrateRuns(cfg, s);
  }

  lemma ReachesOnward(cfg: Config, s: State, t: State, u: State)
    requires Reaches(cfg, s, t) && Reaches(cfg, t, u)
    ensures Reaches(cfg, s, u)
  {
    hide Enabled, Next, OwnEvent;
    var es :| Feasible(cfg, s, es) && Exec(cfg, s, es) == t && forall i | 0 <= i < |es| :: OwnEvent(es[i]);
    var more :| Feasible(cfg, t, more) && Exec(cfg, t, more) == u && forall i | 0 <= i < |more| :: OwnEvent(more[i]);
    ExecAppend(cfg, s, es, more);
    assert forall i | 0 <= i < |es + more| :: OwnEvent((es + more)[i]);
  }

  lemma {:induction false} ExecAppend(cfg: Config, s: State, es: seq<Event>, more: seq<Event>)
    requires Feasible(cfg, s, es) && Feasible(cfg, Exec(cfg, s, es), more)
    ensures Feasible(cfg, s, es + more) && Exec(cfg, s, es + more) == Exec(cfg, Exec(cfg, s, es), more)
    decreases |more|
  {
    hide Enabled, Next;
    if more == [] {
      assert es + more == es;
    } else {
      ExecAppend(cfg, s, es, more[..|more| - 1]);
      assert (es + more)[..|es + more| - 1] == es + more[..|more| - 1];
      assert (es + more)[|es + more| - 1] == more[|more| - 1];
    }
  }

  /** No reliable run leads a batch that has not ended into a state from which it could not complete. */
  lemma NeverStranded(cfg: Config, now: int, es: seq<Event>) returns (u: State)
    requires cfg.Valid() && Feasible(cfg, Init(cfg, now), es) && AllReliable(es)
    requires !Ended(Exec(cfg, Init(cfg, now), es).batch.status)
    ensures Reaches(cfg, Exec(cfg, Init(cfg, now), es), u) && u.batch.status.Completed?
  {
    var s := Exec(cfg, Init(cfg, now), es);
    hide Exec, Feasible, Init, Reaches, Safe, Watched;
    RunIsSafe(cfg, now, es);
    if s.batch.status.Running? {
      RunningIsWatched(cfg, now, es);
      u := CanStillComplete(cfg, s);
    } else {
      PendingIsQueued(cfg, now, es);
      u := CanStillStart(cfg, s);
    }
  }
}
