/**
 Building runs of the machine event by event, for any batch: what the counterexamples of LateRuns
 and FailedNudges are made of.
 */
module Scenarios {
  import opened Rows
  import opened Pipeline
  import opened Sums
  import opened Invariants

  /** The events added neither move the clock nor fail a run. */
  predicate Calmly(es: seq<Event>, longer: seq<Event>) {
    es <= longer && forall i | |es| <= i < |longer| :: !longer[i].Tick? && !longer[i].CommitFailure?
  }

  lemma Append(cfg: Config, s: State, es: seq<Event>, e: Event)
    requires Feasible(cfg, s, es) && Enabled(cfg, Exec(cfg, s, es), e)
    ensures Feasible(cfg, s, es + [e]) && Exec(cfg, s, es + [e]) == Next(cfg, Exec(cfg, s, es), e)
  {
    assert (es + [e])[..|es + [e]| - 1] == es;
  }

  // ---- Getting there ---------------------------------------------------------------------

  /** No run in flight; chunks from k on have succeeded, those before are as created. */
  predicate FinishedFrom(cfg: Config, s: State, k: nat)
    requires cfg.chunkSize >= 1
  {
    && s.batch.status.Running? && s.runs == map[] && |s.chunks| == |cfg.Slots()|
    && (forall i | 0 <= i < |s.chunks| ::
          if i < k then s.chunks[i] == FreshChunk(cfg.Slots()[i]) else s.chunks[i].status.Succeeded?)
  }

  lemma Orchestrated(cfg: Config, now: int) returns (es: seq<Event>)
    requires cfg.Valid()
    ensures Feasible(cfg, Init(cfg, now), es)
    ensures FinishedFrom(cfg, Exec(cfg, Init(cfg, now), es), |cfg.Slots()|) && Calmly([], es)
  {
    hide Enabled, Next, Init, OrchestrateBatch, FinishedFrom, Config.Slots, Codec.Valid;
    var none: seq<Event> := [];
    assert Feasible(cfg, Init(cfg, now), none) && Exec(cfg, Init(cfg, now), none) == Init(cfg, now);
    OrchestrateIsFirst(cfg, now);
    Append(cfg, Init(cfg, now), none, Orchestrate);
    es := none + [Orchestrate];
  }

  lemma OrchestrateIsFirst(cfg: Config, now: int)
    requires cfg.Valid()
    ensures Enabled(cfg, Init(cfg, now), Orchestrate)
    ensures FinishedFrom(cfg, Next(cfg, Init(cfg, now), Orchestrate), |cfg.Slots()|)
  {
    hide JobsFor, Codec.Valid;
    PlanIsNotEmpty(cfg);
    var rows := FreshChunks(cfg.Slots());
    assert ReclaimAll(rows, now) == rows;
  }

  lemma StartLeases(cfg: Config, s: State, i: nat)
    requires s.batch.status.Running? && i < |s.chunks| && Leasable(s.chunks[i], s.now, cfg.maxAttempts)
    ensures var u := Enqueue(s, ProcessJob(i));
            && Enabled(cfg, u, Start(i)) && Next(cfg, u, Start(i)) == StartRun(cfg, u, i)
            && StartedOn(cfg, s, StartRun(cfg, u, i), i)
  {
    hide Leasable, StartRun, Enabled, Next;
    var u := Enqueue(s, ProcessJob(i));
    assert CanStart(cfg, u, i);
    StartCases(cfg, u, i);
    NextOfStart(cfg, u, i);
  }

  lemma RedeliverEnqueues(cfg: Config, s: State, job: Job)
    ensures Enabled(cfg, s, Redeliver(job)) && Next(cfg, s, Redeliver(job)) == Enqueue(s, job)
  {
  }

  lemma TickMoves(cfg: Config, s: State, time: int)
    requires s.now <= time
    ensures Enabled(cfg, s, Tick(time)) && Next(cfg, s, Tick(time)) == s.(now := time)
  {
  }

  /** A job for chunk i arrives and leases it, whenever it can be leased. */
  lemma Lease(cfg: Config, now: int, es: seq<Event>, i: nat) returns (longer: seq<Event>)
    requires cfg.Valid() && Feasible(cfg, Init(cfg, now), es)
    requires var s := Exec(cfg, Init(cfg, now), es);
             s.batch.status.Running? && i < |s.chunks| && Leasable(s.chunks[i], s.now, cfg.maxAttempts)
    ensures Calmly(es, longer) && Feasible(cfg, Init(cfg, now), longer)
    ensures StartedOn(cfg, Exec(cfg, Init(cfg, now), es), Exec(cfg, Init(cfg, now), longer), i)
  {
    hide Leasable, Feasible, Exec, Enabled, Next, Init, StartRun, Enqueue, StartedOn, Codec.Valid;
    var s := Exec(cfg, Init(cfg, now), es);
    StartLeases(cfg, s, i);
    RedeliverEnqueues(cfg, s, ProcessJob(i));
    Append(cfg, Init(cfg, now), es, Redeliver(ProcessJob(i)));
    longer := es + [Redeliver(ProcessJob(i))];
    Append(cfg, Init(cfg, now), longer, Start(i));
    longer := longer + [Start(i)];
  }

  /** All chunks but the first are run and succeed. */
  lemma {:induction false} FinishOthers(cfg: Config, now: int, es: seq<Event>, k: nat) returns (longer: seq<Event>)
    requires cfg.Valid() && Feasible(cfg, Init(cfg, now), es) && 1 <= k <= |cfg.Slots()|
    requires FinishedFrom(cfg, Exec(cfg, Init(cfg, now), es), k)
    ensures Calmly(es, longer) && Feasible(cfg, Init(cfg, now), longer)
    ensures FinishedFrom(cfg, Exec(cfg, Init(cfg, now), longer), 1)
    decreases k
  {
    hide Feasible, Exec, Enabled, Next, Init, FinishedFrom, StartedOn, Succeeds, Codec.Valid;
    if k == 1 {
      longer := es;
    } else {
      var s := Exec(cfg, Init(cfg, now), es);
      FreshIsLeasable(cfg, s, k);
      longer := Lease(cfg, now, es, k - 1);
      var a := Exec(cfg, Init(cfg, now), longer);
      JustWorking(cfg, s, a, k - 1);
      longer := SucceedRun(cfg, now, longer, s.nextRun);
      var b := Exec(cfg, Init(cfg, now), longer);
      JustCommitted(cfg, a, b, s.nextRun);
      longer := Nudged(cfg, now, longer, s.nextRun);
      OneFinishedMore(cfg, s, a, b, k);
      longer := FinishOthers(cfg, now, longer, k - 1);
    }
  }

  lemma FreshIsLeasable(cfg: Config, s: State, k: nat)
    requires cfg.chunkSize >= 1 && FinishedFrom(cfg, s, k) && 1 <= k <= |cfg.Slots()|
    ensures s.batch.status.Running? && k <= |s.chunks| && Leasable(s.chunks[k - 1], s.now, cfg.maxAttempts)
  {
  }

  lemma JustWorking(cfg: Config, s: State, a: State, i: nat)
    requires StartedOn(cfg, s, a, i)
    ensures |a.chunks| == |s.chunks| && s.nextRun in a.runs
    ensures a.runs[s.nextRun].phase.Working? && a.runs[s.nextRun].chunk == i < |a.chunks|
  {
  }

  lemma OneFinishedMore(cfg: Config, s: State, a: State, b: State, k: nat)
    requires cfg.chunkSize >= 1 && 2 <= k <= |cfg.Slots()|
    requires FinishedFrom(cfg, s, k) && StartedOn(cfg, s, a, k - 1) && Succeeds(cfg, a, b, s.nextRun)
    ensures FinishedFrom(cfg, NudgeCheck(b, s.nextRun), k - 1)
  {
    assert NudgeCheck(b, s.nextRun).runs == map[];
  }

  /** n rows with the same verdict. */
  function Uniform(n: nat, ok: bool): (rows: seq<Row>)
    ensures |rows| == n && NoneCancelled(rows)
  {
    seq(n, _ => Row(0, if ok then Ok else Failed(false), []))
  }

  lemma {:induction false} UniformCounts(n: nat, ok: bool)
    ensures Sorted(Uniform(n, ok))
    ensures CountOk(Uniform(n, ok)) == if ok then n else 0
  {
    if n > 0 {
      UniformCounts(n - 1, ok);
      assert Uniform(n, ok)[1..] == Uniform(n - 1, ok);
    }
  }

  /** A working run's items all answer alike. */
  lemma AllAnswer(cfg: Config, now: int, es: seq<Event>, run: nat, ok: bool) returns (longer: seq<Event>)
    requires cfg.Valid() && Feasible(cfg, Init(cfg, now), es)
    requires var s := Exec(cfg, Init(cfg, now), es);
             run in s.runs && s.runs[run].phase.Working? && s.runs[run].chunk < |s.chunks|
    ensures Calmly(es, longer) && Feasible(cfg, Init(cfg, now), longer)
    ensures var s, t := Exec(cfg, Init(cfg, now), es), Exec(cfg, Init(cfg, now), longer);
            Safe(cfg, s) && s.runs[run].chunk < |cfg.Slots()|
    ensures var s, t := Exec(cfg, Init(cfg, now), es), Exec(cfg, Init(cfg, now), longer);
            var rows := Uniform(cfg.Slots()[s.runs[run].chunk].limit, ok);
            t == s.(runs := s.runs[run := s.runs[run].(phase := Gathered(rows))])
  {
    hide Feasible, Exec, Enabled, Next, Init, Safe, Uniform, GatherOutcomes, Config.Slots, Codec.Valid;
    var s := Exec(cfg, Init(cfg, now), es);
    RunIsSafe(cfg, now, es);
    var rows := GatherUniform(cfg, s, run, ok);
    Append(cfg, Init(cfg, now), es, Gather(run, rows));
    longer := es + [Gather(run, rows)];
  }

  lemma GatherUniform(cfg: Config, s: State, run: nat, ok: bool) returns (rows: seq<Row>)
    requires cfg.Valid() && Safe(cfg, s)
    requires run in s.runs && s.runs[run].phase.Working? && s.runs[run].chunk < |s.chunks|
    ensures s.runs[run].chunk < |cfg.Slots()|
    ensures rows == Uniform(cfg.Slots()[s.runs[run].chunk].limit, ok)
    ensures Enabled(cfg, s, Gather(run, rows))
    ensures Next(cfg, s, Gather(run, rows)) ==
            s.(runs := s.runs[run := s.runs[run].(phase := Gathered(rows))])
  {
    hide Enabled, Next, Uniform, SortByIndex, Config.Slots, Codec.Valid, Safe;
    SlotIsRead(cfg, s, s.runs[run].chunk);
    rows := Uniform(cfg.Slots()[s.runs[run].chunk].limit, ok);
    UniformCounts(|rows|, ok);
    SortOfSorted(rows);
    GatherIsNext(cfg, s, run, rows);
  }

  lemma SlotIsRead(cfg: Config, s: State, i: nat)
    requires cfg.Valid() && Safe(cfg, s) && i < |s.chunks|
    ensures i < |cfg.Slots()| && |ItemsRead(cfg, s, i)| == cfg.Slots()[i].limit
  {
    hide RunsSound, CountersSound, LifecycleSound, ResultsSound, Backed, Codec.Valid, Config.Slots;
    assert RowFits(cfg, s.chunks[i], i);
    PlanIsNotEmpty(cfg);
  }

  lemma GatherIsNext(cfg: Config, s: State, run: nat, rows: seq<Row>)
    requires run in s.runs && s.runs[run].phase.Working? && s.runs[run].chunk < |s.chunks|
    requires |rows| == |ItemsRead(cfg, s, s.runs[run].chunk)| && NoneCancelled(rows)
    ensures Enabled(cfg, s, Gather(run, rows))
    ensures Next(cfg, s, Gather(run, rows)) == GatherOutcomes(s, run, rows)
  {
    hide GatherOutcomes, ItemsRead, NoneCancelled;
  }

  lemma Store(cfg: Config, now: int, es: seq<Event>, run: nat) returns (longer: seq<Event>)
    requires cfg.Valid() && Feasible(cfg, Init(cfg, now), es)
    requires var s := Exec(cfg, Init(cfg, now), es); run in s.runs && s.runs[run].phase.Gathered?
    ensures Calmly(es, longer) && Feasible(cfg, Init(cfg, now), longer)
    ensures Exec(cfg, Init(cfg, now), longer) == WriteCheckpoint(cfg, Exec(cfg, Init(cfg, now), es), run)
  {
    Append(cfg, Init(cfg, now), es, Checkpoint(run));
    longer := es + [Checkpoint(run)];
  }

  lemma Succeed(cfg: Config, now: int, es: seq<Event>, run: nat) returns (longer: seq<Event>)
    requires cfg.Valid() && Feasible(cfg, Init(cfg, now), es)
    requires Enabled(cfg, Exec(cfg, Init(cfg, now), es), CommitSuccess(run))
    ensures Calmly(es, longer) && Feasible(cfg, Init(cfg, now), longer)
    ensures Exec(cfg, Init(cfg, now), longer) == CommitSucceeded(cfg, Exec(cfg, Init(cfg, now), es), run)
  {
    Append(cfg, Init(cfg, now), es, CommitSuccess(run));
    longer := es + [CommitSuccess(run)];
  }

  lemma Fail(cfg: Config, now: int, es: seq<Event>, run: nat) returns (longer: seq<Event>)
    requires cfg.Valid() && Feasible(cfg, Init(cfg, now), es)
    requires Enabled(cfg, Exec(cfg, Init(cfg, now), es), CommitFailure(run))
    ensures longer == es + [CommitFailure(run)] && Feasible(cfg, Init(cfg, now), longer)
    ensures Exec(cfg, Init(cfg, now), longer) == CommitFailed(cfg, Exec(cfg, Init(cfg, now), es), run)
  {
    Append(cfg, Init(cfg, now), es, CommitFailure(run));
    longer := es + [CommitFailure(run)];
  }

  lemma CanSucceed(cfg: Config, s: State, run: nat)
    requires run in s.runs && s.runs[run].phase.Checkpointed? && s.runs[run].chunk < |s.chunks|
    ensures Enabled(cfg, s, CommitSuccess(run))
  {
  }

  lemma CanFail(cfg: Config, s: State, run: nat)
    requires run in s.runs && s.runs[run].chunk < |s.chunks|
    ensures Enabled(cfg, s, CommitFailure(run))
  {
  }

  /** The check that follows a committed success is queued, and the run is over. */
  lemma Nudged(cfg: Config, now: int, es: seq<Event>, run: nat) returns (longer: seq<Event>)
    requires cfg.Valid() && Feasible(cfg, Init(cfg, now), es)
    requires var s := Exec(cfg, Init(cfg, now), es); run in s.runs && s.runs[run].phase.Committed?
    ensures Calmly(es, longer) && Feasible(cfg, Init(cfg, now), longer)
    ensures Exec(cfg, Init(cfg, now), longer) == NudgeCheck(Exec(cfg, Init(cfg, now), es), run)
  {
    Append(cfg, Init(cfg, now), es, Nudge(run));
    longer := es + [Nudge(run)];
  }

  /** From s to t a working run has answered well, stored its checkpoint and committed its success. */
  predicate Succeeds(cfg: Config, s: State, t: State, run: nat)
    requires cfg.chunkSize >= 1
  {
    run in s.runs && (
      var i := s.runs[run].chunk;
      && i < |s.chunks| && i < |cfg.Slots()|
      && |t.chunks| == |s.chunks| && t.chunks == s.chunks[i := t.chunks[i]]
      && t.chunks[i].status.Succeeded? && t.chunks[i].attempts == s.chunks[i].attempts
      && t.batch.status == s.batch.status && t.now == s.now && t.nextRun == s.nextRun
      && t.runs == s.runs[run := s.runs[run].(phase := Committed)]
      && cfg.Key(i) in t.objects && t.objects[cfg.Key(i)] == cfg.codec.Written(Uniform(cfg.Slots()[i].limit, true)))
  }

  lemma SucceedRun(cfg: Config, now: int, es: seq<Event>, run: nat) returns (longer: seq<Event>)
    requires cfg.Valid() && Feasible(cfg, Init(cfg, now), es)
    requires var s := Exec(cfg, Init(cfg, now), es);
             run in s.runs && s.runs[run].phase.Working? && s.runs[run].chunk < |s.chunks|
    ensures Calmly(es, longer) && Feasible(cfg, Init(cfg, now), longer)
    ensures Succeeds(cfg, Exec(cfg, Init(cfg, now), es), Exec(cfg, Init(cfg, now), longer), run)
  {
    hide Feasible, Exec, Enabled, Next, Init, Safe, Uniform, CommitSucceeded, WriteCheckpoint, Codec.Valid;
    var s := Exec(cfg, Init(cfg, now), es);
    longer := AllAnswer(cfg, now, es, run, true);
    var a := Exec(cfg, Init(cfg, now), longer);
    longer := Store(cfg, now, longer, run);
    StoredCanCommit(cfg, s, a, run, Uniform(cfg.Slots()[s.runs[run].chunk].limit, true));
    longer := Succeed(cfg, now, longer, run);
  }

  lemma StoredCanCommit(cfg: Config, s: State, a: State, run: nat, rows: seq<Row>)
    requires cfg.chunkSize >= 1 && run in s.runs && s.runs[run].chunk < |s.chunks| && s.runs[run].chunk < |cfg.Slots()|
    requires a == s.(runs := s.runs[run := s.runs[run].(phase := Gathered(rows))])
    requires rows == Uniform(cfg.Slots()[s.runs[run].chunk].limit, true)
    ensures Enabled(cfg, WriteCheckpoint(cfg, a, run), CommitSuccess(run))
    ensures Succeeds(cfg, s, CommitSucceeded(cfg, WriteCheckpoint(cfg, a, run), run), run)
  {
    hide Recompute, Codec.Written, CountOk, Uniform, Config.Slots, Config.Key, SucceededRow, ItemsRead;
    var t := CommitSucceeded(cfg, WriteCheckpoint(cfg, a, run), run);
    RecomputeKeepsStatus(s.batch, t.chunks);
    var i := s.runs[run].chunk;
    RowSucceeds(s.chunks[i], cfg.Key(i), CountOk(rows), |rows| - CountOk(rows));
  }

  lemma RowSucceeds(c: Chunk, key: string, ok: nat, fail: nat)
    ensures SucceededRow(c, key, ok, fail).status.Succeeded? && SucceededRow(c, key, ok, fail).attempts == c.attempts
  {
  }

  lemma JustCommitted(cfg: Config, s: State, t: State, run: nat)
    requires cfg.chunkSize >= 1 && Succeeds(cfg, s, t, run)
    ensures run in t.runs && t.runs[run].phase.Committed?
  {
  }
}
