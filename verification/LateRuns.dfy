/**
 What a run that outlives its lease can do. For every batch there are runs of the machine that
 break each of the timely results, so their assumption is not a convenience.
 */
module LateRuns {
  import opened Rows
  import opened Pipeline
  import opened Invariants
  import opened Leases
  import opened Scenarios

  predicate StackedRows(cfg: Config, s: State, n: nat)
    requires cfg.chunkSize >= 1
  {
    && s.batch.status.Running? && |s.chunks| == |cfg.Slots()| > 0
    && s.chunks[0].attempts == n && !Settled(s.chunks[0])
    && (forall i | 1 <= i < |s.chunks| :: s.chunks[i].status.Succeeded?)
  }

  predicate StackedRuns(s: State, base: nat, n: nat) {
    && s.nextRun == base + n
    && (forall r | r in s.runs :: base <= r < base + n)
    && (forall r | base <= r < base + n :: r in s.runs && s.runs[r].chunk == 0 && s.runs[r].phase.Working?)
  }

  /** Chunk 0 has n runs in flight, numbered from base; all other chunks have succeeded. */
  predicate Stacked(cfg: Config, s: State, base: nat, n: nat)
    requires cfg.chunkSize >= 1
  {
    StackedRows(cfg, s, n) && StackedRuns(s, base, n)
  }

  predicate Unfailing(es: seq<Event>) {
    forall i | 0 <= i < |es| :: !es[i].CommitFailure?
  }

  lemma CalmIsUnfailing(es: seq<Event>, longer: seq<Event>)
    requires Unfailing(es) && Calmly(es, longer)
    ensures Unfailing(longer)
  {
    forall i | 0 <= i < |longer| ensures !longer[i].CommitFailure? {
      if i < |es| {
        assert longer[i] == es[i];
      }
    }
  }

  lemma NothingFails()
    ensures Unfailing([])
  {
  }

  lemma TickIsUnfailing(es: seq<Event>, time: int)
    requires Unfailing(es)
    ensures Unfailing(es + [Tick(time)])
  {
  }

  /** Each run takes over when the lease of the one before has run out. */
  lemma {:induction false} Stack(cfg: Config, now: int, n: nat) returns (es: seq<Event>, base: nat)
    requires cfg.Valid()
    ensures Feasible(cfg, Init(cfg, now), es) && Unfailing(es)
    ensures Stacked(cfg, Exec(cfg, Init(cfg, now), es), base, n)
    decreases n
  {
    hide Feasible, Exec, Enabled, Next, Init, FinishedFrom, Stacked, Leasable, StartedOn, Unfailing, Calmly,
         ExpiryOf, Codec.Valid, Config.Slots;
    if n == 0 {
      PlanIsNotEmpty(cfg);
      var first := Orchestrated(cfg, now);
      es := FinishOthers(cfg, now, first, |cfg.Slots()|);
      NothingFails();
      CalmIsUnfailing([], first);
      CalmIsUnfailing(first, es);
      base := Exec(cfg, Init(cfg, now), es).nextRun;
      NothingStacked(cfg, Exec(cfg, Init(cfg, now), es));
    } else {
      es, base := Stack(cfg, now, n - 1);
      var s := Exec(cfg, Init(cfg, now), es);
      var time := ExpiryOf(s);
      TickMoves(cfg, s, time);
      Append(cfg, Init(cfg, now), es, Tick(time));
      StackedIsLeasable(cfg, s, base, n - 1);
      TickIsUnfailing(es, time);
      es := es + [Tick(time)];
      var longer := Lease(cfg, now, es, 0);
      CalmIsUnfailing(es, longer);
      es := longer;
      OneStackedMore(cfg, s.(now := time), Exec(cfg, Init(cfg, now), es), base, n - 1);
    }
  }

  lemma NothingStacked(cfg: Config, s: State)
    requires cfg.chunkSize >= 1 && FinishedFrom(cfg, s, 1) && |cfg.Slots()| > 0
    ensures Stacked(cfg, s, s.nextRun, 0)
  {
  }

  /** A time by which the lease of chunk 0 has run out. */
  function ExpiryOf(s: State): (time: int)
    ensures s.now <= time
  {
    if s.chunks != [] && s.chunks[0].leasedUntil.Some? && s.chunks[0].leasedUntil.value > s.now then
      s.chunks[0].leasedUntil.value
    else
      s.now
  }

  lemma StackedIsLeasable(cfg: Config, s: State, base: nat, n: nat)
    requires cfg.chunkSize >= 1 && Stacked(cfg, s, base, n)
    ensures s.batch.status.Running? && |s.chunks| > 0 && Leasable(s.chunks[0], ExpiryOf(s), cfg.maxAttempts)
    ensures Stacked(cfg, s.(now := ExpiryOf(s)), base, n)
  {
  }

  lemma OneStackedMore(cfg: Config, s: State, t: State, base: nat, n: nat)
    requires cfg.chunkSize >= 1 && Stacked(cfg, s, base, n) && StartedOn(cfg, s, t, 0)
    ensures Stacked(cfg, t, base, n + 1)
  {
    hide StackedRows, StackedRuns, StartedOn;
    OneRowMore(cfg, s, t, n);
    OneRunMore(cfg, s, t, base, n);
  }

  lemma OneRowMore(cfg: Config, s: State, t: State, n: nat)
    requires cfg.chunkSize >= 1 && StackedRows(cfg, s, n) && StartedOn(cfg, s, t, 0)
    ensures StackedRows(cfg, t, n + 1)
  {
    hide Config.Slots;
  }

  lemma OneRunMore(cfg: Config, s: State, t: State, base: nat, n: nat)
    requires StackedRuns(s, base, n) && StartedOn(cfg, s, t, 0)
    ensures StackedRuns(t, base, n + 1)
  {
    hide LeaseRow;
  }

  // ---- What breaks -----------------------------------------------------------------------

  /** Every batch, without timeliness: any number of runs can be live on one chunk at once. */
  lemma LateRunsOverlap(cfg: Config, now: int, n: nat) returns (es: seq<Event>)
    requires cfg.Valid()
    ensures Feasible(cfg, Init(cfg, now), es)
    ensures |Exec(cfg, Init(cfg, now), es).runs| == n
    ensures forall r | r in Exec(cfg, Init(cfg, now), es).runs :: Exec(cfg, Init(cfg, now), es).runs[r].chunk == 0
  {
    hide Feasible, Exec, Init, Codec.Valid, Config.Slots;
    var base: nat;
    es, base := Stack(cfg, now, n);
    var runs := Exec(cfg, Init(cfg, now), es).runs;
    assert runs.Keys == Ids(base, n);
  }

  function Ids(base: nat, n: nat): (ids: set<nat>)
    ensures |ids| == n
    ensures forall r :: r in ids <==> base <= r < base + n
  {
    if n == 0 then {} else Ids(base, n - 1) + {base + n - 1}
  }

  /** Every batch, without timeliness: a late run's failure can take a succeeded chunk back, with no nudge failing. */
  lemma LateFailureUnsettles(cfg: Config, now: int) returns (before: seq<Event>, after: seq<Event>)
    requires cfg.Valid()
    ensures Feasible(cfg, Init(cfg, now), before) && Feasible(cfg, Init(cfg, now), after)
    ensures before <= after
    ensures var s, t := Exec(cfg, Init(cfg, now), before), Exec(cfg, Init(cfg, now), after);
            && s.chunks != [] && s.chunks[0].status.Succeeded?
            && t.chunks != [] && !t.chunks[0].status.Succeeded?
    ensures NudgesArrive(cfg, Init(cfg, now), after)
  {
    hide Feasible, Exec, Enabled, Next, Init, CommitFailed, Codec.Valid;
    var base: nat;
    before, base := Stack(cfg, now, 2);
    before := SucceedRun(cfg, now, before, base + 1);
    var s := Exec(cfg, Init(cfg, now), before);
    CanFail(cfg, s, base);
    after := Fail(cfg, now, before, base);
    FailureUnsettles(cfg, s, base);
    UnfailingNudgesArrive(cfg, Init(cfg, now), before);
    assert after[..|after| - 1] == before;
  }

  lemma {:induction false} UnfailingNudgesArrive(cfg: Config, s: State, es: seq<Event>)
    requires Feasible(cfg, s, es) && Unfailing(es)
    ensures NudgesArrive(cfg, s, es)
  {
    hide Exec;
    if es != [] {
      UnfailingNudgesArrive(cfg, s, es[..|es| - 1]);
    }
  }

  lemma FailureUnsettles(cfg: Config, s: State, run: nat)
    requires run in s.runs && s.runs[run].chunk < |s.chunks| && s.batch.status.Running?
    ensures |CommitFailed(cfg, s, run).chunks| == |s.chunks|
    ensures !CommitFailed(cfg, s, run).chunks[s.runs[run].chunk].status.Succeeded?
  {
  }

  /** Every batch, without timeliness: a row's counts can differ from its checkpoint's. */
  lemma LateWriteMiscounts(cfg: Config, now: int) returns (es: seq<Event>)
    requires cfg.Valid()
    ensures Feasible(cfg, Init(cfg, now), es)
    ensures !Matching(cfg, Exec(cfg, Init(cfg, now), es))
  {
    hide Feasible, Exec, Enabled, Next, Init, Safe, Uniform, Recompute, Codec.Written, CountOk, Config.Slots,
         Codec.Valid, Stacked, Codec.RowsIn;
    var base: nat;
    es, base := Stack(cfg, now, 2);
    TwoStacked(cfg, Exec(cfg, Init(cfg, now), es), base);
    es := AllAnswer(cfg, now, es, base, true);
    es := AllAnswer(cfg, now, es, base + 1, false);
    es := Store(cfg, now, es, base);
    es := Store(cfg, now, es, base + 1);
    var s := Exec(cfg, Init(cfg, now), es);
    CanSucceed(cfg, s, base);
    es := Succeed(cfg, now, es, base);
    var t := Exec(cfg, Init(cfg, now), es);
    Miscounted(cfg, t, cfg.Slots()[0].limit);
  }

  lemma TwoStacked(cfg: Config, s: State, base: nat)
    requires cfg.chunkSize >= 1 && Stacked(cfg, s, base, 2)
    ensures |cfg.Slots()| > 0 && |s.chunks| > 0
    ensures forall r | base <= r < base + 2 :: r in s.runs && s.runs[r].chunk == 0 && s.runs[r].phase.Working?
  {
  }

  lemma Miscounted(cfg: Config, t: State, n: nat)
    requires cfg.Valid() && |cfg.Slots()| > 0 && n == cfg.Slots()[0].limit
    requires |t.chunks| > 0 && t.chunks[0].status.Succeeded? && t.chunks[0].okCount == CountOk(Uniform(n, true))
    requires cfg.Key(0) in t.objects && t.objects[cfg.Key(0)] == cfg.codec.Written(Uniform(n, false))
    ensures !Matching(cfg, t)
  {
    hide Codec.Written, Uniform, CountOk;
    PlanIsNotEmpty(cfg);
    UniformCounts(n, true);
    UniformCounts(n, false);
    cfg.codec.ReadBack(Uniform(n, false));
    assert !RowMatches(cfg, t.objects, t.chunks[0], 0);
  }

  /**
   Every batch, without timeliness: it can fail and complete afterwards. A late run exhausts the
   attempts of a chunk that another run then finishes.
   */
  lemma LateSuccessRevives(cfg: Config, now: int) returns (before: seq<Event>, after: seq<Event>)
    requires cfg.Valid()
    ensures Feasible(cfg, Init(cfg, now), before) && Feasible(cfg, Init(cfg, now), after)
    ensures before <= after
    ensures Exec(cfg, Init(cfg, now), before).batch.status.BatchFailed?
    ensures Exec(cfg, Init(cfg, now), after).batch.status.Completed?
  {
    hide Feasible, Exec, Enabled, Next, Init, CommitFailed, Codec.Valid, Config.Slots;
    var base: nat;
    var n := if cfg.maxAttempts > 2 then cfg.maxAttempts else 2;
    before, base := Stack(cfg, now, n);
    var s := Exec(cfg, Init(cfg, now), before);
    CanFail(cfg, s, base);
    FailureFailsBatch(cfg, s, base);
    before := Fail(cfg, now, before, base);
    assert Exec(cfg, Init(cfg, now), before).runs == s.runs - {base};
    after := SucceedRun(cfg, now, before, base + 1);
    var t := Exec(cfg, Init(cfg, now), after);
    assert AllSucceeded(t.chunks);
    after := FinalizeNow(cfg, now, after);
  }

  lemma FailureFailsBatch(cfg: Config, s: State, run: nat)
    requires run in s.runs && s.runs[run].chunk == 0 < |s.chunks| && s.batch.status.Running?
    requires s.chunks[0].attempts >= cfg.maxAttempts
    ensures var t := CommitFailed(cfg, s, run);
            && t.batch.status.BatchFailed? && t.runs == s.runs - {run}
            && |t.chunks| == |s.chunks| && forall i | 1 <= i < |t.chunks| :: t.chunks[i] == s.chunks[i]
  {
  }

  lemma FinalizeNow(cfg: Config, now: int, es: seq<Event>) returns (longer: seq<Event>)
    requires cfg.Valid() && Feasible(cfg, Init(cfg, now), es)
    requires var s := Exec(cfg, Init(cfg, now), es);
             s.chunks != [] && AllSucceeded(s.chunks) && !s.batch.status.BatchCancelled?
    ensures es <= longer && Feasible(cfg, Init(cfg, now), longer)
    ensures Exec(cfg, Init(cfg, now), longer).batch.status.Completed?
  {
    hide Feasible, Exec, Enabled, Next, Init, Enqueue, FinalizeBatch, AllSucceeded, Codec.Valid;
    var s := Exec(cfg, Init(cfg, now), es);
    RedeliverEnqueues(cfg, s, FinalizeJob);
    Append(cfg, Init(cfg, now), es, Redeliver(FinalizeJob));
    longer := es + [Redeliver(FinalizeJob)];
    FinalizeCompletes(cfg, s);
    Append(cfg, Init(cfg, now), longer, Finalize);
    longer := longer + [Finalize];
  }

  lemma FinalizeCompletes(cfg: Config, s: State)
    requires s.chunks != [] && AllSucceeded(s.chunks) && !s.batch.status.BatchCancelled?
    ensures var u := Enqueue(s, FinalizeJob);
            Enabled(cfg, u, Finalize) && Next(cfg, u, Finalize).batch.status.Completed?
  {
    hide Publish, AllSucceeded;
    PublishedIsCompleted(cfg, Enqueue(s, FinalizeJob));
  }
}
