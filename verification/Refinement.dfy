/**
 End to end: when an item's outcome is a function of its line, a completed batch's results object
 is what a plain sequential program computes from the prompt file, whatever happened on the way.
 */
module Refinement {
  import opened Ndjson
  import opened Rows
  import opened Planning
  import opened Keys
  import opened Spaces
  import opened Pipeline
  import opened Sums
  import opened Invariants

  /** A deterministic item: the index its line carries, given the chunk's offset as default, and its answer. */
  datatype Model = Model(index: (Bytes, int) -> int, answer: Bytes -> Inference)

  function ItemRow(model: Model, line: Bytes, offset: int): Row {
    RowOf(model.index(line, offset), model.answer(line))
  }

  /** One row per line of a chunk, in line order. */
  function LineRows(model: Model, lines: seq<Bytes>, offset: int): (rows: seq<Row>)
    ensures |rows| == |lines|
  {
    seq(|lines|, k requires 0 <= k < |lines| => ItemRow(model, lines[k], offset))
  }

  /** The prompt lines of chunk i. */
  function ChunkLines(cfg: Config, i: nat): seq<Bytes>
    requires cfg.chunkSize >= 1 && i < |cfg.Slots()|
  {
    Range(cfg.Items(), cfg.Slots()[i].offset, cfg.Slots()[i].limit)
  }

  /** The rows that belong to chunk i: one per line, stably sorted by index. */
  function ChunkRows(cfg: Config, model: Model, i: nat): seq<Row>
    requires cfg.chunkSize >= 1 && i < |cfg.Slots()|
  {
    SortByIndex(LineRows(model, ChunkLines(cfg, i), cfg.Slots()[i].offset))
  }

  /** The plain sequential program the pipeline stands for: chunk by chunk, the rows of the first k chunks. */
  function BatchRows(cfg: Config, model: Model, k: nat): seq<Row>
    requires cfg.chunkSize >= 1 && k <= |cfg.Slots()|
  {
    if k == 0 then [] else BatchRows(cfg, model, k - 1) + ChunkRows(cfg, model, k - 1)
  }

  function AllRows(cfg: Config, model: Model): seq<Row>
    requires cfg.chunkSize >= 1
  {
    BatchRows(cfg, model, |cfg.Slots()|)
  }

  /** Every uncancelled outcome is the model's row for its line, as read from the prompt object. */
  ghost predicate AnswersByModel(cfg: Config, model: Model, s: State, e: Event)
    requires Enabled(cfg, s, e)
  {
    e.Gather? && NoneCancelled(e.outcomes) ==>
      var i := s.runs[e.run].chunk;
      e.outcomes == LineRows(model, ItemsRead(cfg, s, i), s.chunks[i].slot.offset)
  }

  ghost predicate RunsByModel(cfg: Config, model: Model, s: State, es: seq<Event>)
    requires Feasible(cfg, s, es)
  {
    es == [] || (
      && RunsByModel(cfg, model, s, es[..|es| - 1])
      && AnswersByModel(cfg, model, Exec(cfg, s, es[..|es| - 1]), es[|es| - 1]))
  }

  ghost predicate PhaseDetermined(cfg: Config, model: Model, r: Run)
    requires cfg.chunkSize >= 1
  {
    r.chunk < |cfg.Slots()| ==>
      var rows := ChunkRows(cfg, model, r.chunk);
      match r.phase
      case Gathered(got) => got == rows
      case Checkpointed(ok, fail) => ok == CountOk(rows) && fail == |rows| - CountOk(rows)
      case _ => true
  }

  ghost predicate RowDetermined(cfg: Config, model: Model, c: Chunk, i: nat)
    requires cfg.chunkSize >= 1 && i < |cfg.Slots()|
  {
    var rows := ChunkRows(cfg, model, i);
    c.status.Succeeded? ==> c.okCount == CountOk(rows) && c.failCount == |rows| - CountOk(rows)
  }

  ghost predicate StoreDetermined(cfg: Config, model: Model, objects: map<string, Bytes>)
    requires cfg.chunkSize >= 1
  {
    forall i: nat {:trigger cfg.Key(i)} :: cfg.Key(i) in objects && i < |cfg.Slots()| ==>
      objects[cfg.Key(i)] == cfg.codec.Written(ChunkRows(cfg, model, i))
  }

  /** What a completed batch leaves behind. */
  ghost predicate ResultsDetermined(cfg: Config, model: Model, objects: map<string, Bytes>)
    requires cfg.chunkSize >= 1
  {
    var rows := AllRows(cfg, model);
    && ResultsKey(cfg.batchId) in objects
    && objects[ResultsKey(cfg.batchId)] == cfg.codec.Written(rows)
    && ManifestKey(cfg.batchId) in objects
    && cfg.codec.decManifest(objects[ManifestKey(cfg.batchId)]).failedItems == |rows| - CountOk(rows)
  }

  /** The invariant of model-driven runs; leases play no part in it. */
  ghost predicate Determined(cfg: Config, model: Model, s: State)
    requires cfg.chunkSize >= 1
  {
    && StoreDetermined(cfg, model, s.objects)
    && (forall r | r in s.runs :: PhaseDetermined(cfg, model, s.runs[r]))
    && (forall i | 0 <= i < |s.chunks| && i < |cfg.Slots()| :: RowDetermined(cfg, model, s.chunks[i], i))
    && (s.batch.status.Completed? ==> ResultsDetermined(cfg, model, s.objects))
  }

  // ---- One chunk -------------------------------------------------------------------------

  /** What a run of chunk i reads: its slot of the prompt lines. */
  lemma ReadsItsSlot(cfg: Config, s: State, i: nat)
    requires cfg.Valid() && Safe(cfg, s) && i < |s.chunks|
    ensures i < |cfg.Slots()| && s.chunks[i].slot == cfg.Slots()[i]
    ensures ItemsRead(cfg, s, i) == ChunkLines(cfg, i)
  {
    hide RunsSound, CountersSound, ResultsSound, LifecycleSound, Backed, Codec.Valid, Config.Slots, Lines, Range;
    assert RowFits(cfg, s.chunks[i], i);
  }

  /** A model-driven run gathers exactly its chunk's rows. */
  lemma GatheredRows(cfg: Config, model: Model, s: State, run: nat, outcomes: seq<Row>)
    requires cfg.Valid() && Safe(cfg, s)
    requires Enabled(cfg, s, Gather(run, outcomes)) && AnswersByModel(cfg, model, s, Gather(run, outcomes))
    requires NoneCancelled(outcomes)
    ensures s.runs[run].chunk < |cfg.Slots()|
    ensures SortByIndex(outcomes) == ChunkRows(cfg, model, s.runs[run].chunk)
  {
    hide Safe, ItemsRead, LineRows, ChunkLines, SortByIndex, NoneCancelled, Codec.Valid, Config.Slots;
    ReadsItsSlot(cfg, s, s.runs[run].chunk);
  }

  lemma GatherStaysDetermined(cfg: Config, model: Model, s: State, run: nat, outcomes: seq<Row>)
    requires cfg.Valid() && Safe(cfg, s) && Determined(cfg, model, s)
    requires Enabled(cfg, s, Gather(run, outcomes)) && AnswersByModel(cfg, model, s, Gather(run, outcomes))
    ensures Determined(cfg, model, GatherOutcomes(s, run, outcomes))
  {
    if NoneCancelled(outcomes) {
      GatheredRows(cfg, model, s, run, outcomes);
    }
    var t := GatherOutcomes(s, run, outcomes);
    forall r | r in t.runs ensures PhaseDetermined(cfg, model, t.runs[r]) {
      assert PhaseDetermined(cfg, model, s.runs[r]);
    }
  }

  lemma WriteStaysDetermined(cfg: Config, model: Model, s: State, run: nat)
    requires cfg.Valid() && Safe(cfg, s) && Determined(cfg, model, s)
    requires Enabled(cfg, s, Checkpoint(run))
    ensures Determined(cfg, model, WriteCheckpoint(cfg, s, run))
  {
    hide Safe, StoreDetermined, RowDetermined, ResultsDetermined, ChunkRows, CountOk, Codec.Written, Codec.Valid,
         Config.Key, Config.Slots;
    var t := WriteCheckpoint(cfg, s, run);
    var r := s.runs[run];
    RunHasSlot(cfg, s, run);
    assert PhaseDetermined(cfg, model, r);
    WrittenStays(cfg, model, s.objects, r.chunk);
    if s.batch.status.Completed? {
      WrittenKeepsResults(cfg, model, s.objects, r.chunk, cfg.codec.Written(r.phase.rows));
    }
    forall q | q in t.runs ensures PhaseDetermined(cfg, model, t.runs[q]) {
      assert PhaseDetermined(cfg, model, s.runs[q]);
    }
  }

  lemma RunHasSlot(cfg: Config, s: State, run: nat)
    requires cfg.Valid() && Safe(cfg, s) && run in s.runs
    ensures s.runs[run].chunk < |cfg.Slots()| && s.runs[run].chunk < |s.chunks|
  {
    hide RowsFit, StoreSound, Backed, CountersSound, LifecycleSound, ResultsSound, Codec.Valid, Config.Slots;
    assert RunSound(cfg, s, s.runs[run]);
  }

  lemma WrittenStays(cfg: Config, model: Model, objects: map<string, Bytes>, i: nat)
    requires cfg.chunkSize >= 1 && StoreDetermined(cfg, model, objects) && i < |cfg.Slots()|
    ensures StoreDetermined(cfg, model, objects[cfg.Key(i) := cfg.codec.Written(ChunkRows(cfg, model, i))])
  {
    hide ChunkRows, Codec.Written, Config.Slots;
    KeysAreDistinct(cfg.batchId);
  }

  lemma WrittenKeepsResults(cfg: Config, model: Model, objects: map<string, Bytes>, i: nat, data: Bytes)
    requires cfg.chunkSize >= 1 && ResultsDetermined(cfg, model, objects)
    ensures ResultsDetermined(cfg, model, objects[cfg.Key(i) := data])
  {
    hide AllRows, CountOk, Codec.Written;
    KeysAreDistinct(cfg.batchId);
  }

  lemma SuccessStaysDetermined(cfg: Config, model: Model, s: State, run: nat)
    requires cfg.Valid() && Safe(cfg, s) && Determined(cfg, model, s)
    requires Enabled(cfg, s, CommitSuccess(run))
    ensures Determined(cfg, model, CommitSucceeded(cfg, s, run))
  {
    hide Recompute, ChunkRows, CountOk, StoreDetermined, ResultsDetermined, Codec.Valid, StoreSound, RowsFit,
         CountersSound;
    var t := CommitSucceeded(cfg, s, run);
    assert RunSound(cfg, s, s.runs[run]);
    assert PhaseDetermined(cfg, model, s.runs[run]);
    forall r | r in t.runs ensures PhaseDetermined(cfg, model, t.runs[r]) {
      assert PhaseDetermined(cfg, model, s.runs[r]);
    }
    RecomputeKeepsStatus(s.batch, t.chunks);
  }

  // ---- The concatenation -----------------------------------------------------------------

  /** The checkpoint of a chunk that has succeeded. */
  lemma StoredPart(cfg: Config, model: Model, s: State, i: nat)
    requires cfg.Valid() && Safe(cfg, s) && StoreDetermined(cfg, model, s.objects)
    requires AllSucceeded(s.chunks) && i < |s.chunks| == |cfg.Slots()|
    ensures Fetch(s.objects, cfg.Key(i)) == cfg.codec.Written(ChunkRows(cfg, model, i))
  {
    hide ChunkRows, Codec.Valid, RunsSound, CountersSound, LifecycleSound, ResultsSound, StoreSound, RowsFit;
    assert cfg.Key(i) in s.objects;
  }

  lemma {:induction false} ConcatenationIsBatch(cfg: Config, model: Model, s: State, k: nat)
    requires cfg.Valid() && Safe(cfg, s) && StoreDetermined(cfg, model, s.objects)
    requires AllSucceeded(s.chunks) && k <= |s.chunks| == |cfg.Slots()|
    ensures Concatenation(Parts(cfg, s.objects, k)) == cfg.codec.Written(BatchRows(cfg, model, k))
  {
    hide Safe, StoreDetermined, AllSucceeded, ChunkRows, Codec.Written, Codec.Valid, Config.Slots, Config.Key, Parts,
         Fetch, Concatenation;
    if k == 0 {
      NothingWritten(cfg.codec);
      NoParts(cfg, s.objects);
    } else {
      ConcatenationIsBatch(cfg, model, s, k - 1);
      StoredPart(cfg, model, s, k - 1);
      PartsAppend(cfg, s.objects, k - 1);
      cfg.codec.WrittenIsTerminated(ChunkRows(cfg, model, k - 1));
      cfg.codec.WrittenAppend(BatchRows(cfg, model, k - 1), ChunkRows(cfg, model, k - 1));
    }
  }

  lemma NoParts(cfg: Config, objects: map<string, Bytes>)
    ensures Concatenation(Parts(cfg, objects, 0)) == []
  {
  }

  lemma PartsAppend(cfg: Config, objects: map<string, Bytes>, k: nat)
    ensures Concatenation(Parts(cfg, objects, k + 1)) ==
            Concatenation(Parts(cfg, objects, k)) + Terminated(Fetch(objects, cfg.Key(k)))
  {
    hide Concatenation, Terminated, Fetch, Config.Key;
    assert Parts(cfg, objects, k + 1) == Parts(cfg, objects, k) + [Fetch(objects, cfg.Key(k))];
    ConcatenationAppend(Parts(cfg, objects, k), Fetch(objects, cfg.Key(k)));
  }

  lemma NothingWritten(codec: Codec)
    ensures codec.Written([]) == []
  {
  }

  /** Failures recorded in the rows add up to the failures of the batch. */
  lemma {:induction false} FailuresOfBatch(cfg: Config, model: Model, s: State, k: nat)
    requires cfg.chunkSize >= 1 && Determined(cfg, model, s) && AllSucceeded(s.chunks)
        && k <= |s.chunks| == |cfg.Slots()|
    ensures var rows := BatchRows(cfg, model, k);
            Sum(Failures, s.chunks[..k]) == |rows| - CountOk(rows)
  {
    hide Determined, CountOk, ChunkRows, AllSucceeded, Sum, Config.Slots;
    if k == 0 {
      NoneOk();
      assert s.chunks[..0] == [];
      SumOfNone(Failures);
    } else {
      FailuresOfBatch(cfg, model, s, k - 1);
      FailuresOfChunk(cfg, model, s, k - 1);
      SumOfPrefix(Failures, s.chunks, k);
      CountOkAppend(BatchRows(cfg, model, k - 1), ChunkRows(cfg, model, k - 1));
    }
  }

  lemma FailuresOfChunk(cfg: Config, model: Model, s: State, i: nat)
    requires cfg.chunkSize >= 1 && Determined(cfg, model, s) && AllSucceeded(s.chunks)
        && i < |s.chunks| == |cfg.Slots()|
    ensures ValueOf(Failures, s.chunks[i]) == |ChunkRows(cfg, model, i)| - CountOk(ChunkRows(cfg, model, i))
  {
    hide CountOk, ChunkRows, StoreDetermined, ResultsDetermined;
    assert RowDetermined(cfg, model, s.chunks[i], i);
  }

  lemma NoneOk()
    ensures CountOk([]) == 0
  {
  }

  lemma SafeRows(cfg: Config, s: State)
    requires cfg.chunkSize >= 1 && Safe(cfg, s) && s.chunks != []
    ensures |s.chunks| == |cfg.Slots()|
  {
  }

  /** What finalization concatenates, and what it reports as failed. */
  lemma FinalResultsAreBatch(cfg: Config, model: Model, s: State)
    requires cfg.Valid() && Safe(cfg, s) && Determined(cfg, model, s)
    requires s.chunks != [] && AllSucceeded(s.chunks)
    ensures ResultsBody(s.objects, s.chunks) == cfg.codec.Written(AllRows(cfg, model))
    ensures s.batch.failedItems == |AllRows(cfg, model)| - CountOk(AllRows(cfg, model))
  {
    hide StoreDetermined, RowDetermined, PhaseDetermined, ResultsDetermined, BatchRows, CountOk, Sum, Parts,
         FetchAll, ResultKeys, Concatenation, RowsFit, StoreSound, Backed, RunsSound, ResultsSound, Codec.Valid;
    PartsAreFetched(cfg, s.objects, s.chunks);
    SafeRows(cfg, s);
    ConcatenationIsBatch(cfg, model, s, |s.chunks|);
    FailuresOfBatch(cfg, model, s, |s.chunks|);
    assert s.chunks[..|s.chunks|] == s.chunks;
  }

  lemma FinalizeStaysDetermined(cfg: Config, model: Model, s: State)
    requires cfg.Valid() && Safe(cfg, s) && Determined(cfg, model, s)
    ensures Determined(cfg, model, FinalizeBatch(cfg, s))
  {
    hide Safe, StoreDetermined, RowDetermined, PhaseDetermined, ResultsDetermined, Config.Slots, AllSucceeded,
         Publish, Codec.Valid;
    PublishedIsCompleted(cfg, s);
    if !s.batch.status.Completed? && !s.batch.status.BatchCancelled? && s.chunks != [] && AllSucceeded(s.chunks) {
      FinalResultsAreBatch(cfg, model, s);
      PublishStaysDetermined(cfg, model, s);
    }
  }

  lemma PublishStaysDetermined(cfg: Config, model: Model, s: State)
    requires cfg.Valid() && StoreDetermined(cfg, model, s.objects)
    requires ResultsBody(s.objects, s.chunks) == cfg.codec.Written(AllRows(cfg, model))
    requires s.batch.failedItems == |AllRows(cfg, model)| - CountOk(AllRows(cfg, model))
    ensures var t := Publish(cfg, Consume(s, FinalizeJob));
            && t.chunks == s.chunks && t.runs == s.runs
            && StoreDetermined(cfg, model, t.objects) && ResultsDetermined(cfg, model, t.objects)
  {
    hide ResultsBody, AllRows, ChunkRows, CountOk, Codec.Written, Config.Slots;
    KeysAreDistinct(cfg.batchId);
  }

  // ---- Every step, every run -------------------------------------------------------------

  /** No object changes, no run gets rows, no row newly succeeds, the batch does not newly complete. */
  ghost predicate NothingFinished(s: State, t: State) {
    && t.objects == s.objects
    && (t.batch.status.Completed? ==> s.batch.status.Completed?)
    && (forall r | r in t.runs :: (r in s.runs && t.runs[r] == s.runs[r]) || t.runs[r].phase.Working?)
    && (forall i | 0 <= i < |t.chunks| && t.chunks[i].status.Succeeded? :: i < |s.chunks| && t.chunks[i] == s.chunks[i])
  }

  lemma OtherStaysDetermined(cfg: Config, model: Model, s: State, t: State)
    requires cfg.Valid() && Determined(cfg, model, s) && NothingFinished(s, t)
    ensures Determined(cfg, model, t)
  {
    hide StoreDetermined, ResultsDetermined, ChunkRows;
    forall r | r in t.runs ensures PhaseDetermined(cfg, model, t.runs[r]) {
      assert r in s.runs ==> PhaseDetermined(cfg, model, s.runs[r]);
    }
    forall i | 0 <= i < |t.chunks| && i < |cfg.Slots()| ensures RowDetermined(cfg, model, t.chunks[i], i) {
      assert i < |s.chunks| ==> RowDetermined(cfg, model, s.chunks[i], i);
    }
  }

  lemma QuietFinishesNothing(s: State, t: State)
    requires t.chunks == s.chunks && t.objects == s.objects
    requires forall r | r in t.runs :: r in s.runs && t.runs[r] == s.runs[r]
    requires t.batch.status.Completed? ==> s.batch.status.Completed?
    ensures NothingFinished(s, t)
  {
  }

  lemma CancelFinishesNothing(s: State)
    ensures NothingFinished(s, CancelBatch(s))
  {
  }

  lemma ReclaimFinishesNothing(s: State, t: State)
    requires t.chunks == ReclaimAll(s.chunks, s.now)
    requires t.objects == s.objects && t.runs == s.runs
    requires t.batch.status.Completed? ==> s.batch.status.Completed?
    ensures NothingFinished(s, t)
  {
  }

  lemma ScanFinishesNothing(s: State)
    ensures NothingFinished(s, ScanCompletion(s))
  {
    hide Conclude;
    if !Ended(s.batch.status) {
      ReclaimFinishesNothing(s, ScanCompletion(s));
    }
  }

  lemma OrchestrateFinishesNothing(cfg: Config, s: State)
    requires cfg.chunkSize >= 1
    ensures NothingFinished(s, OrchestrateBatch(cfg, s))
  {
    hide JobsFor;
  }

  lemma StartFinishesNothing(cfg: Config, s: State, i: nat)
    ensures NothingFinished(s, StartRun(cfg, s, i))
  {
    hide Leasable;
  }

  lemma FailureFinishesNothing(cfg: Config, s: State, run: nat)
    requires run in s.runs && s.runs[run].chunk < |s.chunks|
    ensures NothingFinished(s, CommitFailed(cfg, s, run))
    ensures NothingFinished(s, CommitAborted(s, run))
  {
  }

  lemma DeliverFinishesNothing(cfg: Config, s: State, hook: Hook, ok: bool)
    ensures NothingFinished(s, DeliverHook(cfg, s, hook, ok))
  {
  }

  /** All events other than gathering, checkpointing, committing a success, and finalizing. */
  lemma OtherEventsFinishNothing(cfg: Config, s: State, e: Event)
    requires Enabled(cfg, s, e) && !e.Gather? && !e.Checkpoint? && !e.CommitSuccess? && !e.Finalize?
    ensures NothingFinished(s, Next(cfg, s, e))
  {
    hide OrchestrateBatch, StartRun, GatherOutcomes, WriteCheckpoint, CommitSucceeded, CommitAborted, CommitFailed,
         ScanCompletion, FinalizeBatch, DeliverHook, CancelBatch, JobsFor, ReclaimAll, NothingFinished, ItemsRead,
         NoneCancelled;
    match e {
      case Orchestrate => OrchestrateFinishesNothing(cfg, s);
      case Start(i) => StartFinishesNothing(cfg, s, i);
      case CommitCancelled(run) => FailureFinishesNothing(cfg, s, run);
      case CommitFailure(run) => FailureFinishesNothing(cfg, s, run);
      case CheckScan => ScanFinishesNothing(s);
      case Deliver(hook, ok) => DeliverFinishesNothing(cfg, s, hook, ok);
      case Reclaim => ReclaimFinishesNothing(s, Next(cfg, s, e));
      case CheckRequeue => ReclaimFinishesNothing(s, Next(cfg, s, e));
      case Tick(_) => QuietFinishesNothing(s, Next(cfg, s, e));
      case Redeliver(_) => QuietFinishesNothing(s, Next(cfg, s, e));
      case Lose(_) => QuietFinishesNothing(s, Next(cfg, s, e));
      case Cancel => CancelFinishesNothing(s);
      case Crash(_) => QuietFinishesNothing(s, Next(cfg, s, e));
      case Nudge(_) => QuietFinishesNothing(s, Next(cfg, s, e));
      case CheckCrash(_) => QuietFinishesNothing(s, Next(cfg, s, e));
    }
  }

  lemma StepStaysDetermined(cfg: Config, model: Model, s: State, e: Event)
    requires cfg.Valid() && Safe(cfg, s) && Enabled(cfg, s, e) && AnswersByModel(cfg, model, s, e)
    requires Determined(cfg, model, s)
    ensures Determined(cfg, model, Next(cfg, s, e))
  {
    hide Safe, Determined, NothingFinished, OrchestrateBatch, StartRun, GatherOutcomes, WriteCheckpoint,
         CommitSucceeded, CommitAborted, CommitFailed, ScanCompletion, RequeuePending, FinalizeBatch, DeliverHook,
         ReclaimAll;
    match e {
      case Gather(run, outcomes) => GatherStaysDetermined(cfg, model, s, run, outcomes);
      case Checkpoint(run) => WriteStaysDetermined(cfg, model, s, run);
      case CommitSuccess(run) => SuccessStaysDetermined(cfg, model, s, run);
      case Finalize => FinalizeStaysDetermined(cfg, model, s);
      case _ =>
        OtherEventsFinishNothing(cfg, s, e);
        OtherStaysDetermined(cfg, model, s, Next(cfg, s, e));
    }
  }

  lemma {:induction false} RunStaysDetermined(cfg: Config, model: Model, now: int, es: seq<Event>)
    requires cfg.Valid() && Feasible(cfg, Init(cfg, now), es) && RunsByModel(cfg, model, Init(cfg, now), es)
    ensures Determined(cfg, model, Exec(cfg, Init(cfg, now), es))
  {
    if es == [] {
      KeysAreDistinct(cfg.batchId);
    } else {
      var front := es[..|es| - 1];
      RunStaysDetermined(cfg, model, now, front);
      RunIsSafe(cfg, now, front);
      StepStaysDetermined(cfg, model, Exec(cfg, Init(cfg, now), front), es[|es| - 1]);
    }
  }

  /**
   End-to-end refinement. However jobs are duplicated or lost, workers crash, leases expire and
   late runs commit, a batch that is `completed` has in results.ndjson exactly the rows of the
   sequential program: chunk by chunk, one row per prompt line, stably sorted by the index that
   the line carries. Readers get those rows back.
   */
  lemma EndToEnd(cfg: Config, model: Model, now: int, es: seq<Event>)
    requires cfg.Valid() && Feasible(cfg, Init(cfg, now), es) && RunsByModel(cfg, model, Init(cfg, now), es)
    requires Exec(cfg, Init(cfg, now), es).batch.status.Completed?
    ensures var objects := Exec(cfg, Init(cfg, now), es).objects;
            var rows := AllRows(cfg, model);
            && ResultsKey(cfg.batchId) in objects
            && objects[ResultsKey(cfg.batchId)] == cfg.codec.Written(rows)
            && Lines(objects[ResultsKey(cfg.batchId)]) == cfg.codec.EncodeAll(rows)
            && cfg.codec.RowsIn(objects[ResultsKey(cfg.batchId)]) == rows
            && ManifestKey(cfg.batchId) in objects
            && cfg.codec.decManifest(objects[ManifestKey(cfg.batchId)]).failedItems == |rows| - CountOk(rows)
  {
    RunStaysDetermined(cfg, model, now, es);
    cfg.codec.ReadBack(AllRows(cfg, model));
  }

  // ---- What the sequential program computes ----------------------------------------------

  /** The items of the first k chunks. */
  function Covered(cfg: Config, k: nat): (n: nat)
    requires cfg.chunkSize >= 1 && k <= |cfg.Slots()|
    ensures n <= |cfg.Items()|
  {
    BoundariesRise(|cfg.Items()|, cfg.chunkSize, k, |cfg.Slots()|);
    Boundary(|cfg.Items()|, cfg.chunkSize, k)
  }

  /** Chunk i's lines are those between what the first i and the first i + 1 chunks cover. */
  lemma ChunkIsSlice(cfg: Config, i: nat)
    requires cfg.Valid() && i < |cfg.Slots()|
    ensures var from, to := Covered(cfg, i), Covered(cfg, i + 1);
            && from <= to && cfg.Slots()[i].offset == from
            && ChunkLines(cfg, i) == cfg.Items()[from..to]
  {
    hide Codec.Valid, Config.Items;
    PlanIsNotEmpty(cfg);
    PlanTiles(|cfg.Items()|, cfg.chunkSize);
  }

  lemma CoveredEnds(cfg: Config)
    requires cfg.Valid()
    ensures Covered(cfg, 0) == 0 && Covered(cfg, |cfg.Slots()|) == |cfg.Items()|
  {
    hide Codec.Valid, Config.Items;
    PlanTiles(|cfg.Items()|, cfg.chunkSize);
  }

  /** One row per prompt line: the sort only moves rows about within their chunk. */
  lemma {:induction false} NoLineIsLost(cfg: Config, model: Model, k: nat)
    requires cfg.Valid() && k <= |cfg.Slots()|
    ensures |BatchRows(cfg, model, k)| == Covered(cfg, k)
  {
    hide SortByIndex, LineRows, ChunkLines, Covered, Config.Slots, Config.Items, Codec.Valid;
    if k == 0 {
      CoveredEnds(cfg);
    } else {
      NoLineIsLost(cfg, model, k - 1);
      ChunkIsSlice(cfg, k - 1);
      SortByIndexSorts(LineRows(model, ChunkLines(cfg, k - 1), cfg.Slots()[k - 1].offset));
    }
  }

  /** Every line carries its position in the file, as the uploader numbers lines that bring no index. */
  ghost predicate IndexedByPosition(cfg: Config, model: Model)
    requires cfg.chunkSize >= 1
  {
    forall i, k | 0 <= i < |cfg.Slots()| && 0 <= k < |ChunkLines(cfg, i)| ::
      model.index(ChunkLines(cfg, i)[k], cfg.Slots()[i].offset) == cfg.Slots()[i].offset + k
  }

  /** Prompts that bring no index of their own are uploaded with their positions. */
  lemma UploadedPromptsAreIndexed(cfg: Config, model: Model, prompts: seq<Prompt>, enc: Document -> Bytes)
    requires cfg.Valid() && cfg.prompts == Body(Encoded(prompts, enc)) && AllRecords(Encoded(prompts, enc))
    requires forall p | 0 <= p < |prompts| :: prompts[p].Text? || prompts[p].index.None?
    requires forall document, offset :: model.index(enc(document), offset) == document.index
    ensures IndexedByPosition(cfg, model)
  {
    hide ChunkLines, Covered, Config.Slots, Body, AllRecords, Lines, Encoded, Codec.Valid;
    LinesOfBody(Encoded(prompts, enc));
    forall i, k | 0 <= i < |cfg.Slots()| && 0 <= k < |ChunkLines(cfg, i)|
      ensures model.index(ChunkLines(cfg, i)[k], cfg.Slots()[i].offset) == cfg.Slots()[i].offset + k
    {
      ChunkIsSlice(cfg, i);
      var p := Covered(cfg, i) + k;
      EncodedOne(prompts, enc, p);
      assert ChunkLines(cfg, i)[k] == Encoded(prompts, enc)[p];
    }
  }

  /** The plain map: one row per line, numbered and in order. */
  function SequentialMap(answer: Bytes -> Inference, items: seq<Bytes>): (rows: seq<Row>)
    ensures |rows| == |items|
  {
    seq(|items|, p requires 0 <= p < |items| => RowOf(p, answer(items[p])))
  }

  lemma NumberedIsSorted(rows: seq<Row>, from: int)
    requires forall k | 0 <= k < |rows| :: rows[k].index == from + k
    ensures Sorted(rows)
  {
  }

  /** With lines indexed by position a chunk's rows are its part of the map. */
  lemma ChunkRowsAreMapped(cfg: Config, model: Model, i: nat)
    requires cfg.Valid() && IndexedByPosition(cfg, model) && i < |cfg.Slots()|
    ensures var from, to := Covered(cfg, i), Covered(cfg, i + 1);
            from <= to && ChunkRows(cfg, model, i) == SequentialMap(model.answer, cfg.Items())[from..to]
  {
    hide SortByIndex, Sorted, Covered, ChunkLines, Config.Slots, Config.Items, Codec.Valid;
    ChunkIsSlice(cfg, i);
    var rows := LineRows(model, ChunkLines(cfg, i), cfg.Slots()[i].offset);
    NumberedIsSorted(rows, Covered(cfg, i));
    SortOfSorted(rows);
  }

  lemma {:induction false} BatchIsMap(cfg: Config, model: Model, k: nat)
    requires cfg.Valid() && IndexedByPosition(cfg, model) && k <= |cfg.Slots()|
    ensures BatchRows(cfg, model, k) == SequentialMap(model.answer, cfg.Items())[..Covered(cfg, k)]
  {
    hide SequentialMap, ChunkRows, Covered, IndexedByPosition, Config.Slots, Config.Items, Codec.Valid;
    if k == 0 {
      CoveredEnds(cfg);
    } else {
      BatchIsMap(cfg, model, k - 1);
      ChunkRowsAreMapped(cfg, model, k - 1);
      var rows := SequentialMap(model.answer, cfg.Items());
      var from, to := Covered(cfg, k - 1), Covered(cfg, k);
      assert rows[..to] == rows[..from] + rows[from..to];
    }
  }

  /**
   End to end with lines indexed by position: results.ndjson is the sequential map of the answers
   over all prompt lines, in order.
   */
  lemma EndToEndInOrder(cfg: Config, model: Model, now: int, es: seq<Event>)
    requires cfg.Valid() && Feasible(cfg, Init(cfg, now), es) && RunsByModel(cfg, model, Init(cfg, now), es)
    requires Exec(cfg, Init(cfg, now), es).batch.status.Completed? && IndexedByPosition(cfg, model)
    ensures var objects := Exec(cfg, Init(cfg, now), es).objects;
            var rows := SequentialMap(model.answer, cfg.Items());
            && ResultsKey(cfg.batchId) in objects
            && objects[ResultsKey(cfg.batchId)] == cfg.codec.Written(rows)
            && cfg.codec.RowsIn(objects[ResultsKey(cfg.batchId)]) == rows
  {
    hide Feasible, Exec, Init, RunsByModel, BatchRows, SequentialMap, IndexedByPosition, Covered, Codec.Written,
         Codec.RowsIn;
    EndToEnd(cfg, model, now, es);
    BatchIsMap(cfg, model, |cfg.Slots()|);
    CoveredEnds(cfg);
    var rows := SequentialMap(model.answer, cfg.Items());
    assert rows[..|rows|] == rows;
  }
}
