/**
 What a client reads out of a completed batch, line by line: every prompt line has its row, the row
 reports what the model answers to that line, and the manifest counts the lines left unanswered.
 */
module Results {
  import opened Ndjson
  import opened Rows
  import opened Keys
  import opened Pipeline
  import opened Refinement

  /** The lines that the model does not answer. */
  function Unanswered(answer: Bytes -> Inference, lines: seq<Bytes>): set<nat> {
    set p: nat | p < |lines| && !answer(lines[p]).Answer?
  }

  lemma LineRowsReport(model: Model, lines: seq<Bytes>, offset: int)
    ensures forall k | 0 <= k < |lines| ::
              Reports(LineRows(model, lines, offset)[k], model.index(lines[k], offset), model.answer(lines[k]))
  {
  }

  lemma {:induction false} SameVerdicts(a: seq<Row>, b: seq<Row>)
    requires |a| == |b| && forall i | 0 <= i < |a| :: a[i].verdict.Ok? <==> b[i].verdict.Ok?
    ensures CountOk(a) == CountOk(b)
  {
    if a != [] {
      SameVerdicts(a[1..], b[1..]);
    }
  }

  /** A chunk's rows, in whatever order, count the answered lines of its slice. */
  lemma ChunkCounts(cfg: Config, model: Model, i: nat)
    requires cfg.Valid() && i < |cfg.Slots()|
    ensures var from, to := Covered(cfg, i), Covered(cfg, i + 1);
            from <= to && CountOk(ChunkRows(cfg, model, i))
                == CountOk(SequentialMap(model.answer, cfg.Items())[from..to])
  {
    hide SortByIndex, CountOk, Covered, ChunkLines, Config.Slots, Config.Items, Codec.Valid;
    ChunkIsSlice(cfg, i);
    var rows := LineRows(model, ChunkLines(cfg, i), cfg.Slots()[i].offset);
    SortKeepsCount(rows);
    SameVerdicts(rows, SequentialMap(model.answer, cfg.Items())[Covered(cfg, i)..Covered(cfg, i + 1)]);
  }

  lemma {:induction false} BatchCounts(cfg: Config, model: Model, k: nat)
    requires cfg.Valid() && k <= |cfg.Slots()|
    ensures CountOk(BatchRows(cfg, model, k))
         == CountOk(SequentialMap(model.answer, cfg.Items())[..Covered(cfg, k)])
  {
    hide SequentialMap, ChunkRows, CountOk, Covered, Config.Slots, Config.Items, Codec.Valid;
    var rows := SequentialMap(model.answer, cfg.Items());
    if k == 0 {
      CoveredEnds(cfg);
      assert rows[..0] == [];
    } else {
      BatchCounts(cfg, model, k - 1);
      ChunkCounts(cfg, model, k - 1);
      var from, to := Covered(cfg, k - 1), Covered(cfg, k);
      CountOkAppend(BatchRows(cfg, model, k - 1), ChunkRows(cfg, model, k - 1));
      CountOkAppend(rows[..from], rows[from..to]);
      assert rows[..to] == rows[..from] + rows[from..to];
    }
  }

  lemma UnansweredRows(answer: Bytes -> Inference, lines: seq<Bytes>)
    ensures |lines| - CountOk(SequentialMap(answer, lines)) == |Unanswered(answer, lines)|
  {
    var rows := SequentialMap(answer, lines);
    CountOkCounts(rows, |rows|);
    assert rows[..|rows|] == rows;
    assert Among(rows, |rows|, false) == Unanswered(answer, lines);
  }

  /**
   The manifest of a completed batch reports as failed exactly the lines that the model does not
   answer, retryable replies included, however the batch got there and whatever indices lines carry.
   */
  lemma FailedItemsAreUnanswered(cfg: Config, model: Model, now: int, es: seq<Event>)
    requires cfg.Valid() && Feasible(cfg, Init(cfg, now), es) && RunsByModel(cfg, model, Init(cfg, now), es)
    requires Exec(cfg, Init(cfg, now), es).batch.status.Completed?
    ensures var objects := Exec(cfg, Init(cfg, now), es).objects;
            && ManifestKey(cfg.batchId) in objects
            && cfg.codec.decManifest(objects[ManifestKey(cfg.batchId)]).failedItems
               == |Unanswered(model.answer, cfg.Items())|
  {
    hide Feasible, Exec, Init, RunsByModel, BatchRows, SequentialMap, CountOk, Covered, Unanswered, Config.Slots,
         Codec.Written, Codec.RowsIn, Codec.EncodeAll, Config.Items, Codec.Valid;
    EndToEnd(cfg, model, now, es);
    NoLineIsLost(cfg, model, |cfg.Slots()|);
    BatchCounts(cfg, model, |cfg.Slots()|);
    CoveredEnds(cfg);
    var rows := SequentialMap(model.answer, cfg.Items());
    assert rows[..|rows|] == rows;
    UnansweredRows(model.answer, cfg.Items());
  }

  /**
   With lines indexed by position, row p of a completed batch's results is the report on line p:
   ok exactly if the model answers the line, with its output, and else with its error.
   */
  lemma RowsReportLines(cfg: Config, model: Model, now: int, es: seq<Event>)
    requires cfg.Valid() && Feasible(cfg, Init(cfg, now), es) && RunsByModel(cfg, model, Init(cfg, now), es)
    requires Exec(cfg, Init(cfg, now), es).batch.status.Completed? && IndexedByPosition(cfg, model)
    ensures var objects := Exec(cfg, Init(cfg, now), es).objects;
            && ResultsKey(cfg.batchId) in objects
            && var rows := cfg.codec.RowsIn(objects[ResultsKey(cfg.batchId)]);
            && |rows| == |cfg.Items()|
            && (forall p | 0 <= p < |rows| :: Reports(rows[p], p, model.answer(cfg.Items()[p])))
  {
    hide Feasible, Exec, Init, RunsByModel, IndexedByPosition, Codec.Written, Codec.RowsIn, Config.Items,
         Codec.Valid;
    EndToEndInOrder(cfg, model, now, es);
  }

  /**
   Whatever indices lines carry: the part of the results that chunk i covers is ordered by index,
   and rearranges the reports on the chunk's lines without moving reports of one index past each other.
   */
  lemma ChunksReportLines(cfg: Config, model: Model, now: int, es: seq<Event>, i: nat) returns (reports: seq<Row>)
    requires cfg.Valid() && Feasible(cfg, Init(cfg, now), es) && RunsByModel(cfg, model, Init(cfg, now), es)
    requires Exec(cfg, Init(cfg, now), es).batch.status.Completed? && i < |cfg.Slots()|
    ensures var from, to := Covered(cfg, i), Covered(cfg, i + 1);
            && from <= to && |reports| == to - from
            && (forall k | 0 <= k < to - from ::
                  var line := cfg.Items()[from + k];
                  Reports(reports[k], model.index(line, from), model.answer(line)))
            && ResultsKey(cfg.batchId) in Exec(cfg, Init(cfg, now), es).objects
            && var rows := cfg.codec.RowsIn(Exec(cfg, Init(cfg, now), es).objects[ResultsKey(cfg.batchId)]);
            && to <= |rows|
            && Sorted(rows[from..to]) && multiset(rows[from..to]) == multiset(reports)
            && (forall index :: WithIndex(rows[from..to], index) == WithIndex(reports, index))
  {
    hide Feasible, Exec, Init, RunsByModel, BatchRows, LineRows, SortByIndex, Sorted, WithIndex, Covered, ChunkLines,
         Config.Slots, Config.Items, Codec.Written, Codec.RowsIn, Codec.EncodeAll, Codec.Valid, CountOk, Reports;
    EndToEnd(cfg, model, now, es);
    ChunkIsSlice(cfg, i);
    reports := LineRows(model, ChunkLines(cfg, i), Covered(cfg, i));
    LineRowsReport(model, ChunkLines(cfg, i), Covered(cfg, i));
    ChunkOfBatch(cfg, model, i, |cfg.Slots()|);
    SortByIndexSorts(reports);
    forall index ensures WithIndex(SortByIndex(reports), index) == WithIndex(reports, index) {
      SortByIndexIsStable(reports, index);
    }
  }

  lemma OneMoreChunk(cfg: Config, model: Model, k: nat)
    requires cfg.chunkSize >= 1 && k < |cfg.Slots()|
    ensures BatchRows(cfg, model, k + 1) == BatchRows(cfg, model, k) + ChunkRows(cfg, model, k)
  {
    hide ChunkRows, Config.Slots;
  }

  lemma PartOfSum(a: seq<Row>, b: seq<Row>, from: nat, to: nat)
    requires from <= to <= |a|
    ensures (a + b)[from..to] == a[from..to]
  {
  }

  lemma EndOfSum(a: seq<Row>, b: seq<Row>)
    ensures (a + b)[|a|..|a + b|] == b
  {
  }

  lemma LastChunk(cfg: Config, model: Model, i: nat)
    requires cfg.Valid() && i < |cfg.Slots()|
    ensures var rows := BatchRows(cfg, model, i + 1);
            Covered(cfg, i) <= Covered(cfg, i + 1) == |rows|
                && rows[Covered(cfg, i)..Covered(cfg, i + 1)] == ChunkRows(cfg, model, i)
  {
    hide BatchRows, ChunkRows, Covered, Config.Slots, Config.Items, Codec.Valid;
    OneMoreChunk(cfg, model, i);
    NoLineIsLost(cfg, model, i);
    NoLineIsLost(cfg, model, i + 1);
    EndOfSum(BatchRows(cfg, model, i), ChunkRows(cfg, model, i));
  }

  lemma {:induction false} ChunkOfBatch(cfg: Config, model: Model, i: nat, k: nat)
    requires cfg.Valid() && i < k <= |cfg.Slots()|
    ensures var from, to := Covered(cfg, i), Covered(cfg, i + 1);
            from <= to <= |BatchRows(cfg, model, k)| && BatchRows(cfg, model, k)[from..to] == ChunkRows(cfg, model, i)
  {
    hide BatchRows, ChunkRows, Covered, Config.Slots, Config.Items, Codec.Valid;
    if i == k - 1 {
      LastChunk(cfg, model, i);
    } else {
      ChunkOfBatch(cfg, model, i, k - 1);
      OneMoreChunk(cfg, model, k - 1);
      PartOfSum(BatchRows(cfg, model, k - 1), ChunkRows(cfg, model, k - 1), Covered(cfg, i), Covered(cfg, i + 1));
    }
  }
}
