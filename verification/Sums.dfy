/**
 Sums over chunk rows and over manifest entries.
 */
module Sums {
  import opened Rows
  import opened Planning
  import opened Pipeline

  /** Column sums are monotone, row by row. */
  lemma {:induction false} SumMonotone(a: Column, chunks: seq<Chunk>, b: Column, other: seq<Chunk>)
    requires |chunks| == |other|
    requires forall i | 0 <= i < |chunks| :: ValueOf(a, chunks[i]) <= ValueOf(b, other[i])
    ensures Sum(a, chunks) <= Sum(b, other)
  {
    if chunks != [] {
      SumMonotone(a, chunks[..|chunks| - 1], b, other[..|other| - 1]);
    }
  }

  lemma SumSame(column: Column, chunks: seq<Chunk>, other: seq<Chunk>)
    requires |chunks| == |other|
    requires forall i | 0 <= i < |chunks| :: ValueOf(column, chunks[i]) == ValueOf(column, other[i])
    ensures Sum(column, chunks) == Sum(column, other)
  {
    SumMonotone(column, chunks, column, other);
    SumMonotone(column, other, column, chunks);
  }

  /** Replacing one row changes a sum by the difference of its values. */
  lemma {:induction false} SumUpdate(column: Column, chunks: seq<Chunk>, i: nat, c: Chunk)
    requires i < |chunks|
    ensures Sum(column, chunks[i := c]) == Sum(column, chunks) - ValueOf(column, chunks[i]) + ValueOf(column, c)
  {
    var n := |chunks| - 1;
    var updated := chunks[i := c];
    if i == n {
      assert updated[..n] == chunks[..n];
    } else {
      SumUpdate(column, chunks[..n], i, c);
      assert updated[..n] == chunks[..n][i := c];
    }
  }

  lemma {:induction false} SumOfFresh(column: Column, chunks: seq<Chunk>)
    requires forall i | 0 <= i < |chunks| :: ValueOf(column, chunks[i]) == 0
    ensures Sum(column, chunks) == 0
  {
    if chunks != [] {
      SumOfFresh(column, chunks[..|chunks| - 1]);
    }
  }

  lemma RecomputeKeepsStatus(batch: Batch, chunks: seq<Chunk>)
    ensures Recompute(batch, chunks).status == batch.status
  {
  }

  lemma SumOfNone(column: Column)
    ensures Sum(column, []) == 0
  {
  }

  lemma SumOfPrefix(column: Column, chunks: seq<Chunk>, k: nat)
    requires 0 < k <= |chunks|
    ensures Sum(column, chunks[..k]) == Sum(column, chunks[..k - 1]) + ValueOf(column, chunks[k - 1])
  {
    assert chunks[..k][..k - 1] == chunks[..k - 1];
  }

  lemma CountOfPrefix(status: ChunkStatus, chunks: seq<Chunk>, k: nat)
    requires 0 < k <= |chunks|
    ensures CountStatus(status, chunks[..k])
         == CountStatus(status, chunks[..k - 1]) + if chunks[k - 1].status == status then 1 else 0
  {
    assert chunks[..k][..k - 1] == chunks[..k - 1];
  }

  lemma CountOfNone(status: ChunkStatus)
    ensures CountStatus(status, []) == 0
  {
  }

  /** The limits of planned rows add up to the items they tile. */
  lemma {:induction false} SumOfLimits(cfg: Config, chunks: seq<Chunk>, k: nat)
    requires cfg.chunkSize >= 1 && k <= |chunks| == |cfg.Slots()|
    requires forall i | 0 <= i < |chunks| :: chunks[i].slot == cfg.Slots()[i]
    ensures Sum(Limits, chunks[..k]) == Boundary(|cfg.Items()|, cfg.chunkSize, k)
  {
    hide Sum, Boundary, Config.Items;
    PlanTiles(|cfg.Items()|, cfg.chunkSize);
    if k > 0 {
      SumOfLimits(cfg, chunks, k - 1);
      SumOfPrefix(Limits, chunks, k);
    } else {
      assert chunks[..0] == [];
      SumOfNone(Limits);
    }
  }

  lemma SumOfAllLimits(cfg: Config, chunks: seq<Chunk>)
    requires cfg.chunkSize >= 1 && |chunks| == |cfg.Slots()|
    requires forall i | 0 <= i < |chunks| :: chunks[i].slot == cfg.Slots()[i]
    ensures Sum(Limits, chunks) == |cfg.Items()|
  {
    SumOfLimits(cfg, chunks, |chunks|);
    assert chunks[..|chunks|] == chunks;
  }

  /** Reclaiming changes no value of a column that does not look at pending or leased rows. */
  lemma ReclaimKeepsSum(column: Column, chunks: seq<Chunk>, now: int)
    ensures Sum(column, ReclaimAll(chunks, now)) == Sum(column, chunks)
  {
    SumSame(column, ReclaimAll(chunks, now), chunks);
  }

  lemma {:induction false} CountAll(status: ChunkStatus, chunks: seq<Chunk>)
    ensures CountStatus(status, chunks) == |chunks| <==> forall i | 0 <= i < |chunks| :: chunks[i].status == status
    ensures CountStatus(status, chunks) == 0 <==> forall i | 0 <= i < |chunks| :: chunks[i].status != status
  {
    if chunks != [] {
      var n := |chunks| - 1;
      CountAll(status, chunks[..n]);
      assert forall i | 0 <= i < n :: chunks[i] == chunks[..n][i];
    }
  }

  lemma {:induction false} CountsAddUp(chunks: seq<Chunk>)
    ensures CountStatus(Succeeded, chunks) + CountStatus(ChunkFailed, chunks)
          + CountStatus(ChunkPending, chunks) + CountStatus(Leased, chunks) == |chunks|
  {
    if chunks != [] {
      CountsAddUp(chunks[..|chunks| - 1]);
    }
  }

  /** What a completion check concludes, read off the rows. */
  lemma ConcludeMeans(chunks: seq<Chunk>)
    requires forall i | 0 <= i < |chunks| :: !chunks[i].status.ChunkFailed?
    ensures Conclude(chunks) ==
            if chunks == [] then NothingToDo
            else if AllSucceeded(chunks) then AllDone
            else KeepWaiting
  {
    CountAll(ChunkFailed, chunks);
    CountAll(Succeeded, chunks);
    CountsAddUp(chunks);
  }

  function EntryItems(entries: seq<ManifestEntry>): nat {
    if entries == [] then 0
    else EntryItems(entries[..|entries| - 1]) + entries[|entries| - 1].okCount + entries[|entries| - 1].failCount
  }

  function EntryFailures(entries: seq<ManifestEntry>): nat {
    if entries == [] then 0
    else EntryFailures(entries[..|entries| - 1]) + entries[|entries| - 1].failCount
  }

  function EntryRetries(entries: seq<ManifestEntry>): nat {
    if entries == [] then 0
    else
      var last := entries[|entries| - 1].attempts;
      EntryRetries(entries[..|entries| - 1]) + if last > 1 then last - 1 else 0
  }

  lemma {:induction false} EntriesAddUp(chunks: seq<Chunk>)
    requires AllSucceeded(chunks)
    ensures EntryItems(Entries(chunks)) == Sum(Processed, chunks)
    ensures EntryFailures(Entries(chunks)) == Sum(Failures, chunks)
    ensures EntryRetries(Entries(chunks)) == Sum(Retries, chunks)
  {
    if chunks != [] {
      EntriesAddUp(chunks[..|chunks| - 1]);
      assert Entries(chunks)[..|chunks| - 1] == Entries(chunks[..|chunks| - 1]);
    }
  }
}
