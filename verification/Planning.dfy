/**
 Splitting the items of a batch into chunks, and why the chunks tile the prompt file.
 */
module Planning {
  import opened Ndjson

  datatype Slot = Slot(index: nat, offset: nat, limit: nat)

  /** `math.ceil(total / size)`, on integers. */
  function ChunkCount(total: nat, size: nat): nat
    requires size >= 1
  {
    (total + size - 1) / size
  }

  function SlotAt(total: nat, size: nat, i: nat): Slot
    requires size >= 1 && i < ChunkCount(total, size)
  {
    SlotFits(total, size, i);
    Slot(i, i * size, Min(size, total - i * size))
  }

  /** The planned chunks, specified all at once. */
  function Plan(total: nat, size: nat): (slots: seq<Slot>)
    requires size >= 1
    ensures |slots| == ChunkCount(total, size)
  {
    seq(ChunkCount(total, size), i requires 0 <= i < ChunkCount(total, size) => SlotAt(total, size, i))
  }

  lemma ChunkCountBounds(total: nat, size: nat)
    requires size >= 1
    ensures ChunkCount(total, size) * size >= total
    ensures total > 0 ==> ChunkCount(total, size) >= 1 && (ChunkCount(total, size) - 1) * size < total
    ensures total == 0 ==> ChunkCount(total, size) == 0
  {
    var n := ChunkCount(total, size);
    var up := total + size - 1;
    assert up == n * size + up % size;
    if total > 0 {
      assert (n - 1) * size == n * size - size;
    }
  }

  lemma MulGrows(a: nat, b: nat, size: nat)
    requires a <= b
    ensures a * size <= b * size
  {
    assert b * size == a * size + (b - a) * size;
  }

  lemma SlotFits(total: nat, size: nat, i: nat)
    requires size >= 1 && i < ChunkCount(total, size)
    ensures i * size < total
  {
    ChunkCountBounds(total, size);
    if total > 0 {
      MulGrows(i, ChunkCount(total, size) - 1, size);
    }
  }

  /** The planning loop as written, against the plan. A chunk size below 1 is a ValueError. */
  method PlanChunks(total: nat, size: int) returns (ok: bool, slots: seq<Slot>)
    ensures ok <==> size >= 1
    ensures ok ==> slots == Plan(total, size)
    ensures !ok ==> slots == []
  {
    slots := [];
    if size < 1 {
      return false, [];
    }
    var n := if total != 0 then ChunkCount(total, size) else 0;
    ChunkCountBounds(total, size);
    var i := 0;
    while i < n
      invariant 0 <= i <= n == ChunkCount(total, size)
      invariant slots == Plan(total, size)[..i]
    {
      SlotFits(total, size, i);
      var offset := i * size;
      var limit := Min(size, total - offset);
      slots := slots + [Slot(i, offset, limit)];
      i := i + 1;
    }
    ok := true;
  }

  /** The first item that chunk i does not cover; for i = 0, the first item of the first chunk. */
  function Boundary(total: nat, size: nat, i: nat): nat
    requires size >= 1 && i <= ChunkCount(total, size)
  {
    if i < ChunkCount(total, size) then Plan(total, size)[i].offset else total
  }

  /**
   The plan is a partition: ranges start at 0, each begins where the one before it ends, none is
   empty, all but the last are of the chunk size and the last is no longer, and it ends at the total.
   */
  lemma PlanTiles(total: nat, size: nat)
    requires size >= 1
    ensures Boundary(total, size, 0) == 0
    ensures forall i | 0 <= i < |Plan(total, size)| ::
              && Plan(total, size)[i].index == i
              && 1 <= Plan(total, size)[i].limit <= size
              && Plan(total, size)[i].offset == Boundary(total, size, i)
              && Plan(total, size)[i].offset + Plan(total, size)[i].limit == Boundary(total, size, i + 1)
              && (i + 1 < |Plan(total, size)| ==> Plan(total, size)[i].limit == size)
  {
    ChunkCountBounds(total, size);
    var n := ChunkCount(total, size);
    forall i | 0 <= i < n
      ensures Plan(total, size)[i].index == i
      ensures 1 <= Plan(total, size)[i].limit <= size
      ensures Plan(total, size)[i].offset == Boundary(total, size, i)
      ensures Plan(total, size)[i].offset + Plan(total, size)[i].limit == Boundary(total, size, i + 1)
      ensures i + 1 < n ==> Plan(total, size)[i].limit == size
    {
      SlotFits(total, size, i);
      assert (i + 1) * size == i * size + size;
      if i + 1 < n {
        SlotFits(total, size, i + 1);
      } else {
        assert i + 1 == n;
      }
    }
  }

  /** Every item belongs to exactly one chunk of the plan. */
  lemma EveryItemInOneChunk(total: nat, size: nat, item: nat) returns (i: nat)
    requires size >= 1 && item < total
    ensures i < |Plan(total, size)|
    ensures forall j | 0 <= j < |Plan(total, size)| ::
              (Plan(total, size)[j].offset <= item < Plan(total, size)[j].offset + Plan(total, size)[j].limit) <==>
                  j == i
  {
    ChunkCountBounds(total, size);
    var plan := Plan(total, size);
    i := 0;
    PlanTiles(total, size);
    while plan[i].offset + plan[i].limit <= item
      invariant i < |plan| && plan[i].offset <= item
      decreases |plan| - i
    {
      assert plan[i].offset + plan[i].limit == Boundary(total, size, i + 1);
      i := i + 1;
    }
    forall j | 0 <= j < |plan| && j != i
      ensures !(plan[j].offset <= item < plan[j].offset + plan[j].limit)
    {
      if j < i {
        BoundariesRise(total, size, j + 1, i);
      } else {
        BoundariesRise(total, size, i + 1, j);
      }
    }
  }

  lemma {:induction false} BoundariesRise(total: nat, size: nat, i: nat, j: nat)
    requires size >= 1 && i <= j <= ChunkCount(total, size)
    ensures Boundary(total, size, i) <= Boundary(total, size, j)
    decreases j - i
  {
    if i < j {
      PlanTiles(total, size);
      BoundariesRise(total, size, i + 1, j);
      assert Plan(total, size)[i].offset + Plan(total, size)[i].limit == Boundary(total, size, i + 1);
    }
  }

  /** The ranges of the plan, read from a list of items. */
  function Ranges<T>(items: seq<T>, plan: seq<Slot>): (parts: seq<seq<T>>)
    ensures |parts| == |plan|
  {
    seq(|plan|, i requires 0 <= i < |plan| => Range(items, plan[i].offset, plan[i].limit))
  }

  lemma BoundaryAtEnd(total: nat, size: nat)
    requires size >= 1
    ensures |Plan(total, size)| == ChunkCount(total, size)
    ensures Boundary(total, size, ChunkCount(total, size)) == total
  {
  }

  lemma OneMoreRange<T>(items: seq<T>, plan: seq<Slot>, k: nat)
    requires k < |plan| && plan[k].offset + plan[k].limit <= |items|
    ensures Flatten(Ranges(items, plan[..k + 1])) ==
            Flatten(Ranges(items, plan[..k])) + items[plan[k].offset..plan[k].offset + plan[k].limit]
  {
    hide Flatten;
    var part := Range(items, plan[k].offset, plan[k].limit);
    assert Ranges(items, plan[..k + 1]) == Ranges(items, plan[..k]) + [part];
    FlattenAppend(Ranges(items, plan[..k]), [part]);
    FlattenOne(part);
  }

  lemma FlattenOne<T>(part: seq<T>)
    ensures Flatten([part]) == part
  {
    assert part + [] == part;
  }

  lemma NoRanges<T>(items: seq<T>, plan: seq<Slot>)
    ensures Flatten(Ranges(items, plan[..0])) == []
  {
  }

  lemma {:induction false} RangesPrefix<T>(items: seq<T>, size: nat, k: nat)
    requires size >= 1 && k <= ChunkCount(|items|, size)
    ensures Boundary(|items|, size, k) <= |items|
    ensures Flatten(Ranges(items, Plan(|items|, size)[..k])) == items[..Boundary(|items|, size, k)]
  {
    hide Boundary, Plan, Ranges, Flatten;
    var plan := Plan(|items|, size);
    PlanTiles(|items|, size);
    BoundariesRise(|items|, size, k, |plan|);
    BoundaryAtEnd(|items|, size);
    if k == 0 {
      NoRanges(items, plan);
    } else {
      RangesPrefix(items, size, k - 1);
      var slot := plan[k - 1];
      assert slot.offset + slot.limit == Boundary(|items|, size, k);
      OneMoreRange(items, plan, k - 1);
      PrefixGrows(items, slot.offset, slot.offset + slot.limit);
    }
  }

  lemma PrefixGrows<T>(items: seq<T>, i: nat, j: nat)
    requires i <= j <= |items|
    ensures items[..i] + items[i..j] == items[..j]
  {
  }

  /** Reading every range of the plan, in index order, gives back every line exactly once. */
  lemma RangesTile<T>(items: seq<T>, size: nat)
    requires size >= 1
    ensures Flatten(Ranges(items, Plan(|items|, size))) == items
  {
    var n := ChunkCount(|items|, size);
    RangesPrefix(items, size, n);
    assert Plan(|items|, size)[..n] == Plan(|items|, size);
    assert items[..|items|] == items;
  }
}
