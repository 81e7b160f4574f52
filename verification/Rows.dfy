/**
 Result rows, their JSON codec, the ordering of a chunk's rows, and the per-item attempt loop.
 */
module Rows {
  import opened Ndjson
  import opened Options
  import opened Backoff

  datatype Verdict = Ok | Failed(retryable: bool) | Cancelled

  datatype Row = Row(index: int, verdict: Verdict, payload: Bytes)

  datatype ManifestEntry = ManifestEntry(chunkIndex: nat, resultKey: Option<string>, okCount: nat, failCount: nat,
      attempts: nat)

  datatype Manifest = Manifest(batchId: string, totalItems: nat, completedItems: nat, failedItems: nat,
                               retryCount: nat, chunks: seq<ManifestEntry>, resultsKey: string)

  /** JSON, as far as framing can tell: documents encode to records and decode to themselves. */
  datatype Codec = Codec(enc: Row -> Bytes, dec: Bytes -> Row, encManifest: Manifest -> Bytes,
      decManifest: Bytes -> Manifest) {
    ghost predicate Valid() {
      && (forall row :: IsRecord(enc(row)) && dec(enc(row)) == row)
      && (forall m :: decManifest(encManifest(m)) == m)
    }

    function EncodeAll(rows: seq<Row>): (lines: seq<Bytes>)
      ensures |lines| == |rows|
    {
      seq(|rows|, i requires 0 <= i < |rows| => enc(rows[i]))
    }

    function DecodeAll(lines: seq<Bytes>): (rows: seq<Row>)
      ensures |rows| == |lines|
    {
      seq(|lines|, i requires 0 <= i < |lines| => dec(lines[i]))
    }

    /** The object a chunk's rows are written to. */
    function Written(rows: seq<Row>): Bytes {
      Body(EncodeAll(rows))
    }

    /** The rows a reader finds in an object. */
    function RowsIn(data: Bytes): seq<Row> {
      DecodeAll(Lines(data))
    }

    lemma ReadBack(rows: seq<Row>)
      requires Valid()
      ensures Lines(Written(rows)) == EncodeAll(rows)
      ensures RowsIn(Written(rows)) == rows
    {
      LinesOfBody(EncodeAll(rows));
    }

    lemma WrittenAppend(a: seq<Row>, b: seq<Row>)
      ensures Written(a + b) == Written(a) + Written(b)
    {
      assert EncodeAll(a + b) == EncodeAll(a) + EncodeAll(b);
      BodyAppend(EncodeAll(a), EncodeAll(b));
    }

    lemma WrittenIsTerminated(rows: seq<Row>)
      ensures Terminated(Written(rows)) == Written(rows)
    {
      BodyIsTerminated(EncodeAll(rows));
    }

    lemma DecodeAppend(a: seq<Bytes>, b: seq<Bytes>)
      ensures DecodeAll(a + b) == DecodeAll(a) + DecodeAll(b)
    {
    }
  }

  // ---- Ordering a chunk's rows -----------------------------------------------------------

  predicate Sorted(rows: seq<Row>) {
    forall i, j | 0 <= i < j < |rows| :: rows[i].index <= rows[j].index
  }

  function Insert(row: Row, rows: seq<Row>): seq<Row> {
    if rows == [] || row.index <= rows[0].index then [row] + rows
    else [rows[0]] + Insert(row, rows[1..])
  }

  /** `sorted(outcomes, key=index)`: stable, by item index. */
  function SortByIndex(rows: seq<Row>): seq<Row> {
    if rows == [] then [] else Insert(rows[0], SortByIndex(rows[1..]))
  }

  function WithIndex(rows: seq<Row>, index: int): seq<Row> {
    if rows == [] then []
    else (if rows[0].index == index then [rows[0]] else []) + WithIndex(rows[1..], index)
  }

  lemma {:induction false} InsertSorts(row: Row, rows: seq<Row>)
    requires Sorted(rows)
    ensures Sorted(Insert(row, rows))
    ensures multiset(Insert(row, rows)) == multiset(rows) + multiset{row}
  {
    if rows != [] && row.index > rows[0].index {
      var inserted := Insert(row, rows[1..]);
      InsertSorts(row, rows[1..]);
      assert rows == [rows[0]] + rows[1..];
      InsertedIsAbove(rows[0].index, row, rows[1..], inserted);
      PrependSorted(rows[0], inserted);
    }
  }

  lemma InsertedIsAbove(least: int, row: Row, rows: seq<Row>, inserted: seq<Row>)
    requires multiset(inserted) == multiset(rows) + multiset{row}
    requires least <= row.index && forall i | 0 <= i < |rows| :: least <= rows[i].index
    ensures forall i | 0 <= i < |inserted| :: least <= inserted[i].index
  {
    forall i | 0 <= i < |inserted|
      ensures least <= inserted[i].index
    {
      assert inserted[i] in multiset(inserted);
      assert inserted[i] == row || inserted[i] in rows;
    }
  }

  lemma PrependSorted(row: Row, rows: seq<Row>)
    requires Sorted(rows) && forall i | 0 <= i < |rows| :: row.index <= rows[i].index
    ensures Sorted([row] + rows)
  {
  }

  lemma {:induction false} InsertIsStable(row: Row, rows: seq<Row>, index: int)
    ensures WithIndex(Insert(row, rows), index) == WithIndex([row], index) + WithIndex(rows, index)
  {
    if rows == [] || row.index <= rows[0].index {
      assert ([row] + rows)[1..] == rows;
    } else {
      InsertIsStable(row, rows[1..], index);
      assert ([rows[0]] + Insert(row, rows[1..]))[1..] == Insert(row, rows[1..]);
    }
  }

  /** The sort orders its input and permutes it. */
  lemma {:induction false} SortByIndexSorts(rows: seq<Row>)
    ensures Sorted(SortByIndex(rows))
    ensures multiset(SortByIndex(rows)) == multiset(rows)
    ensures |SortByIndex(rows)| == |rows|
  {
    hide Insert;
    if rows == [] {
      assert SortByIndex(rows) == [];
    } else {
      hide Sorted;
      SortByIndexSorts(rows[1..]);
      InsertSorts(rows[0], SortByIndex(rows[1..]));
      assert rows == [rows[0]] + rows[1..];
    }
    assert |multiset(SortByIndex(rows))| == |multiset(rows)|;
  }

  /** The sort is stable: rows of equal index keep their order. */
  lemma {:induction false} SortByIndexIsStable(rows: seq<Row>, index: int)
    ensures WithIndex(SortByIndex(rows), index) == WithIndex(rows, index)
  {
    if rows != [] {
      SortByIndexIsStable(rows[1..], index);
      InsertIsStable(rows[0], SortByIndex(rows[1..]), index);
      assert WithIndex([rows[0]], index) == if rows[0].index == index then [rows[0]] else [];
    }
  }

  lemma {:induction false} SortOfSorted(rows: seq<Row>)
    requires Sorted(rows)
    ensures SortByIndex(rows) == rows
  {
    if rows != [] {
      SortOfSorted(rows[1..]);
      assert rows == [rows[0]] + rows[1..];
    }
  }

  predicate NoneCancelled(rows: seq<Row>) {
    forall i | 0 <= i < |rows| :: !rows[i].verdict.Cancelled?
  }

  lemma SortKeepsNoneCancelled(rows: seq<Row>)
    ensures NoneCancelled(SortByIndex(rows)) <==> NoneCancelled(rows)
  {
    SortByIndexSorts(rows);
    assert forall r :: r in SortByIndex(rows) <==> r in multiset(SortByIndex(rows));
    assert forall r :: r in rows <==> r in multiset(rows);
    if NoneCancelled(rows) {
      assert forall r | r in rows :: !r.verdict.Cancelled?;
      assert forall r | r in SortByIndex(rows) :: !r.verdict.Cancelled?;
    }
    if NoneCancelled(SortByIndex(rows)) {
      assert forall r | r in SortByIndex(rows) :: !r.verdict.Cancelled?;
      assert forall r | r in rows :: !r.verdict.Cancelled?;
    }
  }

  function CountOk(rows: seq<Row>): (n: nat)
    ensures n <= |rows|
  {
    if rows == [] then 0 else (if rows[0].verdict.Ok? then 1 else 0) + CountOk(rows[1..])
  }

  /** The positions of the rows among the first k that are ok, and of those that are not. */
  function Among(rows: seq<Row>, k: nat, ok: bool): set<nat>
    requires k <= |rows|
  {
    set i: nat | i < k && (rows[i].verdict.Ok? <==> ok)
  }

  lemma AmongGrows(rows: seq<Row>, k: nat, ok: bool)
    requires k < |rows|
    ensures |Among(rows, k + 1, ok)| == |Among(rows, k, ok)| + if rows[k].verdict.Ok? <==> ok then 1 else 0
  {
    assert Among(rows, k + 1, ok) == Among(rows, k, ok) + if rows[k].verdict.Ok? <==> ok then {k} else {};
  }

  lemma CountOkGrows(rows: seq<Row>, k: nat)
    requires k < |rows|
    ensures CountOk(rows[..k + 1]) == CountOk(rows[..k]) + if rows[k].verdict.Ok? then 1 else 0
  {
    assert rows[..k + 1] == rows[..k] + [rows[k]];
    CountOkAppend(rows[..k], [rows[k]]);
  }

  lemma NoneCounted(rows: seq<Row>)
    ensures CountOk(rows[..0]) == 0 && Among(rows, 0, true) == {} == Among(rows, 0, false)
  {
  }

  /** A row counts as ok or as failed; a retryable failure is a failure. */
  lemma {:induction false} CountOkCounts(rows: seq<Row>, k: nat)
    requires k <= |rows|
    ensures CountOk(rows[..k]) == |Among(rows, k, true)|
    ensures k - CountOk(rows[..k]) == |Among(rows, k, false)|
  {
    hide CountOk, Among;
    if k == 0 {
      NoneCounted(rows);
    } else {
      CountOkCounts(rows, k - 1);
      CountOkGrows(rows, k - 1);
      AmongGrows(rows, k - 1, true);
      AmongGrows(rows, k - 1, false);
    }
  }

  lemma {:induction false} InsertKeepsCount(row: Row, rows: seq<Row>)
    ensures CountOk(Insert(row, rows)) == CountOk([row]) + CountOk(rows)
  {
    if rows == [] || row.index <= rows[0].index {
      CountOkAppend([row], rows);
    } else {
      InsertKeepsCount(row, rows[1..]);
      CountOkAppend([rows[0]], Insert(row, rows[1..]));
      CountOkAppend([rows[0]], rows[1..]);
      assert rows == [rows[0]] + rows[1..];
    }
  }

  lemma {:induction false} SortKeepsCount(rows: seq<Row>)
    ensures CountOk(SortByIndex(rows)) == CountOk(rows)
  {
    hide Insert;
    if rows != [] {
      SortKeepsCount(rows[1..]);
      InsertKeepsCount(rows[0], SortByIndex(rows[1..]));
      CountOkAppend([rows[0]], rows[1..]);
      assert rows == [rows[0]] + rows[1..];
    }
  }

  lemma {:induction false} CountOkAppend(a: seq<Row>, b: seq<Row>)
    ensures CountOk(a + b) == CountOk(a) + CountOk(b)
  {
    if a == [] {
      assert a + b == b;
    } else {
      CountOkAppend(a[1..], b);
      assert (a + b)[1..] == a[1..] + b;
    }
  }

  // ---- One item --------------------------------------------------------------------------

  const ITEM_ATTEMPTS: nat := 3

  /** What a provider answers to one attempt. */
  datatype Inference = Answer(output: Bytes) | Retryable(error: Bytes) | Terminal(error: Bytes)

  function RowOf(index: int, inference: Inference): Row {
    match inference
    case Answer(output) => Row(index, Ok, output)
    case Retryable(error) => Row(index, Failed(true), error)
    case Terminal(error) => Row(index, Failed(false), error)
  }

  /** What a result row tells its reader about a provider's reply. */
  predicate Reports(row: Row, index: int, reply: Inference) {
    && row.index == index
    && (row.verdict.Ok? <==> reply.Answer?)
    && (row.verdict == Failed(true) <==> reply.Retryable?)
    && (row.verdict == Failed(false) <==> reply.Terminal?)
    && row.payload == (if reply.Answer? then reply.output else reply.error)
  }

  /**
   One item's outcome. A batch seen cancelled yields a cancelled row without asking the provider.
   Otherwise the provider is asked until it answers, refuses for good, or has been asked three
   times, and the row records its last reply. Only retryable replies are asked again. Every
   retryable reply, the last one too, is followed by its jittered sleep: at most 7 s in all.
   */
  method RunOne(index: int, cancelled: bool, infer: nat -> Inference, jitter: nat -> real)
    returns (row: Row, asked: nat, slept: real)
    requires forall k: nat :: 0.0 <= jitter(k) <= ItemBound(k) as real
    ensures cancelled ==> row == Row(index, Cancelled, []) && asked == 0 && slept == 0.0
    ensures !cancelled ==>
              && 1 <= asked <= 3
              && Reports(row, index, infer(asked - 1))
              && (forall k: nat | k < asked - 1 :: infer(k).Retryable?)
              && (infer(asked - 1).Retryable? ==> asked == 3)
    ensures !cancelled ==>
              var retried := if infer(asked - 1).Retryable? then asked else asked - 1;
              && slept == (if retried >= 1 then jitter(0) else 0.0) + (if retried >= 2 then jitter(1) else 0.0)
                        + (if retried >= 3 then jitter(2) else 0.0)
              && 0.0 <= slept <= (Pow2(retried) - 1) as real <= 7.0
  {
    if cancelled {
      return Row(index, Cancelled, []), 0, 0.0;
    }
    assert Pow2(0) == 1 && Pow2(1) == 2 && Pow2(2) == 4 && Pow2(3) == 8;
    var last := infer(0);
    asked, slept := 0, 0.0;
    while asked < ITEM_ATTEMPTS
      invariant 0 <= asked <= ITEM_ATTEMPTS
      invariant asked > 0 ==> last == infer(asked - 1)
      invariant forall k: nat | k < asked :: infer(k).Retryable?
      invariant slept == (if asked >= 1 then jitter(0) else 0.0) + (if asked >= 2 then jitter(1) else 0.0)
                       + (if asked >= 3 then jitter(2) else 0.0)
      invariant 0.0 <= slept <= (Pow2(asked) - 1) as real
    {
      last := infer(asked);
      asked := asked + 1;
      if !last.Retryable? {
        break;
      }
      slept := slept + jitter(asked - 1);
    }
    row := RowOf(index, last);
  }
}
