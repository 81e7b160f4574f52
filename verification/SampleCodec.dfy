/**
 A codec that meets `Codec.Valid`, the assumption that the pipeline results make about JSON. It
 flattens rows and manifests to lists of numbers, and writes each number in unary.
 */
module SampleCodec {
  import opened Options
  import opened Ndjson
  import opened Rows

  const STROKE: Byte := 'x' as int
  const COMMA: Byte := ',' as int

  // ---- Numbers as bytes ------------------------------------------------------------------

  function Strokes(n: nat): Bytes {
    if n == 0 then [COMMA] else [STROKE] + Strokes(n - 1)
  }

  function Write(numbers: seq<nat>): Bytes {
    if numbers == [] then [] else Strokes(numbers[0]) + Write(numbers[1..])
  }

  /** Reads numbers back, given the strokes seen so far of the first one. */
  function Read(data: Bytes, strokes: nat): seq<nat> {
    if data == [] then []
    else if data[0] == COMMA then [strokes] + Read(data[1..], 0)
    else Read(data[1..], strokes + 1)
  }

  lemma {:induction false} ReadStrokes(n: nat, rest: Bytes, strokes: nat)
    ensures Read(Strokes(n) + rest, strokes) == [strokes + n] + Read(rest, 0)
  {
    if n == 0 {
      assert ([COMMA] + rest)[1..] == rest;
    } else {
      var data := Strokes(n) + rest;
      assert data[0] == STROKE && data[1..] == Strokes(n - 1) + rest;
      ReadStrokes(n - 1, rest, strokes + 1);
    }
  }

  lemma {:induction false} ReadWritten(numbers: seq<nat>)
    ensures Read(Write(numbers), 0) == numbers
  {
    if numbers != [] {
      ReadStrokes(numbers[0], Write(numbers[1..]), 0);
      ReadWritten(numbers[1..]);
    }
  }

  lemma {:induction false} WrittenBytes(numbers: seq<nat>)
    ensures forall i | 0 <= i < |Write(numbers)| :: Write(numbers)[i] == STROKE || Write(numbers)[i] == COMMA
    ensures numbers != [] ==> Write(numbers) != []
  {
    if numbers != [] {
      StrokeBytes(numbers[0]);
      WrittenBytes(numbers[1..]);
    }
  }

  lemma {:induction false} StrokeBytes(n: nat)
    ensures Strokes(n) != []
    ensures forall i | 0 <= i < |Strokes(n)| :: Strokes(n)[i] == STROKE || Strokes(n)[i] == COMMA
  {
    if n > 0 {
      StrokeBytes(n - 1);
    }
  }

  lemma WrittenIsRecord(numbers: seq<nat>)
    requires numbers != []
    ensures IsRecord(Write(numbers))
  {
    WrittenBytes(numbers);
    assert !IsSpace(Write(numbers)[0]);
  }

  // ---- Rows ------------------------------------------------------------------------------

  function At(numbers: seq<nat>, i: nat): nat {
    if i < |numbers| then numbers[i] else 0
  }

  function Drop(numbers: seq<nat>, n: nat): seq<nat> {
    if n <= |numbers| then numbers[n..] else []
  }

  function VerdictNumber(verdict: Verdict): nat {
    match verdict
    case Ok => 0
    case Failed(false) => 1
    case Failed(true) => 2
    case Cancelled => 3
  }

  function VerdictOf(n: nat): Verdict {
    if n == 0 then Ok else if n == 1 then Failed(false) else if n == 2 then Failed(true) else Cancelled
  }

  function RowNumbers(row: Row): (numbers: seq<nat>)
    ensures numbers != []
  {
    var size: nat := if row.index < 0 then -row.index else row.index;
    [if row.index < 0 then 1 else 0, size, VerdictNumber(row.verdict)]
    + seq(|row.payload|, i requires 0 <= i < |row.payload| => row.payload[i] as nat)
  }

  function RowOfNumbers(numbers: seq<nat>): Row {
    var size: int := At(numbers, 1);
    var payload := Drop(numbers, 3);
    Row(if At(numbers, 0) == 1 then -size else size, VerdictOf(At(numbers, 2)),
        seq(|payload|, i requires 0 <= i < |payload| => (payload[i] % 256) as Byte))
  }

  lemma RowNumbersRoundTrip(row: Row)
    ensures RowOfNumbers(RowNumbers(row)) == row
  {
    var numbers := RowNumbers(row);
    assert |Drop(numbers, 3)| == |row.payload|;
    forall i | 0 <= i < |row.payload| ensures Drop(numbers, 3)[i] % 256 == row.payload[i] {
      assert Drop(numbers, 3)[i] == row.payload[i];
    }
    assert RowOfNumbers(numbers).payload == row.payload;
  }

  // ---- Manifests -------------------------------------------------------------------------

  function CharOf(n: nat): char {
    if n < 0xD800 || 0xE000 <= n < 0x11_0000 then n as char else 'a'
  }

  /** A text is written after its length. */
  function TextNumbers(text: string): seq<nat> {
    [|text|] + seq(|text|, i requires 0 <= i < |text| => text[i] as nat)
  }

  function TextOf(numbers: seq<nat>): string {
    var n := Min(At(numbers, 0), if numbers == [] then 0 else |numbers| - 1);
    seq(n, i requires 0 <= i < n => CharOf(numbers[i + 1]))
  }

  lemma TextRoundTrip(text: string, rest: seq<nat>)
    ensures TextOf(TextNumbers(text) + rest) == text
    ensures Drop(TextNumbers(text) + rest, |text| + 1) == rest
  {
  }

  function EntryNumbers(entry: ManifestEntry): seq<nat> {
    var key := entry.resultKey;
    [entry.chunkIndex, entry.okCount, entry.failCount, entry.attempts, if key.Some? then 1 else 0]
    + TextNumbers(key.GetOr(""))
  }

  function EntryOf(numbers: seq<nat>): ManifestEntry {
    ManifestEntry(At(numbers, 0), if At(numbers, 4) == 1 then Some(TextOf(Drop(numbers, 5))) else None,
                  At(numbers, 1), At(numbers, 2), At(numbers, 3))
  }

  function EntrySize(entry: ManifestEntry): nat {
    6 + |entry.resultKey.GetOr("")|
  }

  lemma EntryRoundTrip(entry: ManifestEntry, rest: seq<nat>)
    ensures EntryOf(EntryNumbers(entry) + rest) == entry
    ensures Drop(EntryNumbers(entry) + rest, EntrySize(entry)) == rest
  {
    var text := entry.resultKey.GetOr("");
    TextRoundTrip(text, rest);
    assert Drop(EntryNumbers(entry) + rest, 5) == TextNumbers(text) + rest;
  }

  function EntriesNumbers(entries: seq<ManifestEntry>): seq<nat> {
    if entries == [] then [] else EntryNumbers(entries[0]) + EntriesNumbers(entries[1..])
  }

  function EntriesOf(n: nat, numbers: seq<nat>): seq<ManifestEntry> {
    if n == 0 then []
    else
      var entry := EntryOf(numbers);
      [entry] + EntriesOf(n - 1, Drop(numbers, EntrySize(entry)))
  }

  lemma {:induction false} EntriesRoundTrip(entries: seq<ManifestEntry>)
    ensures EntriesOf(|entries|, EntriesNumbers(entries)) == entries
  {
    if entries != [] {
      EntryRoundTrip(entries[0], EntriesNumbers(entries[1..]));
      EntriesRoundTrip(entries[1..]);
    }
  }

  function ManifestNumbers(m: Manifest): seq<nat> {
    [m.totalItems, m.completedItems, m.failedItems, m.retryCount, |m.chunks|]
    + (TextNumbers(m.batchId) + (TextNumbers(m.resultsKey) + EntriesNumbers(m.chunks)))
  }

  function ManifestOf(numbers: seq<nat>): Manifest {
    var texts := Drop(numbers, 5);
    var batchId := TextOf(texts);
    var more := Drop(texts, |batchId| + 1);
    var resultsKey := TextOf(more);
    Manifest(batchId, At(numbers, 0), At(numbers, 1), At(numbers, 2), At(numbers, 3),
             EntriesOf(At(numbers, 4), Drop(more, |resultsKey| + 1)), resultsKey)
  }

  lemma ManifestRoundTrip(m: Manifest)
    ensures ManifestOf(ManifestNumbers(m)) == m
  {
    hide TextNumbers, TextOf, EntriesNumbers, EntriesOf;
    var entries := EntriesNumbers(m.chunks);
    TextRoundTrip(m.batchId, TextNumbers(m.resultsKey) + entries);
    TextRoundTrip(m.resultsKey, entries);
    EntriesRoundTrip(m.chunks);
    assert Drop(ManifestNumbers(m), 5) == TextNumbers(m.batchId) + (TextNumbers(m.resultsKey) + entries);
  }

  // ---- The codec -------------------------------------------------------------------------

  const UNARY := Codec(row => Write(RowNumbers(row)), data => RowOfNumbers(Read(data, 0)),
                       m => Write(ManifestNumbers(m)), data => ManifestOf(Read(data, 0)))

  /** The assumption on the codec can be met. */
  lemma UnaryIsValid()
    ensures UNARY.Valid()
  {
    forall row ensures IsRecord(UNARY.enc(row)) && UNARY.dec(UNARY.enc(row)) == row {
      WrittenIsRecord(RowNumbers(row));
      ReadWritten(RowNumbers(row));
      RowNumbersRoundTrip(row);
    }
    forall m ensures UNARY.decManifest(UNARY.encManifest(m)) == m {
      ReadWritten(ManifestNumbers(m));
      ManifestRoundTrip(m);
    }
  }
}
