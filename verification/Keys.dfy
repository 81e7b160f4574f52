/**
 The object keys of one batch, and why no two of them collide.
 */
module Keys {

  const INDEX_WIDTH: nat := 6

  function BatchPrefix(batchId: string): string {
    "batches/" + batchId
  }

  function PromptsKey(batchId: string): string {
    BatchPrefix(batchId) + "/prompts.ndjson"
  }

  function ResultsKey(batchId: string): string {
    BatchPrefix(batchId) + "/results.ndjson"
  }

  function ManifestKey(batchId: string): string {
    BatchPrefix(batchId) + "/manifest.json"
  }

  function ChunkResultKey(batchId: string, chunkIndex: nat): string {
    BatchPrefix(batchId) + "/chunks/" + Padded(chunkIndex) + ".ndjson"
  }

  /** The format `06d`: decimal, zero-padded to six places, longer when six places do not suffice. */
  function Padded(n: nat): string {
    var digits := Decimal(n);
    if |digits| < INDEX_WIDTH then Zeros(INDEX_WIDTH - |digits|) + digits else digits
  }

  function Zeros(k: nat): string {
    seq(k, _ => '0')
  }

  function Decimal(n: nat): string {
    if n < 10 then [Digit(n)] else Decimal(n / 10) + [Digit(n % 10)]
  }

  function Digit(d: nat): char
    requires d < 10
  {
    '0' + d as char
  }

  /** Reads a decimal numeral; the inverse of both `Decimal` and `Padded`. */
  function Value(numeral: string): int {
    if numeral == "" then 0
    else 10 * Value(numeral[..|numeral| - 1]) + (numeral[|numeral| - 1] as int - '0' as int)
  }

  lemma {:induction false} DecimalRoundTrip(n: nat)
    ensures Value(Decimal(n)) == n
  {
    if n < 10 {
      assert Value([Digit(n)]) == 10 * Value([]) + n;
    } else {
      DecimalRoundTrip(n / 10);
      var front := Decimal(n / 10);
      assert (front + [Digit(n % 10)])[..|front|] == front;
    }
  }

  lemma {:induction false} LeadingZerosDoNotCount(k: nat, numeral: string)
    ensures Value(Zeros(k) + numeral) == Value(numeral)
    decreases k + |numeral|
  {
    var padded := Zeros(k) + numeral;
    if numeral != "" {
      assert padded[..|padded| - 1] == Zeros(k) + numeral[..|numeral| - 1];
      LeadingZerosDoNotCount(k, numeral[..|numeral| - 1]);
    } else if k > 0 {
      assert padded[..|padded| - 1] == Zeros(k - 1) + "";
      LeadingZerosDoNotCount(k - 1, "");
    }
  }

  /** Zero padding never makes two different indices look alike, beyond six digits included. */
  lemma PaddedRoundTrip(n: nat)
    ensures Value(Padded(n)) == n
  {
    DecimalRoundTrip(n);
    if |Decimal(n)| < INDEX_WIDTH {
      LeadingZerosDoNotCount(INDEX_WIDTH - |Decimal(n)|, Decimal(n));
    }
  }

  lemma {:induction false} DecimalDigits(n: nat)
    ensures forall i | 0 <= i < |Decimal(n)| :: '0' <= Decimal(n)[i] <= '9'
    ensures n > 0 ==> Decimal(n)[0] != '0'
  {
    if n >= 10 {
      DecimalDigits(n / 10);
    }
  }

  lemma DecimalWidth(n: nat)
    ensures |Decimal(n)| == if n < 10 then 1 else |Decimal(n / 10)| + 1
  {
  }

  /** Up to a million chunks the index takes exactly six digits; beyond that, no digit is a padding zero. */
  lemma PaddedIsSixDigits(n: nat)
    ensures forall i | 0 <= i < |Padded(n)| :: '0' <= Padded(n)[i] <= '9'
    ensures if n < 1000000 then |Padded(n)| == 6 else |Padded(n)| > 6 && Padded(n)[0] != '0'
  {
    DecimalDigits(n);
    DecimalWidth(n);
    SixOrMore(n);
  }

  lemma SixOrMore(n: nat)
    ensures |Decimal(n)| > 6 <==> n >= 1000000
  {
    hide Decimal;
    DecimalWidth(n);
    DecimalWidth(n / 10);
    DecimalWidth(n / 100);
    DecimalWidth(n / 1000);
    DecimalWidth(n / 10000);
    DecimalWidth(n / 100000);
    DecimalWidth(n / 1000000);
    assert n / 10 / 10 == n / 100 && n / 100 / 10 == n / 1000 && n / 1000 / 10 == n / 10000;
    assert n / 10000 / 10 == n / 100000 && n / 100000 / 10 == n / 1000000;
  }

  lemma ChunkKeysDiffer(batchId: string, i: nat, j: nat)
    requires ChunkResultKey(batchId, i) == ChunkResultKey(batchId, j)
    ensures i == j
  {
    var head, tail := BatchPrefix(batchId) + "/chunks/", ".ndjson";
    var key := ChunkResultKey(batchId, i);
    assert key == head + Padded(i) + tail && key == head + Padded(j) + tail;
    assert |Padded(i)| == |Padded(j)| == |key| - |head| - |tail|;
    assert Padded(i) == key[|head|..|key| - |tail|] == Padded(j);
    PaddedRoundTrip(i);
    PaddedRoundTrip(j);
  }

  lemma KeyKindsDiffer(batchId: string, i: nat)
    ensures ChunkResultKey(batchId, i) != PromptsKey(batchId)
    ensures ChunkResultKey(batchId, i) != ResultsKey(batchId)
    ensures ChunkResultKey(batchId, i) != ManifestKey(batchId)
    ensures PromptsKey(batchId) != ResultsKey(batchId)
    ensures PromptsKey(batchId) != ManifestKey(batchId)
    ensures ResultsKey(batchId) != ManifestKey(batchId)
  {
    var at := |BatchPrefix(batchId)| + 1;
    assert ChunkResultKey(batchId, i)[at] == 'c';
    assert PromptsKey(batchId)[at] == 'p';
    assert ResultsKey(batchId)[at] == 'r';
    assert ManifestKey(batchId)[at] == 'm';
  }

  /** All the objects of a batch live under different keys, for all chunk indices. */
  lemma KeysAreDistinct(batchId: string)
    ensures forall i: nat, j: nat {:trigger ChunkResultKey(batchId, i), ChunkResultKey(batchId, j)} ::
              ChunkResultKey(batchId, i) == ChunkResultKey(batchId, j) ==> i == j
    ensures forall i: nat {:trigger ChunkResultKey(batchId, i)} ::
              ChunkResultKey(batchId, i) !in {PromptsKey(batchId), ResultsKey(batchId), ManifestKey(batchId)}
    ensures PromptsKey(batchId) != ResultsKey(batchId) && PromptsKey(batchId) != ManifestKey(batchId)
    ensures ResultsKey(batchId) != ManifestKey(batchId)
  {
    forall i: nat, j: nat | ChunkResultKey(batchId, i) == ChunkResultKey(batchId, j) ensures i == j {
      ChunkKeysDiffer(batchId, i, j);
    }
    forall i: nat
      ensures ChunkResultKey(batchId, i) !in {PromptsKey(batchId), ResultsKey(batchId), ManifestKey(batchId)}
    {
      KeyKindsDiffer(batchId, i);
    }
    KeyKindsDiffer(batchId, 0);
  }
}
