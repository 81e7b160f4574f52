/**
 NDJSON framing: how lines are laid out in an object, and how they are read back.

 `Split` and `Lines` are the simple splitter over a whole object. `StreamLines` is the buffered
 reader that sees the object in arbitrary pieces, and it is proved to compute `Lines`.
 */
module Ndjson {

  type Byte = n: int | 0 <= n < 256
  type Bytes = seq<Byte>

  const NEWLINE: Byte := 10
  const RETURN: Byte := 13

  /** The six ASCII whitespace bytes that `bytes.strip` removes. */
  predicate IsSpace(b: Byte) {
    b == 32 || 9 <= b <= 13
  }

  predicate Blank(line: Bytes) {
    forall i | 0 <= i < |line| :: IsSpace(line[i])
  }

  predicate NewlineFree(line: Bytes) {
    NEWLINE !in line
  }

  /** What an encoded JSON document looks like to the framing: non-blank, and no raw newline. */
  predicate IsRecord(line: Bytes) {
    !Blank(line) && NewlineFree(line)
  }

  predicate AllRecords(lines: seq<Bytes>) {
    forall i | 0 <= i < |lines| :: IsRecord(lines[i])
  }

  /** The segments of the whole object between its newlines, blank ones included. */
  function Split(data: Bytes): (segments: seq<Bytes>)
    ensures segments != []
  {
    if data == [] then [[]]
    else if data[0] == NEWLINE then [[]] + Split(data[1..])
    else
      var rest := Split(data[1..]);
      [[data[0]] + rest[0]] + rest[1..]
  }

  function Keep(segment: Bytes): seq<Bytes> {
    if Blank(segment) then [] else [segment]
  }

  function NonBlank(segments: seq<Bytes>): seq<Bytes> {
    if segments == [] then [] else Keep(segments[0]) + NonBlank(segments[1..])
  }

  /** The simple reader: split the whole object at newlines and keep the non-blank segments. */
  function Lines(data: Bytes): seq<Bytes> {
    NonBlank(Split(data))
  }

  /** `b"\n".join(lines)`. */
  function Join(lines: seq<Bytes>): Bytes {
    if lines == [] then []
    else if |lines| == 1 then lines[0]
    else lines[0] + [NEWLINE] + Join(lines[1..])
  }

  /** The body every writer builds: the joined lines, and a final newline unless there are none. */
  function Body(lines: seq<Bytes>): Bytes {
    Join(lines) + if lines != [] then [NEWLINE] else []
  }

  function Flatten<T>(parts: seq<seq<T>>): seq<T> {
    if parts == [] then [] else parts[0] + Flatten(parts[1..])
  }

  /** What a reader has received when it sees an empty read: everything before it. */
  function Received(pieces: seq<Bytes>): Bytes {
    if pieces == [] || pieces[0] == [] then [] else pieces[0] + Received(pieces[1..])
  }

  /** An object as concatenation treats it: a newline is added unless it is empty or ends with one. */
  function Terminated(data: Bytes): Bytes {
    if data != [] && data[|data| - 1] != NEWLINE then data + [NEWLINE] else data
  }

  function Concatenation(objects: seq<Bytes>): Bytes {
    if objects == [] then [] else Terminated(objects[0]) + Concatenation(objects[1..])
  }

  function LinesOfEach(objects: seq<Bytes>): seq<Bytes> {
    if objects == [] then [] else Lines(objects[0]) + LinesOfEach(objects[1..])
  }

  function Min(a: nat, b: nat): nat {
    if a < b then a else b
  }

  /** The part of a list that lies in [offset, offset + limit). */
  function Range<T>(items: seq<T>, offset: nat, limit: nat): (part: seq<T>)
    ensures offset + limit <= |items| ==> |part| == limit
  {
    items[Min(offset, |items|)..Min(offset + limit, |items|)]
  }

  /** The first newline's position, or the length when there is none. */
  function NewlineAt(data: Bytes): (k: nat)
    ensures k <= |data|
    ensures NewlineFree(data[..k])
    ensures k < |data| ==> data[k] == NEWLINE
    ensures k == |data| <==> NewlineFree(data)
  {
    if data == [] || data[0] == NEWLINE then 0
    else
      var k := NewlineAt(data[1..]);
      assert data[..k + 1] == [data[0]] + data[1..][..k];
      1 + k
  }

  // ---- The splitter itself ---------------------------------------------------------------

  /** The splitter loses nothing and leaves no newline behind: joining the segments restores the data. */
  lemma {:induction false} SplitThenJoin(data: Bytes)
    ensures Join(Split(data)) == data
    ensures forall i | 0 <= i < |Split(data)| :: NewlineFree(Split(data)[i])
  {
    if data != [] {
      hide Join, NewlineFree;
      var rest := Split(data[1..]);
      SplitThenJoin(data[1..]);
      assert data == [data[0]] + data[1..];
      if data[0] == NEWLINE {
        JoinAfterEmpty(rest);
      } else {
        JoinAfterByte(data[0], rest);
      }
    } else {
      assert Split(data) == [[]];
    }
  }

  lemma JoinAfterEmpty(rest: seq<Bytes>)
    requires rest != []
    ensures Join([[]] + rest) == [NEWLINE] + Join(rest)
    ensures NewlineFree([])
  {
    assert ([[]] + rest)[1..] == rest;
  }

  lemma JoinAfterByte(b: Byte, rest: seq<Bytes>)
    requires rest != []
    ensures Join([[b] + rest[0]] + rest[1..]) == [b] + Join(rest)
    ensures b != NEWLINE && NewlineFree(rest[0]) ==> NewlineFree([b] + rest[0])
  {
    var segments := [[b] + rest[0]] + rest[1..];
    assert segments[1..] == rest[1..];
    if |rest| > 1 {
      assert Join(segments) == ([b] + rest[0]) + [NEWLINE] + Join(rest[1..]);
    }
  }

  lemma {:induction false} SplitOne(line: Bytes)
    requires NewlineFree(line)
    ensures Split(line) == [line]
  {
    if line != [] {
      SplitOne(line[1..]);
      assert line == [line[0]] + line[1..];
    }
  }

  lemma {:induction false} SplitAtNewline(line: Bytes, rest: Bytes)
    requires NewlineFree(line)
    ensures Split(line + [NEWLINE] + rest) == [line] + Split(rest)
  {
    var data := line + [NEWLINE] + rest;
    if line == [] {
      assert data[1..] == rest;
    } else {
      SplitAtNewline(line[1..], rest);
      assert data[1..] == line[1..] + [NEWLINE] + rest;
      assert line == [line[0]] + line[1..];
      assert ([line[1..]] + Split(rest))[1..] == Split(rest);
    }
  }

  lemma LinesOfNothing()
    ensures Lines([]) == []
  {
    assert NonBlank([[]]) == Keep([]) + NonBlank([[]][1..]);
  }

  lemma LinesOfOne(line: Bytes)
    requires NewlineFree(line)
    ensures Lines(line) == Keep(line)
  {
    SplitOne(line);
    assert NonBlank([line]) == Keep(line) + NonBlank([line][1..]);
  }

  /** Reading past the first newline: its line if not blank, then the lines of the rest. */
  lemma LinesAtNewline(line: Bytes, rest: Bytes)
    requires NewlineFree(line)
    ensures Lines(line + [NEWLINE] + rest) == Keep(line) + Lines(rest)
  {
    SplitAtNewline(line, rest);
    assert ([line] + Split(rest))[1..] == Split(rest);
  }

  /** The splitter is the only one: any newline-free segmentation that joins to the data is `Split`. */
  lemma {:induction false} SplitIsUnique(segments: seq<Bytes>)
    requires segments != []
    requires forall i | 0 <= i < |segments| :: NewlineFree(segments[i])
    ensures Split(Join(segments)) == segments
  {
    if |segments| == 1 {
      SplitOne(segments[0]);
    } else {
      SplitIsUnique(segments[1..]);
      SplitAtNewline(segments[0], Join(segments[1..]));
    }
  }

  // ---- Reading back what was written -----------------------------------------------------

  lemma BodyUnfold(lines: seq<Bytes>)
    requires lines != []
    ensures Body(lines) == lines[0] + [NEWLINE] + Body(lines[1..])
  {
  }

  /** Framing round trip: reading back a written object returns exactly the rows written. */
  lemma {:induction false} LinesOfBody(lines: seq<Bytes>)
    requires AllRecords(lines)
    ensures Lines(Body(lines)) == lines
  {
    if lines == [] {
      LinesOfNothing();
    } else {
      BodyUnfold(lines);
      LinesAtNewline(lines[0], Body(lines[1..]));
      LinesOfBody(lines[1..]);
    }
  }

  /** Lines of two objects laid end to end, when the first one ends its last line. */
  lemma {:induction false} LinesAppend(a: Bytes, b: Bytes)
    requires a == [] || a[|a| - 1] == NEWLINE
    ensures Lines(a + b) == Lines(a) + Lines(b)
    decreases |a|
  {
    hide Lines, Keep, NewlineAt;
    if a == [] {
      assert a + b == b;
      LinesOfNothing();
    } else {
      var k := NewlineAt(a);
      var line, rest := a[..k], a[k + 1..];
      assert a == line + [NEWLINE] + rest;
      assert a + b == line + [NEWLINE] + (rest + b) by {
        assert a + b == (line + [NEWLINE] + rest) + b;
      }
      assert rest != [] ==> rest[|rest| - 1] == a[|a| - 1];
      LinesAppend(rest, b);
      calc {
        Lines(a + b);
        { LinesAtNewline(line, rest + b); }
        Keep(line) + Lines(rest + b);
        Keep(line) + (Lines(rest) + Lines(b));
        (Keep(line) + Lines(rest)) + Lines(b);
        { LinesAtNewline(line, rest); }
        Lines(a) + Lines(b);
      }
    }
  }

  /** Adding a missing final newline does not change what is read. */
  lemma {:induction false} LinesOfTerminated(data: Bytes)
    ensures Lines(Terminated(data)) == Lines(data)
    decreases |data|
  {
    var k := NewlineAt(data);
    if k == |data| {
      LinesOfOne(data);
      LinesAtNewline(data, []);
      LinesOfNothing();
      assert data + [NEWLINE] + [] == data + [NEWLINE];
    } else {
      var line, rest := data[..k], data[k + 1..];
      assert data == line + [NEWLINE] + rest;
      assert rest != [] ==> rest[|rest| - 1] == data[|data| - 1];
      assert Terminated(data) == line + [NEWLINE] + Terminated(rest);
      LinesAtNewline(line, rest);
      LinesAtNewline(line, Terminated(rest));
      LinesOfTerminated(rest);
    }
  }

  /**
   The lines of a concatenation are the concatenation of the lines, even when some objects are
   empty or lack their final newline.
   */
  lemma {:induction false} LinesOfConcatenation(objects: seq<Bytes>)
    ensures Lines(Concatenation(objects)) == LinesOfEach(objects)
  {
    if objects == [] {
      LinesOfNothing();
    } else {
      LinesAppend(Terminated(objects[0]), Concatenation(objects[1..]));
      LinesOfTerminated(objects[0]);
      LinesOfConcatenation(objects[1..]);
    }
  }

  lemma ConcatenationUnfold(objects: seq<Bytes>)
    ensures Concatenation(objects) ==
            if objects == [] then [] else Terminated(objects[0]) + Concatenation(objects[1..])
  {
    hide Terminated;
  }

  lemma {:induction false} ConcatenationAppend(objects: seq<Bytes>, last: Bytes)
    ensures Concatenation(objects + [last]) == Concatenation(objects) + Terminated(last)
  {
    hide Concatenation, Terminated;
    ConcatenationUnfold(objects);
    ConcatenationUnfold(objects + [last]);
    if objects == [] {
      assert ([] + [last])[1..] == [];
    } else {
      TailOfSum(objects, [last]);
      ConcatenationAppend(objects[1..], last);
      Regroup(Terminated(objects[0]), Concatenation(objects[1..]), Terminated(last));
    }
  }

  lemma {:induction false} LinesOfEachAppend(objects: seq<Bytes>, last: Bytes)
    ensures LinesOfEach(objects + [last]) == LinesOfEach(objects) + Lines(last)
  {
    if objects != [] {
      LinesOfEachAppend(objects[1..], last);
      assert (objects + [last])[1..] == objects[1..] + [last];
    }
  }

  lemma NothingFramed()
    ensures Body([]) == []
  {
  }

  lemma {:induction false} BodyAppend(a: seq<Bytes>, b: seq<Bytes>)
    ensures Body(a + b) == Body(a) + Body(b)
  {
    hide Body;
    if a == [] {
      assert a + b == b;
      NothingFramed();
    } else {
      TailOfSum(a, b);
      BodyUnfold(a);
      BodyUnfold(a + b);
      BodyAppend(a[1..], b);
      Regroup(a[0] + [NEWLINE], Body(a[1..]), Body(b));
    }
  }

  lemma BodyIsTerminated(lines: seq<Bytes>)
    ensures Terminated(Body(lines)) == Body(lines)
  {
  }

  lemma FlattenUnfold<T>(parts: seq<seq<T>>)
    ensures Flatten(parts) == if parts == [] then [] else parts[0] + Flatten(parts[1..])
  {
  }

  lemma Regroup<T>(a: seq<T>, b: seq<T>, c: seq<T>)
    ensures (a + b) + c == a + (b + c)
  {
  }

  lemma TailOfSum<T>(a: seq<T>, b: seq<T>)
    requires a != []
    ensures (a + b)[0] == a[0] && (a + b)[1..] == a[1..] + b
  {
  }

  lemma {:induction false} FlattenAppend<T>(a: seq<seq<T>>, b: seq<seq<T>>)
    ensures Flatten(a + b) == Flatten(a) + Flatten(b)
  {
    hide Flatten;
    FlattenUnfold(a);
    if a == [] {
      assert a + b == b;
    } else {
      TailOfSum(a, b);
      FlattenUnfold(a + b);
      FlattenAppend(a[1..], b);
      Regroup(a[0], Flatten(a[1..]), Flatten(b));
    }
  }

  lemma {:induction false} ReceivedEverything(pieces: seq<Bytes>)
    requires forall i | 0 <= i < |pieces| :: pieces[i] != []
    ensures Received(pieces) == Flatten(pieces)
  {
    if pieces != [] {
      ReceivedEverything(pieces[1..]);
    }
  }

  // ---- The readers -----------------------------------------------------------------------

  /**
   The buffered reader. However the object's bytes are divided into reads, it yields exactly
   the non-blank segments of the whole object, in order.
   */
  method StreamLines(pieces: seq<Bytes>) returns (lines: seq<Bytes>)
    ensures lines == Lines(Received(pieces))
  {
    hide Lines, NewlineAt, Split;
    lines := [];
    var buffer: Bytes := [];
    var next := 0;
    assert buffer + Received(pieces[next..]) == Received(pieces);
    while true
      invariant 0 <= next <= |pieces|
      invariant NewlineFree(buffer)
      invariant lines + Lines(buffer + Received(pieces[next..])) == Lines(Received(pieces))
      decreases |pieces| - next
    {
      if next == |pieces| || pieces[next] == [] {
        break;
      }
      ghost var rest := Received(pieces[next + 1..]);
      assert pieces[next..][1..] == pieces[next + 1..];
      assert buffer + Received(pieces[next..]) == (buffer + pieces[next]) + rest;
      buffer := buffer + pieces[next];
      next := next + 1;
      while NEWLINE in buffer
        invariant lines + Lines(buffer + rest) == Lines(Received(pieces))
        decreases |buffer|
      {
        var k := NewlineAt(buffer);
        var line, tail := buffer[..k], buffer[k + 1..];
        assert buffer + rest == line + [NEWLINE] + (tail + rest);
        LinesAtNewline(line, tail + rest);
        buffer := tail;
        if !Blank(line) {
          lines := lines + [line];
        }
      }
    }
    assert buffer + [] == buffer;
    LinesOfOne(buffer);
    if !Blank(buffer) {
      lines := lines + [buffer];
    }
  }

  /** The ranged reader: consume the stream until the range is past, keeping what lies in it. */
  method ReadLineRange(stream: seq<Bytes>, offset: nat, limit: nat) returns (results: seq<Bytes>)
    ensures results == Range(stream, offset, limit)
  {
    results := [];
    var end := offset + limit;
    var idx := 0;
    while idx < |stream|
      invariant 0 <= idx <= |stream| && idx <= end
      invariant results == stream[Min(offset, idx)..idx]
    {
      if idx >= end {
        break;
      }
      if idx >= offset {
        results := results + [stream[idx]];
      }
      idx := idx + 1;
    }
  }

  // ---- Plain-text uploads ----------------------------------------------------------------

  /** The line end at position k: a newline, a carriage return, or both. */
  function EndAt(data: Bytes, k: nat): (end: Bytes)
    requires k < |data| && (data[k] == NEWLINE || data[k] == RETURN)
    ensures 0 < |end| <= 2 && k + |end| <= |data| && data[k..k + |end|] == end
  {
    if data[k] == RETURN && k + 1 < |data| && data[k + 1] == NEWLINE then [RETURN, NEWLINE] else [data[k]]
  }

  /** `bytes.splitlines`: lines end at a newline, a carriage return, or the two together. */
  function SplitLines(data: Bytes): seq<Bytes>
    decreases |data|
  {
    if data == [] then []
    else
      var k := LineEnd(data);
      if k == |data| then [data] else [data[..k]] + SplitLines(data[k + |EndAt(data, k)|..])
  }

  function LineEnd(data: Bytes): (k: nat)
    ensures k <= |data|
    ensures forall i | 0 <= i < k :: data[i] != NEWLINE && data[i] != RETURN
    ensures k < |data| ==> data[k] == NEWLINE || data[k] == RETURN
  {
    if data == [] || data[0] == NEWLINE || data[0] == RETURN then 0 else 1 + LineEnd(data[1..])
  }

  /** `bytes.strip`. */
  function Strip(line: Bytes): (stripped: Bytes)
    ensures stripped == [] <==> Blank(line)
    ensures stripped != [] ==> !IsSpace(stripped[0]) && !IsSpace(stripped[|stripped| - 1])
    decreases |line|
  {
    if line == [] then []
    else if IsSpace(line[0]) then
      assert line == [line[0]] + line[1..];
      assert Blank(line) <==> Blank(line[1..]);
      Strip(line[1..])
    else if IsSpace(line[|line| - 1]) then
      var front := line[..|line| - 1];
      assert front != [] && !IsSpace(front[0]);
      Strip(front)
    else line
  }

  predicate AllWhitespace(bytes: Bytes) {
    forall i | 0 <= i < |bytes| :: bytes[i] in {9, 10, 11, 12, 13, 32}
  }

  lemma StripUnfolds(line: Bytes)
    ensures Strip(line) ==
            if line == [] then []
            else if IsSpace(line[0]) then Strip(line[1..])
            else if IsSpace(line[|line| - 1]) then Strip(line[..|line| - 1])
            else line
  {
  }

  /** Stripping cuts off whitespace at both ends and nothing else. */
  lemma {:induction false} StripCuts(line: Bytes) returns (before: Bytes, after: Bytes)
    ensures line == before + Strip(line) + after
    ensures AllWhitespace(before) && AllWhitespace(after)
    ensures Strip(line) != [] ==> !AllWhitespace(Strip(line)[..1]) && !AllWhitespace(Strip(line)[|Strip(line)| - 1..])
    decreases |line|
  {
    hide Strip, Blank;
    StripUnfolds(line);
    before, after := [], [];
    if line != [] && IsSpace(line[0]) {
      var front := [line[0]];
      before, after := StripCuts(line[1..]);
      assert line == front + line[1..];
      Regroup(front, before, Strip(line));
      Regroup(front, before + Strip(line), after);
      before := front + before;
    } else if line != [] && IsSpace(line[|line| - 1]) {
      var last := [line[|line| - 1]];
      before, after := StripCuts(line[..|line| - 1]);
      assert line == line[..|line| - 1] + last;
      Regroup(before + Strip(line), after, last);
      after := after + last;
    } else {
      assert [] + line + [] == line;
    }
  }

  /** Lines with their ends put back. */
  function WithEnds(lines: seq<Bytes>, ends: seq<Bytes>): Bytes
    requires |lines| == |ends|
  {
    if lines == [] then [] else lines[0] + ends[0] + WithEnds(lines[1..], ends[1..])
  }

  /** A line end: a newline, a carriage return, or both; or nothing, after a last line that is not empty. */
  predicate IsEnd(lines: seq<Bytes>, ends: seq<Bytes>, i: nat)
    requires i < |lines| == |ends|
  {
    || ends[i] == [10] || ends[i] == [13, 10]
    || (ends[i] == [13] && !(i + 1 < |lines| && lines[i + 1] == [] && ends[i + 1] == [10]))
    || (ends[i] == [] && i == |lines| - 1 && lines[i] != [])
  }

  lemma FirstWithEnds(lines: seq<Bytes>, ends: seq<Bytes>)
    requires |lines| == |ends| && lines != [] && lines[0] == [] && ends[0] == [10]
    ensures WithEnds(lines, ends) != [] && WithEnds(lines, ends)[0] == NEWLINE
  {
  }

  lemma SplitLinesUnfolds(data: Bytes)
    ensures data == [] ==> SplitLines(data) == []
    ensures data != [] && LineEnd(data) == |data| ==> SplitLines(data) == [data]
    ensures LineEnd(data) < |data| ==>
              SplitLines(data) ==
              [data[..LineEnd(data)]] + SplitLines(data[LineEnd(data) + |EndAt(data, LineEnd(data))|..])
  {
    hide LineEnd, EndAt;
  }

  /**
   Splitting into lines cuts at every line end and nowhere else: the lines hold neither newline nor
   carriage return, and with their ends put back they are the data.
   */
  lemma {:induction false} SplitLinesCuts(data: Bytes) returns (ends: seq<Bytes>)
    ensures |ends| == |SplitLines(data)| && WithEnds(SplitLines(data), ends) == data
    ensures forall i | 0 <= i < |ends| :: 10 !in SplitLines(data)[i] && 13 !in SplitLines(data)[i]
    ensures forall i | 0 <= i < |ends| :: IsEnd(SplitLines(data), ends, i)
    decreases |data|
  {
    hide SplitLines, LineEnd, WithEnds, IsEnd, EndAt;
    SplitLinesUnfolds(data);
    var k := LineEnd(data);
    if data == [] {
      ends := [];
      NoLinesCut();
    } else if k == |data| {
      ends := [[]];
      LastLineCut(data);
    } else {
      var end := EndAt(data, k);
      var rest := data[k + |end|..];
      var later := SplitLinesCuts(rest);
      ends := [end] + later;
      OneMoreCut(data, k, SplitLines(rest), later);
      AllAreEnds(data, k, SplitLines(rest), later);
    }
  }

  lemma NoLinesCut()
    ensures WithEnds([], []) == []
  {
  }

  lemma LastLineCut(data: Bytes)
    requires data != []
    ensures WithEnds([data], [[]]) == data && IsEnd([data], [[]], 0)
  {
    assert WithEnds([data], [[]]) == data + [] + WithEnds([data][1..], [[]][1..]);
  }

  lemma OneMoreCut(data: Bytes, k: nat, lines: seq<Bytes>, ends: seq<Bytes>)
    requires k < |data| && (data[k] == NEWLINE || data[k] == RETURN)
    requires |lines| == |ends| && WithEnds(lines, ends) == data[k + |EndAt(data, k)|..]
    ensures WithEnds([data[..k]] + lines, [EndAt(data, k)] + ends) == data
  {
    hide WithEnds, EndAt;
    var end, line := EndAt(data, k), data[..k];
    WithEndsUnfolds([line] + lines, [end] + ends);
    assert ([line] + lines)[1..] == lines && ([end] + ends)[1..] == ends;
    ThreeParts(data, k, k + |end|);
  }

  lemma ThreeParts(data: Bytes, i: nat, j: nat)
    requires i <= j <= |data|
    ensures data[..i] + data[i..j] + data[j..] == data
  {
  }

  lemma AllAreEnds(data: Bytes, k: nat, lines: seq<Bytes>, ends: seq<Bytes>)
    requires k < |data| && (data[k] == NEWLINE || data[k] == RETURN)
    requires |lines| == |ends| && WithEnds(lines, ends) == data[k + |EndAt(data, k)|..]
    requires forall i | 0 <= i < |ends| :: IsEnd(lines, ends, i)
    ensures forall i | 0 <= i <= |ends| :: IsEnd([data[..k]] + lines, [EndAt(data, k)] + ends, i)
  {
    hide WithEnds, IsEnd, EndAt;
    FirstIsEnd(data, k, lines, ends);
    forall i | 0 < i <= |ends| ensures IsEnd([data[..k]] + lines, [EndAt(data, k)] + ends, i) {
      LaterIsEnd(data[..k], EndAt(data, k), lines, ends, i - 1);
    }
  }

  lemma WithEndsUnfolds(lines: seq<Bytes>, ends: seq<Bytes>)
    requires |lines| == |ends| && lines != []
    ensures WithEnds(lines, ends) == lines[0] + ends[0] + WithEnds(lines[1..], ends[1..])
  {
  }

  lemma FirstIsEnd(data: Bytes, k: nat, lines: seq<Bytes>, ends: seq<Bytes>)
    requires k < |data| && (data[k] == NEWLINE || data[k] == RETURN)
    requires |lines| == |ends| && WithEnds(lines, ends) == data[k + |EndAt(data, k)|..]
    ensures IsEnd([data[..k]] + lines, [EndAt(data, k)] + ends, 0)
  {
    hide WithEnds;
    if lines != [] && lines[0] == [] && ends[0] == [10] {
      FirstWithEnds(lines, ends);
    }
  }

  lemma LaterIsEnd(line: Bytes, end: Bytes, lines: seq<Bytes>, ends: seq<Bytes>, i: nat)
    requires i < |lines| == |ends| && IsEnd(lines, ends, i)
    ensures IsEnd([line] + lines, [end] + ends, i + 1)
  {
  }

  /** The texts a plain-text upload stores, one per non-blank line. */
  function Texts(lines: seq<Bytes>): seq<Bytes> {
    if lines == [] then [] else TextOf(lines[0]) + Texts(lines[1..])
  }

  function TextOf(line: Bytes): seq<Bytes> {
    if Strip(line) == [] then [] else [Strip(line)]
  }

  /** The texts are the stripped non-blank lines, all of them and in order. */
  lemma {:induction false} TextsAreLines(lines: seq<Bytes>) returns (at: seq<nat>)
    ensures |at| == |Texts(lines)|
    ensures forall p, q | 0 <= p < q < |at| :: at[p] < at[q]
    ensures forall p | 0 <= p < |at| ::
              at[p] < |lines| && !Blank(lines[at[p]]) && Texts(lines)[p] == Strip(lines[at[p]])
    ensures forall i | 0 <= i < |lines| && i !in at :: Blank(lines[i])
  {
    hide Strip, Texts, TextOf, Blank;
    at := [];
    if lines == [] {
      TextsUnfold(lines);
    } else {
      var n := |lines| - 1;
      at := TextsAreLines(lines[..n]);
      TextsOfLast(lines);
      if !Blank(lines[n]) {
        at := at + [n];
      }
    }
  }

  lemma TextsOfLast(lines: seq<Bytes>)
    requires lines != []
    ensures var n := |lines| - 1;
            Texts(lines) == Texts(lines[..n]) + if Blank(lines[n]) then [] else [Strip(lines[n])]
  {
    hide Strip, Texts;
    var n := |lines| - 1;
    var last := [lines[n]];
    TextsAppend(lines[..n], last);
    assert lines == lines[..n] + last;
    TextsUnfold(last);
    TextsUnfold(last[1..]);
  }

  lemma TextsUnfold(lines: seq<Bytes>)
    ensures Texts(lines) == if lines == [] then [] else TextOf(lines[0]) + Texts(lines[1..])
  {
    hide TextOf;
  }

  lemma {:induction false} TextsAppend(a: seq<Bytes>, b: seq<Bytes>)
    ensures Texts(a + b) == Texts(a) + Texts(b)
  {
    hide Texts, TextOf;
    TextsUnfold(a);
    if a == [] {
      assert a + b == b;
    } else {
      TailOfSum(a, b);
      TextsUnfold(a + b);
      TextsAppend(a[1..], b);
      Regroup(TextOf(a[0]), Texts(a[1..]), Texts(b));
    }
  }

  /**
   Without carriage returns the uploader and the reader agree on what a line is: the stored
   texts are the stripped lines the reader would have seen in the raw upload.
   */
  lemma {:induction false} TextsAreStrippedLines(data: Bytes)
    requires RETURN !in data
    ensures Texts(SplitLines(data)) == Texts(Lines(data))
    ensures |Texts(SplitLines(data))| == |Lines(data)|
    decreases |data|
  {
    var k := LineEnd(data);
    if data == [] {
      LinesOfNothing();
    } else if k == |data| {
      LinesOfOne(data);
      assert Texts([data]) == if Blank(data) then [] else [Strip(data)];
    } else {
      var line, rest := data[..k], data[k + 1..];
      assert data == line + [NEWLINE] + rest;
      LinesAtNewline(line, rest);
      TextsAreStrippedLines(rest);
      TextsAppend(Keep(line), Lines(rest));
      TextsAppend([line], SplitLines(rest));
      assert Texts([line]) == if Blank(line) then [] else [Strip(line)];
    }
  }
}
