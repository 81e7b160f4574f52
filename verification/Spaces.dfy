/**
 The object store, and the operations that frame, read and concatenate NDJSON objects in it.
 */
module Spaces {
  import opened Options
  import opened Ndjson
  import opened Rows

  /** What a client may send as a prompt: a text, or an object that may bring its own index. */
  datatype Prompt = Text(text: Bytes) | Fields(index: Option<int>, rest: Bytes)

  /** What a line of a raw upload parses to; a JSON value other than an object is taken as text. */
  datatype Parsed = Json(prompt: Prompt) | NotJson

  /** A stored document: a numbered text, or the client's object with an index. */
  datatype Document = TextDocument(index: int, text: Bytes) | FieldsDocument(index: int, rest: Bytes)

  /** The document stored for prompt number i: the client's own index wins. */
  function DocumentOf(prompt: Prompt, i: nat): Document {
    match prompt
    case Text(text) => TextDocument(i, text)
    case Fields(index, rest) => FieldsDocument(index.GetOr(i), rest)
  }

  /** Every document is encoded as one line, from which the decoder gets it back. */
  ghost predicate Inverts(dec: Bytes -> Document, enc: Document -> Bytes) {
    forall document :: IsRecord(enc(document)) && dec(enc(document)) == document
  }

  /** A document holds all of prompt number p: what it says, and the index it brought or else p. */
  predicate Holds(document: Document, prompt: Prompt, p: nat) {
    match prompt
    case Text(text) => document.TextDocument? && document.text == text && document.index == p
    case Fields(index, rest) =>
      && document.FieldsDocument? && document.rest == rest
      && (if index.Some? then document.index == index.value else document.index == p)
  }

  /** The lines of an object hold the prompts, one each and in order. */
  ghost predicate HoldsPrompts(lines: seq<Bytes>, dec: Bytes -> Document, prompts: seq<Prompt>) {
    |lines| == |prompts| && forall p | 0 <= p < |prompts| :: Holds(dec(lines[p]), prompts[p], p)
  }

  /** The lines of an object hold the texts of an upload, each as what it parses to or else as it is. */
  ghost predicate HoldsTexts(lines: seq<Bytes>, dec: Bytes -> Document, texts: seq<Bytes>, parse: Bytes -> Parsed) {
    && |lines| == |texts|
    && forall p | 0 <= p < |texts| ::
         match parse(texts[p])
         case Json(prompt) => Holds(dec(lines[p]), prompt, p)
         case NotJson => dec(lines[p]) == TextDocument(p, texts[p])
  }

  lemma EncodedIsHeld(prompts: seq<Prompt>, dec: Bytes -> Document, enc: Document -> Bytes)
    requires Inverts(dec, enc)
    ensures AllRecords(Encoded(prompts, enc)) && HoldsPrompts(Encoded(prompts, enc), dec, prompts)
  {
    hide IsRecord, Holds;
    forall p | 0 <= p < |prompts|
      ensures IsRecord(Encoded(prompts, enc)[p]) && Holds(dec(Encoded(prompts, enc)[p]), prompts[p], p)
    {
      var document := DocumentOf(prompts[p], p);
      assert IsRecord(enc(document)) && dec(enc(document)) == document;
      DocumentHolds(prompts[p], p);
    }
  }

  lemma DocumentHolds(prompt: Prompt, p: nat)
    ensures Holds(DocumentOf(prompt, p), prompt, p)
  {
  }

  lemma RawIsHeld(texts: seq<Bytes>, parse: Bytes -> Parsed, dec: Bytes -> Document, enc: Document -> Bytes)
    requires Inverts(dec, enc)
    ensures AllRecords(Encoded(RawPrompts(texts, parse), enc))
    ensures HoldsTexts(Encoded(RawPrompts(texts, parse), enc), dec, texts, parse)
  {
    hide Encoded, Inverts, AllRecords;
    EncodedIsHeld(RawPrompts(texts, parse), dec, enc);
  }

  function PromptOf(parsed: Parsed, line: Bytes): Prompt {
    match parsed
    case Json(prompt) => prompt
    case NotJson => Text(line)
  }

  /** The prompts of a raw upload, one per non-blank line. */
  function RawPrompts(lines: seq<Bytes>, parse: Bytes -> Parsed): (prompts: seq<Prompt>)
    ensures |prompts| == |lines|
  {
    seq(|lines|, i requires 0 <= i < |lines| => PromptOf(parse(lines[i]), lines[i]))
  }

  /** The encoded documents of a list of prompts. */
  function Encoded(prompts: seq<Prompt>, enc: Document -> Bytes): (lines: seq<Bytes>)
    ensures |lines| == |prompts|
  {
    seq(|prompts|, i requires 0 <= i < |prompts| => enc(DocumentOf(prompts[i], i)))
  }

  lemma EncodedOne(prompts: seq<Prompt>, enc: Document -> Bytes, p: nat)
    requires p < |prompts|
    ensures Encoded(prompts, enc)[p] == enc(DocumentOf(prompts[p], p))
  {
  }

  lemma EncodedAt(texts: seq<Bytes>, parse: Bytes -> Parsed, enc: Document -> Bytes, i: nat)
    requires i < |texts|
    ensures Encoded(RawPrompts(texts, parse), enc)[i] == enc(DocumentOf(PromptOf(parse(texts[i]), texts[i]), i))
  {
  }

  lemma TextsFrom(lines: seq<Bytes>, i: nat)
    requires i < |lines|
    ensures Texts(lines[i..]) == (if Strip(lines[i]) == [] then [] else [Strip(lines[i])]) + Texts(lines[i + 1..])
  {
    assert lines[i..][0] == lines[i] && lines[i..][1..] == lines[i + 1..];
  }

  lemma NoTexts()
    ensures Texts([]) == []
  {
  }

  /** Every key holds an object. */
  predicate AllPresent(objects: map<string, Bytes>, keys: seq<string>) {
    forall i | 0 <= i < |keys| :: keys[i] in objects
  }

  function ObjectsAt(objects: map<string, Bytes>, keys: seq<string>): (parts: seq<Bytes>)
    requires AllPresent(objects, keys)
    ensures |parts| == |keys|
  {
    seq(|keys|, i requires 0 <= i < |keys| => objects[keys[i]])
  }

  /** The pieces are the object at a key, cut up in non-empty reads. */
  ghost predicate Delivers(objects: map<string, Bytes>, key: string, pieces: seq<Bytes>) {
    && (key in objects ==> Flatten(pieces) == objects[key])
    && (forall i | 0 <= i < |pieces| :: pieces[i] != [])
  }

  /** Reading a key that holds no object raises an exception. */
  datatype ReadResult = NoSuchKey | Read(lines: seq<Bytes>)

  lemma NoObjects(objects: map<string, Bytes>)
    ensures AllPresent(objects, []) && Concatenation(ObjectsAt(objects, [])) == []
  {
  }

  lemma OneMoreObject(objects: map<string, Bytes>, keys: seq<string>, i: nat)
    requires i < |keys| && AllPresent(objects, keys[..i]) && keys[i] in objects
    ensures AllPresent(objects, keys[..i + 1])
    ensures Concatenation(ObjectsAt(objects, keys[..i + 1])) ==
            Concatenation(ObjectsAt(objects, keys[..i])) + Terminated(objects[keys[i]])
  {
    hide Concatenation, Terminated;
    assert keys[..i + 1] == keys[..i] + [keys[i]];
    assert ObjectsAt(objects, keys[..i + 1]) == ObjectsAt(objects, keys[..i]) + [objects[keys[i]]];
    ConcatenationAppend(ObjectsAt(objects, keys[..i]), objects[keys[i]]);
  }

  class SpacesClient {
    var objects: map<string, Bytes>

    constructor ()
      ensures objects == map[]
    {
      objects := map[];
    }

    method PutBytes(key: string, data: Bytes)
      modifies this
      ensures objects == old(objects)[key := data]
    {
      objects := objects[key := data];
    }

    /**
     Uploads prompts as NDJSON. A reader finds one line per prompt, in order, that holds all of it,
     and as many lines as the count says, as long as encoded documents are records.
     */
    method UploadPrompts(key: string, prompts: seq<Prompt>, enc: Document -> Bytes) returns (count: nat)
      modifies this
      ensures objects == old(objects)[key := Body(Encoded(prompts, enc))]
      ensures count == |prompts|
      ensures AllRecords(Encoded(prompts, enc)) ==>
                Lines(objects[key]) == Encoded(prompts, enc) && count == |Lines(objects[key])|
      ensures forall dec | Inverts(dec, enc) :: HoldsPrompts(Lines(objects[key]), dec, prompts)
    {
      hide Inverts, HoldsPrompts;
      var lines: seq<Bytes> := [];
      var i := 0;
      while i < |prompts|
        invariant 0 <= i <= |prompts|
        invariant lines == Encoded(prompts, enc)[..i]
      {
        var document := DocumentOf(prompts[i], i);
        lines := lines + [enc(document)];
        i := i + 1;
      }
      assert lines == Encoded(prompts, enc);
      var body := Join(lines) + if lines != [] then [NEWLINE] else [];
      PutBytes(key, body);
      if AllRecords(lines) {
        LinesOfBody(lines);
      }
      forall dec | Inverts(dec, enc) ensures HoldsPrompts(Lines(objects[key]), dec, prompts) {
        EncodedIsHeld(prompts, dec, enc);
      }
      count := |prompts|;
    }

    /**
     Uploads plain text or NDJSON. A reader finds one document per non-blank line, in order, that
     holds the stripped line or what it parses to. Objects keep their own index; all other lines are
     numbered without gaps.
     */
    method UploadRaw(key: string, data: Bytes, parse: Bytes -> Parsed, enc: Document -> Bytes) returns (count: nat)
      modifies this
      ensures var lines := Encoded(RawPrompts(Texts(SplitLines(data)), parse), enc);
              && objects == old(objects)[key := Body(lines)]
              && count == |lines|
              && (AllRecords(lines) ==> Lines(objects[key]) == lines)
      ensures forall dec | Inverts(dec, enc) ::
                HoldsTexts(Lines(objects[key]), dec, Texts(SplitLines(data)), parse)
      ensures RETURN !in data ==> count == |Lines(data)|
    {
      hide SplitLines, Texts, Strip, Inverts, HoldsTexts;
      var raw := SplitLines(data);
      ghost var texts := Texts(raw);
      ghost var lines := Encoded(RawPrompts(texts, parse), enc);
      var out: seq<Bytes> := [];
      var idx, next := 0, 0;
      assert raw[0..] == raw;
      hide Encoded, RawPrompts;
      while next < |raw|
        invariant 0 <= next <= |raw|
        invariant idx == |out| <= |texts|
        invariant Texts(raw[next..]) == texts[idx..]
        invariant out == lines[..idx]
        invariant objects == old(objects)
      {
        TextsFrom(raw, next);
        var line := Strip(raw[next]);
        next := next + 1;
        if line == [] {
          continue;
        }
        assert texts[idx] == line;
        EncodedAt(texts, parse, enc, idx);
        match parse(line) {
          case Json(Fields(index, rest)) => out := out + [enc(FieldsDocument(index.GetOr(idx), rest))];
          case Json(Text(text)) => out := out + [enc(TextDocument(idx, text))];
          case NotJson => out := out + [enc(TextDocument(idx, line))];
        }
        idx := idx + 1;
      }
      assert raw[next..] == [];
      NoTexts();
      assert out == lines;
      var body := Join(out) + if out != [] then [NEWLINE] else [];
      assert body == Body(lines);
      PutBytes(key, body);
      if AllRecords(out) {
        LinesOfBody(out);
      }
      forall dec | Inverts(dec, enc) ensures HoldsTexts(Lines(objects[key]), dec, texts, parse) {
        RawIsHeld(texts, parse, dec, enc);
      }
      if RETURN !in data {
        TextsAreStrippedLines(data);
      }
      count := |out|;
    }

    /** Reads a range of lines, in whatever pieces the store delivers the object. */
    method ReadRange(key: string, pieces: seq<Bytes>, offset: nat, limit: nat) returns (result: ReadResult)
      requires Delivers(objects, key, pieces)
      ensures result.NoSuchKey? <==> key !in objects
      ensures key in objects ==> result == Read(Range(Lines(objects[key]), offset, limit))
    {
      if key !in objects {
        return NoSuchKey;
      }
      ReceivedEverything(pieces);
      var stream := StreamLines(pieces);
      var lines := ReadLineRange(stream, offset, limit);
      result := Read(lines);
    }

    /** Writes a chunk's rows. */
    method WriteChunkResults(key: string, rows: seq<Row>, codec: Codec)
      modifies this
      ensures objects == old(objects)[key := codec.Written(rows)]
    {
      var lines := codec.EncodeAll(rows);
      PutBytes(key, Join(lines) + if lines != [] then [NEWLINE] else []);
    }

    /**
     Concatenates objects into one. A missing object raises before anything is written. The
     result's lines are the lines of the parts, whether or not these end in a newline.
     */
    method ConcatenateChunks(keys: seq<string>, dest: string) returns (ok: bool)
      modifies this
      ensures ok <==> AllPresent(old(objects), keys)
      ensures !ok ==> objects == old(objects)
      ensures ok ==> objects == old(objects)[dest := Concatenation(ObjectsAt(old(objects), keys))]
      ensures ok ==> Lines(objects[dest]) == LinesOfEach(ObjectsAt(old(objects), keys))
    {
      hide LinesOfEach, Lines, ObjectsAt, Concatenation;
      var body: Bytes := [];
      NoObjects(objects);
      assert keys[..0] == [];
      var i := 0;
      while i < |keys|
        invariant 0 <= i <= |keys|
        invariant AllPresent(objects, keys[..i])
        invariant body == Concatenation(ObjectsAt(objects, keys[..i]))
        invariant objects == old(objects)
      {
        if keys[i] !in objects {
          return false;
        }
        var data := objects[keys[i]];
        if data != [] && data[|data| - 1] != NEWLINE {
          data := data + [NEWLINE];
        }
        OneMoreObject(objects, keys, i);
        body := body + data;
        i := i + 1;
      }
      assert keys[..i] == keys;
      LinesOfConcatenation(ObjectsAt(objects, keys));
      PutBytes(dest, body);
      ok := true;
    }
  }
}
