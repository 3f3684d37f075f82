/**
 * Where the records go: `save_vectors_to_jsonl` appends one JSON line per record to a file,
 * and `write_pretty_json_output` reads such a file back, line by line, into one JSON array,
 * optionally replacing every embedding by a placeholder. The JSON encoder and decoder are
 * parameters: `dumps` (one value to one line of text), `loads` (one line of text to a value,
 * or `None` where Python raises `JSONDecodeError`) and `dump` (a value to the lines of the
 * pretty file).
 */
module Sink {
  import opened Wrappers
  import opened Exceptions
  import opened Embedding
  import opened Records
  import opened Files

  datatype Json =
    | JNull
    | JBool(b: bool)
    | JInt(n: int)
    | JNumber(f: Float)
    | JStr(s: string)
    | JArray(items: seq<Json>)
    | JObject(members: map<string, Json>)

  /** The string `write_pretty_json_output` puts in place of an embedding. */
  const Placeholder: string := "[EMBEDDING_VECTOR_REMOVED_FOR_READABILITY]"

  /** The default file of `save_vectors_to_jsonl` and the default input of the pretty writer. */
  const DefaultJsonlPath: string := "pinecone_vectors.jsonl"

  /** The default output file of the pretty writer. */
  const DefaultPrettyPath: string := "pinecone_vectors_pretty.json"

  // ---------------------------------------------------------------------------------------
  // Records as JSON

  function FieldJson(f: Field): Json {
    match f
    case Int(n) => JInt(n)
    case Null => JNull
    case Str(s) => JStr(s)
  }

  /** The metadata dictionary: the three fixed keys and the record's own fields. */
  function MetadataJson(m: Metadata): Json {
    JObject((map k | k in m.fields :: FieldJson(m.fields[k]))
      ["entity_type" := JStr(m.entityType)]
      ["item_name" := JStr(m.itemName)]
      ["info_type" := JStr(m.infoType.Name())])
  }

  /** A `PineconeVector` as the dictionary `json.dumps` receives. */
  function ToJson(v: PineconeVector): Json {
    JObject(map[
      "id" := JStr(v.id),
      "values" := JArray(seq(|v.values|, i requires 0 <= i < |v.values| => JNumber(v.values[i]))),
      "metadata" := MetadataJson(v.metadata),
      "text_content" := JStr(v.textContent)])
  }

  // ---------------------------------------------------------------------------------------
  // save_vectors_to_jsonl

  /** The line `save_vectors_to_jsonl` writes for one record. */
  function JsonLine(v: PineconeVector, dumps: Json -> string): string {
    dumps(ToJson(v)) + "\n"
  }

  /** The lines `save_vectors_to_jsonl` writes for `vectors`, in order. */
  function JsonLines(vectors: seq<PineconeVector>, dumps: Json -> string): (lines: seq<string>)
    ensures |lines| == |vectors|
    ensures forall i :: 0 <= i < |vectors| ==> lines[i] == JsonLine(vectors[i], dumps)
  {
    seq(|vectors|, i requires 0 <= i < |vectors| => JsonLine(vectors[i], dumps))
  }

  /**
   * `save_vectors_to_jsonl`: the file is opened for appending (created if absent) and one
   * line per record is added after whatever it held; no other file changes.
   */
  method SaveVectorsToJsonl(
    fs: FileSystem, vectors: seq<PineconeVector>, path: string, dumps: Json -> string)
    modifies fs
    ensures path in fs.files
    ensures fs.files == old(fs.files)[path :=
      (if path in old(fs.files) then old(fs.files)[path] else []) + JsonLines(vectors, dumps)]
  {
    fs.OpenForAppend(path);
    ghost var before := fs.files[path];
    assert before + JsonLines(vectors[..0], dumps) == before;
    for i := 0 to |vectors|
      invariant path in fs.files
      invariant fs.files == old(fs.files)[path := before + JsonLines(vectors[..i], dumps)]
    {
      ghost var written := before + JsonLines(vectors[..i], dumps);
      fs.AppendLine(path, dumps(ToJson(vectors[i])) + "\n");
      assert JsonLines(vectors[..i + 1], dumps) == JsonLines(vectors[..i], dumps) + [JsonLine(vectors[i], dumps)];
      assert written + [JsonLine(vectors[i], dumps)] == before + JsonLines(vectors[..i + 1], dumps);
    }
    assert vectors[..|vectors|] == vectors;
  }

  // ---------------------------------------------------------------------------------------
  // write_pretty_json_output

  /**
   * `vector_data["values"] = placeholder`: on a dictionary the key is set (added if absent);
   * on any other JSON value the assignment raises `TypeError`.
   */
  function Redact(j: Json): (r: Result<Json, Exception>)
    ensures j.JObject? <==> r.Success?
    ensures r.Success? ==> r.value.JObject? && r.value.members.Keys == j.members.Keys + {"values"}
    ensures r.Success? ==> r.value.members["values"] == JStr(Placeholder)
    ensures r.Success? ==> forall k :: k in j.members && k != "values" ==> r.value.members[k] == j.members[k]
  {
    if j.JObject? then Success(JObject(j.members["values" := JStr(Placeholder)])) else Failure(TypeError)
  }

  /** One decoded line as it is kept: redacted when asked for, as decoded otherwise. */
  function Display(j: Json, redact: bool): Result<Json, Exception> {
    if redact then Redact(j) else Success(j)
  }

  /**
   * The array `write_pretty_json_output` collects from `lines`: each line is decoded and kept
   * until the first line that does not decode, which ends the reading; a redaction that
   * raises ends the whole call.
   */
  function Render(lines: seq<string>, redact: bool, loads: string -> Option<Json>)
    : Result<seq<Json>, Exception>
    decreases |lines|
  {
    if lines == [] || loads(lines[0]).None? then Success([])
    else
      var first :- Display(loads(lines[0]).value, redact);
      var rest :- Render(lines[1..], redact, loads);
      Success([first] + rest)
  }

  /**
   * `write_pretty_json_output`. An absent input file only prints a message. Otherwise the
   * lines are read in a loop that stops at the first undecodable line, and the collected
   * array replaces the output file; an exception from the loop leaves every file as it was.
   */
  method WritePrettyJsonOutput(
    fs: FileSystem, inputPath: string, outputPath: string, removeEmbeddings: bool,
    loads: string -> Option<Json>, dump: Json -> seq<string>)
    returns (r: Result<(), Exception>)
    modifies fs
    ensures inputPath !in old(fs.files) ==> r.Success? && fs.files == old(fs.files)
    ensures inputPath in old(fs.files) ==>
      var rendered := Render(old(fs.files)[inputPath], removeEmbeddings, loads);
      && (rendered.Success? ==>
            r.Success? && fs.files == old(fs.files)[outputPath := dump(JArray(rendered.value))])
      && (rendered.Failure? ==> r == Failure(rendered.error) && fs.files == old(fs.files))
  {
    if !fs.Exists(inputPath) {
      return Success(());
    }
    var lines := fs.files[inputPath];
    var collected: seq<Json> := [];
    var i := 0;
    assert lines[0..] == lines;
    assert Render(lines, removeEmbeddings, loads).Success? ==>
      collected + Render(lines, removeEmbeddings, loads).value == Render(lines, removeEmbeddings, loads).value;
    while i < |lines|
      invariant 0 <= i <= |lines|
      invariant fs.files == old(fs.files)
      invariant Render(lines, removeEmbeddings, loads) == Resume(collected, Render(lines[i..], removeEmbeddings, loads))
    {
      RenderStep(lines, i, removeEmbeddings, loads, collected);
      var decoded := loads(lines[i]);
      if decoded.None? {
        break;
      }
      var vectorData := decoded.value;
      if removeEmbeddings {
        if !vectorData.JObject? {
          return Failure(TypeError);
        }
        vectorData := JObject(vectorData.members["values" := JStr(Placeholder)]);
      }
      collected := collected + [vectorData];
      i := i + 1;
    }
    if i == |lines| {
      assert lines[i..] == [];
    } else {
      assert loads(lines[i]).None?;
    }
    assert Render(lines[i..], removeEmbeddings, loads) == Success([]);
    assert collected + [] == collected;
    fs.Overwrite(outputPath, dump(JArray(collected)));
    r := Success(());
  }

  /** `rest`, after the values `collected` were kept before it. */
  function Resume(collected: seq<Json>, rest: Result<seq<Json>, Exception>): Result<seq<Json>, Exception> {
    if rest.Failure? then Failure(rest.error) else Success(collected + rest.value)
  }

  /** One turn of the reading loop, as the loop invariant needs it. */
  lemma RenderStep(lines: seq<string>, i: nat, redact: bool, loads: string -> Option<Json>, collected: seq<Json>)
    requires i < |lines|
    ensures loads(lines[i]).None? ==> Render(lines[i..], redact, loads) == Success([])
    ensures loads(lines[i]).Some? ==>
      var kept := Display(loads(lines[i]).value, redact);
      && (kept.Failure? ==> Resume(collected, Render(lines[i..], redact, loads)) == Failure(kept.error))
      && (kept.Success? ==>
            Resume(collected, Render(lines[i..], redact, loads))
              == Resume(collected + [kept.value], Render(lines[i + 1..], redact, loads)))
  {
    var here := lines[i..];
    assert here[0] == lines[i];
    assert here[1..] == lines[i + 1..];
    if loads(lines[i]).Some? {
      var kept := Display(loads(lines[i]).value, redact);
      var rest := Render(lines[i + 1..], redact, loads);
      if kept.Success? && rest.Success? {
        assert collected + ([kept.value] + rest.value) == (collected + [kept.value]) + rest.value;
      }
    }
  }

  /**
   * Without an exception, the array is exactly the decoded lines before the first line that
   * does not decode, each redacted when asked for; that line, if any, ends the reading.
   */
  lemma {:induction false} RenderPrefix(lines: seq<string>, redact: bool, loads: string -> Option<Json>)
    requires Render(lines, redact, loads).Success?
    ensures var items := Render(lines, redact, loads).value;
      && |items| <= |lines|
      && (forall i :: 0 <= i < |items| ==>
            loads(lines[i]).Some? && Display(loads(lines[i]).value, redact) == Success(items[i]))
      && (|items| < |lines| ==> loads(lines[|items|]).None?)
    decreases |lines|
  {
    if lines != [] && loads(lines[0]).Some? {
      var tail := lines[1..];
      RenderPrefix(tail, redact, loads);
      var items := Render(lines, redact, loads).value;
      var rest := Render(tail, redact, loads).value;
      assert items == [items[0]] + rest;
      forall i | 0 < i < |items|
        ensures loads(lines[i]).Some? && Display(loads(lines[i]).value, redact) == Success(items[i])
      {
        assert lines[i] == tail[i - 1] && items[i] == rest[i - 1];
      }
      if |items| < |lines| {
        assert lines[|items|] == tail[|rest|];
      }
    }
  }

  /** A line that does not decode hides every line after it. */
  lemma {:induction false} RenderIgnoresAfterBadLine(
    lines: seq<string>, k: nat, redact: bool, loads: string -> Option<Json>)
    requires k < |lines| && loads(lines[k]).None?
    ensures Render(lines, redact, loads) == Render(lines[..k], redact, loads)
    decreases k
  {
    if k == 0 {
      assert lines[..0] == [];
    } else if loads(lines[0]).Some? {
      var tail := lines[1..];
      assert tail[k - 1] == lines[k];
      RenderIgnoresAfterBadLine(tail, k - 1, redact, loads);
      var front := lines[..k];
      assert front[0] == lines[0];
      assert front[1..] == tail[..k - 1];
    }
  }

  /**
   * Some line before the first undecodable one decodes to a value that is not a dictionary.
   */
  predicate FailsAt(lines: seq<string>, loads: string -> Option<Json>) {
    exists k :: 0 <= k < |lines| && loads(lines[k]).Some? && !loads(lines[k]).value.JObject?
      && forall j :: 0 <= j < k ==> loads(lines[j]).Some?
  }

  /**
   * Without redaction nothing can raise; with it, the call raises exactly when some line
   * before the first undecodable one decodes to a value that is not a dictionary.
   */
  lemma {:induction false} RenderRaises(lines: seq<string>, redact: bool, loads: string -> Option<Json>)
    ensures !redact ==> Render(lines, redact, loads).Success?
    ensures Render(lines, redact, loads).Failure? <==>
      redact && FailsAt(lines, loads)
    ensures Render(lines, redact, loads).Failure? ==> Render(lines, redact, loads).error == TypeError
    decreases |lines|
  {
    if lines != [] {
      var tail := lines[1..];
      RenderRaises(tail, redact, loads);
      if Render(tail, redact, loads).Failure? && loads(lines[0]).Some? && loads(lines[0]).value.JObject? {
        var k :| 0 <= k < |tail| && loads(tail[k]).Some? && !loads(tail[k]).value.JObject?
          && forall j :: 0 <= j < k ==> loads(tail[j]).Some?;
        assert lines[k + 1] == tail[k];
        forall j | 0 <= j < k + 1
          ensures loads(lines[j]).Some?
        {
          if j > 0 {
            assert lines[j] == tail[j - 1];
          }
        }
      }
      if redact && FailsAt(lines, loads) {
        var k :| 0 <= k < |lines| && loads(lines[k]).Some? && !loads(lines[k]).value.JObject?
          && forall j :: 0 <= j < k ==> loads(lines[j]).Some?;
        if k > 0 {
          assert tail[k - 1] == lines[k];
          forall j | 0 <= j < k - 1
            ensures loads(tail[j]).Some?
          {
            assert tail[j] == lines[j + 1];
          }
        }
      }
    }
  }

  /** The pretty array for `vectors` with redaction on: each record, its embedding replaced. */
  function RedactedRecords(vectors: seq<PineconeVector>): (items: seq<Json>)
    ensures |items| == |vectors|
  {
    seq(|vectors|, i requires 0 <= i < |vectors| =>
      JObject(ToJson(vectors[i]).members["values" := JStr(Placeholder)]))
  }

  /**
   * The two helpers together: when the file `save_vectors_to_jsonl` wrote holds only these
   * records, and `loads` reads back what `dumps` wrote, the pretty array holds every record,
   * in order, with its embedding replaced by the placeholder when asked for.
   */
  lemma SavedRecordsRenderBack(
    vectors: seq<PineconeVector>, redact: bool, dumps: Json -> string, loads: string -> Option<Json>)
    requires forall j: Json :: loads(dumps(j) + "\n") == Some(j)
    ensures var rendered := Render(JsonLines(vectors, dumps), redact, loads);
      && rendered.Success?
      && |rendered.value| == |vectors|
      && forall i :: 0 <= i < |vectors| ==>
           rendered.value[i] == if redact then Redact(ToJson(vectors[i])).value else ToJson(vectors[i])
  {
    var lines := JsonLines(vectors, dumps);
    forall k | 0 <= k < |lines|
      ensures loads(lines[k]) == Some(ToJson(vectors[k]))
    {
      assert lines[k] == dumps(ToJson(vectors[k])) + "\n";
    }
    RenderRaises(lines, redact, loads);
    RenderPrefix(lines, redact, loads);
  }

  /** What the pretty writer returns, and the files after it. */
  datatype Written = Written(result: Result<(), Exception>, files: map<string, seq<string>>)

  /**
   * The main blocks' last two steps on `files`: the records are appended to `jsonlPath`, then
   * that file is rendered with the embeddings replaced and the array is written to `prettyPath`.
   */
  function SaveThenWrite(
    files: map<string, seq<string>>, vectors: seq<PineconeVector>, jsonlPath: string, prettyPath: string,
    dumps: Json -> string, loads: string -> Option<Json>, dump: Json -> seq<string>): Written
  {
    var saved := (if jsonlPath in files then files[jsonlPath] else []) + JsonLines(vectors, dumps);
    match Render(saved, true, loads)
    case Success(items) => Written(Success(()), files[jsonlPath := saved][prettyPath := dump(JArray(items))])
    case Failure(e) => Written(Failure(e), files[jsonlPath := saved])
  }

  /** `save_vectors_to_jsonl` followed by `write_pretty_json_output` with the embeddings removed. */
  method SaveAndWritePretty(
    fs: FileSystem, vectors: seq<PineconeVector>, jsonlPath: string, prettyPath: string,
    dumps: Json -> string, loads: string -> Option<Json>, dump: Json -> seq<string>)
    returns (r: Result<(), Exception>)
    modifies fs
    ensures Written(r, fs.files) == SaveThenWrite(old(fs.files), vectors, jsonlPath, prettyPath, dumps, loads, dump)
  {
    ghost var before := fs.files;
    SaveVectorsToJsonl(fs, vectors, jsonlPath, dumps);
    ghost var saved := (if jsonlPath in before then before[jsonlPath] else []) + JsonLines(vectors, dumps);
    assert fs.files == before[jsonlPath := saved];
    r := WritePrettyJsonOutput(fs, jsonlPath, prettyPath, true, loads, dump);
    match Render(saved, true, loads)
    case Success(items) =>
      assert fs.files == before[jsonlPath := saved][prettyPath := dump(JArray(items))];
      assert r.value == ();
    case Failure(e) =>
      assert r == Failure(e);
  }

  /**
   * When the JSON Lines file did not exist and `loads` reads back what `dumps` wrote, the two
   * steps succeed: the file holds one line per record and the pretty file every record, in
   * order, with its embedding replaced.
   */
  lemma FreshSaveThenWrite(
    files: map<string, seq<string>>, vectors: seq<PineconeVector>, jsonlPath: string, prettyPath: string,
    dumps: Json -> string, loads: string -> Option<Json>, dump: Json -> seq<string>)
    requires jsonlPath !in files
    requires forall j: Json :: loads(dumps(j) + "\n") == Some(j)
    ensures SaveThenWrite(files, vectors, jsonlPath, prettyPath, dumps, loads, dump) ==
      Written(Success(()),
        files[jsonlPath := JsonLines(vectors, dumps)][prettyPath := dump(JArray(RedactedRecords(vectors)))])
  {
    SavedRecordsRenderRedacted(vectors, dumps, loads);
    assert [] + JsonLines(vectors, dumps) == JsonLines(vectors, dumps);
  }

  /**
   * The main blocks' sequence: the records are saved to a fresh file and rendered back with
   * redaction on, which yields every record in order with its embedding replaced.
   */
  lemma SavedRecordsRenderRedacted(
    vectors: seq<PineconeVector>, dumps: Json -> string, loads: string -> Option<Json>)
    requires forall j: Json :: loads(dumps(j) + "\n") == Some(j)
    ensures Render(JsonLines(vectors, dumps), true, loads) == Success(RedactedRecords(vectors))
  {
    SavedRecordsRenderBack(vectors, true, dumps, loads);
    var items := Render(JsonLines(vectors, dumps), true, loads).value;
    forall i | 0 <= i < |vectors|
      ensures items[i] == RedactedRecords(vectors)[i]
    {
      assert items[i] == Redact(ToJson(vectors[i])).value;
    }
    assert items == RedactedRecords(vectors);
  }
}
