/**
 * The records the `parse_*_webpage_content` functions build (the `PineconeVector` typed
 * dictionary), the id rule they all share, and the evaluation of a parse: a fixed, ordered list
 * of chunks, each turned into one record by one `get_embedding` call, stopping at the first
 * call that raises.
 */
module Records {
  import opened Wrappers
  import opened Text
  import opened Exceptions
  import opened Embedding

  /** The `entity_type` every script uses. */
  const Aircraft: string := "aircraft"

  /** The closed set of `info_type` values. */
  datatype InfoType =
    | GeneralInfo
    | OverviewFullText
    | OverviewSummary
    | Armament
    | Stats
    | History
    | CategoryMembership
  {
    /** The string stored in the metadata. */
    function Name(): string {
      match this
      case GeneralInfo => "general_info"
      case OverviewFullText => "overview_full_text"
      case OverviewSummary => "overview_summary"
      case Armament => "armament"
      case Stats => "stats"
      case History => "history"
      case CategoryMembership => "category_membership"
    }
  }

  /** Distinct info types are stored as distinct strings. */
  lemma InfoTypeNamesDistinct(a: InfoType, b: InfoType)
    ensures a.Name() == b.Name() <==> a == b
  {
    if a != b {
      assert |a.Name()| != |b.Name()|;
    }
  }

  /** A metadata value other than the three fixed keys: a number, `None` or a string. */
  datatype Field =
    | Int(n: int)
    | Null
    | Str(text: string)

  datatype Metadata = Metadata(
    entityType: string,
    itemName: string,
    infoType: InfoType,
    fields: map<string, Field>)

  datatype PineconeVector = PineconeVector(
    id: string,
    values: Vector,
    metadata: Metadata,
    textContent: string)

  /**
   * One `processed_vectors.append(...)` before it runs: the id suffix, the text that is both
   * embedded and stored, the info type and the remaining metadata.
   */
  datatype Chunk = Chunk(suffix: string, text: string, infoType: InfoType, fields: map<string, Field>)

  // ---------------------------------------------------------------------------------------
  // Ids

  /** `item_name.lower().replace(' ', '_')`, character by character. */
  function Slug(item: string): (r: string)
    ensures |r| == |item|
  {
    seq(|item|, i requires 0 <= i < |item| => if item[i] == ' ' then '_' else LowerChar(item[i]))
  }

  /** The slug is the lower-cased name with every space replaced by an underscore. */
  lemma SlugIsLowerReplaced(item: string)
    ensures Slug(item) == ReplaceChar(Lower(item), ' ', "_")
  {
    ReplaceCharByChar(Lower(item), ' ', '_');
  }

  /** `f"{item_name.lower().replace(' ', '_')}_{suffix}"`. */
  function MakeId(item: string, suffix: string): string {
    Slug(item) + "_" + suffix
  }

  /** An id is the slug, an underscore and the suffix, so the suffix can be read back. */
  lemma MakeIdParts(item: string, suffix: string)
    ensures |MakeId(item, suffix)| == |item| + 1 + |suffix|
    ensures MakeId(item, suffix)[..|item|] == Slug(item)
    ensures MakeId(item, suffix)[|item|] == '_'
    ensures MakeId(item, suffix)[|item| + 1..] == suffix
  {
  }

  /** Within one item, ids are equal exactly when their suffixes are. */
  lemma MakeIdInjective(item: string, a: string, b: string)
    ensures MakeId(item, a) == MakeId(item, b) <==> a == b
  {
    MakeIdParts(item, a);
    MakeIdParts(item, b);
  }

  // ---------------------------------------------------------------------------------------
  // Evaluating a parse

  /** The record one chunk becomes once its text has been embedded as `values`. */
  function Record(entity: string, item: string, c: Chunk, values: Vector): PineconeVector {
    PineconeVector(MakeId(item, c.suffix), values, Metadata(entity, item, c.infoType, c.fields), c.text)
  }

  /** What a parse returns or raises, and the requests it sends on the way. */
  datatype Outcome = Outcome(result: Result<seq<PineconeVector>, Exception>, requests: seq<Request>)

  /** `o`, after records `done` were built and requests `sent` were sent before it. */
  function Prefixed(done: seq<PineconeVector>, sent: seq<Request>, o: Outcome): Outcome {
    Outcome(
      if o.result.Failure? then Failure(o.result.error) else Success(done + o.result.value),
      sent + o.requests)
  }

  /** The requests `get_embedding` sends for one chunk. */
  function ChunkRequests(c: Chunk): seq<Request> {
    RequestsFor(c.text, DefaultModel, DefaultDimensions)
  }

  /** What `get_embedding` returns or raises for one chunk. */
  function ChunkEmbedding(endpoint: Request -> Reply, c: Chunk): Result<Vector, Exception> {
    Embed(endpoint, c.text, DefaultModel, DefaultDimensions)
  }

  /**
   * The outcome of a parse over `chunks`, from chunk `k` on: each chunk is embedded in order;
   * an exception ends the parse and is passed to its caller, so the records built so far are
   * lost.
   */
  function BuildFrom(endpoint: Request -> Reply, entity: string, item: string, chunks: seq<Chunk>, k: nat)
    : Outcome
    requires k <= |chunks|
    decreases |chunks| - k
  {
    if k == |chunks| then Outcome(Success([]), [])
    else
      match ChunkEmbedding(endpoint, chunks[k])
      case Failure(e) => Outcome(Failure(e), ChunkRequests(chunks[k]))
      case Success(v) =>
        Prefixed([Record(entity, item, chunks[k], v)], ChunkRequests(chunks[k]),
                 BuildFrom(endpoint, entity, item, chunks, k + 1))
  }

  /** The outcome of a whole parse over `chunks`. */
  function Build(endpoint: Request -> Reply, entity: string, item: string, chunks: seq<Chunk>): Outcome {
    BuildFrom(endpoint, entity, item, chunks, 0)
  }

  /** The requests of chunks `lo` to `hi - 1` when none of them raises, in order. */
  function RequestsBetween(chunks: seq<Chunk>, lo: nat, hi: nat): seq<Request>
    requires lo <= hi <= |chunks|
    decreases hi - lo
  {
    if lo == hi then [] else ChunkRequests(chunks[lo]) + RequestsBetween(chunks, lo + 1, hi)
  }

  /**
   * From chunk `k` on, a parse succeeds exactly when every embedding does; it then returns
   * one record per chunk, in order, and has sent the requests of every chunk.
   */
  lemma {:induction false} BuildFromSucceeds(
    endpoint: Request -> Reply, entity: string, item: string, chunks: seq<Chunk>, k: nat)
    requires k <= |chunks|
    ensures BuildFrom(endpoint, entity, item, chunks, k).result.Success? <==>
      forall i :: k <= i < |chunks| ==> ChunkEmbedding(endpoint, chunks[i]).Success?
    ensures BuildFrom(endpoint, entity, item, chunks, k).result.Success? ==>
      var records := BuildFrom(endpoint, entity, item, chunks, k).result.value;
      && |records| == |chunks| - k
      && (forall i :: k <= i < |chunks| ==>
            records[i - k] == Record(entity, item, chunks[i], ChunkEmbedding(endpoint, chunks[i]).value))
      && BuildFrom(endpoint, entity, item, chunks, k).requests == RequestsBetween(chunks, k, |chunks|)
    decreases |chunks| - k
  {
    if k < |chunks| {
      BuildFromSucceeds(endpoint, entity, item, chunks, k + 1);
      var o := BuildFrom(endpoint, entity, item, chunks, k);
      if o.result.Success? {
        var v := ChunkEmbedding(endpoint, chunks[k]).value;
        var rest := BuildFrom(endpoint, entity, item, chunks, k + 1);
        assert o.result.value == [Record(entity, item, chunks[k], v)] + rest.result.value;
      }
    }
  }

  /**
   * A parse succeeds exactly when every embedding does; it then returns one record per chunk,
   * in order, and has sent the requests of every chunk.
   */
  lemma BuildSucceeds(endpoint: Request -> Reply, entity: string, item: string, chunks: seq<Chunk>)
    ensures Build(endpoint, entity, item, chunks).result.Success? <==>
      forall i :: 0 <= i < |chunks| ==> ChunkEmbedding(endpoint, chunks[i]).Success?
    ensures Build(endpoint, entity, item, chunks).result.Success? ==>
      var records := Build(endpoint, entity, item, chunks).result.value;
      && |records| == |chunks|
      && (forall i :: 0 <= i < |chunks| ==>
            records[i] == Record(entity, item, chunks[i], ChunkEmbedding(endpoint, chunks[i]).value))
      && Build(endpoint, entity, item, chunks).requests == RequestsBetween(chunks, 0, |chunks|)
  {
    BuildFromSucceeds(endpoint, entity, item, chunks, 0);
  }

  /**
   * When the embedding of chunk `k` raises and the ones from `lo` up to it do not, the parse
   * from `lo` raises that exception, after sending the requests of chunks `lo` to `k` and no
   * others.
   */
  lemma {:induction false} BuildFromRaises(
    endpoint: Request -> Reply, entity: string, item: string, chunks: seq<Chunk>, lo: nat, k: nat)
    requires lo <= k < |chunks|
    requires ChunkEmbedding(endpoint, chunks[k]).Failure?
    requires forall j :: lo <= j < k ==> ChunkEmbedding(endpoint, chunks[j]).Success?
    ensures BuildFrom(endpoint, entity, item, chunks, lo).result ==
      Failure(ChunkEmbedding(endpoint, chunks[k]).error)
    ensures BuildFrom(endpoint, entity, item, chunks, lo).requests == RequestsBetween(chunks, lo, k + 1)
    decreases k - lo
  {
    if lo == k {
      assert RequestsBetween(chunks, k + 1, k + 1) == [];
    } else {
      BuildFromRaises(endpoint, entity, item, chunks, lo + 1, k);
    }
  }

  /**
   * When the embedding of chunk `k` raises and the earlier ones do not, the parse raises that
   * exception, after sending the requests of chunks 0 to `k` and no others.
   */
  lemma BuildRaises(
    endpoint: Request -> Reply, entity: string, item: string, chunks: seq<Chunk>, k: nat)
    requires k < |chunks|
    requires ChunkEmbedding(endpoint, chunks[k]).Failure?
    requires forall j :: 0 <= j < k ==> ChunkEmbedding(endpoint, chunks[j]).Success?
    ensures Build(endpoint, entity, item, chunks).result ==
      Failure(ChunkEmbedding(endpoint, chunks[k]).error)
    ensures Build(endpoint, entity, item, chunks).requests == RequestsBetween(chunks, 0, k + 1)
  {
    BuildFromRaises(endpoint, entity, item, chunks, 0, k);
  }

  /**
   * The records of a successful parse: each id is the item's id for its chunk's suffix, each
   * `text_content` is exactly the text that was embedded into its `values`, and the ids are
   * pairwise distinct when the suffixes are.
   */
  lemma RecordsFollowChunks(
    endpoint: Request -> Reply, entity: string, item: string, chunks: seq<Chunk>)
    requires Build(endpoint, entity, item, chunks).result.Success?
    ensures var records := Build(endpoint, entity, item, chunks).result.value;
      && |records| == |chunks|
      && forall i :: 0 <= i < |records| ==>
        && records[i].id == MakeId(item, chunks[i].suffix)
        && records[i].metadata.entityType == entity
        && records[i].metadata.itemName == item
        && records[i].metadata.infoType == chunks[i].infoType
        && records[i].metadata.fields == chunks[i].fields
        && records[i].textContent == chunks[i].text
        && Embed(endpoint, records[i].textContent, DefaultModel, DefaultDimensions)
             == Success(records[i].values)
    ensures (forall i, j :: 0 <= i < j < |chunks| ==> chunks[i].suffix != chunks[j].suffix) ==>
      var records := Build(endpoint, entity, item, chunks).result.value;
      forall i, j :: 0 <= i < j < |records| ==> records[i].id != records[j].id
  {
    BuildSucceeds(endpoint, entity, item, chunks);
    var records := Build(endpoint, entity, item, chunks).result.value;
    forall i, j | 0 <= i < j < |records| && chunks[i].suffix != chunks[j].suffix
      ensures records[i].id != records[j].id
    {
      MakeIdInjective(item, chunks[i].suffix, chunks[j].suffix);
    }
  }

  /**
   * Two successful parses over tables of the same length build the same record from equal
   * chunks, and records with the same id and metadata from chunks that differ only in text.
   */
  lemma BuildAgrees(endpoint: Request -> Reply, entity: string, item: string, a: seq<Chunk>, b: seq<Chunk>)
    requires |a| == |b|
    requires Build(endpoint, entity, item, a).result.Success?
    requires Build(endpoint, entity, item, b).result.Success?
    ensures var ra := Build(endpoint, entity, item, a).result.value;
      var rb := Build(endpoint, entity, item, b).result.value;
      && |ra| == |rb| == |a|
      && (forall i :: 0 <= i < |a| && a[i] == b[i] ==> ra[i] == rb[i])
      && (forall i :: 0 <= i < |a| && a[i].(text := b[i].text) == b[i] ==>
            ra[i].id == rb[i].id && ra[i].metadata == rb[i].metadata
            && ra[i].textContent == a[i].text && rb[i].textContent == b[i].text)
  {
    BuildSucceeds(endpoint, entity, item, a);
    BuildSucceeds(endpoint, entity, item, b);
  }

  /** A chunk whose text is blank gets the empty vector and sends no request. */
  lemma BlankChunk(endpoint: Request -> Reply, c: Chunk)
    requires IsBlank(c.text)
    ensures ChunkEmbedding(endpoint, c) == Success([])
    ensures ChunkRequests(c) == []
  {
  }

  /** The ids of `records`, in order. */
  function Ids(records: seq<PineconeVector>): (ids: seq<string>)
    ensures |ids| == |records| && forall i :: 0 <= i < |records| ==> ids[i] == records[i].id
  {
    seq(|records|, i requires 0 <= i < |records| => records[i].id)
  }

  /** The info types of `records`, in order. */
  function InfoTypes(records: seq<PineconeVector>): (types: seq<InfoType>)
    ensures |types| == |records|
    ensures forall i :: 0 <= i < |records| ==> types[i] == records[i].metadata.infoType
  {
    seq(|records|, i requires 0 <= i < |records| => records[i].metadata.infoType)
  }

  /** The id suffixes of `chunks`, in order. */
  function Suffixes(chunks: seq<Chunk>): (suffixes: seq<string>)
    ensures |suffixes| == |chunks|
    ensures forall i :: 0 <= i < |chunks| ==> suffixes[i] == chunks[i].suffix
  {
    seq(|chunks|, i requires 0 <= i < |chunks| => chunks[i].suffix)
  }

  /** The info types of `chunks`, in order. */
  function ChunkInfoTypes(chunks: seq<Chunk>): (types: seq<InfoType>)
    ensures |types| == |chunks|
    ensures forall i :: 0 <= i < |chunks| ==> types[i] == chunks[i].infoType
  {
    seq(|chunks|, i requires 0 <= i < |chunks| => chunks[i].infoType)
  }

  // ---------------------------------------------------------------------------------------
  // The parse, one append at a time

  /**
   * One `processed_vectors.append(PineconeVector(id=..., values=get_embedding(text), ...))`:
   * the embedding is requested, and either its exception is passed on or the record is
   * appended.
   */
  method AppendRecord(
    client: EmbeddingClient, processed: seq<PineconeVector>, entity: string, item: string, c: Chunk)
    returns (r: Result<seq<PineconeVector>, Exception>)
    modifies client
    ensures client.requests == old(client.requests) + ChunkRequests(c)
    ensures var e := ChunkEmbedding(client.endpoint, c);
      r == if e.Failure? then Failure(e.error) else Success(processed + [Record(entity, item, c, e.value)])
  {
    var values :- GetEmbedding(client, c.text, DefaultModel, DefaultDimensions);
    r := Success(processed + [PineconeVector(
      MakeId(item, c.suffix), values, Metadata(entity, item, c.infoType, c.fields), c.text)]);
  }

  /**
   * The outcomes of a parse over `chunks` from each chunk on: `plan[j]` is the outcome from
   * chunk `j` on. The appends of a straight-line parse refer to these outcomes by index.
   */
  ghost predicate IsPlan(
    endpoint: Request -> Reply, entity: string, item: string, chunks: seq<Chunk>, plan: seq<Outcome>)
  {
    && |plan| == |chunks| + 1
    && forall j {:trigger BuildFrom(endpoint, entity, item, chunks, j)} :: 0 <= j <= |chunks| ==>
         plan[j] == BuildFrom(endpoint, entity, item, chunks, j)
  }

  /**
   * Before the first append: the plan of the parse, whose first outcome is the whole parse.
   * A lemma rather than a function, so that a caller sees the plan only through `IsPlan`.
   */
  lemma BuildStart(endpoint: Request -> Reply, entity: string, item: string, chunks: seq<Chunk>)
    returns (plan: seq<Outcome>)
    ensures IsPlan(endpoint, entity, item, chunks, plan)
    ensures plan[0] == Build(endpoint, entity, item, chunks)
  {
    plan := seq(|chunks| + 1, j requires 0 <= j <= |chunks| => BuildFrom(endpoint, entity, item, chunks, j));
  }

  /** Nothing appended and nothing sent leaves an outcome as it is. */
  lemma PrefixedNothing(o: Outcome)
    ensures Prefixed([], [], o) == o
  {
    if o.result.Success? {
      assert [] + o.result.value == o.result.value;
    }
    assert [] + o.requests == o.requests;
  }

  /** After the last append, the parse returns what was appended. */
  lemma BuildDone(
    endpoint: Request -> Reply, entity: string, item: string, chunks: seq<Chunk>, plan: seq<Outcome>,
    processed: seq<PineconeVector>, sent: seq<Request>)
    requires IsPlan(endpoint, entity, item, chunks, plan)
    ensures Prefixed(processed, sent, plan[|chunks|]) == Outcome(Success(processed), sent)
  {
    assert plan[|chunks|] == BuildFrom(endpoint, entity, item, chunks, |chunks|);
    assert processed + [] == processed && sent + [] == sent;
  }

  /**
   * One step of the bookkeeping: the outcome from chunk `k` on, after `processed` and `sent`,
   * is this chunk's exception or the outcome from chunk `k + 1` on, after one more record.
   */
  lemma BuildNext(
    endpoint: Request -> Reply, entity: string, item: string, chunks: seq<Chunk>, k: nat,
    processed: seq<PineconeVector>, sent: seq<Request>)
    requires k < |chunks|
    ensures var e := ChunkEmbedding(endpoint, chunks[k]);
      Prefixed(processed, sent, BuildFrom(endpoint, entity, item, chunks, k)) ==
        if e.Failure? then Outcome(Failure(e.error), sent + ChunkRequests(chunks[k]))
        else Prefixed(processed + [Record(entity, item, chunks[k], e.value)],
                      sent + ChunkRequests(chunks[k]), BuildFrom(endpoint, entity, item, chunks, k + 1))
  {
    var e := ChunkEmbedding(endpoint, chunks[k]);
    if e.Success? {
      var rest := BuildFrom(endpoint, entity, item, chunks, k + 1);
      var record := Record(entity, item, chunks[k], e.value);
      if rest.result.Success? {
        assert processed + ([record] + rest.result.value) == (processed + [record]) + rest.result.value;
      }
      assert sent + (ChunkRequests(chunks[k]) + rest.requests)
        == (sent + ChunkRequests(chunks[k])) + rest.requests;
    }
  }

  /**
   * Append `k` of a parse written as straight-line appends, with its bookkeeping: `sent`, on
   * top of `base`, is what the client has been sent, and `goal` the outcome of the whole
   * parse, which is the outcome from chunk `k` on after `processed` and `sent`. Afterwards
   * the goal is either this append's exception or the outcome from chunk `k + 1` on, after
   * one more record.
   */
  method AppendNext(
    client: EmbeddingClient, entity: string, item: string, chunks: seq<Chunk>, k: nat,
    processed: seq<PineconeVector>, ghost plan: seq<Outcome>, ghost base: seq<Request>,
    ghost sent: seq<Request>, ghost goal: Outcome)
    returns (r: Result<seq<PineconeVector>, Exception>, ghost sent': seq<Request>)
    requires k < |chunks|
    requires IsPlan(client.endpoint, entity, item, chunks, plan)
    requires client.requests == base + sent
    requires Prefixed(processed, sent, plan[k]) == goal
    modifies client
    ensures client.requests == base + sent'
    ensures r.Failure? ==> goal == Outcome(Failure(r.error), sent')
    ensures r.Success? ==> Prefixed(r.value, sent', plan[k + 1]) == goal
  {
    BuildNext(client.endpoint, entity, item, chunks, k, processed, sent);
    assert plan[k] == BuildFrom(client.endpoint, entity, item, chunks, k);
    sent' := sent + ChunkRequests(chunks[k]);
    r := AppendRecord(client, processed, entity, item, chunks[k]);
    assert base + sent + ChunkRequests(chunks[k]) == base + sent';
  }
}
