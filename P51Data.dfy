/**
 * `parse_p51_webpage_content` and the main block of the P-51 Mustang script. The parser never
 * reads the page it is given: its eight records are fixed, and only their embeddings come
 * from the service. The general script holds a copy of this parser that differs in one text,
 * the full overview; the chunk table takes that text as a parameter so both copies share it.
 */
module P51Data {
  import opened Wrappers
  import opened Exceptions
  import opened Embedding
  import opened Records
  import opened Files
  import opened Sink
  import opened Cleaning
  import opened P51Texts

  const Item: string := "P-51 Mustang"
  const OutputJsonl: string := "pinecone_p51_vectors.jsonl"
  const OutputPrettyJson: string := "pinecone_p51_vectors_pretty.json"

  /**
   * The chunks the parser appends, in order; `fullOverview` is its full overview text. Of the
   * remaining metadata only the integer fields of the general information and the weapon
   * counts are kept.
   */
  function Chunks(fullOverview: string): seq<Chunk> {
    [
      // process_p51_data.py:176-194
      Chunk("general_info", GeneralInfoText, GeneralInfo, map[
          "price" := Int(700000),
          "unlock_rebirth_level" := Int(7),
          "seating_capacity" := Int(1),
          "hulls" := Int(1),
          "weapons_count" := Int(1),
          "engines_count" := Int(1)]),
      // process_p51_data.py:236-246
      Chunk("overview_full_text", fullOverview, OverviewFullText, map[]),
      // process_p51_data.py:256-268
      Chunk("overview_concise", ConciseOverviewText, OverviewSummary, map[]),
      // process_p51_data.py:272-286
      Chunk("armament_20mm_cannons", CannonsArmamentText, Armament, map["count" := Int(4)]),
      // process_p51_data.py:290-304
      Chunk("armament_50cal_mg", MachineGunArmamentText, Armament, map["count" := Int(1)]),
      // process_p51_data.py:308-325
      Chunk("stats_speed", SpeedText, Stats, map[]),
      // process_p51_data.py:329-346
      Chunk("stats_health", HealthText, Stats, map[]),
      // process_p51_data.py:350-360
      Chunk("category_membership", CategoryText, CategoryMembership, map[])
    ]
  }

  /**
   * The eight appends of `parse_p51_webpage_content`, one per chunk of its table, each
   * embedding the chunk's text; an exception from the service ends the parse.
   */
  method AppendP51Records(client: EmbeddingClient, chunks: seq<Chunk>)
    returns (r: Result<seq<PineconeVector>, Exception>)
    requires |chunks| == 8
    modifies client
    ensures r == Build(client.endpoint, Aircraft, Item, chunks).result
    ensures client.requests == old(client.requests) + Build(client.endpoint, Aircraft, Item, chunks).requests
  {
    ghost var plan := BuildStart(client.endpoint, Aircraft, Item, chunks);
    ghost var goal := plan[0];
    PrefixedNothing(goal);
    ghost var base := client.requests;
    var processed: seq<PineconeVector> := [];
    ghost var sent: seq<Request> := [];
    assert base + [] == base;
    // Chunk 1: general information
    processed, sent :- AppendNext(client, Aircraft, Item, chunks, 0, processed, plan, base, sent, goal);
    // Chunk 2: full overview text
    processed, sent :- AppendNext(client, Aircraft, Item, chunks, 1, processed, plan, base, sent, goal);
    // Chunk 3: concise overview
    processed, sent :- AppendNext(client, Aircraft, Item, chunks, 2, processed, plan, base, sent, goal);
    // Chunk 4: 20mm cannons
    processed, sent :- AppendNext(client, Aircraft, Item, chunks, 3, processed, plan, base, sent, goal);
    // Chunk 5: .50 caliber machine gun
    processed, sent :- AppendNext(client, Aircraft, Item, chunks, 4, processed, plan, base, sent, goal);
    // Chunk 6: speed statistics
    processed, sent :- AppendNext(client, Aircraft, Item, chunks, 5, processed, plan, base, sent, goal);
    // Chunk 7: health statistics
    processed, sent :- AppendNext(client, Aircraft, Item, chunks, 6, processed, plan, base, sent, goal);
    // Chunk 8: category membership
    processed, sent :- AppendNext(client, Aircraft, Item, chunks, 7, processed, plan, base, sent, goal);
    BuildDone(client.endpoint, Aircraft, Item, chunks, plan, processed, sent);
    return Success(processed);
  }

  /**
   * `parse_p51_webpage_content(webpage_text)`: the appends over the fixed table. What it
   * returns or raises, and what it sends, do not depend on `webpageText`.
   */
  method ParseP51WebpageContent(client: EmbeddingClient, webpageText: string, fullOverview: string)
    returns (r: Result<seq<PineconeVector>, Exception>)
    modifies client
    ensures r == Build(client.endpoint, Aircraft, Item, Chunks(fullOverview)).result
    ensures client.requests ==
      old(client.requests) + Build(client.endpoint, Aircraft, Item, Chunks(fullOverview)).requests
  {
    r := AppendP51Records(client, Chunks(fullOverview));
  }

  /** The id suffixes of the table, in order. */
  const P51Suffixes: seq<string> := [
    "general_info", "overview_full_text", "overview_concise", "armament_20mm_cannons",
    "armament_50cal_mg", "stats_speed", "stats_health", "category_membership"]

  /** The info types of the table, in order. */
  const P51InfoTypes: seq<InfoType> :=
    [GeneralInfo, OverviewFullText, OverviewSummary, Armament, Armament, Stats, Stats, CategoryMembership]

  /** The ids of the P-51 records, in the order they are appended: `p-51_mustang_` and the suffix. */
  const P51Ids: seq<string> := seq(8, i requires 0 <= i < 8 => "p-51_mustang_" + P51Suffixes[i])

  /** The table has the suffixes and info types above, whatever its full overview text. */
  lemma TableShape(fullOverview: string)
    ensures Suffixes(Chunks(fullOverview)) == P51Suffixes
    ensures ChunkInfoTypes(Chunks(fullOverview)) == P51InfoTypes
  {
  }

  /** Lower-casing and replacing spaces turns the item name into `p-51_mustang`: the hyphen stays. */
  lemma ItemSlug()
    ensures Slug(Item) == "p-51_mustang"
  {
    var s := Slug(Item);
    assert s[0] == 'p' && s[1] == '-' && s[2] == '5' && s[3] == '1' && s[4] == '_' && s[5] == 'm';
    assert s[6] == 'u' && s[7] == 's' && s[8] == 't' && s[9] == 'a' && s[10] == 'n' && s[11] == 'g';
  }

  /** Each id is the item's slug, an underscore and the chunk's suffix. */
  lemma IdsOfSuffixes()
    ensures forall i :: 0 <= i < 8 ==> MakeId(Item, P51Suffixes[i]) == P51Ids[i]
  {
    ItemSlug();
    assert Slug(Item) + "_" == "p-51_mustang_";
  }

  /** No two suffixes of the table are equal, so neither are two ids. */
  lemma SuffixesDistinct()
    ensures forall i, j :: 0 <= i < j < 8 ==> P51Suffixes[i] != P51Suffixes[j]
  {
  }

  /** `ParsedRecords` for any table with the P-51 suffixes and info types. */
  lemma TableRecords(endpoint: Request -> Reply, chunks: seq<Chunk>)
    requires Suffixes(chunks) == P51Suffixes && ChunkInfoTypes(chunks) == P51InfoTypes
    requires Build(endpoint, Aircraft, Item, chunks).result.Success?
    ensures var records := Build(endpoint, Aircraft, Item, chunks).result.value;
      && |records| == 8
      && Ids(records) == P51Ids
      && (forall i, j :: 0 <= i < j < |records| ==> records[i].id != records[j].id)
      && InfoTypes(records) == P51InfoTypes
      && (forall i :: 0 <= i < |records| ==>
            && records[i].metadata.entityType == "aircraft"
            && records[i].metadata.itemName == "P-51 Mustang"
            && records[i].textContent == chunks[i].text
            && Embed(endpoint, records[i].textContent, DefaultModel, DefaultDimensions)
                 == Success(records[i].values))
  {
    IdsOfSuffixes();
    SuffixesDistinct();
    RecordsFollowChunks(endpoint, Aircraft, Item, chunks);
  }

  /**
   * A successful parse returns eight records, in the table's order: their ids are `p-51_mustang_`
   * followed by the chunk's suffix and pairwise distinct, their info types are the fixed list,
   * each belongs to the aircraft `P-51 Mustang`, and each stores the text it embedded.
   */
  lemma ParsedRecords(endpoint: Request -> Reply, fullOverview: string)
    requires Build(endpoint, Aircraft, Item, Chunks(fullOverview)).result.Success?
    ensures var records := Build(endpoint, Aircraft, Item, Chunks(fullOverview)).result.value;
      && |records| == 8
      && Ids(records) == P51Ids
      && (forall i, j :: 0 <= i < j < |records| ==> records[i].id != records[j].id)
      && InfoTypes(records) == P51InfoTypes
      && (forall i :: 0 <= i < |records| ==>
            && records[i].metadata.entityType == "aircraft"
            && records[i].metadata.itemName == "P-51 Mustang"
            && records[i].textContent == Chunks(fullOverview)[i].text
            && Embed(endpoint, records[i].textContent, DefaultModel, DefaultDimensions)
                 == Success(records[i].values))
  {
    TableShape(fullOverview);
    TableRecords(endpoint, Chunks(fullOverview));
  }

  /**
   * The main block: the old JSON Lines file is removed, the page text is cleaned, the records
   * are parsed, saved to a fresh JSON Lines file and written back as a pretty array with the
   * embeddings replaced. An exception from the parse or from the pretty writer ends the block.
   * `page` is the text the block hard-codes, `PageContent`; the parse does not read it.
   */
  method RunMainBlock(
    fs: FileSystem, client: EmbeddingClient, page: string,
    dumps: Json -> string, loads: string -> Option<Json>, dump: Json -> seq<string>)
    returns (r: Result<(), Exception>)
    modifies fs, client
    ensures client.requests ==
      old(client.requests) + Build(client.endpoint, Aircraft, Item, Chunks(FullOverviewText)).requests
    ensures var parsed := Build(client.endpoint, Aircraft, Item, Chunks(FullOverviewText)).result;
      && (parsed.Failure? ==> r == Failure(parsed.error) && fs.files == old(fs.files) - {OutputJsonl})
      && (parsed.Success? ==>
            Written(r, fs.files) == SaveThenWrite(
              old(fs.files) - {OutputJsonl}, parsed.value, OutputJsonl, OutputPrettyJson, dumps, loads, dump))
  {
    fs.RemoveIfExists(OutputJsonl);
    var cleaned := CleanWebpage(page);
    var vectors :- ParseP51WebpageContent(client, cleaned, FullOverviewText);
    r := SaveAndWritePretty(fs, vectors, OutputJsonl, OutputPrettyJson, dumps, loads, dump);
  }
}
