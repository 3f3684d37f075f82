/**
 * `parse_spitfire_webpage_content` and the main block of the Spitfire script. Like the P-51
 * parser it never reads the page it is given: its ten records are fixed, and only their
 * embeddings come from the service.
 */
module SpitfireData {
  import opened Wrappers
  import opened Exceptions
  import opened Embedding
  import opened Records
  import opened Files
  import opened Sink
  import opened Cleaning
  import opened SpitfireTexts

  const Item: string := "Spitfire"
  const OutputJsonl: string := "pinecone_spitfire_vectors.jsonl"
  const OutputPrettyJson: string := "pinecone_spitfire_vectors_pretty.json"

  /**
   * The chunks the parser appends, in order. Of the metadata beyond the info type only the
   * integer fields of the general information and the weapon counts are kept.
   */
  const Table: seq<Chunk> := [
    // process_spitfire_data.py:184-201
    Chunk("general_info", GeneralInfoText, GeneralInfo, map[
        "unlock_level" := Int(20),
        "hangar_access_rebirth_level" := Int(7),
        "seating_capacity" := Int(1),
        "hulls" := Int(1),
        "weapons_count" := Int(1),
        "engines_count" := Int(1)]),
    // process_spitfire_data.py:245-255
    Chunk("overview_full_text", FullOverviewText, OverviewFullText, map[]),
    // process_spitfire_data.py:265-278
    Chunk("overview_concise", ConciseOverviewText, OverviewSummary, map[]),
    // process_spitfire_data.py:282-295
    Chunk("armament_20mm_cannons", CannonsArmamentText, Armament, map["count" := Int(2)]),
    // process_spitfire_data.py:299-311
    Chunk("armament_303_browning_mg", MachineGunArmamentText, Armament, map["count" := Int(4)]),
    // process_spitfire_data.py:315-332
    Chunk("stats_speed", SpeedText, Stats, map[]),
    // process_spitfire_data.py:336-353
    Chunk("stats_health", HealthText, Stats, map[]),
    // process_spitfire_data.py:357-375
    Chunk("stats_firepower_20mm_cannons", Firepower20mmText, Stats, map[]),
    // process_spitfire_data.py:379-397
    Chunk("stats_firepower_303_mg", Firepower303Text, Stats, map[]),
    // process_spitfire_data.py:401-411
    Chunk("category_membership", CategoryText, CategoryMembership, map[])
  ]

  /**
   * The ten appends of `parse_spitfire_webpage_content`, one per chunk of its table, each
   * embedding the chunk's text; an exception from the service ends the parse.
   */
  method AppendSpitfireRecords(client: EmbeddingClient, chunks: seq<Chunk>)
    returns (r: Result<seq<PineconeVector>, Exception>)
    requires |chunks| == 10
    modifies client
    ensures r == Build(client.endpoint, Aircraft, Item, chunks).result
    ensures client.requests == old(client.requests) + Build(client.endpoint, Aircraft, Item, chunks).requests
  {
    ghost var plan := BuildStart(client.endpoint, Aircraft, Item, chunks);
    ghost var goal := plan[0];
    PrefixedNothing(goal);
    ghost var base := client.requests;
    var processed: seq<PineconeVector> := [];
    ghost var sent: seq<Request> := [];
    assert base + [] == base;
    // Chunk 1: general information
    processed, sent :- AppendNext(client, Aircraft, Item, chunks, 0, processed, plan, base, sent, goal);
    // Chunk 2: full overview text
    processed, sent :- AppendNext(client, Aircraft, Item, chunks, 1, processed, plan, base, sent, goal);
    // Chunk 3: concise overview
    processed, sent :- AppendNext(client, Aircraft, Item, chunks, 2, processed, plan, base, sent, goal);
    // Chunk 4: 20mm cannons
    processed, sent :- AppendNext(client, Aircraft, Item, chunks, 3, processed, plan, base, sent, goal);
    // Chunk 5: .303 Browning machine guns
    processed, sent :- AppendNext(client, Aircraft, Item, chunks, 4, processed, plan, base, sent, goal);
    // Chunk 6: speed statistics
    processed, sent :- AppendNext(client, Aircraft, Item, chunks, 5, processed, plan, base, sent, goal);
    // Chunk 7: health statistics
    processed, sent :- AppendNext(client, Aircraft, Item, chunks, 6, processed, plan, base, sent, goal);
    // Chunk 8: 20mm cannon firepower
    processed, sent :- AppendNext(client, Aircraft, Item, chunks, 7, processed, plan, base, sent, goal);
    // Chunk 9: .303 machine gun firepower
    processed, sent :- AppendNext(client, Aircraft, Item, chunks, 8, processed, plan, base, sent, goal);
    // Chunk 10: category membership
    processed, sent :- AppendNext(client, Aircraft, Item, chunks, 9, processed, plan, base, sent, goal);
    BuildDone(client.endpoint, Aircraft, Item, chunks, plan, processed, sent);
    return Success(processed);
  }

  /**
   * `parse_spitfire_webpage_content(webpage_text)`: the appends over the fixed table. What it
   * returns or raises, and what it sends, do not depend on `webpageText`.
   */
  method ParseSpitfireWebpageContent(client: EmbeddingClient, webpageText: string)
    returns (r: Result<seq<PineconeVector>, Exception>)
    modifies client
    ensures r == Build(client.endpoint, Aircraft, Item, Table).result
    ensures client.requests == old(client.requests) + Build(client.endpoint, Aircraft, Item, Table).requests
  {
    r := AppendSpitfireRecords(client, Table);
  }

  /** The id suffixes of the table, in order. */
  const SpitfireSuffixes: seq<string> := [
    "general_info", "overview_full_text", "overview_concise", "armament_20mm_cannons",
    "armament_303_browning_mg", "stats_speed", "stats_health", "stats_firepower_20mm_cannons",
    "stats_firepower_303_mg", "category_membership"]

  /** The info types of the table, in order. */
  const SpitfireInfoTypes: seq<InfoType> := [
    GeneralInfo, OverviewFullText, OverviewSummary, Armament, Armament,
    Stats, Stats, Stats, Stats, CategoryMembership]

  /** The ids of the Spitfire records, in the order they are appended: `spitfire_` and the suffix. */
  const SpitfireIds: seq<string> := seq(10, i requires 0 <= i < 10 => "spitfire_" + SpitfireSuffixes[i])

  /** The table has the suffixes and info types above. */
  lemma TableShape()
    ensures Suffixes(Table) == SpitfireSuffixes
    ensures ChunkInfoTypes(Table) == SpitfireInfoTypes
  {
  }

  /** Lower-casing turns the item name into `spitfire`. */
  lemma ItemSlug()
    ensures Slug(Item) == "spitfire"
  {
    var s := Slug(Item);
    assert s[0] == 's' && s[1] == 'p' && s[2] == 'i' && s[3] == 't';
    assert s[4] == 'f' && s[5] == 'i' && s[6] == 'r' && s[7] == 'e';
  }

  /** Each id is the item's slug, an underscore and the chunk's suffix. */
  lemma IdsOfSuffixes()
    ensures forall i :: 0 <= i < 10 ==> MakeId(Item, SpitfireSuffixes[i]) == SpitfireIds[i]
  {
    ItemSlug();
    assert Slug(Item) + "_" == "spitfire_";
  }

  /** No two suffixes of the table are equal, so neither are two ids. */
  lemma SuffixesDistinct()
    ensures forall i, j :: 0 <= i < j < 10 ==> SpitfireSuffixes[i] != SpitfireSuffixes[j]
  {
  }

  /**
   * A successful parse returns ten records, in the table's order: their ids are `spitfire_`
   * followed by the chunk's suffix and pairwise distinct, their info types are the fixed list,
   * each belongs to the aircraft `Spitfire`, and each stores the text it embedded.
   */
  lemma ParsedRecords(endpoint: Request -> Reply)
    requires Build(endpoint, Aircraft, Item, Table).result.Success?
    ensures var records := Build(endpoint, Aircraft, Item, Table).result.value;
      && |records| == 10
      && Ids(records) == SpitfireIds
      && (forall i, j :: 0 <= i < j < |records| ==> records[i].id != records[j].id)
      && InfoTypes(records) == SpitfireInfoTypes
      && (forall i :: 0 <= i < |records| ==>
            && records[i].metadata.entityType == "aircraft"
            && records[i].metadata.itemName == "Spitfire"
            && records[i].textContent == Table[i].text
            && Embed(endpoint, records[i].textContent, DefaultModel, DefaultDimensions)
                 == Success(records[i].values))
  {
    TableShape();
    IdsOfSuffixes();
    SuffixesDistinct();
    RecordsFollowChunks(endpoint, Aircraft, Item, Table);
  }

  /**
   * The main block: the old JSON Lines file is removed, the page text is cleaned, the records
   * are parsed, saved to a fresh JSON Lines file and written back as a pretty array with the
   * embeddings replaced. An exception from the parse or from the pretty writer ends the block.
   * `page` is the text the block hard-codes, `PageContent`; the parse does not read it.
   */
  method RunMainBlock(
    fs: FileSystem, client: EmbeddingClient, page: string,
    dumps: Json -> string, loads: string -> Option<Json>, dump: Json -> seq<string>)
    returns (r: Result<(), Exception>)
    modifies fs, client
    ensures client.requests == old(client.requests) + Build(client.endpoint, Aircraft, Item, Table).requests
    ensures var parsed := Build(client.endpoint, Aircraft, Item, Table).result;
      && (parsed.Failure? ==> r == Failure(parsed.error) && fs.files == old(fs.files) - {OutputJsonl})
      && (parsed.Success? ==>
            Written(r, fs.files) == SaveThenWrite(
              old(fs.files) - {OutputJsonl}, parsed.value, OutputJsonl, OutputPrettyJson, dumps, loads, dump))
  {
    fs.RemoveIfExists(OutputJsonl);
    var cleaned := CleanWebpage(page);
    var vectors :- ParseSpitfireWebpageContent(client, cleaned);
    r := SaveAndWritePretty(fs, vectors, OutputJsonl, OutputPrettyJson, dumps, loads, dump);
  }
}
