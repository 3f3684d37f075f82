/**
 * The general script: its copy of `parse_p51_webpage_content` and its main block, which
 * parses the raw page and uses the helpers' default file names.
 */
module GameData {
  import opened Wrappers
  import opened Exceptions
  import opened Embedding
  import opened Records
  import opened Files
  import opened Sink
  import opened GameDataTexts
  import P51Data

  /**
   * `parse_p51_webpage_content` of the general script: the P-51 table with this script's own
   * full overview text, appended in the same order.
   */
  method ParseP51WebpageContent(client: EmbeddingClient, webpageText: string)
    returns (r: Result<seq<PineconeVector>, Exception>)
    modifies client
    ensures r == Build(client.endpoint, Aircraft, P51Data.Item, P51Data.Chunks(FullOverviewText)).result
    ensures client.requests ==
      old(client.requests) + Build(client.endpoint, Aircraft, P51Data.Item, P51Data.Chunks(FullOverviewText)).requests
  {
    r := P51Data.AppendP51Records(client, P51Data.Chunks(FullOverviewText));
  }

  /**
   * The two copies of the P-51 parser agree outside the full overview: when both succeed,
   * every record but the second is the same, and the second differs only in the text it
   * stores and its embedding.
   */
  lemma CopiesAgree(endpoint: Request -> Reply, overviewA: string, overviewB: string)
    requires Build(endpoint, Aircraft, P51Data.Item, P51Data.Chunks(overviewA)).result.Success?
    requires Build(endpoint, Aircraft, P51Data.Item, P51Data.Chunks(overviewB)).result.Success?
    ensures var a := Build(endpoint, Aircraft, P51Data.Item, P51Data.Chunks(overviewA)).result.value;
      var b := Build(endpoint, Aircraft, P51Data.Item, P51Data.Chunks(overviewB)).result.value;
      && |a| == |b| == 8
      && (forall i :: 0 <= i < 8 && i != 1 ==> a[i] == b[i])
      && a[1].id == b[1].id && a[1].metadata == b[1].metadata
      && a[1].textContent == overviewA && b[1].textContent == overviewB
  {
    var a, b := P51Data.Chunks(overviewA), P51Data.Chunks(overviewB);
    assert forall i :: 0 <= i < 8 && i != 1 ==> a[i] == b[i];
    assert a[1].(text := b[1].text) == b[1];
    BuildAgrees(endpoint, Aircraft, P51Data.Item, a, b);
  }

  /**
   * The main block: the default JSON Lines file is removed, the raw page is parsed without
   * cleaning, and the records are saved to the default file and written back as a pretty
   * array with the embeddings replaced. An exception from the parse or from the pretty writer
   * ends the block. `page` is the text the block hard-codes, `PageContent`.
   */
  method RunMainBlock(
    fs: FileSystem, client: EmbeddingClient, page: string,
    dumps: Json -> string, loads: string -> Option<Json>, dump: Json -> seq<string>)
    returns (r: Result<(), Exception>)
    modifies fs, client
    ensures client.requests ==
      old(client.requests) + Build(client.endpoint, Aircraft, P51Data.Item, P51Data.Chunks(FullOverviewText)).requests
    ensures var parsed := Build(client.endpoint, Aircraft, P51Data.Item, P51Data.Chunks(FullOverviewText)).result;
      && (parsed.Failure? ==> r == Failure(parsed.error) && fs.files == old(fs.files) - {DefaultJsonlPath})
      && (parsed.Success? ==>
            Written(r, fs.files) == SaveThenWrite(
              old(fs.files) - {DefaultJsonlPath}, parsed.value, DefaultJsonlPath, DefaultPrettyPath,
              dumps, loads, dump))
  {
    fs.RemoveIfExists(DefaultJsonlPath);
    var vectors :- ParseP51WebpageContent(client, page);
    r := SaveAndWritePretty(fs, vectors, DefaultJsonlPath, DefaultPrettyPath, dumps, loads, dump);
  }
}
