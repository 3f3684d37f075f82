/**
 * `parse_mig29_webpage_content` and the main block of the MiG-29 Fulcrum script. Unlike the
 * other parsers this one reads its page: three regular-expression searches supply the
 * general-information metadata (with fallbacks when the search fails), the full overview text
 * and the history text. The remaining records are fixed.
 */
module Mig29Data {
  import opened Wrappers
  import opened Text
  import opened Exceptions
  import opened Embedding
  import opened Records
  import opened Files
  import opened Sink
  import opened Cleaning
  import opened Mig29Texts

  const Item: string := "MiG-29 Fulcrum"
  const OutputJsonl: string := "pinecone_mig29_vectors.jsonl"
  const OutputPrettyJson: string := "pinecone_mig29_vectors_pretty.json"

  // ---------------------------------------------------------------------------------------
  // The general-information search

  /**
   * The groups of the general-information pattern the record uses: the price digits with
   * their commas, the four speed and health displays, and the four `\d+` counts, given as
   * their values.
   */
  datatype GeneralCaptures = GeneralCaptures(
    price: string, minSpeed: string, maxSpeed: string, minHealth: string, maxHealth: string,
    seating: nat, hulls: nat, weapons: nat, engines: nat)

  /** The sentence the general-information pattern begins with. */
  const GeneralOpening: string :=
    "The Mikoyan-Gurevich " + "MiG-29 Fulcrum is a " + "Soviet-Era multi-role "
    + "fighter jet used " + "primarily by the " + "Russian Air Force."

  /**
   * The general-information search: it can only match where its opening sentence occurs;
   * whether the rest of the pattern matches, and what it captures, is `capture`.
   */
  function SearchGeneral(s: string, capture: string -> Option<GeneralCaptures>): Option<GeneralCaptures> {
    if IndexOf(s, GeneralOpening).Some? then capture(s) else None
  }

  /** `int(price_str) if price_str.isdigit() else None`. */
  function PriceField(priceStr: string): Field {
    if IsDigits(priceStr) then Int(DecimalValue(priceStr)) else Null
  }

  /** The price of a matched search: its commas are removed, then it is read as above. */
  function CapturedPrice(price: string): Field {
    PriceField(ReplaceChar(price, ',', ""))
  }

  /**
   * The metadata of the general-information record beyond the fixed keys: the captured values
   * (commas removed from the price, the displays stripped) when the search matched, and the
   * literal fallbacks when it did not.
   */
  function GeneralFields(m: Option<GeneralCaptures>): map<string, Field> {
    var price := if m.Some? then CapturedPrice(m.value.price) else PriceField("850000");
    var minSpeed := if m.Some? then Strip(m.value.minSpeed) else "275";
    var maxSpeed := if m.Some? then Strip(m.value.maxSpeed) else "[TBA]";
    var minHealth := if m.Some? then Strip(m.value.minHealth) else "680";
    var maxHealth := if m.Some? then Strip(m.value.maxHealth) else "884";
    var seating := if m.Some? then m.value.seating else 2;
    var hulls := if m.Some? then m.value.hulls else 1;
    var weapons := if m.Some? then m.value.weapons else 2;
    var engines := if m.Some? then m.value.engines else 1;
    map[
      "price" := price,
      "hangar_access_rebirth_level" := Int(7),
      "seating_capacity" := Int(seating),
      "hulls" := Int(hulls),
      "weapons_count" := Int(weapons),
      "engines_count" := Int(engines),
      "speed_min_display" := Str(minSpeed),
      "speed_max_display" := Str(maxSpeed),
      "health_min_display" := Str(minHealth),
      "health_max_display" := Str(maxHealth)]
  }

  /** The fields of the general-information record when the search fails. */
  const FallbackFields: map<string, Field> := map[
    "price" := Int(850000),
    "hangar_access_rebirth_level" := Int(7),
    "seating_capacity" := Int(2),
    "hulls" := Int(1),
    "weapons_count" := Int(2),
    "engines_count" := Int(1),
    "speed_min_display" := Str("275"),
    "speed_max_display" := Str("[TBA]"),
    "health_min_display" := Str("680"),
    "health_max_display" := Str("884")]

  /**
   * Every failed search gets the fallbacks, and a page without the opening sentence fails,
   * whatever `capture` says.
   */
  lemma GeneralFallbacks(s: string, capture: string -> Option<GeneralCaptures>)
    ensures GeneralFields(None) == FallbackFields
    ensures !Contains(s, GeneralOpening) ==> SearchGeneral(s, capture).None?
  {
    assert DecimalValue("850000") == 850000 by {
      assert "850000"[..5] == "85000" && "85000"[..4] == "8500" && "8500"[..3] == "850";
      assert "850"[..2] == "85" && "85"[..1] == "8" && "8"[..0] == "";
    }
  }

  /**
   * When the search matched, the price is its commas-removed capture read as a number, or
   * `None` exactly when that text is not all digits.
   */
  lemma MatchedPrice(m: GeneralCaptures)
    ensures var digits := ReplaceChar(m.price, ',', "");
      && (GeneralFields(Some(m))["price"] == Null <==> !IsDigits(digits))
      && (IsDigits(digits) ==> GeneralFields(Some(m))["price"] == Int(DecimalValue(digits)))
  {
  }

  /**
   * A price captured by `([0-9,]+)` is the number its digits spell once the commas are
   * removed; a capture of commas alone leaves no digits, and the price is `None`.
   */
  lemma CapturedPriceValue(price: string)
    requires |price| > 0
    requires forall i :: 0 <= i < |price| ==> IsAsciiDigit(price[i]) || price[i] == ','
    ensures IsDigits(ReplaceChar(price, ',', "")) <==> exists i :: 0 <= i < |price| && IsAsciiDigit(price[i])
    ensures (exists i :: 0 <= i < |price| && IsAsciiDigit(price[i])) ==>
      CapturedPrice(price) == Int(DecimalValue(ReplaceChar(price, ',', "")))
    ensures (forall i :: 0 <= i < |price| ==> price[i] == ',') ==> CapturedPrice(price) == Null
  {
    CommasRemoved(price);
  }

  /**
   * Removing the commas from a text of digits and commas leaves digits only, and leaves some
   * exactly when there was a digit.
   */
  lemma {:induction false} CommasRemoved(price: string)
    requires forall i :: 0 <= i < |price| ==> IsAsciiDigit(price[i]) || price[i] == ','
    ensures var digits := ReplaceChar(price, ',', "");
      && (forall i :: 0 <= i < |digits| ==> IsAsciiDigit(digits[i]))
      && (|digits| > 0 <==> exists i :: 0 <= i < |price| && IsAsciiDigit(price[i]))
  {
    if price != [] {
      var tail := price[1..];
      assert forall i :: 0 <= i < |tail| ==> tail[i] == price[i + 1];
      CommasRemoved(tail);
      if exists i :: 0 <= i < |price| && IsAsciiDigit(price[i]) {
        var i :| 0 <= i < |price| && IsAsciiDigit(price[i]);
        if i > 0 {
          assert IsAsciiDigit(tail[i - 1]);
        }
      }
    }
  }

  // ---------------------------------------------------------------------------------------
  // The overview search

  const OverviewHeader: string := "Overview\nMiG-29 Fulcrum\n"
  const GeneralHeading: string := "General Information"
  const OverviewOpening: string :=
    "The Mikoyan-Gurevich " + "MiG-29 Fulcrum is " + "known for its role as "
    + "an early-game fighter " + "jet within War Tycoon."

  /** The lookahead that ends the overview group: `History` or `Stats` on a line of its own. */
  predicate OverviewStop(t: string) {
    StartsWith(t, "History\n") || StartsWith(t, "Stats\n")
  }

  /**
   * Where the group of a search shaped like the overview search lies, if it matches: `header`,
   * a lazy gap, `heading`, a lazy gap, `opening`, then the lazy group up to the lookahead
   * `stop`. The gaps take the first heading after the first header and the first opening after
   * that, and the group runs to the nearest stop. Trying a later header, heading or opening
   * cannot succeed where the first failed, since each later choice only sees a suffix of the
   * text the first one saw.
   */
  function AnchoredSpan(s: string, header: string, heading: string, opening: string, stop: string -> bool)
    : (r: Option<(nat, nat)>)
    ensures r.Some? ==> r.value.0 <= r.value.1 <= |s|
  {
    match IndexOf(s, header)
    case None => None
    case Some(h) =>
      match IndexFrom(s, heading, h + |header|)
      case None => None
      case Some(g) =>
        match IndexFrom(s, opening, g + |heading|)
        case None => None
        case Some(a) =>
          match FirstWhere(s, a + |opening|, stop)
          case None => None
          case Some(hi) => Some((a + |opening|, hi))
  }

  /**
   * The anchors a match starting at `lo` uses: `h` is the first header, `g` the first heading
   * after it, and the opening ending at `lo` is the first opening after that.
   */
  ghost predicate FirstAnchors(s: string, header: string, heading: string, opening: string, h: nat, g: nat, lo: nat) {
    && OccursAt(s, header, h) && (forall j: nat :: j < h ==> !OccursAt(s, header, j))
    && h + |header| <= g && OccursAt(s, heading, g)
    && (forall j: nat :: h + |header| <= j < g ==> !OccursAt(s, heading, j))
    && g + |heading| + |opening| <= lo && OccursAt(s, opening, lo - |opening|)
    && (forall j: nat :: g + |heading| <= j < lo - |opening| ==> !OccursAt(s, opening, j))
  }

  /**
   * A match follows the first opening after the first heading after the first header, and ends
   * at the nearest stop after it; no match is found in a text without the header.
   */
  lemma AnchoredSpanMeaning(s: string, header: string, heading: string, opening: string, stop: string -> bool)
    ensures !Contains(s, header) ==> AnchoredSpan(s, header, heading, opening, stop).None?
    ensures AnchoredSpan(s, header, heading, opening, stop).Some? ==>
      var (lo, hi) := AnchoredSpan(s, header, heading, opening, stop).value;
      && lo >= |opening|
      && OccursAt(s, opening, lo - |opening|)
      && (exists h: nat, g: nat :: FirstAnchors(s, header, heading, opening, h, g, lo))
      && stop(s[hi..])
      && forall j :: lo <= j < hi ==> !stop(s[j..])
  {
    var r := AnchoredSpan(s, header, heading, opening, stop);
    if r.Some? {
      var h := IndexOf(s, header).value;
      var g := IndexFrom(s, heading, h + |header|).value;
      var a := IndexFrom(s, opening, g + |heading|).value;
      assert r.value.0 == a + |opening|;
      assert FirstAnchors(s, header, heading, opening, h, g, a + |opening|);
      FirstWhereNearest(s, a + |opening|, stop);
    }
  }

  /**
   * Whenever the text holds the header, later the heading, later the opening and later a
   * position where the stop holds, the search matches.
   */
  lemma AnchoredSpanComplete(
    s: string, header: string, heading: string, opening: string, stop: string -> bool,
    h: nat, g: nat, a: nat, j: nat)
    requires OccursAt(s, header, h) && h + |header| <= g
    requires OccursAt(s, heading, g) && g + |heading| <= a
    requires OccursAt(s, opening, a) && a + |opening| <= j <= |s| && stop(s[j..])
    ensures AnchoredSpan(s, header, heading, opening, stop).Some?
  {
    var h' := IndexOf(s, header).value;
    assert h' <= h;
    var g' := IndexFrom(s, heading, h' + |header|).value;
    assert g' <= g;
    var a' := IndexFrom(s, opening, g' + |heading|).value;
    assert a' <= a;
    FirstWhereNearest(s, a' + |opening|, stop);
  }

  /** Where group 1 of the overview search lies, if the search matches. */
  function OverviewSpan(s: string): (r: Option<(nat, nat)>)
    ensures r.Some? ==> r.value.0 <= r.value.1 <= |s|
  {
    AnchoredSpan(s, OverviewHeader, GeneralHeading, OverviewOpening, OverviewStop)
  }

  /** `overview_text_match.group(1).strip() if overview_text_match else ""`. */
  function OverviewText(s: string): string {
    match OverviewSpan(s)
    case None => ""
    case Some((lo, hi)) => Strip(s[lo..hi])
  }

  /**
   * A match of the overview search follows the first opening sentence after the first
   * `General Information` after the first header, and ends at the nearest stop after it; no
   * match is found in a text without the header.
   */
  lemma OverviewSpanMeaning(s: string)
    ensures !Contains(s, OverviewHeader) ==> OverviewSpan(s).None?
    ensures OverviewSpan(s).Some? ==>
      var (lo, hi) := OverviewSpan(s).value;
      && lo >= |OverviewOpening|
      && OccursAt(s, OverviewOpening, lo - |OverviewOpening|)
      && (exists h: nat, g: nat ::
            FirstAnchors(s, OverviewHeader, GeneralHeading, OverviewOpening, h, g, lo))
      && OverviewStop(s[hi..])
      && forall j :: lo <= j < hi ==> !OverviewStop(s[j..])
  {
    AnchoredSpanMeaning(s, OverviewHeader, GeneralHeading, OverviewOpening, OverviewStop);
  }

  /**
   * The overview search matches whenever the text holds the header, later `General
   * Information`, later the opening sentence, and later `History\n` or `Stats\n`.
   */
  lemma OverviewSpanComplete(s: string, h: nat, g: nat, a: nat, j: nat)
    requires OccursAt(s, OverviewHeader, h) && h + |OverviewHeader| <= g
    requires OccursAt(s, GeneralHeading, g) && g + |GeneralHeading| <= a
    requires OccursAt(s, OverviewOpening, a) && a + |OverviewOpening| <= j <= |s| && OverviewStop(s[j..])
    ensures OverviewSpan(s).Some?
  {
    AnchoredSpanComplete(s, OverviewHeader, GeneralHeading, OverviewOpening, OverviewStop, h, g, a, j);
  }

  // ---------------------------------------------------------------------------------------
  // The history search

  const HistoryOpening: string := "During the Vietnam war, it was clear to the USAF"

  /**
   * The lookahead that ends the history group: `Stats` followed by `Firepower` on the next
   * line, `Speed` or `Health` on a line of their own, or the end of the text (`$` also
   * matches before a final line break).
   */
  predicate HistoryStop(t: string) {
    StartsWith(t, "Stats\nFirepower") || StartsWith(t, "Speed\n") || StartsWith(t, "Health\n")
    || t == "" || t == "\n"
  }

  /**
   * Where group 1 of the history search lies: from the first opening sentence to the nearest
   * stop after it.
   */
  function HistorySpan(s: string): (r: Option<(nat, nat)>)
    ensures r.Some? ==> r.value.0 <= r.value.1 <= |s|
  {
    match IndexOf(s, HistoryOpening)
    case None => None
    case Some(a) =>
      match FirstWhere(s, a + |HistoryOpening|, HistoryStop)
      case None => None
      case Some(hi) => Some((a, hi))
  }

  /** `history_content_match.group(1).strip() if history_content_match else ""`. */
  function HistoryText(s: string): string {
    match HistorySpan(s)
    case None => ""
    case Some((lo, hi)) => Strip(s[lo..hi])
  }

  /**
   * The history search matches exactly when the opening sentence occurs (the end of the text
   * always satisfies the lookahead); the group then starts at the first occurrence and ends
   * at the nearest stop after the sentence.
   */
  lemma HistorySpanMeaning(s: string)
    ensures HistorySpan(s).Some? <==> Contains(s, HistoryOpening)
    ensures HistorySpan(s).Some? ==>
      var (lo, hi) := HistorySpan(s).value;
      && OccursAt(s, HistoryOpening, lo)
      && (forall j: nat :: j < lo ==> !OccursAt(s, HistoryOpening, j))
      && lo + |HistoryOpening| <= hi
      && HistoryStop(s[hi..])
      && forall j :: lo + |HistoryOpening| <= j < hi ==> !HistoryStop(s[j..])
  {
    var first := IndexOf(s, HistoryOpening);
    if first.Some? {
      var a := first.value;
      FirstWhereNearest(s, a + |HistoryOpening|, HistoryStop);
      assert HistoryStop(s[|s|..]);
    }
  }

  // ---------------------------------------------------------------------------------------
  // The parse

  /** The chunks the parser appends for `webpageText`, in order. */
  function Chunks(webpageText: string, capture: string -> Option<GeneralCaptures>): seq<Chunk> {
    [
      // rocess_mig29_data.py:214-237
      Chunk("general_info", GeneralInfoText, GeneralInfo, GeneralFields(SearchGeneral(webpageText, capture))),
      // rocess_mig29_data.py:247-257
      Chunk("overview_full_text", OverviewText(webpageText), OverviewFullText, map[]),
      // rocess_mig29_data.py:269-294
      Chunk("overview_concise", ConciseOverviewText, OverviewSummary, map[]),
      // rocess_mig29_data.py:298-313
      Chunk("armament_30mm_autocannon", AutocannonText, Armament, map["count" := Int(1)]),
      // rocess_mig29_data.py:317-330
      Chunk("armament_air_to_air_missiles", MissilesText, Armament, map["count" := Int(6)]),
      // rocess_mig29_data.py:334-351
      Chunk("stats_speed", SpeedText, Stats, map[]),
      // rocess_mig29_data.py:355-372
      Chunk("stats_health", HealthText, Stats, map[]),
      // rocess_mig29_data.py:388-400
      Chunk("history", HistoryText(webpageText), History, map[]),
      // rocess_mig29_data.py:404-414
      Chunk("category_membership", CategoryText, CategoryMembership, map[])
    ]
  }

  /**
   * The nine appends of `parse_mig29_webpage_content`, one per chunk, each embedding the
   * chunk's text; an exception from the service ends the parse.
   */
  method AppendMig29Records(client: EmbeddingClient, chunks: seq<Chunk>)
    returns (r: Result<seq<PineconeVector>, Exception>)
    requires |chunks| == 9
    modifies client
    ensures r == Build(client.endpoint, Aircraft, Item, chunks).result
    ensures client.requests == old(client.requests) + Build(client.endpoint, Aircraft, Item, chunks).requests
  {
    ghost var plan := BuildStart(client.endpoint, Aircraft, Item, chunks);
    ghost var goal := plan[0];
    PrefixedNothing(goal);
    ghost var base := client.requests;
    var processed: seq<PineconeVector> := [];
    ghost var sent: seq<Request> := [];
    assert base + [] == base;
    // Chunk 1: general information
    processed, sent :- AppendNext(client, Aircraft, Item, chunks, 0, processed, plan, base, sent, goal);
    // Chunk 2: full overview text
    processed, sent :- AppendNext(client, Aircraft, Item, chunks, 1, processed, plan, base, sent, goal);
    // Chunk 3: concise overview
    processed, sent :- AppendNext(client, Aircraft, Item, chunks, 2, processed, plan, base, sent, goal);
    // Chunk 4: 30mm autocannon
    processed, sent :- AppendNext(client, Aircraft, Item, chunks, 3, processed, plan, base, sent, goal);
    // Chunk 5: air-to-air missiles
    processed, sent :- AppendNext(client, Aircraft, Item, chunks, 4, processed, plan, base, sent, goal);
    // Chunk 6: speed statistics
    processed, sent :- AppendNext(client, Aircraft, Item, chunks, 5, processed, plan, base, sent, goal);
    // Chunk 7: health statistics
    processed, sent :- AppendNext(client, Aircraft, Item, chunks, 6, processed, plan, base, sent, goal);
    // Chunk 8: history
    processed, sent :- AppendNext(client, Aircraft, Item, chunks, 7, processed, plan, base, sent, goal);
    // Chunk 9: category membership
    processed, sent :- AppendNext(client, Aircraft, Item, chunks, 8, processed, plan, base, sent, goal);
    BuildDone(client.endpoint, Aircraft, Item, chunks, plan, processed, sent);
    return Success(processed);
  }

  /**
   * `parse_mig29_webpage_content(webpage_text)`: the three searches on the page, then the
   * nine appends.
   */
  method ParseMig29WebpageContent(
    client: EmbeddingClient, webpageText: string, capture: string -> Option<GeneralCaptures>)
    returns (r: Result<seq<PineconeVector>, Exception>)
    modifies client
    ensures r == Build(client.endpoint, Aircraft, Item, Chunks(webpageText, capture)).result
    ensures client.requests ==
      old(client.requests) + Build(client.endpoint, Aircraft, Item, Chunks(webpageText, capture)).requests
  {
    r := AppendMig29Records(client, Chunks(webpageText, capture));
  }

  /** The id suffixes of the table, in order. */
  const Mig29Suffixes: seq<string> := [
    "general_info", "overview_full_text", "overview_concise", "armament_30mm_autocannon",
    "armament_air_to_air_missiles", "stats_speed", "stats_health", "history", "category_membership"]

  /** The info types of the table, in order. */
  const Mig29InfoTypes: seq<InfoType> := [
    GeneralInfo, OverviewFullText, OverviewSummary, Armament, Armament, Stats, Stats, History,
    CategoryMembership]

  /** The ids of the MiG-29 records, in the order they are appended: `mig-29_fulcrum_` and the suffix. */
  const Mig29Ids: seq<string> := seq(9, i requires 0 <= i < 9 => "mig-29_fulcrum_" + Mig29Suffixes[i])

  /** Whatever the page, the table has the suffixes and info types above. */
  lemma TableShape(webpageText: string, capture: string -> Option<GeneralCaptures>)
    ensures Suffixes(Chunks(webpageText, capture)) == Mig29Suffixes
    ensures ChunkInfoTypes(Chunks(webpageText, capture)) == Mig29InfoTypes
  {
  }

  /** Lower-casing and replacing the space turns the item name into `mig-29_fulcrum`. */
  lemma ItemSlug()
    ensures Slug(Item) == "mig-29_fulcrum"
  {
    var s := Slug(Item);
    assert s[0] == 'm' && s[1] == 'i' && s[2] == 'g' && s[3] == '-' && s[4] == '2' && s[5] == '9' && s[6] == '_';
    assert s[7] == 'f' && s[8] == 'u' && s[9] == 'l' && s[10] == 'c' && s[11] == 'r' && s[12] == 'u' && s[13] == 'm';
  }

  /** Each id is the item's slug, an underscore and the chunk's suffix. */
  lemma IdsOfSuffixes()
    ensures forall i :: 0 <= i < 9 ==> MakeId(Item, Mig29Suffixes[i]) == Mig29Ids[i]
  {
    ItemSlug();
    assert Slug(Item) + "_" == "mig-29_fulcrum_";
  }

  /** No two suffixes of the table are equal, so neither are two ids. */
  lemma SuffixesDistinct()
    ensures forall i, j :: 0 <= i < j < 9 ==> Mig29Suffixes[i] != Mig29Suffixes[j]
  {
  }

  /** `ParsedRecords` for any table with the MiG-29 suffixes and info types. */
  lemma TableRecords(endpoint: Request -> Reply, chunks: seq<Chunk>)
    requires Suffixes(chunks) == Mig29Suffixes && ChunkInfoTypes(chunks) == Mig29InfoTypes
    requires Build(endpoint, Aircraft, Item, chunks).result.Success?
    ensures var records := Build(endpoint, Aircraft, Item, chunks).result.value;
      && |records| == 9
      && Ids(records) == Mig29Ids
      && (forall i, j :: 0 <= i < j < |records| ==> records[i].id != records[j].id)
      && InfoTypes(records) == Mig29InfoTypes
      && (forall i :: 0 <= i < |records| ==>
            && records[i].metadata.entityType == "aircraft"
            && records[i].metadata.itemName == "MiG-29 Fulcrum"
            && records[i].metadata.fields == chunks[i].fields
            && records[i].textContent == chunks[i].text
            && Embed(endpoint, records[i].textContent, DefaultModel, DefaultDimensions)
                 == Success(records[i].values))
  {
    IdsOfSuffixes();
    SuffixesDistinct();
    RecordsFollowChunks(endpoint, Aircraft, Item, chunks);
  }

  /**
   * Whatever the page, a successful parse returns nine records in the table's order, with
   * distinct ids `mig-29_fulcrum_` followed by the suffix; the general record carries the
   * fields of the general search, the second the overview found on the page and the eighth
   * the history found on the page.
   */
  lemma ParsedRecords(endpoint: Request -> Reply, webpageText: string, capture: string -> Option<GeneralCaptures>)
    requires Build(endpoint, Aircraft, Item, Chunks(webpageText, capture)).result.Success?
    ensures var records := Build(endpoint, Aircraft, Item, Chunks(webpageText, capture)).result.value;
      && |records| == 9
      && Ids(records) == Mig29Ids
      && (forall i, j :: 0 <= i < j < |records| ==> records[i].id != records[j].id)
      && InfoTypes(records) == Mig29InfoTypes
      && (forall i :: 0 <= i < |records| ==>
            && records[i].metadata.entityType == "aircraft"
            && records[i].metadata.itemName == "MiG-29 Fulcrum"
            && Embed(endpoint, records[i].textContent, DefaultModel, DefaultDimensions)
                 == Success(records[i].values))
      && records[0].metadata.fields == GeneralFields(SearchGeneral(webpageText, capture))
      && records[1].textContent == OverviewText(webpageText)
      && records[7].textContent == HistoryText(webpageText)
  {
    TableShape(webpageText, capture);
    TableRecords(endpoint, Chunks(webpageText, capture));
  }

  // ---------------------------------------------------------------------------------------
  // The main block

  /**
   * The main block: the old JSON Lines file is removed, the page is put through the MiG-29
   * cleaning chain, parsed, saved to a fresh JSON Lines file and written back as a pretty array
   * with the embeddings replaced. An exception from the parse or from the pretty writer ends
   * the block. `page` is the text the block hard-codes, `PageContent`.
   */
  method RunMainBlock(
    fs: FileSystem, client: EmbeddingClient, page: string, capture: string -> Option<GeneralCaptures>,
    dumps: Json -> string, loads: string -> Option<Json>, dump: Json -> seq<string>)
    returns (r: Result<(), Exception>)
    modifies fs, client
    ensures client.requests ==
      old(client.requests) + Build(client.endpoint, Aircraft, Item, Chunks(CleanMig29Page(page), capture)).requests
    ensures var parsed := Build(client.endpoint, Aircraft, Item, Chunks(CleanMig29Page(page), capture)).result;
      && (parsed.Failure? ==> r == Failure(parsed.error) && fs.files == old(fs.files) - {OutputJsonl})
      && (parsed.Success? ==>
            Written(r, fs.files) == SaveThenWrite(
              old(fs.files) - {OutputJsonl}, parsed.value, OutputJsonl, OutputPrettyJson, dumps, loads, dump))
  {
    fs.RemoveIfExists(OutputJsonl);
    var cleaned := CleanMig29Page(page);
    var vectors :- ParseMig29WebpageContent(client, cleaned, capture);
    r := SaveAndWritePretty(fs, vectors, OutputJsonl, OutputPrettyJson, dumps, loads, dump);
  }

  /**
   * What the parser sees of an empty page: every search fails, so the general record gets the
   * fallbacks and the overview and history records embed the empty text.
   */
  lemma EmptyPageChunks(capture: string -> Option<GeneralCaptures>)
    ensures Chunks("", capture)[0].fields == FallbackFields
    ensures Chunks("", capture)[1].text == "" && Chunks("", capture)[7].text == ""
  {
    GeneralFallbacks("", capture);
  }

  /**
   * On an empty page, a successful parse stores the fallback fields in the general record,
   * and the empty text and the empty vector in the overview and history records: neither
   * sends a request.
   */
  lemma EmptyPageRecords(endpoint: Request -> Reply, capture: string -> Option<GeneralCaptures>)
    requires Build(endpoint, Aircraft, Item, Chunks("", capture)).result.Success?
    ensures var records := Build(endpoint, Aircraft, Item, Chunks("", capture)).result.value;
      && |records| == 9
      && records[0].metadata.fields == FallbackFields
      && records[1].textContent == "" && records[1].values == []
      && records[7].textContent == "" && records[7].values == []
  {
    var chunks := Chunks("", capture);
    EmptyPageChunks(capture);
    BlankChunk(endpoint, chunks[1]);
    BlankChunk(endpoint, chunks[7]);
    RecordsFollowChunks(endpoint, Aircraft, Item, chunks);
  }
}
