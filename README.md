# game_data_processor in Dafny

game_data_processor turns wiki pages about War Tycoon aircraft into records for a vector
database. Each of its four scripts does this for one aircraft.

- `rocess_mig29_data.py` handles the MiG-29 Fulcrum.
- `process_spitfire_data.py` handles the Spitfire.
- `process_p51_data.py` handles the P-51 Mustang.
- `process_game_data.py` is a general script that again handles the P-51.

Each script does the following:

1. It cleans a hard-coded copy of the page. A character scrubber runs first, then a chain of
   regular-expression rules.
2. It builds a fixed, ordered list of `PineconeVector` records. Each record stores a text, and
   its `values` are the embedding of that text from an embedding service.
3. It appends the records as JSON Lines to an output file.
4. It reads that file back into a pretty JSON array, with every embedding replaced by a
   placeholder.

The helpers (`get_embedding`, `save_vectors_to_jsonl`, `write_pretty_json_output`,
`_scrub_webpage_content_chars` and `read_and_clean_webpage`) are textually identical in every
script that has them. Only their comments differ. Each helper is modelled once, and the table
below cites the copies in turn.

Modules:

- `Text`: Python's whitespace set, `strip`, ASCII `lower`/`isdigit`/`int`, literal search and
  the subsequence relation.
- `Scrubber`: `_scrub_webpage_content_chars`, written step by step. It is proved equal to
  "keep exactly the printable ASCII characters".
- `Cleaning`: each rule of the cleaning chains as its own string function, `re.sub` as
  `DeleteAll`, and the chains of `read_and_clean_webpage` and of the MiG-29 main block.
- `Embedding`: `get_embedding` against an oracle client, which keeps a ghost log of requests.
- `Records`: the record type and the id rule. It also evaluates a parse (`Build`): a list of
  chunks, each embedded in order, that stops at the first exception. The parsers are
  straight-line sequences of `AppendNext` calls, one per `append` in the source. Each parser is
  proved to return and send exactly what `Build` says.
- `Files`: files as lists of lines.
- `Sink`: `save_vectors_to_jsonl` (a write loop) and `write_pretty_json_output` (a read loop
  that stops at the first undecodable line).
- `P51Data`, `SpitfireData`, `Mig29Data` and `GameData`: the chunk table, the parser and the
  main block of each script.
- `P51Texts`, `SpitfireTexts`, `Mig29Texts` and `GameDataTexts`: the texts the records embed,
  and the hard-coded pages.

The MiG-29 main block cleans its own hard-coded page to the empty text.

1. The page starts with a line `9`, then blank lines, then `SIGN IN TO EDIT`.
2. Scrubbing deletes every line break, which joins these into `9SIGN IN TO EDIT...`.
3. `SIGN IN TO EDIT.*` then removes the rest of the page and keeps only `9`.
4. The standalone-number rule erases the `9`.

So, as written, all three searches of the MiG-29 parser fail:

- the general-information record takes its literal fallbacks;
- the overview and history records embed the empty text, and get the empty vector without a
  call to the service.

`Cleaning.Mig29PageCleansToEmpty`, `Mig29Data.EmptyPageChunks` and
`Mig29Data.EmptyPageRecords` state this.

## Model

| member | source | states |
|---|---|---|
| Text.Strip | rocess_mig29_data.py:158 | `strip()` is empty exactly when the input is all whitespace. Otherwise it is the slice from the first to the last non-whitespace character. |
| Text.IndexOf | rocess_mig29_data.py:382-385 | The position of the first occurrence of a literal. No earlier position holds one, and `None` means it occurs nowhere. |
| Text.IndexFrom | rocess_mig29_data.py:241-244 | The first occurrence at or after a position. Nothing between that position and the result matches, and `None` means nothing matches from there on. |
| Scrubber.Scrub | rocess_mig29_data.py:103-120 | Defined as the four steps of `_scrub_webpage_content_chars`. `ScrubIsKeepPrintable` and `ScrubKeepsExactlyPrintable` state its meaning. |
| Scrubber.ScrubIsKeepPrintable | rocess_mig29_data.py:103-120 | The four scrubbing steps together keep exactly the characters 0x20-0x7E, in order. |
| Scrubber.ScrubKeepsExactlyPrintable | rocess_mig29_data.py:109-118 | The scrubbed text is a subsequence of the input and is all printable ASCII. Each printable character is kept as often as it occurs, and every other character is dropped. |
| Scrubber.ScrubSingleLine | rocess_mig29_data.py:118 | Scrubbed text holds no `\n`, `\t` or `\r`. |
| Scrubber.ScrubIdentity | process_spitfire_data.py:103-120 | Scrubbing leaves a text unchanged exactly when it is already printable ASCII. |
| Scrubber.ScrubIdempotent | rocess_mig29_data.py:103-120 | Scrubbing twice is scrubbing once. |
| Scrubber.ScrubShrinks | process_p51_data.py:103-120 | Scrubbing never lengthens a text, and it shortens every text that is not printable ASCII. |
| Scrubber.ScrubNeverMakesHyphens | rocess_mig29_data.py:109-115 | Dashes are deleted, never turned into `-`: the hyphen count is unchanged, and no dash, zero-width or byte-order-mark character is left. |
| Scrubber.ScrubConcat | process_p51_data.py:109-118 | Scrubbing distributes over concatenation. |
| Cleaning.MatchTokens | process_spitfire_data.py:151 | A match of a fixed pattern fits in the text and is at least as long as its leading literal. Which prefixes it matches is stated by `MatchTokensMeaning`. |
| Cleaning.MatchTokensMeaning | process_spitfire_data.py:151 | For a pattern with a literal after every `\s*`, the matcher returns `k` exactly when the first `k` characters split into one piece per token. A literal piece equals its literal (in any case for IGNORECASE), a `\s*` piece is whitespace, and a `.` piece is one character. The match at a position is therefore unique. |
| Cleaning.ContentsMarkerMeaning | process_spitfire_data.py:151 | `Contents\s*\[hide\]` matches exactly the prefixes that read `contents`, whitespace and `[hide]`, in any case. |
| Cleaning.DeleteAllSubsequence | process_p51_data.py:146-156 | Every `re.sub(pattern, '', s)` only deletes characters: the result is a subsequence of `s`. |
| Cleaning.DeleteAllNowhere | process_spitfire_data.py:151 | Where a rule matches nowhere, it leaves the text unchanged. |
| Cleaning.DeleteAllFirst | process_spitfire_data.py:148 | At the first match, the text before it is kept and the match is deleted. The scan then resumes after the match. |
| Cleaning.CutSignIn | process_p51_data.py:147 | Defined as `re.sub` of `SignInAt` with the empty text. `CutSignInSingleLine` states that on one line it keeps the prefix before the phrase. |
| Cleaning.SignInAt | process_p51_data.py:147 | `SIGN IN TO EDIT.*` matches exactly where the phrase starts. The match runs to the end of the line. |
| Cleaning.LineEndOfOneLine | process_spitfire_data.py:148 | On a text without line breaks, `.*` runs to the end. |
| Cleaning.CutSignInSingleLine | rocess_mig29_data.py:142-147 | On scrubbed (one-line) text, the sign-in rule keeps exactly the prefix before the phrase's first occurrence, and the phrase no longer occurs. |
| Cleaning.FirstWhereNearest | process_spitfire_data.py:151 | A lazy `.*?` before a lookahead stops at the nearest position where the lookahead holds. `None` means it holds nowhere from the start position on. |
| Cleaning.ContentsBlock | process_p51_data.py:150 | A Contents block is never empty and fits in the text. |
| Cleaning.ContentsBlockMeaning | process_spitfire_data.py:151 | A block starts exactly where `contents`, optional whitespace and `[hide]` (any case) are followed later by a heading. It ends just before the nearest heading. Otherwise nothing starts there. |
| Cleaning.StripContents | process_p51_data.py:150 | Defined as `re.sub` of `ContentsBlock` with the empty text. `DeleteAllSubsequence`, `DeleteAllFirst` and `ContentsBlockMeaning` state what it deletes. |
| Cleaning.DropStandaloneNumber | process_spitfire_data.py:154 | On one line, the standalone-number rule gives the text unchanged or empty. It empties the text exactly when the text splits into whitespace, one or more digits, optionally `.` and one or more digits, and whitespace. So `3.14` and ` 2 ` are erased, while `1.2.3`, `.5` and `1 2` are kept. |
| Cleaning.StandaloneIsNumberLine | process_spitfire_data.py:154 | The left-to-right scan the rule uses accepts exactly the texts of the shape `\s*\d+(\.\d+)?\s*`. |
| Cleaning.DigitsAreStandalone | process_p51_data.py:153 | A text of ASCII digits is a standalone number. |
| Cleaning.CollapseBlankLines | process_p51_data.py:156 | Defined as the `\n{3,}` to `\n\n` rewrite. `CollapseBlankLinesSingleLine` states that it does nothing on text without line breaks. |
| Cleaning.CollapseBlankLinesSingleLine | process_spitfire_data.py:157 | `\n{3,}` changes nothing on text without line breaks. |
| Cleaning.CleanWebpage | process_p51_data.py:142-158 | Defined as the chain of `read_and_clean_webpage` after the read, also used inline by the Spitfire and P-51 main blocks. `CleanWebpageSimplified` states its meaning. |
| Cleaning.ReadAndCleanWebpage | process_p51_data.py:124-158 | A missing file raises `FileNotFoundError` naming the path. Otherwise the file's whole content goes through the cleaning chain. |
| Cleaning.CleanWebpageSimplified | process_spitfire_data.py:143-159 | The chain equals strip, after the standalone-number rule, after the Contents rule, applied to the scrubbed text cut before `SIGN IN TO EDIT`. The result is printable ASCII on one line, is a subsequence of the input, and does not start or end with a space. |
| Cleaning.StripRemovesOnlySpaces | process_spitfire_data.py:159 | On printable ASCII, the final `strip()` removes only spaces. |
| Cleaning.CleanMig29Page | rocess_mig29_data.py:488-496 | Defined as the MiG-29 main block's chain. `Mig29PageCleansToEmpty` states what it gives for the hard-coded page. |
| Cleaning.Mig29TocMeaning | rocess_mig29_data.py:492 | The table-of-contents rule deletes exactly the prefixes that read `Contents`, whitespace, `1Overview`, whitespace, `2History`, whitespace, `3Stats`, whitespace, `3`, any character, `1Firepower`, and so on to `3Health`. |
| Cleaning.CollapseMeaning | rocess_mig29_data.py:494 | `Collapse` is matched, case-sensitively, exactly where the word starts, and the match is eight characters long. |
| Cleaning.Mig29PageCleansToEmpty | rocess_mig29_data.py:488-496 | The MiG-29 chain (scrub, sign-in rule, its own table-of-contents rule, numbers, `Collapse`, blank lines, strip) turns any page that opens like the hard-coded one into the empty text. |
| Mig29Texts.HardCodedPageCleansToEmpty | rocess_mig29_data.py:429-496 | The MiG-29 main block's cleaning chain turns the page text it hard-codes into the empty text. |
| Cleaning.CutAfterNine | rocess_mig29_data.py:490 | On the joined text `9SIGN IN TO EDIT...`, the sign-in rule keeps `9`. |
| Cleaning.NineCleansToEmpty | rocess_mig29_data.py:492-496 | The rest of the MiG-29 chain erases a lone `9`. |
| Cleaning.ScrubOpening | rocess_mig29_data.py:488 | Scrubbing joins the page's opening lines into `9SIGN IN TO EDIT`. |
| Embedding.EmbeddingClient.Create | process_game_data.py:38-42 | One call to the service logs its request and returns the oracle's reply. |
| Embedding.GetEmbedding | process_game_data.py:17-49 | `get_embedding` returns or raises what `Embed` says. It sends no request for blank text and exactly one otherwise. |
| Embedding.Embed | process_game_data.py:17-49 | Defined as what `get_embedding` returns or raises for an oracle. `EmbedBlank`, `EmbedNonBlank` and `EmbedOnlyAfterCall` state its meaning. |
| Embedding.BlankTexts | process_spitfire_data.py:33 | `not text or not text.strip()` holds exactly for blank text. |
| Embedding.EmbedBlank | process_game_data.py:33-35 | Blank text gives `[]` with no request. |
| Embedding.EmbedNonBlank | process_spitfire_data.py:37-49 | Non-blank text sends exactly one request, with the text alone and the given model and dimensions. A reply's first embedding is returned. A raised error is re-raised, and a reply without data raises `IndexError`, assuming `openai.APICallError` resolves (see "Left out"). |
| Embedding.EmbedOnlyAfterCall | process_p51_data.py:33-49 | A failure or a non-empty vector implies that exactly one request was sent. |
| Files.FileSystem.RemoveIfExists | rocess_mig29_data.py:424-426 | Removing a path deletes it and nothing else. |
| Files.FileSystem.OpenForAppend | process_p51_data.py:57 | Opening for append creates a missing file empty and keeps an existing one. |
| Files.FileSystem.AppendLine | process_p51_data.py:59 | A write adds one line at the end of the file. |
| Files.FileSystem.Overwrite | process_game_data.py:97-98 | Opening with `'w'` and writing replaces the file's content. |
| Records.InfoTypeNamesDistinct | process_game_data.py:119-266 | The closed set of info types maps to distinct stored strings. |
| Records.Slug | process_p51_data.py:177 | The slug has the item's length. `SlugIsLowerReplaced` states that it is `lower()` followed by the space replacement. |
| Records.MakeId | process_spitfire_data.py:185 | Defined as slug, `_` and suffix. `MakeIdParts` and `MakeIdInjective` state how the parts are read back and that ids are distinct. |
| Records.SlugIsLowerReplaced | process_p51_data.py:177 | The id prefix is `item_name.lower().replace(' ', '_')`. |
| Records.MakeIdParts | process_spitfire_data.py:185 | An id is the slug, `_` and the suffix, and each part can be read back. |
| Records.MakeIdInjective | process_spitfire_data.py:185-402 | Within one item, two ids are equal exactly when their suffixes are. |
| Records.AppendRecord | process_spitfire_data.py:184-201 | One `append`: the chunk's text is embedded. Either the exception is passed on, or one record is appended whose text is the embedded text. |
| Records.BuildFrom | process_spitfire_data.py:173-411 | Defined as the evaluation of the appends from one chunk on, each embedding its text and stopping at the first exception. `BuildFromSucceeds` and `BuildFromRaises` state its meaning. |
| Records.Build | process_p51_data.py:166-360 | `BuildFrom` from the first chunk. `BuildSucceeds`, `BuildRaises` and `RecordsFollowChunks` state its meaning. |
| Records.BuildFromSucceeds | process_spitfire_data.py:162-413 | From any chunk on, the parse succeeds exactly when every embedding does. It then returns one record per chunk, in order, and sends every chunk's requests. |
| Records.BuildSucceeds | process_p51_data.py:161-362 | The whole parse succeeds exactly when every embedding does. It then returns one record per chunk, in order, and sends every chunk's requests. |
| Records.BuildFromRaises | process_p51_data.py:161-362 | From a given chunk on, the first chunk whose embedding raises ends the parse with that exception. Only the requests up to and including it are sent. |
| Records.BuildRaises | rocess_mig29_data.py:161-416 | The first chunk whose embedding raises ends the whole parse with its exception. Only the requests up to and including it are sent. |
| Records.RecordsFollowChunks | process_spitfire_data.py:184-411 | Each record has its chunk's id, entity, item, info type and fields. Its `text_content` is exactly the text embedded into its `values`, and ids are distinct when suffixes are. |
| Records.BuildAgrees | process_game_data.py:104-268 | Two successful parses build equal records from equal chunks. From chunks that differ only in text, they build records with the same id and metadata. |
| Records.BlankChunk | rocess_mig29_data.py:33-35 | A chunk with blank text gets the empty vector and sends no request. |
| Sink.SaveVectorsToJsonl | process_p51_data.py:52-60 | The file's existing lines are kept, one line per record is appended in list order, and no other file changes. |
| Sink.Redact | process_game_data.py:88-89 | Redaction sets only `values`, to the placeholder, and keeps every other member. On a value that is not an object it raises `TypeError`. |
| Sink.WritePrettyJsonOutput | process_spitfire_data.py:63-100 | An absent input leaves every file as it was. Otherwise the output file becomes the rendered array. A raised `TypeError` leaves every file as it was. |
| Sink.Render | process_p51_data.py:82-95 | Defined as the read loop of `write_pretty_json_output`. `RenderPrefix`, `RenderIgnoresAfterBadLine` and `RenderRaises` state its meaning. |
| Sink.RenderPrefix | process_p51_data.py:82-95 | The array holds exactly the decoded lines before the first undecodable one, each redacted when asked for. That line, if any, stops the reading. |
| Sink.RenderIgnoresAfterBadLine | process_game_data.py:81-98 | Lines after an undecodable line are ignored. If the first line is undecodable, the array is empty and is still written. |
| Sink.RenderRaises | process_p51_data.py:86-91 | Without redaction nothing raises. With redaction, the read raises `TypeError` exactly when a line read before the first undecodable one is not an object. |
| Sink.SavedRecordsRenderBack | rocess_mig29_data.py:52-100 | When `loads` reads back what `dumps` wrote, a freshly saved file renders back to every record, in order, redacted when asked for. |
| Sink.SavedRecordsRenderRedacted | process_p51_data.py:428-429 | Saved records render back, redacted, as exactly the records with their embeddings replaced. |
| Sink.SaveThenWrite | rocess_mig29_data.py:500-501 | Defined as the files after `save_vectors_to_jsonl`, then the redacting `write_pretty_json_output`. `FreshSaveThenWrite` and `SavedRecordsRenderRedacted` state its meaning. |
| Sink.SaveAndWritePretty | rocess_mig29_data.py:500-501 | Save, then the redacting pretty writer: the files and result are those `SaveThenWrite` gives. |
| Sink.FreshSaveThenWrite | process_spitfire_data.py:515-516 | Starting without the JSON Lines file, the two steps succeed. The file then holds one line per record, and the pretty file every record, redacted, in order. |
| P51Data.Chunks | process_p51_data.py:176-360 | Defined as the eight fixed chunks. `TableShape`, `IdsOfSuffixes` and `ParsedRecords` state their meaning. |
| P51Data.AppendP51Records | process_p51_data.py:166-362 | The eight appends return and send exactly what `Build` says for the table. |
| P51Data.ParseP51WebpageContent | process_p51_data.py:161-362 | The parse does not read `webpage_text`. Its outcome and requests are those of the fixed table. |
| P51Data.TableShape | process_p51_data.py:182-356 | The table's info types are general_info, overview_full_text, overview_summary, armament, armament, stats, stats, category_membership. |
| P51Data.ItemSlug | process_p51_data.py:177 | The slug of `P-51 Mustang` is `p-51_mustang`: the hyphen is kept. |
| P51Data.IdsOfSuffixes | process_p51_data.py:177-351 | Each id is `p-51_mustang_` followed by its chunk's suffix. |
| P51Data.SuffixesDistinct | process_p51_data.py:177-351 | The eight suffixes are pairwise distinct. |
| P51Data.TableRecords | process_p51_data.py:176-360 | Any table with these suffixes and info types parses to eight records. Their ids are fixed and distinct, their info types fixed, and each is an `aircraft` record for `P-51 Mustang` storing the text it embedded. |
| P51Data.ParsedRecords | process_p51_data.py:161-362 | A successful parse returns the eight records above, in order. |
| P51Data.RunMainBlock | process_p51_data.py:366-430 | The old file is removed and the page is cleaned. The parse's exception ends the block; otherwise the records are saved and the pretty file is written. |
| SpitfireData.AppendSpitfireRecords | process_spitfire_data.py:173-413 | The ten appends return and send exactly what `Build` says for the table. |
| SpitfireData.ParseSpitfireWebpageContent | process_spitfire_data.py:162-413 | The parse does not read `webpage_text`. Its outcome and requests are those of the fixed table. |
| SpitfireData.TableShape | process_spitfire_data.py:190-407 | The fixed table `Table` has the ten suffixes and info types in order. |
| SpitfireData.ItemSlug | process_spitfire_data.py:185 | The slug of `Spitfire` is `spitfire`. |
| SpitfireData.IdsOfSuffixes | process_spitfire_data.py:185-402 | Each id is `spitfire_` followed by its chunk's suffix. |
| SpitfireData.SuffixesDistinct | process_spitfire_data.py:185-402 | The ten suffixes are pairwise distinct. |
| SpitfireData.ParsedRecords | process_spitfire_data.py:162-413 | A successful parse returns ten records, in order. Their ids are fixed and distinct, their info types fixed, and each is an `aircraft` record for `Spitfire` storing the text it embedded. |
| SpitfireData.RunMainBlock | process_spitfire_data.py:417-517 | The old file is removed and the page is cleaned. The parse's exception ends the block; otherwise the records are saved and the pretty file is written. |
| Mig29Data.SearchGeneral | rocess_mig29_data.py:178-189 | The general search fails on a page without its opening sentence. What it captures otherwise is the parameter `capture` (see "Left out"). `GeneralFallbacks` states its failure case. |
| Mig29Data.GeneralFields | rocess_mig29_data.py:199-235 | Defined as the general record's captured or fallback fields. `GeneralFallbacks`, `MatchedPrice` and `CapturedPriceValue` state its meaning. |
| Mig29Data.GeneralFallbacks | rocess_mig29_data.py:199-221 | Every failed search gives the fallbacks: price 850000, rebirth level 7, seating 2, hulls 1, weapons 2, engines 1 and the four displays. A page without the opening sentence fails whatever the rest of the pattern captures. |
| Mig29Data.MatchedPrice | rocess_mig29_data.py:199-221 | After a match, the price is `None` exactly when the comma-stripped capture is not all digits; otherwise it is that number. |
| Mig29Data.CapturedPriceValue | rocess_mig29_data.py:181-221 | For any `[0-9,]+` capture, removing the commas leaves digits only. The price is the number those digits spell when there is at least one digit, and `None` when the capture is commas alone. |
| Mig29Data.AnchoredSpanMeaning | rocess_mig29_data.py:241-244 | A search of the overview's shape fails without its header. When it matches, the group starts right after the first opening sentence that follows the first heading after the first header (`FirstAnchors`), and it ends at the nearest stop. |
| Mig29Data.AnchoredSpanComplete | rocess_mig29_data.py:241-244 | A search of the overview's shape matches whenever the text holds the header, later the heading, later the opening sentence, and later a place where the stop holds. |
| Mig29Data.OverviewSpanMeaning | rocess_mig29_data.py:241-245 | The overview search fails on a page without `Overview\nMiG-29 Fulcrum\n`. When it matches, the group follows the first opening sentence after the first `General Information` after the first header, and it ends at the nearest `History\n` or `Stats\n`. |
| Mig29Data.OverviewSpanComplete | rocess_mig29_data.py:241-245 | The overview search matches whenever the page holds the header, later `General Information`, later the opening sentence, and later `History\n` or `Stats\n`. |
| Mig29Data.OverviewText | rocess_mig29_data.py:241-245 | Defined as the stripped overview group, or the empty text. `OverviewSpanMeaning` states where the group lies. |
| Mig29Data.HistorySpanMeaning | rocess_mig29_data.py:382-386 | The history search matches exactly when its sentence occurs. The group starts at the first occurrence and ends at the nearest stop or the end of the text. |
| Mig29Data.HistoryText | rocess_mig29_data.py:382-386 | Defined as the stripped history group, or the empty text. `HistorySpanMeaning` states where the group lies. |
| Mig29Data.Chunks | rocess_mig29_data.py:214-414 | Defined as the nine chunks, built from the page's three searches. `TableShape`, `ParsedRecords` and `EmptyPageChunks` state their meaning. |
| Mig29Data.AppendMig29Records | rocess_mig29_data.py:214-414 | The nine appends return and send exactly what `Build` says for the chunks. |
| Mig29Data.ParseMig29WebpageContent | rocess_mig29_data.py:161-416 | The parse's outcome and requests are those of the chunks the three searches give for the page. |
| Mig29Data.TableShape | rocess_mig29_data.py:220-410 | Whatever the page, the chunks have the nine suffixes and info types in order. |
| Mig29Data.ItemSlug | rocess_mig29_data.py:215 | The slug of `MiG-29 Fulcrum` is `mig-29_fulcrum`. |
| Mig29Data.IdsOfSuffixes | rocess_mig29_data.py:215-405 | Each id is `mig-29_fulcrum_` followed by its chunk's suffix. |
| Mig29Data.SuffixesDistinct | rocess_mig29_data.py:215-405 | The nine suffixes are pairwise distinct. |
| Mig29Data.TableRecords | rocess_mig29_data.py:214-414 | Any chunks with these suffixes and info types parse to nine records. Their ids are fixed and distinct, their info types fixed, their fields are the chunks' fields, and each stores the text it embedded. |
| Mig29Data.ParsedRecords | rocess_mig29_data.py:161-416 | Whatever the page, a successful parse returns nine records. The first carries the general search's fields, the second the overview found, and the eighth the history found. |
| Mig29Data.RunMainBlock | rocess_mig29_data.py:420-503 | The old file is removed and the page goes through the MiG-29 chain. The parse's exception ends the block; otherwise the records are saved and the pretty file is written. |
| Mig29Data.EmptyPageChunks | rocess_mig29_data.py:199-212 | On the empty page, the general fields are the fallbacks, and the overview and history texts are empty. |
| Mig29Data.EmptyPageRecords | rocess_mig29_data.py:241-390 | On the empty page, a successful parse stores the fallbacks, and the overview and history records hold the empty text and the empty vector. |
| GameData.ParseP51WebpageContent | process_game_data.py:104-268 | The parse does not read `webpage_text`. Its outcome and requests are those of the P-51 table with this script's overview. |
| GameData.CopiesAgree | process_game_data.py:140-153 | The two P-51 parsers build the same records except the full overview's. That record has the same id and metadata but its own text. |
| GameData.RunMainBlock | process_game_data.py:271-376 | The default JSON Lines file is removed and the raw page is parsed without cleaning. The records are saved to the default file and the pretty file is written. |

## Left out

- Mig29Data.SearchGeneral: the general-information regular expression is modelled only as far as its first sentence. Whether the rest matches, and what it captures, is the parameter `capture`, so only the fallback and price logic is proved.
- Mig29Data.GeneralCaptures: the four `\d+` counts are given as their values, since `int()` of a `\d+` capture is its decimal value.
- Cleaning.StripChatBubble: the chat-bubble rule is the identity. It needs the lone surrogate U+D83D, which no Dafny string can hold and no scrubbed text contains.
- Cleaning.DropStandaloneNumber: it is modelled on text without line breaks only. That is the only text it receives, after scrubbing.
- Text.Lower, Text.Strip and Text.IsDigits: `lower()` and `isdigit()` are ASCII-only; `strip()` uses Python's full whitespace set.
- The unused first history search (`history_text_match`) is left out. Its result is never read.
- Metadata beyond `id`, `entity_type`, `item_name`, `info_type`, `text_content` and a few integer fields (prose lists, tier maps, unlock details, section titles) is left out.
- The embedding service is an oracle fixed per client. Its replies are deterministic, and a vector component is opaque bits, not a float.
- Which exception the service raises is opaque (`ServiceError`).
- Embedding.Embed: assumes that `openai.APICallError` resolves, so that both `except` clauses re-raise the error unchanged and form one case. The client is built with `openai.OpenAI()`, the 1.x interface, which may not define that name. In that case, evaluating the first `except` clause raises `AttributeError`, and every failure, including the `IndexError` of a reply without data, surfaces as `AttributeError` instead.
- Embedding.EmbedNonBlank: its `IndexError` and re-raise cases rest on the same assumption about `openai.APICallError`.
- `json.dumps`, `json.loads` and `json.dump` are parameters. The indent-2 and `ensure_ascii` formatting is left out, and a round trip is assumed only where a lemma requires it.
- Sink.SavedRecordsRenderBack and Sink.FreshSaveThenWrite: they also rely on `dumps` writing no line break, which `json.dumps` without an indent guarantees. The model reads each written line back whole, while `for line in f` would split a line that held a break.
- Files are lists of lines. Encodings, I/O errors and permissions are left out.
- `print` output is left out, including the 50-character error preview and the message on a missing pretty-writer input.
- The main blocks take the page as a parameter. The hard-coded pages are defined in the `*Texts` modules. The P-51, Spitfire and general `PageContent` constants are kept as documentation only: those parses never read the page, so no lemma mentions them.
- P51Data.RunMainBlock, SpitfireData.RunMainBlock, Mig29Data.RunMainBlock and GameData.RunMainBlock: their results are stated through `Build` and `SaveThenWrite`. For the hard-coded MiG-29 page, `Mig29Texts.HardCodedPageCleansToEmpty` states that the cleaned text is empty.
