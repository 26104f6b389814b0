# Market Intelligence Platform: the report converter and the data adapters, in Dafny

This project models three scripts of the Market Intelligence Platform and proves what they do.

- **The report converter** (`convert-report-to-doc.py`) cuts a Markdown report on literal heading markers and re-emits it as document nodes:
  - a level-0 title;
  - level-1 section headings and level-2 subsection headings;
  - plain paragraphs and bulleted-list items.

  `ReportToDoc.Convert` is the converter's loop nest. It appends to a node sequence, and method by method it is proved equal to `ReportToDoc.Doc`, a piecewise definition of the same output. `ReportOutline` proves properties of `Doc`:
  - the title heading;
  - one section heading per section marker, in order;
  - well-nested heading levels;
  - blank blocks emit nothing;
  - paragraphs are non-empty and stripped;
  - bullets only inside subsections.

  `ReportFix` records the one place where the code evidently departs from its intent: a section whose body opens with a subsection loses that subsection. It proves this of the code as written, and gives a corrected section whose level-2 headings include that subsection.
- **The Google Trends adapter** (`scripts/google_trends.py`) is modelled in `GoogleTrends`:
  - the command-line dispatch, with its error messages, defaults and an inverse (`Args`);
  - the chunking of industry keywords into groups of five, and the chunk loop that accumulates records;
  - the list wrapping of a single keyword;
  - the "top"/"rising" shaping of related data;
  - trending ranks;
  - `main` as `Run`, which also records every provider call made.
- **The Yahoo Finance adapter** (`scripts/yahoo_finance.py`) is modelled in `YahooFinance`:
  - the command-line dispatch, including the uncaught `int()` failure on a bad limit;
  - the `filtered_info` projection;
  - the search loop with its limit and early stop;
  - the rows chosen for the sector and market summaries.

The Python string and integer primitives the scripts use are in `PyStr` and `PyInt`:
- `split`, `strip`, `join`, `replace`, `startswith` and `split()`;
- `int()` on decimal text, and `str` on integers.

`Wrappers` holds `Option`, `Result` and `Fetched`. `Fetched` is a provider's answer: a value, or the message of the exception it raised.

The data providers are inputs. Each pytrends or yfinance entry point is a function from the call the script makes to the value it returns or the exception it raises. The clock is an input too.

Behaviour kept from the code that a reader might not expect:
- The title has every `"# "` removed, not only a leading one (line 42).
- A leading `"- "` is removed from every bullet item that still has one (line 84), not only from the first item.
- An item is tested for blankness before its marker is removed (lines 83-86), so the item `"- "` becomes a bullet with empty text (`ReportOutline.BareMarkerItem`).
- A section body that begins with `###` has no text of its own (line 59; `ReportOutline.OwnTextSkipped`). In the usual layout, a section heading line followed directly by `### Sub`, the body begins `"### "` with no line break before it. The split on `"\n### "` (line 56) then leaves that whole first subsection, heading and content, in the first chunk, and line 59 drops it. The level-2 headings come only from the chunks after the first (`ReportOutline.SectionSubheadings`). This is recorded under "## Findings"; `ReportToDoc.Convert` models the code as written.
- `int()` skips less whitespace than `strip()`. It skips tab to carriage return, space and the non-ASCII whitespace, but not the separators U+001C-U+001F. A search limit `"5\x1c"` therefore aborts the run, and `"5\u3000"` searches with limit 5 (`PyInt.IntSpacePadding`, `YahooFinance.DispatchPaddedLimit`).
- `search_stocks` tests the limit only after adding a result (lines 157-158). A limit below 1 therefore still yields one result when any token qualifies (`YahooFinance.Cap`).

## Model

| member | source | states |
|---|---|---|
| ReportToDoc.Convert | convert-report-to-doc.py:39-88 | the whole node sequence the converter emits is `Doc(md)`: the title heading, then every section's nodes in order |
| ReportToDoc.AddSection | convert-report-to-doc.py:47-88 | one pass of the section loop appends exactly the section's heading, its own paragraphs and its subsections |
| ReportToDoc.AddSubsections | convert-report-to-doc.py:66-88 | the subsection loop appends every chunk after the first, in order |
| ReportToDoc.AddParagraphs | convert-report-to-doc.py:60-63 | the paragraph loop of a section's own text appends one stripped paragraph per non-blank paragraph, in order |
| ReportToDoc.AddSubsection | convert-report-to-doc.py:67-88 | one subsection appends its heading, then its blocks only when its body is not empty |
| ReportToDoc.AddBlocks | convert-report-to-doc.py:77-88 | the block loop of a subsection appends each block's nodes in order |
| ReportToDoc.AddBlock | convert-report-to-doc.py:79-88 | a block beginning with "- " appends its items, any other non-blank block one stripped paragraph |
| ReportToDoc.AddItems | convert-report-to-doc.py:82-86 | the item loop appends one bullet per non-blank item, with one leading "- " removed and the rest stripped |
| ReportToDoc.JoinTailLines | convert-report-to-doc.py:48-50 | re-joining the lines after the first gives exactly the text after the first line break |
| PyStr.SplitJoin | convert-report-to-doc.py:39 | splitting loses nothing: the pieces joined with the separator give the input back |
| PyStr.SplitPiecesFree | convert-report-to-doc.py:39 | no piece of a split contains the separator, and with more than one piece the separator follows the first |
| PyStr.Split | convert-report-to-doc.py:48-49 | a split always has at least one piece, so `lines[0]` never fails, and the first piece starts the text |
| PyStr.StripIsStripped | convert-report-to-doc.py:62-63 | the result of `strip()` has no whitespace at either end |
| PyStr.StripEmpty | convert-report-to-doc.py:62 | `strip()` is empty exactly when the text is all whitespace |
| PyStr.StripCutsSpace | convert-report-to-doc.py:42 | `strip()` is a slice of its input with only whitespace cut from both sides |
| PyStr.ReplaceIsJoinOfSplit | convert-report-to-doc.py:42 | `replace` on every occurrence equals gluing the split pieces with the replacement |
| ReportOutline.TitleText | convert-report-to-doc.py:39-43 | the first node is the level-0 title: the first chunk, stripped, with every "# " cut out |
| ReportOutline.DocHeadings | convert-report-to-doc.py:39-53 | the title is the only level-0 heading; the level-1 headings are the heading lines of the sections, one per section marker |
| ReportOutline.HeadLinesAt | convert-report-to-doc.py:46-53 | the k-th section heading is the heading line of the k-th section, so the headings keep source order |
| ReportOutline.SectionSubheadings | convert-report-to-doc.py:56-73 | a section's level-2 headings are its subsections' heading lines, one per subsection marker |
| ReportOutline.SectionHeadings | convert-report-to-doc.py:48-53 | a section emits exactly one level-1 heading, its heading line, and no title heading |
| ReportOutline.HeadLineOneLine | convert-report-to-doc.py:48-49 | a heading is a single line that begins the stripped text |
| ReportOutline.DocOutline | convert-report-to-doc.py:43-88 | the output is an outline: the title, then nodes that each fit the heading in force, with sections anywhere, subsections inside sections and bullets only inside subsections |
| ReportOutline.DirectShape | convert-report-to-doc.py:59-63 | a section's own text emits only stripped paragraphs, never bullets |
| ReportOutline.FirstChunkMarker | convert-report-to-doc.py:56-59 | the first chunk begins with "###" exactly when the section body does |
| ReportOutline.OwnTextSkipped | convert-report-to-doc.py:56-59 | a section whose body begins with "###" emits its heading and then only the chunks after the first; the first chunk, which may be a whole subsection, emits nothing |
| ReportOutline.ParagraphShape | convert-report-to-doc.py:61-63 | a paragraph emits nothing exactly when it is blank, and otherwise one non-empty stripped paragraph |
| ReportOutline.BlockShape | convert-report-to-doc.py:79-88 | a block emits nothing exactly when blank; a "- " block emits only bullets, at least one and at most one per item; any other block one stripped paragraph |
| ReportOutline.ItemShape | convert-report-to-doc.py:82-86 | an item emits at most one bullet, none exactly when it is blank, with stripped text |
| ReportOutline.BareMarkerItem | convert-report-to-doc.py:83-86 | the item "- " yields a bullet with empty text |
| ReportOutline.BlankSubsection | convert-report-to-doc.py:76 | a subsection whose body is blank emits only its heading |
| ReportOutline.SubsectionBodyShape | convert-report-to-doc.py:73-88 | a subsection is its level-2 heading followed only by clean running text |
| ReportOutline.DocClean | convert-report-to-doc.py:61-88 | every paragraph of the document is non-empty and stripped, and every bullet is stripped |
| ReportToDoc.Doc | convert-report-to-doc.py:39-88 | definition of the whole output, piece by piece; `Convert` is proved equal to it, and its properties are in `TitleText`, `DocHeadings`, `DocOutline` and `DocClean` |
| ReportToDoc.Title | convert-report-to-doc.py:42 | definition of the title text; properties in `TitleText` |
| ReportToDoc.HeadLine | convert-report-to-doc.py:48-49 | definition of a heading line; properties in `HeadLineOneLine` |
| ReportToDoc.Content | convert-report-to-doc.py:48-50 | definition of a body: the stripped text after the heading line; `JoinTailLines` ties it to the re-joined lines |
| ReportToDoc.SectionNodes | convert-report-to-doc.py:47-88 | definition of one section's nodes; properties in `SectionHeadings`, `SectionSubheadings`, `OwnTextSkipped` and `FirstSubsectionDropped` |
| ReportToDoc.DirectNodes | convert-report-to-doc.py:59-63 | definition of a section's own text; properties in `DirectShape` |
| ReportToDoc.ParagraphNodes | convert-report-to-doc.py:61-63 | definition of one paragraph; properties in `ParagraphShape` |
| ReportToDoc.SubsectionNodes | convert-report-to-doc.py:67-88 | definition of one subsection's nodes; properties in `SubsectionBodyShape`, `BlankSubsection` and `SubsectionHeadings` |
| ReportToDoc.BlockNodes | convert-report-to-doc.py:79-88 | definition of one block's nodes; properties in `BlockShape` |
| ReportToDoc.ItemNodes | convert-report-to-doc.py:83-86 | definition of one list item's nodes; properties in `ItemShape` and `BareMarkerItem` |
| ReportOutline.SubsectionHeadings | convert-report-to-doc.py:67-88 | a subsection emits exactly one level-2 heading, its heading line, and no title or section heading |
| ReportOutline.SubsectionsHeadings | convert-report-to-doc.py:66-73 | the level-2 headings of a run of subsections are their heading lines, in order |
| ReportOutline.SectionsHeadings | convert-report-to-doc.py:46-53 | a run of sections holds no title heading, and its level-1 headings are the sections' heading lines, in order |
| ReportFix.IntendedSectionNodes | convert-report-to-doc.py:56-59 | definition of a section cut at every line that opens with "### ", the first line of the body included; properties in `IntendedSubheadings` and `IntendedAgrees` |
| ReportFix.FirstSubsectionDropped | convert-report-to-doc.py:56-59 | as written, a body opening with `"### " + t` emits only the pieces of `t` after the first, so the section has one level-2 heading fewer than the intended cut gives |
| ReportFix.DroppedExample | convert-report-to-doc.py:56-59 | the section "S" whose body is "### A" emits only its level-1 heading |
| ReportFix.IntendedExample | convert-report-to-doc.py:56-73 | cut as intended, the same section also emits the level-2 heading "A" |
| ReportFix.IntendedSubheadings | convert-report-to-doc.py:56-73 | with the intended cut the level-2 headings are the heading lines of every chunk after the first, and a body opening with `"### " + t` has one heading for every piece of `t`, the first one included |
| ReportFix.IntendedAgrees | convert-report-to-doc.py:56-63 | the intended cut and the code agree on every section whose body does not open with "###" |
| PyStr.Strip | convert-report-to-doc.py:42 | definition of `strip()`; properties in `StripCutsSpace`, `StripIsStripped` and `StripEmpty` |
| PyStr.StartsWith | convert-report-to-doc.py:59 | definition of `startswith`, used as-is by every test of a prefix |
| PyStr.Join | convert-report-to-doc.py:50 | definition of `sep.join`; properties in `SplitJoin`, `JoinSplit` and `JoinTailLines` |
| PyStr.Replace | convert-report-to-doc.py:42 | definition of `replace` on every occurrence; properties in `ReplaceIsJoinOfSplit` |
| PyStr.SplitPrefix | convert-report-to-doc.py:56 | a prefix holding no first character of the separator is glued onto the first piece, the other pieces unchanged |
| PyStr.SplitLeadingSep | convert-report-to-doc.py:56 | text that opens with the separator splits into an empty first piece and the pieces of the rest |
| GoogleTrends.Dispatch | scripts/google_trends.py:207-247 | definition of the command-line dispatch; properties in `DispatchFails`, `DispatchMessages`, `DispatchDefaults`, `DispatchKeywords` and `DispatchArgs` |
| GoogleTrends.DispatchFails | scripts/google_trends.py:207-249 | dispatch fails exactly when there is no command, the command is unknown, or a command that needs a third argument lacks it |
| GoogleTrends.DispatchMessages | scripts/google_trends.py:208-247 | the exact error message of each failing dispatch |
| GoogleTrends.DispatchDefaults | scripts/google_trends.py:219-244 | `trending` never fails and defaults its region to "US"; the period defaults to "today 12-m", the industry region to "US" |
| GoogleTrends.DispatchKeywords | scripts/google_trends.py:218-242 | keyword lists are never empty, and joined with commas they give the third argument back |
| GoogleTrends.DispatchArgs | scripts/google_trends.py:212-245 | every command with comma-free keywords is what its own command line dispatches to |
| PyStr.JoinSplit | scripts/google_trends.py:218 | splitting on a one-character separator undoes joining parts that do not contain it |
| GoogleTrends.AsList | scripts/google_trends.py:16-17 | a single keyword is sent as the one-element list holding it |
| GoogleTrends.GetInterestOverTime | scripts/google_trends.py:12-47 | the exception's message, the records of a non-empty frame, or the no-data error for an empty one |
| GoogleTrends.ShapeRelated | scripts/google_trends.py:58-69 | the data holds exactly the "top" and "rising" frames that are present and not empty, unchanged |
| GoogleTrends.ShapedUnique | scripts/google_trends.py:58-69 | the shaped data has no key but "top" and "rising" and is determined by the frames |
| GoogleTrends.GetRelated | scripts/google_trends.py:49-84 | the exception's message, the no-data error when the keyword is missing from the provider's answer, the shaped frames otherwise |
| GoogleTrends.GetTrendingSearches | scripts/google_trends.py:123-153 | a non-empty answer gives the queries in order with ranks 1, 2, ..., the region and the date; an empty one the no-data error |
| GoogleTrends.Chunks | scripts/google_trends.py:159 | definition of the chunk list; properties in `ChunksShape` |
| GoogleTrends.ChunksShape | scripts/google_trends.py:159 | there are ceil(n/5) chunks, each with one to five keywords, and one after the other they are the keyword list |
| GoogleTrends.GetIndustryInterest | scripts/google_trends.py:155-205 | the response and the payloads the chunk loop produces, as `IndustryResult` and `IndustryCalls` define them |
| GoogleTrends.IndustryResult | scripts/google_trends.py:189-200 | a success echoes the region and the period and carries at least one record |
| GoogleTrends.Gather | scripts/google_trends.py:158-187 | definition of the chunk loop's state after n chunks; a stop names an earlier chunk; properties in `GatherStopped`, `IndustryPayloads` and `IndustryNoData` |
| GoogleTrends.GatherStopped | scripts/google_trends.py:157-205 | an exception in one chunk ends the loop: later chunks change nothing |
| GoogleTrends.IndustryPayloads | scripts/google_trends.py:159-163 | without an exception there is one payload per chunk, in order, each with one to five keywords plus the period and region |
| GoogleTrends.IndustryNoData | scripts/google_trends.py:189-200 | without an exception the no-data error is returned exactly when no chunk contributed a record |
| GoogleTrends.Run | scripts/google_trends.py:207-249 | one response per command line, given that the module-level session has been built; the provider is reached exactly when dispatch succeeds, with the calls of the dispatched command |
| YahooFinance.Dispatch | scripts/yahoo_finance.py:172-198 | definition of the command-line dispatch; properties in `DispatchMessages`, `DispatchDefaults`, `DispatchBadLimit`, `DispatchAborts` and `DispatchArgs` |
| PyInt.ParseInt | scripts/yahoo_finance.py:195 | definition of `int()` on text, around the whitespace of `IntStrip`; properties in `ParseShow`, `NoDigitNoInt` and `IntSpacePadding` |
| PyInt.Show | scripts/yahoo_finance.py:195 | definition of `str` on integers, the partner `ParseShow` pairs with `int()` |
| YahooFinance.DispatchMessages | scripts/yahoo_finance.py:172-198 | the exact error message of each failing dispatch |
| YahooFinance.DispatchDefaults | scripts/yahoo_finance.py:179-196 | the stock period defaults to "1mo" and the search limit to 10 |
| YahooFinance.DispatchBadLimit | scripts/yahoo_finance.py:195 | a limit with no digit makes `int()` fail outside any handler: there is no response |
| YahooFinance.DispatchAborts | scripts/yahoo_finance.py:190-196 | the run aborts exactly when a search limit is given that `int()` rejects |
| YahooFinance.DispatchArgs | scripts/yahoo_finance.py:177-196 | every command is what its own command line dispatches to, the limit going through `str` and `int` |
| PyInt.ParseShow | scripts/yahoo_finance.py:195 | `int(str(n)) == n` |
| PyInt.NoDigitNoInt | scripts/yahoo_finance.py:195 | text with no decimal digit is rejected by `int()` |
| PyInt.IntStrip | scripts/yahoo_finance.py:195 | definition of the whitespace `int()` skips around the number; properties in `IntStripCutsSpace` and `IntStripEnds` |
| PyInt.IntStripCutsSpace | scripts/yahoo_finance.py:195 | what `int()` parses is a slice of its text, with only `int()` whitespace cut from both ends |
| PyInt.IntStripEnds | scripts/yahoo_finance.py:195 | what `int()` parses has no `int()` whitespace at either end |
| PyInt.IntSpacePadding | scripts/yahoo_finance.py:195 | `int()` rejects a digit padded with U+001C, which `strip()` removes, and reads one padded with space, tab, line feed or U+3000 |
| YahooFinance.DispatchPaddedLimit | scripts/yahoo_finance.py:190-196 | the limit `"5\x1c"` aborts the run; the limit `"5\u3000"` searches with limit 5 |
| YahooFinance.FilteredInfo | scripts/yahoo_finance.py:24-33 | exactly the listed keys present in `info`, values unchanged, plus the formatted last dividend date when present and not `None` |
| YahooFinance.FilteredInfoSize | scripts/yahoo_finance.py:24-33 | the filtered info never holds more than eighteen keys |
| YahooFinance.GetStockData | scripts/yahoo_finance.py:9-44 | a success exactly when history and info can both be read, carrying the history and the filtered info |
| YahooFinance.Iloc | scripts/yahoo_finance.py:56-57 | `iloc[i]` succeeds exactly for -n <= i < n, naming the row counted from the end for negative i; otherwise the out-of-bounds error |
| YahooFinance.SectorReferenceRows | scripts/yahoo_finance.py:108-112 | day row n-2 when n>1, week row n-5 when n>5, month row 0 when n>20, the current row n-1 otherwise; every reference lies in [0, n) |
| YahooFinance.Move | scripts/yahoo_finance.py:109-124 | a sector entry compares exactly those reference rows |
| YahooFinance.GetIndustryPerformance | scripts/yahoo_finance.py:83-135 | the response the sector loop produces, as `SectorsResult` defines it |
| YahooFinance.Sweep | scripts/yahoo_finance.py:104-124 | definition of the sector loop's state after n sectors, with at most n entries; properties in `SweepHalts` and `SweepListed` |
| YahooFinance.SweepHalts | scripts/yahoo_finance.py:104-135 | the sector loop ends in an error exactly when some sector's history raised |
| YahooFinance.SweepListed | scripts/yahoo_finance.py:104-124 | the entries are those of the sectors whose history is not empty, in order, each dated today |
| YahooFinance.QuoteOf | scripts/yahoo_finance.py:54-71 | an index quote compares the last row with the one before it, or with itself when there is one row; it is named by `shortName` or the symbol; an empty history is the out-of-bounds error |
| YahooFinance.Survey | scripts/yahoo_finance.py:53-71 | definition of the index loop's state after n indices; properties in `SurveyQuotes` and `MarketAllOrNothing` |
| YahooFinance.SurveyQuotes | scripts/yahoo_finance.py:53-71 | a finished index loop has quoted every index, each from its own history and info |
| YahooFinance.MarketAllOrNothing | scripts/yahoo_finance.py:46-81 | a summary covers all seven indices, and one empty history makes the whole summary an error |
| YahooFinance.GetMarketSummary | scripts/yahoo_finance.py:46-81 | the response the index loop produces, as `MarketResult` defines it |
| YahooFinance.HitOf | scripts/yahoo_finance.py:146-156 | a token gives at most one result, exactly when its info is readable and has `shortName` |
| YahooFinance.Eligible | scripts/yahoo_finance.py:145-156 | definition of the results the loop would collect with no limit; properties in `EligibleHits` and `CollectHits` |
| YahooFinance.EligibleHits | scripts/yahoo_finance.py:145-156 | each result is for a token of the query whose info has `shortName`, named by it |
| YahooFinance.CollectHits | scripts/yahoo_finance.py:145-160 | the loop keeps the first `max(1, limit)` results of the tokens in order |
| YahooFinance.SearchResult | scripts/yahoo_finance.py:137-170 | a success unless `Tickers` raises, with at most `max(1, limit)` results and at most one per token |
| YahooFinance.SearchLimit | scripts/yahoo_finance.py:157-158 | with a limit of at least one there are at most `limit` results |
| YahooFinance.SearchStocks | scripts/yahoo_finance.py:137-170 | the response of `search_stocks`, as `SearchResult` defines it |
| PyStr.Words | scripts/yahoo_finance.py:145 | definition of the argument-less `split()`; properties in `WordsAreTokens` |
| PyStr.WordsAreTokens | scripts/yahoo_finance.py:145 | each token of `split()` is non-empty and has no whitespace |
| YahooFinance.Serve | scripts/yahoo_finance.py:172-200 | an error response, a traceback exactly for a rejected limit, or the answer to the dispatched command |

## Left out

- The converter's file handling is not modelled. This covers the existence check and exit codes (lines 22-25), reading the file (28-30), saving the document and the console messages (90-96), and the exception handler around them. These are I/O around the transformation.
- ReportToDoc.Convert: the document library stores text as XML, and it raises `ValueError` on characters XML does not allow, such as U+0000, U+000B, U+000C and U+001C-U+001F. `strip()` removes U+000B, U+000C and U+001C-U+001F at the ends of a text, so those fail only inside one; U+0000 is not whitespace, is never stripped, and fails anywhere. On a report holding such a character in a heading, paragraph or item, the code takes the handler of lines 94-96 and exits with status 1; the model emits the node. The model does not track which characters the library accepts.
- The `markdown.markdown` call (line 33), the unused `html2text` import and the redundant `ImportError` check (lines 15-20) are left out. None of them affects the output.
- The document library is represented by the nodes it is asked to add. `add_heading(text, level)` is `Heading`; `add_paragraph` is `Para`, or `Bullet` with the "List Bullet" style.
- Whitespace is the `str.isspace` set of CPython 3.4 and later, written out in `PyStr.IsSpace`; the Mongolian vowel separator U+180E, whitespace in older Unicode versions, is not whitespace in the model.
- `int()` accepts ASCII digits with underscores and an optional sign. The non-ASCII digits it also accepts are not modelled.
- PyInt.ParseInt: CPython 3.11 and later (and the 2022 security releases of 3.7-3.10) reject `int()` on decimal text of more than 4300 digits by default. The bound depends on the interpreter and can be changed at run time, so the model parses numbers of any length.
- YahooFinance.DispatchAborts: for the same reason, a search limit of more than 4300 digits aborts the source but dispatches in the model.
- PyInt.ParseShow: the round trip holds for every integer in the model; under the digit bound, CPython's `str` itself refuses integers of more than 4300 digits.
- GoogleTrends.Run: the module builds its pytrends session, `TrendReq(hl='en-US', tz=360)`, when it loads (line 10), outside any handler. That constructor contacts the network, and if it raises, the script ends with a traceback and prints no JSON, even for a missing command. The model assumes the session was built.
- The providers (pytrends, yfinance) are network-backed libraries and are inputs:
  - the pytrends session's "build the payload, then query" state is one function of the payload;
  - `Tickers(query)` is modelled only by whether it raises.
- The pandas steps are part of the provider inputs: `reset_index`, `strftime` on dates, `drop('isPartial')` and `to_dict('records')`. A frame is represented by its records, and "empty" means it has no records.
- `pd.melt` is a separate input of the industry path, applied per chunk.
- Related-data frames that are `None` (possible in pytrends) are not modelled.
- `trending_searches` is assumed to have the default index 0..n-1, which gives the rank i+1.
- Floating point is not modelled: the percent changes, the rounding, the prices and volumes in the market and sector summaries. Responses carry the rows those figures come from.
- Record and `info` values are left opaque, and a missing `Close` or `Volume` column is not modelled.
- The clock is an input: `datetime.now()` is `today`, and `datetime.fromtimestamp(...).strftime` is `formatDate`. A timestamp it rejects is not modelled.
- `json.dumps` and `print` are represented by the `Response` and `Printed` datatypes.
- `get_related_queries` and `get_related_topics` are the same code with different provider entry points. Both are `GoogleTrends.GetRelated`, given the entry point.

## Findings

| source | as written | input that shows it | evidently intended | confidence | as-written member | corrected member |
|---|---|---|---|---|---|---|
| convert-report-to-doc.py:56-59 | the body is cut on `"\n### "` and a first chunk beginning with `###` is skipped, so a subsection starting on the body's first line, heading and content, is dropped | the report `"# T\n## S\n### Sub\n- one\n- two"`: only the title and the heading "S" are emitted; the smaller section `"S\n### A"` in `ReportFix.DroppedExample` and `ReportFix.IntendedExample` | every line of the body that opens with `"### "` starts a subsection with its level-2 heading, the first line included | not executed; proved about the model | ReportFix.FirstSubsectionDropped | ReportFix.IntendedSubheadings |
