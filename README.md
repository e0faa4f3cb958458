# py-playstore-data in Dafny

py-playstore-data collects Google Play Store listings for one category and
country, and writes them to CSV. It has two front ends.

- **The Selenium scraper.** It is in `script/apps_data_se.py`, with a near-copy in
  `apps_data_se.py`. It loads the category's catalog page and collects the
  listing links it shows. It then opens each listing and fills a details
  dictionary one guarded element lookup at a time, using `"N/A"` when a lookup
  raises. Finally it projects that dictionary onto an 11-column record.
- **The google_play_scraper client.** A batched version is in
  `script/apps_data.py` and a single-call version in `apps_data.py`. Both call
  `search` and fetch each hit's details into a fixed-column dict; failures
  become `None`, and the `None`s are dropped. Only the batched version keeps
  just the first hit per app id; the single-call version fetches every hit
  of its one search, repeats included.

`script/apps_data_se.py` imports its helpers from `script/utils.py`; the
other three files define their own copies of the ones they use:

- the HTML text slicer `get_text_from_html`;
- the keyword guard `extract_keywords`;
- the two CSV sinks `save_to_csv` and `append_to_csv`.

The model has one module per front-end file, and the two near-identical
`apps_data_se.py` files share `AppsDataSe`. Shared Python semantics have one
module each:

| module | file | models |
|---|---|---|
| `Wrappers` | wrappers.dfy | `None` and exceptions as `Option` and `Result`, and the `None` filter |
| `Text` | text.dfy | `find`, `rfind`, slicing with Python's bound rules, `strip`, `upper`, `lower`, `replace`, `join`, `split` |
| `Dicts` | dicts.dfy | insertion-ordered Python dicts, `.get(k, default)` and truthiness |
| `Utils` | utils.dfy | `script/utils.py`; the file system is a class whose `files` map the sinks update in place |
| `AppsDataSe` | apps_data_se.dfy | both `apps_data_se.py` files |
| `AppsData` | apps_data.dfy | `script/apps_data.py` |
| `RootAppsData` | root_apps_data.dfy | `apps_data.py` |

External calls the model cannot see are parameters:

- **The browser:** a listing page is the map from each element sought to the
  string the driver returns. An element is absent when `find_element` raises.
  A catalog is the function from scroll pass to the hrefs `find_elements`
  returns.
- **`search`:** a function from query to hits. It returns `None` when the call
  raises.
- **`app`:** a map from app id to details. An id is absent when the call raises.
- **The CountVectorizer fit:** a function from text and `top_n` to feature
  names. It returns `None` when the fit raises.

How the source is modelled:

- **Duplicated functions.** The root `apps_data_se.py` has its own
  `scrape_play_store_app_details`, `scrape_play_store`, `get_text_from_html` and
  `extract_keywords`, and the same output name. They behave like the script
  versions as modelled here, but the lines differ: its `scrape_play_store`
  upper-cases the inputs first and builds the headless driver inline
  (apps_data_se.py:94-101), where script/apps_data_se.py:129-130 calls
  `create_driver()` first. Driver creation is not modelled, so the order does
  not show. `AppsDataSe` and `Utils` model both copies, and a row below may
  cite either one.
- **Per-file `save_to_csv`.** Three files define their own `save_to_csv`. It has
  no folder and returns nothing, and is modelled once as
  `Utils.FileSystem.SaveToCsvHere`.
- **`extract_keywords` copies.** `script/apps_data.py` defines its own copy,
  identical to the one in `script/utils.py`. Both are `Utils.ExtractKeywords`.
- **The address column is modelled as written.** On success the address is
  stored under `developer_address`, but it is read back as `developerAddress`.
  So "Developer address" is only ever `""` or `"N/A"`.
  `AppsDataSe.AddressNeverExtracted` proves this.
- **The batch loop** of `fetch_apps_by_category` has no bound of its own. It
  stops only at the first empty batch or exception. The method takes a ghost
  `bound` naming a call that stops, and uses it only for termination. Its
  result is stated in terms of the first stopping call, which is independent
  of `bound`.
- **The printed tally.** `total_apps_searched` is printed, not returned. The
  method returns it as an out-parameter so its value can be stated.
- **No related-app crawl.** The shown code has no recursion over related-app
  links, no visited set and no depth budget, so nothing of the kind is
  modelled.

## Model

| member | source | states |
|---|---|---|
| Text.FindFrom | script/utils.py:15 | the result is -1 and the pattern occurs nowhere from `i`, or it is the first index from `i` where it occurs |
| Text.RFind | script/utils.py:16 | the result is -1 and the pattern occurs nowhere, or it is an occurrence with none after it |
| Text.SliceBound | script/utils.py:17 | a Python slice bound lands in `0..n`: a bound in range is kept, a negative one counts from the end, one past the end clamps to `n` and one before `-n` clamps to 0 |
| Text.PySlice | script/utils.py:17 | `s[i:j]` is empty when the landed end is at or before the landed start, and is `s[a..b]` otherwise |
| Text.LeadingSpaces | script/utils.py:17 | the length of the whitespace run `s` starts with: all whitespace, followed by a non-space or the end |
| Text.TrailingSpaces | script/utils.py:17 | the length of the whitespace run `s` ends with: all whitespace, preceded by a non-space or the start |
| Text.Strip | script/utils.py:17 | `strip()` leaves a slice of `s` that neither starts nor ends with whitespace, and everything cut away on either side is whitespace |
| Text.StripCut | script/utils.py:17 | cutting the leading run and then the trailing run leaves a piece with only whitespace around it and no whitespace at its ends |
| Text.StripIdempotent | script/utils.py:17 | stripping twice is stripping once |
| Text.Upper | script/apps_data_se.py:130 | `upper()` keeps the length, turns each ASCII lower-case letter into its capital, and keeps every other character |
| Text.UpperIdempotent | script/apps_data_se.py:130 | upper-casing twice is upper-casing once |
| Text.Lower | script/apps_data_se.py:168 | `lower()` keeps the length, turns each ASCII capital into its lower-case letter, and keeps every other character |
| Text.ReplaceChar | script/apps_data_se.py:168 | `replace(' ', '_')` keeps the length, puts `_` at every position that held a space, and keeps every other character |
| Text.Join | script/utils.py:117 | `", ".join` of no pieces is `""`; otherwise the result starts with the first piece and ends with the last; `Text.SplitJoin` is its inverse |
| Text.SplitOn | script/utils.py:117 | `split` always gives at least one piece |
| Text.NotOccurring | script/utils.py:117 | a separator whose first character is absent from `t` occurs nowhere in `t` |
| Text.FindAfterFirst | script/utils.py:117 | in `t + sep + rest`, the first separator is right after `t` when `t` has none of its first character |
| Text.SplitWithoutSeparator | script/utils.py:117 | a string without the separator's first character splits into itself alone |
| Text.SplitFirstPiece | script/utils.py:117 | splitting `t + sep + rest` yields `t` and then the pieces of `rest` |
| Text.SplitJoin | script/utils.py:117 | `", ".join` is undone by splitting at `", "` when no piece has a comma: the inverse of `join` |
| Dicts.FromPairs | script/apps_data.py:12-24 | a dict literal's key order is the keys as written |
| Dicts.FromPairsDomain | script/apps_data.py:12-24 | a dict literal stores exactly its listed keys |
| Dicts.FromPairsValues | script/apps_data.py:12-24 | with no key written twice, each key reads back the value written beside it |
| Dicts.FromPairsEntries | apps_data.py:12-23 | a dict literal without repeated keys is a well-formed dict mapping each key to its value |
| Dicts.SameEntries | script/apps_data_se.py:104-116 | two well-formed dicts with the same key order that agree on every key are equal |
| Dicts.KeepTruthy | script/apps_data_se.py:151 | `[d for d in ds if d]` keeps only non-empty dicts of `ds`, keeps every non-empty one, and keeps all of `ds` when every dict is non-empty |
| Dicts.KeepTruthyAppend | script/apps_data_se.py:151 | filtering a concatenation is filtering each part and concatenating: order is kept |
| Dicts.KeepTruthySnoc | script/apps_data_se.py:151 | one more dict is kept exactly when it is non-empty |
| Dicts.Lookup | script/apps_data.py:11-23 | `.get(k, default)`: the stored value, or the default when `k` is absent; `Dict.Get` is this lookup on the dict's values |
| Wrappers.FilterSome | script/apps_data.py:60 | `[d for d in ds if d]` over optional results: no longer than its input, only present values, every present value, and all of them in order when none is missing |
| Wrappers.FilterSomeAppend | script/apps_data.py:60 | filtering a concatenation is filtering each part and concatenating: present values keep their input order |
| Wrappers.FilterSomeSnoc | script/apps_data.py:60 | one more result is kept exactly when present; with the empty case this fixes the filter exactly |
| Utils.SliceOfSlice | script/utils.py:17 | a slice of a slice of `s` is a slice of `s` |
| Utils.SliceTransitive | script/utils.py:17 | the slice relation is transitive |
| Utils.PySliceIsSlice | script/utils.py:17 | `s[i:j]` is a contiguous piece of `s` for any bounds |
| Utils.StripIsSlice | script/utils.py:17 | `strip()` gives a contiguous piece of its input |
| Utils.GetTextFromHtml | script/utils.py:5-17 | the text is a contiguous piece of the HTML, no longer than it, with no whitespace at either end |
| Utils.OccursChar | script/utils.py:15 | a one-character pattern occurs exactly where that character stands |
| Utils.FindFirstChar | script/utils.py:15 | `find('>')` is the index of the first `>` |
| Utils.FindNoChar | script/utils.py:15 | `find('>')` is -1 without a `>`, so the slice starts at 0 |
| Utils.TextOfWrappedDiv | script/utils.py:15-17 | for `"<div" + a + ">" + s + "</div>"` with no `>` in `a`, the text is `strip(s)` |
| Utils.TextWithoutMarkup | apps_data_se.py:127-130 | with no `>` and no `</div>`, the slice runs from 0 to one before the end, so the last character is lost |
| Utils.TextWithoutCloseTag | script/utils.py:15-17 | with no `</div>`, the slice runs from after the first `>` to one before the end, or is empty when that end is not past the start |
| Utils.TextEmptyWhenCloseComesFirst | script/utils.py:15-17 | when the last `</div>` starts at or before the character after the first `>`, the text is `""` |
| Utils.ExtractKeywords | script/utils.py:100-120 | empty text gives `""`, and a vectorizer that raises gives `""` |
| Utils.KeywordsSplitBack | script/utils.py:114-117 | the keywords string splits back at `", "` into exactly the vectorizer's feature names |
| Utils.CellsOf | script/utils.py:48 | a record's CSV row has one cell per header name: the record's value under that name, or `""` when it has none |
| Utils.DictRows | script/utils.py:48 | `writerows` writes one row per record in order, each with the record's value per field name; it stops at the first record with a key outside the header, where DictWriter raises |
| Utils.HeaderCountConcat | script/utils.py:92-96 | header rows add up over concatenated row sequences |
| Utils.NoHeaderInDictRows | script/utils.py:96 | `writerows` never writes a header row |
| Utils.PathJoin | script/utils.py:39 | `os.path.join(folder, name)` ends with `name`; an absolute `name` is the whole result, otherwise the folder and `/` come first |
| Utils.AbsPath | script/utils.py:40 | `os.path.abspath` ends with the path, keeps an absolute path, and is absolute when the path or the working directory is |
| Utils.Rewritten | script/utils.py:44-48 | a rewritten file holds exactly one header, the first record's keys, then each record's cells in order; one row per record when all fit |
| Utils.Appended | script/utils.py:84-96 | appending to an existing file gives its old rows followed by `writerows`' rows for the records, so no header is added; a new file is written as by `Utils.Rewritten` |
| Utils.AppendData.AsList | script/utils.py:66-82 | a single dict becomes a one-element list and a list is kept; data that is not empty gives a non-empty list, so `data[0]` exists |
| Utils.AppendTwiceOneHeader | script/utils.py:86-96 | two appends to a file that did not exist leave exactly one header, the first batch's keys, followed by both batches' rows in call order |
| Utils.FileSystem.constructor | script/utils.py:19-98 | the file system starts with the given files, unwritable paths and working directory |
| Utils.FileSystem.SaveToCsv | script/utils.py:19-53 | empty data returns `None` and changes no file; an unopenable `data/<name>` returns `None` and changes no file; otherwise that file alone becomes the first record's keys followed by the records' rows, and the absolute path is returned exactly when no record raised |
| Utils.FileSystem.SaveToCsvHere | apps_data_se.py:132-150 | empty data or an unopenable file changes nothing; otherwise `file_name` alone becomes the header and rows, with no folder prefix |
| Utils.FileSystem.AppendToCsv | script/utils.py:55-98 | empty data, or an unopenable `temp_data/<name>`, changes nothing; a single dict is a one-element list; otherwise the rows go after the file's existing rows, with the header first only when the file did not exist |
| AppsDataSe.Record | script/apps_data_se.py:104-116 | the 11-column record has the columns in order, and each column holds its value |
| AppsDataSe.RecordValid | script/apps_data_se.py:104-116 | that record is a well-formed dict |
| AppsDataSe.PageRecord | script/apps_data_se.py:104-116 | a page's record has the 11 columns in order, and its "App URL" is the `app_url` argument |
| AppsDataSe.PageRecordDescribes | script/apps_data_se.py:37-116 | a page's record carries the category and URL arguments, the six looked-up fields or `"N/A"`, `""`/`"N/A"` for the address, the summary's keywords and the summary or `"N/A"` |
| AppsDataSe.DescribesPageUnique | script/apps_data_se.py:104-116 | any well-formed dict with those columns and column values is that record |
| AppsDataSe.SameRecord | script/apps_data_se.py:104-116 | two well-formed 11-column records that agree on every column are equal |
| AppsDataSe.DetailsLookups | script/apps_data_se.py:37-101 | reading the filled `details` dict back gives each stored value, except the address, which reads `""` whenever it was found |
| AppsDataSe.PlainField | script/apps_data_se.py:41-62 | a `.text` or `href` lookup gives the driver's string, or `"N/A"` when `find_element` raises |
| AppsDataSe.HtmlField | script/apps_data_se.py:64-76 | an outer-HTML lookup gives `get_text_from_html` of that HTML, which is a stripped contiguous piece of it, or `"N/A"` when `find_element` raises |
| AppsDataSe.SummaryText | script/apps_data_se.py:89-93 | the text handed to `extract_keywords` is the description's text, or `""` when its element is missing |
| AppsDataSe.ScrapeAppDetails | script/apps_data_se.py:21-116 | filling `details` step by step and projecting it gives exactly that page's record; a missing summary gives "Keywords" `""` and "Short Description" `"N/A"` |
| AppsDataSe.AddressNeverExtracted | apps_data_se.py:54-61 | "Developer address" is only `""` or `"N/A"`; it is `""` whenever the element is found, so it never holds extracted address text other than `""` or `"N/A"` |
| AppsDataSe.BlankPageRecord | apps_data_se.py:17-77 | a page where every lookup raises gives the full 11-column record: category and URL from the arguments, `""` keywords and `"N/A"` in the eight other columns |
| AppsDataSe.CatalogUrl | script/apps_data_se.py:133 | the catalog URL is the base, the category, `?gl=` and the country code, each at its place; `AppsDataSe.CatalogUrlRoundTrip` parses it back |
| AppsDataSe.CatalogUrlRoundTrip | script/apps_data_se.py:133 | a catalog URL parses back to its category and country code when the category has no `?` |
| AppsDataSe.ScrapedCatalogIsUpperCase | apps_data_se.py:95-104 | the loaded URL names the upper-cased category and country, with no lower-case letter left |
| AppsDataSe.CollectLinks | script/apps_data_se.py:138-148 | the link set holds exactly the hrefs seen after the first scroll, because the loop breaks after one pass |
| AppsDataSe.Urls | script/apps_data_se.py:150 | one URL column per record |
| AppsDataSe.UrlsSnoc | script/apps_data_se.py:150 | adding a record adds its URL at the end |
| AppsDataSe.AllDescribedSnoc | script/apps_data_se.py:150 | appending a record that describes its link's page keeps every record describing its page |
| AppsDataSe.AllDescribedTruthy | script/apps_data_se.py:151 | described records are non-empty, so the final filter removes nothing |
| AppsDataSe.DistinctCard | script/apps_data_se.py:150 | a repeat-free sequence listing exactly a set's elements has as many elements as the set |
| AppsDataSe.ScrapeLinks | script/apps_data_se.py:150-151 | succeeds exactly when every link's page loads; otherwise raises for a link whose page does not load; on success, one record per distinct link, URLs without repeats, each record its link's page record |
| AppsDataSe.ScrapePlayStore | script/apps_data_se.py:118-154 | a catalog that does not load raises for the upper-cased URL; otherwise the result is the link dispatch over the first pass's links, with the upper-cased category in each record |
| AppsDataSe.AllDescribedFit | script/apps_data_se.py:169 | every scraped record has the 11 columns, so each fits under the first record's header |
| AppsDataSe.OutputFileName | script/apps_data_se.py:168 | the stem has the category's length, with `_` for each space and every other character lower-cased; then `"__"`, the country code as given and `"_file.csv"` |
| AppsDataSe.LowerReplaceCommute | script/apps_data_se.py:168 | lower-casing and replacing spaces commute |
| AppsDataSe.OutputFileNameCase | apps_data_se.py:172 | categories differing only in letter case share a file name; different country codes never do |
| AppsDataSe.GetAppsData | script/apps_data_se.py:156-170 | a scrape error escapes with no file changed; otherwise the records are saved under `data/` and the absolute path returned; the scraped records are one described record per distinct link, the file map changes only at that path, which holds the 11-column header and then each record's cells in order; no links, or an unopenable file, gives `None` and no change |
| AppsData.FetchAppDetails | script/apps_data.py:5-27 | `None` exactly when `app` raises; otherwise the 11 columns in order, starting with the literal `"Cateory"` |
| AppsData.ScriptValues | script/apps_data.py:12-24 | each column's value is the app's value under its source key, or `""`, and the keywords column holds the keywords |
| AppsData.ScriptKeysDistinct | script/apps_data.py:12-24 | no column is listed twice |
| AppsData.FetchedColumns | script/apps_data.py:11-24 | a fetched record is a well-formed dict; each column but the keywords is the source value or `""`; the keywords come from the description with 15 features |
| AppsData.FirstStop | script/apps_data.py:36-56 | the first stopping call from `i`: it stops and no call before it does |
| AppsData.QueryAt | script/apps_data.py:38-43 | each call searches the category in English for the country, asking for at least `num_results` hits |
| AppsData.QueryGrowth | script/apps_data.py:53 | the first call asks for `num_results` hits, and each later call for 100 more than the one before |
| AppsData.Ids | script/apps_data.py:48-50 | the app ids of the hits, one per hit in order |
| AppsData.Dedup | script/apps_data.py:47-51 | the kept hits are no more than the hits and are all among them; `AppsData.DedupIsFirstOccurrences` fixes them exactly |
| AppsData.DedupIds | script/apps_data.py:47-51 | the kept list has the same set of ids as the input |
| AppsData.DedupDistinct | script/apps_data.py:47-51 | `apps_list` has no repeated app id |
| AppsData.DedupIsFirstOccurrences | script/apps_data.py:47-51 | the kept hits are exactly the first hit per id, in encounter order, against an independent reference definition |
| AppsData.FirstIffNewId | script/apps_data.py:48 | a hit is the first with its id exactly when its id is not among the earlier ids |
| AppsData.DedupOfDistinct | script/apps_data.py:47-51 | a repeat-free list is kept whole |
| AppsData.IdsSnoc | script/apps_data.py:50 | appending a hit appends its id |
| AppsData.DedupSnoc | script/apps_data.py:48-51 | one more hit is kept exactly when its id is new |
| AppsData.DedupStep | script/apps_data.py:47-51 | the loop's step over the next hit of a batch |
| AppsData.DedupIdempotent | script/apps_data.py:47-51 | deduplicating twice is deduplicating once |
| AppsData.DetailsOf | script/apps_data.py:59-60 | at most one record per kept app, each that app's fetched details; the details of every app `app` answers for; exactly their details in order when every app answers |
| AppsData.Fetched | script/apps_data.py:59 | one fetch result per kept app, in order |
| AppsData.DetailsOfAppend | script/apps_data.py:59-60 | the details of a concatenation are the details of each part, concatenated: order is kept |
| AppsData.DetailsOfSnoc | script/apps_data.py:59-60 | one more app adds its details at the end exactly when `app` answers for it |
| AppsData.FetchAppsByCategory | script/apps_data.py:29-60 | the tally is the number of hits up to the first stopping call; the result is the details of the first hit per id over those hits, in order, with `None`s removed |
| AppsData.KeepNewIds | script/apps_data.py:47-51 | after a batch, `apps_list` is the deduplication of all hits so far, `apps_id` its ids and `count` its length |
| AppsData.NextBatch | script/apps_data.py:44-53 | a non-empty batch does not stop the loop, adds its hits to those seen, and is not the stopping call |
| AppsData.FirstStopIsFirst | script/apps_data.py:45-56 | a call that stops with none stopping before it is the first stop |
| RootAppsData.RootKeysDistinct | apps_data.py:12-23 | no column is listed twice |
| RootAppsData.RootValues | apps_data.py:12-23 | each column's value is the app's value under its source key, or `""`, and the keywords column holds the keywords |
| RootAppsData.FetchAppDetails | apps_data.py:5-26 | `None` exactly when `app` raises; otherwise the 10 columns in order, with no developer address |
| RootAppsData.FetchedColumns | apps_data.py:11-23 | a well-formed dict; each column but the keywords is the source value or `""`; the keywords use 5 features; "Developer address" reads `""` |
| RootAppsData.ColumnsCorrespond | apps_data.py:12-23 | the columns and source keys are the script version's with the address removed |
| RootAppsData.SameColumnsAsScript | apps_data.py:12-23 | every column but the keywords matches the script version's record for the same app |
| RootAppsData.Fetched | apps_data.py:39 | one fetch result per hit, in order |
| RootAppsData.DetailsOf | apps_data.py:39-40 | at most one record per hit, each that hit's fetched 10-column details; every answered hit's details; exactly their details in order when every app answers |
| RootAppsData.DetailsOfAppend | apps_data.py:39-40 | the details of a concatenation are the details of each part, concatenated: search order is kept |
| RootAppsData.FetchAppsByCategory | apps_data.py:28-43 | a search that raises gives `[]`; otherwise the result is `RootAppsData.DetailsOf` of the hits: only fetched 10-column records, every answered hit's details, and all of them in search order when every app answers |

## Left out

- Browser I/O is not modelled: Selenium driver creation, `time.sleep`, scrolling, XPath evaluation and `driver.quit()`. The page and the catalog are parameters instead.
- The `google_play_scraper` calls `search` and `app` are network calls into a library. They are parameters.
- The sklearn CountVectorizer internals (tokenising, stop words, `max_features`) are a foreign library. They are a parameter. Its feature names are assumed to contain no comma where `Utils.KeywordsSplitBack` needs that.
- `csv.DictWriter` quoting and escaping are library behaviour. So are non-string cell values such as `realInstalls`. Rows are sequences of strings.
- `os.makedirs` and real file-system errors other than an unopenable path are left out.
- `os.path.abspath` is modelled without `..` or `.` normalisation.
- Utils.FileSystem.SaveToCsv: an error raised between opening and writing the header is not modelled. A path either opens or is `unwritable`.
- Text.Upper, Text.Lower: only ASCII letters change case, because Python's full Unicode case mapping is not modelled.
- Text.Strip: the whitespace set is Python's `str.isspace`, listed by code point. Normalisation is not modelled.
- A search hit without an `appId` key would raise `KeyError` in `fetch_apps_by_category`. This is not modelled: every hit has an id.
- RootAppsData.FetchAppsByCategory: the `try` also covers `fetch_app_details`, but that function catches its own exceptions. Only the search can make it return `[]`.
- AppsData.FetchAppsByCategory: `search` can keep returning batches forever, and then the source loops forever. The method covers runs where some call stops, named by a ghost bound.
- `print` logging is omitted: every message, and the tally that `fetch_apps_by_category` prints.
- The `__main__` blocks are not modelled. Their output-name expression is `AppsDataSe.OutputFileName`.
- main.py is a Flask HTTP wrapper: request parsing, 400/404 responses and `send_file`. It is not part of this model.
- The order in which a Python set iterates is unspecified. `AppsDataSe.ScrapeLinks` visits links in an arbitrary order and states its result for every order.
