# outline-rag-scraper, modelled in Dafny

outline-rag-scraper copies a documentation wiki into an OpenWebUI knowledge
collection. It has two pipelines, each started by an HTTP handler:

- **export** pages through the wiki's document list and downloads each
  document's Markdown. It writes every document to a staging directory as
  `Document URL: <url>\n\n<body>`. Documents are grouped into one
  sub-directory per collection, named after the collection's display name.
  That name is looked up once and then cached.
- **upload** (the sync) empties the knowledge collection: it lists the
  collection's files and removes each one. It then uploads every top-level
  `.md` file of the staging directory and registers each returned file id
  with the collection.

The export's outbound calls go through a rate-limit wrapper. On HTTP 429
(section 4 of RFC 6585) it waits for the `Retry-After` header, read as a
number of **milliseconds**, and tries again with no cap. The project also
models:

- the title sanitisers;
- the configuration defaults;
- the decoding of the collection-mapping table;
- the older single-file variant of the service in `main.go`.

This project models those pieces and proves what they promise. The modules
are:

| module | file | models |
|---|---|---|
| `Common` | common.dfy | the `Result`/`Option` types and the kinds of error |
| `Strconv` | strconv.dfy | Go's `strconv.Atoi` on int64, proved against decimal rendering `Itoa` |
| `Sanitize` | sanitize.dfy | `SanitizeURLTitle` and `SanitizeFilename` (utils/utils.go) as functions on character sequences |
| `Configuration` | config.dfy | `LoadConfig` (config/config.go) as a method, with the function `ConfigFromEnv` it is proved against |
| `Http` | http.dfy | the shape of one HTTP reply, and the status checks the handlers apply |
| `RateLimit` | ratelimit.dfy | `doRequestWithRateLimit`, over a script of replies; it includes the int64 wrap-around of `time.Duration` |
| `CollectionCache` | namecache.dfy | `fetchCollectionName` as a class owning the cache map, proved against `Resolve` |
| `Staging` | staging.dfy | the staging directory as a class holding a map from path to content, plus the set of directories made |
| `Export` | export.dfy | `exportAndSaveDocument` and `ExportDocumentsHandler` as methods, proved against `ExportDoc`/`ExportAll` and the pagination functions |
| `Sync` | sync.dfy | the upload pipeline as methods of a `KnowledgeCollection` class, proved against `ClearSpec`/`UploadSpec`/`SyncSpec` |
| `Mappings` | mappings.dfy | `GetCollectionMappings`: split on `,`, trim every piece in place, build the map; `strings.Join` is its partner |
| `Legacy` | legacy.dfy | the export and configuration of `main.go`, proved equal to the handlers' export on documents without collections |

### How the outside world is modelled

The HTTP services, the clock and the disk are not executed. They enter as
oracles: functions from the request's argument to its outcome.

- **Export oracles.** One per call:
  - a page or an error per list offset;
  - a body or an error per document id;
  - a name or an error per collection id;
  - whether `MkdirAll` or `WriteFile` fails at a given path.

  Each of these results already includes the rate-limit wrapper, the status
  check and the JSON decoding.
- **The retry rule itself** is modelled on the sequence of replies the
  server gives.
- **Sync oracles.** The sink is described by:
  - the listing reply;
  - a reply per remove id, upload path and add id;
  - the directory listing, as `(name, isDir)` entries.

  The sink's state is the set of its member file ids and the log of requests
  issued.
- **Configuration.** The environment is a map. An unset variable reads as
  `""`.

### Pagination and termination

The Go export loop runs until a page is empty or fails. With `LIMIT` 0 and
a non-empty first page it never stops (`Export.ZeroLimitNeverStops`).

Rather than demanding `Limit > 0`, the handler methods take a ghost page
index `last` at which the listing stops. They then prove:

- the number of list calls (stopping page + 1);
- the error reported;
- the exact files written and cache contents, as `ExportAll` over the
  documents of the pages before the stop.

### The older variant in main.go

`main.go` holds an older copy of the service:

- **Sanitisers.** `main.go:83-96` is the same code as `utils/utils.go:9-21`,
  so the `Sanitize` functions serve both.
- **Upload pipeline.** `main.go:218-378` is the same code as
  `handlers/upload.go:21-182`, apart from names and comments, so `Sync`
  models both.
- **Export.** `main.go:103-211` differs from the handlers' export in two ways:
  - it never retries a 429;
  - it always writes into `DocumentsDir`.

  `Legacy.LegacyIsUngroupedExport` proves that the legacy export is the
  handlers' export run on the same documents with no collection.
  `Legacy.LegacyDoesNotRetry` states the retry difference.

## Model

| member | source | states |
|---|---|---|
| Strconv.Decimal | config/config.go:48 | a digit string has a value exactly when it is non-empty and all digits |
| Strconv.Atoi | config/config.go:48 | any accepted value lies in the int64 range and comes from a non-empty string |
| Strconv.DecimalFormatNat | config/config.go:48 | reading the decimal rendering of n gives back n |
| Strconv.AtoiItoa | config/config.go:48 | Atoi accepts the decimal rendering of every int64, positive or negative, and returns that value |
| Strconv.AtoiRejectsMalformed | config/config.go:48 | the empty string, a lone sign, or any non-digit after the optional sign is rejected |
| Strconv.AtoiUnsigned | config/config.go:48 | an unsigned digit string is accepted exactly when its value fits in int64, and then gives that value |
| Strconv.AtoiNegated | config/config.go:48 | a '-' before a digit string negates its value, accepted exactly when the result fits in int64 |
| Strconv.AtoiPlus | config/config.go:48 | a leading '+' is accepted and changes nothing: "+5" reads as "5" |
| Strconv.AtoiRejectsOutOfRange | config/config.go:48 | the decimal rendering of an integer outside the int64 range is rejected (Go's range error) |
| Sanitize.ToLower | utils/utils.go:10 | lower-casing keeps the length |
| Sanitize.FilterShape | utils/utils.go:19-20 | a regex deletion keeps only allowed characters and never lengthens |
| Sanitize.FilterAppend | utils/utils.go:19-20 | deleting characters distributes over concatenation |
| Sanitize.CollapseRunsShape | utils/utils.go:11-12 | after replacing each run of non-[a-z0-9] by one '-': only [a-z0-9-], no "--", no longer than the input, empty iff the input is, and the first character is the input's or '-' |
| Sanitize.SkipRunStopsAtAlnum | utils/utils.go:11-12 | a maximal run ends at a [a-z0-9] character or at the end |
| Sanitize.TrimLeftHyphensShape | utils/utils.go:13 | trimming leading '-' leaves a suffix not starting with '-', and only '-' was removed |
| Sanitize.TrimRightHyphensShape | utils/utils.go:13 | trimming trailing '-' leaves a prefix not ending with '-', and only '-' was removed |
| Sanitize.SanitizeURLTitleIsSlug | utils/utils.go:9-14 | the slug has only [a-z0-9-], no "--", no '-' at either end, and is no longer than the title |
| Sanitize.SlugIsFixedPoint | utils/utils.go:9-14 | a string already of slug shape is returned unchanged |
| Sanitize.SanitizeURLTitleFixedPoints | utils/utils.go:9-14 | SanitizeURLTitle(s) == s exactly when s has slug shape (both directions) |
| Sanitize.SanitizeURLTitleIdempotent | utils/utils.go:9-14 | sanitising a slug again changes nothing |
| Sanitize.SanitizeURLTitleKeepsAlnum | utils/utils.go:9-14 | the slug keeps every [a-z0-9] character of the lower-cased title, in order, and no other alphanumerics |
| Sanitize.SanitizeURLTitleEmpty | utils/utils.go:9-14 | the empty title gives the empty slug |
| Sanitize.CollapseRunsOfSlugChars | utils/utils.go:11-12 | a string of [a-z0-9-] without "--" is left unchanged by the run replacement |
| Sanitize.CollapseRunsKeepsAlnum | utils/utils.go:11-12 | the run replacement keeps every [a-z0-9] character, in order, and adds none |
| Sanitize.CollapseRunsExample | utils/utils.go:11-12 | "my doc!" becomes "my-doc-" |
| Sanitize.TrimHyphensExample | utils/utils.go:13 | "my-doc-" is trimmed to "my-doc" |
| Sanitize.SanitizeURLTitleExample | utils/utils.go:9-14 | "My Doc!" becomes "my-doc" |
| Sanitize.SpacesToUnderscores | utils/utils.go:18 | replacing spaces keeps the length |
| Sanitize.SanitizeFilenameShape | utils/utils.go:17-21 | the file name has only [A-Za-z0-9_-] and is no longer than the title |
| Sanitize.SanitizeFilenameChar | utils/utils.go:17-21 | per character: a space becomes '_', an allowed character stays, any other is dropped |
| Sanitize.SanitizeFilenameAppend | utils/utils.go:17-21 | sanitising distributes over concatenation, so with SanitizeFilenameChar it fixes the output as the kept subsequence |
| Sanitize.SanitizeFilenameFixedPoints | utils/utils.go:17-21 | SanitizeFilename(s) == s exactly when s has only allowed characters (both directions) |
| Sanitize.SanitizeFilenameIdempotent | utils/utils.go:17-21 | sanitising a file name again changes nothing |
| Sanitize.SanitizeFilenameExample | utils/utils.go:17-21 | "My Doc!" becomes "My_Doc" |
| Sanitize.SanitizeFilenameCollectionExample | utils/utils.go:17-21 | "HR Team" becomes "HR_Team" |
| Configuration.LoadConfig | config/config.go:27-61 | fails exactly when API_BASE_URL is empty. Otherwise: Port is "8080" when PORT is empty, DocumentsDir is "./tmp-files" when DOCUMENTS_DIR is empty, Limit follows LimitSetting, and every other field is copied from the environment |
| Configuration.LimitSettingValues | config/config.go:46-55 | every int64 written in decimal is taken as it is, zero and negatives included; any string Atoi rejects, the empty one included, gives 100 |
| Configuration.ConfigLimitFromEnv | config/config.go:46-55 | a decimal LIMIT in the environment becomes Config.Limit unchanged |
| Http.Expect200 | handlers/export.go:86-92 | success exactly for a 200 reply whose body decodes, returning the decoded body; any other status is reported as that status |
| Http.StatusOk | handlers/upload.go:71-73 | success exactly for a 200 reply; any other status is reported as that status |
| RateLimit.WrapInt64 | handlers/export.go:49 | the result is in the int64 range and equals the input when the input already is |
| RateLimit.FirstFinal | handlers/export.go:31-39 | every reply before the index is a 429, and the reply at the index is not |
| RateLimit.RetriedOutcomeNever429 | handlers/export.go:30-58 | once the loop stops, a caller that wants status 200 never sees a 429 failure, and a success comes from a 200 reply in the script; the outcome is absent exactly while the loop is still retrying |
| RateLimit.DoRequestWithRateLimit | handlers/export.go:30-58 | returns the first non-429 reply (a transport error included) after index+1 sends, with one wait per 429 before it; when every reply is a 429 it is still retrying |
| RateLimit.RetryWaitWraps | handlers/export.go:45-49 | for every int64 Retry-After ms the wait is ms·10^6 ns wrapped to int64, as time.Duration(ms) * time.Millisecond computes it |
| RateLimit.RetryWaitMillis | handlers/export.go:42-53 | for 0 <= ms <= MaxInt64/10^6 a Retry-After of ms waits exactly ms milliseconds; an absent or non-integer header waits one second |
| RateLimit.RetryWaitNegative | handlers/export.go:45-49 | for -(MaxInt64/10^6) <= ms < 0 the wait is ms·10^6 < 0, so there is no sleep |
| RateLimit.RetryWaitOverflow | handlers/export.go:49 | for ms·10^6 between 2^63 and 2^64 the wait wraps to ms·10^6 − 2^64 < 0 |
| RateLimit.RetryScenario | handlers/export.go:30-58 | for a 429 then a 200, the 200 ends the loop, with or without a Retry-After header; a header of 50 waits 50 ms |
| CollectionCache.NameCache.FetchCollectionName | handlers/export.go:98-149 | the method's name, cache and lookup flag are those of Resolve, and a hit returns the cached name without a lookup |
| CollectionCache.ResolveHit | handlers/export.go:100-104 | a hit returns the cached name, performs no lookup, and leaves the cache alone |
| CollectionCache.ResolveMiss | handlers/export.go:107-148 | a miss performs one lookup; success stores id -> name and returns it, failure returns the error and leaves the cache unchanged |
| CollectionCache.ResolveOnlyWritesId | handlers/export.go:143-146 | no key but the requested id is ever written, and stored names never change |
| CollectionCache.ResolveTwice | handlers/export.go:98-149 | two sequential resolutions of an id make one lookup: after a success the second is a hit with the same name |
| Staging.StagingDir.MkdirAll | handlers/export.go:207-210 | on success the directory and all its ancestors exist; on failure nothing changes; files are untouched |
| Staging.StagingDir.WriteFile | handlers/export.go:211-215 | on success the file at the path holds the content, overwriting what was there; on failure nothing changes |
| Export.ExportAll | handlers/export.go:239-243 | one outcome per document, and at most one lookup per document |
| Export.StopIndex | handlers/export.go:229-245 | the stopping page is the first page that is empty or fails: every page before it is non-empty |
| Export.RetriedListingNever429 | handlers/export.go:80-88 | when every page outcome is what the retry loop hands on for that offset's replies, the page that stops the listing never fails with status 429 |
| Export.ExportAndSaveDocument | handlers/export.go:153-218 | outcome, lookup flag, cache and staging directory are those of ExportDoc on the old state |
| Export.ExportPage | handlers/export.go:239-243 | exporting a page continues the run over exactly that page's documents, in order, whatever fails |
| Export.ExportDocumentsHandler | handlers/export.go:228-248 | list calls equal the stopping page's index plus one. The run fails exactly when that page's fetch failed, with its error. The outcomes, cache and files are those of exporting every document of the earlier pages in order |
| Export.ExportFailureChangesNothing | handlers/export.go:175-186 | a failed export call creates no directory, writes no file, makes no lookup and reports its error |
| Export.SaveWrites | handlers/export.go:207-215 | saving succeeds exactly when neither mkdir nor write fails. On success exactly the content is written at dir/name. The cache and lookup flag are untouched |
| Export.PlaceDir | handlers/export.go:189-205 | the directory is DocumentsDir when there is no collection, the lookup fails, or the sanitized name is empty; otherwise DocumentsDir/<sanitized name> |
| Export.PlaceLookup | handlers/export.go:191-192 | a lookup is made exactly for a collection not in the cache; the cache gains only that entry, only on success |
| Export.ExportedFileContent | handlers/export.go:155-213 | the file holds exactly "Document URL: " + DocsBaseURL + "/" + slug + "-" + URLId + "\n\n" + body, at DocumentsDir/[group/]<sanitized title>.md, and no other file changes |
| Export.ExportDestination | handlers/export.go:189-212 | the full path is DocumentsDir/<title>.md or DocumentsDir/<sanitized collection name>/<title>.md, by the rule of PlaceDir |
| Export.ExportLookupDiscipline | handlers/export.go:175-201 | a lookup happens exactly when the export call succeeded, the document has a collection, and the cache lacks it; only that entry can be added, and only with the looked-up name |
| Export.ExampleNames | handlers/export.go:155-157 | "My Doc!" gets file My_Doc.md and URL <base>/my-doc-xyz; collection "HR Team" gets directory HR_Team |
| Export.ExportExample | handlers/export.go:153-218 | "My Doc!" in collection "HR Team" is written to ./tmp/HR_Team/My_Doc.md with its URL header, and the name is cached |
| Export.ExportAllCacheGrows | handlers/export.go:143-146 | over a run, cached names never change, and every new key is the collection of some document of the run |
| Export.ExportAllLookupsOncePerCollection | handlers/export.go:100-104 | when every lookup succeeds, a run makes exactly as many lookups as cache entries it adds, and keeps the old keys: no collection is looked up twice |
| Export.PaginationExample | handlers/export.go:229-245 | with limit 1, one page of one document then an empty page makes two list calls and exports that document |
| Export.ZeroLimitNeverStops | handlers/export.go:244 | with Limit 0 and a non-empty first page, no page ever stops the loop |
| Sync.CheckUpload | handlers/upload.go:105-121 | the upload is accepted exactly for status 200 or 201 with a decodable body whose "id" is a non-empty string, and yields that id |
| Sync.KnowledgeCollection.RemoveFileFromKnowledge | handlers/upload.go:51-76 | logs one remove request; the id leaves the collection exactly when the reply is 200 |
| Sync.KnowledgeCollection.ClearKnowledgeCollection | handlers/upload.go:21-48 | result and new state are those of ClearSpec: the listing, then one removal per listed id in order |
| Sync.KnowledgeCollection.AddToKnowledgeCollection | handlers/upload.go:127-152 | logs one add request; the id joins the collection exactly when the reply is 200 |
| Sync.KnowledgeCollection.UploadToOpenWebUI | handlers/upload.go:79-124 | result and new state are those of UploadSpec: no request when the file cannot be opened; otherwise the upload, then an add only for the returned id |
| Sync.KnowledgeCollection.UploadDocumentsHandler | handlers/upload.go:162-182 | result, per-file outcomes and new state are those of SyncSpec: clear, read the directory, then upload each candidate |
| Sync.RemoveEachEffect | handlers/upload.go:41-45 | clearing issues exactly one remove request per listed id, in order; exactly the ids whose removal returned 200 leave the collection, and failures are skipped |
| Sync.ClearListingFailure | handlers/upload.go:29-40 | a failed listing returns its error before any remove request |
| Sync.ClearRemovesEachListed | handlers/upload.go:41-47 | after a good listing, clear succeeds whatever the removals return, with one remove per listed id |
| Sync.ClearEmptiesCollection | handlers/upload.go:21-48 | when the listing names every member and every removal succeeds, the collection ends empty |
| Sync.UploadRegistersReturnedId | handlers/upload.go:110-123 | an upload succeeds exactly when the id check and the add succeed. Only that id joins. The requests are none, the upload, or the upload then the add of that id |
| Sync.UploadStep | handlers/upload.go:79-124 | an upload's outcome depends only on the replies; it appends its own requests and never removes members |
| Sync.UploadAllEffect | handlers/upload.go:172-179 | every candidate is attempted in listing order, each outcome is that file's own, failures do not stop later files, and the requests are the candidates' in order |
| Sync.UploadAllOutcomes | handlers/upload.go:172-179 | one outcome per candidate, in listing order, each that file's own outcome |
| Sync.UploadAllRequests | handlers/upload.go:172-179 | the requests issued are the candidates' upload and add requests in order, and members only grow |
| Sync.CandidatesShape | handlers/upload.go:172-173 | an entry is a candidate exactly when it is listed, is not a directory and its name ends in ".md" (both directions) |
| Sync.UploadRequestsAreTopLevel | handlers/upload.go:172-175 | every uploaded path is DocumentsDir/<name> of a top-level candidate, so collection sub-directories are never uploaded |
| Sync.SyncFailures | handlers/upload.go:163-171 | a failed clear uploads nothing and the directory is not read; a failed directory read uploads nothing |
| Sync.SyncUploadsCandidates | handlers/upload.go:162-182 | after a good clear the handler succeeds whatever the uploads return, with one outcome per candidate, in order; every listed non-directory ".md" entry is among the candidates, and every uploaded path is top-level |
| Mappings.Split | models/models.go:66 | strings.Split always yields at least one piece |
| Mappings.TrimAll | models/models.go:67-69 | each piece is the trimmed piece at the same position |
| Mappings.TrimInPlace | models/models.go:67-69 | the array afterwards holds exactly the trimmed pieces |
| Mappings.GetCollectionMappings | models/models.go:57-73 | fails exactly when the row read fails, with its error; otherwise returns the map built from the rows in order |
| Mappings.SplitCount | models/models.go:66 | the number of pieces is the number of separators plus one, and no piece holds a separator |
| Mappings.SplitNoSep | models/models.go:66 | a string without separators is one piece |
| Mappings.SplitCons | models/models.go:66 | splitting a + sep + b gives a followed by the pieces of b |
| Mappings.SplitJoin | handlers/mappings.go:38 | splitting a separator-free list joined with the separator gives the list back |
| Mappings.TrimSpaceIsTrimmed | models/models.go:68 | a trimmed string has no white space at either end |
| Mappings.TrimSpaceOfTrimmed | models/models.go:68 | trimming a string without surrounding white space changes nothing |
| Mappings.TrimLeftSpaceStops | models/models.go:68 | trimming on the left stops at a non-space character |
| Mappings.TrimRightSpaceStops | models/models.go:68 | trimming on the right stops at a non-space character |
| Mappings.TrimRightSpaceIsPrefix | models/models.go:68 | trimming on the right leaves a prefix |
| Mappings.DecodeIdsShape | models/models.go:66-69 | a row yields commas + 1 ids, none with surrounding white space; an empty string yields one empty id |
| Mappings.DecodeJoinRoundTrip | models/models.go:66-69 | ids without commas or surrounding white space, joined with ",", decode back to the same list |
| Mappings.DecodeEmptyJoin | models/models.go:66-69 | the join of no ids decodes to one empty id, so the round trip needs a non-empty list |
| Mappings.DecodePaddedIds | models/models.go:66-69 | "a, b" decodes to ["a", "b"] |
| Mappings.MappingsKeys | models/models.go:64-71 | the keys are exactly the rows' Outline collections |
| Mappings.MappingsLastRowWins | models/models.go:70 | a key maps to the decoded ids of the last row with that key |
| Legacy.UngroupAll | main.go:54-58 | a legacy document list becomes a handlers document list of the same length |
| Legacy.LegacyExportAll | main.go:201-206 | one outcome per document |
| Legacy.LegacyExportAndSaveDocument | main.go:139-181 | the outcome and staging directory are those of LegacyExportDoc on the old state |
| Legacy.LegacyExportPage | main.go:201-206 | exporting a page continues the run over exactly that page's documents, in order, whatever fails |
| Legacy.LegacyExportDocumentsHandler | main.go:191-211 | list calls equal the stopping page's index plus one, and a failed page fetch, a 429 included, aborts with its error. The outcomes and files are those of exporting every document of the earlier pages in order |
| Legacy.LegacyLoadConfig | main.go:391-421 | fails exactly when config/config.go's LoadConfig does; otherwise its fields are exactly that Config's, DATABASE_URL aside |
| Legacy.LegacyDocIsUngroupedExport | main.go:139-181 | one legacy export equals the handlers' export of the same document without a collection: same outcome and files, no lookup, cache untouched |
| Legacy.LegacyIsUngroupedExport | main.go:191-211 | a legacy run equals the handlers' run over the same documents without collections, with no lookups and the cache untouched |
| Legacy.LegacyPagesAreUngrouped | main.go:193-200 | a legacy page continues the loop exactly when the handlers' page does, and the pages read are the same documents without collections |
| Legacy.LegacyDestination | main.go:171-179 | the export succeeds exactly when the export call, the mkdir and the write succeed; the file is always DocumentsDir/<title>.md, holding the URL header and the body |
| Legacy.LegacyDoesNotRetry | main.go:122-129 | a 429 page reply is an error (UnexpectedStatus 429), while the handlers' wrapper given 429 then 200 hands on the 200 |

## Left out

- HTTP transport, request building, bearer headers, JSON encoding and decoding, and the multipart body (section 4 of RFC 7578): their results are oracle outcomes (no reply, a status, a decoded body or none).
- The text of error messages and the log output: an error is one of the `Common.Error` kinds, and logged per-item failures are outcome values.
- `time.Sleep` and elapsed time: only the list of waits computed by the retry rule is modelled.
- `collectionCacheMu` and concurrency. The model is sequential, so it does not show two concurrent first lookups of one id each going to the network. Every pipeline in the source is sequential anyway.
- Oracles are functions, so a repeated call with the same argument gets the same answer. A document listed twice is exported twice with one answer.
- Export.ZeroLimitNeverStops: with LIMIT 0 the source asks for offset 0 again and again. The model assumes the server's answer for offset 0 does not change between those calls. A real server could return an empty page later and end the loop.
- The export oracles are not derived from reply scripts: each stands for the outcome after retrying. Export.RetriedListingNever429 states what that outcome can be when it does come from the retry loop.
- Strconv.Atoi: assumes Go's `int` is 64 bits wide. On a 32-bit platform strconv.Atoi rejects values outside the int32 range, and the model does not capture that.
- `filepath.Join`'s cleaning (`./tmp-files` becomes `tmp-files`): paths are lists of segments. Its dropping of an empty segment is modelled, so a collection name that sanitizes to "" lands in the root directory.
- `os.MkdirAll` creating some ancestors before failing: a failing MkdirAll changes nothing. Directory permissions are not modelled.
- The staging directory read by the upload pipeline is a listing given to the handler, not derived from the `Staging.StagingDir` of an export run. Go's `ReadDir` returns it sorted by name; the model takes any order.
- Go strings are byte strings. The model works on Unicode scalar values, as Go's regexp does for valid UTF-8; invalid UTF-8 is not modelled.
- Sanitize.ToLower: only ASCII letters are lowered. Go's Unicode `strings.ToLower` also maps a few non-ASCII letters to ASCII, such as U+212A to `k`; the model leaves those characters to the run replacement.
- Export.ExportDocumentsHandler: requires a page index at which the listing stops. Without one the Go loop never ends (see Export.ZeroLimitNeverStops), and a terminating method cannot express that. Legacy.LegacyExportDocumentsHandler has the same requirement.
- Export.ExportDocumentsHandler: the offset is an unbounded integer. Go's `int` would wrap after about 2^63 / Limit pages.
- RateLimit.DoRequestWithRateLimit: the server's replies are a finite script. When the script holds only 429s, the method reports that it is still retrying rather than looping forever.
- `fetchDocuments`' payload (sort by `updatedAt`, descending) and the `Authorization` headers: the page oracle stands for the whole call.
- `log.Fatal` on a missing API_BASE_URL is a `Failure(MissingApiBaseUrl)` result rather than process exit.
- `godotenv`: the environment is given as a map.
- The router, Swagger and server start-up (the rest of `main` in main.go, and handlers/register.go) are not part of this model; they are routing only.
- The HTTP handlers of handlers/mappings.go are not part of this model, apart from the join at line 38.
- utils/db.go (database connection and migration) is not part of this model. The table read becomes a `Result` of rows, and GORM's soft-delete filtering is not modelled.
