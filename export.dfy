/** The export pipeline of handlers/export.go: page through the source's
    document list, and for each document fetch its exported body, decide its
    directory (grouped by collection name when the name can be resolved) and
    write "Document URL: <url>\n\n<body>" there.

    The source API is a set of oracles that already include the rate-limit
    wrapper, the status check and JSON decoding: a page or an error per offset,
    an exported body or an error per document id, a name or an error per
    collection id, and whether MkdirAll or WriteFile fails at a path. */
module Export {
  import opened Common
  import opened Sanitize
  import opened Configuration
  import opened CollectionCache
  import opened Staging
  import opened Http
  import opened RateLimit

  datatype Document = Document(id: string, title: string, urlId: string, collectionId: string)

  datatype Oracles = Oracles(
    listPage: int -> Result<seq<Document>>,  // fetchDocuments(offset)
    exportBody: string -> Result<string>,     // documents.export by document id
    lookupName: string -> Result<string>,     // collections.info by collection id
    mkdirFails: Path -> bool,
    writeFails: Path -> bool)

  /** Everything an export run changes: the collection-name cache and the
      staging directory. */
  datatype ExportState = ExportState(cache: map<string, string>, files: map<Path, string>, dirs: set<Path>)

  /** The outcome of exporting one document, the state after it, and whether a
      collection-name lookup went to the network. */
  datatype DocStep = DocStep(outcome: Result<Path>, state: ExportState, lookedUp: bool)

  // ---------------------------------------------------------------------------
  // What exportAndSaveDocument computes

  function DocumentURL(docsBaseUrl: string, doc: Document): string {
    docsBaseUrl + "/" + SanitizeURLTitle(doc.title) + "-" + doc.urlId
  }

  function FileContent(url: string, body: string): string {
    "Document URL: " + url + "\n\n" + body
  }

  function FileName(doc: Document): string {
    SanitizeFilename(doc.title) + ".md"
  }

  /** filepath.Join(dir, name) on segment lists: an empty name adds nothing. */
  function JoinPath(dir: Path, name: string): Path {
    if name == "" then dir else dir + [name]
  }

  function RootDir(cfg: Config): Path {
    [cfg.documentsDir]
  }

  /** Where the document goes, the cache after any lookup, and whether a
      lookup was made. */
  datatype Placement = Placement(dir: Path, cache: map<string, string>, lookedUp: bool)

  function Place(cfg: Config, o: Oracles, doc: Document, cache: map<string, string>): Placement {
    if doc.collectionId == "" then Placement(RootDir(cfg), cache, false)
    else
      var r := Resolve(cache, doc.collectionId, o.lookupName);
      match r.name
      case Failure(_) => Placement(RootDir(cfg), r.cache, r.lookedUp)
      case Success(name) => Placement(JoinPath(RootDir(cfg), SanitizeFilename(name)), r.cache, r.lookedUp)
  }

  /** mkdir then write: what happens once the body and the directory are known. */
  function Save(o: Oracles, dir: Path, name: string, content: string, st: ExportState, lookedUp: bool): DocStep {
    if o.mkdirFails(dir) then DocStep(Failure(MkdirError), st, lookedUp)
    else
      var st1 := st.(dirs := st.dirs + Prefixes(dir));
      var path := JoinPath(dir, name);
      if o.writeFails(path) then DocStep(Failure(WriteError), st1, lookedUp)
      else DocStep(Success(path), st1.(files := st1.files[path := content]), lookedUp)
  }

  /** exportAndSaveDocument on a state value. */
  function ExportDoc(cfg: Config, o: Oracles, doc: Document, st: ExportState): DocStep {
    match o.exportBody(doc.id)
    case Failure(e) => DocStep(Failure(e), st, false)
    case Success(body) =>
      var place := Place(cfg, o, doc, st.cache);
      Save(o, place.dir, FileName(doc), FileContent(DocumentURL(cfg.docsBaseUrl, doc), body),
           st.(cache := place.cache), place.lookedUp)
  }

  /** The documents of a run exported one after the other; a failure is
      recorded and the next document is still exported. */
  datatype Run = Run(outcomes: seq<Result<Path>>, state: ExportState, lookups: nat)

  function ExportAll(cfg: Config, o: Oracles, docs: seq<Document>, st: ExportState): (r: Run)
    ensures |r.outcomes| == |docs|
    ensures r.lookups <= |docs|
    decreases |docs|
  {
    if docs == [] then Run([], st, 0)
    else
      var prev := ExportAll(cfg, o, docs[..|docs| - 1], st);
      var step := ExportDoc(cfg, o, docs[|docs| - 1], prev.state);
      Run(prev.outcomes + [step.outcome], step.state, prev.lookups + if step.lookedUp then 1 else 0)
  }

  /** Exporting one more document extends the run by that document's step. */
  lemma ExportAllSnoc(cfg: Config, o: Oracles, docs: seq<Document>, d: Document, st: ExportState)
    ensures var prev := ExportAll(cfg, o, docs, st);
      var step := ExportDoc(cfg, o, d, prev.state);
      ExportAll(cfg, o, docs + [d], st)
        == Run(prev.outcomes + [step.outcome], step.state, prev.lookups + if step.lookedUp then 1 else 0)
  {
    assert (docs + [d])[..|docs|] == docs;
  }

  // ---------------------------------------------------------------------------
  // Pagination: offsets 0, L, 2L, ... until the first empty page or error

  /** Page k (at offset k * limit) is a non-empty page, so the loop goes on. */
  predicate Continues<T>(listPage: int -> Result<seq<T>>, limit: int, k: nat) {
    listPage(k * limit).Success? && |listPage(k * limit).value| > 0
  }

  /** The index of the page at which the loop stops: the first that is empty or
      an error, searched from k up to a page known to stop it. */
  function StopIndex<T>(listPage: int -> Result<seq<T>>, limit: int, k: nat, last: nat): (n: nat)
    requires k <= last && !Continues(listPage, limit, last)
    ensures k <= n <= last && !Continues(listPage, limit, n)
    ensures forall j :: k <= j < n ==> Continues(listPage, limit, j)
    decreases last - k
  {
    if !Continues(listPage, limit, k) then k else StopIndex(listPage, limit, k + 1, last)
  }

  /** The documents of pages 0 .. n-1, in order. */
  function PagesBefore<T>(listPage: int -> Result<seq<T>>, limit: int, n: nat): seq<T>
    requires forall j :: 0 <= j < n ==> Continues(listPage, limit, j)
  {
    if n == 0 then []
    else
      assert Continues(listPage, limit, n - 1);
      PagesBefore(listPage, limit, n - 1) + listPage((n - 1) * limit).value
  }

  /** A non-empty page k extends the pages read so far by its documents. */
  lemma PagesStep<T>(listPage: int -> Result<seq<T>>, limit: int, k: nat)
    requires forall j :: 0 <= j < k ==> Continues(listPage, limit, j)
    requires Continues(listPage, limit, k)
    ensures forall j :: 0 <= j < k + 1 ==> Continues(listPage, limit, j)
    ensures PagesBefore(listPage, limit, k + 1) == PagesBefore(listPage, limit, k) + listPage(k * limit).value
  {
  }

  // ---------------------------------------------------------------------------
  // The imperative handlers

  method ExportAndSaveDocument(cfg: Config, o: Oracles, doc: Document, cache: NameCache, fs: StagingDir)
    returns (outcome: Result<Path>, lookedUp: bool)
    modifies cache, fs
    ensures DocStep(outcome, ExportState(cache.entries, fs.files, fs.dirs), lookedUp)
         == ExportDoc(cfg, o, doc, ExportState(old(cache.entries), old(fs.files), old(fs.dirs)))
  {
    var docUrl := DocumentURL(cfg.docsBaseUrl, doc);
    lookedUp := false;
    var exported := o.exportBody(doc.id);
    if exported.Failure? {
      return Failure(exported.error), false;
    }
    var content := FileContent(docUrl, exported.value);
    var dirPath: Path;
    if doc.collectionId != "" {
      var name;
      name, lookedUp := cache.FetchCollectionName(doc.collectionId, o.lookupName);
      if name.Failure? {
        dirPath := [cfg.documentsDir];
      } else {
        dirPath := JoinPath([cfg.documentsDir], SanitizeFilename(name.value));
      }
    } else {
      dirPath := [cfg.documentsDir];
    }
    var made := fs.MkdirAll(dirPath, o.mkdirFails(dirPath));
    if made.Failure? {
      return Failure(made.error), lookedUp;
    }
    var filePath := JoinPath(dirPath, FileName(doc));
    var written := fs.WriteFile(filePath, content, o.writeFails(filePath));
    if written.Failure? {
      return Failure(written.error), lookedUp;
    }
    return Success(filePath), lookedUp;
  }

  /** The inner loop of ExportDocumentsHandler: each document of one page, in
      order, continuing a run that has exported `done` so far. */
  method ExportPage(cfg: Config, o: Oracles, docsResp: seq<Document>, cache: NameCache, fs: StagingDir,
                    ghost done: seq<Document>, ghost st0: ExportState, outcomesSoFar: seq<Result<Path>>)
    returns (outcomes: seq<Result<Path>>)
    requires outcomesSoFar == ExportAll(cfg, o, done, st0).outcomes
    requires ExportState(cache.entries, fs.files, fs.dirs) == ExportAll(cfg, o, done, st0).state
    modifies cache, fs
    ensures outcomes == ExportAll(cfg, o, done + docsResp, st0).outcomes
    ensures ExportState(cache.entries, fs.files, fs.dirs) == ExportAll(cfg, o, done + docsResp, st0).state
  {
    outcomes := outcomesSoFar;
    var i := 0;
    ghost var seen := done;
    assert docsResp[..0] == [];
    while i < |docsResp|
      invariant i <= |docsResp|
      invariant seen == done + docsResp[..i]
      invariant outcomes == ExportAll(cfg, o, seen, st0).outcomes
      invariant ExportState(cache.entries, fs.files, fs.dirs) == ExportAll(cfg, o, seen, st0).state
    {
      ExportAllSnoc(cfg, o, seen, docsResp[i], st0);
      var outcome, _ := ExportAndSaveDocument(cfg, o, docsResp[i], cache, fs);
      outcomes := outcomes + [outcome];
      assert docsResp[..i + 1] == docsResp[..i] + [docsResp[i]];
      seen := seen + [docsResp[i]];
      i := i + 1;
    }
    assert docsResp[..i] == docsResp;
  }

  /** ExportDocumentsHandler. `last` is a page index at which the source
      returns an empty page or an error; without one the Go loop never ends. */
  method ExportDocumentsHandler(cfg: Config, o: Oracles, cache: NameCache, fs: StagingDir, ghost last: nat)
    returns (r: Result<()>, listCalls: nat, outcomes: seq<Result<Path>>)
    requires !Continues(o.listPage, cfg.limit, last)
    modifies cache, fs
    ensures var n := StopIndex(o.listPage, cfg.limit, 0, last);
      var run := ExportAll(cfg, o, PagesBefore(o.listPage, cfg.limit, n),
                           ExportState(old(cache.entries), old(fs.files), old(fs.dirs)));
      && listCalls == n + 1
      && (r.Failure? <==> o.listPage(n * cfg.limit).Failure?)
      && (r.Failure? ==> r.error == o.listPage(n * cfg.limit).error)
      && outcomes == run.outcomes
      && ExportState(cache.entries, fs.files, fs.dirs) == run.state
  {
    ghost var n := StopIndex(o.listPage, cfg.limit, 0, last);
    ghost var st0 := ExportState(cache.entries, fs.files, fs.dirs);
    ghost var k: nat := 0;
    ghost var docs: seq<Document> := [];
    var offset := 0;
    listCalls, outcomes := 0, [];
    while true
      invariant k <= n
      invariant offset == k * cfg.limit
      invariant listCalls == k
      invariant docs == PagesBefore(o.listPage, cfg.limit, k)
      invariant outcomes == ExportAll(cfg, o, docs, st0).outcomes
      invariant ExportState(cache.entries, fs.files, fs.dirs) == ExportAll(cfg, o, docs, st0).state
      decreases n - k
    {
      var page := o.listPage(offset);
      listCalls := listCalls + 1;
      if page.Failure? {
        assert !Continues(o.listPage, cfg.limit, k);
        return Failure(page.error), listCalls, outcomes;
      }
      if |page.value| == 0 {
        assert !Continues(o.listPage, cfg.limit, k);
        break;
      }
      PagesStep(o.listPage, cfg.limit, k);
      var docsResp := page.value;
      outcomes := ExportPage(cfg, o, docsResp, cache, fs, docs, st0, outcomes);
      docs := docs + docsResp;
      assert (k + 1) * cfg.limit == k * cfg.limit + cfg.limit;
      offset := offset + cfg.limit;
      k := k + 1;
    }
    r := Success(());
  }

  // ---------------------------------------------------------------------------
  // Properties of one document's export

  /** A failed export call (transport, status, decoding) creates no directory,
      writes no file and makes no collection lookup. */
  lemma ExportFailureChangesNothing(cfg: Config, o: Oracles, doc: Document, st: ExportState)
    requires o.exportBody(doc.id).Failure?
    ensures ExportDoc(cfg, o, doc, st) == DocStep(Failure(o.exportBody(doc.id).error), st, false)
  {
  }

  /** Saving touches only the staging directory, and a successful save
      writes exactly `content` at dir/name. */
  lemma SaveWrites(o: Oracles, dir: Path, name: string, content: string, st: ExportState, lookedUp: bool)
    ensures var r := Save(o, dir, name, content, st, lookedUp);
      && r.lookedUp == lookedUp && r.state.cache == st.cache
      && (r.outcome.Success? <==> !o.mkdirFails(dir) && !o.writeFails(JoinPath(dir, name)))
      && (r.outcome.Success? ==>
            r.outcome.value == JoinPath(dir, name) && r.state.files == st.files[JoinPath(dir, name) := content])
      && (r.outcome.Failure? ==> r.state.files == st.files)
  {
  }

  /** The directory is DocumentsDir, or DocumentsDir/<sanitized collection
      name> when the document's collection resolves to a name whose sanitized
      form is not empty. */
  lemma PlaceDir(cfg: Config, o: Oracles, doc: Document, cache: map<string, string>)
    ensures var p := Place(cfg, o, doc, cache);
      var r := Resolve(cache, doc.collectionId, o.lookupName);
      && (doc.collectionId == "" || r.name.Failure? || SanitizeFilename(r.name.value) == "" ==>
            p.dir == [cfg.documentsDir])
      && (doc.collectionId != "" && r.name.Success? && SanitizeFilename(r.name.value) != "" ==>
            p.dir == [cfg.documentsDir, SanitizeFilename(r.name.value)])
  {
  }

  /** A lookup is made exactly for a document with a collection that is not
      cached, and the cache gains at most that collection's looked-up name. */
  lemma PlaceLookup(cfg: Config, o: Oracles, doc: Document, cache: map<string, string>)
    ensures var p := Place(cfg, o, doc, cache);
      && (p.lookedUp <==> doc.collectionId != "" && doc.collectionId !in cache)
      && p.cache == (if p.lookedUp && o.lookupName(doc.collectionId).Success?
                     then cache[doc.collectionId := o.lookupName(doc.collectionId).value] else cache)
  {
  }

  /** A saved document's file holds exactly "Document URL: " + DocsBaseURL +
      "/" + slug + "-" + URLId + "\n\n" + body, at DocumentsDir/[group/]
      <sanitized title>.md; no other file changes. */
  lemma ExportedFileContent(cfg: Config, o: Oracles, doc: Document, st: ExportState)
    requires ExportDoc(cfg, o, doc, st).outcome.Success?
    ensures o.exportBody(doc.id).Success?
    ensures var p := ExportDoc(cfg, o, doc, st).outcome.value;
      && ExportDoc(cfg, o, doc, st).state.files == st.files[p :=
           "Document URL: " + cfg.docsBaseUrl + "/" + SanitizeURLTitle(doc.title) + "-" + doc.urlId
           + "\n\n" + o.exportBody(doc.id).value]
      && 2 <= |p| <= 3 && p[0] == cfg.documentsDir
      && p[|p| - 1] == SanitizeFilename(doc.title) + ".md"
  {
    var body := o.exportBody(doc.id).value;
    var place := Place(cfg, o, doc, st.cache);
    var content := FileContent(DocumentURL(cfg.docsBaseUrl, doc), body);
    PlaceDir(cfg, o, doc, st.cache);
    SaveWrites(o, place.dir, FileName(doc), content, st.(cache := place.cache), place.lookedUp);
    assert FileName(doc) != "";
    assert content == "Document URL: " + cfg.docsBaseUrl + "/" + SanitizeURLTitle(doc.title) + "-" + doc.urlId
                      + "\n\n" + body;
  }

  /** The full destination: DocumentsDir/<title>.md when the document has no
      collection or its name cannot be resolved (or sanitizes to nothing),
      otherwise DocumentsDir/<sanitized name>/<title>.md. */
  lemma ExportDestination(cfg: Config, o: Oracles, doc: Document, st: ExportState)
    requires ExportDoc(cfg, o, doc, st).outcome.Success?
    ensures var p := ExportDoc(cfg, o, doc, st).outcome.value;
      var r := Resolve(st.cache, doc.collectionId, o.lookupName);
      && (doc.collectionId == "" || r.name.Failure? || SanitizeFilename(r.name.value) == "" ==>
            p == [cfg.documentsDir, FileName(doc)])
      && (doc.collectionId != "" && r.name.Success? && SanitizeFilename(r.name.value) != "" ==>
            p == [cfg.documentsDir, SanitizeFilename(r.name.value), FileName(doc)])
  {
    var body := o.exportBody(doc.id).value;
    var place := Place(cfg, o, doc, st.cache);
    var content := FileContent(DocumentURL(cfg.docsBaseUrl, doc), body);
    PlaceDir(cfg, o, doc, st.cache);
    SaveWrites(o, place.dir, FileName(doc), content, st.(cache := place.cache), place.lookedUp);
    assert FileName(doc) != "";
  }

  /** A collection lookup goes to the network exactly when the export call
      succeeded, the document has a collection, and the cache lacks it; only
      that collection's entry can be added, and only with the looked-up name. */
  lemma ExportLookupDiscipline(cfg: Config, o: Oracles, doc: Document, st: ExportState)
    ensures var step := ExportDoc(cfg, o, doc, st);
      && (step.lookedUp <==>
            o.exportBody(doc.id).Success? && doc.collectionId != "" && doc.collectionId !in st.cache)
      && step.state.cache == (if step.lookedUp && o.lookupName(doc.collectionId).Success?
                              then st.cache[doc.collectionId := o.lookupName(doc.collectionId).value] else st.cache)
  {
    if o.exportBody(doc.id).Success? {
      var body := o.exportBody(doc.id).value;
      var place := Place(cfg, o, doc, st.cache);
      var content := FileContent(DocumentURL(cfg.docsBaseUrl, doc), body);
      PlaceLookup(cfg, o, doc, st.cache);
      SaveWrites(o, place.dir, FileName(doc), content, st.(cache := place.cache), place.lookedUp);
    }
  }

  lemma UrlSuffix(base: string, slug: string, urlId: string)
    ensures base + "/" + slug + "-" + urlId == base + ("/" + slug + "-" + urlId)
  {
  }

  lemma ExampleSuffix()
    ensures "/" + "my-doc" + "-" + "xyz" == "/my-doc-xyz"
  {
  }

  /** The names and the URL of the end-to-end example. */
  lemma ExampleNames(base: string)
    ensures FileName(Document("abc", "My Doc!", "xyz", "c1")) == "My_Doc.md"
    ensures SanitizeFilename("HR Team") == "HR_Team"
    ensures DocumentURL(base, Document("abc", "My Doc!", "xyz", "c1")) == base + "/my-doc-xyz"
  {
    var doc := Document("abc", "My Doc!", "xyz", "c1");
    assert FileName(doc) == "My_Doc.md" by {
      SanitizeFilenameExample();
      assert "My_Doc" + ".md" == "My_Doc.md";
    }
    SanitizeFilenameCollectionExample();
    assert DocumentURL(base, doc) == base + "/my-doc-xyz" by {
      SanitizeURLTitleExample();
      UrlSuffix(base, "my-doc", "xyz");
      ExampleSuffix();
    }
  }

  /** An end-to-end example: "My Doc!" in a collection named
      "HR Team" lands in ./tmp/HR_Team/My_Doc.md with the URL
      https://view.example.com/my-doc-xyz, and the collection's name is
      cached. */
  lemma ExportExample(o: Oracles, cfg: Config, st: ExportState, body: string)
    requires cfg.documentsDir == "./tmp" && cfg.docsBaseUrl == "https://view.example.com"
    requires o.exportBody("abc") == Success(body)
    requires o.lookupName("c1") == Success("HR Team") && "c1" !in st.cache
    requires !o.mkdirFails(["./tmp", "HR_Team"]) && !o.writeFails(["./tmp", "HR_Team", "My_Doc.md"])
    ensures var step := ExportDoc(cfg, o, Document("abc", "My Doc!", "xyz", "c1"), st);
      && step.outcome == Success(["./tmp", "HR_Team", "My_Doc.md"])
      && step.state.files == st.files[["./tmp", "HR_Team", "My_Doc.md"] :=
           FileContent("https://view.example.com" + "/my-doc-xyz", body)]
      && step.state.cache == st.cache["c1" := "HR Team"]
  {
    var doc := Document("abc", "My Doc!", "xyz", "c1");
    ExampleNames(cfg.docsBaseUrl);
    var place := Place(cfg, o, doc, st.cache);
    PlaceDir(cfg, o, doc, st.cache);
    PlaceLookup(cfg, o, doc, st.cache);
    assert place.dir == ["./tmp", "HR_Team"];
    var path := JoinPath(place.dir, FileName(doc));
    assert path == ["./tmp", "HR_Team", "My_Doc.md"];
    var content := FileContent(DocumentURL(cfg.docsBaseUrl, doc), body);
    SaveWrites(o, place.dir, FileName(doc), content, st.(cache := place.cache), place.lookedUp);
  }

  // ---------------------------------------------------------------------------
  // Properties of a run

  /** Over a whole run the cache only grows: entries present at the start keep
      their names, and every new key is the collection of some document. */
  lemma {:induction false} ExportAllCacheGrows(cfg: Config, o: Oracles, docs: seq<Document>, st: ExportState)
    ensures var c := ExportAll(cfg, o, docs, st).state.cache;
      && (forall k :: k in st.cache ==> k in c && c[k] == st.cache[k])
      && (forall k :: k in c && k !in st.cache ==> exists i :: 0 <= i < |docs| && docs[i].collectionId == k)
    decreases |docs|
  {
    if docs != [] {
      var init := docs[..|docs| - 1];
      ExportAllCacheGrows(cfg, o, init, st);
      var prev := ExportAll(cfg, o, init, st);
      ExportLookupDiscipline(cfg, o, docs[|docs| - 1], prev.state);
      var c := ExportAll(cfg, o, docs, st).state.cache;
      forall k | k in c && k !in st.cache
        ensures exists i :: 0 <= i < |docs| && docs[i].collectionId == k
      {
        if k in prev.state.cache {
          var i :| 0 <= i < |init| && init[i].collectionId == k;
          assert docs[i] == init[i];
        } else {
          assert docs[|docs| - 1].collectionId == k;
        }
      }
    }
  }

  /** When every lookup succeeds, the number of lookups in a run equals the
      number of cache entries it added: no collection is looked up twice. */
  lemma {:induction false} ExportAllLookupsOncePerCollection(cfg: Config, o: Oracles, docs: seq<Document>, st: ExportState)
    requires forall id :: o.lookupName(id).Success?
    ensures var run := ExportAll(cfg, o, docs, st);
      && st.cache.Keys <= run.state.cache.Keys
      && run.lookups == |run.state.cache.Keys - st.cache.Keys|
    decreases |docs|
  {
    if docs == [] {
      assert ExportAll(cfg, o, docs, st).state.cache.Keys - st.cache.Keys == {};
    } else {
      var init := docs[..|docs| - 1];
      var doc := docs[|docs| - 1];
      ExportAllLookupsOncePerCollection(cfg, o, init, st);
      var prev := ExportAll(cfg, o, init, st);
      ExportAllSnoc(cfg, o, init, doc, st);
      assert init + [doc] == docs;
      var step := ExportDoc(cfg, o, doc, prev.state);
      LookupAddsKey(cfg, o, doc, prev.state);
      NewKeysStep(st.cache.Keys, prev.state.cache, step.state.cache, step.lookedUp, doc.collectionId);
      assert ExportAll(cfg, o, docs, st).state == step.state;
    }
  }

  /** One document, when its lookup cannot fail: a lookup adds exactly its
      collection as a new key, and no lookup leaves the cache as it was. */
  lemma LookupAddsKey(cfg: Config, o: Oracles, doc: Document, st: ExportState)
    requires o.lookupName(doc.collectionId).Success?
    ensures var step := ExportDoc(cfg, o, doc, st);
      && (step.lookedUp ==> doc.collectionId !in st.cache && step.state.cache.Keys == st.cache.Keys + {doc.collectionId})
      && (!step.lookedUp ==> step.state.cache == st.cache)
  {
    ExportLookupDiscipline(cfg, o, doc, st);
  }

  /** Counting step: a run adds one key per lookup, when each lookup adds a
      key not yet present. */
  lemma NewKeysStep(base: set<string>, before: map<string, string>, after: map<string, string>, lookedUp: bool, id: string)
    requires base <= before.Keys
    requires lookedUp ==> id !in before && after.Keys == before.Keys + {id}
    requires !lookedUp ==> after == before
    ensures base <= after.Keys
    ensures |after.Keys - base| == |before.Keys - base| + (if lookedUp then 1 else 0)
  {
    if lookedUp {
      assert after.Keys - base == (before.Keys - base) + {id};
    }
  }

  /** The number of list calls is the number of non-empty pages plus one: the
      loop stops at the first empty page (or error). With limit 1, a page of
      one document followed by an empty page makes exactly two list calls. */
  lemma PaginationExample(listPage: int -> Result<seq<Document>>, d: Document)
    requires listPage(0) == Success([d]) && listPage(1) == Success([])
    ensures StopIndex(listPage, 1, 0, 1) + 1 == 2
    ensures PagesBefore(listPage, 1, StopIndex(listPage, 1, 0, 1)) == [d]
  {
    assert Continues(listPage, 1, 0);
    assert !Continues(listPage, 1, 1);
  }

  /** The page oracle stands for fetchDocuments after doRequestWithRateLimit:
      when every offset's outcome is what the retry loop hands on for that
      offset's replies, the page that stops the loop never fails with status
      429, so the handler never reports a rate limit as its error. */
  lemma RetriedListingNever429(o: Oracles, scripts: int -> seq<Reply<seq<Document>>>, limit: int, n: nat)
    requires forall offset :: RetriedOutcome(scripts(offset)) == Some(o.listPage(offset))
    ensures o.listPage(n * limit) != Failure(UnexpectedStatus(StatusTooManyRequests))
  {
    RetriedOutcomeNever429(scripts(n * limit));
  }

  /** With LIMIT 0 the offset never moves: if the first page is non-empty, no
      page ever stops the loop, so the handler cannot terminate. */
  lemma ZeroLimitNeverStops(listPage: int -> Result<seq<Document>>, k: nat)
    requires Continues(listPage, 0, 0)
    ensures Continues(listPage, 0, k)
  {
    assert k * 0 == 0 * 0;
  }
}
