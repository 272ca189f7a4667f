/** The single-file variant of the service in main.go. Its exporter is the
    handlers' exporter with two differences: documents carry no collection,
    so every file lands directly in DOCUMENTS_DIR, and fetchDocuments sends
    one request with no rate-limit retry, so a 429 is an error like any other
    non-200 status. Its configuration has no DATABASE_URL. Its sanitisers and
    its upload pipeline are the same code as utils/utils.go and
    handlers/upload.go and are modelled once, in Sanitize and Sync. */
module Legacy {
  import opened Common
  import opened Http
  import opened Strconv
  import opened Configuration
  import opened Staging
  import opened RateLimit
  import opened Export

  datatype LegacyDocument = LegacyDocument(id: string, title: string, urlId: string)

  /** The source API as main.go sees it: raw replies, no retry wrapper. */
  datatype LegacyOracles = LegacyOracles(
    listReply: int -> Reply<seq<LegacyDocument>>,  // documents.list at an offset
    exportReply: string -> Reply<string>,            // documents.export by document id
    mkdirFails: Path -> bool,
    writeFails: Path -> bool)

  datatype LegacyConfig = LegacyConfig(
    apiToken: string,
    apiBaseUrl: string,
    docsBaseUrl: string,
    openWebUiApiToken: string,
    knowledgeCollectionId: string,
    openWebUiApiUrl: string,
    documentsDir: string,
    limit: int,
    port: string)

  /** The staging directory as a value: files by path and directories made. */
  datatype Staged = Staged(files: map<Path, string>, dirs: set<Path>)

  datatype LegacyStep = LegacyStep(outcome: Result<Path>, state: Staged)

  /** A legacy document seen as a handlers document without a collection. */
  function Ungrouped(d: LegacyDocument): Document {
    Document(d.id, d.title, d.urlId, "")
  }

  function UngroupAll(ds: seq<LegacyDocument>): (r: seq<Document>)
    ensures |r| == |ds|
  {
    seq(|ds|, i requires 0 <= i < |ds| => Ungrouped(ds[i]))
  }

  /** fetchDocuments: one request; anything but a decodable 200 is an error. */
  function ListPage(lo: LegacyOracles): int -> Result<seq<LegacyDocument>> {
    offset => Expect200(lo.listReply(offset))
  }

  /** exportAndSaveDocument of main.go on a state value. */
  function LegacyExportDoc(cfg: LegacyConfig, lo: LegacyOracles, d: LegacyDocument, st: Staged): LegacyStep {
    match Expect200(lo.exportReply(d.id))
    case Failure(e) => LegacyStep(Failure(e), st)
    case Success(body) =>
      var dir := [cfg.documentsDir];
      if lo.mkdirFails(dir) then LegacyStep(Failure(MkdirError), st)
      else
        var st1 := st.(dirs := st.dirs + Prefixes(dir));
        var path := JoinPath(dir, FileName(Ungrouped(d)));
        if lo.writeFails(path) then LegacyStep(Failure(WriteError), st1)
        else
          var content := FileContent(DocumentURL(cfg.docsBaseUrl, Ungrouped(d)), body);
          LegacyStep(Success(path), st1.(files := st1.files[path := content]))
  }

  datatype LegacyRun = LegacyRun(outcomes: seq<Result<Path>>, state: Staged)

  function LegacyExportAll(cfg: LegacyConfig, lo: LegacyOracles, docs: seq<LegacyDocument>, st: Staged): (r: LegacyRun)
    ensures |r.outcomes| == |docs|
    decreases |docs|
  {
    if docs == [] then LegacyRun([], st)
    else
      var prev := LegacyExportAll(cfg, lo, docs[..|docs| - 1], st);
      var step := LegacyExportDoc(cfg, lo, docs[|docs| - 1], prev.state);
      LegacyRun(prev.outcomes + [step.outcome], step.state)
  }

  lemma LegacyExportAllSnoc(cfg: LegacyConfig, lo: LegacyOracles, docs: seq<LegacyDocument>, d: LegacyDocument, st: Staged)
    ensures var prev := LegacyExportAll(cfg, lo, docs, st);
      var step := LegacyExportDoc(cfg, lo, d, prev.state);
      LegacyExportAll(cfg, lo, docs + [d], st) == LegacyRun(prev.outcomes + [step.outcome], step.state)
  {
    assert (docs + [d])[..|docs|] == docs;
  }

  // ---------------------------------------------------------------------------
  // The imperative handlers of main.go

  method LegacyExportAndSaveDocument(cfg: LegacyConfig, lo: LegacyOracles, doc: LegacyDocument, fs: StagingDir)
    returns (outcome: Result<Path>)
    modifies fs
    ensures LegacyStep(outcome, Staged(fs.files, fs.dirs))
         == LegacyExportDoc(cfg, lo, doc, Staged(old(fs.files), old(fs.dirs)))
  {
    var docUrl := DocumentURL(cfg.docsBaseUrl, Ungrouped(doc));
    var exported := Expect200(lo.exportReply(doc.id));
    if exported.Failure? {
      return Failure(exported.error);
    }
    var content := FileContent(docUrl, exported.value);
    var made := fs.MkdirAll([cfg.documentsDir], lo.mkdirFails([cfg.documentsDir]));
    if made.Failure? {
      return Failure(made.error);
    }
    var filePath := JoinPath([cfg.documentsDir], FileName(Ungrouped(doc)));
    var written := fs.WriteFile(filePath, content, lo.writeFails(filePath));
    if written.Failure? {
      return Failure(written.error);
    }
    return Success(filePath);
  }

  /** The inner loop of LegacyExportDocumentsHandler over one page. */
  method LegacyExportPage(cfg: LegacyConfig, lo: LegacyOracles, docsResp: seq<LegacyDocument>, fs: StagingDir,
                          ghost done: seq<LegacyDocument>, ghost st0: Staged, outcomesSoFar: seq<Result<Path>>)
    returns (outcomes: seq<Result<Path>>)
    requires outcomesSoFar == LegacyExportAll(cfg, lo, done, st0).outcomes
    requires Staged(fs.files, fs.dirs) == LegacyExportAll(cfg, lo, done, st0).state
    modifies fs
    ensures outcomes == LegacyExportAll(cfg, lo, done + docsResp, st0).outcomes
    ensures Staged(fs.files, fs.dirs) == LegacyExportAll(cfg, lo, done + docsResp, st0).state
  {
    outcomes := outcomesSoFar;
    var i := 0;
    ghost var seen := done;
    assert docsResp[..0] == [];
    while i < |docsResp|
      invariant i <= |docsResp|
      invariant seen == done + docsResp[..i]
      invariant outcomes == LegacyExportAll(cfg, lo, seen, st0).outcomes
      invariant Staged(fs.files, fs.dirs) == LegacyExportAll(cfg, lo, seen, st0).state
    {
      LegacyExportAllSnoc(cfg, lo, seen, docsResp[i], st0);
      var outcome := LegacyExportAndSaveDocument(cfg, lo, docsResp[i], fs);
      outcomes := outcomes + [outcome];
      assert docsResp[..i + 1] == docsResp[..i] + [docsResp[i]];
      seen := seen + [docsResp[i]];
      i := i + 1;
    }
    assert docsResp[..i] == docsResp;
  }

  /** exportDocumentsHandler of main.go: the same paging as the handlers'
      version over ListPage, whose pages are never retried. `last` is a page
      index at which the source answers with an empty page or an error. */
  method LegacyExportDocumentsHandler(cfg: LegacyConfig, lo: LegacyOracles, fs: StagingDir, ghost last: nat)
    returns (r: Result<()>, listCalls: nat, outcomes: seq<Result<Path>>)
    requires !Continues(ListPage(lo), cfg.limit, last)
    modifies fs
    ensures var n := StopIndex(ListPage(lo), cfg.limit, 0, last);
      var run := LegacyExportAll(cfg, lo, PagesBefore(ListPage(lo), cfg.limit, n), Staged(old(fs.files), old(fs.dirs)));
      && listCalls == n + 1
      && (r.Failure? <==> ListPage(lo)(n * cfg.limit).Failure?)
      && (r.Failure? ==> r.error == ListPage(lo)(n * cfg.limit).error)
      && outcomes == run.outcomes
      && Staged(fs.files, fs.dirs) == run.state
  {
    ghost var n := StopIndex(ListPage(lo), cfg.limit, 0, last);
    ghost var st0 := Staged(fs.files, fs.dirs);
    ghost var k: nat := 0;
    ghost var docs: seq<LegacyDocument> := [];
    var offset := 0;
    listCalls, outcomes := 0, [];
    while true
      invariant k <= n
      invariant offset == k * cfg.limit
      invariant listCalls == k
      invariant docs == PagesBefore(ListPage(lo), cfg.limit, k)
      invariant outcomes == LegacyExportAll(cfg, lo, docs, st0).outcomes
      invariant Staged(fs.files, fs.dirs) == LegacyExportAll(cfg, lo, docs, st0).state
      decreases n - k
    {
      var page := Expect200(lo.listReply(offset));
      listCalls := listCalls + 1;
      if page.Failure? {
        assert !Continues(ListPage(lo), cfg.limit, k);
        return Failure(page.error), listCalls, outcomes;
      }
      if |page.value| == 0 {
        assert !Continues(ListPage(lo), cfg.limit, k);
        break;
      }
      assert ListPage(lo)(offset) == page;
      PagesStep(ListPage(lo), cfg.limit, k);
      var docsResp := page.value;
      outcomes := LegacyExportPage(cfg, lo, docsResp, fs, docs, st0, outcomes);
      docs := docs + docsResp;
      assert (k + 1) * cfg.limit == k * cfg.limit + cfg.limit;
      offset := offset + cfg.limit;
      k := k + 1;
    }
    r := Success(());
  }

  // ---------------------------------------------------------------------------
  // Configuration

  /** The handlers' configuration with the legacy fields and a database URL. */
  function AsConfig(lc: LegacyConfig, databaseUrl: string): Config {
    Config(lc.apiToken, lc.apiBaseUrl, lc.docsBaseUrl, lc.openWebUiApiToken, lc.knowledgeCollectionId,
           lc.openWebUiApiUrl, lc.documentsDir, lc.limit, lc.port, databaseUrl)
  }

  /** main's configuration block: the same defaults and the same fatal check
      as config/config.go, without DATABASE_URL. */
  method LegacyLoadConfig(env: Env) returns (r: Result<LegacyConfig>)
    ensures r.Failure? <==> ConfigFromEnv(env).Failure?
    ensures r.Failure? ==> r.error == MissingApiBaseUrl
    ensures r.Success? ==> ConfigFromEnv(env) == Success(AsConfig(r.value, Getenv(env, "DATABASE_URL")))
  {
    var cfg := LegacyConfig(
      apiToken := Getenv(env, "API_TOKEN"),
      apiBaseUrl := Getenv(env, "API_BASE_URL"),
      docsBaseUrl := Getenv(env, "DOCS_BASE_URL"),
      openWebUiApiToken := Getenv(env, "OPENWEBUI_API_TOKEN"),
      knowledgeCollectionId := Getenv(env, "KNOWLEDGE_COLLECTION_ID"),
      openWebUiApiUrl := Getenv(env, "OPENWEBUI_API_URL"),
      documentsDir := Getenv(env, "DOCUMENTS_DIR"),
      limit := 0,
      port := Getenv(env, "PORT"));
    if cfg.port == "" {
      cfg := cfg.(port := DefaultPort);
    }
    if cfg.documentsDir == "" {
      cfg := cfg.(documentsDir := DefaultDocumentsDir);
    }
    var limitStr := Getenv(env, "LIMIT");
    if limitStr != "" {
      match Atoi(limitStr)
      case Some(l) => cfg := cfg.(limit := l);
      case None => cfg := cfg.(limit := DefaultLimit);
    } else {
      cfg := cfg.(limit := DefaultLimit);
    }
    if cfg.apiBaseUrl == "" {
      return Failure(MissingApiBaseUrl);
    }
    return Success(cfg);
  }

  // ---------------------------------------------------------------------------
  // The legacy exporter is the handlers' exporter on ungrouped documents

  /** The handlers' oracles answering as main.go's source API does, with any
      collection-name oracle (it is never consulted). */
  function AsOracles(lo: LegacyOracles, lookupName: string -> Result<string>): Oracles {
    Oracles(
      offset => match ListPage(lo)(offset)
                case Failure(e) => Failure(e)
                case Success(ds) => Success(UngroupAll(ds)),
      id => Expect200(lo.exportReply(id)),
      lookupName,
      lo.mkdirFails,
      lo.writeFails)
  }

  /** One document: the handlers' export of the ungrouped document writes the
      same file with the same outcome, leaves the cache alone and makes no
      collection lookup. */
  lemma LegacyDocIsUngroupedExport(cfg: LegacyConfig, databaseUrl: string, lo: LegacyOracles,
                                   lookupName: string -> Result<string>, d: LegacyDocument,
                                   cache: map<string, string>, st: Staged)
    ensures var l := LegacyExportDoc(cfg, lo, d, st);
      ExportDoc(AsConfig(cfg, databaseUrl), AsOracles(lo, lookupName), Ungrouped(d), ExportState(cache, st.files, st.dirs))
        == DocStep(l.outcome, ExportState(cache, l.state.files, l.state.dirs), false)
  {
    var o := AsOracles(lo, lookupName);
    var c := AsConfig(cfg, databaseUrl);
    assert o.exportBody(d.id) == Expect200(lo.exportReply(d.id));
    assert Place(c, o, Ungrouped(d), cache) == Placement([cfg.documentsDir], cache, false);
  }

  /** A whole run: the legacy exporter over a list of documents is the
      handlers' exporter over the same documents without collections, with the
      collection cache untouched and no lookup made. */
  lemma {:induction false} LegacyIsUngroupedExport(cfg: LegacyConfig, databaseUrl: string, lo: LegacyOracles,
                                                   lookupName: string -> Result<string>, docs: seq<LegacyDocument>,
                                                   cache: map<string, string>, st: Staged)
    ensures var l := LegacyExportAll(cfg, lo, docs, st);
      ExportAll(AsConfig(cfg, databaseUrl), AsOracles(lo, lookupName), UngroupAll(docs), ExportState(cache, st.files, st.dirs))
        == Run(l.outcomes, ExportState(cache, l.state.files, l.state.dirs), 0)
    decreases |docs|
  {
    if docs != [] {
      var init := docs[..|docs| - 1];
      var d := docs[|docs| - 1];
      assert docs == init + [d];
      assert UngroupAll(docs) == UngroupAll(init) + [Ungrouped(d)];
      LegacyIsUngroupedExport(cfg, databaseUrl, lo, lookupName, init, cache, st);
      var prev := LegacyExportAll(cfg, lo, init, st);
      LegacyDocIsUngroupedExport(cfg, databaseUrl, lo, lookupName, d, cache, prev.state);
      LegacyExportAllSnoc(cfg, lo, init, d, st);
      ExportAllSnoc(AsConfig(cfg, databaseUrl), AsOracles(lo, lookupName), UngroupAll(init), Ungrouped(d),
                    ExportState(cache, st.files, st.dirs));
    }
  }

  /** Paging: a legacy page continues the loop exactly when the corresponding
      handlers page does, and the pages read before the stop are the same
      documents without collections. */
  lemma {:induction false} LegacyPagesAreUngrouped(lo: LegacyOracles, lookupName: string -> Result<string>,
                                                   limit: int, n: nat)
    requires forall j :: 0 <= j < n ==> Continues(ListPage(lo), limit, j)
    ensures forall j :: 0 <= j < n ==> Continues(AsOracles(lo, lookupName).listPage, limit, j)
    ensures PagesBefore(AsOracles(lo, lookupName).listPage, limit, n) == UngroupAll(PagesBefore(ListPage(lo), limit, n))
  {
    var o := AsOracles(lo, lookupName);
    forall j | 0 <= j < n
      ensures Continues(o.listPage, limit, j)
    {
      assert Continues(ListPage(lo), limit, j);
      assert o.listPage(j * limit) == Success(UngroupAll(ListPage(lo)(j * limit).value));
    }
    if n > 0 {
      LegacyPagesAreUngrouped(lo, lookupName, limit, n - 1);
      assert Continues(ListPage(lo), limit, n - 1);
      var page := ListPage(lo)((n - 1) * limit).value;
      assert o.listPage((n - 1) * limit) == Success(UngroupAll(page));
      var before := PagesBefore(ListPage(lo), limit, n - 1);
      assert UngroupAll(before + page) == UngroupAll(before) + UngroupAll(page);
    }
  }

  /** The file a successful legacy export writes: DOCUMENTS_DIR/<title>.md,
      whatever the document, holding the URL header and the body. */
  lemma LegacyDestination(cfg: LegacyConfig, lo: LegacyOracles, d: LegacyDocument, st: Staged)
    ensures var l := LegacyExportDoc(cfg, lo, d, st);
      && (l.outcome.Success? <==>
            Expect200(lo.exportReply(d.id)).Success? && !lo.mkdirFails([cfg.documentsDir])
            && !lo.writeFails([cfg.documentsDir, FileName(Ungrouped(d))]))
      && (l.outcome.Success? ==>
            && l.outcome.value == [cfg.documentsDir, FileName(Ungrouped(d))]
            && l.state.files == st.files[l.outcome.value :=
                 FileContent(DocumentURL(cfg.docsBaseUrl, Ungrouped(d)), lo.exportReply(d.id).body.value)])
  {
    var name := FileName(Ungrouped(d));
    assert name != "" by {
      assert name[|name| - 1] == 'd';
    }
    assert JoinPath([cfg.documentsDir], name) == [cfg.documentsDir, name];
  }

  /** No retry in main.go: a rate-limited list reply fails the export run at
      once, while the handlers' retry wrapper, given the same 429 followed by
      a 200, hands the 200 on. */
  lemma LegacyDoesNotRetry(lo: LegacyOracles, offset: int, ok: Reply<seq<LegacyDocument>>)
    requires lo.listReply(offset).Response? && lo.listReply(offset).status == StatusTooManyRequests
    requires ok.Response? && ok.status == StatusOK && ok.body.Some?
    ensures ListPage(lo)(offset) == Failure(UnexpectedStatus(429))
    ensures RetriedOutcome([lo.listReply(offset), ok]) == Some(Success(ok.body.value))
  {
    var replies := [lo.listReply(offset), ok];
    assert replies[1..] == [ok];
    assert FirstFinal(replies) == 1;
  }
}
