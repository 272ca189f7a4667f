/** The sync pipeline of handlers/upload.go: clear the knowledge collection
    (list its files, then ask for each one's removal), then upload every
    top-level Markdown file of the staging directory and register the returned
    file id with the collection.

    The knowledge-base server is a class whose fields are the collection's
    membership and the log of requests issued to it. What the server answers
    to each request comes from oracles; os.Open and the multipart copy are
    folded into the upload oracle. */
module Sync {
  import opened Common
  import opened Http
  import opened Staging

  /** One entry of ioutil.ReadDir. */
  datatype DirEntry = DirEntry(name: string, isDir: bool)

  /** The "id" field of a decoded upload reply: missing, present with a
      non-string JSON value, or a string. */
  datatype IdField = Absent | NotString | Str(s: string)

  /** What uploadToOpenWebUI obtains for a path: the file could not be opened
      or copied into the form (no request is sent), or a reply. */
  datatype UploadReply = OpenFailed | Sent(reply: Reply<IdField>)

  /** The requests the pipeline issues to the knowledge-base server. */
  datatype SinkRequest = ListFiles | RemoveFile(id: string) | UploadFile(path: Path) | AddFile(fileId: string)

  datatype SinkOracles = SinkOracles(
    listing: Reply<seq<string>>,     // GET /knowledge/<id>: the ids of its files
    remove: string -> Reply<()>,     // POST .../file/remove
    upload: Path -> UploadReply,     // POST /files/
    add: string -> Reply<()>)        // POST .../file/add

  datatype SinkState = SinkState(members: set<string>, requests: seq<SinkRequest>)

  /** The result of one request-issuing operation and the state after it. */
  datatype Step = Step(result: Result<()>, state: SinkState)

  // ---------------------------------------------------------------------------
  // The operations on a state value

  /** removeFileFromKnowledge: status 200 removes the id. */
  function RemoveSpec(st: SinkState, o: SinkOracles, id: string): Step {
    var r := StatusOk(o.remove(id));
    Step(r, SinkState(if r.Success? then st.members - {id} else st.members, st.requests + [RemoveFile(id)]))
  }

  /** The removals of clearKnowledgeCollection, one per id in order; a failure
      is logged and skipped. */
  function RemoveEach(st: SinkState, o: SinkOracles, ids: seq<string>): SinkState
    decreases |ids|
  {
    if ids == [] then st
    else RemoveSpec(RemoveEach(st, o, ids[..|ids| - 1]), o, ids[|ids| - 1]).state
  }

  /** clearKnowledgeCollection: a failed listing stops before any removal;
      otherwise every listed file is asked to be removed and clear succeeds. */
  function ClearSpec(st: SinkState, o: SinkOracles): Step {
    var st1 := st.(requests := st.requests + [ListFiles]);
    match Expect200(o.listing)
    case Failure(e) => Step(Failure(e), st1)
    case Success(ids) => Step(Success(()), RemoveEach(st1, o, ids))
  }

  /** addToKnowledgeCollection: status 200 makes the id a member. */
  function AddSpec(st: SinkState, o: SinkOracles, id: string): Step {
    var r := StatusOk(o.add(id));
    Step(r, SinkState(if r.Success? then st.members + {id} else st.members, st.requests + [AddFile(id)]))
  }

  /** The checks uploadToOpenWebUI makes on the upload reply, in order:
      transport, status 200 or 201, JSON decoding, a non-empty string id. */
  function CheckUpload(reply: Reply<IdField>): (r: Result<string>)
    ensures r.Success? <==>
      && reply.Response? && (reply.status == StatusOK || reply.status == StatusCreated)
      && reply.body.Some? && reply.body.value.Str? && reply.body.value.s != ""
    ensures r.Success? ==> r.value == reply.body.value.s
  {
    match reply
    case NoReply => Failure(TransportError)
    case Response(status, _, body) =>
      if status != StatusOK && status != StatusCreated then Failure(UnexpectedStatus(status))
      else match body
        case None => Failure(DecodeError)
        case Some(Str(id)) => if id == "" then Failure(MissingFileId) else Success(id)
        case Some(_) => Failure(MissingFileId)
  }

  /** The file id an upload of `path` yields, or why it yields none. */
  function UploadedId(o: SinkOracles, path: Path): Result<string> {
    match o.upload(path)
    case OpenFailed => Failure(OpenError)
    case Sent(reply) => CheckUpload(reply)
  }

  /** uploadToOpenWebUI: upload, then register the returned id. */
  function UploadSpec(st: SinkState, o: SinkOracles, path: Path): Step {
    if o.upload(path).OpenFailed? then Step(Failure(OpenError), st)
    else
      var st1 := st.(requests := st.requests + [UploadFile(path)]);
      match CheckUpload(o.upload(path).reply)
      case Failure(e) => Step(Failure(e), st1)
      case Success(id) => AddSpec(st1, o, id)
  }

  predicate HasSuffix(s: string, suffix: string) {
    |suffix| <= |s| && s[|s| - |suffix|..] == suffix
  }

  /** The filter of UploadDocumentsHandler: a file (not a directory) whose name
      ends in ".md". */
  predicate IsCandidate(e: DirEntry) {
    !e.isDir && HasSuffix(e.name, ".md")
  }

  /** filepath.Join(DocumentsDir, name) for a non-empty entry name. */
  function EntryPath(dir: string, e: DirEntry): Path {
    [dir, e.name]
  }

  /** The candidates of a listing, in listing order. */
  function Candidates(entries: seq<DirEntry>): seq<DirEntry>
    decreases |entries|
  {
    if entries == [] then []
    else Candidates(entries[..|entries| - 1]) + (if IsCandidate(entries[|entries| - 1]) then [entries[|entries| - 1]] else [])
  }

  /** The per-file outcomes (logged by the handler) and the state after
      uploading the candidates of a listing one after the other. */
  datatype Uploads = Uploads(outcomes: seq<Result<()>>, state: SinkState)

  function UploadAll(st: SinkState, o: SinkOracles, dir: string, entries: seq<DirEntry>): Uploads
    decreases |entries|
  {
    if entries == [] then Uploads([], st)
    else
      var prev := UploadAll(st, o, dir, entries[..|entries| - 1]);
      var e := entries[|entries| - 1];
      if IsCandidate(e) then
        var step := UploadSpec(prev.state, o, EntryPath(dir, e));
        Uploads(prev.outcomes + [step.result], step.state)
      else prev
  }

  /** UploadDocumentsHandler's overall result (500 or 200), the per-file
      outcomes, and the final state. */
  datatype SyncRun = SyncRun(result: Result<()>, outcomes: seq<Result<()>>, state: SinkState)

  function SyncSpec(st: SinkState, o: SinkOracles, dir: string, readDir: Result<seq<DirEntry>>): SyncRun {
    var cleared := ClearSpec(st, o);
    if cleared.result.Failure? then SyncRun(cleared.result, [], cleared.state)
    else match readDir
      case Failure(_) => SyncRun(Failure(ReadDirError), [], cleared.state)
      case Success(entries) =>
        var up := UploadAll(cleared.state, o, dir, entries);
        SyncRun(Success(()), up.outcomes, up.state)
  }

  // ---------------------------------------------------------------------------
  // The knowledge collection as the handlers change it

  class KnowledgeCollection {
    var members: set<string>
    var requests: seq<SinkRequest>

    constructor (initial: set<string>)
      ensures members == initial && requests == []
    {
      members, requests := initial, [];
    }

    function State(): SinkState
      reads this
    {
      SinkState(members, requests)
    }

    method RemoveFileFromKnowledge(o: SinkOracles, fileId: string) returns (r: Result<()>)
      modifies this
      ensures Step(r, State()) == RemoveSpec(old(State()), o, fileId)
    {
      requests := requests + [RemoveFile(fileId)];
      var reply := o.remove(fileId);
      if reply.NoReply? {
        return Failure(TransportError);
      }
      if reply.status != StatusOK {
        return Failure(UnexpectedStatus(reply.status));
      }
      members := members - {fileId};
      return Success(());
    }

    method ClearKnowledgeCollection(o: SinkOracles) returns (r: Result<()>)
      modifies this
      ensures Step(r, State()) == ClearSpec(old(State()), o)
    {
      requests := requests + [ListFiles];
      var listed := Expect200(o.listing);
      if listed.Failure? {
        return Failure(listed.error);
      }
      var files := listed.value;
      ghost var st1 := State();
      var i := 0;
      while i < |files|
        invariant i <= |files|
        invariant State() == RemoveEach(st1, o, files[..i])
      {
        assert files[..i + 1][..i] == files[..i];
        var _ := RemoveFileFromKnowledge(o, files[i]);
        i := i + 1;
      }
      assert files[..i] == files;
      return Success(());
    }

    method AddToKnowledgeCollection(o: SinkOracles, fileId: string) returns (r: Result<()>)
      modifies this
      ensures Step(r, State()) == AddSpec(old(State()), o, fileId)
    {
      requests := requests + [AddFile(fileId)];
      var reply := o.add(fileId);
      if reply.NoReply? {
        return Failure(TransportError);
      }
      if reply.status != StatusOK {
        return Failure(UnexpectedStatus(reply.status));
      }
      members := members + {fileId};
      return Success(());
    }

    method UploadToOpenWebUI(o: SinkOracles, filePath: Path) returns (r: Result<()>)
      modifies this
      ensures Step(r, State()) == UploadSpec(old(State()), o, filePath)
    {
      var sent := o.upload(filePath);
      if sent.OpenFailed? {
        return Failure(OpenError);
      }
      requests := requests + [UploadFile(filePath)];
      var reply := sent.reply;
      if reply.NoReply? {
        return Failure(TransportError);
      }
      if reply.status != StatusOK && reply.status != StatusCreated {
        return Failure(UnexpectedStatus(reply.status));
      }
      if reply.body.None? {
        return Failure(DecodeError);
      }
      var idField := reply.body.value;
      if !idField.Str? || idField.s == "" {
        return Failure(MissingFileId);
      }
      r := AddToKnowledgeCollection(o, idField.s);
    }

    method UploadDocumentsHandler(o: SinkOracles, documentsDir: string, readDir: Result<seq<DirEntry>>)
      returns (r: Result<()>, outcomes: seq<Result<()>>)
      modifies this
      ensures SyncRun(r, outcomes, State()) == SyncSpec(old(State()), o, documentsDir, readDir)
    {
      outcomes := [];
      var cleared := ClearKnowledgeCollection(o);
      if cleared.Failure? {
        return cleared, outcomes;
      }
      if readDir.Failure? {
        return Failure(ReadDirError), outcomes;
      }
      var files := readDir.value;
      ghost var st1 := State();
      var i := 0;
      while i < |files|
        invariant i <= |files|
        invariant Uploads(outcomes, State()) == UploadAll(st1, o, documentsDir, files[..i])
      {
        assert files[..i + 1][..i] == files[..i];
        var file := files[i];
        if !file.isDir && HasSuffix(file.name, ".md") {
          var uploaded := UploadToOpenWebUI(o, [documentsDir, file.name]);
          outcomes := outcomes + [uploaded];
        }
        i := i + 1;
      }
      assert files[..i] == files;
      return Success(()), outcomes;
    }
  }

  // ---------------------------------------------------------------------------
  // Clearing

  /** The removal requests issued for a list of ids: one per id, in order. */
  function RemoveRequests(ids: seq<string>): (r: seq<SinkRequest>)
    ensures |r| == |ids|
    ensures forall i :: 0 <= i < |ids| ==> r[i] == RemoveFile(ids[i])
  {
    seq(|ids|, i requires 0 <= i < |ids| => RemoveFile(ids[i]))
  }

  /** The ids whose removal the server acknowledged. */
  function Removed(o: SinkOracles, ids: seq<string>): set<string> {
    set i | 0 <= i < |ids| && StatusOk(o.remove(ids[i])).Success? :: ids[i]
  }

  lemma {:induction false} RemoveEachEffect(st: SinkState, o: SinkOracles, ids: seq<string>)
    ensures RemoveEach(st, o, ids).requests == st.requests + RemoveRequests(ids)
    ensures RemoveEach(st, o, ids).members == st.members - Removed(o, ids)
    decreases |ids|
  {
    if ids == [] {
      assert Removed(o, ids) == {};
    } else {
      var init := ids[..|ids| - 1];
      var id := ids[|ids| - 1];
      RemoveEachEffect(st, o, init);
      assert RemoveRequests(ids) == RemoveRequests(init) + [RemoveFile(id)];
      if StatusOk(o.remove(id)).Success? {
        assert Removed(o, ids) == Removed(o, init) + {id};
      } else {
        assert Removed(o, ids) == Removed(o, init);
      }
    }
  }

  /** A failed listing (transport, status, decoding) issues no removal: the
      listing request is the only one, membership is untouched. */
  lemma ClearListingFailure(st: SinkState, o: SinkOracles)
    requires Expect200(o.listing).Failure?
    ensures ClearSpec(st, o) == Step(Failure(Expect200(o.listing).error), SinkState(st.members, st.requests + [ListFiles]))
  {
  }

  /** After a successful listing, exactly one removal is requested per listed
      id, in listed order; clear succeeds whatever the removals answer, and the
      acknowledged ids leave the collection. */
  lemma ClearRemovesEachListed(st: SinkState, o: SinkOracles)
    requires Expect200(o.listing).Success?
    ensures var ids := o.listing.body.value;
      var c := ClearSpec(st, o);
      && c.result == Success(())
      && c.state.requests == st.requests + [ListFiles] + RemoveRequests(ids)
      && c.state.members == st.members - Removed(o, ids)
  {
    RemoveEachEffect(st.(requests := st.requests + [ListFiles]), o, o.listing.body.value);
  }

  /** When the listing names every member and every removal is acknowledged,
      clear leaves the collection empty. */
  lemma ClearEmptiesCollection(st: SinkState, o: SinkOracles, ids: seq<string>)
    requires o.listing == Response(StatusOK, "", Some(ids))
    requires forall m :: m in st.members ==> m in ids
    requires forall i :: 0 <= i < |ids| ==> o.remove(ids[i]).Response? && o.remove(ids[i]).status == StatusOK
    ensures ClearSpec(st, o).state.members == {}
  {
    ClearRemovesEachListed(st, o);
    forall m | m in st.members ensures m in Removed(o, ids) {
      var i :| 0 <= i < |ids| && ids[i] == m;
      assert StatusOk(o.remove(ids[i])).Success?;
    }
  }

  // ---------------------------------------------------------------------------
  // Uploading

  /** An upload changes membership only by adding the id its reply carried,
      and only when the reply passed every check and the add was acknowledged;
      the add request, if any, carries exactly that id. */
  lemma UploadRegistersReturnedId(st: SinkState, o: SinkOracles, path: Path)
    ensures var step := UploadSpec(st, o, path);
      && (step.result.Success? <==>
            UploadedId(o, path).Success? && StatusOk(o.add(UploadedId(o, path).value)).Success?)
      && step.state.members ==
           (if step.result.Success? then st.members + {UploadedId(o, path).value} else st.members)
      && step.state.requests ==
           if o.upload(path).OpenFailed? then st.requests
           else if UploadedId(o, path).Failure? then st.requests + [UploadFile(path)]
           else st.requests + [UploadFile(path), AddFile(UploadedId(o, path).value)]
  {
  }

  /** One upload in terms of what it does not share with the others: its
      outcome and the requests it appends. */
  lemma UploadStep(st: SinkState, o: SinkOracles, path: Path)
    ensures var step := UploadSpec(st, o, path);
      && step.result == UploadOutcome(o, path)
      && step.state.requests == st.requests + UploadRequests(o, path)
      && st.members <= step.state.members
  {
    UploadRegistersReturnedId(st, o, path);
  }

  /** The requests an upload of `path` issues. */
  function UploadRequests(o: SinkOracles, path: Path): seq<SinkRequest> {
    if o.upload(path).OpenFailed? then []
    else if UploadedId(o, path).Failure? then [UploadFile(path)]
    else [UploadFile(path), AddFile(UploadedId(o, path).value)]
  }

  /** The outcome of uploading `path`; it does not depend on the state. */
  function UploadOutcome(o: SinkOracles, path: Path): Result<()> {
    match UploadedId(o, path)
    case Failure(e) => Failure(e)
    case Success(id) => StatusOk(o.add(id))
  }

  /** Every candidate is attempted, in listing order, each failure is only
      recorded; and the requests issued are exactly the candidates' upload
      and add requests, in that order. */
  lemma UploadAllEffect(st: SinkState, o: SinkOracles, dir: string, entries: seq<DirEntry>)
    ensures var up := UploadAll(st, o, dir, entries);
      var c := Candidates(entries);
      && |up.outcomes| == |c|
      && (forall i :: 0 <= i < |c| ==> up.outcomes[i] == UploadOutcome(o, EntryPath(dir, c[i])))
      && up.state.requests == st.requests + AllUploadRequests(o, dir, c)
      && st.members <= up.state.members
  {
    UploadAllOutcomes(st, o, dir, entries);
    UploadAllRequests(st, o, dir, entries);
  }

  lemma {:induction false} UploadAllOutcomes(st: SinkState, o: SinkOracles, dir: string, entries: seq<DirEntry>)
    ensures var up := UploadAll(st, o, dir, entries);
      var c := Candidates(entries);
      && |up.outcomes| == |c|
      && (forall i :: 0 <= i < |c| ==> up.outcomes[i] == UploadOutcome(o, EntryPath(dir, c[i])))
    decreases |entries|
  {
    if entries != [] {
      var init := entries[..|entries| - 1];
      var e := entries[|entries| - 1];
      UploadAllOutcomes(st, o, dir, init);
      if IsCandidate(e) {
        UploadStep(UploadAll(st, o, dir, init).state, o, EntryPath(dir, e));
        assert Candidates(entries) == Candidates(init) + [e];
      } else {
        assert Candidates(entries) == Candidates(init);
      }
    }
  }

  lemma {:induction false} UploadAllRequests(st: SinkState, o: SinkOracles, dir: string, entries: seq<DirEntry>)
    ensures var up := UploadAll(st, o, dir, entries);
      && up.state.requests == st.requests + AllUploadRequests(o, dir, Candidates(entries))
      && st.members <= up.state.members
    decreases |entries|
  {
    if entries != [] {
      var init := entries[..|entries| - 1];
      var e := entries[|entries| - 1];
      UploadAllRequests(st, o, dir, init);
      if IsCandidate(e) {
        var c0 := Candidates(init);
        UploadStep(UploadAll(st, o, dir, init).state, o, EntryPath(dir, e));
        AllUploadRequestsSnoc(o, dir, c0, e);
        assert Candidates(entries) == c0 + [e];
        assert st.requests + AllUploadRequests(o, dir, c0 + [e])
            == (st.requests + AllUploadRequests(o, dir, c0)) + UploadRequests(o, EntryPath(dir, e));
      } else {
        assert Candidates(entries) == Candidates(init);
      }
    }
  }

  /** The upload requests for a sequence of candidates, concatenated. */
  function AllUploadRequests(o: SinkOracles, dir: string, c: seq<DirEntry>): seq<SinkRequest>
    decreases |c|
  {
    if c == [] then [] else AllUploadRequests(o, dir, c[..|c| - 1]) + UploadRequests(o, EntryPath(dir, c[|c| - 1]))
  }

  lemma AllUploadRequestsSnoc(o: SinkOracles, dir: string, c: seq<DirEntry>, e: DirEntry)
    ensures AllUploadRequests(o, dir, c + [e]) == AllUploadRequests(o, dir, c) + UploadRequests(o, EntryPath(dir, e))
  {
    assert (c + [e])[..|c|] == c;
  }

  lemma {:induction false} CandidatesShape(entries: seq<DirEntry>)
    ensures forall e :: e in Candidates(entries) <==> e in entries && IsCandidate(e)
    decreases |entries|
  {
    if entries != [] {
      var init := entries[..|entries| - 1];
      CandidatesShape(init);
      assert entries == init + [entries[|entries| - 1]];
    }
  }

  /** Every upload request is for DocumentsDir/<name> with <name> a top-level
      non-directory entry ending in ".md"; in particular no file of a
      collection sub-directory (a three-segment path) is ever uploaded. */
  lemma {:induction false} UploadRequestsAreTopLevel(o: SinkOracles, dir: string, c: seq<DirEntry>)
    requires forall e :: e in c ==> IsCandidate(e)
    ensures forall r :: r in AllUploadRequests(o, dir, c) && r.UploadFile? ==>
      |r.path| == 2 && r.path[0] == dir && exists e :: e in c && r.path[1] == e.name && IsCandidate(e)
    decreases |c|
  {
    if c != [] {
      var init := c[..|c| - 1];
      assert forall e :: e in init ==> e in c;
      UploadRequestsAreTopLevel(o, dir, init);
      assert c[|c| - 1] in c;
    }
  }

  // ---------------------------------------------------------------------------
  // The handler

  /** If clear fails, the staging directory is not read and nothing is
      uploaded; if reading the directory fails, nothing is uploaded. Both end
      in an error response. */
  lemma SyncFailures(st: SinkState, o: SinkOracles, dir: string, readDir: Result<seq<DirEntry>>)
    ensures Expect200(o.listing).Failure? ==>
      SyncSpec(st, o, dir, readDir) == SyncRun(Failure(Expect200(o.listing).error), [], ClearSpec(st, o).state)
    ensures Expect200(o.listing).Success? && readDir.Failure? ==>
      SyncSpec(st, o, dir, readDir) == SyncRun(Failure(ReadDirError), [], ClearSpec(st, o).state)
  {
  }

  /** Once clear and the directory read succeed, the handler reports success
      whatever the individual uploads do, attempts every candidate in order,
      and uploads nothing but top-level ".md" files. */
  lemma SyncUploadsCandidates(st: SinkState, o: SinkOracles, dir: string, entries: seq<DirEntry>)
    requires Expect200(o.listing).Success?
    ensures var run := SyncSpec(st, o, dir, Success(entries));
      var c := Candidates(entries);
      var cleared := ClearSpec(st, o).state;
      && run.result == Success(())
      && |run.outcomes| == |c|
      && (forall i :: 0 <= i < |c| ==> run.outcomes[i] == UploadOutcome(o, EntryPath(dir, c[i])))
      && run.state.requests == cleared.requests + AllUploadRequests(o, dir, c)
      && (forall e :: e in entries && IsCandidate(e) ==> e in c)
      && (forall r :: r in AllUploadRequests(o, dir, c) && r.UploadFile? ==>
            |r.path| == 2 && r.path[0] == dir && exists e :: e in entries && r.path[1] == e.name && IsCandidate(e))
  {
    var cleared := ClearSpec(st, o).state;
    UploadAllEffect(cleared, o, dir, entries);
    CandidatesShape(entries);
    UploadRequestsAreTopLevel(o, dir, Candidates(entries));
  }
}
