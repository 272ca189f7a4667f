/** The shape of one HTTP exchange as the handlers see it, and the status and
    decoding checks they apply to it. Transport, headers and JSON decoding are
    not modelled; their outcome is. */
module Http {
  import opened Common

  const StatusOK: int := 200
  const StatusCreated: int := 201
  const StatusTooManyRequests: int := 429

  /** What one http.Client.Do call yields: a transport error, or a response
      with its status code, its Retry-After header ("" when absent) and its
      body decoded as T (None when the JSON does not decode). */
  datatype Reply<T> = NoReply | Response(status: int, retryAfter: string, body: Option<T>)

  /** The check fetchDocuments, fetchCollectionName, exportAndSaveDocument and
      clearKnowledgeCollection make: a transport error, a status other than
      200 or an undecodable body is an error; otherwise the decoded body. */
  function Expect200<T>(r: Reply<T>): (res: Result<T>)
    ensures res.Success? <==> r.Response? && r.status == StatusOK && r.body.Some?
    ensures res.Success? ==> res.value == r.body.value
    ensures r.Response? && r.status != StatusOK ==> res == Failure(UnexpectedStatus(r.status))
  {
    match r
    case NoReply => Failure(TransportError)
    case Response(status, _, body) =>
      if status != StatusOK then Failure(UnexpectedStatus(status))
      else match body
        case None => Failure(DecodeError)
        case Some(v) => Success(v)
  }

  /** The check removeFileFromKnowledge and addToKnowledgeCollection make:
      status 200, body not read. */
  function StatusOk<T>(r: Reply<T>): (res: Result<()>)
    ensures res.Success? <==> r.Response? && r.status == StatusOK
    ensures r.Response? && r.status != StatusOK ==> res == Failure(UnexpectedStatus(r.status))
  {
    match r
    case NoReply => Failure(TransportError)
    case Response(status, _, _) =>
      if status == StatusOK then Success(()) else Failure(UnexpectedStatus(status))
  }
}
