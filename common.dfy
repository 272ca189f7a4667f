/** Shared result types: the Go code returns `(value, error)` pairs, which the
    model writes as a Result whose failure side says which kind of error it was. */
module Common {

  datatype Option<T> = None | Some(value: T)

  /** The kinds of error the pipelines produce or propagate. */
  datatype Error =
    | TransportError              // http.Client.Do returned an error
    | UnexpectedStatus(code: int) // the response status was not the accepted one
    | DecodeError                 // the JSON body did not decode
    | MissingFileId               // an upload reply carried no non-empty string "id"
    | OpenError                   // the staged file could not be opened or copied
    | MkdirError                  // os.MkdirAll failed
    | WriteError                  // ioutil.WriteFile failed
    | ReadDirError                // ioutil.ReadDir failed
    | DbError                     // the mapping table could not be read
    | MissingApiBaseUrl           // API_BASE_URL is empty: log.Fatal

  datatype Result<T> = Success(value: T) | Failure(error: Error)
}
