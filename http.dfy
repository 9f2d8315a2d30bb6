/** What a handler writes to its `http.ResponseWriter`. */
module Http {
  import opened Prelude

  const StatusOK: int := 200
  const StatusInternalServerError: int := 500
  const StatusBadGateway: int := 502

  /**
   * The reply one request receives. `Ok` is a plain `w.Write(body)` with no
   * prior `WriteHeader`, so the status is the implicit 200; `Error` is an
   * `http.Error(w, message, status)` call.
   */
  datatype Response = Ok(body: seq<byte>) | Error(status: int, message: string)
  {
    /** The status line the client sees: 200 unless `http.Error` set another. */
    function Status(): (code: int)
      ensures Ok? ==> code == StatusOK
      ensures Error? ==> code == status
    {
      match this
      case Ok(_) => StatusOK
      case Error(code, _) => code
    }
  }
}
