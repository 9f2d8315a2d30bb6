/**
 * The fixed origin the proxy forwards misses to, and what one `http.Get`
 * plus `io.ReadAll` of its body can come back with.
 */
module Backend {
  import opened Prelude

  /** The compiled-in origin; the request-target is appended verbatim. */
  const Origin: string := "http://backend-service"

  /**
   * Outcome of contacting the backend: no response at all, a response whose
   * body could not be read to the end, or a full body. The backend's status
   * code travels with the body but the proxy never looks at it.
   */
  datatype FetchResult = TransportErr | ReadErr | Fetched(status: int, body: seq<byte>)

  /** The URL passed to `http.Get` for a request whose URL string is `target`. */
  function BackendURL(target: string): (url: string)
    ensures |url| == |Origin| + |target|
    ensures url[..|Origin|] == Origin
    ensures url[|Origin|..] == target
  {
    Origin + target
  }

  /** Reads the request-target back out of a backend URL. */
  function TargetOf(url: string): (target: Option<string>)
    ensures target.Some? <==> |Origin| <= |url| && url[..|Origin|] == Origin
    ensures target.Some? ==> BackendURL(target.value) == url
  {
    if |Origin| <= |url| && url[..|Origin|] == Origin then
      assert Origin + url[|Origin|..] == url;
      Some(url[|Origin|..])
    else None
  }

  /** The request-target is recoverable from the backend URL. */
  lemma TargetOfBackendURL(target: string)
    ensures TargetOf(BackendURL(target)) == Some(target)
  {
  }

  /** Different request-targets are forwarded to different backend URLs. */
  lemma BackendURLInjective(a: string, b: string)
    ensures BackendURL(a) == BackendURL(b) <==> a == b
  {
  }
}
