/**
 * The cache-aside request handler. `Serve` states what one request does to
 * the proxy's observable state (the store's live entries and the log of
 * backend URLs contacted) and which reply it gets; `Proxy.Handle` is the
 * handler written step by step, with the handler's early returns, and is
 * proved to behave as `Serve` says. The lemmas after `Serve` state each
 * branch's promise on its own.
 */
module ReverseProxy {
  import opened Prelude
  import opened Http
  import opened CacheStore
  import opened Backend

  /** Expiry given to every entry the handler writes (`60*time.Second`). */
  const CacheTTLSeconds: nat := 60

  const BackendFetchFailed: string := "Failed to fetch from backend"
  const BackendReadFailed: string := "Failed to read backend response"
  const CacheWriteFailed: string := "Failed to cache response"
  const StoreFailed: string := "Redis error"

  /** An inbound request, as much of it as the handler reads: `req.URL.String()`. */
  datatype Request = Request(url: string)

  /**
   * How the collaborators answer while this request is in flight: whether
   * the store's `Get` fails, what the backend returns if it is contacted,
   * and whether the store's `Set` fails.
   */
  datatype Environment = Environment(getFails: bool, fetch: FetchResult, setFails: bool)

  /** The store's live entries and every backend URL contacted so far, in order. */
  datatype State = State(entries: map<string, Entry>, backendRequests: seq<string>)

  datatype Step = Step(response: Response, after: State)

  /** The cache key: the request's URL string, unnormalised. */
  function CacheKey(req: Request): (key: string)
    ensures key == req.url
  {
    req.url
  }

  /**
   * The key is the URL string itself: two requests share an entry exactly
   * when their URL strings are equal. Since a request is modelled as its URL
   * string, this holds by unfolding `CacheKey` and needs no proof.
   */
  lemma CacheKeyIsVerbatim(a: Request, b: Request)
    ensures CacheKey(a) == CacheKey(b) <==> a.url == b.url
    ensures BackendURL(a.url) == Origin + CacheKey(a)
  {
  }

  /**
   * Query parameters in another order make another key. With the request
   * modelled as its URL string, this only says that the two strings differ.
   */
  lemma QueryOrderMatters()
    ensures CacheKey(Request("/items?a=1&b=2")) != CacheKey(Request("/items?b=2&a=1"))
  {
  }

  /** The store answered "not found": the request goes to the backend. */
  predicate Miss(s: State, req: Request, env: Environment)
  {
    !env.getFails && CacheKey(req) !in s.entries
  }

  /** A miss whose body was read in full and written to the store. */
  predicate Populates(s: State, req: Request, env: Environment)
  {
    Miss(s, req, env) && env.fetch.Fetched? && !env.setFails
  }

  /** One request handled against state `s`. */
  function Serve(s: State, req: Request, env: Environment): (r: Step)
    // The backend is contacted exactly on a miss, once, at the request's own URL string.
    ensures r.after.backendRequests
         == if Miss(s, req, env) then s.backendRequests + [BackendURL(req.url)] else s.backendRequests
    // The store is written only by a populating miss, and then only under this key.
    ensures r.after.entries
         == if Populates(s, req, env)
            then s.entries[CacheKey(req) := Entry(env.fetch.body, CacheTTLSeconds)]
            else s.entries
    // A 200 happens exactly on a hit or a populating miss ...
    ensures r.response.Ok? <==> !env.getFails && (CacheKey(req) in s.entries || Populates(s, req, env))
    // ... and its body is what the store holds for the key afterwards.
    ensures r.response.Ok? ==>
              CacheKey(req) in r.after.entries && r.after.entries[CacheKey(req)].body == r.response.body
    // Every failure is a 502 or a 500, and 502 means the backend could not be reached.
    ensures r.response.Status() in {StatusOK, StatusInternalServerError, StatusBadGateway}
    ensures r.response.Status() == StatusBadGateway <==> Miss(s, req, env) && env.fetch.TransportErr?
  {
    var key := CacheKey(req);
    match Lookup(s.entries, key, env.getFails)
    case StoreErr => Step(Error(StatusInternalServerError, StoreFailed), s)
    case Hit(cached) => Step(Ok(cached), s)
    case NotFound =>
      var contacted := s.backendRequests + [BackendURL(req.url)];
      match env.fetch
      case TransportErr =>
        Step(Error(StatusBadGateway, BackendFetchFailed), State(s.entries, contacted))
      case ReadErr =>
        Step(Error(StatusInternalServerError, BackendReadFailed), State(s.entries, contacted))
      case Fetched(_, body) =>
        if env.setFails then
          Step(Error(StatusInternalServerError, CacheWriteFailed), State(s.entries, contacted))
        else
          Step(Ok(body), State(s.entries[key := Entry(body, CacheTTLSeconds)], contacted))
  }

  /** A hit: the cached bytes with status 200; backend and store untouched. */
  lemma HitServesCachedBytes(s: State, req: Request, env: Environment)
    requires !env.getFails && CacheKey(req) in s.entries
    ensures Serve(s, req, env).response == Ok(s.entries[CacheKey(req)].body)
    ensures Serve(s, req, env).response.Status() == StatusOK
    ensures Serve(s, req, env).after == s
  {
  }

  /** A store error other than "not found" fails closed: 500, no backend call, no write. */
  lemma StoreErrorFailsClosed(s: State, req: Request, env: Environment)
    requires env.getFails
    ensures Serve(s, req, env).response == Error(StatusInternalServerError, StoreFailed)
    ensures Serve(s, req, env).after == s
  {
  }

  /** A miss the backend does not answer: 502 and nothing written. */
  lemma TransportErrorIsBadGateway(s: State, req: Request, env: Environment)
    requires Miss(s, req, env) && env.fetch.TransportErr?
    ensures Serve(s, req, env).response == Error(StatusBadGateway, BackendFetchFailed)
    ensures Serve(s, req, env).after == State(s.entries, s.backendRequests + [BackendURL(req.url)])
  {
  }

  /** A miss whose backend body cannot be read to the end: 500 and nothing written. */
  lemma ReadErrorIsServerError(s: State, req: Request, env: Environment)
    requires Miss(s, req, env) && env.fetch.ReadErr?
    ensures Serve(s, req, env).response == Error(StatusInternalServerError, BackendReadFailed)
    ensures Serve(s, req, env).after.entries == s.entries
  {
  }

  /** The store refuses the write: 500, and the fetched body is not sent. */
  lemma WriteFailureWithholdsBody(s: State, req: Request, env: Environment)
    requires Miss(s, req, env) && env.fetch.Fetched? && env.setFails
    ensures Serve(s, req, env).response == Error(StatusInternalServerError, CacheWriteFailed)
    ensures !Serve(s, req, env).response.Ok?
    ensures Serve(s, req, env).after.entries == s.entries
  {
  }

  /**
   * A populating miss: the key now holds exactly the fetched body with a
   * 60-second expiry, every other key is as it was, and the client gets the
   * same body with status 200.
   */
  lemma PopulatingMissStoresAndServes(s: State, req: Request, env: Environment)
    requires Populates(s, req, env)
    ensures Serve(s, req, env).response == Ok(env.fetch.body)
    ensures var e := Serve(s, req, env).after.entries;
            && CacheKey(req) in e && e[CacheKey(req)] == Entry(env.fetch.body, CacheTTLSeconds)
            && e.Keys == s.entries.Keys + {CacheKey(req)}
            && forall k :: k in s.entries ==> e[k] == s.entries[k]
  {
  }

  /** The backend's own status code reaches neither the client nor the store. */
  lemma BackendStatusIgnored(s: State, req: Request, getFails: bool, status1: int, status2: int,
                             body: seq<byte>, setFails: bool)
    ensures Serve(s, req, Environment(getFails, Fetched(status1, body), setFails))
         == Serve(s, req, Environment(getFails, Fetched(status2, body), setFails))
  {
  }

  /**
   * Round trip: after a populating miss, the next request with the same URL
   * string is a hit if the store answers; it gets the identical bytes and
   * the backend is not contacted again, whatever the backend would say.
   */
  lemma SecondRequestHits(s: State, req: Request, env1: Environment, req2: Request, env2: Environment)
    requires Populates(s, req, env1)
    requires req2.url == req.url && !env2.getFails
    ensures var first := Serve(s, req, env1);
            var second := Serve(first.after, req2, env2);
            && second.response == first.response == Ok(env1.fetch.body)
            && second.after == first.after
            && |second.after.backendRequests| == |s.backendRequests| + 1
  {
  }

  /** The worked scenario: `GET /widgets?id=7` on an empty cache, then again. */
  lemma WidgetsScenario()
    ensures var ok7: seq<byte> := [79, 75, 45, 55];  // "OK-7"
            var req := Request("/widgets?id=7");
            var first := Serve(State(map[], []), req, Environment(false, Fetched(200, ok7), false));
            var second := Serve(first.after, req, Environment(false, TransportErr, false));
            && first.response == Ok(ok7)
            && first.after.backendRequests == ["http://backend-service/widgets?id=7"]
            && first.after.entries == map["/widgets?id=7" := Entry(ok7, 60)]
            && second.response == Ok(ok7)
            && second.after == first.after
  {
    assert BackendURL("/widgets?id=7") == "http://backend-service/widgets?id=7";
  }

  /**
   * The handler with its collaborators: the shared store client, and an
   * instrumented view of the backend that records every URL it is asked for.
   */
  class Proxy {
    const store: Store
    var backendRequests: seq<string>

    constructor (store: Store)
      ensures this.store == store && backendRequests == []
    {
      this.store := store;
      backendRequests := [];
    }

    /** The state `Serve` speaks about. */
    function Snapshot(): State
      reads this, store
    {
      State(store.entries, backendRequests)
    }

    /** `reverseProxy(w, req)`; the returned value is what was written to `w`. */
    method Handle(req: Request, env: Environment) returns (resp: Response)
      modifies this, store
      ensures Step(resp, Snapshot()) == Serve(old(Snapshot()), req, env)
    {
      var cacheKey := CacheKey(req);
      var cached := store.Get(cacheKey, env.getFails);
      if cached.NotFound? {
        var backendURL := BackendURL(req.url);
        backendRequests := backendRequests + [backendURL];
        var fetched := env.fetch;
        if fetched.TransportErr? {
          return Error(StatusBadGateway, BackendFetchFailed);
        }
        if fetched.ReadErr? {
          return Error(StatusInternalServerError, BackendReadFailed);
        }
        var body := fetched.body;
        var ok := store.Set(cacheKey, body, CacheTTLSeconds, env.setFails);
        if !ok {
          return Error(StatusInternalServerError, CacheWriteFailed);
        }
        return Ok(body);
      } else if cached.StoreErr? {
        return Error(StatusInternalServerError, StoreFailed);
      } else {
        return Ok(cached.value);
      }
    }
  }
}
