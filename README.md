# go-proxy-cache in Dafny

A verified model of the cache-aside reverse proxy in `main.go`. For every
inbound request the handler `reverseProxy` uses the request's URL string as
the cache key and asks the Redis store for it. On "not found" it forwards
the same URL string to the fixed origin `http://backend-service` and reads
the body. It writes that body to the store with a 60-second expiry, then
returns it. On a hit it returns the stored bytes. Each failure becomes its
own HTTP status: 500 when the store errors, 502 when the backend cannot be
reached, 500 when the body cannot be read, 500 when the store write fails.

Modules (one file each):

- `Prelude` (`prelude.dfy`): `byte` and `Option`.
- `Http` (`http.dfy`): the reply written to the client. `Ok(body)` is a
  plain `w.Write`, so its status is the implicit 200. `Error(status,
  message)` is an `http.Error` call.
- `CacheStore` (`cache_store.dfy`): the store as a map from key to `Entry`
  (bytes plus the expiry they were written with). `Lookup` gives the
  three-way answer of `Get`. The class `Store` has `Get`, `Set` and the
  store's own `Expire`.
- `Backend` (`backend.dfy`): the origin constant, `BackendURL`, its inverse
  `TargetOf`, and `FetchResult`, the outcome of `http.Get` plus
  `io.ReadAll`.
- `ReverseProxy` (`reverse_proxy.dfy`): `Serve` is the reference definition
  of one request: its reply and the new state. The state is the store's
  entries plus the log of backend URLs contacted. `Proxy.Handle` is the
  handler written step by step with its early returns, and is proved equal
  to `Serve`. One lemma per branch states that branch's promise.
- `Trace` (`trace.dfy`): `Run` applies a sequence of requests and store
  expiries in order. Its lemmas are proved by induction. An entry is never
  replaced and its URL never re-fetched until it expires. Every cached value,
  and every 200 reply, holds bytes that a request for the same key fetched
  from the backend on a miss and stored (or bytes cached from the start).

The model takes external outcomes as inputs. `Environment` says whether the
store's `Get` fails, what the backend answers if asked, and whether the
store's `Set` fails. Apart from an injected failure, `Get` answers from the
store's contents, so the round trip is a real property of the model.

The key and the backend suffix are `req.URL.String()` as a whole: the
whole request URL as the server parsed it, not a path and query put back
together. The
backend's own status code is discarded, so an error page from the origin
is cached and served with a 200 (`BackendStatusIgnored`).

## Model

| member | source | states |
|---|---|---|
| `Backend.BackendURL` | main.go:32 | the backend URL is the fixed origin followed by the request's URL string, unchanged |
| `Backend.TargetOf` | main.go:32 | a URL has a request-target exactly when it starts with the origin, and the backend URL of that target is the URL again |
| `Backend.TargetOfBackendURL` | main.go:32 | round trip: the request-target is recovered from the backend URL |
| `Backend.BackendURLInjective` | main.go:32 | two requests are forwarded to the same backend URL exactly when their URL strings are equal |
| `ReverseProxy.CacheKey` | main.go:23 | the key is the request's URL string, character for character, with no normalisation |
| `Http.Response.Status` | main.go:35-62 | a plain write has the implicit status 200; an `http.Error` reply has the status it was given (502 at line 35, 500 at lines 43, 50 and 58) |
| `ReverseProxy.CacheKeyIsVerbatim` | main.go:23 | two requests share a cache key exactly when their URL strings are equal, and the backend URL is the origin followed by the key |
| `ReverseProxy.QueryOrderMatters` | main.go:23 | the key is not normalised: the same query parameters in another order give another key |
| `CacheStore.Lookup` | main.go:26-27 | the store's answer is an error exactly when the call fails; otherwise "not found" exactly when the key is absent, and a hit carries the stored bytes |
| `CacheStore.Store.Get` | main.go:26 | reading the store changes nothing; the answer is an error exactly when the call fails, and a hit carries the stored bytes |
| `CacheStore.Store.Set` | main.go:48 | on success the key maps to the value with the given expiry and nothing else changes; on failure nothing is written |
| `CacheStore.Evict` | main.go:48 | once the store expires a key, that key is gone and every other key keeps its entry |
| `CacheStore.Store.Expire` | main.go:48 | the store's entries become `Evict` of the old entries: the expired key is dropped and nothing else changes |
| `ReverseProxy.Serve` | main.go:22-64 | the backend is contacted exactly on a miss, once, at the request's own URL; the store is written only by a miss whose body was read and stored, only under that key, with a 60-second TTL; a 200 happens exactly on a hit or such a miss, and its body is what the store then holds for the key; 502 happens exactly when a miss cannot reach the backend; every status is 200, 500 or 502 |
| `ReverseProxy.Proxy.constructor` | main.go:17-19 | the handler starts with the injected store client and has contacted no backend URL yet |
| `ReverseProxy.Proxy.Handle` | main.go:22-64 | the reply and the new store and backend log are exactly those `Serve` gives for the old state |
| `ReverseProxy.HitServesCachedBytes` | main.go:59-62 | on a hit the reply is the cached bytes with status 200, the backend is not contacted and the store is unchanged |
| `ReverseProxy.StoreErrorFailsClosed` | main.go:56-58 | a store error other than "not found" gives 500, no backend call and no write |
| `ReverseProxy.TransportErrorIsBadGateway` | main.go:32-37 | a miss whose backend cannot be reached gives 502; the backend URL is logged and the store is not written |
| `ReverseProxy.ReadErrorIsServerError` | main.go:41-45 | a miss whose backend body cannot be read in full gives 500 and the store is not written |
| `ReverseProxy.WriteFailureWithholdsBody` | main.go:48-52 | a failed store write gives 500, the fetched body is not sent, and the store is unchanged |
| `ReverseProxy.PopulatingMissStoresAndServes` | main.go:47-55 | a successful miss maps the key to exactly the fetched body with a 60-second TTL, adds no other key, leaves every other key unchanged, and sends that body with 200 |
| `ReverseProxy.BackendStatusIgnored` | main.go:33-41 | the backend's status code affects neither the reply nor the state |
| `ReverseProxy.SecondRequestHits` | main.go:26-62 | after a successful miss, a second request with the same URL string is a hit when the store answers: identical bytes, state unchanged, backend contacted once in all |
| `ReverseProxy.WidgetsScenario` | main.go:22-64 | `/widgets?id=7` on an empty cache fetches `http://backend-service/widgets?id=7`, stores `OK-7` for 60 s and serves it; the repeat is served `OK-7` from the cache with no backend call |
| `Trace.Run` | main.go:22-64 | one reply per request and none per expiry; the backend log only grows, and in total by no more URLs than there are events |
| `Trace.EntryStableUntilExpiry` | main.go:26-27 | a stored entry stays unchanged until the store expires it; every request for its key in between gets its bytes, or 500 if the store errors; the backend is never asked for that URL |
| `Trace.CachedBytesComeFromBackend` | main.go:41-48 | every entry in the store was there from the start, or was written with a 60-second TTL by a request for that same key that missed in the state it met, reached the backend and read that body in full |
| `Trace.ServedBytesComeFromBackend` | main.go:55-62 | every 200 reply carries bytes that were cached from the start, or that a request for the same key, this one or an earlier one, fetched from the backend on a miss and stored |

## Left out

- `main`, `http.HandleFunc`, `http.ListenAndServe` and `log.Fatal` (main.go:66-73): server start-up and socket I/O.
- The Redis client, its connection and the shared `context.Background()` (main.go:14-19). The store is a map, and the failure of each call is an input.
- Expiry by wall clock. The store enforces it, not the handler. The TTL is recorded in each `Entry`, and expiry is the external step `Store.Expire` (in `Trace`, the `Expire` event).
- The `http.Get` transport, `defer resp.Body.Close()` and the missing timeout (a hung backend hangs the request). These are foreign network calls. Their outcome is the `FetchResult` input.
- `fmt.Println` logging (main.go:29, main.go:61). It has no effect on the reply or the store.
- How `http.Error` frames the reply: it sets `Content-Type` and `X-Content-Type-Options` and adds a newline to the message. `Error` keeps only the status and the message text.
- How `net/url` rebuilds `req.URL.String()` (escaping, the empty-query marker). The request is modelled as that string.
- `CacheStore.Store.Set`: a failed `rdb.Set(...).Err()` is taken to mean nothing was written. A client-side error such as a read timeout after the command was sent can arrive after Redis applied the write. The model does not cover that case, and `WriteFailureWithholdsBody` and the `Trace` lemmas rely on it.
- `CacheStore.Store`: the Redis at `localhost:6379` is taken to be changed only by this handler and by expiry. Writes by other clients are not modelled, and the provenance lemmas in `Trace` hold only under that assumption.
- Concurrent requests. Two requests that miss on the same cold key both fetch and both write. The HTTP server runs requests in parallel, and `Trace` sequentialises them.
- `Trace.Run`: a model of a server lifetime that handles one request at a time, not a loop in the source.
