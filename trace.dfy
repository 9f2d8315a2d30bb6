/**
 * The proxy over its lifetime, with requests handled one after another and
 * the store expiring entries in between. `Run` folds `Serve` and the
 * store's expiry over a sequence of events; the lemmas say what the cache
 * guarantees across requests.
 */
module Trace {
  import opened Prelude
  import opened Http
  import opened CacheStore
  import opened Backend
  import opened ReverseProxy

  /** A request handled to completion, or the store dropping an expired key. */
  datatype Event = Arrive(req: Request, env: Environment) | Expire(key: string)

  /** The state after the events, and the reply to each event (`None` for an expiry). */
  datatype History = History(final: State, replies: seq<Option<Response>>)

  function After(s: State, e: Event): State
  {
    match e
    case Arrive(req, env) => Serve(s, req, env).after
    case Expire(key) => State(Evict(s.entries, key), s.backendRequests)
  }

  function Reply(s: State, e: Event): Option<Response>
  {
    match e
    case Arrive(req, env) => Some(Serve(s, req, env).response)
    case Expire(_) => None
  }

  function Run(s: State, evs: seq<Event>): (h: History)
    // One reply per event, and a reply exactly for the requests.
    ensures |h.replies| == |evs|
    ensures forall i :: 0 <= i < |evs| ==> (h.replies[i].Some? <==> evs[i].Arrive?)
    // The backend log only grows, by at most one URL per event.
    ensures s.backendRequests <= h.final.backendRequests
    ensures |h.final.backendRequests| <= |s.backendRequests| + |evs|
    decreases |evs|
  {
    if evs == [] then History(s, [])
    else
      var before := Run(s, evs[..|evs| - 1]);
      var e := evs[|evs| - 1];
      History(After(before.final, e), before.replies + [Reply(before.final, e)])
  }

  /** Event `e` is a request for `key` whose backend, if contacted, answers with `body` in full. */
  predicate Delivered(e: Event, key: string, body: seq<byte>)
  {
    e.Arrive? && CacheKey(e.req) == key && e.env.fetch.Fetched? && e.env.fetch.body == body
  }

  /**
   * Event `i` is a request for `k` that missed in the state it met, reached
   * the backend, read `body` in full from it and stored it.
   */
  ghost predicate WrittenAt(s: State, evs: seq<Event>, i: int, k: string, body: seq<byte>)
  {
    && 0 <= i < |evs|
    && Delivered(evs[i], k, body)
    && Populates(Run(s, evs[..i]).final, evs[i].req, evs[i].env)
  }

  /** `v` was already stored under `k` at the start, or was written by the handler from a backend body for `k`. */
  ghost predicate ComesFrom(s: State, evs: seq<Event>, k: string, v: Entry)
  {
    || (k in s.entries && s.entries[k] == v)
    || (v.ttlSeconds == CacheTTLSeconds && exists i :: WrittenAt(s, evs, i, k, v.body))
  }

  /** One event other than its own expiry leaves a stored entry alone and does not fetch its URL. */
  lemma StepKeepsEntry(s: State, e: Event, key: string)
    requires key in s.entries && e != Expire(key)
    ensures key in After(s, e).entries && After(s, e).entries[key] == s.entries[key]
    ensures s.backendRequests <= After(s, e).backendRequests
    ensures BackendURL(key) !in After(s, e).backendRequests[|s.backendRequests|..]
    ensures e.Arrive? && CacheKey(e.req) == key ==>
              Reply(s, e) == Some(if e.env.getFails then Error(StatusInternalServerError, StoreFailed)
                                  else Ok(s.entries[key].body))
  {
  }

  /**
   * Once written, an entry stays as it is until the store expires it: every
   * later request for the key is answered from it (or fails with the store),
   * and the backend is never asked for that URL again.
   */
  lemma {:induction false} EntryStableUntilExpiry(s: State, evs: seq<Event>, key: string)
    requires key in s.entries
    requires forall i :: 0 <= i < |evs| ==> evs[i] != Expire(key)
    ensures key in Run(s, evs).final.entries && Run(s, evs).final.entries[key] == s.entries[key]
    ensures BackendURL(key) !in Run(s, evs).final.backendRequests[|s.backendRequests|..]
    ensures forall i :: 0 <= i < |evs| && evs[i].Arrive? && CacheKey(evs[i].req) == key ==>
              Run(s, evs).replies[i]
              == Some(if evs[i].env.getFails then Error(StatusInternalServerError, StoreFailed)
                      else Ok(s.entries[key].body))
    decreases |evs|
  {
    if evs != [] {
      var n := |evs|;
      var pre := evs[..n - 1];
      var e := evs[n - 1];
      EntryStableUntilExpiry(s, pre, key);
      var mid := Run(s, pre).final;
      StepKeepsEntry(mid, e, key);
      var h := Run(s, evs);
      assert h.final == After(mid, e);
      assert h.replies == Run(s, pre).replies + [Reply(mid, e)];
      var base := |s.backendRequests|;
      assert h.final.backendRequests[base..]
          == mid.backendRequests[base..] + h.final.backendRequests[|mid.backendRequests|..];
      forall i | 0 <= i < n - 1 && evs[i].Arrive? && CacheKey(evs[i].req) == key
        ensures h.replies[i]
             == Some(if evs[i].env.getFails then Error(StatusInternalServerError, StoreFailed)
                     else Ok(s.entries[key].body))
      {
        assert pre[i] == evs[i];
        assert h.replies[i] == Run(s, pre).replies[i];
      }
    }
  }

  /**
   * The cache never holds bytes that the backend did not send for that same
   * key: every entry was there from the start or was stored by a request
   * that missed and fetched it.
   */
  lemma {:induction false} CachedBytesComeFromBackend(s: State, evs: seq<Event>)
    ensures forall k :: k in Run(s, evs).final.entries ==> ComesFrom(s, evs, k, Run(s, evs).final.entries[k])
    decreases |evs|
  {
    if evs != [] {
      var n := |evs|;
      var pre := evs[..n - 1];
      CachedBytesComeFromBackend(s, pre);
      var mid := Run(s, pre).final;
      var h := Run(s, evs);
      assert h.final == After(mid, evs[n - 1]);
      forall k | k in h.final.entries
        ensures ComesFrom(s, evs, k, h.final.entries[k])
      {
        var v := h.final.entries[k];
        if k in mid.entries && mid.entries[k] == v {
          assert ComesFrom(s, pre, k, mid.entries[k]);
          if !(k in s.entries && s.entries[k] == v) {
            var i :| WrittenAt(s, pre, i, k, v.body);
            assert evs[i] == pre[i] && evs[..i] == pre[..i];
            assert WrittenAt(s, evs, i, k, v.body);
          }
        } else {
          assert evs[..n - 1] == pre;
          assert WrittenAt(s, evs, n - 1, k, v.body);
        }
      }
    }
  }

  /**
   * Every 200 reply carries bytes that were in the cache from the start or
   * that a request for the same key, this one or an earlier one, fetched
   * from the backend on a miss and stored.
   */
  lemma {:induction false} ServedBytesComeFromBackend(s: State, evs: seq<Event>, i: nat)
    requires i < |evs|
    requires Run(s, evs).replies[i].Some? && Run(s, evs).replies[i].value.Ok?
    ensures || (CacheKey(evs[i].req) in s.entries
                && s.entries[CacheKey(evs[i].req)].body == Run(s, evs).replies[i].value.body)
            || exists j :: j <= i && WrittenAt(s, evs, j, CacheKey(evs[i].req), Run(s, evs).replies[i].value.body)
    decreases |evs|
  {
    var n := |evs|;
    var pre := evs[..n - 1];
    var h := Run(s, evs);
    var key := CacheKey(evs[i].req);
    var body := h.replies[i].value.body;
    assert h.replies == Run(s, pre).replies + [Reply(Run(s, pre).final, evs[n - 1])];
    if i == n - 1 {
      var mid := Run(s, pre).final;
      assert evs[i].Arrive?;
      var step := Serve(mid, evs[i].req, evs[i].env);
      assert h.replies[i] == Some(step.response);
      assert h.final == step.after;
      CachedBytesComeFromBackend(s, evs);
      assert ComesFrom(s, evs, key, h.final.entries[key]);
    } else {
      assert h.replies[i] == Run(s, pre).replies[i];
      ServedBytesComeFromBackend(s, pre, i);
      if !(key in s.entries && s.entries[key].body == body) {
        var j :| j <= i && WrittenAt(s, pre, j, key, body);
        assert pre[j] == evs[j] && pre[..j] == evs[..j];
        assert WrittenAt(s, evs, j, key, body);
      }
    }
  }
}
