/**
 * The response caching of app/api/middleware.py: the TTL CacheManager,
 * the SimpleCache, and the CacheMiddleware rules (what is cached, under
 * which key, for how long, and what a hit looks like).  Clock readings
 * are whole seconds passed in as `now`.
 */
module Caching {
  import opened Wrappers
  import opened PyValue
  import Text

  type Dict = seq<(string, Value)>

  // ---------------------------------------------------------------------
  // CacheManager

  /** The two dicts of a CacheManager: values and expiry times. */
  datatype CacheState = CacheState(cache: map<string, Value>, ttl: map<string, int>)

  /** Every expiry belongs to a cached key. */
  predicate TtlTracked(st: CacheState)
  {
    st.ttl.Keys <= st.cache.Keys
  }

  /** get: the value, or None when missing or past its expiry, which is then removed. */
  function CacheGet(st: CacheState, key: string, now: int): (Value, CacheState)
  {
    if key !in st.cache then (PyNone, st)
    else if key in st.ttl && st.ttl[key] < now then (PyNone, CacheState(st.cache - {key}, st.ttl - {key}))
    else (st.cache[key], st)
  }

  /** set as written: the expiry is written only for a positive TTL. */
  function CacheSet(st: CacheState, key: string, value: Value, ttlSeconds: int, now: int): CacheState
  {
    CacheState(st.cache[key := value], if ttlSeconds > 0 then st.ttl[key := now + ttlSeconds] else st.ttl)
  }

  function CacheDelete(st: CacheState, key: string): CacheState
  {
    CacheState(st.cache - {key}, st.ttl - {key})
  }

  /** Each operation keeps every expiry attached to a cached key. */
  lemma {:induction false} OperationsKeepTtlTracked(st: CacheState, key: string, value: Value, ttlSeconds: int, now: int)
    requires TtlTracked(st)
    ensures TtlTracked(CacheGet(st, key, now).1)
    ensures TtlTracked(CacheSet(st, key, value, ttlSeconds, now))
    ensures TtlTracked(CacheDelete(st, key))
  {
  }

  /** Within its TTL a stored value is returned and nothing changes. */
  lemma {:induction false} GetWithinTtl(st: CacheState, key: string, value: Value, ttlSeconds: int, now: int, later: int)
    requires ttlSeconds > 0 && later <= now + ttlSeconds
    ensures var st' := CacheSet(st, key, value, ttlSeconds, now);
            CacheGet(st', key, later) == (value, st')
  {
  }

  /** Past its TTL a stored value is gone, and get removes it from both dicts. */
  lemma {:induction false} GetPastTtl(st: CacheState, key: string, value: Value, ttlSeconds: int, now: int, later: int)
    requires ttlSeconds > 0 && later > now + ttlSeconds
    ensures var r := CacheGet(CacheSet(st, key, value, ttlSeconds, now), key, later);
            r.0 == PyNone && key !in r.1.cache && key !in r.1.ttl
  {
  }

  /** After delete, get finds nothing. */
  lemma {:induction false} GetAfterDelete(st: CacheState, key: string, now: int)
    ensures CacheGet(CacheDelete(st, key), key, now).0 == PyNone
  {
  }

  /**
   * As written, set with a TTL of zero or less leaves an earlier expiry in
   * place: once that time has passed the new value is dropped at the next
   * get, although no expiry was asked for.
   */
  lemma {:induction false} StaleExpiryDropsValue(st: CacheState, key: string, value: Value, ttlSeconds: int, now: int, later: int)
    requires ttlSeconds <= 0 && key in st.ttl && st.ttl[key] < later
    ensures CacheGet(CacheSet(st, key, value, ttlSeconds, now), key, later).0 == PyNone
  {
  }

  /** set as evidently intended: a TTL of zero or less removes any earlier expiry. */
  function CacheSetNoExpiry(st: CacheState, key: string, value: Value, ttlSeconds: int, now: int): CacheState
  {
    CacheState(st.cache[key := value], if ttlSeconds > 0 then st.ttl[key := now + ttlSeconds] else st.ttl - {key})
  }

  /** With the corrected set a value stored without expiry is returned at any later time. */
  lemma {:induction false} NoExpiryKeepsValue(st: CacheState, key: string, value: Value, ttlSeconds: int, now: int, later: int)
    requires ttlSeconds <= 0
    ensures var st' := CacheSetNoExpiry(st, key, value, ttlSeconds, now);
            CacheGet(st', key, later) == (value, st') && (TtlTracked(st) ==> TtlTracked(st'))
  {
  }

  /** For a positive TTL, the only kind the middleware uses, both versions of set agree. */
  lemma {:induction false} SetVersionsAgree(st: CacheState, key: string, value: Value, ttlSeconds: int, now: int)
    requires ttlSeconds > 0
    ensures CacheSetNoExpiry(st, key, value, ttlSeconds, now) == CacheSet(st, key, value, ttlSeconds, now)
  {
  }

  /** The CacheManager: an in-memory cache whose keys may carry an expiry time. */
  class CacheManager {
    var cache: map<string, Value>
    var ttl: map<string, int>

    function State(): CacheState
      reads this
    {
      CacheState(cache, ttl)
    }

    predicate Valid()
      reads this
    {
      TtlTracked(State())
    }

    constructor ()
      ensures cache == map[] && ttl == map[] && Valid()
    {
      cache := map[];
      ttl := map[];
    }

    method Get(key: string, now: int) returns (v: Value)
      requires Valid()
      modifies this
      ensures Valid()
      ensures (v, State()) == CacheGet(old(State()), key, now)
    {
      if key !in cache {
        return PyNone;
      }
      if key in ttl && ttl[key] < now {
        cache := cache - {key};
        ttl := ttl - {key};
        return PyNone;
      }
      return cache[key];
    }

    method Set(key: string, value: Value, ttlSeconds: int, now: int)
      requires Valid()
      modifies this
      ensures Valid()
      ensures State() == CacheSet(old(State()), key, value, ttlSeconds, now)
    {
      cache := cache[key := value];
      if ttlSeconds > 0 {
        ttl := ttl[key := now + ttlSeconds];
      }
    }

    method Delete(key: string)
      requires Valid()
      modifies this
      ensures Valid()
      ensures State() == CacheDelete(old(State()), key)
    {
      if key in cache {
        cache := cache - {key};
      }
      if key in ttl {
        ttl := ttl - {key};
      }
    }

    method Clear()
      modifies this
      ensures Valid() && cache == map[] && ttl == map[]
    {
      cache := map[];
      ttl := map[];
    }
  }

  // ---------------------------------------------------------------------
  // SimpleCache

  /** One SimpleCache entry: {"value": ..., "expiry": ...}. */
  datatype Item = Item(value: Value, expiry: int)

  /** get: the value while its expiry lies ahead; an expired entry is removed. */
  function SimpleGet(items: map<string, Item>, key: string, now: int): (Value, map<string, Item>)
  {
    if key !in items then (PyNone, items)
    else if items[key].expiry > now then (items[key].value, items)
    else (PyNone, items - {key})
  }

  /** set: expiry = now + ttl, or now + the default TTL when ttl is None. */
  function SimpleSet(items: map<string, Item>, key: string, value: Value, ttl: Option<int>, defaultTtl: int, now: int): map<string, Item>
  {
    items[key := Item(value, now + if ttl.Some? then ttl.value else defaultTtl)]
  }

  /**
   * A stored value is returned exactly until its expiry (the given TTL, or
   * the default one), and after that it is gone.
   */
  lemma {:induction false} SimpleGetAfterSet(items: map<string, Item>, key: string, value: Value, ttl: Option<int>, defaultTtl: int, now: int, later: int)
    ensures var e := now + if ttl.Some? then ttl.value else defaultTtl;
            var r := SimpleGet(SimpleSet(items, key, value, ttl, defaultTtl, now), key, later);
            (later < e ==> r.0 == value) && (later >= e ==> r.0 == PyNone && key !in r.1)
  {
  }

  /** The SimpleCache: entries with their own expiry and a default TTL. */
  class SimpleCache {
    const ttlSeconds: int
    var items: map<string, Item>

    constructor (ttlSeconds: int)
      ensures this.ttlSeconds == ttlSeconds && items == map[]
    {
      this.ttlSeconds := ttlSeconds;
      items := map[];
    }

    method Get(key: string, now: int) returns (v: Value)
      modifies this
      ensures (v, items) == SimpleGet(old(items), key, now)
    {
      if key in items {
        var item := items[key];
        if item.expiry > now {
          return item.value;
        }
        items := items - {key};
      }
      return PyNone;
    }

    method Set(key: string, value: Value, ttl: Option<int>, now: int)
      modifies this
      ensures items == SimpleSet(old(items), key, value, ttl, ttlSeconds, now)
    {
      var expiry := now + (if ttl.Some? then ttl.value else ttlSeconds);
      items := items[key := Item(value, expiry)];
    }

    method Delete(key: string)
      modifies this
      ensures items == old(items) - {key}
    {
      if key in items {
        items := items - {key};
      }
    }
  }

  // ---------------------------------------------------------------------
  // CacheMiddleware

  datatype HttpRequest = HttpRequest(verb: string, path: string, query: string)

  /**
   * A response: status, headers, its body (None when the object has no
   * body attribute), media type, and whether it is a StreamingResponse.
   */
  datatype HttpResponse = HttpResponse(status: int, headers: Dict, body: Option<Value>, mediaType: Value, streaming: bool)

  /** f"{method}:{path}:{query}". */
  function CacheKey(req: HttpRequest): string
  {
    req.verb + ":" + req.path + ":" + req.query
  }

  /** _determine_cache_ttl: an hour for legislation details, five minutes for searches, else ten. */
  function CacheTtl(path: string): (ttl: int)
    ensures ttl > 0
    ensures ttl == 3600 <==> Text.Contains(path, "/legislation/") && !Text.Contains(path, "search")
    ensures ttl == 300 <==> !(Text.Contains(path, "/legislation/") && !Text.Contains(path, "search")) && Text.Contains(path, "/search/")
  {
    if Text.ContainsDec(path, "/legislation/") && !Text.ContainsDec(path, "search") then 3600
    else if Text.ContainsDec(path, "/search/") then 300
    else 600
  }

  /**
   * The legislation search endpoint, /legislation/search, has neither the
   * legislation-detail TTL nor the search TTL: its path has no "/search/",
   * so it falls to the ten-minute default.
   */
  lemma {:induction false} LegislationSearchTtl()
    ensures CacheTtl("/legislation/search") == 600
  {
    var s := "/legislation/search";
    assert Text.OccursAt(s, "search", 13);
    forall i | 0 <= i <= |s| - 8
      ensures !Text.OccursAt(s, "/search/", i)
    {
      assert s[i..i + 8][0] == s[i] && s[i..i + 8][1] == s[i + 1];
    }
  }

  /** The cache_data dict stored for a response. */
  function CacheData(r: HttpResponse, body: Value): Value
  {
    PyDict([("content", body), ("status_code", PyInt(r.status)), ("headers", PyDict(r.headers)), ("media_type", r.mediaType)])
  }

  /**
   * _get_from_cache's rebuilding of a stored dict: a missing key, headers
   * that are not a dict, or a status that is not an int give no response.
   */
  function FromCache(v: Value): Option<HttpResponse>
  {
    if !(Truthy(v) && v.PyDict?) then None
    else
      var c, s := Get(v.entries, "content"), Get(v.entries, "status_code");
      var h, m := Get(v.entries, "headers"), Get(v.entries, "media_type");
      if c.None? || s.None? || h.None? || m.None? || !h.value.PyDict? || !s.value.PyInt? then None
      else Some(HttpResponse(s.value.i, Set(h.value.entries, "X-Cache", PyStr("HIT")), Some(c.value), m.value, false))
  }

  /** A stored response comes back with its status, headers, body and media type, marked as a hit. */
  lemma {:induction false} FromCacheData(r: HttpResponse, body: Value)
    ensures FromCache(CacheData(r, body))
         == Some(HttpResponse(r.status, Set(r.headers, "X-Cache", PyStr("HIT")), Some(body), r.mediaType, false))
  {
    var es := CacheData(r, body).entries;
    assert es[1..] == [("status_code", PyInt(r.status)), ("headers", PyDict(r.headers)), ("media_type", r.mediaType)];
    assert es[2..] == [("headers", PyDict(r.headers)), ("media_type", r.mediaType)];
    assert es[3..] == [("media_type", r.mediaType)];
    assert Get(es, "content") == Some(body);
    assert Get(es, "status_code") == Some(PyInt(r.status));
    assert Get(es[3..], "media_type") == Some(r.mediaType);
    assert Get(es[2..], "headers") == Some(PyDict(r.headers));
    assert Get(es[2..], "media_type") == Some(r.mediaType);
    assert Get(es, "headers") == Some(PyDict(r.headers));
    assert Get(es, "media_type") == Some(r.mediaType);
  }

  function WithCacheHeader(r: HttpResponse, mark: string): HttpResponse
  {
    r.(headers := Set(r.headers, "X-Cache", PyStr(mark)))
  }

  /**
   * One CacheMiddleware.dispatch: `answer` is what the rest of the app
   * answers, used only when the cache cannot.
   */
  function CacheStep(st: CacheState, req: HttpRequest, now: int, answer: HttpResponse): (HttpResponse, CacheState)
  {
    if req.verb != "GET" then (answer, st)
    else
      var key := CacheKey(req);
      var g := CacheGet(st, key, now);
      var hit := FromCache(g.0);
      if hit.Some? then (hit.value, g.1)
      else if answer.streaming || answer.status >= 400 then (WithCacheHeader(answer, "BYPASS"), g.1)
      else if answer.body.None? then (WithCacheHeader(answer, "BYPASS (No Body Attribute)"), g.1)
      else
        (HttpResponse(answer.status, Set(answer.headers, "X-Cache", PyStr("MISS")), answer.body, answer.mediaType, false),
         CacheSet(g.1, key, CacheData(answer, answer.body.value), CacheTtl(req.path), now))
  }

  /** Only GET requests touch the cache. */
  lemma {:induction false} NonGetPassesThrough(st: CacheState, req: HttpRequest, now: int, answer: HttpResponse)
    requires req.verb != "GET"
    ensures CacheStep(st, req, now, answer) == (answer, st)
  {
  }

  /** An error answer is passed on marked BYPASS, and nothing is stored for it. */
  lemma {:induction false} ErrorsNotStored(st: CacheState, req: HttpRequest, now: int, answer: HttpResponse)
    requires req.verb == "GET" && CacheKey(req) !in st.cache && answer.status >= 400
    ensures CacheStep(st, req, now, answer) == (WithCacheHeader(answer, "BYPASS"), st)
  {
  }

  /**
   * A cacheable GET answer is stored on a miss and served from the cache,
   * marked HIT, to the same request until its TTL has passed.
   */
  lemma {:induction false} MissThenHit(st: CacheState, req: HttpRequest, now: int, answer: HttpResponse, later: int, other: HttpResponse)
    requires req.verb == "GET" && CacheKey(req) !in st.cache
    requires !answer.streaming && answer.status < 400 && answer.body.Some?
    requires later <= now + CacheTtl(req.path)
    ensures var st' := CacheStep(st, req, now, answer).1;
            CacheStep(st', req, later, other) == (HttpResponse(answer.status, Set(answer.headers, "X-Cache", PyStr("HIT")), answer.body, answer.mediaType, false), st')
  {
    var key := CacheKey(req);
    var st' := CacheStep(st, req, now, answer).1;
    assert st' == CacheSet(st, key, CacheData(answer, answer.body.value), CacheTtl(req.path), now);
    GetWithinTtl(st, key, CacheData(answer, answer.body.value), CacheTtl(req.path), now, later);
    FromCacheData(answer, answer.body.value);
  }

  /** The CacheMiddleware over a CacheManager. */
  class CacheMiddleware {
    const cacheManager: CacheManager

    constructor (cacheManager: CacheManager)
      ensures this.cacheManager == cacheManager
    {
      this.cacheManager := cacheManager;
    }

    /** dispatch: serve a GET from the cache, or answer it and store the answer. */
    method Dispatch(req: HttpRequest, now: int, next: HttpRequest -> HttpResponse) returns (resp: HttpResponse)
      requires cacheManager.Valid()
      modifies cacheManager
      ensures cacheManager.Valid()
      ensures (resp, cacheManager.State()) == CacheStep(old(cacheManager.State()), req, now, next(req))
    {
      if req.verb != "GET" {
        return next(req);
      }
      var key := CacheKey(req);
      var cached := cacheManager.Get(key, now);
      var hit := FromCache(cached);
      if hit.Some? {
        return hit.value;
      }
      var response := next(req);
      if response.streaming || response.status >= 400 {
        return WithCacheHeader(response, "BYPASS");
      }
      if response.body.None? {
        return WithCacheHeader(response, "BYPASS (No Body Attribute)");
      }
      var body := response.body.value;
      cacheManager.Set(key, CacheData(response, body), CacheTtl(req.path), now);
      resp := HttpResponse(response.status, Set(response.headers, "X-Cache", PyStr("MISS")), Some(body), response.mediaType, false);
    }
  }

  /** invalidate_cache: whatever the prefix, the whole cache is cleared. */
  method InvalidateCache(cacheManager: CacheManager, endpointPrefix: Option<string>)
    modifies cacheManager
    ensures cacheManager.Valid() && cacheManager.cache == map[] && cacheManager.ttl == map[]
  {
    cacheManager.Clear();
  }
}
