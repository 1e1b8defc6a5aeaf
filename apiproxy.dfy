/** The REST proxy of the original server: requests under
    "/api/1/binance/proxy" are forwarded to the exchange's REST API, and
    each upstream answer is cached by its URL and served again for one
    second. */
module ApiProxy {
  import opened Wrappers
  import opened Text
  import opened GoTime

  const ProxyPrefix: string := "/api/1/binance/proxy"
  const UpstreamHost: string := "https://api.binance.com"

  /** A cached upstream answer: when it was fetched (nanoseconds), its body
      and its content type. */
  datatype CacheEntry = CacheEntry(timestamp: int, content: string, contentType: string)

  /** An upstream answer, when the fetch succeeded. */
  datatype Response = Response(status: int, content: string, contentType: string)

  /** What the client receives: nothing when the fetch failed, the cached
      body (with the default status), or the upstream status and body. Every
      reply carries "access-control-allow-origin: *". */
  datatype Reply =
    | NoReply
    | FromCache(content: string, contentType: string)
    | Proxied(status: int, content: string, contentType: string)

  /** The upstream URL: the host followed by the request URI with its first
      20 characters, the length of the proxy prefix, cut off. A shorter URI
      makes the slice panic. */
  function UpstreamUrl(requestUri: string): (r: Result<string>)
    ensures r.Err? <==> |requestUri| < |ProxyPrefix|
    ensures r.Err? ==> r.error == IndexOutOfRange
    ensures r.Ok? ==> StartsWith(r.value, UpstreamHost) && |r.value| == |UpstreamHost| + |requestUri| - |ProxyPrefix|
  {
    if |requestUri| < |ProxyPrefix| then Err(IndexOutOfRange)
    else Ok(UpstreamHost + requestUri[|ProxyPrefix|..])
  }

  /** A request under the proxy prefix is forwarded to the same path and
      query on the upstream host, and two such requests share a cache key
      exactly when their rests are equal. */
  lemma UpstreamUrlOfProxied(rest: string, rest': string)
    ensures UpstreamUrl(ProxyPrefix + rest) == Ok(UpstreamHost + rest)
    ensures UpstreamUrl(ProxyPrefix + rest) == UpstreamUrl(ProxyPrefix + rest') <==> rest == rest'
  {
    assert (ProxyPrefix + rest)[|ProxyPrefix|..] == rest;
    assert (ProxyPrefix + rest')[|ProxyPrefix|..] == rest';
    if UpstreamHost + rest == UpstreamHost + rest' {
      assert rest == (UpstreamHost + rest)[|UpstreamHost|..];
      assert rest' == (UpstreamHost + rest')[|UpstreamHost|..];
    }
  }

  /** `time.Now().Sub(timestamp) <= time.Second`. */
  predicate Fresh(now: int, timestamp: int) {
    Saturate64(now - timestamp) <= SecondNs
  }

  /** Saturation never changes the answer: an entry is fresh exactly when
      it is at most one second old, including one stamped in the future. */
  lemma FreshWithinSecond(now: int, timestamp: int)
    ensures Fresh(now, timestamp) <==> now - timestamp <= SecondNs
  {
  }

  /** The outcome of one request: the reply and the new cache. */
  datatype Served = Served(reply: Result<Reply>, cache: map<string, CacheEntry>)

  /** `ServeHTTP` on a cache, with the clock reading `now` at the freshness
      check and `fetchedAt` after the upstream body is read, and `upstream`
      the answer of the fetch (none when it failed). */
  function Serve(cache: map<string, CacheEntry>, requestUri: string, now: int, fetchedAt: int,
                 upstream: Option<Response>): Served
  {
    match UpstreamUrl(requestUri)
    case Err(e) => Served(Err(e), cache)
    case Ok(url) =>
      if url in cache && Fresh(now, cache[url].timestamp) then
        Served(Ok(FromCache(cache[url].content, cache[url].contentType)), cache)
      else
        match upstream
        case None => Served(Ok(NoReply), cache)
        case Some(resp) =>
          Served(Ok(Proxied(resp.status, resp.content, resp.contentType)),
                 cache[url := CacheEntry(fetchedAt, resp.content, resp.contentType)])
  }

  /** A fresh entry is served as it is, without a fetch and without
      touching the cache; otherwise a failed fetch leaves the cache alone
      and a successful one, whatever its status, replaces the entry of that
      URL only. */
  lemma ServeCases(cache: map<string, CacheEntry>, requestUri: string, now: int, fetchedAt: int,
                   upstream: Option<Response>)
    requires |requestUri| >= |ProxyPrefix|
    ensures var url := UpstreamUrl(requestUri).value;
            var s := Serve(cache, requestUri, now, fetchedAt, upstream);
            && (url in cache && now - cache[url].timestamp <= SecondNs ==>
                  s == Served(Ok(FromCache(cache[url].content, cache[url].contentType)), cache))
            && (!(url in cache && now - cache[url].timestamp <= SecondNs) && upstream.None? ==>
                  s == Served(Ok(NoReply), cache))
            && (!(url in cache && now - cache[url].timestamp <= SecondNs) && upstream.Some? ==>
                  s.reply == Ok(Proxied(upstream.value.status, upstream.value.content, upstream.value.contentType)) &&
                  s.cache.Keys == cache.Keys + {url} &&
                  s.cache[url] == CacheEntry(fetchedAt, upstream.value.content, upstream.value.contentType) &&
                  forall k :: k in cache && k != url ==> s.cache[k] == cache[k])
  {
    var url := UpstreamUrl(requestUri).value;
    if url in cache {
      FreshWithinSecond(now, cache[url].timestamp);
    }
  }

  /** Nothing is ever evicted: every key of the cache stays, with an entry
      at least as recent when the clock does not run backwards. */
  lemma ServeNeverEvicts(cache: map<string, CacheEntry>, requestUri: string, now: int, fetchedAt: int,
                         upstream: Option<Response>)
    requires forall k :: k in cache ==> cache[k].timestamp <= fetchedAt
    ensures var s := Serve(cache, requestUri, now, fetchedAt, upstream);
            cache.Keys <= s.cache.Keys &&
            forall k :: k in cache ==> cache[k].timestamp <= s.cache[k].timestamp
  {
  }

  /** A request repeated within a second of a successful fetch is answered
      from the cache with the same body, whatever the upstream would say. */
  lemma RepeatWithinSecond(cache: map<string, CacheEntry>, requestUri: string, now: int, fetchedAt: int,
                           resp: Response, now2: int, fetchedAt2: int, upstream2: Option<Response>)
    requires |requestUri| >= |ProxyPrefix|
    requires !(UpstreamUrl(requestUri).value in cache && Fresh(now, cache[UpstreamUrl(requestUri).value].timestamp))
    requires now2 - fetchedAt <= SecondNs
    ensures var s := Serve(cache, requestUri, now, fetchedAt, Some(resp));
            var s2 := Serve(s.cache, requestUri, now2, fetchedAt2, upstream2);
            s2 == Served(Ok(FromCache(resp.content, resp.contentType)), s.cache)
  {
    FreshWithinSecond(now2, fetchedAt);
  }

  class ApiProxy {
    var cache: map<string, CacheEntry>

    /** `NewApiProxy`: an empty cache. */
    constructor()
      ensures cache == map[]
    {
      cache := map[];
    }

    /** `AddToCache`: stores the entry under its key, replacing any other,
        and leaves every other key alone. */
    method AddToCache(key: string, entry: CacheEntry)
      modifies this
      ensures cache == old(cache)[key := entry]
    {
      cache := cache[key := entry];
    }

    /** `GetFromCache`: the entry under the key, none for a missing key. */
    function GetFromCache(key: string): (r: Option<CacheEntry>)
      reads this
      ensures r.Some? <==> key in cache
      ensures r.Some? ==> r.value == cache[key]
    {
      if key in cache then Some(cache[key]) else None
    }

    /** `ServeHTTP`. */
    method ServeHTTP(requestUri: string, now: int, fetchedAt: int, upstream: Option<Response>)
      returns (reply: Result<Reply>)
      modifies this
      ensures Served(reply, cache) == Serve(old(cache), requestUri, now, fetchedAt, upstream)
    {
      if |requestUri| < |ProxyPrefix| {
        return Err(IndexOutOfRange);
      }
      var url := UpstreamHost + requestUri[|ProxyPrefix|..];
      var cached := GetFromCache(url);
      if cached.Some? && Saturate64(now - cached.value.timestamp) <= SecondNs {
        return Ok(FromCache(cached.value.content, cached.value.contentType));
      }
      if upstream.None? {
        return Ok(NoReply);
      }
      var resp := upstream.value;
      AddToCache(url, CacheEntry(fetchedAt, resp.content, resp.contentType));
      reply := Ok(Proxied(resp.status, resp.content, resp.contentType));
    }
  }
}
