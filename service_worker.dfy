/** The offline cache controller of website/public/sw.js: versioned named
    caches, the request classifier, the cache-first, network-first and
    stale-while-revalidate strategies, the activation sweep of old
    generations and the CLEAR_CACHE / SKIP_WAITING messages.

    Cache storage is a map from cache name to a map from request URL to
    response. The network is an oracle: each strategy is handed the outcome
    of its one fetch, and install is handed the outcome of fetching each
    precached path. */
module ServiceWorker {
  import opened Basics

  const CacheVersion: string := "v1"
  /** The namespace every cache of this site starts with. */
  const CachePrefix: string := "css-tags-"
  const StaticCache: string := CachePrefix + "static-" + CacheVersion
  const DynamicCache: string := CachePrefix + "dynamic-" + CacheVersion
  const SearchCache: string := CachePrefix + "search-" + CacheVersion

  const PrecacheAssets: seq<string> := ["/CSS-Tags/", "/CSS-Tags/styles.css"]

  /** The alternatives of the static-asset pattern `\.(woff2?|ttf|...|js)$`. */
  const StaticExtensions: seq<string> :=
    ["woff", "woff2", "ttf", "eot", "svg", "png", "jpg", "jpeg", "gif", "webp", "ico", "css", "js"]

  datatype Response = Response(status: int, body: string) {
    /** `response.ok`: a 2xx status. */
    predicate Ok() {
      200 <= status <= 299
    }

    /** A 206 (partial content) response, which `cache.put` and
        `cache.addAll` refuse to store. */
    predicate Partial() {
      status == 206
    }

    /** What a strategy's `if (response.ok) cache.put(...)` really stores:
        an ok response that is not partial. */
    predicate Cacheable() {
      Ok() && !Partial()
    }
  }

  /** A request: its method, the URL's protocol and pathname, and the URL the
      caches are keyed by. */
  datatype Request = Request(httpMethod: string, protocol: string, pathname: string, url: string)

  /** What one `fetch` gives: a response (of any status) or a rejection. */
  datatype FetchResult = Fetched(response: Response) | NetworkError

  /** What a strategy's promise settles to: a response, a rejection (the
      error rethrown), or `null`. */
  datatype Outcome = Respond(response: Response) | Rejected | NullResponse

  type Cache = map<string, Response>
  type Caches = map<string, Cache>

  /** A strategy's result together with the cache storage it leaves. */
  datatype Step = Step(outcome: Outcome, caches: Caches)

  // ---------------------------------------------------------------------
  // Request classification

  /** The path ends in "." followed by one of `exts`. */
  predicate EndsWithAny(path: string, exts: seq<string>)
    decreases |exts|
  {
    |exts| > 0 && (EndsWith(path, "." + exts[0]) || EndsWithAny(path, exts[1..]))
  }

  predicate IsStaticAsset(pathname: string) {
    EndsWithAny(pathname, StaticExtensions)
  }

  /** The search pattern `\/pagefind\/`. */
  predicate IsSearchIndex(pathname: string) {
    Contains(pathname, "/pagefind/")
  }

  /** The pages pattern `\.html?$`. */
  predicate IsPage(pathname: string) {
    EndsWith(pathname, ".htm") || EndsWith(pathname, ".html")
  }

  datatype Strategy = CacheFirst | NetworkFirst | StaleWhileRevalidate
  datatype Route = Route(strategy: Strategy, cacheName: string)

  /** The fetch handler's if/else chain over the pathname, first match wins.
      The pages branch and the final branch pick the same route. */
  function Classify(pathname: string): (r: Route)
    ensures IsStaticAsset(pathname) ==> r == Route(CacheFirst, StaticCache)
    ensures !IsStaticAsset(pathname) && IsSearchIndex(pathname) ==> r == Route(StaleWhileRevalidate, SearchCache)
    ensures !IsStaticAsset(pathname) && !IsSearchIndex(pathname) ==> r == Route(NetworkFirst, DynamicCache)
  {
    if IsStaticAsset(pathname) then Route(CacheFirst, StaticCache)
    else if IsSearchIndex(pathname) then Route(StaleWhileRevalidate, SearchCache)
    else if IsPage(pathname) || EndsWith(pathname, "/") then Route(NetworkFirst, DynamicCache)
    else Route(NetworkFirst, DynamicCache)
  }

  /** The two early returns: only GET requests over an http-family protocol
      are intercepted. */
  predicate Intercepts(request: Request): (r: bool)
    ensures r ==> request.httpMethod == "GET"
    ensures r ==> |request.protocol| >= 4 && request.protocol[..4] == "http"
    ensures request.httpMethod == "GET" && StartsWith(request.protocol, "http") ==> r
  {
    request.httpMethod == "GET" && StartsWith(request.protocol, "http")
  }

  /** A path whose last character ends none of the extensions matches none. */
  lemma {:induction false} LastCharRulesOutExtensions(path: string, exts: seq<string>)
    requires |path| > 0
    requires forall i :: 0 <= i < |exts| ==> |exts[i]| > 0 && exts[i][|exts[i]| - 1] != path[|path| - 1]
    ensures !EndsWithAny(path, exts)
    decreases |exts|
  {
    if |exts| > 0 {
      var suffix := "." + exts[0];
      assert suffix[|suffix| - 1] == exts[0][|exts[0]| - 1];
      forall i | 0 <= i < |exts[1..]|
        ensures |exts[1..][i]| > 0 && exts[1..][i][|exts[1..][i]| - 1] != path[|path| - 1]
      {
        assert exts[1..][i] == exts[i + 1];
      }
      LastCharRulesOutExtensions(path, exts[1..]);
    }
  }

  /** Directory-style paths (ending in "/") and HTML pages are never static
      assets. */
  lemma RoutesAndPagesAreNotStatic(pathname: string)
    requires EndsWith(pathname, "/") || IsPage(pathname)
    ensures !IsStaticAsset(pathname)
  {
    var last := pathname[|pathname| - 1];
    assert last == '/' || last == 'm' || last == 'l' by {
      if EndsWith(pathname, "/") {
        assert pathname[|pathname| - 1..] == "/";
      } else if EndsWith(pathname, ".htm") {
        assert pathname[|pathname| - 4..][3] == 'm';
      } else {
        assert pathname[|pathname| - 5..][4] == 'l';
      }
    }
    LastCharRulesOutExtensions(pathname, StaticExtensions);
  }

  /** HTML pages and directory-style routes outside the search index go to
      network-first on the dynamic cache. */
  lemma PagesGoNetworkFirst(pathname: string)
    requires EndsWith(pathname, "/") || IsPage(pathname)
    requires !IsSearchIndex(pathname)
    ensures Classify(pathname) == Route(NetworkFirst, DynamicCache)
  {
    RoutesAndPagesAreNotStatic(pathname);
  }

  /** A path ending in "." followed by any one of the extensions matches. */
  lemma {:induction false} EndsWithOneOf(path: string, exts: seq<string>, i: nat)
    requires i < |exts| && EndsWith(path, "." + exts[i])
    ensures EndsWithAny(path, exts)
    decreases i
  {
    if i > 0 {
      assert exts[1..][i - 1] == exts[i];
      EndsWithOneOf(path, exts[1..], i - 1);
    }
  }

  /** The static rule comes first: a script under /pagefind/ is a static
      asset, not part of the search index. */
  lemma PagefindScriptIsStatic()
    ensures Classify("/pagefind/x.js") == Route(CacheFirst, StaticCache)
  {
    assert StaticExtensions[12] == "js";
    EndsWithOneOf("/pagefind/x.js", StaticExtensions, 12);
  }

  // ---------------------------------------------------------------------
  // Cache storage as values

  /** `caches.open(name)`: the named cache, created empty when absent. */
  function Opened(cs: Caches, name: string): (r: Caches)
    ensures name in r && r.Keys == cs.Keys + {name}
    ensures forall n :: n in cs ==> r[n] == cs[n]
    ensures name !in cs ==> r[name] == map[]
  {
    if name in cs then cs else cs[name := map[]]
  }

  /** `cache.match(request)` on the named cache (None when absent). */
  function Cached(cs: Caches, name: string, key: string): (r: Option<Response>)
    ensures r.Some? <==> name in cs && key in cs[name]
    ensures r.Some? ==> r.value == cs[name][key]
  {
    if name in cs && key in cs[name] then Some(cs[name][key]) else None
  }

  /** The `if (response.ok) cache.put(...)` step: an ok response is handed
      to `cache.put`, which stores it unless it is partial. Only the named
      cache changes, and only at `key`. */
  function PutIfOk(cs: Caches, name: string, key: string, response: Response): (r: Caches)
    requires name in cs
    ensures r.Keys == cs.Keys
    ensures forall n :: n in cs && n != name ==> r[n] == cs[n]
    ensures response.Cacheable() ==> Cached(r, name, key) == Some(response)
    ensures !response.Cacheable() ==> r == cs
    ensures r[name].Keys <= cs[name].Keys + {key}
    ensures forall k :: k in cs[name] && k != key ==> k in r[name] && r[name][k] == cs[name][k]
  {
    if response.Ok() then
      if response.Partial() then cs else cs[name := cs[name][key := response]]
    else cs
  }

  /** `after` differs from `before` only in the cache called `name`, which
      exists afterwards. */
  ghost predicate OnlyTouches(before: Caches, after: Caches, name: string) {
    && after.Keys == before.Keys + {name}
    && forall n :: n in before && n != name ==> after[n] == before[n]
  }

  /** Every entry of `after` that `before` did not already hold is ok and
      not partial. */
  ghost predicate OnlyCacheableWritten(before: Caches, after: Caches) {
    forall n, k :: n in after && k in after[n] && !(n in before && k in before[n] && before[n][k] == after[n][k])
      ==> after[n][k].Cacheable()
  }

  /** Entries already in the named cache survive in `after`, overwritten at
      most at `key`. */
  ghost predicate KeepsOthers(before: Caches, after: Caches, name: string, key: string) {
    name in after &&
    forall k :: name in before && k in before[name] && k != key ==> k in after[name] && after[name][k] == before[name][k]
  }

  // ---------------------------------------------------------------------
  // The strategies as state relations

  /** cacheFirst: a hit is returned without consulting the network and
      changes nothing; a miss returns the network's response, stored only
      when ok; a network failure is rethrown. */
  function CacheFirstStep(cs: Caches, name: string, key: string, net: FetchResult): (r: Step)
    ensures OnlyTouches(cs, r.caches, name) && OnlyCacheableWritten(cs, r.caches) && KeepsOthers(cs, r.caches, name, key)
    ensures r.caches[name].Keys <= Opened(cs, name)[name].Keys + {key}
    ensures Cached(cs, name, key).Some? ==> r == Step(Respond(Cached(cs, name, key).value), Opened(cs, name))
    ensures Cached(cs, name, key).None? && net.NetworkError? ==> r == Step(Rejected, Opened(cs, name))
    ensures Cached(cs, name, key).None? && net.Fetched? ==>
      && r.outcome == Respond(net.response)
      && (net.response.Cacheable() <==> Cached(r.caches, name, key) == Some(net.response))
      && (!net.response.Cacheable() ==> r.caches == Opened(cs, name))
  {
    var ready := Opened(cs, name);
    match Cached(cs, name, key)
    case Some(hit) => Step(Respond(hit), ready)
    case None =>
      match net
      case NetworkError => Step(Rejected, ready)
      case Fetched(response) => Step(Respond(response), PutIfOk(ready, name, key, response))
  }

  /** networkFirst: a fetched response is returned (stored only when ok); on
      a network failure the cached entry is returned if there is one, else
      the error is rethrown, and nothing is stored. */
  function NetworkFirstStep(cs: Caches, name: string, key: string, net: FetchResult): (r: Step)
    ensures OnlyTouches(cs, r.caches, name) && OnlyCacheableWritten(cs, r.caches) && KeepsOthers(cs, r.caches, name, key)
    ensures r.caches[name].Keys <= Opened(cs, name)[name].Keys + {key}
    ensures net.Fetched? ==>
      && r.outcome == Respond(net.response)
      && (net.response.Cacheable() ==> Cached(r.caches, name, key) == Some(net.response))
      && (!net.response.Cacheable() ==> r.caches == Opened(cs, name))
    ensures net.NetworkError? ==> r.caches == Opened(cs, name)
    ensures net.NetworkError? && Cached(cs, name, key).Some? ==> r.outcome == Respond(Cached(cs, name, key).value)
    ensures net.NetworkError? && Cached(cs, name, key).None? ==> r.outcome == Rejected
  {
    var ready := Opened(cs, name);
    match net
    case Fetched(response) => Step(Respond(response), PutIfOk(ready, name, key, response))
    case NetworkError =>
      match Cached(cs, name, key)
      case Some(hit) => Step(Respond(hit), ready)
      case None => Step(Rejected, ready)
  }

  /** staleWhileRevalidate: the background fetch refreshes the cache with an
      ok response whether or not there was a hit; the caller gets the entry
      cached beforehand if there was one, else the fetched response, else
      `null` when the fetch failed. */
  function StaleWhileRevalidateStep(cs: Caches, name: string, key: string, net: FetchResult): (r: Step)
    ensures OnlyTouches(cs, r.caches, name) && OnlyCacheableWritten(cs, r.caches) && KeepsOthers(cs, r.caches, name, key)
    ensures r.caches[name].Keys <= Opened(cs, name)[name].Keys + {key}
    ensures Cached(cs, name, key).Some? ==> r.outcome == Respond(Cached(cs, name, key).value)
    ensures Cached(cs, name, key).None? && net.Fetched? ==> r.outcome == Respond(net.response)
    ensures Cached(cs, name, key).None? && net.NetworkError? ==> r.outcome == NullResponse
    ensures net.Fetched? && net.response.Cacheable() ==> Cached(r.caches, name, key) == Some(net.response)
    ensures !(net.Fetched? && net.response.Cacheable()) ==> r.caches == Opened(cs, name)
  {
    var ready := Opened(cs, name);
    var refreshed :=
      match net
      case Fetched(response) => PutIfOk(ready, name, key, response)
      case NetworkError => ready;
    var outcome :=
      match Cached(cs, name, key)
      case Some(hit) => Respond(hit)
      case None =>
        match net
        case Fetched(response) => Respond(response)
        case NetworkError => NullResponse;
    Step(outcome, refreshed)
  }

  /** A cache-first hit does not depend on the network at all. */
  lemma CacheFirstHitIgnoresNetwork(cs: Caches, name: string, key: string, net1: FetchResult, net2: FetchResult)
    requires Cached(cs, name, key).Some?
    ensures CacheFirstStep(cs, name, key, net1) == CacheFirstStep(cs, name, key, net2)
  {
  }

  /** Once a cache-first request has been served by an ok response, the same
      request is answered with that response from the cache whatever the
      network does, and the cache is left as it is. */
  lemma CacheFirstSecondRequestHits(cs: Caches, name: string, key: string, response: Response, net: FetchResult)
    requires Cached(cs, name, key).None? && response.Cacheable()
    ensures var first := CacheFirstStep(cs, name, key, Fetched(response));
            CacheFirstStep(first.caches, name, key, net) == Step(Respond(response), first.caches)
  {
  }

  /** A partial (206) response passes the `response.ok` test and is handed
      back, but `cache.put` refuses it, so a later request misses again. */
  lemma PartialResponseServedNotCached(cs: Caches, name: string, key: string, body: string)
    requires Cached(cs, name, key).None?
    ensures CacheFirstStep(cs, name, key, Fetched(Response(206, body))) ==
            Step(Respond(Response(206, body)), Opened(cs, name))
  {
  }

  /** Stale-while-revalidate with a cached entry answers with the old entry
      and leaves the fresh ok response for the next request. */
  lemma StaleWhileRevalidateTwoPhase(cs: Caches, name: string, key: string, newer: Response, net: FetchResult)
    requires Cached(cs, name, key).Some? && newer.Cacheable()
    ensures var first := StaleWhileRevalidateStep(cs, name, key, Fetched(newer));
            && first.outcome == Respond(Cached(cs, name, key).value)
            && StaleWhileRevalidateStep(first.caches, name, key, net).outcome == Respond(newer)
  {
  }

  // ---------------------------------------------------------------------
  // The fetch handler

  datatype Handling = NotIntercepted | RespondWith(outcome: Outcome)

  /** The strategy's step when `route` is chosen: whichever strategy runs,
      only the route's cache changes, only at `key`, and only with a
      cacheable response. */
  function RunRoute(route: Route, cs: Caches, key: string, net: FetchResult): (r: Step)
    ensures OnlyTouches(cs, r.caches, route.cacheName) && OnlyCacheableWritten(cs, r.caches)
    ensures KeepsOthers(cs, r.caches, route.cacheName, key)
    ensures r.caches[route.cacheName].Keys <= Opened(cs, route.cacheName)[route.cacheName].Keys + {key}
  {
    match route.strategy
    case CacheFirst => CacheFirstStep(cs, route.cacheName, key, net)
    case NetworkFirst => NetworkFirstStep(cs, route.cacheName, key, net)
    case StaleWhileRevalidate => StaleWhileRevalidateStep(cs, route.cacheName, key, net)
  }

  /** The fetch handler's effect: requests it skips leave the caches as
      they are; the others are answered by the strategy of their route,
      which touches only that route's cache and writes only ok responses. */
  function FetchStep(cs: Caches, request: Request, net: FetchResult): (r: (Handling, Caches))
    ensures !Intercepts(request) ==> r == (NotIntercepted, cs)
    ensures Intercepts(request) ==>
      && r.0.RespondWith?
      && OnlyTouches(cs, r.1, Classify(request.pathname).cacheName)
      && OnlyCacheableWritten(cs, r.1)
  {
    if !Intercepts(request) then (NotIntercepted, cs)
    else
      var step := RunRoute(Classify(request.pathname), cs, request.url, net);
      (RespondWith(step.outcome), step.caches)
  }

  /** Only GET requests over http or https reach a strategy. */
  lemma InterceptedRequests(pathname: string, url: string)
    ensures Intercepts(Request("GET", "https:", pathname, url))
    ensures Intercepts(Request("GET", "http:", pathname, url))
    ensures !Intercepts(Request("POST", "https:", pathname, url))
    ensures !Intercepts(Request("GET", "chrome-extension:", pathname, url))
  {
    assert "chrome-extension:"[0] != "http"[0];
  }

  /** The precached start page is a directory-style route outside the
      search index. */
  lemma StartPageRoute()
    ensures Classify(PrecacheAssets[0]) == Route(NetworkFirst, DynamicCache)
  {
    var page := PrecacheAssets[0];
    assert EndsWith(page, "/");
    MissingCharNotContained(page, "/pagefind/", 1);
    PagesGoNetworkFirst(page);
  }

  /** The precached start page "/CSS-Tags/" is routed to network-first on
      the dynamic cache, so install's copy in the static cache is never
      consulted: offline, with nothing in the dynamic cache, the request is
      rejected although the static cache holds the page. */
  lemma PrecachedStartPageNotServedOffline(cs: Caches, protocol: string, url: string)
    requires StartsWith(protocol, "http")
    requires Cached(cs, StaticCache, url).Some?
    requires Cached(cs, DynamicCache, url).None?
    ensures FetchStep(cs, Request("GET", protocol, PrecacheAssets[0], url), NetworkError).0 == RespondWith(Rejected)
  {
    StartPageRoute();
    var request := Request("GET", protocol, PrecacheAssets[0], url);
    assert Intercepts(request);
    assert RunRoute(Classify(request.pathname), cs, url, NetworkError) == NetworkFirstStep(cs, DynamicCache, url, NetworkError);
  }

  /** The answer a request gets when no cache holds anything: the network's
      response, or for a failed fetch a rejection (null for
      stale-while-revalidate). */
  function FromNetwork(strategy: Strategy, net: FetchResult): Outcome {
    match net
    case Fetched(response) => Respond(response)
    case NetworkError => if strategy == StaleWhileRevalidate then NullResponse else Rejected
  }

  /** After CLEAR_CACHE every intercepted request falls through to the
      network as if nothing was ever cached. */
  lemma ClearedCachesFallThrough(request: Request, net: FetchResult)
    requires Intercepts(request)
    ensures FetchStep(map[], request, net).0 == RespondWith(FromNetwork(Classify(request.pathname).strategy, net))
  {
  }

  // ---------------------------------------------------------------------
  // Activation sweep

  /** The activate filter: one of this site's caches from another
      generation. A name ending in the current version is never old. */
  predicate IsOldGeneration(name: string): (r: bool)
    ensures r ==> StartsWith(name, CachePrefix)
    ensures r ==> !EndsWith(name, CacheVersion)
    ensures !StartsWith(name, CachePrefix) ==> !r
  {
    ContainsAt(name, CacheVersion);
    assert EndsWith(name, CacheVersion) ==> OccursAt(name, CacheVersion, |name| - |CacheVersion|);
    StartsWith(name, CachePrefix) && !Contains(name, CacheVersion)
  }

  /** The caches that survive activation. */
  function Activated(cs: Caches): (r: Caches)
    ensures forall n :: n in r <==> n in cs && !IsOldGeneration(n)
    ensures forall n :: n in r ==> r[n] == cs[n]
  {
    map n | n in cs && !IsOldGeneration(n) :: cs[n]
  }

  /** A missing character rules out containment. */
  lemma MissingCharNotContained(s: string, part: string, j: nat)
    requires j < |part| && part[j] !in s
    ensures !Contains(s, part)
  {
  }

  /** The current generation's caches and caches outside the site's
      namespace are kept; this site's caches of an older generation go. */
  lemma ActivationKeepsCurrentGeneration(cs: Caches)
    ensures forall n :: n in cs && !StartsWith(n, CachePrefix) ==> n in Activated(cs)
    ensures forall n :: n in cs && (n == StaticCache || n == DynamicCache || n == SearchCache) ==> n in Activated(cs)
    ensures "css-tags-static-v0" in cs ==> "css-tags-static-v0" !in Activated(cs)
  {
    assert OccursAt(StaticCache, CacheVersion, 16);
    assert OccursAt(DynamicCache, CacheVersion, 17);
    assert OccursAt(SearchCache, CacheVersion, 16);
    ContainsAt(StaticCache, CacheVersion);
    ContainsAt(DynamicCache, CacheVersion);
    ContainsAt(SearchCache, CacheVersion);
    assert CachePrefix <= "css-tags-static-v0";
    MissingCharNotContained("css-tags-static-v0", CacheVersion, 1);
  }

  /** The version test is a substring test: a cache named for generation
      "v10" is kept while the version is "v1". */
  lemma SubstringVersionIsKept(cs: Caches)
    requires "css-tags-static-v10" in cs
    ensures "css-tags-static-v10" in Activated(cs)
  {
    assert OccursAt("css-tags-static-v10", CacheVersion, 16);
    ContainsAt("css-tags-static-v10", CacheVersion);
  }

  // ---------------------------------------------------------------------
  // Install: cache.addAll

  /** Every precached path fetched with an ok, non-partial response, which
      `cache.addAll` demands of all of them. */
  predicate AllFetchedOk(paths: seq<string>, fetchAsset: string -> FetchResult) {
    forall i :: 0 <= i < |paths| ==> fetchAsset(paths[i]).Fetched? && fetchAsset(paths[i]).response.Cacheable()
  }

  /** The cache after putting the fetched response of each path, in order. */
  function PutAll(cache: Cache, paths: seq<string>, fetchAsset: string -> FetchResult): Cache
    requires AllFetchedOk(paths, fetchAsset)
    decreases |paths|
  {
    if paths == [] then cache
    else
      var last := paths[|paths| - 1];
      PutAll(cache, paths[..|paths| - 1], fetchAsset)[last := fetchAsset(last).response]
  }

  /** After addAll every path has an entry, holding that path's ok response;
      the other entries are as they were. */
  lemma {:induction false} PutAllStoresEveryPath(cache: Cache, paths: seq<string>, fetchAsset: string -> FetchResult)
    requires AllFetchedOk(paths, fetchAsset)
    ensures forall p :: p in paths ==>
      (p in PutAll(cache, paths, fetchAsset) && PutAll(cache, paths, fetchAsset)[p] == fetchAsset(p).response)
    ensures forall k :: k in cache && k !in paths ==>
      (k in PutAll(cache, paths, fetchAsset) && PutAll(cache, paths, fetchAsset)[k] == cache[k])
    ensures forall k :: k in PutAll(cache, paths, fetchAsset) ==> k in cache || k in paths
    decreases |paths|
  {
    if paths != [] {
      var init := paths[..|paths| - 1];
      PutAllStoresEveryPath(cache, init, fetchAsset);
      forall p | p in paths ensures p in init || p == paths[|paths| - 1] {
        var i :| 0 <= i < |paths| && paths[i] == p;
        if i < |paths| - 1 {
          assert init[i] == p;
        }
      }
    }
  }

  // ---------------------------------------------------------------------
  // The imperative layer: cache storage and the worker

  /** The worker's cache storage, changed in place by the Cache API. */
  class CacheStorage {
    var caches: Caches

    constructor (initial: Caches)
      ensures caches == initial
    {
      caches := initial;
    }

    /** `caches.open(name)` */
    method Open(name: string)
      modifies this
      ensures caches == Opened(old(caches), name)
    {
      if name !in caches {
        caches := caches[name := map[]];
      }
    }

    /** `cache.match(request)` */
    method Match(name: string, key: string) returns (r: Option<Response>)
      ensures r == Cached(caches, name, key)
    {
      if name in caches && key in caches[name] {
        r := Some(caches[name][key]);
      } else {
        r := None;
      }
    }

    /** `cache.put(request, response)`: a partial (206) response is refused
        and nothing is stored; any other response is stored at `key`. */
    method Put(name: string, key: string, response: Response) returns (stored: bool)
      requires name in caches
      modifies this
      ensures stored == !response.Partial()
      ensures stored ==> caches == old(caches)[name := old(caches)[name][key := response]]
      ensures !stored ==> caches == old(caches)
    {
      if response.Partial() {
        return false;
      }
      caches := caches[name := caches[name][key := response]];
      stored := true;
    }

    /** `caches.delete(name)` */
    method Delete(name: string) returns (deleted: bool)
      modifies this
      ensures deleted == (name in old(caches))
      ensures caches == old(caches) - {name}
    {
      deleted := name in caches;
      caches := caches - {name};
    }

    /** `caches.keys()` */
    method Keys() returns (names: set<string>)
      ensures names == caches.Keys
    {
      names := caches.Keys;
    }

    /** `cache.addAll(paths)`: all paths are fetched; only when every response
        is ok and not partial are they all stored, otherwise nothing is. */
    method AddAll(name: string, paths: seq<string>, fetchAsset: string -> FetchResult) returns (ok: bool)
      requires name in caches
      modifies this
      ensures ok == AllFetchedOk(paths, fetchAsset)
      ensures ok ==> caches == old(caches)[name := PutAll(old(caches)[name], paths, fetchAsset)]
      ensures !ok ==> caches == old(caches)
    {
      var i := 0;
      while i < |paths|
        invariant 0 <= i <= |paths|
        invariant AllFetchedOk(paths[..i], fetchAsset)
      {
        var fetched := fetchAsset(paths[i]);
        if !(fetched.Fetched? && fetched.response.Cacheable()) {
          return false;
        }
        assert paths[..i + 1] == paths[..i] + [paths[i]];
        i := i + 1;
      }
      assert paths[..i] == paths;
      ok := true;
      i := 0;
      while i < |paths|
        invariant 0 <= i <= |paths|
        invariant caches == old(caches)[name := PutAll(old(caches)[name], paths[..i], fetchAsset)]
      {
        var _ := Put(name, paths[i], fetchAsset(paths[i]).response);
        assert paths[..i + 1][..i] == paths[..i];
        i := i + 1;
      }
      assert paths[..i] == paths;
    }
  }

  /** cacheFirst over the storage. */
  method RunCacheFirst(storage: CacheStorage, request: Request, cacheName: string, net: FetchResult)
    returns (r: Outcome)
    modifies storage
    ensures Step(r, storage.caches) == CacheFirstStep(old(storage.caches), cacheName, request.url, net)
  {
    storage.Open(cacheName);
    var cached := storage.Match(cacheName, request.url);
    if cached.Some? {
      return Respond(cached.value);
    }
    match net
    case NetworkError =>
      r := Rejected;
    case Fetched(response) =>
      if response.Ok() {
        var _ := storage.Put(cacheName, request.url, response);
      }
      r := Respond(response);
  }

  /** networkFirst over the storage. */
  method RunNetworkFirst(storage: CacheStorage, request: Request, cacheName: string, net: FetchResult)
    returns (r: Outcome)
    modifies storage
    ensures Step(r, storage.caches) == NetworkFirstStep(old(storage.caches), cacheName, request.url, net)
  {
    storage.Open(cacheName);
    match net
    case Fetched(response) =>
      if response.Ok() {
        var _ := storage.Put(cacheName, request.url, response);
      }
      r := Respond(response);
    case NetworkError =>
      var cached := storage.Match(cacheName, request.url);
      r := if cached.Some? then Respond(cached.value) else Rejected;
  }

  /** staleWhileRevalidate over the storage; the background put is taken to
      complete within the same step. */
  method RunStaleWhileRevalidate(storage: CacheStorage, request: Request, cacheName: string, net: FetchResult)
    returns (r: Outcome)
    modifies storage
    ensures Step(r, storage.caches) == StaleWhileRevalidateStep(old(storage.caches), cacheName, request.url, net)
  {
    storage.Open(cacheName);
    var cached := storage.Match(cacheName, request.url);
    var background: Outcome;
    match net {
      case Fetched(response) =>
        if response.Ok() {
          var _ := storage.Put(cacheName, request.url, response);
        }
        background := Respond(response);
      case NetworkError =>
        background := NullResponse;
    }
    r := if cached.Some? then Respond(cached.value) else background;
  }

  /** The service worker: its cache storage and its lifecycle flags. */
  class Worker {
    const storage: CacheStorage
    var skipWaitingCalled: bool
    var clientsClaimed: bool

    constructor (s: CacheStorage)
      ensures storage == s && !skipWaitingCalled && !clientsClaimed
    {
      storage := s;
      skipWaitingCalled := false;
      clientsClaimed := false;
    }

    /** install: open the static cache, precache the assets, then skip
        waiting; if addAll fails the install fails before skipWaiting. */
    method OnInstall(fetchAsset: string -> FetchResult) returns (installed: bool)
      modifies storage, this`skipWaitingCalled
      ensures installed == AllFetchedOk(PrecacheAssets, fetchAsset)
      ensures var ready := Opened(old(storage.caches), StaticCache);
              storage.caches == if installed then ready[StaticCache := PutAll(ready[StaticCache], PrecacheAssets, fetchAsset)]
                                else ready
      ensures installed ==> forall p :: p in PrecacheAssets ==> p in storage.caches[StaticCache]
      ensures skipWaitingCalled == (old(skipWaitingCalled) || installed)
    {
      storage.Open(StaticCache);
      installed := storage.AddAll(StaticCache, PrecacheAssets, fetchAsset);
      if installed {
        PutAllStoresEveryPath(Opened(old(storage.caches), StaticCache)[StaticCache], PrecacheAssets, fetchAsset);
        skipWaitingCalled := true;
      }
    }

    /** activate: delete every old-generation cache, then claim the clients. */
    method OnActivate()
      modifies storage, this`clientsClaimed
      ensures storage.caches == Activated(old(storage.caches))
      ensures clientsClaimed
    {
      var todo := storage.Keys();
      ghost var before := storage.caches;
      while todo != {}
        invariant todo <= before.Keys
        invariant storage.caches == map n | n in before && (n in todo || !IsOldGeneration(n)) :: before[n]
        decreases todo
      {
        var name :| name in todo;
        if IsOldGeneration(name) {
          var _ := storage.Delete(name);
        }
        todo := todo - {name};
      }
      clientsClaimed := true;
    }

    /** fetch: skipped requests are left to the platform; the others are
        answered by the strategy of their route. */
    method OnFetch(request: Request, net: FetchResult) returns (h: Handling)
      modifies storage
      ensures (h, storage.caches) == FetchStep(old(storage.caches), request, net)
    {
      if request.httpMethod != "GET" {
        return NotIntercepted;
      }
      if !StartsWith(request.protocol, "http") {
        return NotIntercepted;
      }
      var route := Classify(request.pathname);
      var outcome: Outcome;
      match route.strategy {
        case CacheFirst =>
          outcome := RunCacheFirst(storage, request, route.cacheName, net);
        case NetworkFirst =>
          outcome := RunNetworkFirst(storage, request, route.cacheName, net);
        case StaleWhileRevalidate =>
          outcome := RunStaleWhileRevalidate(storage, request, route.cacheName, net);
      }
      h := RespondWith(outcome);
    }

    /** message: SKIP_WAITING calls skipWaiting; CLEAR_CACHE deletes every
        cache name. `messageType` is `event.data.type`, None without data. */
    method OnMessage(messageType: Option<string>)
      modifies storage, this`skipWaitingCalled
      ensures skipWaitingCalled == (old(skipWaitingCalled) || messageType == Some("SKIP_WAITING"))
      ensures messageType == Some("CLEAR_CACHE") ==> storage.caches == map[]
      ensures messageType != Some("CLEAR_CACHE") ==> storage.caches == old(storage.caches)
    {
      if messageType == Some("SKIP_WAITING") {
        skipWaitingCalled := true;
      }
      if messageType == Some("CLEAR_CACHE") {
        var todo := storage.Keys();
        while todo != {}
          invariant storage.caches.Keys == todo
          invariant skipWaitingCalled == (old(skipWaitingCalled) || messageType == Some("SKIP_WAITING"))
          decreases todo
        {
          var name :| name in todo;
          var _ := storage.Delete(name);
          todo := todo - {name};
        }
      }
    }
  }
}
