# CSS Tags documentation site: client and build logic in Dafny

This project models six small pieces of logic of the CSS Tags documentation
site and proves properties of them:

- **The offline cache controller** (`website/public/sw.js`). It keeps
  versioned named caches and classifies each request, first match wins. It
  answers requests by cache-first, network-first or stale-while-revalidate.
  On activation it sweeps caches of older generations, and it handles the
  `SKIP_WAITING` and `CLEAR_CACHE` messages. Cache storage is a `CacheStorage`
  object whose field maps each cache name to a map from request URL to
  response. Each strategy is a method proved equal to a state-relation
  function (`CacheFirstStep`, `NetworkFirstStep`, `StaleWhileRevalidateStep`).
  The contracts of those functions carry the invariants: only the named cache
  is touched, only ok responses that `cache.put` accepts are written, and
  other entries survive.
- **The carousel** (`carousel.js`). A `Carousel` class holds the slide index,
  the triggers' `disabled` flags and the touch start position. Its methods are
  goToSlide, prev, next, touchstart and touchend.
- **The image container** (`components/img-container.js`). An `Img` class
  holds the image's attributes. Its event handlers are proved equal to
  transition functions on an `ImgState` value. Lemmas over those functions
  cover sequences of events.
- **The string table lookup** (`website/src/i18n/strings.ts`). `GetString` is
  the loop over the dotted path's keys. It is proved to return `Lookup`, which
  walks the `STRINGS` tree.
- **The base-URL helpers** (`website/src/utils/url.ts`).
- **The Markdown base-path plugin** (`website/src/plugins/remark-base-path.mjs`).
  It applies to a tree of Markdown nodes.

The network and the browser are parameters:

- Each strategy receives the outcome of its single `fetch` as a
  `FetchResult`, which is either a response of any status or a network error.
- Install receives a total function that gives the fetch outcome of each
  precached path.
- The carousel and the image container receive the DOM facts they read:
  whether a slides container and the triggers exist, the item count, and the
  container's attributes.
- The intersection-observer feature test is the `lazyFallback` flag.

Points of the code's behaviour that the model keeps as written:

- The route table has three patterns: static extensions, `/pagefind/` and
  HTML pages. Paths ending in `/` join `.htm` and `.html` paths in the pages
  branch. That branch and the final one both pick network-first on the
  dynamic cache.
- Stale-while-revalidate with no cached entry and a failed fetch settles to
  `null`, not to an error.
- `CLEAR_CACHE` deletes every cache name, including caches outside the
  `css-tags-` namespace.
- The strategies test `response.ok` and then call `cache.put` without
  awaiting it. `cache.put` refuses a 206 (partial content) response, so such
  a response is handed back but never cached
  (`ServiceWorker.PartialResponseServedNotCached`).
- The error handler compares `img.src`, which the browser reports as a
  resolved absolute URL, with the raw `fallback-src` attribute. A relative
  fallback such as `fallback.png` never compares equal. So each failed load
  of the fallback sets src again, clears data-error and marks the image
  loading, and the browser retries on every error
  (`ImgContainer.ResolvedSrcRetriesFallback`).
- The precached start page `/CSS-Tags/` is routed to network-first on the
  dynamic cache. Its static-cache copy is never consulted, so offline with
  a cold dynamic cache the request is rejected
  (`ServiceWorker.PrecachedStartPageNotServedOffline`).
- The doc comment of `normalizeBase` speaks of removing trailing slashes.
  The code removes one only: `"/docs//"` becomes `"/docs/"`
  (`UrlUtils.RemovesOneSlashOnly`).
- The activation filter tests the version as a substring. So while the
  version is `v1`, a cache named `css-tags-static-v10` is kept
  (`ServiceWorker.SubstringVersionIsKept`).

Files: `basics.dfy` holds the `Option` type and the string tests
`startsWith`, `endsWith` and `includes`. There is one file per source file:
`service_worker.dfy`, `carousel.dfy`, `img_container.dfy`,
`i18n_strings.dfy`, `url_utils.dfy` and `remark_base_path.dfy`.

## Model

| member | source | states |
|---|---|---|
| `ServiceWorker.Classify` | website/public/sw.js:80-93 | First match wins: a static-extension path goes to cache-first on the static cache; otherwise a path containing `/pagefind/` goes to stale-while-revalidate on the search cache; everything else goes to network-first on the dynamic cache. |
| `ServiceWorker.Intercepts` | website/public/sw.js:70-78 | A request is intercepted iff it is a GET and its protocol starts with `http`. |
| `ServiceWorker.InterceptedRequests` | website/public/sw.js:70-78 | GET over `https:` and `http:` is intercepted; a POST, or a `chrome-extension:` request, is not. |
| `ServiceWorker.EndsWithOneOf` | website/public/sw.js:18 | A path ending in "." and any one listed extension matches the static pattern. |
| `ServiceWorker.PagefindScriptIsStatic` | website/public/sw.js:81-86 | `/pagefind/x.js` is classified static (cache-first, static cache), not search. |
| `ServiceWorker.RoutesAndPagesAreNotStatic` | website/public/sw.js:18-24 | A path ending in `/`, `.htm` or `.html` matches none of the static extensions. |
| `ServiceWorker.PagesGoNetworkFirst` | website/public/sw.js:87-93 | HTML pages and directory-style paths outside `/pagefind/` go to network-first on the dynamic cache. |
| `ServiceWorker.StartPageRoute` | website/public/sw.js:87-89 | The precached start page `/CSS-Tags/` is routed to network-first on the dynamic cache. |
| `ServiceWorker.PrecachedStartPageNotServedOffline` | website/public/sw.js:120-146 | With the page in the static cache but not in the dynamic cache, a failed fetch of `/CSS-Tags/` is rejected. |
| `ServiceWorker.RunRoute` | website/public/sw.js:81-93 | Whichever strategy the route names, only the route's cache changes, only at the request's key and only with a cacheable response; other entries survive. |
| `ServiceWorker.FetchStep` | website/public/sw.js:66-94 | A non-GET or non-http request is not intercepted and leaves the caches unchanged. An intercepted request is answered, touches only its route's cache and writes only cacheable responses. |
| `ServiceWorker.Worker.OnFetch` | website/public/sw.js:66-94 | The fetch handler's answer and new cache state are those of `FetchStep`. |
| `ServiceWorker.Opened` | website/public/sw.js:98 | `caches.open` leaves every existing cache as it is and adds the named cache, empty, if it is absent. |
| `ServiceWorker.Cached` | website/public/sw.js:99 | `cache.match` finds an entry iff the named cache exists and holds the key, and gives that entry. |
| `ServiceWorker.PutIfOk` | website/public/sw.js:109-111 | An ok, non-206 response is stored at the key; any other leaves the storage unchanged. No cache name is added, no other cache changes and the named cache gains at most the key. |
| `ServiceWorker.CacheFirstStep` | website/public/sw.js:97-117 | A hit returns the cached entry and leaves the storage as opened. A miss returns the network response, which is stored iff it is ok and not a 206. A network failure is rethrown with nothing stored. Only the named cache changes, gaining at most the request's key; only cacheable entries are written; other entries survive. |
| `ServiceWorker.RunCacheFirst` | website/public/sw.js:97-117 | cacheFirst over the storage object gives exactly `CacheFirstStep`'s result and new storage. |
| `ServiceWorker.CacheFirstHitIgnoresNetwork` | website/public/sw.js:99-104 | On a hit the result and the storage do not depend on the network outcome. |
| `ServiceWorker.CacheFirstSecondRequestHits` | website/public/sw.js:99-112 | After a miss served by an ok, non-206 response, the same request is answered from the cache with that response whatever the network does, and nothing changes. |
| `ServiceWorker.PartialResponseServedNotCached` | website/public/sw.js:108-112 | On a miss, a 206 response is returned while the storage is left as opened, because `cache.put` refuses it. |
| `ServiceWorker.NetworkFirstStep` | website/public/sw.js:120-146 | A fetched response is returned, and stored when it is ok and not a 206. On a network failure the cached entry is returned if present, else the error is rethrown, and nothing is stored. Only the named cache changes, gaining at most the request's key; only cacheable entries are written. |
| `ServiceWorker.RunNetworkFirst` | website/public/sw.js:120-146 | networkFirst over the storage object gives exactly `NetworkFirstStep`'s result and new storage. |
| `ServiceWorker.StaleWhileRevalidateStep` | website/public/sw.js:149-173 | The entry cached beforehand is returned if present. Otherwise the fetched response is returned, or `null` when the fetch failed. The cache is refreshed exactly when the fetched response is ok and not a 206. Only the named cache changes, gaining at most the request's key. |
| `ServiceWorker.RunStaleWhileRevalidate` | website/public/sw.js:149-173 | staleWhileRevalidate over the storage object gives exactly `StaleWhileRevalidateStep`'s result and new storage. |
| `ServiceWorker.StaleWhileRevalidateTwoPhase` | website/public/sw.js:151-169 | With a cached entry and an ok, non-206 fresh response, the caller gets the old entry and the next request gets the fresh one. |
| `ServiceWorker.ClearedCachesFallThrough` | website/public/sw.js:97-173 | With no caches at all (after `CLEAR_CACHE`), an intercepted request gets the network's response. A failed fetch gives a rejection, or `null` under stale-while-revalidate. |
| `ServiceWorker.Activated` | website/public/sw.js:49-54 | A cache survives activation iff it is not one of this site's caches (prefix `css-tags-`) lacking the version substring; survivors keep their contents. |
| `ServiceWorker.Worker.OnActivate` | website/public/sw.js:42-63 | The activate handler leaves exactly `Activated` of the old storage and claims the clients. |
| `ServiceWorker.ActivationKeepsCurrentGeneration` | website/public/sw.js:50-54 | The static, dynamic and search caches of the current version survive, as do caches outside the `css-tags-` namespace; `css-tags-static-v0` is deleted. |
| `ServiceWorker.SubstringVersionIsKept` | website/public/sw.js:52-53 | The version test is a substring test: `css-tags-static-v10` survives while the version is `v1`. |
| `ServiceWorker.IsOldGeneration` | website/public/sw.js:52-53 | A name selected for deletion starts with `css-tags-` and does not end in the current version. |
| `ServiceWorker.PutAllStoresEveryPath` | website/public/sw.js:35 | After the precache puts, every precached path has an entry holding its own response; other entries are kept; no other key appears. |
| `ServiceWorker.CacheStorage.AddAll` | website/public/sw.js:35 | `addAll` succeeds iff every path fetches an ok response other than a 206. It then stores all of them; otherwise it stores nothing. |
| `ServiceWorker.Worker.OnInstall` | website/public/sw.js:28-39 | Install opens the static cache and precaches `PRECACHE_ASSETS`. On success every asset has a static-cache entry and skipWaiting is called; on failure only the opened cache is added. |
| `ServiceWorker.Worker.OnMessage` | website/public/sw.js:176-190 | `SKIP_WAITING` calls skipWaiting. `CLEAR_CACHE` leaves no cache names at all. Any other message leaves the caches unchanged. |
| `ServiceWorker.CacheStorage.Match` | website/public/sw.js:99 | `cache.match` gives the entry for the URL in the named cache, or nothing. |
| `ServiceWorker.CacheStorage.Open` | website/public/sw.js:98 | `caches.open` leaves the storage as `Opened` gives it. |
| `ServiceWorker.CacheStorage.Keys` | website/public/sw.js:46 | `caches.keys` gives exactly the names of the existing caches. |
| `ServiceWorker.CacheStorage.Put` | website/public/sw.js:110 | `cache.put` refuses a 206 response and stores nothing; any other response is set as the one entry at the key. It reports whether it stored. |
| `ServiceWorker.CacheStorage.Delete` | website/public/sw.js:57 | `caches.delete` removes exactly the named cache and reports whether it existed. |
| `Carousel.JsRem` | carousel.js:54 | JavaScript's `%` agrees with Euclidean remainder on non-negative dividends, and its result is strictly between `-n` and `n`. |
| `Carousel.SlideFor` | carousel.js:53-57 | An index inside the range is kept in both modes. In loop mode index -1 wraps to the last slide and `totalSlides` to 0; otherwise the index is clamped. Any index from -1 to `totalSlides` lands in range. |
| `Carousel.Clamp` | carousel.js:56 | The clamped index lies in `[0, totalSlides-1]`. An index already in range is unchanged; one below goes to 0; one above goes to the last slide. |
| `Carousel.StepInRange` | carousel.js:52-57 | From a valid index, going to the index one step either way lands in `[0, totalSlides)` in both modes. |
| `Carousel.LoopWraps` | carousel.js:53-54 | In loop mode next from the last slide gives 0 and prev from 0 gives `totalSlides-1`; any other step moves by one. |
| `Carousel.LoopNextThenPrev` | carousel.js:54 | In loop mode next then prev returns to the starting index. |
| `Carousel.ClampedAtEnds` | carousel.js:55-56 | In non-loop mode prev at 0 stays at 0 and next at the last slide stays there. |
| `Carousel.SwipeTarget` | carousel.js:66-70 | A swipe counts iff it moves more than 50 pixels. A leftward swipe targets the next index and a rightward one the previous. |
| `Carousel.Carousel.constructor` | carousel.js:23-73 | The index starts at 0. After the initial update in non-loop mode, prev is disabled and next is disabled iff there is one slide; in loop mode the page's flags are kept. |
| `Carousel.Carousel.UpdateCarousel` | carousel.js:46-49 | In non-loop mode each existing trigger's disabled flag becomes "index is first" or "index is last". In loop mode neither flag is touched. |
| `Carousel.Carousel.GoToSlide` | carousel.js:52-59 | The new index is the wrapped or clamped target and stays valid. The disabled flags again mirror the index in non-loop mode and are untouched in loop mode. |
| `Carousel.Carousel.Prev` | carousel.js:61 | A prev click goes to the slide for `currentIndex - 1`. The disabled flags are untouched in loop mode, and a missing trigger's flag is kept in non-loop mode. |
| `Carousel.Carousel.Next` | carousel.js:62 | A next click goes to the slide for `currentIndex + 1`. The disabled flags are untouched in loop mode, and a missing trigger's flag is kept in non-loop mode. |
| `Carousel.Carousel.TouchStart` | carousel.js:65 | touchstart records the screen X position. |
| `Carousel.Carousel.TouchEnd` | carousel.js:66-71 | A swipe within the threshold changes nothing. A longer one goes to the next (leftward) or previous (rightward) slide. The disabled flags then mirror the index in non-loop mode and are untouched in loop mode. |
| `Carousel.Setup` | carousel.js:16-21 | No carousel is set up without a slides container or with zero items; otherwise it starts valid at index 0. |
| `ImgContainer.AfterSetup` | components/img-container.js:17-83 | Setup sets data-loading. It observes the image iff lazy loading is active and data-src or data-srcset is present. It copies src only when the image has none and alt only when the image's alt is empty; srcset and sizes are copied whenever the container gives a non-empty value. |
| `ImgContainer.SetupIdempotent` | components/img-container.js:17-83 | Running the setup twice on the same container leaves the image as one run does. |
| `ImgContainer.Enhance` | components/img-container.js:13-83 | A container without an img is skipped; otherwise the image ends in `AfterSetup`'s state with data-loading set. |
| `ImgContainer.AfterLoad` | components/img-container.js:20-23 | Load removes data-loading and sets loaded; nothing else changes. |
| `ImgContainer.Img.OnLoad` | components/img-container.js:20-23 | The load listener leaves the image in `AfterLoad`'s state. |
| `ImgContainer.FallbackApplies` | components/img-container.js:30-31 | The fallback is tried iff `fallback-src` is present, non-empty and different from the current src. |
| `ImgContainer.AfterError` | components/img-container.js:26-36 | With a non-empty fallback different from src, src becomes the fallback, data-error is cleared and data-loading is set. Otherwise data-error is set and src and data-loading are unchanged. Nothing else changes. |
| `ImgContainer.Img.OnError` | components/img-container.js:26-36 | The error listener leaves the image in `AfterError`'s state. |
| `ImgContainer.SecondErrorOnlyFlags` | components/img-container.js:30-35 | A second error after any first one only sets data-error. |
| `ImgContainer.FallbackTriedAtMostOnce` | components/img-container.js:26-36 | With src compared as the string the model holds, from the second of any run of errors on, the state is the first error's with data-error set, so src never changes again. |
| `ImgContainer.ResolvedSrcRetriesFallback` | components/img-container.js:26-36 | When the src the browser reports differs from the `fallback-src` text, an error swaps the fallback in again, clears data-error and marks the image loading. |
| `ImgContainer.ErrorsOnFlagged` | components/img-container.js:27-31 | Once data-error is set and the fallback is spent, further errors change nothing. |
| `ImgContainer.AfterIntersect` | components/img-container.js:40-54 | For an observed image, data-src moves into src and data-srcset into srcset, both are removed and the image is unobserved. Everything else is untouched; an unobserved image is unchanged. |
| `ImgContainer.Img.OnIntersect` | components/img-container.js:40-54 | The intersection callback leaves the image in `AfterIntersect`'s state. |
| `ImgContainer.IntersectOnce` | components/img-container.js:52 | A second intersection changes nothing, because the image was unobserved. |
| `I18nStrings.Split` | website/src/i18n/strings.ts:94 | `split(".")` yields at least one piece and no piece contains a dot. |
| `I18nStrings.JoinSplit` | website/src/i18n/strings.ts:94 | Joining the pieces of a split with dots gives back the path. |
| `I18nStrings.SplitJoin` | website/src/i18n/strings.ts:94 | Splitting the dotted join of dot-free keys gives back the keys. |
| `I18nStrings.Find` | website/src/i18n/strings.ts:98-99 | `key in value` holds iff some own entry has the key, and `value[key]` is that entry's value. |
| `I18nStrings.GetString` | website/src/i18n/strings.ts:93-107 | The loop with its early return computes `Lookup(STRINGS, path)`: the leaf reached by the keys, else the path. |
| `I18nStrings.ResolveAppend` | website/src/i18n/strings.ts:97-104 | Walking a concatenation of keys walks the first part, then the rest from where it ended. |
| `I18nStrings.Resolve` | website/src/i18n/strings.ts:97-104 | No keys leave the value itself. Keys after a leaf find nothing. A string reached by the walk is a leaf of the tree. |
| `I18nStrings.Lookup` | website/src/i18n/strings.ts:93-106 | The result is always a leaf string of the table or exactly the input path; a failed walk gives the path. |
| `I18nStrings.MissingKeyFails` | website/src/i18n/strings.ts:98-103 | A key missing at any step makes the walk fail. |
| `I18nStrings.PastLeafFails` | website/src/i18n/strings.ts:98 | Keys continuing past a leaf make the walk fail, since a string is not an object. |
| `I18nStrings.LeafPathFound` | website/src/i18n/strings.ts:93-106 | The dotted join of dot-free keys naming a leaf returns that leaf's string. |
| `I18nStrings.UnresolvedReturnsPath` | website/src/i18n/strings.ts:100-106 | A failed walk or one that stops at an object returns the path. |
| `I18nStrings.NavigationHome` | website/src/i18n/strings.ts:14-20 | `navigation` names an object and `navigation`, `home` names the leaf `"Home"`. |
| `I18nStrings.ExampleLeaf` | website/src/i18n/strings.ts:15 | `getString("navigation.home")` is `"Home"`. |
| `I18nStrings.ExampleInnerObject` | website/src/i18n/strings.ts:106 | `getString("navigation")` is `"navigation"`. |
| `I18nStrings.ExamplePastLeaf` | website/src/i18n/strings.ts:98 | `getString("navigation.home.x")` is `"navigation.home.x"`. |
| `UrlUtils.NormalizeBase` | website/src/utils/url.ts:5-11 | `"/"` gives `""`. Any other base loses at most one trailing `/`: the result is a prefix of the input, and an input not ending in `/` is unchanged. |
| `UrlUtils.RemovesOneSlashOnly` | website/src/utils/url.ts:10 | `"/docs//"` normalises to `"/docs/"`. |
| `UrlUtils.BuildAssetPath` | website/src/utils/url.ts:34-38 | The result is the base, one `/`, then the asset path, with no trailing slash added; with an empty base it is `"/" + assetPath`. |
| `UrlUtils.BuildHref` | website/src/utils/url.ts:19-26 | Without a slug (absent or empty) the result is the base, or `"/"` for an empty base. With a slug it ends in `/`, and with an empty base it is `"/" + slug + "/"`. |
| `UrlUtils.HrefIsAssetPathWithSlash` | website/src/utils/url.ts:25 | For a non-empty slug `buildHref(b, s) == buildAssetPath(b, s) + "/"`. |
| `UrlUtils.HrefStartsWithSlash` | website/src/utils/url.ts:7-25 | An href built on the normalisation of a base starting with `/` starts with `/`. |
| `RemarkBasePath.NormalizedBase` | website/src/plugins/remark-base-path.mjs:10 | The base loses exactly one trailing `/` if it has one, and is otherwise unchanged. |
| `RemarkBasePath.SameNormalisationAsUrlUtils` | website/src/plugins/remark-base-path.mjs:10 | The plugin's normalisation equals `normalizeBase` of url.ts on every base. |
| `RemarkBasePath.RewriteUrl` | website/src/plugins/remark-base-path.mjs:22-29 | The URL is left alone or becomes `normalizedBase + url`; a result starting with `/` came from a URL starting with `/`. |
| `RemarkBasePath.ShouldPrefix` | website/src/plugins/remark-base-path.mjs:22-27 | A URL passing the test begins with exactly one `/`, the base is non-empty, and prefixing the URL puts it under `normalizedBase + "/"`. |
| `RemarkBasePath.RewriteChangesIff` | website/src/plugins/remark-base-path.mjs:22-28 | A URL changes iff it is non-empty, starts with `/`, does not start with `//` and does not start with `normalizedBase + "/"`. |
| `RemarkBasePath.RewriteUrlIdempotent` | website/src/plugins/remark-base-path.mjs:26-28 | Rewriting a rewritten URL changes nothing, because it now starts with `normalizedBase + "/"`. |
| `RemarkBasePath.NonInternalUnchanged` | website/src/plugins/remark-base-path.mjs:24-25 | External URLs, anchors, relative paths and protocol-relative URLs are unchanged. |
| `RemarkBasePath.TransformKeepsShape` | website/src/plugins/remark-base-path.mjs:13 | Every node keeps its type and children count, and its children are transformed in turn. Only link and image nodes can change URL. |
| `RemarkBasePath.Transform` | website/src/plugins/remark-base-path.mjs:12-30 | A node keeps its type and children count. A node that is not a link or image keeps its URL. A link or image URL gets the base prefix iff the visitor's test holds. |
| `RemarkBasePath.RemarkBasePath` | website/src/plugins/remark-base-path.mjs:8-30 | The plugin keeps the root's type and children count. A root URL outside the internal absolute form is kept. An internal absolute root link or image URL ends up under `normalizedBase + "/"`. |
| `RemarkBasePath.PluginIdempotent` | website/src/plugins/remark-base-path.mjs:8-30 | Running the plugin on its own output changes nothing. |
| `RemarkBasePath.TransformIdempotent` | website/src/plugins/remark-base-path.mjs:12-30 | Applying the transformer twice gives the same tree as applying it once. |
| `RemarkBasePath.EmptyBaseIsIdentity` | website/src/plugins/remark-base-path.mjs:26 | With the empty normalised base no node changes. |
| `RemarkBasePath.RootBaseIsIdentity` | website/src/plugins/remark-base-path.mjs:10-28 | With base `"/"` or `""` the plugin leaves every tree unchanged. |
| `RemarkBasePath.PrefixExample` | website/src/plugins/remark-base-path.mjs:22-28 | Under base `"/CSS-Tags/"` the link `/guides/x` becomes `/CSS-Tags/guides/x` and the anchor `#top` is kept. |

## Left out

- ImgContainer.FallbackTriedAtMostOnce: it holds only when `fallback-src` is
  written as the absolute URL that `img.src` reports. The model compares src
  as a plain string; with a relative fallback the source retries on every
  error, as `ImgContainer.ResolvedSrcRetriesFallback` shows.
- ServiceWorker.CacheStorage.AddAll: the platform's `addAll` rejects a list
  naming the same request twice; the model stores the last duplicate. The
  precache list has two distinct paths, so install is unaffected.
- Promise scheduling is left out. Un-awaited `cache.put`, the background
  fetch of stale-while-revalidate and `event.waitUntil` are taken to complete
  within the step that starts them. So no interleaving of concurrent
  requests is modelled.
- `respondWith` is the `Handling` result, and `skipWaiting` and
  `clients.claim` are lifecycle flags. `Response.clone` is identity.
- Real `fetch`, URL parsing and the regex engine are left out. Requests carry
  their protocol, pathname and URL as given strings, and the patterns are the
  predicates `IsStaticAsset`, `IsSearchIndex` and `IsPage`.
- Precached paths are cache keys as written. Their resolution to absolute
  URLs is left out.
- Console logging is left out.
- `caches.keys()` is a set of names. The creation order it reports has no
  effect on the sweeps.
- The carousel's width and transform CSS strings and the `setTimeout`
  transition restore are left out: they use floating point and timers. DOM
  querying and event registration are left out; screen positions are
  integers.
- Carousel.Carousel.GoToSlide: it requires a target one step from the
  current index, which is all its handlers pass. The JavaScript remainder is
  modelled exactly, but other targets are not covered.
- Intersection-observer feature detection is the `lazyFallback` flag. Only an
  intersecting entry is delivered to the callback. `img.src` is a plain
  string compared by equality; its resolution to an absolute URL is left
  out.
- JavaScript prototype lookups of `key in value` (such as `"toString"`) are
  left out: `STRINGS` is a tree with own keys only.
- The `unist-util-visit` traversal is left out. RemarkBasePath.Transform
  walks the tree value itself and returns the rewritten tree. It does not
  update `node.url` in place, so node sharing between parts of a tree is not
  modelled.
- `website/src/navigation.ts`, `website/src/config.ts` and
  `website/astro.config.mjs` hold only data and configuration and are not
  part of this model.
