/** What the service worker's handlers guarantee, stated over their step functions. */
module ServiceWorkerProperties {
  import opened Wrappers
  import opened Strings
  import opened CacheStorage
  import opened ServiceWorker
  import opened Manifest

  // --------------------------------------------------------------- manifest

  // ---------------------------------------------------------------- install

  /**
   * Install asks to skip waiting exactly when `addAll` accepted the whole
   * manifest; then every manifest URL maps to its fetched response in
   * CACHE_NAME, and nothing else in the storage changed.
   */
  lemma InstallStoresManifest(st: Storage, origin: string, fetched: seq<Option<Response>>)
    requires Valid(st) && |fetched| == |ASSETS_TO_CACHE|
    ensures var r := InstallStep(st, origin, fetched);
      Valid(r.store) &&
      (r.skipWaiting <==> AddAllAccepted(ManifestUrls(origin), fetched)) &&
      CACHE_NAME in r.store.caches &&
      (forall n :: n in r.store.caches <==> n in st.caches || n == CACHE_NAME) &&
      (forall n :: n in st.caches && n != CACHE_NAME ==> r.store.caches[n] == st.caches[n]) &&
      (r.skipWaiting ==>
        (forall i :: 0 <= i < |ASSETS_TO_CACHE| ==>
          r.store.caches[CACHE_NAME][origin + ASSETS_TO_CACHE[i]] == fetched[i].value) &&
        (forall u :: u in r.store.caches[CACHE_NAME] ==>
          u in ManifestUrls(origin) || (CACHE_NAME in st.caches && u in st.caches[CACHE_NAME])) &&
        (forall u :: CACHE_NAME in st.caches && u in st.caches[CACHE_NAME] && u !in ManifestUrls(origin) ==>
          r.store.caches[CACHE_NAME][u] == st.caches[CACHE_NAME][u]))
  {
  }

  /**
   * Installing from an http(s) origin succeeds, and so reaches `skipWaiting`,
   * when every manifest fetch produced a response with an ok status other than 206.
   */
  lemma InstallSucceedsOnGoodFetches(st: Storage, origin: string, fetched: seq<Option<Response>>)
    requires Valid(st) && |fetched| == |ASSETS_TO_CACHE| && IsHttpUrl(origin)
    requires forall i :: 0 <= i < |fetched| ==>
      fetched[i].Some? && IsOkStatus(fetched[i].value.status) && fetched[i].value.status != 206
    ensures InstallStep(st, origin, fetched).skipWaiting
  {
    var urls := ManifestUrls(origin);
    assert forall i :: 0 <= i < |urls| ==> IsHttpUrl(urls[i]);
    assert AddAllAccepted(urls, fetched);
  }

  /**
   * If fetching any one manifest path fails or yields a status outside
   * 200-299 (or 206), the install does not reach `skipWaiting` and stores
   * nothing of the batch: CACHE_NAME holds what it held before (empty if it
   * was just created).
   */
  lemma InstallAllOrNothing(st: Storage, origin: string, fetched: seq<Option<Response>>, k: nat)
    requires Valid(st) && |fetched| == |ASSETS_TO_CACHE| && k < |fetched|
    requires fetched[k].None? || !IsOkStatus(fetched[k].value.status) || fetched[k].value.status == 206
    ensures var r := InstallStep(st, origin, fetched);
      !r.skipWaiting && r.store == Open(st, CACHE_NAME) &&
      r.store.caches[CACHE_NAME] == (if CACHE_NAME in st.caches then st.caches[CACHE_NAME] else map[])
  {
  }

  // --------------------------------------------------------------- activate

  /**
   * After activate only CACHE_NAME can remain, with its contents untouched,
   * and every other generation is gone.
   */
  lemma ActivateKeepsOnlyCurrent(st: Storage)
    requires Valid(st)
    ensures var r := Pruned(st);
      Valid(r) &&
      r.caches.Keys <= {CACHE_NAME} &&
      (CACHE_NAME in r.caches <==> CACHE_NAME in st.caches) &&
      (CACHE_NAME in st.caches ==> r.caches[CACHE_NAME] == st.caches[CACHE_NAME]) &&
      r.names == (if CACHE_NAME in st.caches then [CACHE_NAME] else [])
  {
    var r := Pruned(st);
    assert |r.names| <= 1;
    if CACHE_NAME in st.caches {
      assert CACHE_NAME in r.names;
      assert r.names == [r.names[0]];
    }
    assert |r.names| > 0 ==> r.names[0] in r.names;
  }

  /** Activating a second time changes nothing. */
  lemma ActivateIdempotent(st: Storage)
    requires Valid(st)
    ensures Pruned(Pruned(st)) == Pruned(st)
  {
    ActivateKeepsOnlyCurrent(st);
    ActivateKeepsOnlyCurrent(Pruned(st));
  }

  /** Once activated, `caches.match` reads the current generation only. */
  lemma MatchAfterActivate(st: Storage, req: Request)
    requires Valid(st)
    ensures Match(Pruned(st), req) ==
      if req.verb == "GET" && CACHE_NAME in st.caches && req.url in st.caches[CACHE_NAME]
      then Some(st.caches[CACHE_NAME][req.url]) else None
  {
    ActivateKeepsOnlyCurrent(st);
  }

  // ------------------------------------------------------------------ fetch

  /**
   * The handler stays out of a request's way exactly when its URL is a blob
   * URL or mentions an audio upload; it then neither reads nor writes the
   * cache nor calls `respondWith`, whatever the storage and the network hold.
   */
  lemma BypassedRequestsUntouched(st: Storage, req: Request, network: Option<Response>)
    ensures FetchStep(st, req, network).outcome.PassThrough? <==>
      StartsWith(req.url, "blob:") || Includes(req.url, "audio-upload")
    ensures FetchStep(st, req, network).outcome.PassThrough? ==> FetchStep(st, req, network).store == st
  {
  }

  /** A request with a stored entry gets that entry, the storage is unchanged, and the network is not consulted. */
  lemma CacheHitServesStored(st: Storage, req: Request, network: Option<Response>, cached: Response)
    requires !IsBypassed(req.url) && Match(st, req) == Some(cached)
    ensures FetchStep(st, req, network) == FetchResult(Served(Some(cached), false), st)
    ensures forall other :: FetchStep(st, req, other) == FetchStep(st, req, network)
  {
  }

  /** On a miss, a response that is not status 200 of type `basic` is returned as it is and nothing is stored. */
  lemma InvalidResponseNotCached(st: Storage, req: Request, response: Response)
    requires !IsBypassed(req.url) && Match(st, req).None?
    requires response.status != 200 || response.kind != Basic
    ensures FetchStep(st, req, Some(response)) == FetchResult(Served(Some(response), true), st)
  {
  }

  /** On a miss, a network error resolves the page's request with no response and leaves the storage unchanged. */
  lemma NetworkErrorNoResponse(st: Storage, req: Request)
    requires !IsBypassed(req.url) && Match(st, req).None?
    ensures FetchStep(st, req, None) == FetchResult(Served(None, true), st)
  {
  }

  /**
   * On a miss with a status-200 `basic` response to an http(s) `GET`,
   * CACHE_NAME now maps the request's URL to the very response returned, and
   * every other cache and every other entry is as before.
   */
  lemma ValidResponseCached(st: Storage, req: Request, response: Response)
    requires Valid(st) && !IsBypassed(req.url) && Match(st, req).None?
    requires response.status == 200 && response.kind == Basic
    requires req.verb == "GET" && IsHttpUrl(req.url)
    ensures var r := FetchStep(st, req, Some(response));
      r.outcome == Served(Some(response), true) &&
      Valid(r.store) &&
      CACHE_NAME in r.store.caches && r.store.caches[CACHE_NAME][req.url] == response &&
      (forall n :: n in r.store.caches <==> n in st.caches || n == CACHE_NAME) &&
      (forall n :: n in st.caches && n != CACHE_NAME ==> r.store.caches[n] == st.caches[n]) &&
      (forall u :: u in r.store.caches[CACHE_NAME] <==>
        u == req.url || (CACHE_NAME in st.caches && u in st.caches[CACHE_NAME])) &&
      (forall u :: CACHE_NAME in st.caches && u in st.caches[CACHE_NAME] ==>
        r.store.caches[CACHE_NAME][u] == st.caches[CACHE_NAME][u])
  {
  }

  /**
   * On a miss with a status-200 `basic` response to a request `cache.put`
   * refuses (not `GET`, or not http(s)), the page still gets the response and
   * no entry is written; only the empty CACHE_NAME cache may have been created
   * by `caches.open`.
   */
  lemma RefusedPutStoresNothing(st: Storage, req: Request, response: Response)
    requires Valid(st) && !IsBypassed(req.url) && Match(st, req).None?
    requires response.status == 200 && response.kind == Basic
    requires req.verb != "GET" || !IsHttpUrl(req.url)
    ensures FetchStep(st, req, Some(response)) == FetchResult(Served(Some(response), true), Open(st, CACHE_NAME))
  {
  }

  /**
   * Cache first: after a valid response has been stored, the same request is
   * served from the cache with that same response, without the network.
   */
  lemma StoredResponseServedNext(st: Storage, req: Request, response: Response, later: Option<Response>)
    requires Valid(st) && !IsBypassed(req.url) && Match(st, req).None?
    requires response.status == 200 && response.kind == Basic
    requires req.verb == "GET" && IsHttpUrl(req.url)
    ensures var after := FetchStep(st, req, Some(response)).store;
      FetchStep(after, req, later) == FetchResult(Served(Some(response), false), after)
  {
    ValidResponseCached(st, req, response);
    var after := FetchStep(st, req, Some(response)).store;
    var m := Match(after, req);
    assert CACHE_NAME in after.names && req.url in after.caches[CACHE_NAME];
    assert m.Some?;
  }

  /**
   * Whatever the request, a fetch writes at most one entry: the request's own
   * URL, holding the status-200 `basic` response it returned, and never for a
   * bypassed URL. No entry is removed or altered otherwise.
   */
  lemma FetchWritesOnlyCacheable(st: Storage, req: Request, network: Option<Response>, n: string, u: string)
    requires Valid(st)
    ensures var r := FetchStep(st, req, network);
      Valid(r.store) &&
      (n in st.caches ==> n in r.store.caches) &&
      (n in r.store.caches && u in r.store.caches[n] && !(n in st.caches && u in st.caches[n] && r.store.caches[n][u] == st.caches[n][u]) ==>
        n == CACHE_NAME && u == req.url && !IsBypassed(u) && network.Some? && IsCacheable(network.value) &&
        r.store.caches[n][u] == network.value && r.outcome == Served(network, true))
  {
  }
}
