/**
 * The offline cache policy of the McIntosh DAP web player (sw.js): the
 * install, activate and fetch handlers of its service worker, each taken as
 * one atomic step over the origin's cache storage.
 *
 * Each handler is specified by a pure step function (InstallStep, Pruned,
 * FetchStep); the Worker class holds the cache storage and the two lifecycle
 * flags and performs the same steps by updating its fields.
 */
module ServiceWorker {
  import opened Wrappers
  import opened Strings
  import opened CacheStorage
  import opened Manifest

  /** The name of the worker's cache generation. */
  const CACHE_NAME: string := "McIntosh-DAP"

  /**
   * The manifest paths resolved against the worker's origin (for example
   * "https://host"): distinct, since the paths are, and http(s) URLs
   * whenever the origin is.
   */
  function ManifestUrls(origin: string): (urls: seq<string>)
    ensures |urls| == |ASSETS_TO_CACHE|
    ensures forall i :: 0 <= i < |urls| ==> urls[i] == origin + ASSETS_TO_CACHE[i]
    ensures Distinct(urls)
    ensures IsHttpUrl(origin) ==> forall i :: 0 <= i < |urls| ==> IsHttpUrl(urls[i])
  {
    var urls := seq(|ASSETS_TO_CACHE|, i requires 0 <= i < |ASSETS_TO_CACHE| => origin + ASSETS_TO_CACHE[i]);
    ManifestShape();
    forall i, j | 0 <= i < j < |urls| ensures urls[i] != urls[j] {
      assert urls[i][|origin|..] == ASSETS_TO_CACHE[i];
      assert urls[j][|origin|..] == ASSETS_TO_CACHE[j];
    }
    forall i | 0 <= i < |urls| && IsHttpUrl(origin) ensures IsHttpUrl(urls[i]) {
      PrefixKept(origin, ASSETS_TO_CACHE[i], "http:");
      PrefixKept(origin, ASSETS_TO_CACHE[i], "https:");
    }
    urls
  }

  /** A string that starts with `p` still does once something is appended. */
  lemma PrefixKept(s: string, t: string, p: string)
    ensures StartsWith(s, p) ==> StartsWith(s + t, p)
  {
    if StartsWith(s, p) {
      assert (s + t)[..|p|] == s[..|p|];
    }
  }

  // ---------------------------------------------------------------- install

  /** What the install handler leaves behind: the storage and whether it asked to skip waiting. */
  datatype InstallResult = InstallResult(store: Storage, skipWaiting: bool)

  /**
   * The install handler: open the cache generation (creating it if absent),
   * `addAll` the manifest, and only once that has resolved call `skipWaiting`.
   * `fetched[i]` is what fetching the i-th manifest path produced, `None` for a
   * network error. A rejected `addAll` is caught and logged: nothing of the
   * batch is stored and `skipWaiting` is not reached.
   */
  function InstallStep(st: Storage, origin: string, fetched: seq<Option<Response>>): (r: InstallResult)
    requires |fetched| == |ASSETS_TO_CACHE|
  {
    var withCache := Open(st, CACHE_NAME);
    var urls := ManifestUrls(origin);
    if AddAllAccepted(urls, fetched) then
      InstallResult(
        Storage(withCache.names, withCache.caches[CACHE_NAME := AddedAll(withCache.caches[CACHE_NAME], urls, fetched)]),
        true)
    else
      InstallResult(withCache, false)
  }

  // --------------------------------------------------------------- activate

  /** The storage after the activate handler: every cache other than CACHE_NAME deleted. */
  function Pruned(st: Storage): (r: Storage)
  {
    Storage(KeepOnly(st.names, CACHE_NAME), map n | n in st.caches && n == CACHE_NAME :: st.caches[n])
  }

  // ------------------------------------------------------------------ fetch

  /** The requests the fetch handler leaves to the browser: blob URLs and uploaded audio. */
  predicate IsBypassed(url: string)
  {
    StartsWith(url, "blob:") || Includes(url, "audio-upload")
  }

  /** A network response the fetch handler stores: status 200 and type `basic`. */
  predicate IsCacheable(response: Response)
  {
    response.status == 200 && response.kind == Basic
  }

  /**
   * The handler's effect on the page's request: `PassThrough` when it does
   * not call `respondWith`; otherwise the response it resolves with (`None`
   * for `undefined`) and whether it went to the network.
   */
  datatype FetchOutcome = PassThrough | Served(response: Option<Response>, viaNetwork: bool)

  datatype FetchResult = FetchResult(outcome: FetchOutcome, store: Storage)

  /**
   * The fetch handler. `network` is what `fetch(request)` would produce,
   * `None` when it rejects. The `cache.put` of a valid response is taken to
   * complete within the step.
   */
  function FetchStep(st: Storage, req: Request, network: Option<Response>): (r: FetchResult)
  {
    if IsBypassed(req.url) then FetchResult(PassThrough, st)
    else
      match Match(st, req)
      case Some(cached) => FetchResult(Served(Some(cached), false), st)
      case None =>
        match network
        case None => FetchResult(Served(None, true), st)
        case Some(response) =>
          if !IsCacheable(response) then FetchResult(Served(Some(response), true), st)
          else
            // response.clone(): the stored copy equals the returned one
            var copy := response;
            FetchResult(Served(Some(response), true), Put(Open(st, CACHE_NAME), CACHE_NAME, req, copy))
  }

  /** The worker's view of the origin's cache storage, with the lifecycle calls it has made. */
  class Worker {
    var cacheNames: seq<string>
    var caches: map<string, Entries>
    var skipWaitingCalled: bool
    var clientsClaimed: bool

    function Store(): Storage
      reads this
    {
      Storage(cacheNames, caches)
    }

    predicate Valid()
      reads this
    {
      CacheStorage.Valid(Store())
    }

    constructor (initial: Storage)
      requires CacheStorage.Valid(initial)
      ensures Valid() && Store() == initial
      ensures !skipWaitingCalled && !clientsClaimed
    {
      cacheNames, caches := initial.names, initial.caches;
      skipWaitingCalled, clientsClaimed := false, false;
    }

    /** `caches.open(name)`. */
    method OpenCache(name: string)
      requires Valid()
      modifies this
      ensures Valid() && Store() == Open(old(Store()), name)
      ensures skipWaitingCalled == old(skipWaitingCalled) && clientsClaimed == old(clientsClaimed)
    {
      if name !in caches {
        cacheNames, caches := cacheNames + [name], caches[name := map[]];
      }
    }

    /** `caches.delete(name)`: resolves with whether a cache of that name existed. */
    method DeleteCache(name: string) returns (existed: bool)
      requires Valid()
      modifies this
      ensures existed <==> name in old(caches)
      ensures Valid() && Store() == Deleted(old(Store()), name)
      ensures skipWaitingCalled == old(skipWaitingCalled) && clientsClaimed == old(clientsClaimed)
    {
      existed := name in caches;
      cacheNames, caches := Without(cacheNames, name), caches - {name};
    }

    /** One step of the activate loop: `caches.delete(name)` unless `name` is CACHE_NAME. */
    method DeleteIfStale(name: string)
      requires Valid()
      modifies this
      ensures Valid()
      ensures Store() == if name != CACHE_NAME then Deleted(old(Store()), name) else old(Store())
      ensures skipWaitingCalled == old(skipWaitingCalled) && clientsClaimed == old(clientsClaimed)
    {
      if name != CACHE_NAME {
        var _ := DeleteCache(name);
      }
    }

    /** The install handler (sw.js:38-52). */
    method Install(origin: string, fetched: seq<Option<Response>>)
      requires Valid() && |fetched| == |ASSETS_TO_CACHE|
      modifies this
      ensures Valid()
      ensures Store() == InstallStep(old(Store()), origin, fetched).store
      ensures skipWaitingCalled == (old(skipWaitingCalled) || InstallStep(old(Store()), origin, fetched).skipWaiting)
      ensures clientsClaimed == old(clientsClaimed)
    {
      OpenCache(CACHE_NAME);
      var urls := ManifestUrls(origin);
      if AddAllAccepted(urls, fetched) {
        caches := caches[CACHE_NAME := AddedAll(caches[CACHE_NAME], urls, fetched)];
        skipWaitingCalled := true;
      }
    }

    /** The activate handler (sw.js:58-72): delete every other generation, then claim the clients. */
    method Activate()
      requires Valid()
      modifies this
      ensures Valid() && Store() == Pruned(old(Store()))
      ensures clientsClaimed && skipWaitingCalled == old(skipWaitingCalled)
    {
      DeleteOldGenerations();
      DeleteStaleIsPruned(old(Store()));
      clientsClaimed := true;
    }

    /** The loop over `caches.keys()` (sw.js:60-69), deleting each name other than CACHE_NAME in turn. */
    method DeleteOldGenerations()
      requires Valid()
      modifies this
      ensures Valid() && Store() == DeleteStale(old(Store()), old(cacheNames))
      ensures skipWaitingCalled == old(skipWaitingCalled) && clientsClaimed == old(clientsClaimed)
    {
      var names := cacheNames;
      var i := 0;
      while i < |names|
        invariant i <= |names| && Valid()
        invariant Store() == DeleteStale(old(Store()), names[..i])
        invariant skipWaitingCalled == old(skipWaitingCalled) && clientsClaimed == old(clientsClaimed)
      {
        DeleteStaleUnfold(old(Store()), names, i + 1);
        DeleteIfStale(names[i]);
        i := i + 1;
      }
      assert names[..i] == names;
    }

    /** The fetch handler (sw.js:78-119). */
    method HandleFetch(req: Request, network: Option<Response>) returns (outcome: FetchOutcome)
      requires Valid()
      modifies this
      ensures Valid()
      ensures FetchResult(outcome, Store()) == FetchStep(old(Store()), req, network)
      ensures skipWaitingCalled == old(skipWaitingCalled) && clientsClaimed == old(clientsClaimed)
    {
      if IsBypassed(req.url) {
        return PassThrough;
      }
      var cached := Match(Store(), req);
      if cached.Some? {
        return Served(cached, false);
      }
      if network.None? {
        return Served(None, true);
      }
      var response := network.value;
      if !IsCacheable(response) {
        return Served(Some(response), true);
      }
      var copy := response;
      OpenCache(CACHE_NAME);
      if PutAccepted(req, copy) {
        caches := caches[CACHE_NAME := caches[CACHE_NAME][req.url := copy]];
      }
      outcome := Served(Some(response), true);
    }
  }

  /** The storage after the activate loop has visited `ns`, deleting each name other than CACHE_NAME. */
  function DeleteStale(st: Storage, ns: seq<string>): Storage
  {
    if ns == [] then st
    else
      var before := DeleteStale(st, ns[..|ns| - 1]);
      if ns[|ns| - 1] != CACHE_NAME then Deleted(before, ns[|ns| - 1]) else before
  }

  /** Visiting every cache name deletes exactly the stale generations. */
  lemma DeleteStaleIsPruned(st: Storage)
    requires Valid(st)
    ensures DeleteStale(st, st.names) == Pruned(st)
  {
    DeleteStaleProgress(st, |st.names|);
    PruneProgressDone(st, st.names, DeleteStale(st, st.names[..|st.names|]));
    assert st.names[..|st.names|] == st.names;
  }

  lemma {:induction false} DeleteStaleProgress(st: Storage, i: nat)
    requires Valid(st) && i <= |st.names|
    ensures PruneProgress(st, st.names, i, DeleteStale(st, st.names[..i]))
    decreases i
  {
    if i == 0 {
      PruneProgressStart(st);
    } else {
      DeleteStaleProgress(st, i - 1);
      DeleteStaleUnfold(st, st.names, i);
      PruneProgressStep(st, st.names, i - 1, DeleteStale(st, st.names[..i - 1]));
    }
  }

  lemma PruneProgressStart(st: Storage)
    requires Valid(st)
    ensures PruneProgress(st, st.names, 0, DeleteStale(st, st.names[..0]))
  {
    assert st.names[..0] == [];
    assert KeepOnly([], CACHE_NAME) + st.names[0..] == st.names;
    assert Dropped([]) == {};
    assert st.caches - {} == st.caches;
  }

  lemma DeleteStaleUnfold(st: Storage, names: seq<string>, i: nat)
    requires 0 < i <= |names|
    ensures DeleteStale(st, names[..i]) ==
      if names[i - 1] != CACHE_NAME then Deleted(DeleteStale(st, names[..i - 1]), names[i - 1])
      else DeleteStale(st, names[..i - 1])
  {
    assert names[..i][..i - 1] == names[..i - 1];
  }

  /**
   * The activate loop has handled the first `i` of the cache names it started
   * from: of those only CACHE_NAME is left, the rest are still there, and
   * every remaining cache holds what it held at the start.
   */
  ghost predicate PruneProgress(initial: Storage, names: seq<string>, i: nat, cur: Storage)
  {
    Valid(initial) && names == initial.names && i <= |names| && Valid(cur) &&
    cur.names == KeepOnly(names[..i], CACHE_NAME) + names[i..] &&
    cur.caches == initial.caches - Dropped(names[..i])
  }

  lemma PruneProgressStep(initial: Storage, names: seq<string>, i: nat, cur: Storage)
    requires i < |names| && PruneProgress(initial, names, i, cur)
    ensures PruneProgress(initial, names, i + 1, if names[i] != CACHE_NAME then Deleted(cur, names[i]) else cur)
  {
    PruneStep(names, i);
    DroppedStep(initial.caches, names, i);
  }

  /** The caches left after the loop has handled one more name. */
  lemma DroppedStep(m: map<string, Entries>, names: seq<string>, i: nat)
    requires i < |names|
    ensures (if names[i] != CACHE_NAME then (m - Dropped(names[..i])) - {names[i]} else m - Dropped(names[..i])) ==
      m - Dropped(names[..i + 1])
  {
    assert names[..i + 1][..i] == names[..i];
    MapMinusStep(m, Dropped(names[..i]), names[i]);
  }

  /** The names among `ns` that the activate loop deletes. */
  ghost function Dropped(ns: seq<string>): set<string>
  {
    if ns == [] then {}
    else Dropped(ns[..|ns| - 1]) + (if ns[|ns| - 1] != CACHE_NAME then {ns[|ns| - 1]} else {})
  }

  lemma MapMinusStep(m: map<string, Entries>, dropped: set<string>, x: string)
    ensures (if x != CACHE_NAME then (m - dropped) - {x} else m - dropped) ==
      m - (dropped + (if x != CACHE_NAME then {x} else {}))
  {
    if x == CACHE_NAME {
      assert dropped + {} == dropped;
    }
  }

  lemma PruneProgressDone(initial: Storage, names: seq<string>, cur: Storage)
    requires PruneProgress(initial, names, |names|, cur)
    ensures cur == Pruned(initial)
  {
    assert names[..|names|] == names;
    assert cur.names + [] == cur.names;
    DroppedMembers(names);
    PrunedIsRestriction(initial, cur);
  }

  lemma {:induction false} DroppedMembers(ns: seq<string>)
    ensures forall n :: n in Dropped(ns) <==> n in ns && n != CACHE_NAME
    decreases |ns|
  {
    if ns != [] {
      DroppedMembers(ns[..|ns| - 1]);
      assert ns == ns[..|ns| - 1] + [ns[|ns| - 1]];
      assert forall n :: n in ns <==> n in ns[..|ns| - 1] || n == ns[|ns| - 1];
    }
  }

  /** One iteration of the activate loop keeps the loop's view of the name list. */
  lemma PruneStep(names: seq<string>, i: nat)
    requires i < |names| && Distinct(names)
    ensures names[i] != CACHE_NAME ==>
      Without(KeepOnly(names[..i], CACHE_NAME) + names[i..], names[i]) == KeepOnly(names[..i + 1], CACHE_NAME) + names[i + 1..]
    ensures names[i] == CACHE_NAME ==>
      KeepOnly(names[..i], CACHE_NAME) + names[i..] == KeepOnly(names[..i + 1], CACHE_NAME) + names[i + 1..]
  {
    var x, done, rest := names[i], names[..i], names[i + 1..];
    assert names[..i + 1] == done + [x];
    assert names[i..] == [x] + rest;
    if x != CACHE_NAME {
      assert x !in rest;
      StaleNameDropped(done, x, rest);
    } else {
      KeepOnlySnoc(done, x, CACHE_NAME);
      assert KeepOnly(done, CACHE_NAME) + ([x] + rest) == (KeepOnly(done, CACHE_NAME) + [x]) + rest;
    }
  }

  lemma StaleNameDropped(done: seq<string>, x: string, rest: seq<string>)
    requires x != CACHE_NAME && x !in rest
    ensures Without(KeepOnly(done, CACHE_NAME) + ([x] + rest), x) == KeepOnly(done + [x], CACHE_NAME) + rest
  {
    var kept := KeepOnly(done, CACHE_NAME);
    KeepOnlySnoc(done, x, CACHE_NAME);
    assert kept + [] == kept;
    WithoutOnce(kept, x, rest);
  }

  /** A valid storage whose names are those of `st` equal to CACHE_NAME, and whose caches are those of `st`, is Pruned(st). */
  lemma PrunedIsRestriction(st: Storage, r: Storage)
    requires Valid(r) && r.names == KeepOnly(st.names, CACHE_NAME)
    requires forall n :: n in r.caches ==> n in st.caches && r.caches[n] == st.caches[n]
    requires Valid(st)
    ensures r == Pruned(st)
  {
    assert r.caches.Keys == Pruned(st).caches.Keys;
  }
}
