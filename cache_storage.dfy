/**
 * A value model of the browser's Cache Storage as the service worker uses it:
 * the origin's ordered name-to-cache map (CacheStorage, section 5.5 of the
 * W3C Service Workers specification) and, inside each named cache, the
 * request-to-response entries (Cache, section 5.4 of the same specification).
 *
 * A request is abstracted to its method (`verb`) and URL, and a response to its
 * status, its type and its body bytes. Entries are keyed by URL: only `GET`
 * requests are ever stored, so the URL identifies the request.
 */
module CacheStorage {
  import opened Wrappers
  import opened Strings

  /** The response types of the Fetch standard. */
  datatype ResponseType = Basic | Cors | Default | Error | Opaque | OpaqueRedirect

  datatype Response = Response(status: int, kind: ResponseType, body: seq<bv8>)

  datatype Request = Request(verb: string, url: string)

  /** One named cache: the stored response for each request URL. */
  type Entries = map<string, Response>

  /**
   * The cache storage of one origin. `names` is the order in which the caches
   * were created, the order `caches.keys()` reports them and `caches.match`
   * searches them.
   */
  datatype Storage = Storage(names: seq<string>, caches: map<string, Entries>)

  predicate Distinct(ns: seq<string>)
  {
    forall i, j :: 0 <= i < j < |ns| ==> ns[i] != ns[j]
  }

  /** The name list and the map describe the same, duplicate-free set of caches. */
  predicate Valid(st: Storage)
  {
    Distinct(st.names) &&
    (forall n :: n in st.caches ==> n in st.names) &&
    (forall n :: n in st.names ==> n in st.caches)
  }

  /** The URL schemes the Cache interface accepts for requests. */
  predicate IsHttpUrl(url: string)
  {
    StartsWith(url, "http:") || StartsWith(url, "https:")
  }

  /** A response status in the range the Fetch standard calls "ok". */
  predicate IsOkStatus(status: int)
  {
    200 <= status <= 299
  }

  /**
   * `caches.open(name)`: the named cache, created empty and placed last when
   * no cache of that name exists yet.
   */
  function Open(st: Storage, name: string): (r: Storage)
    ensures Valid(st) ==> Valid(r)
    ensures name in r.caches
    ensures forall n :: n in st.caches ==> n in r.caches && r.caches[n] == st.caches[n]
    ensures forall n :: n in r.caches ==> n in st.caches || n == name
    ensures name !in st.caches ==> r.caches[name] == map[]
    ensures name in st.caches ==> r == st
  {
    if name in st.caches then st
    else
      var r := Storage(st.names + [name], st.caches[name := map[]]);
      assert Valid(st) ==> Distinct(r.names) by {
        if Valid(st) {
          forall i, j | 0 <= i < j < |r.names| ensures r.names[i] != r.names[j] {
            if j == |st.names| { assert r.names[i] in st.names; }
          }
        }
      }
      r
  }

  /**
   * The conditions under which `cache.put(request, response)` stores the
   * pair; otherwise its promise rejects with a TypeError.
   */
  predicate PutAccepted(req: Request, resp: Response)
  {
    req.verb == "GET" && IsHttpUrl(req.url) && resp.status != 206
  }

  /** `cache.put(request, response)` on the named cache. */
  function Put(st: Storage, name: string, req: Request, resp: Response): (r: Storage)
    requires name in st.caches
    ensures r.names == st.names && r.caches.Keys == st.caches.Keys
    ensures forall n :: n in st.caches && n != name ==> r.caches[n] == st.caches[n]
    ensures forall u :: u in r.caches[name] <==> u in st.caches[name] || (PutAccepted(req, resp) && u == req.url)
    ensures forall u :: u in st.caches[name] && (u != req.url || !PutAccepted(req, resp)) ==>
      r.caches[name][u] == st.caches[name][u]
    ensures PutAccepted(req, resp) ==> r.caches[name][req.url] == resp
  {
    if PutAccepted(req, resp) then
      Storage(st.names, st.caches[name := st.caches[name][req.url := resp]])
    else
      st
  }

  /** The first cache, in creation order, holding an entry for `url`. */
  function FirstMatch(names: seq<string>, caches: map<string, Entries>, url: string): (r: Option<Response>)
    ensures r.None? <==> forall n :: n in names && n in caches ==> url !in caches[n]
    ensures r.Some? ==> exists k :: (0 <= k < |names| && names[k] in caches && url in caches[names[k]] &&
      r.value == caches[names[k]][url] &&
      forall j :: 0 <= j < k && names[j] in caches ==> url !in caches[names[j]])
  {
    if names == [] then None
    else if names[0] in caches && url in caches[names[0]] then Some(caches[names[0]][url])
    else
      var r := FirstMatch(names[1..], caches, url);
      assert forall n :: n in names ==> n == names[0] || n in names[1..];
      if r.Some? then
        var k :| 0 <= k < |names[1..]| && names[1..][k] in caches && url in caches[names[1..][k]] &&
          r.value == caches[names[1..][k]][url] &&
          forall j :: 0 <= j < k && names[1..][j] in caches ==> url !in caches[names[1..][j]];
        assert forall j :: 1 <= j < k + 1 ==> names[j] == names[1..][j - 1];
        assert names[k + 1] == names[1..][k];
        r
      else
        r
  }

  /**
   * `caches.match(request)`: the stored response of the first cache that
   * holds one for the request's URL. A non-`GET` request matches nothing.
   */
  function Match(st: Storage, req: Request): (r: Option<Response>)
    ensures r.Some? ==> req.verb == "GET"
    ensures r.Some? <==> req.verb == "GET" && exists n :: n in st.names && n in st.caches && req.url in st.caches[n]
    ensures r.Some? ==> exists n :: n in st.names && n in st.caches && req.url in st.caches[n] && r.value == st.caches[n][req.url]
  {
    if req.verb != "GET" then None else FirstMatch(st.names, st.caches, req.url)
  }

  /** `ns` with every occurrence of `x` removed. */
  function Without(ns: seq<string>, x: string): (r: seq<string>)
    ensures forall n :: n in r <==> n in ns && n != x
    ensures Distinct(ns) ==> Distinct(r)
    ensures x !in ns ==> r == ns
    ensures |r| <= |ns|
  {
    if ns == [] then []
    else
      var rest := Without(ns[1..], x);
      assert forall n :: n in ns <==> n == ns[0] || n in ns[1..];
      if ns[0] == x then rest
      else
        assert Distinct(ns) ==> Distinct([ns[0]] + rest) by {
          if Distinct(ns) {
            assert Distinct(ns[1..]);
            assert ns[0] !in ns[1..];
          }
        }
        [ns[0]] + rest
  }

  /** `caches.delete(name)`: the named cache is gone. */
  function Deleted(st: Storage, name: string): (r: Storage)
    ensures Valid(st) ==> Valid(r)
    ensures name !in r.caches && r.caches.Keys == st.caches.Keys - {name}
    ensures forall n :: n in r.caches ==> r.caches[n] == st.caches[n]
    ensures forall n :: n in r.names <==> n in st.names && n != name
  {
    Storage(Without(st.names, name), st.caches - {name})
  }

  /**
   * The checks `cache.addAll(urls)` makes before storing anything: every URL
   * is http(s), no URL is repeated, and every fetch produced a response with an
   * ok status other than 206. `None` stands for a fetch that failed.
   */
  predicate AddAllAccepted(urls: seq<string>, fetched: seq<Option<Response>>)
    requires |urls| == |fetched|
  {
    Distinct(urls) &&
    forall i :: 0 <= i < |urls| ==>
      IsHttpUrl(urls[i]) && fetched[i].Some? && IsOkStatus(fetched[i].value.status) && fetched[i].value.status != 206
  }

  /** The entries after the accepted batch of `cache.addAll` has stored each fetched response under its URL. */
  function AddedAll(entries: Entries, urls: seq<string>, fetched: seq<Option<Response>>): (r: Entries)
    requires |urls| == |fetched| && Distinct(urls)
    requires forall i :: 0 <= i < |fetched| ==> fetched[i].Some?
    ensures forall u :: u in r <==> u in entries || u in urls
    ensures forall i :: 0 <= i < |urls| ==> r[urls[i]] == fetched[i].value
    ensures forall u :: u in entries && u !in urls ==> r[u] == entries[u]
    decreases |urls|
  {
    if urls == [] then entries
    else
      var r := AddedAll(entries[urls[0] := fetched[0].value], urls[1..], fetched[1..]);
      assert forall u :: u in urls <==> u == urls[0] || u in urls[1..];
      assert urls[0] !in urls[1..];
      assert forall i :: 1 <= i < |urls| ==> urls[i] == urls[1..][i - 1] && fetched[i] == fetched[1..][i - 1];
      r
  }

  /** `ns` with every name other than `x` removed. */
  function KeepOnly(ns: seq<string>, x: string): (r: seq<string>)
    ensures forall n :: n in r <==> n in ns && n == x
    ensures Distinct(ns) ==> Distinct(r)
    ensures |r| <= 1 || !Distinct(ns)
  {
    if ns == [] then []
    else
      var rest := KeepOnly(ns[1..], x);
      assert forall n :: n in ns <==> n == ns[0] || n in ns[1..];
      if ns[0] != x then rest
      else
        assert Distinct(ns) ==> x !in ns[1..];
        assert |rest| > 0 ==> rest[0] in rest;
        [ns[0]] + rest
  }

  lemma {:induction false} KeepOnlySnoc(ns: seq<string>, y: string, x: string)
    ensures KeepOnly(ns + [y], x) == KeepOnly(ns, x) + (if y == x then [y] else [])
    decreases |ns|
  {
    if ns == [] {
      assert [] + [y] == [y];
    } else {
      assert (ns + [y])[1..] == ns[1..] + [y];
      KeepOnlySnoc(ns[1..], y, x);
    }
  }

  lemma {:induction false} WithoutConcat(a: seq<string>, b: seq<string>, x: string)
    ensures Without(a + b, x) == Without(a, x) + Without(b, x)
    decreases |a|
  {
    if a == [] {
      assert [] + b == b;
    } else {
      assert (a + b)[1..] == a[1..] + b;
      WithoutConcat(a[1..], b, x);
    }
  }

  /**
   * Deleting a name that occurs once keeps the other names in their order:
   * the names before it, then the names after it.
   */
  lemma WithoutOnce(before: seq<string>, x: string, after: seq<string>)
    requires x !in before && x !in after
    ensures Without(before + ([x] + after), x) == before + after
  {
    WithoutConcat(before, [x] + after, x);
    WithoutConcat([x], after, x);
    assert Without([x], x) == [];
    assert [] + after == after;
  }
}
