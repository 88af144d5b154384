/**
  The offline-caching worker of public/service-worker.js.

  The browser's cache storage is shared by every event the worker handles. It
  is modelled as a `Store`: the names of the cache generations in creation
  order (the order `caches.keys()` lists them and `caches.match` searches
  them) and, per name, the generation's entries. The three lifecycle
  handlers are methods of `Worker` that update the store in place; each is
  specified by a function of the old store, and the properties the worker
  promises are lemmas about those functions.
*/
module ServiceWorker {
  import opened JsString
  import opened Optional

  /** The version tag naming the current cache generation. */
  const CacheName: string := "smartguard-v1.0.0"

  /** The shell routes written into the current generation on install. */
  const Manifest: seq<string> := ["/", "/dashboard", "/alarm", "/logs", "/settings", "/setup"]

  const ExtensionScheme: string := "chrome-extension://"

  /** The substrings that make a URL a static asset worth caching. */
  const AssetPatterns: seq<string> := ["/icons/", "/camera", ".png", ".jpg", ".svg"]

  datatype Request = Request(httpMethod: string, url: string, mode: string)

  /** A cache key: method and URL exactly as given, without normalisation. */
  datatype Key = Key(httpMethod: string, url: string)

  datatype Response = Response(status: int, body: string)

  /** What `fetch` settles with: a response of any status, or a rejection. */
  datatype NetOutcome = Delivered(response: Response) | TransportFailure

  /** The cache generations, by name, with the order in which they were created. */
  datatype Store = Store(order: seq<string>, caches: map<string, map<Key, Response>>)

  function KeyOf(req: Request): Key {
    Key(req.httpMethod, req.url)
  }

  /** The key of a request built from a bare URL string (`cache.addAll`, `caches.match('/')`). */
  function GetKey(url: string): Key {
    Key("GET", url)
  }

  predicate Distinct(s: seq<string>) {
    forall i, j :: 0 <= i < j < |s| ==> s[i] != s[j]
  }

  /** Every generation is listed exactly once in the creation order. */
  ghost predicate WellFormed(st: Store) {
    && Distinct(st.order)
    && forall n :: n in st.caches <==> n in st.order
  }

  // ---------------------------------------------------------------------
  // Cache storage operations
  // ---------------------------------------------------------------------

  /** `s` without the names in `d`, in the same order. */
  function Drop(s: seq<string>, d: set<string>): (r: seq<string>)
    ensures forall x :: x in r <==> x in s && x !in d
  {
    if s == [] then []
    else if s[0] in d then Drop(s[1..], d)
    else [s[0]] + Drop(s[1..], d)
  }

  lemma {:induction false} DropDistinct(s: seq<string>, d: set<string>)
    requires Distinct(s)
    ensures Distinct(Drop(s, d))
  {
    if s != [] {
      assert Distinct(s[1..]) by {
        forall i, j | 0 <= i < j < |s[1..]| ensures s[1..][i] != s[1..][j] {
          assert s[1..][i] == s[i + 1] && s[1..][j] == s[j + 1];
        }
      }
      DropDistinct(s[1..], d);
      assert s[0] !in s[1..] by {
        forall j | 0 <= j < |s[1..]| ensures s[1..][j] != s[0] {
          assert s[1..][j] == s[j + 1];
        }
      }
    }
  }

  lemma {:induction false} DropNothing(s: seq<string>)
    ensures Drop(s, {}) == s
  {
    if s != [] {
      DropNothing(s[1..]);
    }
  }

  lemma {:induction false} DropDrop(s: seq<string>, a: set<string>, b: set<string>)
    ensures Drop(Drop(s, a), b) == Drop(s, a + b)
  {
    if s != [] {
      DropDrop(s[1..], a, b);
      if s[0] !in a {
        assert Drop(s, a) == [s[0]] + Drop(s[1..], a);
        assert Drop(s, a)[1..] == Drop(s[1..], a);
      }
    }
  }

  /** In a list of distinct names, dropping every name but `keep` leaves `keep` alone, if it was there. */
  lemma {:induction false} DropAllBut(s: seq<string>, d: set<string>, keep: string)
    requires Distinct(s) && keep !in d
    requires forall x :: x in s && x != keep ==> x in d
    ensures Drop(s, d) == if keep in s then [keep] else []
  {
    if s != [] {
      assert Distinct(s[1..]) by {
        forall i, j | 0 <= i < j < |s[1..]| ensures s[1..][i] != s[1..][j] {
          assert s[1..][i] == s[i + 1] && s[1..][j] == s[j + 1];
        }
      }
      DropAllBut(s[1..], d, keep);
      if s[0] == keep {
        assert keep !in s[1..] by {
          forall j | 0 <= j < |s[1..]| ensures s[1..][j] != s[0] {
            assert s[1..][j] == s[j + 1];
          }
        }
      } else {
        assert keep in s <==> keep in s[1..] by {
          assert s == [s[0]] + s[1..];
        }
      }
    }
  }

  /** `caches.open(name)`: the generation is created, empty and last in order, if it did not exist. */
  function Open(st: Store, name: string): (r: Store)
    requires WellFormed(st)
    ensures WellFormed(r) && name in r.caches
    ensures forall n :: n in st.caches ==> n in r.caches && r.caches[n] == st.caches[n]
    ensures name !in st.caches ==> r.caches[name] == map[]
    ensures forall n :: n in r.caches && n != name ==> n in st.caches
  {
    if name in st.caches then st
    else
      var r := Store(st.order + [name], st.caches[name := map[]]);
      assert forall x :: x in r.order <==> x in st.order || x == name;
      r
  }

  /** `cache.put` / the batch put of `cache.addAll` on generation `name`: later entries overwrite earlier ones. */
  function PutAll(st: Store, name: string, entries: map<Key, Response>): (r: Store)
    requires WellFormed(st)
    ensures WellFormed(r) && name in r.caches
    ensures r.caches[name] == Open(st, name).caches[name] + entries
    ensures forall n :: n in st.caches && n != name ==> n in r.caches && r.caches[n] == st.caches[n]
    ensures forall n :: n in r.caches && n != name ==> n in st.caches
  {
    var o := Open(st, name);
    Store(o.order, o.caches[name := o.caches[name] + entries])
  }

  /** `cache.put(k, v)` on generation `name`: `k` now maps to `v`, every other key and generation stays. */
  function Put(st: Store, name: string, k: Key, v: Response): (r: Store)
    requires WellFormed(st)
    ensures WellFormed(r) && name in r.caches
    ensures k in r.caches[name] && r.caches[name][k] == v
    ensures forall k' :: k' != k ==> (k' in r.caches[name] <==> name in st.caches && k' in st.caches[name])
    ensures forall k' :: k' != k && k' in r.caches[name] ==> r.caches[name][k'] == st.caches[name][k']
    ensures forall n :: n in st.caches && n != name ==> n in r.caches && r.caches[n] == st.caches[n]
    ensures forall n :: n in r.caches && n != name ==> n in st.caches
  {
    PutAll(st, name, map[k := v])
  }

  /** `caches.delete(name)` */
  function Delete(st: Store, name: string): Store {
    Store(Drop(st.order, {name}), st.caches - {name})
  }

  /** `caches.match(key)`: the entry of the first generation, in creation order, that holds `key`. */
  function MatchIn(order: seq<string>, caches: map<string, map<Key, Response>>, k: Key): Option<Response> {
    if order == [] then None
    else if order[0] in caches && k in caches[order[0]] then Some(caches[order[0]][k])
    else MatchIn(order[1..], caches, k)
  }

  function Match(st: Store, k: Key): Option<Response> {
    MatchIn(st.order, st.caches, k)
  }

  /** When only generation `c` holds `k`, matching across all generations finds `c`'s entry. */
  lemma {:induction false} MatchOnlyHolder(order: seq<string>, caches: map<string, map<Key, Response>>, k: Key, c: string)
    requires c in order && c in caches
    requires forall n :: n in order && n != c && n in caches ==> k !in caches[n]
    ensures MatchIn(order, caches, k) == if k in caches[c] then Some(caches[c][k]) else None
  {
    if order[0] != c {
      assert order == [order[0]] + order[1..];
      MatchOnlyHolder(order[1..], caches, k, c);
    } else if k !in caches[c] {
      MatchNoHolder(order, caches, k);
    }
  }

  lemma {:induction false} MatchNoHolder(order: seq<string>, caches: map<string, map<Key, Response>>, k: Key)
    requires forall n :: n in order && n in caches ==> k !in caches[n]
    ensures MatchIn(order, caches, k) == None
  {
    if order != [] {
      assert order == [order[0]] + order[1..];
      MatchNoHolder(order[1..], caches, k);
    }
  }

  // ---------------------------------------------------------------------
  // install
  // ---------------------------------------------------------------------

  /** `cache.addAll` accepts a response only if it arrived with an ok status (200-299) that is not 206 Partial Content. */
  predicate Fetchable(o: NetOutcome) {
    o.Delivered? && 200 <= o.response.status <= 299 && o.response.status != 206
  }

  /** Every manifest route could be fetched: the only case in which `addAll` stores anything. */
  predicate InstallSucceeds(net: string -> NetOutcome) {
    forall u :: u in Manifest ==> Fetchable(net(u))
  }

  /** The entries `addAll` stores for `urls`, each under its GET key. */
  function EntriesFor(urls: seq<string>, net: string -> NetOutcome): map<Key, Response>
    requires forall u :: u in urls ==> Fetchable(net(u))
  {
    if urls == [] then map[]
    else
      var last := urls[|urls| - 1];
      assert last in urls;
      assert forall u :: u in urls[..|urls| - 1] ==> u in urls;
      var o := net(last);
      assert Fetchable(o);
      EntriesFor(urls[..|urls| - 1], net)[GetKey(last) := o.response]
  }

  lemma {:induction false} EntriesForContent(urls: seq<string>, net: string -> NetOutcome)
    requires forall u :: u in urls ==> Fetchable(net(u))
    ensures forall k :: k in EntriesFor(urls, net) <==> k.httpMethod == "GET" && k.url in urls
    ensures forall u :: u in urls ==> EntriesFor(urls, net)[GetKey(u)] == net(u).response
  {
    if urls != [] {
      var front := urls[..|urls| - 1];
      assert urls == front + [urls[|urls| - 1]];
      EntriesForContent(front, net);
    }
  }

  /** The store after the install handler. The generation is opened in any case; the manifest is stored all or nothing. */
  function Installed(st: Store, net: string -> NetOutcome): (r: Store)
    requires WellFormed(st)
    ensures WellFormed(r)
  {
    if InstallSucceeds(net) then PutAll(st, CacheName, EntriesFor(Manifest, net))
    else Open(st, CacheName)
  }

  const ManifestKeys: set<Key> := set u | u in Manifest :: GetKey(u)

  /** After a successful install the current generation holds every route of the manifest, with the fetched response. */
  lemma InstallStoresManifest(st: Store, net: string -> NetOutcome)
    requires WellFormed(st) && InstallSucceeds(net)
    ensures CacheName in Installed(st, net).caches
    ensures forall u :: u in Manifest ==>
      GetKey(u) in Installed(st, net).caches[CacheName] && Installed(st, net).caches[CacheName][GetKey(u)] == net(u).response
  {
    EntriesForContent(Manifest, net);
  }

  /** Installing into a store without the current generation gives it exactly the six manifest keys. */
  lemma InstallFreshExact(st: Store, net: string -> NetOutcome)
    requires WellFormed(st) && InstallSucceeds(net) && CacheName !in st.caches
    ensures Installed(st, net).caches[CacheName].Keys == ManifestKeys
  {
    EntriesForContent(Manifest, net);
    var e := Installed(st, net).caches[CacheName];
    assert e == EntriesFor(Manifest, net);
    forall k ensures k in e <==> k in ManifestKeys {
      if k in e {
        assert GetKey(k.url) == k;
      }
    }
  }

  const ManifestKeyList: set<Key> :=
    {GetKey("/"), GetKey("/dashboard"), GetKey("/alarm"), GetKey("/logs"), GetKey("/settings"), GetKey("/setup")}

  lemma ManifestKeysListed()
    ensures ManifestKeys == ManifestKeyList
  {
  }

  lemma ManifestKeyListSize()
    ensures |ManifestKeyList| == 6
  {
  }

  /** The manifest names six distinct routes. */
  lemma ManifestKeysCount()
    ensures |ManifestKeys| == 6
  {
    ManifestKeysListed();
    ManifestKeyListSize();
  }

  /** A failed install stores nothing: only an empty current generation may appear, every other entry is kept. */
  lemma InstallAllOrNothing(st: Store, net: string -> NetOutcome)
    requires WellFormed(st) && !InstallSucceeds(net)
    ensures Installed(st, net).caches[CacheName] == if CacheName in st.caches then st.caches[CacheName] else map[]
    ensures forall n :: n in st.caches ==> n in Installed(st, net).caches && Installed(st, net).caches[n] == st.caches[n]
    ensures Installed(st, net).caches.Keys == st.caches.Keys + {CacheName}
  {
  }

  /** Install never touches a generation other than the current one. */
  lemma InstallKeepsOthers(st: Store, net: string -> NetOutcome, n: string)
    requires WellFormed(st) && n != CacheName
    ensures n in Installed(st, net).caches <==> n in st.caches
    ensures n in st.caches ==> Installed(st, net).caches[n] == st.caches[n]
  {
  }

  /** Running install again with the same network answers leaves the store as it was. */
  lemma InstallIdempotent(st: Store, net: string -> NetOutcome)
    requires WellFormed(st)
    ensures Installed(Installed(st, net), net) == Installed(st, net)
  {
    var once := Installed(st, net);
    if InstallSucceeds(net) {
      var e := EntriesFor(Manifest, net);
      assert once.caches[CacheName] + e == once.caches[CacheName];
      assert PutAll(once, CacheName, e).caches == once.caches;
    }
  }

  // ---------------------------------------------------------------------
  // activate
  // ---------------------------------------------------------------------

  /** The generations activate deletes: all whose name differs from the current tag. */
  function Stale(st: Store): set<string> {
    st.caches.Keys - {CacheName}
  }

  /** The store after the activate handler. */
  function Activated(st: Store): Store {
    Store(Drop(st.order, Stale(st)), st.caches - Stale(st))
  }

  /** After activate only the current generation is left, with its entries untouched. */
  lemma ActivateLeavesOnlyCurrent(st: Store)
    requires WellFormed(st)
    ensures WellFormed(Activated(st))
    ensures Activated(st).order == if CacheName in st.caches then [CacheName] else []
    ensures Activated(st).caches.Keys == st.caches.Keys * {CacheName}
    ensures CacheName in st.caches ==> Activated(st).caches[CacheName] == st.caches[CacheName]
  {
    DropDistinct(st.order, Stale(st));
    DropAllBut(st.order, Stale(st), CacheName);
  }

  /** A stale generation answers nothing after activate: every match finds only current entries. */
  lemma ActivatedMatch(st: Store, k: Key)
    requires WellFormed(st)
    ensures Match(Activated(st), k) ==
      if CacheName in st.caches && k in st.caches[CacheName] then Some(st.caches[CacheName][k]) else None
  {
    ActivateLeavesOnlyCurrent(st);
    var a := Activated(st);
    if CacheName in st.caches {
      MatchOnlyHolder(a.order, a.caches, k, CacheName);
    } else {
      MatchNoHolder(a.order, a.caches, k);
    }
  }

  /** Activating twice gives the same store as activating once. */
  lemma ActivateIdempotent(st: Store)
    requires WellFormed(st)
    ensures Activated(Activated(st)) == Activated(st)
  {
    ActivateLeavesOnlyCurrent(st);
    var a := Activated(st);
    assert Stale(a) == {};
    DropAllBut(a.order, {}, CacheName);
    assert a.caches - {} == a.caches;
  }

  /** One `caches.delete` in the activate loop extends the set of deleted names by one. */
  lemma DeleteStep(names: seq<string>, caches: map<string, map<Key, Response>>, deleted: set<string>, n: string)
    ensures Delete(Store(Drop(names, deleted), caches - deleted), n) == Store(Drop(names, deleted + {n}), caches - (deleted + {n}))
  {
    DropDrop(names, deleted, {n});
    assert caches - deleted - {n} == caches - (deleted + {n});
  }

  /** The stale names among `ns`. */
  ghost function StaleIn(ns: seq<string>): set<string> {
    set n | n in ns && n != CacheName
  }

  lemma StaleInStep(ns: seq<string>, i: nat)
    requires i < |ns|
    ensures StaleIn(ns[..i + 1]) == StaleIn(ns[..i]) + if ns[i] != CacheName then {ns[i]} else {}
  {
    assert ns[..i + 1] == ns[..i] + [ns[i]];
  }

  /** Once every listed stale name is deleted, the store is the activated one. */
  lemma ActivateLoopDone(st: Store)
    requires WellFormed(st)
    ensures Store(Drop(st.order, StaleIn(st.order)), st.caches - StaleIn(st.order)) == Activated(st)
  {
    assert StaleIn(st.order) == Stale(st);
  }

  /** Upgrading over a stale `v0.9.0` generation: afterwards only the current generation exists, holding the six routes. */
  lemma UpgradeScenario(staleEntries: map<Key, Response>, net: string -> NetOutcome)
    requires InstallSucceeds(net)
    ensures var st := Activated(Installed(Store(["smartguard-v0.9.0"], map["smartguard-v0.9.0" := staleEntries]), net));
      && st.caches.Keys == {CacheName}
      && st.caches[CacheName].Keys == ManifestKeys
  {
    var st0 := Store(["smartguard-v0.9.0"], map["smartguard-v0.9.0" := staleEntries]);
    assert WellFormed(st0);
    InstallFreshExact(st0, net);
    ActivateLeavesOnlyCurrent(Installed(st0, net));
  }

  // ---------------------------------------------------------------------
  // fetch
  // ---------------------------------------------------------------------

  datatype Route = PassThrough | Navigation | Asset

  /** The fetch handler's routing, checked in the handler's order. */
  function RouteOf(req: Request): Route {
    if req.httpMethod != "GET" then PassThrough
    else if StartsWith(req.url, ExtensionScheme) then PassThrough
    else if req.mode == "navigate" then Navigation
    else Asset
  }

  /** The static-asset test: a case-sensitive substring test, not a suffix test. */
  predicate IsStaticAsset(url: string) {
    || Includes(url, "/icons/")
    || Includes(url, "/camera")
    || Includes(url, ".png")
    || Includes(url, ".jpg")
    || Includes(url, ".svg")
  }

  predicate ShouldCache(url: string, status: int) {
    status == 200 && IsStaticAsset(url)
  }

  /** What the page receives: the request is left to the browser, a response, or nothing (a network error). */
  datatype FetchResult = NotIntercepted | Served(response: Response) | NoResponse

  /** The fallback `respondWith(caches.match(...))`: a found response is served, an undefined match is a network error. */
  function FromMatch(m: Option<Response>): (r: FetchResult)
    ensures r.Served? <==> m.Some?
    ensures r.Served? ==> r.response == m.value
    ensures r != NotIntercepted
  {
    if m.Some? then Served(m.value) else NoResponse
  }

  /**
    The routing rules in order: first non-GET, then extension URLs, then
    navigations, then the rest. This turns the route names in the per-route
    ensures of `Worker.HandleFetch` into plain conditions on the request, such
    as "a non-GET request is never intercepted".
  */
  lemma RouteOrder(req: Request)
    ensures RouteOf(req) == PassThrough <==> req.httpMethod != "GET" || StartsWith(req.url, ExtensionScheme)
    ensures RouteOf(req) == Navigation <==>
      req.httpMethod == "GET" && !StartsWith(req.url, ExtensionScheme) && req.mode == "navigate"
  {
  }

  /** A URL is a static asset iff one of the five patterns occurs somewhere in it. */
  lemma StaticAssetMeaning(url: string)
    ensures IsStaticAsset(url) <==> exists p, i :: p in AssetPatterns && OccursAt(url, p, i)
  {
    if IsStaticAsset(url) {
      if Includes(url, "/icons/") {
        var i :| OccursAt(url, "/icons/", i);
        assert "/icons/" in AssetPatterns;
      } else if Includes(url, "/camera") {
        var i :| OccursAt(url, "/camera", i);
        assert "/camera" in AssetPatterns;
      } else if Includes(url, ".png") {
        var i :| OccursAt(url, ".png", i);
        assert ".png" in AssetPatterns;
      } else if Includes(url, ".jpg") {
        var i :| OccursAt(url, ".jpg", i);
        assert ".jpg" in AssetPatterns;
      } else {
        var i :| OccursAt(url, ".svg", i);
        assert ".svg" in AssetPatterns;
      }
    }
  }

  /** Examples of the substring test: a query after the extension still matches, and so does a path under `/cameras`. */
  lemma StaticAssetExamples()
    ensures ShouldCache("/icons/icon-192x192.png", 200)
    ensures !ShouldCache("/icons/icon-192x192.png", 404)
    ensures IsStaticAsset("/camera1.png?v=2")
    ensures IsStaticAsset("/cameras/api")
  {
    assert OccursAt("/icons/icon-192x192.png", "/icons/", 0);
    assert OccursAt("/camera1.png?v=2", "/camera", 0);
    assert OccursAt("/cameras/api", "/camera", 0);
  }

  /** The test is case-sensitive: a URL without the lower-case letters i, c, p, j and s is no static asset, whatever its extension in upper case. */
  lemma StaticAssetCaseSensitive(url: string)
    requires 'i' !in url && 'c' !in url && 'p' !in url && 'j' !in url && 's' !in url
    ensures !IsStaticAsset(url)
  {
    MissingCharExcludes(url, "/icons/", 1);
    MissingCharExcludes(url, "/camera", 1);
    MissingCharExcludes(url, ".png", 1);
    MissingCharExcludes(url, ".jpg", 1);
    MissingCharExcludes(url, ".svg", 1);
  }

  /** An upper-case icon path is not cached. */
  lemma UpperCaseIconNotCached()
    ensures !ShouldCache("/ICON.PNG", 200)
  {
    var upper := "/ICON.PNG";
    assert upper == ['/', 'I', 'C', 'O', 'N', '.', 'P', 'N', 'G'];
    StaticAssetCaseSensitive(upper);
  }

  /** After a put into the current generation, and with no other generation holding the key, a match returns the stored response. */
  lemma PutThenMatch(st: Store, k: Key, v: Response)
    requires WellFormed(st)
    requires forall n :: n in st.caches && n != CacheName ==> k !in st.caches[n]
    ensures Match(Put(st, CacheName, k, v), k) == Some(v)
  {
    var p := Put(st, CacheName, k, v);
    MatchOnlyHolder(p.order, p.caches, k, CacheName);
  }

  // ---------------------------------------------------------------------
  // push and notificationclick
  // ---------------------------------------------------------------------

  /** The parsed push payload; a field is absent (`None`) or a string. */
  datatype PushData = PushData(body: Option<string>, url: Option<string>)

  datatype NotificationAction = NotificationAction(action: string, title: string, icon: string)

  datatype Notification = Notification(
    title: string,
    body: string,
    icon: string,
    badge: string,
    vibrate: seq<int>,
    url: string,
    actions: seq<NotificationAction>)

  const NotificationTitle: string := "SmartGuard Security"
  const DefaultBody: string := "SmartGuard Security Alert"
  const DefaultUrl: string := "/dashboard"
  const NotificationIcon: string := "/icons/icon-192x192.png"

  /** `field || fallback` on a string field: an absent or empty string is falsy. */
  function OrDefault(field: Option<string>, fallback: string): (r: string)
    ensures field.Some? && field.value != "" ==> r == field.value
    ensures (field.None? || field.value == "") ==> r == fallback
    ensures fallback != "" ==> r != ""
  {
    if field.Some? && field.value != "" then field.value else fallback
  }

  /** The push handler: no payload, no notification; otherwise the notification it shows. */
  function OnPush(data: Option<PushData>): (n: Option<Notification>)
    ensures n.Some? <==> data.Some?
    ensures n.Some? ==>
      && n.value.body != "" && n.value.url != ""
      && n.value.vibrate == [200, 100, 200]
      && |n.value.actions| == 2
      && n.value.actions[0].action == "view" && n.value.actions[1].action == "dismiss"
    ensures n.Some? && data.value.body.Some? && data.value.body.value != "" ==> n.value.body == data.value.body.value
    ensures n.Some? && (data.value.body.None? || data.value.body.value == "") ==> n.value.body == DefaultBody
    ensures n.Some? && data.value.url.Some? && data.value.url.value != "" ==> n.value.url == data.value.url.value
    ensures n.Some? && (data.value.url.None? || data.value.url.value == "") ==> n.value.url == DefaultUrl
  {
    match data
    case None => None
    case Some(d) =>
      Some(Notification(
        NotificationTitle,
        OrDefault(d.body, DefaultBody),
        NotificationIcon,
        NotificationIcon,
        [200, 100, 200],
        OrDefault(d.url, DefaultUrl),
        [NotificationAction("view", "View Alert", NotificationIcon),
         NotificationAction("dismiss", "Dismiss", NotificationIcon)]))
  }

  datatype ClickEffect = ClickEffect(closed: bool, openWindow: Option<string>)

  /** The notificationclick handler: always closes; opens the notification's URL only for the `view` action. */
  function OnNotificationClick(n: Notification, action: string): (e: ClickEffect)
    ensures e.closed
    ensures e.openWindow.Some? <==> action == "view"
    ensures e.openWindow.Some? ==> e.openWindow.value == n.url
  {
    ClickEffect(true, if action == "view" then Some(n.url) else None)
  }

  /** A push with a payload followed by a `view` click opens the payload's URL, or `/dashboard` without one. */
  lemma PushThenView(d: PushData)
    ensures OnPush(Some(d)).Some?
    ensures OnNotificationClick(OnPush(Some(d)).value, "view").openWindow == Some(OrDefault(d.url, DefaultUrl))
    ensures OnNotificationClick(OnPush(Some(d)).value, "dismiss").openWindow == None
    ensures OnNotificationClick(OnPush(Some(d)).value, "").openWindow == None
  {
  }

  /** A concrete alert: the body and deep link of the payload are kept, and `view` opens the deep link. */
  lemma MotionAlertScenario()
    ensures var n := OnPush(Some(PushData(Some("Motion detected"), Some("/alarm"))));
      && n.Some? && n.value.body == "Motion detected" && n.value.url == "/alarm"
      && OnNotificationClick(n.value, "view").openWindow == Some("/alarm")
  {
  }

  // ---------------------------------------------------------------------
  // The worker
  // ---------------------------------------------------------------------

  class Worker {
    /** The cache storage, shared by all events. */
    var store: Store
    /** Whether this worker's install handler has succeeded; the browser activates only such a worker. */
    ghost var installed: bool

    ghost predicate Valid()
      reads this
    {
      WellFormed(store)
    }

    /** A worker starting on the storage that earlier versions left behind. */
    constructor (existing: Store)
      requires WellFormed(existing)
      ensures Valid() && store == existing && !installed
    {
      store := existing;
      installed := false;
    }

    /** The install handler: open the current generation and `addAll` the manifest. */
    method Install(net: string -> NetOutcome) returns (ok: bool)
      requires Valid()
      modifies this
      ensures Valid()
      ensures ok == InstallSucceeds(net) && installed == ok
      ensures store == Installed(old(store), net)
    {
      store := Open(store, CacheName);
      var fetched: map<Key, Response> := map[];
      var i := 0;
      ok := true;
      while i < |Manifest| && ok
        invariant 0 <= i <= |Manifest|
        invariant WellFormed(store)
        invariant store == Open(old(store), CacheName)
        invariant ok <==> forall j :: 0 <= j < i ==> Fetchable(net(Manifest[j]))
        invariant ok ==> fetched == EntriesFor(Manifest[..i], net)
      {
        var outcome := net(Manifest[i]);
        if Fetchable(outcome) {
          assert Manifest[..i + 1][..i] == Manifest[..i];
          fetched := fetched[GetKey(Manifest[i]) := outcome.response];
        } else {
          ok := false;
        }
        i := i + 1;
      }
      if ok {
        assert Manifest[..i] == Manifest;
        store := PutAll(store, CacheName, fetched);
      }
      installed := ok;
    }

    /** The activate handler: delete, one by one, every generation listed by `caches.keys()` except the current one. */
    method Activate()
      requires Valid() && installed
      modifies this`store
      ensures Valid()
      ensures store == Activated(old(store))
    {
      var names := store.order;
      ghost var deleted: set<string> := {};
      var i := 0;
      DropNothing(names);
      assert old(store).caches - {} == old(store).caches;
      while i < |names|
        invariant 0 <= i <= |names|
        invariant deleted == StaleIn(names[..i])
        invariant store == Store(Drop(names, deleted), old(store).caches - deleted)
      {
        StaleInStep(names, i);
        if names[i] != CacheName {
          DeleteStep(names, old(store).caches, deleted, names[i]);
          store := Delete(store, names[i]);
          deleted := deleted + {names[i]};
        }
        i := i + 1;
      }
      assert names[..i] == names;
      ActivateLoopDone(old(store));
      ActivateLeavesOnlyCurrent(old(store));
    }

    /** The fetch handler. */
    method HandleFetch(req: Request, outcome: NetOutcome) returns (r: FetchResult)
      requires Valid()
      modifies this`store
      ensures Valid()
      ensures RouteOf(req) == PassThrough ==> r == NotIntercepted && store == old(store)
      ensures RouteOf(req) == Navigation ==>
        && store == old(store)
        && r == if outcome.Delivered? then Served(outcome.response) else FromMatch(Match(old(store), GetKey("/")))
      ensures RouteOf(req) == Asset && outcome.Delivered? ==>
        && r == Served(outcome.response)
        && store == if ShouldCache(req.url, outcome.response.status)
                    then Put(old(store), CacheName, KeyOf(req), outcome.response)
                    else old(store)
      ensures RouteOf(req) == Asset && outcome.TransportFailure? ==>
        store == old(store) && r == FromMatch(Match(old(store), KeyOf(req)))
    {
      if req.httpMethod != "GET" {
        return NotIntercepted;
      }
      if StartsWith(req.url, ExtensionScheme) {
        return NotIntercepted;
      }
      if req.mode == "navigate" {
        match outcome {
          case Delivered(response) =>
            r := Served(response);
          case TransportFailure =>
            r := FromMatch(Match(store, GetKey("/")));
        }
        return;
      }
      match outcome
      case Delivered(response) =>
        if ShouldCache(req.url, response.status) {
          store := Put(store, CacheName, KeyOf(req), response);
        }
        r := Served(response);
      case TransportFailure =>
        r := FromMatch(Match(store, KeyOf(req)));
    }
  }

  /** An icon fetched once with status 200 is served from the cache when the network later fails. */
  method IconOfflineScenario() returns (first: FetchResult, second: FetchResult)
    ensures first == Served(Response(200, "icon"))
    ensures second == Served(Response(200, "icon"))
  {
    var w := new Worker(Store([CacheName], map[CacheName := map[]]));
    var req := Request("GET", "/icons/icon-192x192.png", "no-cors");
    StaticAssetExamples();
    assert req.url[0] != ExtensionScheme[0];
    assert RouteOf(req) == Asset;
    first := w.HandleFetch(req, Delivered(Response(200, "icon")));
    assert first == Served(Response(200, "icon"));
    PutThenMatch(Store([CacheName], map[CacheName := map[]]), KeyOf(req), Response(200, "icon"));
    second := w.HandleFetch(req, TransportFailure);
  }
}
