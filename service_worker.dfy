/**
 * The service worker of sw.js: it precaches the application shell on install, deletes
 * caches of older versions on activate, and answers fetches cache-first, storing new
 * successful GET responses in a dynamic cache and falling back to the cached
 * '/index.html' for HTML requests when the network fails. Network replies are parameters.
 */
module ServiceWorker {
  import opened Js

  const CACHE_NAME: string := "sakina-cache-v2"
  const DYNAMIC_CACHE: string := "sakina-dynamic-v2"
  const ASSETS_TO_CACHE: seq<string> := ["/", "/index.html", "/manifest.json"]

  datatype Url = Url(origin: string, pathname: string, search: string)

  datatype Response = Response(status: int, body: string)

  /** A request: its URL, its method, and its Accept header (`None` when absent). */
  datatype Request = Request(url: Url, verb: string, accept: Option<string>)

  /** The browser's cache storage: cache names in creation order, and each cache's entries by URL. */
  predicate Distinct(s: seq<string>)
  {
    forall i, j | 0 <= i < j < |s| :: s[i] != s[j]
  }

  datatype CacheStorage = CacheStorage(names: seq<string>, caches: map<string, map<Url, Response>>) {

    predicate Valid()
    {
      && Distinct(names)
      && (forall n | n in caches :: n in names)
      && (forall n | n in names :: n in caches)
    }

    /** `caches.open(name)`: the named cache, created empty (and last in order) when missing. */
    function Open(name: string): (s: CacheStorage)
      requires Valid()
      ensures s.Valid() && name in s.caches
      ensures name in caches ==> s == this
      ensures name !in caches ==> s.names == names + [name] && s.caches == caches[name := map[]]
    {
      if name in caches then this else CacheStorage(names + [name], caches[name := map[]])
    }

    /** `cache.put(url, response)` on an open cache. */
    function Put(name: string, url: Url, r: Response): (s: CacheStorage)
      requires Valid() && name in caches
      ensures s.Valid() && s.names == names
      ensures s.caches == caches[name := caches[name][url := r]]
    {
      CacheStorage(names, caches[name := caches[name][url := r]])
    }

    /** `caches.match(request)`: the entry of the first cache, in creation order, that holds the URL; only GET requests match. */
    function Match(url: Url, verb: string): (r: Option<Response>)
      requires Valid()
      ensures r.Some? <==> verb == "GET" && exists n :: n in caches && url in caches[n]
      ensures r.Some? ==> exists n :: n in caches && url in caches[n] && caches[n][url] == r.value
    {
      if verb != "GET" then None else MatchIn(names, url)
    }

    function MatchIn(order: seq<string>, url: Url): (r: Option<Response>)
      requires forall n | n in order :: n in caches
      ensures r.Some? <==> exists n :: n in order && url in caches[n]
      ensures r.Some? ==> exists n :: n in order && url in caches[n] && caches[n][url] == r.value
    {
      if order == [] then None
      else if url in caches[order[0]] then Some(caches[order[0]][url])
      else
        var r := MatchIn(order[1..], url);
        assert forall n :: n in order[1..] ==> n in order;
        assert forall n :: n in order && n != order[0] ==> n in order[1..];
        r
    }
  }

  // ---------------------------------------------------------------- install

  /**
   * A reply `addAll` accepts: it arrived and its status is 2xx, but not 206 (a partial
   * reply is refused as well).
   */
  predicate IsOk(r: Option<Response>) { r.Some? && 200 <= r.value.status <= 299 && r.value.status != 206 }

  /** One of the three shell requests, as resolved against the worker's origin. */
  predicate IsShellUrl(u: Url, origin: string)
  {
    u.origin == origin && u.search == "" && u.pathname in ASSETS_TO_CACHE
  }

  datatype Installed = Installed(storage: CacheStorage, installed: bool)

  /**
   * The install handler: `caches.open(CACHE_NAME)`, then `addAll` of the shell, which puts
   * all three entries when every reply is accepted and puts none otherwise (the
   * installation then fails).
   */
  function InstallStep(s: CacheStorage, origin: string, replies: seq<Option<Response>>): (r: Installed)
    requires s.Valid() && |replies| == |ASSETS_TO_CACHE|
    ensures r.storage.Valid() && CACHE_NAME in r.storage.caches
    ensures r.installed <==> forall i | 0 <= i < |replies| :: IsOk(replies[i])
    ensures r.installed ==> forall i | 0 <= i < |ASSETS_TO_CACHE| ::
      && Url(origin, ASSETS_TO_CACHE[i], "") in r.storage.caches[CACHE_NAME]
      && r.storage.caches[CACHE_NAME][Url(origin, ASSETS_TO_CACHE[i], "")] == replies[i].value
    ensures !r.installed ==> r.storage == s.Open(CACHE_NAME)
    ensures forall n | n in s.caches && n != CACHE_NAME :: n in r.storage.caches && r.storage.caches[n] == s.caches[n]
  {
    var withShell := s.Open(CACHE_NAME);
    if forall i | 0 <= i < |replies| :: IsOk(replies[i]) then
      var cache := withShell.caches[CACHE_NAME][Url(origin, "/", "") := replies[0].value]
        [Url(origin, "/index.html", "") := replies[1].value][Url(origin, "/manifest.json", "") := replies[2].value];
      Installed(CacheStorage(withShell.names, withShell.caches[CACHE_NAME := cache]), true)
    else Installed(withShell, false)
  }

  /**
   * A successful install touches only the three shell entries: whatever the shell cache
   * held under any other request is still there, and it gains nothing else.
   */
  lemma InstallKeepsOtherEntries(s: CacheStorage, origin: string, replies: seq<Option<Response>>, u: Url)
    requires s.Valid() && |replies| == |ASSETS_TO_CACHE|
    requires InstallStep(s, origin, replies).installed && !IsShellUrl(u, origin)
    ensures var before := s.Open(CACHE_NAME).caches[CACHE_NAME];
            var after := InstallStep(s, origin, replies).storage.caches[CACHE_NAME];
            (u in after <==> u in before) && (u in before ==> after[u] == before[u])
  {
    assert u != Url(origin, "/", "") && u != Url(origin, "/index.html", "") && u != Url(origin, "/manifest.json", "") by {
      assert ASSETS_TO_CACHE[0] == "/" && ASSETS_TO_CACHE[1] == "/index.html" && ASSETS_TO_CACHE[2] == "/manifest.json";
    }
  }

  // ---------------------------------------------------------------- activate

  predicate IsCurrent(name: string) { name == CACHE_NAME || name == DYNAMIC_CACHE }

  /** The cache names that survive activation, in their order. */
  function Kept(names: seq<string>): (k: seq<string>)
    ensures forall n :: n in k <==> n in names && IsCurrent(n)
    ensures |k| <= |names|
  {
    if names == [] then []
    else (if IsCurrent(names[0]) then [names[0]] else []) + Kept(names[1..])
  }

  /** Activation's result: the current version's caches, untouched, and nothing else. */
  function Activated(s: CacheStorage): (r: CacheStorage)
    requires s.Valid()
  {
    CacheStorage(Kept(s.names), map n | n in s.caches && IsCurrent(n) :: s.caches[n])
  }

  lemma {:induction false} KeptDistinct(names: seq<string>)
    requires Distinct(names)
    ensures Distinct(Kept(names))
  {
    if names != [] {
      KeptDistinct(names[1..]);
      var rest := Kept(names[1..]);
      var k := Kept(names);
      assert names[0] !in names[1..];
      assert names[0] !in rest;
      if IsCurrent(names[0]) {
        assert forall j | 1 <= j < |k| :: k[j] == rest[j - 1];
      } else {
        assert k == rest;
      }
    }
  }

  /** After activation only the current caches exist, each with its entries unchanged; activating again changes nothing. */
  lemma ActivatedKeepsCurrent(s: CacheStorage)
    requires s.Valid()
    ensures Activated(s).Valid()
    ensures forall n :: n in Activated(s).caches <==> n in s.caches && IsCurrent(n)
    ensures forall n | n in Activated(s).caches :: Activated(s).caches[n] == s.caches[n]
    ensures Activated(Activated(s)) == Activated(s)
  {
    KeptDistinct(s.names);
    KeptIdempotent(s.names);
  }

  lemma {:induction false} KeptIdempotent(names: seq<string>)
    ensures Kept(Kept(names)) == Kept(names)
  {
    if names != [] {
      KeptIdempotent(names[1..]);
      if IsCurrent(names[0]) {
        assert Kept(names) == [names[0]] + Kept(names[1..]);
        assert Kept(names)[1..] == Kept(names[1..]);
      } else {
        assert Kept(names) == Kept(names[1..]);
      }
    }
  }

  // ---------------------------------------------------------------- fetch

  datatype Outcome =
    | PassThrough            // the handler returns without answering; the page's own fetch proceeds
    | Respond(r: Response)   // the request is answered with this response
    | NetworkError           // the handler's promise yields no response or rejects

  datatype Handled = Handled(outcome: Outcome, storage: CacheStorage)

  predicate IsApi(req: Request) { StartsWith(req.url.pathname, "/api") }

  predicate WantsHtml(req: Request) { req.accept.Some? && Includes(req.accept.value, "text/html") }

  /**
   * The fetch handler for a request, given the network's reply (`None` when the fetch
   * fails). A missing Accept header makes the fallback test throw, which is a network error.
   */
  function FetchStep(s: CacheStorage, origin: string, req: Request, reply: Option<Response>): (h: Handled)
    requires s.Valid()
    ensures h.storage.Valid()
    ensures IsApi(req) ==> h == Handled(PassThrough, s)
    ensures !IsApi(req) && s.Match(req.url, req.verb).Some? ==> h == Handled(Respond(s.Match(req.url, req.verb).value), s)
    ensures !IsApi(req) && s.Match(req.url, req.verb).None? && reply.Some? ==>
      && h.outcome == Respond(reply.value)
      && h.storage == (if req.verb == "GET" && reply.value.status == 200
                       then s.Open(DYNAMIC_CACHE).Put(DYNAMIC_CACHE, req.url, reply.value)
                       else s.Open(DYNAMIC_CACHE))
    ensures !IsApi(req) && s.Match(req.url, req.verb).None? && reply.None? ==>
      && h.storage == s
      && (WantsHtml(req) && s.Match(Url(origin, "/index.html", ""), "GET").Some? ==>
            h.outcome == Respond(s.Match(Url(origin, "/index.html", ""), "GET").value))
      && (!(WantsHtml(req) && s.Match(Url(origin, "/index.html", ""), "GET").Some?) ==> h.outcome == NetworkError)
  {
    if IsApi(req) then Handled(PassThrough, s)
    else match s.Match(req.url, req.verb)
      case Some(cached) => Handled(Respond(cached), s)
      case None =>
        match reply
        case Some(r) =>
          var withDynamic := s.Open(DYNAMIC_CACHE);
          var stored := if req.verb == "GET" && r.status == 200 then withDynamic.Put(DYNAMIC_CACHE, req.url, r) else withDynamic;
          Handled(Respond(r), stored)
        case None =>
          if WantsHtml(req) then
            match s.Match(Url(origin, "/index.html", ""), "GET")
            case Some(shell) => Handled(Respond(shell), s)
            case None => Handled(NetworkError, s)
          else Handled(NetworkError, s)
  }

  /**
   * Cache-first is sticky: once a GET outside /api has been answered by the network with
   * status 200, every later identical request is answered with that response, whatever
   * the network does, and the storage no longer changes.
   */
  lemma StoredResponseIsServed(s: CacheStorage, origin: string, req: Request, r: Response, later: Option<Response>)
    requires s.Valid() && !IsApi(req) && req.verb == "GET" && r.status == 200
    requires s.Match(req.url, req.verb).None?
    ensures var first := FetchStep(s, origin, req, Some(r));
            FetchStep(first.storage, origin, req, later) == Handled(Respond(r), first.storage)
  {
    var t := FetchStep(s, origin, req, Some(r)).storage;
    // Before the put no cache held the URL, so the dynamic cache is the only one that does.
    forall n | n in t.caches && req.url in t.caches[n]
      ensures n == DYNAMIC_CACHE
    {
    }
  }

  /** A request other than GET always goes to the network and never changes an existing cache. */
  lemma NonGetNeverCached(s: CacheStorage, origin: string, req: Request, reply: Option<Response>)
    requires s.Valid() && req.verb != "GET" && !IsApi(req)
    ensures var h := FetchStep(s, origin, req, reply);
            && (forall n | n in s.caches :: n in h.storage.caches && h.storage.caches[n] == s.caches[n])
            && (reply.Some? ==> h.outcome == Respond(reply.value))
  {
  }

  /**
   * Offline fallback: after a successful install into empty storage, an HTML request for
   * an uncached page that fails on the network is answered with the installed '/index.html'.
   */
  lemma OfflineNavigationGetsShell(origin: string, replies: seq<Option<Response>>, req: Request)
    requires |replies| == |ASSETS_TO_CACHE|
    requires InstallStep(CacheStorage([], map[]), origin, replies).installed
    requires !IsApi(req) && req.verb == "GET" && WantsHtml(req)
    requires req.url !in InstallStep(CacheStorage([], map[]), origin, replies).storage.caches[CACHE_NAME]
    ensures var s := InstallStep(CacheStorage([], map[]), origin, replies).storage;
            FetchStep(s, origin, req, None) == Handled(Respond(replies[1].value), s)
  {
    var s := InstallStep(CacheStorage([], map[]), origin, replies).storage;
    var shell := Url(origin, "/index.html", "");
    var h := FetchStep(s, origin, req, None);
    assert s.names == [CACHE_NAME] && s.caches.Keys == {CACHE_NAME};
    assert ASSETS_TO_CACHE[1] == "/index.html";
    assert shell in s.caches[CACHE_NAME] && s.caches[CACHE_NAME][shell] == replies[1].value;
    assert s.MatchIn(s.names, shell) == Some(replies[1].value);
    assert s.MatchIn(s.names, req.url) == None;
    assert s.Match(req.url, req.verb).None? && s.Match(shell, "GET") == Some(replies[1].value);
    assert h.outcome == Respond(replies[1].value) && h.storage == s;
  }

  /** The worker's view of the origin's cache storage. */
  class Worker {
    const origin: string
    var storage: CacheStorage

    constructor (origin: string, existing: CacheStorage)
      requires existing.Valid()
      ensures this.origin == origin && storage == existing
    {
      this.origin := origin;
      storage := existing;
    }

    /** The install event; `installed` is false when `addAll` rejects. */
    method Install(replies: seq<Option<Response>>) returns (installed: bool)
      requires storage.Valid() && |replies| == |ASSETS_TO_CACHE|
      modifies this
      ensures Installed(storage, installed) == InstallStep(old(storage), origin, replies)
    {
      var r := InstallStep(storage, origin, replies);
      storage, installed := r.storage, r.installed;
    }

    /** The activate event: every cache whose name is not current is deleted, one key at a time. */
    method Activate()
      requires storage.Valid()
      modifies this
      ensures storage == Activated(old(storage))
    {
      var start := storage;
      var keys := start.names;
      var kept: seq<string> := [];
      var caches := start.caches;
      var i := 0;
      while i < |keys|
        invariant 0 <= i <= |keys|
        invariant kept == Kept(keys[..i])
        invariant caches == Without(start.caches, keys[..i])
      {
        KeptAppend(keys[..i], keys[i]);
        assert keys[..i + 1] == keys[..i] + [keys[i]];
        assert keys[..i + 1][..i] == keys[..i];
        if !IsCurrent(keys[i]) {
          caches := caches - {keys[i]};
        } else {
          kept := kept + [keys[i]];
        }
        i := i + 1;
      }
      assert keys[..i] == keys;
      WithoutAll(start);
      storage := CacheStorage(kept, caches);
    }

    /** The fetch event for `req`, given the network's reply. */
    method HandleFetch(req: Request, reply: Option<Response>) returns (outcome: Outcome)
      requires storage.Valid()
      modifies this
      ensures Handled(outcome, storage) == FetchStep(old(storage), origin, req, reply)
    {
      if StartsWith(req.url.pathname, "/api") {
        return PassThrough;
      }
      var cached := storage.Match(req.url, req.verb);
      if cached.Some? {
        return Respond(cached.value);
      }
      if reply.None? {
        outcome := NetworkError;
        if req.accept.Some? && Includes(req.accept.value, "text/html") {
          var shell := storage.Match(Url(origin, "/index.html", ""), "GET");
          if shell.Some? {
            outcome := Respond(shell.value);
          }
        }
        return;
      }
      storage := storage.Open(DYNAMIC_CACHE);
      if req.verb == "GET" && reply.value.status == 200 {
        storage := storage.Put(DYNAMIC_CACHE, req.url, reply.value);
      }
      outcome := Respond(reply.value);
    }
  }

  /** `m` after deleting, one by one, the names of `order` that are not current. */
  function Without(m: map<string, map<Url, Response>>, order: seq<string>): map<string, map<Url, Response>>
  {
    if order == [] then m
    else
      var last := order[|order| - 1];
      var before := Without(m, order[..|order| - 1]);
      if IsCurrent(last) then before else before - {last}
  }

  lemma {:induction false} WithoutFacts(m: map<string, map<Url, Response>>, order: seq<string>)
    ensures forall n :: n in Without(m, order) <==> n in m && (n !in order || IsCurrent(n))
    ensures forall n | n in Without(m, order) :: Without(m, order)[n] == m[n]
  {
    if order != [] {
      var init := order[..|order| - 1];
      WithoutFacts(m, init);
      assert forall n :: n in order <==> n in init || n == order[|order| - 1];
    }
  }

  lemma WithoutAll(s: CacheStorage)
    requires s.Valid()
    ensures Without(s.caches, s.names) == Activated(s).caches
  {
    WithoutFacts(s.caches, s.names);
  }

  lemma KeptAppend(names: seq<string>, n: string)
    ensures Kept(names + [n]) == Kept(names) + (if IsCurrent(n) then [n] else [])
  {
    if names != [] {
      assert (names + [n])[1..] == names[1..] + [n];
      KeptAppend(names[1..], n);
    }
  }
}
