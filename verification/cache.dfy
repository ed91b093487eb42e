/**
 `getDoc` in bot/handlers.go: a lookup in the process-wide `StdlibCache` in front
 of the external `docs.GetDoc` fetch.

 The cache maps a package path to a possibly nil document (`None`). The fetch is
 not performed here: `fetched` is the outcome `docs.GetDoc(pkg)` would give if it
 were called, and it is consulted only when the code would call it.

 As written, a fetched document is stored only when the key was already in the
 cache: a present nil entry is replaced by the fetched document, and a key that
 is not in the cache is never added. How `StdlibCache` is first filled is not
 part of this model; the cache is an input.
 */
module Cache {
  import opened Options
  import opened Docs

  type Cache = map<string, Option<Doc>>

  /** A document, or the error the fetch failed with. */
  datatype DocResult = Ok(doc: Doc) | Err(err: string)

  datatype Lookup = Lookup(result: DocResult, cache: Cache)

  /** The cache holds a usable (non-nil) document for `pkg`. */
  predicate Hit(cache: Cache, pkg: string)
  {
    pkg in cache && cache[pkg].Some?
  }

  function GetDoc(cache: Cache, pkg: string, fetched: DocResult): (r: Lookup)
    ensures r.cache.Keys == cache.Keys
    ensures Hit(cache, pkg) ==> r.result == Ok(cache[pkg].value) && r.cache == cache
    ensures !Hit(cache, pkg) ==> r.result == fetched
    ensures r.result.Err? ==> r.cache == cache
    ensures pkg !in cache ==> r.cache == cache
    ensures forall k :: k in cache && k != pkg ==> r.cache[k] == cache[k]
    ensures r.result.Ok? && pkg in cache ==> r.cache[pkg] == Some(r.result.doc)
  {
    var ok := pkg in cache;
    var cached := if ok then cache[pkg] else None;
    if !ok || cached.None? then
      match fetched
      case Err(e) => Lookup(Err(e), cache)
      case Ok(d) => Lookup(Ok(d), if ok then cache[pkg := Some(d)] else cache)
    else
      Lookup(Ok(cached.value), cache[pkg := cached])
  }

  /** A cached document is served whatever the fetch would have returned. */
  lemma HitIgnoresFetch(cache: Cache, pkg: string, f1: DocResult, f2: DocResult)
    requires Hit(cache, pkg)
    ensures GetDoc(cache, pkg, f1) == GetDoc(cache, pkg, f2)
  {
  }

  /** After a successful lookup of a key the cache holds, the next lookup of that
      key returns the same document without fetching. */
  lemma PresentKeyStaysCached(cache: Cache, pkg: string, f1: DocResult, f2: DocResult)
    requires pkg in cache
    requires GetDoc(cache, pkg, f1).result.Ok?
    ensures var first := GetDoc(cache, pkg, f1);
      GetDoc(first.cache, pkg, f2) == first
  {
  }

  /** A key the cache does not hold is fetched again on every lookup. */
  lemma AbsentKeyAlwaysFetched(cache: Cache, pkg: string, f1: DocResult, f2: DocResult)
    requires pkg !in cache
    ensures var first := GetDoc(cache, pkg, f1);
      first.cache == cache && GetDoc(first.cache, pkg, f2).result == f2
  {
  }

  /** One `getDoc` call: the package asked for and the fetch outcome it would see. */
  datatype Request = Request(pkg: string, fetched: DocResult)

  /** The cache after a series of `getDoc` calls. */
  function Replay(cache: Cache, requests: seq<Request>): Cache
    decreases |requests|
  {
    if requests == [] then cache
    else Replay(GetDoc(cache, requests[0].pkg, requests[0].fetched).cache, requests[1..])
  }

  /** No series of lookups adds or removes a key of the cache. */
  lemma {:induction false} ReplayKeepsKeys(cache: Cache, requests: seq<Request>)
    ensures Replay(cache, requests).Keys == cache.Keys
    decreases |requests|
  {
    if requests != [] {
      ReplayKeepsKeys(GetDoc(cache, requests[0].pkg, requests[0].fetched).cache, requests[1..]);
    }
  }

  /** Once a key holds a document, no series of lookups changes that document. */
  lemma {:induction false} ReplayKeepsHits(cache: Cache, requests: seq<Request>, pkg: string)
    requires Hit(cache, pkg)
    ensures var after := Replay(cache, requests); pkg in after && after[pkg] == cache[pkg]
    decreases |requests|
  {
    if requests != [] {
      var next := GetDoc(cache, requests[0].pkg, requests[0].fetched).cache;
      assert next[pkg] == cache[pkg];
      ReplayKeepsHits(next, requests[1..], pkg);
    }
  }
}
