/**
 * The URI resolver cache of lib/giver.js: what `rebuild_uri_cache` leaves
 * in `uri_cache`, stated over the mapping table it scans.
 */
module UriCache {
  import opened Targets

  /** The mapping table: request path to its ordered list of sink URIs. */
  type Mappings = map<string, seq<string>>

  /** A sink entry takes part only when it is truthy; for a string, when it is not empty. */
  predicate Truthy(uri: string) {
    uri != ""
  }

  /** The truthy URIs of one sink list. */
  ghost function TruthyIn(sinks: seq<string>): set<string> {
    set u | u in sinks && Truthy(u)
  }

  /** The truthy URIs listed under the given paths. */
  ghost function UrisUnder(m: Mappings, paths: set<string>): set<string> {
    set p, u | p in paths && p in m && u in m[p] && Truthy(u) :: u
  }

  /** Every truthy URI occurring in any sink list of `m`. */
  ghost function TruthyUris(m: Mappings): (us: set<string>)
    ensures forall u :: u in us <==> Truthy(u) && exists p :: p in m && u in m[p]
  {
    UrisUnder(m, m.Keys)
  }

  /** `cache` extended with a parse of every URI of `uris` it lacks; existing entries are kept. */
  ghost function Memoize(parse: string -> Target, cache: Cache, uris: set<string>): Cache {
    map u | u in cache.Keys + uris :: if u in cache then cache[u] else parse(u)
  }

  /** What `rebuild_uri_cache` leaves in `uri_cache`. */
  ghost function Rebuilt(parse: string -> Target, cache: Cache, m: Mappings): Cache {
    Memoize(parse, cache, TruthyUris(m))
  }

  /** The cache of a fresh rebuild over `m`: cleared, then rebuilt. */
  ghost function CacheFor(parse: string -> Target, m: Mappings): Cache {
    Rebuilt(parse, map[], m)
  }

  /** After a rebuild every truthy URI of the mapping has an entry, and only these are added. */
  lemma RebuildCovers(parse: string -> Target, cache: Cache, m: Mappings)
    ensures forall p, u :: p in m && u in m[p] && Truthy(u) ==> u in Rebuilt(parse, cache, m)
    ensures forall u :: u in Rebuilt(parse, cache, m) <==> u in cache || u in TruthyUris(m)
    ensures forall u :: u in Rebuilt(parse, cache, m) && u !in cache ==> Rebuilt(parse, cache, m)[u] == parse(u)
  {
  }

  /** A rebuild never overwrites an entry, and adds no entry for a falsy URI. */
  lemma RebuildPreserves(parse: string -> Target, cache: Cache, m: Mappings)
    ensures forall u :: u in cache ==> u in Rebuilt(parse, cache, m) && Rebuilt(parse, cache, m)[u] == cache[u]
    ensures "" in Rebuilt(parse, cache, m) <==> "" in cache
  {
  }

  /** Rebuilding twice over the same mapping is the same as rebuilding once. */
  lemma RebuildIdempotent(parse: string -> Target, cache: Cache, m: Mappings)
    ensures Rebuilt(parse, Rebuilt(parse, cache, m), m) == Rebuilt(parse, cache, m)
  {
  }

  /**
   * A cleared-then-rebuilt cache holds exactly the truthy URIs of the mapping,
   * each with its own parse: nothing of any earlier mapping is left over.
   */
  lemma CacheForExact(parse: string -> Target, m: Mappings)
    ensures CacheFor(parse, m).Keys == TruthyUris(m)
    ensures forall u :: u in CacheFor(parse, m) ==> CacheFor(parse, m)[u] == parse(u)
  {
  }

  /**
   * A sink listed under a path has an entry in the cleared-then-rebuilt cache
   * exactly when it is truthy, and that entry is its own parse.
   */
  lemma CachedSink(parse: string -> Target, m: Mappings, path: string, i: nat)
    requires path in m && i < |m[path]|
    ensures m[path][i] in CacheFor(parse, m) <==> Truthy(m[path][i])
    ensures m[path][i] in CacheFor(parse, m) ==> CacheFor(parse, m)[m[path][i]] == parse(m[path][i])
  {
    CacheForExact(parse, m);
    assert m[path][i] in m[path];
  }

  /** Adding one sink list to the scanned paths adds exactly its truthy URIs. */
  lemma UrisUnderStep(m: Mappings, paths: set<string>, p: string)
    requires p in m
    ensures UrisUnder(m, paths + {p}) == UrisUnder(m, paths) + TruthyIn(m[p])
  {
    var lhs, rhs := UrisUnder(m, paths + {p}), UrisUnder(m, paths) + TruthyIn(m[p]);
    forall u | u in lhs ensures u in rhs {
      var q :| q in paths + {p} && q in m && u in m[q] && Truthy(u);
      if q != p {
        assert u in UrisUnder(m, paths);
      }
    }
    forall u | u in rhs ensures u in lhs {
      if u in TruthyIn(m[p]) {
        assert p in paths + {p} && p in m && u in m[p] && Truthy(u);
      }
    }
  }

  /** Memoizing one more URI is one map update that keeps an existing entry. */
  lemma MemoizeStep(parse: string -> Target, cache: Cache, seen: set<string>, u: string)
    ensures Memoize(parse, cache, seen + {u}) ==
      Memoize(parse, cache, seen)[u := if u in Memoize(parse, cache, seen) then Memoize(parse, cache, seen)[u] else parse(u)]
  {
  }
}
