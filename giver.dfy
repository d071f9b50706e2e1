/**
 * The `Giver` service object of lib/giver.js: the mapping table, the URI
 * cache and the error counters it owns, the refresh from the shared store,
 * and the handling of one inbound request.
 */
module GiverService {
  import opened Wrappers
  import opened Targets
  import opened UriCache
  import opened ErrorCache
  import opened FanOut

  /** The pub/sub channel whose messages trigger a refresh. */
  const UpdateChannel: string := "giver_config_update"

  /** The registration path used when the configuration names none. */
  const DefaultRegisterPath: string := "/register"

  /** The parts of the configuration the service reads; None where a field is absent. */
  datatype Config = Config(mappings: Option<Mappings>, registerPath: Option<string>)

  /** `config.mappings || {}` */
  function MappingsOf(config: Config): (m: Mappings)
    ensures config.mappings.Some? ==> m == config.mappings.value
    ensures config.mappings.None? ==> m == map[]
  {
    if config.mappings.Some? then config.mappings.value else map[]
  }

  /** `config.register_path || '/register'`: an absent or empty path falls back to the default. */
  function RegisterPathOf(config: Config): (path: string)
    ensures path != ""
    ensures config.registerPath.Some? && config.registerPath.value != "" ==> path == config.registerPath.value
    ensures config.registerPath.None? || config.registerPath.value == "" ==> path == DefaultRegisterPath
  {
    if config.registerPath.Some? && config.registerPath.value != "" then config.registerPath.value
    else DefaultRegisterPath
  }

  /** Where `handle_req` sends a request. */
  datatype Route = ToRegister | NoMapping | Mapped

  /** The register path is checked first; then the mapping lookup decides. */
  function RouteOf(path: string, registerPath: string, mappings: Mappings): (r: Route)
    ensures r == ToRegister <==> path == registerPath
    ensures r == NoMapping <==> path != registerPath && path !in mappings
    ensures r == Mapped <==> path != registerPath && path in mappings
  {
    if path == registerPath then ToRegister
    else if path !in mappings then NoMapping
    else Mapped
  }

  /**
   * What the caller is sent on each route: nothing on the registration stub,
   * 'No map' alone for an unmapped path, and 200 once a mapped request ends.
   */
  function RepliesFor(route: Route): (r: seq<Reply>)
    ensures |r| <= 1
    ensures route == ToRegister <==> r == []
    ensures route == NoMapping <==> r == [NoMap]
  {
    match route
    case ToRegister => []
    case NoMapping => [NoMap]
    case Mapped => [Status(200)]
  }

  class Giver {
    /** The URI parser the cache memoizes. */
    const parse: string -> Target
    var mappings: Mappings
    var uriCache: Cache
    var registerPath: string
    var errorCache: Counts

    /**
     * The service's invariant: the cache is exactly the cleared-then-rebuilt
     * cache of the current mapping, the register path is not empty, and every
     * error counter has counted at least one error.
     */
    ghost predicate Valid()
      reads this
    {
      && uriCache == CacheFor(parse, mappings)
      && registerPath != ""
      && forall s :: s in errorCache ==> errorCache[s] >= 1
    }

    constructor (config: Config, parse: string -> Target)
      ensures Valid()
      ensures this.parse == parse
      ensures mappings == MappingsOf(config) && uriCache == CacheFor(parse, mappings)
      ensures registerPath == RegisterPathOf(config)
      ensures errorCache == map[]
    {
      this.parse := parse;
      new;
      mappings := MappingsOf(config);
      uriCache := map[];
      RebuildUriCache();
      registerPath := RegisterPathOf(config);
      errorCache := map[];
    }

    /**
     * `rebuild_uri_cache`: scan every sink list and memoize a parse of each
     * truthy URI that has no entry yet.
     */
    method RebuildUriCache()
      modifies this`uriCache
      ensures uriCache == Rebuilt(parse, old(uriCache), mappings)
    {
      var pending := mappings.Keys;
      ghost var seen: set<string> := {};
      while pending != {}
        invariant pending <= mappings.Keys
        invariant seen == UrisUnder(mappings, mappings.Keys - pending)
        invariant uriCache == Memoize(parse, old(uriCache), seen)
        decreases pending
      {
        var path :| path in pending;
        var sinks := mappings[path];
        ghost var before := seen;
        for i := 0 to |sinks|
          invariant seen == before + TruthyIn(sinks[..i])
          invariant uriCache == Memoize(parse, old(uriCache), seen)
        {
          var uri := sinks[i];
          assert sinks[..i + 1] == sinks[..i] + [uri];
          if Truthy(uri) {
            MemoizeStep(parse, old(uriCache), seen, uri);
            uriCache := uriCache[uri := if uri in uriCache then uriCache[uri] else parse(uri)];
            seen := seen + {uri};
          }
        }
        assert sinks[..|sinks|] == sinks;
        UrisUnderStep(mappings, mappings.Keys - pending, path);
        assert (mappings.Keys - pending) + {path} == mappings.Keys - (pending - {path});
        pending := pending - {path};
      }
      assert mappings.Keys - pending == mappings.Keys;
    }

    /**
     * `handle_redis_config`: the fetched snapshot replaces the mapping table
     * outright, and the cache is cleared and rebuilt from it.
     */
    method HandleRedisConfig(config: Mappings)
      requires Valid()
      modifies this`mappings, this`uriCache
      ensures Valid()
      ensures mappings == config
      ensures uriCache == CacheFor(parse, config)
    {
      mappings := config;
      uriCache := map[];
      RebuildUriCache();
    }

    /**
     * `handle_redis_message`: only a message on the update channel refreshes;
     * `fetched` stands for the decoded snapshot that the store returns.
     */
    method HandleRedisMessage(channel: string, fetched: Mappings)
      requires Valid()
      modifies this`mappings, this`uriCache
      ensures Valid()
      ensures channel == UpdateChannel ==> mappings == fetched && uriCache == CacheFor(parse, fetched)
      ensures channel != UpdateChannel ==> mappings == old(mappings) && uriCache == old(uriCache)
    {
      if channel == UpdateChannel {
        HandleRedisConfig(fetched);
      }
    }

    /** The `error` listener of one outbound stream: count one more error for its sink. */
    method OnOutgoingError(sink: string)
      requires Valid()
      modifies this`errorCache
      ensures Valid()
      ensures errorCache == Increment(old(errorCache), sink)
    {
      errorCache := Increment(errorCache, sink);
    }

    /**
     * `handle_req` for one request whose readable events yield `inbound` (a
     * chunk, or None where `read()` returns nothing) and are followed by `end`.
     * Returns where the request went, the per-sink plan, and the outbound
     * streams and replies once the events are handled.
     */
    method HandleReq(request: Request, inbound: seq<Option<Chunk>>)
      returns (route: Route, plan: Plan, ex: Exchange)
      requires Valid()
      ensures route == RouteOf(request.path, registerPath, mappings)
      ensures route == ToRegister <==> request.path == registerPath
      ensures route == NoMapping <==> request.path != registerPath && request.path !in mappings
      ensures route != Mapped ==> plan == [] && ex.outgoings == []
      ensures route == ToRegister ==> ex.replies == []
      ensures route == NoMapping ==> ex.replies == [Sent(NoMap, [])]
      ensures route == Mapped ==>
        && request.path in mappings
        && plan == PlanSinks(mappings[request.path], uriCache, request)
        && |plan| == |mappings[request.path]|
        && (forall i :: 0 <= i < |plan| ==>
              && (plan[i].None? <==> mappings[request.path][i] == "")
              && (plan[i].Some? ==> plan[i].value == OptionsFor(parse(mappings[request.path][i]), request)))
        && Carries(plan, ex.outgoings, Present(inbound), [|Present(inbound)|])
        && |ex.replies| == 1 && ex.replies[0].reply == Status(200)
        && SentAfterEnds(plan, ex.replies[0])
      ensures Replies(ex) == RepliesFor(route)
    {
      route := RouteOf(request.path, registerPath, mappings);
      if route == ToRegister {
        // the registration stub does nothing
        return route, [], Exchange([], []);
      }
      if route == NoMapping {
        return route, [], Send(Exchange([], []), NoMap);
      }
      var sinks := mappings[request.path];
      plan := PlanSinks(sinks, uriCache, request);
      forall i | 0 <= i < |sinks| {
        CachedSink(parse, mappings, request.path, i);
      }
      ex := StreamRequest(plan, inbound);
    }
  }
}
