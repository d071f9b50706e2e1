/**
 * The pure part of request handling in lib/giver.js: turning one sink URI
 * into the options of an outbound request (the body of `mapping.map`).
 */
module Targets {
  import opened Wrappers

  /**
   * The fields of a parsed sink URI that the gateway reads. The URI parser
   * itself is not modelled: the gateway receives it as a function value.
   */
  datatype Target = Target(protocol: string, hostname: string, port: Option<string>, path: string)

  /** Memoized parses, keyed by the exact sink URI string. */
  type Cache = map<string, Target>

  /** Which transport module serves the outbound request. */
  datatype Scheme = Http | Https

  /** The parts of an inbound request that the fan-out reads; `verb` is the HTTP method. */
  datatype Request = Request(path: string, verb: string, headers: map<string, string>)

  /** The options record handed to the transport for one sink. */
  datatype Options = Options(
    hostname: string,
    path: string,
    verb: string,
    headers: map<string, string>,
    port: Option<string>,
    scheme: Scheme)

  /** Plain http exactly for the protocol "http:"; every other protocol gets https. */
  function SchemeFor(protocol: string): (s: Scheme)
    ensures s == Http <==> protocol == "http:"
    ensures s == Https <==> protocol != "http:"
  {
    if protocol == "http:" then Http else Https
  }

  /** A port is copied only when it is truthy: present and not the empty string. */
  predicate HasPort(t: Target) {
    t.port.Some? && t.port.value != ""
  }

  /** The options for a sink whose URI resolved to `t`. */
  function OptionsFor(t: Target, request: Request): (o: Options)
    ensures o.hostname == t.hostname && o.path == t.path
    ensures o.verb == request.verb
    ensures "host" in o.headers && o.headers["host"] == t.hostname
    ensures forall h :: h != "host" ==>
      (h in o.headers <==> h in request.headers) &&
      (h in o.headers ==> o.headers[h] == request.headers[h])
    ensures o.port.Some? <==> HasPort(t)
    ensures o.port.Some? ==> o.port == t.port
    ensures o.scheme == Http <==> t.protocol == "http:"
  {
    Options(
      hostname := t.hostname,
      path := t.path,
      verb := request.verb,
      headers := request.headers["host" := t.hostname],
      port := if HasPort(t) then t.port else None,
      scheme := SchemeFor(t.protocol))
  }

  /** One slot of the plan: `null` for a sink with no cache entry. */
  function SinkSlot(sink: string, cache: Cache, request: Request): Option<Options> {
    if sink in cache then Some(OptionsFor(cache[sink], request)) else None
  }

  /** The per-sink plan: one slot per sink, in the order of the sink list. */
  function PlanSinks(sinks: seq<string>, cache: Cache, request: Request): (plan: seq<Option<Options>>)
    ensures |plan| == |sinks|
    ensures forall i :: 0 <= i < |sinks| ==> (plan[i].None? <==> sinks[i] !in cache)
    ensures forall i :: 0 <= i < |sinks| && sinks[i] in cache ==>
      plan[i] == Some(OptionsFor(cache[sinks[i]], request))
  {
    seq(|sinks|, i requires 0 <= i < |sinks| => SinkSlot(sinks[i], cache, request))
  }

  /** A sink listed twice is planned twice, identically: there is no deduplication at fan-out time. */
  lemma DuplicateSinkPlannedTwice(sinks: seq<string>, cache: Cache, request: Request, i: nat, j: nat)
    requires i < j < |sinks| && sinks[i] == sinks[j] && sinks[i] in cache
    ensures PlanSinks(sinks, cache, request)[i].Some?
    ensures PlanSinks(sinks, cache, request)[i] == PlanSinks(sinks, cache, request)[j]
  {
  }
}
