# TheGiver: a verified model of the fan-out gateway's `Giver` service

TheGiver is an HTTP fan-out gateway. It streams each inbound request, body
included, to every sink URI mapped to the request's path. The mapping table
can be replaced wholesale from a shared store when a change notification
arrives. This project models the `Giver` class of `lib/giver.js` and proves
what it promises:

- **URI cache** (`UriCache`, `GiverService.Giver.RebuildUriCache`):
  - the cache memoizes a parse of every truthy sink URI, keyed by the exact string;
  - it never overwrites an entry;
  - rebuilding it twice is the same as rebuilding it once.
- **Snapshot-replace refresh** (`Giver.HandleRedisConfig`, `Giver.HandleRedisMessage`):
  - a message on `giver_config_update` replaces the mapping table;
  - it then clears and rebuilds the cache, so the cache holds exactly the truthy URIs of the new table, each with its own parse;
  - a message on any other channel changes nothing.
- **Request handling** (`Targets`, `FanOut`, `Giver.HandleReq`):
  - the register path is routed first;
  - an unmapped path gets the 'No map' reply and opens nothing;
  - a mapped path gets one plan slot per sink, in order;
  - each slot is either `None` (no cache entry) or the options of an outbound request:
    - the target's hostname and path;
    - the request's method;
    - the headers with `host` rewritten to the target's hostname;
    - the port only when truthy;
    - http exactly for protocol `http:`, https otherwise.
  - For readable events followed by `end`:
    - every live stream receives exactly the caller's chunks, in order;
    - every live stream is ended once, after its last chunk, and nothing is written to it after that;
    - a `None` slot has no stream and gets nothing;
    - exactly one reply goes out, 200, and when it goes out every live stream has already been ended once.
- **Error counters** (`ErrorCache`, `Giver.OnOutgoingError`):
  - an outbound error adds one to its sink's counter, starting from 1;
  - no other entry changes;
  - over a series of errors, each counter equals the number of errors for that sink.

Modelling choices:
- **URI parser.** `url.parse` is not modelled. The service receives it as a function value `parse: string -> Target` when it is constructed.
- **Shared store.** The decoded snapshot fetched from the store is a parameter of `HandleRedisMessage`.
- **Inbound events.** One request's events are given as a sequence of reads (a chunk, or `None` where `read()` yields nothing), followed by `end`.
- **Outbound streams.** An outbound request is a record (`FanOut.Outbound`) of the options it was opened with, the chunks written to it in order, and, for each of its `end` calls, how many chunks it had received when the call came. So "ended once, after the last chunk" is the fact that this list is exactly `[n]`, where `n` is the number of chunks the stream carries. The streams and the replies sent to the caller so far together form the state of one request (`FanOut.Exchange`). Replies are only ever appended. Each reply (`FanOut.Sent`) records every slot's end count at the moment it goes out. So "the reply comes after every end" is a fact about the recorded reply: `FanOut.StreamRequest` ends with exactly one reply, and that reply saw every live stream already ended.

What the code does, and so what the model does:
- the registration path defaults to `/register` (lib/giver.js:24);
- `handle_req` serves the registration path, answers 'No map' for an unmapped path and fans out a mapped one; there is no route for reading the mapping table back (lib/giver.js:82-89);
- registration is an empty stub, so mappings change only by a refresh (lib/giver.js:141-143);
- the 'No map' reply is sent without setting a status (lib/giver.js:88).

The code has several slips: names it never declares, a missing `return`, and handlers whose `this` is not the service. The model follows what the code evidently means. Each slip is listed under "## Findings", where the `AsWritten` module models the code as written.

## Model

| member | source | states |
|---|---|---|
| `Targets.SchemeFor` | lib/giver.js:107 | plain http exactly when the protocol is `http:`, https for every other protocol |
| `Targets.OptionsFor` | lib/giver.js:97-106 | hostname and path from the target, the request's method, all request headers kept except `host`, which becomes the target hostname, port present exactly when the target's port is truthy |
| `Targets.PlanSinks` | lib/giver.js:92-107 | one slot per sink, in order; a slot is null exactly when its sink has no cache entry, otherwise it holds the options for that entry's target |
| `Targets.DuplicateSinkPlannedTwice` | lib/giver.js:92-96 | a sink listed twice gets two identical outbound slots (no deduplication at fan-out) |
| `UriCache.TruthyUris` | lib/giver.js:60-61 | a URI is scanned exactly when it is truthy and occurs in some path's sink list |
| `UriCache.RebuildCovers` | lib/giver.js:59-65 | after a rebuild every truthy URI of every sink list has an entry; the keys are the old keys plus the truthy URIs; new entries hold the URI's parse |
| `UriCache.RebuildPreserves` | lib/giver.js:62 | a rebuild keeps every existing key with its value, and adds no entry for a falsy URI |
| `UriCache.RebuildIdempotent` | lib/giver.js:59-65 | rebuilding over the same mapping twice equals rebuilding once |
| `UriCache.CachedSink` | lib/giver.js:56-62 | a sink listed under a path has an entry in the fresh cache exactly when it is truthy, and the entry is its own parse |
| `UriCache.CacheForExact` | lib/giver.js:56-57 | a cleared-then-rebuilt cache has exactly the truthy URIs of the mapping as keys, each mapped to its own parse |
| `ErrorCache.Increment` | lib/giver.js:115 | the erring sink's counter becomes its old value plus one, or 1 when absent; every other entry is unchanged |
| `ErrorCache.AfterErrorsCounts` | lib/giver.js:113-116 | after a series of errors each counter is its start value plus the number of errors for that sink; a sink has an entry exactly when it had one or has erred |
| `ErrorCache.AfterErrorsMonotone` | lib/giver.js:115 | counters never decrease and entries never disappear |
| `ErrorCache.AfterErrorsPositive` | lib/giver.js:115 | starting from counters that are all at least 1 (as from the empty start), every counter stays at least 1 |
| `FanOut.Open` | lib/giver.js:92-120 | the sink-list `map` opens one stream per live slot, with that slot's options, nothing written and never ended; a null slot has no stream |
| `FanOut.PresentReads` | lib/giver.js:123-124 | the chunks handed on are exactly the truthy reads, and there are no more of them than reads |
| `FanOut.WrittenCarries` | lib/giver.js:125-129 | writing chunks to streams that all carry the same body makes every live stream carry that body followed by the chunks, with its ends unchanged; null slots stay empty |
| `FanOut.WrittenSlots` | lib/giver.js:125-129 | a write reaches a slot exactly when the slot has a stream, appends the chunks to what it received, and does not end it |
| `FanOut.WrittenNothing` | lib/giver.js:124 | an empty read leaves every stream as it was |
| `FanOut.EndedCarries` | lib/giver.js:133-137 | ending every stream adds to each live stream one end, noted as coming after all the chunks it carries, and changes nothing written; null slots stay empty |
| `FanOut.ReadableHandler` | lib/giver.js:122-131 | the handler's loop writes the read's chunk, if any, to every stream in slot order, skips null slots, and leaves the replies alone |
| `FanOut.SentCarries` | lib/giver.js:132-138 | a reply sent when every live stream has been ended once records exactly one end for each of them |
| `FanOut.EndHandler` | lib/giver.js:132-139 | the handler's loop ends every stream once, skipping null slots; then one reply 200 is appended, and it records the end counts after all those ends |
| `FanOut.StreamRequest` | lib/giver.js:122-139 | after the readable events and `end`, each live stream has received exactly the caller's chunks in order and has been ended once, after the last of them, with nothing written after the end; null slots have no stream; exactly one reply has gone out, 200, and it went out when every live stream had already been ended once |
| `GiverService.MappingsOf` | lib/giver.js:21 | the configured mapping table, or the empty table when the configuration has none |
| `GiverService.RegisterPathOf` | lib/giver.js:24 | the configured register path when it is present and non-empty, otherwise `/register`; never empty |
| `GiverService.RouteOf` | lib/giver.js:83-89 | the register path wins; otherwise a path without a mapping is unmapped and one with a mapping is fanned out |
| `GiverService.Giver.constructor` | lib/giver.js:14-27 | mappings from the configuration, the cache rebuilt from them, the register path defaulted, no error counters, invariant established |
| `GiverService.Giver.RebuildUriCache` | lib/giver.js:59-65 | the nested scan leaves exactly the old cache extended with a parse of every truthy URI it lacked |
| `GiverService.Giver.HandleRedisConfig` | lib/giver.js:53-58 | the mapping table becomes the snapshot and the cache becomes exactly the snapshot's cache, whatever was there before; invariant kept |
| `GiverService.Giver.HandleRedisMessage` | lib/giver.js:46-52 | the update channel refreshes from the fetched snapshot; any other channel leaves mappings and cache unchanged |
| `GiverService.Giver.OnOutgoingError` | lib/giver.js:113-116 | the error counters become the increment of the old counters at the erring sink; invariant kept |
| `GiverService.Giver.HandleReq` | lib/giver.js:82-139 | register path: no streams and no reply; unmapped path: no streams, only the 'No map' reply; mapped path: one slot per listed sink, null exactly for an empty sink, otherwise the options for that sink's own parse; each live stream carries exactly the caller's chunks and is ended once, after the last of them; the one reply, 200, went out after every end; the route is `RouteOf` and the replies are `RepliesFor` that route |
| `AsWritten.IntendedRoutes` | lib/giver.js:82-139 | read as intended, the handler completes on every route: nothing on the register path, 'No map' for an unmapped path, 200 for a mapped one; these are exactly the replies `GiverService.Giver.HandleReq` sends on the route it takes |
| `AsWritten.UnboundHandlerServesNothing` | lib/giver.js:69-83 | run unbound, the handler throws at the `register_path` read before any reply, however its text is read; bound and read as intended it completes |
| `AsWritten.UndeclaredNamesThrow` | lib/giver.js:84-86 | with the names as written, the register path throws at `handle_register` and every other path at `req`, before any reply; read as intended it completes |
| `AsWritten.UnmappedRequestThrowsAfterReply` | lib/giver.js:87-92 | without the `return`, an unmapped path is answered 'No map' and then throws at `map`; with it, the run completes after the same reply; other paths are unaffected |
| `AsWritten.AsWrittenUnchanged` | lib/giver.js:113-116 | as written, the first outbound error throws at `warn` and the counters stay as they were, however the names are read; no error at all throws nothing |
| `AsWritten.UndeclaredEndpointThrows` | lib/giver.js:114-115 | with the service as `this` but `endpoint` undeclared, the first error throws at `endpoint` before line 115, and the counters stay as they were |
| `AsWritten.ServiceListenerCounts` | lib/giver.js:114-115 | with the service as `this` and `endpoint` resolved, the listener never throws and counts exactly as the intended increment |
| `AsWritten.ErrorsNeverCounted` | lib/giver.js:113-116 | as written the first error throws and the counters never move, while the intended listener throws nothing and adds the number of errors for each sink; the two disagree on every sink that erred |

## Left out

- The web framework, server creation, listening, the default port 8080 and the TLS configuration (lib/giver.js:66-81) are transport plumbing. The one consequence for request handling, the unbound handler, is a finding.
- The shared-store client, its wiring and `process.exit` on a store error are network I/O (lib/giver.js:29-45). The same holds for the `hgetall` fetch and the per-field JSON decoding (lib/giver.js:48-49). Refresh receives the decoded snapshot as a parameter. The initial refresh on connect (lib/giver.js:44) is one `HandleRedisMessage` call on the update channel.
- `url.parse` (lib/giver.js:62) is a library function. It is a function-valued parameter of the service, and `Target` keeps only the protocol, hostname, port and path fields that are read.
- The outbound `http.request`/`https.request` calls, their response and close callbacks, and all logging (lib/giver.js:91, 108-112, 117-119) are asynchronous I/O. A live plan slot stands for an opened outbound request, and its record keeps what is written to it and how often it is ended.
- Event-loop interleaving across concurrent requests, and the interleaving of outbound errors with one request's events, are left out. `OnOutgoingError` is a separate operation on the counters and does not affect the streams.
- The registration handler (lib/giver.js:141-143) is an empty stub. The register route has no effects, and there is no merge, deduplication or exclusivity logic to model.
- bin/giver.js (command-line options, logger setup, process supervision) is not part of this model.
- Sink lists hold strings, and a falsy sink is the empty string. Non-string JSON values in a stored list (null, numbers, nested arrays), and a stored value that is not a list, are not modelled.
- The maps behave as plain dictionaries. Lookups of names inherited by JavaScript objects (such as `constructor`) are not modelled.
- At lib/giver.js:101 and 106, every options record shares the inbound request's headers object and rewrites its `host` in place. The model gives each record its own copy with `host` rewritten, which is what each outbound request sees when it is created. The model does not capture the later change to the inbound request's headers.
- Chunks are byte sequences. String chunks (when an encoding is set) are not modelled.
- Node's refusal of a write after `end` is not modelled: `FanOut.WriteTo` would append to an ended stream. In `FanOut.StreamRequest` the end handler runs only after every readable event, and its contract shows each end came after the last chunk.
- The relative order of writes to different streams within one readable event is not recorded, only each stream's own chunk order. The loops visit the slots in order.

## Findings

| source | as written | input that shows it | evidently intended | confidence | as-written member | corrected member |
|---|---|---|---|---|---|---|
| lib/giver.js:69 | the handler is registered unbound, so `this` is undefined inside it and reading the register path at line 83 throws a TypeError | any request | register the handler bound to the service | high; not executed | `AsWritten.UnboundHandlerServesNothing` | `GiverService.Giver.HandleReq` |
| lib/giver.js:84 | the registration stub is called without `this.`, a ReferenceError | a request to the register path, once line 69 is fixed | call the service's own registration handler | high; not executed | `AsWritten.UndeclaredNamesThrow` | `GiverService.Giver.HandleReq` |
| lib/giver.js:86 | the lookup reads the undeclared `req` (so do lines 108, 118 and 123; lines 125 and 133 read the undeclared `outgoings`, line 138 `res`), a ReferenceError | any request to a path other than the register path, once line 69 is fixed | the request, the array of outbound streams built at line 92, the response | high; not executed | `AsWritten.UndeclaredNamesThrow` | `GiverService.Giver.HandleReq` |
| lib/giver.js:87-89 | after the 'No map' reply the handler does not return, and line 92 calls `map` on the undefined sink list, a TypeError | a request to `/a` when the mapping table is empty, once lines 69 and 86 are fixed | reply 'No map' and open nothing | high; not executed | `AsWritten.UnmappedRequestThrowsAfterReply` | `GiverService.Giver.HandleReq` |
| lib/giver.js:113-116 | the error listener is a non-arrow function, so `this` is the outbound request; reading `warn` from its undefined `logger` throws a TypeError before line 115 counts. The exception escapes the event listener uncaught and ends the worker process, which the supervisor in bin/giver.js:29-32 forks again | any outbound connection error | count the error for the sink in the service's counters | high; not executed | `AsWritten.ErrorsNeverCounted` | `GiverService.Giver.OnOutgoingError` |
| lib/giver.js:114 | the warning's argument reads the undeclared `endpoint`, so even with `this` bound to the service the listener throws a ReferenceError before line 115 counts | any outbound connection error, once the listener is an arrow function | name the sink in the warning | high; not executed | `AsWritten.UndeclaredEndpointThrows` | `GiverService.Giver.OnOutgoingError` |
