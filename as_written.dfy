/**
 * lib/giver.js as it is written, where it differs from what it evidently
 * means. Each run is parameterised by what `this` is and by how the text is
 * read, so the same steps give the code as written and as intended; the
 * lemmas set the two side by side.
 */
module AsWritten {
  import opened Wrappers
  import opened Targets
  import opened UriCache
  import opened ErrorCache
  import opened FanOut
  import opened GiverService

  /** A JavaScript exception: an unbound name, or a property read on `undefined`. */
  datatype JsError = ReferenceError(name: string) | TypeError(property: string)

  /**
   * How a run of `handle_req` and its event listeners ends: normally, or by
   * the first exception. Either way, the replies the caller got before it.
   */
  datatype Outcome = Completed(replies: seq<Reply>) | Threw(replies: seq<Reply>, error: JsError)

  /** The fields `handle_req` reads through `this`. */
  datatype Service = Service(registerPath: string, mappings: Mappings)

  /**
   * How the handler's text is read: the free names that resolve, and
   * whether the 'No map' branch returns.
   */
  datatype Reading = Reading(names: set<string>, returnsAfterNoMap: bool)

  /**
   * The free names the handler and its listeners use: `handle_register`
   * (line 84), `req` (lines 86, 108, 118, 123), `endpoint` (line 114),
   * `outgoings` (lines 125, 133) and `res` (line 138).
   */
  const HandlerNames: set<string> := {"handle_register", "req", "endpoint", "outgoings", "res"}

  /** The text as written: none of those names is declared, and 'No map' falls through. */
  const AsWrittenText: Reading := Reading({}, false)

  /** The text as evidently meant: every name denotes what the surrounding code builds, and 'No map' returns. */
  const IntendedText: Reading := Reading(HandlerNames, true)

  /** The lookup of line 86: the sink list, or None (`undefined`) for an unmapped path. */
  function Lookup(mappings: Mappings, path: string): Option<seq<string>> {
    if path in mappings then Some(mappings[path]) else None
  }

  /**
   * `handle_req` with `this` bound to `self` (None when the web framework
   * calls it unbound, line 69), followed by the request's `readable` and
   * `end` listeners, one step of the code at a time.
   */
  function HandleReqRun(self: Option<Service>, text: Reading, request: Request): Outcome {
    match self
    case None =>
      // line 83 reads `register_path` from `undefined`
      Threw([], TypeError("register_path"))
    case Some(s) =>
      if request.path == s.registerPath then
        // line 84: the registration stub does nothing
        if "handle_register" in text.names then Completed([]) else Threw([], ReferenceError("handle_register"))
      else if "req" !in text.names then
        Threw([], ReferenceError("req"))
      else
        var mapping := Lookup(s.mappings, request.path);
        // lines 87-89
        var replied := if mapping.None? then [NoMap] else [];
        if mapping.None? && text.returnsAfterNoMap then Completed(replied)
        // line 92 calls `map` on `undefined`
        else if mapping.None? then Threw(replied, TypeError("map"))
        // the listeners at lines 122-139
        else if "outgoings" !in text.names then Threw([], ReferenceError("outgoings"))
        else if "res" !in text.names then Threw([], ReferenceError("res"))
        else Completed([Status(200)])
  }

  /**
   * The intended reading on each route: the register route replies nothing,
   * an unmapped path gets 'No map' only, and a mapped path gets 200; these are
   * the replies `GiverService.Giver.HandleReq` sends on the route it takes.
   */
  lemma IntendedRoutes(s: Service, request: Request)
    ensures HandleReqRun(Some(s), IntendedText, request)
      == Completed(RepliesFor(RouteOf(request.path, s.registerPath, s.mappings)))
    ensures request.path == s.registerPath ==> HandleReqRun(Some(s), IntendedText, request) == Completed([])
    ensures request.path != s.registerPath && request.path !in s.mappings ==>
      HandleReqRun(Some(s), IntendedText, request) == Completed([NoMap])
    ensures request.path != s.registerPath && request.path in s.mappings ==>
      HandleReqRun(Some(s), IntendedText, request) == Completed([Status(200)])
  {
  }

  /**
   * Line 69: run unbound, the handler throws at line 83 before any reply,
   * however its text is read, while the bound handler completes on every route.
   */
  lemma UnboundHandlerServesNothing(s: Service, text: Reading, request: Request)
    ensures HandleReqRun(None, text, request) == Threw([], TypeError("register_path"))
    ensures HandleReqRun(Some(s), IntendedText, request).Completed?
  {
  }

  /**
   * Lines 84 and 86: bound but with the names as written, the register route
   * throws at the bare `handle_register` and every other route at `req`,
   * before any reply; the intended reading completes on both.
   */
  lemma UndeclaredNamesThrow(s: Service, request: Request)
    ensures request.path == s.registerPath ==>
      HandleReqRun(Some(s), AsWrittenText, request) == Threw([], ReferenceError("handle_register"))
    ensures request.path != s.registerPath ==>
      HandleReqRun(Some(s), AsWrittenText, request) == Threw([], ReferenceError("req"))
    ensures HandleReqRun(Some(s), IntendedText, request).Completed?
  {
  }

  /**
   * Lines 87-89: with every name resolved but no `return`, an unmapped path
   * is answered 'No map' and then throws at line 92; with the `return` it
   * completes after that same reply. Mapped and register paths are unaffected.
   */
  lemma UnmappedRequestThrowsAfterReply(s: Service, request: Request)
    ensures request.path != s.registerPath && request.path !in s.mappings ==>
      && HandleReqRun(Some(s), Reading(HandlerNames, false), request) == Threw([NoMap], TypeError("map"))
      && HandleReqRun(Some(s), IntendedText, request) == Completed([NoMap])
    ensures request.path == s.registerPath || request.path in s.mappings ==>
      HandleReqRun(Some(s), Reading(HandlerNames, false), request) == HandleReqRun(Some(s), IntendedText, request)
  {
  }

  /**
   * What `this` is inside the outbound `error` listener: the outbound request
   * for the `function` listener of lines 113-116, the service had it been an
   * arrow function like the others.
   */
  datatype ListenerThis = OutboundRequest | TheService

  /**
   * The `error` listener on one error, returning the counters and the
   * exception it throws, if any. Line 114 first reads `this.logger.warn`: on
   * the outbound request `logger` is undefined, so it throws before its
   * argument is evaluated. On the service the argument reads `endpoint`,
   * which throws unless that name resolves. Only then does line 115 count.
   */
  function OnOutgoingErrorRun(self: ListenerThis, text: Reading, counts: Counts, sink: string): (Counts, Option<JsError>) {
    match self
    case OutboundRequest => (counts, Some(TypeError("warn")))
    case TheService =>
      if "endpoint" !in text.names then (counts, Some(ReferenceError("endpoint")))
      else (Increment(counts, sink), None)
  }

  /**
   * A series of outbound errors, within one worker process, each handled by
   * the listener with the given `this`: the first exception escapes uncaught
   * and ends the process, so no later error is handled.
   */
  function AfterErrorsRun(self: ListenerThis, text: Reading, counts: Counts, errors: seq<string>): (Counts, Option<JsError>) {
    if errors == [] then (counts, None)
    else
      var before := AfterErrorsRun(self, text, counts, errors[..|errors| - 1]);
      if before.1.Some? then before
      else OnOutgoingErrorRun(self, text, before.0, errors[|errors| - 1])
  }

  /**
   * As written, the first error throws at `warn` and nothing is counted;
   * however the names are read, no counter ever moves.
   */
  lemma {:induction false} AsWrittenUnchanged(text: Reading, counts: Counts, errors: seq<string>)
    ensures AfterErrorsRun(OutboundRequest, text, counts, errors)
      == (counts, if errors == [] then None else Some(TypeError("warn")))
  {
    if |errors| > 1 {
      AsWrittenUnchanged(text, counts, errors[..|errors| - 1]);
    } else if |errors| == 1 {
      assert errors[..0] == [];
    }
  }

  /**
   * Line 114: with `this` the service but `endpoint` undeclared, the first
   * error still throws, now at `endpoint`, and nothing is counted.
   */
  lemma {:induction false} UndeclaredEndpointThrows(text: Reading, counts: Counts, errors: seq<string>)
    requires "endpoint" !in text.names
    ensures AfterErrorsRun(TheService, text, counts, errors)
      == (counts, if errors == [] then None else Some(ReferenceError("endpoint")))
  {
    if |errors| > 1 {
      UndeclaredEndpointThrows(text, counts, errors[..|errors| - 1]);
    } else if |errors| == 1 {
      assert errors[..0] == [];
    }
  }

  /**
   * With `this` the service and `endpoint` resolved, the listener never
   * throws and counts exactly as the intended increment does.
   */
  lemma {:induction false} ServiceListenerCounts(text: Reading, counts: Counts, errors: seq<string>)
    requires "endpoint" in text.names
    ensures AfterErrorsRun(TheService, text, counts, errors) == (AfterErrors(counts, errors), None)
  {
    if errors != [] {
      ServiceListenerCounts(text, counts, errors[..|errors| - 1]);
    }
  }

  /**
   * As written the counters never move, while the intended listener counts
   * every error: the two disagree on every sink that has erred at least once.
   */
  lemma ErrorsNeverCounted(counts: Counts, errors: seq<string>, sink: string)
    requires sink in errors
    ensures AfterErrorsRun(OutboundRequest, AsWrittenText, counts, errors) == (counts, Some(TypeError("warn")))
    ensures AfterErrorsRun(TheService, IntendedText, counts, errors).1 == None
    ensures CountOf(AfterErrorsRun(TheService, IntendedText, counts, errors).0, sink)
      == CountOf(AfterErrorsRun(OutboundRequest, AsWrittenText, counts, errors).0, sink) + multiset(errors)[sink]
    ensures CountOf(AfterErrorsRun(TheService, IntendedText, counts, errors).0, sink)
      > CountOf(AfterErrorsRun(OutboundRequest, AsWrittenText, counts, errors).0, sink)
  {
    AsWrittenUnchanged(AsWrittenText, counts, errors);
    ServiceListenerCounts(IntendedText, counts, errors);
    AfterErrorsCounts(counts, errors, sink);
  }
}
