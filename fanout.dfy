/**
 * The streaming half of `handle_req` in lib/giver.js, for one request whose
 * events are given: readable events, each yielding one read (a chunk or
 * nothing), followed by the end event. Each outbound request is a record of
 * the chunks written to it and of how many chunks it had received at each of
 * its `end` calls; each reply sent to the caller records how far every stream
 * had been ended when it went out.
 */
module FanOut {
  import opened Wrappers
  import opened Targets

  type Chunk = seq<bv8>

  /** A reply to the inbound caller. */
  datatype Reply = NoMap | Status(code: int)

  /**
   * One outbound request stream: the options it was opened with, what was
   * written to it, in order, and for each of its `end` calls, in order, how
   * many chunks had been written when it came.
   */
  datatype Outbound = Outbound(options: Options, written: seq<Chunk>, endedAfter: seq<nat>)

  /** One slot per sink: the options of its outbound stream, or None where the source has `null`. */
  type Plan = seq<Option<Options>>

  /** The per-sink outbound streams, None in a `null` slot. */
  type Outgoings = seq<Option<Outbound>>

  /** A reply as it went out, with each slot's end count at that moment (0 for a `null` slot). */
  datatype Sent = Sent(reply: Reply, endsAtSend: seq<nat>)

  /** The state of one request: its outbound streams and the replies sent to the caller so far, in order. */
  datatype Exchange = Exchange(outgoings: Outgoings, replies: seq<Sent>)

  /** What one read hands on: its chunk, or nothing when `read()` returns null. */
  function ChunksOf(read: Option<Chunk>): seq<Chunk> {
    match read
    case Some(c) => [c]
    case None => []
  }

  /** The truthy reads, in order: the chunks the caller sent. */
  function Present(inbound: seq<Option<Chunk>>): seq<Chunk> {
    if inbound == [] then [] else Present(inbound[..|inbound| - 1]) + ChunksOf(inbound[|inbound| - 1])
  }

  /**
   * Every slot follows the plan: a live slot holds a stream opened with the
   * slot's options that has received exactly `body` and whose `end` calls
   * came after `ends[0]`, `ends[1]`, ... chunks; a `null` slot holds no stream.
   */
  predicate Carries(plan: Plan, outgoings: Outgoings, body: seq<Chunk>, ends: seq<nat>) {
    && |outgoings| == |plan|
    && forall k :: 0 <= k < |plan| ==>
         outgoings[k] == (if plan[k].Some? then Some(Outbound(plan[k].value, body, ends)) else None)
  }

  /** The end count of every slot, 0 for a `null` slot. */
  function EndCounts(outgoings: Outgoings): (r: seq<nat>)
    ensures |r| == |outgoings|
    ensures forall k :: 0 <= k < |outgoings| ==> r[k] == (if outgoings[k].Some? then |outgoings[k].value.endedAfter| else 0)
  {
    seq(|outgoings|, k requires 0 <= k < |outgoings| => if outgoings[k].Some? then |outgoings[k].value.endedAfter| else 0)
  }

  /** `response.send` or `sendStatus`: the reply goes out and records the streams' end counts at that moment. */
  function Send(ex: Exchange, reply: Reply): (r: Exchange)
    ensures r.outgoings == ex.outgoings
    ensures r.replies == ex.replies + [Sent(reply, EndCounts(ex.outgoings))]
  {
    ex.(replies := ex.replies + [Sent(reply, EndCounts(ex.outgoings))])
  }

  /** When the reply went out, every live stream of the plan had been ended exactly once. */
  predicate SentAfterEnds(plan: Plan, s: Sent) {
    && |s.endsAtSend| == |plan|
    && forall k :: 0 <= k < |plan| && plan[k].Some? ==> s.endsAtSend[k] == 1
  }

  /** The replies as the caller sees them. */
  function Replies(ex: Exchange): (r: seq<Reply>)
    ensures |r| == |ex.replies|
    ensures forall i :: 0 <= i < |r| ==> r[i] == ex.replies[i].reply
  {
    seq(|ex.replies|, i requires 0 <= i < |ex.replies| => ex.replies[i].reply)
  }

  /** The outbound requests that `mapping.map` opens: one per live slot, nothing written, not ended. */
  function Open(plan: Plan): (outgoings: Outgoings)
    ensures Carries(plan, outgoings, [], [])
  {
    seq(|plan|, k requires 0 <= k < |plan| => if plan[k].Some? then Some(Outbound(plan[k].value, [], [])) else None)
  }

  /** `outgoing.write` of each of `chunks` on one slot; a `null` slot is skipped. */
  function WriteTo(slot: Option<Outbound>, chunks: seq<Chunk>): Option<Outbound> {
    match slot
    case Some(o) => Some(o.(written := o.written + chunks))
    case None => None
  }

  /** `outgoing.end` on one slot, noting how many chunks it has received; a `null` slot is skipped. */
  function EndOf(slot: Option<Outbound>): Option<Outbound> {
    match slot
    case Some(o) => Some(o.(endedAfter := o.endedAfter + [|o.written|]))
    case None => None
  }

  /** Every slot after writing `chunks` to each stream. */
  function Written(outgoings: Outgoings, chunks: seq<Chunk>): (r: Outgoings)
    ensures |r| == |outgoings|
  {
    seq(|outgoings|, k requires 0 <= k < |outgoings| => WriteTo(outgoings[k], chunks))
  }

  /** Every slot after ending each stream. */
  function Ended(outgoings: Outgoings): (r: Outgoings)
    ensures |r| == |outgoings|
  {
    seq(|outgoings|, k requires 0 <= k < |outgoings| => EndOf(outgoings[k]))
  }

  /** Writing to streams that carry `body` makes them carry `body` followed by the chunks; nothing is ended. */
  lemma WrittenCarries(plan: Plan, outgoings: Outgoings, body: seq<Chunk>, ends: seq<nat>, chunks: seq<Chunk>)
    requires Carries(plan, outgoings, body, ends)
    ensures Carries(plan, Written(outgoings, chunks), body + chunks, ends)
  {
  }

  /** Streams that have each been ended once show one end at every live slot when a reply goes out. */
  lemma SentCarries(plan: Plan, outgoings: Outgoings, body: seq<Chunk>, ends: seq<nat>, reply: Reply)
    requires Carries(plan, outgoings, body, ends) && |ends| == 1
    ensures SentAfterEnds(plan, Sent(reply, EndCounts(outgoings)))
  {
  }

  /** Ending every stream once adds to each an end that comes after all of `body`, and changes nothing written. */
  lemma EndedCarries(plan: Plan, outgoings: Outgoings, body: seq<Chunk>, ends: seq<nat>)
    requires Carries(plan, outgoings, body, ends)
    ensures Carries(plan, Ended(outgoings), body, ends + [|body|])
  {
  }

  /** A stream's slot in the plan decides whether writing reaches it: `null` slots receive nothing. */
  lemma WrittenSlots(outgoings: Outgoings, chunks: seq<Chunk>, k: nat)
    requires k < |outgoings|
    ensures Written(outgoings, chunks)[k].Some? <==> outgoings[k].Some?
    ensures outgoings[k].Some? ==> Written(outgoings, chunks)[k].value.written == outgoings[k].value.written + chunks
    ensures outgoings[k].Some? ==> Written(outgoings, chunks)[k].value.endedAfter == outgoings[k].value.endedAfter
  {
  }

  /** Writing no chunks leaves every stream as it was. */
  lemma WrittenNothing(outgoings: Outgoings)
    ensures Written(outgoings, []) == outgoings
  {
    forall k | 0 <= k < |outgoings|
      ensures Written(outgoings, [])[k] == outgoings[k]
    {
      if outgoings[k].Some? {
        assert outgoings[k].value.written + [] == outgoings[k].value.written;
      }
    }
  }

  /** The chunks sent are the truthy reads, in order and nothing else. */
  lemma {:induction false} PresentReads(inbound: seq<Option<Chunk>>)
    ensures |Present(inbound)| <= |inbound|
    ensures forall c :: c in Present(inbound) <==> Some(c) in inbound
  {
    if inbound != [] {
      var init := inbound[..|inbound| - 1];
      PresentReads(init);
      assert inbound == init + [inbound[|inbound| - 1]];
      forall c
        ensures c in Present(inbound) <==> Some(c) in inbound
      {
        assert c in Present(inbound) <==> c in Present(init) || c in ChunksOf(inbound[|inbound| - 1]);
        assert Some(c) in inbound <==> Some(c) in init || Some(c) == inbound[|inbound| - 1];
      }
    }
  }

  /** Reading one more event adds its chunk, if any, to what was sent. */
  lemma PresentStep(inbound: seq<Option<Chunk>>, r: nat)
    requires r < |inbound|
    ensures Present(inbound[..r + 1]) == Present(inbound[..r]) + ChunksOf(inbound[r])
  {
    assert inbound[..r + 1][..r] == inbound[..r];
  }

  /** The `readable` handler: a truthy chunk goes to every outbound stream, in slot order; an empty read does nothing. */
  method ReadableHandler(ex: Exchange, read: Option<Chunk>) returns (after: Exchange)
    ensures after == Exchange(Written(ex.outgoings, ChunksOf(read)), ex.replies)
  {
    after := ex;
    match read
    case Some(chunk) =>
      for k := 0 to |ex.outgoings|
        invariant after.replies == ex.replies && |after.outgoings| == |ex.outgoings|
        invariant forall j :: 0 <= j < k ==> after.outgoings[j] == WriteTo(ex.outgoings[j], [chunk])
        invariant forall j :: k <= j < |ex.outgoings| ==> after.outgoings[j] == ex.outgoings[j]
      {
        if after.outgoings[k].Some? {
          var o := after.outgoings[k].value;
          after := after.(outgoings := after.outgoings[k := Some(o.(written := o.written + [chunk]))]);
        }
      }
    case None =>
      WrittenNothing(ex.outgoings);
  }

  /**
   * The `end` handler: end every outbound stream in slot order, then reply
   * 200; the reply records each stream's end count as it was when it went out.
   */
  method EndHandler(ex: Exchange) returns (after: Exchange)
    ensures after.outgoings == Ended(ex.outgoings)
    ensures after.replies == ex.replies + [Sent(Status(200), EndCounts(Ended(ex.outgoings)))]
  {
    after := ex;
    for k := 0 to |ex.outgoings|
      invariant after.replies == ex.replies && |after.outgoings| == |ex.outgoings|
      invariant forall j :: 0 <= j < k ==> after.outgoings[j] == EndOf(ex.outgoings[j])
      invariant forall j :: k <= j < |ex.outgoings| ==> after.outgoings[j] == ex.outgoings[j]
    {
      if after.outgoings[k].Some? {
        var o := after.outgoings[k].value;
        after := after.(outgoings := after.outgoings[k := Some(o.(endedAfter := o.endedAfter + [|o.written|]))]);
      }
    }
    after := Send(after, Status(200));
  }

  /**
   * Both handlers over one request's events: every readable event in order,
   * then the end event. Every live stream receives exactly the caller's
   * chunks, in order, and is ended once, after the last of them; a `null`
   * slot has no stream; and
   * exactly one reply goes out, 200, at a moment when every live stream had
   * already been ended.
   */
  method StreamRequest(plan: Plan, inbound: seq<Option<Chunk>>) returns (ex: Exchange)
    ensures Carries(plan, ex.outgoings, Present(inbound), [|Present(inbound)|])
    ensures |ex.replies| == 1 && ex.replies[0].reply == Status(200)
    ensures SentAfterEnds(plan, ex.replies[0])
  {
    ex := Exchange(Open(plan), []);
    for r := 0 to |inbound|
      invariant Carries(plan, ex.outgoings, Present(inbound[..r]), [])
      invariant ex.replies == []
    {
      PresentStep(inbound, r);
      WrittenCarries(plan, ex.outgoings, Present(inbound[..r]), [], ChunksOf(inbound[r]));
      ex := ReadableHandler(ex, inbound[r]);
    }
    assert inbound[..|inbound|] == inbound;
    EndedCarries(plan, ex.outgoings, Present(inbound), []);
    assert [] + [|Present(inbound)|] == [|Present(inbound)|];
    SentCarries(plan, Ended(ex.outgoings), Present(inbound), [|Present(inbound)|], Status(200));
    ex := EndHandler(ex);
  }
}
