/** Stand-ins for the transport the client runs on: a connection to one node
    and the endpoint that leases it. Their implementation (pool, node
    rotation, retry loop, wire framing) is not part of this model; what the
    client relies on is their contract: a request is written to the leased
    connection, a multi-frame read stops as soon as the caller's repeat
    predicate says so, and every lease is handed back exactly once. */
module Transport {
  import opened Clr
  import opened RiakResults
  import opened Models

  /** One encoded wire message: opcode and opaque payload. */
  datatype Message = Message(code: bv8, payload: seq<bv8>)

  // ---------------------------------------------------------------- multi-frame reads

  /** The frame results decoded one by one; a failed frame stays a failure. */
  function DecodeFrames<F>(frames: seq<RiakResult<Message>>, decode: Message -> F): (r: seq<RiakResult<F>>)
    ensures |r| == |frames|
    ensures forall i :: 0 <= i < |r| ==> r[i] == frames[i].Map(decode)
  {
    seq(|frames|, i requires 0 <= i < |frames| => frames[i].Map(decode))
  }

  /** The frames a multi-frame read consumes from what the node sends: each
      frame is read, and reading goes on exactly while `repeatRead` holds of
      the frame just read and more frames are available. */
  function FramesRead<F>(available: seq<RiakResult<F>>, repeatRead: RiakResult<F> -> bool): (r: seq<RiakResult<F>>)
    ensures |r| <= |available|
    ensures available != [] ==> r != [] && r[0] == available[0]
  {
    if available == [] then []
    else if repeatRead(available[0]) then [available[0]] + FramesRead(available[1..], repeatRead)
    else [available[0]]
  }

  /** What a multi-frame read consumes: a prefix of what was sent, never
      nothing when something was sent; every frame but the last asked for
      more, and the last one stopped the read unless nothing was left. */
  lemma {:induction false} FramesReadShape<F>(available: seq<RiakResult<F>>, repeatRead: RiakResult<F> -> bool)
    ensures var r := FramesRead(available, repeatRead);
            && |r| <= |available| && r == available[..|r|]
            && (available != [] ==> r != [])
            && (forall i :: 0 <= i < |r| - 1 ==> repeatRead(r[i]))
            && (|r| < |available| ==> !repeatRead(r[|r| - 1]))
            && (r != [] && repeatRead(r[|r| - 1]) ==> r == available)
  {
    if available != [] && repeatRead(available[0]) {
      FramesReadShape(available[1..], repeatRead);
      var rest := FramesRead(available[1..], repeatRead);
      assert FramesRead(available, repeatRead) == [available[0]] + rest;
      assert available == [available[0]] + available[1..];
    }
  }

  /** The read loop of a multi-frame request over the frames the node sends. */
  method ReadFrames<F>(available: seq<RiakResult<F>>, repeatRead: RiakResult<F> -> bool) returns (read: seq<RiakResult<F>>)
    ensures read == FramesRead(available, repeatRead)
  {
    read := [];
    var rest := available;
    while rest != []
      invariant available == read + rest
      invariant FramesRead(available, repeatRead) == read + FramesRead(rest, repeatRead)
      decreases |rest|
    {
      var frame := rest[0];
      assert FramesRead(rest, repeatRead) == [frame] + (if repeatRead(frame) then FramesRead(rest[1..], repeatRead) else []);
      read := read + [frame];
      if !repeatRead(frame) {
        return;
      }
      rest := rest[1..];
    }
  }

  /** A repeat predicate over decoded frames, applied to raw frames. */
  function OnDecoded<F>(repeatRead: RiakResult<F> -> bool, decode: Message -> F): RiakResult<Message> -> bool
  {
    (frame: RiakResult<Message>) => repeatRead(frame.Map(decode))
  }

  /** Testing each frame after decoding it reads the same frames as decoding
      what was read under the decoded predicate. */
  lemma {:induction false} DecodeCommutesWithRead<F>(available: seq<RiakResult<Message>>, decode: Message -> F,
                                                     repeatRead: RiakResult<F> -> bool)
    ensures DecodeFrames(FramesRead(available, OnDecoded(repeatRead, decode)), decode)
            == FramesRead(DecodeFrames(available, decode), repeatRead)
  {
    if available != [] {
      DecodeCommutesWithRead(available[1..], decode, repeatRead);
      assert DecodeFrames(available, decode)[1..] == DecodeFrames(available[1..], decode);
      assert DecodeFrames(available, decode)[0] == available[0].Map(decode);
      var rest := FramesRead(available[1..], OnDecoded(repeatRead, decode));
      assert DecodeFrames([available[0]] + rest, decode) == [available[0].Map(decode)] + DecodeFrames(rest, decode);
      assert DecodeFrames([available[0]], decode) == [available[0].Map(decode)];
    }
  }

  /** What a multi-frame request yields: the node's failure to answer, or
      the frames read under `repeatRead`. */
  function FramesResult(sent: RiakResult<seq<RiakResult<Message>>>, repeatRead: RiakResult<Message> -> bool)
    : (r: RiakResult<seq<RiakResult<Message>>>)
    ensures r.IsSuccess() == sent.IsSuccess()
    ensures sent.Error? ==> r == sent.PropagateError()
    ensures r.Ok? ==> r.value == FramesRead(sent.value, repeatRead) && r.done.None? && r.continuation.None?
  {
    match sent
    case Error(c, m, o) => Error(c, m, o)
    case Ok(frames, _, _) => SuccessOf(FramesRead(frames, repeatRead))
  }

  // ---------------------------------------------------------------- operations on a connection

  /** An operation the client hands to `UseConnection`. */
  datatype Op =
    | WriteRead(request: Message)                   // conn.PbcWriteRead(request)
    | WriteReadEach(requests: seq<Message>)         // one PbcWriteRead per request, collected into one success
    | WriteReadFrames(request: Message, repeatRead: RiakResult<Message> -> bool)  // PbcWriteRead(request, repeatRead)
    | Rest(request: Message)                        // conn.RestRequest(request)

  /** What an operation yields, by kind of operation. */
  datatype Answer =
    | Single(result: RiakResult<Message>)
    | Many(results: RiakResult<seq<RiakResult<Message>>>)
    | RestAnswer(response: RiakResult<RiakRestResponse>)

  /** The messages an operation writes, in order. */
  function Requests(op: Op): (r: seq<Message>)
    ensures op.WriteReadEach? ==> r == op.requests
    ensures !op.WriteReadEach? ==> r == [op.request]
  {
    if op.WriteReadEach? then op.requests else [op.request]
  }

  /** The messages a list of operations writes, in order. */
  function AllRequests(ops: seq<Op>): seq<Message>
  {
    if ops == [] then [] else AllRequests(ops[..|ops| - 1]) + Requests(ops[|ops| - 1])
  }

  /** The answer of the right kind carrying a failure. */
  function Failed(op: Op, failure: RiakResult<()>): (a: Answer)
    requires failure.Error?
    ensures op.WriteRead? <==> a.Single?
    ensures op.Rest? <==> a.RestAnswer?
    ensures a.Single? ==> a.result == failure.PropagateError()
    ensures a.Many? ==> a.results == failure.PropagateError()
    ensures a.RestAnswer? ==> a.response == failure.PropagateError()
  {
    match op
    case WriteRead(_) => Single(failure.PropagateError())
    case WriteReadEach(_) => Many(failure.PropagateError())
    case WriteReadFrames(_, _) => Many(failure.PropagateError())
    case Rest(_) => RestAnswer(failure.PropagateError())
  }

  /** A connection to one node. What the node answers is fixed by `reply`
      (one response), `stream` (the frames of a multi-frame answer) and
      `rest` (an HTTP answer); `sent` records the requests written, in order. */
  class Connection {
    const reply: Message -> RiakResult<Message>
    const stream: Message -> RiakResult<seq<RiakResult<Message>>>
    const rest: Message -> RiakResult<RiakRestResponse>
    var sent: seq<Message>

    constructor (reply: Message -> RiakResult<Message>, stream: Message -> RiakResult<seq<RiakResult<Message>>>,
                 rest: Message -> RiakResult<RiakRestResponse>)
      ensures this.reply == reply && this.stream == stream && this.rest == rest && sent == []
    {
      this.reply := reply;
      this.stream := stream;
      this.rest := rest;
      sent := [];
    }

    /** What this connection answers to an operation. */
    function Answer(op: Op): (a: Answer)
      ensures op.WriteRead? ==> a == Single(reply(op.request))
      ensures op.WriteReadEach? ==> a.Many? && a.results.Ok? && |a.results.value| == |op.requests|
                                    && forall i :: 0 <= i < |op.requests| ==> a.results.value[i] == reply(op.requests[i])
      ensures op.WriteReadFrames? ==> a == Many(FramesResult(stream(op.request), op.repeatRead))
      ensures op.Rest? ==> a == RestAnswer(rest(op.request))
    {
      match op
      case WriteRead(request) => Single(reply(request))
      case WriteReadEach(requests) =>
        Many(SuccessOf(seq(|requests|, i requires 0 <= i < |requests| => reply(requests[i]))))
      case WriteReadFrames(request, repeatRead) => Many(FramesResult(stream(request), repeatRead))
      case Rest(request) => RestAnswer(rest(request))
    }

    /** What this connection answers to each of a list of operations. */
    function Answers(ops: seq<Op>): (r: seq<Answer>)
      ensures |r| == |ops| && forall i :: 0 <= i < |ops| ==> r[i] == Answer(ops[i])
    {
      seq(|ops|, i requires 0 <= i < |ops| => Answer(ops[i]))
    }

    /** `PbcWriteRead(request)`: one request, one response. */
    method PbcWriteRead(request: Message) returns (r: RiakResult<Message>)
      modifies this
      ensures sent == old(sent) + [request]
      ensures r == reply(request)
    {
      sent := sent + [request];
      r := reply(request);
    }

    /** One `PbcWriteRead` per request, in order, collected into one success. */
    method PbcWriteReadEach(requests: seq<Message>) returns (r: RiakResult<seq<RiakResult<Message>>>)
      modifies this
      ensures sent == old(sent) + requests
      ensures Many(r) == Answer(WriteReadEach(requests))
    {
      var responses: seq<RiakResult<Message>> := [];
      var i := 0;
      while i < |requests|
        invariant 0 <= i <= |requests|
        invariant sent == old(sent) + requests[..i]
        invariant |responses| == i && forall k :: 0 <= k < i ==> responses[k] == reply(requests[k])
      {
        var response := PbcWriteRead(requests[i]);
        responses := responses + [response];
        assert requests[..i + 1] == requests[..i] + [requests[i]];
        i := i + 1;
      }
      assert requests[..i] == requests;
      assert responses == seq(|requests|, k requires 0 <= k < |requests| => reply(requests[k]));
      r := SuccessOf(responses);
    }

    /** `PbcWriteRead(request, repeatRead)`: one request, frames read while
        `repeatRead` holds. */
    method PbcWriteReadFrames(request: Message, repeatRead: RiakResult<Message> -> bool)
      returns (r: RiakResult<seq<RiakResult<Message>>>)
      modifies this
      ensures sent == old(sent) + [request]
      ensures r == FramesResult(stream(request), repeatRead)
    {
      sent := sent + [request];
      var answer := stream(request);
      if answer.Error? {
        r := answer.PropagateError();
      } else {
        var frames := ReadFrames(answer.value, repeatRead);
        r := SuccessOf(frames);
      }
    }

    /** `RestRequest(request)`. */
    method RestRequest(request: Message) returns (r: RiakResult<RiakRestResponse>)
      modifies this
      ensures sent == old(sent) + [request]
      ensures r == rest(request)
    {
      sent := sent + [request];
      r := rest(request);
    }

    /** Runs an operation on this connection. */
    method Run(op: Op) returns (a: Answer)
      modifies this
      ensures sent == old(sent) + Requests(op)
      ensures a == Answer(op)
    {
      match op
      case WriteRead(request) =>
        var r := PbcWriteRead(request);
        a := Single(r);
      case WriteReadEach(requests) =>
        var r := PbcWriteReadEach(requests);
        a := Many(r);
      case WriteReadFrames(request, repeatRead) =>
        var r := PbcWriteReadFrames(request, repeatRead);
        a := Many(r);
      case Rest(request) =>
        var r := RestRequest(request);
        a := RestAnswer(r);
    }

    /** `PbcWriteStreamRead(request, repeatRead, onFinish)`: like the
        multi-frame read, and `onFinish` is invoked once when reading ends. */
    method PbcWriteStreamRead(request: Message, repeatRead: RiakResult<Message> -> bool, onFinish: Completion)
      returns (r: RiakResult<seq<RiakResult<Message>>>)
      requires onFinish.ReleaseLease? ==> onFinish.endPoint.Valid() && onFinish.endPoint.leased
      modifies this, onFinish.Footprint()
      ensures sent == old(sent) + [request]
      ensures r == FramesResult(stream(request), repeatRead)
      ensures onFinish.ReleaseLease? ==> onFinish.endPoint.Released(old(onFinish.endPoint.releases),
                                                                    old(onFinish.endPoint.acquisitions),
                                                                    old(onFinish.endPoint.calls))
    {
      r := PbcWriteReadFrames(request, repeatRead);
      Complete(onFinish);
    }
  }

  // ---------------------------------------------------------------- the endpoint

  /** How the endpoint was asked to run an operation: with an immediate
      lease (`UseConnection`) or a delayed one (`UseDelayedConnection`), and
      with which retry budget. */
  datatype EndPointCall = Immediate(retryCount: int) | Delayed(retryCount: int)

  /** The failure the endpoint reports when its pool is exhausted. */
  const PoolExhausted: RiakResult<()> := Error(NoConnections, "Unable to acquire connection", false)

  /** A cluster endpoint reduced to one pooled connection, shared by every
      client built on it. `leased` says whether the connection is out;
      `calls` records every request for a lease. */
  class EndPoint {
    const conn: Connection
    var leased: bool
    var acquisitions: nat
    var releases: nat
    var calls: seq<EndPointCall>

    /** Every lease handed out has been given back, except the one that is out. */
    ghost predicate Valid()
      reads this
    {
      acquisitions == releases + (if leased then 1 else 0)
    }

    /** The lease was just given back, once, and nothing else changed. */
    ghost predicate Released(releases0: nat, acquisitions0: nat, calls0: seq<EndPointCall>)
      reads this
    {
      Valid() && !leased && releases == releases0 + 1 && acquisitions == acquisitions0 && calls == calls0
    }

    constructor (conn: Connection)
      ensures Valid() && this.conn == conn
      ensures !leased && acquisitions == 0 && releases == 0 && calls == []
    {
      this.conn := conn;
      leased := false;
      acquisitions, releases := 0, 0;
      calls := [];
    }

    /** Leases the connection if it is not already out. */
    method Acquire(call: EndPointCall) returns (acquired: bool)
      requires Valid()
      modifies this
      ensures Valid() && leased
      ensures acquired == !old(leased)
      ensures calls == old(calls) + [call]
      ensures acquisitions == old(acquisitions) + (if acquired then 1 else 0)
      ensures releases == old(releases)
    {
      calls := calls + [call];
      acquired := !leased;
      if acquired {
        leased := true;
        acquisitions := acquisitions + 1;
      }
    }

    /** Gives the lease back. */
    method Release()
      requires Valid() && leased
      modifies this
      ensures Released(old(releases), old(acquisitions), old(calls))
    {
      leased := false;
      releases := releases + 1;
    }

    /** `UseConnection(op, retryCount)`: runs `op` on a leased connection and
        gives the lease back; with the pool exhausted, `op` does not run. */
    method UseConnection(op: Op, retryCount: int) returns (a: Answer)
      requires Valid()
      modifies this, conn
      ensures Valid() && leased == old(leased)
      ensures calls == old(calls) + [Immediate(retryCount)]
      ensures old(leased) ==> a == Failed(op, PoolExhausted) && conn.sent == old(conn.sent)
                              && acquisitions == old(acquisitions) && releases == old(releases)
      ensures !old(leased) ==> a == conn.Answer(op) && conn.sent == old(conn.sent) + Requests(op)
                               && acquisitions == old(acquisitions) + 1 && releases == old(releases) + 1
    {
      var acquired := Acquire(Immediate(retryCount));
      if acquired {
        a := conn.Run(op);
        Release();
      } else {
        a := Failed(op, PoolExhausted);
      }
    }

    /** `UseDelayedConnection(op, retryCount)` for a streamed read: leases
        the connection and hands the read the lease's release as its
        completion, so the lease comes back when reading ends; with the pool
        exhausted the read does not run. */
    method UseDelayedConnection(request: Message, repeatRead: RiakResult<Message> -> bool, retryCount: int)
      returns (r: RiakResult<seq<RiakResult<Message>>>)
      requires Valid()
      modifies this, conn
      ensures Valid() && leased == old(leased)
      ensures calls == old(calls) + [Delayed(retryCount)]
      ensures old(leased) ==> r == PoolExhausted.PropagateError() && conn.sent == old(conn.sent)
                              && acquisitions == old(acquisitions) && releases == old(releases)
      ensures !old(leased) ==> r == FramesResult(conn.stream(request), repeatRead)
                               && conn.sent == old(conn.sent) + [request]
                               && acquisitions == old(acquisitions) + 1 && releases == old(releases) + 1
    {
      var acquired := Acquire(Delayed(retryCount));
      if acquired {
        r := conn.PbcWriteStreamRead(request, repeatRead, ReleaseLease(this));
      } else {
        r := PoolExhausted.PropagateError();
      }
    }
  }

  /** A completion callback (`Action onFinish`): the endpoint's release of a
      delayed lease, or the no-op a batch-scoped client passes. */
  datatype Completion = NoOp | ReleaseLease(endPoint: EndPoint)
  {
    /** What invoking the callback may change. */
    function Footprint(): set<object>
    {
      if ReleaseLease? then {endPoint} else {}
    }
  }

  /** Invokes a completion callback. */
  method Complete(onFinish: Completion)
    requires onFinish.ReleaseLease? ==> onFinish.endPoint.Valid() && onFinish.endPoint.leased
    modifies onFinish.Footprint()
    ensures onFinish.ReleaseLease? ==> onFinish.endPoint.Released(old(onFinish.endPoint.releases),
                                                                  old(onFinish.endPoint.acquisitions),
                                                                  old(onFinish.endPoint.calls))
  {
    if onFinish.ReleaseLease? {
      onFinish.endPoint.Release();
    }
  }
}
