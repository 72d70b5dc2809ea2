/** `RiakClient`: the client object. It either runs each operation through a
    cluster endpoint (which leases a connection for the call, with the
    client's `RetryCount`) or, when it is the client handed to a batch
    function, directly on the one connection pinned for the batch. Request
    encoding and reply decoding are protobuf code outside this model: each
    operation takes its encoded request and a `decode` function. */
module RiakClientModel {
  import opened Clr
  import opened RiakResults
  import opened Models
  import opened Transport
  import opened ClientResults

  /** A user batch function: the operations it runs on the batch client, in
      order, and what it then returns or throws, given their answers. */
  datatype BatchFunction<T> = BatchFunction(steps: seq<Op>, finish: seq<Answer> -> Outcome<T>)

  /** What `helperBatchFun` reports to the endpoint: success when the user
      function returned, `BatchException` with the node marked offline when
      it threw. */
  function HelperResult<T>(outcome: Outcome<T>): (r: RiakResult<()>)
    ensures r.IsSuccess() <==> outcome.Returns?
    ensures outcome.Throws? ==> r.code == BatchException && r.nodeOffline
                                && r.errorMessage == ExceptionMessage(outcome.error)
  {
    match outcome
    case Returns(_) => SuccessOf(())
    case Throws(e) => Error(BatchException, ExceptionMessage(e), true)
  }

  /** The captured `funResult` after the helper ran: the user function's
      value, or what it held before when the function threw. */
  function FunResult<T>(outcome: Outcome<T>, before: T): (r: T)
    ensures outcome.Returns? ==> r == outcome.value
    ensures outcome.Throws? ==> r == before
  {
    if outcome.Returns? then outcome.value else before
  }

  /** The end of `Batch`: rethrow exactly a `BatchException` failure,
      otherwise return the captured value. */
  function BatchVerdict<T>(result: RiakResult<()>, funResult: T): (r: Outcome<T>)
    ensures r.Throws? <==> result.Error? && result.code == BatchException
    ensures r.Throws? ==> r.error == Raised(result.errorMessage)
    ensures r.Returns? ==> r.value == funResult
  {
    if !result.IsSuccess() && result.Code() == BatchException then Throws(Raised(result.errorMessage))
    else Returns(funResult)
  }

  /** A batch whose function ran returns that function's value, and throws
      (an exception with the same message) exactly when it threw. */
  lemma BatchRethrowsExactlyUserExceptions<T>(outcome: Outcome<T>, defaultValue: T)
    ensures BatchVerdict(HelperResult(outcome), FunResult(outcome, defaultValue))
            == match outcome
               case Returns(v) => Returns(v)
               case Throws(e) => Throws(Raised(ExceptionMessage(e)))
  {
  }

  /** A batch whose function never ran, because the endpoint failed with any
      other code, returns `default(T)`. */
  lemma BatchNotRunReturnsDefault<T>(result: RiakResult<()>, defaultValue: T)
    requires result.Error? && result.code != BatchException
    ensures BatchVerdict(result, defaultValue) == Returns(defaultValue)
  {
  }

  /** Key listing over a connection whose node answered with `frames`:
      each frame is tested once decoded, so the keys listed are those of the
      successful frames among the decoded frames read, each once. */
  lemma ListKeysOverFrames(frames: seq<RiakResult<Message>>, decode: Message -> RpbListKeysResp)
    ensures ListKeysResult(FramesResult(SuccessOf(frames), OnDecoded(ListKeysRepeatRead(), decode))
                             .Map(fs => DecodeFrames(fs, decode)))
            == SuccessOf(Distinct(SuccessfulKeys(FramesRead(DecodeFrames(frames, decode), ListKeysRepeatRead()))))
  {
    var read := FramesRead(frames, OnDecoded(ListKeysRepeatRead(), decode));
    DecodeCommutesWithRead(frames, decode, ListKeysRepeatRead());
    assert FramesResult(SuccessOf(frames), OnDecoded(ListKeysRepeatRead(), decode)) == SuccessOf(read);
    assert SuccessOf(read).Map(fs => DecodeFrames(fs, decode)) == SuccessOf(DecodeFrames(read, decode));
  }

  class RiakClient {
    const endPoint: EndPoint?
    const batchConnection: Connection?
    var RetryCount: int

    /** Exactly one of the endpoint and the pinned connection is set. */
    ghost predicate Valid()
      reads this, endPoint
    {
      (endPoint == null) != (batchConnection == null) && (endPoint != null ==> endPoint.Valid())
    }

    /** What running an operation may change. */
    ghost function Repr(): set<object>
      reads this
    {
      if batchConnection != null then {batchConnection}
      else if endPoint != null then {endPoint, endPoint.conn}
      else {}
    }

    /** The endpoint's single connection is leased elsewhere. */
    ghost predicate Exhausted()
      reads this, endPoint
    {
      endPoint != null && endPoint.leased
    }

    /** What an operation yields: the pinned connection's answer; otherwise
        the endpoint's connection's answer, or the exhausted-pool failure. */
    ghost function Dispatched(op: Op, exhausted: bool): Answer
      reads this
      requires batchConnection != null || endPoint != null
    {
      if batchConnection != null then batchConnection.Answer(op)
      else if exhausted then Failed(op, PoolExhausted)
      else endPoint.conn.Answer(op)
    }

    /** The state after an operation ran: its requests were written to the
        pinned connection, or the endpoint was asked once with `call` and,
        when it leased the connection, wrote them there and took the lease
        back exactly once. */
    twostate predicate Ran(op: Op, call: EndPointCall)
      reads this, Repr()
      requires batchConnection != null || endPoint != null
    {
      if batchConnection != null then batchConnection.sent == old(batchConnection.sent) + Requests(op)
      else
        && endPoint.calls == old(endPoint.calls) + [call]
        && endPoint.leased == old(endPoint.leased)
        && if old(endPoint.leased) then
             endPoint.conn.sent == old(endPoint.conn.sent)
             && endPoint.acquisitions == old(endPoint.acquisitions) && endPoint.releases == old(endPoint.releases)
           else
             endPoint.conn.sent == old(endPoint.conn.sent) + Requests(op)
             && endPoint.acquisitions == old(endPoint.acquisitions) + 1 && endPoint.releases == old(endPoint.releases) + 1
    }

    /** `internal RiakClient(IRiakEndPoint endPoint)`. */
    constructor (endPoint: EndPoint)
      requires endPoint.Valid()
      ensures Valid() && this.endPoint == endPoint && batchConnection == null && RetryCount == 0
    {
      this.endPoint := endPoint;
      batchConnection := null;
      RetryCount := 0;
    }

    /** `private RiakClient(IRiakConnection batchConnection)`. */
    constructor ForBatch(batchConnection: Connection)
      ensures Valid() && endPoint == null && this.batchConnection == batchConnection && RetryCount == 0
      ensures Repr() == {batchConnection}
    {
      endPoint := null;
      this.batchConnection := batchConnection;
      RetryCount := 0;
    }

    /** `UseConnection(op)`: on the pinned connection when there is one,
        otherwise through the endpoint with `RetryCount`. */
    method UseConnection(op: Op) returns (a: Answer)
      requires Valid()
      modifies Repr()
      ensures Valid()
      ensures a == Dispatched(op, old(Exhausted()))
      ensures Ran(op, Immediate(RetryCount))
    {
      if batchConnection != null {
        a := batchConnection.Run(op);
      } else {
        a := endPoint.UseConnection(op, RetryCount);
      }
    }

    /** `UseDelayedConnection(op)` for a streamed read: the pinned connection
        with a no-op completion, or a delayed lease from the endpoint whose
        release is the completion the read invokes when it ends. */
    method UseDelayedConnection(request: Message, repeatRead: RiakResult<Message> -> bool)
      returns (r: RiakResult<seq<RiakResult<Message>>>)
      requires Valid()
      modifies Repr()
      ensures Valid()
      ensures Dispatched(WriteReadFrames(request, repeatRead), old(Exhausted())) == Many(r)
      ensures Ran(WriteReadFrames(request, repeatRead), Delayed(RetryCount))
    {
      if batchConnection != null {
        r := batchConnection.PbcWriteStreamRead(request, repeatRead, NoOp);
      } else {
        r := endPoint.UseDelayedConnection(request, repeatRead, RetryCount);
      }
    }

    /** Single `Get`. */
    method Get(id: RiakObjectId, request: Message, decode: Message -> RpbGetResp) returns (r: RiakResult<RiakObject>)
      requires Valid()
      modifies Repr()
      ensures Valid() && Ran(WriteRead(request), Immediate(RetryCount))
      ensures r == GetResult(id, Dispatched(WriteRead(request), old(Exhausted())).result.Map(decode))
    {
      var a := UseConnection(WriteRead(request));
      r := GetResult(id, a.result.Map(decode));
    }

    /** Multi-get: one read per id, made on one connection, paired with the
        ids in order. */
    method MultiGet(ids: seq<RiakObjectId>, encode: RiakObjectId -> Message, decode: Message -> RpbGetResp)
      returns (r: Outcome<seq<Outcome<RiakResult<RiakObject>>>>)
      requires Valid()
      modifies Repr()
      ensures var op := WriteReadEach(seq(|ids|, i requires 0 <= i < |ids| => encode(ids[i])));
              && Valid() && Ran(op, Immediate(RetryCount))
              && r == MultiGetResult(ids, Dispatched(op, old(Exhausted())).results.Map(fs => DecodeFrames(fs, decode)))
    {
      var requests := seq(|ids|, i requires 0 <= i < |ids| => encode(ids[i]));
      var a := UseConnection(WriteReadEach(requests));
      r := MultiGetResult(ids, a.results.Map(fs => DecodeFrames(fs, decode)));
    }

    /** `Put`. */
    method Put(value: RiakObject, request: Message, returnBody: bool, decode: Message -> RpbPutResp)
      returns (r: Outcome<RiakResult<RiakObject>>)
      requires Valid()
      modifies Repr()
      ensures Valid() && Ran(WriteRead(request), Immediate(RetryCount))
      ensures r == PutResult(value, returnBody, Dispatched(WriteRead(request), old(Exhausted())).result.Map(decode))
    {
      var a := UseConnection(WriteRead(request));
      r := PutResult(value, returnBody, a.result.Map(decode));
    }

    /** Non-streaming `ListKeys`: frames read while `ListKeysRepeatRead()`
        holds of the decoded frame, keys of successful frames, each once. */
    method ListKeys(request: Message, decode: Message -> RpbListKeysResp) returns (r: RiakResult<seq<string>>)
      requires Valid()
      modifies Repr()
      ensures var op := WriteReadFrames(request, OnDecoded(ListKeysRepeatRead(), decode));
              && Valid() && Ran(op, Immediate(RetryCount))
              && r == ListKeysResult(Dispatched(op, old(Exhausted())).results.Map(fs => DecodeFrames(fs, decode)))
    {
      var a := UseConnection(WriteReadFrames(request, OnDecoded(ListKeysRepeatRead(), decode)));
      r := ListKeysResult(a.results.Map(fs => DecodeFrames(fs, decode)));
    }

    /** `StreamListKeys`: the same read on a delayed lease, without
        de-duplication. */
    method StreamListKeys(request: Message, decode: Message -> RpbListKeysResp) returns (r: RiakResult<seq<string>>)
      requires Valid()
      modifies Repr()
      ensures var op := WriteReadFrames(request, OnDecoded(ListKeysRepeatRead(), decode));
              && Valid() && Ran(op, Delayed(RetryCount))
              && r == StreamListKeysResult(Dispatched(op, old(Exhausted())).results.Map(fs => DecodeFrames(fs, decode)))
    {
      var frames := UseDelayedConnection(request, OnDecoded(ListKeysRepeatRead(), decode));
      r := StreamListKeysResult(frames.Map(fs => DecodeFrames(fs, decode)));
    }

    /** `GetSecondaryIndexRange`. */
    method GetSecondaryIndexRange(request: Message, returnTerms: Option<bool>, decode: Message -> RpbIndexResp)
      returns (r: RiakResult<RiakIndexResult>)
      requires Valid()
      modifies Repr()
      ensures Valid() && Ran(WriteRead(request), Immediate(RetryCount))
      ensures r == IndexRangeResult(ReturnTerms(returnTerms),
                                    Dispatched(WriteRead(request), old(Exhausted())).result.Map(decode))
    {
      var a := UseConnection(WriteRead(request));
      r := IndexRangeResult(ReturnTerms(returnTerms), a.result.Map(decode));
    }

    /** `SetHttpBucketProperties`. */
    method SetHttpBucketProperties(request: Message) returns (r: RiakResult<RiakRestResponse>)
      requires Valid()
      modifies Repr()
      ensures Valid() && Ran(Rest(request), Immediate(RetryCount))
      ensures r == SetHttpResult(Dispatched(Rest(request), old(Exhausted())).response)
    {
      var a := UseConnection(Rest(request));
      r := SetHttpResult(a.response);
    }

    /** `ResetHttpBucketProperties`. */
    method ResetHttpBucketProperties(bucket: string, request: Message) returns (r: RiakResult<RiakRestResponse>)
      requires Valid()
      modifies Repr()
      ensures Valid() && Ran(Rest(request), Immediate(RetryCount))
      ensures r == ResetHttpResult(bucket, Dispatched(Rest(request), old(Exhausted())).response)
    {
      var a := UseConnection(Rest(request));
      r := ResetHttpResult(bucket, a.response);
    }

    /** The user function's calls, made in order on a new client pinned to
        `conn`: each is written to `conn`, and each answer is the
        connection's answer to it. */
    static method RunOnBatchClient(conn: Connection, steps: seq<Op>) returns (answers: seq<Answer>)
      modifies conn
      ensures conn.sent == old(conn.sent) + AllRequests(steps)
      ensures answers == conn.Answers(steps)
    {
      var client := new RiakClient.ForBatch(conn);
      answers := [];
      var i := 0;
      while i < |steps|
        invariant 0 <= i <= |steps|
        invariant client.Valid() && client.Repr() == {conn} && client.batchConnection == conn
        invariant conn.sent == old(conn.sent) + AllRequests(steps[..i])
        invariant |answers| == i && forall k :: 0 <= k < i ==> answers[k] == conn.Answer(steps[k])
      {
        var a := client.UseConnection(steps[i]);
        answers := answers + [a];
        assert steps[..i + 1][..i] == steps[..i];
        i := i + 1;
      }
      assert steps[..i] == steps;
    }

    /** `helperBatchFun`: runs the user function on a new client pinned to
        `conn`, turns a throw into a `BatchException` failure, and invokes
        `onFinish` exactly once on both paths. */
    static method HelperBatchFun<T>(conn: Connection, onFinish: Completion, fun: BatchFunction<T>, funResult0: T)
      returns (result: RiakResult<()>, funResult: T)
      requires onFinish.ReleaseLease? ==> onFinish.endPoint.Valid() && onFinish.endPoint.leased
      modifies conn, onFinish.Footprint()
      ensures conn.sent == old(conn.sent) + AllRequests(fun.steps)
      ensures result == HelperResult(fun.finish(conn.Answers(fun.steps)))
      ensures funResult == FunResult(fun.finish(conn.Answers(fun.steps)), funResult0)
      ensures onFinish.ReleaseLease? ==> onFinish.endPoint.Released(old(onFinish.endPoint.releases),
                                                                    old(onFinish.endPoint.acquisitions),
                                                                    old(onFinish.endPoint.calls))
    {
      var answers := RunOnBatchClient(conn, fun.steps);
      var outcome := fun.finish(answers);
      match outcome {
        case Returns(v) =>
          funResult := v;
          result := SuccessOf(());
        case Throws(e) =>
          funResult := funResult0;
          result := Error(BatchException, ExceptionMessage(e), true);
      }
      Complete(onFinish);
    }

    /** `Batch<T>`: runs the user function on one connection leased from the
        endpoint for the whole batch, rethrowing what it threw. A client
        that is itself batch-scoped has no endpoint to ask. */
    method Batch<T>(fun: BatchFunction<T>, defaultValue: T) returns (r: Outcome<T>)
      requires Valid()
      modifies Repr()
      ensures Valid()
      ensures endPoint == null ==> r == Throws(NullReference) && batchConnection.sent == old(batchConnection.sent)
      ensures endPoint != null ==> endPoint.calls == old(endPoint.calls) + [Delayed(RetryCount)]
                                   && endPoint.leased == old(endPoint.leased)
      ensures endPoint != null && old(endPoint.leased) ==>
                r == Returns(defaultValue) && endPoint.conn.sent == old(endPoint.conn.sent)
                && endPoint.acquisitions == old(endPoint.acquisitions) && endPoint.releases == old(endPoint.releases)
      ensures endPoint != null && !old(endPoint.leased) ==>
                var outcome := fun.finish(endPoint.conn.Answers(fun.steps));
                && r == BatchVerdict(HelperResult(outcome), FunResult(outcome, defaultValue))
                && endPoint.conn.sent == old(endPoint.conn.sent) + AllRequests(fun.steps)
                && endPoint.acquisitions == old(endPoint.acquisitions) + 1
                && endPoint.releases == old(endPoint.releases) + 1
    {
      if endPoint == null {
        r := Throws(NullReference);
        return;
      }
      var funResult := defaultValue;
      var result: RiakResult<()>;
      var acquired := endPoint.Acquire(Delayed(RetryCount));
      if acquired {
        result, funResult := HelperBatchFun(endPoint.conn, ReleaseLease(endPoint), fun, funResult);
      } else {
        result := PoolExhausted;
      }
      r := BatchVerdict(result, funResult);
    }
  }
}
