/** How `RiakClient` turns what the connection returned into the result its
    caller sees: the expression and LINQ parts of `Get`, multi-get, `Put`,
    `ListKeys`, `StreamListKeys`, the repeat-read predicates, the secondary
    index range query and the HTTP bucket-property calls. Each function takes
    the decoded transport result as its argument. */
module ClientResults {
  import opened Clr
  import opened RiakResults
  import opened Models
  import opened Transport

  const NotFoundMessage := "Unable to find value in Riak"

  // ---------------------------------------------------------------- Get

  /** Single `Get`: a failure keeps its code, message and offline flag; a
      response without a vector clock is `NotFound` and not offline; any
      other response is an object with the requested identity. */
  function GetResult(id: RiakObjectId, result: RiakResult<RpbGetResp>): (r: RiakResult<RiakObject>)
    ensures r.IsSuccess() <==> result.IsSuccess() && result.value.vclock.Some?
    ensures result.Error? ==> r == result.PropagateError()
    ensures result.Ok? && result.value.vclock.None? ==> r.Error? && r.code == NotFound && !r.nodeOffline
    ensures r.Ok? ==> r.value.id == id && r.value.contents == result.value.content
                      && r.value.vclock == result.value.vclock && r.value.siblings == []
                      && r.done.None? && r.continuation.None?
  {
    if !result.IsSuccess() then result.PropagateError()
    else if result.value.vclock.None? then Error(NotFound, NotFoundMessage, false)
    else SuccessOf(RiakObject(id, result.value.content, result.value.vclock, []))
  }

  /** `new RiakObject(id, content.First(), vclock)`, whose `Siblings` are set
      to one object per content when there is more than one content. */
  function ObjectWithSiblings(id: RiakObjectId, content: seq<RpbContent>, vclock: Option<Bytes>): (r: Outcome<RiakObject>)
    ensures r.Throws? <==> content == []
    ensures r.Throws? ==> r.error == InvalidOperation
    ensures r.Returns? ==> r.value.id == id && r.value.contents == [content[0]] && r.value.vclock == vclock
    ensures r.Returns? ==> (r.value.siblings != [] <==> |content| > 1)
    ensures r.Returns? && |content| > 1 ==>
              |r.value.siblings| == |content|
              && forall i :: 0 <= i < |content| ==> r.value.siblings[i] == RiakObject(id, [content[i]], vclock, [])
  {
    if content == [] then Throws(InvalidOperation)
    else
      var siblings := if |content| > 1
                      then seq(|content|, i requires 0 <= i < |content| => RiakObject(id, [content[i]], vclock, []))
                      else [];
      Returns(RiakObject(id, [content[0]], vclock, siblings))
  }

  /** One element of the multi-get result, built from the requested id and
      its own response; it throws when enumerated if a found response has no
      content. */
  function MultiGetItem(id: RiakObjectId, response: RiakResult<RpbGetResp>): (r: Outcome<RiakResult<RiakObject>>)
    ensures r.Throws? <==> response.Ok? && response.value.vclock.Some? && response.value.content == []
    ensures r.Throws? ==> r.error == InvalidOperation
    ensures response.Error? ==> r == Returns(response.PropagateError())
    ensures response.Ok? && response.value.vclock.None? ==> r == Returns(Error(NotFound, NotFoundMessage, false))
    ensures r.Returns? && r.value.Ok? ==>
              && r.value.value.id == id && r.value.value.vclock == response.value.vclock
              && r.value.value.contents == [response.value.content[0]]
              && r.value.done.None? && r.value.continuation.None?
  {
    if !response.IsSuccess() then Returns(response.PropagateError())
    else if response.value.vclock.None? then Returns(Error(NotFound, NotFoundMessage, false))
    else
      match ObjectWithSiblings(id, response.value.content, response.value.vclock)
      case Throws(e) => Throws(e)
      case Returns(o) => Returns(SuccessOf(o))
  }

  /** Multi-get: `results.Value.Zip(objectIds)` mapped element by element. A
      failed connection call leaves `Value` null, and `Zip` then throws
      `ArgumentNullException`. */
  function MultiGetResult(ids: seq<RiakObjectId>, results: RiakResult<seq<RiakResult<RpbGetResp>>>)
    : (r: Outcome<seq<Outcome<RiakResult<RiakObject>>>>)
    ensures r.Throws? <==> results.Error?
    ensures r.Throws? ==> r.error == ArgumentNull
    ensures r.Returns? ==> |r.value| == Min(|ids|, |results.value|)
    ensures r.Returns? ==> forall i :: 0 <= i < |r.value| ==> r.value[i] == MultiGetItem(ids[i], results.value[i])
  {
    if results.Error? then Throws(ArgumentNull)
    else
      var n := Min(|ids|, |results.value|);
      Returns(seq(n, i requires 0 <= i < n => MultiGetItem(ids[i], results.value[i])))
  }

  /** A multi-get element agrees with the single `Get` of the same id and
      response: the same failures, the same `NotFound`, and for a found
      object the same identity and vector clock, with the first content as
      its content and every content as a sibling when there are several. */
  lemma MultiGetAgreesWithGet(id: RiakObjectId, response: RiakResult<RpbGetResp>)
    ensures MultiGetItem(id, response).Throws? <==>
              response.Ok? && response.value.vclock.Some? && response.value.content == []
    ensures MultiGetItem(id, response).Returns? ==>
              var m, g := MultiGetItem(id, response).value, GetResult(id, response);
              && m.IsSuccess() == g.IsSuccess()
              && (m.Error? ==> m == g)
              && (m.Ok? ==> m.value.id == g.value.id && m.value.vclock == g.value.vclock
                            && m.value.contents == [g.value.contents[0]]
                            && (|g.value.contents| > 1 ==> |m.value.siblings| == |g.value.contents|))
  {
  }

  /** When the connection produced one response per requested id (as the
      multi-get operation does), there is one result per id, in request
      order, each built from its own id. */
  lemma MultiGetOnePerId(ids: seq<RiakObjectId>, responses: seq<RiakResult<RpbGetResp>>)
    requires |responses| == |ids|
    ensures MultiGetResult(ids, SuccessOf(responses)).Returns?
    ensures |MultiGetResult(ids, SuccessOf(responses)).value| == |ids|
    ensures forall i :: 0 <= i < |ids| ==>
              MultiGetResult(ids, SuccessOf(responses)).value[i] == MultiGetItem(ids[i], responses[i])
  {
  }

  // ---------------------------------------------------------------- Put

  /** `Put`: a failure keeps its fields; without `ReturnBody` the object
      given is returned as it is; with it, a new object is built from the
      returned contents, which throws when there is none. */
  function PutResult(value: RiakObject, returnBody: bool, result: RiakResult<RpbPutResp>): (r: Outcome<RiakResult<RiakObject>>)
    ensures result.Error? ==> r == Returns(result.PropagateError())
    ensures result.Ok? && !returnBody ==> r == Returns(SuccessOf(value))
    ensures result.Ok? && returnBody ==> (r.Throws? <==> result.value.content == [])
    ensures result.Ok? && returnBody && r.Returns? ==>
              r.value.Ok? && r.value.value.id == value.id && r.value.value.vclock == result.value.vclock
              && r.value.value.contents == [result.value.content[0]]
  {
    if !result.IsSuccess() then Returns(result.PropagateError())
    else if !returnBody then Returns(SuccessOf(value))
    else
      match ObjectWithSiblings(value.id, result.value.content, result.value.vclock)
      case Throws(e) => Throws(e)
      case Returns(o) => Returns(SuccessOf(o))
  }

  /** A put that returns the body yields the object a multi-get of the same
      contents and vector clock reads back. */
  lemma PutReturnBodyMatchesRead(value: RiakObject, content: seq<RpbContent>, vclock: Bytes)
    ensures PutResult(value, true, SuccessOf(RpbPutResp(content, Some(vclock))))
            == MultiGetItem(value.id, SuccessOf(RpbGetResp(content, Some(vclock))))
  {
  }

  // ---------------------------------------------------------------- list keys

  /** `Where(r => r.IsSuccess).SelectMany(r => r.Value.keys)`: the keys of
      the successful frames, in frame order. */
  function SuccessfulKeys(frames: seq<RiakResult<RpbListKeysResp>>): (keys: seq<string>)
    ensures forall k :: k in keys <==> exists i :: 0 <= i < |frames| && frames[i].Ok? && k in frames[i].value.keys
  {
    if frames == [] then []
    else
      var rest := SuccessfulKeys(frames[1..]);
      assert forall i :: 1 <= i < |frames| ==> frames[i] == frames[1..][i - 1];
      (if frames[0].Ok? then frames[0].value.keys else []) + rest
  }

  predicate NoDuplicates<T(==)>(s: seq<T>)
  {
    forall i, j :: 0 <= i < j < |s| ==> s[i] != s[j]
  }

  /** LINQ `Distinct`: each element once, at its first occurrence. */
  function Distinct(s: seq<string>): (r: seq<string>)
    ensures forall x :: x in r <==> x in s
    ensures NoDuplicates(r)
    ensures |r| <= |s|
  {
    if s == [] then []
    else
      var d := Distinct(s[..|s| - 1]);
      assert forall x :: x in s <==> x in s[..|s| - 1] || x == s[|s| - 1];
      if s[|s| - 1] in d then d else d + [s[|s| - 1]]
  }

  /** `Distinct` leaves a sequence without repetitions unchanged. */
  lemma {:induction false} DistinctOfDistinct(s: seq<string>)
    requires NoDuplicates(s)
    ensures Distinct(s) == s
  {
    if s != [] {
      var init := s[..|s| - 1];
      assert NoDuplicates(init);
      DistinctOfDistinct(init);
      assert s[|s| - 1] !in init;
      assert init + [s[|s| - 1]] == s;
    }
  }

  /** Non-streaming `ListKeys`: the keys of the successful frames, each once. */
  function ListKeysResult(result: RiakResult<seq<RiakResult<RpbListKeysResp>>>): (r: RiakResult<seq<string>>)
    ensures r.IsSuccess() == result.IsSuccess()
    ensures result.Error? ==> r == result.PropagateError()
    ensures r.Ok? ==> NoDuplicates(r.value)
    ensures r.Ok? ==> forall k :: k in r.value <==>
                        exists i :: 0 <= i < |result.value| && result.value[i].Ok? && k in result.value[i].value.keys
  {
    if result.IsSuccess() then SuccessOf(Distinct(SuccessfulKeys(result.value)))
    else result.PropagateError()
  }

  /** `StreamListKeys`: the keys of the successful frames, in order, with no
      de-duplication. */
  function StreamListKeysResult(result: RiakResult<seq<RiakResult<RpbListKeysResp>>>): (r: RiakResult<seq<string>>)
    ensures r.IsSuccess() == result.IsSuccess()
    ensures result.Error? ==> r == result.PropagateError()
    ensures r.Ok? ==> r.value == SuccessfulKeys(result.value)
  {
    if result.IsSuccess() then SuccessOf(SuccessfulKeys(result.value))
    else result.PropagateError()
  }

  /** The two variants see the same keys; the non-streaming one is the
      streaming one de-duplicated, and they coincide when no key repeats. */
  lemma ListKeysIsDistinctStream(result: RiakResult<seq<RiakResult<RpbListKeysResp>>>)
    ensures ListKeysResult(result) == StreamListKeysResult(result).Map(Distinct)
    ensures result.Ok? && NoDuplicates(StreamListKeysResult(result).value) ==>
              ListKeysResult(result) == StreamListKeysResult(result)
  {
    if result.Ok? && NoDuplicates(StreamListKeysResult(result).value) {
      DistinctOfDistinct(SuccessfulKeys(result.value));
    }
  }

  /** A key sent in two frames is listed twice by the stream and once by
      the non-streaming call. */
  lemma StreamListKeysKeepsDuplicates(key: string)
    ensures var frames := [SuccessOf(RpbListKeysResp([key], false)), SuccessOf(RpbListKeysResp([key], true))];
            && StreamListKeysResult(SuccessOf(frames)).value == [key, key]
            && ListKeysResult(SuccessOf(frames)).value == [key]
  {
    var frames := [SuccessOf(RpbListKeysResp([key], false)), SuccessOf(RpbListKeysResp([key], true))];
    assert frames[1..][1..] == [];
    assert SuccessfulKeys(frames[1..][1..]) == [];
    assert SuccessfulKeys(frames[1..]) == [key];
    assert SuccessfulKeys(frames) == [key, key];
    assert [key, key][..1] == [key];
  }

  // ---------------------------------------------------------------- repeat reads

  /** `ListKeysRepeatRead()`: keep reading after a successful frame that is
      not the last. */
  function ListKeysRepeatRead(): (repeat: RiakResult<RpbListKeysResp> -> bool)
    ensures forall frame :: repeat(frame) <==> frame.Ok? && !frame.value.done
  {
    (frame: RiakResult<RpbListKeysResp>) => frame.IsSuccess() && !frame.value.done
  }

  /** `ListBucketsRepeatRead()`: the same rule for bucket-list frames. */
  function ListBucketsRepeatRead(): (repeat: RiakResult<RpbListBucketsResp> -> bool)
    ensures forall frame :: repeat(frame) <==> frame.Ok? && !frame.value.done
  {
    (frame: RiakResult<RpbListBucketsResp>) => frame.IsSuccess() && !frame.value.done
  }

  /** A key listing reads the frames up to and including the first one that
      failed or says it is the last; every frame before it is a successful,
      non-final one, and nothing after it is read. */
  lemma ListKeysReadStopsAtDone(frames: seq<RiakResult<RpbListKeysResp>>, n: nat)
    requires n < |frames| && !ListKeysRepeatRead()(frames[n])
    requires forall i :: 0 <= i < n ==> frames[i].Ok? && !frames[i].value.done
    ensures FramesRead(frames, ListKeysRepeatRead()) == frames[..n + 1]
  {
    var repeat := ListKeysRepeatRead();
    FramesReadShape(frames, repeat);
    var r := FramesRead(frames, repeat);
    if |r| - 1 < n {
      assert false;
    } else if |r| - 1 > n {
      assert false;
    }
  }

  // ---------------------------------------------------------------- secondary index

  /** `ReturnTerms(options)`: a nullable flag that counts only when set. */
  function ReturnTerms(returnTerms: Option<bool>): (b: bool)
    ensures b <==> returnTerms == Some(true)
  {
    returnTerms.Some? && returnTerms.value
  }

  /** `GetSecondaryIndexRange`: a failure keeps its fields; a success wraps
      the raw result, copies its `Done` flag, and carries its continuation
      exactly when that is present and non-empty. */
  function IndexRangeResult(returnTerms: bool, result: RiakResult<RpbIndexResp>): (r: RiakResult<RiakIndexResult>)
    ensures r.IsSuccess() == result.IsSuccess()
    ensures result.Error? ==> r == result.PropagateError()
    ensures r.Ok? ==> r.value == RiakIndexResult(returnTerms, result) && r.done == result.done
    ensures r.Ok? ==> (r.continuation.Some? <==> result.value.continuation.Some? && result.value.continuation.value != "")
    ensures r.Ok? && r.continuation.Some? ==> r.continuation == result.value.continuation
  {
    if !result.IsSuccess() then result.PropagateError()
    else
      var r := SuccessOf(RiakIndexResult(returnTerms, result));
      var withDone := if result.done.Some? then r.(done := Some(result.done.value)) else r;
      var c := result.value.continuation;
      if c.Some? && c.value != "" then withDone.(continuation := Some(c.value)) else withDone
  }

  // ---------------------------------------------------------------- HTTP bucket properties

  const NoContent := 204
  const NotFoundStatus := 404

  function UnexpectedStatus(statusCode: nat): string
  {
    "Unexpected Status Code: " + Decimal(statusCode)
  }

  /** `ResetHttpBucketProperties`: 204 keeps the transport result, 404 is
      `NotFound` and not offline, any other status is `InvalidResponse`
      with the result's own offline flag; a transport failure is kept. */
  function ResetHttpResult(bucket: string, result: RiakResult<RiakRestResponse>): (r: RiakResult<RiakRestResponse>)
    ensures r.IsSuccess() <==> result.IsSuccess() && result.value.statusCode == NoContent
    ensures result.Error? ==> r == result
    ensures result.Ok? && result.value.statusCode == NoContent ==> r == result
    ensures result.Ok? && result.value.statusCode == NotFoundStatus ==> r.Error? && r.code == NotFound && !r.nodeOffline
    ensures result.Ok? && result.value.statusCode !in {NoContent, NotFoundStatus} ==>
              r.Error? && r.code == InvalidResponse && r.nodeOffline == result.NodeOffline()
  {
    if result.IsSuccess() then
      if result.value.statusCode == NoContent then result
      else if result.value.statusCode == NotFoundStatus then Error(NotFound, "Bucket " + bucket + " not found.", false)
      else Error(InvalidResponse, UnexpectedStatus(result.value.statusCode),
                 result.NodeOffline())
    else result
  }

  /** `SetHttpBucketProperties`: a success with any status but 204 is
      `InvalidResponse` with the result's own offline flag; everything else
      is the transport result. */
  function SetHttpResult(result: RiakResult<RiakRestResponse>): (r: RiakResult<RiakRestResponse>)
    ensures r.IsSuccess() <==> result.IsSuccess() && result.value.statusCode == NoContent
    ensures !(result.Ok? && result.value.statusCode != NoContent) ==> r == result
    ensures result.Ok? && result.value.statusCode != NoContent ==>
              r.Error? && r.code == InvalidResponse && r.nodeOffline == result.NodeOffline()
  {
    if result.IsSuccess() && result.value.statusCode != NoContent then
      Error(InvalidResponse, UnexpectedStatus(result.value.statusCode),
            result.NodeOffline())
    else result
  }

  /** Reset and set treat a transport result alike, except that reset reads
      a 404 as `NotFound` where set reads it as `InvalidResponse`. */
  lemma ResetAndSetDifferOnlyOnNotFound(bucket: string, result: RiakResult<RiakRestResponse>)
    ensures result.Ok? && result.value.statusCode == NotFoundStatus ==>
              ResetHttpResult(bucket, result).code == NotFound && SetHttpResult(result).code == InvalidResponse
    ensures !(result.Ok? && result.value.statusCode == NotFoundStatus) ==>
              ResetHttpResult(bucket, result) == SetHttpResult(result)
  {
  }
}
