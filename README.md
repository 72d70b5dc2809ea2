# Riak .NET client core, modelled in Dafny

This project models the part of the Riak .NET client (CorrugatedIron) that
sits between the caller and the cluster transport, and proves properties of
that model.

It covers:

- **The client object (`RiakClient`).**
  - Dispatch: a batch-scoped client uses its pinned connection directly; any
    other client goes through the endpoint with its `RetryCount`.
  - Batch pinning: a user function runs on one leased connection, the lease
    comes back exactly once, and an exception becomes a `BatchException`
    result that is rethrown.
  - Translation of transport results into `RiakResult` values for single
    and multi get, put, key listing (plain and streamed), secondary index
    range queries, and the HTTP bucket-property calls.
- **`Quorum` values.** Parsing of the names `one`, `quorum`, `all` and
  `default` in any letter case, which integers are valid, and the signed and
  unsigned 32-bit views. The `Quorum` type's own source is not part of this
  model: its unit tests are the specification.
- **The `RiakMapReduce` builder.** A dictionary of phases keyed by phase type,
  and a request text that `ToMessage` computes once and then keeps.
- **`RiakObjectIdConverter`.** A reader that takes a bucket and a key from at
  most three JSON tokens.
- **The `SimilarTo` key filter.** It is serialised as a three-element JSON
  array.

Layout, one module per file:

| file | module | what |
|---|---|---|
| clr.dfy | `Clr` | null (`Option`), thrown exceptions (`Outcome`), 32-bit integers and their casts, decimal printing |
| riak_result.dfy | `RiakResults` | `ResultCode`, `RiakResult<T>` |
| models.dfy | `Models` | object ids, objects, decoded responses |
| transport.dfy | `Transport` | stand-ins for the connection and the endpoint, and the multi-frame read |
| client_results.dfy | `ClientResults` | the pure result mappings of `RiakClient` |
| riak_client.dfy | `RiakClientModel` | the `RiakClient` class: dispatch, batch, operations |
| quorum.dfy | `Quorums` | `Quorum` |
| map_reduce.dfy | `MapReduce` | the `RiakMapReduce` class |
| object_id_converter.dfy | `ObjectIdConverter` | `ReadJson` and the converter flags |
| key_filters.dfy | `KeyFilters` | JSON values, `SimilarTo` |

How the model represents the system:

- **Exceptions.** An operation that can throw returns `Outcome<T>`, which is
  `Returns(v)` or `Throws(e)`.
- **Null.** A nullable value is an `Option`.
- **The transport.** The endpoint, the pool and the codec are not part of this
  model. They are stand-in classes whose methods state the contract the client
  relies on:
  - a connection's answers are fixed functions of the request, and it records
    the requests written to it;
  - the endpoint leases its single connection, counts acquisitions and
    releases, and logs each call with its retry budget;
  - a delayed lease is given back by the completion callback.
- **Foreign code as parameters.** Protobuf encoding and decoding,
  `RiakMapReducePhase.ToString` and the JSON writer's rendering of an argument
  are passed in as parameters.

Where the code does something surprising, the model follows the code:

- A multi-get whose connection call failed throws `ArgumentNullException`:
  `Zip` is called on the null `Value`.
- In a multi-get and in a put that returns the body, a found response with
  no content throws `InvalidOperationException` from `First()`.
- `Filter` throws `NullReferenceException` unless the caller first assigned
  `Filters`.
- `ReadJson` takes the first two tokens after the current one. So
  `["b", "k"]` and `{"b": "k"}` both give bucket `b` and key `k`.

## Model

| member | source | states |
|---|---|---|
| `Clr.CastsAreInverse` | src/RiakClientTests/Models/QuorumTests.cs:134-138 | the unchecked `(int)` and `(uint)` casts are inverse bijections between the two 32-bit ranges |
| `RiakResults.RiakResult.PropagateError` | src/RiakClient/RiakClient.cs:236-239 | an error re-wrapped at another type keeps its code, message and offline flag |
| `Transport.FramesReadShape` | src/RiakClient/RiakClient.cs:1481 | the frames read are a prefix of those sent, with at least one frame when any exist; reading goes on past a frame exactly when the repeat predicate holds of it, and it consumes everything when the last frame read still asks to repeat |
| `Transport.FramesRead` | src/RiakClient/RiakClient.cs:1481 | never more frames than were sent, and the first frame sent is always read |
| `Transport.ReadFrames` | src/RiakClient/RiakClient.cs:1481 | the read loop consumes exactly the frames `FramesRead` describes |
| `Transport.DecodeCommutesWithRead` | src/RiakClient/RiakClient.cs:1481 | testing each decoded frame with the repeat predicate reads the same frames as testing raw frames through the decoder, for every frame sequence |
| `Transport.FramesResult` | src/RiakClient/RiakClient.cs:1481-1483 | a transport failure passes through with its fields; a success carries exactly the frames read, with no paging state |
| `Transport.Connection.Answer` | src/RiakClient/RiakClient.cs:273-291 | a single read answers the node's reply; a per-request read answers one success with one reply per request, in order; a frame read answers `FramesResult`; a REST call answers the REST reply |
| `Transport.Connection.PbcWriteRead` | src/RiakClient/RiakClient.cs:234 | writes the one request and answers the node's reply to it |
| `Transport.Connection.PbcWriteReadFrames` | src/RiakClient/RiakClient.cs:1481 | writes the one request and answers `FramesResult` of what the node sends under the repeat predicate |
| `Transport.Connection.RestRequest` | src/RiakClient/RiakClient.cs:1376 | issues the one REST request and answers the node's REST reply |
| `Transport.Connection.Run` | src/RiakClient/RiakClient.cs:1641 | running an operation on the connection writes exactly its requests, in order, and answers `Answer` of it |
| `Transport.Connection.PbcWriteReadEach` | src/RiakClient/RiakClient.cs:275-290 | writes every request in order and collects their replies, in order, into one success |
| `Transport.Connection.PbcWriteStreamRead` | src/RiakClient/RiakClient.cs:680-682 | writes the request, reads the frames the repeat predicate allows, and invokes the completion once, which gives a delayed lease back exactly once |
| `Transport.EndPoint.UseConnection` | src/RiakClient/RiakClient.cs:1639-1647 | logs the call with its retry budget; with the pool exhausted the operation does not run and the answer is the `NoConnections` failure; otherwise the operation runs once on the leased connection and the lease is given back exactly once |
| `Transport.EndPoint.UseDelayedConnection` | src/RiakClient/RiakClient.cs:1654 | logs a delayed-lease call with its retry budget; with the pool exhausted the read does not run and the answer is the `NoConnections` failure; otherwise the request is written once, the frames come back as `FramesResult`, and the completion gives the lease back exactly once |
| `Transport.Complete` | src/RiakClient/RiakClient.cs:957-960 | invoking a release callback gives the lease back once and changes nothing else; the no-op changes nothing |
| `ClientResults.GetResult` | src/RiakClient/RiakClient.cs:236-248 | success exactly when the transport succeeded with a vector clock; a failure keeps code, message and offline flag; a missing vector clock is `NotFound` with the node not offline; a found object has the requested id, the returned contents and vector clock, and no siblings |
| `ClientResults.ObjectWithSiblings` | src/RiakClient/RiakClient.cs:305-311 | throws exactly when there is no content; otherwise the object holds the first content, and it has siblings exactly when there are several contents, one per content in order |
| `ClientResults.MultiGetItem` | src/RiakClient/RiakClient.cs:294-314 | one multi-get element: throws `InvalidOperationException` exactly for a found response with no content; a failure keeps its fields; a missing vector clock is `NotFound` with the node not offline; a found object has the requested id, the first content and the returned vector clock |
| `ClientResults.MultiGetResult` | src/RiakClient/RiakClient.cs:293-314 | throws `ArgumentNullException` exactly when the connection call failed; otherwise one element per (response, id) pair in order, each built from its own id and response |
| `ClientResults.MultiGetAgreesWithGet` | src/RiakClient/RiakClient.cs:236-248 | a multi-get element has the same errors and `NotFound` as the single `Get`, and for a found object the same id and vector clock; it throws exactly for a found response without content |
| `ClientResults.MultiGetOnePerId` | src/RiakClient/RiakClient.cs:275-293 | with one response per requested id, the result has one element per id in request order, each from its own id |
| `ClientResults.PutResult` | src/RiakClient/RiakClient.cs:336-351 | a failure keeps its fields; without `ReturnBody` the given object comes back unchanged; with it, the result throws exactly when no content came back, and otherwise has the object's id, the returned vector clock and the first content |
| `ClientResults.PutReturnBodyMatchesRead` | src/RiakClient/RiakClient.cs:341-349 | a put that returns the body builds the same object, with the same siblings, as a multi-get of that content and vector clock |
| `ClientResults.SuccessfulKeys` | src/RiakClient/RiakClient.cs:1485 | a key is listed exactly when some successful frame carries it |
| `ClientResults.Distinct` | src/RiakClient/RiakClient.cs:1485 | keeps exactly the elements of the input, each once, and is no longer than the input |
| `ClientResults.DistinctOfDistinct` | src/RiakClient/RiakClient.cs:1485 | de-duplicating a sequence without repetitions returns it unchanged |
| `ClientResults.ListKeysResult` | src/RiakClient/RiakClient.cs:1483-1489 | success exactly when the transport succeeded; a failure keeps its fields; the keys have no repetitions and are exactly those carried by successful frames |
| `ClientResults.StreamListKeysResult` | src/RiakClient/RiakClient.cs:684-690 | success exactly when the transport succeeded; a failure keeps its fields; the keys are those of the successful frames, in order, with no de-duplication |
| `ClientResults.ListKeysIsDistinctStream` | src/RiakClient/RiakClient.cs:1485 | the plain listing is the streamed one with `Distinct` applied; the two coincide when the stream has no repeated key |
| `ClientResults.StreamListKeysKeepsDuplicates` | src/RiakClient/RiakClient.cs:1485 | a key sent in two frames is listed twice by the stream and once by the plain call |
| `ClientResults.ListKeysRepeatRead` | src/RiakClient/RiakClient.cs:1492-1496 | repeat exactly after a successful frame whose `done` flag is false |
| `ClientResults.ListBucketsRepeatRead` | src/RiakClient/RiakClient.cs:1453-1457 | repeat exactly after a successful frame whose `done` flag is false |
| `ClientResults.ListKeysReadStopsAtDone` | src/RiakClient/RiakClient.cs:1481 | when the first frame that failed or is `done` sits at position n, a key listing reads exactly frames 0 to n |
| `ClientResults.ReturnTerms` | src/RiakClient/RiakClient.cs:1510-1513 | true exactly when the option is set and true |
| `ClientResults.IndexRangeResult` | src/RiakClient/RiakClient.cs:1590-1612 | success exactly when the transport succeeded; a failure keeps its fields; a success wraps the raw result with the terms flag, copies `Done`, and carries a continuation exactly when the response has a non-empty one, and then that one |
| `ClientResults.ResetHttpResult` | src/RiakClient/RiakClient.cs:1403-1420 | success exactly for a successful 204; a 204 or a transport failure returns the transport result unchanged; a 404 is `NotFound` with the node not offline; any other status is `InvalidResponse` with the transport result's offline flag |
| `ClientResults.SetHttpResult` | src/RiakClient/RiakClient.cs:1376-1385 | success exactly for a successful 204; a successful non-204 status is `InvalidResponse` with the transport result's offline flag; everything else is the transport result unchanged |
| `ClientResults.ResetAndSetDifferOnlyOnNotFound` | src/RiakClient/RiakClient.cs:1376-1420 | reset and set give the same result for every transport result except a successful 404, which reset reads as `NotFound` and set as `InvalidResponse` |
| `RiakClientModel.HelperResult` | src/RiakClient/RiakClient.cs:945-956 | the helper reports success exactly when the user function returned; a throw becomes `BatchException` with the node offline and the exception's message |
| `RiakClientModel.FunResult` | src/RiakClient/RiakClient.cs:941-947 | the captured result is the function's value when it returned, and is unchanged when it threw |
| `RiakClientModel.BatchVerdict` | src/RiakClient/RiakClient.cs:963-970 | `Batch` throws exactly when the endpoint result is a failure with code `BatchException`, with that message; otherwise it returns the captured value |
| `RiakClientModel.BatchRethrowsExactlyUserExceptions` | src/RiakClient/RiakClient.cs:943-970 | a batch whose function ran returns the function's value, or throws an exception with the same message exactly when the function threw |
| `RiakClientModel.BatchNotRunReturnsDefault` | src/RiakClient/RiakClient.cs:941-970 | when the endpoint fails with any other code, `Batch` returns `default(T)` |
| `RiakClientModel.ListKeysOverFrames` | src/RiakClient/RiakClient.cs:1481-1486 | a key listing over a connection lists, each once, the keys of the successful frames among the decoded frames read under `ListKeysRepeatRead` |
| `RiakClientModel.RiakClient.constructor` | src/RiakClient/RiakClient.cs:51-55 | a client on an endpoint has no pinned connection |
| `RiakClientModel.RiakClient.ForBatch` | src/RiakClient/RiakClient.cs:57-61 | a batch-scoped client has only its pinned connection |
| `RiakClientModel.RiakClient.UseConnection` | src/RiakClient/RiakClient.cs:1639-1647 | a batch-scoped client runs the operation on its pinned connection without involving an endpoint; any other client calls the endpoint once with `RetryCount` (`Immediate`) and gets its answer |
| `RiakClientModel.RiakClient.UseDelayedConnection` | src/RiakClient/RiakClient.cs:1649-1655 | a batch-scoped client streams on its pinned connection with a no-op completion; any other client asks the endpoint once for a delayed lease with `RetryCount`, and the lease is given back exactly once when reading ends |
| `RiakClientModel.RiakClient.Get` | src/RiakClient/RiakClient.cs:222-249 | the result is `GetResult` of the dispatched single read, decoded |
| `RiakClientModel.RiakClient.MultiGet` | src/RiakClient/RiakClient.cs:266-315 | one read per id, in order, on one dispatched connection use, paired with the ids by `MultiGetResult` |
| `RiakClientModel.RiakClient.Put` | src/RiakClient/RiakClient.cs:327-352 | the result is `PutResult` of the dispatched single read, decoded |
| `RiakClientModel.RiakClient.ListKeys` | src/RiakClient/RiakClient.cs:652-655 | one dispatched frame read under the decoded `ListKeysRepeatRead`, mapped by `ListKeysResult` |
| `RiakClientModel.RiakClient.StreamListKeys` | src/RiakClient/RiakClient.cs:670-691 | one delayed-lease frame read under the same predicate, mapped by `StreamListKeysResult` |
| `RiakClientModel.RiakClient.GetSecondaryIndexRange` | src/RiakClient/RiakClient.cs:1573-1613 | the result is `IndexRangeResult` of the dispatched read, with the terms flag from `ReturnTerms` |
| `RiakClientModel.RiakClient.SetHttpBucketProperties` | src/RiakClient/RiakClient.cs:1368-1386 | the result is `SetHttpResult` of the dispatched REST call |
| `RiakClientModel.RiakClient.ResetHttpBucketProperties` | src/RiakClient/RiakClient.cs:1399-1421 | the result is `ResetHttpResult` of the dispatched REST call |
| `RiakClientModel.RiakClient.RunOnBatchClient` | src/RiakClient/RiakClient.cs:947 | the user function's calls on the new batch-scoped client are written to the pinned connection in order, and each answer is that connection's answer |
| `RiakClientModel.RiakClient.HelperBatchFun` | src/RiakClient/RiakClient.cs:943-961 | runs every step of the user function on a new client pinned to the connection, in order; reports `HelperResult` of its outcome; invokes the completion exactly once whether the function returned or threw |
| `RiakClientModel.RiakClient.Batch` | src/RiakClient/RiakClient.cs:939-971 | a batch-scoped client has no endpoint and throws `NullReferenceException`; with the pool exhausted the function does not run and `default(T)` is returned; otherwise the steps are written to the one leased connection, the lease is given back exactly once, and the result is `BatchVerdict` of the helper's report |
| `Quorums.FromInt` | src/RiakClientTests/Models/QuorumTests.cs:36-57 | a number is accepted exactly when it is non-negative or between -5 and -2, and it is kept as given; any other number is `ArgumentOutOfRangeException` |
| `Quorums.FromUInt` | src/RiakClientTests/Models/QuorumTests.cs:59-97 | an unsigned number is accepted exactly when it is below 2^31 or between `uint.MaxValue - 4` and `uint.MaxValue - 1`, and keeps its 32 bits |
| `Quorums.ToInt` | src/RiakClientTests/Models/QuorumTests.cs:137-143 | the integer view rebuilds the same quorum through `new Quorum(int)` |
| `Quorums.Lower` | src/RiakClientTests/Models/QuorumTests.cs:139-140 | `ToLowerInvariant` keeps the length, lower-cases each character, and leaves no upper-case ASCII letter |
| `Quorums.ToUInt` | src/RiakClientTests/Models/QuorumTests.cs:134-138 | the unsigned view has the same bits; a well-known value -k reads as `uint.MaxValue + 1 - k` |
| `Quorums.ToString` | src/RiakClientTests/Models/QuorumTests.cs:139-140 | a well-known value prints as one of the four names; any other value prints as its decimal digits |
| `Quorums.FromString` | src/RiakClientTests/Models/QuorumTests.cs:106-136 | a string parses exactly when its lower-case form is one of the four names, to `one` = -2, `quorum` = -3, `all` = -4, `default` = -5; among failures, `ArgumentNullException` is exactly the empty string |
| `Quorums.ParsingIgnoresCase` | src/RiakClientTests/Models/QuorumTests.cs:109-127 | two strings with the same lower-case form parse alike |
| `Quorums.StringFormIsLowerCase` | src/RiakClientTests/Models/QuorumTests.cs:139-140 | the string form of a parsed quorum is the lower-cased input |
| `Quorums.FromIntAgreesWithName` | src/RiakClientTests/Models/QuorumTests.cs:137-144 | building from the integer of a parsed quorum gives an equal quorum, and its unsigned view lies between `uint.MaxValue - 4` and `uint.MaxValue - 1` |
| `Quorums.UnsignedWellKnownValues` | src/RiakClientTests/Models/QuorumTests.cs:59-97 | `uint.MaxValue - 1` to `- 4` are `one`, `quorum`, `all` and `default`; `uint.MaxValue` (that is, -1) is rejected |
| `Quorums.TestCases` | src/RiakClientTests/Models/QuorumTests.cs:29-104 | the fixed cases: `""` and `"frazzle"` are rejected with their exceptions; 0 and -2 to -5 are accepted; -1, -32 and -1024 are rejected; mixed-case names parse |
| `Quorums.ToStringInjective` | src/RiakClientTests/Models/QuorumTests.cs:139-144 | different quorums have different string forms |
| `Quorums.RoundTrips` | src/RiakClientTests/Models/QuorumTests.cs:136-144 | from the int and uint views every quorum is rebuilt, and from the string form every well-known one is |
| `MapReduce.RequestAfter` | CorrugatedIron/Models/RiakMapReduce.cs:97-102 | a non-empty request is kept verbatim; a null or empty one becomes the phases' texts concatenated in dictionary order |
| `MapReduce.PhasesText` | CorrugatedIron/Models/RiakMapReduce.cs:99-101 | no phases render as the empty text; otherwise the text starts with the first phase's rendering |
| `MapReduce.RequestIsCached` | CorrugatedIron/Models/RiakMapReduce.cs:97-107 | once a non-empty request text was produced, later calls keep it whatever phases were added |
| `MapReduce.PhasesTextAppend` | CorrugatedIron/Models/RiakMapReduce.cs:99-101 | adding a phase appends its text to the rendered phases |
| `MapReduce.AtMostOneMapAndOneReduce` | CorrugatedIron/Models/RiakMapReduce.cs:116 | phases with distinct keys, each `map` or `reduce`, are at most two |
| `MapReduce.RiakMapReduce.constructor` | CorrugatedIron/Models/RiakMapReduce.cs:38-41 | only the empty phase dictionary is set: filters, bucket, request and content type are null |
| `MapReduce.RiakMapReduce.WithRequest` | CorrugatedIron/Models/RiakMapReduce.cs:49-53 | request and content type as given, the content type `application/json` by default; no filters, no phases |
| `MapReduce.RiakMapReduce.WithBucket` | CorrugatedIron/Models/RiakMapReduce.cs:55-60 | bucket, request and content type as given, by default an empty request and `application/json`; no filters, no phases |
| `MapReduce.RiakMapReduce.Filter` | CorrugatedIron/Models/RiakMapReduce.cs:63-68 | throws `NullReferenceException` while `Filters` is null; otherwise appends the filter and returns the same builder; nothing else changes |
| `MapReduce.RiakMapReduce.MapModuleFunction` | CorrugatedIron/Models/RiakMapReduce.cs:71-74 | always throws `NotImplementedException` |
| `MapReduce.RiakMapReduce.Link` | CorrugatedIron/Models/RiakMapReduce.cs:90-93 | always throws `NotImplementedException` |
| `MapReduce.RiakMapReduce.AddMapReducePhase` | CorrugatedIron/Models/RiakMapReduce.cs:113-117 | throws `ArgumentException` exactly when a phase of that type exists, and then changes nothing; otherwise appends exactly one phase under its type; keys stay distinct |
| `MapReduce.RiakMapReduce.Map` | CorrugatedIron/Models/RiakMapReduce.cs:76-81 | adds one `map` phase with the given fields and returns the same builder, or fails as `AddMapReducePhase` does |
| `MapReduce.RiakMapReduce.Reduce` | CorrugatedIron/Models/RiakMapReduce.cs:83-88 | adds one `reduce` phase with the given fields and returns the same builder, or fails as `AddMapReducePhase` does |
| `MapReduce.RiakMapReduce.ToMessage` | CorrugatedIron/Models/RiakMapReduce.cs:95-111 | `Request` becomes `RequestAfter` of the old request and phases; the message carries that request and the builder's content type; nothing else changes |
| `ObjectIdConverter.ReadJson` | src/CorrugatedIron/Converters/RiakObjectIdConverter.cs:29-56 | the bucket is the text of the first token read and the key that of the second, each null unless that token is a string or property name; the reader advances `min(n, 3)` times over n remaining tokens; no bucket type |
| `ObjectIdConverter.ArrayForm` | src/CorrugatedIron/Converters/RiakObjectIdConverter.cs:37-46 | `["b", "k", …]` gives bucket `b` and key `k` |
| `ObjectIdConverter.ObjectForm` | src/CorrugatedIron/Converters/RiakObjectIdConverter.cs:37-46 | `{"b": "k", …}` gives bucket `b` and key `k` |
| `ObjectIdConverter.OtherTokensTakeAPosition` | src/CorrugatedIron/Converters/RiakObjectIdConverter.cs:48-52 | a first token of another type leaves the bucket null and still moves the key to the second token |
| `ObjectIdConverter.LaterTokensIgnored` | src/CorrugatedIron/Converters/RiakObjectIdConverter.cs:48-51 | tokens after the second do not change the id |
| `ObjectIdConverter.WriteJson` | src/CorrugatedIron/Converters/RiakObjectIdConverter.cs:58-61 | always throws `NotImplementedException` |
| `ObjectIdConverter.CanRead` | src/CorrugatedIron/Converters/RiakObjectIdConverter.cs:63-66 | true |
| `ObjectIdConverter.CanConvert` | src/CorrugatedIron/Converters/RiakObjectIdConverter.cs:68-71 | true for every type |
| `KeyFilters.NewSimilarTo` | CorrugatedIron/Models/MapReduce/KeyFilters/SimilarTo.cs:46-49 | the function name is `similar_to`, and the argument and distance are the constructor's |
| `KeyFilters.FunctionName` | CorrugatedIron/Models/MapReduce/KeyFilters/SimilarTo.cs:31-34 | every filter's function name is `similar_to` |
| `KeyFilters.Argument` | CorrugatedIron/Models/MapReduce/KeyFilters/SimilarTo.cs:36-39 | the argument, with the distance, is what the filter was constructed from |
| `KeyFilters.Distance` | CorrugatedIron/Models/MapReduce/KeyFilters/SimilarTo.cs:41-44 | the distance, with the argument, is what the filter was constructed from |
| `KeyFilters.ToJsonString` | CorrugatedIron/Models/MapReduce/KeyFilters/SimilarTo.cs:56-73 | a JSON array of exactly three elements: the name as a string, the argument as written, the distance as an integer |
| `KeyFilters.ToString` | CorrugatedIron/Models/MapReduce/KeyFilters/SimilarTo.cs:51-54 | equals `ToJsonString` |
| `KeyFilters.SimilarToRoundTrip` | CorrugatedIron/Models/MapReduce/KeyFilters/SimilarTo.cs:46-73 | a constructed filter is read back from its JSON form whenever its argument is |
| `KeyFilters.SimilarToJsonInjective` | CorrugatedIron/Models/MapReduce/KeyFilters/SimilarTo.cs:63-69 | with an injective argument rendering, filters with different arguments or distances serialise differently |

## Left out

- The endpoint's retry loop, node rotation, connection pool and wire codec: their source is not part of this model. The endpoint is a stand-in with one pooled connection, shared with other clients. It runs an operation once or fails with `NoConnections`, and it records the retry budget it was given without retrying.
- Laziness of LINQ and of streamed results: results are computed eagerly. A multi-get element that throws is an `Outcome` in its place. Abandoning a stream early, which would delay the lease release, is not modelled.
- Protobuf request construction, reply decoding and `Options.Populate`: the client methods take the encoded request and a decoding function.
- RiakMapReducePhase.ToString and Json.NET's rendering and escaping are parameters (`render`, `writeValue`). Key-filter output is a JSON value, not JSON text.
- Exception and error message texts. The `Batch` error message is the exception's message without the stack trace. The HTTP "Unexpected Status Code" text prints only the number, not the status name.
- The console and trace warnings of list keys and list buckets (process-wide static flags), and `RiakAsyncClient`.
- `GetServerStatus`, `ListKeysFromIndex`, link walking, data-type, search and the other operations of `RiakClient`: they are outside the modelled core.
- A live parallel example program (real sockets, timing, concurrency).
- RiakClientModel.BatchFunction: a user batch function is modelled as a fixed list of operations followed by what it returns or throws. A function that throws part-way, or whose later requests depend on earlier answers, is covered only through that final outcome.
- ClientResults.GetResult: the single `Get` builds its object with the `RiakObject` constructor that takes the whole content list, whose source is not part of this model. That constructor is taken to store the list as the object's contents, to set no siblings and never to throw. So a found response without content is a success here, while a multi-get or a put that returns the body throws for one.
- RiakClientModel.RiakClient.Batch: takes the delayed lease with `Acquire` and hands `helperBatchFun` the lease's release itself, which is what the endpoint's `UseDelayedConnection` does with the helper it is given. A method cannot be passed to the endpoint as a value, so the endpoint's own delayed-lease method covers the streamed read only.
- RiakClientModel.RiakClient.constructor: takes a non-null endpoint; a client built on a null endpoint is not modelled.
- Quorums.FromString: the tests fix only the empty string, the four names in mixed case, and one unknown word. Numeric strings and white space are read as unknown words (`ArgumentOutOfRangeException`). A null string is not modelled: the parameter is a non-null `string`.
- Quorums.FromInt: every positive number is taken as valid; the tests only show 0.
- Quorums.ToString: for a non-negative value it is taken to be the decimal digits; the tests only show the names.
- Quorums.Lower: lower-cases ASCII letters only, where `ToLowerInvariant` covers all of Unicode.
- The constants `map`, `reduce` and `application/json` are taken as the values of the phase-type and content-type constants; their source is not part of this model. The phase built by `AddMapReducePhase` is taken to report back the phase type it was given.
- MapReduce.RiakMapReduce: the public `MapReducePhases` property can be set to null or to a dictionary keyed inconsistently; the model keeps it non-null and well keyed.
- MapReduce.PhasesText: the phases are rendered in insertion order. .NET does not specify the enumeration order of a `Dictionary`, and the request text `ToMessage` builds depends on that order.
