/** The value types the client code reads and builds: object identifiers,
    objects and the decoded wire responses. Response payloads that the client
    only passes along (object contents, bucket properties) are opaque. */
module Models {
  import opened Clr
  import opened RiakResults

  type Bytes = seq<bv8>

  /** `RiakObjectId`: bucket type, bucket and key, each possibly null. */
  datatype RiakObjectId = RiakObjectId(bucketType: Option<string>, bucket: Option<string>, key: Option<string>)

  /** One stored value of an object (`RpbContent`), kept opaque. */
  datatype RpbContent = RpbContent(value: Bytes)

  /** `RiakObject`, restricted to what the client sets: its identity, the
      content list it was built from, its vector clock and its siblings. */
  datatype RiakObject = RiakObject(id: RiakObjectId, contents: seq<RpbContent>, vclock: Option<Bytes>, siblings: seq<RiakObject>)

  /** Decoded `RpbGetResp`; `vclock` is null when the key was not found. */
  datatype RpbGetResp = RpbGetResp(content: seq<RpbContent>, vclock: Option<Bytes>)

  /** Decoded `RpbPutResp`. */
  datatype RpbPutResp = RpbPutResp(content: seq<RpbContent>, vclock: Option<Bytes>)

  /** Decoded `RpbListKeysResp`: the names carried by one frame and the
      frame's `done` flag. */
  datatype RpbListKeysResp = RpbListKeysResp(keys: seq<string>, done: bool)

  /** Decoded `RpbListBucketsResp`: one frame of bucket names. */
  datatype RpbListBucketsResp = RpbListBucketsResp(buckets: seq<string>, done: bool)

  /** Decoded `RpbIndexResp`: the matching keys, the paging continuation and
      the `done` flag. */
  datatype RpbIndexResp = RpbIndexResp(keys: seq<string>, continuation: Option<string>, done: bool)

  /** `RiakIndexResult`, built from the raw index result. */
  datatype RiakIndexResult = RiakIndexResult(includeTerms: bool, response: RiakResult<RpbIndexResp>)

  /** The part of `RiakRestResponse` the client inspects. */
  datatype RiakRestResponse = RiakRestResponse(statusCode: nat, body: string)
}
