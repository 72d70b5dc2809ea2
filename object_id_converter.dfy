/** `RiakObjectIdConverter`: a JSON converter that reads an object id from
    the tokens that follow the reader's current one. It reads at most three
    tokens: the first is the bucket and the second the key, each only if it is
    a string or a property name. So `["bucket", "key"]` and
    `{"bucket": "key"}` both denote (bucket, key). The token reader is
    modelled as the sequence of tokens still to be read. */
module ObjectIdConverter {
  import Clr
  import Models

  /** Json.NET's `JsonToken`. */
  datatype JsonToken =
    | None | StartObject | StartArray | StartConstructor | PropertyName | Comment | Raw | Integer | Float
    | String | Boolean | Null | Undefined | EndObject | EndArray | EndConstructor | Date | Bytes

  /** One token as the reader presents it: its type and `Value.ToString()`. */
  datatype Token = Token(tokenType: JsonToken, value: string)

  predicate IsText(t: Token)
  {
    t.tokenType == String || t.tokenType == PropertyName
  }

  /** The text of the token at `pos`, if there is one and it is a string or
      a property name. */
  function TextAt(tokens: seq<Token>, pos: nat): (r: Clr.Option<string>)
    ensures r.Some? <==> pos < |tokens| && IsText(tokens[pos])
    ensures r.Some? ==> r.value == tokens[pos].value
  {
    if pos < |tokens| && IsText(tokens[pos]) then Clr.Some(tokens[pos].value) else Clr.None
  }

  /** `new RiakObjectId(bucket, key)`: no bucket type. */
  function ObjectIdOf(bucket: Clr.Option<string>, key: Clr.Option<string>): Models.RiakObjectId
  {
    Models.RiakObjectId(Clr.None, bucket, key)
  }

  /** `ReadJson`: the `while (reader.Read())` loop with its position counter.
      `consumed` is how many tokens the reader advanced over. */
  method ReadJson(tokens: seq<Token>) returns (id: Models.RiakObjectId, consumed: nat)
    ensures id == ObjectIdOf(TextAt(tokens, 0), TextAt(tokens, 1))
    ensures consumed == Clr.Min(|tokens|, 3)
  {
    var pos: nat := 0;
    var bucket: Clr.Option<string> := Clr.None;
    var key: Clr.Option<string> := Clr.None;
    consumed := 0;
    while consumed < |tokens|
      invariant consumed == pos <= 2 && consumed <= |tokens|
      invariant bucket == (if pos > 0 then TextAt(tokens, 0) else Clr.None)
      invariant key == (if pos > 1 then TextAt(tokens, 1) else Clr.None)
    {
      var token := tokens[consumed];
      consumed := consumed + 1;
      if IsText(token) {
        if pos == 0 {
          bucket := Clr.Some(token.value);
        }
        if pos == 1 {
          key := Clr.Some(token.value);
        }
      }
      if pos > 1 {
        break;
      }
      pos := pos + 1;
    }
    id := ObjectIdOf(bucket, key);
  }

  /** `WriteJson` is not implemented. */
  function WriteJson(value: Models.RiakObjectId): (r: Clr.Outcome<()>)
    ensures r == Clr.Throws(Clr.NotImplemented)
  {
    Clr.Throws(Clr.NotImplemented)
  }

  /** `CanRead`. */
  function CanRead(): (b: bool)
    ensures b
  {
    true
  }

  /** A .NET type, by name. */
  type TypeName = string

  /** `CanConvert`: every type. */
  function CanConvert(objectType: TypeName): (b: bool)
    ensures b
  {
    true
  }

  // ---------------------------------------------------------------- the two input forms

  /** The array form `["bucket", "key"]`. */
  lemma ArrayForm(bucket: string, key: string, rest: seq<Token>)
    ensures TextAt([Token(String, bucket), Token(String, key)] + rest, 0) == Clr.Some(bucket)
    ensures TextAt([Token(String, bucket), Token(String, key)] + rest, 1) == Clr.Some(key)
  {
  }

  /** The object form `{"bucket": "key"}`. */
  lemma ObjectForm(bucket: string, key: string, rest: seq<Token>)
    ensures TextAt([Token(PropertyName, bucket), Token(String, key)] + rest, 0) == Clr.Some(bucket)
    ensures TextAt([Token(PropertyName, bucket), Token(String, key)] + rest, 1) == Clr.Some(key)
  {
  }

  /** A token of another type still takes its position: the one after it
      is the key, and the bucket stays null. */
  lemma OtherTokensTakeAPosition(first: Token, key: string)
    requires !IsText(first)
    ensures TextAt([first, Token(String, key)], 0) == Clr.None
    ensures TextAt([first, Token(String, key)], 1) == Clr.Some(key)
  {
  }

  /** Only the first two tokens matter: what follows changes nothing. */
  lemma LaterTokensIgnored(tokens: seq<Token>, more: seq<Token>)
    requires |tokens| >= 2
    ensures TextAt(tokens + more, 0) == TextAt(tokens, 0) && TextAt(tokens + more, 1) == TextAt(tokens, 1)
  {
  }
}
