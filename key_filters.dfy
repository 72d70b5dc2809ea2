/** Map-reduce key filters, in the form they are sent: a JSON value. The
    `SimilarTo` filter keeps keys within a Levenshtein distance of its
    argument; it is written as the array `["similar_to", argument, distance]`.
    JSON text and its escaping belong to the JSON library and are not
    modelled: a filter's serialisation is the JSON value the writer is given. */
module KeyFilters {
  import opened Clr

  /** A JSON value. */
  datatype Json =
    | JNull
    | JBool(b: bool)
    | JInt(n: int)
    | JString(s: string)
    | JArray(items: seq<Json>)
    | JObject(members: seq<(string, Json)>)

  const SimilarToName := "similar_to"

  /** `SimilarTo<T>`: its state is the read-only triple of function name,
      argument and distance. Every constructor puts `similar_to` in the first
      place, so only the argument and the distance are stored. */
  datatype SimilarTo<T> = SimilarTo(argument: T, distance: Int32)

  /** `new SimilarTo<T>(arg, distance)`. */
  function NewSimilarTo<T>(arg: T, distance: Int32): (f: SimilarTo<T>)
    ensures FunctionName(f) == SimilarToName
    ensures f.argument == arg && f.distance == distance
  {
    SimilarTo(arg, distance)
  }

  /** `FunctionName`: the same for every filter. */
  function FunctionName<T>(f: SimilarTo<T>): (name: string)
    ensures name == SimilarToName
  {
    SimilarToName
  }

  /** `Argument`: the filter is the construction from it and its distance. */
  function Argument<T>(f: SimilarTo<T>): (arg: T)
    ensures NewSimilarTo(arg, f.distance) == f
  {
    f.argument
  }

  /** `Distance`: the filter is the construction from its argument and it. */
  function Distance<T>(f: SimilarTo<T>): (d: Int32)
    ensures NewSimilarTo(f.argument, d) == f
  {
    f.distance
  }

  /** `ToJsonString()`: a three-element array of the name, the argument as
      the writer renders a `T` (`writeValue`), and the distance as an integer. */
  function ToJsonString<T>(f: SimilarTo<T>, writeValue: T -> Json): (j: Json)
    ensures j.JArray? && |j.items| == 3
    ensures j.items[0] == JString(FunctionName(f))
    ensures j.items[1] == writeValue(Argument(f))
    ensures j.items[2] == JInt(Distance(f)) && j.items[2].JInt?
  {
    JArray([JString(FunctionName(f)), writeValue(Argument(f)), JInt(Distance(f))])
  }

  /** `ToString()` is the JSON form. */
  function ToString<T>(f: SimilarTo<T>, writeValue: T -> Json): (s: Json)
    ensures s == ToJsonString(f, writeValue)
  {
    ToJsonString(f, writeValue)
  }

  /** Reads a similar-to filter back from its JSON form (a reference decoder,
      not part of the client). */
  function FromJson<T>(j: Json, readValue: Json -> Option<T>): (r: Option<SimilarTo<T>>)
    ensures r.Some? ==> j.JArray? && |j.items| == 3 && j.items[0] == JString(SimilarToName)
  {
    if j.JArray? && |j.items| == 3 && j.items[0] == JString(SimilarToName) && j.items[2].JInt?
       && -TwoTo31 <= j.items[2].n < TwoTo31 && readValue(j.items[1]).Some?
    then Some(NewSimilarTo(readValue(j.items[1]).value, j.items[2].n))
    else None
  }

  /** A filter built by the constructor is read back from its JSON form
      whenever its argument is. */
  lemma SimilarToRoundTrip<T>(arg: T, distance: Int32, writeValue: T -> Json, readValue: Json -> Option<T>)
    requires readValue(writeValue(arg)) == Some(arg)
    ensures FromJson(ToJsonString(NewSimilarTo(arg, distance), writeValue), readValue) == Some(NewSimilarTo(arg, distance))
  {
  }

  /** Filters with different arguments or distances serialise differently
      when the argument rendering is injective. */
  lemma SimilarToJsonInjective<T>(a1: T, d1: Int32, a2: T, d2: Int32, writeValue: T -> Json)
    requires writeValue(a1) == writeValue(a2) ==> a1 == a2
    ensures ToJsonString(NewSimilarTo(a1, d1), writeValue) == ToJsonString(NewSimilarTo(a2, d2), writeValue)
            ==> a1 == a2 && d1 == d2
  {
    var j1, j2 := ToJsonString(NewSimilarTo(a1, d1), writeValue), ToJsonString(NewSimilarTo(a2, d2), writeValue);
    if j1 == j2 {
      assert j1.items[1] == j2.items[1] && j1.items[2] == j2.items[2];
    }
  }
}
