/** `RiakMapReduce`: a mutable builder for a map-reduce request. It holds
    the key filters, the phases (a dictionary keyed by phase type, so at most
    one `map` and one `reduce` phase), the bucket, a request text and its
    content type. `ToMessage` renders the phases into the request text the
    first time one is needed and keeps it from then on. How a phase renders
    itself (`RiakMapReducePhase.ToString`) is a parameter. */
module MapReduce {
  import opened Clr
  import opened KeyFilters

  const MapPhaseType := "map"
  const ReducePhaseType := "reduce"
  const ApplicationJson := "application/json"

  /** `RiakMapReducePhase`, as `AddMapReducePhase` fills it in. */
  datatype RiakMapReducePhase = RiakMapReducePhase(phaseType: string, language: string, keep: bool,
                                                   source: string, name: string)

  /** `RpbMapRedReq`: the request text and its content type. */
  datatype RpbMapRedReq = RpbMapRedReq(request: string, contentType: Option<string>)

  /** The phases in dictionary order, each keyed by its type. */
  type Phases = seq<(string, RiakMapReducePhase)>

  predicate HasKey(phases: Phases, key: string)
  {
    exists i :: 0 <= i < |phases| && phases[i].0 == key
  }

  /** No key twice, and every phase is stored under its own type. */
  predicate WellKeyed(phases: Phases)
  {
    && (forall i, j :: 0 <= i < j < |phases| ==> phases[i].0 != phases[j].0)
    && (forall i :: 0 <= i < |phases| ==> phases[i].0 == phases[i].1.phaseType)
  }

  /** The phases rendered and concatenated in dictionary order. */
  function PhasesText(phases: Phases, render: RiakMapReducePhase -> string): (r: string)
    ensures phases == [] ==> r == ""
    ensures phases != [] ==> render(phases[0].1) <= r
  {
    if phases == [] then "" else PhasesText(phases[..|phases| - 1], render) + render(phases[|phases| - 1].1)
  }

  predicate IsNullOrEmpty(s: Option<string>)
  {
    s.None? || s.value == ""
  }

  /** The request text `ToMessage` leaves behind: a non-empty request as it
      is, otherwise the rendered phases. */
  function RequestAfter(request: Option<string>, phases: Phases, render: RiakMapReducePhase -> string): (r: string)
    ensures !IsNullOrEmpty(request) ==> r == request.value
    ensures IsNullOrEmpty(request) ==> r == PhasesText(phases, render)
  {
    if IsNullOrEmpty(request) then PhasesText(phases, render) else request.value
  }

  /** Once a non-empty request text was produced, later calls keep it,
      whatever phases were added meanwhile. */
  lemma RequestIsCached(request: Option<string>, phases: Phases, later: Phases, render: RiakMapReducePhase -> string)
    requires RequestAfter(request, phases, render) != ""
    ensures RequestAfter(Some(RequestAfter(request, phases, render)), later, render) == RequestAfter(request, phases, render)
  {
  }

  /** A request left empty by the caller follows the phases: adding one
      appends its rendering. */
  lemma {:induction false} PhasesTextAppend(phases: Phases, key: string, phase: RiakMapReducePhase,
                                            render: RiakMapReducePhase -> string)
    ensures PhasesText(phases + [(key, phase)], render) == PhasesText(phases, render) + render(phase)
  {
    assert (phases + [(key, phase)])[..|phases|] == phases;
  }

  /** The keys of the phases. */
  function Keys(phases: Phases): set<string>
  {
    set i | 0 <= i < |phases| :: phases[i].0
  }

  /** Distinct keys: as many keys as phases. */
  lemma {:induction false} KeysCount(phases: Phases)
    requires WellKeyed(phases)
    ensures |Keys(phases)| == |phases|
  {
    if phases != [] {
      var init := phases[..|phases| - 1];
      assert WellKeyed(init);
      KeysCount(init);
      var last := phases[|phases| - 1].0;
      assert Keys(phases) == Keys(init) + {last};
      assert last !in Keys(init);
    }
  }

  /** Phases added only by `Map` and `Reduce` are at most two. */
  lemma AtMostOneMapAndOneReduce(phases: Phases)
    requires WellKeyed(phases)
    requires forall i :: 0 <= i < |phases| ==> phases[i].0 == MapPhaseType || phases[i].0 == ReducePhaseType
    ensures |phases| <= 2
  {
    KeysCount(phases);
    var both := {MapPhaseType, ReducePhaseType};
    assert Keys(phases) <= both;
    assert both == Keys(phases) + (both - Keys(phases));
    assert |both| == 2;
  }

  class RiakMapReduce {
    var Filters: Option<seq<Json>>
    var MapReducePhases: Phases
    var Bucket: Option<string>
    var Request: Option<string>
    var ContentType: Option<string>

    ghost predicate Valid()
      reads this
    {
      WellKeyed(MapReducePhases)
    }

    /** `RiakMapReduce()`: only the phase dictionary is set. */
    constructor ()
      ensures Valid()
      ensures Filters.None? && MapReducePhases == [] && Bucket.None? && Request.None? && ContentType.None?
    {
      Filters := None;
      MapReducePhases := [];
      Bucket := None;
      Request := None;
      ContentType := None;
    }

    /** `RiakMapReduce(request, contentType = application/json)`. */
    constructor WithRequest(request: Option<string>, contentType: Option<string> := Some(ApplicationJson))
      ensures Valid()
      ensures Filters.None? && MapReducePhases == [] && Bucket.None?
      ensures Request == request && ContentType == contentType
    {
      Filters := None;
      MapReducePhases := [];
      Bucket := None;
      Request := request;
      ContentType := contentType;
    }

    /** `RiakMapReduce(bucket, request = "", contentType = application/json)`. */
    constructor WithBucket(bucket: Option<string>, request: Option<string> := Some(""),
                           contentType: Option<string> := Some(ApplicationJson))
      ensures Valid()
      ensures Filters.None? && MapReducePhases == []
      ensures Bucket == bucket && Request == request && ContentType == contentType
    {
      Filters := None;
      MapReducePhases := [];
      Bucket := bucket;
      Request := request;
      ContentType := contentType;
    }

    /** `Filter(filter)`: appends to `Filters`, which no constructor sets. */
    method Filter(filter: Json) returns (r: Outcome<RiakMapReduce>)
      modifies this
      ensures old(Filters).None? ==> r == Throws(NullReference) && Filters == old(Filters)
      ensures old(Filters).Some? ==> r == Returns(this) && Filters == Some(old(Filters).value + [filter])
      ensures MapReducePhases == old(MapReducePhases) && Bucket == old(Bucket)
      ensures Request == old(Request) && ContentType == old(ContentType)
    {
      if Filters.None? {
        r := Throws(NullReference);
      } else {
        Filters := Some(Filters.value + [filter]);
        r := Returns(this);
      }
    }

    /** `Map(module, function, args)` is not implemented. */
    method MapModuleFunction(moduleName: string, functionName: string, args: Option<seq<Json>>) returns (r: Outcome<RiakMapReduce>)
      ensures r == Throws(NotImplemented)
    {
      r := Throws(NotImplemented);
    }

    /** `Link()` is not implemented. */
    method Link() returns (r: Outcome<RiakMapReduce>)
      ensures r == Throws(NotImplemented)
    {
      r := Throws(NotImplemented);
    }

    /** `AddMapReducePhase`: `Dictionary.Add` of a new phase under its type;
        a type already present is `ArgumentException` and changes nothing. */
    method AddMapReducePhase(keep: bool, language: string, source: string, name: string, phaseType: string)
      returns (r: Outcome<()>)
      requires Valid()
      modifies this
      ensures Valid()
      ensures r.Throws? <==> HasKey(old(MapReducePhases), phaseType)
      ensures r.Throws? ==> r.error == DuplicateKey && MapReducePhases == old(MapReducePhases)
      ensures r.Returns? ==> MapReducePhases == old(MapReducePhases)
                               + [(phaseType, RiakMapReducePhase(phaseType, language, keep, source, name))]
      ensures Filters == old(Filters) && Bucket == old(Bucket) && Request == old(Request) && ContentType == old(ContentType)
    {
      var phase := RiakMapReducePhase(phaseType, language, keep, source, name);
      if HasKey(MapReducePhases, phase.phaseType) {
        r := Throws(DuplicateKey);
      } else {
        MapReducePhases := MapReducePhases + [(phase.phaseType, phase)];
        r := Returns(());
      }
    }

    /** `Map(keep, language, source, name)`: adds the `map` phase. */
    method Map(keep: bool, language: string, source: string, name: string) returns (r: Outcome<RiakMapReduce>)
      requires Valid()
      modifies this
      ensures Valid()
      ensures r.Throws? <==> HasKey(old(MapReducePhases), MapPhaseType)
      ensures r.Throws? ==> r.error == DuplicateKey && MapReducePhases == old(MapReducePhases)
      ensures r.Returns? ==> r.value == this && MapReducePhases == old(MapReducePhases)
                               + [(MapPhaseType, RiakMapReducePhase(MapPhaseType, language, keep, source, name))]
      ensures Filters == old(Filters) && Bucket == old(Bucket) && Request == old(Request) && ContentType == old(ContentType)
    {
      var added := AddMapReducePhase(keep, language, source, name, MapPhaseType);
      if added.Throws? {
        r := Throws(added.error);
      } else {
        r := Returns(this);
      }
    }

    /** `Reduce(keep, language, source, name)`: adds the `reduce` phase. */
    method Reduce(keep: bool, language: string, source: string, name: string) returns (r: Outcome<RiakMapReduce>)
      requires Valid()
      modifies this
      ensures Valid()
      ensures r.Throws? <==> HasKey(old(MapReducePhases), ReducePhaseType)
      ensures r.Throws? ==> r.error == DuplicateKey && MapReducePhases == old(MapReducePhases)
      ensures r.Returns? ==> r.value == this && MapReducePhases == old(MapReducePhases)
                               + [(ReducePhaseType, RiakMapReducePhase(ReducePhaseType, language, keep, source, name))]
      ensures Filters == old(Filters) && Bucket == old(Bucket) && Request == old(Request) && ContentType == old(ContentType)
    {
      var added := AddMapReducePhase(keep, language, source, name, ReducePhaseType);
      if added.Throws? {
        r := Throws(added.error);
      } else {
        r := Returns(this);
      }
    }

    /** `ToMessage()`: fills in a null or empty `Request` with the rendered
        phases (the `StringBuilder` loop), then builds the message from
        `Request` and `ContentType`. */
    method ToMessage(render: RiakMapReducePhase -> string) returns (m: RpbMapRedReq)
      requires Valid()
      modifies this
      ensures Valid()
      ensures Request == Some(RequestAfter(old(Request), old(MapReducePhases), render))
      ensures m == RpbMapRedReq(Request.value, ContentType)
      ensures Filters == old(Filters) && MapReducePhases == old(MapReducePhases)
      ensures Bucket == old(Bucket) && ContentType == old(ContentType)
    {
      if IsNullOrEmpty(Request) {
        var sb := "";
        var i := 0;
        while i < |MapReducePhases|
          invariant 0 <= i <= |MapReducePhases|
          invariant sb == PhasesText(MapReducePhases[..i], render)
        {
          assert MapReducePhases[..i + 1][..i] == MapReducePhases[..i];
          sb := sb + render(MapReducePhases[i].1);
          i := i + 1;
        }
        assert MapReducePhases[..i] == MapReducePhases;
        Request := Some(sb);
      }
      m := RpbMapRedReq(Request.value, ContentType);
    }
  }
}
