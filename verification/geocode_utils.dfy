/**
 * The helpers of `utils/geocode.py` that the geocoding stages share: the cleanup of an
 * LLM reply that may be wrapped in a Markdown fence, the mapping from Pelias features to
 * geocoding candidates, the parameter list of a structured Pelias query and the Geocodio
 * lookup with its fall-backs.
 *
 * The services are parameters: a Pelias or Geocodio response is an `Option<Json>` that is
 * `None` when the request or its JSON decoding raised, and an LLM reply is an
 * `Option<string>` that is `None` when the call raised.
 */
module GeocodeUtils {
  import opened Wrappers
  import opened PyJson
  import opened PyText
  import opened Seqs

  const Fence: string := "```"

  // ---------------------------------------------------------------- reply cleanup

  /**
   * The three cleanup steps applied to an LLM reply before it is parsed: strip; if the text
   * starts and ends with a fence, drop three characters at each end and strip; if it then
   * starts with `json`, drop those four characters and strip.
   */
  function CleanFenced(raw: string): (r: string)
    ensures Trimmed(r)
  {
    StripSpec(raw);
    Untag(Unfence(Strip(raw)))
  }

  /** Step two of the cleanup: a text that starts and ends with a fence loses both, then is stripped. */
  function Unfence(c: string): (r: string)
    ensures Trimmed(c) ==> Trimmed(r)
  {
    if StartsWith(c, Fence) && EndsWith(c, Fence) then
      StripSpec(DropBoth(c, 3));
      Strip(DropBoth(c, 3))
    else c
  }

  /** Step three of the cleanup: a leading `json` tag is dropped, then the text is stripped. */
  function Untag(c: string): (r: string)
    ensures Trimmed(c) ==> Trimmed(r)
  {
    if StartsWith(c, "json") then
      StripSpec(c[4..]);
      Strip(c[4..])
    else c
  }

  /** A reply that is already bare JSON text (no padding, no fence, no tag) is left as it is. */
  lemma CleanFencedPlain(s: string)
    requires Trimmed(s) && !StartsWith(s, Fence) && !StartsWith(s, "json")
    ensures CleanFenced(s) == s
  {
    StripOfTrimmed(s);
  }

  /** A reply of the form "```json\n" + body + "\n```". */
  function JsonBlock(body: string): string {
    Fence + ("json" + ("\n" + body + "\n")) + Fence
  }

  /** A reply of the form "```\n" + body + "\n```". */
  function BareBlock(body: string): string {
    Fence + ("\n" + body + "\n") + Fence
  }

  lemma FencedTrimmed(mid: string)
    ensures Strip(Fence + mid + Fence) == Fence + mid + Fence
  {
    var raw := Fence + mid + Fence;
    assert raw[0] == '`' && raw[|raw| - 1] == '`';
    StripOfTrimmed(raw);
  }

  lemma UnfenceBlock(mid: string)
    ensures Unfence(Fence + mid + Fence) == Strip(mid)
  {
    var raw := Fence + mid + Fence;
    assert raw[..3] == Fence;
    assert raw[|raw| - 3..] == Fence;
    assert raw[3..|raw| - 3] == mid;
  }

  lemma UntagJsonLine(b: string)
    ensures Untag(Strip("json" + ("\n" + b + "\n"))) == Strip(b)
  {
    var u := "\n" + b + "\n";
    var m := "json" + u;
    assert m[0] == 'j';
    TrimLeftNonSpace(m);
    TrimRightAfter("json", u);
    var c := "json" + TrimRight(u);
    assert Strip(m) == c;
    assert c[..4] == "json" && c[4..] == TrimRight(u);
    StripTrimRight(u);
    NewlinePadded(b);
  }

  /** A fenced block tagged `json` cleans to its stripped body, whatever the body is. */
  lemma CleanFencedBlock(b: string)
    ensures CleanFenced(JsonBlock(b)) == Strip(b)
  {
    var mid := "json" + ("\n" + b + "\n");
    FencedTrimmed(mid);
    UnfenceBlock(mid);
    UntagJsonLine(b);
  }

  /** An untagged fenced block cleans to its stripped body, unless that body itself starts with `json`. */
  lemma CleanFencedBareBlock(b: string)
    requires !StartsWith(Strip(b), "json")
    ensures CleanFenced(BareBlock(b)) == Strip(b)
  {
    UnfenceBareBlock(b);
  }

  lemma UnfenceBareBlock(b: string)
    ensures Unfence(Strip(BareBlock(b))) == Strip(b)
  {
    var mid := "\n" + b + "\n";
    FencedTrimmed(mid);
    UnfenceBlock(mid);
    NewlinePadded(b);
  }

  lemma NewlinePadded(b: string)
    ensures Strip("\n" + b + "\n") == Strip(b)
  {
    assert AllSpace("\n") by {
      assert IsSpace("\n"[0]);
    }
    StripPadded("\n", b, "\n");
  }

  /**
   * `get_city_state`: the reply (`None` when the LLM call raised) is cleaned and handed to the
   * JSON parser; a failed call or an unparsable reply gives `None`.
   */
  function GetCityState(reply: Option<string>, parse: string -> Option<Json>): (r: Option<Json>)
    ensures reply.None? ==> r.None?
  {
    if reply.None? then None else parse(CleanFenced(reply.value))
  }

  /** A fenced `json` reply is parsed from its stripped body. */
  lemma GetCityStateFenced(b: string, parse: string -> Option<Json>)
    ensures GetCityState(Some(JsonBlock(b)), parse) == parse(Strip(b))
  {
    CleanFencedBlock(b);
  }

  // ---------------------------------------------------------------- features to candidates

  /** A boundary level of a candidate and the Pelias property keys that hold its id and name. */
  datatype Level = Level(key: string, idKey: string, nameKey: string)

  const NeighbourhoodLevel: Level := Level("neighborhood", "neighbourhood_gid", "neighbourhood")
  const CityLevel: Level := Level("city", "locality_gid", "locality")
  const CountyLevel: Level := Level("county", "county_gid", "county")
  const StateLevel: Level := Level("state", "region_gid", "region")

  /** The levels a candidate carries: the neighbourhood only in the `utils/geocode.py` variant. */
  function Levels(withNeighbourhood: bool): seq<Level> {
    (if withNeighbourhood then [NeighbourhoodLevel] else []) + [CityLevel, CountyLevel, StateLevel]
  }

  function Boundary(props: Record, l: Level): Json {
    JObj(map["id" := Get(props, l.idKey, JNull), "name" := Get(props, l.nameKey, JNull)])
  }

  /** The `boundaries` object of a candidate: one `{id, name}` object per level. */
  function Boundaries(props: Record, withNeighbourhood: bool): Record {
    var m := map[
      CityLevel.key := Boundary(props, CityLevel),
      CountyLevel.key := Boundary(props, CountyLevel),
      StateLevel.key := Boundary(props, StateLevel)];
    if withNeighbourhood then m[NeighbourhoodLevel.key := Boundary(props, NeighbourhoodLevel)] else m
  }

  /**
   * The candidate built from one feature. Every `f.get("properties").get(...)` raises unless
   * the feature is a dict whose `properties` is a dict; that is the only way to fail.
   */
  function FeatureCandidate(f: Json, withNeighbourhood: bool): (r: Option<Json>)
    ensures r.Some? <==> f.JObj? && Get(f.fields, "properties", JNull).JObj?
  {
    if !f.JObj? then None
    else
      var p := Get(f.fields, "properties", JNull);
      if !p.JObj? then None
      else
        var props := p.fields;
        var confidence := map[
          "score" := Get(props, "confidence", JNull),
          "match_type" := Get(props, "match_type", JNull),
          "accuracy" := Get(props, "accuracy", JNull)];
        Some(JObj(map[
          "id" := Get(props, "id", JNull),
          "label" := Get(props, "label", JNull),
          "geometry" := Get(f.fields, "geometry", JNull),
          "confidence" := JObj(confidence),
          "boundaries" := JObj(Boundaries(props, withNeighbourhood))]))
  }

  /**
   * A candidate carries the feature's id, its confidence score and the boundaries built from
   * the feature's properties.
   */
  lemma FeatureCandidateShape(f: Json, withNeighbourhood: bool)
    requires FeatureCandidate(f, withNeighbourhood).Some?
    ensures var c := FeatureCandidate(f, withNeighbourhood).value;
      var props := f.fields["properties"].fields;
      c.JObj? && c.fields.Keys == {"id", "label", "geometry", "confidence", "boundaries"} &&
      c.fields["id"] == Get(props, "id", JNull) &&
      c.fields["confidence"].JObj? && "score" in c.fields["confidence"].fields &&
      c.fields["confidence"].fields["score"] == Get(props, "confidence", JNull) &&
      c.fields["boundaries"] == JObj(Boundaries(props, withNeighbourhood))
  {
  }

  /**
   * The boundaries hold one entry per level (city, county, state and, in the
   * `utils/geocode.py` variant, neighbourhood), each with that level's id and name.
   */
  lemma BoundariesShape(props: Record, withNeighbourhood: bool)
    ensures var b := Boundaries(props, withNeighbourhood);
      b.Keys == (set l | l in Levels(withNeighbourhood) :: l.key) &&
      forall l :: l in Levels(withNeighbourhood) ==> b[l.key] == Boundary(props, l)
  {
    BoundariesKeys(props, withNeighbourhood);
    BoundariesValues(props, withNeighbourhood);
  }

  lemma BoundariesKeys(props: Record, withNeighbourhood: bool)
    ensures Boundaries(props, withNeighbourhood).Keys == (set l | l in Levels(withNeighbourhood) :: l.key)
  {
    var keys := set l | l in Levels(withNeighbourhood) :: l.key;
    if withNeighbourhood {
      assert Levels(true) == [NeighbourhoodLevel, CityLevel, CountyLevel, StateLevel];
      assert keys == {"neighborhood", "city", "county", "state"};
    } else {
      assert Levels(false) == [CityLevel, CountyLevel, StateLevel];
      assert keys == {"city", "county", "state"};
    }
  }

  lemma BoundariesValues(props: Record, withNeighbourhood: bool)
    ensures forall l :: l in Levels(withNeighbourhood) ==>
      l.key in Boundaries(props, withNeighbourhood) && Boundaries(props, withNeighbourhood)[l.key] == Boundary(props, l)
  {
  }

  /** The candidates of a feature list, in feature order; `None` as soon as one feature cannot be mapped. */
  function Candidates(fs: seq<Json>, withNeighbourhood: bool): Option<seq<Json>> {
    MapSome(fs, f => FeatureCandidate(f, withNeighbourhood))
  }

  /**
   * The candidate list exists exactly when every feature can be mapped, and then holds one
   * candidate per feature, in feature order.
   */
  lemma CandidatesSpec(fs: seq<Json>, withNeighbourhood: bool)
    ensures var r := Candidates(fs, withNeighbourhood);
      (r.Some? <==> forall i :: 0 <= i < |fs| ==> FeatureCandidate(fs[i], withNeighbourhood).Some?) &&
      (r.Some? ==> (|r.value| == |fs| &&
        forall i :: 0 <= i < |fs| ==> r.value[i] == FeatureCandidate(fs[i], withNeighbourhood).value))
  {
    MapSomeSpec(fs, f => FeatureCandidate(f, withNeighbourhood));
  }

  /** The features a response's `for f in response.get('features')` visits, or `None` if that raises. */
  function Features(response: Option<Json>): Option<seq<Json>> {
    if response.None? || !response.value.JObj? then None
    else
      match LoopItems(Get(response.value.fields, "features", JNull))
      case Ok(fs) => Some(fs)
      case Err(_) => None
  }

  /** What a Pelias search returns for a response: the candidate list, or `None` when anything raised. */
  function SearchCandidates(response: Option<Json>, withNeighbourhood: bool): Option<seq<Json>> {
    match Features(response)
    case None => None
    case Some(fs) => Candidates(fs, withNeighbourhood)
  }

  /** The candidate-building loop of the Pelias search functions: one candidate per feature, in order. */
  method MapFeatures(response: Option<Json>, withNeighbourhood: bool) returns (r: Option<seq<Json>>)
    ensures r == SearchCandidates(response, withNeighbourhood)
  {
    var features := Features(response);
    if features.None? {
      return None;
    }
    var fs := features.value;
    var candidates: seq<Json> := [];
    var i := 0;
    while i < |fs|
      invariant 0 <= i <= |fs|
      invariant Candidates(fs[..i], withNeighbourhood) == Some(candidates)
    {
      var c := FeatureCandidate(fs[i], withNeighbourhood);
      assert fs[..i + 1][..i] == fs[..i];
      if c.None? {
        assert fs[i] == fs[..i + 1][i];
        CandidatesNoneExtends(fs, i + 1, withNeighbourhood);
        return None;
      }
      candidates := candidates + [c.value];
      i := i + 1;
    }
    assert fs[..i] == fs;
    return Some(candidates);
  }

  /** Once a prefix of the features cannot be mapped, neither can the whole list. */
  lemma CandidatesNoneExtends(fs: seq<Json>, n: nat, withNeighbourhood: bool)
    requires n <= |fs| && Candidates(fs[..n], withNeighbourhood).None?
    ensures Candidates(fs, withNeighbourhood).None?
  {
    CandidatesSpec(fs[..n], withNeighbourhood);
    CandidatesSpec(fs, withNeighbourhood);
    var k :| 0 <= k < n && FeatureCandidate(fs[..n][k], withNeighbourhood).None?;
    assert fs[..n][k] == fs[k];
  }

  // ---------------------------------------------------------------- structured query

  /** The address components of a structured query: the key read and the query parameter it becomes. */
  const Components: seq<(string, string)> := [
    ("address", "address"), ("neighborhood", "neighbourhood"), ("locality", "locality"),
    ("county", "county"), ("region", "region"), ("country", "country"), ("postalcode", "postalcode")]

  /**
   * The parameters for the components `comps`: one `name=quote(value)` per truthy component,
   * in order; a truthy value that is not a string makes `quote` raise TypeError.
   */
  function ComponentParams(obj: Record, comps: seq<(string, string)>, quote: string -> string): Result<seq<string>>
    decreases |comps|
  {
    if comps == [] then Ok([])
    else
      var c := comps[|comps| - 1];
      match ComponentParams(obj, comps[..|comps| - 1], quote)
      case Err(f) => Err(f)
      case Ok(ps) =>
        var v := Get(obj, c.0, JNull);
        if !Truthy(v) then Ok(ps)
        else if !v.JStr? then Err(TypeError)
        else Ok(ps + [c.1 + "=" + quote(v.s)])
  }

  /** The components of `comps` whose value in `obj` is truthy, in order. */
  function Present(obj: Record, comps: seq<(string, string)>): (r: seq<(string, string)>)
    ensures forall c :: c in r ==> c in comps && Truthy(Get(obj, c.0, JNull))
    decreases |comps|
  {
    if comps == [] then []
    else
      var c := comps[|comps| - 1];
      Present(obj, comps[..|comps| - 1]) + (if Truthy(Get(obj, c.0, JNull)) then [c] else [])
  }

  /** The component parameters fail exactly when some truthy component is not a string. */
  lemma {:induction false} ComponentParamsFail(obj: Record, comps: seq<(string, string)>, quote: string -> string)
    ensures ComponentParams(obj, comps, quote).Err? <==>
      exists i :: 0 <= i < |comps| && Truthy(Get(obj, comps[i].0, JNull)) && !Get(obj, comps[i].0, JNull).JStr?
    decreases |comps|
  {
    if comps != [] {
      var init := comps[..|comps| - 1];
      ComponentParamsFail(obj, init, quote);
      assert forall i :: 0 <= i < |init| ==> init[i] == comps[i];
    }
  }

  /** The component parameters are empty exactly when no component is truthy. */
  lemma {:induction false} ComponentParamsEmpty(obj: Record, comps: seq<(string, string)>, quote: string -> string)
    ensures ComponentParams(obj, comps, quote) == Ok([]) <==>
      forall i :: 0 <= i < |comps| ==> !Truthy(Get(obj, comps[i].0, JNull))
    decreases |comps|
  {
    if comps != [] {
      var init := comps[..|comps| - 1];
      ComponentParamsEmpty(obj, init, quote);
      assert forall i :: 0 <= i < |init| ==> init[i] == comps[i];
    }
  }

  /** One parameter per truthy component, in the order of `comps`, each naming its component. */
  lemma {:induction false} ComponentParamsPresent(obj: Record, comps: seq<(string, string)>, quote: string -> string)
    requires ComponentParams(obj, comps, quote).Ok?
    ensures var ps := ComponentParams(obj, comps, quote).value;
      var cs := Present(obj, comps);
      |ps| == |cs| &&
      forall j :: 0 <= j < |ps| ==>
        Get(obj, cs[j].0, JNull).JStr? && ps[j] == cs[j].1 + "=" + quote(Get(obj, cs[j].0, JNull).s)
    decreases |comps|
  {
    if comps != [] {
      ComponentParamsPresent(obj, comps[..|comps| - 1], quote);
    }
  }

  /** Once a prefix of the components fails, the whole list fails. */
  lemma {:induction false} ComponentParamsErrExtends(obj: Record, comps: seq<(string, string)>, n: nat, quote: string -> string)
    requires n <= |comps| && ComponentParams(obj, comps[..n], quote).Err?
    ensures ComponentParams(obj, comps, quote) == ComponentParams(obj, comps[..n], quote)
    decreases |comps| - n
  {
    if n == |comps| {
      assert comps[..n] == comps;
    } else {
      assert comps[..n + 1][..n] == comps[..n];
      ComponentParamsErrExtends(obj, comps, n + 1, quote);
    }
  }

  /**
   * The query parameters of `pelias_geocode_structured`: the API key followed by the
   * component parameters, `None` when no component is present, or the error `quote` raised.
   */
  function StructuredQuery(obj: Record, apiKey: string, quote: string -> string): Result<Option<seq<string>>> {
    match ComponentParams(obj, Components, quote)
    case Err(f) => Err(f)
    case Ok(ps) => Ok(if ps == [] then None else Some(["api_key=" + apiKey] + ps))
  }

  /**
   * The query is refused with TypeError exactly when a present component is not a string;
   * it is `None` exactly when no component is present; otherwise it is the API key followed
   * by one `name=quote(value)` parameter per present component, in the fixed order.
   */
  lemma StructuredQuerySpec(obj: Record, apiKey: string, quote: string -> string)
    ensures var q := StructuredQuery(obj, apiKey, quote);
      (q.Err? <==>
        exists i :: 0 <= i < |Components| && Truthy(Get(obj, Components[i].0, JNull)) && !Get(obj, Components[i].0, JNull).JStr?) &&
      (q.Err? ==> q.fault == TypeError) &&
      (q == Ok(None) <==> forall i :: 0 <= i < |Components| ==> !Truthy(Get(obj, Components[i].0, JNull)))
  {
    ComponentParamsFail(obj, Components, quote);
    ComponentParamsEmpty(obj, Components, quote);
    ComponentParamsTypeError(obj, Components, quote);
  }

  /** The only error the component parameters raise is TypeError. */
  lemma {:induction false} ComponentParamsTypeError(obj: Record, comps: seq<(string, string)>, quote: string -> string)
    ensures ComponentParams(obj, comps, quote).Err? ==> ComponentParams(obj, comps, quote).fault == TypeError
    decreases |comps|
  {
    if comps != [] {
      ComponentParamsTypeError(obj, comps[..|comps| - 1], quote);
    }
  }

  /**
   * The parameter builder of `pelias_geocode_structured`: the API key, then one parameter per
   * truthy component in the fixed order; `None` (and no request) when there is none.
   */
  method StructuredParams(obj: Record, apiKey: string, quote: string -> string) returns (r: Result<Option<seq<string>>>)
    ensures r == StructuredQuery(obj, apiKey, quote)
  {
    var params := ["api_key=" + apiKey];
    ComponentsPrefixes();
    assert params[1..] == [];
    params :- AddComponent(params, obj, 0, quote, apiKey);  // address
    params :- AddComponent(params, obj, 1, quote, apiKey);  // neighborhood
    params :- AddComponent(params, obj, 2, quote, apiKey);  // locality
    params :- AddComponent(params, obj, 3, quote, apiKey);  // county
    params :- AddComponent(params, obj, 4, quote, apiKey);  // region
    params :- AddComponent(params, obj, 5, quote, apiKey);  // country
    params :- AddComponent(params, obj, 6, quote, apiKey);  // postalcode
    if |params| == 1 {
      return Ok(None);
    }
    assert params == [params[0]] + params[1..];
    return Ok(Some(params));
  }

  lemma ComponentsPrefixes()
    ensures Components[..0] == [] && Components[..|Components|] == Components
  {
  }

  /** The `k`-th `if address_obj.get(key): params.append(f"{name}={quote(address_obj[key])}")` step. */
  method AddComponent(params: seq<string>, obj: Record, k: nat, quote: string -> string, ghost apiKey: string)
    returns (r: Result<seq<string>>)
    requires k < |Components|
    requires |params| >= 1 && ComponentParams(obj, Components[..k], quote) == Ok(params[1..])
    ensures r.Ok? ==> (|r.value| >= 1 && r.value[0] == params[0] &&
      ComponentParams(obj, Components[..k + 1], quote) == Ok(r.value[1..]))
    ensures r.Err? ==> ComponentParams(obj, Components, quote) == Err(r.fault)
    ensures r.Err? ==> StructuredQuery(obj, apiKey, quote) == Err(r.fault)
  {
    var (key, name) := Components[k];
    var v := Get(obj, key, JNull);
    assert Components[..k + 1][..k] == Components[..k];
    if Truthy(v) {
      if !v.JStr? {
        ComponentParamsErrExtends(obj, Components, k + 1, quote);
        return Err(TypeError);
      }
      r := Ok(params + [name + "=" + quote(v.s)]);
      assert r.value[1..] == params[1..] + [name + "=" + quote(v.s)];
      return r;
    }
    return Ok(params);
  }

  // ---------------------------------------------------------------- Geocodio

  /** `x < threshold`: numbers and booleans compare (`True` is 1); anything else raises TypeError. */
  function LessThan(x: Json, threshold: real): Option<bool> {
    match x
    case JNum(n) => Some(n < threshold)
    case JBool(b) => Some((if b then 1.0 else 0.0) < threshold)
    case _ => None
  }

  /** The collaborators of `geocodio_geocode`, as functions of what they are asked. */
  datatype GeocodioServices = GeocodioServices(
    cityStateReply: nat -> Option<string>,   // the LLM reply for the k-th result's fall-back
    parse: string -> Option<Json>,           // json.loads
    search: string -> Option<Json>,          // Pelias search response for a text
    reverse: (Json, Json) -> Option<Json>,   // Pelias reverse response for (lat, lng)
    show: Json -> string)                    // str() of a non-string value

  /** The reverse-geocoding answer: at most the first feature, mapped to a candidate. */
  function ReverseCandidates(response: Option<Json>): (r: Option<seq<Json>>)
    ensures r.Some? ==> |r.value| <= 1
  {
    if response.None? || !response.value.JObj? then None
    else
      match Get(response.value.fields, "features", JNull)
      case JArr(xs) =>
        var first := if xs == [] then [] else xs[..1];
        CandidatesSpec(first, true);
        Candidates(first, true)
      case JStr(s) => if s == [] then Some([]) else None
      case _ => None
  }

  /** The outcome of examining one Geocodio result: move on, or return an answer. */
  datatype Step = Next | Done(answer: Option<seq<Json>>)

  /** The text the fall-back searches for: `f"{city}, {state}"`. */
  function CityStateText(city: Json, state: Json, show: Json -> string): string {
    Str(city, show) + ", " + Str(state, show)
  }

  /**
   * One iteration of the result loop. A result below 0.8 accuracy falls back to a search on
   * the LLM's "city, state" when both are truthy, and otherwise moves on; any other result
   * is reverse-geocoded from its location. Everything that raises ends the loop with `None`.
   */
  function ResultStep(result: Json, k: nat, s: GeocodioServices): Step {
    if !result.JObj? then Done(None)
    else match LessThan(Get(result.fields, "accuracy", JNull), 0.8)
      case None => Done(None)
      case Some(true) => FallbackStep(GetCityState(s.cityStateReply(k), s.parse), s)
      case Some(false) => ReverseStep(Get(result.fields, "location", JNull), s)
  }

  /** The low-accuracy branch: search for the LLM's city and state, or move on when either is missing. */
  function FallbackStep(cityState: Option<Json>, s: GeocodioServices): Step {
    if cityState.None? || !cityState.value.JObj? then Done(None)
    else
      var city := Get(cityState.value.fields, "city", JNull);
      var state := Get(cityState.value.fields, "state", JNull);
      if Truthy(city) && Truthy(state) then
        Done(SearchCandidates(s.search(CityStateText(city, state, s.show)), true))
      else Next
  }

  /** The accurate branch: reverse-geocode the result's location. */
  function ReverseStep(loc: Json, s: GeocodioServices): Step {
    if !loc.JObj? then Done(None)
    else Done(ReverseCandidates(s.reverse(Get(loc.fields, "lat", JNull), Get(loc.fields, "lng", JNull))))
  }

  /** The step each result would take; the services are functions, so a step does not depend on the others. */
  function Steps(results: seq<Json>, s: GeocodioServices): (r: seq<Step>)
    ensures |r| == |results| && forall j :: 0 <= j < |results| ==> r[j] == ResultStep(results[j], j, s)
  {
    seq(|results|, j requires 0 <= j < |results| => ResultStep(results[j], j, s))
  }

  /** The answer of the first step from `k` on that is done; `None` once the steps run out. */
  function FirstDone(steps: seq<Step>, k: nat): Option<seq<Json>>
    decreases |steps| - k
  {
    if k >= |steps| then None
    else match steps[k]
      case Done(answer) => answer
      case Next => FirstDone(steps, k + 1)
  }

  /** The results a Geocodio response offers, or `None` when the function gives up before looping. */
  function GeocodioResults(hasClient: bool, response: Option<Json>): Option<seq<Json>> {
    if !hasClient || response.None? || !Truthy(response.value) || !response.value.JObj? then None
    else
      var results := Get(response.value.fields, "results", JNull);
      if !Truthy(results) || !results.JArr? then None else Some(results.items)
  }

  /** `geocodio_geocode` as a value: the answer of the first result that does not move on. */
  function GeocodioAnswer(hasClient: bool, response: Option<Json>, s: GeocodioServices): Option<seq<Json>> {
    match GeocodioResults(hasClient, response)
    case None => None
    case Some(results) => FirstDone(Steps(results, s), 0)
  }

  /**
   * `geocodio_geocode`: returns the answer of the first result that ends the loop, or `None`
   * when there is no client, no result, or every result moved on.
   */
  method GeocodioGeocode(hasClient: bool, response: Option<Json>, s: GeocodioServices) returns (r: Option<seq<Json>>)
    ensures r == GeocodioAnswer(hasClient, response, s)
    ensures !hasClient ==> r.None?
  {
    var offered := GeocodioResults(hasClient, response);
    if offered.None? {
      return None;
    }
    var results := offered.value;
    ghost var steps := Steps(results, s);
    var k := 0;
    while k < |results|
      invariant 0 <= k <= |results|
      invariant FirstDone(steps, 0) == FirstDone(steps, k)
    {
      var st := ResultStep(results[k], k, s);
      assert st == steps[k];
      if st.Done? {
        return st.answer;
      }
      k := k + 1;
    }
    return None;
  }

  /** Skipping steps that move on does not change the answer. */
  lemma {:induction false} SkipNext(steps: seq<Step>, from: nat, k: nat)
    requires from <= k <= |steps|
    requires forall j :: from <= j < k ==> steps[j].Next?
    ensures FirstDone(steps, from) == FirstDone(steps, k)
    decreases k - from
  {
    if from < k {
      SkipNext(steps, from + 1, k);
    }
  }

  /** The answer, if any, is the answer of some step from `k` on. */
  lemma {:induction false} FirstDoneAnswer(steps: seq<Step>, k: nat)
    requires FirstDone(steps, k).Some?
    ensures exists j :: k <= j < |steps| && steps[j] == Done(FirstDone(steps, k))
    decreases |steps| - k
  {
    if steps[k].Next? {
      FirstDoneAnswer(steps, k + 1);
    }
  }

  /** Results that all move on leave the function without an answer. */
  lemma ResultsExhausted(results: seq<Json>, s: GeocodioServices)
    requires forall j :: 0 <= j < |results| ==> ResultStep(results[j], j, s).Next?
    ensures FirstDone(Steps(results, s), 0).None?
  {
    SkipNext(Steps(results, s), 0, |results|);
  }

  /**
   * When the first result that does not move on has accuracy of at least 0.8, the answer is
   * its reverse-geocoded candidate list, which holds at most one candidate.
   */
  lemma AccurateResultAtMostOne(results: seq<Json>, k: nat, s: GeocodioServices)
    requires k < |results| && results[k].JObj?
    requires forall j :: 0 <= j < k ==> ResultStep(results[j], j, s).Next?
    requires LessThan(Get(results[k].fields, "accuracy", JNull), 0.8) == Some(false)
    ensures FirstDone(Steps(results, s), 0).Some? ==> |FirstDone(Steps(results, s), 0).value| <= 1
  {
    var steps := Steps(results, s);
    SkipNext(steps, 0, k);
    assert steps[k] == ResultStep(results[k], k, s);
  }

  /**
   * When the first result that does not move on has accuracy below 0.8 and the LLM names a
   * city and a state, the answer is the Pelias search for "city, state".
   */
  lemma LowAccuracyFallback(results: seq<Json>, k: nat, s: GeocodioServices, cs: Record)
    requires k < |results| && results[k].JObj?
    requires forall j :: 0 <= j < k ==> ResultStep(results[j], j, s).Next?
    requires LessThan(Get(results[k].fields, "accuracy", JNull), 0.8) == Some(true)
    requires GetCityState(s.cityStateReply(k), s.parse) == Some(JObj(cs))
    requires Truthy(Get(cs, "city", JNull)) && Truthy(Get(cs, "state", JNull))
    ensures FirstDone(Steps(results, s), 0) ==
      SearchCandidates(s.search(CityStateText(Get(cs, "city", JNull), Get(cs, "state", JNull), s.show)), true)
  {
    var steps := Steps(results, s);
    SkipNext(steps, 0, k);
    assert steps[k] == ResultStep(results[k], k, s);
    LowAccuracyStep(results[k], k, s, cs);
  }

  lemma LowAccuracyStep(result: Json, k: nat, s: GeocodioServices, cs: Record)
    requires result.JObj?
    requires LessThan(Get(result.fields, "accuracy", JNull), 0.8) == Some(true)
    requires GetCityState(s.cityStateReply(k), s.parse) == Some(JObj(cs))
    requires Truthy(Get(cs, "city", JNull)) && Truthy(Get(cs, "state", JNull))
    ensures ResultStep(result, k, s) ==
      Done(SearchCandidates(s.search(CityStateText(Get(cs, "city", JNull), Get(cs, "state", JNull), s.show)), true))
  {
    assert ResultStep(result, k, s) == FallbackStep(Some(JObj(cs)), s);
    FallbackSearch(cs, s);
  }

  lemma FallbackSearch(cs: Record, s: GeocodioServices)
    requires Truthy(Get(cs, "city", JNull)) && Truthy(Get(cs, "state", JNull))
    ensures FallbackStep(Some(JObj(cs)), s) ==
      Done(SearchCandidates(s.search(CityStateText(Get(cs, "city", JNull), Get(cs, "state", JNull), s.show)), true))
  {
  }
}
