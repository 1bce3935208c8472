/**
 * The last stage of the review workflow, `_consolidate_geocoded_locations` in
 * `worker/tasks/locations/review/consolidate.py`. Records whose strategy was validated go on
 * as they are; every other record is given a second chance: the LLM names its city and
 * state, Pelias searches for "city, state", and a top candidate scoring at least 0.9 becomes
 * the record's result. Records without both a city and a state are dropped. The survivors
 * are grouped by boundary (`ReviewBoundaries`), and the payload's `locations` is replaced by
 * `boundaries` and `places`.
 */
module ReviewConsolidate {
  import opened Wrappers
  import opened PyJson
  import opened Seqs
  import opened ReviewBoundaries
  import GeocodeUtils

  /** The collaborators of the fall-back, as functions of what they are asked. */
  datatype ReviewServices = ReviewServices(
    cityStateReply: Json -> Option<string>,  // the LLM's reply when asked for a location's city and state
    parse: string -> Option<Json>,           // json.loads
    search: string -> Option<Json>,          // the Pelias search response for a text
    show: Json -> string)                    // str() of a non-string value

  const FallbackRationale: string := "Fallback to city-state geocoding"

  /** The score a fall-back candidate needs. */
  const MinScore: real := 0.9

  /** `x >= threshold`: numbers and booleans compare, anything else raises TypeError. */
  function AtLeast(x: Json, threshold: real): (r: Result<bool>)
    ensures x.JNum? ==> r == Ok(x.n >= threshold)
    ensures !x.JNum? && !x.JBool? ==> r == Err(TypeError)
  {
    match GeocodeUtils.LessThan(x, threshold)
    case None => Err(TypeError)
    case Some(below) => Ok(!below)
  }

  /** The strategy a successful fall-back leaves: the top candidate as the result, marked validated. */
  function Rescue(geocode: Record, top: Json): (r: Record)
    ensures r.Keys == geocode.Keys + {"results", "validated", "rationale"}
    ensures r["results"] == top && r["validated"] == JBool(true) && r["rationale"] == JStr(FallbackRationale)
    ensures forall k :: k in geocode && k !in {"results", "validated", "rationale"} ==> r[k] == geocode[k]
  {
    geocode["results" := top]["validated" := JBool(true)]["rationale" := JStr(FallbackRationale)]
  }

  /**
   * The city and state the LLM names for a record's location. `get_city_state` gives None
   * when the call or the parse fails, and the caller's `.get('city')` then raises
   * AttributeError, as it does on any answer that is not a dict.
   */
  function CityState(item: Record, s: ReviewServices): Option<Json> {
    GeocodeUtils.GetCityState(s.cityStateReply(Get(item, "location", JNull)), s.parse)
  }

  /** The Pelias candidates for the city and state the LLM named. */
  function SearchFor(cs: Record, s: ReviewServices): Option<seq<Json>> {
    GeocodeUtils.SearchCandidates(
      s.search(GeocodeUtils.CityStateText(Get(cs, "city", JNull), Get(cs, "state", JNull), s.show)), true)
  }

  /** `top.get('confidence', {}).get('score', 0) >= 0.9`. */
  function HighScore(top: Json): Result<bool> {
    var confidence :- GetFrom(top, "confidence", EmptyObj);
    var score :- GetFrom(confidence, "score", JNum(0.0));
    AtLeast(score, MinScore)
  }

  /**
   * One iteration of the loop: what the record contributes to `valid_locations`, nothing or
   * one record. A validated record (`validated == True`) is kept as it is. Otherwise the
   * record is dropped unless the LLM names both a city and a state; when it does, the record
   * is kept, and takes the top Pelias candidate for "city, state" as its result when that
   * candidate's score is at least 0.9.
   */
  function Fallback(item: Json, s: ReviewServices): (r: Result<seq<Json>>)
    ensures r.Ok? ==> |r.value| <= 1
  {
    if !item.JObj? then Err(AttributeError)
    else
      var geocode := Get(item.fields, "geocode", EmptyObj);
      var validated :- GetFrom(geocode, "validated", JNull);
      if IsTrue(validated) then Ok([item])
      else
        var cityState := CityState(item.fields, s);
        if cityState.None? || !cityState.value.JObj? then Err(AttributeError)
        else Searched(item.fields, geocode.fields, cityState.value.fields, s)
  }

  /** The fall-back search for a record that is not validated, given the LLM's city and state. */
  function Searched(item: Record, geocode: Record, cs: Record, s: ReviewServices): (r: Result<seq<Json>>)
    ensures r.Ok? ==> |r.value| <= 1
  {
    if !(Truthy(Get(cs, "city", JNull)) && Truthy(Get(cs, "state", JNull))) then Ok([])
    else
      var results := SearchFor(cs, s);
      if results.None? || results.value == [] then Ok([JObj(item)])
      else
        var top := results.value[0];
        var high :- HighScore(top);
        if !high then Ok([JObj(item)])
        else if "geocode" !in item then Err(KeyError)
        else Ok([JObj(item["geocode" := JObj(Rescue(geocode, top))])])
  }

  /** The loop body as a function of the record. */
  function FallbackWith(s: ReviewServices): Json -> Result<seq<Json>> {
    item => Fallback(item, s)
  }

  /** `valid_locations` after the loop over the records. */
  function Rescued(items: seq<Json>, s: ReviewServices): Result<seq<Json>> {
    FoldResult(items, [], AppendStep(FallbackWith(s)))
  }

  /** A boundary as the payload carries it. */
  function BoundaryJson(b: Boundary): Json {
    JObj(map[
      "id" := b.id,
      "name" := b.name,
      "coordinates" := JObj(map["lat" := b.lat, "lng" := b.lng]),
      "places" := JArr(b.places)])
  }

  /** The payload's `boundaries`: one list per level. */
  function BoundariesJson(lists: Lists): Json {
    JObj(map[
      Levels[0].listKey := JArr(Map(lists[0], BoundaryJson)),
      Levels[1].listKey := JArr(Map(lists[1], BoundaryJson)),
      Levels[2].listKey := JArr(Map(lists[2], BoundaryJson)),
      Levels[3].listKey := JArr(Map(lists[3], BoundaryJson))])
  }

  /**
   * `_consolidate_geocoded_locations`: an empty or missing list leaves the payload as it is;
   * otherwise `boundaries` and `places` are set from the surviving records and `locations`
   * is removed.
   */
  function Consolidated(payload: Record, s: ReviewServices): (r: Result<Record>)
    ensures !Truthy(Get(payload, "locations", EmptyArr)) ==> r == Ok(payload)
  {
    var locations := Get(payload, "locations", EmptyArr);
    if !Truthy(locations) then Ok(payload)
    else
      var items :- LoopItems(locations);
      var valid :- Rescued(items, s);
      var organized :- Organized(valid);
      Ok(payload["boundaries" := BoundariesJson(organized.lists)]["places" := FromRecords(organized.places)] - {"locations"})
  }

  method ConsolidateGeocodedLocations(payload: Record, s: ReviewServices) returns (r: Result<Record>)
    ensures r == Consolidated(payload, s)
  {
    var locations := Get(payload, "locations", EmptyArr);
    if !Truthy(locations) {
      return Ok(payload);
    }
    var items :- LoopItems(locations);
    var valid: seq<Json> := [];
    for i := 0 to |items|
      invariant Rescued(items[..i], s) == Ok(valid)
    {
      FoldResultStep(items, i, [], AppendStep(FallbackWith(s)));
      var kept :- Fallback(items[i], s);
      valid := valid + kept;
    }
    assert items[..|items|] == items;
    var result :- ProcessBoundaries(valid);
    var out := payload;
    out := out["boundaries" := BoundariesJson(result.lists)];
    out := out["places" := FromRecords(result.places)];
    out := out - {"locations"};
    return Ok(out);
  }

  // ---------------------------------------------------------------- one record

  /** A record whose strategy says `validated == True` goes on unchanged, without asking the LLM or Pelias. */
  lemma ValidatedKept(item: Json, s: ReviewServices)
    requires item.JObj? && Get(item.fields, "geocode", EmptyObj).JObj?
    requires IsTrue(Get(Get(item.fields, "geocode", EmptyObj).fields, "validated", JNull))
    ensures Fallback(item, s) == Ok([item])
  {
  }

  /**
   * A record that is not validated and whose LLM answer names a city and a state is kept; when
   * the top Pelias candidate for them scores at least 0.9 it becomes the record's result, with
   * `validated` true and the fall-back rationale, and otherwise the record is kept unchanged.
   */
  lemma FallbackSearch(item: Json, s: ReviewServices, cs: Record)
    requires item.JObj? && "geocode" in item.fields && item.fields["geocode"].JObj?
    requires !IsTrue(Get(item.fields["geocode"].fields, "validated", JNull))
    requires CityState(item.fields, s) == Some(JObj(cs))
    requires Truthy(Get(cs, "city", JNull)) && Truthy(Get(cs, "state", JNull))
    requires SearchFor(cs, s).Some? && SearchFor(cs, s).value != []
    requires HighScore(SearchFor(cs, s).value[0]).Ok?
    ensures var top := SearchFor(cs, s).value[0];
      Fallback(item, s) ==
      if HighScore(top).value then Ok([JObj(item.fields["geocode" := JObj(Rescue(item.fields["geocode"].fields, top))])])
      else Ok([item])
  {
    assert Fallback(item, s) == Searched(item.fields, item.fields["geocode"].fields, cs, s);
  }

  /** A record that is not validated is kept unchanged when the search for its city and state finds nothing. */
  lemma FallbackNothingFound(item: Json, s: ReviewServices, cs: Record)
    requires item.JObj? && Get(item.fields, "geocode", EmptyObj).JObj?
    requires !IsTrue(Get(Get(item.fields, "geocode", EmptyObj).fields, "validated", JNull))
    requires CityState(item.fields, s) == Some(JObj(cs))
    requires Truthy(Get(cs, "city", JNull)) && Truthy(Get(cs, "state", JNull))
    requires SearchFor(cs, s).None? || SearchFor(cs, s).value == []
    ensures Fallback(item, s) == Ok([item])
  {
    assert Fallback(item, s) == Searched(item.fields, Get(item.fields, "geocode", EmptyObj).fields, cs, s);
  }

  /** A record that is not validated is dropped when the LLM's answer lacks a city or a state. */
  lemma FallbackDrops(item: Json, s: ReviewServices, cs: Record)
    requires item.JObj? && Get(item.fields, "geocode", EmptyObj).JObj?
    requires !IsTrue(Get(Get(item.fields, "geocode", EmptyObj).fields, "validated", JNull))
    requires CityState(item.fields, s) == Some(JObj(cs))
    requires !Truthy(Get(cs, "city", JNull)) || !Truthy(Get(cs, "state", JNull))
    ensures Fallback(item, s) == Ok([])
  {
    assert Fallback(item, s) == Searched(item.fields, Get(item.fields, "geocode", EmptyObj).fields, cs, s);
  }

  /**
   * As written, a record that is not validated and whose city and state cannot be extracted
   * (the LLM call or the parse failed, so `get_city_state` gave None) makes the loop raise
   * AttributeError, and with it the whole consolidation.
   */
  lemma CityStateFailureRaises(item: Json, s: ReviewServices)
    requires item.JObj? && Get(item.fields, "geocode", EmptyObj).JObj?
    requires !IsTrue(Get(Get(item.fields, "geocode", EmptyObj).fields, "validated", JNull))
    requires s.cityStateReply(Get(item.fields, "location", JNull)).None?
    ensures Fallback(item, s) == Err(AttributeError)
  {
  }

  /**
   * The fall-back with the missing check on `get_city_state`'s None: a record whose city and
   * state cannot be extracted is dropped like one without a city or a state.
   */
  function FallbackGuarded(item: Json, s: ReviewServices): (r: Result<seq<Json>>)
    ensures r.Ok? ==> |r.value| <= 1
  {
    if item.JObj? && Get(item.fields, "geocode", EmptyObj).JObj? &&
       !IsTrue(Get(Get(item.fields, "geocode", EmptyObj).fields, "validated", JNull)) &&
       CityState(item.fields, s).None?
    then Ok([])
    else Fallback(item, s)
  }

  /**
   * The guarded fall-back never raises for a failed extraction, drops such a record, and
   * agrees with the fall-back as written on every other record.
   */
  lemma GuardedFallback(item: Json, s: ReviewServices)
    ensures item.JObj? && Get(item.fields, "geocode", EmptyObj).JObj? && CityState(item.fields, s).None? ==>
      FallbackGuarded(item, s) == (if IsTrue(Get(Get(item.fields, "geocode", EmptyObj).fields, "validated", JNull)) then Ok([item]) else Ok([]))
    ensures Fallback(item, s) != FallbackGuarded(item, s) ==> Fallback(item, s) == Err(AttributeError)
  {
  }

  // ---------------------------------------------------------------- the loop

  /**
   * The loop raises exactly when some record's iteration does; otherwise `valid_locations`
   * holds each record's contribution, in record order, and no more records than the payload.
   */
  lemma RescuedSpec(items: seq<Json>, s: ReviewServices)
    ensures Rescued(items, s).Ok? <==> forall i :: 0 <= i < |items| ==> Fallback(items[i], s).Ok?
    ensures Rescued(items, s).Ok? ==>
      Rescued(items, s).value == ConcatMap(items, Made(FallbackWith(s))) &&
      |Rescued(items, s).value| <= |items|
  {
    FoldAppendSpec(items, FallbackWith(s));
    forall i | 0 <= i < |items| ensures |Made(FallbackWith(s))(items[i])| <= 1 {
    }
    ConcatMapShort(items, Made(FallbackWith(s)));
  }

  /** When every record was validated, no fall-back runs and every record goes on, in order. */
  lemma AllValidated(items: seq<Json>, s: ReviewServices)
    requires forall i :: 0 <= i < |items| ==>
      items[i].JObj? && Get(items[i].fields, "geocode", EmptyObj).JObj? &&
      IsTrue(Get(Get(items[i].fields, "geocode", EmptyObj).fields, "validated", JNull))
    ensures Rescued(items, s) == Ok(items)
  {
    forall i | 0 <= i < |items| ensures Fallback(items[i], s) == Ok([items[i]]) {
      ValidatedKept(items[i], s);
    }
    RescuedSpec(items, s);
    ConcatMapSingletons(items, Made(FallbackWith(s)));
  }

  // ---------------------------------------------------------------- the stage

  /**
   * A successful run on a non-empty list removes `locations`, sets `boundaries` (one list per
   * level) and `places` (the located surviving records, in order), and changes nothing else.
   */
  lemma ConsolidatedShape(payload: Record, s: ReviewServices)
    requires Truthy(Get(payload, "locations", EmptyArr)) && Consolidated(payload, s).Ok?
    ensures var r := Consolidated(payload, s).value;
      var valid := Rescued(LoopItems(payload["locations"]).value, s).value;
      r.Keys == payload.Keys - {"locations"} + {"boundaries", "places"} &&
      (forall k :: k in payload && k !in {"locations", "boundaries", "places"} ==> r[k] == payload[k]) &&
      r["places"] == FromRecords(PlacesOf(valid)) &&
      r["boundaries"].JObj? && r["boundaries"].fields.Keys == {"states", "counties", "cities", "neighborhoods"}
  {
    var valid := Rescued(LoopItems(payload["locations"]).value, s).value;
    var o := Organized(valid).value;
    OrganizedSpec(valid);
    Restructured(payload, BoundariesJson(o.lists), FromRecords(o.places));
    BoundariesKeys(o.lists);
  }

  lemma Restructured(payload: Record, boundaries: Json, places: Json)
    ensures var r := payload["boundaries" := boundaries]["places" := places] - {"locations"};
      r.Keys == payload.Keys - {"locations"} + {"boundaries", "places"} &&
      r["boundaries"] == boundaries && r["places"] == places &&
      forall k :: k in payload && k !in {"locations", "boundaries", "places"} ==> r[k] == payload[k]
  {
  }

  lemma BoundariesKeys(lists: Lists)
    ensures BoundariesJson(lists).JObj? && BoundariesJson(lists).fields.Keys == {"states", "counties", "cities", "neighborhoods"}
  {
  }

  /** Consolidating twice changes nothing more: the result has no `locations` left. */
  lemma ConsolidateTwice(payload: Record, s: ReviewServices)
    requires Consolidated(payload, s).Ok?
    ensures Consolidated(Consolidated(payload, s).value, s) == Consolidated(payload, s)
  {
  }
}
