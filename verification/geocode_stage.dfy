/**
 * The geocoding stage, `worker/tasks/locations/geocode/geocode.py`: every record whose
 * strategy is `search` or `structured` is sent to the Pelias geocoder, and the candidate
 * the geocoder (or, among several, an LLM) picks is stored in `geocode.results`.
 *
 * The geocoder and the LLM are parameters (`GeocodeServices`). This stage uses the candidate
 * mapping and the structured parameter builder of `GeocodeUtils`, without the neighbourhood
 * boundary: its own copies of those functions build the same values.
 */
module GeocodeStage {
  import opened Wrappers
  import opened PyJson
  import opened PyText
  import opened Seqs
  import opened Retry
  import GeocodeUtils

  /** The collaborators of the stage, as functions of what they are asked. */
  datatype GeocodeServices = GeocodeServices(
    apiKey: string,
    quote: string -> string,                            // `requests.utils.quote`
    searchResponse: string -> Option<Json>,             // the decoded reply of a search request; None when it raised
    structuredResponse: seq<string> -> Option<Json>,    // the same for a structured request, given its parameters
    choose: (Json, Json, seq<Json>) -> (nat -> Attempt<string>)) // attempt k of the candidate choice: text, context, candidates

  /** The `max_retries` default of `check_candidates`. */
  const MaxRetries: nat := 3

  // ---------------------------------------------------------------- `check_candidates`

  /** `x[k1][k2]`: each subscript raises like a subscript does. */
  function Item2(x: Json, k1: string, k2: string): Result<Json> {
    var y :- Item(x, k1);
    Item(y, k2)
  }

  /**
   * Formatting one candidate into the prompt of `check_candidates`: the label, the name of
   * each boundary and the score and match type are read by subscript, in this order, and the
   * first one missing raises.
   */
  function FormatCandidate(c: Json): Result<()> {
    var _ :- Item(c, "label");
    var city :- Item2(c, "boundaries", "city");
    var _ :- Item(city, "name");
    var county :- Item2(c, "boundaries", "county");
    var _ :- Item(county, "name");
    var state :- Item2(c, "boundaries", "state");
    var _ :- Item(state, "name");
    var _ :- Item2(c, "confidence", "score");
    var _ :- Item2(c, "confidence", "match_type");
    Ok(())
  }

  /**
   * How a reply picks a candidate: stripped and lower-cased, "none" picks nothing, an integer
   * `i` with `0 <= i < n` picks `candidates[i]`, and anything else picks nothing.
   */
  function Choice(reply: string, candidates: seq<Json>): (r: Option<Json>)
    ensures r.Some? ==> r.value in candidates
  {
    var response := Lower(Strip(reply));
    if response == "none" then None
    else match ParseInt(response)
      case None => None
      case Some(i) => if 0 <= i < |candidates| then Some(candidates[i]) else None
  }

  /**
   * `check_candidates`: no candidate gives None and a single candidate is returned without
   * asking the LLM; otherwise the candidates are formatted into the prompt (a subscript that
   * raises escapes) and the first reply that arrives picks the candidate; when every attempt
   * raises the result is None.
   */
  function CheckOutcome(text: Json, context: Json, candidates: seq<Json>,
                        choose: (Json, Json, seq<Json>) -> (nat -> Attempt<string>)): (r: Result<Option<Json>>)
    ensures r.Ok? && r.value.Some? ==> r.value.value in candidates
  {
    if candidates == [] then Ok(None)
    else if |candidates| == 1 then Ok(Some(candidates[0]))
    else
      var _ :- MapResult(candidates, FormatCandidate);
      Ok(Picked(choose(text, context, candidates), candidates))
  }

  /** The candidate the first reply that arrives picks; None when every attempt raises. */
  function Picked(attempts: nat -> Attempt<string>, candidates: seq<Json>): Option<Json> {
    match FirstSuccess(attempts, 0, MaxRetries)
    case None => None
    case Some(reply) => Choice(reply, candidates)
  }

  method CheckCandidates(text: Json, context: Json, candidates: seq<Json>,
                         choose: (Json, Json, seq<Json>) -> (nat -> Attempt<string>))
    returns (r: Result<Option<Json>>)
    ensures r == CheckOutcome(text, context, candidates, choose)
  {
    if candidates == [] {
      return Ok(None);
    }
    if |candidates| == 1 {
      return Ok(Some(candidates[0]));
    }
    var _ :- MapResult(candidates, FormatCandidate);
    var picked := AskLlm(choose(text, context, candidates), candidates);
    return Ok(picked);
  }

  /** The retry loop of `check_candidates`: only an exception makes it try again. */
  method AskLlm(attempts: nat -> Attempt<string>, candidates: seq<Json>) returns (r: Option<Json>)
    ensures r == Picked(attempts, candidates)
  {
    for attempt := 0 to MaxRetries
      invariant forall k :: 0 <= k < attempt ==> attempts(k).Failed?
    {
      match attempts(attempt)
      case Succeeded(reply) =>
        FirstSuccessSpec(attempts, 0, MaxRetries);
        r := ReadChoice(reply, candidates);
        return r;
      case Failed =>
        if attempt == MaxRetries - 1 {
          FirstSuccessSpec(attempts, 0, MaxRetries);
          return None;
        }
    }
    FirstSuccessSpec(attempts, 0, MaxRetries);
    return None;
  }

  /** The reading of one reply inside the retry loop. */
  method ReadChoice(reply: string, candidates: seq<Json>) returns (r: Option<Json>)
    ensures r == Choice(reply, candidates)
  {
    var response := Lower(Strip(reply));
    if response == "none" {
      return None;
    }
    var index := ParseInt(response);
    if index.None? {
      return None;
    }
    if 0 <= index.value < |candidates| {
      return Some(candidates[index.value]);
    }
    return None;
  }

  /** No candidate gives None and one candidate is the answer, whatever the LLM would have said. */
  lemma CheckFewCandidates(text: Json, context: Json, candidates: seq<Json>,
                           choose1: (Json, Json, seq<Json>) -> (nat -> Attempt<string>),
                           choose2: (Json, Json, seq<Json>) -> (nat -> Attempt<string>))
    requires |candidates| <= 1
    ensures CheckOutcome(text, context, candidates, choose1) == CheckOutcome(text, context, candidates, choose2)
    ensures CheckOutcome(text, context, candidates, choose1) ==
      Ok(if candidates == [] then None else Some(candidates[0]))
  {
  }

  /** With every attempt raising, several formattable candidates give None. */
  lemma CheckExhausted(text: Json, context: Json, candidates: seq<Json>,
                       choose: (Json, Json, seq<Json>) -> (nat -> Attempt<string>))
    requires |candidates| >= 2 && MapResult(candidates, FormatCandidate).Ok?
    requires forall k :: 0 <= k < MaxRetries ==> choose(text, context, candidates)(k).Failed?
    ensures CheckOutcome(text, context, candidates, choose) == Ok(None)
  {
    FirstSuccessSpec(choose(text, context, candidates), 0, MaxRetries);
  }

  lemma LowerDigits(s: string)
    requires forall i :: 0 <= i < |s| ==> IsDigit(s[i])
    ensures Lower(s) == s
  {
  }

  /** The reply `str(n)` picks `candidates[n]`, or nothing past the end of the list. */
  lemma ChoiceOfNat(candidates: seq<Json>, n: nat)
    ensures Choice(NatToString(n), candidates) == if n < |candidates| then Some(candidates[n]) else None
  {
    NatToStringShape(n);
    DigitsTrimmed(NatToString(n));
    LowerDigits(NatToString(n));
    ParseIntOfNatToString(n);
  }

  /**
   * The reply is read as a 0-based index although the prompt lists the candidates from 1:
   * the reply `str(i)` picks `candidates[i]`, the candidate listed as number `i + 1`, and the
   * reply naming the last listed candidate picks nothing.
   */
  lemma ChoiceIndex(candidates: seq<Json>, i: nat)
    ensures i < |candidates| ==> Choice(NatToString(i), candidates) == Some(candidates[i])
    ensures Choice(NatToString(|candidates|), candidates) == None
  {
    ChoiceOfNat(candidates, i);
    ChoiceOfNat(candidates, |candidates|);
  }

  /** "none", in any letter case and with any surrounding white space, picks nothing. */
  lemma ChoiceNone(w1: string, x: string, w2: string, candidates: seq<Json>)
    requires AllSpace(w1) && AllSpace(w2) && Lower(x) == "none"
    ensures Choice(w1 + x + w2, candidates) == None
  {
    assert LowerChar(x[0]) == 'n' && LowerChar(x[3]) == 'e';
    StripOfTrimmed(x);
    StripPadded(w1, x, w2);
  }

  /** A candidate built from a Pelias feature always has the fields the prompt reads. */
  lemma MappedCandidateFormattable(f: Json)
    requires GeocodeUtils.FeatureCandidate(f, false).Some?
    ensures FormatCandidate(GeocodeUtils.FeatureCandidate(f, false).value).Ok?
  {
    var props := f.fields["properties"].fields;
    GeocodeUtils.FeatureCandidateShape(f, false);
    GeocodeUtils.BoundariesValues(props, false);
    assert GeocodeUtils.CityLevel in GeocodeUtils.Levels(false);
    assert GeocodeUtils.CountyLevel in GeocodeUtils.Levels(false);
    assert GeocodeUtils.StateLevel in GeocodeUtils.Levels(false);
  }

  // ---------------------------------------------------------------- one record

  /** The address object of a structured record: five components read from its strategy. */
  function AddressObj(g: Record): Record {
    map["address" := Get(g, "address", JNull), "locality" := Get(g, "locality", JNull),
        "county" := Get(g, "county", JNull), "region" := Get(g, "region", JNull),
        "postalcode" := Get(g, "postalcode", JNull)]
  }

  /** `item["geocode"]["results"] = v` */
  function SetResults(item: Record, g: Record, v: Json): Record {
    item["geocode" := JObj(g["results" := v])]
  }

  /** Stores the chosen candidate, or None when there is no candidate or the choice is falsy. */
  function StoreChoice(item: Record, g: Record, results: Option<seq<Json>>, text: Json, s: GeocodeServices): Result<Record> {
    if results.None? || results.value == [] then Ok(SetResults(item, g, JNull))
    else
      var context := Get(item, "original_text", JStr(""));
      var best :- CheckOutcome(text, context, results.value, s.choose);
      Ok(SetResults(item, g, if best.Some? && Truthy(best.value) then best.value else JNull))
  }

  /**
   * The loop body of `_geocode_locations` for one item: a `search` strategy sends its text
   * (which must be a string, as it is concatenated into the URL), a `structured` one its five
   * components; any other strategy leaves the item alone. A strategy that is present but not
   * a dict, an item that is not a dict, and a component that cannot be quoted raise.
   */
  function GeocodeItem(item: Json, s: GeocodeServices): Result<Json> {
    if !item.JObj? then Err(AttributeError)
    else
      var g := Get(item.fields, "geocode", EmptyObj);
      var strategy :- GetFrom(g, "geocode", JNull);
      if strategy == JStr("search") then
        var text := Get(g.fields, "text", JNull);
        if !text.JStr? then Err(TypeError)
        else
          var results := GeocodeUtils.SearchCandidates(s.searchResponse(text.s), false);
          var r :- StoreChoice(item.fields, g.fields, results, text, s);
          Ok(JObj(r))
      else if strategy == JStr("structured") then
        var obj := AddressObj(g.fields);
        var query :- GeocodeUtils.StructuredQuery(obj, s.apiKey, s.quote);
        var results := if query.None? then None else GeocodeUtils.SearchCandidates(s.structuredResponse(query.value), false);
        var r :- StoreChoice(item.fields, g.fields, results, JObj(obj), s);
        Ok(JObj(r))
      else Ok(item)
  }

  method GeocodeOne(item: Json, s: GeocodeServices) returns (r: Result<Json>)
    ensures r == GeocodeItem(item, s)
  {
    if !item.JObj? {
      return Err(AttributeError);
    }
    var g := Get(item.fields, "geocode", EmptyObj);
    var strategy :- GetFrom(g, "geocode", JNull);
    var text: Json;
    var results: Option<seq<Json>>;
    if strategy == JStr("search") {
      text := Get(g.fields, "text", JNull);
      if !text.JStr? {
        return Err(TypeError);
      }
      results := GeocodeUtils.MapFeatures(s.searchResponse(text.s), false);
    } else if strategy == JStr("structured") {
      var obj := AddressObj(g.fields);
      text := JObj(obj);
      var query :- GeocodeUtils.StructuredParams(obj, s.apiKey, s.quote);
      if query.None? {
        results := None;
      } else {
        results := GeocodeUtils.MapFeatures(s.structuredResponse(query.value), false);
      }
    } else {
      return Ok(item);
    }
    if results.Some? && results.value != [] {
      var context := Get(item.fields, "original_text", JStr(""));
      var best :- CheckCandidates(text, context, results.value, s.choose);
      if best.Some? && Truthy(best.value) {
        return Ok(JObj(SetResults(item.fields, g.fields, best.value)));
      }
    }
    return Ok(JObj(SetResults(item.fields, g.fields, JNull)));
  }

  /** An item whose strategy is neither `search` nor `structured` is left as it is. */
  lemma GeocodeItemSkips(item: Json, s: GeocodeServices)
    requires item.JObj? && Get(item.fields, "geocode", EmptyObj).JObj?
    requires var strategy := Get(Get(item.fields, "geocode", EmptyObj).fields, "geocode", JNull);
      strategy != JStr("search") && strategy != JStr("structured")
    ensures GeocodeItem(item, s) == Ok(item)
  {
  }

  /**
   * A `search` or `structured` item ends with `geocode.results` holding one of the geocoder's
   * candidates, or None; nothing else in the item or its strategy changes.
   */
  lemma GeocodeItemResults(item: Json, s: GeocodeServices)
    requires GeocodeItem(item, s).Ok? && item.JObj? && "geocode" in item.fields
    requires item.fields["geocode"].JObj?
    requires var strategy := Get(item.fields["geocode"].fields, "geocode", JNull);
      strategy == JStr("search") || strategy == JStr("structured")
    ensures var r := GeocodeItem(item, s).value;
      var g := item.fields["geocode"].fields;
      r.JObj? && r.fields.Keys == item.fields.Keys &&
      (forall k :: k in item.fields && k != "geocode" ==> r.fields[k] == item.fields[k]) &&
      r.fields["geocode"].JObj? && r.fields["geocode"].fields.Keys == g.Keys + {"results"} &&
      (forall k :: k in g && k != "results" ==> r.fields["geocode"].fields[k] == g[k]) &&
      var v := r.fields["geocode"].fields["results"];
      v == JNull || exists cs :: v in cs && GeocodeUtils.SearchCandidates(ResponseOf(item, s), false) == Some(cs)
  {
  }

  /** The geocoder reply a `search` or `structured` item is matched against. */
  function ResponseOf(item: Json, s: GeocodeServices): Option<Json>
    requires item.JObj? && "geocode" in item.fields && item.fields["geocode"].JObj?
  {
    var g := item.fields["geocode"].fields;
    if Get(g, "geocode", JNull) == JStr("search") then
      var text := Get(g, "text", JNull);
      if text.JStr? then s.searchResponse(text.s) else None
    else
      var query := GeocodeUtils.StructuredQuery(AddressObj(g), s.apiKey, s.quote);
      if query.Ok? && query.value.Some? then s.structuredResponse(query.value.value) else None
  }

  /**
   * An item whose `geocode` key holds a value that is not a dict (None, or the bare string
   * of a span's failure record) makes the stage raise AttributeError: the `.get` default
   * only covers a missing key.
   */
  lemma GeocodeItemNotDict(item: Json, s: GeocodeServices)
    requires item.JObj? && "geocode" in item.fields && !item.fields["geocode"].JObj?
    ensures GeocodeItem(item, s) == Err(AttributeError)
  {
  }

  // ---------------------------------------------------------------- `_geocode_locations`

  /** The per-item step of `_geocode_locations`, as the function `MapResult` applies. */
  function GeocodeWith(s: GeocodeServices): Json -> Result<Json> {
    item => GeocodeItem(item, s)
  }

  function GeocodeAll(items: seq<Json>, s: GeocodeServices): Result<seq<Json>> {
    MapResult(items, GeocodeWith(s))
  }

  /**
   * `_geocode_locations`: an empty or missing list leaves the payload as it is; otherwise
   * every item goes through the loop body and the list is written back.
   */
  function Geocoded(payload: Record, s: GeocodeServices): (r: Result<Record>)
    ensures !Truthy(Get(payload, "locations", EmptyArr)) ==> r == Ok(payload)
  {
    var locations := Get(payload, "locations", EmptyArr);
    if !Truthy(locations) then Ok(payload)
    else
      var items :- LoopItems(locations);
      var out :- GeocodeAll(items, s);
      Ok(payload["locations" := JArr(out)])
  }

  method GeocodeLocations(payload: Record, s: GeocodeServices) returns (r: Result<Record>)
    ensures r == Geocoded(payload, s)
  {
    var locations := Get(payload, "locations", EmptyArr);
    if !Truthy(locations) {
      return Ok(payload);
    }
    var items :- LoopItems(locations);
    var out := items;
    for i := 0 to |items|
      invariant |out| == |items|
      invariant GeocodeAll(items[..i], s) == Ok(out[..i])
      invariant out[i..] == items[i..]
    {
      var item := GeocodeOne(out[i], s);
      assert out[i] == items[i];
      if item.Err? {
        MapResultErrAt(items, i, GeocodeWith(s));
        return Err(item.fault);
      }
      MapResultStep(items, i, GeocodeWith(s));
      out := out[i := item.value];
      assert out[..i + 1] == out[..i] + [out[i]];
    }
    assert items[..|items|] == items;
    assert out[..|out|] == out;
    return Ok(payload["locations" := JArr(out)]);
  }

  /** A successful run keeps the list's length and order and changes nothing but `locations`. */
  lemma GeocodedShape(payload: Record, s: GeocodeServices)
    requires Truthy(Get(payload, "locations", EmptyArr)) && Geocoded(payload, s).Ok?
    ensures var r := Geocoded(payload, s).value;
      var items := LoopItems(payload["locations"]).value;
      r.Keys == payload.Keys &&
      (forall k :: k in payload && k != "locations" ==> r[k] == payload[k]) &&
      r["locations"].JArr? && |r["locations"].items| == |items| &&
      forall i :: 0 <= i < |items| ==>
        GeocodeItem(items[i], s).Ok? && r["locations"].items[i] == GeocodeItem(items[i], s).value
  {
    MapResultSpec(LoopItems(payload["locations"]).value, GeocodeWith(s));
  }
}
