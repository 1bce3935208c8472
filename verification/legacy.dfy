/**
 * The older task chain in `worker/tasks/locations.py`: locations are extracted by the LLM,
 * cleaned of coreferences by the LLM, geocoded with Google Maps and cross-checked against
 * the article by the LLM. Each task takes the payload dict and hands it on.
 */
module LegacyTasks {
  import opened Wrappers
  import opened PyJson
  import opened Seqs
  import opened PyText
  import LlmJson
  import ExtractReview

  /**
   * What these functions reach outside the payload: prompt files by path (`None` when the file
   * cannot be opened), the chat model, `json.loads`, the `str` rendering an f-string uses,
   * and `json.dumps(..., indent=2)`.
   */
  datatype Services = Services(
    readFile: string -> Option<string>,
    complete: (string, string) -> Option<string>,
    parse: string -> Option<Json>,
    show: Json -> string,
    dumps: Json -> string)

  // ---------------------------------------------------------------- _extract_locations

  const BasePromptPath: string := "utils/prompts/location_extraction/base.txt"
  const DefaultLead: string := "\n\nHere is the text of the article:"

  /** The prompt file of a story type: the category as an f-string renders it. */
  function TypePromptPath(category: Json, show: Json -> string): string {
    "utils/prompts/location_extraction/_" + Str(category, show) + ".txt"
  }

  /** The system prompt: the base prompt, then the story type's prompt after a blank line, or the default lead-in. */
  function ExtractionPrompt(base: string, typed: Option<string>): (p: string)
    ensures StartsWith(p, base)
    ensures typed.Some? ==> p == base + "\n\n" + typed.value
    ensures typed.None? ==> p == base + DefaultLead
  {
    match typed
    case Some(t) => base + "\n\n" + t
    case None => base + DefaultLead
  }

  /**
   * The `locations` the extraction leaves: the reply's `locations`, or `None` whenever the
   * text is not a string, the call fails or the reply is not a dict (the function's last
   * `except Exception` turns every such failure, and the retry it raises, into `None`).
   */
  function ExtractedLocations(prompt: string, text: Json, svc: Services): Json {
    if !text.JStr? then JNull
    else
      match LlmJson.GetJson(svc.complete(prompt, ExtractReview.UserPrompt(text.s)), svc.parse)
      case Err(_) => JNull
      case Ok(reply) => if reply.JObj? then Get(reply.fields, "locations", JNull) else JNull
  }

  /** `_extract_locations` on a payload. */
  function Extracted(payload: Record, svc: Services): (r: Record)
    ensures !Get(payload, "story_type", EmptyObj).JObj? ==> r == payload["locations" := JNull]
    ensures r.Keys <= payload.Keys + {"locations"}
    ensures forall k :: k in payload && k != "locations" ==> k in r && r[k] == payload[k]
  {
    var storyType := Get(payload, "story_type", EmptyObj);
    if !storyType.JObj? then payload["locations" := JNull]
    else
      var category := Get(storyType.fields, "category", JNull);
      var text := Get(payload, "text", JNull);
      if !Truthy(text) then payload
      else
        match svc.readFile(BasePromptPath)
        case None => payload
        case Some(base) =>
          var prompt := ExtractionPrompt(base, svc.readFile(TypePromptPath(category, svc.show)));
          payload["locations" := ExtractedLocations(prompt, text, svc)]
  }

  /**
   * A `story_type` that is not a dict sets `locations` to `None` before anything else is
   * looked at; then no text or no base prompt leaves the payload as it is; otherwise only
   * `locations` is set, to what the LLM's reply gives for the prompt built from the base and
   * the story type's prompt.
   */
  lemma ExtractedSpec(payload: Record, svc: Services)
    ensures !Get(payload, "story_type", EmptyObj).JObj? ==> Extracted(payload, svc) == payload["locations" := JNull]
    ensures Get(payload, "story_type", EmptyObj).JObj? && !Truthy(Get(payload, "text", JNull)) ==>
      Extracted(payload, svc) == payload
    ensures Get(payload, "story_type", EmptyObj).JObj? && svc.readFile(BasePromptPath).None? ==>
      Extracted(payload, svc) == payload
    ensures var storyType := Get(payload, "story_type", EmptyObj);
      storyType.JObj? && Truthy(Get(payload, "text", JNull)) && svc.readFile(BasePromptPath).Some? ==>
      Extracted(payload, svc) == payload["locations" := ExtractedLocations(
        ExtractionPrompt(svc.readFile(BasePromptPath).value,
          svc.readFile(TypePromptPath(Get(storyType.fields, "category", JNull), svc.show))),
        payload["text"], svc)]
    ensures Extracted(payload, svc).Keys <= payload.Keys + {"locations"}
    ensures forall k :: k in payload && k != "locations" ==> Extracted(payload, svc)[k] == payload[k]
  {
  }

  /**
   * The reply's `locations` (or `None` when it has none) when the call succeeds with a dict
   * for the article text on one line; `None` on every failure.
   */
  lemma ExtractedLocationsSpec(prompt: string, text: string, svc: Services)
    ensures var u := ExtractReview.UserPrompt(text);
      var reply := LlmJson.GetJson(svc.complete(prompt, u), svc.parse);
      ExtractedLocations(prompt, JStr(text), svc) ==
        (if reply.Ok? && reply.value.JObj? then Get(reply.value.fields, "locations", JNull) else JNull)
    ensures '\n' !in ExtractReview.UserPrompt(text)
    ensures |ExtractReview.UserPrompt(text)| == |text|
    ensures forall i :: 0 <= i < |text| ==>
      ExtractReview.UserPrompt(text)[i] == (if text[i] == '\n' then ' ' else text[i])
  {
    NewlinesToSpaces(text);
  }

  /** `text.replace('\n', ' ')` changes each newline into a space and leaves every other character where it was. */
  lemma {:induction false} NewlinesToSpaces(s: string)
    ensures |ReplaceAll(s, "\n", " ")| == |s|
    ensures forall i :: 0 <= i < |s| ==> ReplaceAll(s, "\n", " ")[i] == (if s[i] == '\n' then ' ' else s[i])
    decreases |s|
  {
    if s != [] {
      NewlinesToSpaces(s[1..]);
      var c := if s[0] == '\n' then ' ' else s[0];
      if s[..1] == "\n" {
        assert ReplaceAll(s, "\n", " ") == [c] + ReplaceAll(s[1..], "\n", " ");
      } else {
        assert s[0] != '\n';
        assert ReplaceAll(s, "\n", " ") == [c] + ReplaceAll(s[1..], "\n", " ");
      }
    }
  }

  // ---------------------------------------------------------------- _coref_dedupe

  const CorefPromptPath: string := "utils/prompts/coref.txt"

  /** The locations as `_coref_dedupe` reads them: a dict is unwrapped through its own `locations`. */
  function Unwrapped(locations: Json): Json {
    if locations.JObj? then Get(locations.fields, "locations", EmptyArr) else locations
  }

  /** The user prompt: the locations wrapped in an object and dumped as JSON. */
  function CorefUserPrompt(locations: Json, svc: Services): string {
    "Here are the locations found in the article:\n            " + svc.dumps(JObj(map["locations" := locations]))
  }

  /** What the reply puts in `locations`: a dict's `locations` (the unwrapped locations when it has none), anything else as it is. */
  function Cleaned(reply: Json, locations: Json): Json {
    if reply.JObj? then Get(reply.fields, "locations", locations) else reply
  }

  /**
   * `_coref_dedupe` on a payload. A failing call escapes `_coref_dedupe`: the
   * retry re-raises it, and nothing in the function catches it.
   */
  function Deduped(payload: Record, svc: Services): (r: Result<Record>)
    ensures r.Err? ==> Truthy(Unwrapped(Get(payload, "locations", EmptyArr))) && svc.readFile(CorefPromptPath).Some?
    ensures r.Ok? ==> forall k :: k in payload && k != "locations" ==> k in r.value && r.value[k] == payload[k]
  {
    var locations := Unwrapped(Get(payload, "locations", EmptyArr));
    if !Truthy(locations) then Ok(payload["locations" := EmptyArr])
    else
      match svc.readFile(CorefPromptPath)
      case None => Ok(payload["locations" := locations])
      case Some(prompt) =>
        var reply :- LlmJson.GetJson(svc.complete(prompt, CorefUserPrompt(locations, svc)), svc.parse);
        Ok(payload["locations" := Cleaned(reply, locations)])
  }

  /**
   * The shapes `_coref_dedupe` gives `locations` before it asks the LLM: `[]` when there is
   * nothing (after a dict is unwrapped), the unwrapped list when there is no prompt. A
   * successful run changes only `locations`.
   */
  lemma DedupedShapes(payload: Record, svc: Services)
    ensures var locations := Unwrapped(Get(payload, "locations", EmptyArr));
      !Truthy(locations) ==> Deduped(payload, svc) == Ok(payload["locations" := EmptyArr])
    ensures var locations := Unwrapped(Get(payload, "locations", EmptyArr));
      Truthy(locations) && svc.readFile(CorefPromptPath).None? ==>
      Deduped(payload, svc) == Ok(payload["locations" := locations])
    ensures Deduped(payload, svc).Ok? ==>
      Deduped(payload, svc).value.Keys == payload.Keys + {"locations"} &&
      forall k :: k in payload && k != "locations" ==> Deduped(payload, svc).value[k] == payload[k]
  {
  }

  /**
   * With locations and a prompt, `locations` becomes the reply's `locations`, the unwrapped
   * list when a dict reply has none, or the reply itself when it is not a dict; a failed call
   * is the only way `_coref_dedupe` fails.
   */
  lemma DedupedReply(payload: Record, svc: Services, prompt: string)
    requires Truthy(Unwrapped(Get(payload, "locations", EmptyArr)))
    requires svc.readFile(CorefPromptPath) == Some(prompt)
    ensures var locations := Unwrapped(Get(payload, "locations", EmptyArr));
      var reply := LlmJson.GetJson(svc.complete(prompt, CorefUserPrompt(locations, svc)), svc.parse);
      (reply.Err? ==> Deduped(payload, svc) == Err(reply.fault)) &&
      (reply.Ok? && reply.value.JObj? && "locations" in reply.value.fields ==>
        Deduped(payload, svc) == Ok(payload["locations" := reply.value.fields["locations"]])) &&
      (reply.Ok? && reply.value.JObj? && "locations" !in reply.value.fields ==>
        Deduped(payload, svc) == Ok(payload["locations" := locations])) &&
      (reply.Ok? && !reply.value.JObj? ==> Deduped(payload, svc) == Ok(payload["locations" := reply.value]))
  {
  }

  // ---------------------------------------------------------------- _geocode

  /** `result[0]`: a list's first element, a string's first character; a dict has no key `0`; anything else is not subscriptable. */
  function First(result: Json): (r: Result<Json>)
    ensures result.JArr? && result.items != [] ==> r == Ok(result.items[0])
  {
    match result
    case JArr(xs) => if xs == [] then Err(IndexError) else Ok(xs[0])
    case JStr(s) => if s == [] then Err(IndexError) else Ok(JStr([s[0]]))
    case JObj(_) => Err(KeyError)
    case _ => Err(TypeError)
  }

  const GeocodeKeys: set<string> := {"formatted_address", "lat", "lng", "place_id", "types"}

  /** The five fields `location.update(...)` takes from the geocoder's first result. */
  function GeocodeFields(first: Json): (r: Result<Record>)
    ensures r.Ok? ==> r.value.Keys == GeocodeKeys
  {
    var address :- Item(first, "formatted_address");
    var geometry :- Item(first, "geometry");
    var point :- Item(geometry, "location");
    var lat :- Item(point, "lat");
    var lng :- Item(point, "lng");
    var placeId :- Item(first, "place_id");
    var types :- Item(first, "types");
    Ok(map["formatted_address" := address, "lat" := lat, "lng" := lng, "place_id" := placeId, "types" := types])
  }

  /**
   * The first result has every field the update reads exactly when the fields come out, and
   * then each is the one the result holds.
   */
  lemma GeocodeFieldsSpec(first: Json)
    ensures GeocodeFields(first).Ok? <==>
      first.JObj? && "formatted_address" in first.fields && "place_id" in first.fields && "types" in first.fields &&
      "geometry" in first.fields && first.fields["geometry"].JObj? && "location" in first.fields["geometry"].fields &&
      first.fields["geometry"].fields["location"].JObj? &&
      "lat" in first.fields["geometry"].fields["location"].fields &&
      "lng" in first.fields["geometry"].fields["location"].fields
    ensures GeocodeFields(first).Ok? ==>
      var f := GeocodeFields(first).value;
      var point := first.fields["geometry"].fields["location"].fields;
      f["formatted_address"] == first.fields["formatted_address"] && f["place_id"] == first.fields["place_id"] &&
      f["types"] == first.fields["types"] && f["lat"] == point["lat"] && f["lng"] == point["lng"]
  {
  }

  /** The body of the loop's `try`: the fields one location gains, `None` when the geocoder found nothing. */
  function GeocodeUpdate(location: Json, geocode: Json -> Result<Json>): (r: Result<Option<Record>>)
    ensures r.Ok? ==> location.JObj? && "location" in location.fields
  {
    var query :- Item(location, "location");
    var result :- geocode(query);
    if !Truthy(result) then Ok(None)
    else
      var first :- First(result);
      var fields :- GeocodeFields(first);
      Ok(Some(fields))
  }

  /** One location after the loop: updated with the five fields, or kept as it was when there was no result or anything raised. */
  function Geocoded(location: Json, geocode: Json -> Result<Json>): Json {
    match GeocodeUpdate(location, geocode)
    case Ok(Some(fields)) => JObj(location.fields + fields)
    case _ => location
  }

  function GeocodedWith(geocode: Json -> Result<Json>): Json -> Json {
    location => Geocoded(location, geocode)
  }

  /**
   * A location gains the five fields of the geocoder's first result, keeping every field it
   * had (an old value under one of the five names is overwritten), exactly when it is a dict
   * with a `location`, the geocoder answers a non-empty list for it and that list's first
   * result has the fields; in every other case it is kept as it was.
   */
  lemma GeocodedSpec(location: Json, geocode: Json -> Result<Json>)
    ensures var q := Item(location, "location");
      q.Ok? && geocode(q.value).Ok? && geocode(q.value).value.JArr? && geocode(q.value).value.items != [] &&
      GeocodeFields(geocode(q.value).value.items[0]).Ok? ==>
      Geocoded(location, geocode) == JObj(location.fields + GeocodeFields(geocode(q.value).value.items[0]).value)
    ensures Geocoded(location, geocode) != location ==>
      location.JObj? && Geocoded(location, geocode).JObj? &&
      Geocoded(location, geocode).fields.Keys == location.fields.Keys + GeocodeKeys &&
      (forall k :: k in location.fields && k !in GeocodeKeys ==> Geocoded(location, geocode).fields[k] == location.fields[k])
    ensures !location.JObj? || "location" !in location.fields ==> Geocoded(location, geocode) == location
    ensures location.JObj? && "location" in location.fields ==>
      var answer := geocode(location.fields["location"]);
      answer.Err? || !Truthy(answer.value) ==> Geocoded(location, geocode) == location
  {
  }

  /** The items `for location in locations` visits; `order` lists a dict's keys in insertion order. */
  function Iterated(locations: Json, order: Record -> seq<string>): (r: Result<seq<Json>>)
    ensures r.Ok? <==> locations.JArr? || locations.JStr? || locations.JObj?
    ensures locations.JArr? ==> r == Ok(locations.items)
  {
    match locations
    case JArr(xs) => Ok(xs)
    case JStr(s) => Ok(Chars(s))
    case JObj(m) => Ok(Map(order(m), (k: string) => JStr(k)))
    case _ => Err(TypeError)
  }

  /**
   * `_geocode` on a payload. A value of `locations` that cannot be iterated raises out of the
   * task (through its retry); the geocoder's own failures are caught item by item.
   */
  function GeocodedPayload(payload: Record, geocode: Json -> Result<Json>, order: Record -> seq<string>): (r: Result<Record>)
    ensures !Truthy(Get(payload, "locations", EmptyArr)) ==> r == Ok(payload)
    ensures r.Ok? ==> forall k :: k in payload && k != "locations" ==> k in r.value && r.value[k] == payload[k]
    ensures r.Ok? && Truthy(Get(payload, "locations", EmptyArr)) ==>
      Iterated(Get(payload, "locations", EmptyArr), order).Ok? && "locations" in r.value && r.value["locations"].JArr? &&
      |r.value["locations"].items| == |Iterated(Get(payload, "locations", EmptyArr), order).value|
  {
    var locations := Get(payload, "locations", EmptyArr);
    if !Truthy(locations) then Ok(payload)
    else
      var items :- Iterated(locations, order);
      Ok(payload["locations" := JArr(Map(items, GeocodedWith(geocode)))])
  }

  /** `_geocode`, with its loop. */
  method GeocodeLocations(payload: Record, geocode: Json -> Result<Json>, order: Record -> seq<string>)
    returns (r: Result<Record>)
    ensures r == GeocodedPayload(payload, geocode, order)
  {
    var locations := Get(payload, "locations", EmptyArr);
    if !Truthy(locations) {
      return Ok(payload);
    }
    var items :- Iterated(locations, order);
    var geocoded: seq<Json> := [];
    for i := 0 to |items|
      invariant geocoded == Map(items[..i], GeocodedWith(geocode))
    {
      var location := items[i];
      var update := GeocodeUpdate(location, geocode);
      if update.Ok? && update.value.Some? {
        location := JObj(location.fields + update.value.value);
      }
      MapAppend(items[..i], items[i], GeocodedWith(geocode));
      assert items[..i + 1] == items[..i] + [items[i]];
      geocoded := geocoded + [location];
    }
    assert items[..|items|] == items;
    return Ok(payload["locations" := JArr(geocoded)]);
  }

  /**
   * With no locations the payload comes back as it is. With a list, the result is a list of
   * the same length, in the same order, whose `i`-th location is the `i`-th one geocoded
   * (`GeocodedSpec`); only `locations` changes.
   */
  lemma GeocodedPayloadSpec(payload: Record, geocode: Json -> Result<Json>, order: Record -> seq<string>)
    ensures !Truthy(Get(payload, "locations", EmptyArr)) ==> GeocodedPayload(payload, geocode, order) == Ok(payload)
    ensures var locations := Get(payload, "locations", EmptyArr);
      Truthy(locations) && locations.JArr? ==>
      var r := GeocodedPayload(payload, geocode, order);
      r.Ok? && r.value.Keys == payload.Keys && r.value["locations"].JArr? &&
      |r.value["locations"].items| == |locations.items| &&
      (forall i :: 0 <= i < |locations.items| ==> r.value["locations"].items[i] == Geocoded(locations.items[i], geocode)) &&
      (forall k :: k in payload && k != "locations" ==> r.value[k] == payload[k])
    ensures var locations := Get(payload, "locations", EmptyArr);
      Truthy(locations) && (locations.JNum? || locations.JBool?) ==> GeocodedPayload(payload, geocode, order) == Err(TypeError)
  {
  }

  /** Geocoding keeps the list's order: two lists geocoded one after the other are their concatenation geocoded. */
  lemma GeocodedInOrder(a: seq<Json>, b: seq<Json>, geocode: Json -> Result<Json>)
    ensures Map(a + b, GeocodedWith(geocode)) == Map(a, GeocodedWith(geocode)) + Map(b, GeocodedWith(geocode))
  {
    MapConcat(a, b, GeocodedWith(geocode));
  }

  // ---------------------------------------------------------------- _cross_check

  const CrossCheckPromptPath: string := "utils/prompts/cross_check.txt"

  /** The user prompt: the dumped locations, then the article text. */
  function CrossCheckUserPrompt(locations: Json, text: Json, svc: Services): string {
    "Here are the extracted locations:\n            " + svc.dumps(locations)
    + "\n            \n            Here is the article text:\n            " + Str(text, svc.show)
  }

  /** What goes into `cross_check`: the whole reply when it asks for review, a plain `{"check": "ok"}` otherwise. */
  function Verdict(reply: Record): Json {
    if Get(reply, "check", JNull) == JStr("review") then JObj(reply) else JObj(map["check" := JStr("ok")])
  }

  /**
   * `_cross_check` on a payload. Every failure of the call (and the retry it raises) ends in
   * the function's last `except Exception`, which hands the payload back unchanged.
   */
  function CrossChecked(payload: Record, svc: Services): (r: Record)
    ensures !Truthy(Get(payload, "locations", EmptyArr)) ==> r == payload
    ensures r.Keys <= payload.Keys + {"cross_check"}
    ensures forall k :: k in payload && k != "cross_check" ==> k in r && r[k] == payload[k]
  {
    var locations := Get(payload, "locations", EmptyArr);
    var text := Get(payload, "text", JStr(""));
    if !Truthy(locations) then payload
    else
      match svc.readFile(CrossCheckPromptPath)
      case None => payload
      case Some(prompt) =>
        match LlmJson.GetJson(svc.complete(prompt, CrossCheckUserPrompt(locations, text, svc)), svc.parse)
        case Err(_) => payload
        case Ok(reply) => if reply.JObj? then payload["cross_check" := Verdict(reply.fields)] else payload
  }

  /** No locations, no prompt, a failed call or a reply that is not a dict leave the payload as it is. */
  lemma CrossCheckedUnchanged(payload: Record, svc: Services)
    ensures !Truthy(Get(payload, "locations", EmptyArr)) || svc.readFile(CrossCheckPromptPath).None? ==>
      CrossChecked(payload, svc) == payload
    ensures var locations := Get(payload, "locations", EmptyArr);
      Truthy(locations) && svc.readFile(CrossCheckPromptPath).Some? ==>
      var reply := LlmJson.GetJson(svc.complete(svc.readFile(CrossCheckPromptPath).value,
        CrossCheckUserPrompt(locations, Get(payload, "text", JStr("")), svc)), svc.parse);
      reply.Err? || !reply.value.JObj? ==> CrossChecked(payload, svc) == payload
  {
  }

  /**
   * When the check answers with a dict, only `cross_check` is set: to the whole reply when
   * the reply's `check` is `"review"`, and to `{"check": "ok"}` otherwise, so that its
   * `check` is `"review"` exactly when the reply's is.
   */
  lemma CrossCheckedVerdict(payload: Record, svc: Services, prompt: string, reply: Record)
    requires Truthy(Get(payload, "locations", EmptyArr))
    requires svc.readFile(CrossCheckPromptPath) == Some(prompt)
    requires LlmJson.GetJson(svc.complete(prompt,
      CrossCheckUserPrompt(Get(payload, "locations", EmptyArr), Get(payload, "text", JStr("")), svc)), svc.parse) == Ok(JObj(reply))
    ensures var r := CrossChecked(payload, svc);
      r == payload["cross_check" := Verdict(reply)] &&
      Verdict(reply).JObj? && "check" in Verdict(reply).fields &&
      (Verdict(reply).fields["check"] == JStr("review") <==> Get(reply, "check", JNull) == JStr("review")) &&
      (Get(reply, "check", JNull) == JStr("review") ==> Verdict(reply) == JObj(reply)) &&
      (Get(reply, "check", JNull) != JStr("review") ==> Verdict(reply) == JObj(map["check" := JStr("ok")]))
  {
  }
}
