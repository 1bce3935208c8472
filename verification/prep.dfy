/**
 * The geocoding preparation stage, `worker/tasks/locations/geocode/prep.py`: every location
 * record gets a `geocode` strategy record saying how it will be geocoded (a free-text
 * `search`, a `structured` query, or `none`). Spans ("I-35 between Pine City and Hinckley")
 * are first expanded by an LLM into the records of their parts.
 *
 * The collaborators are parameters (`PrepServices`): the LLM calls, the DuckDuckGo search,
 * the `usaddress` tagger and `str()`. A retried call is a function of the attempt number.
 */
module Prep {
  import opened Wrappers
  import opened PyJson
  import opened PyText
  import opened Seqs
  import opened Retry

  /** What `usaddress.tag` does with a text: tagged components, a parse error it declares, or another exception. */
  datatype Tagging = Tagged(parts: map<string, string>) | Unparsable | Raised

  /** The collaborators of the stage, as functions of what they are asked. */
  datatype PrepServices = PrepServices(
    show: Json -> string,                                 // `str()` of a non-string value
    addressable: Json -> Option<string>,                  // reply of the addressable check; None when it raised
    search: string -> (nat -> Attempt<seq<Json>>),        // attempt k of the DuckDuckGo search for a query
    extract: (string, seq<Json>) -> (nat -> Attempt<string>), // attempt k of the best-address extraction
    tag: Json -> Tagging,                                 // `usaddress.tag`
    spanPrompt: bool,                                     // whether `prompts/roads-spans.txt` can be read
    span: Json -> Option<Json>)                           // the span LLM's reply after `json.loads`; None when either raised

  /** The `max_retries` default of both retry helpers. */
  const MaxRetries: nat := 3
  const NoAddress: string := "No address found"

  // ---------------------------------------------------------------- strategy records

  function SearchStrategy(text: Json): Record {
    map["geocode" := JStr("search"), "text" := text]
  }

  function NoneStrategy(text: Json): Record {
    map["geocode" := JStr("none"), "text" := text]
  }

  function StateStrategy(region: Json): Record {
    map["geocode" := JStr("structured"), "region" := region]
  }

  function StructuredStrategy(text: Json, address: string, city: string, state: string): Record {
    map["geocode" := JStr("structured"), "text" := text, "address" := JStr(address),
        "locality" := JStr(city), "region" := JStr(state)]
  }

  // ---------------------------------------------------------------- the retry helpers

  /**
   * `_search_duckduckgo`: the first attempt that does not raise gives the result (an empty
   * result included); when every attempt raises the result is `[]`, and with no attempt at
   * all the function falls off its loop and gives `None`.
   */
  function SearchOutcome(query: string, maxRetries: nat, search: string -> (nat -> Attempt<seq<Json>>)): Option<seq<Json>> {
    match FirstSuccess(search(query), 0, maxRetries)
    case Some(results) => Some(results)
    case None => if maxRetries == 0 then None else Some([])
  }

  method SearchDuckDuckGo(query: string, maxRetries: nat, search: string -> (nat -> Attempt<seq<Json>>))
    returns (r: Option<seq<Json>>)
    ensures r == SearchOutcome(query, maxRetries, search)
  {
    for attempt := 0 to maxRetries
      invariant forall k :: 0 <= k < attempt ==> search(query)(k).Failed?
      invariant attempt == 0 || attempt < maxRetries
    {
      match search(query)(attempt)
      case Succeeded(results) =>
        FirstSuccessSpec(search(query), 0, maxRetries);
        if results == [] {
          return Some([]);
        }
        return Some(results);
      case Failed =>
        if attempt == maxRetries - 1 {
          FirstSuccessSpec(search(query), 0, maxRetries);
          return Some([]);
        }
    }
    return None;
  }

  /**
   * `_extract_best_address`: the reply of the first attempt that does not raise; "No address
   * found" when every attempt raises; `None` with no attempt at all.
   */
  function BestAddress(query: string, results: seq<Json>, maxRetries: nat,
                       extract: (string, seq<Json>) -> (nat -> Attempt<string>)): Option<string> {
    match FirstSuccess(extract(query, results), 0, maxRetries)
    case Some(content) => Some(content)
    case None => if maxRetries == 0 then None else Some(NoAddress)
  }

  method ExtractBestAddress(query: string, results: seq<Json>, maxRetries: nat,
                            extract: (string, seq<Json>) -> (nat -> Attempt<string>))
    returns (r: Option<string>)
    ensures r == BestAddress(query, results, maxRetries, extract)
  {
    for attempt := 0 to maxRetries
      invariant forall k :: 0 <= k < attempt ==> extract(query, results)(k).Failed?
      invariant attempt == 0 || attempt < maxRetries
    {
      match extract(query, results)(attempt)
      case Succeeded(content) =>
        FirstSuccessSpec(extract(query, results), 0, maxRetries);
        return Some(content);
      case Failed =>
        if attempt == maxRetries - 1 {
          FirstSuccessSpec(extract(query, results), 0, maxRetries);
          return Some(NoAddress);
        }
    }
    return None;
  }

  /**
   * Both helpers make at most `maxRetries` attempts and return what the first attempt that
   * does not raise produced (for the search, an empty list too, without another attempt);
   * when every attempt raises they return their default.
   */
  lemma RetryHelpers(query: string, results: seq<Json>, maxRetries: nat, s: PrepServices, k: nat)
    ensures k < maxRetries && s.search(query)(k).Succeeded? && (forall j :: 0 <= j < k ==> s.search(query)(j).Failed?) ==>
      SearchOutcome(query, maxRetries, s.search) == Some(s.search(query)(k).value)
    ensures k < maxRetries && s.extract(query, results)(k).Succeeded? &&
      (forall j :: 0 <= j < k ==> s.extract(query, results)(j).Failed?)
      ==> BestAddress(query, results, maxRetries, s.extract) == Some(s.extract(query, results)(k).value)
    ensures 0 < maxRetries && (forall j :: 0 <= j < maxRetries ==> s.search(query)(j).Failed?) ==>
      SearchOutcome(query, maxRetries, s.search) == Some([])
    ensures 0 < maxRetries && (forall j :: 0 <= j < maxRetries ==> s.extract(query, results)(j).Failed?) ==>
      BestAddress(query, results, maxRetries, s.extract) == Some(NoAddress)
  {
    FirstSuccessSpec(s.search(query), 0, maxRetries);
    FirstSuccessSpec(s.extract(query, results), 0, maxRetries);
  }

  // ---------------------------------------------------------------- places

  /** `_check_if_addressable`: the stripped, lower-cased reply is exactly "addressable"; a raised call is False. */
  function IsAddressable(reply: Option<string>): (b: bool)
    ensures reply.None? ==> !b
    ensures b ==> |Strip(reply.value)| == 11
  {
    reply.Some? && Lower(Strip(reply.value)) == "addressable"
  }

  /** The check ignores surrounding white space and letter case. */
  lemma AddressableReply(w1: string, x: string, w2: string)
    requires AllSpace(w1) && AllSpace(w2) && Lower(x) == "addressable"
    ensures IsAddressable(Some(w1 + x + w2))
  {
    assert LowerChar(x[0]) == 'a' && LowerChar(x[10]) == 'e';
    StripOfTrimmed(x);
    StripPadded(w1, x, w2);
  }

  /** The search results can be formatted into the prompt: each has a `title` and a `body`. */
  predicate Formattable(results: seq<Json>) {
    forall i :: 0 <= i < |results| ==> Item(results[i], "title").Ok? && Item(results[i], "body").Ok?
  }

  function AddressQuery(locStr: string): string {
    "What is the address of " + locStr + "?"
  }

  /**
   * `prep_place`, `None` standing for Python's None: an empty location gives None; a place
   * that is not addressable, or for which no address is found, is searched by its own text;
   * otherwise it is searched by the address the LLM picked from the search results. A
   * search result without `title` or `body` raises while formatting the prompt, which the
   * function turns into None.
   */
  function PlaceStrategy(location: Record, s: PrepServices): Option<Record> {
    var loc := Get(location, "location", JStr(""));
    if !Truthy(loc) then None
    else if !IsAddressable(s.addressable(loc)) then Some(SearchStrategy(loc))
    else
      var query := AddressQuery(Str(loc, s.show));
      var results := SearchOutcome(query, MaxRetries, s.search);
      if results.None? || results.value == [] then Some(SearchStrategy(loc))
      else if !Formattable(results.value) then None
      else
        var best := BestAddress(query, results.value, MaxRetries, s.extract);
        if best.Some? && best.value != [] && best.value != NoAddress then Some(SearchStrategy(JStr(best.value)))
        else Some(SearchStrategy(loc))
  }

  method PrepPlace(location: Record, s: PrepServices) returns (r: Option<Record>)
    ensures r == PlaceStrategy(location, s)
  {
    var loc := Get(location, "location", JStr(""));
    if !Truthy(loc) {
      return None;
    }
    if !IsAddressable(s.addressable(loc)) {
      return Some(SearchStrategy(loc));
    }
    var query := AddressQuery(Str(loc, s.show));
    var results := SearchDuckDuckGo(query, MaxRetries, s.search);
    if results.Some? && results.value != [] {
      if !Formattable(results.value) {
        return None;
      }
      var best := ExtractBestAddress(query, results.value, MaxRetries, s.extract);
      if best.Some? && best.value != [] && best.value != NoAddress {
        return Some(SearchStrategy(JStr(best.value)));
      }
    }
    return Some(SearchStrategy(loc));
  }

  /** An empty location gives None; a place the check does not call addressable (or whose check raised) is searched by its text. */
  lemma PlaceNotAddressable(location: Record, s: PrepServices)
    ensures !Truthy(Get(location, "location", JStr(""))) ==> PlaceStrategy(location, s).None?
    ensures var loc := Get(location, "location", JStr(""));
      Truthy(loc) && (s.addressable(loc).None? || Lower(Strip(s.addressable(loc).value)) != "addressable") ==>
      PlaceStrategy(location, s) == Some(SearchStrategy(location["location"]))
  {
  }

  /** An addressable place whose every search attempt raises is searched by its own text. */
  lemma PlaceSearchFails(location: Record, s: PrepServices)
    requires Truthy(Get(location, "location", JStr(""))) && IsAddressable(s.addressable(location["location"]))
    requires forall j :: 0 <= j < MaxRetries ==> s.search(AddressQuery(Str(location["location"], s.show)))(j).Failed?
    ensures PlaceStrategy(location, s) == Some(SearchStrategy(location["location"]))
  {
    FirstSuccessSpec(s.search(AddressQuery(Str(location["location"], s.show))), 0, MaxRetries);
  }

  /** An addressable place with search results whose every extraction attempt raises is searched by its own text. */
  lemma PlaceExtractionFails(location: Record, s: PrepServices)
    requires Truthy(Get(location, "location", JStr(""))) && IsAddressable(s.addressable(location["location"]))
    requires var q := AddressQuery(Str(location["location"], s.show));
      var res := SearchOutcome(q, MaxRetries, s.search);
      res.Some? && res.value != [] && Formattable(res.value) &&
      forall j :: 0 <= j < MaxRetries ==> s.extract(q, res.value)(j).Failed?
    ensures PlaceStrategy(location, s) == Some(SearchStrategy(location["location"]))
  {
    var q := AddressQuery(Str(location["location"], s.show));
    FirstSuccessSpec(s.extract(q, SearchOutcome(q, MaxRetries, s.search).value), 0, MaxRetries);
  }

  /**
   * An addressable place with search results, whose first successful extraction is a
   * non-empty reply other than "No address found", is searched by that reply.
   */
  lemma PlaceAddressFound(location: Record, s: PrepServices, k: nat)
    requires Truthy(Get(location, "location", JStr(""))) && IsAddressable(s.addressable(location["location"]))
    requires var q := AddressQuery(Str(location["location"], s.show));
      var res := SearchOutcome(q, MaxRetries, s.search);
      res.Some? && res.value != [] && Formattable(res.value) &&
      k < MaxRetries && s.extract(q, res.value)(k).Succeeded? &&
      (forall j :: 0 <= j < k ==> s.extract(q, res.value)(j).Failed?) &&
      s.extract(q, res.value)(k).value != [] && s.extract(q, res.value)(k).value != NoAddress
    ensures var q := AddressQuery(Str(location["location"], s.show));
      PlaceStrategy(location, s) ==
        Some(SearchStrategy(JStr(s.extract(q, SearchOutcome(q, MaxRetries, s.search).value)(k).value)))
  {
    var q := AddressQuery(Str(location["location"], s.show));
    FirstSuccessSpec(s.extract(q, SearchOutcome(q, MaxRetries, s.search).value), 0, MaxRetries);
  }

  // ---------------------------------------------------------------- streets and roads

  const AddressJunk: set<char> := {' ', ','}

  /**
   * The address part of a street: the text without every occurrence of the city (then
   * stripped), then without every occurrence of the state (then stripped), then without
   * leading and trailing spaces and commas. A name that does not occur changes nothing,
   * not even the white space.
   */
  function AddressPart(text: string, city: string, state: string): (a: string)
    ensures a == [] || (a[0] !in AddressJunk && a[|a| - 1] !in AddressJunk)
  {
    var a1 := if Contains(text, city) then Strip(ReplaceAll(text, city, "")) else text;
    var a2 := if Contains(a1, state) then Strip(ReplaceAll(a1, state, "")) else a1;
    StripChars(a2, AddressJunk)
  }

  function Component(parts: map<string, string>, k: string): string {
    if k in parts then parts[k] else ""
  }

  /**
   * `prep_street_road`: a street whose tagging names both a city (`PlaceName`) and a state
   * (`StateName`) becomes a structured query; one that lacks either, or that the tagger
   * declares unparsable, is searched by its text; an empty location, or any other exception
   * (the tagger's own, or string operations on a location that is not a string), gives None.
   */
  function StreetRoadStrategy(location: Record, s: PrepServices): Option<Record> {
    var loc := Get(location, "location", JStr(""));
    if !Truthy(loc) then None
    else match s.tag(loc)
      case Raised => None
      case Unparsable => Some(SearchStrategy(loc))
      case Tagged(parts) =>
        var city := Component(parts, "PlaceName");
        var state := Component(parts, "StateName");
        if city == [] || state == [] then Some(SearchStrategy(loc))
        else if !loc.JStr? then None
        else Some(StructuredStrategy(loc, AddressPart(loc.s, city, state), city, state))
  }

  /**
   * A street is structured exactly when its text is a string tagged with a city and a state,
   * and then carries its text, that city as locality, that state as region and an address
   * part with no leading or trailing space or comma.
   */
  lemma StreetRoadStructured(location: Record, s: PrepServices)
    ensures var r := StreetRoadStrategy(location, s);
      var loc := Get(location, "location", JStr(""));
      (r.Some? && r.value["geocode"] == JStr("structured") <==>
        (Truthy(loc) && loc.JStr? && s.tag(loc).Tagged? &&
         Component(s.tag(loc).parts, "PlaceName") != [] && Component(s.tag(loc).parts, "StateName") != [])) &&
      (r.Some? && r.value["geocode"] == JStr("structured") ==>
        var a := r.value["address"].s;
        r.value["text"] == loc && r.value["locality"] == JStr(Component(s.tag(loc).parts, "PlaceName")) &&
        r.value["region"] == JStr(Component(s.tag(loc).parts, "StateName")) &&
        (a == [] || (a[0] != ' ' && a[0] != ',' && a[|a| - 1] != ' ' && a[|a| - 1] != ','))) &&
      (r.Some? && r.value["geocode"] != JStr("structured") ==> r.value == SearchStrategy(loc))
  {
    var loc := Get(location, "location", JStr(""));
    assert SearchStrategy(loc)["geocode"] == JStr("search");
    if Truthy(loc) && s.tag(loc).Tagged? {
      var city := Component(s.tag(loc).parts, "PlaceName");
      var state := Component(s.tag(loc).parts, "StateName");
      if city != [] && state != [] && loc.JStr? {
        var a := AddressPart(loc.s, city, state);
        assert StreetRoadStrategy(location, s) == Some(StructuredStrategy(loc, a, city, state));
        StructuredFields(loc, a, city, state);
      }
    }
  }

  lemma StructuredFields(text: Json, address: string, city: string, state: string)
    ensures var r := StructuredStrategy(text, address, city, state);
      r["geocode"] == JStr("structured") && r["text"] == text && r["address"] == JStr(address) &&
      r["locality"] == JStr(city) && r["region"] == JStr(state)
  {
  }

  /** A street whose tagger declares it unparsable, or finds no city or no state, is searched by its text. */
  lemma StreetRoadSearch(location: Record, s: PrepServices)
    requires Truthy(Get(location, "location", JStr("")))
    requires var t := s.tag(location["location"]);
      t.Unparsable? || (t.Tagged? && (Component(t.parts, "PlaceName") == [] || Component(t.parts, "StateName") == []))
    ensures StreetRoadStrategy(location, s) == Some(SearchStrategy(location["location"]))
  {
  }

  /** With neither name in the text, the address part is the text without surrounding spaces and commas. */
  lemma AddressPartAbsent(text: string, city: string, state: string)
    requires !Contains(text, city) && !Contains(text, state)
    ensures AddressPart(text, city, state) == StripChars(text, AddressJunk)
  {
  }

  // ---------------------------------------------------------------- spans

  /** What `prep_span` returns: None (the span is dropped), one record, or a list of records. */
  datatype SpanOutcome = Dropped | One(record: Record) | Many(records: seq<Record>)

  /** One part of a span: a copy of the span with the part's text, type and a search strategy. */
  function SpanRecord(location: Record, part: Json): Option<Record> {
    if part.JObj? && "parsed_string" in part.fields && "type" in part.fields then
      var text := part.fields["parsed_string"];
      Some(location["location" := text]["type" := part.fields["type"]]["geocode" := JObj(SearchStrategy(text))])
    else None
  }

  function SpanRecords(location: Record, parts: seq<Json>): Option<seq<Record>> {
    MapSome(parts, part => SpanRecord(location, part))
  }

  /** The reply is a single object: a copy of the span with its text and type, and no strategy. */
  function SpanCopy(location: Record, reply: Json): Option<Record> {
    if reply.JObj? && "parsed_string" in reply.fields && "type" in reply.fields then
      Some(location["location" := reply.fields["parsed_string"]]["type" := reply.fields["type"]])
    else None
  }

  /**
   * `prep_span`: an empty location is dropped; a missing prompt, a failed call, a reply that
   * is not JSON, or a reply part without `parsed_string` or `type` gives the failure record
   * `{geocode: "none", text}`; a list reply gives one record per part.
   */
  function SpanOutcomeOf(location: Record, s: PrepServices): SpanOutcome {
    SpanResult(location, s, NoneStrategy(Get(location, "location", JStr(""))))
  }

  /** The outcome of a span, given the record that stands for a failure. */
  function SpanResult(location: Record, s: PrepServices, failure: Record): SpanOutcome {
    var loc := Get(location, "location", JStr(""));
    if !Truthy(loc) then Dropped
    else if !s.spanPrompt || s.span(loc).None? then One(failure)
    else
      var reply := s.span(loc).value;
      if reply.JArr? then
        match SpanRecords(location, reply.items)
        case None => One(failure)
        case Some(rs) => Many(rs)
      else
        match SpanCopy(location, reply)
        case None => One(failure)
        case Some(r) => One(r)
  }

  /**
   * The failure record `prep_span` evidently means, in the shape every other handler gives
   * its result: the span's own record with a `none` strategy in its `geocode` key.
   */
  function SpanFallback(location: Record): (r: Record)
    ensures r.Keys == location.Keys + {"geocode"}
    ensures forall k :: k in location && k != "geocode" ==> r[k] == location[k]
    ensures r["geocode"] == JObj(NoneStrategy(Get(location, "location", JStr(""))))
  {
    location["geocode" := JObj(NoneStrategy(Get(location, "location", JStr(""))))]
  }

  /** `prep_span` with the failure record it evidently means. */
  function SpanOutcomeFixed(location: Record, s: PrepServices): SpanOutcome {
    SpanResult(location, s, SpanFallback(location))
  }

  method PrepSpan(location: Record, s: PrepServices) returns (r: SpanOutcome)
    ensures r == SpanOutcomeOf(location, s)
  {
    var loc := Get(location, "location", JStr(""));
    if !Truthy(loc) {
      return Dropped;
    }
    if !s.spanPrompt {
      return One(NoneStrategy(loc));
    }
    var reply := s.span(loc);
    if reply.None? {
      return One(NoneStrategy(loc));
    }
    var processed := reply.value;
    if processed.JArr? {
      var parts := processed.items;
      var spans: seq<Record> := [];
      for i := 0 to |parts|
        invariant |spans| == i
        invariant forall j :: 0 <= j < i ==> SpanRecord(location, parts[j]) == Some(spans[j])
      {
        var part := parts[i];
        if !(part.JObj? && "parsed_string" in part.fields && "type" in part.fields) {
          SpanRecordsSpec(location, parts);
          return One(NoneStrategy(loc));
        }
        var newSpan := location["location" := part.fields["parsed_string"]];
        newSpan := newSpan["type" := part.fields["type"]];
        newSpan := newSpan["geocode" := JObj(SearchStrategy(newSpan["location"]))];
        spans := spans + [newSpan];
      }
      SpanRecordsSpec(location, parts);
      return Many(spans);
    }
    if !(processed.JObj? && "parsed_string" in processed.fields && "type" in processed.fields) {
      return One(NoneStrategy(loc));
    }
    var newLocation := location["location" := processed.fields["parsed_string"]];
    newLocation := newLocation["type" := processed.fields["type"]];
    return One(newLocation);
  }

  lemma SpanRecordsSpec(location: Record, parts: seq<Json>)
    ensures var r := SpanRecords(location, parts);
      (r.Some? <==> forall i :: 0 <= i < |parts| ==> SpanRecord(location, parts[i]).Some?) &&
      (r.Some? ==> (|r.value| == |parts| && forall i :: 0 <= i < |parts| ==> r.value[i] == SpanRecord(location, parts[i]).value))
  {
    MapSomeSpec(parts, part => SpanRecord(location, part));
  }

  /**
   * A list reply whose parts all have `parsed_string` and `type` expands into one record per
   * part, in order: the span's fields, with `location` and `type` taken from the part and a
   * search strategy on the part's text.
   */
  lemma SpanExpansion(location: Record, s: PrepServices)
    requires Truthy(Get(location, "location", JStr(""))) && s.spanPrompt
    requires s.span(location["location"]).Some? && s.span(location["location"]).value.JArr?
    requires var parts := s.span(location["location"]).value.items;
      forall i :: 0 <= i < |parts| ==>
        parts[i].JObj? && "parsed_string" in parts[i].fields && "type" in parts[i].fields
    ensures var parts := s.span(location["location"]).value.items;
      var r := SpanOutcomeOf(location, s);
      r.Many? && |r.records| == |parts| &&
      forall i :: 0 <= i < |parts| ==>
        r.records[i].Keys == location.Keys + {"location", "type", "geocode"} &&
        r.records[i]["location"] == parts[i].fields["parsed_string"] &&
        r.records[i]["type"] == parts[i].fields["type"] &&
        r.records[i]["geocode"] == JObj(SearchStrategy(parts[i].fields["parsed_string"])) &&
        forall k :: k in location && k !in {"location", "type", "geocode"} ==> r.records[i][k] == location[k]
  {
    SpanRecordsSpec(location, s.span(location["location"]).value.items);
  }

  /**
   * The failures of `prep_span`: an empty location drops the span; a missing prompt, a failed
   * call or undecodable reply, or a list reply with a malformed part gives the failure record.
   */
  lemma SpanFailures(location: Record, s: PrepServices)
    ensures !Truthy(Get(location, "location", JStr(""))) ==> SpanOutcomeOf(location, s) == Dropped
    ensures var loc := Get(location, "location", JStr(""));
      Truthy(loc) && (!s.spanPrompt || s.span(loc).None?) ==> SpanOutcomeOf(location, s) == One(NoneStrategy(loc))
    ensures var loc := Get(location, "location", JStr(""));
      Truthy(loc) && s.spanPrompt && s.span(loc).Some? && s.span(loc).value.JArr? &&
      (exists i :: 0 <= i < |s.span(loc).value.items| && SpanRecord(location, s.span(loc).value.items[i]).None?) ==>
      SpanOutcomeOf(location, s) == One(NoneStrategy(loc))
  {
    var loc := Get(location, "location", JStr(""));
    if Truthy(loc) && s.spanPrompt && s.span(loc).Some? && s.span(loc).value.JArr? {
      SpanRecordsSpec(location, s.span(loc).value.items);
    }
  }

  // ---------------------------------------------------------------- pass one

  function SpanOutcomeRecords(o: SpanOutcome): seq<Record> {
    match o
    case Dropped => []
    case One(r) => [r]
    case Many(rs) => rs
  }

  predicate IsSpan(location: Record) {
    Get(location, "type", JNull) == JStr("span")
  }

  /** What pass one puts in place of one record: a span's expansion, any other record itself. */
  function Expansion(location: Record, s: PrepServices): seq<Record> {
    if IsSpan(location) then SpanOutcomeRecords(SpanOutcomeOf(location, s)) else [location]
  }

  /** Pass one's step, as the function `ConcatMap` applies. */
  function ExpandWith(s: PrepServices): Record -> seq<Record> {
    location => Expansion(location, s)
  }

  /** Pass one over a list of records. */
  function Expand(locations: seq<Record>, s: PrepServices): seq<Record> {
    ConcatMap(locations, ExpandWith(s))
  }

  /** Pass one works record by record: each record's expansion takes its place, in order. */
  lemma ExpandAppend(a: seq<Record>, b: seq<Record>, s: PrepServices)
    ensures Expand(a + b, s) == Expand(a, s) + Expand(b, s)
  {
    ConcatMapAppend(a, b, ExpandWith(s));
  }

  /** A list without spans goes through pass one unchanged. */
  lemma ExpandNoSpans(locations: seq<Record>, s: PrepServices)
    requires forall i :: 0 <= i < |locations| ==> !IsSpan(locations[i])
    ensures Expand(locations, s) == locations
  {
    ConcatMapSingletons(locations, ExpandWith(s));
  }

  // ---------------------------------------------------------------- pass two

  function RegionTypes(): set<string> {
    {"region_state", "region_city", "region_national"}
  }

  function SearchTypes(): set<string> {
    {"address_intersection", "neighborhood", "city", "county"}
  }

  /** `location['location']`: a record without one raises KeyError. */
  function LocationText(location: Record): (r: Result<Json>)
    ensures r.Ok? <==> "location" in location
    ensures r.Ok? ==> r.value == location["location"]
    ensures r.Err? ==> r.fault == KeyError
  {
    Item(JObj(location), "location")
  }

  function OrNull(r: Option<Record>): Json {
    if r.Some? then JObj(r.value) else JNull
  }

  /**
   * The strategy the `prep_*` handler for a record's type makes, `None` for a type without a
   * handler (the record then gets no `geocode` key). The one-line handlers read
   * `location['location']` and raise KeyError without it.
   */
  function Strategy(location: Record, s: PrepServices): Result<Option<Json>> {
    var t := Get(location, "type", JNull);
    if t.JStr? && t.s in RegionTypes() then
      var text :- LocationText(location);
      Ok(Some(JObj(NoneStrategy(text))))
    else if t == JStr("place") then Ok(Some(OrNull(PlaceStrategy(location, s))))
    else if t == JStr("street_road") then Ok(Some(OrNull(StreetRoadStrategy(location, s))))
    else if t.JStr? && t.s in SearchTypes() then
      var text :- LocationText(location);
      Ok(Some(JObj(SearchStrategy(text))))
    else if t == JStr("state") then
      var text :- LocationText(location);
      Ok(Some(JObj(StateStrategy(text))))
    else Ok(None)
  }

  /** Pass two on one record: a truthy `geocode` is kept, otherwise the type's strategy is set. */
  function Dispatch(location: Record, s: PrepServices): Result<Record> {
    if Truthy(Get(location, "geocode", JNull)) then Ok(location)
    else
      var g :- Strategy(location, s);
      if g.None? then Ok(location) else Ok(location["geocode" := g.value])
  }

  /** The `if/elif` chain of pass two. */
  method ChooseStrategy(location: Record, s: PrepServices) returns (r: Result<Option<Json>>)
    ensures r == Strategy(location, s)
  {
    var t := Get(location, "type", JNull);
    if t.JStr? && t.s in RegionTypes() {
      var text :- LocationText(location);
      return Ok(Some(JObj(NoneStrategy(text))));
    } else if t == JStr("place") {
      var g := PrepPlace(location, s);
      return Ok(Some(OrNull(g)));
    } else if t == JStr("street_road") {
      return Ok(Some(OrNull(StreetRoadStrategy(location, s))));
    } else if t.JStr? && t.s in SearchTypes() {
      var text :- LocationText(location);
      return Ok(Some(JObj(SearchStrategy(text))));
    } else if t == JStr("state") {
      var text :- LocationText(location);
      return Ok(Some(JObj(StateStrategy(text))));
    }
    return Ok(None);
  }

  /** Pass two never touches a record whose `geocode` is truthy, the failure record of a span included. */
  lemma DispatchKeepsStrategy(location: Record, s: PrepServices)
    ensures Truthy(Get(location, "geocode", JNull)) ==> Dispatch(location, s) == Ok(location)
    ensures Dispatch(NoneStrategy(Get(location, "location", JStr(""))), s) ==
      Ok(NoneStrategy(Get(location, "location", JStr(""))))
  {
  }

  /** Pass two changes at most the `geocode` key of a record. */
  lemma DispatchOnlyGeocode(location: Record, s: PrepServices)
    requires Dispatch(location, s).Ok?
    ensures var r := Dispatch(location, s).value;
      r.Keys <= location.Keys + {"geocode"} && location.Keys <= r.Keys &&
      forall k :: k in location && k != "geocode" ==> r[k] == location[k]
  {
  }

  /**
   * The dispatch on a record without a truthy `geocode`: regions are not geocoded, the
   * search types are searched by their text, a state becomes a structured query on its
   * region alone, and any other type gets no strategy at all.
   */
  lemma DispatchTypes(location: Record, s: PrepServices)
    requires !Truthy(Get(location, "geocode", JNull)) && "location" in location
    ensures var t := Get(location, "type", JNull);
      var r := Dispatch(location, s);
      var text := location["location"];
      (t.JStr? && t.s in RegionTypes() ==> r == Ok(location["geocode" := JObj(NoneStrategy(text))])) &&
      (t.JStr? && t.s in SearchTypes() ==> r == Ok(location["geocode" := JObj(SearchStrategy(text))])) &&
      (t == JStr("state") ==>
        (r == Ok(location["geocode" := JObj(StateStrategy(text))]) && "text" !in StateStrategy(text))) &&
      (!(t.JStr? && t.s in RegionTypes() + SearchTypes() + {"place", "street_road", "state"}) ==> r == Ok(location))
  {
  }

  /** A record of a one-line handler's type without a `location` makes pass two raise KeyError. */
  lemma DispatchMissingText(location: Record, s: PrepServices)
    requires !Truthy(Get(location, "geocode", JNull)) && "location" !in location
    ensures var t := Get(location, "type", JNull);
      t.JStr? && t.s in RegionTypes() + SearchTypes() + {"state"} ==> Dispatch(location, s) == Err(KeyError)
  {
  }

  /** Pass two's step, as the function `MapResult` applies. */
  function DispatchWith(s: PrepServices): Record -> Result<Record> {
    location => Dispatch(location, s)
  }

  function DispatchAll(locations: seq<Record>, s: PrepServices): Result<seq<Record>> {
    MapResult(locations, DispatchWith(s))
  }

  // ---------------------------------------------------------------- `_prep_locations`

  /**
   * `_prep_locations`: an empty or missing list leaves the payload as it is; otherwise pass
   * one and pass two run over the records and the result replaces `locations`. A list item
   * that is not a dict makes pass one raise; pass two raises KeyError as above.
   */
  function Prepped(payload: Record, s: PrepServices): (r: Result<Record>)
    ensures !Truthy(Get(payload, "locations", EmptyArr)) ==> r == Ok(payload)
  {
    var locations := Get(payload, "locations", EmptyArr);
    if !Truthy(locations) then Ok(payload)
    else
      var records :- DictItems(locations);
      var processed :- DispatchAll(Expand(records, s), s);
      Ok(payload["locations" := FromRecords(processed)])
  }

  method PrepLocations(payload: Record, s: PrepServices) returns (r: Result<Record>)
    ensures r == Prepped(payload, s)
  {
    var locations := Get(payload, "locations", EmptyArr);
    if !Truthy(locations) {
      return Ok(payload);
    }
    var records :- DictItems(locations);
    var processed := ExpandSpans(records, s);
    processed :- AssignStrategies(processed, s);
    return Ok(payload["locations" := FromRecords(processed)]);
  }

  /** Pass one: spans first, because they can create new records. */
  method ExpandSpans(records: seq<Record>, s: PrepServices) returns (processed: seq<Record>)
    ensures processed == Expand(records, s)
  {
    processed := [];
    for i := 0 to |records|
      invariant processed == Expand(records[..i], s)
    {
      var location := records[i];
      ConcatMapStep(records, i, ExpandWith(s));
      if IsSpan(location) {
        var spans := PrepSpan(location, s);
        match spans
        case Dropped =>
        case One(rec) => processed := processed + [rec];
        case Many(recs) => processed := processed + recs;
      } else {
        processed := processed + [location];
      }
    }
    assert records[..|records|] == records;
  }

  /** Pass two: a strategy for every record that has none yet, set in place. */
  method AssignStrategies(expanded: seq<Record>, s: PrepServices) returns (r: Result<seq<Record>>)
    ensures r == DispatchAll(expanded, s)
  {
    var processed := expanded;
    for i := 0 to |processed|
      invariant |processed| == |expanded|
      invariant DispatchAll(expanded[..i], s) == Ok(processed[..i])
      invariant processed[i..] == expanded[i..]
    {
      var location := processed[i];
      assert location == expanded[i];
      if !Truthy(Get(location, "geocode", JNull)) {
        var g := ChooseStrategy(location, s);
        if g.Err? {
          MapResultErrAt(expanded, i, DispatchWith(s));
          return Err(g.fault);
        }
        if g.value.Some? {
          processed := processed[i := location["geocode" := g.value.value]];
        }
      }
      MapResultStep(expanded, i, DispatchWith(s));
      assert processed[..i + 1] == processed[..i] + [processed[i]];
    }
    assert expanded[..|expanded|] == expanded;
    assert processed[..|processed|] == processed;
    return Ok(processed);
  }

  /**
   * A successful run replaces only `locations`, with pass two applied to each record of pass
   * one's output, in order.
   */
  lemma PreppedShape(payload: Record, s: PrepServices)
    requires Truthy(Get(payload, "locations", EmptyArr)) && Prepped(payload, s).Ok?
    ensures var r := Prepped(payload, s).value;
      var expanded := Expand(DictItems(payload["locations"]).value, s);
      r.Keys == payload.Keys &&
      (forall k :: k in payload && k != "locations" ==> r[k] == payload[k]) &&
      r["locations"].JArr? && |r["locations"].items| == |expanded| &&
      forall i :: 0 <= i < |expanded| ==>
        Dispatch(expanded[i], s).Ok? && r["locations"].items[i] == JObj(Dispatch(expanded[i], s).value)
  {
    var expanded := Expand(DictItems(payload["locations"]).value, s);
    MapResultSpec(expanded, DispatchWith(s));
  }
}
