/**
 * The validation stage, `worker/tasks/locations/geocode/review.py`: every record's geocoding
 * result is shown to an LLM, whose verdict is stamped on the record's strategy as `validated`
 * and `rationale`.
 *
 * The LLM is a parameter (`ValidationServices`): attempt `k` of the validation chain, given
 * the original text, the context and the formatted result, either raises or gives the reply
 * text. `json.loads` is the parameter `parse` (None on a decoding error) and `str()` of a
 * non-string value inside an f-string is the parameter `show`.
 */
module GeocodeValidation {
  import opened Wrappers
  import opened PyJson
  import opened PyText
  import opened Seqs
  import opened Retry
  import GeocodeUtils

  datatype ValidationServices = ValidationServices(
    show: Json -> string,
    invoke: (Json, Json, string) -> (nat -> Attempt<string>),
    parse: string -> Option<Json>)

  /** The `max_retries` default of `_validate_geocoding`, the only value its caller passes. */
  const MaxRetries: nat := 3

  const NoResultRationale: string := "No geocoding result to validate"
  const NoResultsRationale: string := "No geocoding results to validate"
  const NotAvailable: string := "N/A"

  /** A verdict of the stage itself: not validated, for the given reason. */
  function Rejected(rationale: string): Json {
    JObj(map["validated" := JBool(false), "rationale" := JStr(rationale)])
  }

  /** The rationale once every attempt has failed: "Validation failed after 3 attempts". */
  function ExhaustedRationale(): string {
    "Validation failed after " + NatToString(MaxRetries) + " attempts"
  }

  // ---------------------------------------------------------------- `_validate_geocoding`

  /** `x.get(k1, {}).get(k2, {}).get(k3, "N/A")`: each `.get` on a value that is not a dict raises. */
  function GetPath(x: Json, k1: string, k2: string, k3: string): Result<Json> {
    var a :- GetFrom(x, k1, EmptyObj);
    var b :- GetFrom(a, k2, EmptyObj);
    GetFrom(b, k3, JStr(NotAvailable))
  }

  /**
   * The text of the geocoded result shown to the LLM: label, city, county and state names,
   * confidence score and match type, one per line, "N/A" for what is missing. It is built
   * before the retry loop, so a `.get` that raises escapes the function.
   */
  function Formatted(result: Json, show: Json -> string): Result<string> {
    var name :- GetFrom(result, "label", JStr(NotAvailable));
    var city :- GetPath(result, "boundaries", "city", "name");
    var county :- GetPath(result, "boundaries", "county", "name");
    var state :- GetPath(result, "boundaries", "state", "name");
    var confidence :- GetFrom(result, "confidence", EmptyObj);
    var score :- GetFrom(confidence, "score", JStr(NotAvailable));
    var matchType :- GetFrom(confidence, "match_type", JStr(NotAvailable));
    Ok("Label: " + Str(name, show) + "\n" +
       "City: " + Str(city, show) + "\n" +
       "County: " + Str(county, show) + "\n" +
       "State: " + Str(state, show) + "\n" +
       "Confidence Score: " + Str(score, show) + "\n" +
       "Match Type: " + Str(matchType, show))
  }

  /** `json.loads` of the cleaned reply: strip, fences at both ends dropped, a leading `json` dropped. */
  function Decoder(parse: string -> Option<Json>): string -> Option<Json> {
    reply => parse(GeocodeUtils.CleanFenced(reply))
  }

  /**
   * One attempt of the loop body, given how a reply is decoded: the chain call and the
   * decoding are both inside the `try`, so a reply that does not decode counts as a failed
   * attempt, like a call that raised.
   */
  function ParsedAttempt(attempt: Attempt<string>, decode: string -> Option<Json>): Attempt<Json> {
    match attempt
    case Failed => Failed
    case Succeeded(reply) =>
      match decode(reply)
      case None => Failed
      case Some(v) => Succeeded(v)
  }

  /** Every attempt of the loop body. */
  function Parsed(attempts: nat -> Attempt<string>, decode: string -> Option<Json>): nat -> Attempt<Json> {
    (k: nat) => ParsedAttempt(attempts(k), decode)
  }

  /** The retry loop: the first reply that decodes, returned unchecked; a rejection once every attempt failed. */
  function Verdict(attempts: nat -> Attempt<string>, decode: string -> Option<Json>): Json {
    match FirstSuccess(Parsed(attempts, decode), 0, MaxRetries)
    case None => Rejected(ExhaustedRationale())
    case Some(v) => v
  }

  /**
   * `_validate_geocoding`: a falsy result is rejected without asking the LLM; otherwise the
   * result is formatted (which may raise) and the LLM's verdict is returned.
   */
  function ValidationOutcome(text: Json, context: Json, result: Json, s: ValidationServices): Result<Json> {
    if !Truthy(result) then Ok(Rejected(NoResultRationale))
    else
      var formatted :- Formatted(result, s.show);
      Ok(Verdict(s.invoke(text, context, formatted), Decoder(s.parse)))
  }

  method ValidateGeocoding(text: Json, context: Json, result: Json, s: ValidationServices) returns (r: Result<Json>)
    ensures r == ValidationOutcome(text, context, result, s)
  {
    if !Truthy(result) {
      return Ok(Rejected(NoResultRationale));
    }
    var formatted :- Formatted(result, s.show);
    var verdict := AskValidator(s.invoke(text, context, formatted), s.parse);
    return Ok(verdict);
  }

  /** The retry loop of `_validate_geocoding`. */
  method AskValidator(attempts: nat -> Attempt<string>, parse: string -> Option<Json>) returns (r: Json)
    ensures r == Verdict(attempts, Decoder(parse))
  {
    for attempt := 0 to MaxRetries
      invariant forall k :: 0 <= k < attempt ==> ParsedAttempt(attempts(k), Decoder(parse)).Failed?
    {
      if attempts(attempt).Succeeded? {
        var validation := DecodeReply(attempts(attempt).value, parse);
        if validation.Some? {
          FirstSuccessSpec(Parsed(attempts, Decoder(parse)), 0, MaxRetries);
          return validation.value;
        }
      }
      if attempt == MaxRetries - 1 {
        FirstSuccessSpec(Parsed(attempts, Decoder(parse)), 0, MaxRetries);
        return Rejected(ExhaustedRationale());
      }
    }
    FirstSuccessSpec(Parsed(attempts, Decoder(parse)), 0, MaxRetries);
    return Rejected(ExhaustedRationale());
  }

  /** The body of one attempt once the call has answered: the reply is cleaned step by step, then decoded. */
  method DecodeReply(reply: string, parse: string -> Option<Json>) returns (v: Option<Json>)
    ensures v == Decoder(parse)(reply)
  {
    var content := CleanReply(reply);
    v := parse(content);
  }

  /** The cleanup of one reply, step by step: strip, drop the fences at both ends, drop a leading `json`. */
  method CleanReply(raw: string) returns (content: string)
    ensures content == GeocodeUtils.CleanFenced(raw)
  {
    content := Strip(raw);
    if StartsWith(content, GeocodeUtils.Fence) && EndsWith(content, GeocodeUtils.Fence) {
      content := Strip(DropBoth(content, 3));
    }
    if StartsWith(content, "json") {
      content := Strip(content[4..]);
    }
  }

  // ---------------------------------------------------------------- properties of the verdict

  /** A falsy result is rejected with its own rationale, whatever the services would have said. */
  lemma NoResultRejected(text: Json, context: Json, result: Json, s: ValidationServices, s': ValidationServices)
    requires !Truthy(result)
    ensures ValidationOutcome(text, context, result, s) == Ok(Rejected("No geocoding result to validate"))
    ensures ValidationOutcome(text, context, result, s) == ValidationOutcome(text, context, result, s')
  {
  }

  /**
   * The verdict is the rejection "Validation failed after 3 attempts" when each of the three
   * attempts failed (raised, or gave a reply that does not decode); otherwise it is the decoded
   * reply of the first attempt that succeeded, whatever JSON value that is.
   */
  lemma VerdictSpec(attempts: nat -> Attempt<string>, decode: string -> Option<Json>, k: nat)
    ensures (forall j :: 0 <= j < 3 ==> attempts(j).Failed? || decode(attempts(j).value).None?) ==>
      Verdict(attempts, decode) == Rejected(ExhaustedRationale())
    ensures (k < 3 && attempts(k).Succeeded? && decode(attempts(k).value).Some? &&
      forall j :: 0 <= j < k ==> attempts(j).Failed? || decode(attempts(j).value).None?)
      ==> Verdict(attempts, decode) == decode(attempts(k).value).value
  {
    FirstSuccessSpec(Parsed(attempts, decode), 0, MaxRetries);
  }

  lemma ExhaustedRationaleText()
    ensures ExhaustedRationale() == "Validation failed after 3 attempts"
  {
    assert NatToString(3) == "3";
  }

  /** No more than three attempts are made: the verdict depends on nothing the fourth attempt would say. */
  lemma VerdictBounded(a: nat -> Attempt<string>, b: nat -> Attempt<string>, decode: string -> Option<Json>)
    requires forall k :: 0 <= k < 3 ==> a(k) == b(k)
    ensures Verdict(a, decode) == Verdict(b, decode)
  {
    FirstSuccessBounded(Parsed(a, decode), Parsed(b, decode), 0, MaxRetries);
  }

  /** A first reply that is a fenced `json` block is decoded from its stripped body. */
  lemma VerdictFencedReply(attempts: nat -> Attempt<string>, parse: string -> Option<Json>, body: string)
    requires attempts(0) == Succeeded(GeocodeUtils.JsonBlock(body)) && parse(Strip(body)).Some?
    ensures Verdict(attempts, Decoder(parse)) == parse(Strip(body)).value
  {
    GeocodeUtils.CleanFencedBlock(body);
    assert Decoder(parse)(GeocodeUtils.JsonBlock(body)) == parse(Strip(body));
    VerdictSpec(attempts, Decoder(parse), 0);
  }

  /**
   * Formatting raises exactly when the result, or its `boundaries` or `confidence` value or
   * one of the three boundaries, is present but not a dict.
   */
  lemma FormattedSpec(result: Json, show: Json -> string)
    ensures Formatted(result, show).Ok? <==>
      result.JObj? &&
      Get(result.fields, "boundaries", EmptyObj).JObj? &&
      Get(result.fields, "confidence", EmptyObj).JObj? &&
      (forall level | level in ["city", "county", "state"] ::
         Get(Get(result.fields, "boundaries", EmptyObj).fields, level, EmptyObj).JObj?)
  {
  }

  // ---------------------------------------------------------------- one record

  /** `geocode['validated'] = validated; geocode['rationale'] = rationale`, seen from the record. */
  function Stamp(item: Record, geocode: Record, validated: Json, rationale: Json): Record {
    item["geocode" := JObj(geocode["validated" := validated]["rationale" := rationale])]
  }

  /**
   * The loop body of `_validate_locations` for one item. The `in` test and the subscripts
   * raise TypeError on an item that is not a dict; a strategy that is not a dict, and a verdict
   * that is not a dict, raise AttributeError on their `.get`.
   */
  function ValidateItem(item: Json, s: ValidationServices): Result<Json> {
    if !item.JObj? then Err(TypeError)
    else
      var geocode := Get(item.fields, "geocode", EmptyObj);
      var results :- GetFrom(geocode, "results", JNull);
      if !Truthy(results) then
        Ok(JObj(Stamp(item.fields, geocode.fields, JBool(false), JStr(NoResultsRationale))))
      else
        var text := Get(item.fields, "original_text", JStr(""));
        var context := Get(item.fields, "location", JStr(""));
        var validation :- ValidationOutcome(text, context, results, s);
        if !validation.JObj? then Err(AttributeError)
        else
          var validated := Get(validation.fields, "validated", JBool(false));
          var rationale := Get(validation.fields, "rationale", JStr(""));
          Ok(JObj(Stamp(item.fields, geocode.fields, validated, rationale)))
  }

  method ValidateOne(item: Json, s: ValidationServices) returns (r: Result<Json>)
    ensures r == ValidateItem(item, s)
  {
    if !item.JObj? {
      return Err(TypeError);
    }
    var fields := item.fields;
    if "geocode" !in fields {
      fields := fields["geocode" := EmptyObj];
    }
    var geocode := fields["geocode"];
    assert geocode == Get(item.fields, "geocode", EmptyObj);
    var results :- GetFrom(geocode, "results", JNull);
    var g := geocode.fields;
    if !Truthy(results) {
      g := g["validated" := JBool(false)];
      g := g["rationale" := JStr(NoResultsRationale)];
      assert fields["geocode" := JObj(g)] == item.fields["geocode" := JObj(g)];
      return Ok(JObj(fields["geocode" := JObj(g)]));
    }
    var validation :- ValidateGeocoding(Get(fields, "original_text", JStr("")), Get(fields, "location", JStr("")), results, s);
    if !validation.JObj? {
      return Err(AttributeError);
    }
    g := g["validated" := Get(validation.fields, "validated", JBool(false))];
    g := g["rationale" := Get(validation.fields, "rationale", JStr(""))];
    assert fields["geocode" := JObj(g)] == item.fields["geocode" := JObj(g)];
    return Ok(JObj(fields["geocode" := JObj(g)]));
  }

  /**
   * A validated record keeps every field but `geocode`, and its strategy keeps every key but
   * the two stamped ones, which are always present afterwards.
   */
  lemma ValidateItemStamps(item: Json, s: ValidationServices)
    requires ValidateItem(item, s).Ok?
    ensures var r := ValidateItem(item, s).value;
      item.JObj? && r.JObj? &&
      r.fields.Keys == item.fields.Keys + {"geocode"} &&
      (forall k :: k in item.fields && k != "geocode" ==> r.fields[k] == item.fields[k]) &&
      var g := Get(item.fields, "geocode", EmptyObj);
      g.JObj? && r.fields["geocode"].JObj? &&
      r.fields["geocode"].fields.Keys == g.fields.Keys + {"validated", "rationale"} &&
      (forall k :: k in g.fields && k != "validated" && k != "rationale" ==>
         r.fields["geocode"].fields[k] == g.fields[k])
  {
  }

  /**
   * A record without results (no strategy at all, or a strategy whose `results` is missing or
   * falsy) is stamped not validated, with its own rationale, and the LLM is not asked.
   */
  lemma ValidateItemNoResults(item: Record, s: ValidationServices, s': ValidationServices)
    requires var g := Get(item, "geocode", EmptyObj); g.JObj? && !Truthy(Get(g.fields, "results", JNull))
    ensures ValidateItem(JObj(item), s) ==
      Ok(JObj(Stamp(item, Get(item, "geocode", EmptyObj).fields, JBool(false), JStr("No geocoding results to validate"))))
    ensures ValidateItem(JObj(item), s) == ValidateItem(JObj(item), s')
  {
  }

  /**
   * A record with results gets the verdict's `validated` and `rationale`, defaulting to
   * False and the empty string; a verdict that is not a dict raises AttributeError.
   */
  lemma ValidateItemVerdict(item: Record, s: ValidationServices)
    requires var g := Get(item, "geocode", EmptyObj); g.JObj? && Truthy(Get(g.fields, "results", JNull))
    requires ValidationOutcome(Get(item, "original_text", JStr("")), Get(item, "location", JStr("")),
                               Get(item, "geocode", EmptyObj).fields["results"], s).Ok?
    ensures var g := Get(item, "geocode", EmptyObj);
      var v := ValidationOutcome(Get(item, "original_text", JStr("")), Get(item, "location", JStr("")),
                                 g.fields["results"], s).value;
      (v.JObj? ==>
         ValidateItem(JObj(item), s) ==
         Ok(JObj(Stamp(item, g.fields, Get(v.fields, "validated", JBool(false)), Get(v.fields, "rationale", JStr(""))))))
      && (!v.JObj? ==> ValidateItem(JObj(item), s) == Err(AttributeError))
  {
  }

  /** An item that is not a dict, or whose strategy is present but not a dict, raises. */
  lemma ValidateItemErrors(item: Json, s: ValidationServices)
    ensures !item.JObj? ==> ValidateItem(item, s) == Err(TypeError)
    ensures item.JObj? && "geocode" in item.fields && !item.fields["geocode"].JObj? ==>
      ValidateItem(item, s) == Err(AttributeError)
  {
  }

  // ---------------------------------------------------------------- the whole stage

  /** The per-item step of `_validate_locations`, as the function `MapResult` applies. */
  function ValidateWith(s: ValidationServices): Json -> Result<Json> {
    item => ValidateItem(item, s)
  }

  function ValidateAll(items: seq<Json>, s: ValidationServices): Result<seq<Json>> {
    MapResult(items, ValidateWith(s))
  }

  /**
   * `_validate_locations`: an empty or missing list leaves the payload as it is; a truthy
   * value that is not a list raises TypeError (its elements are keys or characters, or it is
   * not iterable); otherwise every item goes through the loop body.
   */
  function Validated(payload: Record, s: ValidationServices): (r: Result<Record>)
    ensures !Truthy(Get(payload, "locations", EmptyArr)) ==> r == Ok(payload)
  {
    var locations := Get(payload, "locations", EmptyArr);
    if !Truthy(locations) then Ok(payload)
    else if !locations.JArr? then Err(TypeError)
    else
      var out :- ValidateAll(locations.items, s);
      Ok(payload["locations" := JArr(out)])
  }

  method ValidateLocations(payload: Record, s: ValidationServices) returns (r: Result<Record>)
    ensures r == Validated(payload, s)
  {
    var locations := Get(payload, "locations", EmptyArr);
    if !Truthy(locations) {
      return Ok(payload);
    }
    if !locations.JArr? {
      return Err(TypeError);
    }
    var items := locations.items;
    var out := items;
    for i := 0 to |items|
      invariant |out| == |items|
      invariant ValidateAll(items[..i], s) == Ok(out[..i])
      invariant out[i..] == items[i..]
    {
      var item := ValidateOne(out[i], s);
      assert out[i] == items[i];
      if item.Err? {
        MapResultErrAt(items, i, ValidateWith(s));
        return Err(item.fault);
      }
      MapResultStep(items, i, ValidateWith(s));
      out := out[i := item.value];
      assert out[..i + 1] == out[..i] + [out[i]];
    }
    assert items[..|items|] == items;
    assert out[..|out|] == out;
    return Ok(payload["locations" := JArr(out)]);
  }

  /** A processed item: a dict whose strategy is a dict carrying `validated` and `rationale`. */
  predicate Stamped(item: Json) {
    item.JObj? && "geocode" in item.fields && item.fields["geocode"].JObj? &&
    "validated" in item.fields["geocode"].fields && "rationale" in item.fields["geocode"].fields
  }

  /**
   * A successful run keeps the list's length and order, leaves every key but `locations`
   * alone, and leaves every item a dict whose strategy carries `validated` and `rationale`.
   */
  lemma ValidatedShape(payload: Record, s: ValidationServices)
    requires Truthy(Get(payload, "locations", EmptyArr)) && Validated(payload, s).Ok?
    ensures var r := Validated(payload, s).value;
      var items := payload["locations"].items;
      payload["locations"].JArr? &&
      r.Keys == payload.Keys &&
      (forall k :: k in payload && k != "locations" ==> r[k] == payload[k]) &&
      r["locations"].JArr? && |r["locations"].items| == |items| &&
      forall i :: 0 <= i < |items| ==>
        ValidateItem(items[i], s).Ok? && r["locations"].items[i] == ValidateItem(items[i], s).value &&
        Stamped(r["locations"].items[i])
  {
    var items := payload["locations"].items;
    var out := ValidateAll(items, s).value;
    assert Validated(payload, s).value == payload["locations" := JArr(out)];
    MapResultSpec(items, ValidateWith(s));
    forall i | 0 <= i < |items|
      ensures ValidateItem(items[i], s).Ok? && out[i] == ValidateItem(items[i], s).value && Stamped(out[i])
    {
      assert ValidateWith(s)(items[i]) == ValidateItem(items[i], s);
      ValidateItemStamps(items[i], s);
    }
  }
}
