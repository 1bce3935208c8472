/**
 * The consolidation after validation, `worker/tasks/locations/geocode/consolidate.py`: only
 * the records whose strategy says `validated` (truthily) stay, and the validation metadata
 * is removed from their strategy.
 */
module GeocodeConsolidate {
  import opened Wrappers
  import opened PyJson
  import opened Seqs

  const Metadata: set<string> := {"validated", "rationale"}

  /**
   * The comprehension's condition, `location.get('geocode', {}).get('validated', False)`:
   * an item or a strategy that is not a dict raises AttributeError.
   */
  function IsValidated(location: Json): (r: Result<bool>)
    ensures r.Ok? <==> location.JObj? && Get(location.fields, "geocode", EmptyObj).JObj?
  {
    if !location.JObj? then Err(AttributeError)
    else
      var validated :- GetFrom(Get(location.fields, "geocode", EmptyObj), "validated", JBool(false));
      Ok(Truthy(validated))
  }

  /** A kept record: a dict whose strategy is a dict with a truthy `validated`. */
  predicate Kept(location: Json) {
    location.JObj? && "geocode" in location.fields && location.fields["geocode"].JObj? &&
    Truthy(Get(location.fields["geocode"].fields, "validated", JBool(false)))
  }

  lemma IsValidatedKept(location: Json)
    ensures IsValidated(location) == Ok(true) <==> Kept(location)
  {
  }

  /**
   * The cleanup of one kept record: its strategy is replaced by a copy without `validated`
   * and `rationale`. A record whose strategy is not a dict is never kept, and is left as it is.
   */
  function Cleaned(location: Json): (r: Json)
    ensures Kept(location) ==>
      r.JObj? && r.fields.Keys == location.fields.Keys &&
      (forall k :: k in location.fields && k != "geocode" ==> r.fields[k] == location.fields[k]) &&
      r.fields["geocode"] == JObj(location.fields["geocode"].fields - Metadata)
  {
    if location.JObj? && "geocode" in location.fields && location.fields["geocode"].JObj? then
      JObj(location.fields["geocode" := JObj(Pop(location.fields["geocode"].fields, Metadata))])
    else location
  }

  /**
   * `_consolidate_geocoded_locations`: an empty or missing list leaves the payload as it is;
   * otherwise the validated records, cleaned, replace the list.
   */
  function Consolidated(payload: Record): (r: Result<Record>)
    ensures !Truthy(Get(payload, "locations", EmptyArr)) ==> r == Ok(payload)
  {
    var locations := Get(payload, "locations", EmptyArr);
    if !Truthy(locations) then Ok(payload)
    else
      var items :- LoopItems(locations);
      var kept :- FilterResult(items, IsValidated);
      Ok(payload["locations" := JArr(Map(kept, Cleaned))])
  }

  method ConsolidateGeocodedLocations(payload: Record) returns (r: Result<Record>)
    ensures r == Consolidated(payload)
  {
    var locations := Get(payload, "locations", EmptyArr);
    if !Truthy(locations) {
      return Ok(payload);
    }
    var items :- LoopItems(locations);
    var kept :- FilterResult(items, IsValidated);
    var cleaned := CleanUp(kept);
    return Ok(payload["locations" := JArr(cleaned)]);
  }

  /** The cleanup loop: each record's strategy is replaced by its copy without the metadata. */
  method CleanUp(kept: seq<Json>) returns (out: seq<Json>)
    ensures out == Map(kept, Cleaned)
  {
    out := kept;
    for i := 0 to |kept|
      invariant |out| == |kept|
      invariant forall j :: 0 <= j < i ==> out[j] == Cleaned(kept[j])
      invariant out[i..] == kept[i..]
    {
      assert out[i] == kept[i];
      var location := out[i];
      if location.JObj? && "geocode" in location.fields {
        var geocode := location.fields["geocode"];
        if geocode.JObj? {
          var clean := geocode.fields;
          clean := clean - {"validated"};
          clean := clean - {"rationale"};
          assert clean == geocode.fields - Metadata;
          out := out[i := JObj(location.fields["geocode" := JObj(clean)])];
        }
      }
    }
  }

  // ---------------------------------------------------------------- properties

  /**
   * A successful run keeps exactly the validated records, in their order, cleaned: every
   * record left has its strategy without `validated` and `rationale` and all its other
   * fields, and the list is no longer than before. Nothing but `locations` changes.
   */
  lemma ConsolidatedSpec(payload: Record)
    requires Truthy(Get(payload, "locations", EmptyArr)) && Consolidated(payload).Ok?
    ensures var items := LoopItems(payload["locations"]).value;
      var kept := FilterResult(items, IsValidated).value;
      var r := Consolidated(payload).value;
      r.Keys == payload.Keys &&
      (forall k :: k in payload && k != "locations" ==> r[k] == payload[k]) &&
      r["locations"] == JArr(Map(kept, Cleaned)) &&
      |kept| <= |items| &&
      (forall x :: x in kept <==> x in items && Kept(x)) &&
      (forall i :: 0 <= i < |kept| ==> Kept(kept[i]) && "validated" !in r["locations"].items[i].fields["geocode"].fields)
  {
    var items := LoopItems(payload["locations"]).value;
    FilterResultSpec(items, IsValidated);
    forall x ensures IsValidated(x) == Ok(true) <==> Kept(x) {
      IsValidatedKept(x);
    }
  }

  /** The run raises exactly when an item, or an item's strategy, is not a dict. */
  lemma ConsolidatedFails(payload: Record)
    requires "locations" in payload && payload["locations"].JArr? && payload["locations"].items != []
    ensures Consolidated(payload).Err? <==>
      exists i :: 0 <= i < |payload["locations"].items| &&
        !(payload["locations"].items[i].JObj? &&
          Get(payload["locations"].items[i].fields, "geocode", EmptyObj).JObj?)
  {
    FilterResultSpec(payload["locations"].items, IsValidated);
  }

  /**
   * The consolidation is not idempotent: once it has kept some records, running it again
   * keeps none, since the cleanup removed the `validated` flag it filters on.
   */
  lemma ConsolidateTwice(payload: Record)
    requires Truthy(Get(payload, "locations", EmptyArr)) && Consolidated(payload).Ok?
    requires Consolidated(payload).value["locations"] != JArr([])
    ensures Consolidated(Consolidated(payload).value) == Ok(Consolidated(payload).value["locations" := JArr([])])
  {
    var items := LoopItems(payload["locations"]).value;
    var kept := FilterResult(items, IsValidated).value;
    ConsolidatedSpec(payload);
    var again := Map(kept, Cleaned);
    forall i | 0 <= i < |again| ensures IsValidated(again[i]) == Ok(false) {
      assert Kept(kept[i]);
    }
    FilterResultNone(again, IsValidated);
  }

  /** Records are kept in order: consolidating two lists one after the other is consolidating their concatenation. */
  lemma KeptInOrder(a: seq<Json>, b: seq<Json>)
    requires FilterResult(a, IsValidated).Ok? && FilterResult(b, IsValidated).Ok?
    ensures FilterResult(a + b, IsValidated).Ok?
    ensures Map(FilterResult(a + b, IsValidated).value, Cleaned) ==
      Map(FilterResult(a, IsValidated).value, Cleaned) + Map(FilterResult(b, IsValidated).value, Cleaned)
  {
    FilterResultAppend(a, b, IsValidated);
  }
}
