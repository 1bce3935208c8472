/**
 * The consolidation after the relevance check, `worker/tasks/locations/relevance/consolidate.py`:
 * records marked not relevant are dropped, and the others are copied without the checker's
 * `relevant` and `notes` fields.
 */
module RelevanceConsolidate {
  import opened Wrappers
  import opened PyJson
  import opened Seqs

  const Metadata: set<string> := {"relevant", "notes"}

  /** `location.get('relevant', True)`: a record without the flag is kept; an item that is not a dict raises. */
  function IsRelevant(location: Json): (r: Result<bool>)
    ensures r.Ok? <==> location.JObj?
    ensures r.Ok? ==> (r.value <==> "relevant" !in location.fields || Truthy(location.fields["relevant"]))
  {
    if !location.JObj? then Err(AttributeError)
    else Ok(Truthy(Get(location.fields, "relevant", JBool(true))))
  }

  /** The copy that is kept: every field but `relevant` and `notes`, with its value. */
  function CleanCopy(location: Json): (r: Json)
    ensures location.JObj? ==>
      r.JObj? && r.fields.Keys == location.fields.Keys - Metadata &&
      forall k :: k in r.fields ==> r.fields[k] == location.fields[k]
  {
    if location.JObj? then JObj(Pop(location.fields, Metadata)) else location
  }

  /**
   * `_consolidate_locations`: an empty or missing list leaves the payload as it is; otherwise
   * the relevant records, copied without the metadata, replace the list.
   */
  function Consolidated(payload: Record): (r: Result<Record>)
    ensures !Truthy(Get(payload, "locations", EmptyArr)) ==> r == Ok(payload)
  {
    var locations := Get(payload, "locations", EmptyArr);
    if !Truthy(locations) then Ok(payload)
    else
      var items :- LoopItems(locations);
      var kept :- FilterResult(items, IsRelevant);
      Ok(payload["locations" := JArr(Map(kept, CleanCopy))])
  }

  method ConsolidateLocations(payload: Record) returns (r: Result<Record>)
    ensures r == Consolidated(payload)
  {
    var locations := Get(payload, "locations", EmptyArr);
    if !Truthy(locations) {
      return Ok(payload);
    }
    var items :- LoopItems(locations);
    var filtered: seq<Json> := [];
    for i := 0 to |items|
      invariant FilterResult(items[..i], IsRelevant).Ok?
      invariant filtered == Map(FilterResult(items[..i], IsRelevant).value, CleanCopy)
    {
      var location := items[i];
      FilterResultStep(items, i, IsRelevant);
      if !location.JObj? {
        return Err(AttributeError);
      }
      if Truthy(Get(location.fields, "relevant", JBool(true))) {
        var clean := location.fields;
        clean := clean - {"relevant"};
        clean := clean - {"notes"};
        assert JObj(clean) == CleanCopy(location);
        MapAppend(FilterResult(items[..i], IsRelevant).value, location, CleanCopy);
        filtered := filtered + [JObj(clean)];
      }
    }
    assert items[..|items|] == items;
    return Ok(payload["locations" := JArr(filtered)]);
  }

  // ---------------------------------------------------------------- properties

  /**
   * A successful run keeps exactly the records that are relevant or unmarked, never more
   * than it was given; each one left has every field it had but `relevant` and `notes`.
   * Nothing but `locations` changes.
   */
  lemma ConsolidatedSpec(payload: Record)
    requires Truthy(Get(payload, "locations", EmptyArr)) && Consolidated(payload).Ok?
    ensures var items := LoopItems(payload["locations"]).value;
      var kept := FilterResult(items, IsRelevant).value;
      var r := Consolidated(payload).value;
      r.Keys == payload.Keys &&
      (forall k :: k in payload && k != "locations" ==> r[k] == payload[k]) &&
      r["locations"].JArr? && |r["locations"].items| == |kept| <= |items| &&
      (forall x :: x in kept <==>
         x in items && x.JObj? && ("relevant" !in x.fields || Truthy(x.fields["relevant"]))) &&
      (forall i :: 0 <= i < |kept| ==>
         r["locations"].items[i].JObj? &&
         r["locations"].items[i].fields.Keys == kept[i].fields.Keys - {"relevant", "notes"} &&
         forall k :: k in r["locations"].items[i].fields ==> r["locations"].items[i].fields[k] == kept[i].fields[k])
  {
    var items := LoopItems(payload["locations"]).value;
    FilterResultSpec(items, IsRelevant);
  }

  /**
   * The consolidation is idempotent: the records it leaves have no `relevant` flag, so a
   * second run keeps them all and copies them unchanged.
   */
  lemma ConsolidateTwice(payload: Record)
    requires Consolidated(payload).Ok?
    ensures Consolidated(Consolidated(payload).value) == Consolidated(payload)
  {
    var locations := Get(payload, "locations", EmptyArr);
    if Truthy(locations) {
      var items := LoopItems(locations).value;
      var kept := FilterResult(items, IsRelevant).value;
      FilterResultSpec(items, IsRelevant);
      var out := Map(kept, CleanCopy);
      CleanCopiesUnmarked(kept);
      CleanCopiesStable(out);
      var r := payload["locations" := JArr(out)];
      assert Get(r, "locations", EmptyArr) == JArr(out);
      assert r["locations" := JArr(out)] == r;
    }
  }

  /** Clean copies of records carry neither `relevant` nor `notes`. */
  lemma CleanCopiesUnmarked(kept: seq<Json>)
    requires forall x :: x in kept ==> x.JObj?
    ensures forall i :: 0 <= i < |kept| ==>
      Map(kept, CleanCopy)[i].JObj? && Map(kept, CleanCopy)[i].fields.Keys !! Metadata
  {
    forall i | 0 <= i < |kept|
      ensures Map(kept, CleanCopy)[i].JObj? && Map(kept, CleanCopy)[i].fields.Keys !! Metadata
    {
      assert kept[i] in kept;
    }
  }

  /** Records without `relevant` and `notes` are all kept, and copied unchanged. */
  lemma CleanCopiesStable(out: seq<Json>)
    requires forall i :: 0 <= i < |out| ==> out[i].JObj? && out[i].fields.Keys !! Metadata
    ensures FilterResult(out, IsRelevant) == Ok(out)
    ensures Map(out, CleanCopy) == out
  {
    forall i | 0 <= i < |out| ensures IsRelevant(out[i]) == Ok(true) {
      assert "relevant" !in out[i].fields;
    }
    FilterResultAll(out, IsRelevant);
    forall i | 0 <= i < |out| ensures CleanCopy(out[i]) == out[i] {
      assert out[i].fields - Metadata == out[i].fields;
    }
  }

  /** Records keep their order: consolidating two lists one after the other is consolidating their concatenation. */
  lemma KeptInOrder(a: seq<Json>, b: seq<Json>)
    requires FilterResult(a, IsRelevant).Ok? && FilterResult(b, IsRelevant).Ok?
    ensures FilterResult(a + b, IsRelevant).Ok?
    ensures Map(FilterResult(a + b, IsRelevant).value, CleanCopy) ==
      Map(FilterResult(a, IsRelevant).value, CleanCopy) + Map(FilterResult(b, IsRelevant).value, CleanCopy)
  {
    FilterResultAppend(a, b, IsRelevant);
  }
}
