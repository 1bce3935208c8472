/**
 * The editorial-review steps of the older workflow, `worker-old/workflows.py`. The reviewer's
 * verdict is written back into the payload, with a summary of what it removed and what it
 * found missing. The locations it found are then geocoded on their own and merged back.
 */
module EditorialReview {
  import opened Wrappers
  import opened PyJson
  import opened Seqs
  import LegacyTasks

  /**
   * `review_locations(locations, text, headline)`: the locations the reviewer keeps and its
   * full results, or the exception it raises. The workflow file imports it from a module
   * that does not define it, so it is a parameter here.
   */
  type Reviewer = (Json, Json, Json) -> Result<(Json, Json)>

  // ---------------------------------------------------------------- removed items

  /** `d.get("location") == location_str and d.get("decision") == "REMOVE"` for a decision `d` that is a dict. */
  predicate Removes(d: Record, locationStr: Json) {
    Get(d, "location", JNull) == locationStr && Get(d, "decision", JNull) == JStr("REMOVE")
  }

  /**
   * `next((d for d in decisions if ...), None)`: the first decision that removes the
   * location. A decision looked at before it that is not a dict raises AttributeError.
   */
  function Removal(decisions: seq<Json>, locationStr: Json): (r: Result<Option<Record>>)
    ensures decisions == [] ==> r == Ok(None)
    ensures r.Ok? && r.value.Some? ==> Removes(r.value.value, locationStr)
    decreases |decisions|
  {
    if decisions == [] then Ok(None)
    else if !decisions[0].JObj? then Err(AttributeError)
    else if Removes(decisions[0].fields, locationStr) then Ok(Some(decisions[0].fields))
    else Removal(decisions[1..], locationStr)
  }

  /** The generator that `next` drives, as a loop. */
  method FindRemoval(decisions: seq<Json>, locationStr: Json) returns (r: Result<Option<Record>>)
    ensures r == Removal(decisions, locationStr)
  {
    var k := 0;
    while k < |decisions|
      invariant 0 <= k <= |decisions|
      invariant Removal(decisions, locationStr) == Removal(decisions[k..], locationStr)
    {
      var d := decisions[k];
      assert decisions[k..][1..] == decisions[k + 1..];
      if !d.JObj? {
        return Err(AttributeError);
      }
      if Removes(d.fields, locationStr) {
        return Ok(Some(d.fields));
      }
      k := k + 1;
    }
    return Ok(None);
  }

  /** Decision `i` is the first that removes the location, and every decision before it is a dict. */
  ghost predicate FirstRemovalAt(decisions: seq<Json>, locationStr: Json, i: int) {
    0 <= i < |decisions| && decisions[i].JObj? && Removes(decisions[i].fields, locationStr) &&
    forall j :: 0 <= j < i ==> decisions[j].JObj? && !Removes(decisions[j].fields, locationStr)
  }

  /** The lookup finds the first removing decision, when every decision before it is a dict. */
  lemma {:induction false} RemovalFindsFirst(decisions: seq<Json>, locationStr: Json, i: int)
    requires FirstRemovalAt(decisions, locationStr, i)
    ensures Removal(decisions, locationStr) == Ok(Some(decisions[i].fields))
    decreases |decisions|
  {
    if i > 0 {
      var rest := decisions[1..];
      assert FirstRemovalAt(rest, locationStr, i - 1) by {
        forall j | 0 <= j < i - 1
          ensures rest[j].JObj? && !Removes(rest[j].fields, locationStr)
        {
          assert rest[j] == decisions[j + 1];
        }
      }
      RemovalFindsFirst(rest, locationStr, i - 1);
    }
  }

  /** The lookup finds nothing exactly when every decision is a dict and none removes the location. */
  lemma {:induction false} RemovalFindsNone(decisions: seq<Json>, locationStr: Json)
    ensures Removal(decisions, locationStr) == Ok(None) <==>
      forall j :: 0 <= j < |decisions| ==> decisions[j].JObj? && !Removes(decisions[j].fields, locationStr)
    decreases |decisions|
  {
    if decisions != [] {
      var rest := decisions[1..];
      RemovalFindsNone(rest, locationStr);
      assert forall j :: 0 <= j < |rest| ==> rest[j] == decisions[j + 1];
      if (forall j :: 0 <= j < |rest| ==> rest[j].JObj? && !Removes(rest[j].fields, locationStr)) &&
        decisions[0].JObj? && !Removes(decisions[0].fields, locationStr)
      {
        forall j | 0 <= j < |decisions|
          ensures decisions[j].JObj? && !Removes(decisions[j].fields, locationStr)
        {
          if j > 0 {
            assert decisions[j] == rest[j - 1];
          }
        }
      }
    }
  }

  /** What the lookup finds is the first removing decision. */
  lemma {:induction false} RemovalFound(decisions: seq<Json>, locationStr: Json)
    requires Removal(decisions, locationStr).Ok? && Removal(decisions, locationStr).value.Some?
    ensures exists i :: (FirstRemovalAt(decisions, locationStr, i) &&
      Removal(decisions, locationStr).value.value == decisions[i].fields)
    decreases |decisions|
  {
    if !Removes(decisions[0].fields, locationStr) {
      var rest := decisions[1..];
      RemovalFound(rest, locationStr);
      var i :| FirstRemovalAt(rest, locationStr, i) && Removal(rest, locationStr).value.value == rest[i].fields;
      assert FirstRemovalAt(decisions, locationStr, i + 1) by {
        forall j | 0 <= j < i + 1
          ensures decisions[j].JObj? && !Removes(decisions[j].fields, locationStr)
        {
          if j > 0 {
            assert decisions[j] == rest[j - 1];
          }
        }
      }
    } else {
      assert FirstRemovalAt(decisions, locationStr, 0);
    }
  }

  const DefaultRationale: string := "Failed editorial review"

  /** The entry `removed_items` gets for a location and the decision that removed it. */
  function RemovedEntry(location: Record, locationStr: Json, decision: Record): Json {
    JObj(map[
      "location" := locationStr,
      "original_text" := Get(location, "original_text", JStr("")),
      "type" := Get(location, "type", JStr("")),
      "importance" := Get(location, "importance", JStr("")),
      "nature" := Get(location, "nature", JStr("")),
      "rationale" := Get(decision, "reason", JStr(DefaultRationale))])
  }

  /**
   * What one location adds to `removed_items`: one entry when a decision removes it, none
   * otherwise. A location that is not a dict, results that are not a dict, `decisions` that
   * cannot be looped over and a decision that is not a dict all raise. A decision that
   * removes has a `decision` key, so the dict `next` returns is never empty and `if
   * removal_info` holds exactly when one was found.
   */
  function RemovedFor(results: Json, location: Json): Result<seq<Json>> {
    if !location.JObj? then Err(AttributeError)
    else
      var locationStr := Get(location.fields, "location", JStr(""));
      var decisionsValue :- GetFrom(results, "decisions", EmptyArr);
      var decisions :- LoopItems(decisionsValue);
      var info :- Removal(decisions, locationStr);
      Ok(if info.Some? then [RemovedEntry(location.fields, locationStr, info.value)] else [])
  }

  function RemovedWith(results: Json): Json -> Result<seq<Json>> {
    location => RemovedFor(results, location)
  }

  /** The loop that builds `removed_items`. */
  method RemovedItems(items: seq<Json>, results: Json) returns (r: Result<seq<Json>>)
    ensures r == FoldResult(items, [], AppendStep(RemovedWith(results)))
  {
    var removed: seq<Json> := [];
    for i := 0 to |items|
      invariant FoldResult(items[..i], [], AppendStep(RemovedWith(results))) == Ok(removed)
    {
      var location := items[i];
      FoldResultStep(items, i, [], AppendStep(RemovedWith(results)));
      if !location.JObj? {
        return Err(AttributeError);
      }
      var locationStr := Get(location.fields, "location", JStr(""));
      if !results.JObj? {
        return Err(AttributeError);
      }
      var decisions := LoopItems(Get(results.fields, "decisions", EmptyArr));
      if decisions.Err? {
        return Err(decisions.fault);
      }
      var info := FindRemoval(decisions.value, locationStr);
      if info.Err? {
        return Err(info.fault);
      }
      var entry: seq<Json> := [];
      if info.value.Some? {
        entry := [RemovedEntry(location.fields, locationStr, info.value.value)];
      }
      assert AppendStep(RemovedWith(results))(removed, location) == Ok(removed + entry);
      removed := removed + entry;
    }
    assert items[..|items|] == items;
    return Ok(removed);
  }

  /**
   * A location whose first removing decision is decision `i` gets the entry with its own
   * `location`, `original_text`, `type`, `importance` and `nature` (each `""` when absent)
   * and that decision's `reason` as rationale (`"Failed editorial review"` when it has none);
   * a location no decision removes gets none.
   */
  lemma RemovedForSpec(results: Record, location: Record, i: int)
    ensures var locationStr := Get(location, "location", JStr(""));
      var decisions := Get(results, "decisions", EmptyArr);
      decisions.JArr? && FirstRemovalAt(decisions.items, locationStr, i) ==>
      var e := RemovedFor(JObj(results), JObj(location));
      e == Ok([RemovedEntry(location, locationStr, decisions.items[i].fields)]) &&
      e.value[0].fields.Keys == {"location", "original_text", "type", "importance", "nature", "rationale"} &&
      e.value[0].fields["location"] == locationStr &&
      e.value[0].fields["rationale"] == Get(decisions.items[i].fields, "reason", JStr(DefaultRationale))
    ensures var locationStr := Get(location, "location", JStr(""));
      var decisions := Get(results, "decisions", EmptyArr);
      decisions.JArr? &&
      (forall j :: 0 <= j < |decisions.items| ==> decisions.items[j].JObj? && !Removes(decisions.items[j].fields, locationStr)) ==>
      RemovedFor(JObj(results), JObj(location)) == Ok([])
  {
    var locationStr := Get(location, "location", JStr(""));
    var decisions := Get(results, "decisions", EmptyArr);
    if decisions.JArr? {
      if FirstRemovalAt(decisions.items, locationStr, i) {
        RemovalFindsFirst(decisions.items, locationStr, i);
      }
      RemovalFindsNone(decisions.items, locationStr);
    }
  }

  // ---------------------------------------------------------------- missed locations

  const MissedFields: set<string> := {"original_text", "location", "type", "importance", "nature", "description"}
  const ReviewSource: Json := JStr("editorial_review")

  /** The record a missed location becomes: its six fields, each `""` when absent, and the review as its source. */
  function MissedRecord(missed: Record): Json {
    JObj(map[
      "original_text" := Get(missed, "original_text", JStr("")),
      "location" := Get(missed, "location", JStr("")),
      "type" := Get(missed, "type", JStr("")),
      "importance" := Get(missed, "importance", JStr("")),
      "nature" := Get(missed, "nature", JStr("")),
      "description" := Get(missed, "description", JStr("")),
      "source" := ReviewSource])
  }

  /** A missed record has the six fields, each the missed location's own or `""`, and `source` set to the review. */
  lemma MissedRecordSpec(missed: Record)
    ensures var r := MissedRecord(missed);
      r.JObj? && r.fields.Keys == MissedFields + {"source"} && r.fields["source"] == ReviewSource &&
      forall k :: k in MissedFields ==> r.fields[k] == Get(missed, k, JStr(""))
  {
  }

  /** What one item of `missed_locations` adds: its record when it is a dict; otherwise the `try` swallows the AttributeError. */
  function MissedOf(missed: Json): seq<Json> {
    if missed.JObj? then [MissedRecord(missed.fields)] else []
  }

  /**
   * The items the loop over `missed_locations` visits, up to items it would skip anyway:
   * a list's items, a string's characters; a dict's keys are strings, all skipped, so a
   * dict yields none here. Anything else cannot be looped over (TypeError).
   */
  function MissedSources(v: Json): (r: Result<seq<Json>>)
    ensures r.Ok? <==> v.JArr? || v.JStr? || v.JObj?
  {
    match v
    case JArr(xs) => Ok(xs)
    case JStr(s) => Ok(Chars(s))
    case JObj(_) => Ok([])
    case _ => Err(TypeError)
  }

  /**
   * `payload['locations']` after the loop. It is the very list `filtered_locations`, so each
   * record appended to it is appended to the reviewer's list; a value that is not a list
   * has no `append`, and the AttributeError is swallowed item by item.
   */
  function Appended(filtered: Json, missed: seq<Json>): (r: Json)
    ensures filtered.JArr? ==> r == JArr(filtered.items + missed)
    ensures !filtered.JArr? ==> r == filtered
  {
    if filtered.JArr? then JArr(filtered.items + missed) else filtered
  }

  /** The loop over `missed_locations`: the records in `missed`, and what `payload['locations']` has become. */
  method MissedLocations(sources: seq<Json>, filtered: Json) returns (missed: seq<Json>, current: Json)
    ensures missed == ConcatMap(sources, MissedOf)
    ensures current == Appended(filtered, missed)
  {
    missed := [];
    current := filtered;
    for j := 0 to |sources|
      invariant missed == ConcatMap(sources[..j], MissedOf)
      invariant current == Appended(filtered, missed)
    {
      ConcatMapStep(sources, j, MissedOf);
      var item := sources[j];
      if item.JObj? {
        var record := MissedRecord(item.fields);
        missed := missed + [record];
        if current.JArr? {
          current := JArr(current.items + [record]);
        }
      }
    }
    assert sources[..|sources|] == sources;
  }

  /** Each dict among the items gives one record and nothing else does: there are never more records than items. */
  lemma {:induction false} MissedCount(sources: seq<Json>)
    ensures |ConcatMap(sources, MissedOf)| <= |sources|
    ensures (forall i :: 0 <= i < |sources| ==> sources[i].JObj?) ==> |ConcatMap(sources, MissedOf)| == |sources|
    ensures (forall i :: 0 <= i < |sources| ==> !sources[i].JObj?) ==> ConcatMap(sources, MissedOf) == []
    decreases |sources|
  {
    if sources != [] {
      var front := sources[..|sources| - 1];
      MissedCount(front);
      assert forall i :: 0 <= i < |front| ==> front[i] == sources[i];
    }
  }

  // ---------------------------------------------------------------- the summary

  /** `len(v)`: a list's items, a string's characters, a dict's keys; anything else raises TypeError. */
  function Len(v: Json): (r: Result<nat>)
    ensures v.JArr? ==> r == Ok(|v.items|)
  {
    match v
    case JArr(xs) => Ok(|xs|)
    case JStr(s) => Ok(|s|)
    case JObj(m) => Ok(|m|)
    case _ => Err(TypeError)
  }

  /**
   * What the two loops leave: the number of locations, the removed and missed records, the
   * reviewer's list and the payload's final `locations`.
   */
  datatype Tally = Tally(original: nat, removed: seq<Json>, missed: seq<Json>, filtered: Json, final: Json)

  /** The two loops, from the locations, the reviewer's list and its results; the first exception ends them. */
  function Bookkeeping(locations: Json, filtered: Json, results: Json): (r: Result<Tally>)
    ensures LoopItems(locations).Err? ==> r == Err(LoopItems(locations).fault)
    ensures r.Ok? ==> r.value.original == |LoopItems(locations).value| && r.value.filtered == filtered
  {
    var items :- LoopItems(locations);
    var removed :- FoldResult(items, [], AppendStep(RemovedWith(results)));
    var missedValue :- GetFrom(results, "missed_locations", EmptyArr);
    var sources :- MissedSources(missedValue);
    var missed := ConcatMap(sources, MissedOf);
    Ok(Tally(|items|, removed, missed, filtered, Appended(filtered, missed)))
  }

  function Count(n: int): Json {
    JNum(n as real)
  }

  /** The `review` dict, with `kept` as `filtered_count`. */
  function Summary(t: Tally, kept: nat): Json {
    JObj(map[
      "original_count" := Count(t.original),
      "filtered_count" := Count(kept),
      "removed_count" := Count(t.original - kept),
      "removed_items" := JArr(t.removed),
      "missed_count" := Count(|t.missed|),
      "missed_items" := JArr(t.missed)])
  }

  /** The fields of the summary. */
  lemma SummaryFields(t: Tally, kept: nat)
    ensures var s := Summary(t, kept).fields;
      s["original_count"] == Count(t.original) && s["filtered_count"] == Count(kept) &&
      s["removed_count"] == Count(t.original - kept) && s["removed_items"] == JArr(t.removed) &&
      s["missed_count"] == Count(|t.missed|) && s["missed_items"] == JArr(t.missed)
  {
  }

  /**
   * The summary as the workflow writes it: `len(filtered_locations)` is taken after the
   * missed records were appended to that same list.
   */
  function SummaryAsWritten(t: Tally): Result<Json> {
    var kept :- Len(t.final);
    Ok(Summary(t, kept))
  }

  /** The summary as its field names mean it: the reviewer's list counted before anything is appended to it. */
  function SummaryIntended(t: Tally): Result<Json> {
    var kept :- Len(t.filtered);
    Ok(Summary(t, kept))
  }

  /**
   * `_editorial_review` on a payload, with the summary built by `summary`. Without locations,
   * or when the reviewer raises, the payload comes back as it was; a later exception hands
   * back the payload whose `locations` is already the reviewer's list.
   */
  function Reviewed(payload: Record, reviewer: Reviewer, summary: Tally -> Result<Json>): (r: Record)
    ensures !Truthy(Get(payload, "locations", EmptyArr)) ==> r == payload
    ensures r.Keys <= payload.Keys + {"locations", "review"}
    ensures forall k :: k in payload && k != "locations" && k != "review" ==> k in r && r[k] == payload[k]
  {
    var locations := Get(payload, "locations", EmptyArr);
    if !Truthy(locations) then payload
    else
      match reviewer(locations, Get(payload, "text", JStr("")), Get(payload, "headline", JStr("")))
      case Err(_) => payload
      case Ok(answer) =>
        match Bookkeeping(locations, answer.0, answer.1)
        case Err(_) => payload["locations" := answer.0]
        case Ok(t) =>
          match summary(t)
          case Err(_) => payload["locations" := t.final]
          case Ok(review) => payload["locations" := t.final]["review" := review]
  }

  /** The loops of `_editorial_review`, once the reviewer has answered. */
  method KeepBooks(locations: Json, filtered: Json, results: Json) returns (r: Result<Tally>)
    ensures r == Bookkeeping(locations, filtered, results)
  {
    var loopItems := LoopItems(locations);
    if loopItems.Err? {
      return Err(loopItems.fault);
    }
    var items := loopItems.value;
    var removed := RemovedItems(items, results);
    if removed.Err? {
      return Err(removed.fault);
    }
    var missedValue := GetFrom(results, "missed_locations", EmptyArr);
    if missedValue.Err? {
      return Err(missedValue.fault);
    }
    var sources := MissedSources(missedValue.value);
    if sources.Err? {
      return Err(sources.fault);
    }
    var missed, current := MissedLocations(sources.value, filtered);
    return Ok(Tally(|items|, removed.value, missed, filtered, current));
  }

  /** `_editorial_review`. */
  method ApplyReview(payload: Record, reviewer: Reviewer) returns (r: Record)
    ensures r == Reviewed(payload, reviewer, SummaryAsWritten)
  {
    var locations := Get(payload, "locations", EmptyArr);
    var text := Get(payload, "text", JStr(""));
    var headline := Get(payload, "headline", JStr(""));
    if !Truthy(locations) {
      return payload;
    }
    var answer := reviewer(locations, text, headline);
    if answer.Err? {
      return payload;
    }
    var (filtered, results) := answer.value;
    var tally := KeepBooks(locations, filtered, results);
    if tally.Err? {
      return payload["locations" := filtered];
    }
    var t := tally.value;
    var kept := Len(t.final);
    if kept.Err? {
      return payload["locations" := t.final];
    }
    var review := Summary(t, kept.value);
    return payload["locations" := t.final]["review" := review];
  }

  // ---------------------------------------------------------------- properties of the review

  /**
   * Without locations, or when the reviewer raises, the payload comes back as it was. A
   * failure after the reviewer answered does not: the payload that comes back already has the
   * reviewer's list as its `locations`.
   */
  lemma ReviewedGuards(payload: Record, reviewer: Reviewer, summary: Tally -> Result<Json>)
    ensures !Truthy(Get(payload, "locations", EmptyArr)) ==> Reviewed(payload, reviewer, summary) == payload
    ensures var locations := Get(payload, "locations", EmptyArr);
      var answer := reviewer(locations, Get(payload, "text", JStr("")), Get(payload, "headline", JStr("")));
      Truthy(locations) && answer.Err? ==> Reviewed(payload, reviewer, summary) == payload
    ensures var locations := Get(payload, "locations", EmptyArr);
      var answer := reviewer(locations, Get(payload, "text", JStr("")), Get(payload, "headline", JStr("")));
      Truthy(locations) && answer.Ok? && Bookkeeping(locations, answer.value.0, answer.value.1).Err? ==>
      Reviewed(payload, reviewer, summary) == payload["locations" := answer.value.0]
  {
  }

  /**
   * The bookkeeping of a list of locations: `removed_items` holds, location by location in
   * order, the entry of each one a decision removes (`RemovedForSpec`); the missed records
   * are those of the dict items of `missed_locations`, in order, and there are no more of
   * them than items; the final list is the reviewer's list with them appended.
   */
  lemma BookkeepingSpec(locations: Json, filtered: Json, results: Json)
    requires Truthy(locations) && Bookkeeping(locations, filtered, results).Ok?
    ensures var t := Bookkeeping(locations, filtered, results).value;
      var sources := MissedSources(Get(results.fields, "missed_locations", EmptyArr)).value;
      locations.JArr? && t.original == |locations.items| && t.filtered == filtered &&
      t.removed == ConcatMap(locations.items, Made(RemovedWith(results))) &&
      t.missed == ConcatMap(sources, MissedOf) && |t.missed| <= |sources| &&
      t.final == Appended(filtered, t.missed)
  {
    var items := LoopItems(locations).value;
    FoldAppendSpec(items, RemovedWith(results));
    assert results.JObj?;
    MissedCount(MissedSources(Get(results.fields, "missed_locations", EmptyArr)).value);
  }

  /**
   * The counts as the workflow writes them, when the reviewer answers with a list:
   * `filtered_count` counts the missed records as well, so `removed_count` is the number of
   * locations less the reviewer's list less the missed records.
   */
  lemma CountsAsWritten(t: Tally)
    requires t.filtered.JArr? && t.final == Appended(t.filtered, t.missed)
    ensures SummaryAsWritten(t).Ok?
    ensures var s := SummaryAsWritten(t).value.fields;
      t.final == JArr(t.filtered.items + t.missed) &&
      s["original_count"] == Count(t.original) &&
      s["filtered_count"] == Count(|t.filtered.items| + |t.missed|) &&
      s["removed_count"] == Count(t.original - |t.filtered.items| - |t.missed|) &&
      s["missed_count"] == Count(|t.missed|)
  {
    SummaryFields(t, |t.filtered.items| + |t.missed|);
  }

  /**
   * The counts as intended: `filtered_count` is the reviewer's list, the removed ones are
   * the rest of the locations, and the final list holds the kept and the missed ones.
   */
  lemma CountsIntended(t: Tally)
    requires t.filtered.JArr? && t.final == Appended(t.filtered, t.missed)
    ensures SummaryIntended(t).Ok?
    ensures var s := SummaryIntended(t).value.fields;
      s["filtered_count"] == Count(|t.filtered.items|) &&
      s["removed_count"] == Count(t.original - |t.filtered.items|) &&
      s["missed_count"] == Count(|t.missed|) &&
      |t.final.items| == |t.filtered.items| + |t.missed|
  {
    SummaryFields(t, |t.filtered.items|);
  }

  /** With the intended counts, a reviewer that keeps every location has removed none, whatever it found missing. */
  lemma KeptAllRemovedNone(locations: Json, results: Json)
    requires Truthy(locations) && Bookkeeping(locations, locations, results).Ok?
    ensures var t := Bookkeeping(locations, locations, results).value;
      SummaryIntended(t).Ok? && SummaryIntended(t).value.fields["removed_count"] == Count(0)
  {
    BookkeepingSpec(locations, locations, results);
    CountsIntended(Bookkeeping(locations, locations, results).value);
  }

  /**
   * The discrepancy: a reviewer that keeps every location, removes nothing and finds one
   * missed location makes the workflow report one more filtered location than it was given
   * and a `removed_count` of -1, while `removed_items` is empty.
   */
  lemma RemovedCountGoesNegative(locations: seq<Json>, missed: Record)
    requires locations != [] && forall i :: 0 <= i < |locations| ==> locations[i].JObj?
    ensures var t := Bookkeeping(JArr(locations), JArr(locations), OneMissed(missed));
      t.Ok? && SummaryAsWritten(t.value).Ok? &&
      SummaryAsWritten(t.value).value.fields["removed_items"] == JArr([]) &&
      SummaryAsWritten(t.value).value.fields["filtered_count"] == Count(|locations| + 1) &&
      SummaryAsWritten(t.value).value.fields["removed_count"] == Count(-1)
  {
    var t := Tally(|locations|, [], [MissedRecord(missed)], JArr(locations), JArr(locations + [MissedRecord(missed)]));
    BookkeepingOneMissed(locations, missed);
    assert Len(t.final) == Ok(|locations| + 1);
    assert SummaryAsWritten(t) == Ok(Summary(t, |locations| + 1));
    SummaryFields(t, |locations| + 1);
    assert t.original - (|locations| + 1) == -1;
  }

  /** Review results with no decisions and one missed location. */
  function OneMissed(missed: Record): Json {
    JObj(map["missed_locations" := JArr([JObj(missed)])])
  }

  /** The loops over dict locations and results with no decisions and one missed location. */
  lemma BookkeepingOneMissed(locations: seq<Json>, missed: Record)
    requires forall i :: 0 <= i < |locations| ==> locations[i].JObj?
    ensures Bookkeeping(JArr(locations), JArr(locations), OneMissed(missed)) ==
      Ok(Tally(|locations|, [], [MissedRecord(missed)], JArr(locations), JArr(locations + [MissedRecord(missed)])))
  {
    var results := OneMissed(missed);
    NothingRemovedWithoutDecisions(locations, results);
    assert GetFrom(results, "missed_locations", EmptyArr) == Ok(JArr([JObj(missed)]));
    assert MissedSources(JArr([JObj(missed)])) == Ok([JObj(missed)]);
    assert [JObj(missed)][..0] == [];
    assert ConcatMap([JObj(missed)], MissedOf) == [MissedRecord(missed)];
  }

  /** Results without `decisions` remove nothing: the removal loop ends with an empty list. */
  lemma NothingRemovedWithoutDecisions(locations: seq<Json>, results: Json)
    requires forall i :: 0 <= i < |locations| ==> locations[i].JObj?
    requires results.JObj? && "decisions" !in results.fields
    ensures FoldResult(locations, [], AppendStep(RemovedWith(results))) == Ok([])
  {
    var g := RemovedWith(results);
    forall i | 0 <= i < |locations|
      ensures g(locations[i]) == Ok([])
    {
      assert LoopItems(EmptyArr) == Ok([]);
      assert Removal([], Get(locations[i].fields, "location", JStr(""))) == Ok(None);
    }
    FoldAppendSpec(locations, g);
    NothingRemoved(locations, g);
  }

  /** Locations none of which is removed leave `removed_items` empty. */
  lemma {:induction false} NothingRemoved(xs: seq<Json>, g: Json -> Result<seq<Json>>)
    requires forall i :: 0 <= i < |xs| ==> g(xs[i]) == Ok([])
    ensures ConcatMap(xs, Made(g)) == []
    decreases |xs|
  {
    if xs != [] {
      NothingRemoved(xs[..|xs| - 1], g);
    }
  }

  // ---------------------------------------------------------------- _geocode_missed

  /** `loc.get('source') == 'editorial_review'`; a location that is not a dict raises AttributeError. */
  function FromReview(location: Json): (r: Result<bool>)
    ensures r.Ok? <==> location.JObj?
  {
    if location.JObj? then Ok(Get(location.fields, "source", JNull) == ReviewSource) else Err(AttributeError)
  }

  /** `loc.get('source') != 'editorial_review'`. */
  function NotFromReview(location: Json): (r: Result<bool>)
    ensures r.Ok? <==> location.JObj?
    ensures r.Ok? ==> r.value == !FromReview(location).value
  {
    var from :- FromReview(location);
    Ok(!from)
  }

  /** `missed_count <= 0`, where a bool counts as 0 or 1 and anything but a number raises TypeError. */
  function NoneMissed(count: Json): Result<bool> {
    match count
    case JNum(n) => Ok(n <= 0.0)
    case JBool(b) => Ok(!b)
    case _ => Err(TypeError)
  }

  /** The payload the missed locations are geocoded in: those locations and the article's fields. */
  function MissedPayload(payload: Record, editorial: seq<Json>): Record {
    map[
      "locations" := JArr(editorial),
      "url" := Get(payload, "url", JNull),
      "text" := Get(payload, "text", JNull),
      "headline" := Get(payload, "headline", JNull),
      "output_filename" := Get(payload, "output_filename", JNull)]
  }

  /** The review's missed records are worth geocoding: a review dict with `missed_items` and a positive `missed_count`. */
  predicate HasMissed(payload: Record) {
    var review := Get(payload, "review", JNull);
    Truthy(review) && review.JObj? && Truthy(Get(review.fields, "missed_items", JNull)) &&
    NoneMissed(Get(review.fields, "missed_count", JNum(0.0))) == Ok(false)
  }

  /**
   * `_geocode_missed` on a payload, with the older `_geocode` task. Every exception ends in
   * the handler that hands the payload back.
   */
  function GeocodedMissed(payload: Record, geocode: Json -> Result<Json>, order: Record -> seq<string>): (r: Record)
    ensures !HasMissed(payload) ==> r == payload
    ensures r.Keys <= payload.Keys + {"locations", "review"}
    ensures forall k :: k in payload && k != "locations" && k != "review" ==> k in r && r[k] == payload[k]
  {
    if !HasMissed(payload) then payload
    else
      var review := payload["review"].fields;
      match LoopItems(Get(payload, "locations", EmptyArr))
      case Err(_) => payload
      case Ok(items) =>
        match FilterResult(items, FromReview)
        case Err(_) => payload
        case Ok(editorial) =>
          if editorial == [] then payload
          else
            match LegacyTasks.GeocodedPayload(MissedPayload(payload, editorial), geocode, order)
            case Err(_) => payload
            case Ok(result) =>
              var geocoded := Get(result, "locations", EmptyArr);
              match FilterResult(items, NotFromReview)
              case Err(_) => payload
              case Ok(others) =>
                if !geocoded.JArr? then payload
                else payload["locations" := JArr(others + geocoded.items)]["review" := JObj(review["missed_items" := geocoded])]
  }

  /** The comprehension with the opposite condition fails exactly when the first one does. */
  lemma {:induction false} OthersOk(items: seq<Json>)
    requires FilterResult(items, FromReview).Ok?
    ensures FilterResult(items, NotFromReview).Ok?
    ensures |FilterResult(items, FromReview).value| + |FilterResult(items, NotFromReview).value| == |items|
    decreases |items|
  {
    if items != [] {
      var front := items[..|items| - 1];
      OthersOk(front);
    }
  }

  /** `_geocode_missed`, calling the `_geocode` task on the missed locations. */
  method GeocodeMissed(payload: Record, geocode: Json -> Result<Json>, order: Record -> seq<string>) returns (r: Record)
    ensures r == GeocodedMissed(payload, geocode, order)
  {
    if !HasMissed(payload) {
      return payload;
    }
    var review := payload["review"].fields;
    var items := LoopItems(Get(payload, "locations", EmptyArr));
    if items.Err? {
      return payload;
    }
    var editorial := FilterResult(items.value, FromReview);
    if editorial.Err? {
      return payload;
    }
    if editorial.value == [] {
      return payload;
    }
    var missedPayload := MissedPayload(payload, editorial.value);
    var result := LegacyTasks.GeocodeLocations(missedPayload, geocode, order);
    assert result.Ok?;
    var geocoded := Get(result.value, "locations", EmptyArr);
    OthersOk(items.value);
    var others := FilterResult(items.value, NotFromReview).value;
    var locations := JArr(others + geocoded.items);
    return payload["locations" := locations]["review" := JObj(review["missed_items" := geocoded])];
  }

  /**
   * Without a review, without missed records or with a `missed_count` that is not positive,
   * the payload comes back as it was.
   */
  lemma GeocodedMissedGuards(payload: Record, geocode: Json -> Result<Json>, order: Record -> seq<string>)
    ensures !HasMissed(payload) ==> GeocodedMissed(payload, geocode, order) == payload
    ensures var review := Get(payload, "review", JNull);
      !Truthy(review) || (review.JObj? && !Truthy(Get(review.fields, "missed_items", JNull))) ==>
      GeocodedMissed(payload, geocode, order) == payload
    ensures var review := Get(payload, "review", JNull);
      review.JObj? && Get(review.fields, "missed_count", JNum(0.0)).JNum? && Get(review.fields, "missed_count", JNum(0.0)).n <= 0.0 ==>
      GeocodedMissed(payload, geocode, order) == payload
  {
  }

  /**
   * Over a list of dict locations both comprehensions succeed; they split the list into the
   * review's locations and the others, each in its original order.
   */
  lemma MissedPartition(items: seq<Json>)
    requires forall i :: 0 <= i < |items| ==> items[i].JObj?
    ensures var editorial := FilterResult(items, FromReview);
      var others := FilterResult(items, NotFromReview);
      editorial.Ok? && others.Ok? && |editorial.value| + |others.value| == |items| &&
      (forall x :: x in editorial.value <==> x in items && Get(x.fields, "source", JNull) == ReviewSource) &&
      (forall x :: x in others.value <==> x in items && Get(x.fields, "source", JNull) != ReviewSource)
  {
    FilterResultSpec(items, FromReview);
    FilterResultSpec(items, NotFromReview);
    OthersOk(items);
  }

  /**
   * With missed records to geocode and some of the locations from the review, the final list
   * is the other locations, then the review's ones geocoded in their order, so it has as many
   * locations as before; the review's `missed_items` becomes the geocoded ones, and nothing
   * else changes.
   */
  lemma GeocodedMissedMerge(payload: Record, geocode: Json -> Result<Json>, order: Record -> seq<string>,
                            items: seq<Json>, editorial: seq<Json>)
    requires HasMissed(payload)
    requires Get(payload, "locations", EmptyArr) == JArr(items)
    requires FilterResult(items, FromReview) == Ok(editorial) && editorial != []
    ensures var others := FilterResult(items, NotFromReview);
      var geocoded := Map(editorial, LegacyTasks.GeocodedWith(geocode));
      var r := GeocodedMissed(payload, geocode, order);
      others.Ok? &&
      r == payload["locations" := JArr(others.value + geocoded)]["review" := JObj(payload["review"].fields["missed_items" := JArr(geocoded)])] &&
      |others.value + geocoded| == |items|
  {
    var mp := MissedPayload(payload, editorial);
    var geocoded := Map(editorial, LegacyTasks.GeocodedWith(geocode));
    assert Get(mp, "locations", EmptyArr) == JArr(editorial);
    assert LegacyTasks.GeocodedPayload(mp, geocode, order) == Ok(mp["locations" := JArr(geocoded)]);
    assert Get(mp["locations" := JArr(geocoded)], "locations", EmptyArr) == JArr(geocoded);
    OthersOk(items);
  }
}
