/**
 * The localization stage, `worker/tasks/locations/localize/localize.py`: each county of the
 * payload's `boundaries` is looked up in the boundary service's county-to-region table, once
 * for every state that shares a place with it, and each region found is appended to
 * `boundaries['regions']` with the county's coordinates and places. A region id is added at
 * most once per call: the first county to produce it wins.
 */
module Localize {
  import opened Wrappers
  import opened PyJson
  import opened Seqs
  import PyText
  import StateAbbrevs

  /** `get_region_info(county_name, state_abbrev)`: the service's decoded reply, or None when the request fails. */
  type RegionService = (Json, string) -> Option<Json>

  /** One call of the region service: the county it is made for and the state's abbreviation. */
  datatype Lookup = Lookup(county: Record, abbrev: string)

  /**
   * The state of the county loop: the regions appended so far, and the calls made to the
   * service (a log the source does not keep, so that the calls can be stated).
   */
  datatype Found = Found(added: seq<Json>, lookups: seq<Lookup>)

  const Start: Found := Found([], [])

  /** The service's reply to `l`: the county is named by its `name` field. */
  function Ask(service: RegionService, l: Lookup): Option<Json> {
    service(Get(l.county, "name", JNull), l.abbrev)
  }

  /** A county's or a state's `places`, a list when absent. */
  function Places(r: Record): Json {
    Get(r, "places", EmptyArr)
  }

  // ---------------------------------------------------------------- Python operators

  /** `x in container`: a list compares elements, a dict looks up keys, a string looks for a substring. */
  function In(x: Json, container: Json): (r: Result<bool>)
    ensures container.JArr? ==> r == Ok(x in container.items)
    ensures r.Ok? <==> container.JArr? || (container.JObj? && Hashable(x)) || (container.JStr? && x.JStr?)
  {
    match container
    case JArr(items) => Ok(x in items)
    case JObj(m) => if Hashable(x) then Ok(x.JStr? && x.s in m) else Err(TypeError)
    case JStr(s) => if x.JStr? then Ok(PyText.Contains(s, x.s)) else Err(TypeError)
    case _ => Err(TypeError)
  }

  /** Some element of `ours` is an element of `theirs`. */
  predicate SharedIds(ours: seq<Json>, theirs: seq<Json>) {
    exists i :: 0 <= i < |ours| && ours[i] in theirs
  }

  /**
   * `any(place_id in state.get('places', []) for place_id in ids)`: the ids are looked up in
   * order and the first hit ends the search; the state is consulted only once there is an id
   * to look for, so a state that is not a dict raises AttributeError only then.
   */
  function AnyIn(ids: seq<Json>, state: Json): (r: Result<bool>)
    ensures ids == [] ==> r == Ok(false)
    ensures ids != [] && !state.JObj? ==> r == Err(AttributeError)
    ensures r == Ok(true) ==> state.JObj?
    ensures state.JObj? && Places(state.fields).JArr? ==> r == Ok(SharedIds(ids, Places(state.fields).items))
    decreases |ids|
  {
    if ids == [] then Ok(false)
    else if !state.JObj? then Err(AttributeError)
    else
      var hit :- In(ids[0], Places(state.fields));
      if hit then Ok(true)
      else
        var rest := AnyIn(ids[1..], state);
        assert Places(state.fields).JArr? && rest.Ok? ==>
          (SharedIds(ids, Places(state.fields).items) <==> SharedIds(ids[1..], Places(state.fields).items)) by {
          if Places(state.fields).JArr? && SharedIds(ids, Places(state.fields).items) {
            var i :| 0 <= i < |ids| && ids[i] in Places(state.fields).items;
            assert i != 0;
            assert ids[1..][i - 1] == ids[i];
          }
        }
        rest
  }

  /**
   * The test whether `state` contains `county`: some id among the county's `places` is among
   * the state's. A county whose `places` is a string offers its characters, one that is a dict
   * its keys (all strings, so the order in which they are tried does not matter), and one that
   * cannot be iterated raises TypeError.
   */
  function Shares(county: Record, state: Json): (r: Result<bool>)
    ensures r == Ok(true) ==> state.JObj?
    ensures Places(county).JArr? && state.JObj? && Places(state.fields).JArr? ==>
      r == Ok(SharedIds(Places(county).items, Places(state.fields).items))
  {
    match Places(county)
    case JArr(ids) => AnyIn(ids, state)
    case JStr(s) => AnyIn(Chars(s), state)
    case JObj(m) =>
      if m == map[] then Ok(false)
      else if !state.JObj? then Err(AttributeError)
      else
        var theirs := Places(state.fields);
        if !(theirs.JArr? || theirs.JObj? || theirs.JStr?) then Err(TypeError)
        else Ok(exists k | k in m :: In(JStr(k), theirs) == Ok(true))
    case _ => Err(TypeError)
  }

  /** Whether a loop over a county's `places` visits anything; a value that cannot be iterated raises TypeError. */
  function Touches(places: Json): (r: Result<bool>)
    ensures r.Ok? <==> places.JArr? || places.JStr? || places.JObj?
    ensures r.Ok? ==> (r.value <==> Truthy(places))
  {
    match places
    case JArr(ids) => Ok(ids != [])
    case JStr(s) => Ok(s != [])
    case JObj(m) => Ok(m != map[])
    case _ => Err(TypeError)
  }

  /**
   * `get_state_abbrev(state_name)`: a falsy name has none; a string is looked up; a number or
   * a boolean has no length (TypeError), and a list or a dict has no case (AttributeError).
   */
  function Abbrev(name: Json): (r: Result<Option<string>>)
    ensures name.JStr? ==> r == Ok(StateAbbrevs.GetStateAbbrev(name.s))
    ensures !Truthy(name) ==> r == Ok(None)
    ensures r.Ok? <==> name.JStr? || !Truthy(name)
  {
    if !Truthy(name) then Ok(None)
    else
      match name
      case JStr(s) => Ok(StateAbbrevs.GetStateAbbrev(s))
      case JNum(_) => Err(TypeError)
      case JBool(_) => Err(TypeError)
      case _ => Err(AttributeError)
  }

  // ---------------------------------------------------------------- the loops

  /** The region record appended for `region`, found for `county` whose coordinates are `coordinates`. */
  function RegionEntry(region: Record, county: Record, coordinates: Record): Json {
    JObj(map[
      "id" := Get(region, "id", JNull),
      "name" := Get(region, "name", JNull),
      "coordinates" := JObj(map["lat" := Get(coordinates, "lat", JNull), "lng" := Get(coordinates, "lng", JNull)]),
      "places" := Places(county)])
  }

  /** The id of an appended region record. */
  function IdOf(entry: Json): Json {
    if entry.JObj? && "id" in entry.fields then entry.fields["id"] else JNull
  }

  function RegionIds(added: seq<Json>): seq<Json> {
    Map(added, IdOf)
  }

  /**
   * One pass of the innermost loop, over the regions of one reply: a region that is not a dict
   * raises AttributeError; one without a truthy id, or whose id this call has already added, is
   * skipped; an unhashable id raises TypeError; otherwise the region is appended with the
   * county's coordinates and places. `appendable` says whether `boundaries['regions']` is a
   * list: appending to anything else raises AttributeError, as does a county whose
   * `coordinates` is not a dict.
   */
  function AddRegion(acc: Found, county: Record, appendable: bool, region: Json): (r: Result<Found>)
    ensures r.Ok? ==> r.value.lookups == acc.lookups
    ensures !region.JObj? ==> r == Err(AttributeError)
    ensures region.JObj? && !Truthy(Get(region.fields, "id", JNull)) ==> r == Ok(acc)
    ensures (region.JObj? && Truthy(Get(region.fields, "id", JNull)) && Hashable(Get(region.fields, "id", JNull)) &&
      Get(region.fields, "id", JNull) !in RegionIds(acc.added) && appendable && Get(county, "coordinates", EmptyObj).JObj?) ==>
      r == Ok(acc.(added := acc.added + [RegionEntry(region.fields, county, Get(county, "coordinates", EmptyObj).fields)]))
    ensures region.JObj? && Hashable(Get(region.fields, "id", JNull)) && Get(region.fields, "id", JNull) in RegionIds(acc.added) ==>
      r == Ok(acc)
    ensures r.Ok? && r.value != acc ==>
      region.JObj? && Truthy(Get(region.fields, "id", JNull)) && Get(region.fields, "id", JNull) !in RegionIds(acc.added) &&
      Get(county, "coordinates", EmptyObj).JObj? &&
      r.value.added == acc.added + [RegionEntry(region.fields, county, Get(county, "coordinates", EmptyObj).fields)]
  {
    if !region.JObj? then Err(AttributeError)
    else
      var id := Get(region.fields, "id", JNull);
      if !Truthy(id) then Ok(acc)
      else if !Hashable(id) then Err(TypeError)
      else if id in RegionIds(acc.added) then Ok(acc)
      else if !appendable then Err(AttributeError)
      else
        var coordinates := Get(county, "coordinates", EmptyObj);
        if !coordinates.JObj? then Err(AttributeError)
        else Ok(acc.(added := acc.added + [RegionEntry(region.fields, county, coordinates.fields)]))
  }

  function AddRegionWith(county: Record, appendable: bool): (Found, Json) -> Result<Found> {
    (acc: Found, region: Json) => AddRegion(acc, county, appendable, region)
  }

  /**
   * The handling of the service's reply for `county`: no reply, a falsy one, or one whose
   * `regions` is falsy adds nothing; a truthy reply that is not a dict raises AttributeError;
   * otherwise each listed region is offered to `AddRegion` in turn.
   */
  function RegionsFrom(acc: Found, county: Record, appendable: bool, reply: Option<Json>): (r: Result<Found>)
    ensures reply.None? || !Truthy(reply.value) ==> r == Ok(acc)
    ensures reply.Some? && reply.value.JObj? && !Truthy(Get(reply.value.fields, "regions", JNull)) ==> r == Ok(acc)
    ensures reply.Some? && Truthy(reply.value) && !reply.value.JObj? ==> r == Err(AttributeError)
  {
    if reply.None? || !Truthy(reply.value) then Ok(acc)
    else if !reply.value.JObj? then Err(AttributeError)
    else
      var regions := Get(reply.value.fields, "regions", JNull);
      if !Truthy(regions) then Ok(acc)
      else
        var items :- LoopItems(regions);
        FoldResult(items, acc, AddRegionWith(county, appendable))
  }

  /**
   * One pass of the loop over the states, for one county: a state that shares a place with the
   * county and has a truthy name with an abbreviation causes one call of the service, whose
   * reply is handled by `RegionsFrom`.
   */
  function VisitState(acc: Found, county: Record, appendable: bool, service: RegionService, state: Json): (r: Result<Found>)
    ensures Shares(county, state).Err? ==> r == Err(Shares(county, state).fault)
    ensures Shares(county, state) == Ok(false) ==> r == Ok(acc)
    ensures Shares(county, state) == Ok(true) && !Truthy(Get(state.fields, "name", JNull)) ==> r == Ok(acc)
  {
    var shared :- Shares(county, state);
    if !shared then Ok(acc)
    else
      var name := Get(state.fields, "name", JNull);
      if !Truthy(name) then Ok(acc)
      else
        var abbrev :- Abbrev(name);
        if abbrev.None? then Ok(acc)
        else
          var l := Lookup(county, abbrev.value);
          RegionsFrom(acc.(lookups := acc.lookups + [l]), county, appendable, Ask(service, l))
  }

  function VisitStateWith(county: Record, appendable: bool, service: RegionService): (Found, Json) -> Result<Found> {
    (acc: Found, state: Json) => VisitState(acc, county, appendable, service, state)
  }

  /**
   * One pass of the loop over the counties: a county that is not a dict raises AttributeError;
   * otherwise the loop over `boundaries.get('states', [])` runs. A string of states yields its
   * characters; a non-empty dict yields its keys, all strings, which raise AttributeError as
   * soon as the county has a place to test against them; a value that cannot be iterated
   * raises TypeError.
   */
  function VisitCounty(acc: Found, states: Json, appendable: bool, service: RegionService, county: Json): (r: Result<Found>)
    ensures !county.JObj? ==> r == Err(AttributeError)
    ensures county.JObj? && !(states.JArr? || states.JStr? || states.JObj?) ==> r == Err(TypeError)
    ensures county.JObj? && (states == JArr([]) || states == JStr([]) || states == EmptyObj) ==> r == Ok(acc)
  {
    if !county.JObj? then Err(AttributeError)
    else
      match states
      case JArr(items) => FoldResult(items, acc, VisitStateWith(county.fields, appendable, service))
      case JStr(s) => FoldResult(Chars(s), acc, VisitStateWith(county.fields, appendable, service))
      case JObj(m) =>
        if m == map[] then Ok(acc)
        else
          var touched :- Touches(Places(county.fields));
          if touched then Err(AttributeError) else Ok(acc)
      case _ => Err(TypeError)
  }

  function VisitCountyWith(states: Json, appendable: bool, service: RegionService): (Found, Json) -> Result<Found> {
    (acc: Found, county: Json) => VisitCounty(acc, states, appendable, service, county)
  }

  /** The loop over `boundaries.get('counties', [])`, with `seen_region_ids` empty at the start. */
  function Run(boundaries: Record, service: RegionService): (r: Result<Found>)
    ensures LoopItems(Get(boundaries, "counties", EmptyArr)).Err? ==>
      r == Err(LoopItems(Get(boundaries, "counties", EmptyArr)).fault)
    ensures LoopItems(Get(boundaries, "counties", EmptyArr)) == Ok([]) ==> r == Ok(Start)
  {
    var counties :- LoopItems(Get(boundaries, "counties", EmptyArr));
    FoldResult(counties, Start, VisitCountyWith(Get(boundaries, "states", EmptyArr), Get(boundaries, "regions", EmptyArr).JArr?, service))
  }

  /** `boundaries['regions']` after the appends (a value that is not a list has had none). */
  function Extended(regions: Json, added: seq<Json>): Json {
    if regions.JArr? then JArr(regions.items + added) else regions
  }

  /**
   * `_localize_locations`: falsy `boundaries` leave the payload as it is. Boundaries that are
   * not a dict raise: AttributeError when `'regions' in boundaries` holds (their `get` is
   * missing), TypeError otherwise (they cannot take the item assignment, or do not support
   * `in`). Otherwise `regions` is created empty when missing and the found regions are
   * appended to it.
   */
  function Localized(payload: Record, service: RegionService): (r: Result<Record>)
    ensures !Truthy(Get(payload, "boundaries", EmptyObj)) ==> r == Ok(payload)
  {
    var boundaries := Get(payload, "boundaries", EmptyObj);
    if !Truthy(boundaries) then Ok(payload)
    else if !boundaries.JObj? then
      var present :- In(JStr("regions"), boundaries);
      Err(if present then AttributeError else TypeError)
    else
      var found :- Run(boundaries.fields, service);
      var regions := Get(boundaries.fields, "regions", EmptyArr);
      Ok(payload["boundaries" := JObj(boundaries.fields["regions" := Extended(regions, found.added)])])
  }

  // ---------------------------------------------------------------- the method

  /** The successful loop state as the method sees it: the appended regions, or the error. */
  function Added(r: Result<Found>): Result<seq<Json>> {
    match r
    case Ok(found) => Ok(found.added)
    case Err(fault) => Err(fault)
  }

  /** `seen_region_ids` holds exactly the ids appended so far. */
  ghost predicate Tracks(seen: set<Json>, added: seq<Json>) {
    forall x :: x in seen <==> x in RegionIds(added)
  }

  method LocalizeLocations(payload: Record, service: RegionService) returns (r: Result<Record>)
    ensures r == Localized(payload, service)
  {
    var boundaries := Get(payload, "boundaries", EmptyObj);
    if !Truthy(boundaries) {
      return Ok(payload);
    }
    if !boundaries.JObj? {
      var present :- In(JStr("regions"), boundaries);
      return Err(if present then AttributeError else TypeError);
    }
    var b := boundaries.fields;
    if "regions" !in b {
      b := b["regions" := JArr([])];
    }
    var regions := b["regions"];
    assert regions == Get(boundaries.fields, "regions", EmptyArr);
    var counties :- LoopItems(Get(b, "counties", EmptyArr));
    var states := Get(b, "states", EmptyArr);
    assert Get(boundaries.fields, "counties", EmptyArr) == Get(b, "counties", EmptyArr);
    assert Get(boundaries.fields, "states", EmptyArr) == states;
    ghost var step := VisitCountyWith(states, regions.JArr?, service);
    var seen: set<Json> := {};
    var added: seq<Json> := [];
    ghost var acc := Start;
    for i := 0 to |counties|
      invariant FoldResult(counties[..i], Start, step) == Ok(acc)
      invariant acc.added == added && Tracks(seen, added)
    {
      FoldResultStep(counties, i, Start, step);
      var next;
      next, seen :- VisitCountyOnce(acc, added, seen, states, regions.JArr?, service, counties[i]);
      acc := VisitCounty(acc, states, regions.JArr?, service, counties[i]).value;
      added := next;
    }
    assert counties[..|counties|] == counties;
    assert Run(boundaries.fields, service) == Ok(acc);
    if regions.JArr? {
      regions := JArr(regions.items + added);
    }
    assert b["regions" := regions] == boundaries.fields["regions" := regions];
    return Ok(payload["boundaries" := JObj(b["regions" := regions])]);
  }

  /** One pass of the loop over the counties. */
  method VisitCountyOnce(ghost acc: Found, added: seq<Json>, seen: set<Json>, states: Json, appendable: bool,
                         service: RegionService, county: Json)
    returns (r: Result<seq<Json>>, seen': set<Json>)
    requires acc.added == added && Tracks(seen, added)
    ensures r == Added(VisitCounty(acc, states, appendable, service, county))
    ensures r.Ok? ==> Tracks(seen', r.value)
  {
    seen' := seen;
    if !county.JObj? {
      return Err(AttributeError), seen';
    }
    var items: seq<Json>;
    match states {
      case JArr(xs) =>
        items := xs;
      case JStr(s) =>
        items := Chars(s);
      case JObj(m) =>
        if m == map[] {
          return Ok(added), seen';
        }
        var touched :- Touches(Places(county.fields));
        return (if touched then Err(AttributeError) else Ok(added)), seen';
      case _ =>
        return Err(TypeError), seen';
    }
    ghost var step := VisitStateWith(county.fields, appendable, service);
    var out := added;
    ghost var a := acc;
    for k := 0 to |items|
      invariant FoldResult(items[..k], acc, step) == Ok(a)
      invariant a.added == out && Tracks(seen', out)
    {
      FoldResultStep(items, k, acc, step);
      var next;
      next, seen' :- VisitStateOnce(a, out, seen', county.fields, appendable, service, items[k]);
      a := VisitState(a, county.fields, appendable, service, items[k]).value;
      out := next;
    }
    assert items[..|items|] == items;
    return Ok(out), seen';
  }

  /** One pass of the loop over the states, for one county. */
  method VisitStateOnce(ghost acc: Found, added: seq<Json>, seen: set<Json>, county: Record, appendable: bool,
                        service: RegionService, state: Json)
    returns (r: Result<seq<Json>>, seen': set<Json>)
    requires acc.added == added && Tracks(seen, added)
    ensures r == Added(VisitState(acc, county, appendable, service, state))
    ensures r.Ok? ==> Tracks(seen', r.value)
  {
    seen' := seen;
    var shared :- Shares(county, state);
    if !shared {
      return Ok(added), seen';
    }
    var name := Get(state.fields, "name", JNull);
    if !Truthy(name) {
      return Ok(added), seen';
    }
    var abbrev :- Abbrev(name);
    if abbrev.None? {
      return Ok(added), seen';
    }
    var reply := service(Get(county, "name", JNull), abbrev.value);
    ghost var l := Lookup(county, abbrev.value);
    r, seen' := AddRegions(acc.(lookups := acc.lookups + [l]), added, seen, county, appendable, reply);
  }

  /** One pass of the loop over the regions: the region's entry is appended when its id is new. */
  method AddRegionStep(ghost a: Found, added: seq<Json>, seen: set<Json>, county: Record, appendable: bool, region: Json)
    returns (r: Result<seq<Json>>, seen': set<Json>)
    requires a.added == added && Tracks(seen, added)
    ensures r == Added(AddRegion(a, county, appendable, region))
    ensures r.Ok? ==> Tracks(seen', r.value)
  {
    seen' := seen;
    if !region.JObj? {
      return Err(AttributeError), seen';
    }
    var id := Get(region.fields, "id", JNull);
    if !Truthy(id) {
      return Ok(added), seen';
    }
    if !Hashable(id) {
      return Err(TypeError), seen';
    }
    if id in seen' {
      return Ok(added), seen';
    }
    seen' := seen' + {id};
    if !appendable {
      return Err(AttributeError), seen';
    }
    var coordinates := Get(county, "coordinates", EmptyObj);
    if !coordinates.JObj? {
      return Err(AttributeError), seen';
    }
    var entry := JObj(map[
      "id" := id,
      "name" := Get(region.fields, "name", JNull),
      "coordinates" := JObj(map["lat" := Get(coordinates.fields, "lat", JNull), "lng" := Get(coordinates.fields, "lng", JNull)]),
      "places" := Get(county, "places", EmptyArr)]);
    assert entry == RegionEntry(region.fields, county, coordinates.fields);
    MapAppend(added, entry, IdOf);
    return Ok(added + [entry]), seen';
  }

  /** The loop over the regions of one reply. */
  method AddRegions(ghost acc: Found, added: seq<Json>, seen: set<Json>, county: Record, appendable: bool, reply: Option<Json>)
    returns (r: Result<seq<Json>>, seen': set<Json>)
    requires acc.added == added && Tracks(seen, added)
    ensures r == Added(RegionsFrom(acc, county, appendable, reply))
    ensures r.Ok? ==> Tracks(seen', r.value)
  {
    seen' := seen;
    if reply.None? || !Truthy(reply.value) {
      return Ok(added), seen';
    }
    if !reply.value.JObj? {
      return Err(AttributeError), seen';
    }
    var regions := Get(reply.value.fields, "regions", JNull);
    if !Truthy(regions) {
      return Ok(added), seen';
    }
    var items :- LoopItems(regions);
    ghost var step := AddRegionWith(county, appendable);
    var out := added;
    ghost var a := acc;
    for k := 0 to |items|
      invariant FoldResult(items[..k], acc, step) == Ok(a)
      invariant a.added == out && Tracks(seen', out)
    {
      FoldResultStep(items, k, acc, step);
      var next, seen'' := AddRegionStep(a, out, seen', county, appendable, items[k]);
      seen' := seen'';
      if next.Err? {
        return Err(next.fault), seen';
      }
      out := next.value;
      a := AddRegion(a, county, appendable, items[k]).value;
    }
    assert items[..|items|] == items;
    return Ok(out), seen';
  }

  // ---------------------------------------------------------------- properties

  /**
   * `entry` is the record made for one of the regions listed in the service's reply to `l`,
   * with the coordinates and the places of `l`'s county.
   */
  ghost predicate Answered(entry: Json, l: Lookup, service: RegionService) {
    var reply := Ask(service, l);
    var coordinates := Get(l.county, "coordinates", EmptyObj);
    reply.Some? && reply.value.JObj? && coordinates.JObj? &&
    var regions := Get(reply.value.fields, "regions", JNull);
    regions.JArr? &&
    exists k :: 0 <= k < |regions.items| && regions.items[k].JObj? &&
      entry == RegionEntry(regions.items[k].fields, l.county, coordinates.fields)
  }

  /**
   * What the loops keep: the appended ids are truthy, hashable and pairwise distinct, and each
   * appended record was made from the reply to one of the calls made.
   */
  ghost predicate Invariant(found: Found, service: RegionService) {
    NoDup(RegionIds(found.added)) &&
    (forall i :: 0 <= i < |found.added| ==> Truthy(IdOf(found.added[i])) && Hashable(IdOf(found.added[i]))) &&
    (forall i :: 0 <= i < |found.added| ==> Witnessed(found.added[i], found.lookups, service))
  }

  /** `entry` was made from the reply to one of the calls in `lookups`. */
  ghost predicate Witnessed(entry: Json, lookups: seq<Lookup>, service: RegionService) {
    exists j :: 0 <= j < |lookups| && Answered(entry, lookups[j], service)
  }

  ghost function InvariantOf(service: RegionService): Found -> bool {
    (found: Found) => Invariant(found, service)
  }

  ghost function InvariantAfter(service: RegionService, lookups: seq<Lookup>): Found -> bool {
    (found: Found) => Invariant(found, service) && found.lookups == lookups
  }

  /** The region `region` is listed in the service's reply to `l`. */
  ghost predicate Listed(region: Json, l: Lookup, service: RegionService) {
    var reply := Ask(service, l);
    reply.Some? && reply.value.JObj? &&
    Get(reply.value.fields, "regions", JNull).JArr? && region in Get(reply.value.fields, "regions", JNull).items
  }

  /** Appending a region from the reply to the last call keeps the invariant. */
  lemma AddRegionKeeps(acc: Found, l: Lookup, appendable: bool, region: Json, service: RegionService)
    requires Invariant(acc, service) && acc.lookups != [] && acc.lookups[|acc.lookups| - 1] == l
    requires Listed(region, l, service)
    ensures AddRegion(acc, l.county, appendable, region).Ok? ==> Invariant(AddRegion(acc, l.county, appendable, region).value, service)
  {
    var r := AddRegion(acc, l.county, appendable, region);
    if r.Ok? && r.value != acc {
      var id := Get(region.fields, "id", JNull);
      var coordinates := Get(l.county, "coordinates", EmptyObj);
      var entry := RegionEntry(region.fields, l.county, coordinates.fields);
      assert r.value.added == acc.added + [entry];
      MapAppend(acc.added, entry, IdOf);
      assert IdOf(entry) == id;
      NoDupAppend(RegionIds(acc.added), [id]);
      var regions := Get(Ask(service, l).value.fields, "regions", JNull);
      var k :| 0 <= k < |regions.items| && regions.items[k] == region;
      assert Answered(entry, l, service);
      assert r.value.lookups[|acc.lookups| - 1] == l;
      assert Witnessed(entry, r.value.lookups, service);
      forall i | 0 <= i < |r.value.added|
        ensures Witnessed(r.value.added[i], r.value.lookups, service)
      {
        if i < |acc.added| {
          assert r.value.added[i] == acc.added[i];
        }
      }
    }
  }

  /** The regions of the reply to the last call keep the invariant. */
  lemma RegionsFromKeeps(acc: Found, l: Lookup, appendable: bool, service: RegionService)
    requires Invariant(acc, service) && acc.lookups != [] && acc.lookups[|acc.lookups| - 1] == l
    ensures RegionsFrom(acc, l.county, appendable, Ask(service, l)).Ok? ==>
      Invariant(RegionsFrom(acc, l.county, appendable, Ask(service, l)).value, service)
  {
    var reply := Ask(service, l);
    if reply.Some? && Truthy(reply.value) && reply.value.JObj? && Truthy(Get(reply.value.fields, "regions", JNull)) {
      var regions := Get(reply.value.fields, "regions", JNull);
      if LoopItems(regions).Ok? {
        var items := LoopItems(regions).value;
        assert regions.JArr? && items == regions.items;
        var step := AddRegionWith(l.county, appendable);
        forall a: Found, x: Json | x in items && InvariantAfter(service, acc.lookups)(a) && step(a, x).Ok?
          ensures InvariantAfter(service, acc.lookups)(step(a, x).value)
        {
          AddRegionKeeps(a, l, appendable, x, service);
        }
        FoldResultInv(items, acc, step, InvariantAfter(service, acc.lookups));
      }
    }
  }

  /** A longer log keeps every appended record's witness. */
  lemma LogExtendedKeeps(acc: Found, l: Lookup, service: RegionService)
    requires Invariant(acc, service)
    ensures Invariant(Found(acc.added, acc.lookups + [l]), service)
  {
    var lookups := acc.lookups + [l];
    forall i | 0 <= i < |acc.added|
      ensures Witnessed(acc.added[i], lookups, service)
    {
      var j :| 0 <= j < |acc.lookups| && Answered(acc.added[i], acc.lookups[j], service);
      assert lookups[j] == acc.lookups[j];
    }
  }

  lemma VisitStateKeeps(acc: Found, county: Record, appendable: bool, service: RegionService, state: Json)
    requires Invariant(acc, service)
    ensures VisitState(acc, county, appendable, service, state).Ok? ==>
      Invariant(VisitState(acc, county, appendable, service, state).value, service)
  {
    if Shares(county, state) == Ok(true) {
      var abbrev := Abbrev(Get(state.fields, "name", JNull));
      if abbrev.Ok? && abbrev.value.Some? {
        var l := Lookup(county, abbrev.value.value);
        LogExtendedKeeps(acc, l, service);
        assert acc.(lookups := acc.lookups + [l]) == Found(acc.added, acc.lookups + [l]);
        RegionsFromKeeps(acc.(lookups := acc.lookups + [l]), l, appendable, service);
      }
    }
  }

  lemma VisitCountyKeeps(acc: Found, states: Json, appendable: bool, service: RegionService, county: Json)
    requires Invariant(acc, service)
    ensures VisitCounty(acc, states, appendable, service, county).Ok? ==>
      Invariant(VisitCounty(acc, states, appendable, service, county).value, service)
  {
    if county.JObj? && (states.JArr? || states.JStr?) {
      var items := if states.JArr? then states.items else Chars(states.s);
      var step := VisitStateWith(county.fields, appendable, service);
      forall a: Found, x: Json | x in items && InvariantOf(service)(a) && step(a, x).Ok?
        ensures InvariantOf(service)(step(a, x).value)
      {
        VisitStateKeeps(a, county.fields, appendable, service, x);
      }
      FoldResultInv(items, acc, step, InvariantOf(service));
    }
  }

  /** The whole county loop keeps the invariant. */
  lemma RunKeeps(boundaries: Record, service: RegionService)
    ensures Run(boundaries, service).Ok? ==> Invariant(Run(boundaries, service).value, service)
  {
    var counties := LoopItems(Get(boundaries, "counties", EmptyArr));
    if counties.Ok? {
      var step := VisitCountyWith(Get(boundaries, "states", EmptyArr), Get(boundaries, "regions", EmptyArr).JArr?, service);
      forall a: Found, x: Json | x in counties.value && InvariantOf(service)(a) && step(a, x).Ok?
        ensures InvariantOf(service)(step(a, x).value)
      {
        VisitCountyKeeps(a, Get(boundaries, "states", EmptyArr), Get(boundaries, "regions", EmptyArr).JArr?, service, x);
      }
      assert Invariant(Start, service);
      FoldResultInv(counties.value, Start, step, InvariantOf(service));
    }
  }

  // ---------------------------------------------------------------- which calls are made

  /**
   * The call the state loop makes for `county` and `state`, if any: one exactly when the
   * state shares a place with the county and has a name `get_state_abbrev` knows.
   */
  function Request(county: Record, state: Json): seq<Lookup> {
    if Shares(county, state) == Ok(true) then
      var abbrev := Abbrev(Get(state.fields, "name", JNull));
      if abbrev.Ok? && abbrev.value.Some? then [Lookup(county, abbrev.value.value)] else []
    else []
  }

  function RequestsFor(county: Record): Json -> seq<Lookup> {
    (state: Json) => Request(county, state)
  }

  /** The items the loop over `boundaries.get('states', [])` visits, when it can visit any state that is a dict. */
  function StateItems(states: Json): seq<Json> {
    match states
    case JArr(items) => items
    case JStr(s) => Chars(s)
    case _ => []
  }

  /** The calls made for one county, one per state that asks for one, in the states' order. */
  function CountyRequests(states: Json): Json -> seq<Lookup> {
    (county: Json) => if county.JObj? then ConcatMap(StateItems(states), RequestsFor(county.fields)) else []
  }

  function LogOf(found: Found): seq<Lookup> {
    found.lookups
  }

  function LogIs(lookups: seq<Lookup>): Found -> bool {
    (found: Found) => found.lookups == lookups
  }

  /** Handling a reply makes no further call. */
  lemma RegionsFromLog(acc: Found, county: Record, appendable: bool, reply: Option<Json>)
    ensures RegionsFrom(acc, county, appendable, reply).Ok? ==>
      RegionsFrom(acc, county, appendable, reply).value.lookups == acc.lookups
  {
    if reply.Some? && Truthy(reply.value) && reply.value.JObj? && Truthy(Get(reply.value.fields, "regions", JNull)) {
      var items := LoopItems(Get(reply.value.fields, "regions", JNull));
      if items.Ok? {
        FoldResultInv(items.value, acc, AddRegionWith(county, appendable), LogIs(acc.lookups));
      }
    }
  }

  lemma VisitStateLog(acc: Found, county: Record, appendable: bool, service: RegionService, state: Json)
    ensures VisitState(acc, county, appendable, service, state).Ok? ==>
      VisitState(acc, county, appendable, service, state).value.lookups == acc.lookups + Request(county, state)
  {
    if Shares(county, state) == Ok(true) {
      var abbrev := Abbrev(Get(state.fields, "name", JNull));
      if abbrev.Ok? && abbrev.value.Some? {
        var l := Lookup(county, abbrev.value.value);
        RegionsFromLog(acc.(lookups := acc.lookups + [l]), county, appendable, Ask(service, l));
      }
    }
  }

  lemma VisitCountyLog(acc: Found, states: Json, appendable: bool, service: RegionService, county: Json)
    ensures VisitCounty(acc, states, appendable, service, county).Ok? ==>
      VisitCounty(acc, states, appendable, service, county).value.lookups == acc.lookups + CountyRequests(states)(county)
  {
    if county.JObj? {
      var step := VisitStateWith(county.fields, appendable, service);
      var items := StateItems(states);
      forall a: Found, x: Json | x in items && step(a, x).Ok?
        ensures LogOf(step(a, x).value) == LogOf(a) + RequestsFor(county.fields)(x)
      {
        VisitStateLog(a, county.fields, appendable, service, x);
      }
      FoldResultLog(items, acc, step, LogOf, RequestsFor(county.fields));
    }
  }

  /**
   * The calls made by a successful run: for each county in order, one for each state, in
   * order, that shares a place with it and has a name with an abbreviation.
   */
  lemma RunLog(boundaries: Record, service: RegionService)
    requires Run(boundaries, service).Ok?
    ensures Run(boundaries, service).value.lookups ==
      ConcatMap(LoopItems(Get(boundaries, "counties", EmptyArr)).value, CountyRequests(Get(boundaries, "states", EmptyArr)))
  {
    var counties := LoopItems(Get(boundaries, "counties", EmptyArr)).value;
    var states := Get(boundaries, "states", EmptyArr);
    var step := VisitCountyWith(states, Get(boundaries, "regions", EmptyArr).JArr?, service);
    forall a: Found, x: Json | x in counties && step(a, x).Ok?
      ensures LogOf(step(a, x).value) == LogOf(a) + CountyRequests(states)(x)
    {
      VisitCountyLog(a, states, Get(boundaries, "regions", EmptyArr).JArr?, service, x);
    }
    FoldResultLog(counties, Start, step, LogOf, CountyRequests(states));
  }

  // ---------------------------------------------------------------- which regions are appended

  /** A region listed in the reply to a call, with the call. */
  datatype Offer = Offer(lookup: Lookup, region: Json)

  /** The regions the loop over the reply to `l` visits: the reply's `regions`, when it is a list. */
  function Offers(service: RegionService, l: Lookup): (r: seq<Json>)
    ensures forall region :: region in r <==> Listed(region, l, service)
  {
    var reply := Ask(service, l);
    if reply.Some? && reply.value.JObj? && Get(reply.value.fields, "regions", JNull).JArr? then
      Get(reply.value.fields, "regions", JNull).items
    else []
  }

  function OfferFor(l: Lookup): Json -> Offer {
    (region: Json) => Offer(l, region)
  }

  function OffersTo(service: RegionService): Lookup -> seq<Offer> {
    (l: Lookup) => Map(Offers(service, l), OfferFor(l))
  }

  /** Every region offered during a run: call by call in the order of the log, each reply's regions in order. */
  function Offered(lookups: seq<Lookup>, service: RegionService): seq<Offer> {
    ConcatMap(lookups, OffersTo(service))
  }

  /** The id an offered region carries; a region that is not a dict carries none. */
  function OfferId(o: Offer): Json {
    if o.region.JObj? then Get(o.region.fields, "id", JNull) else JNull
  }

  /** The record made for an offered region (the empty defaults stand only for cases in which the append raises). */
  function OfferEntry(o: Offer): Json {
    var coordinates := Get(o.lookup.county, "coordinates", EmptyObj);
    RegionEntry(if o.region.JObj? then o.region.fields else map[], o.lookup.county,
      if coordinates.JObj? then coordinates.fields else map[])
  }

  /** An offered region is kept when its id is truthy and no kept record has it yet. */
  function Keep(kept: seq<Json>, o: Offer): seq<Json> {
    if Truthy(OfferId(o)) && OfferId(o) !in RegionIds(kept) then kept + [OfferEntry(o)] else kept
  }

  /**
   * Reference definition of what a run appends, stated over the offers rather than the loops:
   * one record per truthy id offered, made from the first offer of that id.
   */
  function FirstEntries(offers: seq<Offer>): seq<Json>
    decreases |offers|
  {
    if offers == [] then [] else Keep(FirstEntries(offers[..|offers| - 1]), offers[|offers| - 1])
  }

  /** Offer `p` carries a truthy id that no earlier offer carries. */
  ghost predicate FirstOffer(offers: seq<Offer>, p: int) {
    0 <= p < |offers| && Truthy(OfferId(offers[p])) &&
    forall q :: 0 <= q < p ==> OfferId(offers[q]) != OfferId(offers[p])
  }

  /** `entry` is the record of the first offer of its id. */
  ghost predicate Introduced(entry: Json, offers: seq<Offer>) {
    exists p :: FirstOffer(offers, p) && entry == OfferEntry(offers[p]) && IdOf(entry) == OfferId(offers[p])
  }

  /** Every truthy id offered has a record. */
  lemma {:induction false} FirstEntriesComplete(offers: seq<Offer>)
    ensures forall o :: o in offers && Truthy(OfferId(o)) ==> OfferId(o) in RegionIds(FirstEntries(offers))
    decreases |offers|
  {
    if offers != [] {
      var init, last := offers[..|offers| - 1], offers[|offers| - 1];
      assert offers == init + [last];
      FirstEntriesComplete(init);
      var prev := FirstEntries(init);
      if Truthy(OfferId(last)) && OfferId(last) !in RegionIds(prev) {
        MapAppend(prev, OfferEntry(last), IdOf);
        assert IdOf(OfferEntry(last)) == OfferId(last);
      }
    }
  }

  /** Every record is made from the first offer of its id. */
  lemma {:induction false} FirstEntriesFirst(offers: seq<Offer>)
    ensures forall i :: 0 <= i < |FirstEntries(offers)| ==> Introduced(FirstEntries(offers)[i], offers)
    decreases |offers|
  {
    if offers != [] {
      var init, last := offers[..|offers| - 1], offers[|offers| - 1];
      FirstEntriesFirst(init);
      FirstEntriesComplete(init);
      var prev := FirstEntries(init);
      var r := FirstEntries(offers);
      forall i | 0 <= i < |r| ensures Introduced(r[i], offers) {
        if i < |prev| {
          var p :| FirstOffer(init, p) && prev[i] == OfferEntry(init[p]) && IdOf(prev[i]) == OfferId(init[p]);
          assert forall q :: 0 <= q <= p ==> offers[q] == init[q];
          assert FirstOffer(offers, p);
        } else {
          var p := |init|;
          forall q | 0 <= q < p ensures OfferId(offers[q]) != OfferId(offers[p]) {
            assert offers[q] == init[q] && init[q] in init;
          }
          assert FirstOffer(offers, p);
        }
      }
    }
  }

  lemma AddRegionKept(acc: Found, l: Lookup, appendable: bool, region: Json)
    requires AddRegion(acc, l.county, appendable, region).Ok?
    ensures AddRegion(acc, l.county, appendable, region).value.added == Keep(acc.added, Offer(l, region))
  {
  }

  /** The loop over one reply's regions keeps the records those of the offers so far. */
  lemma {:induction false} RegionsFoldEntries(items: seq<Json>, acc: Found, l: Lookup, appendable: bool, offers: seq<Offer>)
    requires acc.added == FirstEntries(offers)
    ensures FoldResult(items, acc, AddRegionWith(l.county, appendable)).Ok? ==>
      FoldResult(items, acc, AddRegionWith(l.county, appendable)).value.added == FirstEntries(offers + Map(items, OfferFor(l)))
    decreases |items|
  {
    var f := AddRegionWith(l.county, appendable);
    if items == [] {
      assert offers + Map(items, OfferFor(l)) == offers;
    } else if FoldResult(items, acc, f).Ok? {
      var init, last := items[..|items| - 1], items[|items| - 1];
      RegionsFoldEntries(init, acc, l, appendable, offers);
      var a := FoldResult(init, acc, f).value;
      assert FoldResult(items, acc, f) == AddRegion(a, l.county, appendable, last);
      AddRegionKept(a, l, appendable, last);
      assert items == init + [last];
      MapAppend(init, last, OfferFor(l));
      var all := offers + Map(items, OfferFor(l));
      assert all == (offers + Map(init, OfferFor(l))) + [Offer(l, last)];
      assert all[..|all| - 1] == offers + Map(init, OfferFor(l));
    }
  }

  lemma RegionsFromEntries(acc: Found, l: Lookup, appendable: bool, service: RegionService, offers: seq<Offer>)
    requires acc.added == FirstEntries(offers)
    ensures RegionsFrom(acc, l.county, appendable, Ask(service, l)).Ok? ==>
      RegionsFrom(acc, l.county, appendable, Ask(service, l)).value.added == FirstEntries(offers + OffersTo(service)(l))
  {
    var reply := Ask(service, l);
    if reply.Some? && Truthy(reply.value) && reply.value.JObj? && Truthy(Get(reply.value.fields, "regions", JNull)) &&
      LoopItems(Get(reply.value.fields, "regions", JNull)).Ok?
    {
      var items := Get(reply.value.fields, "regions", JNull).items;
      RegionsFoldEntries(items, acc, l, appendable, offers);
      assert OffersTo(service)(l) == Map(items, OfferFor(l));
    } else {
      assert RegionsFrom(acc, l.county, appendable, reply).Ok? ==> Offers(service, l) == [];
      assert offers + Map([], OfferFor(l)) == offers;
    }
  }

  /** Each call's offers follow those of the calls before it. */
  lemma OfferedAppend(lookups: seq<Lookup>, l: Lookup, service: RegionService)
    ensures Offered(lookups + [l], service) == Offered(lookups, service) + OffersTo(service)(l)
  {
    ConcatMapAppend(lookups, [l], OffersTo(service));
    assert [l][..0] == [];
  }

  ghost function EntriesFollow(service: RegionService): Found -> bool {
    (found: Found) => found.added == FirstEntries(Offered(found.lookups, service))
  }

  lemma VisitStateEntries(acc: Found, county: Record, appendable: bool, service: RegionService, state: Json)
    requires acc.added == FirstEntries(Offered(acc.lookups, service))
    ensures VisitState(acc, county, appendable, service, state).Ok? ==>
      EntriesFollow(service)(VisitState(acc, county, appendable, service, state).value)
  {
    if Shares(county, state) == Ok(true) {
      var abbrev := Abbrev(Get(state.fields, "name", JNull));
      if abbrev.Ok? && abbrev.value.Some? {
        var l := Lookup(county, abbrev.value.value);
        var acc' := acc.(lookups := acc.lookups + [l]);
        assert VisitState(acc, county, appendable, service, state) == RegionsFrom(acc', county, appendable, Ask(service, l));
        OfferedAppend(acc.lookups, l, service);
        RegionsFromEntries(acc', l, appendable, service, Offered(acc.lookups, service));
        RegionsFromLog(acc', county, appendable, Ask(service, l));
      }
    }
  }

  lemma VisitCountyEntries(acc: Found, states: Json, appendable: bool, service: RegionService, county: Json)
    requires EntriesFollow(service)(acc)
    ensures VisitCounty(acc, states, appendable, service, county).Ok? ==>
      EntriesFollow(service)(VisitCounty(acc, states, appendable, service, county).value)
  {
    if county.JObj? && (states.JArr? || states.JStr?) {
      var step := VisitStateWith(county.fields, appendable, service);
      forall a: Found, x: Json | x in StateItems(states) && EntriesFollow(service)(a) && step(a, x).Ok?
        ensures EntriesFollow(service)(step(a, x).value)
      {
        VisitStateEntries(a, county.fields, appendable, service, x);
      }
      FoldResultInv(StateItems(states), acc, step, EntriesFollow(service));
    }
  }

  /**
   * What a successful run appends is determined by the offers alone: for each truthy id
   * offered, in the order of first offer, the record of its first offer.
   */
  lemma RunEntries(boundaries: Record, service: RegionService)
    requires Run(boundaries, service).Ok?
    ensures Run(boundaries, service).value.added == FirstEntries(Offered(Run(boundaries, service).value.lookups, service))
  {
    var counties := LoopItems(Get(boundaries, "counties", EmptyArr)).value;
    var appendable := Get(boundaries, "regions", EmptyArr).JArr?;
    var step := VisitCountyWith(Get(boundaries, "states", EmptyArr), appendable, service);
    forall a: Found, x: Json | x in counties && EntriesFollow(service)(a) && step(a, x).Ok?
      ensures EntriesFollow(service)(step(a, x).value)
    {
      VisitCountyEntries(a, Get(boundaries, "states", EmptyArr), appendable, service, x);
    }
    assert EntriesFollow(service)(Start);
    FoldResultInv(counties, Start, step, EntriesFollow(service));
  }

  /**
   * Completeness: after a successful run, every region listed in the reply to one of its calls
   * that carries a truthy id has that id among the appended records.
   */
  lemma RunComplete(boundaries: Record, service: RegionService)
    requires Run(boundaries, service).Ok?
    ensures var found := Run(boundaries, service).value;
      forall j, region :: (0 <= j < |found.lookups| && Listed(region, found.lookups[j], service) &&
        region.JObj? && Truthy(Get(region.fields, "id", JNull))) ==>
        Get(region.fields, "id", JNull) in RegionIds(found.added)
  {
    var found := Run(boundaries, service).value;
    var offers := Offered(found.lookups, service);
    RunEntries(boundaries, service);
    FirstEntriesComplete(offers);
    forall j, region | 0 <= j < |found.lookups| && Listed(region, found.lookups[j], service) &&
      region.JObj? && Truthy(Get(region.fields, "id", JNull))
      ensures Get(region.fields, "id", JNull) in RegionIds(found.added)
    {
      var l := found.lookups[j];
      var k :| 0 <= k < |Offers(service, l)| && Offers(service, l)[k] == region;
      assert OffersTo(service)(l)[k] == Offer(l, region);
      ConcatMapMember(found.lookups, OffersTo(service), j, Offer(l, region));
      assert OfferId(Offer(l, region)) == Get(region.fields, "id", JNull);
    }
  }

  /**
   * The first county wins: every record a successful run appends is the one made from the
   * first offer of its id, in the order of the calls and of each reply's regions.
   */
  lemma RunFirstWins(boundaries: Record, service: RegionService)
    requires Run(boundaries, service).Ok?
    ensures var found := Run(boundaries, service).value;
      forall i :: 0 <= i < |found.added| ==> Introduced(found.added[i], Offered(found.lookups, service))
  {
    RunEntries(boundaries, service);
    FirstEntriesFirst(Offered(Run(boundaries, service).value.lookups, service));
  }

  // ---------------------------------------------------------------- when nothing is appended

  /** The service answers no call (every request fails). */
  ghost predicate Silent(service: RegionService) {
    forall name, abbrev :: service(name, abbrev).None?
  }

  function NothingAdded(found: Found): bool {
    found.added == []
  }

  /** With no list to append to, or no reply, no region is appended. */
  lemma VisitStateAddsNothing(acc: Found, county: Record, appendable: bool, service: RegionService, state: Json)
    requires !appendable || Silent(service)
    requires acc.added == []
    ensures VisitState(acc, county, appendable, service, state).Ok? ==> VisitState(acc, county, appendable, service, state).value.added == []
  {
    if Shares(county, state) == Ok(true) {
      var abbrev := Abbrev(Get(state.fields, "name", JNull));
      if abbrev.Ok? && abbrev.value.Some? {
        var l := Lookup(county, abbrev.value.value);
        var acc' := acc.(lookups := acc.lookups + [l]);
        var reply := Ask(service, l);
        if !appendable && reply.Some? && Truthy(reply.value) && reply.value.JObj? && Truthy(Get(reply.value.fields, "regions", JNull)) {
          var items := LoopItems(Get(reply.value.fields, "regions", JNull));
          if items.Ok? {
            FoldResultInv(items.value, acc', AddRegionWith(county, appendable), NothingAdded);
          }
        }
      }
    }
  }

  lemma VisitCountyAddsNothing(acc: Found, states: Json, appendable: bool, service: RegionService, county: Json)
    requires !appendable || Silent(service)
    requires acc.added == []
    ensures VisitCounty(acc, states, appendable, service, county).Ok? ==>
      VisitCounty(acc, states, appendable, service, county).value.added == []
  {
    if county.JObj? && (states.JArr? || states.JStr?) {
      var step := VisitStateWith(county.fields, appendable, service);
      forall a: Found, x: Json | x in StateItems(states) && NothingAdded(a) && step(a, x).Ok?
        ensures NothingAdded(step(a, x).value)
      {
        VisitStateAddsNothing(a, county.fields, appendable, service, x);
      }
      FoldResultInv(StateItems(states), acc, step, NothingAdded);
    }
  }

  /**
   * A run appends nothing when `boundaries['regions']` is not a list (an append would raise)
   * or when every request to the service fails.
   */
  lemma RunAddsNothing(boundaries: Record, service: RegionService)
    requires !Get(boundaries, "regions", EmptyArr).JArr? || Silent(service)
    ensures Run(boundaries, service).Ok? ==> Run(boundaries, service).value.added == []
  {
    var counties := LoopItems(Get(boundaries, "counties", EmptyArr));
    if counties.Ok? {
      var appendable := Get(boundaries, "regions", EmptyArr).JArr?;
      var step := VisitCountyWith(Get(boundaries, "states", EmptyArr), appendable, service);
      forall a: Found, x: Json | x in counties.value && NothingAdded(a) && step(a, x).Ok?
        ensures NothingAdded(step(a, x).value)
      {
        VisitCountyAddsNothing(a, Get(boundaries, "states", EmptyArr), appendable, service, x);
      }
      FoldResultInv(counties.value, Start, step, NothingAdded);
    }
  }

  // ---------------------------------------------------------------- the stage

  /**
   * A successful run on truthy boundaries: they are a dict; afterwards `regions` holds what it
   * held (nothing when it was missing) followed by the appended regions, and every other key of
   * the boundaries and of the payload keeps its value. When `regions` was present but not a
   * list, nothing was appended and the payload is unchanged.
   */
  lemma LocalizedSpec(payload: Record, service: RegionService)
    requires Truthy(Get(payload, "boundaries", EmptyObj)) && Localized(payload, service).Ok?
    ensures "boundaries" in payload && payload["boundaries"].JObj? && Run(payload["boundaries"].fields, service).Ok?
    ensures var b := payload["boundaries"].fields;
      var added := Run(b, service).value.added;
      var r := Localized(payload, service).value;
      var before := Get(b, "regions", EmptyArr);
      r.Keys == payload.Keys &&
      (forall k :: k in payload && k != "boundaries" ==> r[k] == payload[k]) &&
      r["boundaries"].JObj? && r["boundaries"].fields.Keys == b.Keys + {"regions"} &&
      (forall k :: k in b && k != "regions" ==> r["boundaries"].fields[k] == b[k]) &&
      (before.JArr? ==> r["boundaries"].fields["regions"] == JArr(before.items + added)) &&
      (!before.JArr? ==> added == [] && r == payload)
  {
    var b := payload["boundaries"].fields;
    if !Get(b, "regions", EmptyArr).JArr? {
      RunAddsNothing(b, service);
      assert b["regions" := b["regions"]] == b;
      assert payload["boundaries" := JObj(b)] == payload;
    }
  }

  /**
   * `seen_region_ids` starts empty on every call, so the regions already in the list are not
   * deduplicated against: running the stage again appends the same regions a second time.
   */
  lemma LocalizeTwice(payload: Record, service: RegionService)
    requires Truthy(Get(payload, "boundaries", EmptyObj)) && Localized(payload, service).Ok?
    requires payload["boundaries"].JObj? && Get(payload["boundaries"].fields, "regions", EmptyArr).JArr?
    ensures var b := payload["boundaries"].fields;
      var before := Get(b, "regions", EmptyArr).items;
      var added := Run(b, service).value.added;
      Localized(Localized(payload, service).value, service) ==
        Ok(payload["boundaries" := JObj(b["regions" := JArr(before + added + added)])])
  {
    var b := payload["boundaries"].fields;
    var before := Get(b, "regions", EmptyArr).items;
    var added := Run(b, service).value.added;
    var b1 := b["regions" := JArr(before + added)];
    var p1 := payload["boundaries" := JObj(b1)];
    assert Localized(payload, service) == Ok(p1);
    assert Get(b1, "counties", EmptyArr) == Get(b, "counties", EmptyArr);
    assert Get(b1, "states", EmptyArr) == Get(b, "states", EmptyArr);
    assert Run(b1, service) == Run(b, service);
    assert Get(p1, "boundaries", EmptyObj) == JObj(b1);
    assert "regions" in b1 && Truthy(JObj(b1));
    assert Get(b1, "regions", EmptyArr) == JArr(before + added);
    var b2 := b1["regions" := JArr(before + added + added)];
    assert b2 == b["regions" := JArr(before + added + added)];
    assert Localized(p1, service) == Ok(p1["boundaries" := JObj(b2)]);
    assert p1["boundaries" := JObj(b2)] == payload["boundaries" := JObj(b2)];
  }
}
