/**
 * The restructuring at the end of the review stage, `_process_boundaries` in
 * `worker/tasks/locations/review/consolidate.py`: the places of a story are grouped under the
 * distinct states, counties, cities and neighborhoods their geocoding results fall in.
 *
 * A first pass walks the locations: a location with a non-empty strategy and truthy
 * `results` becomes a place (its strategy without the validation metadata), and each level
 * of its `boundaries` whose entry is a non-empty dict with a truthy id not seen before adds
 * a boundary named after that entry, at the location's coordinates. A second pass appends
 * each place's id to the boundaries it refers to.
 */
module ReviewBoundaries {
  import opened Wrappers
  import opened PyJson
  import opened Seqs

  /** A boundary level: the key of its list in the output and of its entry in a result's `boundaries`. */
  datatype Level = Level(listKey: string, key: string)

  /** The four levels, in the order the source handles them. */
  const Levels: seq<Level> :=
    [Level("states", "state"), Level("counties", "county"), Level("cities", "city"), Level("neighborhoods", "neighborhood")]

  /** The validation metadata a place loses. */
  const Metadata: set<string> := {"validated", "rationale"}

  /** One distinct boundary of the output: `{id, name, coordinates: {lat, lng}, places}`. */
  datatype Boundary = Boundary(id: Json, name: Json, lat: Json, lng: Json, places: seq<Json>)

  /** The boundary lists, one per level. */
  type Lists = l: seq<seq<Boundary>> | |l| == 4 witness [[], [], [], []]

  /** The state of the first pass: the boundary lists so far and the places so far. */
  datatype Collected = Collected(lists: Lists, places: seq<Record>)

  const Start: Collected := Collected([[], [], [], []], [])

  /** The ids of a boundary list, in order. */
  function Ids(bs: seq<Boundary>): (r: seq<Json>)
    ensures |r| == |bs| && forall k :: 0 <= k < |bs| ==> r[k] == bs[k].id
  {
    seq(|bs|, k requires 0 <= k < |bs| => bs[k].id)
  }

  lemma IdsAppend(bs: seq<Boundary>, b: Boundary)
    ensures Ids(bs + [b]) == Ids(bs) + [b.id]
  {
  }

  // ---------------------------------------------------------------- first pass

  /**
   * `x[i]` for the small index `i` the coordinates are read at: a list or a string shorter
   * than that raises IndexError, a dict KeyError, anything else TypeError.
   */
  function Index(x: Json, i: nat): (r: Result<Json>)
    ensures x.JArr? ==> (r.Ok? <==> i < |x.items|) && (r.Ok? ==> r.value == x.items[i])
    ensures r.Ok? ==> x.JArr? || x.JStr?
  {
    match x
    case JArr(xs) => if i < |xs| then Ok(xs[i]) else Err(IndexError)
    case JStr(s) => if i < |s| then Ok(JStr([s[i]])) else Err(IndexError)
    case JObj(_) => Err(KeyError)
    case _ => Err(TypeError)
  }

  /**
   * The `lat` and `lng` of a new boundary. A GeoJSON geometry lists longitude before
   * latitude, so `lat` is the second coordinate and `lng` the first; a geometry without
   * coordinates gives None for both, and a geometry that is not a dict raises.
   */
  function Coordinates(geometry: Json): (r: Result<(Json, Json)>)
    ensures r.Ok? ==> geometry.JObj?
    ensures geometry.JObj? && !Truthy(Get(geometry.fields, "coordinates", JNull)) ==> r == Ok((JNull, JNull))
    ensures geometry.JObj? && "coordinates" in geometry.fields && geometry.fields["coordinates"].JArr? ==>
      var c := geometry.fields["coordinates"].items;
      (|c| >= 2 ==> r == Ok((c[1], c[0]))) && (|c| == 1 ==> r == Err(IndexError))
  {
    var coords :- GetFrom(geometry, "coordinates", JNull);
    if !Truthy(coords) then Ok((JNull, JNull))
    else
      var lat :- Index(coords, 1);
      var lng :- Index(coords, 0);
      Ok((lat, lng))
  }

  /** The id a level's entry introduces: the entry must be a non-empty dict and its id truthy. */
  function NewId(boundaries: Record, level: Level): Option<Json> {
    var e := Get(boundaries, level.key, JNull);
    if Truthy(e) && e.JObj? && Truthy(Get(e.fields, "id", JNull)) then Some(Get(e.fields, "id", JNull)) else None
  }

  /**
   * One level of one location. The list grows by at most one boundary, whose id is truthy and
   * not among the ids before, and which starts without places; an id that cannot be put in a
   * set raises TypeError.
   */
  function AddBoundary(bs: seq<Boundary>, boundaries: Record, level: Level, geometry: Json): (r: Result<seq<Boundary>>)
    ensures NewId(boundaries, level).None? ==> r == Ok(bs)
    ensures NewId(boundaries, level).Some? && !Hashable(NewId(boundaries, level).value) ==> r == Err(TypeError)
    ensures (NewId(boundaries, level).Some? && NewId(boundaries, level).value in Ids(bs) &&
             Hashable(NewId(boundaries, level).value)) ==> r == Ok(bs)
    ensures r.Ok? ==>
      r.value == bs ||
      (|r.value| == |bs| + 1 && r.value[..|bs|] == bs && NewId(boundaries, level) == Some(r.value[|bs|].id) &&
       r.value[|bs|].id !in Ids(bs) && Hashable(r.value[|bs|].id) && r.value[|bs|].places == [])
  {
    var e := Get(boundaries, level.key, JNull);
    if !(Truthy(e) && e.JObj?) then Ok(bs)
    else
      var id := Get(e.fields, "id", JNull);
      if !Truthy(id) then Ok(bs)
      else if !Hashable(id) then Err(TypeError)
      else if id in Ids(bs) then Ok(bs)
      else
        var (lat, lng) :- Coordinates(geometry);
        assert (bs + [Boundary(id, Get(e.fields, "name", JNull), lat, lng, [])])[..|bs|] == bs;
        Ok(bs + [Boundary(id, Get(e.fields, "name", JNull), lat, lng, [])])
  }

  /** A new boundary takes its name from the entry that introduced it and its coordinates from that location. */
  lemma AddBoundaryNew(bs: seq<Boundary>, boundaries: Record, level: Level, geometry: Json)
    requires NewId(boundaries, level).Some? && NewId(boundaries, level).value !in Ids(bs)
    requires Hashable(NewId(boundaries, level).value) && Coordinates(geometry).Ok?
    ensures AddBoundary(bs, boundaries, level, geometry) ==
      Ok(bs + [Boundary(NewId(boundaries, level).value, Get(boundaries[level.key].fields, "name", JNull),
                        Coordinates(geometry).value.0, Coordinates(geometry).value.1, [])])
  {
  }

  /** The strategy a location is kept with, if any: a non-empty one with truthy `results`. */
  predicate Located(location: Json) {
    location.JObj? &&
    var g := Get(location.fields, "geocode", EmptyObj);
    Truthy(g) && g.JObj? && Truthy(Get(g.fields, "results", JNull))
  }

  /** The place a kept location becomes: a copy whose strategy has no `validated` and no `rationale`. */
  function Place(location: Record, geocode: Record): (r: Record)
    ensures r.Keys == location.Keys + {"geocode"}
    ensures forall k :: k in location && k != "geocode" ==> r[k] == location[k]
    ensures r["geocode"] == JObj(geocode - Metadata)
  {
    location["geocode" := JObj(Pop(geocode, Metadata))]
  }

  /**
   * One iteration of the first loop. A location that is not a dict raises; one with an empty
   * strategy or falsy `results` is skipped; otherwise each level is handled in turn and the
   * location becomes a place. A non-empty strategy, `results` or `boundaries` that is not a
   * dict raises AttributeError.
   */
  function CollectOne(acc: Collected, location: Json): Result<Collected> {
    if !location.JObj? then Err(AttributeError)
    else
      var geocode := Get(location.fields, "geocode", EmptyObj);
      if !Truthy(geocode) then Ok(acc)
      else
        var results :- GetFrom(geocode, "results", JNull);
        if !Truthy(results) then Ok(acc)
        else
          if !results.JObj? then Err(AttributeError)
          else
            var boundaries := Get(results.fields, "boundaries", EmptyObj);
            var geometry := Get(results.fields, "geometry", EmptyObj);
            if !boundaries.JObj? then Err(AttributeError)
            else
              var b := boundaries.fields;
              var states :- AddBoundary(acc.lists[0], b, Levels[0], geometry);
              var counties :- AddBoundary(acc.lists[1], b, Levels[1], geometry);
              var cities :- AddBoundary(acc.lists[2], b, Levels[2], geometry);
              var neighborhoods :- AddBoundary(acc.lists[3], b, Levels[3], geometry);
              Ok(Collected([states, counties, cities, neighborhoods], acc.places + [Place(location.fields, geocode.fields)]))
  }

  /** The first loop over the locations. */
  function Collect(locations: seq<Json>): Result<Collected> {
    FoldResult(locations, Start, CollectOne)
  }

  /** The geometry and boundaries of a located location's results. */
  function ResultsOf(location: Json): Json
    requires Located(location)
  {
    location.fields["geocode"].fields["results"]
  }

  /** A successful iteration on a located location handles each level with `AddBoundary`. */
  lemma CollectOneLevels(acc: Collected, location: Json)
    requires CollectOne(acc, location).Ok?
    ensures var r := CollectOne(acc, location).value;
      if Located(location) then
        var results := ResultsOf(location);
        results.JObj? && Get(results.fields, "boundaries", EmptyObj).JObj? &&
        r.places == acc.places + [Place(location.fields, location.fields["geocode"].fields)] &&
        forall j :: 0 <= j < 4 ==>
          var added := AddBoundary(acc.lists[j], Get(results.fields, "boundaries", EmptyObj).fields, Levels[j],
                                   Get(results.fields, "geometry", EmptyObj));
          added.Ok? && r.lists[j] == added.value
      else r == acc
  {
  }

  // ---------------------------------------------------------------- second pass

  /** `place.get('id', place.get('location'))`: the id a boundary lists a place by. */
  function PlaceId(place: Record): Json {
    Get(place, "id", Get(place, "location", JNull))
  }

  /**
   * `boundaries.get(key, {}).get('id')` at one level of one place: the id the place refers
   * to there. Each step raises AttributeError on a value that is not a dict, and the set
   * lookup raises TypeError on an id that cannot be hashed.
   */
  function RefAt(boundaries: Json, level: Level): Result<Json> {
    var entry :- GetFrom(boundaries, level.key, EmptyObj);
    var id :- GetFrom(entry, "id", JNull);
    if !Hashable(id) then Err(TypeError) else Ok(id)
  }

  function RefId(place: Record, level: Level): Result<Json> {
    var results :- GetFrom(Get(place, "geocode", EmptyObj), "results", EmptyObj);
    var boundaries :- GetFrom(results, "boundaries", EmptyObj);
    RefAt(boundaries, level)
  }

  /** `Attach`'s effect on one level's list: the place's id goes to the boundary it refers to. */
  function AttachAt(bs: seq<Boundary>, boundaries: Json, level: Level, pid: Json): Result<seq<Boundary>> {
    var ref :- RefAt(boundaries, level);
    Ok(Attached(bs, ref, pid))
  }

  /** The inner loop: the place's id is appended to every boundary whose id is the one referred to. */
  function Attached(bs: seq<Boundary>, ref: Json, pid: Json): (r: seq<Boundary>)
    ensures |r| == |bs| && Ids(r) == Ids(bs)
  {
    seq(|bs|, k requires 0 <= k < |bs| => if bs[k].id == ref then bs[k].(places := bs[k].places + [pid]) else bs[k])
  }

  /**
   * One iteration of the second loop: the place's `results` and `boundaries` are read once,
   * then each level in turn attaches the place's id; the first step that raises is the error.
   */
  function AttachPlace(lists: Lists, place: Record): Result<Lists> {
    var results :- GetFrom(Get(place, "geocode", EmptyObj), "results", EmptyObj);
    var boundaries :- GetFrom(results, "boundaries", EmptyObj);
    var pid := PlaceId(place);
    var states :- AttachAt(lists[0], boundaries, Levels[0], pid);
    var counties :- AttachAt(lists[1], boundaries, Levels[1], pid);
    var cities :- AttachAt(lists[2], boundaries, Levels[2], pid);
    var neighborhoods :- AttachAt(lists[3], boundaries, Levels[3], pid);
    Ok([states, counties, cities, neighborhoods])
  }

  /** A successful iteration attaches the place at each level to the boundary `RefId` names. */
  lemma AttachPlaceAt(lists: Lists, place: Record)
    requires AttachPlace(lists, place).Ok?
    ensures forall j :: 0 <= j < 4 ==>
      RefId(place, Levels[j]).Ok? &&
      AttachPlace(lists, place).value[j] == Attached(lists[j], RefId(place, Levels[j]).value, PlaceId(place))
  {
  }

  /** The second loop over the places. */
  function Associate(lists: Lists, places: seq<Record>): Result<Lists> {
    FoldResult(places, lists, AttachPlace)
  }

  /** The ids of the places that refer to `id` at a level, in place order. */
  function Members(places: seq<Record>, level: Level, id: Json): (r: seq<Json>)
    ensures |r| <= |places|
    decreases |places|
  {
    if places == [] then []
    else
      var last := places[|places| - 1];
      Members(places[..|places| - 1], level, id) + (if RefId(last, level) == Ok(id) then [PlaceId(last)] else [])
  }

  /** What `_process_boundaries` returns: the boundary lists and the places. */
  datatype Organization = Organization(lists: Lists, places: seq<Record>)

  function Organized(locations: seq<Json>): Result<Organization> {
    var c :- Collect(locations);
    var lists :- Associate(c.lists, c.places);
    Ok(Organization(lists, c.places))
  }

  // ---------------------------------------------------------------- the imperative loops

  method ProcessBoundaries(locations: seq<Json>) returns (r: Result<Organization>)
    ensures r == Organized(locations)
  {
    var collected, seen :- CollectLocations(locations);
    var lists :- AssociatePlaces(collected.lists, seen, collected.places);
    return Ok(Organization(lists, collected.places));
  }

  /** The ids seen at each level are those of the boundary lists. */
  ghost predicate SeenIds(seen: seq<set<Json>>, lists: Lists) {
    |seen| == 4 && Seen(seen[0], lists[0]) && Seen(seen[1], lists[1]) && Seen(seen[2], lists[2]) && Seen(seen[3], lists[3])
  }

  ghost predicate Seen(seen: set<Json>, bs: seq<Boundary>) {
    forall x :: x in seen <==> x in Ids(bs)
  }

  /** The first loop, with the sets of ids seen at each level. */
  method CollectLocations(locations: seq<Json>) returns (r: Result<Collected>, seen: seq<set<Json>>)
    ensures r == Collect(locations)
    ensures r.Ok? ==> SeenIds(seen, r.value.lists)
  {
    var acc := Start;
    seen := [{}, {}, {}, {}];
    for i := 0 to |locations|
      invariant Collect(locations[..i]) == Ok(acc)
      invariant SeenIds(seen, acc.lists)
    {
      FoldResultStep(locations, i, Start, CollectOne);
      var next;
      next, seen :- VisitLocation(acc, seen, locations[i]);
      acc := next;
    }
    assert locations[..|locations|] == locations;
    return Ok(acc), seen;
  }

  /** One iteration of the first loop. */
  method VisitLocation(acc: Collected, seen: seq<set<Json>>, location: Json) returns (r: Result<Collected>, seen': seq<set<Json>>)
    requires SeenIds(seen, acc.lists)
    ensures r == CollectOne(acc, location)
    ensures r.Ok? ==> SeenIds(seen', r.value.lists)
  {
    seen' := seen;
    if !location.JObj? {
      return Err(AttributeError), seen';
    }
    var geocode := Get(location.fields, "geocode", EmptyObj);
    if !Truthy(geocode) {
      return Ok(acc), seen';
    }
    var results :- GetFrom(geocode, "results", JNull);
    if !Truthy(results) {
      return Ok(acc), seen';
    }
    if !results.JObj? {
      return Err(AttributeError), seen';
    }
    var boundaries := Get(results.fields, "boundaries", EmptyObj);
    var geometry := Get(results.fields, "geometry", EmptyObj);
    if !boundaries.JObj? {
      return Err(AttributeError), seen';
    }
    var states, s0 :- Introduce(acc.lists[0], seen[0], boundaries.fields, Levels[0], geometry);
    var counties, s1 :- Introduce(acc.lists[1], seen[1], boundaries.fields, Levels[1], geometry);
    var cities, s2 :- Introduce(acc.lists[2], seen[2], boundaries.fields, Levels[2], geometry);
    var neighborhoods, s3 :- Introduce(acc.lists[3], seen[3], boundaries.fields, Levels[3], geometry);
    var place := location.fields;
    var geocodeCopy := geocode.fields;
    geocodeCopy := geocodeCopy - {"validated"};
    geocodeCopy := geocodeCopy - {"rationale"};
    assert geocodeCopy == Pop(geocode.fields, Metadata);
    place := place["geocode" := JObj(geocodeCopy)];
    seen' := [s0, s1, s2, s3];
    return Ok(Collected([states, counties, cities, neighborhoods], acc.places + [place])), seen';
  }

  /** The second loop. */
  method AssociatePlaces(collected: Lists, seen: seq<set<Json>>, places: seq<Record>) returns (r: Result<Lists>)
    requires SeenIds(seen, collected)
    ensures r == Associate(collected, places)
  {
    var lists := collected;
    for i := 0 to |places|
      invariant Associate(collected, places[..i]) == Ok(lists)
      invariant SeenIds(seen, lists)
    {
      FoldResultStep(places, i, collected, AttachPlace);
      var next :- VisitPlace(lists, seen, places[i]);
      lists := next;
    }
    assert places[..|places|] == places;
    return Ok(lists);
  }

  /** One iteration of the second loop. */
  method VisitPlace(lists: Lists, seen: seq<set<Json>>, place: Record) returns (r: Result<Lists>)
    requires SeenIds(seen, lists)
    ensures r == AttachPlace(lists, place)
    ensures r.Ok? ==> SeenIds(seen, r.value)
  {
    var geocode := Get(place, "geocode", EmptyObj);
    var results :- GetFrom(geocode, "results", EmptyObj);
    var boundaries :- GetFrom(results, "boundaries", EmptyObj);
    var placeId := Get(place, "id", Get(place, "location", JNull));
    var states :- Attach(lists[0], seen[0], boundaries, Levels[0], placeId);
    var counties :- Attach(lists[1], seen[1], boundaries, Levels[1], placeId);
    var cities :- Attach(lists[2], seen[2], boundaries, Levels[2], placeId);
    var neighborhoods :- Attach(lists[3], seen[3], boundaries, Levels[3], placeId);
    return Ok([states, counties, cities, neighborhoods]);
  }

  /** One level of the first loop, with the set of ids seen at that level. */
  method Introduce(bs: seq<Boundary>, seen: set<Json>, boundaries: Record, level: Level, geometry: Json)
    returns (r: Result<seq<Boundary>>, seen': set<Json>)
    requires Seen(seen, bs)
    ensures r == AddBoundary(bs, boundaries, level, geometry)
    ensures r.Ok? ==> Seen(seen', r.value)
  {
    seen' := seen;
    var entry := Get(boundaries, level.key, JNull);
    if !(Truthy(entry) && entry.JObj?) {
      return Ok(bs), seen';
    }
    var id := Get(entry.fields, "id", JNull);
    if !Truthy(id) {
      return Ok(bs), seen';
    }
    if !Hashable(id) {
      return Err(TypeError), seen';
    }
    if id in seen {
      return Ok(bs), seen';
    }
    seen' := seen + {id};
    var coordinates :- Coordinates(geometry);
    var b := Boundary(id, Get(entry.fields, "name", JNull), coordinates.0, coordinates.1, []);
    IdsAppend(bs, b);
    r := Ok(bs + [b]);
  }

  /** One level of the second loop: the place's id goes to the boundary it refers to. */
  method Attach(bs: seq<Boundary>, seen: set<Json>, boundaries: Json, level: Level, pid: Json)
    returns (r: Result<seq<Boundary>>)
    requires Seen(seen, bs)
    ensures r == AttachAt(bs, boundaries, level, pid)
  {
    var entry :- GetFrom(boundaries, level.key, EmptyObj);
    var id :- GetFrom(entry, "id", JNull);
    if !Hashable(id) {
      return Err(TypeError);
    }
    var out := bs;
    if id in seen {
      for k := 0 to |bs|
        invariant |out| == |bs|
        invariant forall m :: 0 <= m < |bs| ==> out[m] == (if m < k then Attached(bs, id, pid)[m] else bs[m])
      {
        if out[k].id == id {
          out := out[k := out[k].(places := out[k].places + [pid])];
        }
      }
    } else {
      assert forall m :: 0 <= m < |bs| ==> bs[m].id != id;
    }
    assert out == Attached(bs, id, pid);
    return Ok(out);
  }

  // ---------------------------------------------------------------- properties of the first loop

  /** A level's list as the first loop leaves it: distinct, truthy, hashable ids and no places yet. */
  ghost predicate Distinct(bs: seq<Boundary>) {
    NoDup(Ids(bs)) && forall k :: 0 <= k < |bs| ==> Truthy(bs[k].id) && Hashable(bs[k].id) && bs[k].places == []
  }

  /** The place a located location becomes. */
  function PlaceOf(location: Json): Record
    requires Located(location)
  {
    Place(location.fields, location.fields["geocode"].fields)
  }

  /** The places the first loop makes, as a reference definition: the located locations, in order. */
  function PlacesOf(locations: seq<Json>): (r: seq<Record>)
    ensures |r| <= |locations|
    decreases |locations|
  {
    if locations == [] then []
    else
      var last := locations[|locations| - 1];
      PlacesOf(locations[..|locations| - 1]) + (if Located(last) then [PlaceOf(last)] else [])
  }

  /** Every truthy id a place refers to at a level is the id of one of that level's boundaries. */
  ghost predicate Covered(places: seq<Record>, lists: Lists) {
    forall i, j ::
      (0 <= i < |places| && 0 <= j < 4 && RefId(places[i], Levels[j]).Ok? && Truthy(RefId(places[i], Levels[j]).value)) ==>
      RefId(places[i], Levels[j]).value in Ids(lists[j])
  }

  /** Some place refers to `id` at `level`. */
  ghost predicate RefersTo(places: seq<Record>, level: Level, id: Json) {
    exists i :: 0 <= i < |places| && RefId(places[i], level) == Ok(id)
  }

  /** Every boundary is referred to by at least one place. */
  ghost predicate Referenced(places: seq<Record>, lists: Lists) {
    forall j, k :: 0 <= j < 4 && 0 <= k < |lists[j]| ==> RefersTo(places, Levels[j], lists[j][k].id)
  }

  ghost predicate Invariant(c: Collected) {
    Distinct(c.lists[0]) && Distinct(c.lists[1]) && Distinct(c.lists[2]) && Distinct(c.lists[3]) &&
    Covered(c.places, c.lists) && Referenced(c.places, c.lists)
  }

  /** A level grows by at most a new boundary, keeps its ids distinct, and then holds the id the entry introduces. */
  lemma AddBoundaryKeeps(bs: seq<Boundary>, boundaries: Record, level: Level, geometry: Json)
    requires Distinct(bs) && AddBoundary(bs, boundaries, level, geometry).Ok?
    ensures var r := AddBoundary(bs, boundaries, level, geometry).value;
      Distinct(r) && bs <= r &&
      (NewId(boundaries, level).Some? ==> NewId(boundaries, level).value in Ids(r)) &&
      forall k :: |bs| <= k < |r| ==> NewId(boundaries, level) == Some(r[k].id)
  {
    var r := AddBoundary(bs, boundaries, level, geometry).value;
    if r != bs {
      var b := r[|bs|];
      assert r == bs + [b];
      IdsAppend(bs, b);
      NoDupAppend(Ids(bs), [b.id]);
      assert Ids(r)[|bs|] == b.id;
    }
  }

  /** The reference a new place makes at a level is the one its location's boundaries introduce. */
  lemma PlaceOfRef(location: Json, level: Level)
    requires Located(location) && ResultsOf(location).JObj?
    requires Get(ResultsOf(location).fields, "boundaries", EmptyObj).JObj?
    ensures var b := Get(ResultsOf(location).fields, "boundaries", EmptyObj).fields;
      var ref := RefId(PlaceOf(location), level);
      (ref.Ok? && Truthy(ref.value) ==> NewId(b, level) == Some(ref.value)) &&
      (NewId(b, level).Some? && Hashable(NewId(b, level).value) ==> ref == Ok(NewId(b, level).value))
  {
    var g := location.fields["geocode"].fields;
    assert PlaceOf(location)["geocode"] == JObj(g - Metadata);
    assert "results" in g - Metadata;
  }

  lemma IdsPrefix(a: seq<Boundary>, b: seq<Boundary>)
    requires a <= b
    ensures forall x :: x in Ids(a) ==> x in Ids(b)
  {
    forall x | x in Ids(a) ensures x in Ids(b) {
      var k :| 0 <= k < |a| && Ids(a)[k] == x;
      assert Ids(b)[k] == x;
    }
  }

  /** The `boundaries` of a location the first loop handles without raising. */
  function BoundariesOf(location: Json): Record
    requires Located(location) && ResultsOf(location).JObj? && Get(ResultsOf(location).fields, "boundaries", EmptyObj).JObj?
  {
    Get(ResultsOf(location).fields, "boundaries", EmptyObj).fields
  }

  /** One iteration on a located location, level by level. */
  lemma CollectOneLists(acc: Collected, location: Json)
    requires Invariant(acc) && CollectOne(acc, location).Ok? && Located(location)
    ensures ResultsOf(location).JObj? && Get(ResultsOf(location).fields, "boundaries", EmptyObj).JObj?
    ensures forall j :: 0 <= j < 4 ==>
      Distinct(CollectOne(acc, location).value.lists[j]) &&
      acc.lists[j] <= CollectOne(acc, location).value.lists[j] &&
      (NewId(BoundariesOf(location), Levels[j]).Some? ==>
         NewId(BoundariesOf(location), Levels[j]).value in Ids(CollectOne(acc, location).value.lists[j])) &&
      (forall k :: |acc.lists[j]| <= k < |CollectOne(acc, location).value.lists[j]| ==>
         NewId(BoundariesOf(location), Levels[j]) == Some(CollectOne(acc, location).value.lists[j][k].id)) &&
      (forall x :: x in Ids(acc.lists[j]) ==> x in Ids(CollectOne(acc, location).value.lists[j]))
  {
    CollectOneLevels(acc, location);
    var r := CollectOne(acc, location).value;
    var geometry := Get(ResultsOf(location).fields, "geometry", EmptyObj);
    forall j | 0 <= j < 4
      ensures Distinct(r.lists[j]) && acc.lists[j] <= r.lists[j]
      ensures NewId(BoundariesOf(location), Levels[j]).Some? ==> NewId(BoundariesOf(location), Levels[j]).value in Ids(r.lists[j])
      ensures forall k :: |acc.lists[j]| <= k < |r.lists[j]| ==> NewId(BoundariesOf(location), Levels[j]) == Some(r.lists[j][k].id)
      ensures forall x :: x in Ids(acc.lists[j]) ==> x in Ids(r.lists[j])
    {
      assert Distinct(acc.lists[j]) by {
        assert j == 0 || j == 1 || j == 2 || j == 3;
      }
      AddBoundaryKeeps(acc.lists[j], BoundariesOf(location), Levels[j], geometry);
      IdsPrefix(acc.lists[j], r.lists[j]);
    }
  }

  /** One iteration keeps every reference covered. */
  lemma CollectOneCovered(acc: Collected, location: Json)
    requires Invariant(acc) && CollectOne(acc, location).Ok? && Located(location)
    ensures Covered(CollectOne(acc, location).value.places, CollectOne(acc, location).value.lists)
  {
    CollectOneLevels(acc, location);
    CollectOneLists(acc, location);
    var r := CollectOne(acc, location).value;
    var n := |acc.places|;
    forall i, j | 0 <= i < |r.places| && 0 <= j < 4 && RefId(r.places[i], Levels[j]).Ok? &&
                  Truthy(RefId(r.places[i], Levels[j]).value)
      ensures RefId(r.places[i], Levels[j]).value in Ids(r.lists[j])
    {
      if i < n {
        assert r.places[i] == acc.places[i];
      } else {
        PlaceOfRef(location, Levels[j]);
      }
    }
  }

  /** A boundary that was referenced stays referenced when places and its level only grow. */
  lemma ReferencedKept(places: seq<Record>, lists: Lists, places': seq<Record>, lists': Lists, j: int, k: int)
    requires Referenced(places, lists) && places <= places'
    requires 0 <= j < 4 && lists[j] <= lists'[j] && 0 <= k < |lists[j]|
    ensures RefersTo(places', Levels[j], lists'[j][k].id)
  {
    assert lists'[j][k] == lists[j][k];
    assert RefersTo(places, Levels[j], lists[j][k].id);
    var i :| 0 <= i < |places| && RefId(places[i], Levels[j]) == Ok(lists[j][k].id);
    assert places'[i] == places[i];
  }

  /** A boundary one iteration introduces is referenced by the place it adds. */
  lemma ReferencedNew(acc: Collected, location: Json, j: int, k: int)
    requires Invariant(acc) && CollectOne(acc, location).Ok? && Located(location)
    requires 0 <= j < 4 && |acc.lists[j]| <= k < |CollectOne(acc, location).value.lists[j]|
    ensures var r := CollectOne(acc, location).value;
      RefersTo(r.places, Levels[j], r.lists[j][k].id)
  {
    CollectOneLevels(acc, location);
    CollectOneLists(acc, location);
    var r := CollectOne(acc, location).value;
    var n := |acc.places|;
    var id := r.lists[j][k].id;
    assert NewId(BoundariesOf(location), Levels[j]) == Some(id);
    assert Distinct(r.lists[j]);
    assert Hashable(id);
    PlaceOfRef(location, Levels[j]);
    assert r.places[n] == PlaceOf(location);
    assert RefId(r.places[n], Levels[j]) == Ok(id);
  }

  /** One iteration keeps every boundary referenced. */
  lemma CollectOneReferenced(acc: Collected, location: Json)
    requires Invariant(acc) && CollectOne(acc, location).Ok? && Located(location)
    ensures Referenced(CollectOne(acc, location).value.places, CollectOne(acc, location).value.lists)
  {
    CollectOneLevels(acc, location);
    CollectOneLists(acc, location);
    var r := CollectOne(acc, location).value;
    forall j, k | 0 <= j < 4 && 0 <= k < |r.lists[j]|
      ensures RefersTo(r.places, Levels[j], r.lists[j][k].id)
    {
      if k < |acc.lists[j]| {
        ReferencedKept(acc.places, acc.lists, r.places, r.lists, j, k);
      } else {
        ReferencedNew(acc, location, j, k);
      }
    }
  }

  /** One iteration of the first loop keeps the invariant, only appends to the lists, and adds the location's place. */
  lemma CollectOneInvariant(acc: Collected, location: Json)
    requires Invariant(acc) && CollectOne(acc, location).Ok?
    ensures var r := CollectOne(acc, location).value;
      Invariant(r) &&
      (forall j :: 0 <= j < 4 ==> acc.lists[j] <= r.lists[j]) &&
      r.places == acc.places + (if Located(location) then [PlaceOf(location)] else [])
  {
    CollectOneLevels(acc, location);
    if Located(location) {
      CollectOneLists(acc, location);
      CollectOneCovered(acc, location);
      CollectOneReferenced(acc, location);
      var r := CollectOne(acc, location).value;
      assert Distinct(r.lists[0]) && Distinct(r.lists[1]) && Distinct(r.lists[2]) && Distinct(r.lists[3]);
    }
  }

  /**
   * The first loop's invariant: at every level the ids are distinct, truthy and hashable, every
   * truthy id a place refers to is one of the boundaries, and every boundary is referred to
   * by some place; the places are the located locations, in order.
   */
  lemma {:induction false} CollectSpec(locations: seq<Json>)
    requires Collect(locations).Ok?
    ensures Invariant(Collect(locations).value)
    ensures Collect(locations).value.places == PlacesOf(locations)
    decreases |locations|
  {
    if locations != [] {
      var init := locations[..|locations| - 1];
      var last := locations[|locations| - 1];
      assert Collect(init).Ok?;
      CollectSpec(init);
      CollectOneInvariant(Collect(init).value, last);
    }
  }

  /** The lists only grow: the boundaries known after a prefix of the locations are a prefix of the final ones. */
  lemma {:induction false} CollectGrows(locations: seq<Json>, n: nat)
    requires n <= |locations| && Collect(locations).Ok?
    ensures Collect(locations[..n]).Ok?
    ensures forall j :: 0 <= j < 4 ==> Collect(locations[..n]).value.lists[j] <= Collect(locations).value.lists[j]
    decreases |locations| - n
  {
    if n == |locations| {
      assert locations[..n] == locations;
    } else {
      CollectGrows(locations, n + 1);
      var longer := locations[..n + 1];
      assert longer[..n] == locations[..n];
      assert Collect(locations[..n]).Ok?;
      CollectSpec(locations[..n]);
      CollectOneInvariant(Collect(locations[..n]).value, locations[n]);
    }
  }

  // ---------------------------------------------------------------- properties of the second loop

  /** A place is listed under a boundary exactly when it refers to that boundary's id, once per place, in place order. */
  lemma {:induction false} MembersSpec(places: seq<Record>, level: Level, id: Json)
    ensures forall x :: x in Members(places, level, id) <==>
      exists i :: 0 <= i < |places| && RefId(places[i], level) == Ok(id) && PlaceId(places[i]) == x
    decreases |places|
  {
    if places != [] {
      var init := places[..|places| - 1];
      MembersSpec(init, level, id);
      assert forall i :: 0 <= i < |init| ==> init[i] == places[i];
    }
  }

  /** The second loop leaves every boundary as it was, with the ids of the places that refer to it appended. */
  lemma {:induction false} AssociateSpec(lists: Lists, places: seq<Record>)
    requires Associate(lists, places).Ok?
    ensures forall j :: 0 <= j < 4 ==> |Associate(lists, places).value[j]| == |lists[j]|
    ensures forall j, k :: 0 <= j < 4 && 0 <= k < |lists[j]| ==>
      Associate(lists, places).value[j][k] ==
      lists[j][k].(places := lists[j][k].places + Members(places, Levels[j], lists[j][k].id))
    decreases |places|
  {
    if places != [] {
      var init := places[..|places| - 1];
      var last := places[|places| - 1];
      assert Associate(lists, init).Ok?;
      AssociateSpec(lists, init);
      var prev := Associate(lists, init).value;
      AttachPlaceAt(prev, last);
      forall j, k | 0 <= j < 4 && 0 <= k < |lists[j]|
        ensures Associate(lists, places).value[j][k] ==
          lists[j][k].(places := lists[j][k].places + Members(places, Levels[j], lists[j][k].id))
      {
        var m := Members(init, Levels[j], lists[j][k].id);
        assert lists[j][k].places + m + [PlaceId(last)] == lists[j][k].places + (m + [PlaceId(last)]);
      }
    }
  }

  // ---------------------------------------------------------------- what `_process_boundaries` returns

  /**
   * A successful run lists every located location as a place, in order, and at each level
   * holds distinct boundaries with truthy ids. Each boundary lists exactly the places that
   * refer to it, in place order, and at least one; every place that refers to a truthy id
   * at a level is listed under the boundary with that id.
   */
  lemma OrganizedSpec(locations: seq<Json>)
    requires Organized(locations).Ok?
    ensures var o := Organized(locations).value;
      o.places == PlacesOf(locations) &&
      forall j :: 0 <= j < 4 ==>
        NoDup(Ids(o.lists[j])) &&
        (forall k :: 0 <= k < |o.lists[j]| ==>
           Truthy(o.lists[j][k].id) &&
           o.lists[j][k].places == Members(o.places, Levels[j], o.lists[j][k].id) &&
           o.lists[j][k].places != []) &&
        (forall i :: 0 <= i < |o.places| && RefId(o.places[i], Levels[j]).Ok? && Truthy(RefId(o.places[i], Levels[j]).value) ==>
           exists k :: 0 <= k < |o.lists[j]| && o.lists[j][k].id == RefId(o.places[i], Levels[j]).value &&
             PlaceId(o.places[i]) in o.lists[j][k].places)
  {
    CollectSpec(locations);
    forall j | 0 <= j < 4
      ensures var o := Organized(locations).value;
        NoDup(Ids(o.lists[j])) &&
        (forall k :: 0 <= k < |o.lists[j]| ==>
           Truthy(o.lists[j][k].id) &&
           o.lists[j][k].places == Members(o.places, Levels[j], o.lists[j][k].id) &&
           o.lists[j][k].places != []) &&
        (forall i :: 0 <= i < |o.places| && RefId(o.places[i], Levels[j]).Ok? && Truthy(RefId(o.places[i], Levels[j]).value) ==>
           exists k :: 0 <= k < |o.lists[j]| && o.lists[j][k].id == RefId(o.places[i], Levels[j]).value &&
             PlaceId(o.places[i]) in o.lists[j][k].places)
    {
      OrganizedBoundaries(locations, j);
      OrganizedPlaces(locations, j);
    }
  }

  /** After the second loop, a boundary that was referenced holds exactly the places that refer to it, and at least one. */
  lemma AssociatedBoundary(c: Collected, lists: Lists, j: nat, k: nat)
    requires j < 4 && k < |c.lists[j]| && k < |lists[j]|
    requires Distinct(c.lists[j]) && Referenced(c.places, c.lists) && Associate(c.lists, c.places) == Ok(lists)
    ensures Truthy(lists[j][k].id) && lists[j][k].id == c.lists[j][k].id
    ensures lists[j][k].places == Members(c.places, Levels[j], lists[j][k].id) && lists[j][k].places != []
  {
    AssociateSpec(c.lists, c.places);
    var id := c.lists[j][k].id;
    assert RefersTo(c.places, Levels[j], id);
    MembersSpec(c.places, Levels[j], id);
    var i :| 0 <= i < |c.places| && RefId(c.places[i], Levels[j]) == Ok(id);
    assert PlaceId(c.places[i]) in Members(c.places, Levels[j], id);
  }

  /** The boundaries of one level of a successful run, with the places that refer to them. */
  lemma OrganizedBoundaries(locations: seq<Json>, j: nat)
    requires Organized(locations).Ok? && j < 4
    ensures var o := Organized(locations).value;
      NoDup(Ids(o.lists[j])) &&
      forall k :: 0 <= k < |o.lists[j]| ==>
        Truthy(o.lists[j][k].id) &&
        o.lists[j][k].places == Members(o.places, Levels[j], o.lists[j][k].id) &&
        o.lists[j][k].places != []
  {
    var c := Collect(locations).value;
    CollectSpec(locations);
    var lists := Associate(c.lists, c.places).value;
    assert Organized(locations) == Ok(Organization(lists, c.places));
    AssociateSpec(c.lists, c.places);
    assert Distinct(c.lists[j]) by {
      assert j == 0 || j == 1 || j == 2 || j == 3;
    }
    forall k | 0 <= k < |lists[j]|
      ensures Truthy(lists[j][k].id)
      ensures lists[j][k].id == c.lists[j][k].id
      ensures lists[j][k].places == Members(c.places, Levels[j], lists[j][k].id)
      ensures lists[j][k].places != []
    {
      AssociatedBoundary(c, lists, j, k);
    }
    assert Ids(lists[j]) == Ids(c.lists[j]);
  }

  /** Every place of a successful run that refers to a truthy id at a level is listed under that boundary. */
  lemma OrganizedPlaces(locations: seq<Json>, j: nat)
    requires Organized(locations).Ok? && j < 4
    ensures var o := Organized(locations).value;
      forall i :: 0 <= i < |o.places| && RefId(o.places[i], Levels[j]).Ok? && Truthy(RefId(o.places[i], Levels[j]).value) ==>
        exists k :: 0 <= k < |o.lists[j]| && o.lists[j][k].id == RefId(o.places[i], Levels[j]).value &&
          PlaceId(o.places[i]) in o.lists[j][k].places
  {
    var c := Collect(locations).value;
    CollectSpec(locations);
    AssociateSpec(c.lists, c.places);
    var o := Organized(locations).value;
    forall i | 0 <= i < |o.places| && RefId(o.places[i], Levels[j]).Ok? && Truthy(RefId(o.places[i], Levels[j]).value)
      ensures exists k ::
        0 <= k < |o.lists[j]| && o.lists[j][k].id == RefId(o.places[i], Levels[j]).value &&
        PlaceId(o.places[i]) in o.lists[j][k].places
    {
      var id := RefId(o.places[i], Levels[j]).value;
      assert id in Ids(c.lists[j]);
      var k :| 0 <= k < |c.lists[j]| && Ids(c.lists[j])[k] == id;
      MembersSpec(c.places, Levels[j], id);
      assert PlaceId(o.places[i]) in o.lists[j][k].places;
    }
  }

  /**
   * The first location to introduce an id decides its boundary: the boundaries known after
   * any prefix of the locations keep their id, name and coordinates to the end, in order.
   */
  lemma FirstSeen(locations: seq<Json>, n: nat)
    requires n <= |locations| && Organized(locations).Ok?
    ensures Collect(locations[..n]).Ok?
    ensures forall j, k :: 0 <= j < 4 && 0 <= k < |Collect(locations[..n]).value.lists[j]| ==>
      k < |Organized(locations).value.lists[j]| &&
      Organized(locations).value.lists[j][k].(places := []) == Collect(locations[..n]).value.lists[j][k]
  {
    var c := Collect(locations).value;
    CollectGrows(locations, n);
    CollectSpec(locations);
    AssociateSpec(c.lists, c.places);
    forall j, k | 0 <= j < 4 && 0 <= k < |Collect(locations[..n]).value.lists[j]|
      ensures k < |Organized(locations).value.lists[j]|
      ensures Organized(locations).value.lists[j][k].(places := []) == Collect(locations[..n]).value.lists[j][k]
    {
      assert Distinct(c.lists[j]) by {
        assert j == 0 || j == 1 || j == 2 || j == 3;
      }
      assert Collect(locations[..n]).value.lists[j][k] == c.lists[j][k];
    }
  }
}
