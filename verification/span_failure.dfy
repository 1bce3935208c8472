/**
 * What a failed span does to the rest of the pipeline. `prep_span` returns its failure
 * record `{geocode: "none", text}` in place of the span's record, so the location that
 * pass one keeps has the bare string "none" under `geocode`; pass two leaves it alone (the
 * string is truthy), and the geocoding stage then calls `.get` on that string and raises.
 */
module SpanFailure {
  import opened Wrappers
  import opened PyJson
  import opened Seqs
  import opened Prep
  import opened GeocodeStage

  /** A payload holding only the given records. */
  function PayloadOf(rs: seq<Record>): Record {
    map["locations" := FromRecords(rs)]
  }

  /**
   * A single span whose prompt file is missing: the preparation stage succeeds and leaves
   * the failure record as the payload's only location, and the geocoding stage raises
   * AttributeError on it (so the whole list goes ungeocoded).
   */
  lemma SpanFailureBreaksGeocoding(location: Record, ps: PrepServices, gs: GeocodeServices)
    requires IsSpan(location) && Truthy(Get(location, "location", JStr(""))) && !ps.spanPrompt
    ensures var failed := NoneStrategy(location["location"]);
      Prepped(PayloadOf([location]), ps) == Ok(PayloadOf([failed])) &&
      Geocoded(PayloadOf([failed]), gs) == Err(AttributeError)
  {
    DictItemsFromRecords([location]);
    ExpandFailed(location, ps);
    DispatchFailed(location["location"], ps);
    PreppedFailed(location, ps);
    GeocodeFailed(location["location"], gs);
  }

  /** Pass one turns the span into its failure record alone. */
  lemma ExpandFailed(location: Record, ps: PrepServices)
    requires IsSpan(location) && Truthy(Get(location, "location", JStr(""))) && !ps.spanPrompt
    ensures Expand([location], ps) == [NoneStrategy(location["location"])]
  {
    ConcatMapStep([location], 0, ExpandWith(ps));
    assert [location][..0] == [] && [location][..1] == [location];
  }

  /** Pass two leaves the failure record as it is. */
  lemma DispatchFailed(text: Json, ps: PrepServices)
    ensures DispatchAll([NoneStrategy(text)], ps) == Ok([NoneStrategy(text)])
  {
    var failed := NoneStrategy(text);
    assert Get(failed, "geocode", JNull) == JStr("none");
    DispatchKeepsStrategy(failed, ps);
    assert DispatchWith(ps)(failed) == Ok(failed);
    assert [failed][..0] == [];
    MapResultStep([failed], 0, DispatchWith(ps));
    assert [] + [failed] == [failed];
    assert [failed][..1] == [failed];
  }

  /** The geocoding stage raises on the failure record. */
  lemma GeocodeFailed(text: Json, gs: GeocodeServices)
    ensures Geocoded(PayloadOf([NoneStrategy(text)]), gs) == Err(AttributeError)
  {
    var failed := NoneStrategy(text);
    var items := [JObj(failed)];
    assert FromRecords([failed]) == JArr(items);
    assert GeocodeItem(JObj(failed), gs) == Err(AttributeError);
    MapResultErrAt(items, 0, GeocodeWith(gs));
  }

  lemma PreppedFailed(location: Record, ps: PrepServices)
    requires Truthy(Get(location, "location", JStr("")))
    requires DictItems(FromRecords([location])) == Ok([location])
    requires DispatchAll(Expand([location], ps), ps) == Ok([NoneStrategy(location["location"])])
    ensures Prepped(PayloadOf([location]), ps) == Ok(PayloadOf([NoneStrategy(location["location"])]))
  {
    var payload := PayloadOf([location]);
    assert Get(payload, "locations", EmptyArr) == FromRecords([location]);
    assert Truthy(FromRecords([location]));
    var processed := [NoneStrategy(location["location"])];
    assert Prepped(payload, ps) == Ok(payload["locations" := FromRecords(processed)]);
    assert payload["locations" := FromRecords(processed)] == PayloadOf(processed);
  }

  /**
   * With the evidently meant failure record the span stays a location: it keeps all its
   * fields, pass two leaves it alone and the geocoding stage skips it.
   */
  lemma FallbackSkipped(location: Record, ps: PrepServices, gs: GeocodeServices)
    ensures var r := SpanFallback(location);
      Dispatch(r, ps) == Ok(r) && GeocodeItem(JObj(r), gs) == Ok(JObj(r))
  {
  }

  /** Every failure of the fixed `prep_span` is such a fallback record. */
  lemma FixedFailures(location: Record, ps: PrepServices)
    ensures var loc := Get(location, "location", JStr(""));
      Truthy(loc) && (!ps.spanPrompt || ps.span(loc).None?) ==>
      SpanOutcomeFixed(location, ps) == One(SpanFallback(location))
    ensures SpanOutcomeOf(location, ps).Many? ==> SpanOutcomeFixed(location, ps) == SpanOutcomeOf(location, ps)
  {
  }
}
