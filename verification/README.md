# agate-ai location pipeline, modelled in Dafny

agate-ai reads a news story and finds the places it talks about. A chain of worker
stages passes one payload dictionary along. Each location stage takes the payload's
`locations` list, then filters, expands, dispatches, deduplicates or re-keys its records,
and writes the result back. The stages run in this order:

- extraction and review of location mentions;
- relevance filtering;
- geocoding preparation;
- geocoding and candidate selection;
- validation of geocoding results;
- consolidation into boundaries and places;
- localization into regions;
- finalization.

Every judgement in the pipeline comes from a collaborator: a language model, a geocoder
(Pelias or Geocodio), Azure named-entity recognition, DuckDuckGo search or the region
service. This project models the deterministic record-shaping logic around those calls
and proves what it does to the records.

How the Python program is represented:

- JSON values and Python dictionaries are the `Json` datatype of `PyJson`. A record is a
  `map<string, Json>`. Python truthiness, `dict.get` and the exceptions that attribute
  and index access raise are written out as functions there.
- A Python exception that escapes a core function is `Err(fault)` in a `Result` (module
  `Wrappers`). The fault names the Python exception class.
- Every collaborator is a function parameter: the language model, geocoders, NER,
  search, the region service, `json.loads`, `usaddress.tag`, `urlparse` and prompt-file
  reads. A collaborator that is retried is indexed by the attempt number.
- A loop in the source is a `method` with a `while` loop. Its `ensures` ties the result
  to a specification function. The source's promises are then lemmas about that function.
- A dictionary the source updates in place is a record value that the model returns.

Modules, one per source file or concern:

- `PyJson`, `PyText`, `Seqs` and `Wrappers` model the parts of Python the stages rely on.
- `Retry` is the bounded first-success retry loop the stages share.
- `StateAbbrevs` and `GeocodeUtils` cover `utils/geocode.py`.
- `LlmJson` covers `utils/llm.py`; `UrlRepair` covers `utils/scrape.py`.
- `ExtractReview`, `Prep` (with `SpanFailure`), `GeocodeStage`, `GeocodeValidation`,
  `GeocodeConsolidate`, `RelevanceConsolidate`, `ReviewBoundaries` and
  `ReviewConsolidate`, `Localize` and `Finalize` cover the stages under
  `worker/tasks/locations/`.
- `LegacyTasks` covers `worker/tasks/locations.py`.
- `EditorialReview` covers `worker-old/workflows.py`.

## Model

| member | source | states |
|---|---|---|
| UrlRepair.AddScheme | utils/scrape.py:45-46 | a URL left without `http://` or `https://` gets `https://` in front of it, minus its leading slashes; the result always starts with a scheme |
| UrlRepair.RepairScheme | utils/scrape.py:39-46 | after the three repairs, every URL starts with `http://` or `https://` |
| UrlRepair.NormalizeUrl | utils/scrape.py:34-56 | `_normalize_url` returns the parser's rebuilt URL when parsing succeeds and the repaired URL when it raises |
| UrlRepair.RepairKeepsScheme | utils/scrape.py:39-46 | a URL that already starts with `http://` or `https://` passes through the repairs unchanged |
| UrlRepair.RepairIdempotent | utils/scrape.py:39-46 | repairing a repaired URL changes nothing |
| UrlRepair.RepairHttpSingleSlash | utils/scrape.py:39-40 | a URL starting with `http:/` and one slash has every `http:/` in it replaced by `http://`, and nothing else happens |
| UrlRepair.RepairHttpsSingleSlash | utils/scrape.py:41-42 | the same for a URL starting with `https:/` and one slash |
| UrlRepair.RepairNoScheme | utils/scrape.py:45-46 | a URL that starts with neither `http:/` nor `https:/` becomes `https://` plus the URL without its leading slashes |
| UrlRepair.NormalizeUrlParseFailure | utils/scrape.py:49-56 | when the URL parser raises, the repaired URL is returned, and it starts with a scheme |
| UrlRepair.FixHttpDamagesEmbeddedUrl | utils/scrape.py:39-40 | a single-slash `http:/` URL that carries a second `http://` URL gets a third slash inserted into the carried URL too, so the result is not the input with one slash added after its scheme |
| UrlRepair.RepairSchemeOnce | utils/scrape.py:39-46 | the repair as meant: only the slash missing after the scheme is inserted; the result starts with a scheme |
| UrlRepair.RepairSchemeOnceSpec | utils/scrape.py:39-46 | the meant repair keeps everything after a single-slash scheme, leaves a URL with a scheme unchanged and is idempotent |
| LlmJson.RequestKwargs | utils/llm.py:23-33 | the call's arguments are the model, the messages and temperature 0, plus `response_format` exactly when a JSON object is forced |
| LlmJson.RequestKwargsShape | utils/llm.py:23-33 | the request names `gpt-4o` with temperature 0, carries the system and the user prompt in that order, and asks for a JSON object exactly when `force_object` is set |
| LlmJson.Decode | utils/llm.py:49-54 | a text the JSON parser rejects re-raises as a ValueError; otherwise the parsed value comes back |
| LlmJson.CleanContent | utils/llm.py:42-47 | a reply that does not start with three backticks is left as it is; a fenced one comes out with no whitespace at either end |
| LlmJson.GetJson | utils/llm.py:36-54 | a failed call raises, a blank reply raises ValueError, and any value returned is the parse of the cleaned, stripped reply |
| LlmJson.GetJsonFailures | utils/llm.py:35-39 | a failed call is re-raised, and a reply that is empty once stripped raises ValueError |
| LlmJson.GetJsonSpec | utils/llm.py:36-54 | the result is always what the parser made of the cleaned reply, never a default: success exactly when the reply exists, is not blank and its cleaned text parses |
| LlmJson.GetJsonPlain | utils/llm.py:42-50 | a reply without an opening fence is parsed as it is, once stripped |
| LlmJson.CleanContentBlock | utils/llm.py:42-47 | a fenced block whose first line holds the fence and a tag cleans to its stripped body, whatever the body holds |
| LlmJson.GetJsonTrimmed | utils/llm.py:36-50 | a non-blank reply that stripping leaves alone goes through the fence cleanup and then the parser |
| LlmJson.BlockTrimmed | utils/llm.py:36-39 | a fenced block is not blank and stripping leaves it alone |
| LlmJson.GetJsonBlock | utils/llm.py:36-50 | for a fenced block only the body is parsed |
| LlmJson.CleanContentOneLine | utils/llm.py:44-46 | a fenced reply without a newline loses three characters at each end |
| LlmJson.CleanupsAgreeOnJsonBlock | utils/llm.py:42-47 | on a "```json" block this cleanup and the one in `get_city_state` (utils/geocode.py:104-108) both give the stripped body |
| LlmJson.OneLineKeepsTag | utils/llm.py:44-47 | on a one-line fenced reply tagged `json`, the tag stays in the text handed to the parser |
| LlmJson.OneLineDropsTag | utils/geocode.py:104-108 | the `get_city_state` cleanup drops the tag of a one-line fenced reply |
| LlmJson.CleanupsDifferOnOneLine | utils/llm.py:42-47 | on a one-line reply tagged `json` the two cleanups differ: this one keeps the tag, the other gives only the body |
| Retry.FirstSuccessSpec | worker/tasks/locations/geocode/review.py:70-99 | the retry loop has no value exactly when every attempt raises, and otherwise returns the value of the first attempt that does not raise |
| Retry.FirstSuccessBounded | worker/tasks/locations/geocode/review.py:70 | only the `max_retries` attempts below the bound matter |
| Retry.FirstSuccessStep | worker/tasks/locations/geocode/review.py:70-93 | a first success found early stays the first success, whatever later attempts would do |
| StateAbbrevs.TableShape | utils/geocode.py:10-62 | the table holds 51 distinct lower-case names and 51 distinct two-letter upper-case abbreviations |
| StateAbbrevs.NamesNoDup | utils/geocode.py:10-62 | no state name is written twice |
| StateAbbrevs.AbbrevsNoDup | utils/geocode.py:10-62 | no abbreviation is written twice |
| StateAbbrevs.Zip | utils/geocode.py:10-62 | the dictionary built from the two columns has exactly the names as keys, maps each name to the abbreviation beside it and has exactly the abbreviations as values |
| StateAbbrevs.StateAbbrevsMap | utils/geocode.py:10-62 | `STATE_ABBREVS` maps each of the 51 names to the abbreviation written beside it, and its values are exactly the abbreviations |
| StateAbbrevs.StateAbbrevsSize | utils/geocode.py:10-62 | the dictionary has exactly 51 entries |
| StateAbbrevs.StateAbbrevsInjective | utils/geocode.py:10-62 | different names have different abbreviations |
| StateAbbrevs.LookupAbbrev | utils/geocode.py:333-354 | any answer is a value of the table, and an empty input gives `None` |
| StateAbbrevs.GetStateAbbrev | utils/geocode.py:333-354 | any answer of `get_state_abbrev` is one of the 51 abbreviations; an empty input gives `None` |
| StateAbbrevs.LookupLong | utils/geocode.py:352-354 | an input that is not two characters long is looked up by its lower-cased, stripped form |
| StateAbbrevs.LookupValue | utils/geocode.py:346-350 | an abbreviation of the table, in upper or lower case, comes back upper-cased |
| StateAbbrevs.GetStateAbbrevTable | utils/geocode.py:333-354 | every state name, in lower or upper case, resolves to its abbreviation, and every abbreviation, in upper or lower case, resolves to itself |
| StateAbbrevs.GetStateAbbrevIdempotent | utils/geocode.py:333-354 | an abbreviation that comes out goes back in unchanged |
| GeocodeUtils.CleanFenced | utils/geocode.py:104-108 | the text handed to the parser has no leading or trailing whitespace |
| GeocodeUtils.Unfence | utils/geocode.py:105-106 | dropping the fences keeps a stripped text stripped |
| GeocodeUtils.Untag | utils/geocode.py:107-108 | dropping the `json` tag keeps a stripped text stripped |
| GeocodeUtils.CleanFencedPlain | utils/geocode.py:104-108 | a reply that is already bare JSON text (no padding, no fence, no tag) is left as it is |
| GeocodeUtils.CleanFencedBlock | utils/geocode.py:104-108 | a fenced block tagged `json` cleans to its stripped body, whatever the body is |
| GeocodeUtils.CleanFencedBareBlock | utils/geocode.py:104-108 | an untagged fenced block cleans to its stripped body unless that body itself starts with `json` |
| GeocodeUtils.GetCityState | utils/geocode.py:100-114 | a failed LLM call gives `None` |
| GeocodeUtils.GetCityStateFenced | utils/geocode.py:100-110 | a fenced `json` reply is parsed from its stripped body |
| GeocodeUtils.FeatureCandidate | utils/geocode.py:147-174 | a candidate is built exactly when the feature is a dict whose `properties` is a dict (otherwise a `.get` raises) |
| GeocodeUtils.FeatureCandidateShape | utils/geocode.py:147-174 | the candidate has exactly the keys id, label, geometry, confidence and boundaries, carrying the feature's id, label, geometry and confidence score |
| GeocodeUtils.BoundariesShape | utils/geocode.py:156-173 | the boundaries hold one `{id, name}` entry per level (neighbourhood, city, county, state), each taken from that level's property keys |
| GeocodeUtils.CandidatesSpec | utils/geocode.py:145-176 | the candidate list exists exactly when every feature can be mapped, and then holds one candidate per feature, in feature order |
| GeocodeUtils.MapFeatures | utils/geocode.py:142-179 | the search loop returns the candidate list of the response's features, or `None` when anything in it raises |
| GeocodeUtils.CandidatesNoneExtends | utils/geocode.py:146-179 | once a prefix of the features cannot be mapped, the whole search gives `None` |
| GeocodeUtils.Present | utils/geocode.py:190-203 | the components a query names are components of the fixed list whose value is truthy |
| GeocodeUtils.ComponentParamsFail | utils/geocode.py:190-203 | building the parameters fails exactly when some truthy component is not a string |
| GeocodeUtils.ComponentParamsEmpty | utils/geocode.py:190-205 | no component parameter is added exactly when no component is truthy |
| GeocodeUtils.ComponentParamsPresent | utils/geocode.py:190-203 | one parameter per truthy component, in the fixed order, each `name=quote(value)` with the Pelias name of its component |
| GeocodeUtils.ComponentParamsErrExtends | utils/geocode.py:190-203 | once a component fails, later components do not change the outcome |
| GeocodeUtils.StructuredQuerySpec | utils/geocode.py:187-207 | TypeError exactly when a truthy component is not a string; `None` exactly when no component is truthy; otherwise the API key followed by the component parameters |
| GeocodeUtils.ComponentParamsTypeError | utils/geocode.py:190-203 | the only error the parameters raise is TypeError |
| GeocodeUtils.StructuredParams | utils/geocode.py:187-207 | the step-by-step parameter builder gives the structured query described above |
| GeocodeUtils.AddComponent | utils/geocode.py:190-203 | one `if` step keeps the API key first and extends the parameters of the components seen so far, or fails with the whole builder's error |
| GeocodeUtils.ReverseCandidates | utils/geocode.py:292-327 | the reverse-geocoding answer holds at most one candidate |
| GeocodeUtils.Steps | utils/geocode.py:273-327 | one step per Geocodio result, each decided by that result alone |
| GeocodeUtils.GeocodioGeocode | utils/geocode.py:252-331 | the result loop returns the answer of the first result that does not move on, and `None` without a client |
| GeocodeUtils.SkipNext | utils/geocode.py:273-285 | results that move on (`result = None`) do not change the answer |
| GeocodeUtils.FirstDoneAnswer | utils/geocode.py:273-327 | any answer is the answer of one of the results |
| GeocodeUtils.ResultsExhausted | utils/geocode.py:273-331 | when every result moves on, the function falls off the loop and returns `None` |
| GeocodeUtils.AccurateResultAtMostOne | utils/geocode.py:287-324 | when the first deciding result has accuracy of at least 0.8, the answer holds at most one candidate |
| GeocodeUtils.LowAccuracyFallback | utils/geocode.py:276-283 | when the first deciding result has accuracy below 0.8 and the LLM names a city and a state, the answer is the Pelias search for "city, state" |
| GeocodeUtils.LowAccuracyStep | utils/geocode.py:276-283 | a low-accuracy result with a named city and state ends in the fall-back search |
| GeocodeUtils.FallbackSearch | utils/geocode.py:279-283 | the fall-back searches the text `f"{city}, {state}"` |
| Prep.SearchDuckDuckGo | worker/tasks/locations/geocode/prep.py:79-111 | the retry loop returns the first attempt's results that did not raise (an empty list included), and `[]` once every attempt raised |
| Prep.ExtractBestAddress | worker/tasks/locations/geocode/prep.py:62-77 | the retry loop returns the reply of the first attempt that did not raise, and "No address found" once every attempt raised |
| Prep.RetryHelpers | worker/tasks/locations/geocode/prep.py:62-111 | both helpers return what the first non-raising attempt produced, at most `max_retries` attempts are made, and when all raise the search gives `[]` and the extraction "No address found" |
| Prep.IsAddressable | worker/tasks/locations/geocode/prep.py:147-152 | a raised call is not addressable, and an addressable reply strips to exactly eleven characters |
| Prep.AddressableReply | worker/tasks/locations/geocode/prep.py:149 | the check ignores surrounding white space and letter case of the reply |
| Prep.PrepPlace | worker/tasks/locations/geocode/prep.py:158-206 | the handler's branches give the place strategy: None, a search on the found address, or a search on the place's own text |
| Prep.PlaceNotAddressable | worker/tasks/locations/geocode/prep.py:163-206 | an empty location gives None; a place the check does not call addressable (or whose check raised) is searched by its own text |
| Prep.PlaceSearchFails | worker/tasks/locations/geocode/prep.py:173-196 | an addressable place whose every search attempt raises is searched by its own text |
| Prep.PlaceExtractionFails | worker/tasks/locations/geocode/prep.py:180-196 | an addressable place with results whose every extraction attempt raises is searched by its own text |
| Prep.PlaceAddressFound | worker/tasks/locations/geocode/prep.py:180-189 | an addressable place whose first successful extraction is a non-empty reply other than "No address found" is searched by that reply |
| Prep.AddressPart | worker/tasks/locations/geocode/prep.py:232-238 | the address part neither starts nor ends with a space or a comma |
| Prep.AddressPartAbsent | worker/tasks/locations/geocode/prep.py:232-238 | with neither the city nor the state in the text, the address part is the text without surrounding spaces and commas |
| Prep.StreetRoadStructured | worker/tasks/locations/geocode/prep.py:219-252 | a street is structured exactly when it is tagged with both a city and a state, and then carries its text, the city as locality, the state as region and a trimmed address part; any other answer is a search on its text |
| Prep.StreetRoadSearch | worker/tasks/locations/geocode/prep.py:247-259 | a street the tagger cannot parse, or that lacks a city or a state, is searched by its text |
| Prep.SpanFallback | worker/tasks/locations/geocode/prep.py:270-342 | the failure record as meant: the span's own fields kept, with a `none` strategy on its text under `geocode` |
| Prep.PrepSpan | worker/tasks/locations/geocode/prep.py:265-342 | the handler's branches give the span outcome: dropped, one record, or one record per part |
| Prep.SpanRecordsSpec | worker/tasks/locations/geocode/prep.py:307-322 | a list reply expands exactly when every part can be expanded, into one record per part, in order |
| Prep.SpanExpansion | worker/tasks/locations/geocode/prep.py:307-322 | each part becomes a copy of the span with `location` and `type` taken from the part and a search on the part's text as its strategy, the span's other fields unchanged |
| Prep.SpanFailures | worker/tasks/locations/geocode/prep.py:270-342 | an empty location drops the span; a missing prompt, a failed call or undecodable reply, or a list with a malformed part gives the `none` record on the span's text |
| Prep.ExpandAppend | worker/tasks/locations/geocode/prep.py:446-460 | pass one works record by record: each record's expansion takes its place, in order |
| Prep.ExpandNoSpans | worker/tasks/locations/geocode/prep.py:458-460 | a list without spans goes through pass one unchanged |
| Prep.LocationText | worker/tasks/locations/geocode/prep.py:344-418 | `location['location']` raises KeyError exactly when the key is missing, and otherwise gives its value |
| Prep.ChooseStrategy | worker/tasks/locations/geocode/prep.py:468-487 | the `if/elif` chain sets the strategy of the record's type |
| Prep.DispatchKeepsStrategy | worker/tasks/locations/geocode/prep.py:464-466 | pass two never touches a record whose `geocode` is truthy, the span failure record included |
| Prep.DispatchOnlyGeocode | worker/tasks/locations/geocode/prep.py:463-487 | pass two changes at most the `geocode` key of a record |
| Prep.DispatchTypes | worker/tasks/locations/geocode/prep.py:344-487 | regions get a `none` strategy, the search types a search on their text, a state a structured query with only a region, and a type without a handler is left alone |
| Prep.DispatchMissingText | worker/tasks/locations/geocode/prep.py:344-418 | a record of a one-line handler's type without a `location` makes pass two raise KeyError |
| Prep.Prepped | worker/tasks/locations/geocode/prep.py:436-441 | an empty or missing list leaves the payload as it is |
| Prep.PrepLocations | worker/tasks/locations/geocode/prep.py:422-492 | the two loops give the prepped payload |
| Prep.ExpandSpans | worker/tasks/locations/geocode/prep.py:444-460 | pass one gives the expansion of every record, in order |
| Prep.AssignStrategies | worker/tasks/locations/geocode/prep.py:463-487 | pass two gives the dispatch of every record, or the first error |
| Prep.PreppedShape | worker/tasks/locations/geocode/prep.py:489-492 | a successful run replaces only `locations`, with pass two applied to each record of pass one's output, in order |
| SpanFailure.SpanFailureBreaksGeocoding | worker/tasks/locations/geocode/prep.py:282-287 | a span whose prompt file is missing is replaced by the bare record `{'geocode': 'none', 'text': ...}`, and the geocoding stage then raises AttributeError on that record |
| SpanFailure.PreppedFailed | worker/tasks/locations/geocode/prep.py:447-460 | a one-span payload whose span fails comes out of prep holding only the bare failure record |
| SpanFailure.FallbackSkipped | worker/tasks/locations/geocode/prep.py:464-466 | the meant failure record keeps its `none` strategy through prep's pass two and goes through the geocoding stage unchanged |
| SpanFailure.FixedFailures | worker/tasks/locations/geocode/prep.py:270-342 | with the meant failure record, a missing prompt or a failed call gives the span's own record with a `none` strategy, and a successful list expansion is unchanged |
| GeocodeStage.Choice | worker/tasks/locations/geocode/geocode.py:186-203 | a reply picks a candidate only from the list it was given |
| GeocodeStage.CheckOutcome | worker/tasks/locations/geocode/geocode.py:128-208 | whatever `check_candidates` returns is one of the candidates |
| GeocodeStage.CheckCandidates | worker/tasks/locations/geocode/geocode.py:128-208 | the method follows `check_candidates` branch by branch: no candidate, one candidate, then the LLM retry loop over the formatted list |
| GeocodeStage.AskLlm | worker/tasks/locations/geocode/geocode.py:177-208 | the retry loop returns the choice read from the first reply that did not raise, and `None` when every attempt raised |
| GeocodeStage.ReadChoice | worker/tasks/locations/geocode/geocode.py:186-203 | reading a reply gives the candidate at the 0-based index it names, and `None` for "none", an index out of range or a reply that is not a number |
| GeocodeStage.CheckFewCandidates | worker/tasks/locations/geocode/geocode.py:133-139 | with at most one candidate the LLM is never consulted: no candidate gives `None`, one gives that candidate |
| GeocodeStage.CheckExhausted | worker/tasks/locations/geocode/geocode.py:205-208 | several candidates whose every attempt raises give `None` |
| GeocodeStage.ChoiceOfNat | worker/tasks/locations/geocode/geocode.py:194-200 | the reply `n` picks the candidate at index `n` when there is one, and `None` otherwise |
| GeocodeStage.ChoiceIndex | worker/tasks/locations/geocode/geocode.py:196-200 | every index of the list picks its candidate, and the index one past the end picks nothing |
| GeocodeStage.ChoiceNone | worker/tasks/locations/geocode/geocode.py:186-191 | "none" in any letter case and surrounded by any white space picks nothing |
| GeocodeStage.MappedCandidateFormattable | worker/tasks/locations/geocode/geocode.py:163-172 | a candidate built from a Pelias feature always has the fields the candidate list formats |
| GeocodeStage.GeocodeOne | worker/tasks/locations/geocode/geocode.py:233-271 | one pass of the loop on one item gives the item's geocoding outcome |
| GeocodeStage.GeocodeItemSkips | worker/tasks/locations/geocode/geocode.py:233-258 | an item whose strategy is neither "search" nor "structured" is left as it is |
| GeocodeStage.GeocodeItemResults | worker/tasks/locations/geocode/geocode.py:236-271 | a searched item keeps its fields and its `geocode` fields and gains `results`, which is `None` or one of the candidates the Pelias search returned |
| GeocodeStage.GeocodeItemNotDict | worker/tasks/locations/geocode/geocode.py:234 | an item whose `geocode` is not a dict makes the stage raise AttributeError |
| GeocodeStage.Geocoded | worker/tasks/locations/geocode/geocode.py:226-231 | an empty or missing list leaves the payload as it is |
| GeocodeStage.GeocodeLocations | worker/tasks/locations/geocode/geocode.py:212-275 | the loop gives the geocoded payload, or the first error raised |
| GeocodeStage.GeocodedShape | worker/tasks/locations/geocode/geocode.py:233-275 | a successful run replaces only `locations`, each item by its geocoding outcome, in order |
| GeocodeValidation.ValidateGeocoding | worker/tasks/locations/geocode/review.py:18-99 | the method follows `_validate_geocoding`: an empty result is rejected, the result is formatted, then the LLM retry loop gives the verdict |
| GeocodeValidation.AskValidator | worker/tasks/locations/geocode/review.py:70-99 | the retry loop returns the first reply that cleans and parses, and the rejection after three attempts otherwise |
| GeocodeValidation.DecodeReply | worker/tasks/locations/geocode/review.py:80-86 | a reply is cleaned and then parsed |
| GeocodeValidation.CleanReply | worker/tasks/locations/geocode/review.py:80-84 | the reply cleanup is the one `get_city_state` uses (strip, fences, `json` tag) |
| GeocodeValidation.NoResultRejected | worker/tasks/locations/geocode/review.py:31-35 | an empty result is rejected with "No geocoding result to validate" and the LLM is never consulted |
| GeocodeValidation.VerdictSpec | worker/tasks/locations/geocode/review.py:70-99 | when no attempt yields a parsable reply the verdict is the rejection after three attempts; otherwise it is the parse of the first attempt that succeeded and parsed |
| GeocodeValidation.ExhaustedRationaleText | worker/tasks/locations/geocode/review.py:96-99 | the rejection reads "Validation failed after 3 attempts" |
| GeocodeValidation.VerdictBounded | worker/tasks/locations/geocode/review.py:70 | only the first three attempts matter |
| GeocodeValidation.VerdictFencedReply | worker/tasks/locations/geocode/review.py:79-87 | a fenced `json` reply on the first attempt is parsed from its stripped body |
| GeocodeValidation.FormattedSpec | worker/tasks/locations/geocode/review.py:58-65 | formatting the result succeeds exactly when the result, its boundaries, its confidence and its city, county and state entries are all dicts |
| GeocodeValidation.ValidateOne | worker/tasks/locations/geocode/review.py:124-142 | one pass of the loop on one item gives the item's validation outcome |
| GeocodeValidation.ValidateItemStamps | worker/tasks/locations/geocode/review.py:125-142 | a validated item keeps its fields and its `geocode` fields, and its `geocode` gains `validated` and `rationale` |
| GeocodeValidation.ValidateItemNoResults | worker/tasks/locations/geocode/review.py:130-133 | an item without results is stamped not validated with "No geocoding results to validate", without consulting the LLM |
| GeocodeValidation.ValidateItemVerdict | worker/tasks/locations/geocode/review.py:135-142 | an item with results is stamped with the verdict's `validated` (default False) and `rationale` (default ""); a verdict that is not a dict raises AttributeError |
| GeocodeValidation.ValidateItemErrors | worker/tasks/locations/geocode/review.py:126-130 | an item that is not a dict raises TypeError, and one whose `geocode` is not a dict raises AttributeError |
| GeocodeValidation.Validated | worker/tasks/locations/geocode/review.py:117-122 | an empty or missing list leaves the payload as it is |
| GeocodeValidation.ValidateLocations | worker/tasks/locations/geocode/review.py:103-145 | the loop gives the validated payload, or the first error raised |
| GeocodeValidation.ValidatedShape | worker/tasks/locations/geocode/review.py:124-145 | a successful run replaces only `locations`, each item by its validation outcome, in order, and every item then carries `validated` and `rationale` |
| GeocodeConsolidate.IsValidated | worker/tasks/locations/geocode/consolidate.py:36-39 | the filter test succeeds exactly when the location is a dict whose `geocode` (default `{}`) is a dict |
| GeocodeConsolidate.IsValidatedKept | worker/tasks/locations/geocode/consolidate.py:36-39 | a location is kept exactly when its `geocode.validated` is truthy |
| GeocodeConsolidate.Cleaned | worker/tasks/locations/geocode/consolidate.py:50-57 | a kept location keeps all its fields, and its `geocode` loses exactly `validated` and `rationale` |
| GeocodeConsolidate.Consolidated | worker/tasks/locations/geocode/consolidate.py:26-31 | an empty or missing list leaves the payload as it is |
| GeocodeConsolidate.ConsolidateGeocodedLocations | worker/tasks/locations/geocode/consolidate.py:15-63 | the filter and the clean-up loop give the consolidated payload |
| GeocodeConsolidate.CleanUp | worker/tasks/locations/geocode/consolidate.py:50-57 | the clean-up loop cleans every kept location, in order |
| GeocodeConsolidate.ConsolidatedSpec | worker/tasks/locations/geocode/consolidate.py:35-60 | only `locations` changes; it holds exactly the validated locations, in order, each without its validation metadata |
| GeocodeConsolidate.ConsolidatedFails | worker/tasks/locations/geocode/consolidate.py:36-39 | the stage raises exactly when some location is not a dict or has a `geocode` that is not a dict |
| GeocodeConsolidate.ConsolidateTwice | worker/tasks/locations/geocode/consolidate.py:36-60 | running the stage again on its own output drops every location, since the metadata it filters on is gone |
| GeocodeConsolidate.KeptInOrder | worker/tasks/locations/geocode/consolidate.py:36-57 | filtering and cleaning work location by location: the result on two lists joined is the two results joined |
| RelevanceConsolidate.IsRelevant | worker/tasks/locations/relevance/consolidate.py:38 | the test succeeds exactly on dicts, and keeps a location exactly when it has no `relevant` key or a truthy one |
| RelevanceConsolidate.CleanCopy | worker/tasks/locations/relevance/consolidate.py:40-42 | the copy has the location's keys minus `relevant` and `notes`, with the same values |
| RelevanceConsolidate.Consolidated | worker/tasks/locations/relevance/consolidate.py:29-33 | an empty or missing list leaves the payload as it is |
| RelevanceConsolidate.ConsolidateLocations | worker/tasks/locations/relevance/consolidate.py:13-51 | the loop gives the consolidated payload, or the first error raised |
| RelevanceConsolidate.ConsolidatedSpec | worker/tasks/locations/relevance/consolidate.py:35-51 | only `locations` changes; it holds one clean copy of each relevant location, in order |
| RelevanceConsolidate.ConsolidateTwice | worker/tasks/locations/relevance/consolidate.py:13-51 | the stage is idempotent: running it again on its output changes nothing |
| RelevanceConsolidate.CleanCopiesUnmarked | worker/tasks/locations/relevance/consolidate.py:40-42 | no clean copy carries `relevant` or `notes` |
| RelevanceConsolidate.CleanCopiesStable | worker/tasks/locations/relevance/consolidate.py:37-43 | unmarked locations all pass the filter and are their own clean copies |
| RelevanceConsolidate.KeptInOrder | worker/tasks/locations/relevance/consolidate.py:37-43 | the loop works location by location: the result on two lists joined is the two results joined |
| ExtractReview.LocationHits | worker/tasks/locations/extract/review.py:55-63 | the recogniser's entities give at most one hit each |
| ExtractReview.ExtractLocations | worker/tasks/locations/extract/review.py:44-69 | no endpoint or key, or a raising call, gives no hits; otherwise at most one hit per entity |
| ExtractReview.LocationHitsSpec | worker/tasks/locations/extract/review.py:55-63 | the hits are exactly the recogniser's `Location` entities, at most one per entity |
| ExtractReview.ExtractLocationsEmpty | worker/tasks/locations/extract/review.py:44-69 | without an endpoint and key, or when the call raises, there are no hits |
| ExtractReview.JoinEach | worker/tasks/locations/extract/review.py:85-87 | one chunk per group of words |
| ExtractReview.SplitIntoChunks | worker/tasks/locations/extract/review.py:71-89 | a chunk size of 0 makes `range` raise ValueError; otherwise the loop gives the chunks of the text's words |
| ExtractReview.GroupsStep | worker/tasks/locations/extract/review.py:85-87 | the groups from word `i` on are the next `k` words (fewer at the end), then the groups after them |
| ExtractReview.GroupsCount | worker/tasks/locations/extract/review.py:85 | there are ⌈n/k⌉ chunks for `n` words |
| ExtractReview.GroupsSizes | worker/tasks/locations/extract/review.py:85-86 | every chunk but the last has `k` words; the last has between 1 and `k` |
| ExtractReview.GroupsFlatten | worker/tasks/locations/extract/review.py:85-87 | the chunks, put back together, are the words of the text, in order |
| ExtractReview.GroupsWords | worker/tasks/locations/extract/review.py:82-86 | every word of a chunk is a whitespace-free, non-empty word |
| ExtractReview.ChunksSpec | worker/tasks/locations/extract/review.py:71-89 | ⌈n/k⌉ chunks; splitting a chunk gives its group back, and splitting every chunk gives the words of the text |
| ExtractReview.ChunksOfBlank | worker/tasks/locations/extract/review.py:82-89 | a text of nothing but whitespace has no chunks |
| ExtractReview.Texts | worker/tasks/locations/extract/review.py:120 | one text per hit |
| PyText.FirstIndex | worker/tasks/locations/extract/review.py:114-117 | the index where a text first appears: it holds the text and no earlier index does |
| ExtractReview.AllTexts | worker/tasks/locations/extract/review.py:107-110 | without an endpoint and key, no chunk yields a text |
| ExtractReview.Dedup | worker/tasks/locations/extract/review.py:112-117 | the kept texts are no more than those found |
| ExtractReview.DedupSpec | worker/tasks/locations/extract/review.py:114-117 | keeping the first hit of each text gives every text once, no other text, in the order of first appearance |
| ExtractReview.ProcessTextNer | worker/tasks/locations/extract/review.py:91-120 | the two loops return the recogniser's location texts over the 100-word chunks, each once |
| ExtractReview.AddUnseen | worker/tasks/locations/extract/review.py:114-117 | the inner loop keeps the hits whose text is new and records every text as seen |
| ExtractReview.DedupStep | worker/tasks/locations/extract/review.py:115-117 | one more text is appended when new and ignored when already seen |
| ExtractReview.AllTextsFrom | worker/tasks/locations/extract/review.py:109-117 | every text found came from the recogniser's answer on one of the chunks |
| ExtractReview.NerLocations | worker/tasks/locations/extract/review.py:91-120 | without an endpoint and key the list is empty, and it is never longer than the texts found across the chunks |
| ExtractReview.NerLocationsSpec | worker/tasks/locations/extract/review.py:91-120 | `process_text_ner` returns each text once, in order of first appearance over the chunks taken in order, and only texts the recogniser reported for one of them |
| ExtractReview.ReviewPromptNerLine | worker/tasks/locations/extract/review.py:174-194 | the recogniser's line is in the system prompt exactly when it found something, between the head and the output prompt |
| ExtractReview.NoNewlineLeft | worker/tasks/locations/extract/review.py:197 | replacing every newline by a space leaves no newline |
| ExtractReview.UserPrompt | worker/tasks/locations/extract/review.py:197-198 | the user prompt is the article text on one line |
| ExtractReview.UpdatedFields | worker/tasks/locations/extract/review.py:205-209 | the update sets `locations`, keeps `url` and `output_filename` (written as `None` when absent) and leaves every other key as it was |
| ExtractReview.ReviewedSpec | worker/tasks/locations/extract/review.py:201-205 | a failed LLM call raises out of the review; a reply that is not a dict raises AttributeError; otherwise its `locations` (or `None`) go into the payload |
| ExtractReview.ReviewPayload | worker/tasks/locations/extract/review.py:122-211 | no text leaves the payload as it is; a missing prompt file raises, and then a text that is not a string raises AttributeError |
| ExtractReview.ExtractLocationsReview | worker/tasks/locations/extract/review.py:122-211 | the method follows `_extract_locations_review`, with the recogniser loop run as a method |
| ExtractReview.ReviewGuards | worker/tasks/locations/extract/review.py:136-198 | without text the payload comes back unchanged; a missing prompt file raises; a text that is not a string raises AttributeError |
| ExtractReview.ReviewPayloadFields | worker/tasks/locations/extract/review.py:201-211 | a successful review only writes `locations`, `url` and `output_filename` |
| ExtractReview.ReviewedOk | worker/tasks/locations/extract/review.py:201-209 | a successful review had a dict reply, whose `locations` went into the payload |
| ReviewBoundaries.Index | worker/tasks/locations/review/consolidate.py:68-69 | indexing a list succeeds exactly below its length and gives that element; only lists and strings can be indexed |
| ReviewBoundaries.Coordinates | worker/tasks/locations/review/consolidate.py:68-69 | `lat` is the second coordinate and `lng` the first; no coordinates give `None` for both; a single coordinate raises IndexError |
| ReviewBoundaries.AddBoundary | worker/tasks/locations/review/consolidate.py:59-120 | one level grows by at most one boundary, whose id is truthy, hashable and not seen before, and which starts without places; an id already seen changes nothing, an unhashable id raises TypeError |
| ReviewBoundaries.AddBoundaryNew | worker/tasks/locations/review/consolidate.py:62-72 | a new boundary takes its name from the entry that introduced it and its coordinates from that location's geometry |
| ReviewBoundaries.Place | worker/tasks/locations/review/consolidate.py:123-131 | a place is a copy of the location whose `geocode` lacks `validated` and `rationale` |
| ReviewBoundaries.CollectOneLevels | worker/tasks/locations/review/consolidate.py:48-131 | a located location is handled at each of the four levels and becomes one more place; any other location is skipped |
| ReviewBoundaries.Attached | worker/tasks/locations/review/consolidate.py:140-158 | attaching a place keeps the boundaries and their ids |
| ReviewBoundaries.AttachPlaceAt | worker/tasks/locations/review/consolidate.py:134-158 | a place is attached at each level to the boundary its own reference names |
| ReviewBoundaries.Members | worker/tasks/locations/review/consolidate.py:134-158 | a boundary lists at most one id per place |
| ReviewBoundaries.ProcessBoundaries | worker/tasks/locations/review/consolidate.py:16-160 | the two loops give the organised boundaries and places |
| ReviewBoundaries.CollectLocations | worker/tasks/locations/review/consolidate.py:40-131 | the first loop, with its sets of seen ids kept equal to the ids of the lists |
| ReviewBoundaries.VisitLocation | worker/tasks/locations/review/consolidate.py:48-131 | one iteration of the first loop keeps the seen sets equal to the ids of the lists |
| ReviewBoundaries.AssociatePlaces | worker/tasks/locations/review/consolidate.py:134-158 | the second loop attaches every place |
| ReviewBoundaries.VisitPlace | worker/tasks/locations/review/consolidate.py:134-158 | one iteration of the second loop attaches one place at every level |
| ReviewBoundaries.Introduce | worker/tasks/locations/review/consolidate.py:59-72 | the seen-set test adds a boundary exactly as the list of ids decides it |
| ReviewBoundaries.Attach | worker/tasks/locations/review/consolidate.py:140-143 | the seen-set test and inner loop append the place's id to the boundary it refers to |
| ReviewBoundaries.PlacesOf | worker/tasks/locations/review/consolidate.py:48-131 | the places are made from the located locations only |
| ReviewBoundaries.AddBoundaryKeeps | worker/tasks/locations/review/consolidate.py:59-72 | a level's ids stay distinct, the list only grows, and afterwards it holds the id the entry introduces |
| ReviewBoundaries.PlaceOfRef | worker/tasks/locations/review/consolidate.py:55-140 | the reference a place makes at a level is the id its location introduced there |
| ReviewBoundaries.CollectOneLists | worker/tasks/locations/review/consolidate.py:59-120 | one iteration keeps each level distinct, only appends, and leaves the introduced id in the list |
| ReviewBoundaries.CollectOneCovered | worker/tasks/locations/review/consolidate.py:48-131 | after one iteration every truthy id a place refers to is the id of a boundary |
| ReviewBoundaries.CollectOneReferenced | worker/tasks/locations/review/consolidate.py:48-131 | after one iteration every boundary is referred to by some place |
| ReviewBoundaries.CollectOneInvariant | worker/tasks/locations/review/consolidate.py:48-131 | one iteration keeps the first loop's invariant, only appends to the lists, and adds the location's place |
| ReviewBoundaries.CollectSpec | worker/tasks/locations/review/consolidate.py:48-131 | the first loop gives distinct, truthy, hashable ids at each level, covers every reference, references every boundary, and makes the places of the located locations in order |
| ReviewBoundaries.CollectGrows | worker/tasks/locations/review/consolidate.py:48-131 | the boundaries known after a prefix of the locations are a prefix of the final ones |
| ReviewBoundaries.MembersSpec | worker/tasks/locations/review/consolidate.py:134-158 | a place's id is listed under a boundary exactly when that place refers to the boundary's id |
| ReviewBoundaries.AssociateSpec | worker/tasks/locations/review/consolidate.py:134-158 | the second loop leaves every boundary as it was, with the ids of the places that refer to it appended in place order |
| ReviewBoundaries.OrganizedSpec | worker/tasks/locations/review/consolidate.py:16-160 | the result lists every located location as a place, in order; each level holds distinct truthy ids, each boundary lists exactly the places that refer to it and at least one, and every place is listed under every boundary it refers to |
| ReviewBoundaries.OrganizedBoundaries | worker/tasks/locations/review/consolidate.py:59-158 | one level of the result: distinct truthy ids, each boundary with exactly its referring places and at least one |
| ReviewBoundaries.OrganizedPlaces | worker/tasks/locations/review/consolidate.py:134-158 | every place is listed under each boundary it refers to |
| ReviewBoundaries.FirstSeen | worker/tasks/locations/review/consolidate.py:62-72 | the first location to introduce an id decides its boundary's name and coordinates |
| ReviewConsolidate.AtLeast | worker/tasks/locations/review/consolidate.py:202 | `score >= 0.9` compares numbers and raises TypeError on anything but a number or a boolean |
| ReviewConsolidate.Rescue | worker/tasks/locations/review/consolidate.py:203-205 | a rescued `geocode` gets the top result, `validated` True and the rationale "Fallback to city-state geocoding", other fields kept |
| ReviewConsolidate.Fallback | worker/tasks/locations/review/consolidate.py:187-206 | one item keeps at most one location |
| ReviewConsolidate.Searched | worker/tasks/locations/review/consolidate.py:198-206 | a search on the LLM's city and state keeps at most one location |
| ReviewConsolidate.Consolidated | worker/tasks/locations/review/consolidate.py:175-182 | an empty or missing list leaves the payload as it is |
| ReviewConsolidate.ConsolidateGeocodedLocations | worker/tasks/locations/review/consolidate.py:164-219 | the fall-back loop and the restructuring give the consolidated payload |
| ReviewConsolidate.ValidatedKept | worker/tasks/locations/review/consolidate.py:189-190 | an item whose `validated` is True is kept as it is |
| ReviewConsolidate.FallbackSearch | worker/tasks/locations/review/consolidate.py:198-206 | an unvalidated item with a named city and state and a non-empty search is rescued with the top result when its score is at least 0.9, and kept unchanged otherwise |
| ReviewConsolidate.FallbackNothingFound | worker/tasks/locations/review/consolidate.py:199-206 | an unvalidated item whose search finds nothing is kept unchanged |
| ReviewConsolidate.FallbackDrops | worker/tasks/locations/review/consolidate.py:195-198 | an unvalidated item without a city or without a state is dropped |
| ReviewConsolidate.CityStateFailureRaises | worker/tasks/locations/review/consolidate.py:193-195 | an unvalidated item whose city/state lookup fails makes the stage raise AttributeError |
| ReviewConsolidate.FallbackGuarded | worker/tasks/locations/review/consolidate.py:191-206 | the guarded fall-back keeps at most one location per item |
| ReviewConsolidate.GuardedFallback | worker/tasks/locations/review/consolidate.py:191-206 | with the guard, a failed city/state lookup drops the item instead of raising, and the guard changes nothing else |
| ReviewConsolidate.RescuedSpec | worker/tasks/locations/review/consolidate.py:186-206 | the loop succeeds exactly when every item does, and keeps at most one location per item, in order |
| ReviewConsolidate.AllValidated | worker/tasks/locations/review/consolidate.py:186-190 | when every item is validated the list is kept as it is |
| ReviewConsolidate.ConsolidatedShape | worker/tasks/locations/review/consolidate.py:211-219 | `locations` is replaced by `boundaries` (the four levels) and `places` (the places of the kept locations), other keys unchanged |
| ReviewConsolidate.Restructured | worker/tasks/locations/review/consolidate.py:214-216 | the payload gains `boundaries` and `places` and loses `locations` |
| ReviewConsolidate.BoundariesKeys | worker/tasks/locations/review/consolidate.py:29-35 | the boundaries object has exactly the keys states, counties, cities and neighborhoods |
| ReviewConsolidate.ConsolidateTwice | worker/tasks/locations/review/consolidate.py:175-216 | running the stage again on its output changes nothing, since `locations` is gone |
| Localize.In | worker/tasks/locations/localize/localize.py:73 | `x in container` on a list is list membership; it raises unless the container is a list, a dict with a hashable key, or a string searched for a string |
| Localize.AnyIn | worker/tasks/locations/localize/localize.py:73 | no county places gives False; a state that is not a dict raises AttributeError; otherwise the answer is whether the two place lists share an id |
| Localize.Shares | worker/tasks/locations/localize/localize.py:73 | a county shares a state exactly when their place lists have an id in common |
| Localize.Touches | worker/tasks/locations/localize/localize.py:73 | the `places` default is read as truthiness of a list, string or dict, and raises on anything else |
| Localize.Abbrev | worker/tasks/locations/localize/localize.py:74-77 | a state name is turned into its abbreviation by `get_state_abbrev`; a falsy name gives none |
| Localize.AddRegion | worker/tasks/locations/localize/localize.py:81-95 | a region that is not a dict raises AttributeError; a falsy id or one already added changes nothing; a new truthy hashable id is appended, with the county's coordinates and places, whenever `regions` is a list and the county's coordinates a dict |
| Localize.RegionsFrom | worker/tasks/locations/localize/localize.py:78-81 | no reply, a falsy reply or a reply without regions adds nothing; a truthy reply that is not a dict raises AttributeError |
| Localize.LocalizeLocations | worker/tasks/locations/localize/localize.py:42-101 | the nested loops give the localized payload |
| Localize.Localized | worker/tasks/locations/localize/localize.py:53-57 | a payload without boundaries comes back as it is |
| Localize.VisitCountyOnce | worker/tasks/locations/localize/localize.py:68-95 | one county visits every state, keeping the seen-id set equal to the ids added |
| Localize.VisitState | worker/tasks/locations/localize/localize.py:72-95 | a failing place test raises its error; a state that shares no place, or has no name, leaves the state of the loop as it is |
| Localize.VisitCounty | worker/tasks/locations/localize/localize.py:68-95 | a county that is not a dict raises AttributeError, states that cannot be iterated raise TypeError, and no states change nothing |
| Localize.Run | worker/tasks/locations/localize/localize.py:64-95 | counties that cannot be iterated raise, and no counties append nothing |
| Localize.VisitStateOnce | worker/tasks/locations/localize/localize.py:72-95 | one state, for one county, keeps the seen-id set equal to the ids added |
| Localize.AddRegions | worker/tasks/locations/localize/localize.py:80-95 | the region loop of one reply keeps the seen-id set equal to the ids added |
| Localize.AddRegionStep | worker/tasks/locations/localize/localize.py:82-95 | one region: a falsy or already-seen id adds nothing; a new id appends the region's entry with the county's coordinates and places, and the seen-id set still equals the ids added |
| Localize.AddRegionKeeps | worker/tasks/locations/localize/localize.py:81-95 | adding a region keeps the added ids distinct, truthy and hashable, each one listed in a reply of the service |
| Localize.RegionsFromKeeps | worker/tasks/locations/localize/localize.py:80-95 | handling one reply keeps that invariant |
| Localize.LogExtendedKeeps | worker/tasks/locations/localize/localize.py:78 | one more lookup keeps that invariant |
| Localize.VisitStateKeeps | worker/tasks/locations/localize/localize.py:72-95 | one state keeps that invariant |
| Localize.VisitCountyKeeps | worker/tasks/locations/localize/localize.py:68-95 | one county keeps that invariant |
| Localize.RunKeeps | worker/tasks/locations/localize/localize.py:64-95 | the whole run adds distinct, truthy ids, each of a region the service listed for a lookup the run made |
| Localize.Offers | worker/tasks/locations/localize/localize.py:80-81 | the regions a reply offers are exactly those listed in its `regions` list |
| Localize.FirstEntriesComplete | worker/tasks/locations/localize/localize.py:82-84 | in the reference definition, every truthy id offered ends up with a record |
| Localize.FirstEntriesFirst | worker/tasks/locations/localize/localize.py:82-95 | in the reference definition, every record is made from the first offer of its id: its region, the county of its lookup, and no earlier offer with that id |
| Localize.AddRegionKept | worker/tasks/locations/localize/localize.py:82-95 | a successful region step appends exactly what the reference definition keeps of that offer |
| Localize.RegionsFoldEntries | worker/tasks/locations/localize/localize.py:81-95 | the loop over one reply's regions appends exactly what the reference definition keeps of those offers |
| Localize.RegionsFromEntries | worker/tasks/locations/localize/localize.py:80-95 | handling one reply appends exactly what the reference definition keeps of its offers |
| Localize.OfferedAppend | worker/tasks/locations/localize/localize.py:78 | one more lookup puts its reply's offers after those of the lookups before it |
| Localize.VisitStateEntries | worker/tasks/locations/localize/localize.py:72-95 | one state keeps the appended records equal to the reference definition over the log |
| Localize.VisitCountyEntries | worker/tasks/locations/localize/localize.py:68-95 | one county keeps the same agreement |
| Localize.RunEntries | worker/tasks/locations/localize/localize.py:64-95 | a successful run appends exactly the reference records: one per truthy id offered, in order of first offer, made from that first offer |
| Localize.RunComplete | worker/tasks/locations/localize/localize.py:80-84 | completeness: every region with a truthy id listed in a reply to one of the run's lookups has its id among the appended records |
| Localize.RunFirstWins | worker/tasks/locations/localize/localize.py:64-95 | the first county wins: each appended record is made from the first offer of its id, in lookup order and then region order, so `seen_region_ids` turns later offers away |
| Localize.RegionsFromLog | worker/tasks/locations/localize/localize.py:80-95 | handling a reply makes no lookup |
| Localize.VisitStateLog | worker/tasks/locations/localize/localize.py:72-78 | a state looks the county up once exactly when it shares a place with it and its name has an abbreviation |
| Localize.VisitCountyLog | worker/tasks/locations/localize/localize.py:68-78 | a county makes one lookup per state that qualifies, in state order |
| Localize.RunLog | worker/tasks/locations/localize/localize.py:67-78 | the run's lookups are those of each county, in county order |
| Localize.VisitStateAddsNothing | worker/tasks/locations/localize/localize.py:80-95 | when `regions` is not a list, or the service never answers, a state adds no region |
| Localize.VisitCountyAddsNothing | worker/tasks/locations/localize/localize.py:68-95 | the same for one county |
| Localize.RunAddsNothing | worker/tasks/locations/localize/localize.py:60-95 | when `regions` is not a list, or the service never answers, the run adds no region |
| Localize.LocalizedSpec | worker/tasks/locations/localize/localize.py:53-101 | only `boundaries.regions` changes: it becomes the regions before followed by the regions the run added |
| Localize.LocalizeTwice | worker/tasks/locations/localize/localize.py:60-95 | running the stage again appends the same regions a second time, since the seen set starts empty on each run |
| Finalize.Finalized | worker/tasks/locations/review/finalize.py:26-37 | the result has the payload's keys minus `text` and `story_type`, with the same values |
| Finalize.FinalizeTwice | worker/tasks/locations/review/finalize.py:30-34 | finalizing is idempotent |
| Finalize.FinalizeClean | worker/tasks/locations/review/finalize.py:30-34 | a payload without `text` and `story_type` comes back unchanged |
| LegacyTasks.ExtractionPrompt | worker/tasks/locations.py:59-73 | the prompt starts with the base prompt, followed by the story type's prompt when its file exists and by the default lead otherwise |
| LegacyTasks.Extracted | worker/tasks/locations.py:45-101 | a `story_type` that is not a dict sets `locations` to None; no other key changes and none is added but `locations` |
| LegacyTasks.ExtractedSpec | worker/tasks/locations.py:50-101 | a story type that is not a dict sets `locations` to `None`; no text or no base prompt leaves the payload as it is; otherwise `locations` is what the LLM extracted; only `locations` ever changes |
| LegacyTasks.ExtractedLocationsSpec | worker/tasks/locations.py:75-101 | the extracted locations are the reply's `locations` when the reply is a dict and `None` when the call fails; the user prompt is the text with every newline turned into a space and nothing else changed |
| LegacyTasks.NewlinesToSpaces | worker/tasks/locations.py:77 | replacing newlines by spaces keeps the length and changes exactly the newlines |
| LegacyTasks.Deduped | worker/tasks/locations.py:105-158 | only the language-model call can raise, and only when there are locations and a prompt; a success changes no key but `locations` |
| LegacyTasks.DedupedShapes | worker/tasks/locations.py:109-127 | no locations (a dict unwrapped first) give `[]`; a missing prompt keeps the unwrapped locations; only `locations` ever changes |
| LegacyTasks.DedupedReply | worker/tasks/locations.py:129-152 | a failed LLM call raises out of `_coref_dedupe`; a dict reply gives its `locations` (the unwrapped locations when absent); any other reply becomes `locations` as it is |
| LegacyTasks.First | worker/tasks/locations.py:178-180 | a non-empty result list gives its first element |
| LegacyTasks.GeocodeFields | worker/tasks/locations.py:183-189 | the update always carries exactly the five keys formatted_address, lat, lng, place_id and types |
| LegacyTasks.GeocodeFieldsSpec | worker/tasks/locations.py:183-189 | the update exists exactly when the first result has every field it reads, and then copies them |
| LegacyTasks.GeocodeUpdate | worker/tasks/locations.py:174-189 | an update is only made for a dict with a `location` |
| LegacyTasks.GeocodedSpec | worker/tasks/locations.py:173-195 | a location gains the five fields of its first result and keeps its other fields; a failed or empty geocode, or a location without `location`, leaves it unchanged |
| LegacyTasks.Iterated | worker/tasks/locations.py:173 | the loop runs over a list, a string or a dict, and raises TypeError on anything else |
| LegacyTasks.GeocodeLocations | worker/tasks/locations.py:166-199 | the loop gives the geocoded payload |
| LegacyTasks.GeocodedPayload | worker/tasks/locations.py:162-204 | no locations leaves the payload as it is; otherwise `locations` becomes a list with one item per location visited, and no other key changes |
| LegacyTasks.GeocodedPayloadSpec | worker/tasks/locations.py:166-204 | no locations leave the payload as it is; a list is geocoded item by item, in order, and only `locations` changes; a number or boolean makes the loop raise TypeError |
| LegacyTasks.GeocodedInOrder | worker/tasks/locations.py:172-198 | geocoding works location by location: two lists joined give the two results joined |
| LegacyTasks.CrossChecked | worker/tasks/locations.py:208-260 | no locations leaves the payload as it is; otherwise at most `cross_check` is added or changed |
| LegacyTasks.CrossCheckedUnchanged | worker/tasks/locations.py:212-260 | no locations, no prompt, a failed call or a reply that is not a dict leave the payload as it is |
| LegacyTasks.CrossCheckedVerdict | worker/tasks/locations.py:239-247 | a dict reply sets `cross_check`: the whole reply when its `check` is "review", and `{"check": "ok"}` otherwise |
| EditorialReview.Removal | worker-old/workflows.py:81-82 | no decisions give None, and a decision returned removes the location |
| EditorialReview.FindRemoval | worker-old/workflows.py:81-82 | the `next(...)` search returns the first decision that removes the location, `None` when there is none, and AttributeError when it meets a decision that is not a dict first |
| EditorialReview.RemovalFindsFirst | worker-old/workflows.py:81-82 | when decision `i` is the first to remove the location, and every earlier one is a dict, the search returns decision `i` |
| EditorialReview.RemovalFindsNone | worker-old/workflows.py:81-82 | the search returns `None` exactly when every decision is a dict that does not remove the location |
| EditorialReview.RemovalFound | worker-old/workflows.py:81-82 | any decision the search returns is the first one that removes the location |
| EditorialReview.RemovedItems | worker-old/workflows.py:77-92 | the loop gives one entry per location some decision removes, in location order, or the first error |
| EditorialReview.RemovedForSpec | worker-old/workflows.py:78-92 | a removed location gives one entry with its six fields, its `location` string and the decision's `reason` (default "Failed editorial review"); a location no decision removes gives none |
| EditorialReview.MissedRecordSpec | worker-old/workflows.py:99-107 | a missed location becomes a record with the six fields (default "") and `source` "editorial_review" |
| EditorialReview.MissedSources | worker-old/workflows.py:96 | the loop runs over a list, a string or a dict, and raises on anything else |
| EditorialReview.Appended | worker-old/workflows.py:74-111 | appending to `payload['locations']` appends to the reviewer's filtered list itself |
| EditorialReview.MissedLocations | worker-old/workflows.py:95-113 | the loop records every dict among the missed entries, in order, and appends each one to the filtered list |
| EditorialReview.MissedCount | worker-old/workflows.py:95-113 | at most one record per missed entry: exactly one when they are all dicts, none when none is |
| EditorialReview.Len | worker-old/workflows.py:117-121 | `len` of a list is its length |
| EditorialReview.SummaryFields | worker-old/workflows.py:116-123 | the review holds the six counts and lists |
| EditorialReview.Bookkeeping | worker-old/workflows.py:77-113 | locations that cannot be iterated raise; otherwise the original count is the number of locations and the reviewer's list is kept as it was given |
| EditorialReview.KeepBooks | worker-old/workflows.py:77-113 | the two loops give the removed entries, the missed records and the final list |
| EditorialReview.Reviewed | worker-old/workflows.py:50-130 | no locations leaves the payload as it is; otherwise at most `locations` and `review` change |
| EditorialReview.ApplyReview | worker-old/workflows.py:62-130 | the method follows `_editorial_review`, summary as written |
| EditorialReview.ReviewedGuards | worker-old/workflows.py:62-130 | no locations return the payload as it is; a failing reviewer too; an error after the reviewer answered returns the payload with `locations` already replaced by the filtered list |
| EditorialReview.BookkeepingSpec | worker-old/workflows.py:77-113 | the removed entries are those of the locations in order, the missed records those of the dict entries, and the final list is the filtered list with the missed records appended |
| EditorialReview.CountsAsWritten | worker-old/workflows.py:116-123 | as written, `filtered_count` counts the missed records too and `removed_count` subtracts them |
| EditorialReview.CountsIntended | worker-old/workflows.py:116-123 | as meant, `filtered_count` is the filtered list's own length, `removed_count` the original count minus it, and the final list holds both |
| EditorialReview.KeptAllRemovedNone | worker-old/workflows.py:116-123 | as meant, a review that keeps every location reports `removed_count` 0 |
| EditorialReview.RemovedCountGoesNegative | worker-old/workflows.py:74-120 | a review that keeps every location, removes nothing and finds one missed location reports `filtered_count` one too high and `removed_count` -1 |
| EditorialReview.BookkeepingOneMissed | worker-old/workflows.py:77-113 | the bookkeeping of that review |
| EditorialReview.NothingRemovedWithoutDecisions | worker-old/workflows.py:81-92 | without decisions no location is reported removed |
| EditorialReview.FromReview | worker-old/workflows.py:159 | `loc.get('source')` succeeds exactly on dicts |
| EditorialReview.NotFromReview | worker-old/workflows.py:175-176 | the second filter is the negation of the first |
| EditorialReview.OthersOk | worker-old/workflows.py:159-176 | the two filters split the locations between them |
| EditorialReview.GeocodedMissed | worker-old/workflows.py:133-191 | a payload without missed items worth geocoding comes back as it is; otherwise at most `locations` and `review` change |
| EditorialReview.GeocodeMissed | worker-old/workflows.py:143-191 | the method follows `_geocode_missed` |
| EditorialReview.GeocodedMissedGuards | worker-old/workflows.py:145-150 | no review, no missed items or a missed count of at most 0 leave the payload as it is |
| EditorialReview.MissedPartition | worker-old/workflows.py:159-176 | the review's locations and the others partition the list by `source` |
| EditorialReview.GeocodedMissedMerge | worker-old/workflows.py:158-182 | the review's locations are geocoded and moved to the end of the list, the others kept in order, and `missed_items` becomes the geocoded ones; the list keeps its length |

## Left out

- Celery plumbing is not modelled: the `*_task` wrappers, the `MaxRetriesExceededError` branches, the `2 ** retries` countdowns and the chain builders. They belong to the job queue. An exception that escapes a core function is the model's `Err(fault)`, including the legacy `retry(exc=e)` paths.
- External services are function parameters with no behaviour of their own: the language model, Pelias and Geocodio, Azure NER, DuckDuckGo, the region service, `json.loads`, `usaddress.tag`, `urlparse`/`urlunparse` and `quote`. Reading a prompt file and `json.dumps` of a record are parameters too. Their network formats (URLs, query strings, HTTP status handling) are not modelled.
- Logging, Slack notifications, scraping, HTML parsing and blob storage (`_save_to_azure`) are not modelled. None of them shapes the records.
- The other tasks of `worker/tasks/locations.py` are not modelled. Only `_extract_locations`, `_coref_dedupe`, `_geocode` and `_cross_check` are.
- In-place updates of dictionaries and lists are modelled by returning the updated value. The model therefore does not show that the caller's input object changed. The one place where sharing changes the outcome is the `filtered_locations` alias in `worker-old/workflows.py`, which is reproduced explicitly (see Findings).
- EditorialReview.ApplyReview: when the reviewer returns the very same list object it was given, `original_count` in the source would also grow. The model treats the reviewer's list as a separate value.
- `review_locations` is imported in `worker-old/workflows.py` from a module that does not define it. It is a parameter of `EditorialReview.Reviewed`. `_geocode_missed` geocodes with the `_geocode` of `worker/tasks/locations.py`, which is passed in the same way.
- Python numbers are one `real` type: `1`, `1.0` and `True` are not identified as Python's `==` identifies them. Scores and accuracies are compared with `>=` and `<` on `real`, with no floating-point rounding.
- Python dictionaries iterate in insertion order. A `map` has no order, so where the source iterates over a dict (the legacy `_geocode` given a dict of locations) an `order` parameter lists the keys. EditorialReview.MissedSources gives no entries for a dict of missed locations.
- The retry bound of three attempts and the chunk size of 100 words are the source's constants. The DuckDuckGo `max_results` limit belongs to the search service parameter. The pause between attempts is not modelled.
- GeocodeUtils.GetCityState: the contract only states the failed-call case, because the JSON parser is a parameter. GeocodeUtils.GetCityStateFenced states what a fenced reply is parsed from.
- The log of region-service lookups that `Localize` keeps exists only in the model. It states which calls a run makes and in what order.
- The neighbourhood-less candidate mapping of `worker/tasks/locations/geocode/geocode.py` and the neighbourhood-carrying one of `utils/geocode.py` share one definition. A `withNeighbourhood` flag selects the boundary levels.
- PyText.Lower: `str.lower()` is modelled by ASCII case mapping (PyText.LowerChar). Python's version also lower-cases other cased letters (`'É'` becomes `'é'`). A full Unicode case table is not modelled. Lookups that lower-case their input (StateAbbrevs.GetStateAbbrev, the "none" reply of GeocodeStage.ReadChoice, the addressable check of Prep.IsAddressable) can therefore differ from Python on non-ASCII letters.
- PyText.Upper: `str.upper()` is modelled by ASCII case mapping (PyText.UpperChar). Python maps more characters; for example, `'ı'` upper-cases to `'I'`. So `get_state_abbrev("ıa")` gives `'IA'` in Python, and StateAbbrevs.GetStateAbbrev gives None.
- PyText.ParseInt: `int()` is modelled on ASCII digits, with Python's sign, underscore and whitespace rules. Python also accepts every other Unicode decimal digit (`int("٣")` is 3). A language-model reply written in such digits therefore picks a candidate in `check_candidates`, while GeocodeStage.ReadChoice picks none.
- `worker/tasks/locations/filter/consolidate.py` is not part of this model. `worker/tasks/locations/relevance/consolidate.py` is modelled instead.

## Findings

| source | as written | input that shows it | evidently intended | confidence | as-written member | corrected member |
|---|---|---|---|---|---|---|
| utils/scrape.py:39-42 | a URL starting with `http:/` but not `http://` has EVERY `http:/` replaced, including one inside its query string | `http:/a?u=http://b`: the embedded `http://b` becomes `http:///b` | repair the scheme at the head only and leave the rest of the URL alone | not executed | UrlRepair.FixHttpDamagesEmbeddedUrl | UrlRepair.RepairSchemeOnceSpec |
| worker/tasks/locations/geocode/prep.py:282-287 | a failing span (no prompt, bad JSON, any exception) is replaced by the bare record `{'geocode': 'none', 'text': ...}`, whose `geocode` is a string; the geocode stage then calls `.get` on that string (worker/tasks/locations/geocode/geocode.py:234) and the whole stage raises AttributeError | a `span` location with a non-empty `location` when the span prompt file is missing | keep the span's record and attach `{'geocode': 'none', 'text': ...}` as its strategy, which both later stages then pass over | not executed | SpanFailure.SpanFailureBreaksGeocoding | SpanFailure.FixedFailures |
| worker/tasks/locations/review/consolidate.py:193-196 | `get_city_state` returns `None` when its LLM call fails, and `.get('city')` on `None` raises AttributeError, which aborts the consolidation of every location | one location whose `validated` is not True while the city/state call fails | treat a failed city/state call like a reply without city and state: keep validated records and drop the rest | not executed | ReviewConsolidate.CityStateFailureRaises | ReviewConsolidate.GuardedFallback |
| worker-old/workflows.py:74-120 | `payload['locations']` is the same list as `filtered_locations`, so appending the missed locations also grows `filtered_count`, and `removed_count` is off by the number of missed locations | a reviewer that keeps every location, makes no decision and reports one missed location: `filtered_count` is one more than the input length, `removed_count` is -1 and `removed_items` is empty | count the reviewer's list before the missed locations are appended, so `removed_count` is the number of locations the reviewer dropped | not executed | EditorialReview.RemovedCountGoesNegative | EditorialReview.CountsIntended |
