# Shipping quotes by distance: a verified model

This project models the core of a shipping-quote service for an online shop
in Chile. A customer's destination address is geocoded and checked for
precision. A driving route from the shop's origin is computed. The distance is
then matched against configured price zones and shipping methods. Each method
has a daily time window and a maximum distance. The model covers three parts:

- **Router service** (`AddressPolicy`, `AddressCaching`, `Router`):
  - the granularity classifier over place-type tags;
  - the accept, warning and reject levels and the confidence score, in integer hundredths;
  - the 24-hour address cache with expiry at lookup time;
  - the gating of `validate_and_geocode_address` and `get_distance_and_time`.
  The geocoder and the route provider are function parameters. `RouterService`
  keeps ghost logs of the requests sent to each, so contracts can say when a
  provider is not called.
- **Models** (`Models`, `Formatting`):
  - the time-window test `is_available_now`, with the clock reading as a
    parameter (time of day in microseconds, the precision of Python's `time`);
  - the `$1,234` price format and the `HH:MM` time format of the dictionary views.
- **Shipping routes** (`QuoteMatching`, `Shipping`):
  - zone lookup and the quote loop: which methods are offered, at which price,
    and one audit quote per option;
  - the method-table administration endpoints and the default data, in the
    class `ShippingDb`. Its tables are sequences and its ids come from counters.

Each state-changing method is specified by a function of the old state. The
source's promises are proved as lemmas about those functions, or as invariants
the class keeps: `RouterService.Valid` and `ShippingDb.Valid`. The shipping
invariant covers unique ids, unique method codes, and quote references that
point at existing rows.

## Model

| member | source | states |
|---|---|---|
| AddressCaching.Lookup | app/services/router_service.py:23-37 | what `get` returns: the stored data exactly while its age is below the maximum; its properties are stated by `LookupAfterSet`, `SetLeavesOtherAddresses`, `LookupAfterClear` and `ExpiredLookupRemovesOnlyThatEntry` |
| AddressCaching.AfterLookup | app/services/router_service.py:29-37 | the entries after `get`: an expired entry is deleted; see `ExpiredLookupRemovesOnlyThatEntry` |
| AddressCaching.AddressCache.constructor | app/services/router_service.py:19-21 | the cache starts empty with the maximum age in microseconds |
| AddressCaching.AddressCache.Get | app/services/router_service.py:23-37 | returns the stored data when its age is below the maximum; otherwise returns nothing, and an expired entry is deleted |
| AddressCaching.AddressCache.Set | app/services/router_service.py:39-45 | stores the data under the address with the current time; other addresses are untouched |
| AddressCaching.AddressCache.Clear | app/services/router_service.py:47-50 | the cache becomes empty |
| AddressCaching.LookupAfterSet | app/services/router_service.py:23-45 | after a set, a get of that address returns the data while the age is below the maximum, and nothing after |
| AddressCaching.SetLeavesOtherAddresses | app/services/router_service.py:39-45 | a set does not change what a get of another address returns |
| AddressCaching.LookupAfterClear | app/services/router_service.py:47-50 | after clearing, every get returns nothing |
| AddressCaching.ExpiredLookupRemovesOnlyThatEntry | app/services/router_service.py:29-37 | a get of an expired entry returns nothing, removes that entry and keeps every other one; a hit changes nothing |
| AddressPolicy.DetermineGranularity | app/services/router_service.py:241-282 | the precedence chain over place-type tags; `GranularityIsBestSuggestion`, `PremiseTagsWin`, `LocalityBeforeSmallerDivisions` and `NeverPremiseProximity` state what it computes |
| AddressPolicy.GranularityIsBestSuggestion | app/services/router_service.py:241-282 | the fixed-precedence chain equals a tag-by-tag reading: the result is OTHER iff no tag suggests anything, otherwise the best-ranked suggestion of some tag |
| AddressPolicy.PremiseTagsWin | app/services/router_service.py:254-265 | street_address, premise or subpremise gives PREMISE whatever else is present; route with street_number gives PREMISE; route alone gives ROUTE |
| AddressPolicy.LocalityBeforeSmallerDivisions | app/services/router_service.py:267-282 | for any tags without a finer tag: locality or political gives LOCALITY, whatever sublocality or administrative tags are present; otherwise sublocality gives SUBLOCALITY; otherwise an administrative area gives ADMINISTRATIVE_AREA; none of these gives OTHER |
| AddressPolicy.NeverPremiseProximity | app/services/router_service.py:241-282 | no tag list produces PREMISE_PROXIMITY |
| AddressPolicy.LevelOf | app/services/router_service.py:186-201 | the level from the three granularity lists; `LevelTable` states which granularities accept, warn and reject |
| AddressPolicy.LevelTable | app/services/router_service.py:59-75 | the three lists partition the granularities: PREMISE and PREMISE_PROXIMITY accept, BLOCK and ROUTE warn, every other granularity is rejected |
| AddressPolicy.NoticeOf | app/services/router_service.py:187-201 | there is no message exactly when the level is accept; a warning or rejection message names the granularity |
| AddressPolicy.BaseScore | app/services/router_service.py:294-299 | the base score is between 0.3 and 1.0, is 1.0 exactly for ROOFTOP, and is 0.3 for an unknown location type |
| AddressPolicy.Multiplier | app/services/router_service.py:301-311 | the multiplier is between 0.1 and 1.0, is 1.0 exactly for PREMISE, and is 0.1 for OTHER |
| AddressPolicy.Confidence | app/services/router_service.py:284-313 | the confidence lies in [0.03, 1] and equals 1 exactly for ROOFTOP with PREMISE |
| AddressPolicy.ConfidenceRoundingCells | app/services/router_service.py:313 | every product of table entries is a whole number of hundredths except 0.3 x 0.95 and 0.3 x 0.35, where it ends in a half hundredth |
| Router.ValidationOf | app/services/router_service.py:166-213 | the success result built from the first match; its fields, level, message and score are stated by `Interpret` |
| Router.Interpret | app/services/router_service.py:153-213 | a reply succeeds exactly when there is a first match with both coordinates present and non-zero; the validation's level, message and score follow its granularity; each error reply maps to its failure |
| Router.Resolve | app/services/router_service.py:120-239 | one resolution through the cache; `CacheHitSkipsGeocoder`, `OnlySuccessesAreCached`, `ResolveTwice` and `ResolveKeepsCacheConsistent` state its behaviour, and `RouterService.ValidateAndGeocode` is proved equal to it |
| Router.ResolveKeepsCacheConsistent | app/services/router_service.py:185-222 | resolution keeps every cached result consistent (level, message and score follow the granularity) |
| Router.CacheHitSkipsGeocoder | app/services/router_service.py:141-144 | a fresh cache entry is returned as stored, without calling the geocoder and without changing the cache |
| Router.OnlySuccessesAreCached | app/services/router_service.py:141-222 | on a miss the geocoder is called once; a success is cached with the current time; a failure leaves no entry; other entries are unchanged |
| Router.ResolveTwice | app/services/router_service.py:141-222 | a second resolution within the maximum age of a success calls no geocoder and returns the stored result; after a failure, or once the entry has aged out, it asks the geocoder again and returns the new answer, which may differ from the first |
| Router.PlanTrip | app/services/router_service.py:387-502 | the whole of `get_distance_and_time`; `TripGates`, `RejectedDestinationIsNotRouted`, `BlankOriginUsesDefault`, `GivenOriginCheckedOnlyForSuccess` and `RoutingOutcome` state its behaviour, and `RouterService.GetDistanceAndTime` is proved equal to it |
| Router.DestinationLeg | app/services/router_service.py:425-496 | the trip after the origin is settled; `DestinationLegRouting` states its behaviour |
| Router.TripGates | app/services/router_service.py:405-458 | once the origin is accepted (blank, or given and resolved at any level), a destination that does not resolve gives DESTINATION_VALIDATION_FAILED with its error, one at level reject gives DESTINATION_TOO_IMPRECISE, both with no route request, and any other is routed once from the route start to its coordinates; the cache and geocoder log are those of the two resolutions in turn |
| Router.RejectedDestinationIsNotRouted | app/services/router_service.py:436-442 | once the origin is accepted, a destination at level reject gives DESTINATION_TOO_IMPRECISE with that validation and no route is requested; conversely that failure comes only from a rejected destination, and a successful trip never has one |
| Router.BlankOriginUsesDefault | app/services/router_service.py:405-423 | an empty or whitespace origin is not geocoded and cannot fail; the trip goes on to the destination leg from the default origin, so the route starts there |
| Router.GivenOriginCheckedOnlyForSuccess | app/services/router_service.py:405-421 | a given origin that fails ends the trip with its error and nothing else is asked; one that resolves, at any level including reject, leads on to the destination leg from its coordinates |
| Router.DestinationLegRouting | app/services/router_service.py:425-496 | after the origin: the cache and geocoder log are those of the destination's resolution; a destination that does not resolve fails with its error, one at level reject fails as too imprecise, both with no route request; any other is routed once from the start to its coordinates; the route provider's failure gives ROUTING_FAILED and its answer becomes the trip's route; a warning is attached exactly at level warning |
| Router.RoutingOutcome | app/services/router_service.py:387-496 | the same facts for the whole trip, with at most two geocoder calls |
| Router.RouterService.constructor | app/services/router_service.py:77-88 | the service starts with an empty 24-hour cache and the configured default origin |
| Router.RouterService.ValidateAndGeocode | app/services/router_service.py:120-239 | the result, the new cache and the geocoder calls are those of `Resolve` on the old cache; the cache invariant is kept |
| Router.RouterService.CalculateRoute | app/services/router_service.py:315-385 | the route provider's answer for the coordinate pair, with the request logged |
| Router.RouterService.GetDistanceAndTime | app/services/router_service.py:387-502 | the result, the new cache and both provider logs are those of `PlanTrip` on the old cache; the cache invariant is kept |
| Router.RouterService.ClearCache | app/services/router_service.py:504-506 | the cache becomes empty and the invariant holds |
| Formatting.FormatPrice | app/models.py:26 | the `$1,234` text of a price; `PriceRoundTrip` proves it reads back as the price and `GroupThousandsShape` gives its separators |
| Formatting.ParsePrice | app/models.py:26 | an independent reader of the `$1,234` text, the partner `PriceRoundTrip` inverts `FormatPrice` against |
| Formatting.DecimalDigits | app/models.py:26 | the digits of a non-negative price as `{:,}` writes them before grouping: at least one digit and no leading zero; `DecimalDigitsRoundTrip` proves they read back as the number |
| Formatting.GroupThousands | app/models.py:26 | the `,` thousands separators of `{:,}`; `GroupThousandsKeepsDigits` and `GroupThousandsShape` state what it inserts and where |
| Formatting.DecimalDigitsRoundTrip | app/models.py:26 | the decimal digits of a number read back as that number |
| Formatting.GroupThousandsKeepsDigits | app/models.py:26 | removing the commas from the grouped digits gives back the digits |
| Formatting.GroupThousandsShape | app/models.py:26 | the grouped text starts with a digit, is as long as the digits plus one comma per full group of three, and has a comma exactly at every fourth position from the right |
| Formatting.PriceRoundTrip | app/models.py:26 | the `$`-formatted price, with its sign and separators, parses back to the price |
| Formatting.TwoDigits | app/models.py:72-73 | a number below 100 is written as two digits with that value |
| Models.HourOf | app/models.py:72-73 | the hour is below 24 and is the one whose hour-long interval contains the time |
| Models.MinuteOf | app/models.py:72-73 | the minute is below 60 and is the one whose minute-long interval of the hour contains the time |
| Models.IsAvailableAt | app/models.py:51-63 | the window test of `is_available_now` with the clock reading as a parameter; `AvailabilityIsForwardArc`, `WrappingWindowIsComplementOfGap` and `AvailabilityBoundaries` state its behaviour |
| Models.AvailabilityIsForwardArc | app/models.py:51-63 | both branches of the window test are one rule: an active method is open while the forward distance from start to now is at most that from start to end |
| Models.WrappingWindowIsComplementOfGap | app/models.py:62-63 | a window that wraps midnight is open exactly outside the open gap (end, start) |
| Models.AvailabilityBoundaries | app/models.py:53-60 | a window ending 18:00 is open at 18:00:00 and closed at 18:00:30; a window with start equal to end is open only at that instant; an inactive method is never open, at any time and for any window |
| Models.FormatHHMM | app/models.py:72-73 | the text is two digits, a colon and two digits, reading as the hour and the minute |
| Models.ZoneToDict | app/models.py:20-31 | the view copies the zone's fields and its formatted price parses back to the price |
| Models.MethodToDict | app/models.py:65-78 | the view copies the id, name, code, description, active flag and maximum distance; both times read as their `HH:MM`; `is_available_now` is the window test at the given time, so a method shown as available is active |
| QuoteMatching.FindZone | app/routes/shipping.py:22-30 | an answer is an active zone whose closed range contains the distance; there is no answer exactly when no active zone contains it |
| QuoteMatching.ActiveMethods | app/routes/shipping.py:81 | a method is in the result exactly when it is in the table and active |
| QuoteMatching.EligibleMethods | app/routes/shipping.py:84-91 | a method is in the result exactly when it is in the list, open now, and its maximum distance is at least the distance |
| QuoteMatching.ActiveMethodsMultiplicity | app/routes/shipping.py:81 | the query returns every active method exactly as often as the table holds it, and no inactive one |
| QuoteMatching.EligibleMethodsMultiplicity | app/routes/shipping.py:84-91 | the loop keeps every eligible method exactly as often as it visits it, and drops the others |
| QuoteMatching.Matches | app/routes/shipping.py:84-97 | the (method, zone) pairs the quote loop emits; `MatchesCharacterization` and `MatchesCountEachMethodOnce` state which and how many |
| QuoteMatching.MatchesCharacterization | app/routes/shipping.py:84-97 | every emitted method is active, open now and within its maximum distance, with the zone found; every such method is emitted iff some active zone contains the distance |
| QuoteMatching.MatchesCountEachMethodOnce | app/routes/shipping.py:84-97 | each eligible method is matched exactly as often as it is visited when some zone contains the distance; otherwise no method is matched |
| QuoteMatching.MatchMethods | app/routes/shipping.py:84-131 | the loop's options and queued quotes are, in order, those of the matches |
| QuoteMatching.OptionFor | app/routes/shipping.py:119-131 | the reply option for a match; `OptionsMatchDrafts` relates it to the audit quote |
| QuoteMatching.DraftFor | app/routes/shipping.py:100-117 | the audit quote queued for a match; `OptionsMatchDrafts` relates it to the option |
| QuoteMatching.OptionsMatchDrafts | app/routes/shipping.py:99-131 | an option and its audit quote carry the same method, zone, price and distance; the formatted price parses back to the price |
| Shipping.FindMethod | app/routes/shipping.py:457 | an answer is a position holding the requested id; there is none exactly when no method has that id |
| Shipping.QuoteCount | app/routes/shipping.py:524 | the count is the number of quotes that refer to the method, so it is zero exactly when none does |
| Shipping.FirstMissingField | app/routes/shipping.py:403-409 | nothing is missing exactly when every required key is present; otherwise the answer is the first absent key in checking order |
| Shipping.NewMethod | app/routes/shipping.py:424-433 | the row `create_method` inserts; `ShippingDb.CreateMethod` states when it is appended |
| Shipping.ApplyPatch | app/routes/shipping.py:476-493 | the field assignments of `update_method`; `PatchChangesOnlyPresentFields` states which fields change |
| Shipping.PatchChangesOnlyPresentFields | app/routes/shipping.py:476-493 | an update assigns exactly the fields whose keys are present, never the id, and repeating it changes nothing more |
| Shipping.Toggled | app/routes/shipping.py:559 | the active flag is negated and every other field is kept |
| Shipping.DefaultMethods | app/routes/shipping.py:339-360 | the two default methods; `DefaultMethodsAreActive` and the two default scenarios state their behaviour |
| Shipping.DefaultZones | app/routes/shipping.py:363-369 | the five default zones; `DefaultZonesCoverZeroToSeven` and `SharedBoundary` state their coverage |
| Shipping.DefaultZonesCoverZeroToSeven | app/routes/shipping.py:363-369 | the five default zones are contiguous and some zone contains a distance exactly when it lies in [0, 7] km |
| Shipping.SharedBoundary | app/routes/shipping.py:22-30 | 3.0 km lies in the two zones that meet there, at different prices |
| Shipping.DefaultMethodsAreActive | app/routes/shipping.py:339-360 | both default methods are active |
| Shipping.DefaultScenarioAt4Point2Km | app/routes/shipping.py:339-369 | with the default data, 4.2 km at 10:00 is offered by both methods at 5000, and at 19:00 only by the scheduled method |
| Shipping.DefaultScenarioNoOptions | app/routes/shipping.py:339-369 | with the default data, 9 km gets no option, and neither method is open at 23:59:30 |
| Shipping.ActiveZoneRanges | app/routes/shipping.py:141-144 | the `available_zones` of the no-option reply; `ActiveZoneRangesAreActiveZones` states that they are the active zones' ranges |
| Shipping.ActiveZoneRangesAreActiveZones | app/routes/shipping.py:141-144 | the reported ranges are exactly those of the active zones |
| Shipping.ReplyFor | app/routes/shipping.py:135-155 | the reply once the route is known; `QuoteReplyProperties` states it |
| Shipping.StoredQuotes | app/routes/shipping.py:100-133 | the audit quotes the endpoint commits; `QuoteReplyProperties`, `OneQuotePerMatchedMethod` and `StoredQuotesKeepTablesValid` state them |
| Shipping.QuoteReplyProperties | app/routes/shipping.py:80-155 | no option exactly when nothing is stored, reporting the distance and every active zone range; otherwise one stored quote per option with consecutive ids, all at the price, id and range of the active zone `find_zone_for_distance` gives for the distance, each for an active method open now and within its maximum distance |
| Shipping.NoOptionsReply | app/routes/shipping.py:135-146 | the no-options half of `QuoteReplyProperties` |
| Shipping.QuotedReply | app/routes/shipping.py:99-155 | the quoted half of `QuoteReplyProperties` |
| Shipping.OneQuotePerMatchedMethod | app/routes/shipping.py:81-117 | one stored quote per match, in order, for that match's method; each method of the table is matched exactly as often as it occurs there when it is eligible and a zone contains the distance, and never otherwise |
| Shipping.StoredQuotesKeepTablesValid | app/routes/shipping.py:99-133 | the stored quotes have fresh distinct ids and refer to existing methods and zones |
| Shipping.RemovingUnreferencedMethod | app/routes/shipping.py:524-531 | deleting a method that no quote refers to keeps ids and codes unique and every quote reference valid |
| Shipping.ShippingDb.InitDefaultData | app/routes/shipping.py:326-382 | refused while any method or zone exists; otherwise the tables hold exactly 2 default methods and 5 default zones, with 2 and 5 reported |
| Shipping.ShippingDb.CreateMethod | app/routes/shipping.py:395-442 | a missing required key, then a code held by any method, is refused with nothing changed; otherwise exactly one method is appended, with an empty description and active status by default |
| Shipping.ShippingDb.UpdateMethod | app/routes/shipping.py:452-501 | an unknown id is refused; a new code held by another method is refused with nothing changed; resubmitting the method's own code is allowed; otherwise only that method changes, by the present keys |
| Shipping.ShippingDb.DeleteMethod | app/routes/shipping.py:511-537 | an unknown id is refused; a method that quotes refer to is refused with their count; otherwise exactly that method is removed |
| Shipping.ShippingDb.ToggleMethodStatus | app/routes/shipping.py:547-567 | an unknown id is refused; otherwise only that method changes, with its active flag negated |
| Shipping.ShippingDb.GetShippingQuote | app/routes/shipping.py:36-155 | an empty body, then a missing destination, is refused with no routing call and nothing changed; otherwise the router runs as `PlanTrip`, a failure is returned with its status, and on success the reply and the stored quotes are those of `ReplyFor` and `StoredQuotes`; method and zone tables never change |
| Shipping.ToggleTwice | app/routes/shipping.py:547-567 | two toggles of the same id restore the method table; the first succeeds exactly when the id exists |

## Left out

- The Google Maps client is not modelled. The geocoding call (with its Chile restriction and Spanish answers) and the distance-matrix call are parameters, `geocode` and `route`. The unpacking of the distance-matrix reply in `calculate_route` sits behind `route`.
- `RouterService.__init__` is modelled only in part: reading the API key and parsing `DEFAULT_ORIGIN_ADDRESS` with `float()` from the environment are left out. The default origin is a constructor argument.
- Logging, Flask routing, JSON encoding, templates, HTTP status codes, the admin pages, the list endpoints, the quote statistics and `get_cache_stats` are left out. An error constructor stands for each 400 or 404 answer.
- Generic exception handlers (the 500 answers with rollback) are left out. These include a body that is not a JSON object, `strptime` failures on malformed times and `float()` failures on malformed distances. Request bodies arrive typed.
- A JSON `null` value in a quote request is not represented as a value. A key holding `null` only makes the body non-empty (`otherKeys`), with the key itself treated as absent. For `destination` this gives the missing-destination refusal, as in the source (app/routes/shipping.py:51, :61-65). For `origin` the model then geocodes the default origin text "Santiago Centro, Chile". The source instead gets `None`, which skips the geocoder and routes from the default coordinates (app/services/router_service.py:405, :422) exactly as an empty origin does, so such a body is written `origin: Some("")`.
- Creation and update timestamps of rows are left out. So are the `range_text` and `zone_range` strings, which format floats.
- Floating point is left out. Distances and coordinates are reals compared exactly. The rounding of distances to two decimals sits behind `route`.
- The clock is two parameters of `GetShippingQuote`: `clock`, the cache time in microseconds, and `now`, the time of day. The source reads `datetime.now()` afresh at every cache get (app/services/router_service.py:27), at every cache set (app/services/router_service.py:43) and in each method's `is_available_now` (app/models.py:56). The model takes one reading of each per request.
- Router.ResolveTwice: a resolution stamps its cache entry with the lookup time. The source stamps it with the time after the geocoder answered, so the model's entry ages out earlier than the source's by the geocoder's latency.
- Router.RouterService.GetDistanceAndTime: the origin and the destination are looked up in the cache at the same instant. In the source the destination's lookup comes later, by the origin's geocoding time.
- QuoteMatching.MatchMethods: every method of a request is tested against one time of day. In the source each method reads the clock itself, so a request that straddles a window's end can see an earlier method open and a later one closed.
- Router.Resolve: the geocoder is a fixed function of the address for the duration of one resolution or one trip. Within one trip the source asks it at most once per address (a repeated address is a cache hit or ends the trip), so nothing is lost there. Separate calls take separate functions, so a transient provider error followed by a match is covered (`ResolveTwice` takes two geocoders).
- AddressPolicy.Confidence: computed in integer hundredths with truncating division, not floating point with `round`. The two cells where this could matter are named by `ConfidenceRoundingCells`; there the binary product lies just below the half, so `round` also goes down.
- Router.Interpret: the Spanish wording of the warning and rejection messages is not modelled; a message is represented by its kind and granularity.
- Router.BlankOriginUsesDefault: whitespace follows Python's `str.strip` for the characters listed in `IsWhitespace`; other Unicode separators are not covered.
- QuoteMatching.FindZone: the source's query has no ordering, so at a shared boundary the database may return either adjacent zone. The model returns the first containing zone in table order. Its contract promises only what the source does: some active containing zone, or none exactly when there is no such zone.
- QuoteMatching.OptionFor: the option's `quote_id` is left out. The source reads it before the commit, when it is still `None`. `duration_text` is left out too.
- Shipping.ShippingDb.GetShippingQuote: the `router_response` audit column is left out. As written, app/routes/shipping.py:114 reads `route_result['router_response']`, but `get_distance_and_time` never sets that key (app/services/router_service.py:461-488). In the source, every quote request with at least one option therefore raises, rolls back and answers 500. The model keeps the evidently intended behaviour: it stores the quotes and returns the options.
- `test_address` is left out. It calls `router_service.geocode_address`, which the router service does not define.
- Weekday availability and zone validation (overlap, minimum below maximum) are not part of this model. Neither appears in app/models.py or app/routes/shipping.py.
- Row ids come from per-table counters that are never reused, as an autoincrementing key hands them out.
- The standalone scripts and configuration files are not part of this model. These are the admin-user setup, the table creation and migrations, the deployment and API diagnostics, the live-API test scripts, `config.py`, `run.py` and the gunicorn configuration.
