/**
  `RouterService`: resolving a free-text address through the address cache and
  the geocoding provider, and `get_distance_and_time`, which resolves the
  origin (or takes the configured default origin) and the destination, refuses
  a destination that is too imprecise, and asks the route provider for the
  driving distance and duration.

  The two providers are parameters: `geocode` is the geocoding call restricted
  to Chile with its first result and its error replies, and `route` stands for
  `calculate_route` (the distance-matrix call and the unpacking of its reply).
  The service keeps ghost logs of the requests it sent to each provider, so
  that contracts can say when a provider is not called.

  Each state-changing method is specified by a function of the old state
  (`Resolve`, `PlanTrip`); the properties of the procedure are lemmas about
  those functions.
 */
module Router {
  import opened Common
  import opened AddressPolicy
  import opened AddressCaching

  /** The first match of a geocoding reply; absent fields are `None`. */
  datatype GeoMatch = GeoMatch(
    lat: Option<real>,
    lng: Option<real>,
    formattedAddress: Option<string>,
    types: seq<string>,
    locationType: Option<string>,
    placeId: Option<string>)

  datatype GeocodeReply = Matches(results: seq<GeoMatch>) | ApiError(message: string) | InternalError(message: string)

  datatype ResolveError = NotFound | NoCoordinates | ProviderFailure(message: string) | InternalFailure(message: string)

  /** The successful result of `validate_and_geocode_address`, which is also what the cache stores. */
  datatype Validation = Validation(
    lat: real,
    lng: real,
    formattedAddress: string,
    granularity: Granularity,
    level: Level,
    confidence: nat,
    notice: Option<Notice>,
    locationType: string,
    types: seq<string>,
    placeId: Option<string>)

  datatype Resolution = Resolved(validation: Validation) | Unresolved(error: ResolveError)

  /** A coordinate is usable when present and non-zero (Python's `not lat` treats 0.0 as missing). */
  predicate HasCoordinate(x: Option<real>) {
    x.Some? && x.value != 0.0
  }

  function ValidationOf(address: string, m: GeoMatch): Validation
    requires HasCoordinate(m.lat) && HasCoordinate(m.lng)
  {
    var g := DetermineGranularity(m.types);
    var lt := LocationTypeOrDefault(m.locationType);
    Validation(m.lat.value, m.lng.value, m.formattedAddress.GetOr(address), g, LevelOf(g),
               Confidence(lt, g), NoticeOf(g), lt, m.types, m.placeId)
  }

  /** What `validate_and_geocode_address` makes of a geocoding reply (the part after the cache). */
  function Interpret(address: string, reply: GeocodeReply): (r: Resolution)
    ensures r.Resolved? <==>
      reply.Matches? && |reply.results| > 0 && HasCoordinate(reply.results[0].lat) && HasCoordinate(reply.results[0].lng)
    ensures r.Resolved? ==>
      var m, v := reply.results[0], r.validation;
      && v.lat == m.lat.value && v.lng == m.lng.value
      && v.formattedAddress == m.formattedAddress.GetOr(address)
      && v.granularity == DetermineGranularity(m.types)
      && v.level == LevelOf(v.granularity)
      && (v.notice.None? <==> v.level == Accept)
      && v.confidence <= 100
      && (v.confidence == 100 <==> m.locationType.GetOr("APPROXIMATE") == "ROOFTOP" && v.granularity == Premise)
    ensures reply.Matches? && |reply.results| == 0 ==> r == Unresolved(NotFound)
    ensures reply.Matches? && |reply.results| > 0 && !r.Resolved? ==> r == Unresolved(NoCoordinates)
    ensures reply.ApiError? ==> r == Unresolved(ProviderFailure(reply.message))
    ensures reply.InternalError? ==> r == Unresolved(InternalFailure(reply.message))
  {
    match reply
    case ApiError(msg) => Unresolved(ProviderFailure(msg))
    case InternalError(msg) => Unresolved(InternalFailure(msg))
    case Matches(results) =>
      if |results| == 0 then Unresolved(NotFound)
      else if !HasCoordinate(results[0].lat) || !HasCoordinate(results[0].lng) then Unresolved(NoCoordinates)
      else Resolved(ValidationOf(address, results[0]))
  }

  type Entries = map<string, CacheEntry<Validation>>

  /** One resolution: its result, the cache afterwards, and the addresses sent to the geocoder. */
  datatype ResolveStep = ResolveStep(result: Resolution, entries: Entries, geocoded: seq<string>)

  /**
    `validate_and_geocode_address`: a fresh cache entry is returned as it is;
    otherwise (after `get` has dropped an expired entry) the geocoder is asked,
    and only a successful result is written to the cache.
   */
  function Resolve(entries: Entries, maxAge: int, address: string, now: int, geocode: string -> GeocodeReply): ResolveStep {
    if IsFresh(entries, maxAge, address, now) then
      ResolveStep(Resolved(entries[address].data), entries, [])
    else
      var kept := AfterLookup(entries, maxAge, address, now);
      var r := Interpret(address, geocode(address));
      ResolveStep(r, if r.Resolved? then kept[address := CacheEntry(r.validation, now)] else kept, [address])
  }

  /** A validation as `validate_and_geocode_address` builds it: level, notice and score follow the granularity. */
  predicate Consistent(v: Validation) {
    && v.level == LevelOf(v.granularity)
    && v.notice == NoticeOf(v.granularity)
    && v.confidence == Confidence(v.locationType, v.granularity)
  }

  /** Every cached result is one the service built. */
  predicate CacheConsistent(entries: Entries) {
    forall a :: a in entries ==> Consistent(entries[a].data)
  }

  /** Resolution keeps the cache consistent and only returns consistent validations. */
  lemma ResolveKeepsCacheConsistent(entries: Entries, maxAge: int, address: string, now: int, geocode: string -> GeocodeReply)
    requires CacheConsistent(entries)
    ensures var step := Resolve(entries, maxAge, address, now, geocode);
      CacheConsistent(step.entries) && (step.result.Resolved? ==> Consistent(step.result.validation))
  {
  }

  /** A cache hit returns the stored result and does not call the geocoder. */
  lemma CacheHitSkipsGeocoder(entries: Entries, maxAge: int, address: string, now: int, geocode: string -> GeocodeReply)
    requires IsFresh(entries, maxAge, address, now)
    ensures Resolve(entries, maxAge, address, now, geocode) == ResolveStep(Resolved(entries[address].data), entries, [])
  {
  }

  /**
    On a miss the geocoder is called once; a success is cached under the
    address with the current time, a failure leaves no entry for the address,
    and no other address's entry changes either way.
   */
  lemma OnlySuccessesAreCached(entries: Entries, maxAge: int, address: string, now: int, geocode: string -> GeocodeReply)
    requires !IsFresh(entries, maxAge, address, now)
    ensures var step := Resolve(entries, maxAge, address, now, geocode);
      && step.geocoded == [address]
      && step.result == Interpret(address, geocode(address))
      && (step.result.Resolved? ==> address in step.entries && step.entries[address] == CacheEntry(step.result.validation, now))
      && (step.result.Unresolved? ==> address !in step.entries)
      && forall k :: k != address ==> (k in step.entries <==> k in entries) && (k in entries ==> step.entries[k] == entries[k])
  {
  }

  /**
    Resolving an address twice: within the maximum age of a success the
    second resolution calls no geocoder and returns the stored result; after
    a failure, or once the stored result has aged out, the geocoder is asked
    again and its new answer (`geocode2`, which may differ from the first) is
    the result.
   */
  lemma ResolveTwice(entries: Entries, maxAge: int, address: string, now1: int, now2: int,
                     geocode1: string -> GeocodeReply, geocode2: string -> GeocodeReply)
    requires !IsFresh(entries, maxAge, address, now1)
    ensures var first := Resolve(entries, maxAge, address, now1, geocode1);
      var second := Resolve(first.entries, maxAge, address, now2, geocode2);
      && first.geocoded == [address]
      && (first.result.Resolved? && now2 - now1 < maxAge ==> second.geocoded == [] && second.result == first.result)
      && (first.result.Unresolved? || now2 - now1 >= maxAge ==>
            second.geocoded == [address] && second.result == Interpret(address, geocode2(address)))
  {
    var first := Resolve(entries, maxAge, address, now1, geocode1);
    OnlySuccessesAreCached(entries, maxAge, address, now1, geocode1);
    if first.result.Unresolved? || now2 - now1 >= maxAge {
      assert !IsFresh(first.entries, maxAge, address, now2);
      OnlySuccessesAreCached(first.entries, maxAge, address, now2, geocode2);
    }
  }

  datatype Coords = Coords(lat: real, lng: real)

  /** A point the route starts from: the configured default origin or a resolved origin. */
  datatype Place = Place(lat: real, lng: real, formattedAddress: string)

  /** What `calculate_route` returns on success. */
  datatype RouteInfo = RouteInfo(distanceKm: real, durationMinutes: int, distanceText: string, durationText: string)

  datatype Endpoint = Endpoint(address: string, formattedAddress: string, lat: real, lng: real)

  /** The success reply of `get_distance_and_time`; `warning` is set only at level warning. */
  datatype Trip = Trip(origin: Endpoint, destination: Endpoint, validation: Validation, route: RouteInfo, warning: Option<Notice>)

  datatype TripFailure =
    | OriginValidationFailed(error: ResolveError)
    | DestinationValidationFailed(error: ResolveError)
    | DestinationTooImprecise(validation: Validation)
    | RoutingFailed

  datatype TripResult = TripOk(trip: Trip) | TripFailed(failure: TripFailure)

  /** The characters Python's `str.strip()` removes. */
  predicate IsWhitespace(c: char) {
    c in {' ', '\t', '\n', '\r', '\U{B}', '\U{C}', '\U{1C}', '\U{1D}', '\U{1E}', '\U{1F}', '\U{85}', '\U{A0}',
          '\U{1680}', '\U{2028}', '\U{2029}', '\U{202F}', '\U{205F}', '\U{3000}'}
    || '\U{2000}' <= c <= '\U{200A}'
  }

  /** `origin_address and origin_address.strip()`: a non-empty origin that is not all whitespace. */
  predicate UsesGivenOrigin(origin: string) {
    exists i :: 0 <= i < |origin| && !IsWhitespace(origin[i])
  }

  datatype TripStep = TripStep(result: TripResult, entries: Entries, geocoded: seq<string>, routed: seq<(Coords, Coords)>)

  /** `get_distance_and_time`, from its inputs and the cache it starts with. */
  function PlanTrip(entries: Entries, maxAge: int, now: int, defaultOrigin: Place, origin: string, destination: string,
                    geocode: string -> GeocodeReply, route: (Coords, Coords) -> Option<RouteInfo>): TripStep
  {
    if UsesGivenOrigin(origin) then
      var os := Resolve(entries, maxAge, origin, now, geocode);
      if os.result.Unresolved? then
        TripStep(TripFailed(OriginValidationFailed(os.result.error)), os.entries, os.geocoded, [])
      else
        var ov := os.result.validation;
        DestinationLeg(os.entries, maxAge, now, Place(ov.lat, ov.lng, ov.formattedAddress), origin, destination, geocode, route, os.geocoded)
    else
      DestinationLeg(entries, maxAge, now, defaultOrigin, origin, destination, geocode, route, [])
  }

  /** The part of `get_distance_and_time` after the origin is settled. */
  function DestinationLeg(entries: Entries, maxAge: int, now: int, from: Place, origin: string, destination: string,
                          geocode: string -> GeocodeReply, route: (Coords, Coords) -> Option<RouteInfo>,
                          geocodedBefore: seq<string>): TripStep
  {
    var ds := Resolve(entries, maxAge, destination, now, geocode);
    var geocoded := geocodedBefore + ds.geocoded;
    if ds.result.Unresolved? then
      TripStep(TripFailed(DestinationValidationFailed(ds.result.error)), ds.entries, geocoded, [])
    else
      var dv := ds.result.validation;
      if dv.level == Reject then
        TripStep(TripFailed(DestinationTooImprecise(dv)), ds.entries, geocoded, [])
      else
        var legs := (Coords(from.lat, from.lng), Coords(dv.lat, dv.lng));
        match route(legs.0, legs.1)
        case None => TripStep(TripFailed(RoutingFailed), ds.entries, geocoded, [legs])
        case Some(info) =>
          var originEndpoint := Endpoint(if origin != [] then origin else from.formattedAddress, from.formattedAddress, from.lat, from.lng);
          var destinationEndpoint := Endpoint(destination, dv.formattedAddress, dv.lat, dv.lng);
          var warning := if dv.level == Warning then dv.notice else None;
          TripStep(TripOk(Trip(originEndpoint, destinationEndpoint, dv, info, warning)), ds.entries, geocoded, [legs])
  }

  /** The destination's resolution within a trip: the origin's resolution, if any, runs first on the same cache. */
  function CacheBeforeDestination(entries: Entries, maxAge: int, now: int, origin: string, geocode: string -> GeocodeReply): Entries {
    if UsesGivenOrigin(origin) then Resolve(entries, maxAge, origin, now, geocode).entries else entries
  }

  /** The origin does not end the trip: it is blank, or it is given and resolves (at any level). */
  predicate OriginAccepted(entries: Entries, maxAge: int, now: int, origin: string, geocode: string -> GeocodeReply) {
    !UsesGivenOrigin(origin) || Resolve(entries, maxAge, origin, now, geocode).result.Resolved?
  }

  /** Where the route starts: the resolved given origin, or the default origin for a blank one. */
  function RouteStart(entries: Entries, maxAge: int, now: int, defaultOrigin: Place, origin: string, geocode: string -> GeocodeReply): Coords {
    var os := Resolve(entries, maxAge, origin, now, geocode);
    if UsesGivenOrigin(origin) && os.result.Resolved? then Coords(os.result.validation.lat, os.result.validation.lng)
    else Coords(defaultOrigin.lat, defaultOrigin.lng)
  }

  /**
    The gates of `get_distance_and_time` once the origin is accepted: a
    destination that does not resolve fails with its own error, one at level
    reject fails as too imprecise, both with no route request, and any other
    destination is routed once, from the route start to its coordinates. The
    cache and the geocoder log are those of the two resolutions in turn.
   */
  lemma TripGates(entries: Entries, maxAge: int, now: int, defaultOrigin: Place, origin: string,
                  destination: string, geocode: string -> GeocodeReply, route: (Coords, Coords) -> Option<RouteInfo>)
    requires OriginAccepted(entries, maxAge, now, origin, geocode)
    ensures var step := PlanTrip(entries, maxAge, now, defaultOrigin, origin, destination, geocode, route);
      var before := CacheBeforeDestination(entries, maxAge, now, origin, geocode);
      var ds := Resolve(before, maxAge, destination, now, geocode);
      var originGeocoded := if UsesGivenOrigin(origin) then Resolve(entries, maxAge, origin, now, geocode).geocoded else [];
      && step.entries == ds.entries
      && step.geocoded == originGeocoded + ds.geocoded
      && (ds.result.Unresolved? ==> step.result == TripFailed(DestinationValidationFailed(ds.result.error)) && step.routed == [])
      && (ds.result.Resolved? && ds.result.validation.level == Reject ==>
            step.result == TripFailed(DestinationTooImprecise(ds.result.validation)) && step.routed == [])
      && (ds.result.Resolved? && ds.result.validation.level != Reject ==>
            step.routed == [(RouteStart(entries, maxAge, now, defaultOrigin, origin, geocode),
                             Coords(ds.result.validation.lat, ds.result.validation.lng))])
  {
  }

  /**
    A destination at level reject ends the trip as too imprecise before any
    route is asked for; a successful trip never has a rejected destination.
   */
  lemma RejectedDestinationIsNotRouted(entries: Entries, maxAge: int, now: int, defaultOrigin: Place, origin: string,
                                       destination: string, geocode: string -> GeocodeReply, route: (Coords, Coords) -> Option<RouteInfo>)
    ensures var step := PlanTrip(entries, maxAge, now, defaultOrigin, origin, destination, geocode, route);
      var ds := Resolve(CacheBeforeDestination(entries, maxAge, now, origin, geocode), maxAge, destination, now, geocode);
      && (step.result.TripFailed? && step.result.failure.DestinationTooImprecise? ==>
            step.routed == [] && ds.result == Resolved(step.result.failure.validation) && ds.result.validation.level == Reject)
      && (step.result.TripOk? ==> step.result.trip.validation.level != Reject && ds.result == Resolved(step.result.trip.validation))
      && (OriginAccepted(entries, maxAge, now, origin, geocode) && ds.result.Resolved? && ds.result.validation.level == Reject ==>
            step.result == TripFailed(DestinationTooImprecise(ds.result.validation)) && step.routed == [])
  {
    if OriginAccepted(entries, maxAge, now, origin, geocode) {
      TripGates(entries, maxAge, now, defaultOrigin, origin, destination, geocode, route);
    }
  }

  /**
    An empty or blank origin uses the default origin: only the destination can
    reach the geocoder, and a successful trip starts at the default coordinates.
   */
  lemma BlankOriginUsesDefault(entries: Entries, maxAge: int, now: int, defaultOrigin: Place, origin: string,
                                destination: string, geocode: string -> GeocodeReply, route: (Coords, Coords) -> Option<RouteInfo>)
    requires !UsesGivenOrigin(origin)
    ensures var step := PlanTrip(entries, maxAge, now, defaultOrigin, origin, destination, geocode, route);
      && (step.geocoded == [] || step.geocoded == [destination])
      && !(step.result.TripFailed? && step.result.failure.OriginValidationFailed?)
      && (step.result.TripOk? ==>
            step.result.trip.origin.lat == defaultOrigin.lat && step.result.trip.origin.lng == defaultOrigin.lng
            && step.result.trip.origin.formattedAddress == defaultOrigin.formattedAddress)
      && (step.routed != [] ==> step.routed[0].0 == Coords(defaultOrigin.lat, defaultOrigin.lng))
      && step == DestinationLeg(entries, maxAge, now, defaultOrigin, origin, destination, geocode, route, [])
  {
  }

  /**
    A given origin is checked for success only: when it resolves, whatever its
    level (reject included), the trip goes on from its coordinates; when it
    does not, the trip fails with its error and nothing else is asked.
   */
  lemma GivenOriginCheckedOnlyForSuccess(entries: Entries, maxAge: int, now: int, defaultOrigin: Place, origin: string,
                                          destination: string, geocode: string -> GeocodeReply, route: (Coords, Coords) -> Option<RouteInfo>)
    requires UsesGivenOrigin(origin)
    ensures var step := PlanTrip(entries, maxAge, now, defaultOrigin, origin, destination, geocode, route);
      var os := Resolve(entries, maxAge, origin, now, geocode);
      && (os.result.Unresolved? ==>
            step.result == TripFailed(OriginValidationFailed(os.result.error)) && step.geocoded == os.geocoded && step.routed == [])
      && (os.result.Resolved? ==>
            !(step.result.TripFailed? && step.result.failure.OriginValidationFailed?)
            && (step.routed != [] ==> step.routed[0].0 == Coords(os.result.validation.lat, os.result.validation.lng))
            && step == DestinationLeg(os.entries, maxAge, now,
                                      Place(os.result.validation.lat, os.result.validation.lng, os.result.validation.formattedAddress),
                                      origin, destination, geocode, route, os.geocoded))
  {
  }

  /** What `RoutingOutcome` says, for the destination leg alone. */
  lemma DestinationLegRouting(entries: Entries, maxAge: int, now: int, from: Place, origin: string, destination: string,
                              geocode: string -> GeocodeReply, route: (Coords, Coords) -> Option<RouteInfo>, geocodedBefore: seq<string>)
    requires CacheConsistent(entries)
    ensures var step := DestinationLeg(entries, maxAge, now, from, origin, destination, geocode, route, geocodedBefore);
      && |step.routed| <= 1 && |step.geocoded| <= |geocodedBefore| + 1
      && (step.result == TripFailed(RoutingFailed) <==> |step.routed| == 1 && route(step.routed[0].0, step.routed[0].1).None?)
      && (step.result.TripOk? <==> |step.routed| == 1 && route(step.routed[0].0, step.routed[0].1).Some?)
      && (step.result.TripOk? ==> route(step.routed[0].0, step.routed[0].1) == Some(step.result.trip.route))
      && (step.result.TripOk? ==> (step.result.trip.warning.Some? <==> step.result.trip.validation.level == Warning))
    ensures var step := DestinationLeg(entries, maxAge, now, from, origin, destination, geocode, route, geocodedBefore);
      var ds := Resolve(entries, maxAge, destination, now, geocode);
      && step.entries == ds.entries && step.geocoded == geocodedBefore + ds.geocoded
      && (ds.result.Unresolved? ==> step.result == TripFailed(DestinationValidationFailed(ds.result.error)) && step.routed == [])
      && (ds.result.Resolved? && ds.result.validation.level == Reject ==>
            step.result == TripFailed(DestinationTooImprecise(ds.result.validation)) && step.routed == [])
      && (ds.result.Resolved? && ds.result.validation.level != Reject ==>
            step.routed == [(Coords(from.lat, from.lng), Coords(ds.result.validation.lat, ds.result.validation.lng))])
  {
    ResolveKeepsCacheConsistent(entries, maxAge, destination, now, geocode);
  }

  /**
    The route provider is asked at most once; its failure gives ROUTING_FAILED
    and its answer is the route of a successful trip.
   */
  lemma RoutingOutcome(entries: Entries, maxAge: int, now: int, defaultOrigin: Place, origin: string,
                        destination: string, geocode: string -> GeocodeReply, route: (Coords, Coords) -> Option<RouteInfo>)
    requires CacheConsistent(entries)
    ensures var step := PlanTrip(entries, maxAge, now, defaultOrigin, origin, destination, geocode, route);
      && |step.routed| <= 1 && |step.geocoded| <= 2
      && (step.result == TripFailed(RoutingFailed) <==> |step.routed| == 1 && route(step.routed[0].0, step.routed[0].1).None?)
      && (step.result.TripOk? <==> |step.routed| == 1 && route(step.routed[0].0, step.routed[0].1).Some?)
      && (step.result.TripOk? ==> route(step.routed[0].0, step.routed[0].1) == Some(step.result.trip.route))
      && (step.result.TripOk? ==> (step.result.trip.warning.Some? <==> step.result.trip.validation.level == Warning))
  {
    if UsesGivenOrigin(origin) {
      ResolveKeepsCacheConsistent(entries, maxAge, origin, now, geocode);
      var os := Resolve(entries, maxAge, origin, now, geocode);
      if os.result.Resolved? {
        var ov := os.result.validation;
        DestinationLegRouting(os.entries, maxAge, now, Place(ov.lat, ov.lng, ov.formattedAddress), origin, destination, geocode, route, os.geocoded);
      }
    } else {
      DestinationLegRouting(entries, maxAge, now, defaultOrigin, origin, destination, geocode, route, []);
    }
  }

  class RouterService {
    const addressCache: AddressCache<Validation>
    const defaultOrigin: Place
    /** Addresses sent to the geocoding provider, oldest first. */
    ghost var geocoded: seq<string>
    /** Coordinate pairs sent to the route provider, oldest first. */
    ghost var routed: seq<(Coords, Coords)>

    /** The cache only holds results the service built. */
    ghost predicate Valid()
      reads this, addressCache
    {
      CacheConsistent(addressCache.entries)
    }

    /** The default origin comes from configuration; the cache keeps results for 24 hours. */
    constructor (defaultOrigin: Place)
      ensures Valid()
      ensures this.defaultOrigin == defaultOrigin && fresh(addressCache)
      ensures addressCache.entries == map[] && addressCache.maxAge == 24 * MicrosPerHour
      ensures geocoded == [] && routed == []
    {
      this.defaultOrigin := defaultOrigin;
      addressCache := new AddressCache(24);
      geocoded, routed := [], [];
    }

    method ValidateAndGeocode(address: string, now: int, geocode: string -> GeocodeReply) returns (r: Resolution)
      requires Valid()
      modifies this, addressCache
      ensures Valid()
      ensures var step := Resolve(old(addressCache.entries), addressCache.maxAge, address, now, geocode);
        && r == step.result && addressCache.entries == step.entries && geocoded == old(geocoded) + step.geocoded
      ensures routed == old(routed)
    {
      ResolveKeepsCacheConsistent(addressCache.entries, addressCache.maxAge, address, now, geocode);
      var cached := addressCache.Get(address, now);
      if cached.Some? {
        return Resolved(cached.value);
      }
      var reply := geocode(address);
      geocoded := geocoded + [address];
      r := Interpret(address, reply);
      if r.Resolved? {
        addressCache.Set(address, r.validation, now);
      }
    }

    method CalculateRoute(from: Coords, to: Coords, route: (Coords, Coords) -> Option<RouteInfo>) returns (info: Option<RouteInfo>)
      modifies this
      ensures info == route(from, to) && routed == old(routed) + [(from, to)] && geocoded == old(geocoded)
    {
      info := route(from, to);
      routed := routed + [(from, to)];
    }

    method GetDistanceAndTime(origin: string, destination: string, now: int,
                              geocode: string -> GeocodeReply, route: (Coords, Coords) -> Option<RouteInfo>)
      returns (r: TripResult)
      requires Valid()
      modifies this, addressCache
      ensures Valid()
      ensures var step := PlanTrip(old(addressCache.entries), addressCache.maxAge, now, defaultOrigin, origin, destination, geocode, route);
        && r == step.result && addressCache.entries == step.entries
        && geocoded == old(geocoded) + step.geocoded && routed == old(routed) + step.routed
    {
      var from := defaultOrigin;
      if UsesGivenOrigin(origin) {
        var ov := ValidateAndGeocode(origin, now, geocode);
        if ov.Unresolved? {
          return TripFailed(OriginValidationFailed(ov.error));
        }
        from := Place(ov.validation.lat, ov.validation.lng, ov.validation.formattedAddress);
      }
      var dv := ValidateAndGeocode(destination, now, geocode);
      if dv.Unresolved? {
        return TripFailed(DestinationValidationFailed(dv.error));
      }
      var v := dv.validation;
      if v.level == Reject {
        return TripFailed(DestinationTooImprecise(v));
      }
      var info := CalculateRoute(Coords(from.lat, from.lng), Coords(v.lat, v.lng), route);
      if info.None? {
        return TripFailed(RoutingFailed);
      }
      var originEndpoint := Endpoint(if origin != [] then origin else from.formattedAddress, from.formattedAddress, from.lat, from.lng);
      var destinationEndpoint := Endpoint(destination, v.formattedAddress, v.lat, v.lng);
      var warning := if v.level == Warning then v.notice else None;
      r := TripOk(Trip(originEndpoint, destinationEndpoint, v, info.value, warning));
    }

    method ClearCache()
      modifies addressCache
      ensures Valid() && addressCache.entries == map[]
    {
      addressCache.Clear();
    }
  }
}
