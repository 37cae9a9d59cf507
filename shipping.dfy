/**
  The shipping tables and the endpoints that act on them: the administration
  of shipping methods (create, update, delete, toggle), the loading of the
  default methods and zones, and the quote endpoint, which routes a
  destination, matches methods and zones and stores one audit quote per
  option. Tables are sequences in insertion order; row ids come from
  per-table counters, as an autoincrementing key does.
 */
module Shipping {
  import opened Common
  import opened Models
  import opened QuoteMatching
  import Router

  // ---------------------------------------------------------------------
  // Integrity of the tables
  // ---------------------------------------------------------------------

  predicate HasMethodId(methods: seq<ShippingMethod>, id: nat) {
    exists i :: 0 <= i < |methods| && methods[i].id == id
  }

  predicate HasZoneId(zones: seq<ShippingZone>, id: nat) {
    exists i :: 0 <= i < |zones| && zones[i].id == id
  }

  predicate CodeInUse(methods: seq<ShippingMethod>, code: string) {
    exists i :: 0 <= i < |methods| && methods[i].code == code
  }

  /** Distinct ids below the next id to hand out, and distinct codes (the unique column). */
  predicate MethodsWellFormed(methods: seq<ShippingMethod>, nextId: nat) {
    && (forall i :: 0 <= i < |methods| ==> methods[i].id < nextId)
    && (forall i, j :: 0 <= i < j < |methods| ==> methods[i].id != methods[j].id)
    && (forall i, j :: 0 <= i < j < |methods| ==> methods[i].code != methods[j].code)
  }

  predicate ZonesWellFormed(zones: seq<ShippingZone>, nextId: nat) {
    && (forall i :: 0 <= i < |zones| ==> zones[i].id < nextId)
    && (forall i, j :: 0 <= i < j < |zones| ==> zones[i].id != zones[j].id)
  }

  predicate QuotesWellFormed(quotes: seq<ShippingQuote>, nextId: nat) {
    && (forall k :: 0 <= k < |quotes| ==> quotes[k].id < nextId)
    && (forall k, l :: 0 <= k < l < |quotes| ==> quotes[k].id != quotes[l].id)
  }

  /** The foreign keys of the quote table point at existing rows. */
  predicate QuotesReferToRows(quotes: seq<ShippingQuote>, methods: seq<ShippingMethod>, zones: seq<ShippingZone>) {
    forall k :: 0 <= k < |quotes| ==>
      && (quotes[k].draft.methodId.Some? ==> HasMethodId(methods, quotes[k].draft.methodId.value))
      && (quotes[k].draft.zoneId.Some? ==> HasZoneId(zones, quotes[k].draft.zoneId.value))
  }

  /** The position of the method whose id is `id`, as `ShippingMethod.query.get` finds it. */
  function FindMethod(methods: seq<ShippingMethod>, id: nat): (r: Option<nat>)
    ensures r.Some? ==> r.value < |methods| && methods[r.value].id == id
    ensures r.None? <==> !HasMethodId(methods, id)
  {
    if methods == [] then None
    else if methods[0].id == id then Some(0)
    else match FindMethod(methods[1..], id)
      case None => None
      case Some(k) => Some(k + 1)
  }

  /** The positions of the quotes that refer to the method. */
  ghost function ReferringQuotes(quotes: seq<ShippingQuote>, methodId: nat): set<nat> {
    set k: nat | k < |quotes| && quotes[k].draft.methodId == Some(methodId)
  }

  /** `ShippingQuote.query.filter_by(shipping_method_id=id).count()`: how many quotes refer to the method. */
  function QuoteCount(quotes: seq<ShippingQuote>, methodId: nat): (n: nat)
    ensures n == |ReferringQuotes(quotes, methodId)| && n <= |quotes|
    ensures n == 0 <==> forall k :: 0 <= k < |quotes| ==> quotes[k].draft.methodId != Some(methodId)
  {
    if quotes == [] then 0
    else
      var init, last := quotes[..|quotes| - 1], |quotes| - 1;
      assert ReferringQuotes(quotes, methodId)
          == ReferringQuotes(init, methodId) + (if quotes[last].draft.methodId == Some(methodId) then {last} else {});
      assert forall k :: 0 <= k < |quotes| && quotes[k].draft.methodId == Some(methodId) ==> k in ReferringQuotes(quotes, methodId);
      QuoteCount(init, methodId) + (if quotes[last].draft.methodId == Some(methodId) then 1 else 0)
  }

  // ---------------------------------------------------------------------
  // Requests and results of the administration endpoints
  // ---------------------------------------------------------------------

  /**
    The keys of a method request body, each present or absent. Times arrive
    already parsed from "HH:MM" and the distance already converted to a number.
   */
  datatype MethodFields = MethodFields(
    name: Option<string>,
    code: Option<string>,
    description: Option<string>,
    startTime: Option<TimeOfDay>,
    endTime: Option<TimeOfDay>,
    maxKm: Option<real>,
    isActive: Option<bool>)

  /** The error answers of the endpoints; the HTTP statuses are 400 or 404. */
  datatype AdminError =
    | MissingField(field: string)
    | CodeTaken(code: string)
    | MethodNotFound
    | ReferencedByQuotes(count: nat)
    | DataAlreadyPresent

  /** The keys `create_method` requires, in the order it checks them. */
  const RequiredFields: seq<string> := ["name", "code", "start_time", "end_time", "max_km"]

  predicate Present(req: MethodFields, field: string) {
    match field
    case "name" => req.name.Some?
    case "code" => req.code.Some?
    case "start_time" => req.startTime.Some?
    case "end_time" => req.endTime.Some?
    case "max_km" => req.maxKm.Some?
    case _ => false
  }

  /** The first required key, in checking order, that the request lacks. */
  function FirstMissingField(req: MethodFields): (r: Option<string>)
    ensures r.None? <==> forall f :: f in RequiredFields ==> Present(req, f)
    ensures r.Some? ==> exists i :: 0 <= i < |RequiredFields| && RequiredFields[i] == r.value && !Present(req, r.value)
                                 && forall j :: 0 <= j < i ==> Present(req, RequiredFields[j])
  {
    assert RequiredFields == ["name", "code", "start_time", "end_time", "max_km"];
    assert Present(req, "name") == req.name.Some? && Present(req, "code") == req.code.Some?;
    assert Present(req, "start_time") == req.startTime.Some? && Present(req, "end_time") == req.endTime.Some?;
    assert Present(req, "max_km") == req.maxKm.Some?;
    if req.name.None? then assert RequiredFields[0] == "name"; Some("name")
    else if req.code.None? then assert RequiredFields[1] == "code"; Some("code")
    else if req.startTime.None? then assert RequiredFields[2] == "start_time"; Some("start_time")
    else if req.endTime.None? then assert RequiredFields[3] == "end_time"; Some("end_time")
    else if req.maxKm.None? then assert RequiredFields[4] == "max_km"; Some("max_km")
    else None
  }

  /** The row `create_method` inserts: description defaults to empty, the method to active. */
  function NewMethod(id: nat, req: MethodFields): (m: ShippingMethod)
    requires FirstMissingField(req).None?
  {
    ShippingMethod(id, req.name.value, req.code.value, req.description.GetOr(""), req.isActive.GetOr(true),
                   req.startTime.value, req.endTime.value, req.maxKm.value)
  }

  /** `update_method`'s field assignments: each key present in the request replaces that field. */
  function ApplyPatch(m: ShippingMethod, p: MethodFields): ShippingMethod {
    m.(name := p.name.GetOr(m.name),
       code := p.code.GetOr(m.code),
       description := p.description.GetOr(m.description),
       maxKm := p.maxKm.GetOr(m.maxKm),
       isActive := p.isActive.GetOr(m.isActive),
       startTime := p.startTime.GetOr(m.startTime),
       endTime := p.endTime.GetOr(m.endTime))
  }

  /**
    An update changes exactly the fields whose keys are present, never the
    id, and applying the same request twice is the same as applying it once.
   */
  lemma PatchChangesOnlyPresentFields(m: ShippingMethod, p: MethodFields)
    ensures var u := ApplyPatch(m, p);
      && u.id == m.id
      && (if p.name.Some? then u.name == p.name.value else u.name == m.name)
      && (if p.code.Some? then u.code == p.code.value else u.code == m.code)
      && (if p.description.Some? then u.description == p.description.value else u.description == m.description)
      && (if p.startTime.Some? then u.startTime == p.startTime.value else u.startTime == m.startTime)
      && (if p.endTime.Some? then u.endTime == p.endTime.value else u.endTime == m.endTime)
      && (if p.maxKm.Some? then u.maxKm == p.maxKm.value else u.maxKm == m.maxKm)
      && (if p.isActive.Some? then u.isActive == p.isActive.value else u.isActive == m.isActive)
      && ApplyPatch(u, p) == u
    ensures p == MethodFields(None, None, None, None, None, None, None) ==> ApplyPatch(m, p) == m
  {
  }

  /** `toggle_method_status` negates the active flag and nothing else. */
  function Toggled(m: ShippingMethod): (t: ShippingMethod)
    ensures t.isActive == !m.isActive && t.(isActive := m.isActive) == m
  {
    m.(isActive := !m.isActive)
  }

  // ---------------------------------------------------------------------
  // Default data
  // ---------------------------------------------------------------------

  /** The two methods `init_default_data` inserts, with the ids they receive. */
  function DefaultMethods(firstId: nat): seq<ShippingMethod> {
    [ ShippingMethod(firstId, "Envío Hoy", "envio_hoy", "Entrega el mismo día (disponible hasta las 18:00)",
                     true, Clock(0, 1, 0), Clock(18, 0, 0), 7.0),
      ShippingMethod(firstId + 1, "Envío Programado", "envio_programado", "Entrega programada para el día siguiente",
                     true, Clock(0, 0, 0), Clock(23, 59, 0), 7.0) ]
  }

  /** The five zones `init_default_data` inserts. */
  function DefaultZones(firstId: nat): seq<ShippingZone> {
    [ ShippingZone(firstId, 0.0, 3.0, 3500, true),
      ShippingZone(firstId + 1, 3.0, 4.0, 4500, true),
      ShippingZone(firstId + 2, 4.0, 5.0, 5000, true),
      ShippingZone(firstId + 3, 5.0, 6.0, 5500, true),
      ShippingZone(firstId + 4, 6.0, 7.0, 6500, true) ]
  }

  /**
    The default zones are contiguous, each ending where the next begins, and
    together cover exactly the distances from 0 to 7 km.
   */
  lemma DefaultZonesCoverZeroToSeven(firstId: nat, d: real)
    ensures var zs := DefaultZones(firstId);
      && zs[0].minKm == 0.0 && zs[4].maxKm == 7.0
      && (forall i :: 0 <= i < 4 ==> zs[i].maxKm == zs[i + 1].minKm)
      && (FindZone(zs, d).Some? <==> 0.0 <= d <= 7.0)
  {
    var zs := DefaultZones(firstId);
    if 0.0 <= d <= 7.0 {
      var z := if d <= 3.0 then zs[0] else if d <= 4.0 then zs[1] else if d <= 5.0 then zs[2] else if d <= 6.0 then zs[3] else zs[4];
      assert z in zs && ZoneCovers(z, d);
    }
  }

  /**
    At a shared boundary two default zones contain the distance: 3.0 km lies
    in both 0-3 and 3-4. The source may return either; this model returns the
    first, priced 3500.
   */
  lemma SharedBoundary(firstId: nat)
    ensures var zs := DefaultZones(firstId);
      && ZoneCovers(zs[0], 3.0) && ZoneCovers(zs[1], 3.0) && zs[0].priceClp != zs[1].priceClp
      && FindZone(zs, 3.0) == Some(zs[0])
  {
  }

  /** Both default methods are active, so the quote loop visits both. */
  lemma DefaultMethodsAreActive(firstId: nat)
    ensures ActiveMethods(DefaultMethods(firstId)) == DefaultMethods(firstId)
  {
    var all := DefaultMethods(firstId);
    assert all[..|all| - 1] == [all[0]] && [all[0]][..0] == [];
    assert ActiveMethods([all[0]]) == [all[0]];
  }

  /**
    With the default data, a 4.2 km trip at 10:00 is offered by both methods
    at the 4-5 km price of 5000, and at 19:00 only by the scheduled method.
   */
  lemma DefaultScenarioAt4Point2Km(firstId: nat)
    ensures var all, zs := DefaultMethods(firstId), DefaultZones(firstId);
      && Matches(ActiveMethods(all), zs, 4.2, Clock(10, 0, 0)) == [(all[0], zs[2]), (all[1], zs[2])]
      && Matches(ActiveMethods(all), zs, 4.2, Clock(19, 0, 0)) == [(all[1], zs[2])]
      && zs[2].priceClp == 5000
  {
    var all, zs := DefaultMethods(firstId), DefaultZones(firstId);
    DefaultMethodsAreActive(firstId);
    assert all[..|all| - 1] == [all[0]] && [all[0]][..0] == [];
    assert zs[1..][1..] == zs[2..] && !ZoneCovers(zs[0], 4.2) && !ZoneCovers(zs[1], 4.2) && ZoneCovers(zs[2], 4.2);
    assert FindZone(zs[2..], 4.2) == Some(zs[2]);
    assert FindZone(zs, 4.2) == Some(zs[2]);
    assert Eligible(all[0], 4.2, Clock(10, 0, 0)) && Eligible(all[1], 4.2, Clock(10, 0, 0));
    assert EligibleMethods([all[0]], 4.2, Clock(10, 0, 0)) == [all[0]];
    assert EligibleMethods(all, 4.2, Clock(10, 0, 0)) == all;
    assert !Eligible(all[0], 4.2, Clock(19, 0, 0)) && Eligible(all[1], 4.2, Clock(19, 0, 0));
    assert EligibleMethods([all[0]], 4.2, Clock(19, 0, 0)) == [];
    assert EligibleMethods(all, 4.2, Clock(19, 0, 0)) == [all[1]];
  }

  /**
    Nothing is offered beyond 7 km, and nothing during the last minute of the
    day: one default method closes at 18:00, the other at 23:59 exactly.
   */
  lemma DefaultScenarioNoOptions(firstId: nat)
    ensures var all, zs := DefaultMethods(firstId), DefaultZones(firstId);
      && Matches(ActiveMethods(all), zs, 9.0, Clock(10, 0, 0)) == []
      && Matches(ActiveMethods(all), zs, 4.2, Clock(23, 59, 30)) == []
  {
    var all, zs := DefaultMethods(firstId), DefaultZones(firstId);
    DefaultMethodsAreActive(firstId);
    DefaultZonesCoverZeroToSeven(firstId, 9.0);
    assert all[..|all| - 1] == [all[0]] && [all[0]][..0] == [];
    assert !Eligible(all[0], 4.2, Clock(23, 59, 30)) && !Eligible(all[1], 4.2, Clock(23, 59, 30));
    assert EligibleMethods([all[0]], 4.2, Clock(23, 59, 30)) == [];
    assert EligibleMethods(all, 4.2, Clock(23, 59, 30)) == [];
  }

  // ---------------------------------------------------------------------
  // The quote endpoint's request and answer
  // ---------------------------------------------------------------------

  /** The origin used when the request has no `origin` key. */
  const DefaultOriginText: string := "Santiago Centro, Chile"

  /** The `max_distance` reported when no option is found. */
  const ReportedMaxDistanceKm: real := 7.0

  /**
    A quote request body: the three keys the endpoint reads, each present or
    absent, and whether the body holds any other key (an object with no key
    at all is refused like a missing body). A key whose value is JSON `null`
    makes the object non-empty but supplies no value, so it is recorded under
    `otherKeys` with the key itself absent: `{"destination": null}` is
    `QuoteRequest(None, None, None, true)` and is refused for its missing
    destination. A `null` origin behaves in the router as an empty one and is
    written `Some("")`.
   */
  datatype QuoteRequest = QuoteRequest(destination: Option<string>, origin: Option<string>, sessionId: Option<string>, otherKeys: bool)

  predicate IsEmptyBody(body: Option<QuoteRequest>) {
    body.None? || body.value == QuoteRequest(None, None, None, false)
  }

  predicate HasDestination(req: QuoteRequest) {
    req.destination.Some? && req.destination.value != []
  }

  function OriginText(req: QuoteRequest): string {
    req.origin.GetOr(DefaultOriginText)
  }

  datatype QuoteReply =
    | NoData
    | MissingDestination
    | RouteError(failure: Router.TripFailure)
    | NoOptions(distanceKm: real, maxDistanceKm: real, availableZones: seq<(real, real)>)
    | Quoted(trip: Router.Trip, options: seq<QuoteOption>, sessionId: Option<string>, quoteCount: nat)

  /** The ranges of the active zones, in table order. */
  function ActiveZoneRanges(zones: seq<ShippingZone>): seq<(real, real)> {
    if zones == [] then []
    else
      var last := zones[|zones| - 1];
      ActiveZoneRanges(zones[..|zones| - 1]) + (if last.isActive then [(last.minKm, last.maxKm)] else [])
  }

  /** The reported ranges are exactly those of the active zones. */
  lemma {:induction false} ActiveZoneRangesAreActiveZones(zones: seq<ShippingZone>)
    ensures var r := ActiveZoneRanges(zones);
      && |r| <= |zones|
      && (forall p :: p in r ==> exists z :: z in zones && z.isActive && p == (z.minKm, z.maxKm))
      && (forall z :: z in zones && z.isActive ==> (z.minKm, z.maxKm) in r)
  {
    if zones != [] {
      var init, last := zones[..|zones| - 1], zones[|zones| - 1];
      ActiveZoneRangesAreActiveZones(init);
      assert zones == init + [last];
      var r := ActiveZoneRanges(zones);
      forall p | p in r
        ensures exists z :: z in zones && z.isActive && p == (z.minKm, z.maxKm)
      {
        if p in ActiveZoneRanges(init) {
          var z :| z in init && z.isActive && p == (z.minKm, z.maxKm);
          assert z in zones;
        } else {
          assert last in zones;
        }
      }
    }
  }

  /** The answer of `get_shipping_quote` once the route result is known. */
  function ReplyFor(result: Router.TripResult, methods: seq<ShippingMethod>, zones: seq<ShippingZone>,
                    sessionId: Option<string>, now: TimeOfDay): QuoteReply
  {
    match result
    case TripFailed(failure) => RouteError(failure)
    case TripOk(trip) =>
      var ms := Matches(ActiveMethods(methods), zones, trip.route.distanceKm, now);
      if ms == [] then NoOptions(trip.route.distanceKm, ReportedMaxDistanceKm, ActiveZoneRanges(zones))
      else Quoted(trip, OptionsOf(ms, trip), sessionId, |ms|)
  }

  /** The audit quotes the endpoint stores, numbered from `firstId`. */
  function StoredQuotes(result: Router.TripResult, methods: seq<ShippingMethod>, zones: seq<ShippingZone>,
                        sessionId: Option<string>, now: TimeOfDay, firstId: nat): seq<ShippingQuote>
  {
    match result
    case TripFailed(_) => []
    case TripOk(trip) =>
      Numbered(DraftsOf(Matches(ActiveMethods(methods), zones, trip.route.distanceKm, now), trip, sessionId), firstId)
  }

  /** The ids the commit gives the queued quotes: consecutive, from the next free id. */
  function Numbered(drafts: seq<QuoteDraft>, firstId: nat): seq<ShippingQuote> {
    seq(|drafts|, k requires 0 <= k < |drafts| => ShippingQuote(firstId + k, drafts[k]))
  }

  /** The quote and its option are for one method of the table that is active, open now and within its maximum distance. */
  predicate ForEligibleMethod(q: ShippingQuote, o: QuoteOption, methods: seq<ShippingMethod>, distanceKm: real, now: TimeOfDay) {
    exists m :: m in methods && m.isActive && MethodAvailableAt(m, now) && distanceKm <= m.maxKm
      && q.draft.methodId == Some(m.id) && o.methodCode == m.code
  }

  /** The quote and its option carry the zone's id, price and range. */
  predicate PricedByZone(q: ShippingQuote, o: QuoteOption, z: ShippingZone) {
    && q.draft.zoneId == Some(z.id)
    && q.draft.priceClp == o.priceClp == z.priceClp
    && o.zoneMinKm == z.minKm && o.zoneMaxKm == z.maxKm
  }

  /** The fields of the options and the stored quotes that come from their match, position by position. */
  lemma OptionAndQuoteFields(ms: seq<(ShippingMethod, ShippingZone)>, trip: Router.Trip, sessionId: Option<string>, firstId: nat)
    ensures var options, stored := OptionsOf(ms, trip), Numbered(DraftsOf(ms, trip, sessionId), firstId);
      && |options| == |stored| == |ms|
      && forall k :: 0 <= k < |ms| ==>
           && stored[k].id == firstId + k
           && stored[k].draft.methodId == Some(ms[k].0.id) && options[k].methodCode == ms[k].0.code
           && PricedByZone(stored[k], options[k], ms[k].1)
  {
  }

  /**
    Options and quotes built position by position from a list of matches,
    each with the zone found and an eligible method: all are at that zone's
    price, and each is for an eligible method.
   */
  lemma MatchedOptionsAndQuotes(ms: seq<(ShippingMethod, ShippingZone)>, methods: seq<ShippingMethod>, zones: seq<ShippingZone>,
                                distanceKm: real, now: TimeOfDay, firstId: nat, options: seq<QuoteOption>, stored: seq<ShippingQuote>)
    requires forall p :: p in ms ==>
      && p.0 in methods && p.0.isActive && MethodAvailableAt(p.0, now) && distanceKm <= p.0.maxKm
      && Some(p.1) == FindZone(zones, distanceKm)
    requires |options| == |stored| == |ms|
    requires forall k :: 0 <= k < |ms| ==>
      && stored[k].id == firstId + k
      && stored[k].draft.methodId == Some(ms[k].0.id) && options[k].methodCode == ms[k].0.code
      && PricedByZone(stored[k], options[k], ms[k].1)
    ensures forall k :: 0 <= k < |stored| ==>
      && stored[k].id == firstId + k
      && PricedByZone(stored[k], options[k], FindZone(zones, distanceKm).value)
      && ForEligibleMethod(stored[k], options[k], methods, distanceKm, now)
  {
    forall k | 0 <= k < |ms|
      ensures PricedByZone(stored[k], options[k], FindZone(zones, distanceKm).value)
      ensures ForEligibleMethod(stored[k], options[k], methods, distanceKm, now)
    {
      assert ms[k] in ms;
      var m := ms[k].0;
      assert m in methods && m.isActive;
    }
  }

  /** With no match, nothing is stored and the reply reports the distance and every active zone's range. */
  lemma NoOptionsReply(trip: Router.Trip, methods: seq<ShippingMethod>, zones: seq<ShippingZone>,
                       sessionId: Option<string>, now: TimeOfDay, firstId: nat)
    ensures var reply, stored := ReplyFor(Router.TripOk(trip), methods, zones, sessionId, now),
                                 StoredQuotes(Router.TripOk(trip), methods, zones, sessionId, now, firstId);
      && (reply.NoOptions? <==> stored == [])
      && (reply.NoOptions? ==>
            && reply.distanceKm == trip.route.distanceKm
            && forall z :: z in zones && z.isActive ==> (z.minKm, z.maxKm) in reply.availableZones)
  {
    ActiveZoneRangesAreActiveZones(zones);
  }

  /**
    With at least one match, a zone contains the distance and one quote is
    stored per option, in order, with consecutive ids, all at the price of
    the zone found, each for an eligible method.
   */
  lemma QuotedReply(trip: Router.Trip, methods: seq<ShippingMethod>, zones: seq<ShippingZone>,
                    sessionId: Option<string>, now: TimeOfDay, firstId: nat)
    ensures var reply, stored := ReplyFor(Router.TripOk(trip), methods, zones, sessionId, now),
                                 StoredQuotes(Router.TripOk(trip), methods, zones, sessionId, now, firstId);
      var zone := FindZone(zones, trip.route.distanceKm);
      reply.Quoted? ==>
        && reply.quoteCount == |reply.options| == |stored|
        && zone.Some?
        && forall k :: 0 <= k < |stored| ==>
             && stored[k].id == firstId + k
             && PricedByZone(stored[k], reply.options[k], zone.value)
             && ForEligibleMethod(stored[k], reply.options[k], methods, trip.route.distanceKm, now)
  {
    var d := trip.route.distanceKm;
    var ms := Matches(ActiveMethods(methods), zones, d, now);
    if ms != [] {
      OptionAndQuoteFields(ms, trip, sessionId, firstId);
      MatchesCharacterization(ActiveMethods(methods), zones, d, now);
      MatchedOptionsAndQuotes(ms, methods, zones, d, now, firstId, OptionsOf(ms, trip), Numbered(DraftsOf(ms, trip, sessionId), firstId));
    }
  }

  /**
    What the quote endpoint promises once routing succeeded: no options
    exactly when no quote is stored, with the distance and every active zone
    range reported; otherwise one stored quote per option, in order, with the
    option's method, zone and price, all options at the price of the active
    zone found for the distance, and every option's method active, open now
    and within its maximum distance.
   */
  lemma QuoteReplyProperties(trip: Router.Trip, methods: seq<ShippingMethod>, zones: seq<ShippingZone>,
                             sessionId: Option<string>, now: TimeOfDay, firstId: nat)
    ensures var reply, stored := ReplyFor(Router.TripOk(trip), methods, zones, sessionId, now),
                                 StoredQuotes(Router.TripOk(trip), methods, zones, sessionId, now, firstId);
      var zone := FindZone(zones, trip.route.distanceKm);
      && (reply.NoOptions? <==> stored == [])
      && (reply.NoOptions? ==>
            && reply.distanceKm == trip.route.distanceKm
            && forall z :: z in zones && z.isActive ==> (z.minKm, z.maxKm) in reply.availableZones)
      && (reply.Quoted? ==>
            && reply.quoteCount == |reply.options| == |stored|
            && zone.Some? && zone.value in zones && ZoneCovers(zone.value, trip.route.distanceKm)
            && forall k :: 0 <= k < |stored| ==>
                 && stored[k].id == firstId + k
                 && PricedByZone(stored[k], reply.options[k], zone.value)
                 && ForEligibleMethod(stored[k], reply.options[k], methods, trip.route.distanceKm, now))
  {
    NoOptionsReply(trip, methods, zones, sessionId, now, firstId);
    QuotedReply(trip, methods, zones, sessionId, now, firstId);
  }

  /**
    The quote endpoint stores one quote per match, in order, each for its
    match's method; and each method of the table is matched exactly as often
    as it occurs there when it is eligible and a zone contains the distance,
    and never otherwise.
   */
  lemma OneQuotePerMatchedMethod(trip: Router.Trip, methods: seq<ShippingMethod>, zones: seq<ShippingZone>,
                                 sessionId: Option<string>, now: TimeOfDay, firstId: nat)
    ensures var d := trip.route.distanceKm;
      var ms := Matches(ActiveMethods(methods), zones, d, now);
      var stored := StoredQuotes(Router.TripOk(trip), methods, zones, sessionId, now, firstId);
      && |stored| == |ms|
      && (forall k :: 0 <= k < |ms| ==> stored[k].draft.methodId == Some(ms[k].0.id))
      && forall m ::
           multiset(MethodsOf(ms))[m]
             == if Eligible(m, d, now) && (exists z :: z in zones && ZoneCovers(z, d)) then multiset(methods)[m] else 0
  {
    var d := trip.route.distanceKm;
    ActiveMethodsMultiplicity(methods);
    MatchesCountEachMethodOnce(ActiveMethods(methods), zones, d, now);
  }

  /** Every quote the endpoint stores refers to an existing method and zone and has a fresh id. */
  lemma StoredQuotesKeepTablesValid(result: Router.TripResult, methods: seq<ShippingMethod>, zones: seq<ShippingZone>,
                                                       quotes: seq<ShippingQuote>, sessionId: Option<string>, now: TimeOfDay, nextQuoteId: nat)
    requires QuotesWellFormed(quotes, nextQuoteId) && QuotesReferToRows(quotes, methods, zones)
    ensures var added := StoredQuotes(result, methods, zones, sessionId, now, nextQuoteId);
      && QuotesWellFormed(quotes + added, nextQuoteId + |added|)
      && QuotesReferToRows(quotes + added, methods, zones)
  {
    var added := StoredQuotes(result, methods, zones, sessionId, now, nextQuoteId);
    if result.TripOk? {
      var trip := result.trip;
      var ms := Matches(ActiveMethods(methods), zones, trip.route.distanceKm, now);
      MatchesCharacterization(ActiveMethods(methods), zones, trip.route.distanceKm, now);
      forall k | 0 <= k < |added|
        ensures HasMethodId(methods, added[k].draft.methodId.value) && HasZoneId(zones, added[k].draft.zoneId.value)
      {
        assert ms[k] in ms;
        var m, z := ms[k].0, ms[k].1;
        var i :| 0 <= i < |methods| && methods[i] == m;
        var j :| 0 <= j < |zones| && zones[j] == z;
      }
    }
    var all := quotes + added;
    forall k | 0 <= k < |all|
      ensures (all[k].draft.methodId.Some? ==> HasMethodId(methods, all[k].draft.methodId.value))
           && (all[k].draft.zoneId.Some? ==> HasZoneId(zones, all[k].draft.zoneId.value))
    {
      if k >= |quotes| {
        assert all[k] == added[k - |quotes|];
      }
    }
  }

  /** Removing a method that no quote refers to keeps the method table and the quote references sound. */
  lemma RemovingUnreferencedMethod(methods: seq<ShippingMethod>, zones: seq<ShippingZone>,
                                                      quotes: seq<ShippingQuote>, nextId: nat, i: nat)
    requires MethodsWellFormed(methods, nextId) && QuotesReferToRows(quotes, methods, zones)
    requires i < |methods| && forall k :: 0 <= k < |quotes| ==> quotes[k].draft.methodId != Some(methods[i].id)
    ensures var rest := methods[..i] + methods[i + 1..];
      MethodsWellFormed(rest, nextId) && QuotesReferToRows(quotes, rest, zones)
  {
    var rest := methods[..i] + methods[i + 1..];
    assert forall j :: 0 <= j < |rest| ==> rest[j] == if j < i then methods[j] else methods[j + 1];
    forall k | 0 <= k < |quotes| && quotes[k].draft.methodId.Some?
      ensures HasMethodId(rest, quotes[k].draft.methodId.value)
    {
      var target := quotes[k].draft.methodId.value;
      var j :| 0 <= j < |methods| && methods[j].id == target;
      assert target != methods[i].id;
      if j < i {
        assert rest[j] == methods[j];
      } else {
        assert rest[j - 1] == methods[j];
      }
    }
  }

  // ---------------------------------------------------------------------
  // The tables
  // ---------------------------------------------------------------------

  class ShippingDb {
    var methods: seq<ShippingMethod>
    var zones: seq<ShippingZone>
    var quotes: seq<ShippingQuote>
    var nextMethodId: nat
    var nextZoneId: nat
    var nextQuoteId: nat

    ghost predicate Valid()
      reads this
    {
      && MethodsWellFormed(methods, nextMethodId)
      && ZonesWellFormed(zones, nextZoneId)
      && QuotesWellFormed(quotes, nextQuoteId)
      && QuotesReferToRows(quotes, methods, zones)
    }

    constructor ()
      ensures Valid()
      ensures methods == [] && zones == [] && quotes == []
    {
      methods, zones, quotes := [], [], [];
      nextMethodId, nextZoneId, nextQuoteId := 1, 1, 1;
    }

    /** `init_default_data`: refused when any method or zone exists; otherwise 2 methods and 5 zones. */
    method InitDefaultData() returns (r: Result<(nat, nat), AdminError>)
      requires Valid()
      modifies this
      ensures Valid()
      ensures old(|methods| > 0 || |zones| > 0) ==> r == Err(DataAlreadyPresent) && unchanged(this)
      ensures old(|methods| == 0 && |zones| == 0) ==>
        && r == Ok((2, 5))
        && methods == DefaultMethods(old(nextMethodId)) && nextMethodId == old(nextMethodId) + 2
        && zones == DefaultZones(old(nextZoneId)) && nextZoneId == old(nextZoneId) + 5
        && quotes == old(quotes) && nextQuoteId == old(nextQuoteId)
    {
      if |methods| > 0 || |zones| > 0 {
        return Err(DataAlreadyPresent);
      }
      methods := DefaultMethods(nextMethodId);
      nextMethodId := nextMethodId + 2;
      zones := DefaultZones(nextZoneId);
      nextZoneId := nextZoneId + 5;
      r := Ok((|methods|, |zones|));
    }

    /**
      `create_method`: a missing required key, then a code held by any
      method, is refused before anything is inserted; otherwise exactly one
      method is appended.
     */
    method CreateMethod(req: MethodFields) returns (r: Result<ShippingMethod, AdminError>)
      requires Valid()
      modifies this
      ensures Valid()
      ensures FirstMissingField(req).Some? ==> r == Err(MissingField(FirstMissingField(req).value)) && unchanged(this)
      ensures FirstMissingField(req).None? && CodeInUse(old(methods), req.code.value) ==>
        r == Err(CodeTaken(req.code.value)) && unchanged(this)
      ensures FirstMissingField(req).None? && !CodeInUse(old(methods), req.code.value) ==>
        && r == Ok(NewMethod(old(nextMethodId), req))
        && methods == old(methods) + [r.value] && nextMethodId == old(nextMethodId) + 1
        && zones == old(zones) && quotes == old(quotes) && nextZoneId == old(nextZoneId) && nextQuoteId == old(nextQuoteId)
    {
      var missing := FirstMissingField(req);
      if missing.Some? {
        return Err(MissingField(missing.value));
      }
      if CodeInUse(methods, req.code.value) {
        return Err(CodeTaken(req.code.value));
      }
      var m := NewMethod(nextMethodId, req);
      methods := methods + [m];
      nextMethodId := nextMethodId + 1;
      r := Ok(m);
      forall k | 0 <= k < |quotes| && quotes[k].draft.methodId.Some?
        ensures HasMethodId(methods, quotes[k].draft.methodId.value)
      {
        var i :| 0 <= i < |old(methods)| && old(methods)[i].id == quotes[k].draft.methodId.value;
        assert methods[i] == old(methods)[i];
      }
    }

    /**
      `update_method`: an unknown id is refused; a new code held by another
      method is refused with nothing changed; resubmitting the method's own
      code is allowed; otherwise only the present keys are assigned.
     */
    method UpdateMethod(id: nat, patch: MethodFields) returns (r: Result<ShippingMethod, AdminError>)
      requires Valid()
      modifies this
      ensures Valid()
      ensures FindMethod(old(methods), id).None? ==> r == Err(MethodNotFound) && unchanged(this)
      ensures FindMethod(old(methods), id).Some? ==>
        var i := FindMethod(old(methods), id).value;
        var m := old(methods)[i];
        if patch.code.Some? && patch.code.value != m.code && CodeInUse(old(methods), patch.code.value) then
          r == Err(CodeTaken(patch.code.value)) && unchanged(this)
        else
          && r == Ok(ApplyPatch(m, patch)) && methods == old(methods)[i := r.value]
          && zones == old(zones) && quotes == old(quotes)
          && nextMethodId == old(nextMethodId) && nextZoneId == old(nextZoneId) && nextQuoteId == old(nextQuoteId)
    {
      var found := FindMethod(methods, id);
      if found.None? {
        return Err(MethodNotFound);
      }
      var i := found.value;
      var m := methods[i];
      if patch.code.Some? && patch.code.value != m.code && CodeInUse(methods, patch.code.value) {
        return Err(CodeTaken(patch.code.value));
      }
      var u := ApplyPatch(m, patch);
      methods := methods[i := u];
      r := Ok(u);
      forall j | 0 <= j < |methods| && j != i
        ensures methods[j].code != u.code
      {
        assert methods[j] == old(methods)[j];
      }
      forall k | 0 <= k < |quotes| && quotes[k].draft.methodId.Some?
        ensures HasMethodId(methods, quotes[k].draft.methodId.value)
      {
        var j :| 0 <= j < |old(methods)| && old(methods)[j].id == quotes[k].draft.methodId.value;
        assert methods[j].id == old(methods)[j].id;
      }
    }

    /** `delete_method`: an unknown id, or a method that any quote refers to, is refused. */
    method DeleteMethod(id: nat) returns (r: Result<ShippingMethod, AdminError>)
      requires Valid()
      modifies this
      ensures Valid()
      ensures FindMethod(old(methods), id).None? ==> r == Err(MethodNotFound) && unchanged(this)
      ensures FindMethod(old(methods), id).Some? ==>
        var i := FindMethod(old(methods), id).value;
        if QuoteCount(old(quotes), id) > 0 then
          r == Err(ReferencedByQuotes(QuoteCount(old(quotes), id))) && unchanged(this)
        else
          && r == Ok(old(methods)[i]) && methods == old(methods)[..i] + old(methods)[i + 1..]
          && zones == old(zones) && quotes == old(quotes)
          && nextMethodId == old(nextMethodId) && nextZoneId == old(nextZoneId) && nextQuoteId == old(nextQuoteId)
    {
      var found := FindMethod(methods, id);
      if found.None? {
        return Err(MethodNotFound);
      }
      var i := found.value;
      var count := QuoteCount(quotes, id);
      if count > 0 {
        return Err(ReferencedByQuotes(count));
      }
      var m := methods[i];
      methods := methods[..i] + methods[i + 1..];
      r := Ok(m);
      RemovingUnreferencedMethod(old(methods), zones, quotes, nextMethodId, i);
    }

    /** `toggle_method_status`: an unknown id is refused; otherwise the active flag is negated. */
    method ToggleMethodStatus(id: nat) returns (r: Result<ShippingMethod, AdminError>)
      requires Valid()
      modifies this
      ensures Valid()
      ensures FindMethod(old(methods), id).None? ==> r == Err(MethodNotFound) && unchanged(this)
      ensures FindMethod(old(methods), id).Some? ==>
        var i := FindMethod(old(methods), id).value;
        && r == Ok(Toggled(old(methods)[i])) && methods == old(methods)[i := r.value]
        && zones == old(zones) && quotes == old(quotes)
        && nextMethodId == old(nextMethodId) && nextZoneId == old(nextZoneId) && nextQuoteId == old(nextQuoteId)
    {
      var found := FindMethod(methods, id);
      if found.None? {
        return Err(MethodNotFound);
      }
      var i := found.value;
      var t := Toggled(methods[i]);
      methods := methods[i := t];
      r := Ok(t);
      forall k | 0 <= k < |quotes| && quotes[k].draft.methodId.Some?
        ensures HasMethodId(methods, quotes[k].draft.methodId.value)
      {
        var j :| 0 <= j < |old(methods)| && old(methods)[j].id == quotes[k].draft.methodId.value;
        assert methods[j].id == old(methods)[j].id;
      }
    }

    /**
      `get_shipping_quote`. An empty body, then a missing or empty
      destination, is refused before anything else happens; otherwise the
      route is planned through the router service, and on success the active
      methods are matched against the zones and one audit quote per option
      is stored.

      The source also serialises `route_result['router_response']` into each
      audit quote; the route result has no such key, so in the source every
      request with at least one option raises and its quotes are rolled back.
      This model stores the audit column-free quotes instead.
     */
    method GetShippingQuote(router: Router.RouterService, body: Option<QuoteRequest>, clock: int, now: TimeOfDay,
                            geocode: string -> Router.GeocodeReply, route: (Router.Coords, Router.Coords) -> Option<Router.RouteInfo>)
      returns (r: QuoteReply)
      requires Valid() && router.Valid()
      modifies this, router, router.addressCache
      ensures Valid() && router.Valid()
      ensures methods == old(methods) && zones == old(zones)
      ensures nextMethodId == old(nextMethodId) && nextZoneId == old(nextZoneId)
      ensures IsEmptyBody(body) ==>
        r == NoData && unchanged(this) && unchanged(router) && unchanged(router.addressCache)
      ensures !IsEmptyBody(body) && !HasDestination(body.value) ==>
        r == MissingDestination && unchanged(this) && unchanged(router) && unchanged(router.addressCache)
      ensures !IsEmptyBody(body) && HasDestination(body.value) ==>
        var req := body.value;
        var step := Router.PlanTrip(old(router.addressCache.entries), router.addressCache.maxAge, clock, router.defaultOrigin,
                                    OriginText(req), req.destination.value, geocode, route);
        var added := StoredQuotes(step.result, old(methods), old(zones), req.sessionId, now, old(nextQuoteId));
        && router.addressCache.entries == step.entries
        && router.geocoded == old(router.geocoded) + step.geocoded && router.routed == old(router.routed) + step.routed
        && r == ReplyFor(step.result, old(methods), old(zones), req.sessionId, now)
        && quotes == old(quotes) + added && nextQuoteId == old(nextQuoteId) + |added|
    {
      if IsEmptyBody(body) {
        return NoData;
      }
      var req := body.value;
      if !HasDestination(req) {
        return MissingDestination;
      }
      var result := router.GetDistanceAndTime(OriginText(req), req.destination.value, clock, geocode, route);
      if result.TripFailed? {
        return RouteError(result.failure);
      }
      var trip := result.trip;
      var options, drafts := MatchMethods(ActiveMethods(methods), zones, trip, req.sessionId, now);
      StoredQuotesKeepTablesValid(result, methods, zones, quotes, req.sessionId, now, nextQuoteId);
      quotes := quotes + Numbered(drafts, nextQuoteId);
      nextQuoteId := nextQuoteId + |drafts|;
      if options == [] {
        return NoOptions(trip.route.distanceKm, ReportedMaxDistanceKm, ActiveZoneRanges(zones));
      }
      r := Quoted(trip, options, req.sessionId, |options|);
    }
  }

  /** Two toggles of the same method restore the method table. */
  method ToggleTwice(db: ShippingDb, id: nat) returns (first: Result<ShippingMethod, AdminError>, second: Result<ShippingMethod, AdminError>)
    requires db.Valid()
    modifies db
    ensures db.Valid() && db.methods == old(db.methods)
    ensures first.Ok? <==> HasMethodId(old(db.methods), id)
    ensures first.Ok? ==> second.Ok? && second.value == old(db.methods)[FindMethod(old(db.methods), id).value]
  {
    first := db.ToggleMethodStatus(id);
    if first.Ok? {
      var i := FindMethod(old(db.methods), id).value;
      assert db.methods[i].id == id;
      assert FindMethod(db.methods, id) == Some(i);
    }
    second := db.ToggleMethodStatus(id);
  }
}
