/**
  Quote matching: which configured shipping methods are offered for a
  computed route, and at which zone's price. `find_zone_for_distance` and the
  loop of `get_shipping_quote` that builds the options and the audit quotes.
 */
module QuoteMatching {
  import opened Common
  import opened Models
  import opened Formatting
  import Router

  /** An active zone whose closed range contains the distance. */
  predicate ZoneCovers(z: ShippingZone, distanceKm: real) {
    z.isActive && z.minKm <= distanceKm <= z.maxKm
  }

  /**
    `find_zone_for_distance`: some active zone whose range contains the
    distance, or none when no active zone does. The query has no ordering;
    this model answers with the first such zone in table order.
   */
  function FindZone(zones: seq<ShippingZone>, distanceKm: real): (r: Option<ShippingZone>)
    ensures r.Some? ==> r.value in zones && ZoneCovers(r.value, distanceKm)
    ensures r.None? <==> forall z :: z in zones ==> !ZoneCovers(z, distanceKm)
  {
    if zones == [] then None
    else if ZoneCovers(zones[0], distanceKm) then Some(zones[0])
    else FindZone(zones[1..], distanceKm)
  }

  /** `ShippingMethod.query.filter_by(is_active=True)`: each active row once, in table order. */
  function ActiveMethods(methods: seq<ShippingMethod>): (r: seq<ShippingMethod>)
    ensures forall m :: m in r <==> m in methods && m.isActive
  {
    if methods == [] then []
    else ActiveMethods(methods[..|methods| - 1]) + (if methods[|methods| - 1].isActive then [methods[|methods| - 1]] else [])
  }

  /** The query returns each active row once: every active method as often as the table holds it. */
  lemma {:induction false} ActiveMethodsMultiplicity(methods: seq<ShippingMethod>)
    ensures forall m :: multiset(ActiveMethods(methods))[m] == if m.isActive then multiset(methods)[m] else 0
  {
    if methods != [] {
      var init, last := methods[..|methods| - 1], methods[|methods| - 1];
      ActiveMethodsMultiplicity(init);
      assert methods == init + [last];
    }
  }

  /** The two per-method checks of the quote loop: the time window and the maximum distance. */
  predicate Eligible(m: ShippingMethod, distanceKm: real, now: TimeOfDay) {
    MethodAvailableAt(m, now) && distanceKm <= m.maxKm
  }

  /** The methods that pass both checks, in the order the loop visits them. */
  function EligibleMethods(methods: seq<ShippingMethod>, distanceKm: real, now: TimeOfDay): (r: seq<ShippingMethod>)
    ensures forall m :: m in r <==> m in methods && Eligible(m, distanceKm, now)
  {
    if methods == [] then []
    else
      var last := methods[|methods| - 1];
      EligibleMethods(methods[..|methods| - 1], distanceKm, now) + (if Eligible(last, distanceKm, now) then [last] else [])
  }

  /** Each eligible method is kept as often as the loop visits it; every other method is dropped. */
  lemma {:induction false} EligibleMethodsMultiplicity(methods: seq<ShippingMethod>, distanceKm: real, now: TimeOfDay)
    ensures forall m ::
              multiset(EligibleMethods(methods, distanceKm, now))[m] == if Eligible(m, distanceKm, now) then multiset(methods)[m] else 0
  {
    if methods != [] {
      var init, last := methods[..|methods| - 1], methods[|methods| - 1];
      EligibleMethodsMultiplicity(init, distanceKm, now);
      assert methods == init + [last];
    }
  }

  /** The (method, zone) pairs the quote loop emits: every eligible method, with the zone found, if any. */
  function Matches(methods: seq<ShippingMethod>, zones: seq<ShippingZone>, distanceKm: real, now: TimeOfDay): seq<(ShippingMethod, ShippingZone)> {
    match FindZone(zones, distanceKm)
    case None => []
    case Some(z) =>
      var e := EligibleMethods(methods, distanceKm, now);
      seq(|e|, k requires 0 <= k < |e| => (e[k], z))
  }

  /** The methods of a list of matches, in order. */
  function MethodsOf(ms: seq<(ShippingMethod, ShippingZone)>): seq<ShippingMethod> {
    seq(|ms|, k requires 0 <= k < |ms| => ms[k].0)
  }

  /**
    Every emitted pair is an active method that is available now, within its
    maximum distance, with one zone that contains the distance, the same zone
    for all pairs; and every such method is emitted exactly when a zone
    contains the distance.
   */
  lemma MatchesCharacterization(methods: seq<ShippingMethod>, zones: seq<ShippingZone>, distanceKm: real, now: TimeOfDay)
    ensures var ms := Matches(methods, zones, distanceKm, now);
      && (forall p :: p in ms ==>
            && p.0 in methods && p.0.isActive && MethodAvailableAt(p.0, now) && distanceKm <= p.0.maxKm
            && Some(p.1) == FindZone(zones, distanceKm) && p.1 in zones && ZoneCovers(p.1, distanceKm))
      && (forall m :: m in methods && Eligible(m, distanceKm, now) ==>
            ((exists p :: p in ms && p.0 == m) <==> exists z :: z in zones && ZoneCovers(z, distanceKm)))
  {
    var ms := Matches(methods, zones, distanceKm, now);
    var e := EligibleMethods(methods, distanceKm, now);
    match FindZone(zones, distanceKm)
    case None =>
    case Some(z) =>
      forall p | p in ms
        ensures p.0 in methods && Eligible(p.0, distanceKm, now) && p.1 == z
      {
        var k :| 0 <= k < |ms| && ms[k] == p;
        assert e[k] in e;
      }
      forall m | m in methods && Eligible(m, distanceKm, now)
        ensures exists p :: p in ms && p.0 == m
      {
        var k :| 0 <= k < |e| && e[k] == m;
        assert ms[k] == (m, z);
      }
  }

  /**
    When some zone contains the distance, each eligible method is emitted
    exactly as often as the loop visits it (once per row, so once per method
    of a table with distinct rows); otherwise nothing is emitted.
   */
  lemma MatchesCountEachMethodOnce(methods: seq<ShippingMethod>, zones: seq<ShippingZone>, distanceKm: real, now: TimeOfDay)
    ensures var ms := Matches(methods, zones, distanceKm, now);
      forall m ::
        multiset(MethodsOf(ms))[m]
          == if Eligible(m, distanceKm, now) && (exists z :: z in zones && ZoneCovers(z, distanceKm)) then multiset(methods)[m] else 0
  {
    var ms := Matches(methods, zones, distanceKm, now);
    match FindZone(zones, distanceKm)
    case None =>
      assert MethodsOf(ms) == [];
    case Some(z) =>
      EligibleMethodsMultiplicity(methods, distanceKm, now);
      assert MethodsOf(ms) == EligibleMethods(methods, distanceKm, now);
  }

  /** One priced option of the reply. */
  datatype QuoteOption = QuoteOption(
    methodCode: string,
    methodName: string,
    description: string,
    priceClp: int,
    priceFormatted: string,
    distanceKm: real,
    durationMinutes: int,
    availableUntil: string,
    zoneMinKm: real,
    zoneMaxKm: real)

  function OptionFor(m: ShippingMethod, z: ShippingZone, trip: Router.Trip): QuoteOption {
    QuoteOption(m.code, m.name, m.description, z.priceClp, FormatPrice(z.priceClp),
                trip.route.distanceKm, trip.route.durationMinutes, FormatHHMM(m.endTime), z.minKm, z.maxKm)
  }

  /**
    The audit quote queued beside an option. The source also stores the
    route result under `router_response`; this model leaves that column out
    (see the shipping module on the key it reads).
   */
  function DraftFor(m: ShippingMethod, z: ShippingZone, trip: Router.Trip, sessionId: Option<string>): QuoteDraft {
    QuoteDraft(sessionId, trip.origin.formattedAddress, trip.destination.formattedAddress,
               trip.origin.lat, trip.origin.lng, trip.destination.lat, trip.destination.lng,
               trip.route.distanceKm, trip.route.durationMinutes, Some(m.id), Some(z.id), z.priceClp, true)
  }

  /** The options and the audit quotes for a list of matches, position by position. */
  function OptionsOf(ms: seq<(ShippingMethod, ShippingZone)>, trip: Router.Trip): seq<QuoteOption> {
    seq(|ms|, k requires 0 <= k < |ms| => OptionFor(ms[k].0, ms[k].1, trip))
  }

  function DraftsOf(ms: seq<(ShippingMethod, ShippingZone)>, trip: Router.Trip, sessionId: Option<string>): seq<QuoteDraft> {
    seq(|ms|, k requires 0 <= k < |ms| => DraftFor(ms[k].0, ms[k].1, trip, sessionId))
  }

  /**
    The loop of `get_shipping_quote` over the active methods: skip a method
    outside its window or beyond its maximum distance, look up the zone, skip
    when there is none, otherwise emit an option and queue an audit quote.
   */
  method MatchMethods(available: seq<ShippingMethod>, zones: seq<ShippingZone>, trip: Router.Trip,
                      sessionId: Option<string>, now: TimeOfDay)
    returns (options: seq<QuoteOption>, drafts: seq<QuoteDraft>)
    ensures var ms := Matches(available, zones, trip.route.distanceKm, now);
      options == OptionsOf(ms, trip) && drafts == DraftsOf(ms, trip, sessionId)
  {
    var distanceKm := trip.route.distanceKm;
    options, drafts := [], [];
    for i := 0 to |available|
      invariant var ms := Matches(available[..i], zones, distanceKm, now);
        && |options| == |ms| == |drafts|
        && forall k :: 0 <= k < |ms| ==>
             options[k] == OptionFor(ms[k].0, ms[k].1, trip) && drafts[k] == DraftFor(ms[k].0, ms[k].1, trip, sessionId)
    {
      assert available[..i + 1][..i] == available[..i];
      var m := available[i];
      if !MethodAvailableAt(m, now) {
        continue;
      }
      if distanceKm > m.maxKm {
        continue;
      }
      var zone := FindZone(zones, distanceKm);
      if zone.None? {
        continue;
      }
      options := options + [OptionFor(m, zone.value, trip)];
      drafts := drafts + [DraftFor(m, zone.value, trip, sessionId)];
    }
    assert available[..|available|] == available;
  }

  /** One audit quote per option, carrying that option's method, zone and price. */
  lemma OptionsMatchDrafts(m: ShippingMethod, z: ShippingZone, trip: Router.Trip, sessionId: Option<string>)
    ensures var o, d := OptionFor(m, z, trip), DraftFor(m, z, trip, sessionId);
      && d.methodId == Some(m.id) && d.zoneId == Some(z.id) && o.methodCode == m.code
      && d.priceClp == o.priceClp == z.priceClp && d.distanceKm == o.distanceKm && d.isAvailable
      && ParsePrice(o.priceFormatted) == Some(o.priceClp)
  {
    PriceRoundTrip(z.priceClp);
  }
}
