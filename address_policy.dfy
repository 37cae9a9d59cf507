/**
  The address-quality policy of the router service: how precise a geocoding
  match is (its granularity, read from the place-type tags of the match),
  whether that precision is accepted, accepted with a warning or rejected,
  and the confidence score in hundredths.
 */
module AddressPolicy {
  import opened Common

  datatype Granularity =
    | Premise | PremiseProximity | Block | Route | Neighborhood
    | Locality | Sublocality | AdministrativeArea | Other

  datatype Level = Accept | Warning | Reject

  /** The explanation attached to a warning or a rejection; its Spanish wording is not modelled. */
  datatype Notice = NotVeryPrecise(granularity: Granularity) | TooImprecise(granularity: Granularity)

  const AcceptableGranularities: seq<Granularity> := [Premise, PremiseProximity]
  const WarningGranularities: seq<Granularity> := [Block, Route]
  const RejectGranularities: seq<Granularity> := [Neighborhood, Locality, Sublocality, AdministrativeArea, Other]

  /** `_determine_granularity`: the first rule of a fixed chain that a tag satisfies. */
  function DetermineGranularity(types: seq<string>): Granularity {
    if "street_address" in types || "premise" in types then Premise
    else if "subpremise" in types then Premise
    else if "route" in types then (if "street_number" in types then Premise else Route)
    else if "intersection" in types then Block
    else if "neighborhood" in types then Neighborhood
    else if "locality" in types || "political" in types then Locality
    else if "sublocality" in types then Sublocality
    else if "administrative_area_level_1" in types || "administrative_area_level_2" in types then AdministrativeArea
    else Other
  }

  /**
    A second reading of the same policy, tag by tag: what each tag on its own
    says about the match (a route says PREMISE when a street number is also
    present), and the rank of each granularity in the chain (ROUTE is tried
    before BLOCK, LOCALITY before SUBLOCALITY).
   */
  function Suggests(tag: string, types: seq<string>): Option<Granularity> {
    if tag in {"street_address", "premise", "subpremise"} then Some(Premise)
    else if tag == "route" then Some(if "street_number" in types then Premise else Route)
    else if tag == "intersection" then Some(Block)
    else if tag == "neighborhood" then Some(Neighborhood)
    else if tag in {"locality", "political"} then Some(Locality)
    else if tag == "sublocality" then Some(Sublocality)
    else if tag in {"administrative_area_level_1", "administrative_area_level_2"} then Some(AdministrativeArea)
    else None
  }

  function Rank(g: Granularity): nat {
    match g
    case Premise => 0
    case PremiseProximity => 1
    case Route => 2
    case Block => 3
    case Neighborhood => 4
    case Locality => 5
    case Sublocality => 6
    case AdministrativeArea => 7
    case Other => 8
  }

  /**
    The chain picks the best-ranked suggestion among the tags, and OTHER
    exactly when no tag suggests anything.
   */
  lemma GranularityIsBestSuggestion(types: seq<string>)
    ensures var g := DetermineGranularity(types);
      && (g == Other <==> forall t :: t in types ==> Suggests(t, types) == None)
      && (g != Other ==> exists t :: t in types && Suggests(t, types) == Some(g))
      && (forall t :: t in types && Suggests(t, types).Some? ==> Rank(g) <= Rank(Suggests(t, types).value))
  {
    var g := DetermineGranularity(types);
    if g != Other {
      var t :| t in types && Suggests(t, types) == Some(g) && forall u :: u in types && Suggests(u, types).Some? ==> Rank(g) <= Rank(Suggests(u, types).value);
    }
  }

  /** Precise tags win whatever else is present; a route needs its street number to be a premise. */
  lemma PremiseTagsWin(types: seq<string>)
    ensures "street_address" in types || "premise" in types || "subpremise" in types ==> DetermineGranularity(types) == Premise
    ensures "route" in types && "street_number" in types ==> DetermineGranularity(types) == Premise
    ensures DetermineGranularity(["route"]) == Route
    ensures DetermineGranularity(["street_number"]) == Other
  {
  }

  /** No tag that the chain examines before `locality` and `political`. */
  predicate NoFinerTag(types: seq<string>) {
    forall t :: t in types ==> t !in {"street_address", "premise", "subpremise", "route", "intersection", "neighborhood"}
  }

  /**
    Once no finer tag is present, LOCALITY is decided before SUBLOCALITY,
    which is decided before an administrative area; with none of them the
    match is OTHER. A `political` tag alone therefore outranks `sublocality`.
   */
  lemma LocalityBeforeSmallerDivisions(types: seq<string>)
    requires NoFinerTag(types)
    ensures "locality" in types || "political" in types ==> DetermineGranularity(types) == Locality
    ensures "locality" !in types && "political" !in types && "sublocality" in types ==> DetermineGranularity(types) == Sublocality
    ensures "locality" !in types && "political" !in types && "sublocality" !in types
            && ("administrative_area_level_1" in types || "administrative_area_level_2" in types)
            ==> DetermineGranularity(types) == AdministrativeArea
    ensures (forall t :: t in types ==> t !in {"locality", "political", "sublocality", "administrative_area_level_1", "administrative_area_level_2"})
            ==> DetermineGranularity(types) == Other
    ensures DetermineGranularity(["sublocality", "political"]) == Locality
    ensures DetermineGranularity(["administrative_area_level_1", "political"]) == Locality
  {
  }

  /** PREMISE_PROXIMITY appears in the tables, but no tag ever produces it. */
  lemma NeverPremiseProximity(types: seq<string>)
    ensures DetermineGranularity(types) != PremiseProximity
  {
  }

  /** The validation level: accept, warning or reject, from the three granularity lists. */
  function LevelOf(g: Granularity): Level {
    if g in AcceptableGranularities then Accept
    else if g in WarningGranularities then Warning
    else Reject
  }

  /** The message that goes with a level; there is none exactly when the level is accept. */
  function NoticeOf(g: Granularity): (n: Option<Notice>)
    ensures n.None? <==> LevelOf(g) == Accept
    ensures LevelOf(g) == Warning ==> n == Some(NotVeryPrecise(g))
    ensures LevelOf(g) == Reject ==> n == Some(TooImprecise(g))
  {
    match LevelOf(g)
    case Accept => None
    case Warning => Some(NotVeryPrecise(g))
    case Reject => Some(TooImprecise(g))
  }

  predicate ExactlyOne(a: bool, b: bool, c: bool) {
    (a || b || c) && !(a && b) && !(a && c) && !(b && c)
  }

  /** The three lists partition the granularities, so the level is total and one-valued. */
  lemma LevelTable(g: Granularity)
    ensures ExactlyOne(g in AcceptableGranularities, g in WarningGranularities, g in RejectGranularities)
    ensures LevelOf(g) == Accept <==> g == Premise || g == PremiseProximity
    ensures LevelOf(g) == Warning <==> g == Block || g == Route
    ensures LevelOf(g) == Reject <==> g in RejectGranularities
  {
    match g
    case Premise =>
    case PremiseProximity =>
    case Block =>
    case Route =>
    case Neighborhood =>
    case Locality =>
    case Sublocality =>
    case AdministrativeArea =>
    case Other =>
  }

  /** Base score in hundredths for the provider's `location_type`; 30 for anything unknown. */
  function BaseScore(locationType: string): (b: nat)
    ensures 30 <= b <= 100
    ensures b == 100 <==> locationType == "ROOFTOP"
    ensures locationType !in {"ROOFTOP", "RANGE_INTERPOLATED", "GEOMETRIC_CENTER", "APPROXIMATE"} ==> b == 30
  {
    if locationType == "ROOFTOP" then 100
    else if locationType == "RANGE_INTERPOLATED" then 80
    else if locationType == "GEOMETRIC_CENTER" then 60
    else if locationType == "APPROXIMATE" then 40
    else 30
  }

  /**
    Granularity multiplier in hundredths. The source looks it up by name with
    a default of 0.1; every granularity has an entry, and OTHER's entry is 0.1.
   */
  function Multiplier(g: Granularity): (m: nat)
    ensures 10 <= m <= 100
    ensures m == 100 <==> g == Premise
    ensures g == Other ==> m == 10
  {
    match g
    case Premise => 100
    case PremiseProximity => 95
    case Block => 70
    case Route => 60
    case Neighborhood => 40
    case Locality => 30
    case Sublocality => 35
    case AdministrativeArea => 20
    case Other => 10
  }

  /** Positional precision the match is scored on: the provider's value, or APPROXIMATE when absent. */
  function LocationTypeOrDefault(locationType: Option<string>): string {
    locationType.GetOr("APPROXIMATE")
  }

  /**
    `_calculate_confidence` in hundredths: base times multiplier, rounded to
    two decimals. It lies in [0, 1] and is 1 only for a ROOFTOP PREMISE.
   */
  function Confidence(locationType: string, g: Granularity): (c: nat)
    ensures c <= 100
    ensures c == 100 <==> locationType == "ROOFTOP" && g == Premise
    ensures c >= 3
  {
    var b, m := BaseScore(locationType), Multiplier(g);
    assert b * m <= 100 * m <= 100 * 100;
    assert b * m >= 30 * m >= 30 * 10;
    assert b * m >= 10000 ==> b == 100 && m == 100 by {
      if b < 100 { assert b * m <= 99 * m <= 99 * 100; }
      if m < 100 { assert b * m <= b * 99 <= 100 * 99; }
    }
    b * m / 100
  }

  /**
    The integer division is the source's rounding: the product of two table
    entries is a whole number of hundredths except in two cells, where it ends
    in half a hundredth (0.3 x 0.95 and 0.3 x 0.35); there the binary product
    falls just below the half and `round` goes down, as the division does.
   */
  lemma ConfidenceRoundingCells(locationType: string, g: Granularity)
    ensures var p := BaseScore(locationType) * Multiplier(g);
      p % 100 == 0 || (p % 100 == 50 && BaseScore(locationType) == 30 && (g == PremiseProximity || g == Sublocality))
  {
  }
}
