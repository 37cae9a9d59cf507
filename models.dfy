/**
  The persistent entities of the shipping service (zones, methods and quotes),
  the time-window test of a shipping method, and the formatted fields of their
  dictionary views. Creation and update timestamps of the rows are not modelled.
 */
module Models {
  import opened Common
  import opened Formatting

  /** A wall-clock time of day, in microseconds since midnight (the precision of `datetime.time`). */
  type TimeOfDay = t: int | 0 <= t < MicrosPerDay

  /** The time of day `hour:minute:second`, as `datetime.time(hour, minute, second)` builds it. */
  function Clock(hour: nat, minute: nat, second: nat): TimeOfDay
    requires hour < 24 && minute < 60 && second < 60
  {
    hour * MicrosPerHour + minute * MicrosPerMinute + second * MicrosPerSecond
  }

  /** The hour of the day that `t` falls in (an hour is 3_600_000_000 microseconds). */
  function HourOf(t: TimeOfDay): (h: nat)
    ensures h < 24
    ensures h * 3_600_000_000 <= t < h * 3_600_000_000 + 3_600_000_000
  {
    t / MicrosPerHour
  }

  /** The minute of the hour that `t` falls in (a minute is 60_000_000 microseconds). */
  function MinuteOf(t: TimeOfDay): (m: nat)
    ensures m < 60
    ensures m * 60_000_000 <= t % 3_600_000_000 < m * 60_000_000 + 60_000_000
  {
    (t / MicrosPerMinute) % 60
  }

  /** A price tier: every distance in the closed range [minKm, maxKm] costs `priceClp` pesos. */
  datatype ShippingZone = ShippingZone(id: nat, minKm: real, maxKm: real, priceClp: int, isActive: bool)

  /** A delivery option, offered during a daily window and up to a maximum distance. */
  datatype ShippingMethod = ShippingMethod(
    id: nat,
    name: string,
    code: string,
    description: string,
    isActive: bool,
    startTime: TimeOfDay,
    endTime: TimeOfDay,
    maxKm: real)

  /** The columns of a quote row, as the quote endpoint fills them in before the row has an id. */
  datatype QuoteDraft = QuoteDraft(
    sessionId: Option<string>,
    originAddress: string,
    destinationAddress: string,
    originLat: real,
    originLng: real,
    destinationLat: real,
    destinationLng: real,
    distanceKm: real,
    durationMinutes: int,
    methodId: Option<nat>,
    zoneId: Option<nat>,
    priceClp: int,
    isAvailable: bool)

  /** A stored quote: the audit record of one priced option. */
  datatype ShippingQuote = ShippingQuote(id: nat, draft: QuoteDraft)

  /**
    `ShippingMethod.is_available_now` with the clock reading passed in: an
    inactive method is never available; a window with start <= end is the
    closed interval [start, end]; a window with start > end wraps midnight.
   */
  predicate IsAvailableAt(isActive: bool, start: TimeOfDay, end: TimeOfDay, now: TimeOfDay) {
    if !isActive then false
    else if start <= end then start <= now <= end
    else now >= start || now <= end
  }

  predicate MethodAvailableAt(m: ShippingMethod, now: TimeOfDay) {
    IsAvailableAt(m.isActive, m.startTime, m.endTime, now)
  }

  lemma ClockDifference(x: int)
    requires -MicrosPerDay < x < MicrosPerDay
    ensures x % MicrosPerDay == if x >= 0 then x else x + MicrosPerDay
  {
  }

  /**
    Both branches of the window test are one rule: walking forward around the
    clock from `start`, an active method is available until `end` is reached.
   */
  lemma AvailabilityIsForwardArc(isActive: bool, start: TimeOfDay, end: TimeOfDay, now: TimeOfDay)
    ensures IsAvailableAt(isActive, start, end, now)
        == (isActive && (now - start) % MicrosPerDay <= (end - start) % MicrosPerDay)
  {
    ClockDifference(now - start);
    ClockDifference(end - start);
  }

  /** A window that wraps midnight is the complement of the open gap (end, start). */
  lemma WrappingWindowIsComplementOfGap(start: TimeOfDay, end: TimeOfDay, now: TimeOfDay)
    requires start > end
    ensures IsAvailableAt(true, start, end, now) <==> !(end < now < start)
  {
  }

  /**
    The clock reading carries seconds: a window ending at 18:00 is closed at
    18:00:30, and a window whose start equals its end is open at that instant
    only. An inactive method is never open, whatever its window.
   */
  lemma AvailabilityBoundaries(start: TimeOfDay, end: TimeOfDay, now: TimeOfDay)
    ensures IsAvailableAt(true, Clock(8, 0, 0), Clock(18, 0, 0), Clock(18, 0, 0))
    ensures !IsAvailableAt(true, Clock(8, 0, 0), Clock(18, 0, 0), Clock(18, 0, 30))
    ensures IsAvailableAt(true, start, start, now) <==> now == start
    ensures !IsAvailableAt(false, start, end, now)
  {
  }

  /** `s` reads as the hour and minute of `t`: two digits, a colon, two digits. */
  predicate ReadsAsClock(s: string, t: TimeOfDay) {
    && |s| == 5 && s[2] == ':' && AllDigits(s[..2]) && AllDigits(s[3..])
    && ValueOf(s[..2]) == HourOf(t) && ValueOf(s[3..]) == MinuteOf(t)
  }

  /** `strftime('%H:%M')`: zero-padded hour and minute; seconds are dropped. */
  function FormatHHMM(t: TimeOfDay): (s: string)
    ensures ReadsAsClock(s, t)
  {
    var hh, mm := TwoDigits(HourOf(t)), TwoDigits(MinuteOf(t));
    assert (hh + ":" + mm)[..2] == hh && (hh + ":" + mm)[3..] == mm;
    hh + ":" + mm
  }

  /** The fields of `ShippingZone.to_dict` that the model keeps. */
  datatype ZoneView = ZoneView(id: nat, minKm: real, maxKm: real, priceClp: int, priceFormatted: string, isActive: bool)

  function ZoneToDict(z: ShippingZone): (v: ZoneView)
    ensures v.id == z.id && v.minKm == z.minKm && v.maxKm == z.maxKm && v.isActive == z.isActive
    ensures v.priceClp == z.priceClp && ParsePrice(v.priceFormatted) == Some(z.priceClp)
  {
    PriceRoundTrip(z.priceClp);
    ZoneView(z.id, z.minKm, z.maxKm, z.priceClp, FormatPrice(z.priceClp), z.isActive)
  }

  /** The fields of `ShippingMethod.to_dict` that the model keeps. */
  datatype MethodView = MethodView(
    id: nat,
    name: string,
    code: string,
    description: string,
    isActive: bool,
    startTime: string,
    endTime: string,
    maxKm: real,
    isAvailableNow: bool)

  function MethodToDict(m: ShippingMethod, now: TimeOfDay): (v: MethodView)
    ensures v.id == m.id && v.code == m.code && v.name == m.name && v.isActive == m.isActive
    ensures ReadsAsClock(v.startTime, m.startTime) && ReadsAsClock(v.endTime, m.endTime)
    ensures v.description == m.description && v.maxKm == m.maxKm
    ensures v.isAvailableNow == MethodAvailableAt(m, now)
    ensures v.isAvailableNow ==> m.isActive
  {
    MethodView(m.id, m.name, m.code, m.description, m.isActive,
               FormatHHMM(m.startTime), FormatHHMM(m.endTime), m.maxKm, MethodAvailableAt(m, now))
  }
}
