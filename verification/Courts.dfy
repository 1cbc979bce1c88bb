/**
 Courts, the venues they stand at, and the slot rules: what a court's opening hours offer on a
 date and what a booking request is checked against.
 */
module Courts {
  import opened Wrappers
  import opened Calendar
  import opened Errors

  /** The width of a window, in hours and as a duration. */
  const SLOT_HOURS: int := 2
  const SLOT_DURATION: int := 7_200_000_000_000
  /** The last start to be had lies fourteen days off. */
  const BOOKING_HORIZON: int := 1_209_600_000_000_000

  /** Identifiers are never reused; zero stands for the nil identifier. */
  type Id = nat
  const NIL_ID: Id := 0

  datatype Court = Court(id: Id, openHour: int, closeHour: int, pricePerHour: int, isActive: bool)

  datatype Venue = Venue(id: Id, city: string, zone: Zone, isActive: bool)

  datatype CourtAtVenue = CourtAtVenue(court: Court, venue: Venue)

  /** The hours a court can be registered with. */
  predicate HoursAccepted(openHour: int, closeHour: int) {
    !(openHour < 0 || closeHour > 24 || openHour >= closeHour)
  }

  /** Go's `int32(n)`: keeps the low 32 bits, read as two's complement. */
  function ToInt32(n: int): int {
    (n + 0x8000_0000) % 0x1_0000_0000 - 0x8000_0000
  }

  predicate IsInt32(n: int) {
    -0x8000_0000 <= n < 0x8000_0000
  }

  function SlotPrice(c: Court): int {
    c.pricePerHour * SLOT_HOURS
  }

  /** The first slot rule the start breaks, or nothing when it can be booked. */
  function ValidateSlot(c: Court, startsAt: Instant, zone: Zone, now: Instant): Option<Error> {
    if !c.isActive then
      Some(CourtInactive)
    else if LocalMinute(startsAt, zone) != 0 || LocalSecond(startsAt, zone) != 0 || LocalNanosecond(startsAt, zone) != 0 then
      Some(SlotNotOnTheHour)
    else if !(startsAt > now) then
      Some(SlotInThePast)
    else if startsAt > now + BOOKING_HORIZON then
      Some(SlotTooFarAhead)
    else if LocalHour(startsAt, zone) < c.openHour || LocalHour(startsAt, zone) + SLOT_HOURS > c.closeHour then
      Some(SlotOutsideOpeningHours)
    else if (LocalHour(startsAt, zone) - c.openHour) % SLOT_HOURS != 0 then
      Some(SlotNotOnTheGrid)
    else
      None
  }

  predicate Bookable(c: Court, startsAt: Instant, zone: Zone, now: Instant) {
    ValidateSlot(c, startsAt, zone, now).None?
  }

  /** The bookable windows on the day that open at the given hour or a whole number of slots later. */
  function SlotsFrom(c: Court, day: int, zone: Zone, now: Instant, hour: int): seq<Instant>
    decreases c.closeHour - hour
  {
    if hour + SLOT_HOURS <= c.closeHour then
      var startsAt := Date(day, hour, zone);
      (if Bookable(c, startsAt, zone, now) then [startsAt] else []) + SlotsFrom(c, day, zone, now, hour + SLOT_HOURS)
    else
      []
  }

  /** The starts of the date that pass the checks, on the grid from the opening hour. */
  function SlotsOnDate(c: Court, day: int, zone: Zone, now: Instant): seq<Instant> {
    SlotsFrom(c, day, zone, now, c.openHour)
  }

  method SlotsOn(c: Court, day: int, zone: Zone, now: Instant) returns (slots: seq<Instant>)
    ensures slots == SlotsOnDate(c, day, zone, now)
  {
    slots := [];
    var hour := c.openHour;
    while hour + SLOT_HOURS <= c.closeHour
      invariant slots + SlotsFrom(c, day, zone, now, hour) == SlotsOnDate(c, day, zone, now)
      decreases c.closeHour - hour
    {
      var startsAt := Date(day, hour, zone);
      var check := ValidateSlot(c, startsAt, zone, now);
      if check.None? {
        slots := slots + [startsAt];
      }
      hour := hour + SLOT_HOURS;
    }
  }

  predicate StartsWithin(at: Instant, zone: Zone, fromHour: int, toHour: int) {
    fromHour <= LocalHour(at, zone) < toHour
  }

  /** The starts whose local hour lies in [fromHour, toHour), in order. */
  function KeepWithin(starts: seq<Instant>, zone: Zone, fromHour: int, toHour: int): (kept: seq<Instant>)
    ensures forall t :: t in kept <==> t in starts && StartsWithin(t, zone, fromHour, toHour)
  {
    if starts == [] then
      []
    else
      var last := starts[|starts| - 1];
      KeepWithin(starts[..|starts| - 1], zone, fromHour, toHour)
      + (if StartsWithin(last, zone, fromHour, toHour) then [last] else [])
  }

  function SlotsBetween(c: Court, day: int, zone: Zone, now: Instant, fromHour: int, toHour: int): seq<Instant> {
    KeepWithin(SlotsOnDate(c, day, zone, now), zone, fromHour, toHour)
  }

  method SlotsWithin(c: Court, day: int, zone: Zone, now: Instant, fromHour: int, toHour: int)
    returns (within: seq<Instant>)
    ensures within == SlotsBetween(c, day, zone, now, fromHour, toHour)
  {
    within := [];
    var starts := SlotsOn(c, day, zone, now);
    for k := 0 to |starts|
      invariant within == KeepWithin(starts[..k], zone, fromHour, toHour)
    {
      assert starts[..k + 1][..k] == starts[..k];
      var hour := LocalHour(starts[k], zone);
      if hour >= fromHour && hour < toHour {
        within := within + [starts[k]];
      }
    }
    assert starts[..|starts|] == starts;
  }
}
