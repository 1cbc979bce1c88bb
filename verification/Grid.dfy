/** What the slot rules add up to: a fixed grid of windows that never overlap. */
module Grid {
  import opened Wrappers
  import opened Calendar
  import opened Errors
  import opened Courts

  /** The k-th window of the court's day starts here. */
  function GridPoint(c: Court, day: int, k: nat, zone: Zone): Instant {
    Date(day, c.openHour + SLOT_HOURS * k, zone)
  }

  /** The start is one of the windows the court's hours lay out on the start's own local date. */
  ghost predicate OnGrid(c: Court, startsAt: Instant, zone: Zone) {
    exists k: nat :: startsAt == GridPoint(c, LocalDay(startsAt, zone), k, zone)
                     && c.openHour + SLOT_HOURS * k + SLOT_HOURS <= c.closeHour
  }

  /** The chain of checks accepts exactly the future grid windows of an active court inside the horizon. */
  lemma BookableMeansOnGrid(c: Court, startsAt: Instant, zone: Zone, now: Instant)
    requires HoursAccepted(c.openHour, c.closeHour)
    ensures Bookable(c, startsAt, zone, now) <==>
            c.isActive && now < startsAt <= now + BOOKING_HORIZON && OnGrid(c, startsAt, zone)
  {
    if Bookable(c, startsAt, zone, now) {
      OnTheHourIsADate(startsAt, zone);
      var k: nat := (LocalHour(startsAt, zone) - c.openHour) / SLOT_HOURS;
      assert startsAt == GridPoint(c, LocalDay(startsAt, zone), k, zone);
    }
    if OnGrid(c, startsAt, zone) {
      var k: nat :| startsAt == GridPoint(c, LocalDay(startsAt, zone), k, zone)
                    && c.openHour + SLOT_HOURS * k + SLOT_HOURS <= c.closeHour;
      DateReadsBack(LocalDay(startsAt, zone), c.openHour + SLOT_HOURS * k, zone);
    }
  }

  /** The whole window lies between the court opening and closing on the start's own local date. */
  predicate WithinHours(c: Court, startsAt: Instant, zone: Zone) {
    var day := LocalDay(startsAt, zone);
    Date(day, c.openHour, zone) <= startsAt && startsAt + SLOT_DURATION <= Date(day, c.closeHour, zone)
  }

  predicate InTime(startsAt: Instant, now: Instant) {
    now < startsAt <= now + BOOKING_HORIZON
  }

  /** What each refusal of a start says about it: the first thing wrong with it, in this order. */
  lemma RefusalMeans(c: Court, s: Instant, zone: Zone, now: Instant)
    requires HoursAccepted(c.openHour, c.closeHour)
    ensures ValidateSlot(c, s, zone, now) == Some(CourtInactive) <==> !c.isActive
    ensures ValidateSlot(c, s, zone, now) == Some(SlotNotOnTheHour) <==> c.isActive && Local(s, zone) % HOUR != 0
    ensures ValidateSlot(c, s, zone, now) == Some(SlotInThePast) <==>
            c.isActive && Local(s, zone) % HOUR == 0 && s <= now
    ensures ValidateSlot(c, s, zone, now) == Some(SlotTooFarAhead) <==>
            c.isActive && Local(s, zone) % HOUR == 0 && s - now > 14 * DAY
    ensures ValidateSlot(c, s, zone, now) == Some(SlotOutsideOpeningHours) <==>
            c.isActive && Local(s, zone) % HOUR == 0 && InTime(s, now) && !WithinHours(c, s, zone)
    ensures ValidateSlot(c, s, zone, now) == Some(SlotNotOnTheGrid) <==>
            c.isActive && Local(s, zone) % HOUR == 0 && InTime(s, now) && WithinHours(c, s, zone) && !OnGrid(c, s, zone)
  {
    OnTheHourIsWholeHours(s, zone);
    BookableMeansOnGrid(c, s, zone, now);
    if OnTheHour(s, zone) {
      OnTheHourIsADate(s, zone);
    }
  }

  /** Two grid windows of one court are the same window or do not overlap, on either side of midnight too. */
  lemma GridWindowsDoNotOverlap(c: Court, s: Instant, t: Instant, zone: Zone)
    requires HoursAccepted(c.openHour, c.closeHour)
    requires OnGrid(c, s, zone) && OnGrid(c, t, zone)
    ensures s == t || s + SLOT_DURATION <= t || t + SLOT_DURATION <= s
  {
    var j: nat :| s == GridPoint(c, LocalDay(s, zone), j, zone) && c.openHour + SLOT_HOURS * j + SLOT_HOURS <= c.closeHour;
    var k: nat :| t == GridPoint(c, LocalDay(t, zone), k, zone) && c.openHour + SLOT_HOURS * k + SLOT_HOURS <= c.closeHour;
    if LocalDay(s, zone) == LocalDay(t, zone) {
      assert s - t == (j - k) * SLOT_DURATION;
    }
  }

  /** A date on the hour grid is bookable exactly when the clock allows it. */
  lemma GridDateBookable(c: Court, day: int, hour: int, zone: Zone, now: Instant)
    requires HoursAccepted(c.openHour, c.closeHour)
    requires c.openHour <= hour && hour + SLOT_HOURS <= c.closeHour && (hour - c.openHour) % SLOT_HOURS == 0
    ensures Bookable(c, Date(day, hour, zone), zone, now) <==>
            c.isActive && now < Date(day, hour, zone) <= now + BOOKING_HORIZON
  {
    DateReadsBack(day, hour, zone);
  }

  lemma {:induction false} SlotsFromExact(c: Court, day: int, zone: Zone, now: Instant, hour: int, t: Instant)
    requires HoursAccepted(c.openHour, c.closeHour)
    requires c.openHour <= hour && (hour - c.openHour) % SLOT_HOURS == 0
    ensures t in SlotsFrom(c, day, zone, now, hour) <==>
            LocalDay(t, zone) == day && LocalHour(t, zone) >= hour && Bookable(c, t, zone, now)
    decreases c.closeHour - hour
  {
    if hour + SLOT_HOURS <= c.closeHour {
      SlotsFromExact(c, day, zone, now, hour + SLOT_HOURS, t);
      DateReadsBack(day, hour, zone);
      if LocalDay(t, zone) == day && LocalHour(t, zone) >= hour && Bookable(c, t, zone, now) {
        OnTheHourIsADate(t, zone);
      }
    }
  }

  /** SlotsOn returns precisely the instants of the local date that ValidateSlot accepts. */
  lemma SlotsOnExact(c: Court, day: int, zone: Zone, now: Instant, t: Instant)
    requires HoursAccepted(c.openHour, c.closeHour)
    ensures t in SlotsOnDate(c, day, zone, now) <==> LocalDay(t, zone) == day && Bookable(c, t, zone, now)
  {
    SlotsFromExact(c, day, zone, now, c.openHour, t);
  }

  /** Each window ends where the next starts. */
  predicate Contiguous(starts: seq<Instant>) {
    forall i :: 0 <= i < |starts| - 1 ==> starts[i + 1] == starts[i] + SLOT_DURATION
  }

  /** Once a window has survived the clock, the next one survives too unless the horizon has cut all the rest. */
  lemma {:induction false} FirstSurvivor(c: Court, day: int, zone: Zone, now: Instant, hour: int)
    requires HoursAccepted(c.openHour, c.closeHour)
    requires c.openHour <= hour && (hour - c.openHour) % SLOT_HOURS == 0
    requires Date(day, hour, zone) > now
    requires SlotsFrom(c, day, zone, now, hour) != []
    ensures SlotsFrom(c, day, zone, now, hour)[0] == Date(day, hour, zone)
  {
    var first := SlotsFrom(c, day, zone, now, hour)[0];
    SlotsFromExact(c, day, zone, now, hour, first);
    OnTheHourIsADate(first, zone);
    GridDateBookable(c, day, hour, zone, now);
  }

  lemma {:induction false} SlotsFromContiguous(c: Court, day: int, zone: Zone, now: Instant, hour: int)
    requires HoursAccepted(c.openHour, c.closeHour)
    requires c.openHour <= hour && (hour - c.openHour) % SLOT_HOURS == 0
    ensures Contiguous(SlotsFrom(c, day, zone, now, hour))
    decreases c.closeHour - hour
  {
    if hour + SLOT_HOURS <= c.closeHour {
      SlotsFromContiguous(c, day, zone, now, hour + SLOT_HOURS);
      var rest := SlotsFrom(c, day, zone, now, hour + SLOT_HOURS);
      if Bookable(c, Date(day, hour, zone), zone, now) && rest != [] {
        FirstSurvivor(c, day, zone, now, hour + SLOT_HOURS);
      }
    }
  }

  lemma {:induction false} ContiguousAscends(starts: seq<Instant>, i: nat, j: nat)
    requires Contiguous(starts) && i < j < |starts|
    ensures starts[j] == starts[i] + (j - i) * SLOT_DURATION
    decreases j
  {
    if i + 1 < j {
      ContiguousAscends(starts, i, j - 1);
    }
    assert starts[j - 1 + 1] == starts[j - 1] + SLOT_DURATION;
  }

  /** What SlotsOn offers is one unbroken run of the grid, strictly ascending. */
  lemma SlotsOnContiguous(c: Court, day: int, zone: Zone, now: Instant)
    requires HoursAccepted(c.openHour, c.closeHour)
    ensures Contiguous(SlotsOnDate(c, day, zone, now)) && Ascending(SlotsOnDate(c, day, zone, now))
  {
    SlotsFromContiguous(c, day, zone, now, c.openHour);
    var starts := SlotsOnDate(c, day, zone, now);
    forall i, j | 0 <= i < j < |starts| ensures starts[i] < starts[j] {
      ContiguousAscends(starts, i, j);
    }
  }

  lemma {:induction false} KeepWithinAscends(starts: seq<Instant>, zone: Zone, fromHour: int, toHour: int)
    requires Ascending(starts)
    ensures Ascending(KeepWithin(starts, zone, fromHour, toHour))
  {
    if starts != [] {
      KeepWithinAscends(starts[..|starts| - 1], zone, fromHour, toHour);
      var kept := KeepWithin(starts[..|starts| - 1], zone, fromHour, toHour);
      assert forall t :: t in kept ==> t in starts[..|starts| - 1] && t < starts[|starts| - 1];
      assert forall i :: 0 <= i < |kept| ==> kept[i] in kept;
    }
  }

  /** The narrowed list keeps the order and exactly the bookable starts whose local hour was asked for. */
  lemma SlotsWithinExact(c: Court, day: int, zone: Zone, now: Instant, fromHour: int, toHour: int, t: Instant)
    requires HoursAccepted(c.openHour, c.closeHour)
    ensures t in SlotsBetween(c, day, zone, now, fromHour, toHour) <==>
            LocalDay(t, zone) == day && StartsWithin(t, zone, fromHour, toHour) && Bookable(c, t, zone, now)
    ensures Ascending(SlotsBetween(c, day, zone, now, fromHour, toHour))
  {
    SlotsOnExact(c, day, zone, now, t);
    SlotsOnContiguous(c, day, zone, now);
    KeepWithinAscends(SlotsOnDate(c, day, zone, now), zone, fromHour, toHour);
  }

  /** The stored price is the charged price exactly while doubling the hourly price stays inside 32 bits. */
  lemma StoredPriceFaithful(c: Court)
    requires IsInt32(c.pricePerHour)
    ensures ToInt32(SlotPrice(c)) == SlotPrice(c) <==> -1_073_741_824 <= c.pricePerHour <= 1_073_741_823
    ensures IsInt32(ToInt32(SlotPrice(c))) && (SlotPrice(c) - ToInt32(SlotPrice(c))) % 0x1_0000_0000 == 0
  {
    assert IsInt32(SlotPrice(c)) <==> -1_073_741_824 <= c.pricePerHour <= 1_073_741_823;
  }
}
