/**
 Instants, durations and wall-clock readings.

 An instant is a count of nanoseconds since midnight UTC on the first day of year 1, which is
 where Go's zero time sits.  A zone is a fixed offset from UTC.  A calendar date is a day number:
 the Gregorian calendar plays no part in the rules.
 */
module Calendar {

  type Instant = int

  const SECOND: int := 1_000_000_000
  const MINUTE: int := 60_000_000_000
  const HOUR: int := 3_600_000_000_000
  const DAY: int := 86_400_000_000_000

  /** Go's zero time: what `IsZero` compares with. */
  const ZERO_TIME: Instant := 0

  datatype Zone = Zone(offset: int)

  /** What a wall clock in the zone has counted at t. */
  function Local(t: Instant, zone: Zone): int {
    t + zone.offset
  }

  function LocalDay(t: Instant, zone: Zone): int {
    Local(t, zone) / DAY
  }

  function LocalHour(t: Instant, zone: Zone): int {
    Local(t, zone) % DAY / HOUR
  }

  function LocalMinute(t: Instant, zone: Zone): int {
    Local(t, zone) % HOUR / MINUTE
  }

  function LocalSecond(t: Instant, zone: Zone): int {
    Local(t, zone) % MINUTE / SECOND
  }

  function LocalNanosecond(t: Instant, zone: Zone): int {
    Local(t, zone) % SECOND
  }

  /** The instant the zone's wall clock reads the hour on the day; an hour of 24 or more runs into later days. */
  function Date(day: int, hour: int, zone: Zone): Instant {
    day * DAY + hour * HOUR - zone.offset
  }

  predicate Ascending(times: seq<Instant>) {
    forall i, j :: 0 <= i < j < |times| ==> times[i] < times[j]
  }

  predicate OnTheHour(t: Instant, zone: Zone) {
    LocalMinute(t, zone) == 0 && LocalSecond(t, zone) == 0 && LocalNanosecond(t, zone) == 0
  }

  lemma ProductAtLeast(d: int, e: int)
    requires 0 < d && 1 <= e
    ensures d <= d * e
  {
  }

  lemma QuotientUnique(d: int, q: int, r: int, q': int, r': int)
    requires 0 <= r < d && 0 <= r' < d && d * q + r == d * q' + r'
    ensures q == q' && r == r'
  {
    assert d * (q - q') == r' - r && d * (q' - q) == r - r';
    if q > q' {
      ProductAtLeast(d, q - q');
      assert false;
    } else if q < q' {
      ProductAtLeast(d, q' - q);
      assert false;
    }
  }

  lemma DivModUnique(n: int, d: int, q: int, r: int)
    requires 0 <= r < d && n == d * q + r
    ensures n / d == q && n % d == r
  {
    QuotientUnique(d, n / d, n % d, q, r);
  }

  /** No minutes, seconds or nanoseconds past the hour: a whole number of hours on the local clock. */
  lemma OnTheHourIsWholeHours(t: Instant, zone: Zone)
    ensures OnTheHour(t, zone) <==> Local(t, zone) % HOUR == 0
  {
    var l := Local(t, zone);
    var hours, m := l / HOUR, l % HOUR;
    if m < MINUTE {
      DivModUnique(l, MINUTE, 60 * hours, m);
      if m < SECOND {
        DivModUnique(l, SECOND, 3600 * hours, m);
      }
    }
  }

  /** Reading back the hour and the day of a date returns what it was built from. */
  lemma DateReadsBack(day: int, hour: int, zone: Zone)
    requires 0 <= hour < 24
    ensures LocalDay(Date(day, hour, zone), zone) == day
    ensures LocalHour(Date(day, hour, zone), zone) == hour
    ensures OnTheHour(Date(day, hour, zone), zone)
  {
    var l := Local(Date(day, hour, zone), zone);
    DivModUnique(l, DAY, day, hour * HOUR);
    DivModUnique(hour * HOUR, HOUR, hour, 0);
    DivModUnique(l, HOUR, 24 * day + hour, 0);
    OnTheHourIsWholeHours(Date(day, hour, zone), zone);
  }

  /** An instant on the hour is the date made of its own day and hour. */
  lemma OnTheHourIsADate(t: Instant, zone: Zone)
    requires OnTheHour(t, zone)
    ensures t == Date(LocalDay(t, zone), LocalHour(t, zone), zone)
    ensures 0 <= LocalHour(t, zone) < 24
  {
    OnTheHourIsWholeHours(t, zone);
    var l := Local(t, zone);
    assert l == DAY * (l / DAY) + l % DAY;
    assert l % DAY == HOUR * (l / HOUR - 24 * (l / DAY));
  }
}
