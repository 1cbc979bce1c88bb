/** What is offered: one court's availability on a date, and the search over many courts. */
module Views {
  import opened Wrappers
  import opened Calendar
  import opened Errors
  import opened Courts
  import opened Grid
  import opened Bookings
  import opened Protocol
  import opened Repository

  datatype Slot = Slot(startsAt: Instant, available: bool)

  /** Each start with whether its slot is free, asked of the table one slot at a time. */
  function MarkSlots(rows: seq<Booking>, courtId: Id, starts: seq<Instant>): seq<Slot> {
    if starts == [] then
      []
    else
      var at := starts[|starts| - 1];
      MarkSlots(rows, courtId, starts[..|starts| - 1]) + [Slot(at, !SlotHeld(rows, courtId, at))]
  }

  function AvailabilityOf(cv: CourtAtVenue, rows: seq<Booking>, day: int, now: Instant): seq<Slot> {
    MarkSlots(rows, cv.court.id, SlotsOnDate(cv.court, day, cv.venue.zone, now))
  }

  /** One slot for each start, in order, available exactly when nobody holds it. */
  lemma {:induction false} MarkSlotsAt(rows: seq<Booking>, courtId: Id, starts: seq<Instant>)
    ensures |MarkSlots(rows, courtId, starts)| == |starts|
    ensures forall i :: 0 <= i < |starts| ==>
              var s := MarkSlots(rows, courtId, starts)[i];
              s.startsAt == starts[i] && (s.available <==> !SlotHeld(rows, courtId, starts[i]))
  {
    if starts != [] {
      MarkSlotsAt(rows, courtId, starts[..|starts| - 1]);
    }
  }

  lemma MarkSlotsExact(rows: seq<Booking>, courtId: Id, starts: seq<Instant>, s: Slot)
    ensures s in MarkSlots(rows, courtId, starts) <==>
            s.startsAt in starts && s.available == !SlotHeld(rows, courtId, s.startsAt)
  {
    MarkSlotsAt(rows, courtId, starts);
    var slots := MarkSlots(rows, courtId, starts);
    if s.startsAt in starts {
      var i :| 0 <= i < |starts| && starts[i] == s.startsAt;
      assert slots[i] in slots;
    }
    if s in slots {
      var i :| 0 <= i < |slots| && slots[i] == s;
      assert starts[i] in starts;
    }
  }

  /** The starts a range query over [first, last + slot) cannot miss. */
  lemma RangeCovers(starts: seq<Instant>, t: Instant)
    requires Ascending(starts) && t in starts
    ensures starts[0] <= t < starts[|starts| - 1] + SLOT_DURATION
  {
  }

  /** A set of instants, as Go keys a map of booleans by them. */
  method Keyed(starts: seq<Instant>) returns (held: map<Instant, bool>)
    ensures forall t :: t in held <==> t in starts
  {
    held := map[];
    for k := 0 to |starts|
      invariant forall t :: t in held <==> t in starts[..k]
    {
      held := held[starts[k] := true];
    }
    assert starts[..|starts|] == starts;
  }

  /** Every start with whether it is absent from what the range query brought back. */
  method Marked(starts: seq<Instant>, taken: seq<Instant>, ghost rows: seq<Booking>, ghost courtId: Id)
    returns (slots: seq<Slot>)
    requires forall t :: t in starts ==> (t in taken <==> SlotHeld(rows, courtId, t))
    ensures slots == MarkSlots(rows, courtId, starts)
  {
    var held := Keyed(taken);
    slots := [];
    for k := 0 to |starts|
      invariant slots == MarkSlots(rows, courtId, starts[..k])
    {
      assert starts[..k + 1][..k] == starts[..k];
      slots := slots + [Slot(starts[k], starts[k] !in held)];
    }
    assert starts[..|starts|] == starts;
  }

  /** One query for the range the windows span tells, of each, whether it is taken. */
  method Availability(site: Site, repo: BookingRepository, courtId: Id, day: int, now: Instant, readOk: bool)
    returns (r: Result<seq<Slot>, Error>)
    requires SiteSound(site)
    ensures courtId == NIL_ID ==> r == Err(CourtRequired)
    ensures courtId != NIL_ID && courtId !in site.courts ==> r == Err(CourtNotFound)
    ensures courtId != NIL_ID && courtId in site.courts && !site.courts[courtId].venue.isActive ==> r == Err(VenueInactive)
    ensures courtId != NIL_ID && courtId in site.courts && site.courts[courtId].venue.isActive ==>
              var cv := site.courts[courtId];
              r == if readOk || SlotsOnDate(cv.court, day, cv.venue.zone, now) == []
                   then Ok(AvailabilityOf(cv, repo.rows, day, now)) else Err(StorageFailed)
    // One slot for each start of the date, strictly ascending, available exactly when no uncancelled row has it.
    ensures r.Ok? ==>
              courtId in site.courts
              && var starts := SlotsOnDate(site.courts[courtId].court, day, site.courts[courtId].venue.zone, now);
                 && |r.value| == |starts|
                 && (forall i :: 0 <= i < |starts| ==>
                       r.value[i].startsAt == starts[i] && (r.value[i].available <==> !SlotHeld(repo.rows, courtId, starts[i])))
                 && (forall i, j :: 0 <= i < j < |starts| ==> r.value[i].startsAt < r.value[j].startsAt)
  {
    if courtId == NIL_ID {
      return Err(CourtRequired);
    }
    if courtId !in site.courts {
      return Err(CourtNotFound);
    }
    var cv := site.courts[courtId];
    if !cv.venue.isActive {
      return Err(VenueInactive);
    }
    var starts := SlotsOn(cv.court, day, cv.venue.zone, now);
    if |starts| == 0 {
      return Ok([]);
    }
    var last := starts[|starts| - 1];
    var taken := repo.ListBookedSlots(courtId, starts[0], last + SLOT_DURATION, readOk);
    if taken.Err? {
      return Err(taken.error);
    }
    SlotsOnContiguous(cv.court, day, cv.venue.zone, now);
    forall t | t in starts ensures t in taken.value <==> SlotHeld(repo.rows, courtId, t) {
      RangeCovers(starts, t);
      BookedStartsExact(repo.rows, courtId, starts[0], last + SLOT_DURATION, t);
    }
    var slots := Marked(starts, taken.value, repo.rows, courtId);
    MarkSlotsAt(repo.rows, courtId, starts);
    r := Ok(slots);
  }

  /** A start is shown available exactly when booking it right now would pass every check and win the slot. */
  lemma AvailableExactlyWhenBookable(site: Site, rows: seq<Booking>, input: BookSlotInput, day: int, now: Instant,
                                     amount: int, expiry: Instant)
    requires SiteSound(site) && now >= ZERO_TIME
    requires input.courtId in site.courts && input.courtId != NIL_ID && site.courts[input.courtId].venue.isActive
    requires input.playerId in site.users && input.playerId != NIL_ID
    requires site.users[input.playerId].isPlayer && site.users[input.playerId].isActive
    ensures var cv := site.courts[input.courtId];
            Slot(input.startsAt, true) in AvailabilityOf(cv, rows, day, now) <==>
              LocalDay(input.startsAt, cv.venue.zone) == day
              && CheckBookable(site, input, now).None?
              && InsertHold(rows, input, amount, expiry, now).Some?
  {
    var cv := site.courts[input.courtId];
    SlotsOnExact(cv.court, day, cv.venue.zone, now, input.startsAt);
    MarkSlotsExact(rows, cv.court.id, SlotsOnDate(cv.court, day, cv.venue.zone, now), Slot(input.startsAt, true));
  }

  /** Where to look: a city, a date read in each venue's own zone, and hours of the local day. */
  datatype CourtSearch = CourtSearch(city: string, date: int, fromHour: int, toHour: int)

  datatype CourtAvailability = CourtAvailability(court: Court, venue: Venue, slots: seq<Slot>)

  /** What Go's unicode package takes for white space. */
  predicate IsSpace(c: char) {
    c in "\U{9}\U{A}\U{B}\U{C}\U{D} \U{85}\U{A0}\U{1680}\U{2028}\U{2029}\U{202F}\U{205F}\U{3000}"
    || '\U{2000}' <= c <= '\U{200A}'
  }

  predicate Blank(s: string) {
    forall i :: 0 <= i < |s| ==> IsSpace(s[i])
  }

  /** The first rule the search breaks.  A date is midnight UTC, so the zero time is the first day of year 1. */
  function CheckSearch(s: CourtSearch): Option<Error> {
    if Blank(s.city) then Some(SearchCityRequired)
    else if Date(s.date, 0, Zone(0)) == ZERO_TIME then Some(SearchDateRequired)
    else if s.fromHour < 0 || s.toHour > 24 || s.fromHour >= s.toHour then Some(SearchHoursInvalid)
    else None
  }

  /** How the database folds the case of a citext column. */
  type Folding = string -> string

  predicate ListedIn(cv: CourtAtVenue, city: string, fold: Folding) {
    fold(cv.venue.city) == fold(city) && cv.venue.isActive && cv.court.isActive
  }

  /** SELECT of the active courts at active venues of a city; the table is taken in the order of their names. */
  function SearchCourts(courts: seq<CourtAtVenue>, city: string, fold: Folding): (listed: seq<CourtAtVenue>)
    ensures forall cv :: cv in listed <==> cv in courts && ListedIn(cv, city, fold)
  {
    if courts == [] then
      []
    else
      var cv := courts[|courts| - 1];
      SearchCourts(courts[..|courts| - 1], city, fold) + (if ListedIn(cv, city, fold) then [cv] else [])
  }

  lemma {:induction false} ListedRows(courts: seq<CourtAtVenue>, city: string, fold: Folding)
    requires CourtRows(courts)
    ensures CourtRows(SearchCourts(courts, city, fold))
  {
    if courts != [] {
      var init, last := courts[..|courts| - 1], courts[|courts| - 1];
      ListedRows(init, city, fold);
      var listed := SearchCourts(init, city, fold);
      forall i | 0 <= i < |listed| ensures listed[i].court.id != last.court.id {
        assert listed[i] in init;
        var k :| 0 <= k < |init| && init[k] == listed[i];
        assert courts[k] == listed[i];
      }
    }
  }

  function CandidatesOf(cv: CourtAtVenue, s: CourtSearch, now: Instant): seq<Instant> {
    SlotsBetween(cv.court, s.date, cv.venue.zone, now, s.fromHour, s.toHour)
  }

  /** The starts whose slot is free, asked of the table one slot at a time. */
  function KeepFree(rows: seq<Booking>, courtId: Id, starts: seq<Instant>): seq<Slot> {
    if starts == [] then
      []
    else
      var at := starts[|starts| - 1];
      KeepFree(rows, courtId, starts[..|starts| - 1]) + (if SlotHeld(rows, courtId, at) then [] else [Slot(at, true)])
  }

  function FreeSlots(cv: CourtAtVenue, rows: seq<Booking>, s: CourtSearch, now: Instant): seq<Slot> {
    KeepFree(rows, cv.court.id, CandidatesOf(cv, s, now))
  }

  /** The plain answer: court by court and slot by slot, leaving out courts with nothing free. */
  function PlainSearch(courts: seq<CourtAtVenue>, rows: seq<Booking>, s: CourtSearch, now: Instant): seq<CourtAvailability> {
    if courts == [] then
      []
    else
      var cv := courts[|courts| - 1];
      var free := FreeSlots(cv, rows, s, now);
      PlainSearch(courts[..|courts| - 1], rows, s, now)
      + (if free == [] then [] else [CourtAvailability(cv.court, cv.venue, free)])
  }

  ghost predicate NoCandidates(courts: seq<CourtAtVenue>, s: CourtSearch, now: Instant) {
    forall i :: 0 <= i < |courts| ==> CandidatesOf(courts[i], s, now) == []
  }

  /** What the courts query returns: sound rows, each court once. */
  ghost predicate CourtRows(courts: seq<CourtAtVenue>) {
    && (forall i :: 0 <= i < |courts| ==> CourtSound(courts[i].court))
    && (forall i, j :: 0 <= i < j < |courts| ==> courts[i].court.id != courts[j].court.id)
  }

  /** The bounds take in every candidate of the first k courts. */
  ghost predicate Bounds(courts: seq<CourtAtVenue>, k: nat, s: CourtSearch, now: Instant, from: Instant, to: Instant)
    requires k <= |courts|
  {
    forall i, t :: 0 <= i < k && t in CandidatesOf(courts[i], s, now) ==> from <= t < to
  }

  /** Every candidate lies after the clock and between the first and the last of them. */
  lemma CandidatesSpan(cv: CourtAtVenue, s: CourtSearch, now: Instant)
    requires CourtSound(cv.court)
    ensures var starts := CandidatesOf(cv, s, now);
            forall t :: t in starts ==> now < t && starts[0] <= t < starts[|starts| - 1] + SLOT_DURATION
  {
    var starts := CandidatesOf(cv, s, now);
    forall t | t in starts ensures now < t && starts[0] <= t < starts[|starts| - 1] + SLOT_DURATION {
      SlotsWithinExact(cv.court, s.date, cv.venue.zone, now, s.fromHour, s.toHour, t);
      RangeCovers(starts, t);
    }
  }

  /** Widening the bounds by one court's candidates, or starting them there when nothing came before. */
  lemma BoundsExtend(courts: seq<CourtAtVenue>, k: nat, s: CourtSearch, now: Instant,
                     from: Instant, to: Instant, from': Instant, to': Instant)
    requires k < |courts| && CourtSound(courts[k].court) && Bounds(courts, k, s, now, from, to)
    requires (from' <= from && to <= to') || (forall i :: 0 <= i < k ==> CandidatesOf(courts[i], s, now) == [])
    requires var starts := CandidatesOf(courts[k], s, now);
             starts != [] && from' <= starts[0] && starts[|starts| - 1] + SLOT_DURATION <= to'
    ensures Bounds(courts, k + 1, s, now, from', to')
  {
    CandidatesSpan(courts[k], s, now);
  }

  /** The candidates of the first k courts, by court. */
  ghost predicate Collected(courts: seq<CourtAtVenue>, k: nat, s: CourtSearch, now: Instant, candidates: map<Id, seq<Instant>>)
    requires k <= |courts|
  {
    && (forall i :: 0 <= i < k ==> (courts[i].court.id in candidates <==> CandidatesOf(courts[i], s, now) != []))
    && (forall i :: 0 <= i < k && courts[i].court.id in candidates ==>
          candidates[courts[i].court.id] == CandidatesOf(courts[i], s, now))
    && (forall c :: c in candidates ==> exists i :: 0 <= i < k && courts[i].court.id == c)
  }

  lemma CollectedNext(courts: seq<CourtAtVenue>, k: nat, s: CourtSearch, now: Instant, candidates: map<Id, seq<Instant>>)
    requires k < |courts| && CourtRows(courts) && Collected(courts, k, s, now, candidates)
    ensures var starts := CandidatesOf(courts[k], s, now);
            Collected(courts, k + 1, s, now, if starts == [] then candidates else candidates[courts[k].court.id := starts])
  {
    var id, starts := courts[k].court.id, CandidatesOf(courts[k], s, now);
    assert id !in candidates;
    forall c | c in candidates ensures exists i :: 0 <= i < k + 1 && courts[i].court.id == c {
      var i :| 0 <= i < k && courts[i].court.id == c;
    }
  }

  /** The candidates of every court and the one range that takes them all in. */
  method Candidates(courts: seq<CourtAtVenue>, s: CourtSearch, now: Instant)
    returns (candidates: map<Id, seq<Instant>>, courtIds: seq<Id>, from: Instant, to: Instant)
    requires CourtRows(courts) && now >= ZERO_TIME
    ensures forall i :: 0 <= i < |courts| ==>
              (courts[i].court.id in candidates <==> CandidatesOf(courts[i], s, now) != [])
    ensures forall i :: 0 <= i < |courts| && courts[i].court.id in candidates ==>
              candidates[courts[i].court.id] == CandidatesOf(courts[i], s, now)
    ensures forall c :: c in courtIds <==> c in candidates
    ensures forall c :: c in candidates ==> exists i :: 0 <= i < |courts| && courts[i].court.id == c
    ensures Bounds(courts, |courts|, s, now, from, to)
  {
    candidates, courtIds := map[], [];
    from, to := ZERO_TIME, ZERO_TIME;
    for k := 0 to |courts|
      invariant Collected(courts, k, s, now, candidates)
      invariant forall c :: c in courtIds <==> c in candidates
      invariant Bounds(courts, k, s, now, from, to)
      invariant from == ZERO_TIME <==> to == ZERO_TIME
      invariant from == ZERO_TIME ==> forall i :: 0 <= i < k ==> CandidatesOf(courts[i], s, now) == []
      invariant from >= ZERO_TIME && to >= ZERO_TIME
    {
      var cv := courts[k];
      var starts := SlotsWithin(cv.court, s.date, cv.venue.zone, now, s.fromHour, s.toHour);
      CandidatesSpan(cv, s, now);
      CollectedNext(courts, k, s, now, candidates);
      if |starts| != 0 {
        assert starts[0] in starts && starts[|starts| - 1] in starts;
        ghost var from0, to0 := from, to;
        candidates := candidates[cv.court.id := starts];
        courtIds := courtIds + [cv.court.id];
        if from == ZERO_TIME || starts[0] < from {
          from := starts[0];
        }
        var end := starts[|starts| - 1] + SLOT_DURATION;
        if to == ZERO_TIME || end > to {
          to := end;
        }
        BoundsExtend(courts, k, s, now, from0, to0, from, to);
      }
    }
  }

  /** One court's free candidates out of what the range query brought back. */
  method Free(starts: seq<Instant>, taken: seq<Instant>, ghost rows: seq<Booking>, ghost courtId: Id)
    returns (free: seq<Slot>)
    requires forall t :: t in starts ==> (t in taken <==> SlotHeld(rows, courtId, t))
    ensures free == KeepFree(rows, courtId, starts)
  {
    var held := Keyed(taken);
    free := [];
    for k := 0 to |starts|
      invariant free == KeepFree(rows, courtId, starts[..k])
    {
      assert starts[..k + 1][..k] == starts[..k];
      if starts[k] !in held {
        free := free + [Slot(starts[k], true)];
      }
    }
    assert starts[..|starts|] == starts;
  }

  lemma {:induction false} NothingOffered(courts: seq<CourtAtVenue>, rows: seq<Booking>, s: CourtSearch, now: Instant)
    requires NoCandidates(courts, s, now)
    ensures PlainSearch(courts, rows, s, now) == []
  {
    if courts != [] {
      NothingOffered(courts[..|courts| - 1], rows, s, now);
    }
  }

  /** What the one range query says of a candidate is what the table says of its slot. */
  lemma QueryAnswers(rows: seq<Booking>, courtIds: seq<Id>, from: Instant, to: Instant, courtId: Id, t: Instant)
    requires courtId in courtIds && from <= t < to
    ensures t in StartsOf(BookedSlots(rows, courtIds, from, to), courtId) <==> SlotHeld(rows, courtId, t)
  {
    BookedSlotsExact(rows, courtIds, from, to, BookedSlot(courtId, t));
  }

  /** The courts with a free candidate, out of what the range query brought back. */
  method Assemble(courts: seq<CourtAtVenue>, candidates: map<Id, seq<Instant>>, taken: map<Id, seq<Instant>>,
                  ghost rows: seq<Booking>, ghost s: CourtSearch, ghost now: Instant)
    returns (results: seq<CourtAvailability>)
    requires forall i :: 0 <= i < |courts| ==>
               (courts[i].court.id in candidates <==> CandidatesOf(courts[i], s, now) != [])
    requires forall i :: 0 <= i < |courts| && courts[i].court.id in candidates ==>
               candidates[courts[i].court.id] == CandidatesOf(courts[i], s, now)
    requires forall c, t :: c in candidates && t in candidates[c] ==> (TakenAt(taken, c, t) <==> SlotHeld(rows, c, t))
    ensures results == PlainSearch(courts, rows, s, now)
  {
    results := [];
    for k := 0 to |courts|
      invariant results == PlainSearch(courts[..k], rows, s, now)
    {
      var cv := courts[k];
      assert courts[..k + 1][..k] == courts[..k];
      if cv.court.id in candidates {
        var starts := candidates[cv.court.id];
        var booked := if cv.court.id in taken then taken[cv.court.id] else [];
        assert forall t :: t in starts ==> (t in booked <==> TakenAt(taken, cv.court.id, t));
        var free := Free(starts, booked, rows, cv.court.id);
        if |free| != 0 {
          results := results + [CourtAvailability(cv.court, cv.venue, free)];
        }
      }
    }
    assert courts[..|courts|] == courts;
  }

  predicate TakenAt(taken: map<Id, seq<Instant>>, courtId: Id, t: Instant) {
    courtId in taken && t in taken[courtId]
  }

  /** Somebody could book the court then: on the date, in the hours, within the rules, and free. */
  predicate FreeAt(cv: CourtAtVenue, rows: seq<Booking>, s: CourtSearch, now: Instant, t: Instant) {
    && LocalDay(t, cv.venue.zone) == s.date && s.fromHour <= LocalHour(t, cv.venue.zone) < s.toHour
    && Bookable(cv.court, t, cv.venue.zone, now) && !SlotHeld(rows, cv.court.id, t)
  }

  /** The slots are the starts at which the court is free: each once, earliest first, all of them available. */
  ghost predicate AreFree(cv: CourtAtVenue, slots: seq<Slot>, rows: seq<Booking>, s: CourtSearch, now: Instant) {
    && (forall i :: 0 <= i < |slots| ==> slots[i].available && FreeAt(cv, rows, s, now, slots[i].startsAt))
    && (forall i, j :: 0 <= i < j < |slots| ==> slots[i].startsAt < slots[j].startsAt)
    && (forall t :: FreeAt(cv, rows, s, now, t) ==> Slot(t, true) in slots)
  }

  /** The found court is the k-th of the table. */
  predicate FoundAt(table: seq<CourtAtVenue>, k: nat, ca: CourtAvailability) {
    k < |table| && table[k] == CourtAtVenue(ca.court, ca.venue)
  }

  ghost predicate InTable(table: seq<CourtAtVenue>, ca: CourtAvailability) {
    exists k: nat :: FoundAt(table, k, ca)
  }

  /**
   What a search is to answer: the courts of the table at active venues of the city that are free
   at some time, each with the times it is free, in the order of the table.
   */
  ghost predicate AnswersSearch(table: seq<CourtAtVenue>, rows: seq<Booking>, s: CourtSearch, fold: Folding, now: Instant,
                                found: seq<CourtAvailability>)
  {
    && (forall i :: 0 <= i < |found| ==>
          && fold(found[i].venue.city) == fold(s.city) && found[i].venue.isActive
          && found[i].slots != [] && AreFree(CourtAtVenue(found[i].court, found[i].venue), found[i].slots, rows, s, now))
    && (forall k, t :: 0 <= k < |table| && fold(table[k].venue.city) == fold(s.city) && table[k].venue.isActive
                       && FreeAt(table[k], rows, s, now, t) ==>
          exists i :: 0 <= i < |found| && FoundAt(table, k, found[i]))
    && (forall i :: 0 <= i < |found| ==> InTable(table, found[i]))
    && (forall i, j, k: nat, l: nat :: 0 <= i < j < |found| && FoundAt(table, k, found[i]) && FoundAt(table, l, found[j]) ==> k < l)
  }

  lemma {:induction false} KeepFreeExact(rows: seq<Booking>, courtId: Id, starts: seq<Instant>)
    requires Ascending(starts)
    ensures var free := KeepFree(rows, courtId, starts);
            && (forall i :: 0 <= i < |free| ==>
                  free[i].available && free[i].startsAt in starts && !SlotHeld(rows, courtId, free[i].startsAt))
            && (forall i, j :: 0 <= i < j < |free| ==> free[i].startsAt < free[j].startsAt)
            && (forall t :: t in starts && !SlotHeld(rows, courtId, t) ==> Slot(t, true) in free)
  {
    if starts != [] {
      var init := starts[..|starts| - 1];
      KeepFreeExact(rows, courtId, init);
      assert forall t :: t in init ==> t < starts[|starts| - 1];
    }
  }

  lemma FreeSlotsAreFree(cv: CourtAtVenue, rows: seq<Booking>, s: CourtSearch, now: Instant)
    requires CourtSound(cv.court)
    ensures AreFree(cv, FreeSlots(cv, rows, s, now), rows, s, now)
  {
    var starts := CandidatesOf(cv, s, now);
    forall t ensures t in starts <==> LocalDay(t, cv.venue.zone) == s.date && StartsWithin(t, cv.venue.zone, s.fromHour, s.toHour)
                                      && Bookable(cv.court, t, cv.venue.zone, now)
    {
      SlotsWithinExact(cv.court, s.date, cv.venue.zone, now, s.fromHour, s.toHour, t);
    }
    SlotsWithinExact(cv.court, s.date, cv.venue.zone, now, s.fromHour, s.toHour, 0);
    KeepFreeExact(rows, cv.court.id, starts);
  }

  /** Each court is in the table once. */
  lemma FoundOnce(table: seq<CourtAtVenue>, k: nat, l: nat, ca: CourtAvailability)
    requires CourtRows(table) && FoundAt(table, k, ca) && FoundAt(table, l, ca)
    ensures k == l
  {
  }

  function FoundIn(table: seq<CourtAtVenue>, rows: seq<Booking>, s: CourtSearch, fold: Folding, now: Instant): seq<CourtAvailability> {
    PlainSearch(SearchCourts(table, s.city, fold), rows, s, now)
  }

  /** The last court of the table adds itself at the end or nothing. */
  lemma {:induction false} FoundSplits(table: seq<CourtAtVenue>, rows: seq<Booking>, s: CourtSearch, fold: Folding, now: Instant)
    requires table != []
    ensures var n := |table| - 1;
            var before, found := FoundIn(table[..n], rows, s, fold, now), FoundIn(table, rows, s, fold, now);
            && |before| <= |found| && (forall m :: 0 <= m < |before| ==> found[m] == before[m])
            && (|found| > |before| ==> |found| == |before| + 1 && FoundAt(table, n, found[|before|]))
  {
    var courts, last := SearchCourts(table[..|table| - 1], s.city, fold), table[|table| - 1];
    assert (courts + [last])[..|courts|] == courts && courts + [] == courts;
  }

  lemma FoundSomewhere(table: seq<CourtAtVenue>, rows: seq<Booking>, s: CourtSearch, fold: Folding, now: Instant, i: nat)
    requires i < |FoundIn(table, rows, s, fold, now)|
    ensures InTable(table, FoundIn(table, rows, s, fold, now)[i])
  {
    var ca := FoundIn(table, rows, s, fold, now)[i];
    PlainSearchExact(SearchCourts(table, s.city, fold), rows, s, now, ca);
    var k: nat :| k < |table| && table[k] == CourtAtVenue(ca.court, ca.venue);
    assert FoundAt(table, k, ca);
  }

  /** What is found among the first courts of the table is one of them. */
  lemma {:induction false} FoundEarlier(table: seq<CourtAtVenue>, rows: seq<Booking>, s: CourtSearch, fold: Folding, now: Instant, i: nat, k: nat)
    requires CourtRows(table) && table != []
    requires i < |FoundIn(table[..|table| - 1], rows, s, fold, now)|
    requires FoundAt(table, k, FoundIn(table[..|table| - 1], rows, s, fold, now)[i])
    ensures k < |table| - 1 && FoundAt(table[..|table| - 1], k, FoundIn(table[..|table| - 1], rows, s, fold, now)[i])
  {
    var init := table[..|table| - 1];
    var ca := FoundIn(init, rows, s, fold, now)[i];
    FoundSomewhere(init, rows, s, fold, now, i);
    var m: nat :| FoundAt(init, m, ca);
    assert FoundAt(table, m, ca);
    FoundOnce(table, k, m, ca);
  }

  /** Of two courts found the one found first comes first in the table. */
  lemma {:induction false} FoundInOrder(table: seq<CourtAtVenue>, rows: seq<Booking>, s: CourtSearch, fold: Folding, now: Instant,
                                        i: nat, j: nat, k: nat, l: nat)
    requires CourtRows(table)
    requires var found := FoundIn(table, rows, s, fold, now);
             i < j < |found| && FoundAt(table, k, found[i]) && FoundAt(table, l, found[j])
    ensures k < l
  {
    var n := |table| - 1;
    var before := FoundIn(table[..n], rows, s, fold, now);
    FoundSplits(table, rows, s, fold, now);
    FoundEarlier(table, rows, s, fold, now, i, k);
    if j < |before| {
      FoundEarlier(table, rows, s, fold, now, j, l);
      FoundInOrder(table[..n], rows, s, fold, now, i, j, k, l);
    } else {
      FoundOnce(table, l, n, FoundIn(table, rows, s, fold, now)[j]);
    }
  }

  lemma FoundAreFree(table: seq<CourtAtVenue>, rows: seq<Booking>, s: CourtSearch, fold: Folding, now: Instant, i: nat)
    requires CourtRows(table) && i < |FoundIn(table, rows, s, fold, now)|
    ensures var ca := FoundIn(table, rows, s, fold, now)[i];
            && fold(ca.venue.city) == fold(s.city) && ca.venue.isActive && ca.slots != []
            && AreFree(CourtAtVenue(ca.court, ca.venue), ca.slots, rows, s, now)
  {
    var ca := FoundIn(table, rows, s, fold, now)[i];
    PlainSearchExact(SearchCourts(table, s.city, fold), rows, s, now, ca);
    var k: nat :| k < |table| && table[k] == CourtAtVenue(ca.court, ca.venue);
    FreeSlotsAreFree(table[k], rows, s, now);
  }

  lemma FreeAreFound(table: seq<CourtAtVenue>, rows: seq<Booking>, s: CourtSearch, fold: Folding, now: Instant, k: nat, t: Instant)
    requires CourtRows(table) && k < |table| && fold(table[k].venue.city) == fold(s.city) && table[k].venue.isActive
    requires FreeAt(table[k], rows, s, now, t)
    ensures exists i :: 0 <= i < |FoundIn(table, rows, s, fold, now)| && FoundAt(table, k, FoundIn(table, rows, s, fold, now)[i])
  {
    var found := FoundIn(table, rows, s, fold, now);
    FreeSlotsAreFree(table[k], rows, s, now);
    var ca := CourtAvailability(table[k].court, table[k].venue, FreeSlots(table[k], rows, s, now));
    PlainSearchExact(SearchCourts(table, s.city, fold), rows, s, now, ca);
    var i :| 0 <= i < |found| && found[i] == ca;
    assert FoundAt(table, k, found[i]);
  }

  /** The plain answer is what a search is to answer. */
  lemma PlainSearchAnswers(table: seq<CourtAtVenue>, rows: seq<Booking>, s: CourtSearch, fold: Folding, now: Instant)
    requires CourtRows(table)
    ensures AnswersSearch(table, rows, s, fold, now, PlainSearch(SearchCourts(table, s.city, fold), rows, s, now))
  {
    var found := FoundIn(table, rows, s, fold, now);
    forall i | 0 <= i < |found|
      ensures fold(found[i].venue.city) == fold(s.city) && found[i].venue.isActive && found[i].slots != []
      ensures AreFree(CourtAtVenue(found[i].court, found[i].venue), found[i].slots, rows, s, now)
      ensures InTable(table, found[i])
    {
      FoundAreFree(table, rows, s, fold, now, i);
      FoundSomewhere(table, rows, s, fold, now, i);
    }
    forall k, t | 0 <= k < |table| && fold(table[k].venue.city) == fold(s.city) && table[k].venue.isActive
                  && FreeAt(table[k], rows, s, now, t)
      ensures exists i :: 0 <= i < |found| && FoundAt(table, k, found[i])
    {
      FreeAreFound(table, rows, s, fold, now, k, t);
    }
    forall i, j, k: nat, l: nat | 0 <= i < j < |found| && FoundAt(table, k, found[i]) && FoundAt(table, l, found[j]) ensures k < l {
      FoundInOrder(table, rows, s, fold, now, i, j, k, l);
    }
  }

  /** An hour that is asked for. */
  predicate HourAsked(s: CourtSearch, h: int) {
    s.fromHour <= h < s.toHour
  }

  /** The hours are a stretch of one day: there are some, and all of them are hours of the day. */
  ghost predicate HoursMakeSense(s: CourtSearch) {
    (exists h :: HourAsked(s, h)) && forall h :: HourAsked(s, h) ==> 0 <= h < 24
  }

  /** Something of the city's name can be seen. */
  predicate CityNamed(s: CourtSearch) {
    exists i :: 0 <= i < |s.city| && !IsSpace(s.city[i])
  }

  lemma CheckSearchMeans(s: CourtSearch)
    ensures CheckSearch(s) == Some(SearchCityRequired) <==> !CityNamed(s)
    ensures CheckSearch(s) == Some(SearchDateRequired) <==> CityNamed(s) && s.date == 0
    ensures CheckSearch(s) == Some(SearchHoursInvalid) <==> CityNamed(s) && s.date != 0 && !HoursMakeSense(s)
    ensures CheckSearch(s) == None <==> CityNamed(s) && s.date != 0 && HoursMakeSense(s)
  {
    if s.fromHour < s.toHour {
      assert HourAsked(s, s.fromHour) && HourAsked(s, s.toHour - 1);
    }
  }

  /** Candidates court by court, one query for all of them together, and then what is left of each. */
  method Search(table: seq<CourtAtVenue>, repo: BookingRepository, s: CourtSearch, fold: Folding, now: Instant, courtsOk: bool, readOk: bool)
    returns (r: Result<seq<CourtAvailability>, Error>)
    requires CourtRows(table) && now >= ZERO_TIME
    ensures r == Err(SearchCityRequired) <==> forall i :: 0 <= i < |s.city| ==> IsSpace(s.city[i])
    ensures r == Err(SearchDateRequired) <==> CityNamed(s) && s.date == 0
    ensures r == Err(SearchHoursInvalid) <==>
            CityNamed(s) && s.date != 0 && !((exists h :: HourAsked(s, h)) && forall h :: HourAsked(s, h) ==> 0 <= h < 24)
    ensures CityNamed(s) && s.date != 0 && HoursMakeSense(s) && courtsOk && readOk ==>
              r.Ok? && AnswersSearch(table, repo.rows, s, fold, now, r.value)
    ensures r.Ok? ==> courtsOk && AnswersSearch(table, repo.rows, s, fold, now, r.value)
    ensures CheckSearch(s).None? ==>
              var courts := SearchCourts(table, s.city, fold);
              r == if courtsOk && (readOk || NoCandidates(courts, s, now)) then Ok(PlainSearch(courts, repo.rows, s, now))
                   else Err(StorageFailed)
  {
    var refused := CheckSearch(s);
    CheckSearchMeans(s);
    PlainSearchAnswers(table, repo.rows, s, fold, now);
    if refused.Some? {
      return Err(refused.value);
    }
    if !courtsOk {
      return Err(StorageFailed);
    }
    var courts := SearchCourts(table, s.city, fold);
    ListedRows(table, s.city, fold);
    var candidates, courtIds, from, to := Candidates(courts, s, now);
    if |courtIds| == 0 {
      assert forall i :: 0 <= i < |courts| ==> courts[i].court.id !in candidates;
      NothingOffered(courts, repo.rows, s, now);
      return Ok([]);
    }
    var taken := repo.ListBookedSlotsForCourts(courtIds, from, to, readOk);
    if taken.Err? {
      assert courtIds[0] in candidates;
      return Err(taken.error);
    }
    forall c, t | c in candidates && t in candidates[c] ensures TakenAt(taken.value, c, t) <==> SlotHeld(repo.rows, c, t) {
      QueryAnswers(repo.rows, courtIds, from, to, c, t);
    }
    var results := Assemble(courts, candidates, taken.value, repo.rows, s, now);
    r := Ok(results);
  }

  /** The slots Availability shows as available that start within the hours, in order. */
  function ShownWithin(slots: seq<Slot>, zone: Zone, fromHour: int, toHour: int): seq<Slot> {
    if slots == [] then
      []
    else
      var last := slots[|slots| - 1];
      ShownWithin(slots[..|slots| - 1], zone, fromHour, toHour)
      + (if last.available && StartsWithin(last.startsAt, zone, fromHour, toHour) then [last] else [])
  }

  lemma {:induction false} NarrowThenKeep(rows: seq<Booking>, courtId: Id, starts: seq<Instant>, zone: Zone, fromHour: int, toHour: int)
    ensures KeepFree(rows, courtId, KeepWithin(starts, zone, fromHour, toHour))
         == ShownWithin(MarkSlots(rows, courtId, starts), zone, fromHour, toHour)
  {
    if starts != [] {
      var init, at := starts[..|starts| - 1], starts[|starts| - 1];
      NarrowThenKeep(rows, courtId, init, zone, fromHour, toHour);
      var kept, marked := KeepWithin(init, zone, fromHour, toHour), MarkSlots(rows, courtId, init);
      assert kept + [] == kept && (kept + [at])[..|kept|] == kept;
      assert (marked + [Slot(at, !SlotHeld(rows, courtId, at))])[..|marked|] == marked;
    }
  }

  lemma {:induction false} PlainSearchExact(courts: seq<CourtAtVenue>, rows: seq<Booking>, s: CourtSearch, now: Instant, ca: CourtAvailability)
    ensures ca in PlainSearch(courts, rows, s, now) <==>
            CourtAtVenue(ca.court, ca.venue) in courts && ca.slots != []
            && ca.slots == FreeSlots(CourtAtVenue(ca.court, ca.venue), rows, s, now)
  {
    if courts != [] {
      PlainSearchExact(courts[..|courts| - 1], rows, s, now, ca);
    }
  }

  /** A court that is not active offers nothing. */
  lemma InactiveOffersNothing(c: Court, day: int, zone: Zone, now: Instant)
    requires HoursAccepted(c.openHour, c.closeHour) && !c.isActive
    ensures SlotsOnDate(c, day, zone, now) == []
  {
    var starts := SlotsOnDate(c, day, zone, now);
    if starts != [] {
      SlotsOnExact(c, day, zone, now, starts[0]);
    }
  }

  /**
   Search and Availability tell one story: a court is found if and only if it stands at an active
   venue of the city, with exactly the slots its availability shows as available within the hours,
   and there are any.
   */
  lemma SearchAgreesWithAvailability(table: seq<CourtAtVenue>, rows: seq<Booking>, s: CourtSearch, fold: Folding, now: Instant,
                                     cv: CourtAtVenue, slots: seq<Slot>)
    requires CourtRows(table) && cv in table
    ensures CourtAvailability(cv.court, cv.venue, slots) in PlainSearch(SearchCourts(table, s.city, fold), rows, s, now) <==>
            && fold(cv.venue.city) == fold(s.city) && cv.venue.isActive
            && slots != [] && slots == ShownWithin(AvailabilityOf(cv, rows, s.date, now), cv.venue.zone, s.fromHour, s.toHour)
  {
    PlainSearchExact(SearchCourts(table, s.city, fold), rows, s, now, CourtAvailability(cv.court, cv.venue, slots));
    NarrowThenKeep(rows, cv.court.id, SlotsOnDate(cv.court, s.date, cv.venue.zone, now), cv.venue.zone, s.fromHour, s.toHour);
    if !cv.court.isActive {
      InactiveOffersNothing(cv.court, s.date, cv.venue.zone, now);
    }
  }

  /** The courts found are in the order of the courts query, each at most once. */
  lemma {:induction false} SearchKeepsOrder(courts: seq<CourtAtVenue>, rows: seq<Booking>, s: CourtSearch, now: Instant, i: nat, j: nat)
    requires CourtRows(courts) && i < j < |PlainSearch(courts, rows, s, now)|
    ensures var found := PlainSearch(courts, rows, s, now);
            exists k, l :: 0 <= k < l < |courts| && courts[k].court == found[i].court && courts[l].court == found[j].court
  {
    var n := |courts| - 1;
    var before := PlainSearch(courts[..n], rows, s, now);
    var found := PlainSearch(courts, rows, s, now);
    if j < |before| {
      SearchKeepsOrder(courts[..n], rows, s, now, i, j);
      var k, l :| 0 <= k < l < n && courts[..n][k].court == before[i].court && courts[..n][l].court == before[j].court;
      assert courts[k].court == found[i].court && courts[l].court == found[j].court;
    } else {
      assert found[i] == before[i] && found[i] in before;
      PlainSearchExact(courts[..n], rows, s, now, found[i]);
      var k :| 0 <= k < n && courts[..n][k] == CourtAtVenue(found[i].court, found[i].venue);
      assert courts[k].court == found[i].court && courts[n].court == found[j].court;
    }
  }
}
