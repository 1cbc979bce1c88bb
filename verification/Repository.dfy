/** The bookings and stripe_events tables, updated in place. */
module Repository {
  import opened Wrappers
  import opened Calendar
  import opened Errors
  import opened Courts
  import opened Bookings
  import opened Payments

  /** Where a confirming transaction fails, if it does. */
  datatype TxFate = Committed | BeginFailed | RecordFailed | ConfirmFailed | CommitRolledBack | CommitAckLost

  /** What the failure amounts to: a repeat of a recorded event never reaches the confirming statement. */
  function FateOf(tx: TxFate, recorded: bool): Fate {
    match tx
    case Committed => Applied
    case CommitAckLost => AckLost
    case ConfirmFailed => if recorded then Applied else NotApplied
    case _ => NotApplied
  }

  /** A row of ListBookedSlotsForCourts. */
  datatype BookedSlot = BookedSlot(courtId: Id, startsAt: Instant)

  /** ORDER BY court_id, starts_at. */
  predicate SlotBefore(a: BookedSlot, b: BookedSlot) {
    a.courtId < b.courtId || (a.courtId == b.courtId && a.startsAt <= b.startsAt)
  }

  function InsertSlot(slots: seq<BookedSlot>, s: BookedSlot): (ordered: seq<BookedSlot>)
    ensures forall u :: u in ordered <==> u in slots || u == s
  {
    if slots == [] || SlotBefore(slots[|slots| - 1], s) then
      slots + [s]
    else
      InsertSlot(slots[..|slots| - 1], s) + [slots[|slots| - 1]]
  }

  /** SELECT of the slots still held on any of the courts, from inclusive to exclusive, in order. */
  function BookedSlots(rows: seq<Booking>, courtIds: seq<Id>, from: Instant, to: Instant): seq<BookedSlot> {
    if rows == [] then
      []
    else
      var rest := BookedSlots(rows[..|rows| - 1], courtIds, from, to);
      var b := rows[|rows| - 1];
      if b.courtId in courtIds && BookedBetween(b, b.courtId, from, to) then InsertSlot(rest, BookedSlot(b.courtId, b.startsAt))
      else rest
  }

  /** ORDER BY court_id, starts_at, each once. */
  predicate InSlotOrder(slots: seq<BookedSlot>) {
    forall i, j :: 0 <= i < j < |slots| ==> SlotBefore(slots[i], slots[j]) && slots[i] != slots[j]
  }

  lemma {:induction false} InsertKeepsSlotOrder(slots: seq<BookedSlot>, s: BookedSlot)
    requires InSlotOrder(slots) && s !in slots
    ensures InSlotOrder(InsertSlot(slots, s))
  {
    if slots != [] {
      var init, last := slots[..|slots| - 1], slots[|slots| - 1];
      if SlotBefore(last, s) {
        forall i | 0 <= i < |init| ensures SlotBefore(slots[i], s) {
          assert SlotBefore(slots[i], last);
        }
      } else {
        InsertKeepsSlotOrder(init, s);
        var ordered := InsertSlot(init, s);
        forall i | 0 <= i < |ordered| ensures SlotBefore(ordered[i], last) && ordered[i] != last {
          assert ordered[i] in ordered;
        }
      }
    }
  }

  /**
   A court and a start are listed exactly when the court was asked for, the start lies in the range
   and the slot is held; and each once, by court and then by start.
   */
  lemma {:induction false} BookedSlotsExact(rows: seq<Booking>, courtIds: seq<Id>, from: Instant, to: Instant, s: BookedSlot)
    ensures s in BookedSlots(rows, courtIds, from, to) <==>
            s.courtId in courtIds && from <= s.startsAt < to && SlotHeld(rows, s.courtId, s.startsAt)
    ensures SlotsUnique(rows) ==> InSlotOrder(BookedSlots(rows, courtIds, from, to))
  {
    if rows != [] {
      var init, last := rows[..|rows| - 1], rows[|rows| - 1];
      BookedSlotsExact(init, courtIds, from, to, s);
      SlotHeldSplit(rows, s.courtId, s.startsAt);
      if SlotsUnique(rows) && last.courtId in courtIds && BookedBetween(last, last.courtId, from, to) {
        LastHoldsAlone(rows);
        BookedSlotsExact(init, courtIds, from, to, BookedSlot(last.courtId, last.startsAt));
        InsertKeepsSlotOrder(BookedSlots(init, courtIds, from, to), BookedSlot(last.courtId, last.startsAt));
      }
    }
  }

  /** The starts listed for one court, in the order of the rows. */
  function StartsOf(slots: seq<BookedSlot>, courtId: Id): (starts: seq<Instant>)
    ensures forall t :: t in starts <==> BookedSlot(courtId, t) in slots
  {
    if slots == [] then
      []
    else
      var last := slots[|slots| - 1];
      StartsOf(slots[..|slots| - 1], courtId) + (if last.courtId == courtId then [last.startsAt] else [])
  }

  lemma {:induction false} StartsOfAscends(slots: seq<BookedSlot>, courtId: Id)
    requires InSlotOrder(slots)
    ensures Ascending(StartsOf(slots, courtId))
  {
    if slots != [] {
      var init, last := slots[..|slots| - 1], slots[|slots| - 1];
      StartsOfAscends(init, courtId);
      var starts := StartsOf(init, courtId);
      forall i | 0 <= i < |starts| && last.courtId == courtId ensures starts[i] < last.startsAt {
        assert starts[i] in starts;
        var k :| 0 <= k < |init| && init[k] == BookedSlot(courtId, starts[i]);
        assert SlotBefore(slots[k], last) && slots[k] != last;
      }
    }
  }

  /** Grouped by court, the listed starts are those held, each once, earliest first. */
  lemma GroupedExact(rows: seq<Booking>, courtIds: seq<Id>, from: Instant, to: Instant)
    ensures forall c, t :: t in StartsOf(BookedSlots(rows, courtIds, from, to), c) <==>
                           c in courtIds && from <= t < to && SlotHeld(rows, c, t)
    ensures SlotsUnique(rows) ==> forall c :: Ascending(StartsOf(BookedSlots(rows, courtIds, from, to), c))
  {
    var listed := BookedSlots(rows, courtIds, from, to);
    forall c, t ensures t in StartsOf(listed, c) <==> c in courtIds && from <= t < to && SlotHeld(rows, c, t) {
      BookedSlotsExact(rows, courtIds, from, to, BookedSlot(c, t));
    }
    if SlotsUnique(rows) {
      BookedSlotsExact(rows, courtIds, from, to, BookedSlot(0, 0));
      forall c ensures Ascending(StartsOf(listed, c)) {
        StartsOfAscends(listed, c);
      }
    }
  }

  lemma {:induction false} StartsOfNext(slots: seq<BookedSlot>, k: nat)
    requires k < |slots|
    ensures forall c :: StartsOf(slots[..k + 1], c)
                        == StartsOf(slots[..k], c) + (if slots[k].courtId == c then [slots[k].startsAt] else [])
  {
    assert slots[..k + 1][..k] == slots[..k];
  }

  class BookingRepository {
    var rows: seq<Booking>
    var events: map<nat, EventKind>

    constructor ()
      ensures rows == [] && events == map[]
    {
      rows := [];
      events := map[];
    }

    /** Inserts the hold.  A unique violation is the slot being taken; any other failure is a storage failure. */
    method HoldSlot(input: BookSlotInput, amount: int, holdExpiresAt: Instant, at: Instant, fate: Fate)
      returns (held: Result<nat, Error>)
      modifies this`rows
      ensures fate.NotApplied? ==> rows == old(rows) && held == Err(StorageFailed)
      ensures !fate.NotApplied? && SlotHeld(old(rows), input.courtId, input.startsAt) ==>
                rows == old(rows) && held == Err(if fate.Applied? then SlotTaken else StorageFailed)
      ensures !fate.NotApplied? && !SlotHeld(old(rows), input.courtId, input.startsAt) ==>
                rows == old(rows) + [Booking(courtId := input.courtId, playerId := input.playerId, startsAt := input.startsAt,
                                             status := PendingPayment, amount := ToInt32(amount),
                                             holdExpiresAt := Some(holdExpiresAt), paymentIntentId := None,
                                             cancelledAt := None, createdAt := at)]
                && held == if fate.Applied? then Ok(|old(rows)|) else Err(StorageFailed)
    {
      if fate.NotApplied? {
        return Err(StorageFailed);
      }
      if SlotHeld(rows, input.courtId, input.startsAt) {
        return Err(if fate.Applied? then SlotTaken else StorageFailed);
      }
      rows := rows + [NewHold(input, amount, holdExpiresAt, at)];
      held := if fate.Applied? then Ok(|rows| - 1) else Err(StorageFailed);
    }

    /** Records the payment a held slot waits on; the unique index refuses an intent another row carries. */
    method AttachPayment(id: nat, intent: nat, fate: Fate) returns (failure: Option<Error>)
      modifies this`rows
      ensures var refused := exists i :: 0 <= i < |old(rows)| && i != id && old(rows)[i].paymentIntentId == Some(intent);
              && failure == (if fate.Applied? && !(id < |old(rows)| && refused) then None else Some(StorageFailed))
              && (fate.NotApplied? || id >= |old(rows)| || refused ==> rows == old(rows))
              && (!fate.NotApplied? && id < |old(rows)| && !refused ==>
                    rows == old(rows)[id := old(rows)[id].(paymentIntentId := Some(intent))])
    {
      assert IntentTaken(rows, id, intent) <==>
             exists i :: 0 <= i < |rows| && i != id && rows[i].paymentIntentId == Some(intent);
      if fate.NotApplied? || (id < |rows| && IntentTaken(rows, id, intent)) {
        return Some(StorageFailed);
      }
      if id < |rows| {
        rows := rows[id := rows[id].(paymentIntentId := Some(intent))];
      }
      failure := if fate.Applied? then None else Some(StorageFailed);
    }

    /** Releases the slot. */
    method CancelBooking(id: nat, at: Instant, fate: Fate) returns (failure: Option<Error>)
      modifies this`rows
      ensures rows == if !fate.NotApplied? && id < |old(rows)| && old(rows)[id].cancelledAt.None?
                      then old(rows)[id := old(rows)[id].(cancelledAt := Some(at))] else old(rows)
      ensures failure == if fate.Applied? then None else Some(StorageFailed)
    {
      if !fate.NotApplied? && id < |rows| && rows[id].cancelledAt.None? {
        rows := rows[id := rows[id].(cancelledAt := Some(at))];
      }
      failure := if fate.Applied? then None else Some(StorageFailed);
    }

    method GetBookingByPayment(intent: nat, readOk: bool) returns (found: Result<nat, Error>)
      ensures found == if !readOk then Err(StorageFailed)
                       else match FindByIntent(rows, intent) case None => Err(BookingNotFound) case Some(b) => Ok(b)
    {
      if !readOk {
        return Err(StorageFailed);
      }
      match FindByIntent(rows, intent)
      case None => found := Err(BookingNotFound);
      case Some(b) => found := Ok(b);
    }

    method GetBooking(id: nat, readOk: bool) returns (found: Result<Booking, Error>)
      ensures found == if !readOk then Err(StorageFailed)
                       else if id < |rows| then Ok(rows[id]) else Err(BookingNotFound)
    {
      if !readOk {
        return Err(StorageFailed);
      }
      found := if id < |rows| then Ok(rows[id]) else Err(BookingNotFound);
    }

    /** Records the event and confirms the booking in one transaction: both land or neither does. */
    method ConfirmPaid(ev: PaymentEvent, id: nat, tx: TxFate) returns (failure: Option<Error>)
      modifies this
      // Whether or not its answer arrives, a commit leaves the event recorded and, unless it was before, the booking confirmed.
      ensures (tx.Committed? || tx.CommitAckLost?) && ev.id !in old(events) ==>
                events == old(events)[ev.id := ev.kind]
                && rows == if id < |old(rows)|
                           then old(rows)[id := old(rows)[id].(status := Confirmed, holdExpiresAt := None)] else old(rows)
      ensures ev.id in old(events) || !(tx.Committed? || tx.CommitAckLost?) ==> rows == old(rows) && events == old(events)
      // A repeat never reaches the confirming statement, so it cannot fail there.
      ensures failure == if tx.Committed? || (tx.ConfirmFailed? && ev.id in old(events)) then None else Some(StorageFailed)
    {
      if tx.BeginFailed? {
        return Some(StorageFailed);
      }
      // What a rollback restores.
      var rowsBefore, eventsBefore := rows, events;
      if tx.RecordFailed? {
        return Some(StorageFailed);
      }
      if ev.id !in events {
        events := events[ev.id := ev.kind];
        if tx.ConfirmFailed? {
          rows, events := rowsBefore, eventsBefore;
          return Some(StorageFailed);
        }
        if id < |rows| {
          rows := rows[id := rows[id].(status := Confirmed, holdExpiresAt := None)];
        }
      }
      if tx.CommitRolledBack? {
        rows, events := rowsBefore, eventsBefore;
        return Some(StorageFailed);
      }
      failure := if tx.CommitAckLost? then Some(StorageFailed) else None;
    }

    /** Cancels every hold that has run out and reports how many there were. */
    method ReleaseLapsedHolds(asOf: Instant, at: Instant, fate: Fate) returns (released: Result<nat, Error>)
      modifies this`rows
      ensures rows == if fate.NotApplied? then old(rows) else Sweep(old(rows), asOf, at)
      ensures released == if fate.Applied? then Ok(CountMatches(old(rows), asOf)) else Err(StorageFailed)
    {
      if fate.NotApplied? {
        return Err(StorageFailed);
      }
      var before := rows;
      var count := 0;
      for i := 0 to |before|
        invariant |rows| == |before|
        invariant forall k :: 0 <= k < i ==> rows[k] == SweepRow(before[k], asOf, at)
        invariant forall k :: i <= k < |before| ==> rows[k] == before[k]
        invariant count == CountMatches(before[..i], asOf)
      {
        assert before[..i + 1][..i] == before[..i];
        if SweepMatches(rows[i], asOf) {
          rows := rows[i := rows[i].(cancelledAt := Some(at))];
          count := count + 1;
        }
      }
      assert before[..|before|] == before;
      assert rows == Sweep(before, asOf, at);
      released := if fate.Applied? then Ok(count) else Err(StorageFailed);
    }

    method ListBookedSlots(courtId: Id, from: Instant, to: Instant, readOk: bool) returns (slots: Result<seq<Instant>, Error>)
      ensures slots == if readOk then Ok(BookedStarts(rows, courtId, from, to)) else Err(StorageFailed)
      ensures readOk ==> forall t :: t in slots.value <==> from <= t < to && SlotHeld(rows, courtId, t)
      ensures readOk && SlotsUnique(rows) ==> Ascending(slots.value)
    {
      if !readOk {
        return Err(StorageFailed);
      }
      var found := BookedStarts(rows, courtId, from, to);
      var starts: seq<Instant> := [];
      for k := 0 to |found|
        invariant starts == found[..k]
      {
        starts := starts + [found[k]];
      }
      assert found[..|found|] == found;
      forall t ensures t in found <==> from <= t < to && SlotHeld(rows, courtId, t) {
        BookedStartsExact(rows, courtId, from, to, t);
      }
      BookedStartsExact(rows, courtId, from, to, from);
      slots := Ok(starts);
    }

    /** The starts still held, grouped by court; a court with none is absent. */
    method ListBookedSlotsForCourts(courtIds: seq<Id>, from: Instant, to: Instant, readOk: bool)
      returns (slots: Result<map<Id, seq<Instant>>, Error>)
      ensures slots.Err? <==> !readOk
      ensures !readOk ==> slots == Err(StorageFailed)
      ensures readOk ==> forall c :: c in slots.value <==> StartsOf(BookedSlots(rows, courtIds, from, to), c) != []
      ensures readOk ==> forall c :: c in slots.value ==> slots.value[c] == StartsOf(BookedSlots(rows, courtIds, from, to), c)
      ensures readOk ==> forall c, t :: c in slots.value && t in slots.value[c] <==>
                           c in courtIds && from <= t < to && SlotHeld(rows, c, t)
      ensures readOk && SlotsUnique(rows) ==> forall c :: c in slots.value ==> Ascending(slots.value[c])
    {
      if !readOk {
        return Err(StorageFailed);
      }
      var found := BookedSlots(rows, courtIds, from, to);
      var byCourt: map<Id, seq<Instant>> := map[];
      for k := 0 to |found|
        invariant forall c :: c in byCourt <==> StartsOf(found[..k], c) != []
        invariant forall c :: c in byCourt ==> byCourt[c] == StartsOf(found[..k], c)
      {
        var s := found[k];
        StartsOfNext(found, k);
        byCourt := byCourt[s.courtId := (if s.courtId in byCourt then byCourt[s.courtId] else []) + [s.startsAt]];
      }
      assert found[..|found|] == found;
      GroupedExact(rows, courtIds, from, to);
      slots := Ok(byCourt);
    }
  }
}
