/**
 Bookings and the SQL statements over the bookings table.

 The table is a sequence of rows.  A row's id is its position: ids are never reused and no
 statement deletes a row.  Each function below is the effect of one statement.
 */
module Bookings {
  import opened Wrappers
  import opened Calendar
  import opened Courts

  /** How long an unpaid slot is kept: fifteen minutes. */
  const PAYMENT_HOLD: int := 900_000_000_000

  datatype Status = PendingPayment | Confirmed

  datatype Booking = Booking(
    courtId: Id,
    playerId: Id,
    startsAt: Instant,
    status: Status,
    amount: int,
    holdExpiresAt: Option<Instant>,
    paymentIntentId: Option<nat>,
    cancelledAt: Option<Instant>,
    createdAt: Instant)
  {
    predicate StillHolding() {
      cancelledAt.None?
    }

    function EndsAt(): Instant {
      startsAt + SLOT_DURATION
    }

    predicate HoldHasLapsed(now: Instant) {
      status == PendingPayment && holdExpiresAt.Some? && !(now < holdExpiresAt.value)
    }

    predicate AwaitsPayment(now: Instant) {
      StillHolding() && status == PendingPayment && !HoldHasLapsed(now)
    }
  }

  datatype BookSlotInput = BookSlotInput(playerId: Id, courtId: Id, startsAt: Instant)

  /** The row occupies the slot as far as the partial unique index is concerned. */
  predicate Occupies(b: Booking, courtId: Id, startsAt: Instant) {
    b.StillHolding() && b.courtId == courtId && b.startsAt == startsAt
  }

  predicate SlotHeld(rows: seq<Booking>, courtId: Id, startsAt: Instant) {
    exists i :: 0 <= i < |rows| && Occupies(rows[i], courtId, startsAt)
  }

  /** The partial unique index: at most one uncancelled row for a court and a start. */
  ghost predicate SlotsUnique(rows: seq<Booking>) {
    forall i, j :: 0 <= i < j < |rows| && rows[i].StillHolding() ==> !Occupies(rows[j], rows[i].courtId, rows[i].startsAt)
  }

  function NewHold(input: BookSlotInput, amount: int, holdExpiresAt: Instant, at: Instant): Booking {
    Booking(input.courtId, input.playerId, input.startsAt, PendingPayment, ToInt32(amount),
            Some(holdExpiresAt), None, None, at)
  }

  /** INSERT of a pending row; nothing when the unique index refuses it. */
  function InsertHold(rows: seq<Booking>, input: BookSlotInput, amount: int, holdExpiresAt: Instant, at: Instant)
    : Option<seq<Booking>>
  {
    if SlotHeld(rows, input.courtId, input.startsAt) then
      None
    else
      Some(rows + [NewHold(input, amount, holdExpiresAt, at)])
  }

  predicate IntentTaken(rows: seq<Booking>, id: nat, intent: nat) {
    exists i :: 0 <= i < |rows| && i != id && rows[i].paymentIntentId == Some(intent)
  }

  /** UPDATE of one row's payment intent; nothing when another row already carries the intent. */
  function SetIntent(rows: seq<Booking>, id: nat, intent: nat): Option<seq<Booking>> {
    if id >= |rows| then
      Some(rows)
    else if IntentTaken(rows, id, intent) then
      None
    else
      Some(rows[id := rows[id].(paymentIntentId := Some(intent))])
  }

  /** UPDATE to confirmed.  The statement does not look at cancelled_at. */
  function SetConfirmed(rows: seq<Booking>, id: nat): seq<Booking> {
    if id < |rows| then rows[id := rows[id].(status := Confirmed, holdExpiresAt := None)] else rows
  }

  /** UPDATE to cancelled, for a row not cancelled yet. */
  function SetCancelled(rows: seq<Booking>, id: nat, at: Instant): seq<Booking> {
    if id < |rows| && rows[id].cancelledAt.None? then rows[id := rows[id].(cancelledAt := Some(at))] else rows
  }

  /** The WHERE clause of the sweep; a null expiry compares as unknown and never matches. */
  predicate SweepMatches(b: Booking, asOf: Instant) {
    b.status == PendingPayment && b.cancelledAt.None? && b.holdExpiresAt.Some? && b.holdExpiresAt.value <= asOf
  }

  function SweepRow(b: Booking, asOf: Instant, at: Instant): Booking {
    if SweepMatches(b, asOf) then b.(cancelledAt := Some(at)) else b
  }

  /** UPDATE that cancels every hold run out by asOf, stamping the statement's own time. */
  function Sweep(rows: seq<Booking>, asOf: Instant, at: Instant): (swept: seq<Booking>)
    ensures |swept| == |rows|
    ensures forall i :: 0 <= i < |rows| ==> swept[i] == SweepRow(rows[i], asOf, at)
  {
    seq(|rows|, i requires 0 <= i < |rows| => SweepRow(rows[i], asOf, at))
  }

  function CountMatches(rows: seq<Booking>, asOf: Instant): nat {
    if rows == [] then 0
    else CountMatches(rows[..|rows| - 1], asOf) + (if SweepMatches(rows[|rows| - 1], asOf) then 1 else 0)
  }

  /** SELECT of the row carrying the intent. */
  function FindByIntent(rows: seq<Booking>, intent: nat): (found: Option<nat>)
    ensures found.Some? ==> found.value < |rows| && rows[found.value].paymentIntentId == Some(intent)
    ensures found.None? ==> forall i :: 0 <= i < |rows| ==> rows[i].paymentIntentId != Some(intent)
  {
    if rows == [] then None
    else if rows[|rows| - 1].paymentIntentId == Some(intent) then Some(|rows| - 1)
    else FindByIntent(rows[..|rows| - 1], intent)
  }

  predicate BookedBetween(b: Booking, courtId: Id, from: Instant, to: Instant) {
    b.courtId == courtId && b.cancelledAt.None? && b.startsAt >= from && b.startsAt < to
  }

  /** ORDER BY: places one start among starts already in order. */
  function InsertOrdered(starts: seq<Instant>, t: Instant): (ordered: seq<Instant>)
    ensures forall u :: u in ordered <==> u in starts || u == t
  {
    if starts == [] || starts[|starts| - 1] <= t then
      starts + [t]
    else
      InsertOrdered(starts[..|starts| - 1], t) + [starts[|starts| - 1]]
  }

  /** SELECT of the starts still held on a court, from inclusive to exclusive, in order. */
  function BookedStarts(rows: seq<Booking>, courtId: Id, from: Instant, to: Instant): seq<Instant> {
    if rows == [] then
      []
    else
      var rest := BookedStarts(rows[..|rows| - 1], courtId, from, to);
      var b := rows[|rows| - 1];
      if BookedBetween(b, courtId, from, to) then InsertOrdered(rest, b.startsAt) else rest
  }

  lemma {:induction false} InsertKeepsAscending(starts: seq<Instant>, t: Instant)
    requires Ascending(starts) && t !in starts
    ensures Ascending(InsertOrdered(starts, t))
  {
    if starts != [] && starts[|starts| - 1] > t {
      var init := starts[..|starts| - 1];
      InsertKeepsAscending(init, t);
      var ordered := InsertOrdered(init, t);
      forall i | 0 <= i < |ordered| ensures ordered[i] < starts[|starts| - 1] {
        assert ordered[i] in ordered;
      }
    }
  }

  lemma SlotHeldSplit(rows: seq<Booking>, courtId: Id, startsAt: Instant)
    requires rows != []
    ensures SlotHeld(rows, courtId, startsAt) <==>
            SlotHeld(rows[..|rows| - 1], courtId, startsAt) || Occupies(rows[|rows| - 1], courtId, startsAt)
  {
  }

  /** No earlier row holds the slot that the last one holds. */
  lemma LastHoldsAlone(rows: seq<Booking>)
    requires rows != [] && SlotsUnique(rows) && rows[|rows| - 1].StillHolding()
    ensures SlotsUnique(rows[..|rows| - 1])
    ensures !SlotHeld(rows[..|rows| - 1], rows[|rows| - 1].courtId, rows[|rows| - 1].startsAt)
  {
  }

  /**
   A start is listed exactly when it lies in the range and its slot is held; and each once, earliest
   first.
   */
  lemma {:induction false} BookedStartsExact(rows: seq<Booking>, courtId: Id, from: Instant, to: Instant, t: Instant)
    ensures t in BookedStarts(rows, courtId, from, to) <==> from <= t < to && SlotHeld(rows, courtId, t)
    ensures SlotsUnique(rows) ==> Ascending(BookedStarts(rows, courtId, from, to))
  {
    if rows != [] {
      var init, last := rows[..|rows| - 1], rows[|rows| - 1];
      BookedStartsExact(init, courtId, from, to, t);
      SlotHeldSplit(rows, courtId, t);
      if SlotsUnique(rows) && BookedBetween(last, courtId, from, to) {
        LastHoldsAlone(rows);
        BookedStartsExact(init, courtId, from, to, last.startsAt);
        InsertKeepsAscending(BookedStarts(init, courtId, from, to), last.startsAt);
      }
    }
  }

  /** HoldHasLapsed and the sweep's WHERE clause draw the same line on an uncancelled row. */
  lemma SweepAgreesWithEntity(b: Booking, t: Instant)
    ensures SweepMatches(b, t) <==> b.StillHolding() && b.HoldHasLapsed(t)
    ensures b.StillHolding() && b.status == PendingPayment ==> (b.AwaitsPayment(t) <==> !SweepMatches(b, t))
    ensures b.AwaitsPayment(t) ==> forall asOf :: asOf <= t ==> !SweepMatches(b, asOf)
  {
  }

  /** The sweep cancels exactly the lapsed holds and leaves everything else about every row alone. */
  lemma SweepExact(rows: seq<Booking>, asOf: Instant, at: Instant, i: nat)
    requires i < |rows|
    ensures Sweep(rows, asOf, at)[i].StillHolding() <==>
            rows[i].StillHolding() && !rows[i].HoldHasLapsed(asOf)
    ensures !(rows[i].StillHolding() && rows[i].HoldHasLapsed(asOf)) ==> Sweep(rows, asOf, at)[i] == rows[i]
    ensures Sweep(rows, asOf, at)[i].(cancelledAt := rows[i].cancelledAt) == rows[i]
    ensures rows[i].StillHolding() && rows[i].HoldHasLapsed(asOf) ==>
              Sweep(rows, asOf, at)[i].cancelledAt == Some(at)
  {
  }

  /** Sweeping again no later changes nothing, whatever the clock then reads. */
  lemma SweepIdempotent(rows: seq<Booking>, asOf: Instant, at: Instant, again: Instant, later: Instant)
    requires again <= asOf
    ensures Sweep(Sweep(rows, asOf, at), again, later) == Sweep(rows, asOf, at)
  {
  }

  /** Two tables that differ at most in when a cancellation is stamped. */
  predicate SameButForStamps(rows: seq<Booking>, other: seq<Booking>) {
    |rows| == |other|
    && forall i :: 0 <= i < |rows| ==>
         (rows[i].cancelledAt.None? <==> other[i].cancelledAt.None?)
         && rows[i].(cancelledAt := None) == other[i].(cancelledAt := None)
  }

  /** Sweeping at t1 and then at a later t2 releases what sweeping at t2 alone releases. */
  lemma SweepComposes(rows: seq<Booking>, t1: Instant, at1: Instant, t2: Instant, at2: Instant)
    requires t1 <= t2
    ensures SameButForStamps(Sweep(Sweep(rows, t1, at1), t2, at2), Sweep(rows, t2, at2))
  {
  }

  function CountHeld(rows: seq<Booking>): nat {
    if rows == [] then 0
    else CountHeld(rows[..|rows| - 1]) + (if rows[|rows| - 1].StillHolding() then 1 else 0)
  }

  /** The count a sweep reports is the number of slots it put back. */
  lemma {:induction false} SweepCountsReleases(rows: seq<Booking>, asOf: Instant, at: Instant)
    ensures CountHeld(Sweep(rows, asOf, at)) + CountMatches(rows, asOf) == CountHeld(rows)
  {
    if rows != [] {
      var init := rows[..|rows| - 1];
      SweepCountsReleases(init, asOf, at);
      assert Sweep(rows, asOf, at)[..|rows| - 1] == Sweep(init, asOf, at);
    }
  }
}
