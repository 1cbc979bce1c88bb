/** What holds in every state any interleaving can reach, and along every run. */
module Guarantees {
  import opened Wrappers
  import opened Calendar
  import opened Errors
  import opened Courts
  import opened Grid
  import opened Bookings
  import opened Payments
  import opened Protocol
  import opened Invariant

  /** The state a run from an empty store ends in. */
  function After(site: Site, clock: Instant, acts: seq<Action>): World {
    Run(site, Init(clock), acts)
  }

  predicate Overlap(a: Booking, b: Booking) {
    a.startsAt < b.EndsAt() && b.startsAt < a.EndsAt()
  }

  /** No two uncancelled bookings of one court ever overlap in time: of their two hours one pair is over before the other begins. */
  lemma NoOverlap(site: Site, clock: Instant, acts: seq<Action>, i: nat, j: nat)
    requires SiteSound(site)
    requires i < j < |After(site, clock, acts).rows|
    ensures var rows := After(site, clock, acts).rows;
            rows[i].cancelledAt.None? && rows[j].cancelledAt.None? && rows[i].courtId == rows[j].courtId ==>
              && !Overlap(rows[i], rows[j]) && rows[i].EndsAt() == rows[i].startsAt + 2 * HOUR
              && (rows[i].startsAt + 2 * HOUR <= rows[j].startsAt || rows[j].startsAt + 2 * HOUR <= rows[i].startsAt)
  {
    var w := After(site, clock, acts);
    ReachableSound(site, clock, acts);
    var a, b := w.rows[i], w.rows[j];
    assert RowSound(site, a, w.clock) && RowSound(site, b, w.clock);
    if a.StillHolding() && b.StillHolding() && a.courtId == b.courtId {
      assert !Occupies(b, a.courtId, a.startsAt);
      GridWindowsDoNotOverlap(site.courts[a.courtId].court, a.startsAt, b.startsAt, site.courts[a.courtId].venue.zone);
    }
  }

  /** Some success event recorded by the webhook is about the row's payment. */
  ghost predicate PaymentRecorded(w: World, b: nat) {
    b < |w.rows| && w.rows[b].paymentIntentId.Some? && exists e: nat :: RecordedFor(w, e, w.rows[b].paymentIntentId.value)
  }

  lemma RecordedMeansConfirmed(site: Site, w: World, b: nat)
    requires Inv(site, w) && b < |w.rows|
    ensures w.rows[b].status == Confirmed <==> PaymentRecorded(w, b)
  {
  }

  /** A booking is confirmed exactly when its payment's success is recorded, and then it was really paid. */
  lemma ConfirmedExactlyWhenRecorded(site: Site, clock: Instant, acts: seq<Action>, b: nat)
    requires SiteSound(site)
    requires b < |After(site, clock, acts).rows|
    ensures var w := After(site, clock, acts);
            && (w.rows[b].status == Confirmed <==> PaymentRecorded(w, b))
            && (w.rows[b].status == Confirmed ==>
                  w.rows[b].paymentIntentId.value < |w.intents| && w.intents[w.rows[b].paymentIntentId.value].paid)
  {
    var w := After(site, clock, acts);
    ReachableSound(site, clock, acts);
    RecordedMeansConfirmed(site, w, b);
    if w.rows[b].status == Confirmed {
      var e: nat :| RecordedFor(w, e, w.rows[b].paymentIntentId.value);
      assert EventSound(w, w.issued[e]);
    }
  }

  predicate Carries(b: Booking, intent: nat) {
    b.paymentIntentId == Some(intent)
  }

  /** An intent whose secret is out is carried by exactly one booking. */
  lemma PayableCarriedOnce(site: Site, clock: Instant, acts: seq<Action>, intent: nat)
    requires SiteSound(site)
    requires intent in After(site, clock, acts).secrets
    ensures var rows := After(site, clock, acts).rows;
            exists b :: 0 <= b < |rows| && Carries(rows[b], intent)
                        && forall d :: 0 <= d < |rows| && Carries(rows[d], intent) ==> d == b
  {
    var w := After(site, clock, acts);
    ReachableSound(site, clock, acts);
    assert Attached(w, intent);
    var b := w.intents[intent].bookingId;
    assert Carries(w.rows[b], intent);
    forall d | 0 <= d < |w.rows| && Carries(w.rows[d], intent) ensures d == b {
      assert w.rows[d].paymentIntentId.Some?;
    }
  }

  /**
   No delivery of a genuine event is ever answered with an unknown booking; and one whose reads
   succeed is answered with a lapsed hold exactly when it is a success whose booking was released.
   */
  lemma DeliveryFindsItsBooking(site: Site, clock: Instant, acts: seq<Action>, e: nat, readOk: bool)
    requires SiteSound(site)
    requires e < |After(site, clock, acts).issued|
    ensures var w := After(site, clock, acts);
            var ev, next := w.issued[e], Lookup(w.rows, w.issued[e], readOk);
            && next != HookDone(ev, Some(BookingNotFound))
            && (next == HookDone(ev, Some(HoldLapsed)) <==>
                  readOk && ev.kind == PaymentSucceeded && ev.intentId < |w.intents|
                  && exists b :: 0 <= b < |w.rows| && Carries(w.rows[b], ev.intentId) && w.rows[b].cancelledAt.Some?)
  {
    var w := After(site, clock, acts);
    ReachableSound(site, clock, acts);
    LookupTells(site, w, e, readOk);
    var ev := w.issued[e];
    assert EventSound(w, ev);
    forall b | 0 <= b < |w.rows| && Carries(w.rows[b], ev.intentId) ensures b == w.intents[ev.intentId].bookingId {
      assert w.rows[b].paymentIntentId.Some?;
    }
    if ev.kind == PaymentSucceeded && readOk {
      assert Carries(w.rows[w.intents[ev.intentId].bookingId], ev.intentId);
    }
  }

  /** Along every run no row is lost, no cancellation cleared, nothing confirmed reverted or newly cancelled, and an attached payment stays. */
  lemma LifecycleMovesForward(site: Site, clock: Instant, past: seq<Action>, future: seq<Action>, b: nat)
    requires SiteSound(site)
    requires b < |After(site, clock, past).rows|
    ensures b < |After(site, clock, past + future).rows|
    ensures RowGrows(After(site, clock, past).rows[b], After(site, clock, past + future).rows[b])
  {
    var w := After(site, clock, past);
    ReachableSound(site, clock, past);
    RunKeeps(site, w, future);
    RunConcat(site, Init(clock), past, future);
  }

  /** What a player is charged and what the row stores, in every reachable state. */
  lemma ChargedAndStored(site: Site, clock: Instant, acts: seq<Action>, b: nat)
    requires SiteSound(site)
    requires b < |After(site, clock, acts).rows| && After(site, clock, acts).rows[b].paymentIntentId.Some?
    ensures var w := After(site, clock, acts);
            var intent := w.rows[b].paymentIntentId.value;
            && intent < |w.intents| && w.rows[b].courtId in site.courts
            && var price := site.courts[w.rows[b].courtId].court.pricePerHour;
               w.intents[intent].amount == 2 * price
               && (w.rows[b].amount == w.intents[intent].amount <==> -1_073_741_824 <= price <= 1_073_741_823)
  {
    var w := After(site, clock, acts);
    ReachableSound(site, clock, acts);
    assert RowSound(site, w.rows[b], w.clock);
    StoredPriceFaithful(site.courts[w.rows[b].courtId].court);
  }

  /** Whatever an answered Book or ResumePayment handed out is a booking carrying the very payment whose secret it is. */
  lemma HandedOutIsPayable(site: Site, clock: Instant, acts: seq<Action>, c: nat)
    requires SiteSound(site)
    requires c < |After(site, clock, acts).calls|
    ensures var w := After(site, clock, acts);
            (w.calls[c].BookDone? || w.calls[c].ResumeDone?) && w.calls[c].outcome.Ok? ==>
              HandedOut(w, w.calls[c].outcome.value)
              && w.calls[c].outcome.value.secret < |w.intents|
              && w.intents[w.calls[c].outcome.value.secret].bookingId == w.calls[c].outcome.value.booking
  {
    var w := After(site, clock, acts);
    ReachableSound(site, clock, acts);
    assert CallSound(site, w, w.calls[c]);
  }

  /** A cancelled booking was cancelled after it was made and not after now. */
  lemma CancelledInItsTime(site: Site, clock: Instant, acts: seq<Action>, b: nat)
    requires SiteSound(site)
    requires b < |After(site, clock, acts).rows| && After(site, clock, acts).rows[b].cancelledAt.Some?
    ensures var w := After(site, clock, acts);
            w.rows[b].createdAt <= w.rows[b].cancelledAt.value <= w.clock
  {
    ReachableSound(site, clock, acts);
    var w := After(site, clock, acts);
    assert RowSound(site, w.rows[b], w.clock);
  }

  /** Where an uncancelled booking stands: paid for, waiting to be, or run out; exactly one of the three. */
  lemma ExactlyOneStanding(site: Site, clock: Instant, acts: seq<Action>, b: nat, t: Instant)
    requires SiteSound(site)
    requires b < |After(site, clock, acts).rows| && After(site, clock, acts).rows[b].StillHolding()
    ensures var row := After(site, clock, acts).rows[b];
            && (row.status == Confirmed <==> !row.AwaitsPayment(t) && !row.HoldHasLapsed(t))
            && !(row.AwaitsPayment(t) && row.HoldHasLapsed(t))
            && (row.AwaitsPayment(t) <==> row.holdExpiresAt.Some? && t < row.holdExpiresAt.value)
  {
    var w := After(site, clock, acts);
    ReachableSound(site, clock, acts);
    assert RowSound(site, w.rows[b], w.clock);
  }

  /** What ResumePayment says on reading the booking and, where it gets that far, holding it against the clock. */
  function Told(w: World, player: Id, b: nat, judgedAt: Instant): Call {
    var next := ReadForResume(w, player, b, true);
    if next.ResumeRead? then Judge(next.booking, next.held, judgedAt) else next
  }

  /**
   What a player who asks to pay again is told, the clock being read some time after the booking:
   a stranger's booking is not told from one that does not exist, a paid one is one whose success
   was recorded when it was read, a lapsed one is one released when it was read or run out by the
   clock, and otherwise the gateway is asked.
   */
  lemma ResumeTells(site: Site, clock: Instant, acts: seq<Action>, player: Id, b: nat, judgedAt: Instant)
    requires SiteSound(site) && player != NIL_ID
    ensures var w := After(site, clock, acts);
            var told := Told(w, player, b, judgedAt);
            var own := b < |w.rows| && w.rows[b].playerId == player;
            && (told == ResumeDone(Err(BookingNotFound)) <==> !own)
            && (told == ResumeDone(Err(AlreadyPaid)) <==> own && PaymentRecorded(w, b))
            && (told == ResumeDone(Err(HoldLapsed)) <==>
                  own && !PaymentRecorded(w, b) && (!w.rows[b].StillHolding() || SweepMatches(w.rows[b], judgedAt)))
            && (told.ResumeReady? <==>
                  own && w.rows[b].StillHolding() && !PaymentRecorded(w, b) && !SweepMatches(w.rows[b], judgedAt))
  {
    var w := After(site, clock, acts);
    ReachableSound(site, clock, acts);
    if b < |w.rows| {
      RecordedMeansConfirmed(site, w, b);
      SweepAgreesWithEntity(w.rows[b], judgedAt);
    }
  }

  /**
   A player told that the hold has lapsed is told the truth, that the booking is released or there
   for a sweep to release, if and only if it was not paid for meanwhile with its slot kept.
   */
  lemma LapsedIsTrueUnlessPaid(site: Site, clock: Instant, past: seq<Action>, player: Id, b: nat, meanwhile: seq<Action>)
    requires SiteSound(site)
    requires Told(After(site, clock, past), player, b, After(site, clock, past + meanwhile).clock) == ResumeDone(Err(HoldLapsed))
    ensures b < |After(site, clock, past + meanwhile).rows|
    ensures var now := After(site, clock, past + meanwhile);
            (!now.rows[b].StillHolding() || SweepMatches(now.rows[b], now.clock))
            <==> !(PaymentRecorded(now, b) && now.rows[b].StillHolding())
  {
    LifecycleMovesForward(site, clock, past, meanwhile, b);
    ReachableSound(site, clock, past + meanwhile);
    RecordedMeansConfirmed(site, After(site, clock, past + meanwhile), b);
  }

  /** Finding a booking by its payment: there is at most one to find, and it is found if it is there. */
  lemma FoundByPaymentExactly(site: Site, clock: Instant, acts: seq<Action>, intent: nat, b: nat)
    requires SiteSound(site)
    ensures var rows := After(site, clock, acts).rows;
            && (FindByIntent(rows, intent) == Some(b) <==> b < |rows| && Carries(rows[b], intent))
            && (FindByIntent(rows, intent) == None <==> forall d :: 0 <= d < |rows| ==> !Carries(rows[d], intent))
  {
    var w := After(site, clock, acts);
    ReachableSound(site, clock, acts);
    var found := FindByIntent(w.rows, intent);
    if found.Some? {
      assert Carries(w.rows[found.value], intent);
    }
  }
}
