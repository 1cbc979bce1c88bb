/** Runs from an empty store that end where one might not expect. */
module Samples {
  import opened Wrappers
  import opened Calendar
  import opened Errors
  import opened Courts
  import opened Bookings
  import opened Payments
  import opened Protocol
  import opened Invariant
  import opened Guarantees
  import opened LateConfirm

  const SAMPLE_COURT: Court := Court(1, 0, 24, 100_000, true)
  const SAMPLE_SITE: Site :=
    Site(map[1 := CourtAtVenue(SAMPLE_COURT, Venue(1, "Hanoi", Zone(0), true))], map[1 := User(true, true)])
  const SAMPLE_START: Instant := 7_200_000_000_000
  const SAMPLE_HOLD: Booking :=
    Booking(1, 1, SAMPLE_START, PendingPayment, 200_000, Some(900_000_000_001), None, None, 1)

  const ATTACHED_HOLD: Booking := SAMPLE_HOLD.(paymentIntentId := Some(0))
  const SAMPLE_INPUT: BookSlotInput := BookSlotInput(1, 1, SAMPLE_START)

  /** One player holds a slot and is handed its payment, */
  const HELD_AND_OPENED: seq<Action> := [BeginBook(SAMPLE_INPUT), Hold(0, Applied), OpenPayment(0, Applied)]
  /** pays, */
  const ATTACHED_AND_PAID: seq<Action> := [Attach(0, Applied), Pay(0), Issue(PaymentSucceeded, 0)]
  /** and the webhook finds the booking. */
  const PAID_AND_FOUND: seq<Action> := HELD_AND_OPENED + ATTACHED_AND_PAID + [Deliver(0, true)]

  const OPENED: World := World(1, [SAMPLE_HOLD], map[], [Intent(0, 200_000, false)], {}, [], [BookOpened(0, SAMPLE_HOLD, 0)])

  lemma SampleReady()
    ensures Step(SAMPLE_SITE, Init(1), BeginBook(SAMPLE_INPUT)) == Init(1).(calls := [BookReady(SAMPLE_INPUT, 1)])
  {
    assert CheckBookable(SAMPLE_SITE, SAMPLE_INPUT, 1).None?;
  }

  lemma SampleHeld()
    ensures Step(SAMPLE_SITE, Init(1).(calls := [BookReady(SAMPLE_INPUT, 1)]), Hold(0, Applied))
         == World(1, [SAMPLE_HOLD], map[], [], {}, [], [BookHeld(0, SAMPLE_HOLD)])
  {
  }

  lemma SampleOpened()
    ensures After(SAMPLE_SITE, 1, HELD_AND_OPENED) == OPENED
  {
    RunThree(SAMPLE_SITE, Init(1), HELD_AND_OPENED);
    SampleReady();
    SampleHeld();
  }

  /** Attaching the payment, reported or not. */
  lemma SampleAttached()
    ensures Step(SAMPLE_SITE, OPENED, Attach(0, Applied)).(calls := [])
         == World(1, [ATTACHED_HOLD], map[], [Intent(0, 200_000, false)], {0}, [], [])
    ensures |Step(SAMPLE_SITE, OPENED, Attach(0, Applied)).calls| == 1
    ensures Step(SAMPLE_SITE, OPENED, Attach(0, AckLost))
         == OPENED.(rows := [ATTACHED_HOLD], calls := [BookDone(Err(StorageFailed))])
  {
    assert OPENED.rows[0 := ATTACHED_HOLD] == [ATTACHED_HOLD];
    assert !IntentTaken(OPENED.rows, 0, 0);
  }

  lemma PayAndTell(w: World)
    requires w.intents == [Intent(0, 200_000, false)] && 0 in w.secrets && w.issued == []
    ensures Step(SAMPLE_SITE, Step(SAMPLE_SITE, w, Pay(0)), Issue(PaymentSucceeded, 0))
         == w.(intents := [Intent(0, 200_000, true)], issued := [PaymentEvent(0, PaymentSucceeded, 0)])
  {
  }

  lemma SamplePaid()
    ensures var w := After(SAMPLE_SITE, 1, HELD_AND_OPENED + ATTACHED_AND_PAID);
            w == World(1, [ATTACHED_HOLD], map[], [Intent(0, 200_000, true)], {0},
                       [PaymentEvent(0, PaymentSucceeded, 0)], w.calls)
            && |w.calls| == 1
  {
    SampleOpened();
    SampleAttached();
    PayAndTell(Step(SAMPLE_SITE, OPENED, Attach(0, Applied)));
    RunThree(SAMPLE_SITE, OPENED, ATTACHED_AND_PAID);
    RunConcat(SAMPLE_SITE, Init(1), HELD_AND_OPENED, ATTACHED_AND_PAID);
  }

  lemma SampleLooked(w: World)
    requires w.rows == [ATTACHED_HOLD] && w.issued == [PaymentEvent(0, PaymentSucceeded, 0)]
    ensures Step(SAMPLE_SITE, w, Deliver(0, true)) == w.(calls := w.calls + [HookFound(PaymentEvent(0, PaymentSucceeded, 0), 0)])
  {
    assert FindByIntent(w.rows, 0) == Some(0);
  }

  lemma SampleFound()
    ensures var w := After(SAMPLE_SITE, 1, PAID_AND_FOUND);
            w.clock == 1 && w.events == map[] && w.rows == [ATTACHED_HOLD]
            && |w.calls| == 2 && w.calls[1] == HookFound(PaymentEvent(0, PaymentSucceeded, 0), 0)
  {
    SamplePaid();
    SampleLooked(After(SAMPLE_SITE, 1, HELD_AND_OPENED + ATTACHED_AND_PAID));
    RunThen(SAMPLE_SITE, Init(1), HELD_AND_OPENED + ATTACHED_AND_PAID, Deliver(0, true));
  }

  /** A run that ends with a confirmed booking whose slot anybody may take. */
  lemma ConfirmedWithoutItsSlot()
    ensures SiteSound(SAMPLE_SITE)
    ensures var rows := After(SAMPLE_SITE, 1, PAID_AND_FOUND
                              + [Advance(900_000_000_001), SweepPass(900_000_000_001, Applied), Confirm(1, Applied)]).rows;
            |rows| == 1 && rows[0].status == Confirmed && !SlotHeld(rows, 1, SAMPLE_START)
  {
    SampleFound();
    var w := After(SAMPLE_SITE, 1, PAID_AND_FOUND);
    ReachableSound(SAMPLE_SITE, 1, PAID_AND_FOUND);
    SweepCanOvertake(SAMPLE_SITE, w, 1);
    var overtaken := OvertakenBySweep(w, 1, 900_000_000_001);
    RunConcat(SAMPLE_SITE, Init(1), PAID_AND_FOUND, overtaken);
    NeverMoreRows(SAMPLE_SITE, w, 1, 900_000_000_001);
  }

  lemma NeverMoreRows(site: Site, w: World, c: nat, expiry: Instant)
    ensures |Run(site, w, OvertakenBySweep(w, c, expiry)).rows| == |w.rows|
  {
    var acts := OvertakenBySweep(w, c, expiry);
    RunThree(site, w, acts);
  }

  /** The attach takes effect and only its answer is lost, so the player asks for the secret again, */
  const ATTACHED_UNREPORTED: seq<Action> := [Attach(0, AckLost), BeginResume(1, 0, true), JudgeResume(1)]
  /** pays, */
  const GIVEN_AND_PAID: seq<Action> := [FinishResume(1, true), Pay(0), Issue(PaymentSucceeded, 0)]
  /** and the webhook confirms. */
  const TOLD_AND_CONFIRMED: seq<Action> := [Deliver(0, true), Confirm(2, Applied), Advance(2)]

  const ASKED: World := OPENED.(rows := [ATTACHED_HOLD], calls := [BookDone(Err(StorageFailed)), ResumeReady(0, ATTACHED_HOLD)])

  lemma SampleUnreported()
    ensures After(SAMPLE_SITE, 1, HELD_AND_OPENED + ATTACHED_UNREPORTED) == ASKED
  {
    SampleOpened();
    SampleAttached();
    var attached := Step(SAMPLE_SITE, OPENED, Attach(0, AckLost));
    var read := Step(SAMPLE_SITE, attached, BeginResume(1, 0, true));
    assert read == attached.(calls := [BookDone(Err(StorageFailed)), ResumeRead(0, ATTACHED_HOLD)]);
    RunThree(SAMPLE_SITE, OPENED, ATTACHED_UNREPORTED);
    RunConcat(SAMPLE_SITE, Init(1), HELD_AND_OPENED, ATTACHED_UNREPORTED);
  }

  lemma SampleGiven()
    ensures var w := After(SAMPLE_SITE, 1, (HELD_AND_OPENED + ATTACHED_UNREPORTED) + GIVEN_AND_PAID);
            && w.rows == [ATTACHED_HOLD] && w.issued == [PaymentEvent(0, PaymentSucceeded, 0)] && w.events == map[]
            && |w.calls| == 2 && w.calls[0] == BookDone(Err(StorageFailed)) && w.clock == 1
  {
    SampleUnreported();
    var given := Step(SAMPLE_SITE, ASKED, FinishResume(1, true));
    assert given == ASKED.(secrets := {0}, calls := given.calls) && |given.calls| == 2
           && given.calls[0] == BookDone(Err(StorageFailed));
    PayAndTell(given);
    RunThree(SAMPLE_SITE, ASKED, GIVEN_AND_PAID);
    RunConcat(SAMPLE_SITE, Init(1), HELD_AND_OPENED + ATTACHED_UNREPORTED, GIVEN_AND_PAID);
  }

  /** A Book call answered with a failure, and its booking paid for and confirmed all the same. */
  lemma ConfirmedAfterFailedBook()
    ensures SiteSound(SAMPLE_SITE)
    ensures var w := After(SAMPLE_SITE, 1, ((HELD_AND_OPENED + ATTACHED_UNREPORTED) + GIVEN_AND_PAID) + TOLD_AND_CONFIRMED);
            && |w.calls| == 3 && w.calls[0] == BookDone(Err(StorageFailed))
            && |w.rows| == 1 && w.rows[0].status == Confirmed && w.rows[0].StillHolding()
  {
    SampleGiven();
    var past := (HELD_AND_OPENED + ATTACHED_UNREPORTED) + GIVEN_AND_PAID;
    var w, acts := After(SAMPLE_SITE, 1, past), TOLD_AND_CONFIRMED;
    SampleLooked(w);
    RunThree(SAMPLE_SITE, w, acts);
    RunConcat(SAMPLE_SITE, Init(1), past, acts);
  }

  /** The player's ResumePayment reads the booking unpaid; before it reads the clock the payment is confirmed. */
  const READ_THEN_CONFIRMED: seq<Action> := [BeginResume(1, 0, true), Confirm(1, Applied), Advance(900_000_000_001)]

  lemma SampleConfirmedMeanwhile()
    ensures var w := After(SAMPLE_SITE, 1, PAID_AND_FOUND + READ_THEN_CONFIRMED);
            && w.clock == 900_000_000_001 && w.rows == [ATTACHED_HOLD.(status := Confirmed, holdExpiresAt := None)]
            && |w.calls| == 3 && w.calls[2] == ResumeRead(0, ATTACHED_HOLD)
  {
    SampleFound();
    var w, acts := After(SAMPLE_SITE, 1, PAID_AND_FOUND), READ_THEN_CONFIRMED;
    var read := Step(SAMPLE_SITE, w, acts[0]);
    assert read == w.(calls := w.calls + [ResumeRead(0, ATTACHED_HOLD)]);
    var confirmed := Step(SAMPLE_SITE, read, acts[1]);
    assert confirmed.calls[2] == ResumeRead(0, ATTACHED_HOLD);
    RunThree(SAMPLE_SITE, w, acts);
    RunConcat(SAMPLE_SITE, Init(1), PAID_AND_FOUND, acts);
  }

  /** A player told that the hold has lapsed, whose booking is paid for and holds its slot. */
  lemma ToldLapsedThoughPaid()
    ensures var w := After(SAMPLE_SITE, 1, (PAID_AND_FOUND + READ_THEN_CONFIRMED) + [JudgeResume(2)]);
            && |w.calls| == 3 && w.calls[2] == ResumeDone(Err(HoldLapsed))
            && |w.rows| == 1 && w.rows[0].playerId == 1 && w.rows[0].status == Confirmed && w.rows[0].StillHolding()
  {
    SampleConfirmedMeanwhile();
    RunThen(SAMPLE_SITE, Init(1), PAID_AND_FOUND + READ_THEN_CONFIRMED, JudgeResume(2));
  }
}
