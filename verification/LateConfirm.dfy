/**
 Confirming a booking that has meanwhile been released.

 The webhook checks that the booking still holds its slot before the transaction that confirms
 it, and the confirming statement does not look again.  So "every confirmed booking holds its
 slot" is false of some runs; these lemmas say of exactly which.
 */
module LateConfirm {
  import opened Wrappers
  import opened Calendar
  import opened Bookings
  import opened Payments
  import opened Protocol
  import opened Invariant
  import opened Guarantees

  ghost predicate ConfirmedHolding(w: World) {
    forall b :: 0 <= b < |w.rows| && w.rows[b].status == Confirmed ==> w.rows[b].StillHolding()
  }

  /** The step is a transaction that takes effect on a booking no longer holding its slot. */
  predicate ConfirmsReleased(w: World, a: Action) {
    a.Confirm? && !a.fate.NotApplied? && a.call < |w.calls| && w.calls[a.call].HookFound?
    && w.calls[a.call].event.id !in w.events
    && w.calls[a.call].booking < |w.rows| && !w.rows[w.calls[a.call].booking].StillHolding()
  }

  /** One step confirms a row only through the webhook's transaction. */
  lemma OnlyTheTransactionConfirms(site: Site, w: World, a: Action, b: nat)
    requires b < |Step(site, w, a).rows|
    requires Step(site, w, a).rows[b].status == Confirmed
    ensures b < |w.rows|
    ensures w.rows[b].status == Confirmed
            || (a.Confirm? && !a.fate.NotApplied? && a.call < |w.calls| && w.calls[a.call].HookFound?
                && w.calls[a.call].event.id !in w.events && w.calls[a.call].booking == b)
  {
  }

  /** One step releases a row only through the sweep or through Book giving a hold back. */
  lemma WhatReleases(site: Site, w: World, a: Action, b: nat)
    requires b < |w.rows| && w.rows[b].StillHolding()
    requires b < |Step(site, w, a).rows| && !Step(site, w, a).rows[b].StillHolding()
    ensures || (a.SweepPass? && a.asOf <= w.clock && SweepMatches(w.rows[b], a.asOf))
            || (a.Release? && a.call < |w.calls| && w.calls[a.call] == BookReleasing(b))
  {
  }

  /** A row waiting on a payment is released by nothing but a sweep that finds it lapsed. */
  lemma OnlyASweepReleases(site: Site, w: World, a: Action, b: nat)
    requires Inv(site, w) && b < |w.rows| && w.rows[b].paymentIntentId.Some?
    ensures b < |Step(site, w, a).rows|
    ensures w.rows[b].StillHolding() && !Step(site, w, a).rows[b].StillHolding() ==>
              a.SweepPass? && a.asOf <= w.clock && SweepMatches(w.rows[b], a.asOf)
  {
    StepForward(site, w, a, b);
    assert forall c :: 0 <= c < |w.calls| ==> Owner(w.calls[c]) != Some(b);
    if w.rows[b].StillHolding() && !Step(site, w, a).rows[b].StillHolding() {
      WhatReleases(site, w, a, b);
    }
  }

  /** A step keeps every confirmed booking on its slot exactly when it is not such a transaction. */
  lemma StepKeepsConfirmedHolding(site: Site, w: World, a: Action)
    requires Inv(site, w) && ConfirmedHolding(w)
    ensures ConfirmedHolding(Step(site, w, a)) <==> !ConfirmsReleased(w, a)
  {
    var w' := Step(site, w, a);
    if ConfirmsReleased(w, a) {
      var b := w.calls[a.call].booking;
      assert w'.rows[b].status == Confirmed && !w'.rows[b].StillHolding();
    } else {
      forall b | 0 <= b < |w'.rows| && w'.rows[b].status == Confirmed ensures w'.rows[b].StillHolding() {
        OnlyTheTransactionConfirms(site, w, a, b);
        if w.rows[b].status == Confirmed {
          StepForward(site, w, a, b);
        }
      }
    }
  }

  /** A confirmed booking that has lost its slot never gets it back. */
  lemma LostStaysLost(site: Site, w: World, a: Action)
    requires Inv(site, w) && !ConfirmedHolding(w)
    ensures !ConfirmedHolding(Step(site, w, a))
  {
    var b :| 0 <= b < |w.rows| && w.rows[b].status == Confirmed && !w.rows[b].StillHolding();
    StepForward(site, w, a, b);
  }

  /** Some step of the run confirmed a released booking. */
  ghost predicate SomeReleasedConfirmed(site: Site, w: World, acts: seq<Action>) {
    exists k :: 0 <= k < |acts| && ConfirmsReleased(Run(site, w, acts[..k]), acts[k])
  }

  lemma {:induction false} SomeReleasedSplit(site: Site, w: World, acts: seq<Action>)
    requires acts != []
    ensures var init := acts[..|acts| - 1];
            SomeReleasedConfirmed(site, w, acts) <==>
              SomeReleasedConfirmed(site, w, init) || ConfirmsReleased(Run(site, w, init), acts[|acts| - 1])
  {
    var init := acts[..|acts| - 1];
    forall k | 0 <= k <= |init| ensures acts[..k] == init[..k] {
    }
    if SomeReleasedConfirmed(site, w, acts) {
      var k :| 0 <= k < |acts| && ConfirmsReleased(Run(site, w, acts[..k]), acts[k]);
      if k < |init| {
        assert ConfirmsReleased(Run(site, w, init[..k]), init[k]);
      }
    }
    if SomeReleasedConfirmed(site, w, init) {
      var k :| 0 <= k < |init| && ConfirmsReleased(Run(site, w, init[..k]), init[k]);
      assert ConfirmsReleased(Run(site, w, acts[..k]), acts[k]);
    }
    if ConfirmsReleased(Run(site, w, init), acts[|acts| - 1]) {
      assert ConfirmsReleased(Run(site, w, acts[..|acts| - 1]), acts[|acts| - 1]);
    }
  }

  /** After any run every confirmed booking holds its slot if and only if no transaction ever confirmed a released one. */
  lemma {:induction false} ConfirmedHoldingExactly(site: Site, clock: Instant, acts: seq<Action>)
    requires SiteSound(site)
    ensures ConfirmedHolding(After(site, clock, acts)) <==> !SomeReleasedConfirmed(site, Init(clock), acts)
  {
    if acts != [] {
      var init := acts[..|acts| - 1];
      ConfirmedHoldingExactly(site, clock, init);
      ReachableSound(site, clock, init);
      SomeReleasedSplit(site, Init(clock), acts);
      if ConfirmedHolding(After(site, clock, init)) {
        StepKeepsConfirmedHolding(site, After(site, clock, init), acts[|acts| - 1]);
      } else {
        LostStaysLost(site, After(site, clock, init), acts[|acts| - 1]);
      }
    }
  }

  /** A webhook is between finding this booking and confirming it. */
  predicate BetweenLookupAndConfirm(w: World, b: nat) {
    exists c :: 0 <= c < |w.calls| && w.calls[c].HookFound? && w.calls[c].booking == b
  }

  /** The step releases a booking that some webhook has found and not yet confirmed. */
  ghost predicate SweepsUnderWebhook(w: World, a: Action) {
    a.SweepPass? && a.asOf <= w.clock && !a.fate.NotApplied?
    && exists b: nat :: b < |w.rows| && SweepMatches(w.rows[b], a.asOf) && BetweenLookupAndConfirm(w, b)
  }

  ghost predicate FoundHolding(w: World) {
    forall c :: 0 <= c < |w.calls| && w.calls[c].HookFound? ==>
      w.calls[c].booking < |w.rows| && w.rows[w.calls[c].booking].StillHolding()
  }

  lemma StepKeepsFoundHolding(site: Site, w: World, a: Action)
    requires Inv(site, w) && FoundHolding(w) && !SweepsUnderWebhook(w, a)
    ensures FoundHolding(Step(site, w, a))
  {
    var w' := Step(site, w, a);
    forall c | 0 <= c < |w'.calls| && w'.calls[c].HookFound?
      ensures w'.calls[c].booking < |w'.rows| && w'.rows[w'.calls[c].booking].StillHolding()
    {
      WhatFinds(site, w, a, c);
      assert c < |w.calls| ==> CallSound(site, w, w.calls[c]);
      var b := w'.calls[c].booking;
      StepForward(site, w, a, b);
      if c < |w.calls| && w.calls[c] == w'.calls[c] && !w'.rows[b].StillHolding() {
        OnlyASweepReleases(site, w, a, b);
        assert BetweenLookupAndConfirm(w, b);
      }
    }
  }

  /** No sweep between any webhook's lookup and its transaction: every confirmed booking holds its slot. */
  lemma {:induction false} NoSweepInBetween(site: Site, clock: Instant, acts: seq<Action>)
    requires SiteSound(site)
    requires forall k :: 0 <= k < |acts| ==> !SweepsUnderWebhook(After(site, clock, acts[..k]), acts[k])
    ensures FoundHolding(After(site, clock, acts))
    ensures ConfirmedHolding(After(site, clock, acts))
  {
    if acts != [] {
      var init := acts[..|acts| - 1];
      forall k | 0 <= k < |init| ensures !SweepsUnderWebhook(After(site, clock, init[..k]), init[k]) {
        assert init[..k] == acts[..k];
      }
      NoSweepInBetween(site, clock, init);
      ReachableSound(site, clock, init);
      var w, a := After(site, clock, init), acts[|acts| - 1];
      StepKeepsFoundHolding(site, w, a);
      StepKeepsConfirmedHolding(site, w, a);
    }
  }

  /** The hold lapses, the sweep runs and only then the transaction lands. */
  function OvertakenBySweep(w: World, c: nat, expiry: Instant): seq<Action> {
    var late := if w.clock < expiry then expiry else w.clock;
    [Advance(late), SweepPass(late, Applied), Confirm(c, Applied)]
  }

  /** A sweep can always overtake: from any such point a run confirms the booking and leaves its slot free for others. */
  lemma SweepCanOvertake(site: Site, w: World, c: nat)
    requires Inv(site, w) && c < |w.calls| && w.calls[c].HookFound? && w.calls[c].event.id !in w.events
    requires w.calls[c].booking < |w.rows|
    requires var row := w.rows[w.calls[c].booking]; row.status == PendingPayment && row.StillHolding()
    ensures w.rows[w.calls[c].booking].holdExpiresAt.Some?
    ensures var b := w.calls[c].booking;
            var rows := Run(site, w, OvertakenBySweep(w, c, w.rows[b].holdExpiresAt.value)).rows;
            b < |rows| && rows[b].status == Confirmed && !SlotHeld(rows, w.rows[b].courtId, w.rows[b].startsAt)
  {
    var b := w.calls[c].booking;
    assert RowSound(site, w.rows[b], w.clock);
    var acts := OvertakenBySweep(w, c, w.rows[b].holdExpiresAt.value);
    var late := Step(site, w, acts[0]);
    var swept := Step(site, late, acts[1]);
    var done := Step(site, swept, acts[2]);
    assert swept.rows == Sweep(w.rows, acts[0].to, acts[0].to);
    assert done.rows == SetConfirmed(swept.rows, b);
    assert forall i :: 0 <= i < |w.rows| ==> !Occupies(done.rows[i], w.rows[b].courtId, w.rows[b].startsAt);
    RunThree(site, w, acts);
  }
}
