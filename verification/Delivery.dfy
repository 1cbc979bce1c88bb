/** At-least-once delivery, exactly-once effect. */
module Delivery {
  import opened Wrappers
  import opened Calendar
  import opened Errors
  import opened Bookings
  import opened Payments
  import opened Protocol
  import opened Invariant
  import opened Guarantees

  /** The step is a transaction for the event that changes the tables. */
  predicate TakesEffect(w: World, a: Action, event: nat) {
    a.Confirm? && !a.fate.NotApplied? && a.call < |w.calls| && w.calls[a.call].HookFound?
    && w.calls[a.call].event.id == event && event !in w.events
  }

  /** How many transactions for the event take effect along the run. */
  function Effects(site: Site, w: World, acts: seq<Action>, event: nat): nat {
    if acts == [] then 0
    else
      var init := acts[..|acts| - 1];
      Effects(site, w, init, event) + (if TakesEffect(Run(site, w, init), acts[|acts| - 1], event) then 1 else 0)
  }

  lemma WhatRecords(site: Site, w: World, a: Action, event: nat)
    ensures event in Step(site, w, a).events <==> event in w.events || TakesEffect(w, a, event)
  {
  }

  /** However often an event is delivered and however its attempts fail, it takes effect once if it is recorded and never otherwise. */
  lemma {:induction false} TakesEffectOnce(site: Site, clock: Instant, acts: seq<Action>, event: nat)
    ensures Effects(site, Init(clock), acts, event) == if event in Run(site, Init(clock), acts).events then 1 else 0
  {
    if acts != [] {
      var init := acts[..|acts| - 1];
      TakesEffectOnce(site, clock, init, event);
      WhatRecords(site, Run(site, Init(clock), init), acts[|acts| - 1], event);
    }
  }

  /** A transaction that takes effect records its event and confirms the booking its payment is attached to; any other changes nothing. */
  lemma EffectIsOneConfirmation(site: Site, w: World, call: nat, fate: Fate)
    requires Inv(site, w) && call < |w.calls| && w.calls[call].HookFound?
    ensures var ev, after := w.calls[call].event, Step(site, w, Confirm(call, fate));
            && ev.id < |w.issued| && w.issued[ev.id] == ev && Attached(w, ev.intentId)
            && if TakesEffect(w, Confirm(call, fate), ev.id) then
                 && after.events == w.events[ev.id := PaymentSucceeded]
                 && after.rows == SetConfirmed(w.rows, w.intents[ev.intentId].bookingId)
               else after.events == w.events && after.rows == w.rows
  {
    assert CallSound(site, w, w.calls[call]);
  }

  /** Calls begun as call `n` or later are about to confirm for the event only if it is recorded already. */
  predicate LaterCallsIdle(w: World, event: nat, n: nat) {
    forall d :: n <= d < |w.calls| && w.calls[d].HookFound? && w.calls[d].event.id == event ==> event in w.events
  }

  /** The lookup of a settled event goes on to the transaction only when the event is recorded. */
  lemma SettledLooksUp(site: Site, w: World, event: nat, readOk: bool)
    requires Inv(site, w) && event < |w.issued| && Settled(w, w.issued[event])
    ensures Lookup(w.rows, w.issued[event], readOk).HookFound? ==> event in w.events
  {
  }

  lemma StepKeepsIdle(site: Site, w: World, a: Action, event: nat, n: nat)
    requires Inv(site, w) && event < |w.issued| && Settled(w, w.issued[event]) && LaterCallsIdle(w, event, n) && n <= |w.calls|
    ensures LaterCallsIdle(Step(site, w, a), event, n)
  {
    var w' := Step(site, w, a);
    forall d | n <= d < |w'.calls| && w'.calls[d].HookFound? && w'.calls[d].event.id == event
      ensures event in w'.events
    {
      WhatFinds(site, w, a, d);
      WhatRecords(site, w, a, event);
      if a.Deliver? && a.event < |w.issued| && w'.calls[d] == Lookup(w.rows, w.issued[a.event], a.readOk) {
        assert w.issued[a.event].id == a.event;
        SettledLooksUp(site, w, a.event, a.readOk);
      }
    }
  }

  lemma SettledStays(site: Site, w: World, w': World, event: nat)
    requires Inv(site, w) && Grows(w, w') && event < |w.issued| && Settled(w, w.issued[event])
    ensures event < |w'.issued| && w'.issued[event] == w.issued[event] && Settled(w', w'.issued[event])
  {
  }

  lemma {:induction false} RunKeepsIdle(site: Site, w: World, acts: seq<Action>, event: nat)
    requires Inv(site, w) && event < |w.issued| && Settled(w, w.issued[event])
    ensures LaterCallsIdle(Run(site, w, acts), event, |w.calls|)
  {
    if acts != [] {
      var init := acts[..|acts| - 1];
      RunKeepsIdle(site, w, init, event);
      RunKeeps(site, w, init);
      var now := Run(site, w, init);
      SettledStays(site, w, now, event);
      StepKeepsIdle(site, now, acts[|acts| - 1], event, |w.calls|);
    }
  }

  /**
   Once any delivery of an event has been answered 204, no delivery of it begun later changes
   the tables: in every continuation of the run, with anything in between its steps, its
   transaction leaves rows and events as they are.
   */
  lemma AnsweredForGood(site: Site, clock: Instant, past: seq<Action>, c: nat, future: seq<Action>, d: nat, fate: Fate)
    requires SiteSound(site)
    ensures var w := Run(site, Init(clock), past);
            var now := Run(site, Init(clock), past + future);
            var after := Step(site, now, Confirm(d, fate));
            c < |w.calls| && w.calls[c].HookDone? && StatusOf(w.calls[c].answer) == 204
            && |w.calls| <= d < |now.calls| && now.calls[d].HookFound? && now.calls[d].event.id == w.calls[c].event.id ==>
              after.rows == now.rows && after.events == now.events
  {
    var w := Run(site, Init(clock), past);
    ReachableSound(site, clock, past);
    RunConcat(site, Init(clock), past, future);
    if c < |w.calls| && w.calls[c].HookDone? && StatusOf(w.calls[c].answer) == 204 {
      assert CallSound(site, w, w.calls[c]);
      RunKeepsIdle(site, w, future, w.calls[c].event.id);
    }
  }

  /**
   With anything interleaved: as long as the booking holds its slot its row is as it was or, once
   the payment is recorded, what one failure-free delivery makes of it.
   */
  lemma RowUnderDeliveries(site: Site, w: World, event: nat, b: nat, acts: seq<Action>)
    requires Deliverable(site, w, event, b)
    ensures b < |Run(site, w, acts).rows|
    ensures var after := Run(site, w, acts);
            after.rows[b].StillHolding() ==>
              after.rows[b] == if PaymentRecorded(after, b) then SetConfirmed(w.rows, b)[b] else w.rows[b]
  {
    var after := Run(site, w, acts);
    RunKeeps(site, w, acts);
    assert RowGrows(w.rows[b], after.rows[b]);
    assert RowSound(site, after.rows[b], after.clock);
    RecordedMeansConfirmed(site, after, b);
  }

  /** And when some attempt has been answered with success the event is recorded, and the row is that. */
  lemma AnsweredRow(site: Site, w: World, event: nat, b: nat, acts: seq<Action>, c: nat)
    requires Deliverable(site, w, event, b)
    requires var after := Run(site, w, acts); c < |after.calls| && after.calls[c] == HookDone(w.issued[event], None)
    ensures var after := Run(site, w, acts);
            event in after.events && b < |after.rows|
            && (after.rows[b].StillHolding() ==> after.rows[b] == SetConfirmed(w.rows, b)[b])
  {
    var after := Run(site, w, acts);
    RunKeeps(site, w, acts);
    assert CallSound(site, after, after.calls[c]);
    assert w.issued[event].id == event;
    RowUnderDeliveries(site, w, event, b, acts);
    assert RecordedFor(after, event, w.issued[event].intentId);
  }

  /** One attempt at a delivery: whether its reads succeed and how its transaction ends. */
  datatype Attempt = Attempt(readOk: bool, fate: Fate)

  function Deliveries(w: World, event: nat, a: Attempt): seq<Action> {
    [Deliver(event, a.readOk), Confirm(|w.calls|, a.fate)]
  }

  /** The delivery that began in w has been answered 204. */
  predicate Answered(w: World, after: World) {
    |w.calls| < |after.calls| && after.calls[|w.calls|].HookDone? && StatusOf(after.calls[|w.calls|].answer) == 204
  }

  /** The gateway's retries: attempts are made until one is answered 204. */
  function Retry(site: Site, w: World, event: nat, attempts: seq<Attempt>): World
    decreases |attempts|
  {
    if attempts == [] then w
    else
      var after := Run(site, w, Deliveries(w, event, attempts[0]));
      if Answered(w, after) then after else Retry(site, after, event, attempts[1..])
  }

  /** A recorded-or-not success whose booking still holds its slot. */
  ghost predicate Deliverable(site: Site, w: World, event: nat, b: nat) {
    && Inv(site, w) && event < |w.issued| && w.issued[event].kind == PaymentSucceeded
    && b < |w.rows| && w.rows[b].paymentIntentId == Some(w.issued[event].intentId) && w.rows[b].StillHolding()
  }

  lemma DeliveryLooksUp(site: Site, w: World, event: nat, b: nat, readOk: bool)
    requires Deliverable(site, w, event, b)
    ensures Lookup(w.rows, w.issued[event], readOk)
         == if readOk then HookFound(w.issued[event], b) else HookDone(w.issued[event], Some(StorageFailed))
  {
  }

  lemma AttemptRuns(site: Site, w: World, event: nat, a: Attempt)
    ensures Run(site, w, Deliveries(w, event, a))
         == Step(site, Step(site, w, Deliver(event, a.readOk)), Confirm(|w.calls|, a.fate))
  {
    RunOne(site, w, Deliver(event, a.readOk));
    RunThen(site, w, [Deliver(event, a.readOk)], Confirm(|w.calls|, a.fate));
    assert Deliveries(w, event, a) == [Deliver(event, a.readOk)] + [Confirm(|w.calls|, a.fate)];
  }

  lemma LookedThenConfirmed(site: Site, w: World, event: nat, b: nat, a: Attempt)
    requires event < |w.issued|
    requires Lookup(w.rows, w.issued[event], a.readOk)
          == if a.readOk then HookFound(w.issued[event], b) else HookDone(w.issued[event], Some(StorageFailed))
    ensures var after := Step(site, Step(site, w, Deliver(event, a.readOk)), Confirm(|w.calls|, a.fate));
            var confirmed := ConfirmPaid(w, w.issued[event], b);
            && after.issued == w.issued
            && (if a.readOk && !a.fate.NotApplied? then after.rows == confirmed.rows && after.events == confirmed.events
                else after.rows == w.rows && after.events == w.events)
            && (Answered(w, after) <==> a.readOk && a.fate.Applied?)
  {
  }

  /** What one attempt does to the tables and how it is answered. */
  lemma OneAttempt(site: Site, w: World, event: nat, b: nat, a: Attempt)
    requires Deliverable(site, w, event, b)
    ensures var after := Run(site, w, Deliveries(w, event, a));
            var confirmed := ConfirmPaid(w, w.issued[event], b);
            && after.issued == w.issued
            && (if a.readOk && !a.fate.NotApplied? then after.rows == confirmed.rows && after.events == confirmed.events
                else after.rows == w.rows && after.events == w.events)
            && (Answered(w, after) <==> a.readOk && a.fate.Applied?)
  {
    DeliveryLooksUp(site, w, event, b, a.readOk);
    AttemptRuns(site, w, event, a);
    LookedThenConfirmed(site, w, event, b, a);
  }

  lemma AttemptKeepsDeliverable(site: Site, w: World, event: nat, b: nat, a: Attempt)
    requires Deliverable(site, w, event, b)
    ensures var after := Run(site, w, Deliveries(w, event, a));
            && Deliverable(site, after, event, b)
            && ConfirmPaid(after, w.issued[event], b).rows == ConfirmPaid(w, w.issued[event], b).rows
            && ConfirmPaid(after, w.issued[event], b).events == ConfirmPaid(w, w.issued[event], b).events
  {
    OneAttempt(site, w, event, b, a);
    RunKeeps(site, w, Deliveries(w, event, a));
    assert w.issued[event].id == event;
  }

  /** Some attempt is one whose success reaches the gateway. */
  predicate SomeReported(attempts: seq<Attempt>) {
    exists k :: 0 <= k < |attempts| && attempts[k].readOk && attempts[k].fate.Applied?
  }

  lemma ReportedLater(attempts: seq<Attempt>)
    requires SomeReported(attempts) && !(attempts[0].readOk && attempts[0].fate.Applied?)
    ensures SomeReported(attempts[1..])
  {
  }

  /** The tables are as the confirming transaction leaves them, or untouched by attempts none of which reported success. */
  ghost predicate ConfirmedOrUntouched(w: World, event: nat, b: nat, attempts: seq<Attempt>, after: World)
    requires event < |w.issued|
  {
    var confirmed := ConfirmPaid(w, w.issued[event], b);
    || (after.rows == confirmed.rows && after.events == confirmed.events)
    || (!SomeReported(attempts) && after.rows == w.rows && after.events == w.events)
  }

  lemma {:induction false} RetriesConfirm(site: Site, w: World, event: nat, b: nat, attempts: seq<Attempt>)
    requires Deliverable(site, w, event, b)
    ensures ConfirmedOrUntouched(w, event, b, attempts, Retry(site, w, event, attempts))
    decreases |attempts|
  {
    if attempts != [] {
      var after := Run(site, w, Deliveries(w, event, attempts[0]));
      OneAttempt(site, w, event, b, attempts[0]);
      if !Answered(w, after) {
        AttemptKeepsDeliverable(site, w, event, b, attempts[0]);
        RetriesConfirm(site, after, event, b, attempts[1..]);
        if SomeReported(attempts) {
          ReportedLater(attempts);
        }
      }
    }
  }

  /**
   However the attempts before the first 204 fail, before the transaction, inside it or with only
   its answer lost, the tables end as a single failure-free delivery would have left them; with
   no 204 at all they are as that delivery leaves them or as they were.
   */
  lemma RetriesAmountToOne(site: Site, w: World, event: nat, b: nat, attempts: seq<Attempt>)
    requires Deliverable(site, w, event, b)
    ensures var once := Run(site, w, Deliveries(w, event, Attempt(true, Applied)));
            var retried := Retry(site, w, event, attempts);
            || (retried.rows == once.rows && retried.events == once.events)
            || (!SomeReported(attempts) && retried.rows == w.rows && retried.events == w.events)
  {
    OneAttempt(site, w, event, b, Attempt(true, Applied));
    RetriesConfirm(site, w, event, b, attempts);
  }
}
