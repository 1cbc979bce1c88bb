/** What becomes of a booking whose Book call has ended. */
module Outcomes {
  import opened Wrappers
  import opened Calendar
  import opened Bookings
  import opened Payments
  import opened Protocol
  import opened Invariant
  import opened LateConfirm

  /** No Book call in flight will still attach a payment to the booking. */
  ghost predicate Unowned(w: World, b: nat) {
    forall c :: 0 <= c < |w.calls| ==> Owner(w.calls[c]) != Some(b)
  }

  /** A booking left without a payment and without anybody to attach one. */
  ghost predicate Stranded(w: World, b: nat) {
    b < |w.rows| && w.rows[b].paymentIntentId.None? && Unowned(w, b)
  }

  /** A call comes to own a booking only by inserting it. */
  lemma WhatOwns(site: Site, w: World, a: Action, c: nat)
    requires c < |Step(site, w, a).calls| && Owner(Step(site, w, a).calls[c]).Some?
    ensures || (c < |w.calls| && Owner(w.calls[c]) == Owner(Step(site, w, a).calls[c]))
            || Owner(Step(site, w, a).calls[c]).value == |w.rows|
  {
  }

  /** A row gets a payment only from the Book call that owns it. */
  lemma WhatAttaches(site: Site, w: World, a: Action, b: nat)
    requires b < |w.rows| && b < |Step(site, w, a).rows|
    requires w.rows[b].paymentIntentId.None? && Step(site, w, a).rows[b].paymentIntentId.Some?
    ensures exists c :: 0 <= c < |w.calls| && Owner(w.calls[c]) == Some(b)
  {
  }

  lemma StaysUnowned(site: Site, w: World, a: Action, b: nat)
    requires Unowned(w, b) && b < |w.rows|
    ensures Unowned(Step(site, w, a), b)
  {
    var w' := Step(site, w, a);
    forall c | 0 <= c < |w'.calls| ensures Owner(w'.calls[c]) != Some(b) {
      if Owner(w'.calls[c]).Some? {
        WhatOwns(site, w, a, c);
      }
    }
  }

  lemma StepKeepsStranded(site: Site, w: World, a: Action, b: nat)
    requires Inv(site, w) && Stranded(w, b)
    ensures Stranded(Step(site, w, a), b)
  {
    var w' := Step(site, w, a);
    StepForward(site, w, a, b);
    StaysUnowned(site, w, a, b);
    if w'.rows[b].paymentIntentId.Some? {
      WhatAttaches(site, w, a, b);
    }
  }

  /** A stranded booking can never be confirmed, whatever anybody does. */
  lemma {:induction false} StrandedNeverConfirmed(site: Site, w: World, acts: seq<Action>, b: nat)
    requires Inv(site, w) && Stranded(w, b)
    ensures Stranded(Run(site, w, acts), b)
    ensures Run(site, w, acts).rows[b].status == PendingPayment
  {
    RunKeeps(site, w, acts);
    if acts != [] {
      var init := acts[..|acts| - 1];
      StrandedNeverConfirmed(site, w, init, b);
      RunKeeps(site, w, init);
      StepKeepsStranded(site, Run(site, w, init), acts[|acts| - 1], b);
    }
    assert RowSound(site, Run(site, w, acts).rows[b], Run(site, w, acts).clock);
  }

  /** A stranded booking goes back with the first sweep that comes after its hold has run out. */
  lemma StrandedSwept(site: Site, w: World, acts: seq<Action>, b: nat, asOf: Instant)
    requires Inv(site, w) && Stranded(w, b) && w.rows[b].holdExpiresAt.Some?
    requires w.rows[b].holdExpiresAt.value <= asOf <= Run(site, w, acts).clock
    ensures var after := Run(site, w, acts + [SweepPass(asOf, Applied)]);
            b < |after.rows| && !after.rows[b].StillHolding()
  {
    StrandedNeverConfirmed(site, w, acts, b);
    RunKeeps(site, w, acts);
    assert RowGrows(w.rows[b], Run(site, w, acts).rows[b]);
    RunThen(site, w, acts, SweepPass(asOf, Applied));
  }

  ghost predicate CanBeConfirmed(site: Site, w: World, b: nat) {
    exists acts: seq<Action> :: IsConfirmedAfter(site, w, acts, b)
  }

  predicate IsConfirmedAfter(site: Site, w: World, acts: seq<Action>, b: nat) {
    b < |Run(site, w, acts).rows| && Run(site, w, acts).rows[b].status == Confirmed
  }

  /** A player has been given the secret of the booking's payment, or can still be. */
  predicate Payable(w: World, b: nat)
    requires b < |w.rows|
  {
    && w.rows[b].StillHolding() && w.rows[b].paymentIntentId.Some?
    && (w.rows[b].AwaitsPayment(w.clock) || w.rows[b].paymentIntentId.value in w.secrets || SecretOnItsWay(w, b))
  }

  /** A ResumePayment has found the booking payable and is about to ask the gateway for its secret. */
  predicate SecretOnItsWay(w: World, b: nat) {
    exists c :: 0 <= c < |w.calls| && AsksFor(w.calls[c], b)
  }

  predicate AsksFor(call: Call, b: nat) {
    call.ResumeReady? && call.booking == b && call.held.paymentIntentId.Some?
  }

  lemma ConfirmableEarlier(site: Site, w: World, a: Action, b: nat)
    requires CanBeConfirmed(site, Step(site, w, a), b)
    ensures CanBeConfirmed(site, w, b)
  {
    var acts: seq<Action> :| IsConfirmedAfter(site, Step(site, w, a), acts, b);
    RunOne(site, w, a);
    RunConcat(site, w, [a], acts);
    assert IsConfirmedAfter(site, w, [a] + acts, b);
  }

  /** From here on each lemma is one step further from the confirmation. */
  lemma FoundIsConfirmable(site: Site, w: World, b: nat, c: nat)
    requires Inv(site, w) && b < |w.rows| && w.rows[b].status == PendingPayment
    requires c < |w.calls| && w.calls[c].HookFound? && w.calls[c].booking == b
    ensures CanBeConfirmed(site, w, b)
  {
    var ev := w.calls[c].event;
    assert CallSound(site, w, w.calls[c]);
    assert w.intents[ev.intentId].bookingId == b;
    assert ev.id !in w.events;
    RunOne(site, w, Confirm(c, Applied));
    assert IsConfirmedAfter(site, w, [Confirm(c, Applied)], b);
  }

  lemma DeliveryFinds(site: Site, w: World, b: nat, e: nat)
    requires Inv(site, w) && b < |w.rows| && w.rows[b].StillHolding()
    requires e < |w.issued| && w.issued[e].kind == PaymentSucceeded && w.rows[b].paymentIntentId == Some(w.issued[e].intentId)
    ensures Lookup(w.rows, w.issued[e], true) == HookFound(w.issued[e], b)
  {
    LookupTells(site, w, e, true);
    assert w.intents[w.issued[e].intentId].bookingId == b;
  }

  lemma DeliverJoins(site: Site, w: World, e: nat)
    requires e < |w.issued|
    ensures var looked := Step(site, w, Deliver(e, true));
            looked.rows == w.rows && |looked.calls| == |w.calls| + 1 && looked.calls[|w.calls|] == Lookup(w.rows, w.issued[e], true)
  {
  }

  lemma ToldIsConfirmable(site: Site, w: World, b: nat, e: nat)
    requires Inv(site, w) && b < |w.rows| && w.rows[b].StillHolding() && w.rows[b].status == PendingPayment
    requires e < |w.issued| && w.issued[e].kind == PaymentSucceeded && w.rows[b].paymentIntentId == Some(w.issued[e].intentId)
    ensures CanBeConfirmed(site, w, b)
  {
    DeliveryFinds(site, w, b, e);
    var looked := Step(site, w, Deliver(e, true));
    StepKeeps(site, w, Deliver(e, true));
    DeliverJoins(site, w, e);
    FoundIsConfirmable(site, looked, b, |w.calls|);
    ConfirmableEarlier(site, w, Deliver(e, true), b);
  }

  lemma PaidIsConfirmable(site: Site, w: World, b: nat, intent: nat)
    requires Inv(site, w) && b < |w.rows| && w.rows[b].StillHolding() && w.rows[b].status == PendingPayment
    requires w.rows[b].paymentIntentId == Some(intent) && intent < |w.intents| && w.intents[intent].paid
    ensures CanBeConfirmed(site, w, b)
  {
    StepKeeps(site, w, Issue(PaymentSucceeded, intent));
    ToldIsConfirmable(site, Step(site, w, Issue(PaymentSucceeded, intent)), b, |w.issued|);
    ConfirmableEarlier(site, w, Issue(PaymentSucceeded, intent), b);
  }

  lemma GivenIsConfirmable(site: Site, w: World, b: nat, intent: nat)
    requires Inv(site, w) && b < |w.rows| && w.rows[b].StillHolding() && w.rows[b].status == PendingPayment
    requires w.rows[b].paymentIntentId == Some(intent) && intent in w.secrets
    ensures CanBeConfirmed(site, w, b)
  {
    StepKeeps(site, w, Pay(intent));
    PaidIsConfirmable(site, Step(site, w, Pay(intent)), b, intent);
    ConfirmableEarlier(site, w, Pay(intent), b);
  }

  lemma FinishGives(site: Site, w: World, c: nat)
    requires c < |w.calls| && w.calls[c].ResumeReady?
    requires w.calls[c].held.paymentIntentId.Some? && w.calls[c].held.paymentIntentId.value < |w.intents|
    ensures var given := Step(site, w, FinishResume(c, true));
            given.rows == w.rows && w.calls[c].held.paymentIntentId.value in given.secrets
  {
  }

  lemma AskedIsConfirmable(site: Site, w: World, b: nat, c: nat)
    requires Inv(site, w) && b < |w.rows| && w.rows[b].StillHolding() && w.rows[b].status == PendingPayment
    requires c < |w.calls| && AsksFor(w.calls[c], b)
    ensures CanBeConfirmed(site, w, b)
  {
    assert CallSound(site, w, w.calls[c]);
    FinishGives(site, w, c);
    FinishKeeps(site, w, c, true);
    GivenIsConfirmable(site, Step(site, w, FinishResume(c, true)), b, w.rows[b].paymentIntentId.value);
    ConfirmableEarlier(site, w, FinishResume(c, true), b);
  }

  lemma ReadIsConfirmable(site: Site, w: World, b: nat, c: nat)
    requires Inv(site, w) && b < |w.rows| && w.rows[b].AwaitsPayment(w.clock) && w.rows[b].paymentIntentId.Some?
    requires c < |w.calls| && w.calls[c] == ResumeRead(b, w.rows[b])
    ensures CanBeConfirmed(site, w, b)
  {
    StepKeeps(site, w, JudgeResume(c));
    AskedIsConfirmable(site, Step(site, w, JudgeResume(c)), b, c);
    ConfirmableEarlier(site, w, JudgeResume(c), b);
  }

  lemma AwaitingIsConfirmable(site: Site, w: World, b: nat)
    requires Inv(site, w) && b < |w.rows| && w.rows[b].AwaitsPayment(w.clock) && w.rows[b].paymentIntentId.Some?
    ensures CanBeConfirmed(site, w, b)
  {
    assert RowSound(site, w.rows[b], w.clock);
    var ask := BeginResume(w.rows[b].playerId, b, true);
    StepKeeps(site, w, ask);
    ReadIsConfirmable(site, Step(site, w, ask), b, |w.calls|);
    ConfirmableEarlier(site, w, ask, b);
  }

  /** Nobody is booking it, nobody has found it for a payment and nobody can pay for it. */
  ghost predicate Closed(w: World, b: nat) {
    && b < |w.rows| && w.rows[b].status == PendingPayment && Unowned(w, b)
    && !BetweenLookupAndConfirm(w, b) && !Payable(w, b)
  }

  /** A secret leaves only with an attach or with the gateway's answer to a ResumePayment. */
  lemma WhatReveals(site: Site, w: World, a: Action, i: nat)
    requires i in Step(site, w, a).secrets && i !in w.secrets
    ensures || (a.Attach? && a.call < |w.calls| && w.calls[a.call].BookOpened? && w.calls[a.call].intent == i)
            || (a.FinishResume? && a.call < |w.calls| && w.calls[a.call].ResumeReady?
                && w.calls[a.call].held.paymentIntentId == Some(i))
  {
  }

  /** A ResumePayment gets to ask only for a booking that it read awaiting payment and finds so by the clock. */
  lemma WhatAsks(site: Site, w: World, a: Action, b: nat, c: nat)
    requires c < |Step(site, w, a).calls| && AsksFor(Step(site, w, a).calls[c], b)
    ensures c < |w.calls|
    ensures w.calls[c] == Step(site, w, a).calls[c]
            || (a.JudgeResume? && w.calls[c] == ResumeRead(b, Step(site, w, a).calls[c].held)
                && w.calls[c].held.AwaitsPayment(w.clock))
  {
  }

  /** Of a closed booking that holds its slot no call in flight has what a payment takes. */
  lemma NobodyAbout(site: Site, w: World, b: nat)
    requires Inv(site, w) && Closed(w, b) && w.rows[b].StillHolding() && w.rows[b].paymentIntentId.Some?
    ensures w.rows[b].paymentIntentId.value !in w.secrets
    ensures forall c :: 0 <= c < |w.calls| && w.calls[c].BookOpened? ==> w.rows[b].paymentIntentId != Some(w.calls[c].intent)
    ensures forall c :: 0 <= c < |w.calls| && w.calls[c].ResumeReady? ==>
              w.calls[c].held.paymentIntentId != w.rows[b].paymentIntentId
    ensures forall c :: 0 <= c < |w.calls| ==> !AsksFor(w.calls[c], b)
    ensures forall c :: 0 <= c < |w.calls| && w.calls[c].ResumeRead? && w.calls[c].booking == b ==>
              !w.calls[c].held.AwaitsPayment(w.clock)
  {
    assert forall c :: 0 <= c < |w.calls| ==> CallSound(site, w, w.calls[c]);
    forall c | 0 <= c < |w.calls| ensures Owner(w.calls[c]) != Some(b) && !AsksFor(w.calls[c], b) {
    }
  }

  lemma StaysSecret(site: Site, w: World, a: Action, b: nat)
    requires Inv(site, w) && Closed(w, b) && w.rows[b].StillHolding() && w.rows[b].paymentIntentId.Some?
    ensures w.rows[b].paymentIntentId.value !in Step(site, w, a).secrets
  {
    var i := w.rows[b].paymentIntentId.value;
    NobodyAbout(site, w, b);
    if i in Step(site, w, a).secrets {
      WhatReveals(site, w, a, i);
    }
  }

  lemma StaysUnasked(site: Site, w: World, a: Action, b: nat)
    requires Inv(site, w) && Closed(w, b) && w.rows[b].StillHolding() && w.rows[b].paymentIntentId.Some?
    ensures !SecretOnItsWay(Step(site, w, a), b)
  {
    var w' := Step(site, w, a);
    NobodyAbout(site, w, b);
    forall c | 0 <= c < |w'.calls| ensures !AsksFor(w'.calls[c], b) {
      if AsksFor(w'.calls[c], b) {
        WhatAsks(site, w, a, b, c);
      }
    }
  }

  lemma StaysUnpayable(site: Site, w: World, a: Action, b: nat)
    requires Inv(site, w) && Closed(w, b)
    ensures b < |Step(site, w, a).rows| && !Payable(Step(site, w, a), b)
  {
    StepKeeps(site, w, a);
    StepForward(site, w, a, b);
    var w' := Step(site, w, a);
    if w'.rows[b].StillHolding() && w'.rows[b].paymentIntentId.Some? {
      if w.rows[b].paymentIntentId.None? {
        WhatAttaches(site, w, a, b);
      }
      StaysSecret(site, w, a, b);
      StaysUnasked(site, w, a, b);
    }
  }

  lemma StaysUnfound(site: Site, w: World, a: Action, b: nat)
    requires Inv(site, w) && Closed(w, b)
    ensures !BetweenLookupAndConfirm(Step(site, w, a), b)
  {
    var w' := Step(site, w, a);
    forall c | 0 <= c < |w'.calls| && w'.calls[c].HookFound? ensures w'.calls[c].booking != b {
      WhatFinds(site, w, a, c);
      if c >= |w.calls| || w.calls[c] != w'.calls[c] {
        assert EventSound(w, w.issued[a.event]);
      }
    }
  }

  lemma {:induction false} ClosedNeverConfirmed(site: Site, w: World, acts: seq<Action>, b: nat)
    requires Inv(site, w) && Closed(w, b)
    ensures Closed(Run(site, w, acts), b)
  {
    if acts != [] {
      var init, a := acts[..|acts| - 1], acts[|acts| - 1];
      ClosedNeverConfirmed(site, w, init, b);
      RunKeeps(site, w, init);
      var now := Run(site, w, init);
      StaysUnowned(site, now, a, b);
      StaysUnfound(site, now, a, b);
      StaysUnpayable(site, now, a, b);
      if Step(site, now, a).rows[b].status == Confirmed {
        OnlyTheTransactionConfirms(site, now, a, b);
      }
    }
  }

  /**
   An unpaid booking nobody is still booking, whatever the clock and whether or not it has been
   released, can be confirmed if and only if a webhook has found it already, or it holds its slot
   and its payment can be paid: it still awaits payment, or the secret is out or on its way.
   */
  lemma ConfirmableExactly(site: Site, w: World, b: nat)
    requires Inv(site, w) && b < |w.rows| && Unowned(w, b) && w.rows[b].status == PendingPayment
    ensures CanBeConfirmed(site, w, b) <==> BetweenLookupAndConfirm(w, b) || Payable(w, b)
  {
    if BetweenLookupAndConfirm(w, b) {
      var c :| 0 <= c < |w.calls| && w.calls[c].HookFound? && w.calls[c].booking == b;
      FoundIsConfirmable(site, w, b, c);
    } else if Payable(w, b) {
      PayableIsConfirmable(site, w, b);
    } else {
      forall acts: seq<Action> ensures !IsConfirmedAfter(site, w, acts, b) {
        ClosedNeverConfirmed(site, w, acts, b);
      }
    }
  }

  lemma PayableIsConfirmable(site: Site, w: World, b: nat)
    requires Inv(site, w) && b < |w.rows| && w.rows[b].status == PendingPayment && Payable(w, b)
    ensures CanBeConfirmed(site, w, b)
  {
    if w.rows[b].paymentIntentId.value in w.secrets {
      GivenIsConfirmable(site, w, b, w.rows[b].paymentIntentId.value);
    } else if SecretOnItsWay(w, b) {
      var c :| 0 <= c < |w.calls| && AsksFor(w.calls[c], b);
      AskedIsConfirmable(site, w, b, c);
    } else {
      AwaitingIsConfirmable(site, w, b);
    }
  }

  /** In particular, while it awaits payment it can be confirmed if and only if its row carries one. */
  lemma ConfirmableExactlyWhenAttached(site: Site, w: World, b: nat)
    requires Inv(site, w) && b < |w.rows| && Unowned(w, b) && w.rows[b].AwaitsPayment(w.clock)
    ensures CanBeConfirmed(site, w, b) <==> w.rows[b].paymentIntentId.Some?
  {
    ConfirmableExactly(site, w, b);
    assert forall c :: 0 <= c < |w.calls| ==> CallSound(site, w, w.calls[c]);
  }
}
