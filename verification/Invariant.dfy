/** What every step of the protocol keeps. */
module Invariant {
  import opened Wrappers
  import opened Calendar
  import opened Errors
  import opened Courts
  import opened Grid
  import opened Bookings
  import opened Payments
  import opened Protocol

  /** The row is the hold once taken, whatever has become of it since. */
  predicate SameHold(row: Booking, held: Booking) {
    row.courtId == held.courtId && row.playerId == held.playerId && row.startsAt == held.startsAt
    && row.amount == held.amount && row.createdAt == held.createdAt
    && (row.status == PendingPayment ==> row.holdExpiresAt == held.holdExpiresAt)
  }

  ghost predicate RowSound(site: Site, b: Booking, clock: Instant) {
    && b.playerId != NIL_ID && b.courtId in site.courts
    && OnGrid(site.courts[b.courtId].court, b.startsAt, site.courts[b.courtId].venue.zone)
    && b.amount == ToInt32(PriceOf(site, b.courtId))
    && (b.status == PendingPayment <==> b.holdExpiresAt.Some?)
    && (b.status == Confirmed ==> b.paymentIntentId.Some?)
    && (b.holdExpiresAt.Some? ==> b.holdExpiresAt.value <= b.createdAt + PAYMENT_HOLD)
    && b.createdAt <= clock
    && (b.cancelledAt.Some? ==> b.createdAt <= b.cancelledAt.value <= clock)
  }

  ghost predicate RowsSound(site: Site, w: World) {
    forall b :: 0 <= b < |w.rows| ==> RowSound(site, w.rows[b], w.clock)
  }

  /** Every intent was opened for a row, at that row's price. */
  ghost predicate IntentsSound(site: Site, w: World) {
    forall i :: 0 <= i < |w.intents| ==>
      w.intents[i].bookingId < |w.rows| && w.intents[i].amount == PriceOf(site, w.rows[w.intents[i].bookingId].courtId)
  }

  /** A row carries only an intent opened for it, so no two rows carry the same one. */
  ghost predicate RowLinks(w: World) {
    forall b :: 0 <= b < |w.rows| && w.rows[b].paymentIntentId.Some? ==>
      w.rows[b].paymentIntentId.value < |w.intents| && w.intents[w.rows[b].paymentIntentId.value].bookingId == b
  }

  /** The intent is attached to the row it was opened for. */
  predicate Attached(w: World, i: nat) {
    i < |w.intents| && w.intents[i].bookingId < |w.rows| && w.rows[w.intents[i].bookingId].paymentIntentId == Some(i)
  }

  /** A secret is out only for an attached intent, and only such an intent is ever paid. */
  ghost predicate SecretsSound(w: World) {
    && (forall i :: i in w.secrets ==> Attached(w, i))
    && (forall i :: 0 <= i < |w.intents| && w.intents[i].paid ==> i in w.secrets)
  }

  ghost predicate EventSound(w: World, ev: PaymentEvent) {
    && ev.id < |w.issued| && w.issued[ev.id] == ev
    && ev.intentId < |w.intents|
    && (ev.kind == PaymentSucceeded ==> w.intents[ev.intentId].paid)
  }

  ghost predicate IssuedSound(w: World) {
    forall e :: 0 <= e < |w.issued| ==> w.issued[e].id == e && EventSound(w, w.issued[e])
  }

  /** A recorded event is a genuine success whose booking is confirmed. */
  ghost predicate EventsSound(w: World) {
    forall e :: e in w.events ==>
      e < |w.issued| && w.events[e] == PaymentSucceeded && w.issued[e].kind == PaymentSucceeded
      && Attached(w, w.issued[e].intentId)
      && w.rows[w.intents[w.issued[e].intentId].bookingId].status == Confirmed
  }

  predicate RecordedFor(w: World, e: nat, intent: nat) {
    e in w.events && e < |w.issued| && w.issued[e].kind == PaymentSucceeded && w.issued[e].intentId == intent
  }

  /** A confirmed row carries an intent that some recorded success event is about. */
  ghost predicate ConfirmedSound(w: World) {
    forall b :: 0 <= b < |w.rows| && w.rows[b].status == Confirmed ==>
      w.rows[b].paymentIntentId.Some? && exists e: nat :: RecordedFor(w, e, w.rows[b].paymentIntentId.value)
  }

  /** Nothing is left to do about the event. */
  predicate Settled(w: World, ev: PaymentEvent) {
    ev.kind == PaymentFailed || Recorded(w, ev) || BookingReleased(w, ev)
  }

  predicate Recorded(w: World, ev: PaymentEvent) {
    ev.id in w.events
  }

  predicate BookingReleased(w: World, ev: PaymentEvent) {
    Attached(w, ev.intentId) && !w.rows[w.intents[ev.intentId].bookingId].StillHolding()
  }

  /** What an answer given to a delivery says about the tables. */
  predicate AnswerSound(w: World, ev: PaymentEvent, answer: Option<Error>) {
    match answer
    case None => ev.kind == PaymentFailed || Recorded(w, ev)
    case Some(HoldLapsed) => BookingReleased(w, ev)
    case Some(BookingNotFound) => false
    case Some(_) => true
  }

  /** The booking a Book call in flight has yet to attach a payment to. */
  function Owner(call: Call): Option<nat> {
    match call
    case BookHeld(booking, _) => Some(booking)
    case BookOpened(booking, _, _) => Some(booking)
    case BookReleasing(booking) => Some(booking)
    case _ => None
  }

  ghost predicate CallSound(site: Site, w: World, call: Call) {
    match call
    case BookReady(input, now) => CheckBookable(site, input, now).None? && now <= w.clock
    case BookHeld(b, held) => b < |w.rows| && SameHold(w.rows[b], held) && held.paymentIntentId.None?
    case BookOpened(b, held, i) =>
      b < |w.rows| && SameHold(w.rows[b], held) && i < |w.intents| && w.intents[i].bookingId == b
    case BookReleasing(b) => b < |w.rows|
    case BookDone(Ok(out)) => HandedOut(w, out)
    case BookDone(Err(_)) => true
    case HookFound(ev, b) =>
      EventSound(w, ev) && ev.kind == PaymentSucceeded && b < |w.rows| && w.rows[b].paymentIntentId == Some(ev.intentId)
    case HookDone(ev, answer) => EventSound(w, ev) && AnswerSound(w, ev, answer)
    case ResumeRead(b, held) => ReadSound(w, b, held)
    case ResumeReady(b, held) => ReadSound(w, b, held)
    case ResumeDone(Ok(out)) => HandedOut(w, out)
    case ResumeDone(Err(_)) => true
  }

  /** The row is still the booking that was read, and carries the payment it was read with. */
  predicate ReadSound(w: World, b: nat, held: Booking) {
    b < |w.rows| && SameHold(w.rows[b], held)
    && (held.paymentIntentId.Some? ==> held.paymentIntentId == w.rows[b].paymentIntentId)
  }

  predicate HandedOut(w: World, out: HeldBooking) {
    && out.booking < |w.rows| && SameHold(w.rows[out.booking], out.snapshot)
    && w.rows[out.booking].paymentIntentId == Some(out.secret) && out.secret in w.secrets
    && out.snapshot.paymentIntentId == Some(out.secret)
  }

  /** The booking has no payment yet and, unless the call is giving it back, holds its slot until it has run out. */
  predicate AwaitsAttach(w: World, call: Call, row: Booking) {
    row.paymentIntentId.None? && (call.BookReleasing? || row.StillHolding() || row.HoldHasLapsed(w.clock))
  }

  /** A Book call in flight is the only one for its booking, which still awaits its payment. */
  ghost predicate OwnersSound(w: World) {
    && (forall c :: 0 <= c < |w.calls| && Owner(w.calls[c]).Some? ==>
          Owner(w.calls[c]).value < |w.rows| && AwaitsAttach(w, w.calls[c], w.rows[Owner(w.calls[c]).value]))
    && (forall c, d :: 0 <= c < d < |w.calls| && Owner(w.calls[c]).Some? ==> Owner(w.calls[c]) != Owner(w.calls[d]))
  }

  ghost predicate CallsSound(site: Site, w: World) {
    forall c :: 0 <= c < |w.calls| ==> CallSound(site, w, w.calls[c])
  }

  /** The stored state on its own, whatever the calls in flight. */
  ghost predicate StoreSound(site: Site, w: World) {
    && SlotsUnique(w.rows)
    && RowsSound(site, w)
    && IntentsSound(site, w)
    && RowLinks(w)
    && SecretsSound(w)
    && IssuedSound(w)
    && EventsSound(w)
    && ConfirmedSound(w)
  }

  ghost predicate Inv(site: Site, w: World) {
    SiteSound(site) && StoreSound(site, w) && OwnersSound(w) && CallsSound(site, w)
  }

  /** What no step ever takes back about one row. */
  predicate RowGrows(b: Booking, b': Booking) {
    && b'.courtId == b.courtId && b'.playerId == b.playerId && b'.startsAt == b.startsAt
    && b'.amount == b.amount && b'.createdAt == b.createdAt
    && (b.cancelledAt.Some? ==> b'.cancelledAt == b.cancelledAt)
    && (b.paymentIntentId.Some? ==> b'.paymentIntentId == b.paymentIntentId)
    && (b.status == Confirmed ==> b'.status == Confirmed)
    && (b.status == Confirmed && b.StillHolding() ==> b'.StillHolding())
    && (b'.status == PendingPayment ==> b'.holdExpiresAt == b.holdExpiresAt)
  }

  ghost predicate RowsGrow(rows: seq<Booking>, rows': seq<Booking>) {
    |rows| <= |rows'| && forall b :: 0 <= b < |rows| ==> RowGrows(rows[b], rows'[b])
  }

  /** What no step ever takes back: nothing is forgotten, and the lifecycle only moves forward. */
  ghost predicate Grows(w: World, w': World) {
    && w.clock <= w'.clock
    && RowsGrow(w.rows, w'.rows)
    && (forall e :: e in w.events ==> e in w'.events && w'.events[e] == w.events[e])
    && |w.intents| <= |w'.intents|
    && (forall i :: 0 <= i < |w.intents| ==>
          w'.intents[i].bookingId == w.intents[i].bookingId && w'.intents[i].amount == w.intents[i].amount
          && (w.intents[i].paid ==> w'.intents[i].paid))
    && w.secrets <= w'.secrets
    && |w.issued| <= |w'.issued| && w'.issued[..|w.issued|] == w.issued
    && |w.calls| <= |w'.calls|
  }

  lemma GrowsTransitive(w: World, w': World, w'': World)
    requires Grows(w, w') && Grows(w', w'')
    ensures Grows(w, w'')
  {
  }

  lemma SweepGrows(rows: seq<Booking>, asOf: Instant, at: Instant)
    ensures RowsGrow(rows, Sweep(rows, asOf, at))
  {
  }

  /** What a call relies on survives growth. */
  lemma CallSoundGrows(site: Site, w: World, w': World, call: Call)
    requires Grows(w, w') && CallSound(site, w, call)
    ensures CallSound(site, w', call)
  {
  }

  lemma OpenGrows(site: Site, w: World, c: nat, b: nat, held: Booking, fate: Fate)
    ensures Grows(w, OpenStep(site, w, c, b, held, fate))
  {
  }

  lemma ReleaseGrows(w: World, c: nat, b: nat, fate: Fate)
    requires b < |w.rows| && w.rows[b].status == PendingPayment
    ensures Grows(w, ReleaseStep(w, c, b, fate))
  {
  }

  lemma AttachGrows(w: World, c: nat, b: nat, held: Booking, i: nat, fate: Fate)
    requires b < |w.rows| && w.rows[b].paymentIntentId.None?
    ensures Grows(w, AttachStep(w, c, b, held, i, fate))
  {
  }

  lemma ConfirmGrows(w: World, c: nat, ev: PaymentEvent, b: nat, fate: Fate)
    requires b < |w.rows|
    ensures Grows(w, ConfirmStep(w, c, ev, b, fate))
  {
  }

  /** The other calls stay sound and one call moves on. */
  lemma CallMoves(site: Site, w: World, w': World, c: nat, next: Call)
    requires Grows(w, w') && CallsSound(site, w) && OwnersSound(w)
    requires c < |w.calls| && w'.calls == w.calls[c := next]
    requires CallSound(site, w', next)
    requires Owner(next).Some? ==> Owner(next) == Owner(w.calls[c]) || Owner(next).value >= |w.rows|
    requires forall d :: 0 <= d < |w.calls| && d != c && Owner(w.calls[d]).Some? ==>
               AwaitsAttach(w', w.calls[d], w'.rows[Owner(w.calls[d]).value])
    requires Owner(next).Some? ==>
               Owner(next).value < |w'.rows| && AwaitsAttach(w', next, w'.rows[Owner(next).value])
    ensures CallsSound(site, w') && OwnersSound(w')
  {
    forall d | 0 <= d < |w'.calls| ensures CallSound(site, w', w'.calls[d]) {
      if d != c {
        CallSoundGrows(site, w, w', w.calls[d]);
      }
    }
  }

  /** The same where no row that a call still owns is touched. */
  lemma CallMovesOn(site: Site, w: World, w': World, c: nat, next: Call)
    requires Grows(w, w') && CallsSound(site, w) && OwnersSound(w)
    requires c < |w.calls| && w'.calls == w.calls[c := next]
    requires CallSound(site, w', next) && (Owner(next).Some? ==> Owner(next) == Owner(w.calls[c]))
    requires next.BookReleasing? || !w.calls[c].BookReleasing? || Owner(next).None?
    requires w'.clock == w.clock
    requires forall d :: 0 <= d < |w.calls| && d != c && Owner(w.calls[d]).Some? ==>
               w'.rows[Owner(w.calls[d]).value] == w.rows[Owner(w.calls[d]).value]
    requires Owner(next).Some? ==> w'.rows[Owner(next).value] == w.rows[Owner(next).value]
    ensures CallsSound(site, w') && OwnersSound(w')
  {
    CallMoves(site, w, w', c, next);
  }

  /** The calls stay sound and one that owns no booking joins them. */
  lemma CallJoins(site: Site, w: World, w': World, next: Call)
    requires Grows(w, w') && CallsSound(site, w) && OwnersSound(w)
    requires w'.calls == w.calls + [next] && w'.rows == w.rows
    requires CallSound(site, w', next) && Owner(next).None?
    ensures CallsSound(site, w') && OwnersSound(w')
  {
  }

  /** The calls stay sound while none of them moves. */
  lemma CallsWait(site: Site, w: World, w': World)
    requires Grows(w, w') && CallsSound(site, w) && OwnersSound(w)
    requires w'.calls == w.calls
    requires forall d :: 0 <= d < |w.calls| && Owner(w.calls[d]).Some? ==>
               AwaitsAttach(w', w.calls[d], w'.rows[Owner(w.calls[d]).value])
    ensures CallsSound(site, w') && OwnersSound(w')
  {
  }

  ghost predicate Keeps(site: Site, w: World, w': World) {
    Inv(site, w') && Grows(w, w')
  }

  lemma FailedCallKeeps(site: Site, w: World, c: nat, next: Call)
    requires Inv(site, w) && c < |w.calls| && CallSound(site, w, next) && Owner(next).None?
    ensures Keeps(site, w, SetCall(w, c, next))
  {
    var w' := SetCall(w, c, next);
    StoreIgnoresCalls(site, w, w'.calls);
    assert Grows(w, w');
    CallSoundGrows(site, w, w', next);
    CallMovesOn(site, w, w', c, next);
  }

  /** Moving a call touches nothing stored. */
  lemma StoreIgnoresCalls(site: Site, w: World, calls: seq<Call>)
    requires StoreSound(site, w)
    ensures StoreSound(site, w.(calls := calls))
  {
    var w' := w.(calls := calls);
    assert IssuedSound(w');
    assert ConfirmedSound(w') by {
      forall b | 0 <= b < |w.rows| && w.rows[b].status == Confirmed
        ensures exists e: nat :: RecordedFor(w', e, w.rows[b].paymentIntentId.value)
      {
        var e: nat :| RecordedFor(w, e, w.rows[b].paymentIntentId.value);
        assert RecordedFor(w', e, w.rows[b].paymentIntentId.value);
      }
    }
  }

  /** A sound new row on a free slot. */
  lemma StoreTakesHold(site: Site, w: World, hold: Booking)
    requires StoreSound(site, w) && RowSound(site, hold, w.clock)
    requires hold.status == PendingPayment && hold.paymentIntentId.None?
    requires !SlotHeld(w.rows, hold.courtId, hold.startsAt)
    ensures StoreSound(site, w.(rows := w.rows + [hold]))
  {
    var w' := w.(rows := w.rows + [hold]);
    assert SlotsUnique(w'.rows);
    assert IntentsSound(site, w');
    assert IssuedSound(w');
    assert EventsSound(w');
    assert ConfirmedSound(w') by {
      forall b | 0 <= b < |w'.rows| && w'.rows[b].status == Confirmed
        ensures w'.rows[b].paymentIntentId.Some? && exists e: nat :: RecordedFor(w', e, w'.rows[b].paymentIntentId.value)
      {
        var e: nat :| RecordedFor(w, e, w.rows[b].paymentIntentId.value);
        assert RecordedFor(w', e, w.rows[b].paymentIntentId.value);
      }
    }
  }

  lemma HoldKeeps(site: Site, w: World, c: nat, input: BookSlotInput, now: Instant, fate: Fate)
    requires Inv(site, w) && c < |w.calls| && w.calls[c] == BookReady(input, now)
    ensures Keeps(site, w, HoldStep(site, w, c, input, now, fate))
  {
    var w' := HoldStep(site, w, c, input, now, fate);
    if fate.NotApplied? || SlotHeld(w.rows, input.courtId, input.startsAt) {
      FailedCallKeeps(site, w, c, w'.calls[c]);
    } else {
      var hold := NewHold(input, PriceOf(site, input.courtId), now + PAYMENT_HOLD, w.clock);
      assert w'.rows == w.rows + [hold];
      assert RowSound(site, hold, w.clock) by {
        assert CallSound(site, w, w.calls[c]);
        var cv := site.courts[input.courtId];
        BookableMeansOnGrid(cv.court, input.startsAt, cv.venue.zone, now);
      }
      StoreTakesHold(site, w, hold);
      StoreIgnoresCalls(site, w.(rows := w'.rows), w'.calls);
      assert Grows(w, w');
      CallMoves(site, w, w', c, w'.calls[c]);
    }
  }

  /** Rows whose status and intent did not move keep the events and the confirmations in step. */
  lemma LogKeeps(w: World, w': World)
    requires IssuedSound(w) && EventsSound(w) && ConfirmedSound(w)
    requires |w'.rows| == |w.rows| && |w.intents| <= |w'.intents| && w'.intents[..|w.intents|] == w.intents
    requires w'.events == w.events && |w.issued| <= |w'.issued| && w'.issued[..|w.issued|] == w.issued
    requires forall b :: 0 <= b < |w.rows| ==> w'.rows[b].status == w.rows[b].status
    requires forall b :: 0 <= b < |w.rows| && w.rows[b].paymentIntentId.Some? ==>
               w'.rows[b].paymentIntentId == w.rows[b].paymentIntentId
    ensures EventsSound(w') && ConfirmedSound(w')
  {
    forall e | 0 <= e < |w.issued| ensures w'.issued[e] == w.issued[e] {
      assert w'.issued[..|w.issued|][e] == w.issued[e];
    }
    forall i | 0 <= i < |w.intents| ensures w'.intents[i] == w.intents[i] {
      assert w'.intents[..|w.intents|][i] == w.intents[i];
    }
    forall b | 0 <= b < |w'.rows| && w'.rows[b].status == Confirmed
      ensures w'.rows[b].paymentIntentId.Some? && exists e: nat :: RecordedFor(w', e, w'.rows[b].paymentIntentId.value)
    {
      var e: nat :| RecordedFor(w, e, w.rows[b].paymentIntentId.value);
      assert RecordedFor(w', e, w'.rows[b].paymentIntentId.value);
    }
  }

  lemma StoreOpens(site: Site, w: World, b: nat)
    requires StoreSound(site, w) && b < |w.rows|
    ensures StoreSound(site, w.(intents := w.intents + [Intent(b, PriceOf(site, w.rows[b].courtId), false)]))
  {
    var w' := w.(intents := w.intents + [Intent(b, PriceOf(site, w.rows[b].courtId), false)]);
    assert IssuedSound(w');
    LogKeeps(w, w');
  }

  lemma OpenKeeps(site: Site, w: World, c: nat, b: nat, held: Booking, fate: Fate)
    requires Inv(site, w) && c < |w.calls| && w.calls[c] == BookHeld(b, held)
    ensures Keeps(site, w, OpenStep(site, w, c, b, held, fate))
  {
    var w' := OpenStep(site, w, c, b, held, fate);
    assert CallSound(site, w, w.calls[c]) && Owner(w.calls[c]) == Some(b);
    if !fate.NotApplied? {
      StoreOpens(site, w, b);
    }
    StoreIgnoresCalls(site, w.(intents := w'.intents), w'.calls);
    OpenGrows(site, w, c, b, held, fate);
    CallMovesOn(site, w, w', c, w'.calls[c]);
  }

  lemma StoreReleases(site: Site, w: World, b: nat)
    requires StoreSound(site, w) && b < |w.rows|
    ensures StoreSound(site, w.(rows := SetCancelled(w.rows, b, w.clock)))
  {
    var w' := w.(rows := SetCancelled(w.rows, b, w.clock));
    assert SlotsUnique(w'.rows);
    assert IssuedSound(w');
    LogKeeps(w, w');
  }

  lemma ReleaseKeeps(site: Site, w: World, c: nat, b: nat, fate: Fate)
    requires Inv(site, w) && c < |w.calls| && w.calls[c] == BookReleasing(b)
    ensures Keeps(site, w, ReleaseStep(w, c, b, fate))
  {
    var w' := ReleaseStep(w, c, b, fate);
    assert Owner(w.calls[c]) == Some(b) && RowSound(site, w.rows[b], w.clock);
    if !fate.NotApplied? {
      StoreReleases(site, w, b);
    }
    StoreIgnoresCalls(site, w.(rows := w'.rows), w'.calls);
    ReleaseGrows(w, c, b, fate);
    CallMovesOn(site, w, w', c, w'.calls[c]);
  }

  lemma StoreAttaches(site: Site, w: World, b: nat, i: nat)
    requires StoreSound(site, w) && b < |w.rows| && w.rows[b].paymentIntentId.None?
    requires i < |w.intents| && w.intents[i].bookingId == b
    ensures SetIntent(w.rows, b, i).Some?
    ensures StoreSound(site, w.(rows := SetIntent(w.rows, b, i).value))
    ensures StoreSound(site, w.(rows := SetIntent(w.rows, b, i).value, secrets := w.secrets + {i}))
  {
    assert !IntentTaken(w.rows, b, i);
    var w' := w.(rows := SetIntent(w.rows, b, i).value);
    assert SlotsUnique(w'.rows);
    assert RowsSound(site, w') by {
      assert RowSound(site, w.rows[b], w.clock);
    }
    assert IssuedSound(w');
    LogKeeps(w, w');
    StoreShows(site, w', i);
  }

  /** A secret of an attached intent may go out. */
  lemma StoreShows(site: Site, w: World, i: nat)
    requires StoreSound(site, w) && Attached(w, i)
    ensures StoreSound(site, w.(secrets := w.secrets + {i}))
  {
    var w' := w.(secrets := w.secrets + {i});
    assert IssuedSound(w');
    LogKeeps(w, w');
  }

  lemma AttachKeeps(site: Site, w: World, c: nat, b: nat, held: Booking, i: nat, fate: Fate)
    requires Inv(site, w) && c < |w.calls| && w.calls[c] == BookOpened(b, held, i)
    ensures Keeps(site, w, AttachStep(w, c, b, held, i, fate))
  {
    var w' := AttachStep(w, c, b, held, i, fate);
    assert CallSound(site, w, w.calls[c]) && Owner(w.calls[c]) == Some(b);
    StoreAttaches(site, w, b, i);
    if fate.NotApplied? {
      FailedCallKeeps(site, w, c, w'.calls[c]);
    } else {
      StoreIgnoresCalls(site, w.(rows := w'.rows, secrets := w'.secrets), w'.calls);
      AttachGrows(w, c, b, held, i, fate);
      CallMoves(site, w, w', c, w'.calls[c]);
    }
  }

  lemma LogConfirms(w: World, ev: PaymentEvent, b: nat)
    requires RowLinks(w) && IssuedSound(w) && EventsSound(w) && ConfirmedSound(w)
    requires EventSound(w, ev) && ev.kind == PaymentSucceeded && ev.id !in w.events
    requires b < |w.rows| && w.rows[b].paymentIntentId == Some(ev.intentId)
    ensures EventsSound(ConfirmPaid(w, ev, b)) && ConfirmedSound(ConfirmPaid(w, ev, b))
  {
    var w' := ConfirmPaid(w, ev, b);
    forall e | e in w'.events
      ensures e < |w'.issued| && w'.events[e] == PaymentSucceeded && w'.issued[e].kind == PaymentSucceeded
              && Attached(w', w'.issued[e].intentId)
              && w'.rows[w'.intents[w'.issued[e].intentId].bookingId].status == Confirmed
    {
      assert e == ev.id || e in w.events;
    }
    forall d | 0 <= d < |w'.rows| && w'.rows[d].status == Confirmed
      ensures w'.rows[d].paymentIntentId.Some? && exists e: nat :: RecordedFor(w', e, w'.rows[d].paymentIntentId.value)
    {
      if d == b {
        assert RecordedFor(w', ev.id, ev.intentId);
      } else {
        var e: nat :| RecordedFor(w, e, w.rows[d].paymentIntentId.value);
        assert RecordedFor(w', e, w.rows[d].paymentIntentId.value);
      }
    }
  }

  lemma RowsConfirm(site: Site, w: World, b: nat)
    requires RowsSound(site, w) && SlotsUnique(w.rows) && b < |w.rows| && w.rows[b].paymentIntentId.Some?
    ensures var w' := w.(rows := SetConfirmed(w.rows, b));
            RowsSound(site, w') && SlotsUnique(w'.rows)
  {
  }

  lemma LinksConfirm(site: Site, w: World, b: nat)
    requires IntentsSound(site, w) && RowLinks(w) && SecretsSound(w) && IssuedSound(w) && b < |w.rows|
    ensures var w' := w.(rows := SetConfirmed(w.rows, b));
            IntentsSound(site, w') && RowLinks(w') && SecretsSound(w') && IssuedSound(w')
  {
  }

  lemma StoreConfirms(site: Site, w: World, ev: PaymentEvent, b: nat)
    requires StoreSound(site, w) && EventSound(w, ev) && ev.kind == PaymentSucceeded
    requires b < |w.rows| && w.rows[b].paymentIntentId == Some(ev.intentId)
    ensures StoreSound(site, ConfirmPaid(w, ev, b))
  {
    if ev.id !in w.events {
      var rows := w.(rows := SetConfirmed(w.rows, b));
      RowsConfirm(site, w, b);
      LinksConfirm(site, w, b);
      LogConfirms(w, ev, b);
      TablesIgnoreEvents(site, rows, w.events[ev.id := ev.kind]);
      assert ConfirmPaid(w, ev, b) == rows.(events := w.events[ev.id := ev.kind]);
    }
  }

  lemma TablesIgnoreEvents(site: Site, w: World, events: map<nat, EventKind>)
    requires SlotsUnique(w.rows) && RowsSound(site, w) && IntentsSound(site, w) && RowLinks(w) && SecretsSound(w) && IssuedSound(w)
    ensures var w' := w.(events := events);
            && SlotsUnique(w'.rows) && RowsSound(site, w') && IntentsSound(site, w') && RowLinks(w')
            && SecretsSound(w') && IssuedSound(w')
  {
  }

  lemma ConfirmAnswers(site: Site, w: World, c: nat, ev: PaymentEvent, b: nat, fate: Fate)
    requires EventSound(w, ev) && c < |w.calls| && b < |w.rows|
    ensures CallSound(site, ConfirmStep(w, c, ev, b, fate), ConfirmStep(w, c, ev, b, fate).calls[c])
  {
  }

  /** A row that carries a payment is no longer any Book call's to attach one to. */
  lemma AttachedUnowned(w: World, b: nat)
    requires OwnersSound(w) && b < |w.rows| && w.rows[b].paymentIntentId.Some?
    ensures forall d :: 0 <= d < |w.calls| ==> Owner(w.calls[d]) != Some(b)
  {
  }

  lemma ConfirmMoves(site: Site, w: World, c: nat, ev: PaymentEvent, b: nat, fate: Fate)
    requires CallsSound(site, w) && OwnersSound(w) && c < |w.calls| && w.calls[c] == HookFound(ev, b)
    requires EventSound(w, ev) && b < |w.rows| && w.rows[b].paymentIntentId.Some?
    ensures CallsSound(site, ConfirmStep(w, c, ev, b, fate)) && OwnersSound(ConfirmStep(w, c, ev, b, fate))
  {
    var w' := ConfirmStep(w, c, ev, b, fate);
    AttachedUnowned(w, b);
    ConfirmGrows(w, c, ev, b, fate);
    ConfirmAnswers(site, w, c, ev, b, fate);
    CallMovesOn(site, w, w', c, w'.calls[c]);
  }

  lemma ConfirmKeeps(site: Site, w: World, c: nat, ev: PaymentEvent, b: nat, fate: Fate)
    requires Inv(site, w) && c < |w.calls| && w.calls[c] == HookFound(ev, b)
    ensures Keeps(site, w, ConfirmStep(w, c, ev, b, fate))
  {
    var w' := ConfirmStep(w, c, ev, b, fate);
    assert EventSound(w, ev) && ev.kind == PaymentSucceeded && b < |w.rows| && w.rows[b].paymentIntentId == Some(ev.intentId) by {
      assert CallSound(site, w, w.calls[c]);
    }
    assert StoreSound(site, w') by {
      if !fate.NotApplied? {
        StoreConfirms(site, w, ev, b);
        StoreIgnoresCalls(site, ConfirmPaid(w, ev, b), w'.calls);
      } else {
        StoreIgnoresCalls(site, w, w'.calls);
      }
    }
    ConfirmGrows(w, c, ev, b, fate);
    ConfirmMoves(site, w, c, ev, b, fate);
  }

  lemma SweepKeeps(site: Site, w: World, asOf: Instant)
    requires Inv(site, w) && asOf <= w.clock
    ensures Keeps(site, w, w.(rows := Sweep(w.rows, asOf, w.clock)))
  {
    var w' := w.(rows := Sweep(w.rows, asOf, w.clock));
    SweepGrows(w.rows, asOf, w.clock);
    assert SlotsUnique(w'.rows);
    forall b | 0 <= b < |w.rows| ensures RowSound(site, w'.rows[b], w.clock) {
      assert RowSound(site, w.rows[b], w.clock);
    }
    assert IssuedSound(w');
    LogKeeps(w, w');
    assert Grows(w, w');
    CallsWait(site, w, w');
  }

  lemma StorePays(site: Site, w: World, i: nat)
    requires StoreSound(site, w) && i in w.secrets && i < |w.intents|
    ensures StoreSound(site, w.(intents := w.intents[i := w.intents[i].(paid := true)]))
  {
    var w' := w.(intents := w.intents[i := w.intents[i].(paid := true)]);
    assert IssuedSound(w');
    assert EventsSound(w');
    assert ConfirmedSound(w') by {
      forall b | 0 <= b < |w'.rows| && w'.rows[b].status == Confirmed
        ensures exists e: nat :: RecordedFor(w', e, w'.rows[b].paymentIntentId.value)
      {
        var e: nat :| RecordedFor(w, e, w.rows[b].paymentIntentId.value);
        assert RecordedFor(w', e, w.rows[b].paymentIntentId.value);
      }
    }
  }

  lemma PayKeeps(site: Site, w: World, i: nat)
    requires Inv(site, w) && i in w.secrets && i < |w.intents|
    ensures Keeps(site, w, w.(intents := w.intents[i := w.intents[i].(paid := true)]))
  {
    var w' := w.(intents := w.intents[i := w.intents[i].(paid := true)]);
    StorePays(site, w, i);
    assert Grows(w, w');
    CallsWait(site, w, w');
  }

  lemma IssueKeeps(site: Site, w: World, kind: EventKind, i: nat)
    requires Inv(site, w) && i < |w.intents| && (kind == PaymentSucceeded ==> w.intents[i].paid)
    ensures Keeps(site, w, w.(issued := w.issued + [PaymentEvent(|w.issued|, kind, i)]))
  {
    var w' := w.(issued := w.issued + [PaymentEvent(|w.issued|, kind, i)]);
    assert IssuedSound(w');
    LogKeeps(w, w');
    assert Grows(w, w');
    CallsWait(site, w, w');
  }

  lemma AdvanceKeeps(site: Site, w: World, to: Instant)
    requires Inv(site, w) && to >= w.clock
    ensures Keeps(site, w, w.(clock := to))
  {
    var w' := w.(clock := to);
    forall b | 0 <= b < |w.rows| ensures RowSound(site, w'.rows[b], w'.clock) {
      assert RowSound(site, w.rows[b], w.clock);
    }
    assert IssuedSound(w');
    LogKeeps(w, w');
    assert Grows(w, w');
    CallsWait(site, w, w');
  }

  lemma JoinKeeps(site: Site, w: World, next: Call)
    requires Inv(site, w) && CallSound(site, w, next) && Owner(next).None?
    ensures Keeps(site, w, w.(calls := w.calls + [next]))
  {
    var w' := w.(calls := w.calls + [next]);
    StoreIgnoresCalls(site, w, w'.calls);
    assert Grows(w, w');
    CallSoundGrows(site, w, w', next);
    CallJoins(site, w, w', next);
  }

  /**
   What the lookup of a genuine event tells: a failed payment is nothing to do; a success is always
   about a booking that carries its payment, and it is that booking's slot that decides.
   */
  lemma LookupTells(site: Site, w: World, e: nat, readOk: bool)
    requires Inv(site, w) && e < |w.issued|
    ensures var ev, next := w.issued[e], Lookup(w.rows, w.issued[e], readOk);
            if ev.kind == PaymentFailed then next == HookDone(ev, None)
            else if !readOk then next == HookDone(ev, Some(StorageFailed))
            else
              Attached(w, ev.intentId)
              && var b := w.intents[ev.intentId].bookingId;
                 next == if w.rows[b].cancelledAt.Some? then HookDone(ev, Some(HoldLapsed)) else HookFound(ev, b)
  {
    var ev := w.issued[e];
    assert EventSound(w, ev);
    if ev.kind == PaymentSucceeded {
      assert Attached(w, ev.intentId);
      var found := FindByIntent(w.rows, ev.intentId);
      assert found.Some?;
      assert w.rows[found.value].paymentIntentId.Some?;
    }
  }

  lemma LookupSound(site: Site, w: World, e: nat, readOk: bool)
    requires Inv(site, w) && e < |w.issued|
    ensures CallSound(site, w, Lookup(w.rows, w.issued[e], readOk))
    ensures Owner(Lookup(w.rows, w.issued[e], readOk)).None?
  {
    LookupTells(site, w, e, readOk);
    assert EventSound(w, w.issued[e]);
  }

  lemma FinishResumeKeeps(site: Site, w: World, c: nat, b: nat, held: Booking, replyOk: bool)
    requires Inv(site, w) && c < |w.calls| && w.calls[c] == ResumeReady(b, held)
    ensures Keeps(site, w, FinishResumeStep(w, c, b, held, replyOk))
  {
    var w' := FinishResumeStep(w, c, b, held, replyOk);
    assert CallSound(site, w, w.calls[c]);
    if w'.secrets == w.secrets + {} && w'.calls[c].outcome.Err? {
      FailedCallKeeps(site, w, c, w'.calls[c]);
    } else {
      var shown := w.(secrets := w'.secrets);
      StoreShows(site, w, held.paymentIntentId.value);
      StoreIgnoresCalls(site, shown, w'.calls);
      assert Grows(w, w');
      CallMovesOn(site, w, w', c, w'.calls[c]);
    }
  }

  lemma JudgeKeeps(site: Site, w: World, c: nat)
    requires Inv(site, w) && c < |w.calls| && w.calls[c].ResumeRead?
    ensures Keeps(site, w, Step(site, w, JudgeResume(c)))
  {
    assert CallSound(site, w, w.calls[c]);
    FailedCallKeeps(site, w, c, Judge(w.calls[c].booking, w.calls[c].held, w.clock));
  }

  predicate OfBook(a: Action) {
    a.BeginBook? || a.Hold? || a.OpenPayment? || a.Release? || a.Attach?
  }

  predicate OfWebhook(a: Action) {
    a.Deliver? || a.Confirm?
  }

  predicate OfResume(a: Action) {
    a.BeginResume? || a.JudgeResume? || a.FinishResume?
  }

  lemma BookStepKeeps(site: Site, w: World, a: Action)
    requires Inv(site, w) && OfBook(a) && Step(site, w, a) != w
    ensures Keeps(site, w, Step(site, w, a))
  {
    match a
    case BeginBook(input) => JoinKeeps(site, w, Step(site, w, a).calls[|w.calls|]);
    case Hold(c, fate) => HoldKeeps(site, w, c, w.calls[c].input, w.calls[c].now, fate);
    case OpenPayment(c, fate) => OpenKeeps(site, w, c, w.calls[c].booking, w.calls[c].held, fate);
    case Release(c, fate) => ReleaseKeeps(site, w, c, w.calls[c].booking, fate);
    case Attach(c, fate) => AttachKeeps(site, w, c, w.calls[c].booking, w.calls[c].held, w.calls[c].intent, fate);
  }

  lemma WebhookStepKeeps(site: Site, w: World, a: Action)
    requires Inv(site, w) && OfWebhook(a) && Step(site, w, a) != w
    ensures Keeps(site, w, Step(site, w, a))
  {
    match a
    case Deliver(e, readOk) =>
      LookupSound(site, w, e, readOk);
      JoinKeeps(site, w, Lookup(w.rows, w.issued[e], readOk));
    case Confirm(c, fate) => ConfirmKeeps(site, w, c, w.calls[c].event, w.calls[c].booking, fate);
  }

  lemma ReadForResumeSound(site: Site, w: World, player: Id, b: nat, readOk: bool)
    ensures CallSound(site, w, ReadForResume(w, player, b, readOk)) && Owner(ReadForResume(w, player, b, readOk)).None?
  {
  }

  lemma BeginResumeKeeps(site: Site, w: World, player: Id, b: nat, readOk: bool)
    requires Inv(site, w)
    ensures Keeps(site, w, Step(site, w, BeginResume(player, b, readOk)))
  {
    ReadForResumeSound(site, w, player, b, readOk);
    JoinKeeps(site, w, ReadForResume(w, player, b, readOk));
  }

  lemma FinishKeeps(site: Site, w: World, c: nat, replyOk: bool)
    requires Inv(site, w) && c < |w.calls| && w.calls[c].ResumeReady?
    ensures Keeps(site, w, Step(site, w, FinishResume(c, replyOk)))
  {
    FinishResumeKeeps(site, w, c, w.calls[c].booking, w.calls[c].held, replyOk);
  }

  lemma ResumeStepKeeps(site: Site, w: World, a: Action)
    requires Inv(site, w) && OfResume(a) && Step(site, w, a) != w
    ensures Keeps(site, w, Step(site, w, a))
  {
    match a
    case BeginResume(player, b, readOk) => BeginResumeKeeps(site, w, player, b, readOk);
    case JudgeResume(c) => JudgeKeeps(site, w, c);
    case FinishResume(c, replyOk) => FinishKeeps(site, w, c, replyOk);
  }

  lemma OutsideStepKeeps(site: Site, w: World, a: Action)
    requires Inv(site, w) && !OfBook(a) && !OfWebhook(a) && !OfResume(a) && Step(site, w, a) != w
    ensures Keeps(site, w, Step(site, w, a))
  {
    match a
    case Advance(to) => AdvanceKeeps(site, w, to);
    case Pay(i) => PayKeeps(site, w, i);
    case Issue(kind, i) => IssueKeeps(site, w, kind, i);
    case SweepPass(asOf, _) => SweepKeeps(site, w, asOf);
  }

  lemma GrowsReflexive(w: World)
    ensures Grows(w, w)
  {
  }

  /** Every step of anybody keeps the invariant and takes nothing back. */
  lemma StepKeeps(site: Site, w: World, a: Action)
    requires Inv(site, w)
    ensures Keeps(site, w, Step(site, w, a))
  {
    if Step(site, w, a) == w {
      GrowsReflexive(w);
    } else if OfBook(a) {
      BookStepKeeps(site, w, a);
    } else if OfWebhook(a) {
      WebhookStepKeeps(site, w, a);
    } else if OfResume(a) {
      ResumeStepKeeps(site, w, a);
    } else {
      OutsideStepKeeps(site, w, a);
    }
  }

  /** What a step leaves of one row. */
  lemma StepForward(site: Site, w: World, a: Action, b: nat)
    requires Inv(site, w) && b < |w.rows|
    ensures b < |Step(site, w, a).rows| && RowGrows(w.rows[b], Step(site, w, a).rows[b])
  {
    StepKeeps(site, w, a);
  }

  /** So does every run, from any sound state and however its steps interleave. */
  lemma {:induction false} RunKeeps(site: Site, w: World, acts: seq<Action>)
    requires Inv(site, w)
    ensures Keeps(site, w, Run(site, w, acts))
  {
    if acts == [] {
      GrowsReflexive(w);
    } else {
      var before := Run(site, w, acts[..|acts| - 1]);
      RunKeeps(site, w, acts[..|acts| - 1]);
      StepKeeps(site, before, acts[|acts| - 1]);
      GrowsTransitive(w, before, Run(site, w, acts));
    }
  }

  lemma InitSound(site: Site, clock: Instant)
    requires SiteSound(site)
    ensures Inv(site, Init(clock))
  {
  }

  /** Every state any interleaving can reach is sound. */
  lemma ReachableSound(site: Site, clock: Instant, acts: seq<Action>)
    requires SiteSound(site)
    ensures Inv(site, Run(site, Init(clock), acts))
  {
    InitSound(site, clock);
    RunKeeps(site, Init(clock), acts);
  }
}
