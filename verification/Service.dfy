/**
 The booking use case as it runs: each call works through the repository and the gateway step by
 step, and between any two of its steps everybody else may take any number of theirs.

 The methods refine the step system: whatever they do is a run of it, so what holds of every run
 holds of them.
 */
module Service {
  import opened Wrappers
  import opened Calendar
  import opened Errors
  import opened Courts
  import opened Grid
  import opened Bookings
  import opened Payments
  import opened Protocol
  import opened Invariant
  import opened LateConfirm
  import opened Outcomes
  import opened Repository

  class Gateway {
    var intents: seq<Intent>
    var issued: seq<PaymentEvent>

    constructor ()
      ensures intents == [] && issued == []
    {
      intents := [];
      issued := [];
    }

    /** Opens a payment for a held slot. */
    method CreatePayment(bookingId: nat, amount: int, fate: Fate) returns (payment: Result<nat, Error>)
      modifies this`intents
      ensures intents == if fate.NotApplied? then old(intents) else old(intents) + [Intent(bookingId, amount, false)]
      ensures payment == if fate.Applied? then Ok(|old(intents)|) else Err(GatewayFailed)
    {
      if !fate.NotApplied? {
        intents := intents + [Intent(bookingId, amount, false)];
      }
      payment := if fate.Applied? then Ok(|intents| - 1) else Err(GatewayFailed);
    }

    /** Reads an open payment back; an id the gateway never issued is a failure. */
    method GetPayment(intent: Option<nat>, replyOk: bool) returns (payment: Result<nat, Error>)
      ensures payment == if intent.Some? && intent.value < |intents| && replyOk then Ok(intent.value) else Err(GatewayFailed)
    {
      payment := if intent.Some? && intent.value < |intents| && replyOk then Ok(intent.value) else Err(GatewayFailed);
    }
  }

  /** The step moves this call on. */
  predicate Drives(a: Action, c: nat) {
    (a.Hold? || a.OpenPayment? || a.Release? || a.Attach? || a.Confirm? || a.JudgeResume? || a.FinishResume?) && a.call == c
  }

  /** Steps of everybody but the call. */
  predicate Others(acts: seq<Action>, c: nat) {
    forall k :: 0 <= k < |acts| ==> !Drives(acts[k], c)
  }

  lemma OthersLeaveCallAlone(site: Site, w: World, a: Action, c: nat)
    requires c < |w.calls| && !Drives(a, c)
    ensures c < |Step(site, w, a).calls| && Step(site, w, a).calls[c] == w.calls[c]
  {
  }

  lemma {:induction false} OthersRun(site: Site, w: World, acts: seq<Action>, c: nat)
    requires c < |w.calls| && Others(acts, c)
    ensures c < |Run(site, w, acts).calls| && Run(site, w, acts).calls[c] == w.calls[c]
  {
    if acts != [] {
      var init := acts[..|acts| - 1];
      OthersRun(site, w, init, c);
      OthersLeaveCallAlone(site, Run(site, w, init), acts[|acts| - 1], c);
    }
  }

  /** The gateway and storage outcomes one Book call meets; the last is of the attach or of the release. */
  datatype BookFates = BookFates(hold: Fate, open: Fate, settle: Fate)

  /** What everybody else does before each of the three writes. */
  datatype Interleaving = Interleaving(beforeHold: seq<Action>, beforeOpen: seq<Action>, beforeSettle: seq<Action>)

  /** A call that lets go of a booking leaves it without an owner. */
  lemma LettingGo(w: World, c: nat, b: nat, w': World)
    requires OwnersSound(w) && c < |w.calls| && Owner(w.calls[c]) == Some(b)
    requires |w'.calls| == |w.calls| && w'.calls == w.calls[c := w'.calls[c]] && Owner(w'.calls[c]).None?
    ensures Unowned(w', b)
  {
  }

  /** What the owner of a booking knows of it at any later moment. */
  lemma OwnedMeanwhile(site: Site, w: World, c: nat)
    requires Inv(site, w) && c < |w.calls| && (w.calls[c].BookHeld? || w.calls[c].BookOpened?)
    ensures var b := w.calls[c].booking;
            && b < |w.rows| && w.rows[b].paymentIntentId.None? && w.rows[b].status == PendingPayment
            && SameHold(w.rows[b], w.calls[c].held)
            && (w.calls[c].BookOpened? ==>
                  w.calls[c].intent < |w.intents| && w.intents[w.calls[c].intent].bookingId == b)
            && (w.rows[b].StillHolding() || w.rows[b].HoldHasLapsed(w.clock))
  {
  }

  /** What the attach leaves behind: the payment on the row exactly when it took effect. */
  lemma AfterAttach(w: World, c: nat, fate: Fate)
    requires c < |w.calls| && w.calls[c].BookOpened? && w.calls[c].booking < |w.rows|
    requires SetIntent(w.rows, w.calls[c].booking, w.calls[c].intent).Some?
    ensures var b, after := w.calls[c].booking, AttachStep(w, c, w.calls[c].booking, w.calls[c].held, w.calls[c].intent, fate);
            && after.clock == w.clock && |after.rows| == |w.rows|
            && after.rows[b] == (if fate.NotApplied? then w.rows[b] else w.rows[b].(paymentIntentId := Some(w.calls[c].intent)))
            && after.calls == w.calls[c := after.calls[c]] && after.calls[c].BookDone?
            && (after.calls[c].outcome.Ok? <==> fate.Applied?)
            && (!fate.Applied? ==> after.calls[c].outcome == Err(StorageFailed))
  {
  }

  lemma ReleaseGivesBack(site: Site, w: World, c: nat, fate: Fate)
    requires c < |w.calls| && w.calls[c].BookReleasing? && w.calls[c].booking < |w.rows|
    requires w.rows[w.calls[c].booking].status == PendingPayment && w.rows[w.calls[c].booking].paymentIntentId.None?
    ensures var b, after := w.calls[c].booking, Step(site, w, Release(c, fate));
            && after == ReleaseStep(w, c, b, fate) && b < |after.rows| && RowGrows(w.rows[b], after.rows[b])
            && after.rows[b].status == PendingPayment && after.rows[b].paymentIntentId.None?
            && (!fate.NotApplied? ==> !after.rows[b].StillHolding())
            && |after.calls| == |w.calls| && after.calls == w.calls[c := after.calls[c]] && after.calls[c].BookDone?
  {
  }

  /** What giving the slot back leaves behind: no payment, and no hold either when the release took effect. */
  lemma AfterRelease(site: Site, w: World, c: nat, fate: Fate)
    requires Inv(site, w) && c < |w.calls| && w.calls[c].BookReleasing?
    ensures var b := w.calls[c].booking;
            var after := Step(site, w, Release(c, fate));
            && Inv(site, after) && b < |w.rows| && b < |after.rows| && Unowned(after, b)
            && RowGrows(w.rows[b], after.rows[b]) && after.rows[b].status == PendingPayment
            && after.rows[b].paymentIntentId.None?
            && (!fate.NotApplied? ==> !after.rows[b].StillHolding())
  {
    var b := w.calls[c].booking;
    assert Owner(w.calls[c]) == Some(b);
    assert RowSound(site, w.rows[b], w.clock);
    ReleaseKeeps(site, w, c, b, fate);
    ReleaseGivesBack(site, w, c, fate);
    LettingGo(w, c, b, Step(site, w, Release(c, fate)));
  }

  /** The steps of a Book call that holds, and of everybody else, from the hold on. */
  function PayTrace(c: nat, fates: BookFates, others: Interleaving): seq<Action> {
    (others.beforeOpen + [OpenPayment(c, fates.open)])
    + (others.beforeSettle + [if fates.open.Applied? then Attach(c, fates.settle) else Release(c, fates.settle)])
  }

  /** No webhook has found the booking and no secret of its payment is out or on its way. */
  predicate Unheard(w: World, b: nat)
    requires b < |w.rows|
  {
    !BetweenLookupAndConfirm(w, b) && !SecretOnItsWay(w, b)
    && (w.rows[b].paymentIntentId.Some? ==> w.rows[b].paymentIntentId.value !in w.secrets)
  }

  /** Of a booking without a payment nobody has heard, and an attach or a release that is not reported tells nobody. */
  lemma StaysUnheard(site: Site, w: World, c: nat, b: nat, a: Action)
    requires Inv(site, w) && b < |w.rows| && w.rows[b].paymentIntentId.None? && c < |w.calls|
    requires || (a.Attach? && !a.fate.Applied? && w.calls[c].BookOpened? && w.calls[c].booking == b)
             || (a.Release? && w.calls[c] == BookReleasing(b))
    requires a.call == c
    ensures b < |Step(site, w, a).rows| && Unheard(Step(site, w, a), b)
  {
    assert forall d :: 0 <= d < |w.calls| ==> CallSound(site, w, w.calls[d]);
    var w' := Step(site, w, a);
    assert w'.secrets == w.secrets && (forall d :: 0 <= d < |w.calls| && d != c ==> w'.calls[d] == w.calls[d]);
  }

  /** Where a Book call that held its slot ends, whatever everybody else did meanwhile. */
  ghost predicate PaySettled(site: Site, w: World, c: nat, booking: nat, held: Booking, fates: BookFates) {
    && Inv(site, w) && booking < |w.rows| && Unowned(w, booking)
    && SameHold(w.rows[booking], held) && w.rows[booking].status == PendingPayment
    // The row carries a payment exactly when the attach took effect.
    && (w.rows[booking].paymentIntentId.Some? <==> fates.open.Applied? && !fates.settle.NotApplied?)
    // With a payment open the slot stays held until the hold runs out; without one it is given back.
    && (fates.open.Applied? ==> w.rows[booking].StillHolding() || w.rows[booking].HoldHasLapsed(w.clock))
    && (!fates.open.Applied? && !fates.settle.NotApplied? ==> !w.rows[booking].StillHolding())
    && c < |w.calls| && w.calls[c].BookDone?
    && (w.calls[c].outcome.Ok? <==> fates.open.Applied? && fates.settle.Applied?)
    && (w.calls[c].outcome.Ok? ==>
          var out := w.calls[c].outcome.value;
          out.booking == booking && out.snapshot == held.(paymentIntentId := Some(out.secret))
          && w.rows[booking].paymentIntentId == Some(out.secret))
    && (w.calls[c].outcome.Err? ==>
          w.calls[c].outcome == Err(if fates.open.Applied? then StorageFailed
                                    else if fates.settle.Applied? then GatewayFailed else GatewayAndStorageFailed))
    // A payment whose attach was not reported is one that nobody has heard of yet.
    && (!fates.settle.Applied? ==> Unheard(w, booking))
  }

  lemma ReleasingUnpaid(site: Site, w: World, c: nat)
    requires Inv(site, w) && c < |w.calls| && w.calls[c].BookReleasing?
    ensures w.calls[c].booking < |w.rows| && w.rows[w.calls[c].booking].paymentIntentId.None?
  {
    assert Owner(w.calls[c]) == Some(w.calls[c].booking);
  }

  lemma OpenLeads(site: Site, w: World, c: nat, booking: nat, held: Booking, fate: Fate)
    requires Inv(site, w) && c < |w.calls| && w.calls[c] == BookHeld(booking, held)
    ensures var asked := Step(site, w, OpenPayment(c, fate));
            && Inv(site, asked) && c < |asked.calls| && booking < |w.rows| && SameHold(w.rows[booking], held)
            && asked.rows == w.rows
            && asked.calls[c] == (if fate.Applied? then BookOpened(booking, held, |w.intents|) else BookReleasing(booking))
  {
    assert CallSound(site, w, w.calls[c]);
    StepKeeps(site, w, OpenPayment(c, fate));
  }

  lemma SameHoldGrows(row: Booking, row': Booking, held: Booking)
    requires SameHold(row, held) && RowGrows(row, row')
    ensures SameHold(row', held)
  {
  }

  lemma SettleLeads(site: Site, w: World, c: nat, booking: nat, held: Booking, fates: BookFates)
    requires Inv(site, w) && c < |w.calls| && booking < |w.rows| && SameHold(w.rows[booking], held)
    requires if fates.open.Applied? then w.calls[c].BookOpened? && w.calls[c].held == held && w.calls[c].booking == booking
             else w.calls[c] == BookReleasing(booking)
    ensures PaySettled(site,
              Step(site, w, if fates.open.Applied? then Attach(c, fates.settle) else Release(c, fates.settle)),
              c, booking, held, fates)
  {
    if fates.open.Applied? {
      OwnedMeanwhile(site, w, c);
      StoreAttaches(site, w, booking, w.calls[c].intent);
      AfterAttach(w, c, fates.settle);
      AttachKeeps(site, w, c, booking, held, w.calls[c].intent, fates.settle);
      LettingGo(w, c, booking, Step(site, w, Attach(c, fates.settle)));
      if !fates.settle.Applied? {
        StaysUnheard(site, w, c, booking, Attach(c, fates.settle));
      }
    } else {
      AfterRelease(site, w, c, fates.settle);
      ReleasingUnpaid(site, w, c);
      StaysUnheard(site, w, c, booking, Release(c, fates.settle));
      SameHoldGrows(w.rows[booking], Step(site, w, Release(c, fates.settle)).rows[booking], held);
    }
  }

  lemma PayOutcome(site: Site, w: World, c: nat, booking: nat, held: Booking, fates: BookFates, others: Interleaving)
    requires Inv(site, w) && c < |w.calls| && w.calls[c] == BookHeld(booking, held)
    requires Others(others.beforeOpen, c) && Others(others.beforeSettle, c)
    ensures PaySettled(site, Run(site, w, PayTrace(c, fates, others)), c, booking, held, fates)
  {
    var w1 := Run(site, w, others.beforeOpen);
    RunKeeps(site, w, others.beforeOpen);
    OthersRun(site, w, others.beforeOpen, c);
    var asked := Step(site, w1, OpenPayment(c, fates.open));
    OpenLeads(site, w1, c, booking, held, fates.open);
    RunThen(site, w, others.beforeOpen, OpenPayment(c, fates.open));
    var ready := Run(site, asked, others.beforeSettle);
    RunKeeps(site, asked, others.beforeSettle);
    OthersRun(site, asked, others.beforeSettle, c);
    SameHoldGrows(asked.rows[booking], ready.rows[booking], held);
    SettleLeads(site, ready, c, booking, held, fates);
    var settle := if fates.open.Applied? then Attach(c, fates.settle) else Release(c, fates.settle);
    RunThen(site, asked, others.beforeSettle, settle);
    RunConcat(site, w, others.beforeOpen + [OpenPayment(c, fates.open)], others.beforeSettle + [settle]);
  }

  /** How far a Book call gets: turned away by the checks, not holding, or holding. */
  datatype Stage = Refused | NotHeld | Holding

  /** The steps of a Book call interleaved with everybody else's. */
  function BookTrace(stage: Stage, c: nat, input: BookSlotInput, fates: BookFates, others: Interleaving): seq<Action> {
    match stage
    case Refused => [BeginBook(input)]
    case NotHeld => [BeginBook(input)] + (others.beforeHold + [Hold(c, fates.hold)])
    case Holding => ([BeginBook(input)] + (others.beforeHold + [Hold(c, fates.hold)])) + PayTrace(c, fates, others)
  }

  /** The row is the player's hold of the slot asked for: unpaid, at the court's price, to be paid within fifteen minutes of now. */
  predicate IsHoldFor(site: Site, b: Booking, input: BookSlotInput, now: Instant) {
    && b.playerId == input.playerId && b.courtId == input.courtId && b.startsAt == input.startsAt
    && b.status == PendingPayment && b.paymentIntentId.None? && b.cancelledAt.None?
    && b.holdExpiresAt == Some(now + 15 * MINUTE)
    && input.courtId in site.courts && b.amount == ToInt32(2 * site.courts[input.courtId].court.pricePerHour)
  }

  /** Everything asked for is there. */
  predicate Complete(input: BookSlotInput) {
    input.playerId != NIL_ID && input.courtId != NIL_ID && input.startsAt != ZERO_TIME
  }

  /** The account may book. */
  predicate MayBook(site: Site, player: Id) {
    player in site.users && site.users[player].isPlayer && site.users[player].isActive
  }

  /** The court is there to be booked. */
  predicate CourtOpen(site: Site, courtId: Id) {
    courtId in site.courts && site.courts[courtId].venue.isActive
  }

  /** What Book's checks refuse and with what: the first thing wrong, in this order, and nothing else. */
  ghost predicate RefusedBecause(site: Site, input: BookSlotInput, now: Instant, refused: Option<Error>) {
    && (refused == Some(PlayerRequired) <==> input.playerId == NIL_ID)
    && (refused == Some(CourtRequired) <==> input.playerId != NIL_ID && input.courtId == NIL_ID)
    && (refused == Some(SlotRequired) <==> input.playerId != NIL_ID && input.courtId != NIL_ID && input.startsAt == ZERO_TIME)
    && (refused == Some(UserNotFound) <==> Complete(input) && input.playerId !in site.users)
    && (refused == Some(NotAPlayer) <==>
          Complete(input) && input.playerId in site.users && !site.users[input.playerId].isPlayer)
    && (refused == Some(PlayerInactive) <==>
          Complete(input) && input.playerId in site.users && site.users[input.playerId].isPlayer
          && !site.users[input.playerId].isActive)
    && (refused == Some(CourtNotFound) <==> Complete(input) && MayBook(site, input.playerId) && input.courtId !in site.courts)
    && (refused == Some(VenueInactive) <==>
          Complete(input) && MayBook(site, input.playerId) && input.courtId in site.courts
          && !site.courts[input.courtId].venue.isActive)
    && (Complete(input) && MayBook(site, input.playerId) && CourtOpen(site, input.courtId) ==>
          var cv := site.courts[input.courtId];
          && refused == ValidateSlot(cv.court, input.startsAt, cv.venue.zone, now)
          && (refused.None? <==> cv.court.isActive && now < input.startsAt <= now + 14 * DAY
                                 && OnGrid(cv.court, input.startsAt, cv.venue.zone)))
    && (refused.None? ==> Complete(input) && MayBook(site, input.playerId) && CourtOpen(site, input.courtId))
  }

  lemma CheckMeans(site: Site, input: BookSlotInput, now: Instant)
    requires SiteSound(site)
    ensures RefusedBecause(site, input, now, CheckBookable(site, input, now))
  {
    if input.courtId in site.courts {
      var cv := site.courts[input.courtId];
      BookableMeansOnGrid(cv.court, input.startsAt, cv.venue.zone, now);
    }
  }

  /** An insert that is not answered with a hold leaves nothing, or a row nobody will ever attach a payment to. */
  lemma AfterHold(site: Site, w: World, c: nat, fate: Fate)
    requires Inv(site, w) && c < |w.calls| && w.calls[c].BookReady?
    ensures var input := w.calls[c].input;
            var after := Step(site, w, Hold(c, fate));
            && Inv(site, after) && c < |after.calls|
            && (if fate.NotApplied? || SlotHeld(w.rows, input.courtId, input.startsAt) then after.rows == w.rows
                else |after.rows| == |w.rows| + 1
                     && IsHoldFor(site, after.rows[|w.rows|], input, w.calls[c].now))
            && (|after.rows| > |w.rows| && !fate.Applied? ==> Stranded(after, |w.rows|))
  {
    StepKeeps(site, w, Hold(c, fate));
  }

  /** The state in which a Book call that passed its checks sends its insert. */
  function BeforeInsert(site: Site, start: World, input: BookSlotInput, others: Interleaving): World {
    Run(site, Step(site, start, BeginBook(input)), others.beforeHold)
  }

  /**
   What a Book call that began in `before` has come to in `after`, with everybody else's steps in
   between; `row` is the booking it inserted, if its insert took effect.
   */
  ghost predicate BookSettled(site: Site, before: World, after: World, input: BookSlotInput, fates: BookFates,
                              others: Interleaving, stage: Stage, row: Option<nat>)
  {
    var c, at := |before.calls|, BeforeInsert(site, before, input, others);
    && Inv(site, after) && c < |after.calls| && after.calls[c].BookDone?
    && (stage.Refused? ==>
          && after.calls[c].outcome.Err? && RefusedBecause(site, input, before.clock, Some(after.calls[c].outcome.error))
          && row.None? && after.rows == before.rows)
    && (!stage.Refused? ==>
          && RefusedBecause(site, input, before.clock, None)
          // The insert leaves a row exactly when it takes effect on a slot that is free at that moment.
          && row == (if fates.hold.NotApplied? || SlotHeld(at.rows, input.courtId, input.startsAt) then None else Some(|at.rows|))
          && (stage.Holding? <==> row.Some? && fates.hold.Applied?))
    && (stage.NotHeld? ==>
          && after.calls[c].outcome == Err(if fates.hold.Applied? then SlotTaken else StorageFailed)
          && (row.None? ==> after.rows == at.rows)
          && (row.Some? ==> Stranded(after, row.value) && IsHoldFor(site, after.rows[row.value], input, before.clock)))
    && (stage.Holding? ==>
          exists held :: IsHoldFor(site, held, input, before.clock) && PaySettled(site, after, c, row.value, held, fates))
  }

  /**
   A booking that Book handed out is its player's: in any continuation, asking to pay for it again
   is answered with an unknown booking to everybody else and never to the player who booked it.
   */
  lemma HeldForItsPlayer(site: Site, before: World, after: World, input: BookSlotInput, fates: BookFates, others: Interleaving,
                         stage: Stage, row: Option<nat>, acts: seq<Action>, player: Id)
    requires BookSettled(site, before, after, input, fates, others, stage, row)
    requires after.calls[|before.calls|].outcome.Ok? && player != NIL_ID
    ensures var b := after.calls[|before.calls|].outcome.value.booking;
            ReadForResume(Run(site, after, acts), player, b, true) == ResumeDone(Err(BookingNotFound)) <==> player != input.playerId
  {
    RunKeeps(site, after, acts);
    var b := after.calls[|before.calls|].outcome.value.booking;
    assert RowGrows(after.rows[b], Run(site, after, acts).rows[b]);
  }

  /**
   A Book call that fails after its insert took effect leaves one row that nobody will attach a
   payment to; it can ever be confirmed if and only if the attach had taken effect, only its answer
   was lost, and the hold was still running when the call ended.
   */
  lemma FailedBookAccounted(site: Site, before: World, after: World, input: BookSlotInput, fates: BookFates,
                            others: Interleaving, stage: Stage, row: Option<nat>)
    requires BookSettled(site, before, after, input, fates, others, stage, row) && row.Some?
    requires after.calls[|before.calls|].outcome.Err?
    ensures row.value < |after.rows| && Unowned(after, row.value)
    ensures CanBeConfirmed(site, after, row.value)
       <==> stage.Holding? && fates.open.Applied? && fates.settle.AckLost? && after.rows[row.value].AwaitsPayment(after.clock)
  {
    ConfirmableExactly(site, after, row.value);
    assert forall c :: 0 <= c < |after.calls| ==> CallSound(site, after, after.calls[c]);
  }

  lemma CallIsSound(site: Site, w: World, c: nat)
    requires Inv(site, w) && c < |w.calls|
    ensures CallSound(site, w, w.calls[c])
  {
  }

  /** The row the insert leaves, if it takes effect. */
  function HeldRow(site: Site, start: World, input: BookSlotInput, fates: BookFates, others: Interleaving): Option<nat> {
    var w := BeforeInsert(site, start, input, others);
    if fates.hold.NotApplied? || SlotHeld(w.rows, input.courtId, input.startsAt) then None else Some(|w.rows|)
  }

  lemma HoldOutcome(site: Site, start: World, input: BookSlotInput, fates: BookFates, others: Interleaving)
    requires Inv(site, start) && CheckBookable(site, input, start.clock).None? && Others(others.beforeHold, |start.calls|)
    ensures var c := |start.calls|;
            var after := Run(site, Step(site, start, BeginBook(input)), others.beforeHold + [Hold(c, fates.hold)]);
            var row := HeldRow(site, start, input, fates, others);
            && Inv(site, after) && c < |after.calls|
            && (row.Some? ==> row.value < |after.rows| && IsHoldFor(site, after.rows[row.value], input, start.clock))
            && (if row.Some? && fates.hold.Applied? then after.calls[c] == BookHeld(row.value, after.rows[row.value])
                else after.calls[c] == BookDone(Err(if fates.hold.Applied? then SlotTaken else StorageFailed)))
            && (row.Some? && !fates.hold.Applied? ==> Stranded(after, row.value))
            && (row.None? ==> after.rows == BeforeInsert(site, start, input, others).rows)
  {
    var c := |start.calls|;
    var begun := Step(site, start, BeginBook(input));
    StepKeeps(site, start, BeginBook(input));
    RunKeeps(site, begun, others.beforeHold);
    OthersRun(site, begun, others.beforeHold, c);
    RunThen(site, begun, others.beforeHold, Hold(c, fates.hold));
    AfterHold(site, BeforeInsert(site, start, input, others), c, fates.hold);
  }

  /** What reaches the webhook: something it cannot read, something without a valid signature, something it does not act on, or an event. */
  datatype Payload = Unreadable | Unsigned | Ignored | About(event: nat)

  /** What the transaction leaves of the tables it met and what it answers, wherever it fails. */
  predicate Transacted(met: World, after: World, ev: PaymentEvent, b: nat, tx: TxFate, answer: Option<Error>) {
    var repeat := ev.id in met.events;
    && (answer == None <==> tx.Committed? || (tx.ConfirmFailed? && repeat))
    && (answer == None || answer == Some(StorageFailed))
    && ((tx.Committed? || tx.CommitAckLost?) && !repeat ==>
          ev.id in after.events && after.events == met.events[ev.id := ev.kind]
          && |after.rows| == |met.rows| && (forall i :: 0 <= i < |met.rows| && i != b ==> after.rows[i] == met.rows[i])
          && (b < |met.rows| ==> after.rows[b] == met.rows[b].(status := Confirmed, holdExpiresAt := None)))
    && (!(tx.Committed? || tx.CommitAckLost?) || repeat ==> after.events == met.events && after.rows == met.rows)
  }

  /**
   What a delivery comes to.  A failed payment or a failed read changes nothing.  A success always
   has its booking; released, it is answered so and nothing changes; holding its slot, it is
   answered with success if and only if the transaction was seen to commit, or a repeat had
   nothing to commit, and then the event is recorded and the booking confirmed.
   */
  ghost predicate Handled(site: Site, before: World, after: World, event: nat, readOk: bool, tx: TxFate, others: seq<Action>,
                          answer: Option<Error>)
    requires event < |before.issued|
  {
    var ev := before.issued[event];
    if ev.kind == PaymentFailed then answer == None && SameTables(before, after)
    else if !readOk then answer == Some(StorageFailed) && SameTables(before, after)
    else
      Attached(before, ev.intentId)
      && var b := before.intents[ev.intentId].bookingId;
         if before.rows[b].cancelledAt.Some? then answer == Some(HoldLapsed) && SameTables(before, after)
         else
           && Transacted(Run(site, Step(site, before, Deliver(event, readOk)), others), after, ev, b, tx, answer)
           && (answer == None ==> ev.id in after.events && b < |after.rows| && after.rows[b].status == Confirmed)
  }

  /** The row carries the payment and holds its slot. */
  predicate PaidBy(b: Booking, intent: nat) {
    b.paymentIntentId == Some(intent) && b.cancelledAt.None?
  }

  predicate SameTables(before: World, after: World) {
    after.rows == before.rows && after.events == before.events
  }

  /** How far a ResumePayment gets: turned away on reading the booking, by the clock at the latest, or asking the gateway. */
  datatype ResumeStage = NotFound | Judged | Asked

  /** The steps of a ResumePayment call interleaved with everybody else's. */
  function ResumeTrace(stage: ResumeStage, c: nat, player: Id, booking: nat, readOk: bool, replyOk: bool,
                       beforeClock: seq<Action>, beforeAsk: seq<Action>): seq<Action>
  {
    var look := [BeginResume(player, booking, readOk)];
    match stage
    case NotFound => look
    case Judged => look + (beforeClock + [JudgeResume(c)])
    case Asked => (look + (beforeClock + [JudgeResume(c)])) + (beforeAsk + [FinishResume(c, replyOk)])
  }

  /** Each stage of a ResumePayment goes on from the one before. */
  lemma ResumeSteps(site: Site, w: World, c: nat, player: Id, booking: nat, readOk: bool, replyOk: bool,
                    beforeClock: seq<Action>, beforeAsk: seq<Action>)
    ensures var read := Run(site, w, ResumeTrace(NotFound, c, player, booking, readOk, replyOk, beforeClock, beforeAsk));
            var judged := Run(site, w, ResumeTrace(Judged, c, player, booking, readOk, replyOk, beforeClock, beforeAsk));
            && read == Step(site, w, BeginResume(player, booking, readOk))
            && judged == Run(site, read, beforeClock + [JudgeResume(c)])
            && Run(site, w, ResumeTrace(Asked, c, player, booking, readOk, replyOk, beforeClock, beforeAsk))
               == Run(site, judged, beforeAsk + [FinishResume(c, replyOk)])
  {
    var look, judge := [BeginResume(player, booking, readOk)], beforeClock + [JudgeResume(c)];
    RunOne(site, w, BeginResume(player, booking, readOk));
    RunConcat(site, w, look, judge);
    RunConcat(site, w, look + judge, beforeAsk + [FinishResume(c, replyOk)]);
  }

  lemma RowIsSound(site: Site, w: World, b: nat)
    requires Inv(site, w) && b < |w.rows|
    ensures RowSound(site, w.rows[b], w.clock)
  {
  }

  /** The payment a row carries is one the gateway issued, then and later. */
  lemma IssuedMeanwhile(site: Site, w: World, w': World, acts: seq<Action>, more: seq<Action>, b: nat)
    requires Inv(site, w) && w' == Run(site, w, acts) && b < |w.rows|
    ensures w.rows[b].paymentIntentId.Some? ==> w.rows[b].paymentIntentId.value < |Run(site, w', more).intents|
  {
    RunKeeps(site, w, acts);
    RunKeeps(site, w', more);
  }

  class BookingService {
    const site: Site
    const repo: BookingRepository
    const gateway: Gateway
    var clock: Instant
    /** The intents whose client secret has left the service. */
    var secrets: set<nat>
    /** How far each request in flight has come. */
    var calls: seq<Call>

    function Snapshot(): World
      reads this, repo, gateway
    {
      World(clock, repo.rows, repo.events, gateway.intents, secrets, gateway.issued, calls)
    }

    constructor (site: Site, clock: Instant)
      ensures this.site == site && fresh(repo) && fresh(gateway) && Snapshot() == Init(clock)
    {
      this.site := site;
      this.repo := new BookingRepository();
      this.gateway := new Gateway();
      this.clock := clock;
      this.secrets := {};
      this.calls := [];
    }

    /** Everybody else's steps. */
    method Interfere(acts: seq<Action>)
      modifies this, repo, gateway
      ensures Snapshot() == Run(site, old(Snapshot()), acts)
    {
      var w := Run(site, Snapshot(), acts);
      clock, secrets, calls := w.clock, w.secrets, w.calls;
      repo.rows, repo.events := w.rows, w.events;
      gateway.intents, gateway.issued := w.intents, w.issued;
    }

    method TakeHold(c: nat, input: BookSlotInput, now: Instant, fate: Fate) returns (held: Result<nat, Error>)
      requires c < |calls| && calls[c] == BookReady(input, now)
      modifies this`calls, repo
      ensures Snapshot() == Step(site, old(Snapshot()), Hold(c, fate))
      ensures held.Ok? <==> calls[c].BookHeld?
      ensures held.Ok? ==> held.value == old(|repo.rows|) == |repo.rows| - 1
                           && calls[c] == BookHeld(held.value, repo.rows[held.value])
      ensures held.Err? ==> calls[c] == BookDone(Err(held.error))
    {
      held := repo.HoldSlot(input, PriceOf(site, input.courtId), now + PAYMENT_HOLD, clock, fate);
      match held
      case Ok(booking) => calls := calls[c := BookHeld(booking, repo.rows[booking])];
      case Err(e) => calls := calls[c := BookDone(Err(e))];
    }

    method OpenFor(c: nat, booking: nat, held: Booking, fate: Fate) returns (payment: Result<nat, Error>)
      requires c < |calls| && calls[c] == BookHeld(booking, held)
      modifies this`calls, gateway
      ensures Snapshot() == Step(site, old(Snapshot()), OpenPayment(c, fate))
      ensures calls[c] == if payment.Ok? then BookOpened(booking, held, payment.value) else BookReleasing(booking)
      ensures payment.Ok? <==> fate.Applied?
    {
      payment := gateway.CreatePayment(booking, PriceOf(site, held.courtId), fate);
      calls := calls[c := if payment.Ok? then BookOpened(booking, held, payment.value) else BookReleasing(booking)];
    }

    method GiveBack(c: nat, booking: nat, fate: Fate) returns (failure: Error)
      requires c < |calls| && calls[c] == BookReleasing(booking)
      modifies this`calls, repo
      ensures Snapshot() == Step(site, old(Snapshot()), Release(c, fate))
      ensures calls[c] == BookDone(Err(failure))
      ensures !fate.NotApplied? && booking < |old(repo.rows)| && old(repo.rows)[booking].cancelledAt.None? ==>
                repo.rows[booking].cancelledAt == Some(clock)
    {
      var cancelFailure := repo.CancelBooking(booking, clock, fate);
      failure := if cancelFailure.Some? then GatewayAndStorageFailed else GatewayFailed;
      calls := calls[c := BookDone(Err(failure))];
    }

    method AttachFor(c: nat, booking: nat, held: Booking, intent: nat, fate: Fate) returns (r: Result<HeldBooking, Error>)
      requires c < |calls| && calls[c] == BookOpened(booking, held, intent)
      modifies this`calls, this`secrets, repo
      ensures Snapshot() == Step(site, old(Snapshot()), Attach(c, fate))
      ensures calls[c] == BookDone(r)
      ensures r.Ok? ==> r.value == HeldBooking(booking, held.(paymentIntentId := Some(intent)), intent)
    {
      var failure := repo.AttachPayment(booking, intent, fate);
      if failure.Some? {
        r := Err(failure.value);
      } else {
        r := Ok(HeldBooking(booking, held.(paymentIntentId := Some(intent)), intent));
        secrets := secrets + {intent};
      }
      calls := calls[c := BookDone(r)];
    }

    method AskFor(c: nat, booking: nat, held: Booking, fate: Fate, others: seq<Action>) returns (payment: Result<nat, Error>)
      requires c < |calls| && calls[c] == BookHeld(booking, held) && Others(others, c)
      modifies this, repo, gateway
      ensures Snapshot() == Run(site, old(Snapshot()), others + [OpenPayment(c, fate)])
      ensures c < |calls|
      ensures calls[c] == if payment.Ok? then BookOpened(booking, held, payment.value) else BookReleasing(booking)
      ensures payment.Ok? <==> fate.Applied?
    {
      OthersRun(site, Snapshot(), others, c);
      RunThen(site, Snapshot(), others, OpenPayment(c, fate));
      Interfere(others);
      payment := OpenFor(c, booking, held, fate);
    }

    method Settle(c: nat, booking: nat, held: Booking, payment: Result<nat, Error>, fate: Fate, others: seq<Action>)
      returns (r: Result<HeldBooking, Error>)
      requires c < |calls| && Others(others, c)
      requires calls[c] == if payment.Ok? then BookOpened(booking, held, payment.value) else BookReleasing(booking)
      modifies this, repo, gateway
      ensures Snapshot() == Run(site, old(Snapshot()), others + [if payment.Ok? then Attach(c, fate) else Release(c, fate)])
      ensures c < |calls| && calls[c] == BookDone(r)
    {
      OthersRun(site, Snapshot(), others, c);
      RunThen(site, Snapshot(), others, if payment.Ok? then Attach(c, fate) else Release(c, fate));
      Interfere(others);
      if payment.Err? {
        var failure := GiveBack(c, booking, fate);
        r := Err(failure);
      } else {
        r := AttachFor(c, booking, held, payment.value, fate);
      }
    }

    method TakeSlot(c: nat, input: BookSlotInput, now: Instant, fate: Fate, others: seq<Action>)
      returns (held: Result<nat, Error>)
      requires c < |calls| && calls[c] == BookReady(input, now) && Others(others, c)
      modifies this, repo, gateway
      ensures Snapshot() == Run(site, old(Snapshot()), others + [Hold(c, fate)])
      ensures c < |calls|
      ensures held.Ok? ==> held.value < |repo.rows| && calls[c] == BookHeld(held.value, repo.rows[held.value])
      ensures held.Err? ==> calls[c] == BookDone(Err(held.error))
    {
      OthersRun(site, Snapshot(), others, c);
      RunThen(site, Snapshot(), others, Hold(c, fate));
      Interfere(others);
      held := TakeHold(c, input, now, fate);
    }

    method OpenAndSettle(c: nat, booking: nat, held: Booking, fates: BookFates, others: Interleaving)
      returns (r: Result<HeldBooking, Error>)
      requires c < |calls| && calls[c] == BookHeld(booking, held)
      requires Others(others.beforeOpen, c) && Others(others.beforeSettle, c)
      modifies this, repo, gateway
      ensures Snapshot() == Run(site, old(Snapshot()), PayTrace(c, fates, others))
      ensures c < |calls| && calls[c] == BookDone(r)
    {
      RunConcat(site, Snapshot(), others.beforeOpen + [OpenPayment(c, fates.open)],
                others.beforeSettle + [if fates.open.Applied? then Attach(c, fates.settle) else Release(c, fates.settle)]);
      var payment := AskFor(c, booking, held, fates.open, others.beforeOpen);
      r := Settle(c, booking, held, payment, fates.settle, others.beforeSettle);
    }

    /** Book holds a slot for a player: check, take the slot, open the payment, then attach it or give the slot back. */
    method Book(input: BookSlotInput, fates: BookFates, others: Interleaving)
      returns (r: Result<HeldBooking, Error>, ghost stage: Stage, ghost row: Option<nat>)
      requires Inv(site, Snapshot())
      requires Others(others.beforeHold, |calls|) && Others(others.beforeOpen, |calls|) && Others(others.beforeSettle, |calls|)
      modifies this, repo, gateway
      ensures Snapshot() == Run(site, old(Snapshot()), BookTrace(stage, old(|calls|), input, fates, others))
      ensures old(|calls|) < |calls| && calls[old(|calls|)] == BookDone(r)
      ensures BookSettled(site, old(Snapshot()), Snapshot(), input, fates, others, stage, row)
    {
      ghost var start := Snapshot();
      var c := |calls|;
      var now := clock;
      var refused := CheckBookable(site, input, now);
      RunOne(site, start, BeginBook(input));
      CheckMeans(site, input, now);
      if refused.Some? {
        r := Err(refused.value);
        calls := calls + [BookDone(r)];
        stage, row := Refused, None;
        StepKeeps(site, start, BeginBook(input));
        return;
      }
      calls := calls + [BookReady(input, now)];
      RunConcat(site, start, [BeginBook(input)], others.beforeHold + [Hold(c, fates.hold)]);
      HoldOutcome(site, start, input, fates, others);
      var held := TakeSlot(c, input, now, fates.hold, others.beforeHold);
      row := HeldRow(site, start, input, fates, others);
      if held.Err? {
        r := Err(held.error);
        stage := NotHeld;
        return;
      }
      RunConcat(site, start, [BeginBook(input)] + (others.beforeHold + [Hold(c, fates.hold)]), PayTrace(c, fates, others));
      var snapshot := repo.rows[held.value];
      PayOutcome(site, Snapshot(), c, held.value, snapshot, fates, others);
      r := OpenAndSettle(c, held.value, snapshot, fates, others);
      stage := Holding;
    }

    /** HandlePaymentEvent up to the transaction: what is found settles the delivery or leads to a confirmation. */
    method LookUp(event: nat, readOk: bool) returns (next: Call)
      requires event < |gateway.issued|
      modifies this`calls
      ensures Snapshot() == Step(site, old(Snapshot()), Deliver(event, readOk))
      ensures calls == old(calls) + [next] && next == Lookup(repo.rows, gateway.issued[event], readOk)
    {
      var ev := gateway.issued[event];
      if ev.kind != PaymentSucceeded {
        next := HookDone(ev, None);
      } else {
        var found := repo.GetBookingByPayment(ev.intentId, readOk);
        match found
        case Err(e) => next := HookDone(ev, Some(e));
        case Ok(booking) =>
          if !repo.rows[booking].StillHolding() {
            next := HookDone(ev, Some(HoldLapsed));
          } else {
            next := HookFound(ev, booking);
          }
      }
      calls := calls + [next];
    }

    method ConfirmFound(c: nat, ev: PaymentEvent, booking: nat, tx: TxFate, others: seq<Action>)
      returns (answer: Option<Error>, ghost fate: Fate)
      requires c < |calls| && calls[c] == HookFound(ev, booking) && Others(others, c)
      modifies this, repo, gateway
      ensures Snapshot() == Run(site, old(Snapshot()), others + [Confirm(c, fate)])
      ensures c < |calls| && calls[c] == HookDone(ev, answer)
      ensures Transacted(Run(site, old(Snapshot()), others), Snapshot(), ev, booking, tx, answer)
    {
      ghost var start := Snapshot();
      OthersRun(site, start, others, c);
      Interfere(others);
      fate := FateOf(tx, ev.id in repo.events);
      RunThen(site, start, others, Confirm(c, fate));
      answer := repo.ConfirmPaid(ev, booking, tx);
      calls := calls[c := HookDone(ev, answer)];
    }

    /** The webhook's use case: find the booking, then record the event and confirm, unless there is nothing to do. */
    method HandlePaymentEvent(event: nat, readOk: bool, tx: TxFate, others: seq<Action>)
      returns (answer: Option<Error>, ghost trace: seq<Action>)
      requires Inv(site, Snapshot()) && event < |gateway.issued| && Others(others, |calls|)
      modifies this, repo, gateway
      ensures Inv(site, Snapshot()) && Snapshot() == Run(site, old(Snapshot()), trace)
      ensures trace == [Deliver(event, readOk)]
              || exists fate: Fate :: trace == [Deliver(event, readOk)] + (others + [Confirm(old(|calls|), fate)])
      ensures old(|calls|) < |calls| && calls[old(|calls|)] == HookDone(old(gateway.issued[event]), answer)
      ensures AnswerSound(Snapshot(), old(gateway.issued[event]), answer)
      ensures Handled(site, old(Snapshot()), Snapshot(), event, readOk, tx, others, answer)
      // A genuine success whose booking holds its slot, its reads succeeding and its transaction committing, is confirmed.
      ensures var ev := old(gateway.issued[event]);
              ev.kind == PaymentSucceeded && readOk && tx.Committed?
              && old(exists b :: 0 <= b < |repo.rows| && PaidBy(repo.rows[b], gateway.issued[event].intentId)) ==>
                answer == None && ev.id in repo.events
                && exists b :: 0 <= b < |repo.rows| && repo.rows[b].paymentIntentId == Some(ev.intentId)
                               && repo.rows[b].status == Confirmed
    {
      ghost var start := Snapshot();
      var c := |calls|;
      trace := [Deliver(event, readOk)];
      RunOne(site, start, Deliver(event, readOk));
      LookupTells(site, start, event, readOk);
      var next := LookUp(event, readOk);
      if next.HookDone? {
        answer := next.answer;
      } else {
        ghost var fate: Fate;
        answer, fate := ConfirmFound(c, next.event, next.booking, tx, others);
        RunConcat(site, start, trace, others + [Confirm(c, fate)]);
        trace := trace + (others + [Confirm(c, fate)]);
      }
      RunKeeps(site, start, trace);
      CallIsSound(site, Snapshot(), c);
    }

    /** The webhook: what cannot be read or is not signed is a bad request, what is not acted on is settled, and the rest is as it is handled. */
    method PaymentWebhook(payload: Payload, readOk: bool, tx: TxFate, others: seq<Action>)
      returns (status: nat, ghost answer: Option<Error>)
      requires Inv(site, Snapshot()) && (payload.About? ==> payload.event < |gateway.issued|) && Others(others, |calls|)
      modifies this, repo, gateway
      ensures Inv(site, Snapshot())
      ensures payload.About? ==> Handled(site, old(Snapshot()), Snapshot(), payload.event, readOk, tx, others, answer)
      ensures !payload.About? ==> Snapshot() == old(Snapshot())
      ensures status == 400 <==> payload.Unreadable? || payload.Unsigned?
      // The gateway is asked to try again exactly when the lookup failed or the transaction was not seen to commit.
      ensures status == 500 <==> payload.About? && answer == Some(StorageFailed)
      ensures status == 400 || status == 500 || status == 204
    {
      answer := None;
      if payload.Unreadable? || payload.Unsigned? {
        return 400, answer;
      }
      if payload.Ignored? {
        return 204, answer;
      }
      var failure, trace := HandlePaymentEvent(payload.event, readOk, tx, others);
      answer := failure;
      status := StatusOf(failure);
    }

    /** ResumePayment up to reading the clock. */
    method ReadFor(player: Id, booking: nat, readOk: bool) returns (next: Call)
      modifies this`calls
      ensures Snapshot() == Step(site, old(Snapshot()), BeginResume(player, booking, readOk))
      ensures calls == old(calls) + [next] && (next.ResumeRead? || next.ResumeDone?)
      ensures next.ResumeRead? ==> booking < |repo.rows| && next == ResumeRead(booking, repo.rows[booking])
                                   && next.held.playerId == player
      ensures next.ResumeDone? <==> player == NIL_ID || !readOk || booking >= |repo.rows|
                                    || repo.rows[booking].playerId != player || repo.rows[booking].status == Confirmed
      ensures next.ResumeDone? ==>
                next.outcome == Err(if player == NIL_ID then PlayerRequired
                                    else if !readOk then StorageFailed
                                    else if booking >= |repo.rows| || repo.rows[booking].playerId != player then BookingNotFound
                                    else AlreadyPaid)
    {
      if player == NIL_ID {
        next := ResumeDone(Err(PlayerRequired));
      } else {
        var found := repo.GetBooking(booking, readOk);
        match found
        case Err(e) => next := ResumeDone(Err(e));
        case Ok(held) =>
          if held.playerId != player {
            next := ResumeDone(Err(BookingNotFound));
          } else if held.status == Confirmed {
            next := ResumeDone(Err(AlreadyPaid));
          } else {
            next := ResumeRead(booking, held);
          }
      }
      calls := calls + [next];
    }

    /** ResumePayment with the booking in hand: is there still time to pay? */
    method HoldAgainstClock(c: nat, booking: nat, held: Booking, others: seq<Action>)
      returns (next: Call, ghost judgedAt: Instant)
      requires c < |calls| && calls[c] == ResumeRead(booking, held) && Others(others, c)
      modifies this, repo, gateway
      ensures judgedAt == Run(site, old(Snapshot()), others).clock
      ensures Snapshot() == Run(site, old(Snapshot()), others + [JudgeResume(c)])
      ensures c < |calls| && calls[c] == next
      ensures next == if held.AwaitsPayment(judgedAt) then ResumeReady(booking, held) else ResumeDone(Err(HoldLapsed))
    {
      OthersRun(site, Snapshot(), others, c);
      RunThen(site, Snapshot(), others, JudgeResume(c));
      Interfere(others);
      judgedAt := clock;
      if !held.AwaitsPayment(clock) {
        next := ResumeDone(Err(HoldLapsed));
      } else {
        next := ResumeReady(booking, held);
      }
      calls := calls[c := next];
    }

    /** ResumePayment once there is time to pay: ask the gateway and hand the secret out. */
    method AskAgain(c: nat, booking: nat, held: Booking, replyOk: bool, others: seq<Action>)
      returns (r: Result<HeldBooking, Error>)
      requires c < |calls| && calls[c] == ResumeReady(booking, held) && Others(others, c)
      modifies this, repo, gateway
      ensures Snapshot() == Run(site, old(Snapshot()), others + [FinishResume(c, replyOk)])
      ensures c < |calls| && calls[c] == ResumeDone(r)
      ensures r == if replyOk && held.paymentIntentId.Some?
                      && held.paymentIntentId.value < |Run(site, old(Snapshot()), others).intents|
                   then Ok(HeldBooking(booking, held, held.paymentIntentId.value)) else Err(GatewayFailed)
    {
      OthersRun(site, Snapshot(), others, c);
      RunThen(site, Snapshot(), others, FinishResume(c, replyOk));
      Interfere(others);
      var payment := gateway.GetPayment(held.paymentIntentId, replyOk);
      if payment.Ok? {
        r := Ok(HeldBooking(booking, held, payment.value));
        secrets := secrets + {payment.value};
      } else {
        r := Err(payment.error);
      }
      calls := calls[c := ResumeDone(r)];
    }

    /** ResumePayment: hand the secret of an open payment back while the hold stands. */
    method ResumePayment(player: Id, booking: nat, readOk: bool, replyOk: bool, beforeClock: seq<Action>, beforeAsk: seq<Action>)
      returns (r: Result<HeldBooking, Error>, ghost stage: ResumeStage)
      requires Inv(site, Snapshot()) && Others(beforeClock, |calls|) && Others(beforeAsk, |calls|)
      modifies this, repo, gateway
      ensures Inv(site, Snapshot())
      ensures Snapshot() == Run(site, old(Snapshot()),
                                ResumeTrace(stage, old(|calls|), player, booking, readOk, replyOk, beforeClock, beforeAsk))
      ensures old(|calls|) < |calls| && calls[old(|calls|)] == ResumeDone(r)
      ensures r.Ok? ==> HandedOut(Snapshot(), r.value) && r.value.booking == booking
      // What is answered, in order, with the row as it was read and the clock as it was read after it: the booking and its own
      // secret exactly when it is the player's, unpaid, uncancelled, not run out and carries a payment, and the gateway replies.
      ensures var rows, now := old(repo.rows), Run(site, Step(site, old(Snapshot()), BeginResume(player, booking, readOk)), beforeClock).clock;
              r == if player == NIL_ID then Err(PlayerRequired)
                   else if !readOk then Err(StorageFailed)
                   else if booking >= |rows| || rows[booking].playerId != player then Err(BookingNotFound)
                   else if rows[booking].status == Confirmed then Err(AlreadyPaid)
                   else if rows[booking].cancelledAt.Some?
                           || (rows[booking].holdExpiresAt.Some? && rows[booking].holdExpiresAt.value <= now) then Err(HoldLapsed)
                   else if rows[booking].paymentIntentId.None? || !replyOk then Err(GatewayFailed)
                   else Ok(HeldBooking(booking, rows[booking], rows[booking].paymentIntentId.value))
    {
      ghost var start := Snapshot();
      var c := |calls|;
      ResumeSteps(site, start, c, player, booking, readOk, replyOk, beforeClock, beforeAsk);
      var next := ReadFor(player, booking, readOk);
      stage := NotFound;
      if next.ResumeRead? {
        stage := Judged;
        var held := next.held;
        ghost var judgedAt;
        RowIsSound(site, start, booking);
        next, judgedAt := HoldAgainstClock(c, booking, held, beforeClock);
        ghost var judged := Snapshot();
        if next.ResumeReady? {
          stage := Asked;
          IssuedMeanwhile(site, start, judged, ResumeTrace(Judged, c, player, booking, readOk, replyOk, beforeClock, beforeAsk),
                          beforeAsk, booking);
          var answer := AskAgain(c, booking, held, replyOk, beforeAsk);
          next := ResumeDone(answer);
        }
      }
      r := next.outcome;
      RunKeeps(site, start, ResumeTrace(stage, c, player, booking, readOk, replyOk, beforeClock, beforeAsk));
      CallIsSound(site, Snapshot(), c);
    }
  }
}
