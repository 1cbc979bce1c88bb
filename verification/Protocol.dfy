/**
 The hold, pay and confirm protocol as a step system.

 Every SQL statement or transaction, every gateway call and every reading of the clock is one
 atomic step.  A request in flight is an entry of `calls` that says what it will do next; any
 step of anybody may run in between, a request may stall for ever, and every remote call may be
 lost before or after it takes effect.
 */
module Protocol {
  import opened Wrappers
  import opened Calendar
  import opened Errors
  import opened Courts
  import opened Bookings
  import opened Payments

  datatype User = User(isPlayer: bool, isActive: bool)

  /** The courts with their venues, and the accounts. */
  datatype Site = Site(courts: map<Id, CourtAtVenue>, users: map<Id, User>)

  /** What court creation and the column types guarantee of every stored court. */
  predicate CourtSound(c: Court) {
    HoursAccepted(c.openHour, c.closeHour) && IsInt32(c.pricePerHour)
  }

  ghost predicate SiteSound(site: Site) {
    forall k :: k in site.courts ==> site.courts[k].court.id == k && CourtSound(site.courts[k].court)
  }

  /** What Book and ResumePayment hand out: the booking as read, and the secret of its payment. */
  datatype HeldBooking = HeldBooking(booking: nat, snapshot: Booking, secret: nat)

  datatype Call =
    /** Book: checked at `now`, about to hold the slot. */
    | BookReady(input: BookSlotInput, now: Instant)
    /** Book: holding, about to open a payment. */
    | BookHeld(booking: nat, held: Booking)
    /** Book: payment open, about to attach it. */
    | BookOpened(booking: nat, held: Booking, intent: nat)
    /** Book: the gateway failed, about to release the slot. */
    | BookReleasing(booking: nat)
    | BookDone(outcome: Result<HeldBooking, Error>)
    /** Webhook: the booking was found holding its slot, about to be confirmed. */
    | HookFound(event: PaymentEvent, booking: nat)
    | HookDone(event: PaymentEvent, answer: Option<Error>)
    /** ResumePayment: the booking was read unpaid, about to be held against the clock. */
    | ResumeRead(booking: nat, held: Booking)
    /** ResumePayment: the booking awaits payment, about to ask the gateway. */
    | ResumeReady(booking: nat, held: Booking)
    | ResumeDone(outcome: Result<HeldBooking, Error>)

  datatype World = World(
    clock: Instant,
    rows: seq<Booking>,
    events: map<nat, EventKind>,
    intents: seq<Intent>,
    secrets: set<nat>,
    issued: seq<PaymentEvent>,
    calls: seq<Call>)

  datatype Action =
    | Advance(to: Instant)
    | BeginBook(input: BookSlotInput)
    | Hold(call: nat, fate: Fate)
    | OpenPayment(call: nat, fate: Fate)
    | Release(call: nat, fate: Fate)
    | Attach(call: nat, fate: Fate)
    | Pay(intent: nat)
    | Issue(kind: EventKind, intent: nat)
    | Deliver(event: nat, readOk: bool)
    | Confirm(call: nat, fate: Fate)
    | SweepPass(asOf: Instant, fate: Fate)
    | BeginResume(player: Id, booking: nat, readOk: bool)
    | JudgeResume(call: nat)
    | FinishResume(call: nat, replyOk: bool)

  function Init(clock: Instant): World {
    World(clock, [], map[], [], {}, [], [])
  }

  function CheckInput(input: BookSlotInput): Option<Error> {
    if input.playerId == NIL_ID then Some(PlayerRequired)
    else if input.courtId == NIL_ID then Some(CourtRequired)
    else if input.startsAt == ZERO_TIME then Some(SlotRequired)
    else None
  }

  /** The checks Book makes before it writes anything, in order. */
  function CheckBookable(site: Site, input: BookSlotInput, now: Instant): Option<Error> {
    if CheckInput(input).Some? then CheckInput(input)
    else if input.playerId !in site.users then Some(UserNotFound)
    else if !site.users[input.playerId].isPlayer then Some(NotAPlayer)
    else if !site.users[input.playerId].isActive then Some(PlayerInactive)
    else if input.courtId !in site.courts then Some(CourtNotFound)
    else
      var cv := site.courts[input.courtId];
      if !cv.venue.isActive then Some(VenueInactive)
      else ValidateSlot(cv.court, input.startsAt, cv.venue.zone, now)
  }

  function SetCall(w: World, call: nat, next: Call): World {
    if call < |w.calls| then w.(calls := w.calls[call := next]) else w
  }

  function PriceOf(site: Site, courtId: Id): int {
    if courtId in site.courts then SlotPrice(site.courts[courtId].court) else 0
  }

  function HoldStep(site: Site, w: World, call: nat, input: BookSlotInput, now: Instant, fate: Fate): World {
    if fate.NotApplied? then
      SetCall(w, call, BookDone(Err(StorageFailed)))
    else
      match InsertHold(w.rows, input, PriceOf(site, input.courtId), now + PAYMENT_HOLD, w.clock)
      case None => SetCall(w, call, BookDone(Err(if fate.Applied? then SlotTaken else StorageFailed)))
      case Some(rows) =>
        SetCall(w.(rows := rows), call,
                if fate.Applied? then BookHeld(|w.rows|, rows[|rows| - 1]) else BookDone(Err(StorageFailed)))
  }

  function OpenStep(site: Site, w: World, call: nat, booking: nat, held: Booking, fate: Fate): World {
    var created := w.(intents := w.intents + [Intent(booking, PriceOf(site, held.courtId), false)]);
    match fate
    case Applied => SetCall(created, call, BookOpened(booking, held, |w.intents|))
    case AckLost => SetCall(created, call, BookReleasing(booking))
    case NotApplied => SetCall(w, call, BookReleasing(booking))
  }

  function ReleaseStep(w: World, call: nat, booking: nat, fate: Fate): World {
    SetCall(if fate.NotApplied? then w else w.(rows := SetCancelled(w.rows, booking, w.clock)), call,
            BookDone(Err(if fate.Applied? then GatewayFailed else GatewayAndStorageFailed)))
  }

  /** The secret leaves with the answer of a successful attach, and not otherwise. */
  function AttachStep(w: World, call: nat, booking: nat, held: Booking, intent: nat, fate: Fate): World {
    match SetIntent(w.rows, booking, intent)
    case None => SetCall(w, call, BookDone(Err(StorageFailed)))
    case Some(rows) =>
      match fate
      case Applied =>
        SetCall(w.(rows := rows, secrets := w.secrets + {intent}), call,
                BookDone(Ok(HeldBooking(booking, held.(paymentIntentId := Some(intent)), intent))))
      case AckLost => SetCall(w.(rows := rows), call, BookDone(Err(StorageFailed)))
      case NotApplied => SetCall(w, call, BookDone(Err(StorageFailed)))
  }

  /** HandlePaymentEvent up to the transaction: what the lookup leads to. */
  function Lookup(rows: seq<Booking>, ev: PaymentEvent, readOk: bool): Call {
    if ev.kind != PaymentSucceeded then HookDone(ev, None)
    else if !readOk then HookDone(ev, Some(StorageFailed))
    else
      match FindByIntent(rows, ev.intentId)
      case None => HookDone(ev, Some(BookingNotFound))
      case Some(booking) =>
        if !rows[booking].StillHolding() then HookDone(ev, Some(HoldLapsed)) else HookFound(ev, booking)
  }

  /** The transaction that records the event and confirms the booking; a recorded event changes nothing. */
  function ConfirmPaid(w: World, ev: PaymentEvent, booking: nat): World {
    if ev.id in w.events then w
    else w.(events := w.events[ev.id := ev.kind], rows := SetConfirmed(w.rows, booking))
  }

  function ConfirmStep(w: World, call: nat, ev: PaymentEvent, booking: nat, fate: Fate): World {
    SetCall(if fate.NotApplied? then w else ConfirmPaid(w, ev, booking), call,
            HookDone(ev, if fate.Applied? then None else Some(StorageFailed)))
  }

  /** ResumePayment up to reading the clock. */
  function ReadForResume(w: World, player: Id, booking: nat, readOk: bool): Call {
    if player == NIL_ID then ResumeDone(Err(PlayerRequired))
    else if !readOk then ResumeDone(Err(StorageFailed))
    else if booking >= |w.rows| then ResumeDone(Err(BookingNotFound))
    else
      var held := w.rows[booking];
      if held.playerId != player then ResumeDone(Err(BookingNotFound))
      else if held.status == Confirmed then ResumeDone(Err(AlreadyPaid))
      else ResumeRead(booking, held)
  }

  /** ResumePayment with the booking as it was read and the clock as it is now. */
  function Judge(booking: nat, held: Booking, now: Instant): Call {
    if !held.AwaitsPayment(now) then ResumeDone(Err(HoldLapsed)) else ResumeReady(booking, held)
  }

  /** A booking with no payment attached asks for an id the gateway does not know. */
  function FinishResumeStep(w: World, call: nat, booking: nat, held: Booking, replyOk: bool): World {
    if held.paymentIntentId.Some? && held.paymentIntentId.value < |w.intents| && replyOk then
      SetCall(w.(secrets := w.secrets + {held.paymentIntentId.value}), call,
              ResumeDone(Ok(HeldBooking(booking, held, held.paymentIntentId.value))))
    else
      SetCall(w, call, ResumeDone(Err(GatewayFailed)))
  }

  /** One atomic step of anybody; a step that is not enabled changes nothing. */
  function Step(site: Site, w: World, a: Action): World {
    match a
    case Advance(to) =>
      if to >= w.clock then w.(clock := to) else w
    case BeginBook(input) =>
      var refused := CheckBookable(site, input, w.clock);
      w.(calls := w.calls + [if refused.Some? then BookDone(Err(refused.value)) else BookReady(input, w.clock)])
    case Hold(call, fate) =>
      if call < |w.calls| && w.calls[call].BookReady? then
        HoldStep(site, w, call, w.calls[call].input, w.calls[call].now, fate)
      else w
    case OpenPayment(call, fate) =>
      if call < |w.calls| && w.calls[call].BookHeld? then
        OpenStep(site, w, call, w.calls[call].booking, w.calls[call].held, fate)
      else w
    case Release(call, fate) =>
      if call < |w.calls| && w.calls[call].BookReleasing? then ReleaseStep(w, call, w.calls[call].booking, fate) else w
    case Attach(call, fate) =>
      if call < |w.calls| && w.calls[call].BookOpened? then
        AttachStep(w, call, w.calls[call].booking, w.calls[call].held, w.calls[call].intent, fate)
      else w
    case Pay(intent) =>
      if intent in w.secrets && intent < |w.intents| then
        w.(intents := w.intents[intent := w.intents[intent].(paid := true)])
      else w
    case Issue(kind, intent) =>
      if intent < |w.intents| && (kind == PaymentSucceeded ==> w.intents[intent].paid) then
        w.(issued := w.issued + [PaymentEvent(|w.issued|, kind, intent)])
      else w
    case Deliver(event, readOk) =>
      if event < |w.issued| then w.(calls := w.calls + [Lookup(w.rows, w.issued[event], readOk)]) else w
    case Confirm(call, fate) =>
      if call < |w.calls| && w.calls[call].HookFound? then
        ConfirmStep(w, call, w.calls[call].event, w.calls[call].booking, fate)
      else w
    case SweepPass(asOf, fate) =>
      if asOf <= w.clock && !fate.NotApplied? then w.(rows := Sweep(w.rows, asOf, w.clock)) else w
    case BeginResume(player, booking, readOk) =>
      w.(calls := w.calls + [ReadForResume(w, player, booking, readOk)])
    case JudgeResume(call) =>
      if call < |w.calls| && w.calls[call].ResumeRead? then
        SetCall(w, call, Judge(w.calls[call].booking, w.calls[call].held, w.clock))
      else w
    case FinishResume(call, replyOk) =>
      if call < |w.calls| && w.calls[call].ResumeReady? then
        FinishResumeStep(w, call, w.calls[call].booking, w.calls[call].held, replyOk)
      else w
  }

  function Run(site: Site, w: World, acts: seq<Action>): World {
    if acts == [] then w else Step(site, Run(site, w, acts[..|acts| - 1]), acts[|acts| - 1])
  }

  lemma {:induction false} RunConcat(site: Site, w: World, first: seq<Action>, second: seq<Action>)
    ensures Run(site, w, first + second) == Run(site, Run(site, w, first), second)
  {
    if second == [] {
      assert first + second == first;
    } else {
      var init := second[..|second| - 1];
      RunConcat(site, w, first, init);
      assert (first + second)[..|first + second| - 1] == first + init;
    }
  }

  lemma RunThen(site: Site, w: World, acts: seq<Action>, a: Action)
    ensures Run(site, w, acts + [a]) == Step(site, Run(site, w, acts), a)
  {
  }

  lemma RunOne(site: Site, w: World, a: Action)
    ensures Run(site, w, [a]) == Step(site, w, a)
  {
  }

  lemma RunThree(site: Site, w: World, acts: seq<Action>)
    requires |acts| == 3
    ensures Run(site, w, acts) == Step(site, Step(site, Step(site, w, acts[0]), acts[1]), acts[2])
  {
    var a, b, c := acts[0], acts[1], acts[2];
    RunOne(site, w, a);
    RunThen(site, w, [a], b);
    RunThen(site, w, [a] + [b], c);
    assert acts == [a] + [b] + [c];
  }

  /** A call comes to have found a booking only by looking it up. */
  lemma WhatFinds(site: Site, w: World, a: Action, c: nat)
    requires c < |Step(site, w, a).calls| && Step(site, w, a).calls[c].HookFound?
    ensures || (c < |w.calls| && w.calls[c] == Step(site, w, a).calls[c])
            || (a.Deliver? && a.event < |w.issued| && Step(site, w, a).rows == w.rows
                && Step(site, w, a).calls[c] == Lookup(w.rows, w.issued[a.event], a.readOk))
  {
  }
}
