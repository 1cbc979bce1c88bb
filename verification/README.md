# Deuce: holding, paying for and offering court slots

Deuce books sports courts. A player holds a two-hour slot, pays for it within
fifteen minutes, and a webhook from the payment gateway confirms the booking; a sweeper gives
back what was not paid for. The safety of this comes in pieces from different layers: a partial
unique index, an event log written in the confirming transaction, the `WHERE` clauses of a few
statements, and comparisons with the clock. This project models those pieces and proves what
they come to together, in every interleaving of every number of requests.

`dafny verify dfyconfig.toml` checks everything.

## How the system is modelled

**Time.** An instant is an integer count of nanoseconds since Go's zero time, a zone is an
arbitrary fixed offset, a date is a day number (`Calendar`). `Courts` has the slot rules as the
code has them, and its methods `SlotsOn` and `SlotsWithin` are the code's loops.

**Tables.** The bookings table is a sequence of rows; a row's position is its id, since ids are
fresh and no statement deletes a row. `Bookings` has one function per SQL statement, with the
statement's own guard; a refused unique index is `None`. The recorded events are a map from event
id to kind.

**The protocol.** `Protocol` is a step system. Each statement or transaction, each gateway call
and each reading of the clock is one atomic step; a request in flight is a value that says what
it will do next, so a `Book` spans several steps, anything may run in between, and a request may
stop for ever at any point. Reading a row and reading the clock are different steps. A remote call ends in one of three ways (`Fate`): applied and
reported, applied with the answer lost, or not applied. The gateway is the environment: it issues
fresh intents, lets a player pay an intent whose secret has left the service, issues success
events only for paid intents, and delivers any event any number of times. `Run` is any sequence
of steps; the results below are about every run from an empty store, or about every run from any
state that keeps the invariant.

**Objects.** `Repository.BookingRepository`, `Service.BookingService` and the methods of `Sweeper` and `Views` are
the code's methods over fields they update. The service's methods are proved to be runs of the
step system whatever everybody else does between two of their steps (`Interfere` is that
everybody else), so that what holds of every run holds of them. A failed transaction restores
both tables explicitly.

**Sessions.** `Sessions` is a second step system, for the sessions table and the Redis cache in
front of it: reads and writes of either may fail, entries may be lost at any time, and accounts
may be deactivated. Computing how long an entry is to live and Redis setting it are two steps. The cache
lifetime and the session lifetime are two constants of the service, in any relation. `AuthService` has the methods, again as runs. A token stands for its hash.

## What turned out otherwise

Six natural statements are false of the code as it stands. The code is kept; each has a run that
breaks it and the exact condition.

* *Every confirmed booking holds its slot.* `HandlePaymentEvent` looks at `cancelled_at` before the
  transaction and `ConfirmBooking` does not look again. `Samples.ConfirmedWithoutItsSlot` is a run
  from the empty store that ends with a confirmed booking whose slot anybody may take;
  `LateConfirm.StepKeepsConfirmedHolding` and `LateConfirm.ConfirmedHoldingExactly` say exactly
  which steps and runs break it, and `LateConfirm.NoSweepInBetween` that no run does in which no
  sweep falls between a lookup and its transaction.
* *A booking whose Book call failed can never be confirmed.* It can if the attach took effect and
  only its answer was lost: `ResumePayment` then hands the secret out
  (`Samples.ConfirmedAfterFailedBook`). `Service.FailedBookAccounted` says exactly when, and
  `Outcomes.ConfirmableExactly` says of any unpaid booking nobody is still booking, run out or
  released or neither, exactly when it can still be confirmed.
* *A player told that the hold has lapsed has lost it.* `ResumePayment` reads the booking and then
  the clock; in between the payment may be confirmed (`Samples.ToldLapsedThoughPaid`).
  `Guarantees.LapsedIsTrueUnlessPaid` is the exact condition.
* *A logged-out token never authenticates again.* It can if another request had read the row and
  not yet cached it (`Transparency.LetInAfterLogout`), or if one reads and caches it between the
  eviction and the deletion (`Logouts.LogoutStraddled`). `Logouts.ReusedExactlyWhenUsable` and
  `Logouts.LogoutHoldsExactly` are the exact conditions, with anything in between the logout's two
  writes and the eviction reaching Redis or not. With requests one after the other it is true
  (`Transparency.LoggedOutForGood`).
* *An authentication is at most the cache lifetime out of date.* Once a lookup is in hand it is let
  in until its session expires, whatever is done to the account meanwhile
  (`Staleness.LetInExactlyUntilExpiry`). Take a bound `pause` on two things: how long after the
  store was read the lookup was cached, by whichever request did so, and how long after its own
  lookup the request let in made its check. The store can have last held the session with an active
  user d before if and only if d is at most the cache lifetime, less a nanosecond, and twice
  `pause`, and less than the session lifetime (`Staleness.StaleExactly`; `Staleness.StaleRunIsStale`
  is the run that gets there).
* *No cached entry outlives its session.* The lifetime is computed and then sent, and Redis counts
  it from when it runs the SET. An entry outlives its session by at most that pause, and exactly
  when the pause is longer than what the lifetime left to spare
  (`Staleness.EntryOutlivesByThePause`); `Staleness.EntryOverruns` attains it, whatever the two
  lifetimes. The expiry check
  after the lookup still refuses such a session.

The stored price is the charged price exactly for hourly prices from -1073741824 to 1073741823,
because `int32(amount)` keeps the low 32 bits.

Where documents and code disagree the code is followed: a slot is two hours
(`internal/domain/entity/booking.go:15`), not the one of `README.md:39-40`, and a failed payment
changes nothing (`internal/domain/usecase/booking.go:241-243`), whatever `api/openapi.yaml:101-102`
says of it.

## Reading order

`Calendar`, `Courts`, `Grid` (slot rules); `Bookings`, `Payments`, `Protocol` (the step system);
`Invariant` (what every step keeps); `Guarantees`, `Conservation`, `Delivery`, `Release`,
`LateConfirm`, `Outcomes`, `Samples` (what follows for runs); `Repository`, `Service`, `Sweeper` (the methods);
`Views` (availability and search); `Sessions`, `Staleness`, `Transparency`, `Logouts`,
`AuthService` (sessions).

## Model

| member | source | states |
|---|---|---|
| Grid.BookableMeansOnGrid | internal/domain/entity/booking.go:168-199 | A start passes every check of ValidateSlot if and only if the court is active, the start is in the future and at most fourteen days off, and it is one of the windows laid out from opening hour on its own local date and ending by closing hour |
| Grid.RefusalMeans | internal/domain/entity/booking.go:168-199 | For each refusal, exactly which starts get it, in terms of instants: not a whole local hour, not after now, beyond fourteen days, a window not inside the day's opening and closing instants, or inside them and off the grid |
| Grid.GridWindowsDoNotOverlap | internal/domain/entity/court.go:78 | Any two grid windows of one court, on one date or on different ones, are the same or disjoint, for any fixed offset and any hours court creation accepts |
| Courts.SlotsOn | internal/domain/entity/booking.go:150-163 | The stepping loop returns the specified list of accepted starts of the date |
| Grid.SlotsOnExact | internal/domain/entity/booking.go:143-149 | What SlotsOn offers and what ValidateSlot accepts cannot drift apart: an instant is offered for a date if and only if it lies on that local date and is accepted |
| Grid.SlotsOnContiguous | internal/domain/entity/booking.go:150-163 | The starts are strictly ascending and each window ends where the next begins: the past and the horizon cut only the two ends |
| Courts.SlotsWithin | internal/domain/entity/court.go:135-145 | The filtering loop returns the specified narrowed list |
| Grid.SlotsWithinExact | internal/domain/entity/court.go:135-145 | The narrowed list holds, in ascending order, exactly the acceptable starts of the date whose local hour is at least the first hour and before the second |
| Grid.StoredPriceFaithful | internal/adapter/postgres/booking_repo.go:44 | The 32-bit conversion keeps the slot price if and only if the hourly price is between -1073741824 and 1073741823, and is otherwise off by a multiple of 2^32 |
| Bookings.BookedStartsExact | db/postgres/query/booking.sql:34-40 | The range query lists a start if and only if it lies in the half-open range and an uncancelled row has it; under the unique index each once, strictly ascending |
| Repository.BookedSlotsExact | db/postgres/query/booking.sql:52-58 | The same of the query over several courts: a court and start are listed if and only if the court was asked for, the start is in range and the slot is held; under the unique index each once, by court and then by start |
| Bookings.SweepAgreesWithEntity | internal/domain/entity/booking.go:72-81 | The sweep's WHERE clause and HoldHasLapsed draw one line on uncancelled rows; a booking that awaits payment at t is matched by no sweep up to t |
| Bookings.SweepExact | db/postgres/query/booking.sql:60-65 | A sweep cancels exactly the uncancelled lapsed holds, stamps them with the statement's time and leaves every other field of every row as it was |
| Bookings.SweepIdempotent | internal/adapter/postgres/booking_repo.go:263-273 | After a sweep, sweeping as of the same or an earlier time changes nothing |
| Bookings.SweepComposes | internal/adapter/postgres/booking_repo.go:263-273 | Sweeping at t1 and then at a later t2 releases what sweeping at t2 alone releases |
| Bookings.SweepCountsReleases | internal/adapter/postgres/booking_repo.go:266-273 | The number reported is the number of slots that stop being held |
| Repository.BookingRepository.HoldSlot | internal/adapter/postgres/booking_repo.go:39-56 | One new row if no uncancelled row has the court and start, with the player, court and start asked for, pending, the amount in 32 bits, the expiry given, no payment and no cancellation; otherwise no change and ErrSlotTaken; storage failures with and without effect |
| Repository.BookingRepository.AttachPayment | internal/adapter/postgres/booking_repo.go:58-68 | The one row gets the intent and nothing else changes, unless another row carries it; success is reported exactly for what took effect and was acknowledged |
| Repository.BookingRepository.CancelBooking | db/postgres/query/booking.sql:23-26 | Stamps a row not yet cancelled, and nothing else |
| Repository.BookingRepository.ConfirmPaid | internal/adapter/postgres/booking_repo.go:211-235 | A commit, its answer lost or not, of an unrecorded event leaves the event recorded and that one row confirmed without an expiry; every other end of the transaction, and every repeat, leaves both tables as they were; success is answered exactly for a commit that is seen, or a repeat that had nothing to confirm |
| Repository.BookingRepository.ReleaseLapsedHolds | internal/adapter/postgres/booking_repo.go:266-273 | The table after the pass is the specified sweep of it, and the answer is how many rows matched |
| Repository.BookingRepository.ListBookedSlots | internal/adapter/postgres/booking_repo.go:90-108 | The starts the range query selects: those in range and held, ascending under the unique index |
| Repository.BookingRepository.ListBookedSlotsForCourts | internal/adapter/postgres/booking_repo.go:193-209 | The rows of one query grouped by court: for each court asked for the starts in range and held, ascending under the unique index; a court is a key if and only if it has a row |
| Invariant.StepKeeps | internal/domain/usecase/booking.go:75-136 | Every step of anybody, from any state that keeps the invariant, keeps it and only moves rows, log, intents and secrets forward |
| Invariant.ReachableSound | db/postgres/migration/000008_add_booking_payments.up.sql:1-21 | Every reachable state keeps the invariant: unique slots, sound rows, intents linked to one row, secrets only of attached intents, log and confirmations in agreement, and every request in flight knowing only what is so |
| Guarantees.NoOverlap | db/postgres/migration/000001_init_schema.up.sql:60-62 | In every reachable state, of two uncancelled bookings of one court one is over, two hours after its start, before the other begins |
| Guarantees.ConfirmedExactlyWhenRecorded | internal/domain/usecase/booking.go:228-258 | In every reachable state a booking is confirmed if and only if a recorded success event is about the payment it carries, and then that payment was really made |
| Guarantees.PayableCarriedOnce | db/postgres/migration/000008_add_booking_payments.up.sql:9-11 | Every intent whose secret has left the service is carried by exactly one row |
| Guarantees.FoundByPaymentExactly | internal/adapter/postgres/booking_repo.go:237-247 | In every reachable state the lookup by payment finds a booking if and only if that very row carries the intent, and finds none only if none does |
| Guarantees.DeliveryFindsItsBooking | internal/domain/usecase/booking.go:245-248 | No delivery of a genuine event, in any reachable state, is answered with ErrBookingNotFound; one whose reads succeed is answered with ErrHoldLapsed if and only if it is a success whose booking was released |
| Guarantees.LifecycleMovesForward | db/postgres/query/booking.sql:9-26 | Over any continuation of any run: no cancellation is cleared, no confirmation reverted, no confirmed booking newly cancelled, no attached payment replaced, no row lost |
| Guarantees.ChargedAndStored | internal/domain/usecase/booking.go:104-118 | The intent a row carries charges twice the hourly price, and the row stores that amount if and only if the price is in the 32-bit bound |
| Guarantees.HandedOutIsPayable | internal/domain/usecase/booking.go:129-135 | Whatever Book or ResumePayment handed out names a row that carries the very intent whose secret it is, opened for that row |
| Guarantees.ExactlyOneStanding | internal/domain/entity/booking.go:70-81 | Of every reachable uncancelled row and any time, exactly one holds: confirmed, awaiting payment, lapsed |
| Guarantees.CancelledInItsTime | db/postgres/query/booking.sql:23-26 | In every reachable state a cancellation is stamped no earlier than the booking was made and no later than now |
| Guarantees.ResumeTells | internal/domain/usecase/booking.go:144-169 | What ResumePayment answers, the row read in any reachable state and the clock at any later moment: not found exactly for what is not the player's, already paid exactly when the success was recorded when the row was read, lapsed exactly when the row was released or a sweep at that clock would match it, and otherwise on to the gateway |
| Guarantees.LapsedIsTrueUnlessPaid | internal/domain/usecase/booking.go:162-164 | With anything done between reading the row and reading the clock: a player told the hold has lapsed is told the truth if and only if the booking is not by then paid for and still holding its slot |
| Conservation.HoldsConserved | internal/adapter/postgres/booking_repo.go:35-56 | Over every run and for every court and start: successful holds equal cancellations plus the row that holds the slot now |
| Conservation.ExactlyOneWinner | internal/adapter/postgres/booking_repo.go:35-56 | Any number of players racing for a free slot in any order: as long as nothing is released exactly one insert wins |
| Delivery.EffectIsOneConfirmation | internal/adapter/postgres/booking_repo.go:218-235 | A confirming transaction that takes effect records its event and confirms the booking the payment was opened for; any other changes neither table |
| Delivery.TakesEffectOnce | internal/adapter/postgres/booking_repo.go:211-218 | Along every run an event takes effect once if it is recorded and never otherwise, however often it is delivered and however attempts fail |
| Delivery.AnsweredForGood | internal/adapter/httpapi/webhook.go:46-66 | Once a delivery was answered 204, no delivery of that event begun later changes the tables, in any continuation, with any steps in between |
| Delivery.RowUnderDeliveries | internal/domain/usecase/booking.go:236-258 | With anything interleaved: as long as the booking holds its slot its row is as it was or, exactly once its payment is recorded, what one failure-free delivery makes of it |
| Delivery.AnsweredRow | internal/domain/usecase/booking.go:236-258 | With anything interleaved: when an attempt was answered with success the event is recorded and, if the booking still holds its slot, its row is what one failure-free delivery makes of it |
| Delivery.RetriesAmountToOne | internal/adapter/postgres/store.go:25-42 | Attempts that fail before the record, between record and confirm, at commit or with only the answer lost, retried until the first 204, leave both tables as one failure-free delivery does |
| Release.ReleasedInTime | cmd/sweeper/main.go:56-71 | While the clock never runs more than an interval past the last sweep that took effect, no unpaid hold keeps its slot longer than the interval past its expiry or its insertion |
| Release.NoOldHolds | internal/domain/entity/booking.go:22-24 | In particular no uncancelled unpaid hold is ever older than fifteen minutes and the interval |
| Sweeper.Watch | cmd/sweeper/main.go:54-72 | After any number of passes, some failing, with everybody else's steps before each tick and between the tick and its statement, the loop has been a run of the step system and keeps the invariant |
| Sweeper.SweepOnce | cmd/sweeper/main.go:74-90 | One pass sweeps up to the time it read, on the tables as they are when its statement runs, and reports how many rows matched |
| Sweeper.LoopLeavesNoneBehind | cmd/sweeper/main.go:56-71 | After any such passes from an empty store, no unpaid hold is left that was there, and had run out, by the tick of any pass that took effect |
| Sweeper.SweepsAmountToTheLast | cmd/sweeper/main.go:74-76 | Any number of sweeps in a row, some of them failing, release what the last one that took effect releases alone |
| LateConfirm.OnlyASweepReleases | db/postgres/query/booking.sql:60-65 | A row waiting on an attached payment is released by nothing but a sweep that finds it lapsed |
| LateConfirm.StepKeepsConfirmedHolding | db/postgres/query/booking.sql:14-17 | One step keeps every confirmed booking on its slot if and only if it is not a confirmation of a row already cancelled |
| LateConfirm.ConfirmedHoldingExactly | internal/domain/usecase/booking.go:250-257 | After a run every confirmed booking holds its slot if and only if no transaction of the run confirmed a cancelled row |
| LateConfirm.NoSweepInBetween | internal/domain/usecase/booking.go:250-257 | If no sweep releases a booking between a webhook's lookup and its transaction, every confirmed booking holds its slot |
| LateConfirm.SweepCanOvertake | internal/domain/usecase/booking.go:250-257 | From every sound state with a webhook between its lookup and its transaction, its event unrecorded and the booking still pending and holding its slot, a run confirms the booking and leaves its slot free |
| Samples.ConfirmedWithoutItsSlot | internal/domain/usecase/booking.go:250-257 | A concrete run from the empty store that does so |
| Outcomes.StrandedNeverConfirmed | internal/domain/usecase/booking.go:114-127 | A row left without a payment and without a Book call to attach one is never confirmed, in any continuation |
| Outcomes.StrandedSwept | db/postgres/query/booking.sql:60-65 | The first sweep after such a row's hold has run out leaves it released |
| Outcomes.ConfirmableExactly | internal/domain/usecase/booking.go:129-169 | An unpaid row nobody is still booking, whatever the clock and whether or not it is released, can be confirmed by some run if and only if a webhook is between its lookup and its transaction for it, or it holds its slot, carries a payment, and still awaits payment or the secret is out or about to be asked for |
| Outcomes.ConfirmableExactlyWhenAttached | internal/domain/usecase/booking.go:129-131 | In particular while it awaits payment: if and only if it carries one |
| Service.BookingService.Book | internal/domain/usecase/booking.go:73-136 | Book is a run of the step system with anything in between. It is refused exactly as the checks say, with the tables untouched; it holds exactly when its insert is acknowledged on a slot free at that moment; every other ending has its answer. What it holds is a row of the player, court and start asked for, at twice the hourly price, expiring fifteen minutes after the clock it read; success leaves it pending with the attached intent, and a gateway failure with a successful release leaves nothing held |
| Service.CheckMeans | internal/domain/usecase/booking.go:75-100 | Each refusal of Book if and only if its condition on the input, the account, the court and the slot, in order; none exactly when the account is an active player, the venue and the court are active, and the start is on the grid, in the future and at most fourteen days off |
| Service.HeldForItsPlayer | internal/domain/usecase/booking.go:155-159 | After a Book that succeeded, in every continuation: asking to pay for that booking is answered with ErrBookingNotFound to every other player and never to the one who booked |
| Service.PayOutcome | internal/domain/usecase/booking.go:109-135 | From the hold on, for every outcome of the gateway and of the attach or release: which row is left, whether it carries a payment, whether it still holds the slot, and what the caller is told |
| Service.FailedBookAccounted | internal/domain/usecase/booking.go:109-135 | A Book that fails after its insert took effect leaves one row that can ever be confirmed if and only if the attach took effect, only its answer was lost, and the hold was still running when the call ended |
| Samples.ConfirmedAfterFailedBook | internal/domain/usecase/booking.go:129-131 | A concrete run from the empty store in which a Book answered with a failure has its booking paid for and confirmed |
| Service.BookingService.HandlePaymentEvent | internal/domain/usecase/booking.go:236-258 | The use case is a run of the step system and keeps the invariant. A failed payment or failed read changes nothing; a success whose booking was released is answered so; otherwise it is answered with success if and only if the transaction was seen to commit or a repeat had nothing to commit, and then the event is recorded and the booking confirmed; whatever else the transaction does leaves both tables as it met them, unless only its answer was lost |
| Service.BookingService.PaymentWebhook | internal/adapter/httpapi/webhook.go:25-67 | What cannot be read or is not signed is answered 400 and what is not acted on 204, changing nothing; an event is answered 500 exactly when its lookup failed or its transaction was not seen to commit, and otherwise 204 |
| Service.BookingService.ResumePayment | internal/domain/usecase/booking.go:138-176 | A run that keeps the invariant, with anything between reading the row, reading the clock and asking the gateway. Its answer, in order: no player, failed read, not the player's, already paid, released or run out, no payment or no reply from the gateway; and in no other case than these, the booking as read with the secret of its own intent |
| Samples.ToldLapsedThoughPaid | internal/domain/usecase/booking.go:149-164 | A concrete run from the empty store in which the player is told the hold has lapsed of a booking paid for and holding its slot |
| Views.Availability | internal/domain/usecase/booking.go:178-217 | Refusals in order; otherwise one slot for each start of the date, strictly ascending, available if and only if no uncancelled row has that court and start |
| Views.AvailableExactlyWhenBookable | internal/domain/usecase/booking.go:194-216 | A start is shown available for a date if and only if it lies on it and booking it at that moment would pass every check and win the slot |
| Views.Candidates | internal/domain/usecase/court.go:95-121 | Every court's candidates, and one range that contains every candidate of every court |
| Views.Search | internal/domain/usecase/court.go:83-162 | The city is refused if and only if nothing of it is visible, the date if and only if it is the first day of year 1, the hours if and only if they are not some hours of one day, in that order. Otherwise the one range query answers: exactly the courts of the table at active venues of the city, its case ignored, that are free at some time within the date, the hours and the rules, each with exactly those times, ascending, the courts in the order of the table |
| Views.PlainSearchExact | internal/domain/usecase/court.go:128-159 | A court is in the plain answer with a list of slots if and only if it was among the courts and the list is nonempty and its free candidates |
| Views.SearchAgreesWithAvailability | internal/domain/usecase/court.go:78-82 | A court is found if and only if it stands at an active venue of the city, the case of its name ignored as the database ignores it, with exactly the slots its availability shows as available within the hours, and there are any |
| Views.SearchKeepsOrder | db/postgres/query/court.sql:14-21 | The courts found are in the order of the courts query, each at most once |
| AuthService.UserService.PutSessionUser | internal/adapter/cache/redis/session_cache.go:67-88 | Caching a lookup is a run with anything between computing the lifetime and the SET; what has no time left to live is not set, and the lookup goes on to its check either way |
| Staleness.RunSound | internal/adapter/cache/redis/session_cache.go:49-65 | In every run every cached entry, and so every hit and every answer, is a session and user the store held at the moment recorded with it |
| Transparency.LookupSteps | internal/domain/usecase/auth.go:86-102 | With cache and store in agreement a lookup, cache first, is refused exactly when the store has no such session, fails exactly when it had to ask a failing store, and otherwise has what the store holds now |
| AuthService.UserService.StartSession | internal/domain/usecase/auth.go:60-75 | A session ends the session lifetime after the clock was read, however much later the row is inserted; success is reported exactly for an insert that took effect and was reported, of a fresh token for a known user |
| AuthService.UserService.Authenticate | internal/domain/usecase/auth.go:78-111 | Authenticate is a run of the session steps with anything in between. Its answer: the cache's entry if it has one, or else the row as the store held it when it was read, let in if and only if the session is unexpired at the moment of the answer and the user active; a failed read is told from a refusal |
| AuthService.UserService.Logout | internal/domain/usecase/auth.go:113-126 | The entry is evicted before anybody else acts and the row deleted afterwards, as a run with anything in between; no other entry or row goes, and an empty token changes nothing |
| AuthService.AloneIsCacheless | internal/domain/usecase/auth.go:81-111 | Left alone, whichever path it takes, Authenticate answers what the store alone would |
| Transparency.AgreesExactly | internal/domain/usecase/auth.go:114-126 | A step keeps cache and store in agreement if and only if it does not cache a stale lookup, delete a row under a live entry, or change an account under one |
| Transparency.AgreeThroughoutExactly | internal/domain/usecase/auth.go:81-126 | Over every run with everything interleaved: cache and store agree at every moment if and only if no step of the run does one of the three |
| Transparency.TransparentWhileUndisturbed | internal/domain/usecase/auth.go:81-111 | After any such run, with everything interleaved, an authentication left alone answers as the store alone would |
| Transparency.CacheIsTransparent | internal/domain/usecase/auth.go:81-111 | Over any sequence of logins, authentications, logouts and waits, one after the other, with Redis losing entries at will, the answer is the cacheless one unless the store had to be asked and failed |
| Transparency.LoggedOutForGood | internal/domain/usecase/auth.go:113-126 | With requests one after the other and evictions that reach Redis, a token logged out is refused by every later authentication |
| Transparency.LogoutCanBeOvertaken | internal/domain/usecase/auth.go:92-102 | From any state in which a lookup of an active session waits to be cached, a run logs the token out, row and entry, and then lets it in |
| Transparency.LetInAfterLogout | internal/domain/usecase/auth.go:92-126 | Such a run from the empty state, for every cache lifetime and every session lifetime |
| Logouts.ReusedExactlyWhenUsable | internal/domain/usecase/auth.go:90-111 | Once its row is gone a token can be let in by a later request, in some run, if and only if a live entry or a lookup about to be cached remains |
| Logouts.LogoutHoldsExactly | internal/domain/usecase/auth.go:114-126 | After a logout whose deletion took effect, its eviction reaching Redis or not and anything done in between: the token can be let in by a later request, in some run, if and only if at the deletion a live entry or a lookup about to be cached was there |
| Logouts.UnbrokenLogoutHoldsExactly | internal/domain/usecase/auth.go:114-126 | With nobody in between and the eviction taking effect: if and only if some lookup of the token was waiting to be cached |
| Logouts.LogoutStraddled | internal/domain/usecase/auth.go:119-125 | From any state with a live session a whole request between the two writes leaves the token usable, though no lookup of it was waiting |
| Staleness.EntryOutlivesByThePause | internal/adapter/cache/redis/session_cache.go:67-88 | In every run an entry's deadline exceeds its session's expiry by at most the pause between computing its lifetime and Redis setting it, and stays inside the expiry if and only if that pause is no longer than what the lifetime left to spare |
| Staleness.EntryOverruns | internal/adapter/cache/redis/session_cache.go:67-88 | Whatever the cache lifetime and the session lifetime, and for every pause, a run from the empty state leaves an entry that outlives its session by exactly the pause |
| Staleness.SuccessIsRecent | cmd/deuce/main.go:33-38 | With accounts deactivated, deletions failing and anything interleaved: a success at t is on a session unexpired at t which the store held, with an active user, less than the session lifetime back and no further back than the cache lifetime and two pauses |
| Staleness.StaleExactly | cmd/deuce/main.go:33-38 | Exactly how stale a success can be: some run, its two pauses within the given one, lets a token in on a session the store had last held with an active user at least d before, if and only if there is an account, sessions last at all, and d is at most the cache lifetime, less an instant, and two pauses, and less than the session lifetime |
| Staleness.StaleRunIsStale | cmd/deuce/main.go:33-38 | The run that attains it for any two lifetimes, the account deactivated the moment it was read |
| Staleness.OnlyTheMomentCounts | internal/domain/usecase/auth.go:104-110 | Once a lookup is in hand its answer depends on the moment of the check alone, whatever others do first |
| Staleness.LetInExactlyUntilExpiry | internal/domain/usecase/auth.go:104-110 | A lookup in hand can be let in at a moment if and only if that is not past, lies before the session's expiry, and the account was found active; the cache lifetime plays no part |

## Left out

- HTTP, JSON, cookies, CORS, configuration and the web client: no state of their own; of the webhook only the choice between 204 and 500 is kept.
- Stripe's client and signatures, bcrypt, SHA-256 and random tokens: the gateway is an environment that issues fresh intents, and a token stands for its hash.
- Time zone data and daylight saving: a zone is a fixed offset. With a repeated local hour, what `time.Date` chooses is not fixed.
- The Gregorian calendar: a date is a day number.
- Users, venues, cities, court creation and changes to courts: the sites and accounts of the booking protocol are fixed during a run; of court creation only the accepted hours and the width of the price column are used.
- The order by name of the courts query: the table of courts is taken to be in it.
- Owner blocks, court deactivation and a player's own cancellation: no use case in the repository performs them.
- ListForPlayer and the login credential check: one query and one comparison each.
- Currency: only one is supported.
- Failing reads of users and courts at the start of Book: they end the call before anything is written.
- Postgres stores timestamps to the microsecond: the model keeps nanoseconds, so a stored expiry is not rounded.
- Redis keeps lifetimes to the millisecond, and its client raises a shorter one to a millisecond: the model keeps nanoseconds, so Staleness.EntryOutlivesByThePause and Staleness.StaleExactly are exact up to that rounding.
- How the database folds case: cities are `citext`, and the model compares them through an arbitrary folding.
- The clock is one for all processes: skew between application and database clocks is not modelled, except that a sweep, a hold and a session's row may use an earlier reading.
- Isolation inside Postgres: each statement, and each transaction, is one atomic step.
- Release.ReleasedInTime: takes as a hypothesis that sweeps keep taking effect; that the ticker fires is outside the model.
- Sweeper.Watch: a finite list of passes stands for the endless loop, so that what is proved holds at every point of it; signals and logging are not modelled.
- Delivery.RetriesAmountToOne: attempts follow each other with nobody in between, because it compares both whole tables; Delivery.RowUnderDeliveries, Delivery.AnsweredRow and Delivery.TakesEffectOnce are the statements with everything interleaved.
- Transparency.CacheIsTransparent: requests one after the other and evictions that reach Redis; Transparency.AgreeThroughoutExactly, Transparency.TransparentWhileUndisturbed, Logouts.LogoutHoldsExactly and Staleness.StaleExactly are the statements with everything interleaved.
- Transparency.LoggedOutForGood: requests one after the other and evictions that reach Redis; Logouts.LogoutHoldsExactly is the statement with everything interleaved.
