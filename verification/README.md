# Homeplate: a verified model

This project models the parts of the Homeplate meal-booking backend whose correctness spans transactions,
workers and clocks, and proves what they promise.

* **Reservations, promotion and the outbox.** `Outbox` is the job table with its claims, verdicts, retries and
  dead letters. `Bookings` is the protocol at the grain of committed transactions: bookings, listings, cancel
  cascades, reschedules, the promote handler and its fallback schedule, worker steps, crashes, handlers that
  outlive their claim, operator requeues. Anything a transaction read without a lock that keeps it current, and
  each clock, is a parameter of its action. `BookingInvariants` and `BookingTheorems` prove the invariants and
  the guarantees over all runs. `Interleaving` splits the transactions into SQL statements under row and
  advisory locks and proves that every commit of every interleaving is its one action of `Bookings`; `Scripts`
  that uninterrupted each script commits exactly when its request can be granted. `Effects` says what each action
  changes and posts, and what that adds up to over runs.
* **One clock and draining.** `Timely` adds the assumption of a single clock. `Draining`, `Polling` and `Batches`
  are the worker's polls and the work they leave. `Skew` and `Stopping` give the exact condition for a drain to
  stop: that no booking straddles the clocks, that is, waits with a due promote row for a start that is past to
  the database and still to come for Node.
* **In the source's form.** `Backend.Database` updates the tables in place, one method per repository
  statement and transaction script, each proved to be its action or to change nothing and say why.
  `WorkerProcess.Worker` is the polling loop; which handlers fail for reasons outside the tables is an input.
  `DedupeKeys` shows that printed dedupe keys cannot collide.
* **Home-kitchen caps.** `Text` and `Calendar` are printed dates, day numbers (section 21.4.1 of ECMA-262) and
  Monday weeks; `Mehko` is the cap check and its invariant.
* **Moderation.** `Moderation` separates a scan's read from its record; `Verdicts` says what a status means and
  `Publication` when an approval is sound; `ModerationDesk.Desk` updates the tables in place.
* **Notifications.** `Transport` is one send: attempt row, bounded retries, updates left in flight by timeouts. How
  each try would end is an input.
* **Login limiter.** `RateLimit` is the expiring counters and the order of a login.

A sequence is a table: the row id is its index. UUIDs are natural numbers. History variables (completions
since a resize, lifecycle events, failure instants, windows) are ordinary or ghost fields that no decision
reads. A deadlock is a rollback. `now()` is the start of a transaction, as in PostgreSQL.

## What the code does that its comments do not say

* While a booking waits for a start that lies between the two clocks and a promote row of it is due, each poll
  replaces that row by a fresh one that is due at once. No promotion is lost, but draining goes on until Node has
  caught up. In every other situation it stops, Node behind or not (`Stopping.DrainStopsIff`,
  `Stopping.SkewIsReached`).
* A scan that read old text can approve after a material edit, because the status flip does not look at what
  it replaces; the new text is then published unreviewed (`Publication.StaleApproval`). The approval is sound
  if and only if the text judged is the current one (`Publication.ApprovalIsSoundIff`).
* For the same reason a scan can override a human decision taken since it read the content
  (`Publication.OverriddenRejection`), exactly when its own outcome is the opposite one
  (`Publication.ScanOverridesIff`).
* The note in `src/modules/listings/mehko.js` lines 27-31 says four consecutive days can hold twice the weekly
  cap. Under 30 seats a day and 90 a week they hold at most 120 of 180 (`Mehko.FourDaysFallShort`), and five
  150; six days reach it (`Mehko.RollingWeekIsTight`).
* Dates before the year 100 are read as the twentieth century (`Calendar.ReadsPrinted`).

## Model

| member | source | states |
|---|---|---|
| `BookingTheorems.NoPromotionLost` | src/modules/bookings/lifecycle.js:137-259 | In every reachable state, whatever workers, crashes, detached handlers, two clocks, requeues and reschedules did, a pending booking on an active listing has a promote row that is pending or dead-lettered and that no open claim has decided to finish |
| `BookingInvariants.SecureKeeps` | src/modules/bookings/lifecycle.js:165-184 | A secured schedule is a pending, unlocked promote row of the booking other than the row being delivered; when none can be secured nothing was written |
| `BookingInvariants.AttemptSecures` | src/modules/bookings/lifecycle.js:167-177 | One key: either a fresh row, or a row found under the key that is live and not the one being delivered, or nothing at all |
| `BookingInvariants.PromoteDueKeeps` | src/modules/bookings/lifecycle.js:204-298 | The handler keeps every invariant in all its outcomes, throws only without writing, and leaves another schedule behind if the booking still waits |
| `BookingInvariants.SettleKeeps` | src/outbox/worker.js:66-137 | A claim may decide to finish a promote row without orphaning its booking |
| `BookingTheorems.SeatEquation` | src/modules/bookings/repo.js:113-187 | On an active listing remaining seats + seat-holding bookings + completions since the last resize = capacity, hence no overbooking and 0 <= remaining <= capacity |
| `BookingInvariants.CancelSeats` | src/modules/bookings/repo.js:179-187 | A restored seat is one that was taken: the restore cannot overflow the capacity |
| `BookingInvariants.UpdateSeats` | src/modules/listings/service.js:456-467 | A resize re-derives the remaining seats from its count; completions after the count are the ones spent |
| `BookingTheorems.GuestCap` | src/modules/bookings/service.js:101-116 | No guest ever holds more pending bookings than the configured cap |
| `BookingTheorems.HistoryMatchesOutbox` | src/modules/bookings/lifecycle.js:86-100 | The notify rows of a booking are exactly one per recipient of each transition it has been through, and no others |
| `BookingInvariants.NewTransitionIsFresh` | src/modules/bookings/lifecycle.js:90-98 | A transition not yet taken has unused dedupe keys, so its first notification is never suppressed |
| `BookingInvariants.CancelListingTold` | src/modules/listings/service.js:569-585 | The cancel cascade tells exactly the guests of the bookings it cancelled |
| `BookingTheorems.Lifecycle` | src/modules/bookings/repo.js:162-227 | Every booking history is a path of the lifecycle ending at its status; completed exactly when both parties confirmed; bookings of a cancelled listing are terminal for ever |
| `Timely.StartOrCancel` | src/modules/bookings/repo.js:162-227 | On one clock, whatever transaction moves it, a booking is promoted only from its start on and cancelled by a participant only before it |
| `BookingTheorems.RunForward` | src/modules/bookings/repo.js:162-227 | In every run statuses only move forward, terminal bookings never change, confirmation flags never drop |
| `BookingTheorems.StepKeeps` | src/db/tx.js:26-49 | Every transaction of the protocol keeps the whole invariant |
| `Interleaving.CommitIsAction` | src/modules/bookings/service.js:98-162 | A transaction split into its statements, with its locks held, commits as exactly its one transaction-level action, whatever was committed in between; only a confirmation that is out of turn by then writes nothing |
| `Interleaving.ClosesIff` | src/modules/bookings/service.js:101-162 | A transaction rolls back of itself exactly on the statement whose condition fails: guest at the cap, listing not bookable, no seat, booking not cancellable, capacity below the seats booked |
| `Interleaving.CommitIsFramed` | src/modules/listings/repo.js:160-163 | A commit changes only what its row and advisory locks permit |
| `Interleaving.FrameKeepsTxn` | src/modules/bookings/repo.js:76-95 | What an open transaction has read under its locks survives every other commit |
| `Interleaving.MoveKeeps` | src/db/tx.js:26-49 | Every statement keeps what the locks promise; a commit moves the database by exactly the action of its transaction, and no other statement shows |
| `Interleaving.InterleavingsAreRuns` | src/db/tx.js:26-49 | Every interleaving of the statements leaves the database in a reachable state of the transaction-level protocol |
| `Interleaving.InterleavedGuarantees` | src/modules/bookings/repo.js:82-187 | Guest cap, seat equation and promotion schedule hold at every commit of every interleaving |
| `Scripts.CreateAlone` | src/modules/bookings/service.js:98-178 | Uninterrupted, the booking script runs to its commit if and only if the booking can be granted, and then grants it |
| `Scripts.CancelAlone` | src/modules/bookings/service.js:197-268 | The cancellation script commits if and only if the booking is pending and not started, and is then the cancellation |
| `Scripts.ConfirmAlone` | src/modules/bookings/service.js:278-331 | The confirmation script always commits: as the confirmation if it is the turn of that party, as nothing otherwise |
| `Scripts.UpdateAlone` | src/modules/listings/service.js:379-528 | The update script commits if and only if the listing is active and the capacity has room for the seats booked, and is then the update |
| `Scripts.CancelListingAlone` | src/modules/listings/service.js:556-587 | The cascade script commits if and only if the listing is active, and is then the cascade |
| `Scripts.PromoteAlone` | src/modules/bookings/lifecycle.js:204-298 | The handler transaction of a claimed promote row always commits, as the handler deciding from the start it locked |
| `Effects.ListingIsCreated` | src/modules/listings/service.js:187-214 | A new listing is one more row, with exactly its geocode and its scan posted |
| `Effects.UpdateRewritesRow` | src/modules/listings/service.js:403-486 | An update rewrites the given fields of its row, the seats left of a new capacity and the status of new content, and nothing else of any listing or booking |
| `Effects.BookingTakesSeat` | src/modules/bookings/service.js:153-170 | A booking is one pending row of that guest on that listing, one seat less, and exactly three new jobs: both parties told, the promotion due at the start |
| `Effects.CancelGivesSeatBack` | src/modules/bookings/service.js:227-255 | A cancellation returns one seat within the capacity, and tells both parties once, and the history, which of them cancelled |
| `Effects.ConfirmSetsOwnFlag` | src/modules/bookings/repo.js:196-217 | A confirmation sets the flag of the confirming party and no other; the second completes the booking and tells both, the first tells nobody |
| `Effects.BothConfirm` | src/modules/bookings/service.js:295-331 | Two confirmations, in either order, complete a booking in progress; a party cannot confirm twice |
| `Effects.PromotionStarts` | src/modules/bookings/lifecycle.js:260-279 | A promotion moves exactly that booking to in progress and tells both parties once |
| `Effects.CascadeCancels` | src/modules/listings/service.js:556-587 | Cancelling a listing cancels exactly the bookings that hold its seats and posts exactly one notice to the guest of each |
| `Effects.ScansMatchWrites` | src/modules/listings/service.js:488-501 | In every run each listing has one scan per creation and material edit, one geocode per creation and change of address, and no others |
| `Effects.LastWriteIsScanned` | src/modules/listings/service.js:470-493 | In every run a listing says what was last written, its moderation status is the last verdict since or none, and that write posted a scan that is still on record |
| `Timely.TimelySchedule` | src/modules/bookings/lifecycle.js:111-184 | With one clock the row keyed by (booking, current start) is undelivered while the booking waits, untouched before that start, and the fallback key is never used |
| `Timely.StaleRowSecures` | src/modules/bookings/lifecycle.js:165-184 | A stale row delivered before the start always secures on the untouched row of the current start and enqueues nothing |
| `Timely.PromoteOnTime` | src/modules/bookings/lifecycle.js:232-258 | With one clock the handler promotes from the start on, reschedules before it, and never throws |
| `Timely.UpdateOnTime` | src/modules/listings/service.js:517-524 | A reschedule earlier, later or back again leaves every pending booking a row at the new instant |
| `Timely.RunOnTime` | src/schemas/listings.js:31 | The one-clock invariant holds in every run whose new starts lie in the future |
| `Draining.DrainedIsComplete` | src/modules/bookings/lifecycle.js:204-298 | With one clock and no failed promote handler, once nothing is due every booking still pending on an active listing starts later |
| `Draining.DrainedRunIsComplete` | src/outbox/worker.js:205-220 | The same after any one-clock run without a failed promote handler |
| `Draining.CommitLoad` | src/outbox/worker.js:96-135 | Committing a batch takes its whole weight off the load: retried, rescheduled and delivered rows are not due |
| `Draining.PromoteLoad` | src/modules/bookings/lifecycle.js:232-279 | Unless the start lies between the two clocks a promote handler adds at most two due rows |
| `Draining.StepUnfailed` | src/outbox/worker.js:66-137 | Only a failing promote handler can push a promotion past its instant |
| `Skew.MoveStraddles` | src/modules/bookings/lifecycle.js:165-184 | While a booking waits for a start between the two clocks with a due promote row, every poll move without a failed promote handler leaves one such row due |
| `Skew.NoStraddlerFromHandler` | src/modules/bookings/lifecycle.js:232-258 | Otherwise the handler of a due row finds no start between the clocks and leaves no such row |
| `Skew.StraddlesUnclaimed` | src/modules/bookings/lifecycle.js:137-143 | With no open claim that situation is a query over bookings, listings and jobs |
| `Batches.PollKeeps` | src/outbox/worker.js:146-177 | One poll, of the oldest due rows: claims something exactly when something is claimable, takes the rows it claimed off the load unless a booking straddles the clocks, and leaves straddling as it was |
| `Stopping.DrainStopsIff` | src/outbox/worker.js:205-220 | Once a drain without a failed promote handler has made as many polls as it had load, nothing is claimable if and only if no booking straddled the clocks when it began |
| `Stopping.StopsUnlessStraddled` | src/outbox/worker.js:205-220 | Unless a booking straddles the clocks a drain stops within its load, whatever handlers fail |
| `Stopping.SpinsForever` | src/outbox/worker.js:205-220 | While one does, with no fallback row of an undelivered row, the worker can make any number of such polls and each finds something to claim |
| `Stopping.SkewIsReached` | src/modules/bookings/lifecycle.js:232-258 | Three requests on an empty database lead there, for any two clocks with the start between them and any batch size |
| `Outbox.RetryAccounting` | src/outbox/worker.js:66-137 | Concurrent claims are disjoint; pending means fewer than maxAttempts failures since the last requeue, dead exactly maxAttempts |
| `Outbox.DeliveredIsFinal` | src/outbox/worker.js:96-104 | In every run rows are never dropped, keep their payload and key, and a delivered row never changes |
| `Outbox.DeadLetterTakesTime` | src/outbox/outbox.js:214-223 | A dead row has failed maxAttempts times, spread over at least the whole backoff, base * (2^(maxAttempts-1) - 1) when uncapped |
| `Outbox.DelayMonotone` | src/lib/resilience.js:34-42 | Backoff delays never shorten from one attempt to the next |
| `Outbox.DelayDoubles` | src/lib/resilience.js:34-42 | The first delay is the base, each further one twice the one before, both up to the cap |
| `Outbox.CrashReleases` | src/outbox/worker.js:140-146 | After a crash a claimed row is as it was and can be claimed by any worker |
| `Outbox.RequeueRestarts` | src/outbox/outbox.js:214-223 | A requeued dead row can be claimed at once with its whole budget; no other row changes |
| `Outbox.WaitsUncapped` | src/lib/resilience.js:34-42 | While the cap is not reached n delays add up to base * (2^n - 1) |
| `Outbox.EnqueueAllAppends` | src/outbox/outbox.js:147-192 | Enqueueing appends fresh rows only, keeps keys unique and leaves a row under every key it was given |
| `Outbox.Enqueue` | src/outbox/outbox.js:172-191 | A duplicate key returns the existing row unchanged; otherwise one pending row is appended |
| `DedupeKeys.RenderedIsInjective` | src/modules/bookings/lifecycle.js:126-128 | Two dedupe keys that print the same are the same key |
| `Polling.ViaKeeps` | src/outbox/worker.js:146-177 | Whatever a poll does is a run of the protocol and keeps its invariants, on time and clean if it was |
| `Polling.NoFaultIsClean` | src/outbox/worker.js:66-106 | On one clock the handler of a promote row that meets no outside fault succeeds, and leaves its booking promoted, gone or not yet started |
| `WorkerProcess.Worker.ClaimBatch` | src/outbox/worker.js:39-60 | The batch is exactly the oldest due unlocked rows, in order, up to the limit |
| `WorkerProcess.Worker.ProcessClaimedJob` | src/outbox/worker.js:66-137 | Given which handlers meet an outside fault: without one a promote row has its handler transaction run and any other row is done; with one nothing but the verdict is written; retried or dead-lettered by the attempt budget |
| `WorkerProcess.Worker.PollOnce` | src/outbox/worker.js:146-177 | A poll of module Batches, which runs every handler it claims, of the oldest due rows; its statistics count the rows of the batch that are delivered, pending and dead after it; the promotions counted as failed are exactly those that no longer wait for their instant, and on one clock there are none unless a promote handler meets an outside fault |
| `WorkerProcess.Worker.Drain` | src/outbox/worker.js:205-220 | Unless a booking straddles the clocks, polling while something was claimed terminates with nothing due; on one clock, unless a promote handler meets an outside fault, no started listing then has a pending booking, whatever other handlers meet |
| `Backend.Database.Enqueue` | src/outbox/outbox.js:147-192 | The insert with conflict handling is the outbox specification |
| `Backend.Database.RequeueDeadLetter` | src/outbox/outbox.js:214-223 | Re-opens a dead row with a fresh budget and touches no other row |
| `Backend.Database.EnqueueBookingNotifications` | src/modules/bookings/lifecycle.js:86-100 | One posting per recipient, in order |
| `Backend.Database.SecurePromotionSchedule` | src/modules/bookings/lifecycle.js:165-184 | The two attempts on the two keys are the specification of the secured schedule |
| `Backend.Database.PromoteDueBooking` | src/modules/bookings/lifecycle.js:204-298 | The handler transaction is the promote specification; the throw leaves every table alone |
| `Backend.Database.DecrementSeat` | src/modules/bookings/repo.js:113-126 | Takes a seat exactly when the listing is bookable, and changes nothing otherwise |
| `Backend.Database.MarkCancelledBeforeStart` | src/modules/bookings/repo.js:162-175 | Cancels exactly a pending booking whose listing has not started |
| `Backend.Database.ApplyCompletionConfirmation` | src/modules/bookings/repo.js:196-217 | Sets one flag and completes exactly when both are set |
| `Backend.Database.CreateBooking` | src/modules/bookings/service.js:88-188 | Either the booking action of the protocol, or the one refusal that fits and no change |
| `Backend.Database.CancelBooking` | src/modules/bookings/service.js:197-268 | Either the cancel action, or an idempotent repeat, or the refusal that fits, unchanged |
| `Backend.Database.ConfirmCompletion` | src/modules/bookings/service.js:278-346 | Either the confirm action, or an idempotent repeat, or the refusal that fits, unchanged |
| `Backend.Database.CreateListing` | src/modules/listings/service.js:187-214 | Either the create action with its geocode and scan job, or the refusal of the cap check and no change; the caps stay respected |
| `Backend.Database.UpdateListing` | src/modules/listings/service.js:374-528 | Either the update action on exactly the fields that differ, with the fan-out to every pending booking, or a no-op, or the refusal that fits, the cap check included; the caps stay respected |
| `Backend.Database.PatchRow` | src/modules/listings/service.js:403-481 | The row built field by field is the patched row; changed exactly when some field differs |
| `Backend.PatchTakes` | src/modules/listings/service.js:403-472 | Every requested field has its requested value and every other its old one; seats and moderation status follow capacity and content |
| `Backend.UpdatedMeals` | src/modules/listings/service.js:389-436 | An update that passes the cap check changes start, local date and seats as the cap model says, and keeps the caps |
| `Backend.Database.CancelListing` | src/modules/listings/service.js:556-587 | Either the cancel action and the ids of the bookings it cancelled, or a repeat, or the refusal that fits |
| `Calendar.PrintReadRoundTrip` | src/modules/listings/mehko.js:74-81 | For printed dates from the year 100 on, reading and printing are inverse |
| `Calendar.ReadsPrinted` | src/modules/listings/mehko.js:74-77 | Reading a printed date gives its day number exactly when the year is at least 100 |
| `Calendar.DayNumberOfDate` | src/modules/listings/mehko.js:74-81 | Every day number is the number of the date computed from it |
| `Calendar.DateOfDayNumber` | src/modules/listings/mehko.js:74-81 | Every valid date is the date of its day number |
| `Calendar.DaysFromEpoch` | src/modules/listings/mehko.js:74-81 | The day after a date has the next number; 1 January 1970 is 0 |
| `Calendar.WeekRangeFor` | src/modules/listings/mehko.js:96-104 | The printed bounds of the seven days around the date that begin a whole number of weeks from Monday 5 January 1970 |
| `Calendar.WeeksFromMonday` | src/modules/listings/mehko.js:96-104 | A week begins on the one day up to six days before that is a whole number of weeks from Monday 5 January 1970 |
| `Calendar.MondayBlock` | src/modules/listings/mehko.js:96-104 | The Monday-to-Sunday block of a day is the only one that contains it |
| `Calendar.WeeksPartition` | src/modules/listings/mehko.js:96-104 | Weeks are equal or disjoint and follow one another without gaps |
| `Calendar.PrintedOrderIsDayOrder` | src/modules/listings/mehko.js:79-81 | Printed dates compare as their days do |
| `Mehko.CheckIsExact` | src/modules/listings/mehko.js:124-197 | The check passes exactly when the guarded write leaves every cap of every host, day and week respected |
| `Mehko.RefusalNamesTheCap` | src/modules/listings/mehko.js:166-194 | A refusal names the first cap the write would break |
| `Mehko.CapsAlwaysHold` | src/modules/listings/service.js:187-436 | Daily listing, daily seat and weekly seat caps, and local_date = local date of the start, hold after every serial run of creates, updates and cancellations |
| `Mehko.RollingWeek` | src/modules/listings/mehko.js:23-33 | Any seven consecutive days of one host hold at most twice the weekly cap |
| `Mehko.RollingWeekIsTight` | src/config/locale.js:18-27 | Under the configured caps a legal run reaches that bound in six days, Friday to Wednesday |
| `Mehko.FourDaysFallShort` | src/modules/listings/mehko.js:27-31 | Under the configured caps four (or five) consecutive days cannot reach it |
| `Moderation.NeverOrphaned` | src/modules/moderation/service.js:130-312 | Pending content always has an unresolved queue item, or a scan job not yet decided whose flight, if any, saw it pending |
| `Moderation.AtMostOneOpenItem` | src/modules/moderation/repo.js:246-265 | Content never has two unresolved queue items |
| `Moderation.RecordKeeps` | src/modules/moderation/service.js:166-311 | A scan recording after an arbitrary delay keeps everything attended |
| `Verdicts.StatusIsLastDecision` | src/modules/moderation/service.js:170-311 | In every run, stale scans included, the status of content is the last decision recorded since its text was written, or pending if there is none but escalations |
| `Verdicts.ModeratorDecides` | src/modules/moderation/service.js:427-449 | An approval approves and a rejection rejects, with the decision on record and the item pointing to it; nothing else changes |
| `Verdicts.ScanDecides` | src/modules/moderation/service.js:170-311 | Which checks reject, hand over to a human, approve or decide nothing, and what each writes |
| `Verdicts.ScanReports` | src/modules/moderation/service.js:271-274 | The claim learns that the job is done, unless the classifier gave no answer |
| `Verdicts.EditStartsOver` | src/modules/listings/service.js:470-493 | A material edit makes content pending whatever was decided before, and posts a scan of it |
| `Publication.PublishedIsBacked` | src/modules/moderation/service.js:274-311 | In runs where no scan is overlapped by a write to its content, published content has an approval recorded after its last material edit, by a human or on exactly its text at or above the threshold |
| `Publication.ApprovalIsSoundIff` | src/modules/moderation/repo.js:165-191 | An approving scan of pending content publishes soundly if and only if it judged the current text; of decided content, also if an earlier approval of that text stands |
| `Publication.StaleApproval` | src/modules/moderation/repo.js:165-191 | Otherwise it can publish text nobody reviewed: a concrete run |
| `Publication.ScanLeavesDecidedAlone` | src/modules/moderation/service.js:155-168 | A scan that finds its content as it read it never changes decided content |
| `Publication.ScanOverridesIff` | src/modules/moderation/repo.js:165-191 | A scan overrides a decision if and only if it saw the content pending and comes to the opposite outcome; the content was then written to since the read |
| `Publication.OverriddenRejection` | src/modules/moderation/service.js:274-291 | Such a run: a moderator rejects, and a scan that had read the content before approves it |
| `ModerationDesk.Desk.Decide` | src/modules/moderation/service.js:394-449 | Decision row, status flip and resolved item as one step, or a refusal that changes nothing |
| `ModerationDesk.Desk.InsertQueueItem` | src/modules/moderation/repo.js:246-265 | Returns the open item either way and inserts only when there is none |
| `ModerationDesk.Desk.ProcessScan` | src/modules/moderation/service.js:170-311 | The staged pipeline is the recording step, writes at most one decision, and throws exactly on a provider failure |
| `Transport.Notifier.Send` | src/modules/notifications/transport.js:164-340 | Given how each try would end: sent if and only if some try among the first retries + 1 is accepted with only retryable failures before it; failed with the error of the last try made otherwise; at least one try unless refused; the terminal status is the returned one, no update of the row is left in flight, attempt_count grew by the updates that landed; a sent key changes nothing |
| `Transport.Notifier.SendAll` | src/modules/notifications/repo.js:38-62 | Any sequence of sends, each behaving as one send does, leaves one row per key, the sends of each key in a row, and for each send without a key a row of its own |
| `Transport.Notifier.DeliverWithRetries` | src/lib/resilience.js:71-145 | Makes at least one try, goes on exactly while tries fail retryably, up to retries + 1, and reports whether the last was accepted; every try that was accepted or refused by the adapter has its update counted |
| `Transport.DeliversIff` | src/lib/resilience.js:89-128 | So it delivers if and only if some try it may make is accepted with only retryable failures before it |
| `Transport.Notifier.SettleTryWrites` | src/modules/notifications/transport.js:267-278 | Waits until no update is in flight, touching no other row |
| `Transport.Notifier.CreateAttempt` | src/modules/notifications/repo.js:38-62 | One row per idempotency key |
| `Transport.NothingAfterSent` | src/modules/notifications/transport.js:190-198 | After a send reported sent, every later send with its key is a duplicate that delivers and changes nothing |
| `Transport.OneRealSend` | src/modules/notifications/transport.js:326-339 | At most one send per key reports sent without being a duplicate |
| `Transport.AttemptsAddUp` | src/modules/notifications/repo.js:70-84 | Over all sends of a key attempt_count is the number of tries that reached the adapter, at most retries + 1 a send |
| `RateLimit.SlidingBound` | src/modules/auth/rateLimit.js:93-131 | Any half-open window-long interval holds at most 2 * threshold - 1 failed verifications, per account since its last success and per source, at ten times the threshold, in any case |
| `RateLimit.SlidingBoundIsTight` | src/modules/auth/rateLimit.js:118-131 | The account bound is reached for every configuration whose window is longer than one instant |
| `RateLimit.LockedUntilExpiry` | src/modules/auth/service.js:319-330 | Once a window holds the threshold of failures every later attempt on the account is refused until it ends, with correct credentials too, whatever attempts on other accounts come in between |
| `RateLimit.RefusedIff` | src/modules/auth/rateLimit.js:93-109 | After any sequential logins an attempt is refused if and only if the last window of its account or of its source is full and not over |
| `RateLimit.SuccessStartsOver` | src/modules/auth/rateLimit.js:133-142 | A successful login clears the counter of its account and no other |
| `RateLimit.RunTracked` | src/modules/auth/rateLimit.js:112-142 | The counter is the length of the last window since the last success, and windows are disjoint |
| `RateLimit.Limiter.Check` | src/modules/auth/rateLimit.js:93-109 | Limited exactly at a threshold; whoever waits the retry delay and half a second more, with nothing recorded meanwhile, is let through |
| `RateLimit.Limiter.LongestTtl` | src/modules/auth/rateLimit.js:78-85 | The longest positive TTL, or the whole window when there is none |
| `RateLimit.Limiter.Login` | src/modules/auth/service.js:319-353 | Check, then verify, then record or reset, in that order |

## Left out

- Mehko.CapsAlwaysHold: serial transactions only; the code reads and then writes without a lock on the host, and of the three caps only the daily listing has a database constraint behind it.
- Calendar.PrintReadRoundTrip: years 100 to 9999; earlier years are read differently, as `Calendar.ReadsPrinted` states.
- Timely.TimelySchedule: assumes a handler reads and commits at one instant; without it only `BookingTheorems.NoPromotionLost` remains.
- Backend.Database.UpdateListing: the material fields are one field, the address fields another, price and duration a third; local_date is computed from the start, which Mehko.CapsAlwaysHold justifies.
- Transport.Notifier.Send: sends of one key do not overlap, and of overlapping sends of other keys only the updates in flight are modelled, not their new tries or terminal statuses; a try abandoned by its timeout may still be delivering when the send returns, and a delivery of a send that reported failed may have reached the recipient; what the provider does with it is not modelled.
- Transport.Notifier.DeliverWithRetries: backoff delays between tries are not timed; an error text is taken as already scrubbed.
- RateLimit.SlidingBound: sequential logins; concurrent ones can pass the check together.
- Stopping.DrainStopsIff: speaks of drains in which no promote handler fails; a failing one takes its row out of the drain for a backoff, straddling or not, so such a drain may stop early.
- WorkerProcess.Worker.ProcessClaimedJob: an outside fault stops a handler before its transaction; a worker that goes down after it is a crash of its claim, in module Bookings.
- WorkerProcess.Worker.Drain: one worker, all moves at one instant; the poll interval, the stop flag and a poll that throws (a crash of its claim) are outside the loop.
- Publication.PublishedIsBacked: a human decision is taken as a decision on the current text; what the moderator saw on the queue page is not modelled.
- Statement order inside a promote handler's commit: its enqueue, probe and status update are one step in module Interleaving.
- Media, coordinates and the other columns that no modelled decision reads.
- The React client, routes, schemas other than the future-start rule, command-line scripts, seeding and test harnesses: input and output.
- Provider adapters, mail templates and recipient lookup: outcomes are arbitrary.
- Cryptography, password hashing, sessions and time-zone conversion: library calls; the local date of an instant is an arbitrary function.
- Geo coarsening: floating point and trigonometry.
- Serializers, audit records, log redaction, payload PII checks and configuration validation: single-branch or field-copy facts.
- Privacy erasure, which cancels listings without cancelling their bookings, and search, users, reviews and safety alerts: not part of this model.
- The verification-resend throttle: the same counters under other keys.
