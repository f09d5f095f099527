# Verified models of the booking assistant

A Dafny project about the parts of the booking assistant where a mistake would reach a
customer twice, book or change the wrong visit, or lose what was agreed.  Each part is a
module or a small group of modules; the verifier checks everything with
`dafny verify dfyconfig.toml`.

Durable protocols are modelled as step systems.  A store transaction or one SQL statement is
one atomic step; workers and requests are interleaved freely, may overlap, and crash by taking
no further step.  What a transaction does to its rows is a function; the same transaction
carried out in place is a method of a class, proved to have exactly that effect; the theorems
are about every run of the step system built from these functions.  What a function does to each
part of its rows, when and to what, is stated without its branches, in numbers and in both
directions: in `OutboxRules`, `OutboxWorkers` and `ChatRules`, and in the lemmas named "Exactly"
of the other modules.

- **Booking-notice outbox** (`OutboxRows`, `OutboxRepository`, `OutboxMachine`, `OutboxSafety`,
  `OutboxFinality`, `OutboxFreshness`, `OutboxWorld`, `OutboxAnnouncements`, `OutboxLateFailure`,
  `OutboxLateRuns`, `OutboxLostRefusals`, `OutboxWitnesses`, `OutboxRules`, `OutboxWorkers`,
  `RoutePlan`): webhooks, leased delivery workers, send intents, WhatsApp receipts, unrouted
  recovery, SMS checks and staff alerts on the same rows, with a provider that accepts, rejects or
  leaves the result open.
- **Web booking** (`DraftStore`, `WebBooking`, `SmsLedger`, `WebReminder`, `ReminderHandoff`):
  the drafts table and its requests, the SMS ledger, the reminder job and its handoff.
- **Phone ownership** (`PhoneChallenge`, `PhoneRuns`): what proves a phone, attempts, lockout and
  the two coupled rate windows over whole runs.  No clock order is assumed.
- **Chat tools** (`ChatTools`, `ChatSession`, `ChatRules`, `ChatRuns`): the model is an adversary
  that calls any tools in any order; messages of one conversation may be handled at the same time,
  die, be handled again and save over each other.
- **Channel health** (`ChannelHealth`), **reminder wakes** (`ReminderWake`).
- **Texts** (`Utf8`, `IcsText`, `CalendarFile`, `ChoicePayload`, `TextChunks`, `SmsText`,
  `AppointmentSms`): calendar files, button payloads, message chunks and SMS texts.

## Where the code does less than one might expect

- A WhatsApp failure can be lost: the event ends as accepted or uncertain, the delivery row says
  rejected, and nothing tries another route.  `OutboxLateRuns` proves, for runs in which no worker
  outlives its lease, that this happens if and only if the failed receipt takes effect while the
  lease holder has decided and not yet finished and that finish commits before anything sets the
  matter right, and that it is then final.  A worker decides by its own verdict, or by finding that
  a vanished predecessor left the row sending; `OutboxWitnesses` has a run for each.
- Beyond the lease there is a second way, and it needs no receipt: a successor finishes as uncertain
  and only then the slow sender records that it was refused.  `OutboxLostRefusals` covers all runs:
  a refusal is lost if and only if it becomes known between a decision and the finish made on it, or
  is recorded after the event is over.  `OutboxWitnesses.SlowSenderLosesRefusal` is such a run.
- A chat draft that waits for phone proof can be booked without its summary ever having been read
  back, when the phone becomes proved by another way than the one that resumes the draft.
  `ChatRuns.ReadBackUnlessParked` proves that this concerns exactly the drafts that were parked when
  prepared and never brought back; a draft that was read back first and parked later is not
  affected.  There is a run for each, and both leave the same draft stored
  (`ChatRuns.NothingStoredDecides`), so no check on the stored draft could tell them apart.
- Five codes per window of an hour allow nine codes in a sliding hour, not five: the end of one
  window and the start of the next.  Nine is proved to be the exact bound.
- The calendar folding loop ends for a text if and only if the text has no 74 UTF-8 continuation
  bytes in a row.  Well-formed text never has; `CalendarFile.SomeTextIsNeverWritten` gives one that
  does.
- The reminder wake stays within the queue's horizon only if the clock is not behind the
  creation time of a distant reminder; `ReminderWake.WithinHorizon` is the exact condition.
- The SMS bound of 201 units needs a year of at most four digits.

## Model

| member | source | states |
|---|---|---|
| `OutboxWorld.CalledAtMostOncePerRoute` | internal/application/notifications/service.go:429-509 | In every run of workers, crashes, expired leases, receipts and reopenings, a notice reaches the provider at most once per route, at most four times, and always with the one stored notice |
| `OutboxWorld.PreparedAtMostOnce` | internal/application/notifications/service.go:245-291 | A notice is stored at most once per event and never replaced |
| `OutboxWorld.SettledForGood` | internal/application/notifications/service.go:188-511 | Over every continuation of every run: an event never returns to pending, its notice stays, attempts, calls and known refusals only grow, and a failed or cancelled SMS verdict stays |
| `OutboxWorld.VersionsMoveForward` | internal/application/notifications/service.go:249-278 | Versions accepted into a record row never go back in time, and neighbours differ in what the customer is told, for any order and repetition of webhooks |
| `OutboxWorld.RecordShowsLastVersion` | internal/application/notifications/service.go:249-278 | The record row always shows the version accepted last |
| `OutboxAnnouncements.EveryNoticeWasMade` | internal/application/notifications/service.go:245-291 | Every notice of every run was handed over as a reminder or announces a version its record accepted: as cancelled exactly if it is, else as new exactly if it was the first of its record, else as changed |
| `OutboxAnnouncements.AcceptedExactly` | internal/application/notifications/service.go:249-278 | In every run a version is accepted exactly if it differs from the last accepted one in what the customer is told and is not older |
| `OutboxWorld.ReceiptsJoin` | internal/application/notifications/receipts.go:43-79 | The stored WhatsApp state is the highest receipt received so far under sent, failed, delivered, read |
| `OutboxSafety.SameReceiptsSameBest` | internal/application/notifications/receipts.go:43-79 | Two receipt lists with the same receipts, in any order and number, lead to the same state |
| `OutboxWorld.AlertedAtMostOnce` | internal/application/notifications/sms_receipts.go:48-179 | Per event at most one staff alert is accepted or left unclear: alerts never exceed one plus the definite rejections |
| `OutboxWorld.LostIsSettled` | internal/application/notifications/sms_receipts.go:112-172 | A failed or cancelled SMS keeps exactly that verdict through every alert retry |
| `OutboxWorld.EarlierRoutesWereRefused` | internal/application/notifications/service.go:429-509 | If no worker acts outside its lease, every attempted route except the last was refused by its provider or reported failed |
| `OutboxWorld.UnrefusedSendIsFinal` | internal/application/notifications/service.go:429-509 | Then a send that is never refused nor reported failed stays the last attempt, through crashes and reopenings |
| `OutboxWitnesses.OutlivedLeaseOverlaps` | internal/application/notifications/service.go:429-509 | A run in which a worker outlives its lease and a third route is tried although the second was never refused |
| `OutboxWorld.EveryCallWasFresh` | internal/application/notifications/service.go:299-316 | Every call was preceded by a read that still showed the version of the notice, not started unless cancelled, and for a reminder in time and not cancelled |
| `OutboxFreshness.StepStaysFresh` | internal/application/notifications/service.go:299-316 | One step of anybody keeps every planned worker and every call fresh |
| `OutboxSafety.StepKeeps` | internal/application/notifications/service.go:188-511 | One step of anybody, on any state, keeps the invariant the safety results rest on |
| `OutboxFinality.StepStaysFinal` | internal/application/notifications/service.go:188-511 | One timely step keeps the lease and refusal invariant behind finality |
| `OutboxLateRuns.FailureIsLostExactlyBetween` | internal/application/notifications/receipts.go:43-122 | In every timely run a WhatsApp failure ends up lost (event over as accepted or uncertain, delivery rejected) if and only if a failed receipt takes effect while the lease holder, having decided, stands before a finish that then commits |
| `OutboxLostRefusals.RefusalIsLostExactlyTooLate` | internal/application/notifications/service.go:446-509 | In every run, leases outlived or not, a WhatsApp refusal ends up lost (event over as accepted or uncertain, delivery rejected) if and only if it becomes known after a worker decided on an open outcome and stays known until that worker, still the lease holder, finishes, or is recorded as a verdict after the event is over |
| `OutboxLostRefusals.LostExactlyBy` | internal/application/notifications/service.go:496-507 | Step by step, for every actor: only a lease holder's open finish over a refused row, or a refused WhatsApp verdict on an event that is over, loses a refusal, and both always do |
| `OutboxLostRefusals.KnownExactlyBy` | internal/application/notifications/receipts.go:89-122 | A delivery row becomes refused exactly by a refused verdict, an effective failed receipt, or the fallback of a stored failure at a resume or finish |
| `OutboxLateFailure.ContradictedOnlyByOverwriting` | internal/application/notifications/service.go:562-577 | Step by step: the only step that loses a failure is the finish of a lease holder whose decision a receipt has outdated |
| `OutboxLateFailure.OverwritableOnlyByReceipt` | internal/application/notifications/receipts.go:63-69 | And only an effective failed receipt outdates the decision of a lease holder before its finish |
| `OutboxLateFailure.FinishLosesExactly` | internal/application/notifications/service.go:571-576 | A finish on an open send with a known failure loses it exactly if the receipt had already reopened the notice, and reopens the notice otherwise |
| `OutboxLateFailure.FinishWithoutDelivery` | internal/application/notifications/service.go:302-319 | A finish that names no delivery row ends the notice for its own reason, is no lost failure, and only a missing messenger is reconsidered |
| `OutboxWitnesses.SenderLosesFailure` | internal/application/notifications/service.go:489-507 | A run that loses a failure between the sender's own verdict and its finish |
| `OutboxWitnesses.SuccessorLosesFailure` | internal/application/notifications/service.go:446-474 | A run that loses one at the finish of a successor that found the row sending, while no verdict was ever recorded |
| `OutboxWitnesses.SlowSenderLosesRefusal` | internal/application/notifications/service.go:446-509 | A run without any receipt: a successor finishes as uncertain, then the slow sender records its refusal, and the refusal is lost |
| `OutboxLateRuns.LostFailureStays` | internal/application/notifications/receipts.go:89-122 | Over every timely continuation a lost failure stays so: the event stays over with its outcome, no route is attempted and nothing is sent; at most the message turns out to have arrived |
| `OutboxWitnesses.LateVerdictReopens` | internal/application/notifications/service.go:496-503 | Beyond the lease it does not stay: a late verdict and a repeated receipt reopen the notice |
| `OutboxRepository.ReopenAllAt` | internal/application/notifications/unrouted_recovery.go:25-44 | Reconciliation reopens exactly the listed, finished, unattempted, unleased events, once, and no other row |
| `OutboxRepository.TriedStopsAtSuccess` | internal/application/notifications/service.go:430-510 | An undisturbed worker calls no attempted route and no route twice, goes on only after a refusal, and leaves targets untried only after a call that was not refused |
| `OutboxRepository.Repository.IngestEvent` | internal/application/notifications/service.go:145-159 | Inserts the event once; a repeated webhook changes nothing |
| `OutboxRepository.Repository.QueueWebReminder` | internal/application/notifications/web_reminder.go:36-42 | Inserts the prepared reminder event once |
| `OutboxRepository.Repository.TakeLease` | internal/application/notifications/service.go:196-211 | The claim transaction: busy, nothing to do, or leased for two minutes |
| `OutboxRepository.Repository.ReleaseLease` | internal/application/notifications/service.go:217-226 | Only the lease owner releases |
| `OutboxRepository.Repository.PrepareNotice` | internal/application/notifications/service.go:245-288 | Drops duplicate and stale versions, otherwise stores notice and record together; a lost lease writes nothing |
| `OutboxRepository.Repository.CommitIntent` | internal/application/notifications/service.go:439-462 | The durable send intent for a route that was not attempted yet |
| `OutboxRepository.Repository.RecordVerdict` | internal/application/notifications/service.go:489-503 | Verdict of a call; only a definite rejection stays retryable |
| `OutboxRepository.Repository.FinishEvent` | internal/application/notifications/service.go:562-579 | Finishes under the lease and applies a failure that arrived meanwhile |
| `OutboxRepository.Repository.ResumeFailedWhatsApp` | internal/application/notifications/receipts.go:96-106 | Busy while leased with a known failure, otherwise the fallback |
| `OutboxRepository.Repository.WhatsAppStatus` | internal/application/notifications/receipts.go:43-79 | A receipt on an attempted route: outranked, failure with fallback, or late delivery that closes the notice |
| `OutboxRepository.Repository.ReconcileUnrouted` | internal/application/notifications/unrouted_recovery.go:24-46 | Every listed event in its own transaction; returns exactly the listed events that are reopened, for scheduling |
| `OutboxRepository.Repository.ClaimSmsCheck` | internal/application/notifications/sms_receipts.go:48-84 | Claims a status check or reserves an alert retry |
| `OutboxRepository.Repository.RecordSmsStatus` | internal/application/notifications/sms_receipts.go:90-128 | Verdict of a status read with the alert reserved in the same transaction; an unknown state discards it |
| `OutboxRepository.Repository.ReleaseAlert` | internal/application/notifications/sms_receipts.go:158-172 | Only a definite rejection of the very alert reserved frees the reservation |
| `OutboxRepository.Repository.DeliverTargets` | internal/application/notifications/service.go:429-510 | The loop over targets makes exactly the calls its specification names, leaves the last verdict on the delivery row, finishes with what that row then shows (or as already attempted when it shows nothing), and changes nothing without a call |
| `OutboxWorkers.DeliversExpected` | internal/application/notifications/service.go:429-510 | The interleaved steps of an undisturbed worker make exactly the calls of that loop, with its notice, and end with the outcome it finishes with |
| `OutboxWorkers.MovesInOrder` | internal/application/notifications/service.go:188-511 | The one move each stage allows, besides giving up and dying |
| `OutboxWorkers.WritesExactly` | internal/application/notifications/service.go:188-511 | Which transaction each step of a worker is, and that it writes nothing else |
| `OutboxWorkers.RecordsOnlyPrepared` | internal/application/notifications/service.go:245-291 | Only accepting a version writes the record row |
| `OutboxWorkers.StartsExactly` | internal/application/notifications/service.go:188-294 | Where resuming, reading the clock, claiming and preparing lead |
| `OutboxWorkers.PlannedExactly` | internal/application/notifications/service.go:297-428 | The last look before sending: which check ends the notice for which reason, and when the routes are tried |
| `OutboxWorkers.EndsExactly` | internal/application/notifications/service.go:212-320 | Where planning, finishing, releasing and giving up lead |
| `OutboxWorkers.ChecksSmsExactly` | internal/application/notifications/sms_receipts.go:48-179 | Where each step of an SMS check leads, and that one step sends at most one alert |
| `OutboxWorkers.StartedExactly` | internal/application/notifications/service.go:188-196 | A task starts once under its identity, a delivery only for a stored event |
| `OutboxWorkers.OutsideExactly` | internal/application/notifications/receipts.go:20-79 | Webhooks, handoffs, receipts and recovery are their one transaction |
| `OutboxRules.FirstWebhookCounts` | internal/application/notifications/service.go:145-154 | The first webhook makes the pending event as it says, later ones change nothing |
| `OutboxRules.FirstHandoffCounts` | internal/application/notifications/web_reminder.go:36-42 | So does the first handoff, prepared with its notice |
| `OutboxRules.LeasedExactly` | internal/application/notifications/service.go:196-211 | Nothing for a finished or foreign row, busy while leased, else leased for 120 seconds, and nothing else changes |
| `OutboxRules.ReleasedByItsHolder` | internal/application/notifications/service.go:217-226 | Only the holder ends its lease |
| `OutboxRules.PreparedExactly` | internal/application/notifications/service.go:245-288 | Which versions are dropped, stored silently or told, and what event and record then say |
| `OutboxRules.PurposeExactly` | internal/application/notifications/service.go:256-263 | Cancelled versions are announced as cancelled, the first of a record as new, others as changed, each if and only if |
| `OutboxRules.ReservedExactly` | internal/application/notifications/service.go:439-462 | A route is reserved exactly if it is new and no send is open or done; what is stored then |
| `OutboxRules.VerdictExactly` | internal/application/notifications/service.go:480-503 | The outcome names the route and the answer; only a refusal stays retryable |
| `OutboxRules.RecoveredExactly` | internal/application/notifications/receipts.go:110-123 | A notice is reopened exactly if its failed WhatsApp message still counts as accepted or uncertain |
| `OutboxRules.FinishedExactly` | internal/application/notifications/service.go:562-579 | Only the lease holder finishes, with its outcome, or reopens a failed message its finish names |
| `OutboxRules.ResumedExactly` | internal/application/notifications/receipts.go:96-106 | Busy exactly while somebody holds an event with a known failure; recovery exactly when nobody does |
| `OutboxRules.ReceivedExactly` | internal/application/notifications/receipts.go:43-79 | Which receipts count, what a failure reopens and what an arrival closes again |
| `OutboxRules.ReopenedExactly` | internal/application/notifications/unrouted_recovery.go:25-44 | Exactly finished, unattempted, free events without a messenger are reopened |
| `OutboxRules.SmsCheckedExactly` | internal/application/notifications/sms_receipts.go:48-84 | When a check is due, leased for 60 seconds and paced by 300, and when an alert is reserved instead |
| `OutboxRules.SmsOutcomeExactly` | internal/application/notifications/sms_receipts.go:90-128 | Delivered, failed, cancelled and unconfirmed: which reading leads to which outcome, and only a day later for the open ones |
| `OutboxRules.SmsReadExactly` | internal/application/notifications/sms_receipts.go:90-128 | Which readings are stored and end the lease, and exactly which reserve an alert |
| `OutboxRules.AlertFreedExactly` | internal/application/notifications/sms_receipts.go:158-172 | A refused alert frees its own reservation of a failed or cancelled SMS and nothing else |
| `RoutePlan.PlanIsSound` | internal/application/notifications/routing.go:62-114 | One target per channel, SMS at the end exactly when enabled, every address the recipient's own |
| `RoutePlan.PlanIsExact` | internal/application/notifications/routing.go:62-114 | The plan holds a target if and only if policy, consent and links call for it: Telegram for a linked chat that has not opted out, the studio account for requested updates without a linked chat, WhatsApp for an opted-in phone with a template, SMS if enabled; no plan exactly for an invalid phone or order |
| `RoutePlan.OfferedExactly` | internal/application/notifications/routing.go:90-108 | What a single messenger offers, in the same terms |
| `RoutePlan.OffersFollowOrder` | internal/application/notifications/routing.go:86-109 | Messenger targets are the usable part of the configured order, in that order |
| `RoutePlan.UsableIsOrdered` | internal/application/notifications/routing.go:71-81 | The usable part has no repetition and holds exactly the channels that offer a target |
| `RoutePlan.Plan` | internal/application/notifications/routing.go:62-114 | The loops compute that plan, and refuse an invalid phone or order |
| `RoutePlan.CheckOrder` | internal/application/notifications/routing.go:75-81 | Accepts exactly the orders of distinct messengers |
| `WebBooking.OneCreatePerDraft` | deployments/web-booking/src/worker.ts:85-125 | In every interleaving of requests, crashes, status reads and cleanup each draft reaches the calendar at most once |
| `WebBooking.OneUnresolvedPerPhone` | deployments/web-booking/src/store.ts:83-97 | A phone has at most one draft in checking, sending or uncertain |
| `WebBooking.EarlierCreatesWereClosed` | deployments/web-booking/src/worker.ts:107-120 | A phone's next create starts only after the earlier one got a definite answer that was recorded |
| `WebBooking.AmbiguousCreateIsLast` | deployments/web-booking/src/worker.ts:108-117 | After an ambiguous create the phone stays locked for good and no later create for it starts |
| `WebBooking.HistoryGrows` | deployments/web-booking/src/worker.ts:85-125 | No continuation of a run loses a create |
| `WebBooking.EveryCreateWasChecked` | deployments/web-booking/src/worker.ts:85-125 | In every run each create was checked against the calendar first, belongs to the session and phone of its draft, and once its answer is recorded the draft says so for good: confirmed with its time, or rejected |
| `WebBooking.AdmittedExactly` | deployments/web-booking/src/worker.ts:54-92 | Which drafts a request may act on: its session's and phone's, ready and fresh ones for booking |
| `WebBooking.GoesOnExactly` | deployments/web-booking/src/worker.ts:85-121 | What each statement's result makes the request do next |
| `WebBooking.GivesUpExactly` | deployments/web-booking/src/worker.ts:58 | A status read makes exactly its own draft uncertain, 90 seconds after its last change |
| `WebBooking.WritesExactly` | deployments/web-booking/src/worker.ts:85-121 | Which statement each step is: a definite refusal rejects, an unknown answer leaves uncertain |
| `WebBooking.OneStatementAtATime` | deployments/web-booking/src/worker.ts:54-125 | The one statement each stage of a request allows, besides dying |
| `WebBooking.HistoryExactly` | deployments/web-booking/src/worker.ts:85-121 | What is recorded of a step: the check, the create with its answer, and the closing of a draft by a definite answer stored while it was being sent |
| `WebBooking.StepsAreStatements` | deployments/web-booking/src/worker.ts:54-125 | Each step of the system is one request's statement or the cleanup and changes nothing else |
| `WebBooking.VisitIsBooked` | deployments/web-booking/src/worker.ts:54-121 | For every draft, visitor and answer a run saves the draft, checks it, sends it once and ends confirmed, rejected or uncertain as answered |
| `WebBooking.DoKeeps` | deployments/web-booking/src/worker.ts:54-125 | One statement of one request keeps the table, sender and create invariants |
| `DraftStore.Store.ClaimDraft` | deployments/web-booking/src/store.ts:90-94 | Claims a ready, unexpired draft of the session unless its phone is locked |
| `DraftStore.Store.State` | deployments/web-booking/src/store.ts:95-97 | Compare-and-set of a draft's status |
| `DraftStore.Store.Confirmed` | deployments/web-booking/src/store.ts:98-104 | Only a draft being sent becomes confirmed, and the same batch inserts one pending reminder job for a confirmed draft whose reminder is at least five minutes ahead |
| `DraftStore.JobsKeepTheirDrafts` | deployments/web-booking/src/store.ts:98-121 | Whatever statement comes next, a reminder job that may still be sent belongs to a draft that is there and confirmed |
| `DraftStore.Store.UnresolvedPhone` | deployments/web-booking/src/store.ts:83-85 | The newest draft that locks the phone, and none exactly when the phone is free |
| `DraftStore.Store.SaveDraft` | deployments/web-booking/src/store.ts:75-82 | Refused for a locked phone; otherwise the session's ready drafts give way to the new one |
| `DraftStore.Store.CleanupDrafts` | deployments/web-booking/src/store.ts:117-121 | Frees and adds no phone lock, deletes only month-old drafts without a lock, a visit ahead or an open reminder job, changes no draft that stays, and deletes no open job |
| `DraftStore.ClaimedExactly` | deployments/web-booking/src/store.ts:90-94 | Claimable if and only if ready, fresh, the session's own and its phone not unresolved; only its status and time change |
| `DraftStore.MovedExactly` | deployments/web-booking/src/store.ts:95-97 | A compare-and-set moves exactly a draft in the expected status |
| `DraftStore.ConfirmedExactly` | deployments/web-booking/src/store.ts:98-100 | Exactly a draft being sent is confirmed, with its visit |
| `DraftStore.SavedExactly` | deployments/web-booking/src/store.ts:75-82 | The new draft holds for 900 seconds; exactly the session's other ready drafts are superseded |
| `DraftStore.RemindedExactly` | deployments/web-booking/src/store.ts:101-103 | A job is inserted exactly for a confirmed draft without one whose reminder is 300 seconds ahead; it runs out 900 after that |
| `DraftStore.CleanedExactly` | deployments/web-booking/src/store.ts:117-121 | A draft goes if and only if it is over 30 days old and nothing about it is open; a job 30 days after it ran out |
| `SmsLedger.EveryWindowWithinBudget` | deployments/web-booking/src/store.ts:19-41 | With a clock that never runs back, every sliding hour and minute of the full history respects the phone, session and IP budgets |
| `SmsLedger.EveryDayAndMonthWithinCap` | deployments/web-booking/src/store.ts:22-31 | No local day and no month exceeds its cap |
| `SmsLedger.RefusedOnlyOverBudget` | deployments/web-booking/src/store.ts:19-41 | On every reachable ledger a reservation is affordable if and only if the whole history with it respects every budget and cap, so nothing is refused without need |
| `SmsLedger.BudgetsAre` | deployments/web-booking/src/store.ts:27-36 | The budgets in numbers: five an hour per phone and session, ten per address, one code a minute per phone and session |
| `SmsLedger.DayStartsAtMidnight` | deployments/web-booking/src/store.ts:23 | Days begin at midnight four hours east of Greenwich |
| `SmsLedger.IndexesExactly` | deployments/web-booking/src/store.ts:27 | The indexes refuse exactly a repeated identity and a second row for a draft and purpose |
| `SmsLedger.StepsAreStatements` | deployments/web-booking/src/store.ts:19-41 | Each step of a run is its one statement; rows are kept for 62 days |
| `SmsLedger.CleanupReopensNothing` | deployments/web-booking/src/store.ts:113-121 | Deleting old rows changes no budget decision |
| `SmsLedger.DoKeeps` | deployments/web-booking/src/store.ts:19-41 | A reservation or a cleanup keeps every window, day and month within budget |
| `SmsLedger.Outbox.ReserveSms` | deployments/web-booking/src/store.ts:19-41 | One insert that checks every budget and both unique indexes; a refusal writes nothing |
| `SmsLedger.Outbox.Cleanup` | deployments/web-booking/src/store.ts:120 | Rows of the retention time stay, each as often as stored, others go, and no later reservation is decided differently |
| `WebReminder.AtMostOneSms` | deployments/web-booking/src/notifications.ts:37-82 | With fixed configuration a job sends at most one SMS across crashes, reruns, recoveries and cleanup, and none when it hands off |
| `WebReminder.DoKeeps` | deployments/web-booking/src/notifications.ts:37-82 | One step of one worker keeps the invariant that only one active worker holds an unsent job |
| `WebReminder.ReminderJobs.ReminderState` | deployments/web-booking/src/store.ts:64-66 | Compare-and-set of the job's state |
| `WebReminder.ReminderJobs.RecoverReminderHandoffs` | deployments/web-booking/src/store.ts:59-63 | Takes back only stuck handoffs, never an SMS job |
| `WebReminder.ReminderJobs.Remind` | deployments/web-booking/src/notifications.ts:37-82 | A worker alone does what its interleaved steps do: acts on a pending job only, leaves it pending only after something that can be repeated, sends only with its own reservation; when the job ends as done or skipped |
| `WebReminder.RecoveredExactly` | deployments/web-booking/src/store.ts:59-63 | Exactly a handoff job stuck in checking for over 300 seconds is taken back |
| `WebReminder.StepsExactly` | deployments/web-booking/src/notifications.ts:37-82 | Which compare-and-set, reservation or call each step is, and where it leads |
| `WebReminder.MovedExactly` | deployments/web-booking/src/store.ts:64-66 | The job moves exactly from the expected state |
| `WebReminder.SurroundingsExactly` | deployments/web-booking/src/store.ts:98-121 | The job is inserted pending; runs start once and may vanish; cleanup forgets rows and jobs |
| `ReminderHandoff.RepeatedHandoffsMakeOneEvent` | internal/application/notifications/web_reminder.go:15-47 | Repeated handoffs of one visit make exactly one prepared event, with the notice and instant of the first accepted one, and touch no other row |
| `ReminderHandoff.OneEventPerName` | internal/application/notifications/web_reminder.go:33-42 | Whatever the handoffs, the event of a visit is the one its first accepted handoff made |
| `ReminderHandoff.AcceptedExactly` | internal/application/notifications/web_reminder.go:15-32 | A handoff counts if and only if proof, phone, status and lead time fit and it is at most 15 minutes late |
| `ReminderHandoff.NamedAfterVisit` | internal/application/notifications/web_reminder.go:33-34 | The event is named after record, version and due time |
| `PhoneRuns.CodesAreMetered` | internal/application/cabinet/identity.go:176-240 | For every account and every phone, over any sequence of requests: codes are a minute apart and at most nine fall in any hour |
| `PhoneRuns.NineDoHappen` | internal/application/cabinet/identity.go:176-240 | For every account, phone and six-character code there is a run that texts nine codes within an hour, so the bound is exact |
| `PhoneRuns.TenTakeAnHour` | internal/application/cabinet/identity.go:200-217 | Ten codes in a row always span an hour, because a window opens with a code |
| `PhoneRuns.CodesAreLimited` | internal/application/cabinet/identity.go:242-278 | Each code is tried at most five times, within five minutes of being sent, and not again after the right try |
| `PhoneRuns.ProofsAreEarned` | internal/application/cabinet/identity.go:144-278 | In every run a stored proof names the phone of a code that was sent for this account and typed by it, or of a contact it shared, and ends 180 days after that |
| `PhoneRuns.RightCodeProves` | internal/application/cabinet/identity.go:242-278 | In every reachable state a typed code changes the account's proof if and only if it is the last code sent and that is still waited for; it then proves that code's phone |
| `PhoneRuns.ContactProves` | internal/application/cabinet/identity.go:144-168 | An accepted contact proves its phone, any other message proves nothing |
| `PhoneRuns.OthersProveNothing` | internal/application/cabinet/identity.go:84-240 | Asking, cancelling and sending leave every proof alone |
| `PhoneRuns.StepsAreTransactions` | internal/application/cabinet/identity.go:84-278 | Each step of a run is its one transaction on the stored entries |
| `PhoneRuns.DoKeepsCodes` | internal/application/cabinet/identity.go:84-278 | No begin, cancel, confirm or contact breaks the link between a challenge and its code |
| `PhoneRuns.DoKeepsAccountMeter` | internal/application/cabinet/identity.go:84-278 | No step relaxes an account's window counters |
| `PhoneRuns.DoKeepsNumberMeter` | internal/application/cabinet/identity.go:84-278 | No step relaxes a phone's window counters |
| `PhoneChallenge.Identity.BeginProof` | internal/application/cabinet/identity.go:84-96 | A live code survives a new request; otherwise a number is asked for |
| `PhoneChallenge.Identity.CancelProof` | internal/application/cabinet/identity.go:112-120 | Forgets the code, not the counters |
| `PhoneChallenge.Identity.SendCode` | internal/application/cabinet/identity.go:176-240 | Both windows are checked before either is charged; a refusal writes nothing |
| `PhoneChallenge.Identity.ConfirmCode` | internal/application/cabinet/identity.go:242-278 | Counts the attempt, locks at the fifth, and consumes a right code for the proof of its phone; expired, limited and invalid are told apart |
| `PhoneChallenge.Identity.AcceptTelegramContact` | internal/application/cabinet/identity.go:144-168 | Accepts an own contact once; a repeated delivery is recognised |
| `PhoneChallenge.BeginAsksForNumber` | internal/application/cabinet/identity.go:84-96 | A live code is kept; otherwise a number is asked for during 600 seconds, and no counter is reset |
| `PhoneChallenge.CancelForgets` | internal/application/cabinet/identity.go:112-120 | Phase, code and contact go, the counters stay |
| `PhoneChallenge.ChargedExactly` | internal/application/cabinet/identity.go:205-220 | An entry pays if and only if a minute passed since its last code and its hour holds fewer than five; how the window moves |
| `PhoneChallenge.CodeIsSentExactly` | internal/application/cabinet/identity.go:198-231 | A code is sent if and only if a number is awaited and both entries can pay; it holds 300 seconds |
| `PhoneChallenge.CodeProvesExactly` | internal/application/cabinet/identity.go:242-278 | Exactly the right six characters in time and within five tries prove the phone the code was sent to, for 180 days; when an answer is expired, limited or invalid, and when the chat locks |
| `PhoneChallenge.ContactIsAcceptedExactly` | internal/application/cabinet/identity.go:144-168 | A contact is accepted if and only if a number is awaited, and recognised if and only if it is the same message and proof |
| `ChatRuns.EveryRequestWasAgreed` | internal/application/assistant/tools.go:894-1060 | Whatever tools the model calls, every create, cancel and reschedule carries out what the conversation opened with, field by field and complete, asked under another message and proposed at most an hour before, for the profile the message was opened for and with its phone proved |
| `ChatRuns.OpenedExactly` | internal/application/assistant/service.go:869-880 | A chat that changed hands keeps nothing but a draft waiting for the phone just proved |
| `ChatRuns.ResumedExactly` | internal/application/assistant/booking_verification.go:41-72 | A parked draft is brought back if and only if its own phone is proved and it can still be booked, else forgotten |
| `ChatRuns.VerifiedExactly` | internal/application/assistant/cabinet.go:140-192 | A right code makes the chat the profile's and forgets every other proposal |
| `ChatRuns.ActsExactly` | internal/application/assistant/cabinet.go:140-192 | What each move but the tools does to a message, and which of them end it |
| `ChatRuns.MovesExactly` | internal/application/assistant/service.go:820-880 | Opening stores the conversation as opened, saving as held, an answer of staff forgets both proposals |
| `ChatRuns.NeverTwoProposals` | internal/application/assistant/management.go:44-55 | A stored or live conversation never holds a booking draft and a change at once |
| `ChatRuns.OneSuccessPerMessage` | internal/application/assistant/service.go:1107-1129 | In one handling of a message at most one request succeeds, and it is the last; a message that is delivered again is handled anew |
| `ChatRuns.ReadBackUnlessParked` | internal/application/assistant/booking_verification.go:43-53 | A booking is requested after its details were read back under another message if and only if its draft was not parked for phone proof when prepared or was brought back since; a draft that is not parked now always was |
| `ChatRuns.ParkedDraftCanBeBooked` | internal/application/assistant/booking_verification.go:11-17 | A concrete run books a parked draft whose details were never read back |
| `ChatRuns.NothingStoredDecides` | internal/application/assistant/tools.go:907-911 | Two runs leave the same customer, draft and change stored, one after a read-back and one without: nothing the tools read decides whether a parked draft was read back |
| `ChatRuns.ParkedAgainIsReadBack` | internal/application/assistant/tools.go:907-911 | A concrete run books a draft that was read back, then parked again when the proof lapsed, and is still parked |
| `ChatRuns.SameKeySameVisit` | internal/application/assistant/tools.go:837-852 | Requests with one idempotency key book the same visit, across all messages |
| `ChatRuns.YesChangesAtMostOnce` | internal/application/assistant/service.go:978-1003 | An exact yes to a pending change sends at most one change, whatever the model asks for next |
| `ChatRuns.ReplyKeeps` | internal/application/assistant/service.go:972-1129 | The whole handling of a message, from exact answers to the last tool round, sends only agreed requests and succeeds at most once |
| `ChatRuns.ActKeeps` | internal/application/assistant/cabinet.go:140-192 | Tools, verification, resumption and dropped drafts keep the proposal invariant |
| `ChatRuns.OnlySoldServicesAreBooked` | internal/application/assistant/tools.go:913-925 | A booking is sent only while every service of the draft is still sold and none merely adds time |
| `ChatTools.AdmittedIsBounded` | internal/application/assistant/service.go:1052-1130 | The loop runs at most eight calls a round and six rounds |
| `ChatTools.ExecutionSplits` | internal/application/assistant/service.go:1107-1129 | Running two batches in turn is running their concatenation, stopping where the answer is fixed |
| `ChatRules.CompleteDraftIsConfirmable` | internal/domain/booking/draft.go:62-85 | A complete draft of a visit ahead can be confirmed for an hour |
| `ChatRules.RecentChangeIsApplicable` | internal/domain/booking/change.go:36-52 | So can a question, and a move while its new time is ahead |
| `ChatRules.OwnedIsFirst` | internal/application/assistant/management.go:287-310 | The first booking with the reference decides, and only a manageable one is found |
| `ChatRules.NotListedIsNotOwned` | internal/application/assistant/management.go:287-310 | A reference that is not listed is not found |
| `ChatRules.FirstServiceDecides` | internal/application/assistant/tools.go:913-925 | The first service that cannot be booked decides: unknown fails, extra time refuses |
| `ChatRules.PrepareKeepsOnlyTheNew` | internal/application/assistant/tools.go:775-885 | Both proposals go with every readable request; which visit becomes the draft, and when it is parked |
| `ChatRules.BookSendsExactly` | internal/application/assistant/tools.go:913-1045 | When a request is sent, which outcomes forget the draft and which ends the message |
| `ChatRules.ConfirmSendsExactly` | internal/application/assistant/tools.go:894-1045 | A draft is sent if and only if it is complete, recent, ahead, from another message, its phone proved and every service bookable |
| `ChatRules.ConfirmEndsExactly` | internal/application/assistant/tools.go:894-1045 | The message ends exactly by a booking made or a phone to be proved |
| `ChatRules.ConfirmForgetsExactly` | internal/application/assistant/tools.go:894-1045 | The draft goes exactly when it can no longer be booked, was booked or its time was refused; else it is parked or stays |
| `ChatRules.CancelIsAskedExactly` | internal/application/assistant/management.go:16-70 | What a cancellation asks, keeps and forgets |
| `ChatRules.CancelIsSentExactly` | internal/application/assistant/management.go:72-121 | When a cancellation is sent, and for which booking |
| `ChatRules.CancelEndsExactly` | internal/application/assistant/management.go:72-121 | When the customer is answered and when the question is forgotten |
| `ChatRules.MoveIsAskedExactly` | internal/application/assistant/management.go:131-210 | What a move asks, keeps and forgets |
| `ChatRules.MoveIsSentExactly` | internal/application/assistant/management.go:212-281 | When a move is sent, for which booking and to which time |
| `ChatRules.MoveEndsExactly` | internal/application/assistant/management.go:212-281 | When the customer is answered and when the question is forgotten: a refused time forgets it without answering |
| `ChatRules.ChangesNeedAProof` | internal/application/assistant/tools.go:520-535 | Without a proved phone nothing about a booking is asked or sent |
| `ChatRules.ToolsDoTheirWork` | internal/application/assistant/tools.go:520-560 | Otherwise each call reaches its tool |
| `ChatRules.NoEndsTheQuestion` | internal/application/assistant/service.go:978-990 | A no, and a yes that comes too late, end the question and send nothing |
| `ChatRules.YesTriesOnce` | internal/application/assistant/service.go:990-1003 | A yes carries out the question with the tool for it, once |
| `ChatRules.OtherwiseOnlyBookingWords` | internal/application/assistant/service.go:1003-1011 | Anything else leaves the question alone; only booking words confirm a draft |
| `ChatRules.ReplyEnds` | internal/application/assistant/service.go:972-1051 | A button with nothing to answer ends the message; without a model nothing else happens |
| `ChatRules.AdmittedIsPrefix` | internal/application/assistant/service.go:1052-1130 | The calls that run are those of the model's answers up to the first that is empty, too long, stuck or over budget |
| `ChatRules.RepliesRunSixRounds` | internal/application/assistant/service.go:1052-1130 | Six rounds, eight calls each, 16000 tokens and at least 512 left |
| `ChatRules.CallsRunInOrder` | internal/application/assistant/service.go:1107-1129 | One call after another; after an attempted change none touches changes again |
| `ChatRules.AnswersAreFinal` | internal/application/assistant/service.go:1107-1129 | No call runs once the answer is fixed |
| `ChatSession.Session.Prepare` | internal/application/assistant/tools.go:775-885 | Clears both proposals before any lookup, then stores and offers, or parks, the new draft |
| `ChatSession.Session.Confirm` | internal/application/assistant/tools.go:894-1045 | Sends the stored draft only when valid, older than the message, proved and still sold; what each outcome leaves behind |
| `ChatSession.Session.VerificationPrompt` | internal/application/assistant/booking_verification.go:11-17 | Parks the draft and ends the message |
| `ChatSession.Session.PrepareCancellation` | internal/application/assistant/management.go:16-70 | Keeps an identical pending change, otherwise asks anew |
| `ChatSession.Session.ConfirmCancellation` | internal/application/assistant/management.go:72-121 | Cancels the stored reference only |
| `ChatSession.Session.PrepareReschedule` | internal/application/assistant/management.go:131-210 | Keeps an identical pending change, otherwise asks anew |
| `ChatSession.Session.ConfirmReschedule` | internal/application/assistant/management.go:212-281 | Moves the stored reference to the stored time only |
| `ChatSession.Session.FindOwned` | internal/application/assistant/management.go:287-310 | The first booking with the reference, if it can be managed |
| `ChatSession.Session.CheckServices` | internal/application/assistant/tools.go:913-925 | The first service that is gone or cannot be booked alone |
| `ChatSession.Session.Run` | internal/application/assistant/tools.go:520-560 | Dispatch; changes need a proved phone |
| `ChatSession.Session.ReadAnswer` | internal/application/assistant/service.go:978-1011 | Exact answers are carried out by the application |
| `ChatSession.Session.RunRounds` | internal/application/assistant/service.go:1052-1130 | The bounded loop runs exactly the admitted calls until one fixes the answer |
| `ChatSession.Session.Answer` | internal/application/assistant/service.go:972-1130 | A message from exact answer to the last round |
| `ChannelHealth.BlockIsClearedByLaterProbe` | internal/application/notifications/health.go:41-136 | After a rejection the channel is open again only if a probe claimed later found it so, outside an operator hold |
| `ChannelHealth.StaleProbeChangesNothing` | internal/application/notifications/health.go:65-70 | A probe in flight at the rejection changes nothing, whatever it found |
| `ChannelHealth.HealthChangesOnlyBy` | internal/application/notifications/health.go:71-93 | A failed, unknown, displaced or held probe leaves the stored health as it is |
| `ChannelHealth.HealthGuard.BeginProbe` | internal/application/notifications/health.go:44-53 | Leases a probe unless held, leased or paced |
| `ChannelHealth.HealthGuard.FinishProbe` | internal/application/notifications/health.go:65-94 | Stores what a probe found, keeps unknown templates, and reserves one alert per change |
| `ChannelHealth.HealthGuard.BlockChannel` | internal/application/notifications/health.go:127-136 | Blocks at once and takes the lease away |
| `ChannelHealth.ProbedExactly` | internal/application/notifications/health.go:41-62 | A probe is claimed for 60 seconds exactly while nobody holds channel or lease and 300 passed |
| `ChannelHealth.StoredExactly` | internal/application/notifications/health.go:63-95 | What is stored is what was read, except templates it says nothing about, and exactly if the lease held and nobody paused the channel |
| `ChannelHealth.ToldExactly` | internal/application/notifications/health.go:84-101 | Staff are told if and only if what is blocked, paused or unapproved changed, and of a first reading only if something is |
| `ChannelHealth.BlockedExactly` | internal/application/notifications/health.go:127-137 | A rejection blocks at once, drops the lease and paces the next look by 60 seconds |
| `ChannelHealth.StepsAreTransactions` | internal/application/notifications/health.go:41-137 | Each step of a run is its one transaction, with the instant its probe was claimed at |
| `ReminderWake.WakesAhead` | internal/application/reminders/service.go:440-462 | A reminder not yet due wakes later than now, not after it is due, and at the least checkpoint ahead |
| `ReminderWake.WithinHorizon` | internal/application/reminders/service.go:440-462 | The wake is at most 29 days ahead if and only if the clock is not behind the creation time or the reminder is near |
| `ReminderWake.CheckpointsAreDays` | internal/application/reminders/service.go:24-27 | Checkpoints are 29 days apart |
| `ReminderWake.SameTaskBetweenCheckpoints` | internal/application/reminders/service.go:443-450 | Retries between two checkpoints ask for the same task |
| `ReminderWake.ChainReachesDue` | internal/application/reminders/service.go:265-268 | However late the tasks run, the reminder is reached within one wake per 29 days |
| `ReminderWake.PunctualChain` | internal/application/reminders/service.go:440-462 | A punctual chain visits every checkpoint, so the bound is exact |
| `ReminderWake.ScheduleWake` | internal/application/reminders/service.go:440-462 | The loop finds that instant |
| `CalendarFile.EventReadsBack` | internal/application/calendar/calendar.go:204-219 | Title, place and description are read back under their own names, with line endings normalised |
| `CalendarFile.InstantsReadBack` | internal/application/calendar/calendar.go:203-206 | Identity, stamp, start and end are read back under UID, DTSTAMP, DTSTART and DTEND |
| `CalendarFile.OpeningReadsBack` | internal/application/calendar/calendar.go:206 | Calendar and event are opened before them, with version, producer and scale |
| `CalendarFile.ClosingReadsBack` | internal/application/calendar/calendar.go:206 | Status and transparency follow, and event and calendar are closed last |
| `CalendarFile.AlarmReadsBack` | internal/application/calendar/calendar.go:206 | The alarm rings 24 hours ahead and shows the title |
| `CalendarFile.FileReadsBack` | internal/application/calendar/calendar.go:204-219 | Unfolded and split, any such file gives back exactly its lines |
| `CalendarFile.FileLinesArePhysical` | internal/application/calendar/calendar.go:208-217 | Every physical line is at most 75 octets, whole code points and no line ending inside |
| `CalendarFile.TextsReadBack` | internal/application/calendar/calendar.go:198-206 | Every text property comes back under its name |
| `CalendarFile.Ics` | internal/application/calendar/calendar.go:204-219 | The nested loops write that file and end |
| `CalendarFile.FindCut` | internal/application/calendar/calendar.go:211-213 | The inner loop finds the cut |
| `IcsText.UnescapeEscape` | internal/application/calendar/calendar.go:198-200 | Unescaping by section 3.3.11 of RFC 5545 inverts escaping up to line endings |
| `IcsText.EscapeIsTextValue` | internal/application/calendar/calendar.go:198-200 | An escaped text is a text value of section 3.3.11 of RFC 5545: every backslash, comma and semicolon is escaped and no line ends |
| `IcsText.UnfoldFold` | internal/application/calendar/calendar.go:209-217 | Unfolding by section 3.1 of RFC 5545 inverts folding |
| `IcsText.FoldIsPhysical` | internal/application/calendar/calendar.go:209-217 | Folding well-formed UTF-8 never splits a code point |
| `IcsText.CutMakesProgress` | internal/application/calendar/calendar.go:210-216 | A cut shortens the line if and only if some octet from the third to the 76th starts a code point |
| `CalendarFile.TextIsWrittenExactly` | internal/application/calendar/calendar.go:208-217 | For arbitrary bytes: the loop over the line of a text property ends if and only if the text has no 74 continuation bytes in a row |
| `CalendarFile.SomeTextIsNeverWritten` | internal/application/calendar/calendar.go:208-217 | A letter and 80 continuation bytes make a text for which it does not end |
| `CalendarFile.ValidTextsAreWritten` | internal/application/calendar/calendar.go:204-219 | Well-formed UTF-8 has no such run |
| `IcsText.LoopEndsExactly` | internal/application/calendar/calendar.go:209-217 | The same for any line that begins with two code point starts |
| `IcsText.LongRunGetsStuck` | internal/application/calendar/calendar.go:210-216 | With such a run the loop comes to a line that the next cut gives back unchanged |
| `IcsText.EscapeKeepsLongRuns` | internal/application/calendar/calendar.go:198-200 | Escaping neither makes nor breaks such a run |
| `Utf8.ValidSplit` | internal/application/calendar/calendar.go:211-213 | Cutting before a code point start leaves two well-formed halves |
| `ChoicePayload.ChoiceRoundTrip` | internal/adapters/messaging/meta/choices.go:13-27 | A choice comes back as sent if and only if its token is non-empty and colon-free, its label non-empty UTF-8 and the payload at most 1000 bytes; otherwise it reads as expired |
| `ChoicePayload.ForeignPayloadsExpire` | internal/adapters/messaging/meta/choices.go:17-27 | A payload of any origin is a choice if and only if it names a token and its rest decodes to a text; every other is answered as expired |
| `ChoicePayload.ExpiredReads` | internal/adapters/messaging/meta/choices.go:17-27 | What an expired choice is answered with |
| `ChoicePayload.PayloadsAreDistinct` | internal/adapters/messaging/meta/choices.go:13-15 | No two sendable choices share a payload |
| `ChoicePayload.DecodeEncode` | internal/adapters/messaging/meta/choices.go:14 | Decoding inverts unpadded base64url on all bytes |
| `ChoicePayload.EncodedLength` | internal/adapters/messaging/meta/choices.go:14 | Four letters for three bytes, no padding |
| `ChoicePayload.GroupKeepsBits` | internal/adapters/messaging/meta/choices.go:14 | A group's letters carry its 24 bits, most significant first |
| `ChoicePayload.ShortGroupsPadWithZeros` | internal/adapters/messaging/meta/choices.go:14 | The bits a short last group leaves over are zero |
| `ChoicePayload.ValuesFollowTable` | internal/adapters/messaging/meta/choices.go:24 | Only the letters of the table have a value |
| `ChoicePayload.OnlyLineBreaksArePassedOver` | internal/adapters/messaging/meta/choices.go:24 | Line breaks are passed over, any other foreign byte spoils the text |
| `ChoicePayload.PayloadLooks` | internal/adapters/messaging/meta/choices.go:13-15 | A small c, the token and the encoded label, separated by colons |
| `ChoicePayload.LettersFollowTable` | internal/adapters/messaging/meta/choices.go:14 | The letters are those of table 2 of RFC 4648 |
| `TextChunks.ChunksAreSized` | internal/adapters/messaging/meta/choices.go:100-118 | Every chunk has between one and `limit` runes |
| `TextChunks.OnlyNewlinesAreLost` | internal/adapters/messaging/meta/choices.go:100-118 | The text is its chunks with runs of newlines between them |
| `TextChunks.EverythingVisibleArrives` | internal/adapters/messaging/meta/choices.go:100-118 | All other characters arrive in order |
| `TextChunks.Split` | internal/adapters/messaging/meta/choices.go:100-118 | The loop computes those chunks and ends for every limit from one up |
| `TextChunks.FindEnd` | internal/adapters/messaging/meta/choices.go:104-110 | The last line end in the second half, or the limit |
| `TextChunks.CutAtLineEnd` | internal/adapters/messaging/meta/choices.go:104-110 | A chunk that is not the last ends at the last line end of its second half, and fills the limit exactly if there is none |
| `AppointmentSms.SmsFits` | internal/application/appointmentmessage/sms.go:11-39 | No layout exceeds 201 UTF-16 units while the year has four digits, whatever the texts |
| `AppointmentSms.BoundIsExact` | internal/application/appointmentmessage/sms.go:11-39 | The bound holds for all appointments of a year if and only if the year is below 10000, and the long layout reaches it |
| `AppointmentSms.Compose` | internal/application/appointmentmessage/sms.go:11-39 | The slice of lines built step by step is that message |
| `AppointmentSms.SmsSaysEverything` | internal/application/appointmentmessage/sms.go:11-39 | Read line by line the message says title, date and then link and bot or phone, or else what there is of service, specialist, address and phone, in this order |
| `AppointmentSms.DateReadsBack` | internal/application/appointmentmessage/sms.go:14 | Day, month, year, hour and minute are read back from their places, for every year |
| `SmsText.FieldFits` | internal/application/appointmentmessage/sms.go:41-60 | A field keeps its limit if and only if the limit is at least one or there is nothing to show |
| `SmsText.FieldShows` | internal/application/appointmentmessage/sms.go:41-60 | A text that fits is shown whole, a longer one as its longest start that leaves room for the ellipsis |
| `SmsText.TrimIsCore` | internal/application/appointmentmessage/sms.go:59 | Trimming takes off exactly the white space at both ends |
| `SmsText.SpacesFollowUnicode` | internal/application/appointmentmessage/sms.go:42 | White space is the Unicode property of that name |
| `SmsText.LengthsFollowUnicode` | internal/application/appointmentmessage/sms.go:12-60 | Lengths in UTF-16 and UTF-8 by code point |
| `SmsText.FitIsLongest` | internal/application/appointmentmessage/sms.go:48-58 | What is kept is the longest prefix that leaves room for the ellipsis |
| `SmsText.CollapseIsTidy` | internal/application/appointmentmessage/sms.go:42 | Collapsing keeps every visible character and only single spaces between words |
| `SmsText.ShortField` | internal/application/appointmentmessage/sms.go:41-60 | The loop over runes computes that field |

## Left out

- Hashes, keyed digests, random identities and idempotency keys: taken to be injective or fresh, not computed.
- Phone normalisation: phones are compared as given; where normalisation can fail it is a parameter.
- Consent, language and template selection inside delivery: the plan a worker follows is any list of routes; what a plan may look like is `RoutePlan`.
- Contact, calendar and management fields of record rows, and the transactions that only touch them.
- The 24-hour filter that selects unrouted events before their transactions: any list of events may be reopened.
- Time stamps that no decision reads, logging, and the scheduling of follow-up tasks.
- HTTP handlers, JSON, provider clients and the stores behind the transactions: only their outcome classes remain.
- Request rate buckets, sessions and SMS receipts of the web form: independent counters and status reads.
- The statement that inserts a reminder job on its own: nothing calls it; jobs come with the confirmation.
- State gates, typing, menus and delivery claims of a chat message: a message may be handled at any time and any number of times.
- Texts rendered for customers: a confirmation text is taken to be non-empty, which is what ends a message after a success.
- Whether a reply that offers a summary reaches the customer: a summary counts as read back when its message was answered with it.
- The start of a month: any function that maps an instant to an earlier one at most 31 days back and is constant until the next month.
- OutboxWorld.EarlierRoutesWereRefused: assumes that no worker acts after its lease ran out, because a worker that does can overlap its successor, as `OutboxWitnesses.OutlivedLeaseOverlaps` shows.
- OutboxWorld.UnrefusedSendIsFinal: the same assumption.
- OutboxLateRuns.FailureIsLostExactlyBetween: the same assumption; `OutboxLostRefusals.RefusalIsLostExactlyTooLate` is the statement without it.
- OutboxLateRuns.LostFailureStays: the same assumption; `OutboxWitnesses.LateVerdictReopens` shows that it is needed.
- WebReminder.AtMostOneSms: a job is inserted once, with the confirmation of its draft, which is what `WebBooking.OneCreatePerDraft` gives; configuration does not change during a run.
- ReminderHandoff.RepeatedHandoffsMakeOneEvent: proof and phone of the record row are one flag of the handoff.
- TextChunks.Split: texts are sequences of runes, so the replacement of malformed bytes is not modelled; a limit of zero, for which the original loop does not end, is excluded.
- CalendarFile.Ics: needs well-formed UTF-8; instants and the digest in the identifier are given as ASCII strings.
- AppointmentSms.SmsFits: years before year zero are not modelled.
- RoutePlan.Plan: the template of the policy is given without surrounding white space.
