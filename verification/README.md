# Clock backend: a verified model

A Dafny model of the appointment, referral and messaging core of the Clock backend, with proofs of what that core
promises. The backend keeps all its state in MongoDB and changes it in transactions with snapshot reads, first-committer-wins
write conflicts and unique indexes. The model keeps those three mechanisms and proves its results for every run of any number
of concurrent transactions, not for one call at a time.

How the modules fit together:

- `Snapshots` models one transaction's private view and how it is laid over whatever was committed meanwhile.
- `Economics`, `Money`, `MoneySafety` hold the affiliate ledger, payouts, reservations and commissions, and the invariant they keep.
- `Availability`, `Bookings`, `BookingSafety` hold slots, appointments, one-minute interval locks, the timeline and referral
  conversions, and the invariant they keep.
- `System`, `Runs` join both halves: one `Db`, one `Execute` per command, and runs of interleaved transactions. Every run is the
  serial run of its committed commands.
- `Guarantees`, `AffiliateViews` state what follows in every reachable state; `Retries`, `AppointmentViews` what a request that is sent
  again does and answers; `Histories` shows that every serial history is a run and builds
  the concrete histories in which the code falls short.
- `BookingAnswers`, `MoneyAnswers`, `ConversationAnswers` say for every command, without reference to how it is computed, exactly when it
  is carried out in a reachable state, with which error it is refused otherwise, and what it leaves; `BookingRecords` says what the
  stored conversions, credits and appointments tell in every run about the requests that made them.
- `Sessions`, `AffiliateServices`, `BookingServices`, `Transactions` are the services in their own form: methods that
  work step by step on a session's collections, each proved against the function that specifies it.
- `ConversationStateMachine`, `Conversations`, `ConversationRuns`, `ConversationServices` are the bot, the engine and the handoff service.
- `BotBookings`, `BotRuns`, `BotOrders`, `BotServices` join the conversations and the store: a message and the booking it orders are one
  transaction, and the store stays one that commands alone can reach.
- `Notifications`, `NotificationWorkers` are the notification service, and any number of workers with leases and an advancing clock.
- `AuditSanitizer`, `CustomerPager` are the audit metadata sanitizer and the cursor pager.
- `Wrappers`, `Errors`, `Sequences`, `Text` are shared vocabulary.

Five things the proofs turned up about the code:

- Sanitizing audit metadata twice is not always the same as sanitizing once. An object on the deepest level whose key turns
  sensitive only after its hundredth character is first marked redacted and, on a second pass, truncated.
  `AuditSanitizer.SanitizingTwiceCanDiffer` gives the input and `AuditSanitizer.SanitizingTwiceIsOnceIffSettled` the exact condition.
- Optional request fields accept an explicit null, and the terms check tests only for undefined. Accepted affiliate terms may
  therefore lack the percentage or amount that the calculation reads (`Economics.NormalizedTermsAreSupplied`, `Economics.NullPercentageIsAccepted`).
- Moving an appointment to a start it was moved to before always aborts, because the timeline key of a move is its start.
  `Guarantees.OfferedMovesSucceedUnlessRepeated` gives the exact condition, `Histories.SecondMoveIsRefused` a reachable case.
- `docs/appointment-lifecycle.md` says that repeating a lifecycle command returns the original result. The code returns the
  view of the appointment at that moment, and the model follows the code. The two agree exactly if the command was not a start, or the
  appointment is still in progress and is overdue at both times or at neither (`Retries.OutcomeIsAnsweredAgain`). Both ways to differ
  are reachable: `Histories.RepeatedStartIsAnsweredDifferently` and `Histories.RepeatedStartTurnsOverdue`.
- A notification whose worker stops at the last allowed attempt stays processing for ever
  (`NotificationWorkers.AbandonedAtTheLimitStays`, for whatever limit the claims respect; reached by
  `NotificationWorkers.AbandonmentHappens`).

## Model

| member | source | states |
|---|---|---|
| Guarantees.NoOverdraft | src/affiliates/affiliate-payout.store.ts:36-70 | In every state of every run of concurrent transactions, credits minus debits minus processing payouts of an account is never negative. |
| Guarantees.ProcessingIsCapped | src/affiliates/affiliate-payout.store.ts:72-97 | Nobody ever has more than 100 payouts processing over all currencies, although settling takes no capacity lock. |
| Guarantees.OneSnapshotAdmitsOnePayout | src/affiliates/affiliate-payout.store.ts:55-97 | Of any two new payouts of one affiliate admitted on the same snapshot, at most one commits, whatever their accounts and amounts. |
| Guarantees.PayoutNeedsItsLocks | src/affiliates/affiliate-payout.store.ts:55-97 | An admitted payout commits only onto a state in which nobody else has written its balance lock or its capacity lock. |
| Guarantees.BumpPreventsWriteSkew | src/affiliates/affiliate-payout.store.ts:55-70 | On one store with one credit of ten, the same two payouts without their version bumps both commit and leave the account at -10; with the bumps the second does not commit. |
| Guarantees.PaidExactlyOnce | src/affiliates/affiliate-payout.service.ts:169-250 | A payout is PAID exactly if one PAYOUT_PAID debit exists for it, and that debit has its account and amount. |
| Guarantees.ClosedPayoutsStayClosed | src/affiliates/affiliate-payout.service.ts:169-250 | A payout takes at most one terminal step: once closed it is the same document in every later state. |
| Guarantees.ReversedAtMostOnce | src/affiliates/affiliate-ledger.service.ts:77-182 | A commission credit has at most one reversal per tenant, and a reversal repeats the account, conversion and amount of an earned credit. |
| Retries.VerdictIsUnambiguous | src/affiliates/affiliate-ledger.service.ts:110-126 | Whichever row the reversal replay query happens to return, the verdict is the same, by the two unique indexes. |
| Guarantees.CommissionsAreConserved | src/affiliates/affiliate-detail.service.ts:79-139 | Per affiliate and currency, all commissions ever agreed equal the expected ones plus the credited ones plus the forfeited ones. |
| Guarantees.CreditedIffCompleted | src/affiliates/affiliate-ledger.service.ts:20-75 | A conversion has exactly one commission credit if its appointment is completed and none otherwise. |
| Guarantees.ConversionsAreImmutable | src/affiliates/referral-attribution.service.ts:35-82 | A recorded conversion never changes, and two conversions of one tenant never share an appointment. |
| Guarantees.NoDoubleBooking | src/appointments/appointments.service.ts:179-242 | No two live appointments of one staff member overlap in any reachable state, although each booking read a possibly stale agenda. |
| Guarantees.LockTableIsExact | src/appointments/appointment-interval-lock.service.ts:11-66 | A lock row names an appointment exactly if that appointment is live and covers the locked minute of its staff member. |
| Guarantees.OfferedSlotsCanBeLocked | src/availability/availability.service.ts:49-81 | A slot that the availability check lets through can be locked if and only if it is minute-aligned. |
| Guarantees.OfferedBookingsSucceed | src/appointments/appointments.service.ts:147-255 | A new booking of an offered slot, with its relations found and its referral accepted, is made if and only if it is minute-aligned and its generated identifiers are new. |
| Guarantees.OfferedMovesSucceedUnlessRepeated | src/appointments/appointment-management.service.ts:202-281 | A move to an offered start succeeds if and only if it is minute-aligned and the appointment was never moved to that start before. |
| Guarantees.OfferedChannelMovesSucceedUnlessRepeated | src/appointments/conversation-booking.handler.ts:132-201 | From the conversation channel, where the present start is no exception, a move to an offered start succeeds if and only if it is minute-aligned and the appointment was never moved to that start before. |
| Guarantees.RepeatedStartsStayBarred | src/appointments/appointment-effects.service.ts:133-134 | A start that an appointment was once moved to is barred for it in every later state. |
| Histories.SecondMoveIsRefused | src/appointments/appointment-effects.service.ts:133-134 | A reachable history (booked, moved away, moved back) after which the first move is offered and minute-aligned and still refused with a duplicate key. |
| Guarantees.TimelineReconstructs | src/appointments/appointment-effects.service.ts:19-218 | The newest timeline event of an appointment carries its current status, start and end. |
| Guarantees.OutcomesAreFinal | src/appointments/appointment-lifecycle.service.ts:151-224 | Cancelled, completed and missed appointments never change again. |
| Guarantees.OneAppointmentPerConversation | src/appointments/conversation-booking.handler.ts:41-130 | One conversation creates at most one appointment. |
| Retries.RetriesAreNoOps | src/affiliates/affiliate-payout.service.ts:252-281 | A keyed request that once succeeded succeeds again at any later time and changes nothing, with whatever clock, generated identifiers, agenda and referral it carries by then; only a customer who was found must still exist. |
| Retries.CommittedCommandsRepeat | src/appointments/appointments.service.ts:159-160 | A keyed request whose command committed in a run can be sent again in every later state of that run, with a new clock and new identifiers, without effect. |
| Retries.EveryCommandTakesEffectOnce | src/appointments/appointment-management.service.ts:202-281 | No request takes effect twice: sent again at any later time, with whatever the clock and the lookups give by then, it changes nothing, and the theorem says exactly when it still succeeds. |
| Retries.CommittedCommandsTakeEffectOnce | src/appointments/conversation-booking.handler.ts:132-247 | A request that took effect when it committed never takes effect again in any later state of the run, whichever channel sends it again and whatever it finds by then. |
| Retries.OutcomeIsAnsweredAgain | src/appointments/appointment-lifecycle.service.ts:222-257 | A repeated outcome request is answered with the view of the current appointment at the current time. That is the original answer exactly if the request was not a start, or the appointment is still in progress and is overdue at both times or at neither. |
| Histories.RepeatedStartIsAnsweredDifferently | src/appointments/appointment-lifecycle.service.ts:222-257 | A reachable history (booked, started, completed) after which the same start is answered with another view than the first time. |
| Histories.RepeatedStartTurnsOverdue | src/appointments/appointment.view.ts:89-117 | A reachable history (booked, started) in which nothing is written between a start and its repetition at the end of the appointment, and the first answer shows it in progress while the second requires an outcome. |
| AppointmentViews.ViewsSayWhatIsDue | src/appointments/appointment.view.ts:89-169 | A view requires an outcome exactly of an appointment that is over and neither cancelled, completed nor missed, and its outcome state says which of the six cases applies. |
| Runs.RunsAreSerial | src/database/database.service.ts:16-27 | Every reachable state equals running the committed commands one after another in commit order: snapshot isolation is serializable for these transactions. |
| Histories.ReachableIffSerial | src/database/database.service.ts:16-27 | The states that concurrent runs can reach are exactly the outcomes of serial command histories. |
| BookingAnswers.NewBookingAnswers | src/appointments/appointments.service.ts:147-255 | In every reachable state a booking under a new key is made exactly if its relations, its referral, its start, its identifiers and its minutes are in order, each refusal names its error, and no lock ever refuses it; it leaves a confirmed appointment with exactly its minutes, its first event, and exactly one agreed conversion if it was referred. |
| BookingAnswers.ChannelBookingAnswers | src/appointments/conversation-booking.handler.ts:41-130 | A booking from a conversation is answered the same way, under the key of the conversation whatever key it names, and never with a conversion. |
| BookingAnswers.AttributionIs | src/affiliates/referral-attribution.service.ts:15-82 | A referral is refused for missing numbers, a wrong currency, no commission or a self-referral, with the matching error; otherwise its one conversion holds the amounts that the code gives for the price, on the account of the affiliate. |
| BookingAnswers.CancellationAnswers | src/appointments/appointment-management.service.ts:147-200 | In every reachable state a cancellation that finds its appointment is carried out exactly if the appointment is pending or confirmed and no event was recorded under the cancellation time, or repeated if it was cancelled for the same trimmed reason; afterwards it is cancelled with that reason and time and none of its minutes is locked. |
| BookingAnswers.ChannelCancellationAnswers | src/appointments/conversation-booking.handler.ts:203-247 | From a conversation exactly the own pending or confirmed appointment of the customer is cancelled, under the same condition on the event, with the fixed reason and no previous state. |
| BookingAnswers.MoveAnswers | src/appointments/appointment-management.service.ts:202-281 | A move to another start is refused exactly for an inactive appointment, a missing relation, a past, closed or taken start, a start off the minute, or one it was moved to before, each with its error; otherwise exactly its minutes move and its event says from where. |
| BookingAnswers.ChannelMoveAnswers | src/appointments/conversation-booking.handler.ts:132-201 | From a conversation the same holds for the own active appointment of the customer within its location, and its present start is no exception. |
| BookingAnswers.OutcomeAnswers | src/appointments/appointment-lifecycle.service.ts:37-257 | In every reachable state a first outcome request succeeds exactly under the guard of its outcome and writes exactly its status, time, reason, note and event; every refusal has its error; a used key is repeated or refused; and completing a referred appointment credits exactly its commission. |
| BookingRecords.CommittedConversionsAreAgreed | src/affiliates/referral-attribution.service.ts:15-82 | Every conversion in every run was agreed by a committed referred booking: affiliate, currency, customer, service and code are those of that booking, its four amounts are what the code gives for the price, and nobody referred themselves. |
| BookingRecords.CreditsAreAgreed | src/affiliates/affiliate-ledger.service.ts:20-75 | Every credit in every run is exactly the commission that the code of a committed booking gives for its price, on the account of its affiliate in its currency. |
| BookingRecords.EveryRecordTellsItsStory | src/appointments/appointment-lifecycle.service.ts:37-149 | In every run an appointment was started no more than half an hour early, was completed only if it had been started or was over, was missed only once it should have begun and with a note for an unlisted reason, and has a cancellation reason exactly if cancelled. |
| BookingRecords.CreditedMeansServed | src/appointments/appointment-lifecycle.service.ts:66-108 | A commission is credited only for a completed appointment that had been started or was over when it was completed. |
| MoneyAnswers.ReachableLocksExist | src/affiliates/affiliate-ledger.service.ts:31-59 | In every reachable state each account with a ledger entry or a payout has both its lock documents. |
| MoneyAnswers.PayoutAnswers | src/affiliates/affiliate-payout.service.ts:43-121 | In every reachable state a payout under a new key is created exactly if the customer exists, fewer than 100 are processing, the available amount covers it and its identifier is new, so a missing lock never refuses what the balance covers; each refusal has its error and the whole new state is stated. |
| MoneyAnswers.SettlementAnswers | src/affiliates/affiliate-payout.service.ts:169-228 | In every reachable state a processing payout is settled exactly if its terminal key and its debit are new, whatever the balance; a closed one is repeated exactly if status, key and text are the same; paying debits exactly the amount and anything else debits nothing. |
| MoneyAnswers.ReversalAnswers | src/affiliates/affiliate-ledger.service.ts:77-182 | In every reachable state a credit is reversed exactly if the reason has 6 to 500 characters, neither the credit nor the key was used before, the amount is still available and the identifier is new; the debit repeats account, conversion, appointment and amount. |
| Runs.CommitIsSerial | src/database/database.service.ts:16-27 | Whatever a transaction read from its snapshot, what it commits is what its command does to the state it commits onto. |
| Runs.EveryStateIsSound | src/affiliates/affiliate-payout.service.ts:43-121 | The joint invariant of bookings and money holds in every state of every run, and every open snapshot is a state the current one evolved from. |
| Runs.LaterStatesEvolve | src/affiliates/affiliate-ledger.service.ts:20-75 | Ledger, timeline and conversions only grow, closed documents stay, and lock versions guard balances and capacity between any two states. |
| System.ExecuteKeepsSound | src/appointments/appointments.service.ts:147-270 | Each of the ten transactions, alone, keeps the whole invariant and only evolves the state. |
| System.OutcomeKeepsSound | src/appointments/appointment-lifecycle.service.ts:177-221 | Applying an outcome, with the commission it earns, keeps bookings, ledger and the link between them. |
| System.CreditedCompletionKeepsLinked | src/affiliates/affiliate-ledger.service.ts:20-75 | Completing a referred appointment moves exactly its commission from expected to earned. |
| Transactions.Perform | src/database/database.service.ts:16-27 | With nobody else about, a command that is not refused always commits and leaves exactly what it means; a refused one leaves nothing. |
| Transactions.Work | src/appointments/appointments.service.ts:147-270 | The services, working step by step on a session, do exactly what the command means on the state the session started from. |
| Sessions.Database.Begin | src/database/database.service.ts:16-27 | A session starts on the current state. |
| Sessions.Database.Commit | src/database/database.service.ts:16-27 | After a commit every document the session changed has the session's value and had not changed since its snapshot, every other one has the value committed meanwhile, new rows follow the rows committed meanwhile, and all unique indexes hold; a refused commit writes nothing. |
| MoneySafety.CreateSerializes | src/affiliates/affiliate-payout.service.ts:65-90 | A payout admitted on a stale snapshot is admitted by the state it commits onto, because both lock bumps survived. |
| MoneySafety.SettleSerializes | src/affiliates/affiliate-payout.service.ts:179-219 | A settlement that commits found its payout as it read it and writes what it would have written alone. |
| MoneySafety.EarnSerializes | src/affiliates/affiliate-ledger.service.ts:31-75 | Earning commits without bumping any lock, and still does what it would have done alone. |
| MoneySafety.EarnKeepsSound | src/affiliates/affiliate-ledger.service.ts:31-75 | Earning keeps the account solvent and, bumping no lock, never lowers what an admitted payout relied on. |
| MoneySafety.ReverseSerializes | src/affiliates/affiliate-ledger.service.ts:127-182 | A reversal admitted on a stale snapshot is admitted by the state it commits onto. |
| MoneySafety.PayKeepsSound | src/affiliates/affiliate-payout.service.ts:191-219 | Paying keeps the invariant and turns a reservation into a debit of the same amount: what is available stays exactly what it was. |
| MoneySafety.FreeKeepsSound | src/affiliates/affiliate-payout.service.ts:212-219 | Failing or cancelling keeps the invariant, raises what is available by exactly the reserved amount and writes no ledger entry. |
| MoneySafety.UndoKeepsSound | src/affiliates/affiliate-ledger.service.ts:127-182 | Reversing a credit that is still available keeps the account solvent and pairs the debit with its credit. |
| AffiliateServices.AcquireBalanceLock | src/affiliates/affiliate-payout.store.ts:55-70 | Bumps the version of an existing balance lock; without a lock document nothing is available. |
| AffiliateServices.AssertProcessingCapacity | src/affiliates/affiliate-payout.store.ts:72-97 | Lets a payout through exactly if the capacity lock exists, which it bumps, and fewer than 100 are processing. |
| AffiliateServices.AvailableBalance | src/affiliates/affiliate-payout.store.ts:36-53 | The ledger balance minus what processing payouts reserve, read under the bumped balance lock. |
| AffiliateServices.CreatePayoutIn | src/affiliates/affiliate-payout.service.ts:43-121 | Replays, guards, locks and inserts in order, with the outcome and error that the specification gives. |
| AffiliateServices.RecoverCreate | src/affiliates/affiliate-payout.service.ts:100-121 | After a duplicate-key abort only a payout with the same account, amount, key and reference is returned. |
| AffiliateServices.SettlePayoutIn | src/affiliates/affiliate-payout.service.ts:169-228 | Replays a closed payout, or locks, debits if paid, and closes it under its terminal key. |
| AffiliateServices.RecoverSettlement | src/affiliates/affiliate-payout.service.ts:229-249 | After a duplicate-key abort only a payout that already ended exactly as asked is returned. |
| AffiliateServices.EarnCompletedCommission | src/affiliates/affiliate-ledger.service.ts:20-75 | Credits the conversion of a completed appointment once, creating its lock documents if they are missing. |
| AffiliateServices.ReverseCommissionIn | src/affiliates/affiliate-ledger.service.ts:77-207 | Checks the reason, finds the credit, replays or refuses, and otherwise debits it back under the bumped balance lock. |
| AffiliateViews.BalancesAgree | src/affiliates/affiliate-balance.view.ts:20-54 | The signed sum by direction, the typed sum and the amount that admits payouts agree; available is never negative, paid matches the paid payouts and never exceeds earned, expected is exactly the open commissions. |
| AffiliateViews.SignedSumIsTypedSum | src/affiliates/affiliate-ledger.service.ts:209-241 | Summing entries by direction equals credits minus reversals minus paid. |
| AffiliateViews.ExpectedIsOpenFate | src/affiliates/affiliate-detail.service.ts:79-105 | Joining conversions with open appointments of the tenant sums exactly the commissions still expected. |
| AffiliateViews.EachCurrencyIsListedOnce | src/affiliates/affiliate-balance.view.ts:25-53 | The balance list has one row per currency that any aggregate mentions, in order, and no other row. |
| AffiliateViews.PageHoldsEveryProcessingPayout | src/affiliates/affiliate-detail.service.ts:53-166 | The payout page always holds every processing payout, at most 100 in all, each once, newest first; it leaves something out exactly when it says truncated, is then full, and what it leaves out is closed and older. |
| AffiliateViews.GroupByConversion | src/affiliates/affiliate-detail.service.ts:241-247 | One pass collects each conversion's rows in their order. |
| AffiliateViews.ActivityViews | src/affiliates/affiliate-detail.service.ts:231-285 | One view per conversion whose appointment, service and customer were found, in page order, with its own rows and state. |
| AffiliateViews.ActivitiesFollowThePage | src/affiliates/affiliate-detail.service.ts:231-285 | The views are those of exactly the conversions whose appointment, service and customer were found, in page order. |
| AffiliateViews.ActivityTellsTheTruth | src/affiliates/affiliate-detail.service.ts:287-299 | In every reachable state EXPECTED means open, NOT_EARNED means cancelled or missed, EARNED or REVERSED means completed, and REVERSED exactly that the credit was debited back. |
| Economics.AcceptedEconomicsAreBounded | src/affiliates/affiliate-economics.ts:99-137 | An accepted price splits into discount and final amount, the commission lies between one and the final amount, and all stay safe integers. |
| Economics.AcceptanceIsExact | src/affiliates/affiliate-economics.ts:99-137 | A code is accepted exactly if its currencies match and what is left of the price yields at least one unit of commission, for all six combinations of types, and each refusal has its error; the commission is then the agreed amount, or the largest whole number of units within the agreed percentage. |
| Economics.CommissionIsWithinOneUnit | src/affiliates/affiliate-economics.ts:113-141 | Two truncating divisions stay less than one minor unit away from the exact percentage of a percentage. |
| Economics.CommissionIsMonotoneInPrice | src/affiliates/affiliate-economics.ts:99-141 | With one code a dearer service never earns less. |
| Economics.PercentageIsMonotone | src/affiliates/affiliate-economics.ts:139-141 | A percentage grows with the amount, by no more than the amount does. |
| Economics.NormalizedTermsAreSupplied | src/affiliates/affiliate-economics.ts:36-97 | Accepted terms supply what the calculation reads exactly if no needed field was an explicit null. |
| Economics.TermsAreAcceptedExactly | src/affiliates/affiliate-economics.ts:36-97 | Terms are accepted exactly if each field is sent by the type that needs it and by no other and they start before they expire; they are stored as sent, except for currencies that are not texts. |
| Economics.NullPercentageIsAccepted | src/affiliates/affiliate-economics.ts:36-97 | A request with null percentages is accepted although the calculation cannot use it. |
| Availability.BuildAvailabilitySlots | src/availability/availability-calculator.ts:41-99 | The loops end with a list, sorted by start, name and id and without duplicates, that holds a staff member's start exactly if it is on the 15-minute grid of a working interval, fits, and meets no closure and no appointment. |
| Availability.AddInterval | src/availability/availability-calculator.ts:56-90 | Walking one working interval adds exactly its free grid starts. |
| Availability.OfferedExactly | src/availability/availability-calculator.ts:41-143 | A start is offered exactly if it lies on a quarter of an hour from the opening of a shift of the day or of the part of an extra working time that falls on the day, the service ends by the closing, and no closure and no appointment of that staff member meets it. |
| Availability.WindowLosesNothing | src/availability/availability.service.ts:166-207 | Fetching only the exceptions and appointments that touch the day offers exactly the slots that fetching all would. |
| Availability.Compute | src/availability/availability.service.ts:83-219 | A staff member's start is listed exactly if it is in the future and offered, judged on everything stored, and no start of a staff member is listed twice. |
| Availability.AssertSlotAvailable | src/availability/availability.service.ts:49-81 | Gives the past, conflict or unavailable answer, or none, as the offered slots with and without appointments decide. |
| Availability.AppointmentsOnlyRemove | src/availability/availability-calculator.ts:66-76 | A slot is offered exactly if it is offered on an empty agenda and no appointment of that staff member overlaps it. |
| Availability.ConflictMeansFreeButForAppointments | src/availability/availability.service.ts:55-80 | The past answer means exactly a start that is not in the future, the conflict answer that somebody would be free and everybody who would is taken, the unavailable answer that nobody would be, and no refusal that somebody offers it. |
| BookingSafety.AvailabilityAgreesWithLocks | src/availability/availability-calculator.ts:136-143 | For a minute-aligned interval, no live appointment overlaps it if and only if none of its minutes is locked by another appointment. |
| BookingSafety.BusyTimesAreComplete | src/availability/availability.service.ts:191-207 | Looking only at the location's appointments misses none of the staff member's, because staff belong to one location. |
| BookingSafety.VerdictFollowsLocks | src/availability/availability.service.ts:49-81 | A requested start passes exactly if it would on an empty agenda and its minutes are unlocked. |
| BookingSafety.PutKeepsSound | src/appointments/appointment-interval-lock.service.ts:11-66 | Any write of an appointment with its locks and event keeps the lock table exact and the timeline telling. |
| BookingSafety.CreateSerializes | src/appointments/appointments.service.ts:179-242 | A booking checked on a stale agenda commits only if it would also have been made on the current one. |
| BookingSafety.MoveSerializes | src/appointments/appointment-management.service.ts:227-265 | A move checked on a stale agenda commits only if it would also have been made on the current one. |
| BookingSafety.RescheduleIsPut | src/appointments/appointment-management.service.ts:246-265 | Replacing the locks of a moved appointment succeeds exactly if the new minutes are aligned, free of others, and the event key is unused. |
| BookingSafety.CreateIsPut | src/appointments/appointments.service.ts:179-242 | A booking writes its appointment, conversion, locks and event exactly under the stated guards, and otherwise nothing. |
| BookingSafety.OutcomeIsPut | src/appointments/appointment-lifecycle.service.ts:177-221 | Start keeps the locks of the appointment, completion and no-show release them. |
| BookingServices.MinuteStarts | src/appointments/appointment-interval-lock.service.ts:69-90 | The cursor loop lists every minute start of an ordered, minute-aligned interval once, in order, and refuses any other interval. |
| BookingServices.AcquireLocks | src/appointments/appointment-interval-lock.service.ts:11-36 | Inserts one lock per minute, or refuses on the first minute that is taken. |
| BookingServices.ReleaseLocks | src/appointments/appointment-interval-lock.service.ts:38-47 | No lock of the tenant names the appointment any more, every other lock is as it was, and no lock is new. |
| BookingServices.ReplaceLocks | src/appointments/appointment-interval-lock.service.ts:49-66 | Releases and acquires; minutes shared by the old and new interval do not conflict with themselves. |
| BookingServices.RecordEvent | src/appointments/appointment-effects.service.ts:190-218 | Appends an event unless its key is taken for the appointment. |
| BookingServices.RecordLifecycle | src/appointments/appointment-effects.service.ts:132-168 | Appends the timeline event of a cancellation or move under its time or start; without a previous state the source status is the new one. |
| BookingServices.CreateIn | src/appointments/appointments.service.ts:159-250 | Replays by key, refuses an unknown relation or a rejected referral, asks availability, then inserts appointment, conversion, locks and event, or nothing. |
| BookingServices.CancelIn | src/appointments/appointment-management.service.ts:147-200 | Repeating a cancellation with the same reason is a no-op; an active appointment is cancelled, unlocked and recorded. |
| BookingServices.RescheduleIn | src/appointments/appointment-management.service.ts:202-281 | The same start is a no-op; otherwise availability is checked without the appointment itself and its locks are replaced. |
| BookingServices.CreateFromChannelIn | src/appointments/conversation-booking.handler.ts:41-130 | Books under the conversation's one key, without a referral. |
| BookingServices.CancelFromChannelIn | src/appointments/conversation-booking.handler.ts:203-247 | Cancels the customer's own active appointment, recording no previous state. |
| BookingServices.RescheduleFromChannelIn | src/appointments/conversation-booking.handler.ts:132-201 | Moves the customer's own active appointment within its location, recording no previous state. |
| BookingServices.TransitionIn | src/appointments/appointment-lifecycle.service.ts:151-224 | Applies a start, completion or no-show patch, releases the locks of a closed appointment and records the event. |
| BookingServices.ApplyOutcomeIn | src/appointments/appointment-lifecycle.service.ts:37-224 | Completing also earns the referral's commission in the same transaction; a replay earns nothing. |
| NotificationWorkers.OneLeaseAtATime | src/notifications/notification.service.ts:113-150 | With any number of workers, at most one holds an unexpired lease on a notification. |
| NotificationWorkers.OnlyTheNewestClaimReports | src/notifications/notification.service.ts:156-206 | Only the worker with the newest attempt number can write an outcome; an overtaken worker changes nothing. |
| NotificationWorkers.SentStaysSent | src/notifications/notification.service.ts:113-207 | A sent notification is the same document in every later state. |
| NotificationWorkers.AuditedOnceIffSent | src/notifications/notification.service.ts:173-185 | There is exactly one delivery audit event if the notification is sent, and none otherwise. |
| NotificationWorkers.SendsAreBounded | src/notifications/notification.service.ts:81-154 | The provider is called at most once per attempt, so at most 20 times for one notification. |
| NotificationWorkers.NothingIsSentEarly | src/notifications/notification.service.ts:121-154 | In every run every call to the provider comes at or after the time its notification is scheduled for. |
| NotificationWorkers.ClaimsAreCounted | src/notifications/notification.service.ts:113-150 | In every run a notification is claimed exactly as often as it has attempts, at most 20 times: the work ends. |
| NotificationWorkers.AbandonedIsClaimableBelowTheLimit | src/notifications/notification.service.ts:121-132 | An abandoned claim is taken up again exactly if attempts are left and its lease is over. |
| NotificationWorkers.AbandonedAtTheLimitStays | src/notifications/notification.service.ts:121-132 | Abandoned at any attempt limit that all later claims of the run respect, a notification stays the same processing document for ever: delivery is not guaranteed. |
| NotificationWorkers.EveryClaimIsWithinTwenty | src/notifications/notification.service.ts:81-87 | Every claim of every run respects the limit of twenty attempts, so that limit at least always applies. |
| NotificationWorkers.AbandonmentHappens | src/notifications/notification.service.ts:121-132 | A run that leaves a due notification abandoned at its twentieth attempt, with its lease over and no claim that could ever take it. |
| Notifications.NotificationService.CreateIntent | src/notifications/notification.service.ts:24-79 | The first intent under a key wins, the same intent again returns it unchanged, a different one is refused. |
| Notifications.NotificationService.ClaimOne | src/notifications/notification.service.ts:113-150 | Whatever it returns was due, below the limit, of the asked tenant and identifier, and waiting, failed or past its lease; it is the first such by schedule, creation and identifier, and gets one more attempt and a five-minute lease; none exactly if nothing is due. |
| Notifications.NotificationService.Dispatch | src/notifications/notification.service.ts:152-207 | Reports sent, with its audit event, or failed, only while the claim still holds the newest attempt. |
| Notifications.NotificationService.ProcessPending | src/notifications/notification.service.ts:81-97 | Counts exactly what it sent and failed, spends one attempt on each, takes at most 100, stops early only when nothing is claimable; every notification is as it was, or ended sent or failed within the attempts allowed and is of the asked tenant and was not sent before. |
| Notifications.NextIsUnique | src/notifications/notification.service.ts:143 | Which notification a claim takes is determined. |
| Notifications.NextIsDueAndFirst | src/notifications/notification.service.ts:121-143 | The next notification of a claim, by any worker, is due and comes first by schedule, creation and identifier. |
| Notifications.SafeErrorCode | src/notifications/notification.service.ts:239-244 | Stored error codes are one to eighty capitals, digits or underscores; a well-formed reason is kept as it is. |
| ConversationRuns.HistoryReconstructs | src/conversations/conversation-engine.service.ts:140-155 | The newest history entry of a conversation is its current state and context; entries link from-to, never repeat a state, and start from nothing. |
| ConversationRuns.HumanControlMeansHandoff | src/conversations/handoff.service.ts:82-218 | Human control implies a handoff with an assignee; bot control means nobody is assigned. |
| ConversationRuns.NoWordInAHandoff | src/conversations/conversation-engine.service.ts:104-138 | When the bot replies or orders, the conversation is at the commit itself under bot control, outside a handoff, in the state the message was heard in. |
| ConversationRuns.CommandsCarryTheAnswers | src/conversations/conversation-state-machine.ts:80-261 | Every command carries exactly the customer's latest answer to each question, and follows a confirmation or the new time. |
| ConversationRuns.EventsAreProcessedOnce | src/conversations/conversation-engine.service.ts:68-75 | Each provider event is processed at most once. |
| ConversationRuns.ContextsAreWellFormed | src/conversations/conversation-state-machine.ts:33-45 | Each bot state has one fixed set of collected fields, none of them empty. |
| ConversationRuns.CommitIsSerialOrSilent | src/conversations/conversation-engine.service.ts:57-168 | A commit changes nothing, logs a message nobody answers, or does what the operation does to the current conversation. |
| ConversationRuns.EveryStoreIsSound | src/conversations/handoff.service.ts:33-218 | The conversation invariant holds in every run that mixes messages, requests, claims, reassignments and releases. |
| ConversationAnswers.MessagesAreAnswered | src/conversations/conversation-engine.service.ts:57-168 | A committed message is silent exactly if its conversation was read in a handoff; otherwise what is said, ordered, stored and recorded is the transition of the conversation as it is at the commit, and no other conversation is touched. |
| ConversationAnswers.MessagesAreRefusedOnlyAsDuplicates | src/conversations/conversation-engine.service.ts:57-90 | A message is refused exactly if its event was processed before or the identifier for its new conversation is in use. |
| ConversationAnswers.CommandsFollowTheirChoice | src/conversations/conversation-state-machine.ts:47-162 | Over the whole log of every run each command follows a menu choice of its kind, with no other visit to the menu of that conversation in between. |
| ConversationAnswers.RequestAnswers | src/conversations/handoff.service.ts:33-80 | In every run a request is refused or repeated exactly as the control and state say, and otherwise moves the conversation into a handoff with its context and one history entry. |
| ConversationAnswers.ClaimAnswers | src/conversations/handoff.service.ts:82-126 | A waiting handoff goes to the first active claimant; whoever has it may claim it again without effect, and nobody else may. |
| ConversationAnswers.ReassignmentAnswers | src/conversations/handoff.service.ts:128-170 | Only a conversation under human control can be reassigned, only to an active member, and it stays in its handoff with everything else as it was. |
| ConversationAnswers.ReleaseAnswers | src/conversations/handoff.service.ts:172-218 | Only a conversation under human control can be released; it is then under bot control at the menu with nothing collected. |
| ConversationAnswers.HandoffRoundTrip | src/conversations/handoff.service.ts:33-218 | Request, claim and release always succeed in this order and in no other; together they leave the conversation at the menu with exactly two more history entries and no message. |
| Conversations.ExecuteKeepsSound | src/conversations/handoff.service.ts:33-218 | Each message and each handoff action keeps the conversation invariant. |
| Conversations.TransitionKeepsMemory | src/conversations/conversation-state-machine.ts:33-45 | After each message the collected fields are still the latest answers. |
| ConversationStateMachine.TransitionsKeepContextsWellFormed | src/conversations/conversation-state-machine.ts:164-261 | Transitions lead from one state's fixed field set to the next one's. |
| ConversationStateMachine.CollectedFieldsComeFromAnswers | src/conversations/conversation-state-machine.ts:164-261 | A collected field is the message if its question was just asked, and otherwise is kept from the same flow. |
| ConversationStateMachine.CommandsAreGivenExactlyWhenConfirmed | src/conversations/conversation-state-machine.ts:80-162 | A command is given exactly on a confirmation keyword or a new time; the missing-field fallbacks are unreachable. |
| ConversationStateMachine.CommandsRepeatTheContext | src/conversations/conversation-state-machine.ts:116-160 | A command repeats every collected field in its place. |
| ConversationStateMachine.ContextChangesOnlyWithState | src/conversations/conversation-state-machine.ts:164-261 | A context never changes without a state change, and only the menu keyword has an effect in a handoff. |
| ConversationStateMachine.MenuChoices | src/conversations/conversation-state-machine.ts:47-78 | At the menu each choice opens its own flow with its own question and nothing collected, any other text shows the menu again, and the menu keyword leads there from everywhere. |
| ConversationStateMachine.ConfirmationChoices | src/conversations/conversation-state-machine.ts:80-162 | At the two confirmations the confirming words give the command, the others go back or leave, and any other text is asked again with everything kept. |
| ConversationStateMachine.AnswersAreCollected | src/conversations/conversation-state-machine.ts:164-261 | In every other state the answer is collected as it was given and the one next question is asked; the new time completes a move. |
| ConversationStateMachine.FlowsComeFromTheMenu | src/conversations/conversation-state-machine.ts:47-261 | A flow is entered only by one of its menu choices and left only for the menu or a handoff. |
| ConversationStateMachine.WordsAreLowered | src/conversations/conversation-state-machine.ts:27-31 | Keywords are compared whatever the case of their letters. |
| ConversationStateMachine.SeparatorsAreOneUnderscore | src/conversations/conversation-state-machine.ts:27-31 | Any run of spaces, dots and dashes between two words counts as one underscore. |
| ConversationServices.ConversationSession.LoadConversation | src/conversations/conversation-engine.store.ts:76-114 | Returns the thread's conversation, or opens one at the main menu with its first history entry. |
| ConversationServices.ConversationSession.ProcessTransaction | src/conversations/conversation-engine.service.ts:57-168 | Refuses a taken event, keeps silent in a handoff, and otherwise stores the transition, its history entry and the exchange. |
| ConversationServices.ConversationSession.RequestIn | src/conversations/handoff.service.ts:33-80 | Moves a bot conversation into a handoff with its context and a history entry; repeating is a no-op, a human conversation is refused. |
| ConversationServices.ConversationSession.ClaimIn | src/conversations/handoff.service.ts:82-126 | Gives a waiting handoff to the actor; the same actor again is a no-op, anyone else is refused. |
| ConversationServices.ConversationSession.ReassignIn | src/conversations/handoff.service.ts:128-170 | Changes the assignee of a human conversation and nothing else. |
| ConversationServices.ConversationSession.ReleaseIn | src/conversations/handoff.service.ts:172-218 | Returns a human conversation to the main menu with an empty context and a history entry. |
| ConversationServices.ConversationSession.UpdateControl | src/conversations/handoff.service.ts:248-273 | The conversation has the given state, control, assignee and context, stays on its thread and gets a newer revision; every other conversation is as it was. |
| BotServices.ProcessInbound | src/conversations/conversation-engine.service.ts:36-55 | In at most three attempts, each an actual run of the transaction, a message is committed, found to be a duplicate, or refused by the transaction itself: lost identity races alone never make it fail. |
| BotServices.TwoRacesAtMost | src/conversations/conversation-engine.service.ts:50 | The customer's phone and the conversation's thread can each be lost to a concurrent message only once, so the third attempt loses neither. |
| BotServices.ProcessMessage | src/conversations/conversation-engine.service.ts:57-168 | The engine and the command handler, working step by step in one transaction, do exactly what the message means; a refused booking refuses the whole message. |
| BotRuns.BookingsAreHonored | src/appointments/conversation-booking.handler.ts:41-130 | In runs that mix messages with every other command, each booking command the bot ever gave has exactly one appointment under its conversation's key, with its fingerprint, for the customer of the thread and the service and professional that the command names, booked for the date and time that it names. |
| BotRuns.OneRequestPerConversation | src/appointments/conversation-booking.handler.ts:47-70 | All committed booking commands of one conversation are one and the same request. |
| BotRuns.OrdersAreAtomic | src/conversations/conversation-engine.service.ts:121-144 | A committed message changes the store by exactly what its exchange orders, carried out on the store as it is at the commit. |
| BotRuns.RefusedOrdersLeaveNothing | src/conversations/conversation-engine.service.ts:121-138 | In every run a message whose booking is refused never commits; its transaction stays open or is abandoned, and abandoning it leaves conversations, log, customers and store as they were. |
| BotOrders.EveryStoreIsReachable | src/conversations/conversation-engine.service.ts:57-168 | The store of every run with the bot is one that runs of commands alone can reach, so every guarantee about those holds here. |
| BotOrders.CancellationsAreCarriedOut | src/appointments/conversation-booking.handler.ts:203-247 | A committed message that orders a cancellation cancels in the same step the appointment its text refers to, which was the own and still active one of the customer, and changes nothing else in the store. |
| BotOrders.MovesAreCarriedOut | src/appointments/conversation-booking.handler.ts:132-201 | A committed message that orders a move has moved the own appointment of the customer, within its location, to the date and time that it names, which were on offer. |
| BotRuns.EveryWorldIsSound | src/conversations/conversation-engine.service.ts:57-168 | The joint invariant of conversations and store holds in every run that mixes messages, handoffs and every other command. |
| BotBookings.OrderCommits | src/appointments/conversation-booking.handler.ts:41-247 | A bot order carried out on a stale store commits only as what it does to the current one. |
| AuditSanitizer.StoredMetadataIsSafe | src/audit/audit.service.ts:14-41 | Stored metadata is at most five containers deep, within every width limit, and shows no value under a sensitive key, even when shortened keys collide. |
| AuditSanitizer.SanitizedShowsWhatItMay | src/audit/audit.service.ts:14-35 | Everything that fits is shown as it is: scalars unchanged, the beginning of longer texts and lists, each shortened key once with the last of its values, and the right mark for whatever is hidden, too deep or not storable. |
| AuditSanitizer.SensitiveMeansTelling | src/audit/audit.service.ts:11-12 | A key is sensitive exactly if it spells one of the telling words in any case. |
| AuditSanitizer.SanitizingTwiceIsOnceIffSettled | src/audit/audit.service.ts:14-35 | A second pass changes nothing exactly if no kept entry on the deepest level has a key that is sensitive only beyond its hundredth character. |
| AuditSanitizer.SanitizingTwiceCanDiffer | src/audit/audit.service.ts:14-35 | The concrete metadata for which a second pass does change something. |
| AuditSanitizer.ShortKeysSettle | src/audit/audit.service.ts:27 | Metadata without overlong keys sanitizes to a fixpoint. |
| AuditSanitizer.FromEntriesKeepsLast | src/audit/audit.service.ts:23-32 | Of keys that collide after shortening, the object keeps one, with the last value. |
| CustomerPager.PagesListEveryMatchOnce | src/customers/customers.service.ts:51-91 | Following the cursors ends, every page but the last is full, and the pages together are the sorted matches, each once. |
| CustomerPager.PagingIsComplete | src/customers/customers.service.ts:51-91 | The whole listing is in id order and holds exactly the customers of the tenant whose name contains the trimmed term in any case or whose phone number contains it literally, and all of them without a term. |
| CustomerPager.CursorResumes | src/customers/customers.service.ts:77-89 | The next cursor resumes exactly where the page ended. |

## Left out

- Write conflicts are detected by comparing documents with the snapshot, and by explicit versions where the code bumps or stamps one; an update that would store the very same document conflicts with nothing. Version numbers stand for the update times that Mongoose writes, so two writes of one document in one millisecond count as different.
- Network errors, unknown commit outcomes and driver retries: a transaction may be abandoned at any point, and that is all.
- Sums and counters are unbounded integers; only single amounts are kept within the safe range.
- Identifiers are natural numbers, fingerprints are injective values, no client's booking fingerprint is one of the bot's (they digest other fields), and names are ordered by a given collation function.
- The local clock of a day is a given partial map from wall-clock times to instants of that day; time-zone rules are not modelled.
- A command reads the clock once; the code reads it again while computing slots.
- A staff member's location is fixed for a whole run. Catalogue changes (services, staff, schedules) reach the transactions as parameters of each request.
- Availability is tied to the locks for minute-aligned intervals only: exceptions may carry seconds, and such starts are refused when locking.
- Reading and rating evidence and surveys, appointment management tokens, code usability dates and public access checks.
- Notification rows, audit rows and receipts that the booking, payout and handoff transactions append beside their main effect.
- The order of conversions and ledger rows on the activity page is taken as given, since the model keeps no creation times for them.
- Notifications.NotificationService.ProcessPending: its contract is for one worker alone between its claims; what other workers may do in between is covered by `NotificationWorkers`.
- Notification delivery itself, template choice and the waiting between attempts; a send is an arbitrary success or failure.
- BotServices.ProcessInbound: plain write conflicts are retried by the driver below an attempt and are not attempts of their own.
- Of an appointment view, the channel, the notes and the creation time, which no command modelled here changes, and the display names that list queries add.
- BookingServices.RecordLifecycle: the notification and the audit row written beside the timeline event are left out.
- BookingServices.CreateIn: the lookups of relations, and the customer record of a public booking, enter as given facts.
- Evidence and survey events, which share the timeline's key index with the events modelled here.
- The customer behind a phone number, the service, professional or appointment that a text refers to, and the instant that a date and time denote at a location are given functions; of customer records only the taken phone numbers are kept.
- Channels and tenant status that the engine looks up first, and its answer when no command handler is configured.
- An empty conversation context and a missing one are the same.
- Letter case beyond ASCII in the customer search and in sensitive keys.
- Human outbound messages, message delivery, customer access codes, delegated sessions, account status and authentication.
