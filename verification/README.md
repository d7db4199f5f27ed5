# Money and booking protocols of the barbershop backend

This project models the money and booking protocols of the backend: database rows changed by
conditional updates, interleaved with Stripe calls and with webhooks that come late, repeated or
out of order. `dafny verify dfyconfig.toml` checks all of it.

Each protocol has the same shape. A *protocol* module gives the state (rows, what Stripe holds,
calls in flight) and its steps; a *safety* or *theorems* module gives what every step keeps and
what follows for every run; a *service* module holds a class whose methods update the rows in
place, each proved equal to the protocol's steps. Where the code does not keep a promise, a lemma
gives the run that breaks it, beside the exact condition under which the promise holds.

- **Deposits** (`DepositProtocol`, `DepositSafety`, `DepositTheorems`, `DepositService`): the
  online deposit of an appointment. The client's screen, the webhook, the expiry routine and the
  staff race on one row; every database and Stripe access is a step of its own, and a call can die
  between any two. `Closures` composes it with closing days of a unit.
- **Chair rent by card** (`RentConsent`, `RentConsentSafety`, `RentConsentTheorems`,
  `RentOverlap`, `RentAgreement`, `RentConsentRuns`, `RentService`): setting the rent, proposing a
  rise, authorizing the card, and the webhooks, with Stripe's prices, subscriptions and idempotency
  keys. `Theorems` is about calls one after the other; about calls that overlap, `Overlap` bounds
  the charge by the highest agreement and `Agreement` by the last one.
- **Rent ledger and payout** (`RentLedger`, `RentLedgerTheorems`, `RentLedgerService`,
  `RentDues`, `RentPayout`, with `Sums`): invoices, payments by hand, undos, refunds and the
  member's expenses; the calendar of manual dues; the balance passed on to the space.
- **Refunds and disputes** (`AppPayments`, `AppPaymentsTheorems`, `AppPaymentsService`).
- **Club billing pause** (`ClubPause`).
- **Approvals and the mail limit** (`Approvals`, `ApprovalTheorems`, `ApprovalService`,
  `MailLimiter`).
- **Signed links and reminders** (`Links` with `Text`, `Reminders`).

Amounts are integers in minor units, moments are integers (milliseconds where a window is
involved), calendar days are months and days with real month lengths. Clocks, time zones, Stripe's
answers and the signature are parameters.

## Where the code and its comments disagree

The model follows the code in each case.

- `finalize` says a repeated confirmation changes nothing and the money goes back once. Two
  overlapping calls can leave the deposit applied *and* refunded: the second one read the row before
  the first confirmed it (`OverlapRefundsAppliedDeposit`). So can a call that read the row while an
  explicit refund was being tried and refused (`RefusedRefundIsClaimedAgain`). The report of the
  refund then takes the deposit off the row (`ReportTakesTheDepositOff`). Without overlap it is
  exactly one of the two (`ExactlyOneSide`).
- Money can end on neither side: a deposit the staff marked by hand on an expired hold hides the
  client's late online payment (`HandMarkHidesDeposit`), and a row deleted between finalize's write
  and claim leaves nothing to refund (`DeleteUnderClaimLosesDeposit`). `DepositKeptExactly` says
  which runs keep it. A refund that Stripe refused after the claim is never sent again
  (`FailedRefundIsNotRetried`); `RedeliveryRefunds` says when a redelivery does send it.
- A rent rise is said to need the member's acceptance. A `setRent` that overlaps an authorization
  breaks this without any failure (`SetRentRacingAuthorizeRaisesTheCharge`,
  `SetRentInsideAuthorizeRaisesTheCharge`). Of two rises accepted, the first can reach Stripe last
  (`OverlappingAcceptsChargeAboveLastAgreement`); and two setRents can leave a proposal that is no
  rise (`StaleProposalUndercutsTheCharge`). `LastAgreementExactly` says which runs keep the charge
  within the last agreement.
- Ending the rent is said to stop the charge. After an authorization that died before its bind the
  subscription is bound to no row and keeps charging (`EndedRentStillCharges`,
  `StopEndsOnlyTheBound`).
- One price is said to give one subscription. A renewal of an expired first charge that dies before
  its bind gets a second price, and two subscriptions run (`CutRenewalRunsTwice`). Without any
  failure, a first charge that is past due rather than expired is renewed too, and runs on beside
  its renewal (`OverdueRenewalRunsTwice`, `OverdueIsRenewedBeside`). A subscription
  that ended before its bind is bound all the same when Stripe repeats its stored reply
  (`StoredReplyBindsTheEnded`).
- An invoice delivered late moves the paid-until date back (`LateInvoiceMovesPaidUntilBack`).
- A lost dispute whose recording dies after its first write is never synced as a refund, because the
  second delivery finds it closed (`FirstClosingDecides`). Two deliveries that overlap can both
  report the loss, or open a closed dispute again (`OverlapReportsTwice`).
- A payment undone between its row and its expense leaves the expense on a due row
  (`UndoneUnderRecord`); a refund that comes there is never taken off it (`RefundedUnderInvoice`).
- An invoice that fails late makes an ended club subscription past due, paused at Stripe for no
  reason when its last reason went after it ended (`LateInvoiceLeavesItPaused`).
- A reminder claimed from a row read before the appointment moved keeps the mark for the new time
  (`MovedUnderTheBatch`).

## Model

| member | source | states |
|---|---|---|
| DepositTheorems.DepositConserved | src/barbershop/deposit-payment.service.ts:212-301 | in every run, captured money that finalize is done with is on its appointment or being refunded, on rows neither marked by hand nor deleted under a call; no intent is refunded twice, only captured ones are |
| DepositTheorems.DepositKeptExactly | src/barbershop/deposit-payment.service.ts:212-301 | in every run with no exception, a payment is on its appointment or on its way back exactly when some finalize step found the row that settles it, and stays so |
| DepositTheorems.ClaimSettles | src/barbershop/deposit-payment.service.ts:258-276 | the claim of a late payment settles it exactly unless the row is gone and nothing settled it before |
| DepositTheorems.WriteSettles | src/barbershop/deposit-payment.service.ts:258-288 | past the confirmation, the write settles the payment exactly unless the row it read says it was dealt with and it was not |
| DepositTheorems.OnePayableIntent | src/barbershop/deposit-payment.service.ts:130-195 | in every run, an intent whose secret was returned is the recorded one or cancelled; at most one per appointment is ever captured; a row marked refunded is marked for it |
| DepositTheorems.WebhookSettles | src/barbershop/deposit-payment.service.ts:212-288 | whenever the webhook comes, the payment ends applied or refunding, if and only if no hand-made mark hides it |
| DepositTheorems.RedeliveryChangesNothing | src/barbershop/deposit-payment.service.ts:277-280 | a delivery after the first settled changes nothing |
| DepositTheorems.ExactlyOneSide | src/barbershop/deposit-payment.service.ts:212-301 | with no two finalizes overlapping, a handled deposit is on exactly one side, and what stands on a row was not refunded |
| DepositTheorems.StaleReadRefundsAppliedDeposit | src/barbershop/deposit-payment.service.ts:258-288 | a finalize reaching its write on an applied deposit refunds it too, exactly when the row it read was cancelled without the deposit or did not say the payment was dealt with; only in the first case the deposit leaves the row |
| DepositTheorems.ReportTakesTheDepositOff | src/barbershop/app-payments.service.ts:484-502 | the report of a refund takes the deposit off the row that has the intent |
| DepositTheorems.QuietRunSettlesTheMoney | src/barbershop/deposit-payment.service.ts:212-301 | once nothing is in flight and no refund call failed, the money is on its row or refunded at Stripe |
| DepositTheorems.OverlapRefundsAppliedDeposit | src/barbershop/deposit-payment.service.ts:214-245 | a run in which screen and webhook overlap and the deposit is applied and refunded |
| DepositTheorems.RefusedRefundIsClaimedAgain | src/barbershop/deposit-payment.service.ts:258-276 | a run in which a finalize that read the row under a refused refund claims it again: paid and refunded at once |
| DepositTheorems.DeleteUnderClaimLosesDeposit | src/barbershop/deposit-payment.service.ts:258-276 | a run in which the row is deleted between finalize's read and claim and the money is on neither side |
| DepositTheorems.HandMarkHidesDeposit | src/barbershop/deposit-payment.service.ts:258-280 | a run in which a hand-made mark hides a late payment |
| DepositTheorems.FailedRefundIsNotRetried | src/barbershop/deposit-payment.service.ts:260-275 | a run after which no redelivery sends the refused refund again |
| DepositTheorems.DeliverySends | src/barbershop/deposit-payment.service.ts:212-301 | a delivery commits to a refund exactly when the row is gone, or is past waiting and shows neither deposit nor mark |
| DepositTheorems.RedeliveryRefunds | src/barbershop/deposit-payment.service.ts:260-301 | a refund committed but never made at Stripe is made by the next delivery exactly on such a row |
| DepositSafety.StepKeepsInv | src/barbershop/deposit-payment.service.ts:130-301 | every step of every actor keeps the protocol's invariant |
| DepositSafety.WholeIsARun | src/barbershop/deposit-payment.service.ts:212-288 | an undivided finalize is a run of its separate reads and writes |
| DepositService.ReleaseNeverSwallows | src/barbershop/deposit-payment.service.ts:400-444 | wherever the capture lands around the check and the cancel, the webhook then finds the deposit applied or refunds it; an outage leaves the hold |
| DepositService.FinalizedSettles | src/barbershop/deposit-payment.service.ts:212-301 | an undealt capture ends applied or refunded at Stripe |
| DepositService.AppliedStays | src/barbershop/deposit-payment.service.ts:231-257 | a hold found paid is confirmed, and the webhook that follows changes nothing |
| DepositService.DepositPaymentService.FindAppointment | src/barbershop/deposit-payment.service.ts:214-224 | the lookup by recorded intent or metadata finds the metadata's appointment, if it is there |
| DepositService.DepositPaymentService.Finalize | src/barbershop/deposit-payment.service.ts:212-288 | the new state is the protocol's finalize; confirmed exactly when the deposit was not applied before and is after, not found exactly without a row, unchanged exactly on a row that says the payment was dealt with |
| DepositService.DepositPaymentService.ReleaseUnpaidHold | src/barbershop/deposit-payment.service.ts:400-444 | the new state is the protocol's release; it answers released exactly when it cancelled the hold |
| DepositService.DepositPaymentService.SettleForStaff | src/barbershop/deposit-payment.service.ts:78-96 | each answer exactly when it is due: nothing to settle unless the row waits with an intent, paid when the intent is captured, released when it was or could be cancelled, an error otherwise; paid means applied, released that the intent is cancelled and the row untouched, an error leaves the hold |
| DepositService.DepositPaymentService.Start | src/barbershop/deposit-payment.service.ts:130-195 | each answer exactly when it is due; the secret returned is of the recorded open intent, the only payable one of the appointment, for the deposit's amount |
| DepositService.SecretGoesOut | src/barbershop/deposit-payment.service.ts:130-195 | the secret goes out exactly while the row waits within its hold, asks for money and its intent is not paid |
| DepositService.DueGivesNoSecret | src/barbershop/deposit-payment.service.ts:381-393 | a hold due for release gives no secret; before its end it is not due |
| DepositService.DepositPaymentService.ExpireHolds | src/barbershop/deposit-payment.service.ts:381-393 | with Stripe answering and at most 200 due, every due hold ends confirmed if it was paid and freed if not, with no hold left on it; other rows stay; the count is of the due holds freed |
| DepositService.DepositPaymentService.RefundOnlineDeposit | src/barbershop/barbershop.service.ts:6652-6696 | the new state is the claim and the refund, undone when Stripe refuses; refunded exactly for a deposit applied to an unsold row with Stripe answering |
| Closures.Parse | src/barbershop/closure.service.ts:81-111 | accepts exactly the valid inputs of at most 60 days and gives every day from first to last; each error exactly when it is due |
| Closures.HoldsOver | src/barbershop/closure.service.ts:242-248 | after the first phase no hold of the closed window waits for payment |
| Closures.ClosingEndsHolds | src/barbershop/closure.service.ts:242-279 | a hold found paid is confirmed, then cancelled and refunded (kept with its deposit if it began); unpaid ones are freed |
| Closures.ClosingEndsOthers | src/barbershop/closure.service.ts:250-279 | confirmed appointments the closed days catch are cancelled unless sold, with a new link version and an applied deposit sent back; every other row stays |
| Closures.WindowIsTheClosedDays | src/barbershop/closure.service.ts:113-176 | the window is exactly the closed days, the last one to its end |
| Closures.ClosedHoursCatch | src/barbershop/closure.service.ts:39-54 | special hours catch exactly what takes some minute outside them, a whole closed day everything, and nothing confirmed that has begun |
| Closures.ClosureService.Set | src/barbershop/closure.service.ts:216-289 | the days carry the new hours; the holds of the window are over; without cancelling every other row is as it was; with it exactly the unsold appointments caught, and unsold holds found paid that have not begun, are cancelled with their deposits sent back, and they are the ones answered; the rest stays |
| Closures.ClosureService.Remove | src/barbershop/closure.service.ts:291-328 | removes the longest stretch of days from the first with its hours and reason, and nothing else |
| RentOverlap.NoRiseWithoutConsent | src/barbershop/chair-rent.service.ts:125-506 | in every run in which authorize overlaps no other call, setRents and responses overlapping each other and calls dying anywhere, no subscription charges more than the member once agreed to |
| RentOverlap.ConsentUnlessOverreached | src/barbershop/chair-rent.service.ts:125-506 | the same in every run whatever overlaps, as long as no step writes a rent above the agreement onto the row of a running charge or binds a charge to such a row |
| RentOverlap.OverreachRaisesTheCharge | src/barbershop/chair-rent.service.ts:225-283 | the other way round: after such a step with no other call under way, a setRent alone, of any amount strictly between the agreement and the row, charges above every agreement |
| RentOverlap.StaleRentIsWithin | src/barbershop/chair-rent.service.ts:134-283 | a setRent that read the row before its bind keeps the rent at most the last agreement exactly when its amount is |
| RentAgreement.LastAgreementExactly | src/barbershop/chair-rent.service.ts:125-506 | in every run in which authorize overlaps no other call, in no state anything charged, on the row or in a call under way is above the last agreement, if and only if every accepted rise covers the charge, the row and the calls it finds |
| RentAgreement.LastAgreementWithAcceptsAlone | src/barbershop/chair-rent.service.ts:125-506 | when accepting responses overlap nothing either, if and only if every rise covers the charge and the row |
| RentAgreement.NoChargeAboveTheLastAgreement | src/barbershop/chair-rent.service.ts:125-506 | then no running subscription charges above the last agreement, wherever calls die and however setRents overlap |
| RentConsentTheorems.LastAgreementHolds | src/barbershop/chair-rent.service.ts:125-345 | in every state of every run whose calls come one after the other, mid-call too, no running subscription charges above the last agreement unless a call died between Stripe's switch and the row |
| RentConsentTheorems.AgreementAfter | src/barbershop/chair-rent.service.ts:290-335 | in any state, accepting a rise or creating the subscription again leaves the charge within the last agreement exactly when it was not above the amount, switching exactly when the new price is not; no other step changes it |
| RentConsentTheorems.OnlyAcceptedRises | src/barbershop/chair-rent.service.ts:225-345 | in such a run with no rise accepted, no step raises what a subscription charges |
| RentConsentTheorems.RaisesTheCharge | src/barbershop/chair-rent.service.ts:248-335 | a step raises a charge exactly when it switches to a higher price, and then within the last agreement |
| RentConsentTheorems.ChargeIsTheRent | src/barbershop/chair-rent.service.ts:225-345 | unless a call died between Stripe's switch and the row's write, the bound subscription charges the rent on the row |
| RentConsentTheorems.FirstAuthorizationCreatesOne | src/barbershop/chair-rent.service.ts:442-495 | any number of authorize calls, each dying anywhere, leave at most one running subscription besides those a renewal left behind: the bound one or the one the next call gets |
| RentConsentTheorems.OneRunsWhenRenewedCleanly | src/barbershop/chair-rent.service.ts:352-506 | at most one runs, with no exception, when no renewal begins on an overdue subscription or dies before its bind |
| RentConsentTheorems.EndedKeyIsBoundOnStoredReply | src/barbershop/chair-rent.service.ts:477-495 | offered a key whose subscription ended, authorize binds that subscription exactly on a stored reply of its birth, and drops the key otherwise |
| RentConsentTheorems.DeletedKeyIsRetired | src/barbershop/chair-rent.service.ts:1171-1186 | the webhook of the bound subscription takes its key off the row and every call |
| RentConsentTheorems.EndedIsNeverBoundAgain | src/barbershop/chair-rent.service.ts:1171-1186 | after that webhook, in any run, that subscription is never bound and its key never on the row again |
| RentConsentSafety.StepKeepsInv | src/barbershop/chair-rent.service.ts:125-506 | every step keeps what ties the row, the prices, the subscriptions and the calls together |
| RentConsentRuns.CutAcceptsChargeAboveLastAgreement | src/barbershop/chair-rent.service.ts:305-335 | a run with two calls cut short after which the card is charged above the last agreement |
| RentConsentRuns.SetRentRacingAuthorizeRaisesTheCharge | src/barbershop/chair-rent.service.ts:134-283 | a run with no call cut short in which a setRent overtaken by authorize ends in a charge never agreed to |
| RentConsentRuns.SetRentInsideAuthorizeRaisesTheCharge | src/barbershop/chair-rent.service.ts:134-283 | the same of a setRent that begins and ends before the bind of an authorization under way |
| RentConsentRuns.OverlappingAcceptsChargeAboveLastAgreement | src/barbershop/chair-rent.service.ts:290-335 | a run with no call cut short in which two accepted rises overlap and the card ends charged above the last one |
| RentConsentRuns.StaleProposalUndercutsTheCharge | src/barbershop/chair-rent.service.ts:225-246 | a run in which a proposal read before another setRent is accepted below the charge |
| RentConsentRuns.StoredReplyBindsTheEnded | src/barbershop/chair-rent.service.ts:477-495 | a run that ends bound to a subscription that had ended before |
| RentConsentRuns.CutRenewalRunsTwice | src/barbershop/chair-rent.service.ts:408-440 | a run after which two subscriptions run for one rent |
| RentConsentRuns.OverdueRenewalRunsTwice | src/barbershop/chair-rent.service.ts:408-440 | the same with no call cut short: the first charge was overdue |
| RentService.RenewalRunsBesides | src/barbershop/chair-rent.service.ts:408-440 | a renewal of an ended or overdue charge creates a subscription of its own and ends none that ran |
| RentService.OverdueIsRenewedBeside | src/barbershop/chair-rent.service.ts:408-440 | with a running subscription on the row, authorizing creates another exactly when the row waits for confirmation and Stripe has it overdue |
| RentConsentRuns.EndedRentStillCharges | src/barbershop/chair-rent.service.ts:142-156 | a run in which ending the rent leaves an unbound subscription running |
| RentService.StopEndsOnlyTheBound | src/barbershop/chair-rent.service.ts:142-156 | ending the rent ends exactly the subscription the row has; any other keeps running |
| RentService.OverreachLetsTheChargeRise | src/barbershop/chair-rent.service.ts:125-274 | a setRent on a card row charged within every agreement charges above them exactly when its amount is above them and does not raise the rent on the row |
| RentService.AnsweredIsGood | src/barbershop/chair-rent.service.ts:125-506 | a whole uninterrupted call keeps the invariant and the charge equal to the rent |
| RentService.AcceptedRiseIsCharged | src/barbershop/chair-rent.service.ts:305-335 | an accepted rise is what the card is charged and what was agreed |
| RentService.LowerRentIsCharged | src/barbershop/chair-rent.service.ts:248-274 | a lower rent is charged at once and drops the waiting rise |
| RentService.FirstAuthorizationBinds | src/barbershop/chair-rent.service.ts:442-495 | the first authorization binds a new subscription charging the rent the member saw |
| RentService.RetryBindsTheSame | src/barbershop/chair-rent.service.ts:449-495 | authorizing again what was created and not bound binds it and creates none |
| RentService.ConfirmedChargeIsActive | src/barbershop/chair-rent.service.ts:408-428 | a first charge confirmed meanwhile becomes active, one still to be confirmed is left alone |
| RentService.EndedKeyIsReplaced | src/barbershop/chair-rent.service.ts:449-487 | told that the key's subscription ended, authorize drops the key and the next one binds a new subscription |
| RentService.HigherRentWaits | src/barbershop/chair-rent.service.ts:225-246 | a higher rent on a charged row changes nothing but the proposal |
| RentService.DeclinedRiseIsDropped | src/barbershop/chair-rent.service.ts:290-312 | declining takes the proposal off and changes nothing else |
| RentService.UnchargedRentWaitsForTheCard | src/barbershop/chair-rent.service.ts:200-283 | without a charge the new rent waits for the card, with no old price |
| RentService.ByHandLeavesTheRent | src/barbershop/chair-rent.service.ts:165-200 | moving to payment by hand leaves the new rent, nothing on the card, and ends the bound subscription |
| RentService.StopLeavesNoRent | src/barbershop/chair-rent.service.ts:142-156 | ending the rent leaves no rent, proposal or price, and ends the bound subscription |
| RentService.ChairRentService.SetRent | src/barbershop/chair-rent.service.ts:125-283 | the new state is the protocol's setRent carried to its end, and each answer or refusal is given exactly when it is due |
| RentService.ChairRentService.Respond | src/barbershop/chair-rent.service.ts:290-345 | the new state is the protocol's response carried to its end, and each answer or refusal is given exactly when it is due |
| RentService.ChairRentService.Authorize | src/barbershop/chair-rent.service.ts:352-506 | the new state is the protocol's authorization carried to its end, and each answer or refusal is given exactly when it is due |
| RentService.ChairRentService.HandleSubscriptionDeleted | src/barbershop/chair-rent.service.ts:1171-1186 | the next authorization of a lost subscription starts from a new price |
| RentLedgerTheorems.RowsAreBooked | src/barbershop/chair-rent.service.ts:615-748 | after any operations, a paid row's expense is what it is worth after refunds unless its booking was cut; no two rows share an expense |
| RentLedgerTheorems.LedgerConserved | src/barbershop/chair-rent.service.ts:615-1140 | with the owner known and writes going through, the rent expenses sum to amount minus refund over the paid rows |
| RentLedgerTheorems.RecordPays | src/barbershop/chair-rent.service.ts:615-678 | a recorded payment is paid as recorded, with a cash session only for cash, worth its amount and booked for it; the expenses rise by it and no other row changes |
| RentLedgerTheorems.RecordThenUndo | src/barbershop/chair-rent.service.ts:615-719 | undoing a recorded payment restores the ledger, however its booking ended; only an unlinked expense stays |
| RentLedgerTheorems.RecordedOnce | src/barbershop/chair-rent.service.ts:633-652 | a second record changes nothing; card rows and closed cash sessions are not undone |
| RentLedgerTheorems.InvoiceFold | src/barbershop/chair-rent.service.ts:1069-1140 | for any deliveries of one invoice, the row ends paid exactly when some paid event came, with the first one's amount and at most one expense |
| RentLedgerTheorems.PeriodIsTheFirst | src/barbershop/chair-rent.service.ts:1078-1108 | the row keeps the period of the first delivery, paid or not |
| RentLedgerTheorems.InvoiceOrderIrrelevant | src/barbershop/chair-rent.service.ts:1069-1140 | permuted deliveries leave the same status and one expense; the amounts differ exactly when the first paid delivery, or the first of all when none is paid, does |
| RentLedgerTheorems.LateInvoiceMovesPaidUntilBack | src/barbershop/chair-rent.service.ts:1110-1115 | of two invoices, the one delivered last sets the paid-until date, the older one too |
| RentLedgerTheorems.RefundsJoin | src/barbershop/chair-rent.service.ts:960-1006 | in any order with repeats the stored refund is the largest seen, capped at the amount, and the expense is what is left |
| RentLedgerTheorems.FullRefundReopens | src/barbershop/chair-rent.service.ts:990-1003 | a refund event moves the paid-until date exactly when it is full and new and the row's period was paid last, back to where that period began |
| RentLedgerTheorems.CutRefundStays | src/barbershop/chair-rent.service.ts:969-989 | after a refund cut once it was stored, and any later refund events, the expense is right exactly when one of them is larger or the cut one had nothing to add |
| RentLedgerTheorems.UndoneUnderRecord | src/barbershop/chair-rent.service.ts:641-665 | a payment undone between its row and its expense leaves a due row with the expense on the books, linked unless the link failed |
| RentLedgerTheorems.RefundedUnderInvoice | src/barbershop/chair-rent.service.ts:1078-1140 | after a refund between an invoice's row and its expense, the expense is right exactly when nothing went back |
| RentLedgerService.RentLedgerService.RecordPayment | src/barbershop/chair-rent.service.ts:615-678 | the new ledger, and each refusal exactly when it is due |
| RentLedgerService.RentLedgerService.UndoPayment | src/barbershop/chair-rent.service.ts:681-719 | the new ledger, and each refusal exactly when it is due |
| RentLedgerService.RentLedgerService.HandleInvoice | src/barbershop/chair-rent.service.ts:1069-1140 | the new ledger; first time exactly when the row was unknown, or unpaid and now paid |
| RentLedgerService.RentLedgerService.SyncRefund | src/barbershop/chair-rent.service.ts:960-1006 | the new ledger; mine exactly for a paid card row |
| RentDues.DuesTileTime | src/barbershop/chair-rent.service.ts:38-42 | one due a month, each ending where the next begins, 28 to 31 days apart |
| RentDues.TodayHasOnePeriod | src/barbershop/chair-rent.service.ts:537-580 | every day from the start on lies in exactly one period, the last one reached |
| RentDues.ManyRunsAreOne | src/barbershop/chair-rent.service.ts:537-580 | writing the dues on days that do not go back equals writing them once on the last day |
| RentDues.NotAfterIsDayOrder | src/barbershop/chair-rent.service.ts:55-57 | comparing the date texts is comparing days |
| RentDues.ManualRent.EnsureDues | src/barbershop/chair-rent.service.ts:537-580 | the rows are those of every reached term, existing ones kept, and the number created is how many more there are |
| RentDues.ManualRent.NextDueDate | src/barbershop/chair-rent.service.ts:892-899 | the first term the calendar has not reached, within 240 terms |
| RentPayout.SplitsToTheCent | src/barbershop/chair-rent.service.ts:945-950 | rounded at any percent, the fee is between nothing and what is left after refunds, so the share is never negative; refund, fee and share make the amount |
| RentPayout.HostGrows | src/barbershop/chair-rent.service.ts:945-950 | despite rounding, the share grows with what is left, by at most as much |
| RentPayout.RefundLowersBalance | src/barbershop/chair-rent.service.ts:929-1006 | a refund event never raises the balance and lowers it by at most what was refunded |
| RentPayout.PaidInvoiceAddsItsShare | src/barbershop/chair-rent.service.ts:929-952 | the first paid delivery of an invoice adds its share to the balance |
| RentPayout.OnlyCardMoneyMovesTheBalance | src/barbershop/chair-rent.service.ts:929-952 | dues, payments by hand, undos, failed and repeated invoices move nothing |
| RentPayout.MoneyIsAccountedFor | src/barbershop/chair-rent.service.ts:929-952 | after any operations and payouts, what the paid cards were charged is what went back, the fees, what was paid out and what is still owed |
| RentPayout.PayoutLowersTheBalance | src/barbershop/chair-rent.service.ts:945-951 | nothing is owed at first; a payout lowers what is owed by exactly itself |
| RentPayout.PriceChangeKeepsEarlierFees | src/barbershop/chair-rent.service.ts:945-949 | each payment passes on what its own fee leaves, the current one only without; a change of the current fee moves no payment that has its own |
| RentPayout.RoundingDrift | src/barbershop/chair-rent.service.ts:945-950 | rounding payment by payment drifts from the exact fee by at most half a cent each |
| AppPaymentsTheorems.EventOrderIrrelevant | src/barbershop/app-payments.service.ts:407-551 | the same refund events, in any order and with any repeats, leave the same club payments, deposits, prepayments, tips, highlights and fees |
| AppPaymentsTheorems.PrepaidJoin | src/barbershop/app-payments.service.ts:504-531 | the stored refund is the largest seen, capped, never lower than before; marked exactly at the amount |
| AppPaymentsTheorems.DepositJoin | src/barbershop/app-payments.service.ts:484-502 | a deposit is marked and unpaid exactly when some event reached its amount |
| AppPaymentsTheorems.TipJoin | src/barbershop/app-payments.service.ts:533-551 | a tip is marked exactly when some event reached its amount |
| AppPaymentsTheorems.ClubJoin | src/barbershop/app-payments.service.ts:431-441 | a club payment keeps the largest refund seen |
| AppPaymentsTheorems.PrepaidIsTheLargest | src/barbershop/app-payments.service.ts:407-424 | after any events, a paid prepayment stores the largest refund of those naming it, capped, marked exactly at its amount; others stay |
| AppPaymentsTheorems.TipIsMarkedByTheLargest | src/barbershop/app-payments.service.ts:407-424 | after any events, a tip is marked exactly when it was or one naming it reached its amount |
| AppPaymentsTheorems.DepositIsMarkedByTheLargest | src/barbershop/app-payments.service.ts:407-424 | after any events, a deposit is marked and unpaid exactly when one naming it reached its amount |
| AppPaymentsTheorems.ClubIsTheLargest | src/barbershop/app-payments.service.ts:407-441 | after any events, a club payment stores the largest refund of its invoice |
| AppPaymentsTheorems.FullRefundsRevoke | src/barbershop/app-payments.service.ts:407-424 | after any events, purchases, highlights and fees are those of revoking the intents the full refunds name |
| AppPaymentsTheorems.OverlapLowersRefund | src/barbershop/app-payments.service.ts:504-531 | a delivery that read before any others and writes after them leaves less than the largest refund exactly when it brings more than it read and less than the others, none of them full |
| AppPaymentsTheorems.SyncedTwice | src/barbershop/app-payments.service.ts:407-424 | a repeated event changes nothing |
| AppPaymentsTheorems.RevokedAllShortens | src/barbershop/app-payments.service.ts:449-471 | revoking purchases at one time takes the days of those still paid, once each, in any order; never later than before nor below the earlier of before and now |
| AppPaymentsTheorems.RevokedOnce | src/barbershop/app-payments.service.ts:449-482 | a purchase revoked twice, at whatever times, loses its days once |
| AppPaymentsTheorems.RevokedAllFees | src/barbershop/app-payments.service.ts:472-481 | a job fee is given back exactly when one of the revoked purchases paid it |
| AppPaymentsTheorems.LostChargeIsARefund | src/barbershop/app-payments.service.ts:379-400 | a lost dispute reads as a refund of its charge with a truthful flag, capped, no smaller than the disputed amount or what went back before and no larger than both |
| AppPaymentsTheorems.LostDisputeTakesTheDeposit | src/stripe/stripe.controller.ts:406-414 | losing the whole of a deposit takes it off its appointment |
| AppPaymentsTheorems.LostOnce | src/barbershop/app-payments.service.ts:338-370 | over any events of a dispute, one after the other, it is reported lost once, exactly when its first closing event says so; then nothing changes it |
| AppPaymentsTheorems.OverlapReportsTwice | src/barbershop/app-payments.service.ts:357-370 | a delivery that looked before others and writes after them reports the loss again exactly when both say lost, and reopens the dispute exactly when it does not close it; the purchase still loses its days once |
| AppPaymentsTheorems.RefundedThenLost | src/stripe/stripe.controller.ts:406-414 | a lost dispute on a charge already refunded takes no further days |
| AppPaymentsTheorems.FirstClosingDecides | src/barbershop/app-payments.service.ts:338-370 | over any deliveries of one dispute dying anywhere, the books are those of the first closing one up to where it came; no redelivery adds to them |
| AppPaymentsTheorems.CutLossKeepsTheDeposit | src/stripe/stripe.controller.ts:406-414 | a deposit lost in a dispute is marked exactly when that delivery came to its end |
| AppPaymentsService.AppPaymentsService.SyncStripeRefund | src/barbershop/app-payments.service.ts:407-441 | the new books are those of the event |
| AppPaymentsService.AppPaymentsService.RevokePlatformPurchase | src/barbershop/app-payments.service.ts:449-482 | the new books are those of the revocation |
| AppPaymentsService.AppPaymentsService.RecordDispute | src/barbershop/app-payments.service.ts:338-370 | the new disputes, books and answer |
| AppPaymentsService.AppPaymentsService.HandleDispute | src/stripe/stripe.controller.ts:406-414 | a dispute just lost is then synced as a refund of its charge |
| AppPaymentsService.AppPaymentsService.RefundTip | src/barbershop/app-payments.service.ts:285-321 | each outcome exactly when it is due; a tip is refunded at most once at Stripe; the mark stays exactly unless Stripe refused |
| ClubPause.FlagFollowsReasons | src/barbershop/club-billing-pause.service.ts:96-157 | in every run with refused calls and late statuses, every active or past due subscription is at all times paused at Stripe exactly while the shop is paused or a reason is held, if and only if each status that revived an ended one found its flag in step |
| ClubPause.StepIsKept | src/barbershop/club-billing-pause.service.ts:122-153 | a flag gets out of step exactly by taking the last hold off an ended subscription |
| ClubPause.UnreleasedAgrees | src/stripe/stripe.controller.ts:398-404 | without such a command every run keeps the flags, late statuses or not |
| ClubPause.LateInvoiceLeavesItPaused | src/stripe/stripe.controller.ts:398-404 | a run in which a late failed invoice leaves a subscription paused for no reason |
| ClubPause.CommandTakesEffect | src/barbershop/club-billing-pause.service.ts:122-153 | an answered command leaves its reason held or gone and the others as they were, and Stripe accordingly |
| ClubPause.RetriesConverge | src/barbershop/club-billing-pause.service.ts:96-157 | any partly refused tries, then one that goes through, make the one-shot result |
| ClubPause.CutThenRerun | src/barbershop/club-billing-pause.service.ts:133-153 | so does a rerun after dying between Stripe and the database |
| ClubPause.PauseThenResume | src/barbershop/club-billing-pause.service.ts:122-153 | a reason put and taken away leaves the subscription as it was |
| ClubPause.CommandOnEnded | src/barbershop/club-billing-pause.service.ts:122-153 | one not chargeable is not paused, and loses a reason without Stripe |
| ClubPause.OwnerTakesEffect | src/barbershop/barbershop.service.ts:2882-2912 | the owner's answered pause holds every chargeable subscription of the shop, the resume lets it go unless a reason holds it; reasons and other shops stay |
| ClubPause.OwnerRerunConverges | src/barbershop/barbershop.service.ts:2882-2912 | a refused one stays as it was; a rerun makes the one-shot result |
| ClubPause.OwnerPauseThenResume | src/barbershop/barbershop.service.ts:2882-2912 | pause then resume restores the subscription |
| ClubPause.ClubBillingPauseService.ApplyReason | src/barbershop/club-billing-pause.service.ts:96-157 | every selected subscription takes its turn, a refused one stays, and it fails exactly when one was refused |
| ClubPause.ClubBillingPauseService.SetClubBillingPaused | src/barbershop/barbershop.service.ts:2882-2912 | the owner's pause, with the platform's reasons still holding Stripe |
| ApprovalTheorems.RunsAtMostOnce | src/backoffice/approval.service.ts:186-308 | in every run the decision here runs an action at most once and commands at most once; it runs twice exactly when both do, which takes a command for a request approved here |
| ApprovalTheorems.FourEyes | src/backoffice/approval.service.ts:186-217 | an action approved here had an admin other than the requester, within 7 days |
| ApprovalTheorems.DecidedForGood | src/backoffice/approval.service.ts:186-308 | a decided request never waits again; a rejected, cancelled or expired one is closed and never runs |
| ApprovalTheorems.DecidedOnce | src/backoffice/approval.service.ts:186-280 | in every run exactly one step takes a request out of waiting, or none does |
| ApprovalTheorems.OneRequestWaits | src/backoffice/approval.service.ts:139-167 | in every run, of the requests about the same thing at most one waits |
| ApprovalTheorems.CrossingCommandRunsTwice | src/backoffice/approval.service.ts:282-300 | a run in which a command for a request approved here runs the action twice |
| Approvals.SameMailSamePeople | src/backoffice/approval.service.ts:65-77 | two mass mails are one request exactly when they have the same recipients, in any order, and subject |
| ApprovalService.ApprovalService.Ask | src/backoffice/approval.service.ts:139-167 | made exactly when no request about the same thing, younger than 7 days, is pending |
| ApprovalService.ApprovalService.Decide | src/backoffice/approval.service.ts:186-231 | each refusal exactly when it is due; otherwise the row ends rejected, executed or failed as decided and as the action went, which ran once and only for a recent request of someone else |
| ApprovalService.ApprovalService.Withdraw | src/backoffice/approval.service.ts:234-252 | cancelled exactly when the requester asks while it is pending; the other rows stay |
| ApprovalService.ApprovalService.ExpireStale | src/backoffice/approval.service.ts:254-259 | exactly the pending requests older than 7 days expire |
| ApprovalService.ApprovalService.ExecuteConfirmed | src/backoffice/approval.service.ts:282-308 | tried exactly on an executing row, which ends executed or failed as the action went; not run by a command before |
| MailLimiter.WindowBound | src/backoffice/approval.service.ts:109-137 | after any reservations and releases, in any 24 hours a requester's sends total at most 1000, given only that counted windows began 24 hours before their row |
| MailLimiter.LateWindowBreaksTheBound | src/backoffice/approval.service.ts:117-132 | without that the bound is lost |
| MailLimiter.FitsExactly | src/backoffice/approval.service.ts:117-132 | a send fits exactly when with it the last 24 hours stay within 1000 |
| MailLimiter.ReleasedIsTheRest | src/backoffice/approval.service.ts:135-137 | a release takes away the notes of its id and no other |
| MailLimiter.DirectEmail.Reserve | src/backoffice/approval.service.ts:117-132 | a note exactly when the sum with it fits |
| MailLimiter.DirectEmail.Release | src/backoffice/approval.service.ts:135-137 | the note is gone and the bound holds |
| Links.PayloadIsInjective | src/barbershop/appointment-link.ts:28-45 | signed payloads are injective over every purpose, id, version and staff mark |
| Links.LinkRoundTrip | src/barbershop/appointment-link.ts:81-158 | a manage or review link reads back its id and version |
| Links.StaffRoundTrip | src/barbershop/appointment-link.ts:51-177 | a staff review link reads back its id, version and requester |
| Links.PlainRoundTrip | src/barbershop/appointment-link.ts:138-219 | links without a version read back, appointments as version 0 |
| Links.AcceptedWasSigned | src/barbershop/appointment-link.ts:81-104 | without a clash of two signatures, an accepted link was signed for this purpose, id and version |
| Links.VerifiedWasSigned | src/barbershop/appointment-link.ts:138-144 | so was an accepted link of a ticket or the waiting list |
| Links.PurposesAreSeparate | src/barbershop/appointment-link.ts:24-32 | a link of one purpose is accepted for another exactly when two different payloads have one signature |
| Links.PlainPurposesAreSeparate | src/barbershop/appointment-link.ts:92-144 | the same of links without a version, read as tickets or as appointments |
| Links.AppointmentLinksAreNotVerified | src/barbershop/appointment-link.ts:138-144 | appointment links are never accepted where tickets and the waiting list are read |
| Links.ModeOnlyDegrades | src/barbershop/appointment-link.ts:107-126 | as versions go up and time passes the mode only goes down, exactly when the link is not newer than the appointment |
| Links.CreatedLinkOpens | src/barbershop/appointment-link.ts:107-126 | a link opens its appointment exactly at its version, shows it to manage exactly at the next, until 14 days after the end, 30 for a review |
| Links.OtherAppointmentIsShut | src/barbershop/appointment-link.ts:107-126 | and no other appointment |
| Reminders.MarkedIsQueued | src/barbershop/appointment-reminder.service.ts:52-187 | in every run no job is queued twice; a marked row misses an owed job only if a call that died on it since had it left |
| Reminders.JobsOf | src/barbershop/appointment-reminder.service.ts:62-101 | a reminder's jobs name its appointment and time; the phone always gets one, the mail unless the booking or a fresh move already told |
| Reminders.MovedIsDueAgain | src/barbershop/reminder-window.ts:3-22 | a moved appointment is due again in its last day unless the notice of the move does for a reminder by mail alone |
| Reminders.UnmovedIsRemindedOfItsTime | src/barbershop/appointment-reminder.service.ts:56-101 | whatever runs between the batch's read and the claim, an appointment not moved meanwhile is reminded of the time it has |
| Reminders.OneAtWork | src/barbershop/appointment-reminder.service.ts:86-187 | in every run without a move at most one call works on a reminder, and the mark stands while it does |
| Reminders.MovedUnderTheBatch | src/barbershop/appointment-reminder.service.ts:56-101 | a run in which a moved appointment keeps the mark of its old time |
| Reminders.AppointmentReminderService.EnqueueDueReminders | src/barbershop/appointment-reminder.service.ts:52-187 | each due reminder ends marked with its jobs queued, or as it was because the queue refused one; others stay, nothing else is queued; the count is of those marked with something to send |

## Left out

- ClosureService.Set: Stripe answers throughout; the list of failures and notices is not modelled, nor the prepayment refund beside the deposit's.
- Closures.Parse: dates and times come as day numbers and minutes, absent or malformed; the text formats are not modelled.
- DepositTheorems.WebhookSettles: the refund is committed, not yet answered; `QuietRunSettlesTheMoney` follows it to Stripe.
- DepositTheorems.DepositConserved: rows marked by hand, or deleted under a call in flight, are excepted; `DepositKeptExactly` covers them.
- DepositProtocol.OutsideStep: the staff's hand mark is one step, while the code reads the row and then writes it; so is a deletion, which looks at the deposit first and deletes later.
- RentConsentTheorems.LastAgreementHolds: calls do not overlap each other (webhooks and Stripe's own changes come anywhere); `LastAgreementExactly` has the overlapping ones.
- RentConsentTheorems.FirstAuthorizationCreatesOne: does not count the subscriptions a renewal left behind, created and not bound when the call died, or bound and overdue when it began; `RenewalRunsBesides` says when they run beside another.
- RentConsent.Subscribed: a repeated idempotency key answers for ever, while Stripe forgets it after a day or more.
- A Stripe call that took effect while its answer was lost is not distinguished from one cut right after it.
- Refunds made in Stripe's panel inside the deposit machine; they are part of `AppPayments`.
- What other services write on an appointment is abstract steps (booking, staff status changes, hand marks, deletion); the waiting list, e-mails, notices and realtime messages are not modelled.
- `start` tries again after losing its compare-and-set; in the machine that is a new start.
- Database lock waits and timeouts, among them `authorize` writing a row its own open transaction has locked: each write is one step.
- Rows of `ChairRentPayment` deleted when a link ends, the link's own status, and changes of currency.
- RentLedgerTheorems.LedgerConserved: speaks of operations one after the other; of those that come between a row and its expense there are two lemmas, no run.
- Approvals.Request: the look for an equal pending request and the new row are one step.
- RentPayout: percents and fees are exact numbers, so binary rounding of the percent is not modelled; the subtraction of recorded payouts is one number.
- AppPaymentsTheorems.EventOrderIrrelevant: events carry Stripe's own flag consistently and arrive after the payment was stored; highlights are compared at one moment.
- AppPaymentsService.HandleDispute: the plan and chair rent refunds the webhook also forwards are not part of it; `RentLedger` has the latter.
- Approvals.SamePerson: letter case is folded for ASCII only.
- Approvals: the other API's own checks are not modelled, and commands come for any executing request.
- Refund limits by currency, permission tables, plan tiers and the reports and raw SQL listings would add easy members.
- Links.AcceptedWasSigned: the strength of the signature is not modelled; no function into 32 characters is injective, so the absence of a clash between the two payloads is a premise.
- Reminders.MarkedIsQueued: a job accepted by the queue counts as queued, also when the queue is slow; workers sending it are not modelled.
- Day boundaries and local times come from functions given as parameters; no time zone table is modelled.
- Hold reminders, deposit payout reports, receipts and public listings.
