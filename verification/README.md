# CampusConnect: event lifecycle and money, modelled and proved in Dafny

This project models how CampusConnect takes an event from a proposal through review, delivery, expense
audit, financial settlement and institutional closure, and proves what that protocol guarantees over every
run of its operations. Check it with `dafny verify dfyconfig.toml`.

## How it is organised

| files | what they hold |
|---|---|
| `Common`, `Ledger`, `Fingerprint`, `LedgerSummary` | rows, sums over rows, the canonical source fingerprint, the two accountings of the expense ledger |
| `EventFiles` | the record of one confirmed event, and the invariant of every reachable record |
| `SettlementRules`, `CloseoutRules`, `ExecutionRules`, `ExpenseRules` | one function per service operation: the guards in the order they are checked, the error, the new record; and the proof that each keeps the invariant |
| `SettlementOutcomes`, `ExpenseOutcomes`, `DeliveryOutcomes`, `ProposalOutcomes`, `CampusOutcomes` | what callers can rely on: exactly when each operation goes through, what it stores, what a refusal attests |
| `EventStore`, `SettlementService`, `CloseoutService`, `ExecutionService`, `ExpenseService` | the same operations as methods over mutable rows, each proved to give the reply and the new record of its rule |
| `EventApi`, `ProposalApi` | the entry points: any request on the mutable rows is one step of the model |
| `EventRuns`, `StoredFigures`, `EventSafety`, `Scenarios` | theorems over every run on one event, and concrete runs that show what can happen |
| `Bookings`, `Budgets`, `Proposals`, `EditingRules`, `WorkflowRules` | hall bookings, budgets, and the proposal and approval protocol |
| `ProposalStore`, `EditingService`, `WorkflowService` | that protocol as methods over a mutable row |
| `Invoices`, `Campus`, `CampusRuns`, `ProposalScenarios` | all proposals and events together: unique invoices, exclusive halls, end-to-end theorems, a concrete run |
| `RateLimiter`, `RefreshTokens` | the sliding-window limiter and refresh-token rotation |

Amounts are whole paise, since every amount column is `Numeric(12,2)`. A service call is one atomic step: it
either yields a new record or an error and no change, as the transaction does. Lookups the model does not
hold (a document, a hall row, whether the stored fingerprint was found, the clock, the approver resolved for a
stage) are arguments of the operation. A lookup of one event by its own id cannot fail here, because the
record is the event. Hashing, and JSON before it, is taken as injective, so a canonical value stands for its
digest. Vendor names and invoice numbers are the trimmed, lower-cased texts.

## What the proofs bring out

The code is kept as it is where a property one would expect does not hold; each time the exact condition is
proved for all inputs.

- **Stranded settlements.** `submit_settlement` takes a REOPENED settlement with its old type. Unless that was
  BALANCED, approval leaves it pending with nothing due, and then no operation ever changes it again:
  `EventSafety.ResubmittedAsIs`, `EventSafety.ApprovalStrandsExactlyWhen`, `EventSafety.StrandedForever`, and the
  run `Scenarios.SettlementCanBeStranded`. Preparing it again first settles it: `EventSafety.PreparedAgain`.
- **Grant ceiling.** Net cash can exceed the sanctioned grant (`Scenarios.NetCashCanExceedGrant`). It stays within
  it through a whole run exactly when no re-preparation takes in more late advance than the grant has room for:
  `EventRuns.StepWithinGrantWhen`, `EventRuns.AlwaysWithinGrantWhen`; `EventRuns.NetCashWithinGrant` follows.
- **What closing does not look at.** Along every run a stored total never exceeds the live one, and equals it
  exactly when that source gained nothing since the last preparation (`StoredFigures.StoredIsTotalWhen`). Closing
  does not repeat the stale-data check, so its figures are live exactly when, since then, no claim or income was
  verified and no advance disbursed (`StoredFigures.SealedIsLiveWhen`, `Scenarios.ClosedWithStaleFigures`), and the
  club holds the payout exactly when no advance was disbursed (`StoredFigures.LiveCashIsPayoutWhen`,
  `Scenarios.ClosedWithSurplusCash`).
- **Overtaken drafts.** A settlement whose sources gain between preparation and approval is told that it must be
  recalculated, but can no longer be submitted, audited, prepared, paid or reopened, and the event never closes:
  `StoredFigures.OvertakenForever`, `StoredFigures.OvertakenWhen`, `Scenarios.DraftCanBeOvertaken`.
- **Frozen events.** Three operations lack the closed-event guard; that a closed event is frozen rests on what
  certification checked: `EventSafety.FreezeNeedsNothingPending`.
- **Retry-After.** The announced wait is truncated and can be too short by a fraction of a second:
  `RateLimiter.RetryAfterIsEnoughWhen`, `RateLimiter.RetryAfterCanBeTooShort`.
- **Budget balance.** Income and contribution are checked against the total only when there are line items, and only
  on creation and header updates: a budget without items may ask for anything within the cap
  (`Budgets.HeaderCanUnbalance`), and deleting or replacing an item is not checked (`Budgets.DeletingCanUnbalance`);
  exactly when the policy survives is `Budgets.SlackAfterCreate` and `Budgets.SlackAfterEdit`.
- **Hall step.** Its conflict query compares booking dates, and nothing ties the requested date to the slot: it misses
  a clash exactly when every clashing booking carries another date, because a slot is misdated or runs past midnight
  (`Bookings.DateConflictMissesWhen`, `Bookings.DateConflictMissesMisdatedRequest`,
  `Bookings.DateConflictMissesOvernightBooking`). After a revision it keeps the earlier slot
  (`WorkflowRules.BookedSlotIsRequestedWhen`); the event then takes place elsewhere than approved, exactly when the
  booking no longer has the approved slot (`CampusRuns.EventTakesPlaceAsApprovedWhen`,
  `ProposalScenarios.BookedSlotCanDiffer`). That booking also blocks moving its own request
  (`EditingRules.MoveIsBlockedWhen`, `ProposalScenarios.OwnBookingCanBlock`).
- **Documentation and code.** The docstring of `cancel_confirmed_event` asks for a settlement refund of a
  disbursed advance, but a cancelled event can never have a settlement (`EventSafety.CancelledStaysClean`); the
  model follows the code.

## Model

Service methods that only check guards and assign fields have no row of their own: each is proved to give the reply
and the record of its rule. What the rules promise is stated on the record's own fields in the `Outcomes` modules, and
the rows of `EventApi` and `ProposalApi` carry it over to the mutable rows.

| member | source | states |
|---|---|---|
| `EventRuns.SettledMeansPaidUp` | backend/app/services/settlement_service.py:2068-2101 | In every state any run of operations reaches, over any number of prepare, audit, pay and reopen rounds, SETTLED implies advance + all reimbursements - all refunds = payout, so PAYMENT_OUTSTANDING is never reported. |
| `EventRuns.OpenedRunIsSound` | backend/app/services/settlement_service.py:1109-1155 | Every reachable record satisfies the strengthened invariant: entitlement formulas, right direction even when the balance is left over, stored aggregates those of the stored fingerprint, numbered and balanced histories, and what closing certifies. |
| `EventRuns.StatedDuesBoundWhatIsDue` | backend/app/services/settlement_service.py:1141-1155 | In every reachable state the stored balance is reimbursement due minus refund due, at most one of them non-zero; on a draft they are exactly what is due, and ever after what is due lies between zero and them. |
| `EventRuns.PayoutWithinGrant` | backend/app/services/settlement_service.py:1109-1130 | For every reachable settlement 0 <= payout <= grant, and net cash is never negative and never above grant plus advance. |
| `EventRuns.AlwaysWithinGrantWhen` | backend/app/services/settlement_service.py:1237-1260 | In every run from a fresh event, net cash is within the sanctioned grant after each step if and only if no accepted re-preparation takes in more late advance than the grant has room for. |
| `EventRuns.StepWithinGrantWhen` | backend/app/services/settlement_service.py:1109-1155 | One step from a record within the grant, of any of the four services, stays within it if and only if it is not such a re-preparation. |
| `EventRuns.NetCashWithinGrant` | backend/app/services/settlement_service.py:1109-1130 | So in any run where no advance is disbursed after the first preparation, net cash never exceeds the grant and the settlement knows of the whole advance. |
| `EventRuns.PreparationExceedsGrantWhen` | backend/app/services/settlement_service.py:1237-1260 | A re-preparation takes net cash above the grant exactly when the advance disbursed since the last one exceeds the headroom left. |
| `Scenarios.NetCashCanExceedGrant` | backend/app/services/settlement_service.py:604-609 | The ceiling does need that condition: a concrete run from a fresh event, with a grant of 100, after which net cash is 200. |
| `StoredFigures.StoredIsTotalWhen` | backend/app/services/settlement_service.py:1060-1107 | Along every run from a fresh event, each stored total (verified claims, verified income, disbursed advance) equals the live one if and only if that source gained nothing since the last accepted preparation, and is less otherwise. |
| `StoredFigures.StepGrows` | backend/app/services/settlement_service.py:1060-1107 | Every operation adds exactly its gain to a live total: the claim verified in full, the part verified, the income verified, the amount disbursed, and nothing otherwise; none takes anything off one. |
| `StoredFigures.LiveCashIsPayoutWhen` | backend/app/services/settlement_service.py:2068-2101 | On every reachable SETTLED record, hence on every closed or archived one, the cash really held exceeds the payout by exactly the advance disbursed since preparation: it is the payout if and only if no advance was disbursed since the last one. |
| `Scenarios.ClosedWithSurplusCash` | backend/app/services/closeout_service.py:520-575 | A concrete run to a CLOSED event with payout 100 and 200 held: nothing compares the stored advance with the live one. |
| `StoredFigures.SealedIsLiveWhen` | backend/app/services/closeout_service.py:520-575 | The figures of a closed or archived event agree with its ledgers if and only if, since the last preparation, no claim was verified in full or in part, no income verified and no advance disbursed. |
| `StoredFigures.SealedIsLiveWhenNotStale` | backend/app/services/closeout_service.py:520-575 | That is when the stale-data check, which closing does not repeat, would pass. |
| `Scenarios.ClosedWithStaleFigures` | backend/app/services/closeout_service.py:520-575 | A concrete run to a CLOSED event whose ledger holds twice the verified spend its certificate states. |
| `EventRuns.AuditedIsLive` | backend/app/services/settlement_service.py:1508-1573 | Whenever an audit goes through, also after a reopening resubmitted without re-preparing, stored grant, verified spend, income, advance and payout equal those recomputed from the live ledgers, every claim is terminal and no income or advance is undecided. |
| `EventRuns.SubmittedIsLive` | backend/app/services/settlement_service.py:1425-1441 | The same holds whenever a settlement is submitted, from DRAFT, QUERIED or REOPENED. |
| `EventRuns.FingerprintSubsumesAggregates` | backend/app/services/settlement_service.py:1356-1387 | When the prepared fingerprint is found, the stale-data check passes exactly when the fingerprints are equal; the aggregate comparisons add nothing. |
| `EventRuns.StaleExactlyWhenSourcesDiffer` | backend/app/services/settlement_service.py:1334-1394 | A settlement is stale exactly when some expense entry, income entry or the advance differs from those it was prepared from. |
| `EventRuns.PaymentReducesDue` | backend/app/services/settlement_service.py:1757-1816 | An accepted payment is positive, never overshoots, takes exactly its amount off a non-negative due, and settles exactly when it brings the due to zero. |
| `EventRuns.RoundIsBounded` | backend/app/services/settlement_service.py:1714-1762 | From approval on, without a reopening, any run keeps the figures, only extends the payments, and makes no more payments than paise came off the due. |
| `EventRuns.EverySnapshotIsBalanced` | backend/app/services/settlement_service.py:1884-1962 | Every revision ever taken is SETTLED and itself balanced, its payments are a prefix of the current ones, and both histories are numbered 1..n. |
| `EventRuns.CertificationsAreKept` | backend/app/services/closeout_service.py:578-609 | In every run the number of certified closures is the number of closure revisions, plus one while the event is CLOSED or ARCHIVED. |
| `EventRuns.HistoryIsAppendOnly` | backend/app/services/settlement_service.py:1938-1946 | Payments, settlement revisions and closure revisions only ever grow along a run. |
| `EventRuns.StepKeepsSound` | backend/app/services/settlement_service.py:345-2000 | Every operation on an event, of any service, keeps the record sound. |
| `SettlementRules.PrepareKeepsSound` | backend/app/services/settlement_service.py:1226-1284 | Preparing, for the first time or after a reopening with payments of earlier rounds, yields sound figures and a right direction. |
| `SettlementRules.AuditKeepsSound` | backend/app/services/settlement_service.py:1560-1586 | An audit decision keeps the record sound: a status is only given in the direction the money still has to go. |
| `SettlementRules.PaymentKeepsSound` | backend/app/services/settlement_service.py:1757-1829 | A payment keeps the direction right, net cash non-negative and every earlier snapshot balanced. |
| `SettlementRules.ReopenKeepsSound` | backend/app/services/settlement_service.py:1884-1962 | A reopening adds a balanced, correctly numbered snapshot and keeps the record sound. |
| `SettlementRules.StepKeepsSound` | backend/app/services/settlement_service.py:345-2000 | Each of the twelve advance, income and settlement operations keeps the record sound. |
| `SettlementRules.FiguresStay` | backend/app/services/settlement_service.py:1237-1284 | No operation but preparation changes stored figures, sanction or fingerprint. |
| `SettlementRules.IncomeStepKeepsSound` | backend/app/services/settlement_service.py:784-800 | Recording and judging income keeps ids unique, amounts positive, and nobody judges income they recorded. |
| `SettlementRules.AdvanceStepKeepsSound` | backend/app/services/settlement_service.py:440-458 | An advance is paid in full or not at all and never exceeds the grant. |
| `Fingerprint.FetchOrderIsIrrelevant` | backend/app/services/settlement_service.py:943-966 | The canonical form does not depend on the order the rows are fetched in. |
| `Fingerprint.SameFingerprintSameSources` | backend/app/services/settlement_service.py:943-992 | Two sets of sources with unique ids have equal canonical forms exactly when version, grant and advance agree and both ledgers hold the same entries. |
| `Fingerprint.FingerprintFixesTotals` | backend/app/services/settlement_service.py:1060-1107 | A canonical form determines verified expenditure, verified income and disbursed advance. |
| `Fingerprint.SameFingerprintSamePayout` | backend/app/services/settlement_service.py:1109-1115 | Equal canonical forms force equal totals, equal advance and equal payout. |
| `Fingerprint.AggregatesMissReplacement` | backend/app/services/settlement_service.py:1375-1387 | The aggregates alone miss a replacement with the same total: a concrete pair of ledgers with equal totals and different fingerprints. |
| `Scenarios.AggregatesMissDisallowedClaim` | backend/app/services/settlement_service.py:1375-1387 | A concrete run, with a claim made and disallowed after preparation, whose difference only the fingerprint sees. |
| `Ledger.ClaimsAreConserved` | backend/app/services/settlement_service.py:1060-1076 | When every claim is terminal, total claimed = total verified + total disallowed. |
| `Ledger.ClaimsAreAccountedFor` | backend/app/services/settlement_service.py:1060-1076 | In any ledger the claimed total is verified + disallowed + what is still unresolved. |
| `LedgerSummary.Summarise` | backend/app/services/expense_service.py:1202-1255 | The summary loop returns the sums, the count of every occurring status, and one row per occurring category in name order. |
| `LedgerSummary.BreakdownSumsToTotals` | backend/app/services/expense_service.py:1240-1249 | The category rows add up to the totals, column by column. |
| `LedgerSummary.StatusCountsSumToTotal` | backend/app/services/expense_service.py:1215-1217 | Every expense is counted under exactly one status. |
| `LedgerSummary.AgreesWithSettlement` | backend/app/models/domain.py:1270-1279 | The summary and the settlement report the same verified and disallowed totals; claimed totals differ by exactly the DISALLOWED claims. |
| `EventSafety.SealedRunIsFrozen` | backend/app/services/closeout_service.py:70-80 | While CLOSED or ARCHIVED, every run without an approved reopening leaves all but the status unchanged; an archived record never changes again. |
| `EventSafety.FreezeNeedsNothingPending` | backend/app/services/settlement_service.py:515-526 | A closed record with sound ledgers is immune to every operation but reopening if and only if it has no requested or approved advance and no recorded income, whose mutators have no closed-event guard. |
| `EventSafety.SealedStepChangesNothing` | backend/app/services/settlement_service.py:166-173 | One step on a sealed record with nothing pending changes at most CLOSED to ARCHIVED. |
| `EventSafety.CancelledStaysClean` | backend/app/services/event_service.py:997-1030 | A cancelled event stays cancelled and never has a pending advance, an expense, a payment or a settlement; a disbursed advance stays as it was. |
| `EventSafety.StrandedForever` | backend/app/services/settlement_service.py:1714-1762 | An approved settlement with a direction and nothing due is a dead end: no run changes it and the event can never be closed. |
| `EventSafety.ApprovalStrandsExactlyWhen` | backend/app/services/settlement_service.py:1560-1573 | An approval strands a settlement exactly when it is not BALANCED and net cash already equals the payout. |
| `EventSafety.DueCanBePaid` | backend/app/services/settlement_service.py:1714-1762 | An approved settlement that is not stranded is settled by one payment of all that is due. |
| `EventSafety.ResubmittedAsIs` | backend/app/services/settlement_service.py:1425-1441 | Reopening and resubmitting as is strands a settlement unless it was BALANCED from the start. |
| `EventSafety.PreparedAgain` | backend/app/services/settlement_service.py:1237-1260 | Preparing it again with nothing changed settles it on approval. |
| `StoredFigures.OvertakenForever` | backend/app/services/settlement_service.py:1226-1232 | A settlement in DRAFT, UNDER_AUDIT or QUERIED with a stored total behind the live one is a dead end: no run changes it and the event never closes. |
| `StoredFigures.OvertakenWhen` | backend/app/services/settlement_service.py:1334-1394 | Along a run a settlement not yet approved is in that state if and only if some source gained since it was prepared. |
| `Scenarios.DraftCanBeOvertaken` | backend/app/services/settlement_service.py:1226-1232 | A concrete run from a fresh event to an overtaken draft. |
| `Scenarios.SettlementCanBeStranded` | backend/app/services/settlement_service.py:1425-1441 | A concrete run from a fresh event to a settlement pending with nothing due. |
| `EventSafety.DecisionsAreFinal` | backend/app/services/expense_service.py:441-456 | Terminal claims, judged incomes and decided advances are never edited, deleted or decided again, through any run. |
| `CloseoutRules.ReopeningAlwaysCompletes` | backend/app/services/closeout_service.py:846-930 | On a sound CLOSED record an approved reopening is refused exactly for a missing reason or a caller other than Dean or Principal; otherwise it completes with event COMPLETED, settlement REOPENED and one new revision in each history. |
| `CloseoutRules.EligibleMeans` | backend/app/services/closeout_service.py:240-304 | The blocker list is empty exactly when the report is certified, every source is resolved, the settlement is settled and paid up, and no booking still runs. |
| `CloseoutRules.BlockersMean` | backend/app/services/settlement_service.py:2013-2101 | Each machine-readable blocker is reported exactly when its condition holds. |
| `CloseoutRules.PaymentNeverOutstanding` | backend/app/services/settlement_service.py:2068-2101 | On a sound record PAYMENT_OUTSTANDING is never reported. |
| `CloseoutRules.StepKeepsSound` | backend/app/services/closeout_service.py:378-1036 | Every closeout operation keeps the record sound; certification establishes what the freeze rests on. |
| `CloseoutRules.StepFrame` | backend/app/services/closeout_service.py:378-800 | Apart from approving a reopening, closeout changes only status and closure. |
| `ExecutionRules.StepKeepsSound` | backend/app/services/event_execution_service.py:209-700 | Starting, completing, reporting on and cancelling an event keep the record sound; nobody certifies their own report. |
| `ExecutionRules.StepFrame` | backend/app/services/event_service.py:902-1049 | They change only status, report and advance, never the disbursed amount, and never seal or unseal an event. |
| `ExpenseRules.StepKeepsSound` | backend/app/services/expense_service.py:334-1090 | Every expense operation keeps amounts consistent with status and ids unique, on delivered events only. |
| `SettlementService.TotalExpenses` | backend/app/services/settlement_service.py:1036-1076 | The loop returns the three sums over the ledger, or nothing exactly when a claim is unresolved. |
| `SettlementService.TotalIncome` | backend/app/services/settlement_service.py:1078-1093 | The loop returns the verified income, or nothing exactly when an income is still recorded. |
| `SettlementService.TotalPayments` | backend/app/services/settlement_service.py:1117-1139 | The loop returns all reimbursements and all refunds over all rounds. |
| `SettlementService.ComputeTotals` | backend/app/services/settlement_service.py:1025-1175 | The figures computed step by step are the live figures of the record, refused exactly while a source is undecided. |
| `SettlementService.PrepareSettlement` | backend/app/services/settlement_service.py:1177-1316 | On a completed event with certified report and every source decided, the settlement is created, or rewritten in place when REOPENED, as a DRAFT holding the figures and fingerprint of the live ledgers and of all payments ever made; a second live settlement is refused. |
| `SettlementService.VerifyLiveSources` | backend/app/services/settlement_service.py:1322-1394 | Stale exactly when version, grant, fingerprint (if it was found), verified spend, verified income or advance differ from the live ones; undecided sources are a different error. |
| `SettlementService.RecordPayment` | backend/app/services/settlement_service.py:1630-1847 | Accepts only a payment in the direction of the settlement, positive, with reference and proof owned by the event, not above what is due over all rounds; appends it and settles when nothing is left. |
| `CloseoutService.FinancialEligibility` | backend/app/services/settlement_service.py:2001-2108 | Appending blockers check by check yields exactly the failing conditions, in the order they are checked. |
| `CloseoutService.ClosureEligibility` | backend/app/services/closeout_service.py:239-311 | The final list drops EVENT_NOT_COMPLETED once past completion, repeats nothing, and adds cancellation in front and a running booking at the end. |
| `CloseoutService.ApproveReopen` | backend/app/services/closeout_service.py:811-972 | Closure snapshot, status and nested settlement reopening happen together, or, were the nested call refused, not at all. |
| `ExpenseService.CheckDuplicateInvoice` | backend/app/services/expense_service.py:278-328 | The scan reports a duplicate exactly when a live claim of the invoice exists in another event, or in this one on another bill. |
| `ExpenseService.SubmitExpenses` | backend/app/services/expense_service.py:609-705 | The loop submits exactly the selected draft and queried claims, all of them when no ids are given, and is refused when there is none. |
| `EventApi.Handle` | backend/app/api/v1/endpoints/settlement.py:71-570 | Whatever request arrives (advance, income, settlement, expense, delivery, report, cancellation or closeout), the service method run on the mutable rows gives the reply and the record of one step of a run, and sound rows stay sound; so every theorem about runs is one about the rows. |
| `Invoices.StepKeepsInvoicesUnique` | backend/app/services/expense_service.py:278-328 | Every expense operation keeps invoices unique: never live in two events, and within one event on one bill only. |
| `CampusRuns.ReachableIsSound` | backend/app/services/event_service.py:577-666 | In every state reachable from an empty campus all proposals and events are sound, halls exclusive and invoices unique. |
| `CampusRuns.InvoiceClaimedOnce` | backend/app/services/expense_service.py:300-328 | In every reachable state two live claims with one vendor, invoice number and date are in one event and on one bill. |
| `CampusRuns.NoDoubleBooking` | backend/migrations/versions/0001_initial_schema.py:614-622 | In every reachable state no instant of a hall is covered by two active bookings. |
| `CampusRuns.AvailabilityDecidesConfirmation` | backend/app/services/venue_service.py:184-200 | In every reachable state a slot is free by the availability test exactly when confirming it keeps the bookings exclusive. |
| `CampusRuns.PayoutWithinCap` | backend/app/services/budget_service.py:174-179 | End to end, for every settlement of every reachable campus: 0 <= payout <= grant <= institutional cap, the grant being the approved version's contribution, and the advance within the grant. |
| `CampusRuns.ApprovedAsSubmitted` | backend/app/services/event_service.py:427-536 | While submitted, in review, approved or rejected, content, venue slot and budget equal the current version's snapshot; an approval confirms that version, in the booked slot or else the requested one, every step having reviewed it and been approved by somebody other than the owner. |
| `CampusRuns.EventTakesPlaceAsApprovedWhen` | backend/app/services/event_service.py:603-633 | In every reachable state a confirmed event takes place in the slot its approved version asks for if and only if there is no booking or the booking has that slot. |
| `CampusRuns.OneRunningInstance` | backend/app/services/workflow_service.py:264-270 | At most one workflow instance of a proposal is running, the linked one, and only under review or revision. |
| `CampusRuns.WorkflowFollowsProposal` | backend/app/services/workflow_service.py:396-415 | In every reachable state versions are exactly 1..current_version, earlier instances superseded, steps before the pointer approved and after it pending, the awaited step as the proposal's status says, and approval, rejection and cancellation decided together with the linked instance. |
| `CampusRuns.VersionsAreImmutable` | backend/app/services/event_service.py:517-525 | A recorded version stays as it is in every later state. |
| `CampusRuns.RejectionAndCancellationAreFinal` | backend/app/services/event_service.py:767-836 | A rejected or cancelled proposal never leaves its status, never holds a hall and never becomes an event; a cancelled one has no pending step. |
| `CampusRuns.FinalForever` | backend/app/services/workflow_service.py:670-692 | A decided proposal keeps content, versions, workflow and confirmation in every later state; its booking can only be released. |
| `CampusRuns.EventCancellationIsFinal` | backend/app/services/event_service.py:949-1049 | A cancelled event stays cancelled with no booked hall, pending advance, claim or settlement, ever. |
| `Campus.StepKeepsSound` | backend/app/services/workflow_service.py:454-493 | Every operation on any request keeps the whole campus sound. |
| `Campus.WithinCap` | backend/app/services/budget_service.py:174-179 | The sanction of a confirmed event is non-negative and within the institutional cap. |
| `Bookings.OverlapIsSharedInstant` | backend/migrations/versions/0001_initial_schema.py:609-622 | For proper slots the overlap test holds exactly when some instant of one hall is in both half-open intervals. |
| `Bookings.CheckHallAvailability` | backend/app/services/venue_service.py:171-208 | The scan with early exit answers true exactly when no active booking of the hall overlaps the window, and lists the booked slots. |
| `Bookings.AvailableIffConfirmable` | backend/app/services/venue_service.py:184-200 | In an exclusive table a slot has no clash exactly when adding its booking keeps the table exclusive. |
| `Bookings.DateConflictMissesWhen` | backend/app/services/workflow_service.py:454-473 | For any slots the hall step's query misses a clash if and only if every clashing booking carries another date; then of each clashing pair one slot is not dated by the day it starts, or one runs past midnight. |
| `Bookings.DateConflictOfDatedSlots` | backend/app/services/workflow_service.py:454-473 | Among slots dated by their starting day it misses a clash if and only if every clashing booking starts on another day. |
| `Bookings.DateConflictMissesMisdatedRequest` | backend/app/schemas/venue.py:83-106 | The very slot that is booked, requested under another date, clashes unseen although neither slot runs past midnight. |
| `Bookings.DateConflictIsComplete` | backend/app/services/workflow_service.py:454-473 | It misses nothing among slots that stay within the day they are dated. |
| `Bookings.DateConflictMissesOvernightBooking` | backend/app/services/workflow_service.py:454-473 | An overnight booking is invisible to that query; only the exclusion constraint stops the second booking. |
| `EditingRules.EditKeepsSound` | backend/app/services/event_service.py:260-394 | Every edit keeps the proposal sound. |
| `EditingRules.EditFrame` | backend/app/services/event_service.py:299-304 | Outside DRAFT and REVISION_REQUIRED no edit moves anything a version records. |
| `EditingRules.OwnBookingBlocksMove` | backend/app/services/venue_service.py:424-438 | After a revision the venue request cannot be moved onto any part of the slot its own active booking holds. |
| `EditingRules.MoveIsBlockedWhen` | backend/app/services/venue_service.py:424-438 | A move that clashes with nobody else and meets every other demand is refused if and only if it overlaps the proposal's own active booking. |
| `ProposalScenarios.OwnBookingCanBlock` | backend/app/services/venue_service.py:424-438 | A concrete run from an empty campus after which moving the request by half an hour is refused although no other booking exists. |
| `WorkflowRules.ApproveKeepsSound` | backend/app/services/workflow_service.py:396-545 | An approved step keeps proposal and workflow coupled, including the final approval that confirms the event. |
| `WorkflowRules.SubmitKeepsSound` | backend/app/services/workflow_service.py:252-338 | A submission supersedes the running instance and starts one on a new version, keeping the record sound. |
| `WorkflowRules.RejectKeepsSound` | backend/app/services/workflow_service.py:592-731 | A rejection ends workflow and proposal together and frees the hall. |
| `WorkflowRules.RevisionKeepsSound` | backend/app/services/workflow_service.py:733-858 | A revision request leaves the pointer on the step that asked for it. |
| `WorkflowRules.CancelKeepsSound` | backend/app/services/event_service.py:767-836 | A cancellation cancels the running workflow with no pending step left and frees the hall. |
| `WorkflowRules.DecidedIsFinal` | backend/app/services/workflow_service.py:396-415 | No review, submission or cancellation moves a decided proposal. |
| `WorkflowRules.BookedSlotIsRequestedWhen` | backend/app/services/workflow_service.py:475-493 | After the hall step the booked slot is the requested one exactly when there was no booking yet or the request still asks for its slot. |
| `ProposalScenarios.BookedSlotCanDiffer` | backend/app/services/workflow_service.py:475-493 | A concrete run from an empty campus, through a revision to the final approval, after which the event takes place in the slot booked first while the approved version asks for a later one. |
| `WorkflowService.InstantiateWorkflow` | backend/app/services/workflow_service.py:252-338 | The loop creates one pending step per stage on the current version, after superseding the running instance, and links the new one. |
| `WorkflowService.SubmitProposal` | backend/app/services/event_service.py:395-575 | From DRAFT or REVISION_REQUIRED: the version counter, the snapshot of the live record under that number and the fresh instance move together. |
| `WorkflowService.LatestVersion` | backend/app/services/event_service.py:596-601 | The loop finds a version than which none has a greater number, unless there is none. |
| `WorkflowService.CreateConfirmedEvent` | backend/app/services/event_service.py:577-666 | Idempotent: creates the confirmation from the latest version and the active booking, once. |
| `WorkflowService.ConfirmVenue` | backend/app/services/workflow_service.py:454-493 | Books the requested slot, or reactivates the booking of an earlier round with its own slot; refused on a dated conflict or by the exclusion constraint. |
| `WorkflowService.ApproveStep` | backend/app/services/workflow_service.py:366-590 | Marks the awaited step, runs hall and finance interlocks, then moves the pointer or completes and confirms; a hall conflict takes back the mark. |
| `WorkflowService.CancelProposal` | backend/app/services/event_service.py:700-900 | On an undecided proposal: running instance cancelled, pending steps skipped, booking freed, proposal CANCELLED. |
| `WorkflowService.SkipPending` | backend/app/services/event_service.py:780-789 | The loop skips exactly the pending steps. |
| `EditingService.ApplyPatch` | backend/app/services/event_service.py:328-345 | Exactly the given fields are replaced. |
| `EditingService.TotalItems` | backend/app/services/budget_service.py:150-171 | The loop returns the sum of the items, or nothing exactly when one is not positive. |
| `EditingService.EditBudget` | backend/app/services/budget_service.py:253-668 | Header, added, replaced and deleted items: only the header is checked against cap and total, the total is recalculated by the loop after each item edit. |
| `EditingService.Recalculate` | backend/app/services/budget_service.py:466-470 | The total is the sum of the new items; nothing else of the budget changes. |
| `ProposalApi.Edit` | backend/app/api/v1/endpoints/events.py:119-475 | Any edit of fields, venue request or budget, carried out by its service method on the mutable row, gives the rule's reply and record and keeps the row sound. |
| `ProposalApi.Review` | backend/app/api/v1/endpoints/workflows.py:68-155 | Any submission, approval, rejection, revision request or cancellation, carried out by its service method on the mutable row, gives the rule's reply and record and keeps proposal and workflow coupled. |
| `Budgets.StepKeepsSound` | backend/app/services/budget_service.py:253-668 | Every budget edit keeps the contribution within the cap and the total the sum of the items. |
| `Budgets.SlackAfterEdit` | backend/app/services/budget_service.py:301-312 | From a balanced budget, adding an item never breaks income + contribution <= total; a header update keeps it if and only if there are items or it asks for nothing; replacing or deleting an item keeps it if and only if the amount lost fits the slack. |
| `Budgets.SlackAfterCreate` | backend/app/services/budget_service.py:181-188 | A created budget meets the policy if and only if it has items or asks for nothing. |
| `Budgets.HeaderCanUnbalance` | backend/app/services/budget_service.py:301-306 | A concrete budget without items that an accepted header update, or creation itself, leaves asking for a contribution towards nothing. |
| `Budgets.DeletingCanUnbalance` | backend/app/services/budget_service.py:588-668 | A concrete balanced budget that deleting a line item leaves asking for more than it spends. |
| `RateLimiter.Limiter.CheckRateLimit` | backend/app/core/rate_limiter.py:32-55 | The purge loop keeps exactly the live timestamps in order; refused with the truncated wait at the limit, else recorded; other keys are untouched. |
| `RateLimiter.Limiter.Reset` | backend/app/core/rate_limiter.py:57-63 | Clears one key and no other, or all. |
| `RateLimiter.DecidesAsFullHistory` | backend/app/core/rate_limiter.py:40-55 | On a non-decreasing clock each decision on the purged list equals the decision on the full history of allowed calls. |
| `RateLimiter.AllowedCallsAreSpaced` | backend/app/core/rate_limiter.py:40-55 | Any limit + 1 consecutive allowed calls span at least the window. |
| `RateLimiter.WindowHoldsAtMostLimit` | backend/app/core/rate_limiter.py:40-55 | At most max_requests calls are allowed in any interval of the window's length. |
| `RateLimiter.RetryAfterOneMoreSecond` | backend/app/core/rate_limiter.py:48-52 | A refused caller alone on its key is allowed after waiting retry_after + 1 seconds. |
| `RateLimiter.RetryAfterIsEnoughWhen` | backend/app/core/rate_limiter.py:48-52 | After any run on a non-decreasing clock, waiting retry_after itself is enough for a refused caller alone on its key if and only if the remaining time was whole or at most one second. |
| `RateLimiter.RetryAfterCanBeTooShort` | backend/app/core/rate_limiter.py:48-52 | A concrete refusal that announces 59 seconds, after which the retry is refused again. |
| `RefreshTokens.TokenService.IssueAtLogin` | backend/app/services/auth_service.py:207-221 | A fresh token of its own login is active for seven days; nothing else changes. |
| `RefreshTokens.TokenService.RotateRefreshToken` | backend/app/services/auth_service.py:227-325 | Unknown: refused. Revoked: every active token of the user is revoked. Expired or account inactive: the token is revoked. Otherwise it is revoked and exactly one token of the same login replaces it. |
| `RefreshTokens.TokenService.RevokeRefreshToken` | backend/app/services/auth_service.py:327-348 | True exactly when the token was active; then it and no other is revoked. |
| `RefreshTokens.TokenService.RevokeAllUserTokens` | backend/app/services/auth_service.py:350-369 | Every active token of the user and no other is revoked; the count returned is how many. |
| `RefreshTokens.RotatedAtMostOnce` | backend/app/services/auth_service.py:274-310 | In any run each token is rotated successfully at most once and is revoked from then on. |
| `RefreshTokens.ActiveTokensHaveDistinctLogins` | backend/app/services/auth_service.py:258-322 | In any run two distinct active tokens trace back to distinct logins. |
| `RefreshTokens.ReuseEndsAllSessions` | backend/app/services/auth_service.py:274-289 | Presenting a revoked token leaves its user without an active token and other users untouched. |
| `RefreshTokens.SecondUseEndsFirst` | backend/app/services/auth_service.py:274-322 | Whoever presents a token second ends every session of the user, the first presenter's included. |
| `SettlementOutcomes.PaymentIsRecordedWhen` | backend/app/services/settlement_service.py:1684-1829 | A payment is accepted if and only if the officer pays in the direction of a pending settlement, with reference and owned proof, any positive amount up to what is left; it is then recorded as it was made, settles exactly when it is all that was left, and each refusal names what was wrong. |
| `SettlementOutcomes.InstalmentsAreAccepted` | backend/app/services/settlement_service.py:1757-1762 | On a sound record pending payment, with everything else in order, only the amount decides: every instalment from one paisa to the whole due is accepted. |
| `SettlementOutcomes.PreparedFigures` | backend/app/services/settlement_service.py:1060-1155 | The prepared settlement figure by figure: claims, verified and lost amounts, income, deficit, payout, balance and both dues in terms of the rows; everything else on the record stays. |
| `SettlementOutcomes.SettlementIsPreparedWhen` | backend/app/services/settlement_service.py:1195-1240 | A settlement is prepared if and only if the secretary asks on a delivered, certified event with every claim, income and advance decided and no live settlement; what each refusal attests. |
| `SettlementOutcomes.StaleWhen` | backend/app/services/settlement_service.py:1334-1394 | The stale-data check passes exactly when sources are decided and version, grant, totals and, if found, fingerprint match them. |
| `SettlementOutcomes.SettlementIsSubmittedWhen` | backend/app/services/settlement_service.py:1400-1441 | From DRAFT, QUERIED or REOPENED and matching its sources, and in no other case, a settlement goes under audit, with nothing but its status changed. |
| `SettlementOutcomes.SettlementIsApprovedWhen` | backend/app/services/settlement_service.py:1495-1573 | Exactly when an approval goes through, and that it leads by the stored type to SETTLED, PENDING_REIMBURSEMENT or PENDING_REFUND, figures untouched. |
| `SettlementOutcomes.SettlementIsQueriedWhen` | backend/app/services/settlement_service.py:1511-1525 | Exactly when a query goes through, and that it leaves QUERIED and all else as it was. |
| `SettlementOutcomes.AuditRefusalMeans` | backend/app/services/settlement_service.py:1492-1515 | What each refused audit attests. |
| `SettlementOutcomes.SettlementIsReopenedWhen` | backend/app/services/settlement_service.py:1870-1950 | Exactly when a settlement is reopened, and the snapshot that is kept: the settlement, all payments, the next number, who reopened it. |
| `SettlementOutcomes.ApprovedAdvanceArrives` | backend/app/services/settlement_service.py:345-625 | Through request, approval and disbursal, any approved amount within the grant reaches the club, and no other amount does. |
| `SettlementOutcomes.AdvanceIsRequestedWhen` | backend/app/services/settlement_service.py:361-401 | Exactly when an advance is requested, the row it leaves, and what each refusal attests. |
| `SettlementOutcomes.AdvanceIsApprovedWhen` | backend/app/services/settlement_service.py:431-470 | The same of approving it: any amount up to and including the grant. |
| `SettlementOutcomes.AdvanceIsRejectedWhen` | backend/app/services/settlement_service.py:515-540 | The same of rejecting it. |
| `SettlementOutcomes.AdvanceIsDisbursedWhen` | backend/app/services/settlement_service.py:585-625 | The same of disbursing it: the approved amount and no other. |
| `SettlementOutcomes.IncomeIsRecordedWhen` | backend/app/services/settlement_service.py:690-740 | Exactly when an income is recorded, the row it leaves, and what each refusal attests. |
| `SettlementOutcomes.IncomeIsVerifiedWhen` | backend/app/services/settlement_service.py:784-800 | Exactly when an income is verified, by whom, and that no other row changes. |
| `SettlementOutcomes.IncomeIsRejectedWhen` | backend/app/services/settlement_service.py:851-880 | The same of rejecting it. |
| `ExpenseOutcomes.ClaimIsStoredAsMade` | backend/app/services/expense_service.py:345-375 | An accepted creation appends one row with the category, vendor, invoice, date, bill and amount that were claimed, and changes nothing else. |
| `ExpenseOutcomes.ClaimIsMadeWhen` | backend/app/services/expense_service.py:334-375 | A claim is accepted if and only if it is positive, the secretary makes it on a completed event, its bill is the event's own, and its invoice is live neither in another event nor on another bill; what each refusal attests. |
| `ExpenseOutcomes.InvoiceIsNotClaimedTwice` | backend/app/services/expense_service.py:297-328 | Once a claim with an invoice number is accepted, no event that sees it accepts that invoice again. |
| `CampusOutcomes.InvoiceIsRefusedElsewhere` | backend/app/services/expense_service.py:297-328 | On the whole campus: after one event has claimed an invoice, claiming it in any other event changes nothing. |
| `ExpenseOutcomes.ClaimIsAmendedWhen` | backend/app/services/expense_service.py:441-516 | Exactly when a claim is amended, with every given field replaced and every other kept. |
| `ExpenseOutcomes.ClaimIsWithdrawnWhen` | backend/app/services/expense_service.py:570-595 | Exactly when a claim is withdrawn, and that the other rows stay in order. |
| `ExpenseOutcomes.ClaimsAreSubmittedWhen` | backend/app/services/expense_service.py:625-680 | Exactly when a submission goes through, and row by row which claims it submits. |
| `ExpenseOutcomes.ClaimIsRuledOnWhen` | backend/app/services/expense_service.py:730-1060 | Exactly when an officer's ruling goes through, the amount and status it stores, and that no other row changes. |
| `ExpenseOutcomes.RulingCounts` | backend/app/services/expense_service.py:845-870 | The officer's figure is what counts: verifying a part adds exactly that part to the verified total and the rest to the disallowed one; verifying in full adds the claim. |
| `StoredFigures.StoredLagsByGain` | backend/app/services/settlement_service.py:1060-1107 | Along every run a stored figure lags behind the live total by exactly what was verified or disbursed since the last accepted preparation. |
| `DeliveryOutcomes.EventIsStartedWhen` | backend/app/services/event_execution_service.py:209-262 | Exactly when the secretary starts an event: scheduled, and at most 120 minutes early. |
| `DeliveryOutcomes.EventIsStartedByAdminWhen` | backend/app/services/event_execution_service.py:264-312 | Exactly when an administrator does. |
| `DeliveryOutcomes.EventIsCompletedWhen` | backend/app/services/event_execution_service.py:317-434 | Exactly when completion and first report go through, and the report they leave. |
| `DeliveryOutcomes.ReportIsResubmittedWhen` | backend/app/services/event_execution_service.py:482-551 | Exactly when a report is resubmitted, under the next revision number. |
| `DeliveryOutcomes.ReportIsJudgedWhen` | backend/app/services/event_execution_service.py:557-696 | Certifying and sending back go through in the same cases, by the club's advisor who did not submit the report, and what each stores. |
| `DeliveryOutcomes.EventIsCancelledWhen` | backend/app/services/event_service.py:949-1030 | Exactly when an event is cancelled, and that only an advance not yet paid out is rejected with it. |
| `DeliveryOutcomes.CloseoutIsRequestedWhen` | backend/app/services/closeout_service.py:378-440 | Exactly when closing is requested: by the secretary of a delivered, decided, settled and paid-up event whose hall is free, or again. |
| `DeliveryOutcomes.CloseoutIsCertifiedWhen` | backend/app/services/closeout_service.py:485-609 | Exactly when closing is certified, and that the certificate states the grant, payout, balance, spend and income of the settlement closed over. |
| `DeliveryOutcomes.CloseoutIsRejectedWhen` | backend/app/services/closeout_service.py:656-700 | Exactly when closing is rejected, and that the event is COMPLETED again. |
| `DeliveryOutcomes.ReopeningIsPetitionedWhen` | backend/app/services/closeout_service.py:733-790 | Exactly who may petition for reopening, and that a petition changes nothing. |
| `DeliveryOutcomes.EventIsArchivedWhen` | backend/app/services/closeout_service.py:979-1020 | Exactly when an event is archived. |
| `DeliveryOutcomes.SettledEventIsClosed` | backend/app/services/closeout_service.py:378-609 | From a settled, paid-up, delivered event the whole way through request and certification to CLOSED stands open. |
| `CampusOutcomes.ClosingWaitsForHall` | backend/app/services/closeout_service.py:270-288 | Whatever a caller says of the hall, an event is neither put up for closing nor closed before its own active booking has ended. |
| `ProposalOutcomes.SubmissionRecordsProposal` | backend/app/services/event_service.py:452-536 | An accepted submission appends one version that records, field by field, the content, slot, audience, income, contribution, total and every line item of the live proposal, and changes none of them. |
| `CampusOutcomes.GrantIsApprovedContribution` | backend/app/services/settlement_service.py:283-334 | In every reachable state a confirmed event with a budget is sanctioned exactly the contribution, total and income of its proposal's budget; without one it has no sanction. |
| `CampusOutcomes.ConfirmationOpensEvent` | backend/app/services/event_service.py:603-655 | A confirmation opens a scheduled, empty record that starts when its slot does. |
| `ProposalOutcomes.SubmissionStartsWorkflow` | backend/app/services/workflow_service.py:264-338 | It supersedes every earlier instance and starts and links one with a pending step per stage, on the new version. |
| `ProposalOutcomes.StepIsApprovedWhen` | backend/app/services/workflow_service.py:396-473 | A step is approved if and only if it is awaited, by somebody other than the owner who is assigned or holds its role (an administrator on the first step only), and, on the second step, the hall is free. |
| `ProposalOutcomes.ApprovalMovesWorkflow` | backend/app/services/workflow_service.py:442-545 | What an approval does to step, pointer, instance and status, on the last step and before it. |
| `ProposalOutcomes.ApprovalInterlocks` | backend/app/services/workflow_service.py:452-503 | The second step approves the venue and books it, the third marks the budget verified, and no other step touches them. |
| `ProposalOutcomes.LastApprovalConfirmsEvent` | backend/app/services/event_service.py:596-655 | The last approval confirms the event from the latest version, which records the live proposal, in the booked slot or else the requested one. |
| `ProposalOutcomes.StepIsRejectedWhen` | backend/app/services/workflow_service.py:607-692 | Exactly when a step is rejected, and all that it ends and frees. |
| `ProposalOutcomes.RevisionIsRequestedWhen` | backend/app/services/workflow_service.py:748-818 | Exactly when a revision is requested, and that only the step and the proposal's status change. |
| `ProposalOutcomes.ProposalIsCancelledWhen` | backend/app/services/event_service.py:737-836 | Exactly when a proposal is cancelled, and that its workflow, hall and venue are released. |
| `ProposalOutcomes.DraftIsUpdatedWhen` | backend/app/services/event_service.py:285-345 | Exactly when a draft is updated, each field being the one given or else what it was. |
| `ProposalOutcomes.SecondEditorIsStale` | backend/app/services/event_service.py:285-297 | Of two editors who read the same lock only the first gets through. |
| `ProposalOutcomes.VenueIsRequestedWhen` | backend/app/services/venue_service.py:228-330 | A venue is requested if and only if slot, hall, seats, seven days' notice (unless by an administrator) and freedom from every active booking are in order; what each refusal attests. |
| `ProposalOutcomes.VenueIsMovedWhen` | backend/app/services/venue_service.py:383-460 | Exactly when a venue request is changed, part by part. |
| `ProposalOutcomes.VenueIsWithdrawnWhen` | backend/app/services/venue_service.py:502-545 | Exactly when it is withdrawn. |
| `ProposalOutcomes.BudgetIsCreatedWhen` | backend/app/services/budget_service.py:120-200 | Exactly when a budget is created, with a cap of 30000 rupees, and its total. |
| `ProposalOutcomes.HeaderIsUpdatedWhen` | backend/app/services/budget_service.py:285-330 | Exactly when a header update goes through, and that items and total stay. |
| `ProposalOutcomes.ItemIsAddedWhen` | backend/app/services/budget_service.py:422-497 | Exactly when an item is added, and that the total grows by its amount. |
| `ProposalOutcomes.ItemIsReplacedWhen` | backend/app/services/budget_service.py:500-575 | Replacing an item moves the total by the difference; a non-positive amount is refused. |
| `ProposalOutcomes.ItemIsDeleted` | backend/app/services/budget_service.py:588-655 | Deleting an item takes its amount off the total. |
| `RateLimiter.CallIsAllowedWhen` | backend/app/core/rate_limiter.py:40-55 | After any run on a non-decreasing clock a call is allowed if and only if fewer than the limit were allowed within the window before it. |
| `RefreshTokens.TokenIsRotatedWhen` | backend/app/services/auth_service.py:258-318 | A token is exchanged if and only if it is active, before its expiry, of an active account, for a fresh successor; it is then revoked and the successor lives seven days for the same user and login. |
| `RefreshTokens.LoginTokenRotatesFor` | backend/app/services/auth_service.py:207-221 | A token issued at login rotates exactly until seven days have passed. |
| `RefreshTokens.RefusedRotationMeans` | backend/app/services/auth_service.py:269-296 | What each refused rotation attests, and what it revokes. |
| `RefreshTokens.RevocationMeans` | backend/app/services/auth_service.py:327-369 | Logout revokes exactly one active token, a global logout exactly the user's active ones. |
| `Fingerprint.EntriesShow` | backend/app/services/settlement_service.py:943-982 | What an entry shows of its row: two claims, incomes or advances have the same entry exactly when id, status and every amount agree. |
| `LedgerSummary.RowMeans` | backend/app/services/expense_service.py:1218-1249 | A category's row adds up the expenses of that category alone. |
| `LedgerSummary.StatusCountMeans` | backend/app/services/expense_service.py:1215-1217 | A status is counted exactly as often as it occurs in the ledger. |
| `ExpenseOutcomes.UnknownClaimIsNotFound` | backend/app/services/expense_service.py:425-440 | Amending or withdrawing a claim the event does not have is answered with not found. |
| `SettlementOutcomes.UnknownIncomeIsNotFound` | backend/app/services/settlement_service.py:784-790 | Judging an unknown income is answered with not found. |
| `DeliveryOutcomes.ReportRefusalMeans` | backend/app/services/event_execution_service.py:557-696 | What each refused judgement of a report attests. |
| `DeliveryOutcomes.ReopeningRefusalMeans` | backend/app/services/closeout_service.py:846-900 | On a sound record a refused reopening attests a missing reason, a caller without authority, or an event that is not CLOSED, and nothing else. |
| `ProposalOutcomes.ReviewRefusalMeans` | backend/app/services/workflow_service.py:602-670 | A rejection or revision request given with its reason is refused for nothing but the guards common to all reviews. |
| `ProposalOutcomes.BudgetIsEditedWhen` | backend/app/services/budget_service.py:253-668 | Budget edits go through only on an editable proposal by an editor, and then exactly as the edit itself decides. |
| `ProposalOutcomes.BudgetIsWithdrawnOrMarkedWhen` | backend/app/services/budget_service.py:363-421 | Exactly when a budget is withdrawn, or marked by finance, and that a mark moves no figure. |
| `RefreshTokens.LoginIssuesWhen` | backend/app/services/auth_service.py:207-221 | A login adds one token of its own, good for seven days, and changes no other. |

## Left out

- Expense, income, payment, step and instance rows are values in lists held by a mutable row; updating such a
  row in place, and aliasing between two references to it, are not captured. Settlement, advance, event and
  proposal rows are objects updated in place.
- Numeric(12,2) overflow: amounts are unbounded integers.
- Row locks and interleaving inside one service call: every call is one atomic step.
- Free text (reasons, remarks, report contents, descriptions) is reduced to whether the mandatory text was given;
  `update_report` changes only such text and is not modelled.
- Audit logs and notifications, except the prepared fingerprint and the actor of a workflow step that the audit
  log carries; `requested_by` and `requested_at` of a closure come from the audit log and are left out with it.
- Which user a workflow stage is assigned to: a stage comes with its approver already resolved.
- The idempotency key of a submission, and inactive clubs.
- The difference between SQL `trim` and Python `strip` on exotic white space.
- Documents are an id, a type and whether they belong to the event; upload and storage are left out.
- Soft deletion of events and proposals, which no service performs.
- Password checks, lockout, access tokens and the choice of random refresh tokens; a colliding token is refused.
- Read-only views, dashboards, club membership, HTTP, schemas other than the bounds they put on amounts and slots.
- RateLimiter.AllowedCallsAreSpaced: the limit and the window are fixed along a run, as in the only caller.
