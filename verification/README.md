# The money core of a school-fee instalment platform, in Dafny

A parent pays a deposit on a school fee by card and the rest in weekly or monthly instalments that the school confirms.
A school may also move a family over that had already paid it directly, by sending an enrollment invite. This project
models the four parts of the back end that decide who owes what, and proves what they keep over every run:

- **The ledger** (`Ledger`, `LedgerService`): one enrollment, its payment rows and its audit trail, and the guarded
  transitions on them. `Ledger` gives each transition as a function, with the guards the code has and no others;
  `EnrollmentLedger` is the object whose methods write fields one at a time and are proved equal to those functions.
  `LedgerInvariant`, `LedgerRuns`, `Conservation`, `ScheduleLimits`, `CardPath` and `MigratedPlans` prove laws over all runs
  of commands. `CardRace` splits each card transition into a read and a later commit and interleaves any number of callers;
  `LedgerOutcomes`, `CardRetry` and `Idempotency` say on rows, balance, status and trail alone what each command is
  accepted for and leaves. `RaceMoney` says which interleavings keep the money laws. `Counterexamples` collects the runs that end where
  the code's comments say none does.
- **The schedule** (`Calendar`, `DueDates`, `Schedule`, `Arrears`, `EnrollmentView`, `PlanStarts`): no schedule is stored.
  It is rebuilt from the remaining balance and the confirmed instalments, so it is only right while the ledger conserves
  their sum. `Conservation.ScheduleStands` and `Conservation.ArrearsFollowMoney` are the theorems that join the two, and
  `ScheduleLimits.StandsStillIff` says they start from every state they can.
- **The fee inverse** (`PaystackFee`, `Payments`): the charge whose net, after a twice-rounded and non-monotone fee, is
  exactly the amount wanted, found by scanning a small window around an estimate.
- **Enrollment invites** (`Invites`, `InviteSafety`, `InviteLinks`, `InviteOutcomes`, `InviteService`): a protocol of conditional writes on a
  clock, with the expiry sweep's read and write as separate steps and claimed plans running under the ledger.

`Schedulers` adds the two background jobs that drive the ledger: the sweep over stale card payments and the nightly
default detection.

Rates and rounding are exact: amounts are whole kobo, a percentage is a rational rounded half up. A date is a day of the
Gregorian calendar in one fixed time zone and a time of day. A database transaction is one atomic step, and a unique index
is a condition on a write. A payment row is identified by its position.

## Where the code does something other than its comments say

- `grossUp` is documented to return the cheapest charge. At the default VAT it does for every base but one: 245968 kobo is
  also netted by 249999, which lies below the flat-fee threshold while the estimate lies above it
  (`PaystackFee.LeastOverall`, `PaystackFee.LeastOverallAtDefaultVat`).
- `installment-schedule.ts` says a dispute is the one path that moves a plan's opening balance, and that it matters only
  while the plan is failed. A parent whose deposit was disputed may enrol again, which makes the plan active with its earlier
  instalments still confirmed, so the schedule opens above what is owed. It is right exactly when there are none
  (`Conservation.ChargeOpens`, `Conservation.ScheduleStands`, `Counterexamples.ReenrolmentMovesSchedule`).
- The submission's guard is there so that confirmed instalments cannot overshoot the balance. It does not ask whether the
  plan is still awaiting its deposit, against whose whole fee it then measures. The deposit's credit takes that room away, and
  confirming the instalment, still pending, clamps: more is paid than the fee and the opening balance moves. A first
  enrollment opens the schedule its deposit fixed exactly when the deposit's share fits what is neither paid nor reserved by
  the time it is credited (`Conservation.FirstCreditIff`, `ScheduleLimits.CreditStandsStillIff`,
  `Counterexamples.EarlyInstallmentMovesSchedule`).
- Confirming a row that was rejected or reversed moves the opening balance too, exactly when the row no longer fits the
  balance and the clamp swallows the rest (`Conservation.ConfirmConservesIff`,
  `Counterexamples.ReconfirmedRejectionMovesSchedule`). So does a corrected migrated amount, exactly when the opening balance
  is not what the new figure leaves of the fee (`ScheduleLimits.AmendmentKeepsScheduleIff`).
- A dispute on a defaulted plan, or one that read the plan before its deposit was credited, takes the deposit's row back
  and leaves its credit on the balance (`LedgerRuns.DisputeBackedIff`, `Counterexamples.DefaultedDisputeLeavesPhantomCredit`,
  `Counterexamples.StaleDisputeLeavesPhantomCredit`).
- `rejectPayment` checks neither the type nor the status of the row, so rejecting an old failed first payment fails a plan
  whose newer charge is still in flight, and the next retry opens a second one beside it (`CardPath.RejectOneLiveIff`,
  `Counterexamples.RejectingDeadRowStrandsLiveCharge`).
- Initiating a fresh charge rewrites the fee and the balance and writes no audit row, so the balance moves
  without a trail exactly when it was not already the new fee (`LedgerRuns.InitiationReplaysIff`,
  `LedgerRuns.FeeRiseLeavesNoTrail`).
- The webhook handler says Paystack's retry re-processes a delivery that failed. The delivery was logged before it failed,
  so the retry is taken for a duplicate (`CardRace.RedeliveryIsInert`). The sweep is what recovers the payment.
- The write of `expireStale` names no status. An invite revoked or sent again after the sweep read it is turned into an
  expired one. A revoked invite can then be sent again, and a fresh link dies with its window still open
  (`InviteSafety.RetireRespectsIff`, `InviteSafety.SweepRevivesRevoked`, `InviteSafety.SweepExpiresReissued`).
- A plan's start is checked when an invite is issued so that nobody opens behind; a claim does not check it again, so a
  late one can (`PlanStarts.ClaimedBehindIff`, `PlanStarts.LateClaimOpensBehind`).

## Model

| member | source | states |
|---|---|---|
| `PaystackFee.VatRate` | src/common/paystack-fee.ts:45-53 | A configured rate between 0 and 1 is the one used; without one, or with one out of range, it is seven and a half per cent. |
| `PaystackFee.FeeRegions` | src/common/paystack-fee.ts:20-76 | Short of the cap the fee is within a kobo and a half of one and a half per cent, with 100 naira more from 2500 naira on, and VAT on that; past it the capped fee is charged. |
| `PaystackFee.FeeCapped` | src/common/paystack-fee.ts:60-76 | The fee never exceeds 2000 naira and the VAT on it. |
| `PaystackFee.NetCanFall` | src/common/paystack-fee.ts:104-112 | The net goes 427, 426, 427 as the charge goes 433, 434, 435. |
| `PaystackFee.FeeStep` | src/common/paystack-fee.ts:60-76 | One more kobo charged never lowers the fee, so the net never rises by more than one a kobo, though it may fall. |
| `PaystackFee.NetHits` | src/common/paystack-fee.ts:60-76 | A discrete intermediate value theorem: between a charge netting at most the base and a dearer one netting at least it, some charge nets it exactly. |
| `PaystackFee.ExactInWindow` | src/common/paystack-fee.ts:120-169 | For every positive base, every VAT rate in [0, 1] and every window of three kobo or more, the window holds a charge that nets the base exactly. |
| `PaystackFee.BelowWindow` | src/common/paystack-fee.ts:116-118 | Every charge cheaper than the window nets less than the base, but for the last charge under the waiver threshold. |
| `PaystackFee.LeastOverall` | src/common/paystack-fee.ts:116-169 | The answer is the cheapest exact charge of all if and only if 249999 does not lie below the window and net the base. |
| `PaystackFee.LeastOverallAtDefaultVat` | src/common/paystack-fee.ts:116-141 | At the default VAT and window, that exception happens for the base 245968 and no other. |
| `PaystackFee.ScanWindow` | src/common/paystack-fee.ts:152-182 | The scan answers the least exact charge of the range; failing that the least with a surplus; failing that nothing. |
| `PaystackFee.GrossUp` | src/common/paystack-fee.ts:120-183 | Refuses exactly the non-positive bases; at any window of three kobo or more it succeeds and charge minus fee is the base, so the surplus and throw paths are dead. |
| `Payments.AcceptedDeposit` | src/payments/payment.service.ts:138-180 | A deposit is accepted exactly when the school's part of it lies between a quarter of the fee and the fee; the split then conserves both the deposit and the fee. |
| `Payments.RatesOfDeposit` | src/payments/payment.service.ts:138-180 | The platform's fee is a fortieth of the school's and the least deposit a quarter of it and that fee, each to the nearest kobo. |
| `Payments.RefusedDeposit` | src/payments/payment.service.ts:138-168 | Each refusal of a deposit says what is wrong with it. |
| `Payments.ZeroDeposit` | src/payments/payment.service.ts:138-180 | The only deposit that passes the calculator and leaves nothing to charge is zero on a fee of one kobo, which no request may carry. |
| `Payments.RecomputedBalance` | src/payments/payment.service.ts:221-237 | Recomputing the balance from the deposit and the instalments gives the split's balance less the instalments, or nothing once they exceed it. |
| `Payments.InstallmentsAreSlots` | src/payments/payment.service.ts:182-218 | The quoted instalments are the differences of the schedule's cumulative targets and sum to the balance; the last exceeds the others by less than the slot count. |
| `Payments.PriceFirstPayment` | src/enrollment/enrollment.service.ts:744-799 | Every accepted deposit that a request may carry, one naira or more, is priced; charge less transaction charge is the school's share, and transaction charge less the Paystack fee is the platform's fee. |
| `Calendar.MonthOf` | src/common/installment-schedule.ts:224-232 | Every day lies in the month it is assigned, across month lengths and leap years. |
| `Calendar.CivilMonths` | src/common/installment-schedule.ts:224-232 | Every month has its Gregorian length, February by the leap rule. |
| `DueDates.MonthlyDueInMonth` | src/common/installment-schedule.ts:215-235 | The n-th monthly date lies n calendar months on, on the same day of the month or on the last day of a shorter one. |
| `DueDates.WeeklyDueInWeek` | src/common/installment-schedule.ts:220-222 | Each weekly date is seven days after the one before, at the same time of day, counted from the start. |
| `DueDates.PlanSpan` | src/enrollment-invites/invite-policy.ts:228-237 | A plan ends twelve weeks on, or in the third month on. |
| `DueDates.DueDatesIncrease` | src/common/installment-schedule.ts:215-235 | Due dates strictly increase in n, by day and by instant. |
| `DueDates.InstallmentDueDate` | src/common/installment-schedule.ts:215-235 | Assigning date fields with JavaScript's carrying gives that date for every start and every n. |
| `Schedule.ClosedSlotsIsHighest` | src/common/installment-schedule.ts:164-180 | The closed form is the highest slot whose non-zero target has been reached, and short of the last while anything is owed. |
| `Schedule.CountClosedSlots` | src/common/installment-schedule.ts:164-172 | The slot loop computes the closed form. |
| `Schedule.DerivePlanProgress` | src/common/installment-schedule.ts:138-202 | The whole derivation, clamps included, equals a function that has neither the loop nor the final clamps, which are no-ops. |
| `Schedule.QuoteReachesTarget` | src/common/installment-schedule.ts:182-196 | Paying the quote brings the money paid to exactly the next slot's target. |
| `Schedule.QuotesCloseSlots` | src/common/installment-schedule.ts:45-56 | From any mid-plan state k quotes in turn close exactly k slots, and exactly the remaining number of them settles the plan. |
| `Schedule.QuoteClosesOneSlot` | src/common/installment-schedule.ts:45-56 | One quote closes exactly one slot if and only if the plan is worth at least a kobo a slot. |
| `Schedule.CreditIsPartSlot` | src/common/installment-schedule.ts:182-200 | The money paid is the closed slots' target and the credit toward the next slot, and with the quote it makes that slot up; a plan worth less than a kobo a slot is quoted its whole balance. |
| `Schedule.SettledProgress` | src/common/installment-schedule.ts:147-160 | Once nothing is owed nothing is asked, and every slot is closed if any money was paid. |
| `Arrears.ElapsedIsLatestDue` | src/common/arrears.ts:84-105 | Elapsed periods invert due dates: n periods have elapsed if and only if the n-th due date has come round, by instant for weeks and by calendar day for months. |
| `Arrears.ElapsedMonotone` | src/common/arrears.ts:84-105 | Elapsed periods never fall as time passes. |
| `Arrears.OverdueClosedForm` | src/common/arrears.ts:133-226 | All branches give one formula: nothing if settled, the balance after the term, else what is expected by now less what is paid, floored at zero. |
| `Arrears.EveryKoboClears` | src/common/arrears.ts:133-226 | At any instant, confirming x more lowers the overdue amount by x, floored at zero, whichever branches the two sides take. |
| `Arrears.OverdueWithinBalance` | src/common/arrears.ts:208-214 | The overdue amount is never negative and never exceeds the balance. |
| `Arrears.OverdueMonotone` | src/common/arrears.ts:144-225 | For any term end the overdue amount never falls as time passes. |
| `Arrears.MissedMeansOverdue` | src/common/arrears.ts:151-225 | Money overdue means a slot missed; a slot missed with nothing overdue happens exactly on an unsettled plan worth less than a kobo a slot, within its term, while some but not all of its slots are due. |
| `Arrears.BehindBy` | src/common/arrears.ts:144-225 | The term is expired exactly once past its end; missed slots are those come round and not closed within it, and every open one after; days overdue are the whole days since the first open slot's date, or since the end if that is earlier and past, and none if nothing is missed. |
| `Arrears.NextDueIsFirstOpenSlot` | src/common/arrears.ts:150-156 | The next date is that of the first slot that asks for more than has been paid. |
| `Arrears.SettledOwesNothing` | src/common/arrears.ts:130-142 | A settled plan is behind by nothing and has no next date, with every slot closed if instalments closed any. |
| `Arrears.CliffIsHarmless` | src/common/arrears.ts:158-177 | When the term ends where the plan's instalments end, expiry gives the same overdue amount, missed count, days and next date as the schedule would. |
| `Arrears.CliffChangesOverdue` | src/common/arrears.ts:158-177 | On any other term end, expiry leaves the overdue amount alone if and only if every period has elapsed anyway. |
| `PlanStarts.NothingDueAtIssue` | src/enrollment-invites/invite-policy.ts:228-273 | No start a school may choose leaves anything missed or overdue at the moment it is chosen. |
| `PlanStarts.ClaimedBehindIff` | src/enrollment-invites/enrollment-invites.service.ts:698-734 | An accepted claim opens the plan its invite names, with a missed slot if and only if money is owed and the first due date has come round. |
| `PlanStarts.LateClaimOpensBehind` | src/enrollment-invites/enrollment-invites.service.ts:118-207 | Any accepted issue of a weekly plan starting that day, at the default lifetime, can be claimed at once with nothing missed and in its second week with a slot missed. |
| `Ledger.KeyRow` | src/enrollment/enrollment.service.ts:205-217 | Finds the row that holds an idempotency key, and misses only if none does. |
| `Ledger.LatestInFlight` | src/enrollment/enrollment.service.ts:271-290 | Finds a pending first payment, and misses only if there is none. |
| `Ledger.FindMigrated` | src/ledger/ledger.service.ts:388-411 | Finds the successful migrated payment, and misses only if there is none. |
| `LedgerOutcomes.ConfirmationOutcome` | src/ledger/ledger.service.ts:821-902 | The school may confirm any instalment not confirmed yet; that completes the plan if and only if it covers the balance, and otherwise leaves its status. |
| `LedgerOutcomes.ConfirmationCompletesIff` | src/ledger/ledger.service.ts:848-863 | From any valid state an accepted confirmation ends completed if and only if nothing is then owed. |
| `LedgerOutcomes.RejectionOutcome` | src/ledger/ledger.service.ts:949-1010 | Any row not confirmed may be rejected; only a first payment takes the plan down with it, and no money moves. |
| `LedgerOutcomes.ReversalOutcome` | src/ledger/ledger.service.ts:1082-1126 | A confirmed instalment may be reversed; that reopens a completed plan, leaves any other status, and owes no more than the fee. |
| `LedgerOutcomes.ManualCreditOutcome` | src/ledger/ledger.service.ts:1218-1300 | Which first payments by hand may be settled or confirmed, and that the plan is then completed if and only if the school's share covers the balance, else active. |
| `LedgerOutcomes.ManualRejectionOutcome` | src/ledger/ledger.service.ts:1353-1430 | Which may be rejected, and that it fails the plan and moves no money. |
| `LedgerOutcomes.VerdictOutcome` | src/ledger/ledger.service.ts:1649-1708 | A card payment is credited, or failed with its plan, exactly while pending both when read and when written; a credit completes the plan if and only if the share covers the balance, else makes it active; a failure moves no money. |
| `LedgerOutcomes.DisputeOutcome` | src/ledger/ledger.service.ts:1877-1957 | A card payment is taken back exactly while it stands successful and was not read as closed; the whole fee is owed again if the plan was read as active or completed. |
| `LedgerOutcomes.DefaultOutcome` | src/ledger/ledger.service.ts:2230-2260 | A default by hand takes any plan, the nightly one an active plan that owes, and nothing but the status moves. |
| `LedgerOutcomes.CorrectionOutcome` | src/ledger/ledger.service.ts:425-546 | Which corrections are accepted, and the status each leaves: completed if nothing is owed, active if it had been completed, else as it was. |
| `LedgerOutcomes.NoCorrectionWithoutMigration` | src/ledger/ledger.service.ts:406-411 | A plan without migrated money takes no correction. |
| `LedgerOutcomes.MigrationOutcome` | src/ledger/ledger.service.ts:115-195 | A claimed plan opens with the one confirmed row of its figure, owing the rest, and completed exactly if that is nothing. |
| `LedgerOutcomes.RunSettles` | src/ledger/ledger.service.ts:848-863 | From any opening credit, over every run on instalments and migrated money, the plan is completed exactly when nothing is owed and active otherwise. |
| `LedgerOutcomes.CreditSettles` | src/ledger/ledger.service.ts:783-796 | Every credit of a first payment starts such a run. |
| `Idempotency.RetryIsInert` | src/enrollment/enrollment.service.ts:1095-1099 | Under a key that a pending or successful payment carries, a submission or an initiation is answered again and changes nothing. |
| `Idempotency.SubmissionOutcome` | src/enrollment/enrollment.service.ts:1100-1204 | Any other submission is accepted exactly when its amount is positive and fits what is neither paid nor reserved; it adds one pending instalment of that amount under its key, which a dead row that had it loses. |
| `Idempotency.SubmittedOnce` | src/enrollment/enrollment.service.ts:1095-1099 | Once accepted under a key, a submission repeated under it changes nothing, whatever its amount. |
| `Idempotency.RunOwnsKeys` | src/enrollment/enrollment.service.ts:480-486 | Over every run no two rows ever carry the same key. |
| `Idempotency.OpeningsOwnKeys` | src/enrollment/enrollment.service.ts:758-799 | Nor do they at either opening. |
| `CardRetry.PaidVerdict` | src/enrollment/enrollment.service.ts:327-344 | A retry while Paystack calls the pending charge paid credits it, completes or activates its plan, opens no other charge, and is accepted. |
| `CardRetry.DeadVerdict` | src/enrollment/enrollment.service.ts:294-332 | When it calls it dead, or never took it, the retry fails that row, moves no money and records no payment, and opens a new charge exactly if the deposit can be charged. |
| `CardRetry.NoVerdictYet` | src/enrollment/enrollment.service.ts:308-344 | When it gives no verdict the plan stands and the same charge is resumed. |
| `CardRetry.FreshStart` | src/enrollment/enrollment.service.ts:744-829 | On a failed plan, or a pending one with no card charge in flight, a chargeable request writes one charge at the whole fee, pending or, if Paystack refuses it, failed with its plan. |
| `CardRetry.RefusedOnOpenPlan` | src/enrollment/enrollment.service.ts:174-199 | On a plan already paid into it is refused and the plan stands. |
| `LedgerService.EnrollmentLedger.RecordMigrated` | src/ledger/ledger.service.ts:115-195 | For a figure within the fee, a plan that keeps the ledger invariant and the migrated one, owes exactly the fee less the figure, and is completed exactly if that is nothing. |
| `LedgerService.EnrollmentLedger.CreditFirstPaymentToBalance` | src/ledger/ledger.service.ts:773-797 | Decrement, clamp and status in that order are one credit. |
| `LedgerService.EnrollmentLedger.SubmitInstallmentPayment` | src/enrollment/enrollment.service.ts:1080-1204 | New state and answer of a submission: replay, release of a dead key, and the reservation guard, with no check of the plan's status. |
| `LedgerService.EnrollmentLedger.ConfirmPayment` | src/ledger/ledger.service.ts:801-902 | New state, trail and answer of a confirmation, which does not ask whether the row is still pending. |
| `LedgerService.EnrollmentLedger.RejectPayment` | src/ledger/ledger.service.ts:949-1010 | New state, trail and answer of a rejection, of a row of any type and status not confirmed. |
| `LedgerService.EnrollmentLedger.ReversePayment` | src/ledger/ledger.service.ts:1056-1158 | New state, trail and answer of a reversal, which reopens a completed plan and caps the balance at the fee. |
| `LedgerService.EnrollmentLedger.SettleFirstPayment` | src/ledger/ledger.service.ts:1218-1300 | New state, trail and answer of settling a manual first payment received by the platform. |
| `LedgerService.EnrollmentLedger.RejectFirstPayment` | src/ledger/ledger.service.ts:1353-1430 | New state, trail and answer of rejecting one. |
| `LedgerService.EnrollmentLedger.ConfirmFirstPayment` | src/ledger/ledger.service.ts:2011-2110 | New state, trail and answer of confirming one on a pending plan. |
| `LedgerService.EnrollmentLedger.CommitReconcile` | src/ledger/ledger.service.ts:1689-1751 | The transaction half of a reconcile under any snapshot, stale or not. |
| `LedgerService.EnrollmentLedger.CommitFail` | src/ledger/ledger.service.ts:1820-1840 | The transaction half of a failure under any snapshot. |
| `LedgerService.EnrollmentLedger.CommitDispute` | src/ledger/ledger.service.ts:1897-1957 | The transaction half of a dispute, which resets the balance only if the snapshot showed the plan active or completed. |
| `LedgerService.EnrollmentLedger.ReconcilePaystackPayment` | src/ledger/ledger.service.ts:1649-1708 | Read and transaction in sequence are the reconcile command. |
| `LedgerService.EnrollmentLedger.FailPaystackPayment` | src/ledger/ledger.service.ts:1809-1834 | Read and transaction in sequence are the fail command. |
| `LedgerService.EnrollmentLedger.ReversePaystackPaymentByDispute` | src/ledger/ledger.service.ts:1877-1924 | Read and transaction in sequence are the dispute command. |
| `LedgerService.EnrollmentLedger.AmendMigratedPayment` | src/ledger/ledger.service.ts:376-546 | New state, trail and answer of a correction, which ignores pending reservations. |
| `LedgerService.EnrollmentLedger.MarkEnrollmentAsDefaulted` | src/ledger/ledger.service.ts:2165-2210 | A default by hand, from any status: fee, balance and rows stand, the trail's record of money stands, and the ledger invariant is kept. |
| `LedgerService.EnrollmentLedger.MarkEnrollmentDefaultedBySweep` | src/ledger/ledger.service.ts:2230-2260 | New state, trail and answer of a default by the nightly job, from an active plan that owes. |
| `LedgerService.EnrollmentLedger.ResolvePendingFirstPayment` | src/enrollment/enrollment.service.ts:271-345 | New state, and whether the unfinished charge is to be resumed, for each verdict of Paystack. |
| `LedgerService.EnrollmentLedger.InitiateFirstPayment` | src/enrollment/enrollment.service.ts:703-829 | New state and answer of a first payment; a charge is opened exactly under the stated conditions, and its figures split the money it moves. |
| `LedgerInvariant.StepValid` | src/ledger/ledger.service.ts:773-797 | Every command keeps the balance within the fee, completed plans settled, active plans owing, and confirmation equal to success. |
| `LedgerInvariant.RunValid` | src/ledger/ledger.service.ts:852-863 | So does every run. |
| `LedgerInvariant.OpeningsValid` | src/ledger/ledger.service.ts:115-195 | Both ways a plan comes into being satisfy the invariant. |
| `LedgerRuns.DisputeBackedIff` | src/ledger/ledger.service.ts:1893-1924 | A dispute leaves credit backed by confirmed rows if and only if its caller saw the plan credited, or the other rows cover what stays credited. |
| `Counterexamples.DefaultedDisputeLeavesPhantomCredit` | src/ledger/ledger.service.ts:1911-1924 | A run from a first enrollment through its deposit and a default, on which a dispute leaves 10000 credited with nothing behind it. |
| `Counterexamples.StaleDisputeLeavesPhantomCredit` | src/ledger/ledger.service.ts:1881-1924 | A race on a first enrollment, in which a dispute read before the credit and committed after it leaves the same. |
| `LedgerRuns.StepBacked` | src/ledger/ledger.service.ts:841-863 | Every other command, re-confirmations, clamps and fresh charges included, keeps credit backed. |
| `LedgerRuns.NoPhantomCredit` | src/ledger/ledger.service.ts:1106-1126 | Over every run whose disputes meet that condition, fee less balance never exceeds what confirmed rows account for. |
| `LedgerRuns.StepAudited` | src/ledger/ledger.service.ts:869-902 | Outside initiation a step that moves the balance appends one audit row with exactly that before and after. |
| `LedgerRuns.StepReplaysIff` | src/ledger/ledger.service.ts:869-902 | Any step replays on the trail if and only if it opens no charge or the balance was already the fee it writes. |
| `LedgerRuns.AuditReplaysBalance` | src/ledger/ledger.service.ts:1132-1158 | Over any run of such steps, initiations included, the trail only grows, and the balance moves by the sum of what it adds. |
| `LedgerRuns.InitiationReplaysIff` | src/enrollment/enrollment.service.ts:758-829 | An initiation replays if and only if it opens no charge or the plan's balance was already the new fee. |
| `LedgerRuns.FeeRiseLeavesNoTrail` | src/enrollment/enrollment.service.ts:758-829 | A failed plan enrolled again at a higher fee moves its balance and adds no audit row. |
| `Conservation.StepConserves` | src/ledger/ledger.service.ts:821-863 | Every instalment command keeps balance plus confirmed instalments, and reservations within the balance. |
| `Conservation.RunConserves` | src/common/installment-schedule.ts:26-43 | So does every run of them. |
| `Conservation.ConfirmConserves` | src/ledger/ledger.service.ts:841-863 | A confirmation inside such a run lowers the balance by the whole amount: the clamp does not fire. |
| `Conservation.ReverseConserves` | src/ledger/ledger.service.ts:1106-1126 | A reversal inside such a run restores the whole amount: the cap does not fire. |
| `Conservation.ConfirmConservesIff` | src/ledger/ledger.service.ts:821-863 | From any valid state, a confirmation conserves the total if and only if the row fits the balance. |
| `Conservation.FirstCreditIff` | src/ledger/ledger.service.ts:773-797 | On a first enrollment, after any instalment run while its deposit is awaited, the credit opens the schedule the deposit fixed, fit for runs, if and only if its share fits what is neither paid nor reserved; credited at once, it always does. |
| `Conservation.ChargeOpens` | src/enrollment/enrollment.service.ts:758-829 | Over any valid enrollment, whatever its rows, a fresh charge opens at the whole fee plus the instalments already confirmed, and leaves those and the reservations as they were. |
| `Conservation.RunKeepsCharge` | src/enrollment/enrollment.service.ts:1108-1186 | Any run without a correction or another charge, submissions on the plan awaiting its deposit included, leaves a valid plan carrying the same charge. |
| `Conservation.CreditSchedule` | src/ledger/ledger.service.ts:773-797 | The credit of a first payment, by card or by hand, on any valid plan: the opening balance loses exactly the share if and only if that fits the balance, and the plan is fit for instalment runs if and only if what is reserved fits what is then owed and the opening balance fits the fee. |
| `Conservation.MigratedOpening` | src/common/migrated-plan.ts:55-69 | A migrated plan opens in such a state too, its opening balance the fee less the migrated amount. |
| `Conservation.AmendmentRestoresBooks` | src/ledger/ledger.service.ts:425-520 | An accepted correction makes balance, migrated amount and confirmed instalments add up to the fee from any valid state, and un-defaults no plan that owes. |
| `Conservation.ScheduleStands` | src/common/installment-schedule.ts:26-43 | From the credit of any charge, on any valid plan that carries it, and after any instalment run, the rebuilt opening balance stands. For a share that fitted the balance it is what the deposit left of the fee if and only if the credit met the whole fee as opening balance, and only then, or once settled, is the balance the recomputed one. |
| `Conservation.RunsLandAlike` | src/common/installment-schedule.ts:45-56 | Any two instalment runs that have confirmed the same total stand at the same point of the schedule, whatever the transfers. |
| `ScheduleLimits.StandsStillIff` | src/common/installment-schedule.ts:164-180 | From a valid state the opening balance stands still over every instalment run if and only if reservations fit the balance and the opening balance fits the fee. |
| `ScheduleLimits.ConfirmAll` | src/ledger/ledger.service.ts:821-863 | From any valid state some run confirms everything reserved. |
| `ScheduleLimits.ReverseAll` | src/ledger/ledger.service.ts:1082-1126 | From any valid state some run reverses everything confirmed. |
| `ScheduleLimits.CreditStandsStillIff` | src/ledger/ledger.service.ts:773-797 | After the credit of a first payment on any valid plan the opening balance stands still over every instalment run if and only if reservations fit what is then owed and that, with the confirmed instalments, fits the fee. |
| `Counterexamples.EarlyInstallmentMovesSchedule` | src/enrollment/enrollment.service.ts:1108-1186 | A run from a first enrollment: an instalment submitted before the deposit is credited, then confirmed while pending, clamps and takes the opening balance from 30000 to 40000. |
| `Counterexamples.ReenrolmentMovesSchedule` | src/ledger/ledger.service.ts:1911-1924 | A run from a first enrollment, through a dispute and a second one, to an active plan owing 30000 whose schedule opens at 40000. |
| `Counterexamples.ReconfirmedRejectionMovesSchedule` | src/ledger/ledger.service.ts:824-863 | A run from a claimed invite after which confirming a rejected row takes the opening balance from 9000 to 12000. |
| `ScheduleLimits.AmendmentKeepsScheduleIff` | src/ledger/ledger.service.ts:454-501 | A correction leaves a state runs may start from if and only if the reservations fit the corrected balance, and moves the opening balance if and only if that was not the fee less the new figure. |
| `Conservation.ArrearsFollowMoney` | src/common/arrears.ts:133-226 | Across any instalment run, the overdue amount at any instant moves by exactly the money confirmed or reversed, floored at zero. |
| `CardPath.RejectOneLiveIff` | src/ledger/ledger.service.ts:949-1010 | A rejection keeps at most one live first payment, and none on a failed plan, if and only if it hits the pending row, no row is live, or the row is no first payment. |
| `Counterexamples.RejectingDeadRowStrandsLiveCharge` | src/ledger/ledger.service.ts:949-1010 | A run from a first enrollment, through a failed charge and a retry, in which rejecting the failed row fails the plan and the next retry makes two live charges. |
| `CardPath.NothingLiveBeforeCharge` | src/enrollment/enrollment.service.ts:271-345 | When a fresh charge is about to be written, no first payment is pending or successful. |
| `CardPath.StepOneLive` | src/enrollment/enrollment.service.ts:744-829 | Every other command keeps that law. |
| `CardPath.AtMostOneLiveFirstPayment` | src/enrollment/enrollment.service.ts:174-199 | So does every run of the card path, and a retry after it never opens a charge beside a live one. |
| `CardPath.CardOpeningOneLive` | src/enrollment/enrollment.service.ts:758-829 | A plan opened by card starts within the law. |
| `CardRace.CommitOrderly` | src/ledger/ledger.service.ts:1689-1708 | A commit under any snapshot moves a card row only out of pending, or from success to failed, and credits it only on the way to success. |
| `CardRace.ExactlyOnce` | src/scheduler/paystack-reconciliation.service.ts:67-90 | Under any interleaving of webhook, verify, sweep and dispute callers with any other command, a card payment's status only leaves pending or falls from success to failed, and its share is credited at most once: once if it stands successful, never if it is still pending. |
| `CardRace.CreditOnlyOnSuccess` | src/ledger/ledger.service.ts:1689-1708 | A step credits the row if and only if it takes it from pending to success, and then by its school share. |
| `CardRace.LateVerdictIsInert` | src/ledger/ledger.service.ts:1649-1708 | Once a card payment has left pending, no success or failure that reaches it changes anything, then or after any further interleaving. |
| `CardRace.RedeliveryIsInert` | src/enrollment/enrollment.service.ts:963-1019 | Once an event is logged, a later delivery of it does nothing, even if the first crashed unprocessed. |
| `CardRace.FirstDeliveryActs` | src/enrollment/enrollment.service.ts:963-1019 | The first delivery of an event that does not crash, once committed, credits or fails a pending payment or takes back a successful one; one that crashes only leaves the event logged. |
| `CardRace.OpeningOrderly` | src/enrollment/enrollment.service.ts:758-829 | A fresh card plan starts with its trail and rows in agreement. |
| `RaceMoney.CommitValidIff` | src/ledger/ledger.service.ts:1893-1924 | A commit under any snapshot keeps the ledger invariant if and only if it is no dispute resetting the balance to a fee outside what the plan now has. |
| `RaceMoney.AdvanceValidIff` | src/ledger/ledger.service.ts:1649-1708 | So for every step of a race: it keeps the invariant if and only if it is no such commit. |
| `RaceMoney.StaleDisputeBackedIff` | src/ledger/ledger.service.ts:1893-1924 | A dispute under any snapshot leaves credit backed if and only if the other rows cover what its reset, or want of one, leaves credited. |
| `RaceMoney.RaceKeepsMoney` | src/scheduler/paystack-reconciliation.service.ts:67-90 | Over every race of steps meeting those conditions the invariant holds and no credit is without a confirmed row. |
| `RaceMoney.CommitReplaysIff` | src/ledger/ledger.service.ts:1717-1751 | A stale commit's audit row replays the balance if and only if the plan still had the balance it read, or it failed a payment, or it disputed without a reset. |
| `RaceMoney.RaceReplaysBalance` | src/ledger/ledger.service.ts:1926-1957 | Over every race of such steps the trail replays the balance. |
| `RaceMoney.RaceOneLive` | src/enrollment/enrollment.service.ts:174-199 | Over every race, however stale its callers, whose rejections meet the condition of `CardPath.RejectOneLiveIff`, at most one first payment is live and none beside a fresh charge. |
| `MigratedPlans.StepStaysMigrated` | src/ledger/ledger.service.ts:425-520 | A migrated plan is only ever active, completed or defaulted; its row's two amounts and the plan's deposit agree; only an accepted correction moves them; the fee never moves. |
| `MigratedPlans.RunStaysMigrated` | src/ledger/ledger.service.ts:135-195 | So over every run. |
| `MigratedPlans.StaysDefaulted` | src/common/migrated-plan.ts:179-186 | Nothing but settling takes a migrated plan out of default. |
| `EnrollmentView.OfferIsAccepted` | src/enrollment/enrollment-view.ts:144-157 | A submission is accepted if and only if its key stands for a live payment or its amount is positive and within the balance shown as available. |
| `EnrollmentView.ViewAgreesWithArrears` | src/enrollment/enrollment-view.ts:166-192 | The parent's card and the arrears book give the same next date and slots closed, and no date exactly when nothing is owed. |
| `EnrollmentView.ViewShowsLedger` | src/enrollment/enrollment-view.ts:135-215 | The view shows the ledger's own figures, offers what is neither paid nor reserved and never less than nothing, splits instalments into closed slots and credit, and dates the next slot from the term's start or, without one, from the enrollment's creation. |
| `EnrollmentView.SettledView` | src/enrollment/enrollment-view.ts:166-192 | A settled plan shows nothing to pay, by no date. |
| `EnrollmentView.PaidPlusOwedStands` | src/enrollment/enrollment-view.ts:139-143 | Across instalment runs the figures shown as paid and as owed move against each other kobo for kobo. |
| `EnrollmentView.CardFiguresAddUp` | src/enrollment/enrollment-view.ts:194-215 | From the credit of any charge, on any valid plan that carries it, and after any instalment run, they add up to the platform's fee, what was confirmed before the credit, and the balance it met or the share if more; on the card path, for a share that fitted, to the fee and the platform's fee if and only if the credit met the whole fee as opening balance. |
| `EnrollmentView.MigratedFiguresAddUp` | src/common/migrated-plan.ts:30-49 | On a migrated plan they add up to the fee. |
| `EnrollmentView.QuoteAdvancesOneSlot` | src/enrollment/enrollment.service.ts:1143-1186 | Whenever the quote is within the available balance and its key stands for no live payment, submitting and confirming it moves paid and owed by it, and closes one slot if and only if slots are worth a kobo. |
| `Schedulers.RunSweep` | src/scheduler/paystack-reconciliation.service.ts:50-97 | Of the payments selected: one on its row alone ends successful and confirmed if Paystack answers success, failed if it answers failed, failed if it answers anything else and the payment is over a day old, and otherwise as it was. An enrollment selected once is then credited and completed or made active, failed, or untouched. In general every row ends as the first verdict on it leaves it. |
| `Schedulers.SelectStale` | src/scheduler/paystack-reconciliation.service.ts:50-62 | The query picks only card payments pending for more than five minutes, a hundred at most, and all of them if there are fewer. |
| `Schedulers.SweepSettles` | src/scheduler/paystack-reconciliation.service.ts:67-90 | Its effect on the rows: the first verdict on a row decides it if it was still awaiting one, and every other row stands. |
| `Schedulers.SweepIsIdempotent` | src/scheduler/paystack-reconciliation.service.ts:67-90 | A second sweep over rows the first decided changes nothing, whatever the answers are then. |
| `Schedulers.SelectOverdue` | src/scheduler/defaulter-detection.service.ts:43-53 | The query picks exactly the active plans that owe past the end of their term, each once. |
| `Schedulers.RunDetection` | src/scheduler/defaulter-detection.service.ts:39-77 | Exactly the selected enrollments are defaulted, the others stand, and the flips counted are their number. |
| `Schedulers.DetectionMatchesArrears` | src/common/arrears.ts:107-114 | A plan is defaulted if and only if it is active and arrears call its term expired, its whole balance being overdue then; afterwards no active plan is so. |
| `Invites.ResolveExpiryDays` | src/enrollment-invites/invite-policy.ts:124-136 | An invite lives at least one day and at most thirty. |
| `InviteService.InviteBook.MoveStatus` | src/enrollment-invites/enrollment-invites.service.ts:336-349 | The conditional write: it wins exactly when the row is in a status named, and writes nothing else. |
| `InviteService.InviteBook.Create` | src/enrollment-invites/enrollment-invites.service.ts:118-207 | New book and answer of issuing an invite, refused for a closed window, a bad phone or start, a migrated student, no fee, a figure beyond it, or a slot held. |
| `InviteService.InviteBook.Revoke` | src/enrollment-invites/enrollment-invites.service.ts:326-358 | New book and answer of a revocation. |
| `InviteService.InviteBook.Reissue` | src/enrollment-invites/enrollment-invites.service.ts:412-463 | New book and answer of sending again. |
| `InviteService.InviteBook.Amend` | src/enrollment-invites/enrollment-invites.service.ts:503-524 | New book and answer of a correction, copied onto the invite when the ledger accepts it. |
| `InviteService.InviteBook.Release` | src/enrollment-invites/enrollment-invites.service.ts:556-607 | New book and answer of a release, undone whole if the plan holds settled instalments. |
| `InviteService.InviteBook.FindByToken` | src/enrollment-invites/enrollment-invites.service.ts:1179-1210 | New book and answer of following a link. |
| `InviteService.InviteBook.Claim` | src/enrollment-invites/enrollment-invites.service.ts:665-734 | New book and answer of a claim, undone whole if the child has a plan. |
| `InviteService.InviteBook.Dispute` | src/enrollment-invites/enrollment-invites.service.ts:842-869 | New book and answer of contesting the figures. |
| `InviteService.InviteBook.SelectDue` | src/enrollment-invites/enrollment-invites.service.ts:917-925 | The expiry sweep's read remembers exactly the lapsed invites, touches none, and keeps a sound book sound. |
| `InviteService.InviteBook.ExpireSelected` | src/enrollment-invites/enrollment-invites.service.ts:927-930 | Its write expires exactly the invites selected then, touches no other and no plan, and keeps a sound book sound. |
| `InviteOutcomes.IssueOutcome` | src/enrollment-invites/enrollment-invites.service.ts:118-207 | An invite is issued exactly while the window is open, to a good number and start, for a student not migrated and a published fee the figure is within, with its slot free; it then opens pending with those figures, a new link, and a life of fourteen days or as asked from one to thirty. |
| `InviteOutcomes.RevocationOutcome` | src/enrollment-invites/enrollment-invites.service.ts:336-358 | It is cancelled exactly while pending or disputed. |
| `InviteOutcomes.ReissueOutcome` | src/enrollment-invites/enrollment-invites.service.ts:412-463 | It is sent again exactly while the window is open, pending or expired, with its slot free; then under a new link for fourteen days. |
| `InviteOutcomes.ReleaseOutcome` | src/ledger/ledger.service.ts:689-712 | A claim is undone exactly while its plan stands with no confirmed instalments; the plan goes and the invite is cancelled. |
| `InviteOutcomes.ClaimOutcome` | src/enrollment-invites/enrollment-invites.service.ts:665-734 | It is claimed exactly by its own link, pending and unexpired, for a student not migrated and a child without a plan; the plan opens from its figures. |
| `InviteOutcomes.ContestOutcome` | src/enrollment-invites/enrollment-invites.service.ts:842-869 | It is contested exactly while pending and unexpired. |
| `InviteOutcomes.LinkOutcome` | src/enrollment-invites/enrollment-invites.service.ts:1179-1210 | A link finds its own invite and retires it exactly if unclaimed and lapsed. |
| `InviteOutcomes.CorrectionFollowsLedger` | src/enrollment-invites/enrollment-invites.service.ts:503-524 | Its figure is corrected exactly when the ledger corrects the plan, and then on both. |
| `InviteOutcomes.SweepOutcome` | src/enrollment-invites/enrollment-invites.service.ts:917-930 | The expiry sweep reads what has lapsed unclaimed, and later expires that whatever has become of it. |
| `InviteOutcomes.LedgerOutcome` | src/ledger/ledger.service.ts:801-863 | Every ledger command but a correction reaches a claimed plan unchanged, and no other plan moves. |
| `InviteOutcomes.ClockOutcome` | src/enrollment-invites/invite-policy.ts:143-158 | The clock an invite is judged by never runs back, and nothing else moves with it. |
| `InviteSafety.PerformSound` | src/enrollment-invites/enrollment-invites.service.ts:577-607 | Every action keeps the book sound; only a claim of a pending invite enters claimed, only a release leaves it, nothing leaves revoked, and nothing expires before its window closes. |
| `InviteSafety.HistorySound` | src/enrollment-invites/enrollment-invites.service.ts:698-734 | Over every history on a clock that never runs back: an invite is claimed exactly while its plan exists, opens at most one plan in its life, stays revoked once revoked, and stops being claimed only by a release. |
| `InviteSafety.ClaimedExactlyWhilePlanned` | src/enrollment-invites/enrollment-invites.service.ts:698-734 | In a sound book the plan's fee and deposit are the invite's figures. |
| `InviteSafety.EmptyBookSound` | src/enrollment-invites/enrollment-invites.service.ts:118-130 | A school with no invites is sound. |
| `InviteSafety.RetireRespectsIff` | src/enrollment-invites/enrollment-invites.service.ts:917-930 | The sweep's write keeps the protocol and retires only lapsed invites if and only if nothing it selected has since been claimed, revoked, or sent again with its window still open. |
| `InviteSafety.SweepRevivesRevoked` | src/enrollment-invites/enrollment-invites.service.ts:917-930 | A concrete revocation between the sweep's halves, after which the revoked invite is sent out again. |
| `InviteSafety.SweepExpiresReissued` | src/enrollment-invites/enrollment-invites.service.ts:917-930 | A concrete re-issue between the sweep's halves, after which the new link, claimable until then, is refused with its window open. |
| `InviteLinks.LinkMoves` | src/enrollment-invites/enrollment-invites.service.ts:446-459 | An action changes at most one invite's link, and only to one never minted before. |
| `InviteLinks.OldLinkStaysDead` | src/enrollment-invites/enrollment-invites.service.ts:360-411 | Once an invite is sent again, its old link finds and claims nothing in any later history. |

The conditions on runs that the theorems carry are those the code makes necessary. `Conservation.MovesInstallments`
leaves out confirmations of a dead row that does not fit what is available, corrections and new first-payment credits,
and admits any of those that is refused; its counterparts are `Conservation.ConfirmConservesIff`,
`ScheduleLimits.AmendmentKeepsScheduleIff` and `Conservation.CreditSchedule`. `LedgerRuns.SafeForBacking` leaves out the
disputes of `LedgerRuns.DisputeBackedIff`, `RaceMoney.SafeForCredit` and `RaceMoney.SafeForReplay` the commits of
`RaceMoney.StaleDisputeBackedIff`, `RaceMoney.CommitValidIff` and `RaceMoney.CommitReplaysIff`, `CardPath.SafeReject`
the rejections of `CardPath.RejectOneLiveIff`, and `InviteSafety.Undisturbed` the revocations and re-issues of an invite
that an expiry sweep has read and not yet written.

## Left out

- `EnrollmentView.ViewAgreesWithArrears`: compares the dates themselves, before the view prints the UTC day of its own as text.
- Notifications, sockets, metrics and logging: they follow a commit and change no money.
- Paystack over HTTP: its answer on a charge is a parameter. The estimate of its fee is modelled, the fee it later reports is not.
- Sessions, roles, ownership, tenancy and encryption: every command is taken as already authorised.
- Isolation anomalies: a transaction is atomic, and only the reads made before one can be stale.
- Floating-point error in rates and percentages: they are exact rationals rounded half up.
- Daylight saving: every date is in one zone of fixed offset.
- Frequencies as free text: the two normalised values are the type.
- Children, parents and schools: that a claimant's child already has a plan, or that a fee is published, is a parameter.
- The choice of which enrollment a first payment addresses: one enrollment is modelled, from none or an existing one, and the refusal of an enrollment at another school is not.
- Idempotency keys across enrollments: a key is looked up among the rows of its own enrollment.
- The order of rows by date: the latest payment is the last row, and the migrated payment is the first that matches.
- Invite tokens and their digests: a token is a number minted once.
- Claimed plans inside the invite book as objects: there they are values under the ledger's functions, so aliasing between the book and a ledger object is not captured.
- The date of a migrated payment and the expiry reminder: they change no figure.
- The manual enrolment flow: its route is gone. Its settle, reject and confirm steps are kept as ledger commands.
- Class-fee publishing, administration reports, pagination, history lists and the dashboard's totals: they would add only easy members.
