/** The ledger as the object the services call: each method writes its fields step by step inside one transaction. */
module LedgerService {
  import opened Ledger
  import opened LedgerInvariant
  import opened LedgerRuns
  import opened MigratedPlans
  import opened Money
  import opened Payments
  import opened PaystackFee
  import opened Wrappers

  class EnrollmentLedger {
    var fee: int
    var balance: int
    var status: PlanStatus
    var firstPaymentPaid: int
    var rows: seq<Row>
    var audit: seq<AuditRow>

    function State(): Plan
      reads this
    {
      Plan(fee, balance, status, firstPaymentPaid, rows, audit)
    }

    /** A plan for fees paid before the platform was there. */
    constructor RecordMigrated(fee: int, alreadyPaid: int)
      ensures State() == OpenMigrated(fee, alreadyPaid)
      ensures fee > 0 && 0 <= alreadyPaid <= fee ==>
        Valid(State()) && IsMigratedPlan(State()) && balance + alreadyPaid == fee &&
          (status == Completed <==> alreadyPaid == fee)
    {
      var (remaining, opening) := DeriveMigratedPlan(fee, alreadyPaid);
      this.fee := fee;
      balance := remaining;
      status := opening;
      firstPaymentPaid := alreadyPaid;
      rows := [MigratedRow(alreadyPaid)];
      audit := [];
    }

    method WriteAudit(action: AuditAction, row: Option<nat>, before: Option<int>, after: Option<int>)
      modifies this`audit
      ensures audit == old(audit) + [AuditRow(action, row, before, after)]
    {
      audit := audit + [AuditRow(action, row, before, after)];
    }

    /** Credit a confirmed first payment; the caller has already won the write that flips its row. */
    method CreditFirstPaymentToBalance(amount: int)
      modifies this`balance, this`status
      ensures State() == Credit(old(State()), amount, Active)
    {
      balance := balance - amount;
      var isCompleted := balance <= 0;
      balance := Max(0, balance);
      status := if isCompleted then Completed else Active;
    }

    method SubmitInstallmentPayment(amount: int, key: Option<nat>) returns (accepted: bool)
      modifies this
      ensures Outcome(State(), accepted) == SubmitInstallment(old(State()), amount, key)
    {
      var existing := KeyRow(rows, key);
      if existing < |rows| {
        if IsReplayable(rows[existing].status) {
          return true;
        }
        rows := rows[existing := rows[existing].(idempotencyKey := None)];
      }
      if amount <= 0 {
        return false;
      }
      var reserved := Sum(rows, ReservedWeight);
      if amount > balance - reserved {
        return false;
      }
      rows := rows + [NewInstallment(amount, key)];
      accepted := true;
    }

    method ConfirmPayment(id: nat) returns (accepted: bool)
      modifies this
      ensures Outcome(State(), accepted) == Ledger.ConfirmPayment(old(State()), id)
    {
      if id >= |rows| || rows[id].isConfirmed || rows[id].kind != Installment {
        return false;
      }
      rows := rows[id := rows[id].(isConfirmed := true, status := RowSuccess)];
      var before := balance;
      balance := balance - rows[id].amountPaid;
      if balance <= 0 {
        balance := 0;
        status := Completed;
      }
      WriteAudit(PaymentConfirmed, Some(id), Some(before), Some(balance));
      accepted := true;
    }

    method RejectPayment(id: nat) returns (accepted: bool)
      modifies this
      ensures Outcome(State(), accepted) == Ledger.RejectPayment(old(State()), id)
    {
      if id >= |rows| || rows[id].isConfirmed {
        return false;
      }
      rows := rows[id := rows[id].(status := RowFailed)];
      if rows[id].kind == FirstPayment {
        status := Failed;
      }
      WriteAudit(PaymentRejected, Some(id), None, None);
      accepted := true;
    }

    method ReversePayment(id: nat) returns (accepted: bool)
      modifies this
      ensures Outcome(State(), accepted) == Ledger.ReversePayment(old(State()), id)
    {
      if id >= |rows| || !rows[id].isConfirmed || rows[id].status != RowSuccess || rows[id].kind != Installment {
        return false;
      }
      rows := rows[id := rows[id].(status := RowReversed, isConfirmed := false)];
      var before := balance;
      var reopened := status == Completed;
      balance := balance + rows[id].amountPaid;
      if reopened {
        status := Active;
      }
      if balance > fee {
        balance := fee;
      }
      WriteAudit(PaymentReversed, Some(id), Some(before), Some(balance));
      accepted := true;
    }

    method SettleFirstPayment(id: nat) returns (accepted: bool)
      modifies this
      ensures Outcome(State(), accepted) == Ledger.SettleFirstPayment(old(State()), id)
    {
      if id >= |rows| || !IsManualFirst(rows[id]) || !rows[id].toPlatform {
        return false;
      }
      var before := balance;
      rows := rows[id := rows[id].(isConfirmed := true, status := RowSuccess)];
      CreditFirstPaymentToBalance(rows[id].schoolAmount);
      WriteAudit(FirstPaymentSettled, Some(id), Some(before), Some(balance));
      accepted := true;
    }

    method RejectFirstPayment(id: nat) returns (accepted: bool)
      modifies this
      ensures Outcome(State(), accepted) == Ledger.RejectFirstPayment(old(State()), id)
    {
      if id >= |rows| || !IsManualFirst(rows[id]) || !rows[id].toPlatform {
        return false;
      }
      rows := rows[id := rows[id].(status := RowFailed)];
      status := Failed;
      WriteAudit(FirstPaymentRejected, Some(id), None, None);
      accepted := true;
    }

    method ConfirmFirstPayment(id: nat) returns (accepted: bool)
      modifies this
      ensures Outcome(State(), accepted) == Ledger.ConfirmFirstPayment(old(State()), id)
    {
      if status != Pending || id >= |rows| || !IsManualFirst(rows[id]) {
        return false;
      }
      var before := balance;
      rows := rows[id := rows[id].(isConfirmed := true, status := RowSuccess)];
      CreditFirstPaymentToBalance(rows[id].schoolAmount);
      WriteAudit(FirstPaymentConfirmed, Some(id), Some(before), Some(balance));
      accepted := true;
    }

    /** The transaction half of a reconcile, whose caller read `seen` beforehand. */
    method CommitReconcile(seen: Snapshot) returns (flipped: bool)
      modifies this
      ensures Outcome(State(), flipped) == ReconcileCard(old(State()), seen)
    {
      if seen.rowStatus != RowPending || seen.id >= |rows| || !rows[seen.id].card ||
        rows[seen.id].status != RowPending {
        return false;
      }
      rows := rows[seen.id := rows[seen.id].(status := RowSuccess, isConfirmed := true)];
      CreditFirstPaymentToBalance(rows[seen.id].schoolAmount);
      WriteAudit(FirstPaymentPaid, Some(seen.id), Some(seen.balance), Some(balance));
      flipped := true;
    }

    method CommitFail(seen: Snapshot) returns (flipped: bool)
      modifies this
      ensures Outcome(State(), flipped) == FailCard(old(State()), seen)
    {
      if seen.rowStatus != RowPending || seen.id >= |rows| || !rows[seen.id].card ||
        rows[seen.id].status != RowPending {
        return false;
      }
      rows := rows[seen.id := rows[seen.id].(status := RowFailed)];
      status := Failed;
      flipped := true;
    }

    method CommitDispute(seen: Snapshot) returns (flipped: bool)
      modifies this
      ensures Outcome(State(), flipped) == DisputeCard(old(State()), seen)
    {
      if seen.rowStatus == RowFailed || seen.rowStatus == RowReversed
         || seen.id >= |rows| || !rows[seen.id].card || rows[seen.id].status != RowSuccess {
        return false;
      }
      rows := rows[seen.id := rows[seen.id].(status := RowFailed, isConfirmed := false)];
      status := Failed;
      var after := seen.balance;
      if seen.planStatus == Active || seen.planStatus == Completed {
        balance := seen.fee;
        after := seen.fee;
      }
      WriteAudit(PaymentDisputed, Some(seen.id), Some(seen.balance), Some(after));
      flipped := true;
    }

    method ReconcilePaystackPayment(id: nat) returns (flipped: bool)
      modifies this
      ensures Outcome(State(), flipped) == Execute(old(State()), Reconcile(id))
    {
      if id >= |rows| {
        return false;
      }
      var seen := Look(State(), id);
      flipped := CommitReconcile(seen);
    }

    method FailPaystackPayment(id: nat) returns (flipped: bool)
      modifies this
      ensures Outcome(State(), flipped) == Execute(old(State()), Fail(id))
    {
      if id >= |rows| {
        return false;
      }
      var seen := Look(State(), id);
      flipped := CommitFail(seen);
    }

    method ReversePaystackPaymentByDispute(id: nat) returns (flipped: bool)
      modifies this
      ensures Outcome(State(), flipped) == Execute(old(State()), Dispute(id))
    {
      if id >= |rows| {
        return false;
      }
      var seen := Look(State(), id);
      flipped := CommitDispute(seen);
    }

    method AmendMigratedPayment(amount: int) returns (accepted: bool)
      modifies this
      ensures Outcome(State(), accepted) == Ledger.AmendMigratedPayment(old(State()), amount)
    {
      var id := FindMigrated(rows);
      if amount < 0 || id == |rows| || amount > fee || rows[id].amountPaid == amount {
        return false;
      }
      var installmentsPaid := Sum(rows, InstallmentWeight);
      var nextBalance := fee - amount - installmentsPaid;
      if nextBalance < 0 {
        return false;
      }
      var before := balance;
      rows := rows[id := rows[id].(amountPaid := amount, schoolAmount := amount)];
      firstPaymentPaid := amount;
      balance := nextBalance;
      status := StatusAfterMigratedAmendment(status, nextBalance);
      WriteAudit(MigratedPaymentAmended, Some(id), Some(before), Some(balance));
      accepted := true;
    }

    method MarkEnrollmentAsDefaulted()
      modifies this
      ensures State() == MarkDefaulted(old(State())).plan
      ensures status == Defaulted && fee == old(fee) && balance == old(balance) && rows == old(rows)
      ensures Deltas(audit) == Deltas(old(audit))
      ensures Valid(old(State())) ==> Valid(State())
    {
      DeltasAppend(audit, AuditRow(EnrollmentDefaulted, None, None, None));
      status := Defaulted;
      WriteAudit(EnrollmentDefaulted, None, None, None);
    }

    method MarkEnrollmentDefaultedBySweep() returns (flipped: bool)
      modifies this
      ensures Outcome(State(), flipped) == DefaultBySweep(old(State()))
    {
      if status != Active || balance <= 0 {
        return false;
      }
      status := Defaulted;
      WriteAudit(EnrollmentDefaulted, None, None, None);
      flipped := true;
    }

    /** Settle an unfinished first payment; `resumed` when its own charge is answered again. */
    method ResolvePendingFirstPayment(verdict: Verdict) returns (resumed: bool)
      modifies this
      ensures Outcome(State(), resumed) == ResolvePending(old(State()), verdict)
    {
      var id := LatestInFlight(rows);
      if id == |rows| || !rows[id].card {
        return false;
      }
      if !rows[id].accessCode || verdict == Dead {
        var _ := FailPaystackPayment(id);
        return false;
      }
      if verdict == Paid {
        var _ := ReconcilePaystackPayment(id);
      }
      resumed := true;
    }

    /** Start a first payment on this enrollment, with the charge it opened, if it did. */
    method InitiateFirstPayment(request: Initiation, vat: real) returns (accepted: bool, charge: Option<Charge>)
      requires IsVatRate(vat)
      modifies this
      ensures Outcome(State(), accepted) == Ledger.InitiateFirstPayment(old(State()), request)
      ensures charge.Some? <==> OpensCharge(old(State()), request)
      ensures charge.Some? ==>
        |rows| == |old(rows)| + 1 &&
        charge.value.amountCharged - charge.value.transactionCharge == rows[|old(rows)|].schoolAmount &&
        charge.value.amountCharged - charge.value.paystackFee == rows[|old(rows)|].amountPaid
    {
      charge := None;
      var existing := KeyRow(rows, request.key);
      if existing < |rows| {
        if IsReplayable(rows[existing].status) {
          return true, None;
        }
        rows := rows[existing := rows[existing].(idempotencyKey := None)];
      }
      assert State() == ReleaseKey(old(State()), request.key);
      if status == Pending {
        var resumed := ResolvePendingFirstPayment(request.verdict);
        if resumed {
          return true, None;
        }
      } else if status != Failed {
        return false, None;
      }
      assert Outcome(State(), false) == ResolveExisting(old(State()), request);
      accepted, charge := OpenFreshCharge(request, vat);
    }

    /** Price the deposit, write the fresh charge over the plan, and fail it again if Paystack will not take it. */
    method OpenFreshCharge(request: Initiation, vat: real) returns (accepted: bool, charge: Option<Charge>)
      requires IsVatRate(vat)
      modifies this
      ensures charge.Some? <==> CalculateInitialPayment(request.fee, request.deposit).Ok? && request.deposit > 0
      ensures charge.None? ==> !accepted && State() == old(State())
      ensures charge.Some? ==>
        accepted == request.initialised &&
        State() == OpenCharge(old(State()), request, CalculateInitialPayment(request.fee, request.deposit).value) &&
        |rows| == |old(rows)| + 1 &&
        charge.value.amountCharged - charge.value.transactionCharge == rows[|old(rows)|].schoolAmount &&
        charge.value.amountCharged - charge.value.paystackFee == rows[|old(rows)|].amountPaid
    {
      var priced := PriceFirstPayment(request.fee, request.deposit, vat);
      if CalculateInitialPayment(request.fee, request.deposit).Ok? {
        ZeroDeposit(request.fee, request.deposit);
        AcceptedDeposit(request.fee, request.deposit);
      }
      hide CalculateInitialPayment, Fee;
      if priced.Err? {
        return false, None;
      }
      var split := priced.value.split;
      fee := split.schoolFees;
      firstPaymentPaid := request.deposit;
      balance := split.schoolFees;
      status := Pending;
      var id := |rows|;
      rows := rows + [NewCardRow(request.deposit, split.amountToSchool, request.key)];
      if request.initialised {
        rows := rows[id := rows[id].(accessCode := true)];
      } else {
        var _ := FailPaystackPayment(id);
      }
      accepted, charge := request.initialised, Some(priced.value);
    }
  }
}
