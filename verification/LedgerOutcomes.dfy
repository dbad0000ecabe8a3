/** What each ledger command is accepted for and what it leaves: on rows, balance, status and trail alone. */
module LedgerOutcomes {
  import opened CardRace
  import opened Ledger
  import opened LedgerInvariant
  import opened LedgerRuns
  import opened LedgerSums
  import opened Money
  import opened Wrappers

  function Written(p: Plan, action: AuditAction, row: Option<nat>,
                   before: Option<int>, after: Option<int>): seq<AuditRow>
  {
    p.audit + [AuditRow(action, row, before, after)]
  }

  // ------------------------------------------------------------------ instalments

  /**
   * The school may confirm any instalment not confirmed yet. It completes the plan exactly when it covers the balance,
   * and otherwise leaves its status.
   */
  lemma ConfirmationOutcome(p: Plan, id: nat)
    ensures var o := Execute(p, Confirm(id));
            (o.accepted <==> id < |p.rows| && p.rows[id].kind == Installment && !p.rows[id].isConfirmed) &&
            (!o.accepted ==> o.plan == p) &&
            (o.accepted ==>
              var r := p.rows[id];
              var owed := if r.amountPaid >= p.balance then 0 else p.balance - r.amountPaid;
              o.plan == p.(rows := p.rows[id := r.(status := RowSuccess, isConfirmed := true)],
                           balance := owed,
                           status := if r.amountPaid >= p.balance then Completed else p.status,
                           audit := Written(p, PaymentConfirmed, Some(id), Some(p.balance), Some(owed))))
  {
  }

  /** It may reject any row not confirmed. Only a first payment takes the plan down with it; no money moves. */
  lemma RejectionOutcome(p: Plan, id: nat)
    ensures var o := Execute(p, Reject(id));
            (o.accepted <==> id < |p.rows| && !p.rows[id].isConfirmed) &&
            (!o.accepted ==> o.plan == p) &&
            (o.accepted ==>
              o.plan == p.(rows := p.rows[id := p.rows[id].(status := RowFailed)],
                           status := if p.rows[id].kind == FirstPayment then Failed else p.status,
                           audit := Written(p, PaymentRejected, Some(id), None, None)))
  {
  }

  /** It may reverse a confirmed instalment. That reopens a completed plan, and owes no more than the fee. */
  lemma ReversalOutcome(p: Plan, id: nat)
    ensures var o := Execute(p, Reverse(id));
            (o.accepted <==> id < |p.rows| && IsSettledInstallment(p.rows[id])) &&
            (!o.accepted ==> o.plan == p) &&
            (o.accepted ==>
              var r := p.rows[id];
              var owed := if p.balance + r.amountPaid > p.fee then p.fee else p.balance + r.amountPaid;
              o.plan == p.(rows := p.rows[id := r.(status := RowReversed, isConfirmed := false)],
                           balance := owed,
                           status := if p.status == Completed then Active else p.status,
                           audit := Written(p, PaymentReversed, Some(id), Some(p.balance), Some(owed))))
  {
  }

  // ------------------------------------------------------------------ first payments

  predicate ByHand(r: Row) { r.kind == FirstPayment && !r.card && !r.isConfirmed }

  /**
   * The credit of a first payment on row id: completed exactly when the school's share covers the balance, else
   * active.
   */
  predicate Credited(p: Plan, q: Plan, id: nat, action: AuditAction, read: int)
    requires id < |p.rows|
  {
    var r := p.rows[id];
    var owed := if r.schoolAmount >= p.balance then 0 else p.balance - r.schoolAmount;
    q == p.(rows := p.rows[id := r.(status := RowSuccess, isConfirmed := true)],
            balance := owed,
            status := if r.schoolAmount >= p.balance then Completed else Active,
            audit := Written(p, action, Some(id), Some(read), Some(owed)))
  }

  /** A first payment taken by hand is settled if the platform received it, or confirmed while its plan awaits it. */
  lemma ManualCreditOutcome(p: Plan, id: nat)
    ensures var settled, confirmed := Execute(p, SettleFirst(id)), Execute(p, ConfirmFirst(id));
            (settled.accepted <==> id < |p.rows| && ByHand(p.rows[id]) && p.rows[id].toPlatform) &&
            (confirmed.accepted <==> id < |p.rows| && ByHand(p.rows[id]) && p.status == Pending) &&
            (!settled.accepted ==> settled.plan == p) && (!confirmed.accepted ==> confirmed.plan == p) &&
            (settled.accepted ==> Credited(p, settled.plan, id, FirstPaymentSettled, p.balance)) &&
            (confirmed.accepted ==> Credited(p, confirmed.plan, id, FirstPaymentConfirmed, p.balance))
  {
  }

  lemma ManualRejectionOutcome(p: Plan, id: nat)
    ensures var o := Execute(p, RejectFirst(id));
            (o.accepted <==> id < |p.rows| && ByHand(p.rows[id]) && p.rows[id].toPlatform) &&
            (!o.accepted ==> o.plan == p) &&
            (o.accepted ==>
              o.plan == p.(rows := p.rows[id := p.rows[id].(status := RowFailed)], status := Failed,
                           audit := Written(p, FirstPaymentRejected, Some(id), None, None)))
  {
  }

  /**
   * A card payment is credited, or failed with its plan, exactly while it is pending both when read and when written. A
   * failure moves no money and leaves no trail.
   */
  lemma VerdictOutcome(p: Plan, seen: Snapshot)
    ensures var paid, dead := CommitCall(p, Call(ToReconcile, seen)), CommitCall(p, Call(ToFail, seen));
            (paid.accepted <==> dead.accepted) &&
            (paid.accepted <==>
              seen.id < |p.rows| && p.rows[seen.id].card && p.rows[seen.id].status == RowPending == seen.rowStatus) &&
            (!paid.accepted ==> paid.plan == dead.plan == p) &&
            (paid.accepted ==>
              Credited(p, paid.plan, seen.id, FirstPaymentPaid, seen.balance) &&
              dead.plan == p.(rows := p.rows[seen.id := p.rows[seen.id].(status := RowFailed)], status := Failed))
  {
  }

  /**
   * A disputed card payment is taken back exactly while it stands successful and was not read as closed. The plan
   * fails, and owes the whole fee again if it was read as active or completed.
   */
  lemma DisputeOutcome(p: Plan, seen: Snapshot)
    ensures var o := CommitCall(p, Call(ToDispute, seen));
            (o.accepted <==>
              seen.id < |p.rows| && p.rows[seen.id].card && p.rows[seen.id].status == RowSuccess &&
              seen.rowStatus in {RowPending, RowSuccess}) &&
            (!o.accepted ==> o.plan == p) &&
            (o.accepted ==>
              var reset := seen.planStatus in {Active, Completed};
              var after := if reset then seen.fee else seen.balance;
              o.plan == p.(rows := p.rows[seen.id := p.rows[seen.id].(status := RowFailed, isConfirmed := false)],
                           status := Failed,
                           balance := if reset then seen.fee else p.balance,
                           audit := Written(p, PaymentDisputed, Some(seen.id), Some(seen.balance), Some(after))))
  {
  }

  /** Read and written in one go, a card command is its commit on what it has just read. */
  lemma SequentialCard(p: Plan, id: nat)
    requires id < |p.rows|
    ensures var seen := Snapshot(id, p.rows[id].status, p.status, p.fee, p.balance);
            Execute(p, Reconcile(id)) == CommitCall(p, Call(ToReconcile, seen)) &&
            Execute(p, Fail(id)) == CommitCall(p, Call(ToFail, seen)) &&
            Execute(p, Dispute(id)) == CommitCall(p, Call(ToDispute, seen))
  {
  }

  // ------------------------------------------------------------------ defaults and corrections

  /** A default by hand takes any plan; the nightly one takes an active plan that owes. Only the status moves. */
  lemma DefaultOutcome(p: Plan)
    ensures var hand, sweep := Execute(p, Default), Execute(p, Sweep);
            hand.accepted && (sweep.accepted <==> p.status == Active && p.balance > 0) &&
            (!sweep.accepted ==> sweep.plan == p) && (sweep.accepted ==> sweep.plan == hand.plan) &&
            hand.plan == p.(status := Defaulted, audit := Written(p, EnrollmentDefaulted, None, None, None))
  {
  }

  /**
   * A correction is accepted for any new figure from nothing to the fee that leaves the confirmed instalments room, on
   * a plan with migrated money. It completes a plan it settles, reopens a completed one it does not, and leaves any
   * other status.
   */
  lemma CorrectionOutcome(p: Plan, amount: int, id: nat)
    requires id < |p.rows| && IsLiveMigrated(p.rows[id]) && forall i :: 0 <= i < id ==> !IsLiveMigrated(p.rows[i])
    ensures var o := Execute(p, Amend(amount));
            var owed := p.fee - amount - InstallmentsPaid(p);
            (o.accepted <==> 0 <= amount <= p.fee && amount != p.rows[id].amountPaid && owed >= 0) &&
            (!o.accepted ==> o.plan == p) &&
            (o.accepted ==>
              o.plan == p.(rows := p.rows[id := p.rows[id].(amountPaid := amount, schoolAmount := amount)],
                           firstPaymentPaid := amount, balance := owed,
                           status := if owed == 0 then Completed
                                     else if p.status == Completed then Active
                                     else p.status,
                           audit := Written(p, MigratedPaymentAmended, Some(id), Some(p.balance), Some(owed))))
  {
    assert FindMigrated(p.rows) == id;
  }

  lemma NoCorrectionWithoutMigration(p: Plan, amount: int)
    requires forall i :: 0 <= i < |p.rows| ==> !IsLiveMigrated(p.rows[i])
    ensures Execute(p, Amend(amount)) == Outcome(p, false)
  {
  }

  /**
   * A migrated plan opens owing what is left of the fee, as one confirmed row, and completed exactly if that is
   * nothing.
   */
  lemma MigrationOutcome(fee: int, alreadyPaid: int)
    requires 0 <= alreadyPaid <= fee
    ensures var p := OpenMigrated(fee, alreadyPaid);
            p.fee == fee && p.balance == fee - alreadyPaid && p.firstPaymentPaid == alreadyPaid && p.audit == [] &&
            (p.status == if alreadyPaid == fee then Completed else Active) &&
            |p.rows| == 1 && IsLiveMigrated(p.rows[0]) && p.rows[0].isConfirmed &&
            p.rows[0].amountPaid == p.rows[0].schoolAmount == alreadyPaid &&
            !p.rows[0].card && !p.rows[0].toPlatform && p.rows[0].idempotencyKey == None
  {
  }

  // ------------------------------------------------------------------ completed exactly when nothing is owed

  /** A plan that has been paid for and is not in default: completed exactly when nothing is owed, else active. */
  predicate Settling(p: Plan) { Valid(p) && p.status == if p.balance == 0 then Completed else Active }

  /** Commands on instalments and migrated money, and no default. */
  predicate MovesMoneyOnly(p: Plan, c: Command) {
    match c
    case Submit(_, _) => true
    case Confirm(_) => true
    case Reject(id) => id < |p.rows| ==> p.rows[id].kind != FirstPayment
    case Reverse(_) => true
    case Amend(_) => true
    case _ => Step(p, c) == p
  }

  lemma StepSettles(p: Plan, c: Command)
    requires Settling(p) && MovesMoneyOnly(p, c)
    ensures Settling(Step(p, c))
  {
    StepValid(p, c);
    hide KeyRow, FindMigrated, Sum;
    match c
    case Submit(amount, key) =>
    case Confirm(id) => ConfirmationOutcome(p, id);
    case Reject(id) => RejectionOutcome(p, id);
    case Reverse(id) => ReversalOutcome(p, id);
    case Amend(amount) =>
    case _ =>
  }

  /** Over every run of them, whichever are accepted, the plan is completed exactly when nothing is owed. */
  lemma {:induction false} RunSettles(p: Plan, commands: seq<Command>)
    requires Settling(p) && Throughout(p, commands, MovesMoneyOnly)
    ensures Settling(Run(p, commands))
    decreases |commands|
  {
    hide Settling, Step, MovesMoneyOnly;
    if commands != [] {
      StepSettles(p, commands[0]);
      RunSettles(Step(p, commands[0]), commands[1..]);
    }
  }

  /** Every opening credit, by card or by hand, and every migrated opening starts such runs. */
  lemma CreditSettles(p: Plan, c: Command)
    requires Valid(p) && (c.Reconcile? || c.SettleFirst? || c.ConfirmFirst?) && Execute(p, c).accepted
    ensures Settling(Step(p, c))
  {
    StepValid(p, c);
    ManualCreditOutcome(p, c.id);
    if c.Reconcile? { VerdictOutcome(p, Look(p, c.id)); }
  }

  /** In default or not, a confirmation completes the plan exactly when nothing is then owed. */
  lemma ConfirmationCompletesIff(p: Plan, id: nat)
    requires Valid(p) && Execute(p, Confirm(id)).accepted
    ensures Step(p, Confirm(id)).status == Completed <==> Step(p, Confirm(id)).balance == 0
  {
    ConfirmationOutcome(p, id);
  }
}
