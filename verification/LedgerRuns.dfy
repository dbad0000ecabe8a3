/** Two laws of whole runs: no credit without money behind it, and an audit trail that replays the balance. */
module LedgerRuns {
  import opened Ledger
  import opened LedgerInvariant
  import opened LedgerSums
  import opened Payments
  import opened Wrappers

  // ------------------------------------------------------------------ no phantom credit

  /** The money a confirmed row stands for. */
  function BackingWeight(r: Row): int {
    if !r.isConfirmed then 0 else if r.kind == FirstPayment then r.schoolAmount else r.amountPaid
  }

  function Backing(p: Plan): int { Sum(p.rows, BackingWeight) }

  /** What has been taken off the fee is no more than confirmed rows account for. */
  predicate Backed(p: Plan) { p.fee - p.balance <= Backing(p) }

  lemma BackingNonNegative(p: Plan)
    requires ValidRows(p.rows)
    ensures Backing(p) >= 0 && forall i :: 0 <= i < |p.rows| ==> Backing(p) >= BackingWeight(p.rows[i])
  {
    assert NonNegative(p.rows, BackingWeight);
    SumAtLeast(p.rows, 0, BackingWeight);
    forall i | 0 <= i < |p.rows|
      ensures Backing(p) >= BackingWeight(p.rows[i])
    {
      SumAtLeast(p.rows, i, BackingWeight);
    }
  }

  lemma WriteRow(p: Plan, id: nat, r: Row)
    requires id < |p.rows|
    ensures Backing(SetRow(p, id, r)) == Backing(p) - BackingWeight(p.rows[id]) + BackingWeight(r)
  {
    SumUpdate(p.rows, id, r, BackingWeight);
  }

  lemma ReleaseBacked(p: Plan, key: Option<nat>)
    requires Backed(p)
    ensures Backed(ReleaseKey(p, key))
  {
    ReleaseKeepsSum(p, key, BackingWeight);
  }

  lemma SubmitBacked(p: Plan, amount: int, key: Option<nat>)
    requires Backed(p)
    ensures Backed(SubmitInstallment(p, amount, key).plan)
  {
    hide Sum, KeyRow, Replays;
    ReleaseBacked(p, key);
    SumAppend(ReleaseKey(p, key).rows, NewInstallment(amount, key), BackingWeight);
  }

  lemma InstallmentStepsBacked(p: Plan, id: nat)
    requires Valid(p) && Backed(p)
    ensures Backed(ConfirmPayment(p, id).plan)
    ensures Backed(RejectPayment(p, id).plan)
    ensures Backed(ReversePayment(p, id).plan)
  {
    hide Sum;
    BackingNonNegative(p);
    if id < |p.rows| {
      var r := p.rows[id];
      WriteRow(p, id, Succeed(r));
      WriteRow(p, id, r.(status := RowFailed));
      WriteRow(p, id, r.(status := RowReversed, isConfirmed := false));
    }
  }

  lemma ManualStepsBacked(p: Plan, id: nat)
    requires Valid(p) && Backed(p)
    ensures Backed(SettleFirstPayment(p, id).plan)
    ensures Backed(RejectFirstPayment(p, id).plan)
    ensures Backed(ConfirmFirstPayment(p, id).plan)
  {
    if id < |p.rows| {
      WriteRow(p, id, Succeed(p.rows[id]));
      WriteRow(p, id, p.rows[id].(status := RowFailed));
    }
  }

  lemma CardStepsBacked(p: Plan, seen: Snapshot)
    requires Valid(p) && Backed(p)
    ensures Backed(ReconcileCard(p, seen).plan)
    ensures Backed(FailCard(p, seen).plan)
  {
    if seen.id < |p.rows| {
      WriteRow(p, seen.id, Succeed(p.rows[seen.id]));
      WriteRow(p, seen.id, p.rows[seen.id].(status := RowFailed));
    }
  }

  /**
   * A dispute keeps the law exactly when its caller had seen the plan credited, so that it resets the balance, or the
   * other rows still back what stays credited.
   */
  lemma DisputeBackedIff(p: Plan, seen: Snapshot)
    requires Valid(p) && Backed(p) && seen.fee == p.fee && DisputeCard(p, seen).accepted
    ensures Backed(DisputeCard(p, seen).plan)
       <==> WasCredited(seen) || p.fee - p.balance <= Backing(p) - p.rows[seen.id].schoolAmount
  {
    WriteRow(p, seen.id, p.rows[seen.id].(status := RowFailed, isConfirmed := false));
    BackingNonNegative(p);
  }

  lemma AmendBacked(p: Plan, amount: int)
    requires Valid(p) && Backed(p)
    ensures Backed(AmendMigratedPayment(p, amount).plan)
  {
    var id := FindMigrated(p.rows);
    if AmendMigratedPayment(p, amount).accepted {
      var r := p.rows[id].(amountPaid := amount, schoolAmount := amount);
      SumUpdate(p.rows, id, r, BackingWeight);
      SumUpdate(p.rows, id, r, InstallmentWeight);
      MigratedPlusInstallments(p.rows[id := r], id);
    }
  }

  /** The migrated row and the confirmed instalments are distinct rows, each counted in the backing. */
  lemma {:induction false} MigratedPlusInstallments(rows: seq<Row>, id: nat)
    requires ValidRows(rows) && id < |rows| && IsLiveMigrated(rows[id])
    ensures Sum(rows, BackingWeight) >= rows[id].amountPaid + Sum(rows, InstallmentWeight)
  {
    var last := |rows| - 1;
    assert ValidRows(rows[..last]);
    if id < last {
      MigratedPlusInstallments(rows[..last], id);
    } else {
      BackingCoversInstallments(rows[..last]);
    }
  }

  lemma {:induction false} BackingCoversInstallments(rows: seq<Row>)
    requires ValidRows(rows)
    ensures Sum(rows, BackingWeight) >= Sum(rows, InstallmentWeight)
  {
    if rows != [] {
      assert ValidRows(rows[..|rows| - 1]);
      BackingCoversInstallments(rows[..|rows| - 1]);
    }
  }

  lemma OpenChargeBacked(p: Plan, request: Initiation, split: Deposit)
    requires Valid(p) && CalculateInitialPayment(request.fee, request.deposit) == Ok(split)
    ensures Backed(OpenCharge(p, request, split))
  {
    OpenChargeValid(p, request, split);
    BackingNonNegative(OpenCharge(p, request, split));
    hide CalculateInitialPayment, Backing;
  }

  lemma InitiateBacked(p: Plan, request: Initiation)
    requires Valid(p) && Backed(p)
    ensures Backed(InitiateFirstPayment(p, request).plan)
  {
    hide Valid, Backed, CalculateInitialPayment, OpenCharge, FailCard, ReconcileCard, ReleaseKey;
    ReleaseBacked(p, request.key);
    ReleaseValid(p, request.key);
    ResolveValid(p, request);
    var released := ReleaseKey(p, request.key);
    var id := LatestInFlight(released.rows);
    if id < |released.rows| {
      CardStepsBacked(released, Look(released, id));
    }
    if OpensCharge(p, request) {
      OpenChargeBacked(ResolveExisting(p, request).plan, request,
        CalculateInitialPayment(request.fee, request.deposit).value);
    }
  }

  /** A dispute that finds the plan neither active nor completed leaves the deposit's credit behind. */
  predicate SafeForBacking(p: Plan, c: Command) {
    c.Dispute? && Execute(p, c).accepted ==>
      p.status == Active || p.status == Completed || p.fee - p.balance <= Backing(p) - p.rows[c.id].schoolAmount
  }

  lemma StepBacked(p: Plan, c: Command)
    requires Valid(p) && Backed(p) && SafeForBacking(p, c)
    ensures Backed(Step(p, c))
  {
    if c.Dispute? {
      if Execute(p, c).accepted { DisputeBackedIff(p, Look(p, c.id)); }
      else { assert Step(p, c) == p; }
    } else {
      hide SubmitInstallment, ConfirmPayment, RejectPayment, ReversePayment, SettleFirstPayment, RejectFirstPayment,
           ConfirmFirstPayment, ReconcileCard, FailCard, DisputeCard, AmendMigratedPayment, InitiateFirstPayment;
      match c
      case Submit(amount, key) => SubmitBacked(p, amount, key);
      case Confirm(id) => InstallmentStepsBacked(p, id);
      case Reject(id) => InstallmentStepsBacked(p, id);
      case Reverse(id) => InstallmentStepsBacked(p, id);
      case SettleFirst(id) => ManualStepsBacked(p, id);
      case RejectFirst(id) => ManualStepsBacked(p, id);
      case ConfirmFirst(id) => ManualStepsBacked(p, id);
      case Reconcile(id) => if id < |p.rows| { CardStepsBacked(p, Look(p, id)); }
      case Fail(id) => if id < |p.rows| { CardStepsBacked(p, Look(p, id)); }
      case Amend(amount) => AmendBacked(p, amount);
      case Default =>
      case Sweep =>
      case Initiate(request) => InitiateBacked(p, request);
    }
  }

  /** Every command of the run, in the state it meets, satisfies the condition. */
  ghost predicate Throughout(p: Plan, commands: seq<Command>, condition: (Plan, Command) -> bool)
    decreases |commands|
  {
    commands == [] || (condition(p, commands[0]) && Throughout(Step(p, commands[0]), commands[1..], condition))
  }

  /** Over any run, re-confirmations, clamps and fresh charges included, nothing is credited without a confirmed row. */
  lemma {:induction false} NoPhantomCredit(p: Plan, commands: seq<Command>)
    requires Valid(p) && Backed(p) && Throughout(p, commands, SafeForBacking)
    ensures Run(p, commands).fee - Run(p, commands).balance <= Backing(Run(p, commands))
    decreases |commands|
  {
    if commands != [] {
      StepValid(p, commands[0]);
      StepBacked(p, commands[0]);
      NoPhantomCredit(Step(p, commands[0]), commands[1..]);
    }
  }

  // ------------------------------------------------------------------ the audit trail replays the balance

  function Delta(a: AuditRow): int {
    if a.before.Some? && a.after.Some? then a.after.value - a.before.value else 0
  }

  function Deltas(audit: seq<AuditRow>): int {
    if audit == [] then 0 else Deltas(audit[..|audit| - 1]) + Delta(audit[|audit| - 1])
  }

  lemma DeltasAppend(audit: seq<AuditRow>, a: AuditRow)
    ensures Deltas(audit + [a]) == Deltas(audit) + Delta(a)
  {
    assert (audit + [a])[..|audit|] == audit;
  }

  /** The trail only grows, and any move of the balance is the last row's own before and after. */
  predicate Audited(p: Plan, q: Plan) {
    || (q.audit == p.audit && q.balance == p.balance)
    || (&& |q.audit| == |p.audit| + 1 && q.audit[..|p.audit|] == p.audit
        && var a := q.audit[|p.audit|];
           Delta(a) == q.balance - p.balance
           && (q.balance != p.balance ==> a.before == Some(p.balance) && a.after == Some(q.balance)))
  }

  /** Outside initiation, every move of the balance is written to the trail in the same step. */
  lemma StepAudited(p: Plan, c: Command)
    requires !c.Initiate?
    ensures Audited(p, Step(p, c))
  {
    hide KeyRow, FindMigrated, Sum;
  }

  lemma ResolveAudited(p: Plan, request: Initiation)
    ensures Audited(p, ResolveExisting(p, request).plan)
  {
    hide KeyRow, LatestInFlight;
  }

  lemma FreshChargeFigures(p: Plan, request: Initiation, split: Deposit)
    requires CalculateInitialPayment(request.fee, request.deposit) == Ok(split)
    ensures OpenCharge(p, request, split).audit == p.audit && OpenCharge(p, request, split).balance == request.fee
  {
  }

  /** Before a fresh charge is written, settling what came before it moves no money. */
  lemma ChargeMeetsBalance(p: Plan, request: Initiation)
    requires OpensCharge(p, request)
    ensures ResolveExisting(p, request).plan.balance == p.balance && ResolveExisting(p, request).plan.audit == p.audit
  {
    hide KeyRow, LatestInFlight, CalculateInitialPayment;
  }

  /**
   * A fresh charge writes the balance without a trail, so initiation replays exactly when that leaves it where it was.
   */
  lemma InitiationReplaysIff(p: Plan, request: Initiation)
    ensures (var q := Step(p, Initiate(request)); q.balance == p.balance + Deltas(q.audit) - Deltas(p.audit))
       <==> (OpensCharge(p, request) ==> p.balance == request.fee)
  {
    hide ResolveExisting, CalculateInitialPayment, OpenCharge, KeyRow, ReleaseKey;
    if OpensCharge(p, request) {
      ChargeMeetsBalance(p, request);
      FreshChargeFigures(ResolveExisting(p, request).plan, request,
        CalculateInitialPayment(request.fee, request.deposit).value);
    } else {
      var resolved := ResolveExisting(p, request).plan;
      ResolveAudited(p, request);
      if resolved.audit != p.audit {
        DeltasAppend(p.audit, resolved.audit[|p.audit|]);
        assert resolved.audit == p.audit + [resolved.audit[|p.audit|]];
      }
      ReleaseMovesNothing(p, request.key);
    }
  }

  lemma ReleaseMovesNothing(p: Plan, key: Option<nat>)
    ensures ReleaseKey(p, key).audit == p.audit && ReleaseKey(p, key).balance == p.balance
  {
  }

  /** A failed plan enrolled again once the class fee has risen: the balance moves and the trail does not. */
  lemma FeeRiseLeavesNoTrail(p: Plan, request: Initiation)
    requires p.status == Failed && p.balance < request.fee && request.key == None
    requires CalculateInitialPayment(request.fee, request.deposit).Ok? && request.deposit > 0
    ensures var q := Step(p, Initiate(request)); q.balance == request.fee > p.balance && q.audit == p.audit
  {
    hide CalculateInitialPayment;
    FreshChargeFigures(p, request, CalculateInitialPayment(request.fee, request.deposit).value);
  }

  /** Every step that is no fresh charge, and every fresh charge on a balance that is already the fee it writes. */
  predicate SafeForTrail(p: Plan, c: Command) {
    c.Initiate? && OpensCharge(p, c.request) ==> p.balance == c.request.fee
  }

  /** The trail only grows, and the balance moves by what it adds. */
  predicate TrailReplays(p: Plan, q: Plan) {
    && |p.audit| <= |q.audit| && q.audit[..|p.audit|] == p.audit
    && q.balance - p.balance == Deltas(q.audit) - Deltas(p.audit)
  }

  lemma InitiationGrowsTrail(p: Plan, request: Initiation)
    ensures var q := Step(p, Initiate(request)); |p.audit| <= |q.audit| && q.audit[..|p.audit|] == p.audit
  {
    ResolveAudited(p, request);
    ReleaseMovesNothing(p, request.key);
    hide ResolveExisting, ReleaseKey, KeyRow, OpenCharge, CalculateInitialPayment;
    if OpensCharge(p, request) {
      FreshChargeFigures(ResolveExisting(p, request).plan, request,
                         CalculateInitialPayment(request.fee, request.deposit).value);
    }
  }

  /** A step replays on the trail exactly if it is safe in that sense. */
  lemma StepReplaysIff(p: Plan, c: Command)
    ensures TrailReplays(p, Step(p, c)) <==> SafeForTrail(p, c)
  {
    if c.Initiate? {
      InitiationReplaysIff(p, c.request);
      InitiationGrowsTrail(p, c.request);
    } else {
      StepAudited(p, c);
      var q := Step(p, c);
      if q.audit != p.audit {
        DeltasAppend(p.audit, q.audit[|p.audit|]);
        assert q.audit == p.audit + [q.audit[|p.audit|]];
      }
    }
    hide Step, OpensCharge, Deltas, Delta;
  }

  /** The balance at the end of such a run is the balance at the start plus the trail's own moves. */
  lemma {:induction false} AuditReplaysBalance(p: Plan, commands: seq<Command>)
    requires Throughout(p, commands, SafeForTrail)
    ensures TrailReplays(p, Run(p, commands))
    decreases |commands|
  {
    hide Step, SafeForTrail, Deltas;
    if commands != [] {
      StepReplaysIff(p, commands[0]);
      AuditReplaysBalance(Step(p, commands[0]), commands[1..]);
      var q, end := Step(p, commands[0]), Run(p, commands);
      assert end.audit[..|p.audit|] == end.audit[..|q.audit|][..|p.audit|];
    }
  }
}
