/** Plans opened by claiming an enrollment invite, over every run of the ledger. */
module MigratedPlans {
  import opened Ledger
  import opened LedgerInvariant

  /**
   * The plan was opened by migrated money, which every figure that repeats it agrees on, and is neither pending nor
   * failed.
   */
  predicate IsMigratedPlan(p: Plan) {
    && Valid(p)
    && (p.status == Active || p.status == Completed || p.status == Defaulted)
    && |p.rows| > 0
    && IsLiveMigrated(p.rows[0])
    && p.rows[0].amountPaid == p.rows[0].schoolAmount == p.firstPaymentPaid
    && (forall i :: 1 <= i < |p.rows| ==> p.rows[i].kind == Installment)
  }

  lemma OpeningIsMigrated(fee: int, alreadyPaid: int)
    requires fee > 0 && 0 <= alreadyPaid <= fee
    ensures IsMigratedPlan(OpenMigrated(fee, alreadyPaid))
    ensures OpenMigrated(fee, alreadyPaid).firstPaymentPaid == alreadyPaid && OpenMigrated(fee, alreadyPaid).fee == fee
  {
  }

  lemma {:induction false} MigratedRowIsFirst(rows: seq<Row>)
    requires |rows| > 0 && IsLiveMigrated(rows[0])
    ensures FindMigrated(rows) == 0
  {
    if |rows| > 1 {
      MigratedRowIsFirst(rows[..|rows| - 1]);
    } else {
      assert FindMigrated(rows[..0]) == 0;
    }
  }

  /** The plan keeps its kind, its fee, and the figure given. */
  predicate StaysMigrated(p: Plan, q: Plan, figure: int) {
    IsMigratedPlan(q) && q.fee == p.fee && q.firstPaymentPaid == figure
  }

  lemma SubmitStaysMigrated(p: Plan, c: Command)
    requires IsMigratedPlan(p) && c.Submit?
    ensures StaysMigrated(p, Step(p, c), p.firstPaymentPaid)
  {
    StepValid(p, c);
    hide Valid, KeyRow, Sum;
    ValidHasValidRows(p);
  }

  lemma AmendStaysMigrated(p: Plan, c: Command)
    requires IsMigratedPlan(p) && c.Amend?
    ensures StaysMigrated(p, Step(p, c), if Execute(p, c).accepted then c.amount else p.firstPaymentPaid)
  {
    StepValid(p, c);
    MigratedRowIsFirst(p.rows);
    hide Valid, Sum, FindMigrated;
  }

  lemma InitiateStaysMigrated(p: Plan, c: Command)
    requires IsMigratedPlan(p) && c.Initiate?
    ensures StaysMigrated(p, Step(p, c), p.firstPaymentPaid)
  {
    StepValid(p, c);
    hide Valid, KeyRow, ResolveExisting;
    ValidHasValidRows(p);
  }

  lemma RowCommandStaysMigrated(p: Plan, c: Command)
    requires IsMigratedPlan(p) && !c.Submit? && !c.Amend? && !c.Initiate?
    ensures StaysMigrated(p, Step(p, c), p.firstPaymentPaid)
  {
    StepValid(p, c);
    ValidHasValidRows(p);
    hide Valid;
  }

  /** Whatever the command, the plan stays migrated; only a correction moves its figure, and its fee never moves. */
  lemma StepStaysMigrated(p: Plan, c: Command)
    requires IsMigratedPlan(p)
    ensures IsMigratedPlan(Step(p, c)) && Step(p, c).fee == p.fee
    ensures Step(p, c).firstPaymentPaid == if c.Amend? && Execute(p, c).accepted then c.amount else p.firstPaymentPaid
  {
    hide IsMigratedPlan, Step;
    match c
    case Submit(_, _) => SubmitStaysMigrated(p, c);
    case Amend(_) => AmendStaysMigrated(p, c);
    case Initiate(_) => InitiateStaysMigrated(p, c);
    case _ => RowCommandStaysMigrated(p, c);
  }

  lemma {:induction false} RunStaysMigrated(p: Plan, commands: seq<Command>)
    requires IsMigratedPlan(p)
    ensures IsMigratedPlan(Run(p, commands)) && Run(p, commands).fee == p.fee
    decreases |commands|
  {
    if commands != [] {
      StepStaysMigrated(p, commands[0]);
      RunStaysMigrated(Step(p, commands[0]), commands[1..]);
    }
  }

  /** No correction, and nothing else short of settling, takes a plan out of default. */
  lemma StaysDefaulted(p: Plan, c: Command)
    requires IsMigratedPlan(p) && p.status == Defaulted
    ensures Step(p, c).status == Defaulted || (Step(p, c).status == Completed && Step(p, c).balance == 0)
  {
    StepStaysMigrated(p, c);
    hide KeyRow, Sum, FindMigrated;
  }
}
