/**
 * The two background jobs that move money state: the sweep over stale card payments and the nightly default detection.
 */
module Schedulers {
  import opened Calendar
  import opened Conservation
  import opened DueDates
  import opened Ledger
  import opened LedgerInvariant
  import opened LedgerOutcomes
  import opened LedgerService
  import opened Schedule
  import opened Wrappers
  import Arrears

  const MIN_AGE := 5 * 60 * 1000
  const ABANDON_AGE := DAY_MS
  const SWEEP_LIMIT := 100

  /** Paystack's answer on a charge. */
  datatype Answer = AnswerSuccess | AnswerFailed | AnswerOther

  /**
   * A payment row: its enrollment, position and date, and the answer Paystack would give on it, if the enquiry
   * succeeds.
   */
  datatype Charge = Charge(ledger: EnrollmentLedger, id: nat, paidAt: int, answer: Option<Answer>)

  predicate IsStale(c: Charge, now: int)
    reads c.ledger
  {
    AwaitsVerdict(c.ledger.State(), c.id) && c.paidAt < now - MIN_AGE
  }

  function StaleOnes(charges: seq<Charge>, now: int): (stale: seq<Charge>)
    reads set c | c in charges :: c.ledger
    ensures forall c :: c in stale ==> c in charges && IsStale(c, now)
    ensures forall c :: c in charges && IsStale(c, now) ==> c in stale
  {
    if charges == [] then []
    else
      var earlier := StaleOnes(charges[..|charges| - 1], now);
      var last := charges[|charges| - 1];
      if IsStale(last, now) then earlier + [last] else earlier
  }

  /** A card payment still pending and older than that. */
  predicate PendingFor(c: Charge, now: int, age: int)
    reads c.ledger
  {
    && c.id < |c.ledger.rows| && c.ledger.rows[c.id].card && c.ledger.rows[c.id].status == RowPending
    && now - c.paidAt > age
  }

  /** The sweep's query: card payments still pending after five minutes, a hundred at most. */
  function SelectStale(charges: seq<Charge>, now: int): (stale: seq<Charge>)
    reads set c | c in charges :: c.ledger
    ensures |stale| <= 100
    ensures forall c :: c in stale ==> c in charges && PendingFor(c, now, 5 * 60 * 1000)
    ensures |stale| < 100 ==> forall c :: c in charges && PendingFor(c, now, 5 * 60 * 1000) ==> c in stale
  {
    var all := StaleOnes(charges, now);
    var taken := if |all| <= SWEEP_LIMIT then all else all[..SWEEP_LIMIT];
    assert forall c :: c in taken ==> c in all && IsStale(c, now);
    taken
  }

  /** What the sweep decides for one payment. An unresolved charge is abandoned once it is more than a day old. */
  function Decision(c: Charge, now: int): Option<Command> {
    match c.answer
    case None => None
    case Some(AnswerSuccess) => Some(Reconcile(c.id))
    case Some(AnswerFailed) => Some(Fail(c.id))
    case Some(AnswerOther) => if now - c.paidAt > ABANDON_AGE then Some(Fail(c.id)) else None
  }

  /** The commands a sweep puts to one enrollment, in order. */
  function CommandsFor(stale: seq<Charge>, now: int, ledger: EnrollmentLedger): (commands: seq<Command>)
    ensures forall k :: 0 <= k < |commands| ==> IsVerdict(commands[k])
  {
    if stale == [] then []
    else
      var last := stale[|stale| - 1];
      CommandsFor(stale[..|stale| - 1], now, ledger) +
      if last.ledger == ledger && Decision(last, now).Some? then [Decision(last, now).value] else []
  }

  /** The decisions as they fall on one enrollment. */
  function Decided(p: Plan, decision: Option<Command>): Plan {
    if decision.Some? then Step(p, decision.value) else p
  }

  method SettleOne(c: Charge, now: int)
    modifies c.ledger
    ensures c.ledger.State() == Decided(old(c.ledger.State()), Decision(c, now))
  {
    hide ReconcileCard, FailCard;
    if c.answer == Some(AnswerSuccess) {
      var _ := c.ledger.ReconcilePaystackPayment(c.id);
    } else if c.answer == Some(AnswerFailed) {
      var _ := c.ledger.FailPaystackPayment(c.id);
    } else if c.answer == Some(AnswerOther) && now - c.paidAt > ABANDON_AGE {
      var _ := c.ledger.FailPaystackPayment(c.id);
    }
  }

  lemma NextDecision(p: Plan, stale: seq<Charge>, now: int, k: nat, ledger: EnrollmentLedger)
    requires k < |stale|
    ensures Run(p, CommandsFor(stale[..k + 1], now, ledger))
         == Decided(Run(p, CommandsFor(stale[..k], now, ledger)),
                    if stale[k].ledger == ledger then Decision(stale[k], now) else None)
  {
    hide Run, Step, Decision;
    assert stale[..k + 1][..k] == stale[..k];
    if Decision(stale[k], now).Some? {
      RunAppend(p, CommandsFor(stale[..k], now, ledger), Decision(stale[k], now).value);
    }
    assert CommandsFor(stale[..k], now, ledger) + [] == CommandsFor(stale[..k], now, ledger);
  }

  /** Put every payment selected through the same reconcile and fail steps as the webhook. */
  method SettleAll(stale: seq<Charge>, now: int, ghost ledgers: set<EnrollmentLedger>)
    requires forall c :: c in stale ==> c.ledger in ledgers
    modifies ledgers
    ensures forall ledger :: ledger in ledgers ==>
      ledger.State() == Run(old(ledger.State()), CommandsFor(stale, now, ledger))
  {
    forall ledger | ledger in ledgers
      ensures Run(ledger.State(), CommandsFor(stale[..0], now, ledger)) == ledger.State()
    {
    }
    hide Run, Step, Decision, CommandsFor;
    for k := 0 to |stale|
      invariant forall ledger :: ledger in ledgers ==>
        ledger.State() == Run(old(ledger.State()), CommandsFor(stale[..k], now, ledger))
    {
      forall ledger | ledger in ledgers
        ensures Run(old(ledger.State()), CommandsFor(stale[..k + 1], now, ledger))
             == Decided(ledger.State(), if stale[k].ledger == ledger then Decision(stale[k], now) else None)
      {
        NextDecision(old(ledger.State()), stale, now, k, ledger);
      }
      label Met:
      SettleOne(stale[k], now);
      assert forall ledger :: ledger in ledgers && ledger != stale[k].ledger ==>
          ledger.State() == old@Met(ledger.State());
    }
    assert stale[..|stale|] == stale;
  }

  // ------------------------------------------------------------------ what an answer leads to

  /** What Paystack's answer makes of a payment still pending: a success, a failure, or for now nothing. */
  function Answered(r: Row, c: Charge, now: int): Row {
    match c.answer
    case Some(AnswerSuccess) => r.(status := RowSuccess, isConfirmed := true)
    case Some(AnswerFailed) => r.(status := RowFailed)
    case Some(AnswerOther) => if now - c.paidAt > 24 * 60 * 60 * 1000 then r.(status := RowFailed) else r
    case None => r
  }

  /** The answer's whole effect on an enrollment swept for this payment alone. */
  predicate AnsweredPlan(p: Plan, q: Plan, c: Charge, now: int)
    requires c.id < |p.rows|
  {
    var r := Answered(p.rows[c.id], c, now);
    if r.status == RowSuccess then Credited(p, q, c.id, FirstPaymentPaid, p.balance)
    else q == p.(rows := p.rows[c.id := r], status := if r.status == RowFailed then Failed else p.status)
  }

  /** No other selected payment is on the same row. */
  predicate Sole(stale: seq<Charge>, c: Charge) {
    c in stale && forall other :: other in stale && other.ledger == c.ledger && other.id == c.id ==> other == c
  }

  /** No other selected payment is on the same enrollment. */
  predicate Lone(stale: seq<Charge>, k: nat)
    ensures Lone(stale, k) ==> k < |stale|
  {
    k < |stale| && forall j :: 0 <= j < |stale| && j != k ==> stale[j].ledger != stale[k].ledger
  }

  lemma {:induction false} Decides(stale: seq<Charge>, now: int, ledger: EnrollmentLedger, command: Command)
    ensures command in CommandsFor(stale, now, ledger) <==>
            exists c :: c in stale && c.ledger == ledger && Decision(c, now) == Some(command)
  {
    if stale != [] {
      var earlier, last := stale[..|stale| - 1], stale[|stale| - 1];
      assert stale == earlier + [last];
      Decides(earlier, now, ledger, command);
    }
  }

  lemma SoleDecision(stale: seq<Charge>, now: int, c: Charge)
    requires Sole(stale, c)
    ensures FirstVerdict(CommandsFor(stale, now, c.ledger), c.id) == Decision(c, now)
  {
    Decides(stale, now, c.ledger, Reconcile(c.id));
    Decides(stale, now, c.ledger, Fail(c.id));
  }

  lemma SoleIsAnswered(p: Plan, stale: seq<Charge>, now: int, c: Charge)
    requires Sole(stale, c) && AwaitsVerdict(p, c.id)
    ensures Settled(p, CommandsFor(stale, now, c.ledger), c.id) == Answered(p.rows[c.id], c, now)
  {
    SoleDecision(stale, now, c);
  }

  lemma {:induction false} LoneCommands(stale: seq<Charge>, now: int, k: nat)
    requires Lone(stale, k)
    ensures CommandsFor(stale, now, stale[k].ledger) ==
            if Decision(stale[k], now).Some? then [Decision(stale[k], now).value] else []
  {
    var last := |stale| - 1;
    if k < last {
      assert stale[..last][k] == stale[k];
      assert forall j :: 0 <= j < last && j != k ==> stale[..last][j].ledger != stale[k].ledger;
      LoneCommands(stale[..last], now, k);
    } else {
      NoCommands(stale[..last], now, stale[k].ledger);
    }
  }

  lemma {:induction false} NoCommands(stale: seq<Charge>, now: int, ledger: EnrollmentLedger)
    requires forall j :: 0 <= j < |stale| ==> stale[j].ledger != ledger
    ensures CommandsFor(stale, now, ledger) == []
  {
    if stale != [] {
      NoCommands(stale[..|stale| - 1], now, ledger);
    }
  }

  lemma LoneIsAnswered(p: Plan, stale: seq<Charge>, now: int, k: nat)
    requires Lone(stale, k) && AwaitsVerdict(p, stale[k].id)
    ensures AnsweredPlan(p, Run(p, CommandsFor(stale, now, stale[k].ledger)), stale[k], now)
  {
    LoneCommands(stale, now, k);
    VerdictOutcome(p, Look(p, stale[k].id));
    SequentialCard(p, stale[k].id);
    var commands := CommandsFor(stale, now, stale[k].ledger);
    if commands != [] {
      assert commands[1..] == [];
      assert Run(p, commands) == Run(Step(p, commands[0]), []);
    }
  }

  /**
   * The sweep: select, then settle each. Every row of every enrollment ends as its first verdict, if any, leaves it: a
   * payment selected once ends as its answer says, and so does the whole enrollment swept for it alone.
   */
  method RunSweep(charges: seq<Charge>, now: int) returns (stale: seq<Charge>)
    modifies set c | c in charges :: c.ledger
    ensures stale == old(SelectStale(charges, now))
    ensures forall c :: c in charges ==>
      c.ledger.State() == Run(old(c.ledger.State()), CommandsFor(stale, now, c.ledger))
    ensures forall c, id: nat :: c in charges && id < |old(c.ledger.rows)| ==>
      id < |c.ledger.rows| &&
      c.ledger.rows[id] == Settled(old(c.ledger.State()), CommandsFor(stale, now, c.ledger), id)
    ensures forall c :: c in charges && Sole(stale, c) ==>
      c.id < |old(c.ledger.rows)| == |c.ledger.rows| &&
      c.ledger.rows[c.id] == Answered(old(c.ledger.rows[c.id]), c, now)
    ensures forall c, k: nat :: c in charges && Lone(stale, k) && stale[k] == c ==>
      c.id < |old(c.ledger.rows)| && AnsweredPlan(old(c.ledger.State()), c.ledger.State(), c, now)
  {
    hide Run, CommandsFor, SelectStale, Settled, AnsweredPlan, Answered, Sole, Lone;
    ghost var ledgers := set c | c in charges :: c.ledger;
    stale := SelectStale(charges, now);
    SettleAll(stale, now, ledgers);
    forall c | c in charges
      ensures |c.ledger.rows| == |old(c.ledger.rows)|
      ensures forall id: nat :: id < |c.ledger.rows| ==>
        c.ledger.rows[id] == Settled(old(c.ledger.State()), CommandsFor(stale, now, c.ledger), id)
    {
      assert c.ledger in ledgers;
      SweepSettles(old(c.ledger.State()), CommandsFor(stale, now, c.ledger));
    }
    forall c | c in charges && Sole(stale, c)
      ensures c.id < |old(c.ledger.rows)| == |c.ledger.rows|
      ensures c.ledger.rows[c.id] == Answered(old(c.ledger.rows[c.id]), c, now)
    {
      SoleIsSelected(stale, c);
      SoleIsAnswered(old(c.ledger.State()), stale, now, c);
    }
    forall c, k: nat | c in charges && Lone(stale, k) && stale[k] == c
      ensures c.id < |old(c.ledger.rows)|
      ensures AnsweredPlan(old(c.ledger.State()), c.ledger.State(), c, now)
    {
      assert stale[k] in stale;
      LoneIsAnswered(old(c.ledger.State()), stale, now, k);
    }
  }

  lemma SoleIsSelected(stale: seq<Charge>, c: Charge)
    requires Sole(stale, c)
    ensures c in stale
  {
  }

  // ------------------------------------------------------------------ what a sweep settles

  predicate IsVerdict(c: Command) { c.Reconcile? || c.Fail? }

  predicate AwaitsVerdict(p: Plan, id: nat) { IsCardRow(p, id) && p.rows[id].status == RowPending }

  /** The first verdict given on a payment. */
  function FirstVerdict(commands: seq<Command>, id: nat): (c: Option<Command>)
    ensures c.Some? ==> c.value == Reconcile(id) || c.value == Fail(id)
    ensures c.None? <==> Reconcile(id) !in commands && Fail(id) !in commands
    ensures c.Some? ==> c.value in commands
  {
    if commands == [] then None
    else if commands[0] == Reconcile(id) || commands[0] == Fail(id) then Some(commands[0])
    else FirstVerdict(commands[1..], id)
  }

  /** What one row becomes: the first verdict on it decides, and only if it was still awaiting one. */
  function Settled(p: Plan, commands: seq<Command>, id: nat): Row
    requires id < |p.rows|
  {
    if !AwaitsVerdict(p, id) then p.rows[id]
    else match FirstVerdict(commands, id)
      case None => p.rows[id]
      case Some(c) => if c.Reconcile? then Succeed(p.rows[id]) else p.rows[id].(status := RowFailed)
  }

  lemma VerdictOnRow(p: Plan, c: Command, id: nat)
    requires IsVerdict(c)
    ensures |Step(p, c).rows| == |p.rows|
    ensures id < |p.rows| ==> Step(p, c).rows[id] == Settled(p, [c], id)
  {
  }

  /** A sweep's whole effect on the payments, in whatever order and however often it meets them. */
  lemma {:induction false} SweepSettles(p: Plan, commands: seq<Command>)
    requires forall k :: 0 <= k < |commands| ==> IsVerdict(commands[k])
    ensures |Run(p, commands).rows| == |p.rows|
    ensures forall id: nat :: id < |p.rows| ==> Run(p, commands).rows[id] == Settled(p, commands, id)
    decreases |commands|
  {
    if commands != [] {
      var c, rest := commands[0], commands[1..];
      var next := Step(p, c);
      SweepSettles(next, rest);
      forall id: nat | id < |p.rows|
        ensures |next.rows| == |p.rows| && Run(p, commands).rows[id] == Settled(p, commands, id)
      {
        VerdictOnRow(p, c, id);
        hide Step;
      }
      VerdictOnRow(p, c, 0);
    }
  }

  /**
   * Verdicts already given are inert: sweeping the same payments again, whatever the answers now, changes nothing at
   * all.
   */
  lemma {:induction false} ResweepIsInert(p: Plan, commands: seq<Command>)
    requires forall k :: 0 <= k < |commands| ==> IsVerdict(commands[k]) && !AwaitsVerdict(p, commands[k].id)
    ensures Run(p, commands) == p
    decreases |commands|
  {
    if commands != [] {
      assert Step(p, commands[0]) == p;
      hide Step, AwaitsVerdict;
      ResweepIsInert(p, commands[1..]);
    }
  }

  /** So a second sweep over payments the first one decided is a no-op. */
  lemma SweepIsIdempotent(p: Plan, first: seq<Command>, second: seq<Command>)
    requires forall k :: 0 <= k < |first| ==> IsVerdict(first[k])
    requires forall k :: 0 <= k < |second| ==> IsVerdict(second[k]) && FirstVerdict(first, second[k].id).Some?
    ensures Run(Run(p, first), second) == Run(p, first)
  {
    SweepSettles(p, first);
    hide Run;
    forall k | 0 <= k < |second|
      ensures !AwaitsVerdict(Run(p, first), second[k].id)
    {
      var id := second[k].id;
      if id < |p.rows| { assert Run(p, first).rows[id] == Settled(p, first, id); }
    }
    ResweepIsInert(Run(p, first), second);
  }

  // ------------------------------------------------------------------ default detection

  /** The nightly query: still active, past the end of its term, and owing. */
  predicate IsOverdue(p: Plan, termEnd: Date, now: Date) {
    p.status == Active && Time(termEnd) < Time(now) && p.balance > 0
  }

  function Detected(p: Plan, termEnd: Date, now: Date): Plan {
    if IsOverdue(p, termEnd, now) then Step(p, Sweep) else p
  }

  /** An enrollment and the end of its term. */
  datatype Watched = Watched(ledger: EnrollmentLedger, termEnd: Date)

  lemma {:induction false} CountIncreasing(s: seq<int>)
    requires forall k, l :: 0 <= k < l < |s| ==> s[k] < s[l]
    ensures |set i | i in s| == |s|
  {
    if s != [] {
      var last := |s| - 1;
      CountIncreasing(s[..last]);
      assert (set i | i in s) == (set i | i in s[..last]) + {s[last]};
    }
  }

  /** The query: the positions of the overdue enrollments, each once. */
  method SelectOverdue(watched: seq<Watched>, now: Date) returns (overdue: seq<int>)
    ensures forall k :: 0 <= k < |overdue| ==> 0 <= overdue[k] < |watched|
    ensures forall k, l :: 0 <= k < l < |overdue| ==> overdue[k] < overdue[l]
    ensures forall j :: 0 <= j < |watched| ==>
      (j in overdue <==> IsOverdue(watched[j].ledger.State(), watched[j].termEnd, now))
  {
    hide IsOverdue;
    overdue := [];
    for i := 0 to |watched|
      invariant forall k :: 0 <= k < |overdue| ==> 0 <= overdue[k] < i
      invariant forall k, l :: 0 <= k < l < |overdue| ==> overdue[k] < overdue[l]
      invariant forall j :: 0 <= j < i ==>
        (j in overdue <==> IsOverdue(watched[j].ledger.State(), watched[j].termEnd, now))
    {
      if IsOverdue(watched[i].ledger.State(), watched[i].termEnd, now) {
        overdue := overdue + [i];
      }
    }
  }

  method DefaultOne(ledger: EnrollmentLedger) returns (flipped: bool)
    modifies ledger
    ensures ledger.State() == Step(old(ledger.State()), Sweep)
    ensures flipped <==> old(ledger.State()).status == Active && old(ledger.State()).balance > 0
  {
    flipped := ledger.MarkEnrollmentDefaultedBySweep();
  }

  /** Select every overdue enrollment, then default each through the ledger's own guarded write. */
  method RunDetection(watched: seq<Watched>, now: Date) returns (flips: nat)
    requires forall i, j :: 0 <= i < j < |watched| ==> watched[i].ledger != watched[j].ledger
    modifies set w | w in watched :: w.ledger
    ensures forall i :: 0 <= i < |watched| ==>
      watched[i].ledger.State() == Detected(old(watched[i].ledger.State()), watched[i].termEnd, now)
    ensures flips == |set i | 0 <= i < |watched| && IsOverdue(old(watched[i].ledger.State()), watched[i].termEnd, now)|
  {
    hide Step;
    var overdue := SelectOverdue(watched, now);
    CountIncreasing(overdue);
    flips := 0;
    for k := 0 to |overdue|
      invariant flips == k
      invariant forall j :: 0 <= j < |watched| ==>
        watched[j].ledger.State() ==
          if j in overdue[..k] then Step(old(watched[j].ledger.State()), Sweep) else old(watched[j].ledger.State())
    {
      var id := overdue[k];
      assert overdue[..k + 1] == overdue[..k] + [id];
      label Met:
      var flipped := DefaultOne(watched[id].ledger);
      assert forall j :: 0 <= j < |watched| && j != id ==>
          watched[j].ledger.State() == old@Met(watched[j].ledger.State());
      flips := flips + if flipped then 1 else 0;
    }
    assert overdue[..|overdue|] == overdue;
    assert (set i | i in overdue)
        == set i | 0 <= i < |watched| && IsOverdue(old(watched[i].ledger.State()), watched[i].termEnd, now);
  }

  lemma SettledMeansNothingOwed(balance: int, paid: int, frequency: Frequency)
    ensures ProgressOf(balance, paid, frequency).settled <==> balance <= 0
  {
  }

  /**
   * The detection and the arrears book agree on who is behind: an active plan is taken exactly when its term shows as
   * expired, its whole balance is then overdue, and afterwards no active plan shows so.
   */
  lemma DetectionMatchesArrears(p: Plan, frequency: Frequency, termStart: Date, termEnd: Date, now: Date)
    requires Valid(p)
    ensures var q := Detected(p, termEnd, now);
            var before := Arrears.ComputeArrears(ArrearsPlan(p, frequency, termStart, termEnd), now);
            var after := Arrears.ComputeArrears(ArrearsPlan(q, frequency, termStart, termEnd), now);
            (q != p <==> p.status == Active && before.termExpired) &&
            (q != p ==> q.status == Defaulted && before.overdueAmount == p.balance) &&
            !(q.status == Active && after.termExpired) && after == before
  {
    hide ProgressOf, Arrears.ElapsedPeriods, DueDate, CumulativeTarget;
    SettledMeansNothingOwed(p.balance, InstallmentsPaid(p), frequency);
  }
}
