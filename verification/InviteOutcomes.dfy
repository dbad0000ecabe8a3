/**
 * What each action on an invite is accepted for and what it leaves: on the invites, their plans and the clock alone.
 */
module InviteOutcomes {
  import opened Calendar
  import opened Conservation
  import opened InviteSafety
  import opened Invites
  import opened Ledger
  import opened LedgerInvariant
  import opened LedgerSums
  import opened MigratedPlans
  import opened Wrappers

  const DAY := 24 * 60 * 60 * 1000

  /** A claimed invite of the school is for the student, however the name is typed. */
  predicate Migrated(b: Book, student: Name) {
    exists i :: 0 <= i < |b.invites| && b.invites[i].status == InviteClaimed &&
                b.invites[i].student.folded == student.folded
  }

  /** A live or claimed invite is for the student in the class, however both are typed. */
  predicate Slotted(b: Book, student: Name, className: Name) {
    exists i :: 0 <= i < |b.invites| && b.invites[i].status in {InvitePending, InviteDisputed, InviteClaimed} &&
                b.invites[i].student.folded == student.folded && b.invites[i].className.folded == className.folded
  }

  /** The start is a date from 36 hours ago to 365 days ahead. */
  predicate GoodStart(start: Date, clock: int) {
    IsDate(start) && clock - 36 * 60 * 60 * 1000 <= Time(start) <= clock + 365 * DAY
  }

  /** Whole days an invite lives for: fourteen if none are asked for, and else as asked but from one to thirty. */
  predicate LivesFor(days: int, asked: Option<int>) {
    match asked
    case None => days == 14
    case Some(n) => if n < 1 then days == 1 else if n > 30 then days == 30 else days == n
  }

  /**
   * An invite is issued exactly while the migration window is open, to a good number, with a good start, for a student
   * not migrated yet and a published fee the figure is within, and no invite holding the slot. It opens pending under
   * a new link.
   */
  lemma IssueOutcome(b: Book, r: IssueRequest)
    ensures var o := Perform(b, DoIssue(r));
            (o.accepted <==>
              b.clock < b.windowCloses && r.phoneIsValid && GoodStart(r.planStart, b.clock) &&
              !Migrated(b, r.student) && r.publishedFee.Some? && r.publishedFee.value > 0 &&
              0 <= r.alreadyPaid <= r.publishedFee.value && !Slotted(b, r.student, r.className)) &&
            (!o.accepted ==> o.book == b) &&
            (o.accepted ==>
              |o.book.invites| == |b.invites| + 1 && o.book.invites[..|b.invites|] == b.invites &&
              o.book == b.(invites := o.book.invites, minted := b.minted + 1) &&
              var i := o.book.invites[|b.invites|];
              i.student == r.student && i.className == r.className && i.fee == r.publishedFee.value &&
              i.alreadyPaid == r.alreadyPaid && i.frequency == r.frequency && i.planStart == r.planStart &&
              i.status == InvitePending && i.token == b.minted &&
              exists days: int :: LivesFor(days, r.days) && i.expiresAt == b.clock + days * DAY)
  {
    var days := ResolveExpiryDays(r.days);
    assert LivesFor(days, r.days);
    assert AlreadyMigrated(b, r.student) <==> Migrated(b, r.student);
    assert SlotTakenFolded(b, r.student, r.className) <==> Slotted(b, r.student, r.className);
    hide AlreadyMigrated, SlotTakenFolded, Migrated, Slotted, ResolveExpiryDays;
  }

  /** An invite is cancelled exactly while pending or disputed. */
  lemma RevocationOutcome(b: Book, id: nat)
    ensures var o := Perform(b, DoRevoke(id));
            (o.accepted <==> id < |b.invites| && b.invites[id].status in {InvitePending, InviteDisputed}) &&
            o.book == if o.accepted then b.(invites := b.invites[id := b.invites[id].(status := InviteRevoked)]) else b
  {
  }

  /** It is sent again exactly while the window is open, pending or expired, and its slot is still free. */
  lemma ReissueOutcome(b: Book, id: nat)
    ensures var o := Perform(b, DoReissue(id));
            (o.accepted <==>
              b.clock < b.windowCloses && id < |b.invites| && b.invites[id].status in {InvitePending, InviteExpired} &&
              forall i :: 0 <= i < |b.invites| && i != id &&
                          b.invites[i].status in {InvitePending, InviteDisputed, InviteClaimed} ==>
                b.invites[i].student != b.invites[id].student || b.invites[i].className != b.invites[id].className) &&
            (!o.accepted ==> o.book == b) &&
            (o.accepted ==>
              var again := b.invites[id].(status := InvitePending, token := b.minted, expiresAt := b.clock + 14 * DAY);
              o.book == b.(invites := b.invites[id := again], minted := b.minted + 1))
  {
  }

  /** A plan has no confirmed instalments exactly when they sum to nothing. */
  lemma NothingPaidIff(p: Plan)
    requires Valid(p)
    ensures InstallmentsPaid(p) == 0 <==> forall k :: 0 <= k < |p.rows| ==> !IsSettledInstallment(p.rows[k])
  {
    if k: nat :| k < |p.rows| && IsSettledInstallment(p.rows[k]) {
      RowWithinSums(p, k);
      assert ValidRow(p.rows[k]);
    } else {
      assert forall k :: 0 <= k < |p.rows| ==> InstallmentWeight(p.rows[k]) == 0;
      NoWeight(p.rows, InstallmentWeight);
    }
  }

  /**
   * A claim is undone exactly while its plan has no confirmed instalments: the invite is cancelled and the plan is
   * gone.
   */
  lemma ReleaseOutcome(b: Book, id: nat)
    requires Sound(b)
    ensures var o := Perform(b, DoRelease(id));
            (o.accepted <==>
              id < |b.invites| && b.invites[id].status == InviteClaimed && id in b.plans &&
              InstallmentsPaid(b.plans[id]) == 0) &&
            (!o.accepted ==> o.book == b) &&
            (o.accepted ==>
              o.book == b.(invites := b.invites[id := b.invites[id].(status := InviteRevoked)],
                           plans := b.plans - {id}))
  {
    assert Linked(b, id);
    if id in b.plans { NothingPaidIff(b.plans[id]); }
    hide InstallmentsPaid;
  }

  /**
   * An invite is claimed exactly by its own link, while pending and unexpired, for a student not migrated and a child
   * without a plan. Its plan opens from the invite's two figures.
   */
  lemma ClaimOutcome(b: Book, id: nat, token: nat, childHasPlan: bool)
    ensures var o := Perform(b, DoClaim(id, token, childHasPlan));
            (o.accepted <==>
              id < |b.invites| && b.invites[id].token == token && b.invites[id].status == InvitePending &&
              b.clock < b.invites[id].expiresAt && !Migrated(b, b.invites[id].student) && !childHasPlan) &&
            (!o.accepted ==> o.book == b) &&
            (o.accepted ==>
              var i := b.invites[id];
              o.book == b.(invites := b.invites[id := i.(status := InviteClaimed)], claims := b.claims + [id],
                           plans := b.plans[id := OpenMigrated(i.fee, i.alreadyPaid)]))
  {
    if id < |b.invites| {
      assert AlreadyMigrated(b, b.invites[id].student) <==> Migrated(b, b.invites[id].student);
    }
  }

  /** Its figures are contested exactly while it is pending and unexpired. */
  lemma ContestOutcome(b: Book, id: nat)
    ensures var o := Perform(b, DoContest(id));
            (o.accepted <==>
              id < |b.invites| && b.invites[id].status == InvitePending && b.clock < b.invites[id].expiresAt) &&
            o.book == if o.accepted then b.(invites := b.invites[id := b.invites[id].(status := InviteDisputed)]) else b
  {
  }

  /** Following a link finds the invite it was minted for, and retires it exactly if it is unclaimed and has lapsed. */
  lemma LinkOutcome(b: Book, id: nat, token: nat)
    ensures var o := Perform(b, DoFind(id, token));
            (o.accepted <==> id < |b.invites| && b.invites[id].token == token) &&
            o.book ==
              if o.accepted && b.invites[id].status in {InvitePending, InviteDisputed} &&
                 b.invites[id].expiresAt <= b.clock
              then b.(invites := b.invites[id := b.invites[id].(status := InviteExpired)])
              else b
  {
  }

  /** The figure is corrected exactly when the ledger corrects the plan, and then on both. */
  lemma CorrectionFollowsLedger(b: Book, id: nat, amount: int)
    ensures var o := Perform(b, DoAmend(id, amount));
            (o.accepted <==> id < |b.invites| && id in b.plans && Execute(b.plans[id], Amend(amount)).accepted) &&
            (!o.accepted ==> o.book == b) &&
            (o.accepted ==>
              o.book == b.(invites := b.invites[id := b.invites[id].(alreadyPaid := amount)],
                           plans := b.plans[id := Step(b.plans[id], Amend(amount))]))
  {
    hide AmendMigratedPayment;
  }

  /**
   * The ledger's other commands reach a claimed plan unchanged, and no other; a correction only comes through the
   * invite.
   */
  lemma LedgerOutcome(b: Book, id: nat, c: Command)
    ensures var o := Perform(b, DoLedger(id, c));
            (o.accepted <==> id in b.plans && !c.Amend?) &&
            (!o.accepted ==> o.book == b) &&
            (o.accepted ==> o.book == b.(plans := b.plans[id := Step(b.plans[id], c)]))
  {
    hide Step;
  }

  /**
   * The sweep's two halves: it remembers what had lapsed unclaimed, and later expires that whatever has become of it.
   */
  lemma SweepOutcome(b: Book, sweep: nat, id: nat)
    requires id < |b.invites|
    ensures var read := Perform(b, DoSelect).book;
            read == b.(sweeps := read.sweeps) && |read.sweeps| == |b.sweeps| + 1 &&
            (id in read.sweeps[|b.sweeps|] <==>
              b.invites[id].status in {InvitePending, InviteDisputed} && b.invites[id].expiresAt <= b.clock)
    ensures var o := Perform(b, DoRetire(sweep));
            (o.accepted <==> sweep < |b.sweeps|) && |o.book.invites| == |b.invites| && o.book.plans == b.plans &&
            o.book.invites[id] ==
              if sweep < |b.sweeps| && id in b.sweeps[sweep] then b.invites[id].(status := InviteExpired)
              else b.invites[id]
  {
  }

  /** The clock takes the later of its reading and the instant given, and nothing else moves with it. */
  lemma ClockOutcome(b: Book, now: int)
    ensures Tick(b, now).clock >= now && Tick(b, now).clock >= b.clock && Tick(b, now).clock in {now, b.clock}
    ensures Tick(b, now) == b.(clock := Tick(b, now).clock)
  {
  }
}
