/** What every history of the school's invites keeps. */
module InviteSafety {
  import opened Calendar
  import opened Invites
  import opened Ledger
  import opened MigratedPlans
  import opened Wrappers

  /** Plans the invite has ever opened. */
  function Claims(claims: seq<nat>, id: nat): nat {
    if claims == [] then 0
    else Claims(claims[..|claims| - 1], id) + if claims[|claims| - 1] == id then 1 else 0
  }

  lemma ClaimsAppend(claims: seq<nat>, last: nat, id: nat)
    ensures Claims(claims + [last], id) == Claims(claims, id) + if last == id then 1 else 0
  {
    assert (claims + [last])[..|claims|] == claims;
  }

  /** Claimed exactly while its plan exists, one plan in a lifetime, and the same figures on both. */
  predicate Linked(b: Book, id: nat) {
    if id >= |b.invites| then id !in b.plans && Claims(b.claims, id) == 0
    else
      var i := b.invites[id];
      && (id in b.plans <==> i.status == InviteClaimed)
      && Claims(b.claims, id) <= 1
      && (Claims(b.claims, id) == 1 ==> i.status == InviteClaimed || i.status == InviteRevoked)
      && (i.status == InviteClaimed ==> Claims(b.claims, id) == 1)
      && i.fee > 0 && 0 <= i.alreadyPaid <= i.fee && IsDate(i.planStart)
      && (id in b.plans ==>
           && IsMigratedPlan(b.plans[id])
           && b.plans[id].fee == i.fee
           && b.plans[id].firstPaymentPaid == i.alreadyPaid)
  }

  ghost predicate AllLinked(b: Book) { forall id: nat :: Linked(b, id) }

  /** One claim per student under any spelling, one slot holder per student and class. */
  predicate NoClash(a: Invite, b: Invite) {
    && !(a.status == InviteClaimed && b.status == InviteClaimed && a.student.folded == b.student.folded)
    && !(HoldsSlot(a.status) && HoldsSlot(b.status) && a.student == b.student && a.className == b.className)
  }

  predicate NoClashes(b: Book) {
    forall i, j :: 0 <= i < |b.invites| && 0 <= j < |b.invites| && i != j ==> NoClash(b.invites[i], b.invites[j])
  }

  /** An invite a sweep may still safely retire. */
  predicate Retirable(i: Invite, clock: int) {
    (IsExpirable(i.status) || i.status == InviteExpired) && i.expiresAt <= clock
  }

  predicate SweepSafe(b: Book, due: set<nat>) {
    forall id :: id in due ==> id < |b.invites| && Retirable(b.invites[id], b.clock)
  }

  predicate SweepsSafe(b: Book) {
    forall k :: 0 <= k < |b.sweeps| ==> SweepSafe(b, b.sweeps[k])
  }

  ghost predicate Sound(b: Book) { AllLinked(b) && NoClashes(b) && SweepsSafe(b) }

  /** No revocation or re-issue lands on an invite that some sweep has selected and not yet written. */
  predicate Undisturbed(b: Book, a: Action) {
    (a.DoRevoke? || a.DoReissue?) && Perform(b, a).accepted ==>
      forall k :: 0 <= k < |b.sweeps| ==> a.id !in b.sweeps[k]
  }

  /** How one invite's status may move in one action. */
  predicate StatusMoves(before: InviteStatus, after: InviteStatus, a: Action, id: nat) {
    && (before == InviteRevoked ==> after == InviteRevoked)
    && (before == InviteClaimed && after != InviteClaimed ==> a == DoRelease(id) && after == InviteRevoked)
    && (before != InviteClaimed && after == InviteClaimed ==> a.DoClaim? && a.id == id && before == InvitePending)
  }

  /** Statuses move lawfully, and an invite only expires once its window has closed. */
  ghost predicate Progresses(b: Book, q: Book, a: Action) {
    && |b.invites| <= |q.invites|
    && forall id :: 0 <= id < |b.invites| ==>
      && StatusMoves(b.invites[id].status, q.invites[id].status, a, id)
      && (q.invites[id].status == InviteExpired ==>
           b.invites[id].status == InviteExpired || HasExpired(b.invites[id], b.clock))
  }

  lemma IssueSound(b: Book, r: IssueRequest)
    requires Sound(b)
    ensures Sound(Issue(b, r).book) && Progresses(b, Issue(b, r).book, DoIssue(r))
  {
    var q := Issue(b, r).book;
    forall id: nat
      ensures Linked(q, id)
    {
      assert Linked(b, id);
    }
  }

  /** Writing one invite that was and stays unclaimed. */
  lemma WriteUnclaimed(b: Book, id: nat, i: Invite)
    requires Sound(b) && id < |b.invites|
    requires b.invites[id].status != InviteClaimed && i.status != InviteClaimed
    requires i.student == b.invites[id].student && i.className == b.invites[id].className
    requires i.fee == b.invites[id].fee && i.alreadyPaid == b.invites[id].alreadyPaid &&
      i.planStart == b.invites[id].planStart
    requires Claims(b.claims, id) == 1 ==> i.status == InviteRevoked
    requires HoldsSlot(i.status) && !HoldsSlot(b.invites[id].status) ==> !SlotTaken(b, id, i.student, i.className)
    requires (forall k :: 0 <= k < |b.sweeps| ==> id !in b.sweeps[k]) || Retirable(i, b.clock)
    ensures Sound(SetInvite(b, id, i))
  {
    var q := SetInvite(b, id, i);
    forall other: nat
      ensures Linked(q, other)
    {
      assert Linked(b, other);
    }
    assert SweepsSafe(q) by {
      forall k | 0 <= k < |b.sweeps|
        ensures SweepSafe(q, q.sweeps[k])
      {
        assert SweepSafe(b, b.sweeps[k]);
      }
    }
  }

  lemma MintingIsSound(b: Book)
    requires Sound(b)
    ensures Sound(b.(minted := b.minted + 1))
  {
    var q := b.(minted := b.minted + 1);
    forall id: nat
      ensures Linked(q, id)
    {
      assert Linked(b, id);
    }
    forall k | 0 <= k < |q.sweeps|
      ensures SweepSafe(q, q.sweeps[k])
    {
      assert SweepSafe(b, b.sweeps[k]);
    }
  }

  lemma RevokeSound(b: Book, id: nat)
    requires Sound(b) && Undisturbed(b, DoRevoke(id))
    ensures Sound(Revoke(b, id).book) && Progresses(b, Revoke(b, id).book, DoRevoke(id))
  {
    if Revoke(b, id).accepted {
      assert Linked(b, id);
      WriteUnclaimed(b, id, b.invites[id].(status := InviteRevoked));
    }
  }

  lemma ReissueSound(b: Book, id: nat)
    requires Sound(b) && Undisturbed(b, DoReissue(id))
    ensures Sound(Reissue(b, id).book) && Progresses(b, Reissue(b, id).book, DoReissue(id))
  {
    if Reissue(b, id).accepted {
      assert Linked(b, id);
      var again := b.invites[id].(status := InvitePending, token := b.minted, expiresAt := ExpiryFrom(b.clock, None));
      WriteUnclaimed(b, id, again);
      MintingIsSound(SetInvite(b, id, again));
    }
  }

  lemma FindSound(b: Book, id: nat, token: nat)
    requires Sound(b)
    ensures Sound(FindByToken(b, id, token).book) && Progresses(b, FindByToken(b, id, token).book, DoFind(id, token))
  {
    if id < |b.invites| && HasExpired(b.invites[id], b.clock) {
      assert Linked(b, id);
      WriteUnclaimed(b, id, b.invites[id].(status := InviteExpired));
    }
  }

  /** An invite still inside its window is in no sweep's selection. */
  lemma UnexpiredIsUnselected(b: Book, id: nat)
    requires Sound(b) && id < |b.invites| &&
      (b.invites[id].expiresAt > b.clock || b.invites[id].status == InviteClaimed)
    ensures forall k :: 0 <= k < |b.sweeps| ==> id !in b.sweeps[k]
  {
    forall k | 0 <= k < |b.sweeps|
      ensures id !in b.sweeps[k]
    {
      assert SweepSafe(b, b.sweeps[k]);
    }
  }

  lemma ContestSound(b: Book, id: nat)
    requires Sound(b)
    ensures Sound(Contest(b, id).book) && Progresses(b, Contest(b, id).book, DoContest(id))
  {
    if Contest(b, id).accepted {
      assert Linked(b, id);
      UnexpiredIsUnselected(b, id);
      WriteUnclaimed(b, id, b.invites[id].(status := InviteDisputed));
    }
  }

  lemma ClaimLinked(b: Book, id: nat, token: nat, childHasPlan: bool)
    requires AllLinked(b) && Claim(b, id, token, childHasPlan).accepted
    ensures AllLinked(Claim(b, id, token, childHasPlan).book)
    ensures Progresses(b, Claim(b, id, token, childHasPlan).book, DoClaim(id, token, childHasPlan))
  {
    var q := Claim(b, id, token, childHasPlan).book;
    assert Linked(b, id);
    OpeningIsMigrated(b.invites[id].fee, b.invites[id].alreadyPaid);
    hide IsMigratedPlan, OpenMigrated, AlreadyMigrated;
    forall other: nat
      ensures Linked(q, other)
    {
      assert Linked(b, other);
      ClaimsAppend(b.claims, id, other);
    }
  }

  lemma ClaimClashesNothing(b: Book, id: nat, token: nat, childHasPlan: bool)
    requires NoClashes(b) && Claim(b, id, token, childHasPlan).accepted
    ensures NoClashes(Claim(b, id, token, childHasPlan).book)
  {
    hide OpenMigrated;
  }

  lemma ClaimSweepsSafe(b: Book, id: nat, token: nat, childHasPlan: bool)
    requires Sound(b) && Claim(b, id, token, childHasPlan).accepted
    ensures SweepsSafe(Claim(b, id, token, childHasPlan).book)
  {
    UnexpiredIsUnselected(b, id);
    hide OpenMigrated, AlreadyMigrated, AllLinked, NoClashes;
    var q := Claim(b, id, token, childHasPlan).book;
    forall k | 0 <= k < |q.sweeps|
      ensures SweepSafe(q, q.sweeps[k])
    {
      assert SweepSafe(b, b.sweeps[k]);
    }
  }

  lemma ClaimSound(b: Book, id: nat, token: nat, childHasPlan: bool)
    requires Sound(b)
    ensures Sound(Claim(b, id, token, childHasPlan).book)
    ensures Progresses(b, Claim(b, id, token, childHasPlan).book, DoClaim(id, token, childHasPlan))
  {
    if Claim(b, id, token, childHasPlan).accepted {
      ClaimLinked(b, id, token, childHasPlan);
      ClaimClashesNothing(b, id, token, childHasPlan);
      ClaimSweepsSafe(b, id, token, childHasPlan);
      hide AllLinked, NoClashes, SweepsSafe, Progresses, Claim;
    }
  }

  lemma ReleaseSound(b: Book, id: nat)
    requires Sound(b)
    ensures Sound(Release(b, id).book) && Progresses(b, Release(b, id).book, DoRelease(id))
  {
    if Release(b, id).accepted {
      var q := Release(b, id).book;
      forall other: nat
        ensures Linked(q, other)
      {
        assert Linked(b, other);
      }
      UnexpiredIsUnselected(b, id);
      forall k | 0 <= k < |q.sweeps|
        ensures SweepSafe(q, q.sweeps[k])
      {
        assert SweepSafe(b, b.sweeps[k]);
      }
    }
  }

  lemma AmendSound(b: Book, id: nat, amount: int)
    requires Sound(b)
    ensures Sound(AmendFigure(b, id, amount).book) &&
      Progresses(b, AmendFigure(b, id, amount).book, DoAmend(id, amount))
  {
    if AmendFigure(b, id, amount).accepted {
      var q := AmendFigure(b, id, amount).book;
      assert Linked(b, id);
      StepStaysMigrated(b.plans[id], Amend(amount));
      assert q.plans[id] == Step(b.plans[id], Amend(amount));
      hide IsMigratedPlan, AmendMigratedPayment, Step;
      forall other: nat
        ensures Linked(q, other)
      {
        assert Linked(b, other);
        AmendedWithinFee(b.plans[id], amount);
      }
      forall k | 0 <= k < |q.sweeps|
        ensures SweepSafe(q, q.sweeps[k])
      {
        assert SweepSafe(b, b.sweeps[k]);
      }
    }
  }

  lemma AmendedWithinFee(p: Plan, amount: int)
    ensures AmendMigratedPayment(p, amount).accepted ==> 0 <= amount <= p.fee
  {
  }

  lemma OnPlanSound(b: Book, id: nat, c: Command)
    requires Sound(b)
    ensures Sound(OnPlan(b, id, c).book) && Progresses(b, OnPlan(b, id, c).book, DoLedger(id, c))
  {
    if OnPlan(b, id, c).accepted {
      var q := OnPlan(b, id, c).book;
      assert Linked(b, id);
      StepStaysMigrated(b.plans[id], c);
      hide IsMigratedPlan, Step;
      forall other: nat
        ensures Linked(q, other)
      {
        assert Linked(b, other);
      }
      forall k | 0 <= k < |q.sweeps|
        ensures SweepSafe(q, q.sweeps[k])
      {
        assert SweepSafe(b, b.sweeps[k]);
      }
    }
  }

  lemma SelectSound(b: Book)
    requires Sound(b)
    ensures Sound(SelectStale(b)) && Progresses(b, SelectStale(b), DoSelect)
  {
    var q := SelectStale(b);
    forall id: nat
      ensures Linked(q, id)
    {
      assert Linked(b, id);
    }
    forall k | 0 <= k < |q.sweeps|
      ensures SweepSafe(q, q.sweeps[k])
    {
      if k < |b.sweeps| { assert SweepSafe(b, b.sweeps[k]); }
    }
  }

  lemma RetireLinked(b: Book, sweep: nat)
    requires Sound(b) && sweep < |b.sweeps|
    ensures AllLinked(RetireSelected(b, sweep).book) && Progresses(b, RetireSelected(b, sweep).book, DoRetire(sweep))
  {
    hide NoClashes, IsMigratedPlan;
    var q := RetireSelected(b, sweep).book;
    assert SweepSafe(b, b.sweeps[sweep]);
    forall id: nat
      ensures Linked(q, id)
    {
      assert Linked(b, id);
    }
  }

  lemma RetireClashesNothing(b: Book, sweep: nat)
    requires NoClashes(b) && sweep < |b.sweeps|
    ensures NoClashes(RetireSelected(b, sweep).book)
  {
  }

  lemma RetireSweepsSafe(b: Book, sweep: nat)
    requires SweepsSafe(b) && sweep < |b.sweeps|
    ensures SweepsSafe(RetireSelected(b, sweep).book)
  {
    var q := RetireSelected(b, sweep).book;
    forall k | 0 <= k < |q.sweeps|
      ensures SweepSafe(q, q.sweeps[k])
    {
      assert q.sweeps[k] == b.sweeps[if k < sweep then k else k + 1];
      assert SweepSafe(b, q.sweeps[k]);
    }
  }

  lemma RetireSound(b: Book, sweep: nat)
    requires Sound(b)
    ensures Sound(RetireSelected(b, sweep).book) && Progresses(b, RetireSelected(b, sweep).book, DoRetire(sweep))
  {
    if sweep < |b.sweeps| {
      RetireLinked(b, sweep);
      RetireClashesNothing(b, sweep);
      RetireSweepsSafe(b, sweep);
      hide AllLinked, NoClashes, SweepsSafe, Progresses, RetireSelected;
    }
  }

  lemma TickSound(b: Book, now: int)
    requires Sound(b)
    ensures Sound(Tick(b, now))
  {
    var q := Tick(b, now);
    forall id: nat
      ensures Linked(q, id)
    {
      assert Linked(b, id);
    }
    forall k | 0 <= k < |q.sweeps|
      ensures SweepSafe(q, q.sweeps[k])
    {
      assert SweepSafe(b, b.sweeps[k]);
    }
  }

  lemma PerformSound(b: Book, a: Action)
    requires Sound(b) && Undisturbed(b, a)
    ensures Sound(Perform(b, a).book) && Progresses(b, Perform(b, a).book, a)
  {
    hide Sound, Progresses, Issue, Revoke, Reissue, AmendFigure, Release, FindByToken, Claim, Contest, SelectStale,
         RetireSelected, OnPlan, Undisturbed;
    match a
    case DoIssue(request) => IssueSound(b, request);
    case DoRevoke(id) => RevokeSound(b, id);
    case DoReissue(id) => ReissueSound(b, id);
    case DoAmend(id, amount) => AmendSound(b, id, amount);
    case DoRelease(id) => ReleaseSound(b, id);
    case DoFind(id, token) => FindSound(b, id, token);
    case DoClaim(id, token, childHasPlan) => ClaimSound(b, id, token, childHasPlan);
    case DoContest(id) => ContestSound(b, id);
    case DoSelect => SelectSound(b);
    case DoRetire(sweep) => RetireSound(b, sweep);
    case DoLedger(id, command) => OnPlanSound(b, id, command);
  }

  ghost predicate UndisturbedHistory(b: Book, events: seq<Event>)
    decreases |events|
  {
    events == [] ||
    (Undisturbed(Tick(b, events[0].now), events[0].action) && UndisturbedHistory(Happen(b, events[0]), events[1..]))
  }

  predicate HasRelease(events: seq<Event>, id: nat) {
    exists k :: 0 <= k < |events| && events[k].action == DoRelease(id)
  }

  /** How one invite's status may have moved over a whole history. */
  predicate LifeMoves(before: InviteStatus, after: InviteStatus, events: seq<Event>, id: nat) {
    && (before == InviteRevoked ==> after == InviteRevoked)
    && (before == InviteClaimed && after != InviteClaimed ==> HasRelease(events, id) && after == InviteRevoked)
  }

  /** What one invite owes the rest of the book, spelt out. */
  lemma ClaimedExactlyWhilePlanned(b: Book)
    requires Sound(b)
    ensures forall id: nat ::
      (id in b.plans <==> id < |b.invites| && b.invites[id].status == InviteClaimed) && Claims(b.claims, id) <= 1 &&
      (id in b.plans ==>
          b.plans[id].fee == b.invites[id].fee && b.plans[id].firstPaymentPaid == b.invites[id].alreadyPaid)
  {
    forall id: nat
      ensures (id in b.plans <==> id < |b.invites| && b.invites[id].status == InviteClaimed) &&
        Claims(b.claims, id) <= 1 &&
        (id in b.plans ==>
          b.plans[id].fee == b.invites[id].fee && b.plans[id].firstPaymentPaid == b.invites[id].alreadyPaid)
    {
      assert Linked(b, id);
    }
  }

  /**
   * Over any history: an invite is claimed exactly while its plan exists and opens at most one plan in its life; the
   * figures agree; a student is migrated once at a time; a revoked invite stays revoked; only a release ends a claim.
   */
  lemma {:induction false} HistorySound(b: Book, events: seq<Event>)
    requires Sound(b) && UndisturbedHistory(b, events)
    ensures var end := History(b, events);
            Sound(end) && |b.invites| <= |end.invites| &&
            (forall id: nat ::
              (id in end.plans <==> id < |end.invites| && end.invites[id].status == InviteClaimed) &&
                Claims(end.claims, id) <= 1) &&
            forall id :: 0 <= id < |b.invites| ==> LifeMoves(b.invites[id].status, end.invites[id].status, events, id)
    decreases |events|
  {
    if events != [] {
      TickSound(b, events[0].now);
      PerformSound(Tick(b, events[0].now), events[0].action);
      hide Sound;
      var next, rest := Happen(b, events[0]), events[1..];
      HistorySound(next, rest);
      forall id | 0 <= id < |b.invites|
        ensures LifeMoves(b.invites[id].status, History(b, events).invites[id].status, events, id)
      {
        assert StatusMoves(b.invites[id].status, next.invites[id].status, events[0].action, id);
        assert LifeMoves(next.invites[id].status, History(next, rest).invites[id].status, rest, id);
        if HasRelease(rest, id) {
          var k :| 0 <= k < |rest| && rest[k].action == DoRelease(id);
          assert events[k + 1].action == DoRelease(id);
        }
      }
    } else {
      ClaimedExactlyWhilePlanned(b);
    }
  }

  /** A school with no invites yet. */
  lemma EmptyBookSound(clock: int, windowCloses: int)
    ensures Sound(Book([], map[], [], 0, clock, windowCloses, []))
  {
  }

  // ------------------------------------------------------------------ the unguarded write

  /**
   * The sweep's write keeps the protocol, and retires only what has lapsed, exactly when nothing it selected has since
   * been claimed, revoked, or sent again with its new window still open.
   */
  lemma RetireRespectsIff(b: Book, sweep: nat)
    requires AllLinked(b) && sweep < |b.sweeps| && (forall id :: id in b.sweeps[sweep] ==> id < |b.invites|)
    ensures (AllLinked(RetireSelected(b, sweep).book) && Progresses(b, RetireSelected(b, sweep).book, DoRetire(sweep)))
       <==> forall id :: id in b.sweeps[sweep] ==>
         b.invites[id].status == InviteExpired || HasExpired(b.invites[id], b.clock)
  {
    var q := RetireSelected(b, sweep).book;
    if forall id :: id in b.sweeps[sweep] ==>
         b.invites[id].status == InviteExpired || HasExpired(b.invites[id], b.clock) {
      forall id: nat
        ensures Linked(q, id)
      {
        assert Linked(b, id);
      }
    } else {
      var id :| id in b.sweeps[sweep] && b.invites[id].status != InviteExpired && !HasExpired(b.invites[id], b.clock);
      assert q.invites[id].status == InviteExpired;
    }
  }

  /** A school whose one invite, so far unanswered, has lapsed. */
  predicate IsLapsed(i: Invite) {
    i.status == InvitePending && i.expiresAt <= 0 && i.fee > 0 && 0 <= i.alreadyPaid <= i.fee && IsDate(i.planStart)
  }

  function LapsedBook(i: Invite): Book { Book([i], map[], [], 1, 0, 1, []) }

  lemma SelectsLapsed(i: Invite)
    requires IsLapsed(i)
    ensures Sound(LapsedBook(i)) && SelectStale(LapsedBook(i)) == LapsedBook(i).(sweeps := [{0}])
  {
    assert Due(LapsedBook(i)) == {0};
  }

  /** The condition bites: revoke between the sweep's two halves, and a cancelled invite can be sent out again. */
  lemma SweepRevivesRevoked(i: Invite)
    requires IsLapsed(i)
    ensures var revoked := Revoke(SelectStale(LapsedBook(i)), 0).book;
            var again := Reissue(RetireSelected(revoked, 0).book, 0).book;
            Sound(LapsedBook(i)) && revoked.invites[0].status == InviteRevoked &&
              again.invites[0].status == InvitePending
  {
    SelectsLapsed(i);
    var revoked := Revoke(SelectStale(LapsedBook(i)), 0).book;
    assert revoked.invites == [i.(status := InviteRevoked)] && revoked.sweeps == [{0}];
    var retired := RetireSelected(revoked, 0).book;
    assert retired.invites[0] == i.(status := InviteExpired);
    assert !SlotTaken(retired, 0, i.student, i.className);
  }

  /** And so does sending it again in between: the new link dies with its window open, and its claim is refused. */
  lemma SweepExpiresReissued(i: Invite)
    requires IsLapsed(i)
    ensures var again := Reissue(SelectStale(LapsedBook(i)), 0).book;
            var retired := RetireSelected(again, 0).book;
            again.invites[0].status == InvitePending && Claim(again, 0, 1, false).accepted &&
            retired.invites[0].status == InviteExpired && retired.clock < retired.invites[0].expiresAt &&
            !Claim(retired, 0, 1, false).accepted
  {
    SelectsLapsed(i);
    var selected := SelectStale(LapsedBook(i));
    assert !SlotTaken(selected, 0, i.student, i.className);
    var again := Reissue(selected, 0).book;
    assert again.sweeps == [{0}] && |again.invites| == 1;
    assert !AlreadyMigrated(again, again.invites[0].student);
  }
}
