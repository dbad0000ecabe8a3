/** The invites as the object the routes call: conditional writes on rows, undone where a transaction fails halfway. */
module InviteService {
  import opened Calendar
  import opened Invites
  import opened InviteSafety
  import opened Ledger
  import opened Wrappers

  class InviteBook {
    var invites: seq<Invite>
    var plans: map<nat, Plan>
    var claims: seq<nat>
    var minted: nat
    var clock: int
    var windowCloses: int
    var sweeps: seq<set<nat>>

    function State(): Book
      reads this
    {
      Book(invites, plans, claims, minted, clock, windowCloses, sweeps)
    }

    constructor (now: int, windowCloses: int)
      ensures State() == Book([], map[], [], 0, now, windowCloses, [])
    {
      invites, plans, claims, minted, sweeps := [], map[], [], 0, [];
      clock, this.windowCloses := now, windowCloses;
    }

    method AdvanceTo(now: int)
      modifies this`clock
      ensures State() == Tick(old(State()), now)
    {
      if now > clock {
        clock := now;
      }
    }

    /** The conditional write every transition goes through: it moves a row only out of the statuses named. */
    method MoveStatus(id: nat, from: set<InviteStatus>, to: InviteStatus) returns (won: bool)
      modifies this`invites
      ensures won <==> id < |old(invites)| && old(invites)[id].status in from
      ensures invites == if won then old(invites)[id := old(invites)[id].(status := to)] else old(invites)
    {
      won := id < |invites| && invites[id].status in from;
      if won {
        invites := invites[id := invites[id].(status := to)];
      }
    }

    method Create(now: int, request: IssueRequest) returns (accepted: bool)
      modifies this
      ensures BookOutcome(State(), accepted) == Issue(Tick(old(State()), now), request)
    {
      AdvanceTo(now);
      if windowCloses <= clock || !request.phoneIsValid {
        return false;
      }
      if ValidatePlanStart(request.planStart, DateAt(clock)).Some? || AlreadyMigrated(State(), request.student) {
        return false;
      }
      if request.publishedFee.None? || request.publishedFee.value <= 0 {
        return false;
      }
      var totalSchoolFee := request.publishedFee.value;
      if request.alreadyPaid < 0 || request.alreadyPaid > totalSchoolFee {
        return false;
      }
      if SlotTakenFolded(State(), request.student, request.className) {
        return false;
      }
      var token := minted;
      minted := minted + 1;
      var expiresAt := ExpiryFrom(clock, request.days);
      var invite := Invite(request.student, request.className, totalSchoolFee, request.alreadyPaid,
                           request.frequency, request.planStart, InvitePending, expiresAt, token);
      invites := invites + [invite];
      accepted := true;
    }

    method Revoke(id: nat) returns (accepted: bool)
      modifies this
      ensures BookOutcome(State(), accepted) == Invites.Revoke(old(State()), id)
    {
      accepted := MoveStatus(id, {InvitePending, InviteDisputed}, InviteRevoked);
    }

    method Reissue(now: int, id: nat) returns (accepted: bool)
      modifies this
      ensures BookOutcome(State(), accepted) == Invites.Reissue(Tick(old(State()), now), id)
    {
      AdvanceTo(now);
      if windowCloses <= clock || id >= |invites| {
        return false;
      }
      if SlotTaken(State(), id, invites[id].student, invites[id].className) {
        return false;
      }
      accepted := MoveStatus(id, {InvitePending, InviteExpired}, InvitePending);
      if accepted {
        invites := invites[id := invites[id].(token := minted, expiresAt := ExpiryFrom(clock, None))];
        minted := minted + 1;
      }
    }

    /** The ledger decides; an accepted correction is then copied onto the invite. */
    method Amend(id: nat, amount: int) returns (accepted: bool)
      modifies this
      ensures BookOutcome(State(), accepted) == AmendFigure(old(State()), id, amount)
    {
      hide AmendMigratedPayment;
      if id >= |invites| || id !in plans {
        return false;
      }
      var outcome := AmendMigratedPayment(plans[id], amount);
      if !outcome.accepted {
        return false;
      }
      plans := plans[id := outcome.plan];
      invites := invites[id := invites[id].(alreadyPaid := amount)];
      accepted := true;
    }

    /** The invite is revoked first; a plan that holds real instalments then undoes the whole transaction. */
    method Release(id: nat) returns (accepted: bool)
      modifies this
      ensures BookOutcome(State(), accepted) == Invites.Release(old(State()), id)
    {
      if id >= |invites| || id !in plans {
        return false;
      }
      var before := invites;
      var won := MoveStatus(id, {InviteClaimed}, InviteRevoked);
      if !won {
        return false;
      }
      if exists k :: 0 <= k < |plans[id].rows| && IsSettledInstallment(plans[id].rows[k]) {
        invites := before;
        return false;
      }
      plans := plans - {id};
      accepted := true;
    }

    method FindByToken(now: int, id: nat, token: nat) returns (found: bool)
      modifies this
      ensures BookOutcome(State(), found) == Invites.FindByToken(Tick(old(State()), now), id, token)
    {
      AdvanceTo(now);
      if id >= |invites| || invites[id].token != token {
        return false;
      }
      if HasExpired(invites[id], clock) {
        var _ := MoveStatus(id, {InvitePending, InviteDisputed}, InviteExpired);
      }
      found := true;
    }

    /** Winning the write earns the right to build the plan; a child who has one already undoes it all. */
    method Claim(now: int, id: nat, token: nat, childHasPlan: bool) returns (accepted: bool)
      modifies this
      ensures BookOutcome(State(), accepted) == Invites.Claim(Tick(old(State()), now), id, token, childHasPlan)
    {
      AdvanceTo(now);
      if id >= |invites| || AlreadyMigrated(State(), invites[id].student) {
        return false;
      }
      if invites[id].token != token || invites[id].expiresAt <= clock {
        return false;
      }
      var before := invites;
      var won := MoveStatus(id, {InvitePending}, InviteClaimed);
      if !won {
        return false;
      }
      if childHasPlan {
        invites := before;
        return false;
      }
      plans := plans[id := OpenMigrated(invites[id].fee, invites[id].alreadyPaid)];
      claims := claims + [id];
      accepted := true;
    }

    method Dispute(now: int, id: nat) returns (accepted: bool)
      modifies this
      ensures BookOutcome(State(), accepted) == Contest(Tick(old(State()), now), id)
    {
      AdvanceTo(now);
      if id >= |invites| || invites[id].expiresAt <= clock {
        return false;
      }
      accepted := MoveStatus(id, {InvitePending}, InviteDisputed);
    }

    /** The expiry sweep's read, which remembers the lapsed invites it saw and touches none. */
    method SelectDue(now: int)
      modifies this`clock, this`sweeps
      ensures State() == SelectStale(Tick(old(State()), now))
      ensures |sweeps| == |old(sweeps)| + 1 && sweeps[..|old(sweeps)|] == old(sweeps)
      ensures forall id :: id in sweeps[|old(sweeps)|] <==> 0 <= id < |invites| && HasExpired(invites[id], clock)
      ensures Sound(old(State())) ==> Sound(State())
    {
      AdvanceTo(now);
      ghost var ticked := State();
      if Sound(old(State())) {
        TickSound(old(State()), now);
        SelectSound(ticked);
      }
      sweeps := sweeps + [Due(State())];
    }

    /**
     * The expiry sweep's write, some time later, on whatever was selected then: exactly those invites become expired,
     * plans and claims stand, and a sound book stays sound.
     */
    method ExpireSelected(sweep: nat) returns (accepted: bool)
      modifies this`invites, this`sweeps
      ensures BookOutcome(State(), accepted) == RetireSelected(old(State()), sweep)
      ensures accepted ==> |invites| == |old(invites)| && forall id :: 0 <= id < |invites| ==>
        if id in old(sweeps)[sweep] then invites[id].status == InviteExpired else invites[id] == old(invites)[id]
      ensures Sound(old(State())) ==> Sound(State())
    {
      if Sound(old(State())) {
        RetireSound(old(State()), sweep);
      }
      if sweep >= |sweeps| {
        return false;
      }
      invites := ExpireAll(invites, sweeps[sweep]);
      sweeps := sweeps[..sweep] + sweeps[sweep + 1..];
      accepted := true;
    }
  }
}
