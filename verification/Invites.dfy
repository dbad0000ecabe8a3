/**
 * The life of enrollment invites at one school: issued, re-sent, contested, claimed into a plan, released, expired.
 *
 * Every write is conditional on the row it meets. The expiry sweep reads and writes in two separate steps.
 */
module Invites {
  import opened Calendar
  import opened DueDates
  import opened Ledger
  import opened Money
  import opened Wrappers

  const DEFAULT_EXPIRY_DAYS := 14
  const MIN_EXPIRY_DAYS := 1
  const MAX_EXPIRY_DAYS := 30

  datatype InviteStatus = InvitePending | InviteDisputed | InviteClaimed | InviteRevoked | InviteExpired

  /** A name as typed: what it folds to when case is ignored, and its spelling. */
  datatype Name = Name(folded: nat, spelling: nat)

  datatype Invite = Invite(
    student: Name,
    className: Name,
    fee: int,
    alreadyPaid: int,
    frequency: Frequency,
    planStart: Date,
    status: InviteStatus,
    expiresAt: int,
    token: nat)

  /**
   * The school's invites, the plans claimed from them by invite, the audit of claims in order, how many tokens have
   * been minted, the latest clock reading, and the selections of expiry sweeps that have read but not yet written.
   */
  datatype Book = Book(
    invites: seq<Invite>,
    plans: map<nat, Plan>,
    claims: seq<nat>,
    minted: nat,
    clock: int,
    windowCloses: int,
    sweeps: seq<set<nat>>)

  datatype BookOutcome = BookOutcome(book: Book, accepted: bool)

  function Declined(b: Book): BookOutcome { BookOutcome(b, false) }

  predicate HoldsSlot(status: InviteStatus) {
    status == InvitePending || status == InviteDisputed || status == InviteClaimed
  }

  predicate IsExpirable(status: InviteStatus) { status == InvitePending || status == InviteDisputed }

  predicate HasExpired(i: Invite, now: int) { IsExpirable(i.status) && i.expiresAt <= now }

  function ResolveExpiryDays(requested: Option<int>): (days: int)
    ensures MIN_EXPIRY_DAYS <= days <= MAX_EXPIRY_DAYS
  {
    if requested.None? then DEFAULT_EXPIRY_DAYS
    else Max(MIN_EXPIRY_DAYS, Min(requested.value, MAX_EXPIRY_DAYS))
  }

  function ExpiryFrom(now: int, requested: Option<int>): int { now + ResolveExpiryDays(requested) * DAY_MS }

  const MAX_BACKDATE := 36 * 60 * 60 * 1000
  const MAX_FUTURE_DAYS := 365

  datatype StartError = StartInvalid | StartInPast | StartTooFarAhead

  /** Why a school may not start a plan then, or nothing. Only an invite's issue asks. */
  function ValidatePlanStart(start: Date, now: Date): Option<StartError> {
    if !IsDate(start) then Some(StartInvalid)
    else if Time(start) < Time(now) - MAX_BACKDATE then Some(StartInPast)
    else if Time(start) > Time(now) + MAX_FUTURE_DAYS * DAY_MS then Some(StartTooFarAhead)
    else None
  }

  function SetInvite(b: Book, id: nat, i: Invite): Book
    requires id < |b.invites|
  {
    b.(invites := b.invites[id := i])
  }

  function SetStatus(b: Book, id: nat, status: InviteStatus): Book
    requires id < |b.invites|
  {
    SetInvite(b, id, b.invites[id].(status := status))
  }

  // ------------------------------------------------------------------ the unique indexes

  /** Some claimed invite is for the same student, however the name was typed. */
  predicate AlreadyMigrated(b: Book, student: Name) {
    exists i :: 0 <= i < |b.invites| && b.invites[i].status == InviteClaimed &&
      b.invites[i].student.folded == student.folded
  }

  /** Another invite holds the slot of exactly this student in exactly this class. */
  predicate SlotTaken(b: Book, id: nat, student: Name, className: Name) {
    exists i :: 0 <= i < |b.invites| && i != id && HoldsSlot(b.invites[i].status)
      && b.invites[i].student == student && b.invites[i].className == className
  }

  /** The wider check made before issuing: the slot is held under any spelling. */
  predicate SlotTakenFolded(b: Book, student: Name, className: Name) {
    exists i :: 0 <= i < |b.invites| && HoldsSlot(b.invites[i].status)
      && b.invites[i].student.folded == student.folded && b.invites[i].className.folded == className.folded
  }

  // ------------------------------------------------------------------ the school's side

  datatype IssueRequest = IssueRequest(
    student: Name,
    className: Name,
    /** The parent's number could be put in canonical form. */
    phoneIsValid: bool,
    planStart: Date,
    frequency: Frequency,
    publishedFee: Option<int>,
    alreadyPaid: int,
    days: Option<int>)

  function Issue(b: Book, r: IssueRequest): BookOutcome {
    if b.windowCloses <= b.clock
       || !r.phoneIsValid
       || ValidatePlanStart(r.planStart, DateAt(b.clock)).Some?
       || AlreadyMigrated(b, r.student)
       || r.publishedFee.None? || r.publishedFee.value <= 0
       || !(0 <= r.alreadyPaid <= r.publishedFee.value)
       || SlotTakenFolded(b, r.student, r.className) then Declined(b)
    else
      var invite := Invite(r.student, r.className, r.publishedFee.value, r.alreadyPaid, r.frequency, r.planStart,
                           InvitePending, ExpiryFrom(b.clock, r.days), b.minted);
      BookOutcome(b.(invites := b.invites + [invite], minted := b.minted + 1), true)
  }

  function Revoke(b: Book, id: nat): BookOutcome {
    if id < |b.invites| && IsExpirable(b.invites[id].status) then BookOutcome(SetStatus(b, id, InviteRevoked), true)
    else Declined(b)
  }

  /** Send again: a fresh token kills the old link. An expired invite must win its slot back. */
  function Reissue(b: Book, id: nat): BookOutcome {
    if b.windowCloses > b.clock && id < |b.invites|
       && (b.invites[id].status == InvitePending || b.invites[id].status == InviteExpired)
       && !SlotTaken(b, id, b.invites[id].student, b.invites[id].className) then
      var again := b.invites[id].(status := InvitePending, token := b.minted, expiresAt := ExpiryFrom(b.clock, None));
      BookOutcome(SetInvite(b, id, again).(minted := b.minted + 1), true)
    else Declined(b)
  }

  /** Correct the figure on a claimed plan; the invite repeats whatever the ledger accepts. */
  function AmendFigure(b: Book, id: nat, amount: int): BookOutcome {
    if id < |b.invites| && id in b.plans && AmendMigratedPayment(b.plans[id], amount).accepted then
      var amended := SetInvite(b, id, b.invites[id].(alreadyPaid := amount));
      BookOutcome(amended.(plans := b.plans[id := AmendMigratedPayment(b.plans[id], amount).plan]), true)
    else Declined(b)
  }

  /** Remove a plan the wrong person claimed, unless real instalments have been paid into it. */
  function Release(b: Book, id: nat): BookOutcome {
    if id < |b.invites| && id in b.plans && b.invites[id].status == InviteClaimed
       && forall k :: 0 <= k < |b.plans[id].rows| ==> !IsSettledInstallment(b.plans[id].rows[k]) then
      BookOutcome(SetStatus(b, id, InviteRevoked).(plans := b.plans - {id}), true)
    else Declined(b)
  }

  // ------------------------------------------------------------------ the parent's side

  /** Following a link retires the invite if its window has closed. */
  function FindByToken(b: Book, id: nat, token: nat): BookOutcome {
    if id < |b.invites| && b.invites[id].token == token then
      BookOutcome(if HasExpired(b.invites[id], b.clock) then SetStatus(b, id, InviteExpired) else b, true)
    else Declined(b)
  }

  /**
   * The claim's transaction. `childHasPlan`: the claimant's child already has a plan, so a unique index refuses the
   * write.
   */
  function Claim(b: Book, id: nat, token: nat, childHasPlan: bool): BookOutcome {
    if id < |b.invites| && b.invites[id].token == token && b.invites[id].status == InvitePending
       && b.invites[id].expiresAt > b.clock && !AlreadyMigrated(b, b.invites[id].student) && !childHasPlan then
      var i := b.invites[id];
      BookOutcome(SetStatus(b, id, InviteClaimed)
                    .(plans := b.plans[id := OpenMigrated(i.fee, i.alreadyPaid)], claims := b.claims + [id]), true)
    else Declined(b)
  }

  /** The dispute's write asks for no token: its caller looked the invite up by link beforehand. */
  function Contest(b: Book, id: nat): BookOutcome {
    if id < |b.invites| && b.invites[id].status == InvitePending && b.invites[id].expiresAt > b.clock then
      BookOutcome(SetStatus(b, id, InviteDisputed), true)
    else Declined(b)
  }

  // ------------------------------------------------------------------ upkeep

  function Due(b: Book): set<nat> {
    set id: nat | id < |b.invites| && HasExpired(b.invites[id], b.clock)
  }

  /** The sweep's read. */
  function SelectStale(b: Book): Book { b.(sweeps := b.sweeps + [Due(b)]) }

  function ExpireAll(invites: seq<Invite>, due: set<nat>): (r: seq<Invite>)
    ensures |r| == |invites|
    ensures forall id :: 0 <= id < |r| ==>
      r[id] == if id in due then invites[id].(status := InviteExpired) else invites[id]
  {
    seq(|invites|, id requires 0 <= id < |invites| =>
      if id in due then invites[id].(status := InviteExpired) else invites[id])
  }

  /** The sweep's write, which looks at no status. */
  function RetireSelected(b: Book, sweep: nat): BookOutcome {
    if sweep < |b.sweeps| then
      BookOutcome(b.(invites := ExpireAll(b.invites, b.sweeps[sweep]),
                     sweeps := b.sweeps[..sweep] + b.sweeps[sweep + 1..]), true)
    else Declined(b)
  }

  // ------------------------------------------------------------------ runs

  datatype Action =
    | DoIssue(request: IssueRequest)
    | DoRevoke(id: nat)
    | DoReissue(id: nat)
    | DoAmend(id: nat, amount: int)
    | DoRelease(id: nat)
    | DoFind(id: nat, token: nat)
    | DoClaim(id: nat, token: nat, childHasPlan: bool)
    | DoContest(id: nat)
    | DoSelect
    | DoRetire(sweep: nat)
    | DoLedger(id: nat, command: Command)

  /** A ledger command on a claimed plan. Corrections go through the invite instead. */
  function OnPlan(b: Book, id: nat, c: Command): BookOutcome {
    if id in b.plans && !c.Amend? then BookOutcome(b.(plans := b.plans[id := Step(b.plans[id], c)]), true)
    else Declined(b)
  }

  function Perform(b: Book, a: Action): BookOutcome {
    match a
    case DoIssue(request) => Issue(b, request)
    case DoRevoke(id) => Revoke(b, id)
    case DoReissue(id) => Reissue(b, id)
    case DoAmend(id, amount) => AmendFigure(b, id, amount)
    case DoRelease(id) => Release(b, id)
    case DoFind(id, token) => FindByToken(b, id, token)
    case DoClaim(id, token, childHasPlan) => Claim(b, id, token, childHasPlan)
    case DoContest(id) => Contest(b, id)
    case DoSelect => BookOutcome(SelectStale(b), true)
    case DoRetire(sweep) => RetireSelected(b, sweep)
    case DoLedger(id, command) => OnPlan(b, id, command)
  }

  /** An action at an instant. The clock never runs back. */
  datatype Event = Event(now: int, action: Action)

  function Tick(b: Book, now: int): Book { b.(clock := Max(b.clock, now)) }

  function Happen(b: Book, e: Event): Book { Perform(Tick(b, e.now), e.action).book }

  function History(b: Book, events: seq<Event>): Book
    decreases |events|
  {
    if events == [] then b else History(Happen(b, events[0]), events[1..])
  }
}
