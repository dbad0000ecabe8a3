/**
 * Links are single: every invite has its own, a re-issued one kills the last, and a dead link opens nothing ever
 * again.
 */
module InviteLinks {
  import opened Invites
  import opened Ledger

  /** Every link was minted once, for one invite. */
  predicate OwnLinks(b: Book) {
    && (forall id :: 0 <= id < |b.invites| ==> b.invites[id].token < b.minted)
    && forall i, j :: 0 <= i < j < |b.invites| ==> b.invites[i].token != b.invites[j].token
  }

  /** A link once minted that no invite answers to. */
  predicate DeadLink(b: Book, token: nat) {
    token < b.minted && forall id :: 0 <= id < |b.invites| ==> b.invites[id].token != token
  }

  /** The one invite whose link an action may set. */
  function Relinked(b: Book, a: Action): nat { if a.DoReissue? then a.id else |b.invites| }

  /** At most one invite's link changes in an action, and then to one never seen. */
  lemma LinkMoves(b: Book, a: Action)
    ensures var q := Perform(b, a).book;
            b.minted <= q.minted && |b.invites| <= |q.invites| <= |b.invites| + 1 &&
            forall id :: 0 <= id < |q.invites| ==>
              (id < |b.invites| && q.invites[id].token == b.invites[id].token) ||
              (id == Relinked(b, a) && q.invites[id].token == b.minted < q.minted)
  {
    hide AmendMigratedPayment, Step, OpenMigrated, AlreadyMigrated, SlotTaken, SlotTakenFolded, ExpireAll, HasExpired,
      ExpiryFrom;
    match a
    case DoIssue(request) =>
    case DoReissue(id) =>
    case DoRetire(sweep) =>
      if sweep < |b.sweeps| { assert Perform(b, a).book.invites == ExpireAll(b.invites, b.sweeps[sweep]); }
    case DoRevoke(_) =>
    case DoAmend(_, _) =>
    case DoRelease(_) =>
    case DoFind(_, _) =>
    case DoClaim(_, _, _) =>
    case DoContest(_) =>
    case DoSelect =>
    case DoLedger(_, _) =>
  }

  lemma HappenKeepsLinks(b: Book, e: Event)
    ensures OwnLinks(b) ==> OwnLinks(Happen(b, e))
    ensures forall token: nat :: DeadLink(b, token) ==> DeadLink(Happen(b, e), token)
  {
    LinkMoves(Tick(b, e.now), e.action);
    hide Perform;
  }

  lemma {:induction false} HistoryKeepsLinks(b: Book, events: seq<Event>, token: nat)
    ensures OwnLinks(b) ==> OwnLinks(History(b, events))
    ensures DeadLink(b, token) ==> DeadLink(History(b, events), token)
    decreases |events|
  {
    hide OwnLinks, DeadLink, Happen;
    if events != [] {
      HappenKeepsLinks(b, events[0]);
      HistoryKeepsLinks(Happen(b, events[0]), events[1..], token);
    }
  }

  /** Once an invite is sent again, its old link finds and claims nothing, whatever happens next. */
  lemma OldLinkStaysDead(b: Book, id: nat, events: seq<Event>, other: nat, childHasPlan: bool)
    requires OwnLinks(b) && Reissue(b, id).accepted
    ensures var later := History(Reissue(b, id).book, events);
            !FindByToken(later, other, b.invites[id].token).accepted &&
            !Claim(later, other, b.invites[id].token, childHasPlan).accepted
  {
    var token := b.invites[id].token;
    var again := Reissue(b, id).book;
    assert DeadLink(again, token) by {
      forall i | 0 <= i < |again.invites|
        ensures again.invites[i].token != token
      {
        if i != id { assert again.invites[i].token == b.invites[i].token; }
      }
    }
    HistoryKeepsLinks(again, events, token);
  }
}
