/** Which transactions write what: no row appears or changes status except by the transactions made for it. */
module Footprint {
  import opened Texts
  import opened Schema
  import opened Moves
  import opened Protocol
  import opened Refinement

  // ----- what a kind of transaction leaves alone -------------------------------------------

  /** No reservation enters a status. */
  predicate NoneEnters(before: map<Id, Reservation>, after: map<Id, Reservation>, status: ReservationStatus) {
    forall k | k in after && after[k].status == status :: k in before && before[k].status == status
  }

  /** No approval enters a status, and those in it stay as they are. */
  predicate NoneDecided(before: map<Id, Approval>, after: map<Id, Approval>, status: ApprovalStatus) {
    forall k | k in after && after[k].status == status :: k in before && before[k] == after[k]
  }

  /** Every reservation keeps its spend and its proof, and a new one has neither. */
  predicate NoneSpent(before: map<Id, Reservation>, after: map<Id, Reservation>) {
    forall k | k in after ::
      (after[k].finalizedSpend, after[k].proofReference) ==
        if k in before then (before[k].finalizedSpend, before[k].proofReference) else (0, None)
  }

  predicate LeavesReservations(before: map<Id, Reservation>, after: map<Id, Reservation>, kind: Kind) {
    && before.Keys <= after.Keys
    && (kind != Drawing ==> after.Keys == before.Keys)
    && (kind !in {Consuming, Granting} ==> NoneEnters(before, after, Authorized))
    && (kind != Publishing ==> NoneEnters(before, after, Broadcast))
    && (kind !in {Expiring, Approving, Consuming} ==> NoneEnters(before, after, Expired))
    && (kind !in {Finalizing, Resolving} ==> NoneEnters(before, after, Finalized) && NoneSpent(before, after))
    && (kind !in {Disputing, Resolving} ==> NoneEnters(before, after, Disputed))
  }

  predicate LeavesApprovals(before: map<Id, Approval>, after: map<Id, Approval>, kind: Kind) {
    && (kind != Requesting ==> after.Keys == before.Keys)
    && (kind != Approving ==> NoneDecided(before, after, Approved))
    && (kind != Rejecting ==> NoneDecided(before, after, Rejected))
    && (kind !in {Approving, Consuming} ==> NoneDecided(before, after, ApprovalExpired))
    && (kind != Consuming ==> NoneDecided(before, after, Consumed))
  }

  /** The other tables that only some kinds of transaction write. */
  predicate LeavesRecords(db: Db, next: Db, kind: Kind) {
    && (kind !in {Consuming, Granting} ==> next.authorizations == db.authorizations)
    && (kind != Raising ==> next.invalidated == db.invalidated && next.policies == db.policies)
    && (kind != Raising ==> Grows(db.fences, next.fences))
    && (kind != Signing ==> next.signed == db.signed)
    && (kind != Trying ==> next.attempts == db.attempts)
    && (kind != Resolving ==> next.recoveries == db.recoveries)
    && (kind !in {Claiming, Resolving} ==> next.leases == db.leases)
    && (kind != Drawing ==> next.idempotency == db.idempotency)
    && (kind != Publishing ==> next.broadcasts.Keys == db.broadcasts.Keys)
    && (kind !in {Proving, Resolving} ==> NoneVerified(db.broadcasts, next.broadcasts))
  }

  /** No receipt becomes verified. */
  predicate NoneVerified(before: map<Id, BroadcastEvidence>, after: map<Id, BroadcastEvidence>) {
    forall k | k in after && after[k].verified :: k in before && before[k].verified
  }

  predicate Leaves(db: Db, next: Db, kind: Kind) {
    && LeavesReservations(db.reservations, next.reservations, kind)
    && LeavesApprovals(db.approvals, next.approvals, kind)
    && LeavesRecords(db, next, kind)
  }

  // ----- moves, plays and commands ---------------------------------------------------------

  lemma PayLeaves(db: Db, k: Id, r: Reservation, b: Budget, how: How, kind: Kind)
    requires LegalPay(db, k, r, b, how) && May(kind, Pay(k, r, b, how))
    ensures LeavesReservations(db.reservations, db.reservations[k := r], kind)
  {}

  lemma DrawLeaves(rs: map<Id, Reservation>, k: Id, r: Reservation)
    requires k !in rs && r.status == Held && r.finalizedSpend == 0 && r.proofReference.None?
    ensures LeavesReservations(rs, rs[k := r], Drawing)
  {}

  lemma MarkLeaves(rs: map<Id, Reservation>, k: Id, r: Reservation, kind: Kind)
    requires k in rs && r == rs[k].(status := r.status)
    requires
      || (kind == Publishing && r.status == Broadcast)
      || (kind in {Consuming, Granting} && r.status == Authorized)
    ensures LeavesReservations(rs, rs[k := r], kind)
  {}

  lemma SameReservations(rs: map<Id, Reservation>, kind: Kind)
    ensures LeavesReservations(rs, rs, kind)
  {}

  lemma MoveLeavesReservations(db: Db, m: Move, kind: Kind)
    requires Legal(db, m) && May(kind, m)
    ensures LeavesReservations(db.reservations, Reservations(db, m), kind)
  {
    hide LeavesReservations, Accounted, Open, LegalPay, LegalGrant, LegalApproval, LegalRecord, LegalClaim, LegalSign,
        LegalStart, LegalBook, LegalRaise, LegalDecision;
    match m
    case Pay(k, r, b, how) => PayLeaves(db, k, r, b, how, kind);
    case Draw(k, r, _, _) => DrawLeaves(db.reservations, k, r);
    case Publish(k, r, _) => MarkLeaves(db.reservations, k, r, kind);
    case Grant(id, z, r, now) =>
      GrantIsEdge(db, id, z, r, now);
      MarkLeaves(db.reservations, z.bound.reservationId, r, kind);
    case _ => SameReservations(db.reservations, kind);
  }

  lemma MoveLeavesApprovals(db: Db, m: Move, kind: Kind)
    requires Legal(db, m) && May(kind, m)
    ensures LeavesApprovals(db.approvals, ApprovalRows(db, m), kind)
  {
    hide LegalBinding, LegalAutonomy, LegalRecord, LegalClaim, LegalSign, LegalStart, LegalBook, LegalRaise, LegalDraw,
        LegalPay, LegalPublish;
  }

  lemma MoveLeavesRecords(db: Db, m: Move, kind: Kind)
    requires Legal(db, m) && May(kind, m)
    ensures LeavesRecords(db, Perform(db, m), kind)
  {
    hide LegalGrant, LegalApproval, LegalRecord, LegalClaim, LegalSign, LegalStart, LegalBook, LegalRaise, LegalDraw,
        LegalPay, LegalDecision, Operations, History, Reservations, Budgets, ApprovalRows;
  }

  lemma MoveLeaves(db: Db, m: Move, kind: Kind)
    requires Legal(db, m) && May(kind, m)
    ensures Leaves(db, Perform(db, m), kind)
  {
    hide Legal, May, LeavesReservations, LeavesApprovals, LeavesRecords, Operations, History, Reservations, Budgets,
        Broadcasts, Leases, ApprovalRows, Attempts;
    MoveLeavesReservations(db, m, kind);
    MoveLeavesApprovals(db, m, kind);
    MoveLeavesRecords(db, m, kind);
  }

  lemma LeavesReflexive(db: Db, kind: Kind)
    ensures Leaves(db, db, kind)
  {}

  lemma LeavesTransitive(a: Db, b: Db, c: Db, kind: Kind)
    requires Leaves(a, b, kind) && Leaves(b, c, kind)
    ensures Leaves(a, c, kind)
  {
    hide LeavesReservations, LeavesApprovals;
    ReservationsTransitive(a.reservations, b.reservations, c.reservations, kind);
    ApprovalsTransitive(a.approvals, b.approvals, c.approvals, kind);
  }

  lemma ReservationsTransitive(a: map<Id, Reservation>, b: map<Id, Reservation>, c: map<Id, Reservation>, kind: Kind)
    requires LeavesReservations(a, b, kind) && LeavesReservations(b, c, kind)
    ensures LeavesReservations(a, c, kind)
  {}

  lemma ApprovalsTransitive(a: map<Id, Approval>, b: map<Id, Approval>, c: map<Id, Approval>, kind: Kind)
    requires LeavesApprovals(a, b, kind) && LeavesApprovals(b, c, kind)
    ensures LeavesApprovals(a, c, kind)
  {}

  lemma {:induction false} PlayLeaves(db: Db, ms: seq<Move>, kind: Kind)
    requires LegalPlay(db, ms, kind)
    ensures Leaves(db, Play(db, ms), kind)
  {
    hide Legal, May, Perform, Leaves;
    LeavesReflexive(db, kind);
    if ms != [] {
      var front := Play(db, ms[..|ms| - 1]);
      PlayLeaves(db, ms[..|ms| - 1], kind);
      MoveLeaves(front, ms[|ms| - 1], kind);
      LeavesTransitive(db, front, Play(db, ms), kind);
    }
  }

  lemma ReachLeaves(db: Db, next: Db, kind: Kind)
    requires Reaches(db, next, kind)
    ensures Leaves(db, next, kind)
  {
    hide Legal, May, Perform, Leaves;
    var ms :| LegalPlay(db, ms, kind) && Play(db, ms) == next;
    PlayLeaves(db, ms, kind);
  }

  /** A command leaves alone whatever its kind does not write. */
  lemma StepLeaves(db: Db, c: Command)
    ensures Leaves(db, Apply(db, c), KindOfCommand(c))
  {
    hide Reaches, Leaves, Apply;
    Refines(db, c);
    ReachLeaves(db, Apply(db, c), KindOfCommand(c));
  }
}
