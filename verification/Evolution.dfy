/** What can never be undone: how every table evolves, step by step and over whole runs. */
module Evolution {
  import opened Schema
  import opened Moves
  import opened Execution
  import opened Protocol
  import opened Refinement
  import L = Lifecycle

  // ----- rows ------------------------------------------------------------------------------

  predicate BudgetEvolves(b: Budget, c: Budget) {
    (b.agentId, b.walletId, b.policyId, b.policyVersion, b.allocation) ==
      (c.agentId, c.walletId, c.policyId, c.policyVersion, c.allocation)
  }

  /** Money comes back once, a closed row can only become disputed, and a disputed one never changes. */
  predicate ReservationEvolves(r: Reservation, s: Reservation) {
    && (r.budgetId, r.operationId, r.idempotencyKey, r.amount, r.expiresAt) ==
      (s.budgetId, s.operationId, s.idempotencyKey, s.amount, s.expiresAt)
    && (s.status == Held ==> s == r)
    && (s.status == Authorized ==> r.status in {Held, Authorized})
    && (r.status == Broadcast ==> s.status in {Broadcast, Finalized, Released, Disputed})
    && (r.status in {Released, Expired, Finalized} ==> s == r || s == r.(status := Disputed))
    && (r.status == Disputed ==> s == r)
  }

  predicate OperationEvolves(o: Operation, p: Operation) {
    && p == o.(state := p.state)
    && (L.SigningBegun(o.state) ==> L.SigningBegun(p.state))
    && (L.SignedOrLater(o.state) ==> L.SignedOrLater(p.state))
  }

  /** A fence changes only together with its version, and the version only rises. */
  predicate FenceRises(f: Fence, g: Fence) {
    f.version <= g.version && (f.version == g.version ==> f == g)
  }

  /** Only the system resumes; anything else can only be revoked, and then for good. */
  predicate FenceEvolves(scope: Scope, f: Fence, g: Fence) {
    && FenceRises(f, g)
    && (scope != SystemScope ==> g == f || (f.state != Revoked && g.state == Revoked))
  }

  predicate IsFinal(s: ApprovalStatus) {
    s in {Rejected, ApprovalExpired, ApprovalRevoked, Consumed}
  }

  predicate ApprovalEvolves(a: Approval, b: Approval) {
    && b == a.(status := b.status, approverId := b.approverId)
    && (IsFinal(a.status) ==> b == a)
    && (b.status == Pending ==> b == a)
  }

  predicate EvidenceEvolves(e: BroadcastEvidence, f: BroadcastEvidence) {
    f.receipt == e.receipt && (e.verified ==> f.verified)
  }

  predicate LeaseEvolves(l: Lease, k: Lease) {
    l.version <= k.version && (l.version == k.version ==> k == l || k == l.(active := false))
  }

  // ----- tables ----------------------------------------------------------------------------

  predicate BudgetsEvolve(before: map<Id, Budget>, after: map<Id, Budget>) {
    before.Keys == after.Keys && forall k | k in before :: BudgetEvolves(before[k], after[k])
  }

  predicate ReservationsEvolve(before: map<Id, Reservation>, after: map<Id, Reservation>) {
    before.Keys <= after.Keys && forall k | k in before :: ReservationEvolves(before[k], after[k])
  }

  predicate OperationsEvolve(before: map<Id, Operation>, after: map<Id, Operation>) {
    before.Keys == after.Keys && forall k | k in before :: OperationEvolves(before[k], after[k])
  }

  predicate FencesRise(before: map<Scope, Fence>, after: map<Scope, Fence>) {
    before.Keys <= after.Keys && forall s | s in before :: FenceEvolves(s, before[s], after[s])
  }

  predicate ApprovalsEvolve(before: map<Id, Approval>, after: map<Id, Approval>) {
    before.Keys <= after.Keys && forall k | k in before :: ApprovalEvolves(before[k], after[k])
  }

  predicate BroadcastsEvolve(before: map<Id, BroadcastEvidence>, after: map<Id, BroadcastEvidence>) {
    before.Keys <= after.Keys && forall k | k in before :: EvidenceEvolves(before[k], after[k])
  }

  predicate LeasesEvolve(before: map<Id, Lease>, after: map<Id, Lease>) {
    before.Keys <= after.Keys && forall k | k in before :: LeaseEvolves(before[k], after[k])
  }

  /** Tables whose rows never change once written. */
  predicate PlansGrow(db: Db, next: Db) {
    && Grows(db.idempotency, next.idempotency)
    && Grows(db.envelopes, next.envelopes)
    && Grows(db.decisions, next.decisions)
  }

  predicate RecordsGrow(db: Db, next: Db) {
    && Grows(db.authorizations, next.authorizations)
    && db.invalidated <= next.invalidated
    && Grows(db.recoveries, next.recoveries)
    && Grows(db.signed, next.signed)
  }

  predicate TrailGrows(db: Db, next: Db) {
    && Grows(db.chain, next.chain)
    && Grows(db.effects, next.effects)
    && AttemptsGrow(db.attempts, next.attempts)
    && db.history <= next.history
  }

  predicate Evolves(db: Db, next: Db) {
    && next.registry == db.registry
    && PoliciesEvolve(db.policies, next.policies)
    && BudgetsEvolve(db.budgets, next.budgets)
    && ReservationsEvolve(db.reservations, next.reservations)
    && OperationsEvolve(db.operations, next.operations)
    && FencesRise(db.fences, next.fences)
    && ApprovalsEvolve(db.approvals, next.approvals)
    && BroadcastsEvolve(db.broadcasts, next.broadcasts)
    && LeasesEvolve(db.leases, next.leases)
    && PlansGrow(db, next)
    && RecordsGrow(db, next)
    && TrailGrows(db, next)
  }

  // ----- moves -----------------------------------------------------------------------------

  lemma BudgetsMove(db: Db, m: Move)
    requires Legal(db, m)
    ensures BudgetsEvolve(db.budgets, Budgets(db, m))
  {
    hide LegalApproval, LegalRecord, LegalSign, LegalGrant, LegalPublish;
  }

  lemma ReservationsMove(db: Db, m: Move)
    requires Legal(db, m)
    ensures ReservationsEvolve(db.reservations, Reservations(db, m))
  {
    hide LegalApproval, LegalRecord, LegalSign;
  }

  lemma Enters(ops: map<Id, Operation>, o: Id, to: L.State)
    requires o in ops ==> L.IsEdge(ops[o].state, to) || to == L.Signed
    ensures OperationsEvolve(ops, Entered(ops, o, to))
  {
    if o in ops && L.IsEdge(ops[o].state, to) {
      L.OneWayDoor(ops[o].state, to);
    }
  }

  lemma OperationsMove(db: Db, m: Move)
    requires Legal(db, m)
    ensures OperationsEvolve(db.operations, Operations(db, m))
  {
    hide OperationsEvolve, LegalDraw, LegalPay, LegalPublish, LegalApproval, LegalRecord, LegalGrant, LegalSign;
    match m
    case Step(o, to) => Enters(db.operations, o, to);
    case Jump(o) => Enters(db.operations, o, L.Authorized);
    case Grant(id, z, r, now) =>
      GrantIsEdge(db, id, z, r, now);
      Enters(db.operations, z.bound.operationId, L.Authorized);
    case Sign(_, s, _) => Enters(db.operations, s.operationId, L.Signed);
    case _ => SameOperations(db.operations);
  }

  lemma SameOperations(ops: map<Id, Operation>)
    ensures OperationsEvolve(ops, ops)
  {}

  lemma ApprovalsMove(db: Db, m: Move)
    requires Legal(db, m)
    ensures ApprovalsEvolve(db.approvals, ApprovalRows(db, m))
  {
    hide LegalDraw, LegalPay, LegalPublish, LegalRecord, LegalSign;
  }

  lemma EvidenceMoves(db: Db, m: Move)
    requires Legal(db, m)
    ensures BroadcastsEvolve(db.broadcasts, Broadcasts(db, m)) && LeasesEvolve(db.leases, Leases(db, m))
  {
    hide LegalDraw, LegalPay, LegalApproval, LegalSign, LegalGrant;
  }

  /** Evidence is written under ids that are not taken. */
  lemma EvidenceIsNew(db: Db, m: Move)
    requires Legal(db, m)
    ensures m.Grant? ==> m.authorizationId !in db.authorizations
    ensures m.Sign? ==> m.signedId !in db.signed
    ensures m.Record? ==> m.attemptId !in db.recoveries
  {
    hide LegalBinding, LegalConsumption, LegalAutonomy, MaySign, LegalDraw, LegalPay, LegalPublish, LegalApproval,
        LegalStart, LegalBook, LegalRaise, LegalDecision, LegalClaim;
  }

  lemma RecordsMove(db: Db, m: Move)
    requires Legal(db, m)
    ensures RecordsGrow(db, Perform(db, m))
  {
    hide Legal, History, Operations, Reservations, Budgets, Broadcasts, Leases, ApprovalRows, Attempts;
    EvidenceIsNew(db, m);
  }

  lemma PlansMove(db: Db, m: Move)
    requires Legal(db, m)
    ensures PlansGrow(db, Perform(db, m))
  {
    hide LegalGrant, LegalSign, History, Operations, Reservations, Budgets, Broadcasts, Leases, ApprovalRows, LegalPay,
        LegalPublish, LegalApproval;
  }

  lemma TrailMoves(db: Db, m: Move)
    requires Legal(db, m)
    ensures TrailGrows(db, Perform(db, m))
  {
    hide Operations, Reservations, Budgets, Broadcasts, Leases, ApprovalRows, LegalPay, LegalPublish, LegalApproval,
        LegalGrant, LegalSign, LegalDraw;
  }

  lemma MoveEvolves(db: Db, m: Move)
    requires Legal(db, m)
    ensures Evolves(db, Perform(db, m))
  {
    hide PlansGrow, RecordsGrow, TrailGrows, BudgetsEvolve, ReservationsEvolve, OperationsEvolve, ApprovalsEvolve,
        BroadcastsEvolve, LeasesEvolve;
    BudgetsMove(db, m);
    ReservationsMove(db, m);
    OperationsMove(db, m);
    ApprovalsMove(db, m);
    EvidenceMoves(db, m);
    PlansMove(db, m);
    RecordsMove(db, m);
    TrailMoves(db, m);
  }

  // ----- runs ------------------------------------------------------------------------------

  lemma EvolvesReflexive(db: Db)
    ensures Evolves(db, db)
  {}

  lemma EvolvesTransitive(a: Db, b: Db, c: Db)
    requires Evolves(a, b) && Evolves(b, c)
    ensures Evolves(a, c)
  {
    hide PlansGrow, RecordsGrow, TrailGrows, ReservationsEvolve, ApprovalsEvolve, LeasesEvolve, BroadcastsEvolve;
    PlansTransitive(a, b, c);
    RecordsTransitive(a, b, c);
    TrailTransitive(a, b, c);
    ReservationsTransitive(a.reservations, b.reservations, c.reservations);
    AuthorityTransitive(a, b, c);
  }

  lemma ReservationsTransitive(a: map<Id, Reservation>, b: map<Id, Reservation>, c: map<Id, Reservation>)
    requires ReservationsEvolve(a, b) && ReservationsEvolve(b, c)
    ensures ReservationsEvolve(a, c)
  {}

  lemma AuthorityTransitive(a: Db, b: Db, c: Db)
    requires ApprovalsEvolve(a.approvals, b.approvals) && ApprovalsEvolve(b.approvals, c.approvals)
    requires LeasesEvolve(a.leases, b.leases) && LeasesEvolve(b.leases, c.leases)
    requires BroadcastsEvolve(a.broadcasts, b.broadcasts) && BroadcastsEvolve(b.broadcasts, c.broadcasts)
    ensures ApprovalsEvolve(a.approvals, c.approvals) && LeasesEvolve(a.leases, c.leases)
      && BroadcastsEvolve(a.broadcasts, c.broadcasts)
  {}

  lemma PlansTransitive(a: Db, b: Db, c: Db)
    requires PlansGrow(a, b) && PlansGrow(b, c)
    ensures PlansGrow(a, c)
  {}

  lemma RecordsTransitive(a: Db, b: Db, c: Db)
    requires RecordsGrow(a, b) && RecordsGrow(b, c)
    ensures RecordsGrow(a, c)
  {}

  lemma TrailTransitive(a: Db, b: Db, c: Db)
    requires TrailGrows(a, b) && TrailGrows(b, c)
    ensures TrailGrows(a, c)
  {}

  lemma {:induction false} PlayEvolves(db: Db, ms: seq<Move>, kind: Kind)
    requires LegalPlay(db, ms, kind)
    ensures Evolves(db, Play(db, ms))
  {
    hide Legal, Perform, Evolves;
    EvolvesReflexive(db);
    if ms != [] {
      var front := Play(db, ms[..|ms| - 1]);
      PlayEvolves(db, ms[..|ms| - 1], kind);
      MoveEvolves(front, ms[|ms| - 1]);
      EvolvesTransitive(db, front, Play(db, ms));
    }
  }

  lemma ReachesEvolves(db: Db, next: Db, kind: Kind)
    requires Reaches(db, next, kind)
    ensures Evolves(db, next)
  {
    hide Legal, Perform, Evolves;
    var ms :| LegalPlay(db, ms, kind) && Play(db, ms) == next;
    PlayEvolves(db, ms, kind);
  }

  lemma StepEvolves(db: Db, c: Command)
    ensures Evolves(db, Apply(db, c))
  {
    hide Reaches, Evolves;
    Refines(db, c);
    ReachesEvolves(db, Apply(db, c), KindOfCommand(c));
  }

  /** Whatever commands run, the database only evolves. */
  lemma {:induction false} RunEvolves(db: Db, cs: seq<Command>)
    ensures Evolves(db, Run(db, cs))
  {
    hide Apply, Evolves;
    EvolvesReflexive(db);
    if cs != [] {
      var front := Run(db, cs[..|cs| - 1]);
      RunEvolves(db, cs[..|cs| - 1]);
      StepEvolves(front, cs[|cs| - 1]);
      EvolvesTransitive(db, front, Run(db, cs));
    }
  }
}
