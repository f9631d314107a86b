/** What holds of every reachable database. */
module Invariants {
  import opened Texts
  import opened Schema
  import opened Execution
  import opened Moves
  import opened Money
  import opened Evolution
  import Protocol
  import Refinement
  import L = Lifecycle

  // ----- reservations ----------------------------------------------------------------------

  predicate Drawn(db: Db, k: Id)
    requires k in db.reservations
  {
    var r := db.reservations[k];
    && Accounted(db, r.operationId, r.budgetId)
    && r.idempotencyKey in db.idempotency
    && db.idempotency[r.idempotencyKey].reservationId == k
  }

  /** Reservations are bound when drawn, one per operation and one per idempotency key. */
  predicate Drawings(db: Db) {
    && (forall k | k in db.reservations :: Drawn(db, k))
    && (forall j, k | j in db.reservations && k in db.reservations ::
      db.reservations[j].operationId == db.reservations[k].operationId ==> j == k)
    && (forall i | i in db.idempotency ::
          db.idempotency[i].reservationId in db.reservations
            && db.reservations[db.idempotency[i].reservationId].idempotencyKey == i)
  }

  lemma DrawnPersists(db: Db, next: Db, k: Id)
    requires Evolves(db, next) && k in db.reservations && Drawn(db, k)
    ensures k in next.reservations && Drawn(next, k)
  {}

  lemma DrawingsMove(db: Db, m: Move)
    requires Drawings(db) && Legal(db, m)
    ensures Drawings(Perform(db, m))
  {
    hide Legal, Evolves, Drawn, Perform, Drawings;
    StillDrawn(db, m);
    if m.Draw? {
      NewlyDrawn(db, m);
      LegalDrawIsNew(db, m);
      DrawnOnce(db, Perform(db, m), m);
    } else {
      KeysKept(db, m);
      StillOnce(db, Perform(db, m));
    }
  }

  lemma DrawnOnce(db: Db, next: Db, m: Move)
    requires Drawings(db) && m.Draw? && m.reservationId !in db.reservations
    requires m.reservation.idempotencyKey !in db.idempotency && m.record.reservationId == m.reservationId
    requires forall j | j in db.reservations :: db.reservations[j].operationId != m.reservation.operationId
    requires next.reservations == db.reservations[m.reservationId := m.reservation]
    requires next.idempotency == db.idempotency[m.reservation.idempotencyKey := m.record]
    requires forall k | k in next.reservations :: Drawn(next, k)
    ensures Drawings(next)
  {
    hide Drawn;
  }

  lemma StillOnce(db: Db, next: Db)
    requires Drawings(db) && next.idempotency == db.idempotency && next.reservations.Keys == db.reservations.Keys
    requires forall k | k in db.reservations ::
      (next.reservations[k].operationId, next.reservations[k].idempotencyKey)
      == (db.reservations[k].operationId, db.reservations[k].idempotencyKey)
    requires forall k | k in next.reservations :: Drawn(next, k)
    ensures Drawings(next)
  {
    hide Drawn;
  }

  lemma StillDrawn(db: Db, m: Move)
    requires Drawings(db) && Legal(db, m)
    ensures forall k | k in db.reservations :: k in Perform(db, m).reservations && Drawn(Perform(db, m), k)
  {
    hide Legal, Evolves, Drawn, Perform;
    MoveEvolves(db, m);
    forall k | k in db.reservations ensures k in Perform(db, m).reservations && Drawn(Perform(db, m), k) {
      DrawnPersists(db, Perform(db, m), k);
    }
  }

  lemma NewlyDrawn(db: Db, m: Move)
    requires m.Draw? && Legal(db, m)
    ensures Drawn(Perform(db, m), m.reservationId)
  {}

  lemma LegalDrawIsNew(db: Db, m: Move)
    requires m.Draw? && Legal(db, m)
    ensures m.reservationId !in db.reservations && m.reservation.idempotencyKey !in db.idempotency
      && m.record.reservationId == m.reservationId
    ensures forall j | j in db.reservations :: db.reservations[j].operationId != m.reservation.operationId
    ensures Perform(db, m).reservations == db.reservations[m.reservationId := m.reservation]
    ensures Perform(db, m).idempotency == db.idempotency[m.reservation.idempotencyKey := m.record]
  {}

  /** Only drawing adds a reservation; what identifies one never changes. */
  lemma KeysKept(db: Db, m: Move)
    requires !m.Draw? && Legal(db, m)
    ensures var next := Perform(db, m);
      next.reservations.Keys == db.reservations.Keys && next.idempotency == db.idempotency
    ensures forall k | k in db.reservations ::
      (Perform(db, m).reservations[k].operationId, Perform(db, m).reservations[k].idempotencyKey)
      == (db.reservations[k].operationId, db.reservations[k].idempotencyKey)
  {
    hide Sealed, NewestRevision, AreCurrent, Unblocked, LegalConsumption, LegalAutonomy, LegalApproval, LegalRecord,
        LegalClaim, LegalSign, LegalStart, LegalBook, LegalRaise, LegalDecision, Operations, History, Broadcasts,
        Leases, ApprovalRows, Attempts, Budgets;
    ReservationsMove(db, m);
  }

  // ----- approvals and authorizations ------------------------------------------------------

  /**
   The rows a binding names are those of its operation, and the fences recorded with it are not
   ahead of the current ones.
   */
  predicate Recorded(db: Db, b: Binding, f: Fences) {
    && OwnPolicy(db, b)
    && var op := db.operations[b.operationId];
    && op.agentId in db.registry.agentOwner
    && Reserved(db, b.operationId, b.reservationId)
    && var owner := OwnerScope(db.registry.agentOwner[op.agentId]);
    && SystemScope in db.fences && FenceRises(f.system, db.fences[SystemScope])
    && owner in db.fences && FenceRises(f.owner, db.fences[owner])
    && AgentScope(op.agentId) in db.fences && FenceRises(f.agent, db.fences[AgentScope(op.agentId)])
    && PolicyScope(op.policyId) in db.fences && FenceRises(f.policy, db.fences[PolicyScope(op.policyId)])
  }

  lemma RecordedPersists(db: Db, next: Db, b: Binding, f: Fences)
    requires Evolves(db, next) && Recorded(db, b, f)
    ensures Recorded(next, b, f)
  {}

  /** Envelopes and decisions never change, nor does what an operation is about. */
  lemma SealedPersists(db: Db, next: Db, b: Binding, verdict: Verdict)
    requires Evolves(db, next) && Sealed(db, b, verdict)
    ensures Sealed(next, b, verdict) && next.envelopes[b.envelopeId] == db.envelopes[b.envelopeId]
  {}

  function AuthorizationOf(approvalId: Id): Id {
    Id(approvalId.text + Lit(":authorization"))
  }

  /**
   An approval was asked for under active fences, within the lifetime of an envelope whose decision
   demands it; whoever decided on it is named; and once consumed it has its authorization.
   */
  predicate ApprovalHolds(db: Db, k: Id)
    requires k in db.approvals
  {
    var a := db.approvals[k];
    && Recorded(db, a.bound, a.fences)
    && Unblocked(a.fences)
    && Sealed(db, a.bound, RequireApproval)
    && Within(a.issuedAt, a.expiresAt, db.envelopes[a.bound.envelopeId].payload)
    && (a.status == Pending ==> a.approverId.None?)
    && (a.status in {Approved, Rejected, ApprovalRevoked, Consumed} ==> a.approverId.Some?)
    && (a.status == Consumed ==>
          AuthorizationOf(k) in db.authorizations && db.authorizations[AuthorizationOf(k)].source == OwnerApproval(k))
  }

  predicate Within(issuedAt: Time, expiresAt: Time, e: EnvelopePayload) {
    e.createdAt <= issuedAt < expiresAt <= e.expiresAt
  }

  /** What stands behind an authorization: a consumed approval, or an envelope that needs none. */
  predicate Grounds(db: Db, k: Id, z: Authorization) {
    match z.source
    case OwnerApproval(a) =>
      && k == AuthorizationOf(a)
      && a in db.approvals
      && db.approvals[a].status == Consumed
      && (db.approvals[a].bound, db.approvals[a].fences) == (z.bound, z.fences)
      && (db.approvals[a].issuedAt, db.approvals[a].expiresAt) == (z.issuedAt, z.expiresAt)
    case AutonomousPolicy =>
      && z.bound.envelopeId in db.envelopes
      && var e := db.envelopes[z.bound.envelopeId].payload;
      && !e.ownerApproval
      && e.riskAllowed
      && (z.issuedAt, z.expiresAt) == (e.createdAt, e.expiresAt)
  }

  /** An authorization was issued under active fences, on its grounds, and took its reservation for good. */
  predicate AuthorizationHolds(db: Db, k: Id)
    requires k in db.authorizations
  {
    var z := db.authorizations[k];
    && Recorded(db, z.bound, z.fences)
    && Unblocked(z.fences)
    && Sealed(db, z.bound, VerdictFor(z.source))
    && z.issuedAt < z.expiresAt
    && db.reservations[z.bound.reservationId].status != Held
    && Grounds(db, k, z)
  }

  predicate Authorizations(db: Db) {
    && (forall k | k in db.approvals :: ApprovalHolds(db, k))
    && (forall k | k in db.authorizations :: AuthorizationHolds(db, k))
    && (forall j, k | j in db.authorizations && k in db.authorizations ::
          db.authorizations[j].bound.reservationId == db.authorizations[k].bound.reservationId ==> j == k)
  }

  lemma AuthorizationPersists(db: Db, next: Db, k: Id)
    requires Evolves(db, next) && k in db.authorizations && AuthorizationHolds(db, k)
    ensures k in next.authorizations && next.authorizations[k] == db.authorizations[k] && AuthorizationHolds(next, k)
  {
    hide Sealed;
    SealedPersists(db, next, db.authorizations[k].bound, VerdictFor(db.authorizations[k].source));
    RecordedPersists(db, next, db.authorizations[k].bound, db.authorizations[k].fences);
  }

  lemma ApprovalPersists(db: Db, next: Db, k: Id)
    requires Evolves(db, next) && k in db.approvals && ApprovalHolds(db, k)
    requires next.approvals[k] == db.approvals[k] || LegalDecision(db.approvals[k], next.approvals[k])
    ensures ApprovalHolds(next, k)
  {
    hide Sealed, Recorded, BudgetsEvolve, ReservationsEvolve, OperationsEvolve, FencesRise, BroadcastsEvolve,
        LeasesEvolve, TrailGrows, PoliciesEvolve;
    SealedPersists(db, next, db.approvals[k].bound, RequireApproval);
    RecordedPersists(db, next, db.approvals[k].bound, db.approvals[k].fences);
  }

  lemma NewApproval(db: Db, m: Move)
    requires m.AddApproval? && Legal(db, m)
    ensures ApprovalHolds(Perform(db, m), m.approvalId)
  {}

  /** What granting an authorization requires and does, apart from what it leaves alone. */
  lemma NewAuthorization(db: Db, m: Move)
    requires m.Grant? && Legal(db, m) && Authorizations(db)
    ensures m.authorizationId !in db.authorizations
    ensures AuthorizationHolds(Perform(db, m), m.authorizationId)
    ensures m.authorization.bound.reservationId in db.reservations
    ensures db.reservations[m.authorization.bound.reservationId].status == Held
    ensures var s := m.authorization.source;
      s.OwnerApproval? ==> s.approvalId in db.approvals && ApprovalHolds(Perform(db, m), s.approvalId)
  {
    hide Authorizations, Recorded, Sealed, ApprovalHolds, LegalBinding, AuthorizationHolds;
    var z := m.authorization;
    RecordedAtGrant(db, m.authorizationId, z, m.reservation, m.now);
    GrantHolds(db, m);
    if z.source.OwnerApproval? {
      Lookup(db, z.source.approvalId);
      ConsumedHolds(db, m);
    }
  }

  lemma GrantHolds(db: Db, m: Move)
    requires m.Grant? && Legal(db, m) && Recorded(db, m.authorization.bound, m.authorization.fences)
    ensures AuthorizationHolds(Perform(db, m), m.authorizationId)
    ensures m.authorizationId !in db.authorizations
    ensures m.authorization.bound.reservationId in db.reservations
    ensures db.reservations[m.authorization.bound.reservationId].status == Held
  {
    hide Recorded, Sealed, Evolves;
    MoveEvolves(db, m);
    RecordedPersists(db, Perform(db, m), m.authorization.bound, m.authorization.fences);
    SealedPersists(db, Perform(db, m), m.authorization.bound, VerdictFor(m.authorization.source));
  }

  lemma ConsumedHolds(db: Db, m: Move)
    requires m.Grant? && Legal(db, m) && m.authorization.source.OwnerApproval?
    requires m.authorization.source.approvalId in db.approvals && ApprovalHolds(db, m.authorization.source.approvalId)
    ensures ApprovalHolds(Perform(db, m), m.authorization.source.approvalId)
  {
    hide Recorded, Sealed, Evolves, LegalBinding;
    var a := db.approvals[m.authorization.source.approvalId];
    MoveEvolves(db, m);
    RecordedPersists(db, Perform(db, m), a.bound, a.fences);
    SealedPersists(db, Perform(db, m), a.bound, RequireApproval);
  }

  /** The fences an authorization is granted under are recorded with it. */
  lemma RecordedAtGrant(db: Db, id: Id, z: Authorization, r: Reservation, now: Time)
    requires LegalGrant(db, id, z, r, now) && Authorizations(db)
    ensures Recorded(db, z.bound, z.fences)
  {
    hide Authorizations;
    if z.source.OwnerApproval? {
      Lookup(db, z.source.approvalId);
    }
  }

  lemma Lookup(db: Db, k: Id)
    requires Authorizations(db) && k in db.approvals
    ensures ApprovalHolds(db, k)
  {}

  lemma AuthorizationsMove(db: Db, m: Move)
    requires Authorizations(db) && Legal(db, m)
    ensures Authorizations(Perform(db, m))
  {
    hide Legal, Evolves, ApprovalHolds, AuthorizationHolds, Operations, History, Budgets, Broadcasts, Leases,
        Reservations;
    var next := Perform(db, m);
    MoveEvolves(db, m);
    forall k | k in db.authorizations ensures k in next.authorizations && next.authorizations[k] == db.authorizations[k]
      && AuthorizationHolds(next, k) {
      AuthorizationPersists(db, next, k);
    }
    if m.Grant? {
      NewAuthorization(db, m);
      NoSecondAuthorization(db, m.authorization.bound.reservationId);
    }
    ApprovalsHold(db, m);
  }

  lemma ApprovalsHold(db: Db, m: Move)
    requires Authorizations(db) && Legal(db, m)
    ensures forall k | k in Perform(db, m).approvals :: ApprovalHolds(Perform(db, m), k)
  {
    hide Legal, Evolves, ApprovalHolds, AuthorizationHolds, Operations, History, Budgets, Broadcasts, Leases,
        Reservations, ApprovalRows;
    var next := Perform(db, m);
    MoveEvolves(db, m);
    if m.Grant? {
      NewAuthorization(db, m);
    }
    forall k | k in next.approvals ensures ApprovalHolds(next, k) {
      if m.AddApproval? && k == m.approvalId {
        NewApproval(db, m);
      } else if !(m.Grant? && m.authorization.source == OwnerApproval(k)) {
        StatusKept(db, m, k);
        ApprovalPersists(db, next, k);
      }
    }
  }

  lemma StatusKept(db: Db, m: Move, k: Id)
    requires Legal(db, m) && k in ApprovalRows(db, m)
    requires !(m.AddApproval? && k == m.approvalId) && !(m.Grant? && m.authorization.source == OwnerApproval(k))
    ensures k in db.approvals
    ensures ApprovalRows(db, m)[k] == db.approvals[k] || LegalDecision(db.approvals[k], ApprovalRows(db, m)[k])
  {}

  /** A held reservation backs no authorization. */
  lemma NoSecondAuthorization(db: Db, k: Id)
    requires Authorizations(db) && k in db.reservations && db.reservations[k].status == Held
    ensures forall z | z in db.authorizations :: db.authorizations[z].bound.reservationId != k
  {
    forall z | z in db.authorizations ensures db.authorizations[z].bound.reservationId != k {
      assert AuthorizationHolds(db, z);
    }
  }

  // ----- signed transactions ---------------------------------------------------------------

  predicate SignatureHolds(db: Db, k: Id)
    requires k in db.signed
  {
    var s := db.signed[k];
    && s.authorizationId in db.authorizations
    && var b := db.authorizations[s.authorizationId].bound;
    && (s.operationId, s.reservationId) == (b.operationId, b.reservationId)
    && (s.envelopeId, s.envelopeRevision, s.envelopeHash) == (b.envelopeId, b.envelopeRevision, b.envelopeHash)
    && s.operationId in db.operations
    && L.SignedOrLater(db.operations[s.operationId].state)
  }

  /** Every operation has at most one signed transaction. */
  predicate SignedOnce(db: Db) {
    && (forall k | k in db.signed :: SignatureHolds(db, k))
    && (forall j, k | j in db.signed && k in db.signed :: db.signed[j].operationId == db.signed[k].operationId ==>
      j == k)
    && (forall j, k | j in db.signed && k in db.signed ::
      db.signed[j].transactionHash == db.signed[k].transactionHash ==> j == k)
  }

  lemma SignaturePersists(db: Db, next: Db, k: Id)
    requires Evolves(db, next) && k in db.signed && SignatureHolds(db, k)
    ensures k in next.signed && next.signed[k] == db.signed[k] && SignatureHolds(next, k)
  {}

  lemma NewSignature(db: Db, m: Move)
    requires m.Sign? && Legal(db, m)
    ensures SignatureHolds(Perform(db, m), m.signedId)
    ensures m.signedId !in db.signed
    ensures m.signed.operationId in db.operations && !L.SignedOrLater(db.operations[m.signed.operationId].state)
    ensures forall k | k in db.signed :: db.signed[k].transactionHash != m.signed.transactionHash
  {}

  lemma SignedOnceMove(db: Db, m: Move)
    requires SignedOnce(db) && Legal(db, m)
    ensures SignedOnce(Perform(db, m))
  {
    hide SignatureHolds, Legal, Evolves, Operations, History, Budgets, Broadcasts, Leases, Reservations, ApprovalRows;
    var next := Perform(db, m);
    MoveEvolves(db, m);
    forall k | k in db.signed ensures k in next.signed && next.signed[k] == db.signed[k] && SignatureHolds(next, k) {
      SignaturePersists(db, next, k);
    }
    if m.Sign? {
      NewSignature(db, m);
      NoSecondSignature(db, m.signed.operationId);
    }
  }

  /** An operation that is not signed yet has no signed transaction. */
  lemma NoSecondSignature(db: Db, o: Id)
    requires SignedOnce(db) && o in db.operations && !L.SignedOrLater(db.operations[o].state)
    ensures forall k | k in db.signed :: db.signed[k].operationId != o
  {
    forall k | k in db.signed ensures db.signed[k].operationId != o {
      assert SignatureHolds(db, k);
    }
  }

  // ----- broadcast reservations ------------------------------------------------------------

  /**
   Value left k's reservation under a verified receipt: either for its proved spend, or in full for
   a proved revert.
   */
  ghost predicate ProvedClosed(db: Db, k: Id)
    requires k in db.reservations
  {
    || Proved(db, k, db.reservations[k].proofReference)
    || (db.reservations[k].finalizedSpend == 0 && exists a :: RevertRecorded(db, k, a))
  }

  ghost predicate BroadcastHolds(db: Db, k: Id)
    requires k in db.broadcasts
  {
    && k in db.reservations
    && db.reservations[k].status !in {Held, Authorized, Expired}
    && (!db.reservations[k].encumbered ==> ProvedClosed(db, k))
  }

  ghost predicate BroadcastsHold(db: Db) {
    && (forall k | k in db.broadcasts :: BroadcastHolds(db, k))
    && (forall k | k in db.reservations :: db.reservations[k].status == Broadcast ==> k in db.broadcasts)
  }

  lemma ProvedPersists(db: Db, next: Db, k: Id, proof: Option<Text>)
    requires Evolves(db, next) && Proved(db, k, proof)
    ensures Proved(next, k, proof)
  {}

  /** A reservation that keeps its money, or had already lost it, keeps its account of why. */
  lemma BroadcastPersists(db: Db, next: Db, k: Id)
    requires Evolves(db, next) && k in db.broadcasts && BroadcastHolds(db, k)
    requires next.reservations[k].encumbered == db.reservations[k].encumbered
    requires next.reservations[k].proofReference == db.reservations[k].proofReference
    requires next.reservations[k].finalizedSpend == db.reservations[k].finalizedSpend
    ensures BroadcastHolds(next, k)
  {
    if !db.reservations[k].encumbered {
      if Proved(db, k, db.reservations[k].proofReference) {
        ProvedPersists(db, next, k, db.reservations[k].proofReference);
      } else {
        var a :| RevertRecorded(db, k, a);
        ProvedPersists(db, next, k, db.recoveries[a].proofReference);
        assert RevertRecorded(next, k, a);
      }
    }
  }

  lemma PaidHolds(db: Db, m: Move)
    requires m.Pay? && Legal(db, m) && Conserved(db) && m.reservationId in db.broadcasts
      && BroadcastHolds(db, m.reservationId)
    ensures BroadcastHolds(Perform(db, m), m.reservationId)
  {
    hide Evolves;
    var k, next := m.reservationId, Perform(db, m);
    MoveEvolves(db, m);
    match m.how
    case Reverted(a) =>
      assert RevertRecorded(next, k, a);
      assert Coherent(db.reservations[k]);
    case Spent => assert Proved(next, k, m.reservation.proofReference);
    case Contested => BroadcastPersists(db, next, k);
    case Returned =>
  }

  lemma BroadcastsMove(db: Db, m: Move)
    requires BroadcastsHold(db) && Drawings(db) && Conserved(db) && Legal(db, m)
    ensures BroadcastsHold(Perform(db, m))
  {
    hide Evolves, BroadcastHolds, Conserved, Drawings, Legal, Operations, History, Budgets, Leases, ApprovalRows;
    var next := Perform(db, m);
    MoveEvolves(db, m);
    BroadcastStatus(db, m);
    forall k | k in next.broadcasts ensures BroadcastHolds(next, k) {
      if m.Pay? && k == m.reservationId {
        PaidHolds(db, m);
      } else if m.Publish? && k == m.reservationId {
        NewlyPublished(db, m);
      } else {
        assert BroadcastHolds(db, k);
        OthersKept(db, m, k);
        BroadcastPersists(db, next, k);
      }
    }
  }

  /** Only publishing makes a reservation broadcast. */
  lemma BroadcastStatus(db: Db, m: Move)
    requires Legal(db, m)
    ensures db.broadcasts.Keys <= Broadcasts(db, m).Keys
    ensures !m.Publish? ==> Broadcasts(db, m).Keys == db.broadcasts.Keys
    ensures m.Publish? ==> Broadcasts(db, m).Keys == db.broadcasts.Keys + {m.reservationId}
    ensures forall k | k in Reservations(db, m) && Reservations(db, m)[k].status == Broadcast
      && !(m.Publish? && k == m.reservationId) ::
      k in db.reservations && db.reservations[k].status == Broadcast
  {
    hide Sealed, NewestRevision, AreCurrent, Unblocked, LegalConsumption, LegalAutonomy, LegalApproval, LegalRecord,
        LegalClaim, LegalSign, LegalStart, LegalBook, LegalRaise, LegalDecision;
  }

  lemma NewlyPublished(db: Db, m: Move)
    requires m.Publish? && Legal(db, m) && Conserved(db)
    ensures BroadcastHolds(Perform(db, m), m.reservationId)
  {
    assert Coherent(db.reservations[m.reservationId]);
  }

  lemma OthersKept(db: Db, m: Move, k: Id)
    requires Legal(db, m) && k in db.broadcasts && BroadcastHolds(db, k)
    requires !(m.Pay? && k == m.reservationId) && !(m.Publish? && k == m.reservationId)
    ensures Reservations(db, m)[k] == db.reservations[k]
  {}

  // ----- recovery --------------------------------------------------------------------------

  /** Recovery attempts were made under leases that are spent, each under its own. */
  predicate UnderSpentLeases(recoveries: map<Id, RecoveryAttempt>, leases: map<Id, Lease>) {
    && (forall a | a in recoveries ::
          && recoveries[a].operationId in leases
          && var lease := leases[recoveries[a].operationId];
          && recoveries[a].leaseVersion <= lease.version
          && (recoveries[a].leaseVersion == lease.version ==> !lease.active))
    && (forall a, b | a in recoveries && b in recoveries ::
          && recoveries[a].operationId == recoveries[b].operationId
          && recoveries[a].leaseVersion == recoveries[b].leaseVersion
          ==> a == b)
  }

  predicate LeasesSpent(db: Db) {
    UnderSpentLeases(db.recoveries, db.leases)
  }

  lemma ClaimSpends(db: Db, o: Id, lease: Lease, now: Time)
    requires LeasesSpent(db) && LegalClaim(db, o, lease, now)
    ensures UnderSpentLeases(db.recoveries, db.leases[o := lease])
  {}

  lemma RecordSpends(db: Db, id: Id, row: RecoveryAttempt, lease: Lease, now: Time)
    requires LeasesSpent(db) && LegalRecord(db, id, row, lease, now)
    ensures UnderSpentLeases(db.recoveries[id := row], db.leases[row.operationId := lease])
  {}

  lemma LeasesMove(db: Db, m: Move)
    requires LeasesSpent(db) && Legal(db, m)
    ensures LeasesSpent(Perform(db, m))
  {
    hide UnderSpentLeases, LegalDraw, LegalPay, LegalPublish, LegalApproval, LegalGrant, LegalSign, LegalRecord,
        LegalClaim, Operations, History, Budgets, Broadcasts, Reservations, ApprovalRows;
    match m
    case Claim(o, lease, now) => ClaimSpends(db, o, lease, now);
    case Record(id, row, lease, now) => RecordSpends(db, id, row, lease, now);
    case _ =>
  }

  // ----- attempts and effects --------------------------------------------------------------

  /** Every attempt repeats its signed transaction, and no two share an id or a signed transaction. */
  predicate AttemptsHold(attempts: seq<Attempt>, signed: map<Id, SignedTransaction>) {
    && (forall i | 0 <= i < |attempts| ::
          && attempts[i].signedId in signed
          && var s := signed[attempts[i].signedId];
          && (attempts[i].operationId, attempts[i].authorizationId) == (s.operationId, s.authorizationId)
          && (attempts[i].reservationId, attempts[i].transactionHash) == (s.reservationId, s.transactionHash))
    && (forall i, j | 0 <= i < j < |attempts| ::
          attempts[i].attemptId != attempts[j].attemptId && attempts[i].signedId != attempts[j].signedId)
  }

  /** Every effect rests on the evidence of its own transaction. */
  predicate EffectsHold(effects: map<Id, Effect>, chain: map<Hash, ChainEvidence>) {
    && (forall o | o in effects :: effects[o].transactionHash in chain)
    && (forall o, p | o in effects && p in effects ::
          effects[o].transactionHash == effects[p].transactionHash ==> o == p)
  }

  predicate Executed(db: Db) {
    AttemptsHold(db.attempts, db.signed) && EffectsHold(db.effects, db.chain)
  }

  lemma ExecutedMove(db: Db, m: Move)
    requires Executed(db) && Legal(db, m)
    ensures Executed(Perform(db, m))
  {
    hide LegalDraw, LegalPay, LegalPublish, LegalApproval, LegalGrant, LegalRecord, LegalClaim, MaySign,
        Operations, History, Budgets, Broadcasts, Reservations, ApprovalRows, Leases;
  }

  // ----- together --------------------------------------------------------------------------

  ghost predicate Inv(db: Db) {
    && Conserved(db)
    && Drawings(db)
    && Authorizations(db)
    && SignedOnce(db)
    && BroadcastsHold(db)
    && LeasesSpent(db)
    && Executed(db)
  }

  lemma MoveKeeps(db: Db, m: Move)
    requires Inv(db) && Legal(db, m)
    ensures Inv(Perform(db, m))
  {
    hide Legal, Perform, Conserved, Drawings, Authorizations, SignedOnce, BroadcastsHold, LeasesSpent, Executed;
    MoveConserves(db, m);
    DrawingsMove(db, m);
    AuthorizationsMove(db, m);
    SignedOnceMove(db, m);
    BroadcastsMove(db, m);
    LeasesMove(db, m);
    ExecutedMove(db, m);
  }

  lemma {:induction false} PlayKeeps(db: Db, ms: seq<Move>, kind: Kind)
    requires Inv(db) && LegalPlay(db, ms, kind)
    ensures Inv(Play(db, ms))
  {
    hide Legal, Perform, Inv;
    if ms != [] {
      PlayKeeps(db, ms[..|ms| - 1], kind);
      MoveKeeps(Play(db, ms[..|ms| - 1]), ms[|ms| - 1]);
    }
  }

  lemma ReachesKeeps(db: Db, next: Db, kind: Kind)
    requires Inv(db) && Reaches(db, next, kind)
    ensures Inv(next)
  {
    hide Legal, Perform, Inv;
    var ms :| LegalPlay(db, ms, kind) && Play(db, ms) == next;
    PlayKeeps(db, ms, kind);
  }

  lemma StepKeeps(db: Db, c: Protocol.Command)
    requires Inv(db)
    ensures Inv(Protocol.Apply(db, c))
  {
    hide Reaches, Inv, Protocol.Apply;
    Refinement.Refines(db, c);
    ReachesKeeps(db, Protocol.Apply(db, c), Refinement.KindOfCommand(c));
  }

  lemma InitialHolds(db: Db)
    requires Protocol.Initial(db)
    ensures Inv(db)
  {}

  lemma {:induction false} RunKeeps(db: Db, cs: seq<Protocol.Command>)
    requires Inv(db)
    ensures Inv(Protocol.Run(db, cs))
  {
    hide Inv, Protocol.Apply;
    if cs != [] {
      RunKeeps(db, cs[..|cs| - 1]);
      StepKeeps(Protocol.Run(db, cs[..|cs| - 1]), cs[|cs| - 1]);
    }
  }

  /** The invariants hold of every database that any run of commands reaches. */
  lemma Always(db: Db, cs: seq<Protocol.Command>)
    requires Protocol.Initial(db)
    ensures Inv(Protocol.Run(db, cs))
  {
    InitialHolds(db);
    RunKeeps(db, cs);
  }
}
