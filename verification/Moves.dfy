/**
 Elementary moves. Every transaction is a short sequence of legal moves, so an invariant of
 the moves is an invariant of the protocol.

 A move carries the rows it writes; Legal says how those rows relate to the rows they replace.
 */
module Moves {
  import opened Texts
  import opened Schema
  import opened Fencing
  import opened Approvals
  import opened Execution
  import L = Lifecycle

  /** How a reservation's row, and with it its budget, changes. */
  datatype How =
    | Returned                      // never broadcast: the whole amount goes back
    | Reverted(attemptId: Id)       // broadcast and proved to have failed: the whole amount goes back
    | Spent                         // broadcast and proved: the spend stays, the rest goes back
    | Contested                     // disputed: nothing moves

  datatype Move =
    | AddFences(fences: map<Scope, Fence>)
    | Raise(scope: Scope, fence: Fence, policies: map<Id, Policy>)
    | Draw(reservationId: Id, reservation: Reservation, budget: Budget, record: IdempotencyRecord)
    | Pay(reservationId: Id, reservation: Reservation, budget: Budget, how: How)
    | Publish(reservationId: Id, reservation: Reservation, evidence: BroadcastEvidence)
    | Prove(reservationId: Id, evidence: BroadcastEvidence)
    | Claim(operationId: Id, lease: Lease, now: Time)
    | Record(attemptId: Id, attempt: RecoveryAttempt, lease: Lease, now: Time)
    | Step(operationId: Id, to: L.State)
    | Jump(operationId: Id)         // the generic lifecycle step into Authorized
    | PutEnvelope(envelopeId: Id, envelope: Envelope)
    | PutDecision(decisionId: Id, decision: Decision)
    | AddApproval(approvalId: Id, approval: Approval)
    | SetApproval(approvalId: Id, approval: Approval)
    | Grant(authorizationId: Id, authorization: Authorization, reservation: Reservation, now: Time)
    | Invalidate(authorizationId: Id)
    | Sign(signedId: Id, signed: SignedTransaction, now: Time)
    | Start(row: Attempt)
    | Finish(attemptId: Id, status: AttemptStatus)
    | Witness(transactionHash: Hash, chainEvidence: ChainEvidence)
    | Book(operationId: Id, effect: Effect)

  // ----- the tables after a move -----------------------------------------------------------

  function Operations(db: Db, m: Move): map<Id, Operation> {
    match m
    case Step(o, to) => Entered(db.operations, o, to)
    case Jump(o) => Entered(db.operations, o, L.Authorized)
    case Grant(_, z, _, _) => Entered(db.operations, z.bound.operationId, L.Authorized)
    case Sign(_, s, _) => Entered(db.operations, s.operationId, L.Signed)
    case _ => db.operations
  }

  function Entered(ops: map<Id, Operation>, o: Id, to: L.State): map<Id, Operation> {
    if o in ops then ops[o := ops[o].(state := to)] else ops
  }

  function History(db: Db, m: Move): seq<StateChange> {
    match m
    case Step(o, to) => Logged(db, o, to)
    case Jump(o) => Logged(db, o, L.Authorized)
    case Grant(_, z, _, _) => Logged(db, z.bound.operationId, L.Authorized)
    case Sign(_, s, _) => Logged(db, s.operationId, L.Signed)
    case _ => db.history
  }

  function Logged(db: Db, o: Id, to: L.State): seq<StateChange> {
    if o in db.operations then db.history + [StateChange(o, db.operations[o].state, to)] else db.history
  }

  function Reservations(db: Db, m: Move): map<Id, Reservation> {
    match m
    case Draw(k, r, _, _) => db.reservations[k := r]
    case Pay(k, r, _, _) => db.reservations[k := r]
    case Publish(k, r, _) => db.reservations[k := r]
    case Grant(_, z, r, _) => db.reservations[z.bound.reservationId := r]
    case _ => db.reservations
  }

  function Budgets(db: Db, m: Move): map<Id, Budget> {
    match m
    case Draw(_, r, b, _) => db.budgets[r.budgetId := b]
    case Pay(_, r, b, _) => db.budgets[r.budgetId := b]
    case _ => db.budgets
  }

  function Broadcasts(db: Db, m: Move): map<Id, BroadcastEvidence> {
    match m
    case Publish(k, _, e) => db.broadcasts[k := e]
    case Prove(k, e) => db.broadcasts[k := e]
    case _ => db.broadcasts
  }

  function Leases(db: Db, m: Move): map<Id, Lease> {
    match m
    case Claim(o, lease, _) => db.leases[o := lease]
    case Record(_, row, lease, _) => db.leases[row.operationId := lease]
    case _ => db.leases
  }

  function ApprovalRows(db: Db, m: Move): map<Id, Approval> {
    match m
    case AddApproval(k, a) => db.approvals[k := a]
    case SetApproval(k, a) => db.approvals[k := a]
    case Grant(_, z, _, _) =>
      if z.source.OwnerApproval? && z.source.approvalId in db.approvals
      then db.approvals[z.source.approvalId := db.approvals[z.source.approvalId].(status := Consumed)]
      else db.approvals
    case _ => db.approvals
  }

  function Perform(db: Db, m: Move): Db {
    Db(db.registry,
       if m.Raise? then m.policies else db.policies,
       Budgets(db, m),
       Reservations(db, m),
       if m.Draw? then db.idempotency[m.reservation.idempotencyKey := m.record] else db.idempotency,
       Broadcasts(db, m),
       Operations(db, m),
       History(db, m),
       if m.PutEnvelope? then db.envelopes[m.envelopeId := m.envelope] else db.envelopes,
       if m.PutDecision? then db.decisions[m.decisionId := m.decision] else db.decisions,
       if m.AddFences? then m.fences else if m.Raise? then db.fences[m.scope := m.fence] else db.fences,
       ApprovalRows(db, m),
       if m.Grant? then db.authorizations[m.authorizationId := m.authorization] else db.authorizations,
       if m.Invalidate? then db.invalidated + {m.authorizationId} else db.invalidated,
       Leases(db, m),
       if m.Record? then db.recoveries[m.attemptId := m.attempt] else db.recoveries,
       if m.Sign? then db.signed[m.signedId := m.signed] else db.signed,
       Attempts(db, m),
       if m.Witness? then db.chain[m.transactionHash := m.chainEvidence] else db.chain,
       if m.Book? then db.effects[m.operationId := m.effect] else db.effects)
  }

  function Attempts(db: Db, m: Move): seq<Attempt> {
    match m
    case Start(row) => db.attempts + [row]
    case Finish(id, status) => Finished(db.attempts, id, status)
    case _ => db.attempts
  }

  // ----- when a move is legal --------------------------------------------------------------

  /** Budget, operation, intent and policy belong together, and one owner owns the agent, the wallet and the policy. */
  predicate Accounted(db: Db, operationId: Id, budgetId: Id) {
    && operationId in db.operations && budgetId in db.budgets
    && var op, b := db.operations[operationId], db.budgets[budgetId];
    && op.intentId in db.registry.intents
    && op.agentId in db.registry.agentOwner
    && op.walletId in db.registry.walletOwner
    && op.policyId in db.policies
    && var intent, policy := db.registry.intents[op.intentId], db.policies[op.policyId];
    && op.agentId == b.agentId == intent.agentId == policy.agentId
    && op.walletId == b.walletId == intent.walletId == policy.walletId
    && op.policyId == b.policyId == intent.policyId
    && op.policyVersion == b.policyVersion == intent.policyVersion
    && db.registry.agentOwner[op.agentId] == policy.ownerId == db.registry.walletOwner[op.walletId]
  }

  /**
   The envelope and the decision of a binding are those of its operation, say the same as it does,
   and hash to what it names.
   */
  predicate Sealed(db: Db, b: Binding, verdict: Verdict) {
    && b.operationId in db.operations && b.envelopeId in db.envelopes && b.decisionId in db.decisions
    && var op, e, d := db.operations[b.operationId], db.envelopes[b.envelopeId], db.decisions[b.decisionId];
    && b.policyId == d.policyId == e.payload.policyId
    && b.policyVersion == d.policyVersion == e.payload.policyVersion
    && b.operationId == e.operationId == d.operationId
    && b.envelopeRevision == e.revision
    && b.envelopeHash == e.hash == EnvelopeDigest(e.payload)
    && b.decisionHash == d.hash == e.payload.decisionHash
    && b.reservationId == e.payload.reservationId
    && op.intentId == e.payload.intentId
    && op.agentId == e.payload.agentId
    && op.walletId == e.payload.walletId
    && d.verdict == verdict
  }

  /** The policy of a binding is that of its operation. */
  predicate OwnPolicy(db: Db, b: Binding) {
    && b.operationId in db.operations
    && db.operations[b.operationId].policyId == b.policyId
    && db.operations[b.operationId].policyVersion == b.policyVersion
  }

  /** No envelope of the operation has a later revision. */
  predicate NewestRevision(db: Db, operationId: Id, revision: nat) {
    forall e | e in db.envelopes :: db.envelopes[e].operationId == operationId ==> db.envelopes[e].revision <= revision
  }

  /** A reservation of the operation, drawn on a budget that is there. */
  predicate Reserved(db: Db, operationId: Id, reservationId: Id) {
    && reservationId in db.reservations
    && db.reservations[reservationId].operationId == operationId
    && db.reservations[reservationId].budgetId in db.budgets
  }

  /** The four fences over a bound operation exist, and these are their current rows. */
  predicate AreCurrent(db: Db, b: Binding, fences: Fences) {
    && b.operationId in db.operations
    && var op := db.operations[b.operationId];
    && op.agentId in db.registry.agentOwner
    && var owner := db.registry.agentOwner[op.agentId];
    && SystemScope in db.fences && db.fences[SystemScope] == fences.system
    && OwnerScope(owner) in db.fences && db.fences[OwnerScope(owner)] == fences.owner
    && AgentScope(op.agentId) in db.fences && db.fences[AgentScope(op.agentId)] == fences.agent
    && PolicyScope(b.policyId) in db.fences && db.fences[PolicyScope(b.policyId)] == fences.policy
  }

  predicate Unblocked(f: Fences) {
    && f.system.state == Active
    && f.owner.state == Active
    && f.agent.state == Active
    && f.policy.state == Active
  }

  /** Nothing over the operation is paused or revoked. */
  predicate Open(db: Db, operationId: Id) {
    && operationId in db.operations
    && var op := db.operations[operationId];
    && op.agentId in db.registry.agentOwner
    && SystemScope in db.fences && db.fences[SystemScope].state == Active
    && var owner := OwnerScope(db.registry.agentOwner[op.agentId]);
    && owner in db.fences && db.fences[owner].state == Active
    && AgentScope(op.agentId) in db.fences && db.fences[AgentScope(op.agentId)].state == Active
    && PolicyScope(op.policyId) in db.fences && db.fences[PolicyScope(op.policyId)].state == Active
  }

  predicate LegalDraw(db: Db, k: Id, r: Reservation, b: Budget, record: IdempotencyRecord) {
    && k !in db.reservations
    && (forall j | j in db.reservations :: db.reservations[j].operationId != r.operationId)
    && r.idempotencyKey !in db.idempotency
    && record.reservationId == k
    && Accounted(db, r.operationId, r.budgetId)
    && Open(db, r.operationId)
    && db.policies[db.operations[r.operationId].policyId].status != RevokedPolicy
    && r.amount > 0
    && r == Reservation(r.budgetId, r.operationId, r.idempotencyKey, r.amount, r.expiresAt, 0, Held, None, true)
    && var was := db.budgets[r.budgetId];
    && was.available >= r.amount
    && b == was.(available := was.available - r.amount, reserved := was.reserved + r.amount, version := was.version + 1)
  }

  /** The stored receipt of k, verified, is what the proof refers to. */
  predicate Proved(db: Db, k: Id, proof: Option<Text>) {
    && k in db.broadcasts
    && db.broadcasts[k].verified
    && proof == Some(db.broadcasts[k].receipt.receiptReference)
  }

  /** Recovery attempt a found that reservation k's transaction failed without spending. */
  predicate RevertRecorded(db: Db, k: Id, a: Id) {
    && a in db.recoveries
    && db.recoveries[a].reservationId == k
    && db.recoveries[a].outcome == FailedOutcome
    && db.recoveries[a].actualSpend == Some(0)
    && Proved(db, k, db.recoveries[a].proofReference)
  }

  predicate LegalPay(db: Db, k: Id, r: Reservation, b: Budget, how: How) {
    && Funded(db, k)
    && var was := db.reservations[k];
    && var had := db.budgets[was.budgetId];
    && var returned := had.(available := had.available + was.amount, reserved := had.reserved - was.amount,
      version := had.version + 1);
    && r.budgetId == was.budgetId
    && match how
       case Returned =>
         && was.status in {Held, Authorized}
         && r.status in {Released, Expired}
         && r == was.(status := r.status, encumbered := false)
         && b == returned
       case Reverted(a) =>
         && was.status == Broadcast
         && RevertRecorded(db, k, a)
         && r == was.(status := Released, encumbered := false)
         && b == returned
       case Spent =>
         && was.status == Broadcast
         && r.finalizedSpend <= was.amount
         && Proved(db, k, r.proofReference)
         && r == was.(status := Finalized, encumbered := false, finalizedSpend := r.finalizedSpend,
           proofReference := r.proofReference)
         && b == returned.(available := returned.available - r.finalizedSpend,
           finalizedSpend := had.finalizedSpend + r.finalizedSpend)
       case Contested =>
         && was.status != Disputed
         && r == was.(status := Disputed)
         && b == had
  }

  predicate LegalPublish(db: Db, k: Id, r: Reservation, e: BroadcastEvidence) {
    && k in db.reservations
    && db.reservations[k].status == Authorized
    && r == db.reservations[k].(status := Broadcast)
    && k !in db.broadcasts
    && !e.verified
  }

  /** No lease of the operation is live, and the new one has the next version and a bounded time. */
  predicate LegalClaim(db: Db, o: Id, lease: Lease, now: Time) {
    && Reserved(db, o, lease.reservationId)
    && (o in db.leases ==> !db.leases[o].active || db.leases[o].expiresAt <= now)
    && lease.active
    && lease.version == (if o in db.leases then db.leases[o].version + 1 else 1)
    && now < lease.expiresAt <= now + 300000
  }

  predicate LegalRecord(db: Db, id: Id, row: RecoveryAttempt, lease: Lease, now: Time) {
    && id !in db.recoveries
    && row.operationId in db.leases
    && var newest := db.leases[row.operationId];
    && newest.active
    && now < newest.expiresAt
    && row.leaseVersion == newest.version
    && row.reservationId == newest.reservationId
    && row.credentialId == newest.credentialId
    && lease == newest.(active := false)
  }

  /** The rows a new approval or authorization is bound to are there, in order, and under active fences. */
  predicate LegalBinding(db: Db, b: Binding, fences: Fences, verdict: Verdict) {
    && Sealed(db, b, verdict)
    && NewestRevision(db, b.operationId, b.envelopeRevision)
    && Reserved(db, b.operationId, b.reservationId)
    && db.reservations[b.reservationId].status == Held
    && AreCurrent(db, b, fences)
    && Unblocked(fences)
  }

  predicate LegalApproval(db: Db, k: Id, a: Approval) {
    && k !in db.approvals
    && LegalBinding(db, a.bound, a.fences, RequireApproval)
    && OwnPolicy(db, a.bound)
    && db.operations[a.bound.operationId].state == L.AwaitingApproval
    && a.status == Pending && a.approverId == None
    && var e := db.envelopes[a.bound.envelopeId].payload;
    e.createdAt <= a.issuedAt < a.expiresAt <= e.expiresAt
  }

  /** An active approval is decided or closed; only a pending one can be approved or rejected. */
  predicate LegalDecision(was: Approval, a: Approval) {
    && IsActive(was)
    && a == was.(status := a.status, approverId := a.approverId)
    && match a.status
       case Approved => was.status == Pending && a.approverId.Some?
       case Rejected => was.status == Pending && a.approverId.Some?
       case ApprovalExpired => a.approverId == was.approverId
       case ApprovalRevoked => a.approverId.Some? && (was.approverId.Some? ==> a.approverId == was.approverId)
       case _ => false
  }

  /** What an owner's approval turns into when it is consumed. */
  predicate LegalConsumption(db: Db, id: Id, z: Authorization, a: Id) {
    && a in db.approvals
    && var approval := db.approvals[a];
    && approval.status == Approved
    && (approval.bound, approval.fences) == (z.bound, z.fences)
    && (approval.issuedAt, approval.expiresAt) == (z.issuedAt, z.expiresAt)
    && id == Id(a.text + Lit(":authorization"))
    && z.bound.operationId in db.operations && db.operations[z.bound.operationId].state == L.AwaitingApproval
  }

  /** What the policy may authorize by itself. */
  predicate LegalAutonomy(db: Db, z: Authorization, now: Time) {
    && OwnPolicy(db, z.bound)
    && db.operations[z.bound.operationId].state == L.EnvelopeFinalized
    && z.bound.policyId in db.policies && db.policies[z.bound.policyId].status == ActivePolicy
    && z.bound.envelopeId in db.envelopes
    && var e := db.envelopes[z.bound.envelopeId].payload;
    && !e.ownerApproval
    && e.riskAllowed
    && (z.issuedAt, z.expiresAt) == (e.createdAt, e.expiresAt)
    && z.bound.reservationId in db.reservations && now < db.reservations[z.bound.reservationId].expiresAt
    && (forall k | k in db.authorizations :: db.authorizations[k].bound.operationId != z.bound.operationId)
  }

  function VerdictFor(source: Source): Verdict {
    match source
    case OwnerApproval(_) => RequireApproval
    case AutonomousPolicy => AllowAutonomous
  }

  predicate LegalGrant(db: Db, id: Id, z: Authorization, r: Reservation, now: Time) {
    && id !in db.authorizations
    && LegalBinding(db, z.bound, z.fences, VerdictFor(z.source))
    && r == db.reservations[z.bound.reservationId].(status := Authorized)
    && z.issuedAt <= now < z.expiresAt
    && match z.source
       case OwnerApproval(a) => LegalConsumption(db, id, z, a)
       case AutonomousPolicy => LegalAutonomy(db, z, now)
  }

  predicate LegalSign(db: Db, id: Id, s: SignedTransaction, now: Time) {
    && id !in db.signed
    && MaySign(db, s.operationId, s.authorizationId, now)
    && var b := db.authorizations[s.authorizationId].bound;
    && (s.reservationId, s.envelopeId) == (b.reservationId, b.envelopeId)
    && (s.envelopeRevision, s.envelopeHash) == (b.envelopeRevision, b.envelopeHash)
    && forall k | k in db.signed :: db.signed[k].transactionHash != s.transactionHash
  }

  /** The first attempt with its id and at its signed transaction. */
  predicate LegalStart(db: Db, row: Attempt) {
    && row.signedId in db.signed
    && var s := db.signed[row.signedId];
    && row == Attempt(row.attemptId, row.signedId, s.operationId, s.authorizationId, s.reservationId, s.transactionHash,
      Started)
    && forall i | 0 <= i < |db.attempts| ::
         db.attempts[i].attemptId != row.attemptId && db.attempts[i].signedId != row.signedId
  }

  /** One effect for each operation and each transaction, and only for a transaction with evidence. */
  predicate LegalBook(db: Db, o: Id, effect: Effect) {
    && o !in db.effects
    && effect.transactionHash in db.chain
    && forall k | k in db.effects :: db.effects[k].transactionHash != effect.transactionHash
  }

  /** Rows are only added. */
  predicate Grows<K, V(==)>(before: map<K, V>, after: map<K, V>) {
    before.Keys <= after.Keys && forall k | k in before :: after[k] == before[k]
  }

  /** A policy can only be revoked. */
  predicate PoliciesEvolve(before: map<Id, Policy>, after: map<Id, Policy>) {
    && before.Keys == after.Keys
    && forall p | p in before :: after[p] == before[p] || after[p] == before[p].(status := RevokedPolicy)
  }

  /** Attempts are only added, and only their status changes. */
  predicate AttemptsGrow(before: seq<Attempt>, after: seq<Attempt>) {
    && |before| <= |after|
    && forall i | 0 <= i < |before| :: after[i] == before[i].(status := after[i].status)
  }

  /** The system is paused or resumed; anything else is revoked, a policy together with its fence. */
  predicate LegalRaise(db: Db, scope: Scope, fence: Fence, policies: map<Id, Policy>) {
    && scope in db.fences
    && fence.version == db.fences[scope].version + 1
    && fence.state != db.fences[scope].state
    && match scope
       case SystemScope => fence.state in {Active, Paused} && policies == db.policies
       case PolicyScope(p) =>
         && fence.state == Revoked
         && p in db.policies && policies == db.policies[p := db.policies[p].(status := RevokedPolicy)]
       case _ => fence.state == Revoked && policies == db.policies
  }

  predicate Legal(db: Db, m: Move) {
    match m
    case AddFences(fences) =>
      Grows(db.fences, fences) && forall s | s in fences && s !in db.fences :: IsFirst(fences[s], db.policies, s)
    case Raise(scope, fence, policies) => LegalRaise(db, scope, fence, policies)
    case Draw(k, r, b, record) => LegalDraw(db, k, r, b, record)
    case Pay(k, r, b, how) => LegalPay(db, k, r, b, how)
    case Publish(k, r, e) => LegalPublish(db, k, r, e)
    case Prove(k, e) => k in db.broadcasts && e == db.broadcasts[k].(verified := true)
    case Claim(o, lease, now) => LegalClaim(db, o, lease, now)
    case Record(id, row, lease, now) => LegalRecord(db, id, row, lease, now)
    case Step(o, to) => o in db.operations && L.IsEdge(db.operations[o].state, to) && to != L.Authorized
    case Jump(o) => o in db.operations && L.IsEdge(db.operations[o].state, L.Authorized)
    case PutEnvelope(k, e) =>
      && (k in db.envelopes ==> db.envelopes[k] == e)
      && e == Envelope(e.operationId, e.payload.revision, EnvelopeDigest(e.payload), e.payload)
      && k == e.payload.envelopeId
    case PutDecision(k, d) =>
      && (k in db.decisions ==> db.decisions[k] == d)
      && d.operationId in db.operations
      && db.operations[d.operationId].policyId == d.policyId
      && db.operations[d.operationId].policyVersion == d.policyVersion
    case AddApproval(k, a) => LegalApproval(db, k, a)
    case SetApproval(k, a) => k in db.approvals && LegalDecision(db.approvals[k], a)
    case Grant(id, z, r, now) => LegalGrant(db, id, z, r, now)
    case Invalidate(z) => z in db.authorizations
    case Sign(id, s, now) => LegalSign(db, id, s, now)
    case Start(row) => LegalStart(db, row)
    case Finish(id, _) => exists i | 0 <= i < |db.attempts| :: db.attempts[i].attemptId == id
    case Witness(hash, evidence) => hash in db.chain ==> db.chain[hash] == evidence
    case Book(o, effect) => LegalBook(db, o, effect)
  }

  // ----- what legality says about the operation of a move ----------------------------------

  lemma GrantIsEdge(db: Db, id: Id, z: Authorization, r: Reservation, now: Time)
    requires LegalGrant(db, id, z, r, now)
    ensures z.bound.operationId in db.operations && L.IsEdge(db.operations[z.bound.operationId].state, L.Authorized)
    ensures z.bound.reservationId in db.reservations && db.reservations[z.bound.reservationId].status == Held
    ensures r == db.reservations[z.bound.reservationId].(status := Authorized)
    ensures id !in db.authorizations
  {}

  lemma SignIsBound(db: Db, id: Id, s: SignedTransaction, now: Time)
    requires LegalSign(db, id, s, now)
    ensures s.operationId in db.operations && !L.SignedOrLater(db.operations[s.operationId].state)
    ensures id !in db.signed
  {}

  // ----- sequences of moves ----------------------------------------------------------------

  /** What a transaction is for; each kind makes its own moves, and all of them make plain ones. */
  datatype Kind =
    | Plain | Raising | Jumping | Signing | Trying
    | Drawing | Publishing | Proving | Expiring | Finalizing | Disputing | Claiming | Resolving
    | Requesting | Approving | Rejecting | Consuming | Granting

  /** Which kinds of transaction make which moves. */
  predicate May(kind: Kind, m: Move) {
    match m
    case Raise(_, _, _) => kind == Raising
    case Invalidate(_) => kind == Raising
    case Jump(_) => kind == Jumping
    case Draw(_, _, _, _) => kind == Drawing
    case Pay(_, r, _, Returned) => r.status == Released || kind in {Expiring, Approving, Consuming}
    case Pay(_, _, _, Reverted(_)) => kind == Resolving
    case Pay(_, _, _, Spent) => kind in {Finalizing, Resolving}
    case Pay(_, _, _, Contested) => kind in {Disputing, Resolving}
    case Publish(_, _, _) => kind == Publishing
    case Prove(_, _) => kind in {Proving, Resolving}
    case Claim(_, _, _) => kind == Claiming
    case Record(_, _, _, _) => kind == Resolving
    case AddApproval(_, _) => kind == Requesting
    case SetApproval(_, a) =>
      (match a.status
       case Approved => kind == Approving
       case Rejected => kind == Rejecting
       case ApprovalExpired => kind in {Approving, Consuming}
       case _ => true)
    case Grant(_, z, _, _) => kind == if z.source.OwnerApproval? then Consuming else Granting
    case Sign(_, _, _) => kind == Signing
    case Start(_) => kind == Trying
    case Finish(_, _) => kind == Trying
    case _ => true
  }

  function Play(db: Db, ms: seq<Move>): Db {
    if ms == [] then db else Perform(Play(db, ms[..|ms| - 1]), ms[|ms| - 1])
  }

  predicate LegalPlay(db: Db, ms: seq<Move>, kind: Kind) {
    ms != [] ==>
      var front, last := ms[..|ms| - 1], ms[|ms| - 1];
      && LegalPlay(db, front, kind)
      && Legal(Play(db, front), last)
      && May(kind, last)
  }

  /** Some legal moves that the given kind makes lead from one database to the other. */
  ghost predicate Reaches(db: Db, next: Db, kind: Kind) {
    exists ms :: LegalPlay(db, ms, kind) && Play(db, ms) == next
  }

  lemma Stay(db: Db, kind: Kind)
    ensures Reaches(db, db, kind)
  {
    assert LegalPlay(db, [], kind) && Play(db, []) == db;
  }

  lemma Extend(db: Db, next: Db, m: Move, kind: Kind)
    requires Reaches(db, next, kind) && Legal(next, m) && May(kind, m)
    ensures Reaches(db, Perform(next, m), kind)
  {
    hide Legal, Perform;
    var ms :| LegalPlay(db, ms, kind) && Play(db, ms) == next;
    var longer := ms + [m];
    assert longer[..|longer| - 1] == ms;
    assert LegalPlay(db, longer, kind) && Play(db, longer) == Perform(next, m);
  }

  lemma {:induction false} WeakenPlay(db: Db, ms: seq<Move>, kind: Kind)
    requires LegalPlay(db, ms, Plain)
    ensures LegalPlay(db, ms, kind)
  {
    hide Legal, Perform;
    if ms != [] {
      WeakenPlay(db, ms[..|ms| - 1], kind);
    }
  }

  lemma Weaken(db: Db, next: Db, kind: Kind)
    requires Reaches(db, next, Plain)
    ensures Reaches(db, next, kind)
  {
    var ms :| LegalPlay(db, ms, Plain) && Play(db, ms) == next;
    WeakenPlay(db, ms, kind);
  }

  lemma {:induction false} JoinPlays(db: Db, mid: Db, ms: seq<Move>, kind: Kind)
    requires Reaches(db, mid, kind) && LegalPlay(mid, ms, kind)
    ensures Reaches(db, Play(mid, ms), kind)
  {
    hide Legal, Perform;
    if ms != [] {
      var front := ms[..|ms| - 1];
      JoinPlays(db, mid, front, kind);
      Extend(db, Play(mid, front), ms[|ms| - 1], kind);
    }
  }

  lemma Join(db: Db, mid: Db, next: Db, kind: Kind)
    requires Reaches(db, mid, kind) && Reaches(mid, next, kind)
    ensures Reaches(db, next, kind)
  {
    var ms :| LegalPlay(mid, ms, kind) && Play(mid, ms) == next;
    JoinPlays(db, mid, ms, kind);
  }
}
