/**
 The durable steps of signing, broadcasting and reconciling
 (adapters/local-anvil/src/signer-store.ts, broadcast-store.ts, execution-store.ts, reconciliation.ts)
 and of preparing an operation (packages/transaction-pipeline/src/preparation.ts).
 */
module Execution {
  import opened Texts
  import opened Schema
  import opened Fencing
  import opened Ledger
  import L = Lifecycle

  // ----- preparation -----------------------------------------------------------------------

  /** advanceOperationLifecycle: one step along the table, whatever step the caller names. */
  function Advance(db: Db, operationId: Id, expected: L.State, next: L.State): Tx<()> {
    if !L.IsEdge(expected, next) then Abort(PreparationFailed)
    else if operationId !in db.operations || db.operations[operationId].state != expected then Abort(PreparationFailed)
    else Commit(SetState(db, operationId, next), ())
  }

  function PersistDecision(db: Db, decisionId: Id, d: Decision): Tx<()> {
    if d.operationId !in db.operations || db.operations[d.operationId].state != L.Simulated
      then Abort(PreparationFailed)
    else if (d.policyId, d.policyVersion) != (db.operations[d.operationId].policyId,
      db.operations[d.operationId].policyVersion) then
      Abort(PreparationFailed)
    else if decisionId in db.decisions && db.decisions[decisionId] != d then Abort(PreparationFailed)
    else Commit(SetState(db, d.operationId, L.PolicyFinalized).(decisions := db.decisions[decisionId := d]), ())
  }

  function PersistEnvelope(db: Db, operationId: Id, e: EnvelopePayload): Tx<()> {
    var row := Envelope(operationId, e.revision, EnvelopeDigest(e), e);
    if operationId !in db.operations || db.operations[operationId].state != L.BudgetReserved
      then Abort(PreparationFailed)
    else if !(exists r | r in db.reservations ::
      db.reservations[r].operationId == operationId && db.reservations[r].status == Held) then
      Abort(PreparationFailed)
    else if e.envelopeId in db.envelopes && db.envelopes[e.envelopeId] != row then Abort(PreparationFailed)
    else Commit(SetState(db, operationId, L.EnvelopeFinalized).(envelopes := db.envelopes[e.envelopeId := row]), ())
  }

  // ----- signing ---------------------------------------------------------------------------

  /** The evidence behind an authorization is of the kind its source demands. */
  predicate SourceHolds(db: Db, z: Authorization) {
    && z.bound.decisionId in db.decisions
    && var d := db.decisions[z.bound.decisionId];
    && d.operationId == z.bound.operationId
    && d.hash == z.bound.decisionHash
    && match z.source
       case OwnerApproval(a) =>
         d.verdict == RequireApproval && a in db.approvals && db.approvals[a].status == Consumed
           && db.approvals[a].approverId.Some?
       case AutonomousPolicy => d.verdict == AllowAutonomous
  }

  /** assertCurrentSigningAuthority; the owner is found through the wallet. */
  predicate MaySign(db: Db, operationId: Id, authorizationId: Id, now: Time) {
    && operationId in db.operations
    && authorizationId in db.authorizations
    && authorizationId !in db.invalidated
    && var op, z := db.operations[operationId], db.authorizations[authorizationId];
    && z.bound.operationId == operationId
    && op.walletId in db.registry.walletOwner
    && z.bound.reservationId in db.reservations
    && db.reservations[z.bound.reservationId].operationId == operationId
    && db.reservations[z.bound.reservationId].status == Authorized
    && z.bound.envelopeId in db.envelopes
    && var e := db.envelopes[z.bound.envelopeId];
    && (e.operationId, e.revision, e.hash) == (operationId, z.bound.envelopeRevision, z.bound.envelopeHash)
    && !Superseded(db, operationId, z.bound.envelopeRevision)
    && z.expiresAt > now
    && op.state in {L.Authorized, L.Signing}
    && SourceHolds(db, z)
    && db.decisions[z.bound.decisionId].policyId == op.policyId
    && db.decisions[z.bound.decisionId].policyVersion == op.policyVersion
    && var owner := db.registry.walletOwner[op.walletId];
    && Scopes(owner, op.agentId, op.policyId) <= db.fences.Keys
    && var current := Read(db.fences, owner, op.agentId, op.policyId);
    && AllActive(current)
    && (current.system.version, current.owner.version, current.agent.version, current.policy.version)
       == (z.fences.system.version, z.fences.owner.version, z.fences.agent.version, z.fences.policy.version)
  }

  function BeginSigning(db: Db, operationId: Id, authorizationId: Id, now: Time): Tx<()> {
    if !MaySign(db, operationId, authorizationId, now) then Abort(SigningAuthorityInvalid)
    else if db.operations[operationId].state == L.Authorized then Commit(SetState(db, operationId, L.Signing), ())
    else Commit(db, ())
  }

  function PersistSigned(db: Db, signedId: Id, s: SignedTransaction, now: Time): Tx<()> {
    if !MaySign(db, s.operationId, s.authorizationId, now) then Abort(SigningAuthorityInvalid)
    else
      var b := db.authorizations[s.authorizationId].bound;
      if (s.reservationId, s.envelopeId, s.envelopeRevision, s.envelopeHash)
         != (b.reservationId, b.envelopeId, b.envelopeRevision, b.envelopeHash) then Abort(SigningAuthorityInvalid)
      else if signedId in db.signed || (exists k | k in db.signed :: db.signed[k].transactionHash == s.transactionHash)
        then Abort(DuplicateKey)
      else Commit(SetState(db, s.operationId, L.Signed).(signed := db.signed[signedId := s]), ())
  }

  // ----- broadcasting ----------------------------------------------------------------------

  /** The oldest attempt with this id or for this signed transaction. */
  function FirstAttempt(attempts: seq<Attempt>, attemptId: Id, signedId: Id): Option<Attempt> {
    if attempts == [] then None
    else if attempts[0].attemptId == attemptId || attempts[0].signedId == signedId then Some(attempts[0])
    else FirstAttempt(attempts[1..], attemptId, signedId)
  }

  /** findBroadcastAttempt: the oldest attempt for an operation under an authorization. */
  function FindAttempt(attempts: seq<Attempt>, operationId: Id, authorizationId: Id): Option<Attempt> {
    if attempts == [] then None
    else if attempts[0].operationId == operationId && attempts[0].authorizationId == authorizationId
      then Some(attempts[0])
    else FindAttempt(attempts[1..], operationId, authorizationId)
  }

  function StartAttempt(db: Db, signedId: Id, reservationId: Id, attemptId: Id): Tx<Attempt> {
    if reservationId !in db.reservations || db.reservations[reservationId].status != Authorized
      then Abort(BroadcastRefused)
    else
      var existing := FirstAttempt(db.attempts, attemptId, signedId);
      if existing.Some? then Commit(db, existing.value)
      else if signedId !in db.signed then Abort(BroadcastRefused)
      else
        var s := db.signed[signedId];
        var row := Attempt(attemptId, signedId, s.operationId, s.authorizationId, s.reservationId, s.transactionHash,
          Started);
        Commit(db.(attempts := db.attempts + [row]), row)
  }

  function Finished(attempts: seq<Attempt>, attemptId: Id, status: AttemptStatus): (next: seq<Attempt>)
    ensures |next| == |attempts|
    ensures forall i :: 0 <= i < |attempts| ==>
      next[i] == if attempts[i].attemptId == attemptId then attempts[i].(status := status) else attempts[i]
  {
    seq(|attempts|, i requires 0 <= i < |attempts| =>
      if attempts[i].attemptId == attemptId then attempts[i].(status := status) else attempts[i])
  }

  function FinishAttempt(db: Db, attemptId: Id, status: AttemptStatus): Tx<()> {
    if !(exists i | 0 <= i < |db.attempts| :: db.attempts[i].attemptId == attemptId) then Abort(BroadcastRefused)
    else Commit(db.(attempts := Finished(db.attempts, attemptId, status)), ())
  }

  // ----- reconciling -----------------------------------------------------------------------

  function PersistChainEvidence(db: Db, transactionHash: Hash, evidence: ChainEvidence): Tx<()> {
    if transactionHash in db.chain && db.chain[transactionHash] != evidence then Abort(ReconciliationFailed)
    else Commit(db.(chain := db.chain[transactionHash := evidence]), ())
  }

  /** INSERT ... SELECT FROM chain_receipt_evidence ... ON CONFLICT (operation_id) DO NOTHING. */
  function InsertEffect(db: Db, operationId: Id, effect: Effect): Tx<()> {
    if operationId in db.effects then
      if db.effects[operationId] != effect then Abort(ReconciliationFailed) else Commit(db, ())
    else if effect.transactionHash !in db.chain then Abort(ReconciliationFailed)
    else if exists k | k in db.effects :: db.effects[k].transactionHash == effect.transactionHash
      then Abort(DuplicateKey)
    else Commit(db.(effects := db.effects[operationId := effect]), ())
  }

  /** Walk the operation along a path, skipping the step it already stands on. */
  function Walk(db: Db, operationId: Id, path: seq<L.State>): Result<Db>
    requires operationId in db.operations
    decreases |path|
  {
    if path == [] then Ok(db)
    else
      var state := db.operations[operationId].state;
      if state == path[0] then Walk(db, operationId, path[1..])
      else if !L.IsEdge(state, path[0]) then Err(ReconciliationFailed)
      else Walk(SetState(db, operationId, path[0]), operationId, path[1..])
  }

  const CONFIRMED_PATH := [L.Broadcast, L.PendingConfirmation, L.Confirmed, L.Reconciled]
  const REVERTED_PATH := [L.Broadcast, L.PendingConfirmation, L.Reverted, L.Reconciled]

  /** advanceOperationLifecycle of the reconciler; target is Reconciled or Disputed. */
  function AdvanceTo(db: Db, operationId: Id, target: L.State, confirmed: bool): Tx<()> {
    if operationId !in db.operations then Abort(ReconciliationFailed)
    else if db.operations[operationId].state in {target, L.Reconciled} then Commit(db, ())
    else
      var path := if target == L.Disputed then [L.Disputed] else if confirmed then CONFIRMED_PATH else REVERTED_PATH;
      var walked := Walk(db, operationId, path);
      if walked.Err? then Abort(walked.error) else Commit(walked.value, ())
  }
}
