/**
 The shared database: one value holding every table the protocol reads or writes, and the
 result of a transaction over it.

 Keys are enforced where rows are inserted. Triggers and CHECK constraints are not part of the
 model: they can only abort more transactions.
 */
module Schema {
  import opened Texts
  import L = Lifecycle

  /** An identifier, known by its text. */
  datatype Id = Id(text: Text)

  /** Milliseconds on whichever clock the transaction reads. */
  type Time = int

  // ----- digests ---------------------------------------------------------------------------

  /** Collision-free digests: a digest is identified with what was hashed. */
  datatype Hash =
    | Sha256(text: Text)
    | Keccak(bytes: Text)
    | EnvelopeDigest(payload: EnvelopePayload)
    | ResolutionDigest(caller: Caller, resolution: Resolution, proof: Option<Receipt>)

  // ----- registry --------------------------------------------------------------------------

  datatype Intent = Intent(agentId: Id, walletId: Id, policyId: Id, policyVersion: nat)

  /** Owners, agents and wallets with their owners, and intents. No transaction here changes these. */
  datatype Registry = Registry(owners: set<Id>, agentOwner: map<Id, Id>, walletOwner: map<Id, Id>, intents: map<Id,
      Intent>)

  datatype PolicyStatus = DraftPolicy | ActivePolicy | SupersededPolicy | RevokedPolicy

  datatype Policy = Policy(ownerId: Id, agentId: Id, walletId: Id, status: PolicyStatus)

  // ----- money -----------------------------------------------------------------------------

  datatype Budget = Budget(
    agentId: Id, walletId: Id, policyId: Id, policyVersion: nat,
    allocation: int, available: int, reserved: int, finalizedSpend: int, version: nat)

  datatype ReservationStatus = Held | Authorized | Broadcast | Finalized | Released | Expired | Disputed

  /** encumbered is not a column: it records whether the amount is still inside the budget's reserved part. */
  datatype Reservation = Reservation(
    budgetId: Id, operationId: Id, idempotencyKey: Id, amount: nat, expiresAt: Time,
    finalizedSpend: nat, status: ReservationStatus, proofReference: Option<Text>, encumbered: bool)

  datatype IdempotencyRecord = IdempotencyRecord(payloadHash: Hash, reservationId: Id)

  /** The transaction a broadcast claims and the receipt that will prove it. */
  datatype Receipt = Receipt(transactionHash: Hash, nonce: nat, receiptReference: Text)

  datatype BroadcastEvidence = BroadcastEvidence(receipt: Receipt, verified: bool)

  // ----- operations ------------------------------------------------------------------------

  datatype Operation = Operation(
    intentId: Id, agentId: Id, walletId: Id, policyId: Id, policyVersion: nat, state: L.State)

  /** One entry of the audit trail: an operation's state was written. */
  datatype StateChange = StateChange(operationId: Id, from: L.State, to: L.State)

  datatype EnvelopePayload = EnvelopePayload(
    envelopeId: Id, revision: nat, supersedes: Option<Id>,
    intentId: Id, agentId: Id, walletId: Id, policyId: Id, policyVersion: nat,
    decisionHash: Text, reservationId: Id, createdAt: Time, expiresAt: Time,
    ownerApproval: bool, riskAllowed: bool)

  datatype Envelope = Envelope(operationId: Id, revision: nat, hash: Hash, payload: EnvelopePayload)

  datatype Verdict = AllowRead | AllowAutonomous | RequireApproval | Deny | Indeterminate

  datatype Decision = Decision(operationId: Id, policyId: Id, policyVersion: nat, verdict: Verdict, hash: Text)

  // ----- control fences --------------------------------------------------------------------

  datatype Scope = SystemScope | OwnerScope(ownerId: Id) | AgentScope(agentId: Id) | PolicyScope(policyId: Id)

  datatype FenceState = Active | Paused | Revoked

  datatype Fence = Fence(version: nat, state: FenceState)

  /** The four fences over one operation, as read at one moment. */
  datatype Fences = Fences(system: Fence, owner: Fence, agent: Fence, policy: Fence)

  // ----- approvals and authorizations ------------------------------------------------------

  datatype ApprovalStatus = Pending | Approved | Rejected | ApprovalExpired | ApprovalRevoked | Consumed

  /** What an approval or an authorization is bound to. */
  datatype Binding = Binding(
    operationId: Id, reservationId: Id, envelopeId: Id, envelopeRevision: nat, envelopeHash: Hash,
    decisionId: Id, decisionHash: Text, policyId: Id, policyVersion: nat)

  datatype Approval = Approval(
    bound: Binding, approverId: Option<Id>, issuedAt: Time, expiresAt: Time, nonce: Id,
    status: ApprovalStatus, fences: Fences)

  datatype Source = OwnerApproval(approvalId: Id) | AutonomousPolicy

  datatype Authorization = Authorization(
    source: Source, bound: Binding, issuedAt: Time, expiresAt: Time,
    consumerId: Id, consumptionNonce: Id, fences: Fences)

  // ----- recovery --------------------------------------------------------------------------

  /** A component credential and whether its signature over the action at hand verifies. */
  datatype Caller = Caller(credentialId: Id, componentId: Id, authentic: bool)

  datatype Lease = Lease(reservationId: Id, credentialId: Id, version: nat, expiresAt: Time, active: bool)

  datatype Outcome = ConfirmedOutcome | FailedOutcome | AmbiguousOutcome | ConflictOutcome

  datatype Resolution = Resolution(
    attemptId: Id, operationId: Id, reservationId: Id, leaseVersion: nat, outcome: Outcome,
    reason: Text, actualSpend: Option<nat>, proofReference: Option<Text>, verifiedRevert: bool)

  datatype RecoveryAttempt = RecoveryAttempt(
    operationId: Id, reservationId: Id, leaseVersion: nat, credentialId: Id, outcome: Outcome,
    resolutionHash: Hash, reason: Text, actualSpend: Option<nat>, proofReference: Option<Text>)

  // ----- execution -------------------------------------------------------------------------

  datatype SignedTransaction = SignedTransaction(
    operationId: Id, authorizationId: Id, reservationId: Id, envelopeId: Id, envelopeRevision: nat,
    envelopeHash: Hash, transactionHash: Hash)

  datatype AttemptStatus = Started | Accepted | RejectedBeforeAcceptance | Unknown | Conflicting

  datatype Attempt = Attempt(
    attemptId: Id, signedId: Id, operationId: Id, authorizationId: Id, reservationId: Id,
    transactionHash: Hash, status: AttemptStatus)

  datatype ChainEvidence = ChainEvidence(operationId: Id, reservationId: Id, envelopeId: Id)

  datatype Effect = Effect(reservationId: Id, envelopeId: Id, transactionHash: Hash, amount: nat)

  // ----- the database ----------------------------------------------------------------------

  datatype Db = Db(
    registry: Registry,
    policies: map<Id, Policy>,
    budgets: map<Id, Budget>,
    reservations: map<Id, Reservation>,
    idempotency: map<Id, IdempotencyRecord>,
    broadcasts: map<Id, BroadcastEvidence>,          // by reservation
    operations: map<Id, Operation>,
    history: seq<StateChange>,
    envelopes: map<Id, Envelope>,
    decisions: map<Id, Decision>,
    fences: map<Scope, Fence>,
    approvals: map<Id, Approval>,
    authorizations: map<Id, Authorization>,
    invalidated: set<Id>,                            // authorization ids
    leases: map<Id, Lease>,                          // by operation
    recoveries: map<Id, RecoveryAttempt>,            // by attempt
    signed: map<Id, SignedTransaction>,
    attempts: seq<Attempt>,                          // in order of creation
    chain: map<Hash, ChainEvidence>,                 // by transaction hash
    effects: map<Id, Effect>)                        // by operation

  datatype Error =
    | InvalidAtomicAmount | ReservationNotFound | BudgetBindingMismatch | ControlFenceInactive
    | IdempotencyConflict | InsufficientBudget | DuplicateKey | InvalidReservationTransition
    | ReservationNotExpired | InvalidBroadcastEvidence | ComponentAuthenticationFailed
    | RecoveryConflict | RecoveryLeaseHeld | RecoveryLeaseStale
    | ApprovalNotFound | ApprovalConflict | ApprovalBindingMismatch | ApprovalInvalidState
    | AutonomousPolicyRequired | AutonomousConflict | RevalidationNeeded | AuthorizationStateInvalid
    | InvalidCommand | ControlTargetNotFound | PreparationFailed
    | SigningAuthorityInvalid | BroadcastRefused | ReconciliationFailed | NotSerializable

  datatype Result<+T> = Ok(value: T) | Err(error: Error)

  /**
   A transaction either commits a whole new state or leaves the old one
   (packages/budget-ledger/src/transaction.ts).
   */
  datatype Tx<+T> = Commit(db: Db, value: T) | Abort(error: Error)

  /** The state after a transaction ran on db. */
  function After<T>(db: Db, tx: Tx<T>): Db {
    if tx.Commit? then tx.db else db
  }

  // ----- table writes shared by several transactions ---------------------------------------

  /** UPDATE operations SET current_state, with its audit entry. */
  function SetState(db: Db, operationId: Id, to: L.State): Db
    requires operationId in db.operations
  {
    var op := db.operations[operationId];
    db.(operations := db.operations[operationId := op.(state := to)],
        history := db.history + [StateChange(operationId, op.state, to)])
  }

  /** A reservation whose budget row exists. */
  predicate Funded(db: Db, reservationId: Id) {
    && reservationId in db.reservations
    && db.reservations[reservationId].budgetId in db.budgets
  }

  /** Move an amount from available to reserved under a new reservation. */
  function Hold(db: Db, reservationId: Id, r: Reservation): Db
    requires r.budgetId in db.budgets
  {
    var b := db.budgets[r.budgetId];
    db.(budgets := db.budgets[r.budgetId := b.(
          available := b.available - r.amount, reserved := b.reserved + r.amount, version := b.version + 1)],
        reservations := db.reservations[reservationId := r])
  }

  /** Return the whole amount to the budget and close the reservation. */
  function GiveBack(db: Db, reservationId: Id, status: ReservationStatus): Db
    requires Funded(db, reservationId)
  {
    var r := db.reservations[reservationId];
    var b := db.budgets[r.budgetId];
    db.(budgets := db.budgets[r.budgetId := b.(
          available := b.available + r.amount, reserved := b.reserved - r.amount, version := b.version + 1)],
        reservations := db.reservations[reservationId := r.(status := status, encumbered := false)])
  }

  /** The operation leaves for another state and its money returns. */
  function Withdraw(db: Db, operationId: Id, to: L.State, reservationId: Id, status: ReservationStatus): Db
    requires operationId in db.operations && Funded(db, reservationId)
  {
    GiveBack(SetState(db, operationId, to), reservationId, status)
  }

  /** Spend part of the amount under a proof and return the rest. */
  function Settle(db: Db, reservationId: Id, spend: nat, proof: Text): Db
    requires Funded(db, reservationId)
  {
    var r := db.reservations[reservationId];
    var b := db.budgets[r.budgetId];
    db.(budgets := db.budgets[r.budgetId := b.(
          available := b.available + (r.amount - spend), reserved := b.reserved - r.amount,
          finalizedSpend := b.finalizedSpend + spend, version := b.version + 1)],
        reservations := db.reservations[reservationId := r.(
          status := Finalized, finalizedSpend := spend, proofReference := Some(proof), encumbered := false)])
  }

  /** Change a reservation's status without moving money. */
  function Mark(db: Db, reservationId: Id, status: ReservationStatus): Db
    requires reservationId in db.reservations
  {
    db.(reservations := db.reservations[reservationId := db.reservations[reservationId].(status := status)])
  }
}
