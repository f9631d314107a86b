/** The budget ledger (packages/budget-ledger/src/ledger.ts): every transaction as a function of the database. */
module Ledger {
  import opened Texts
  import opened Schema
  import L = Lifecycle
  import Json = CanonicalJson
  import opened KeyOrder
  import Decimal

  // ----- bindings --------------------------------------------------------------------------

  /** The rows joined to an operation exist. */
  predicate Joined(db: Db, op: Operation) {
    && op.intentId in db.registry.intents
    && op.agentId in db.registry.agentOwner
    && op.walletId in db.registry.walletOwner
    && op.policyId in db.policies
  }

  /** Budget, operation, intent and policy agree, and one owner owns agent, wallet and policy. */
  predicate Consistent(db: Db, op: Operation, b: Budget)
    requires Joined(db, op)
  {
    var i := db.registry.intents[op.intentId];
    var p := db.policies[op.policyId];
    var owner := db.registry.agentOwner[op.agentId];
    && i == Intent(op.agentId, op.walletId, op.policyId, op.policyVersion)
    && (b.agentId, b.walletId, b.policyId, b.policyVersion) == (op.agentId, op.walletId, op.policyId, op.policyVersion)
    && owner == db.registry.walletOwner[op.walletId] == p.ownerId
    && p.agentId == op.agentId
    && p.walletId == op.walletId
  }

  /** Why the row of a reservation cannot be used, if it cannot. */
  function Refusal(db: Db, reservationId: Id): Option<Error> {
    if reservationId !in db.reservations then Some(ReservationNotFound)
    else
      var r := db.reservations[reservationId];
      if r.budgetId !in db.budgets || r.operationId !in db.operations || !Joined(db, db.operations[r.operationId]) then
        Some(ReservationNotFound)
      else if !Consistent(db, db.operations[r.operationId], db.budgets[r.budgetId]) then Some(BudgetBindingMismatch)
      else None
  }

  // ----- reserve ---------------------------------------------------------------------------

  datatype ReserveRequest = ReserveRequest(
    reservationId: Id, budgetId: Id, operationId: Id, idempotencyKey: Id,
    payload: Json.Json, amountAtomic: Text, expiresAt: Time)

  /** An instant as text; like toISOString, different instants have different texts. */
  function InstantText(t: Time): Text {
    if t < 0 then [45] + Decimal.Render(-t) else Decimal.Render(t)
  }

  /** What the idempotency hash covers: every bound field of the request, and the caller's payload. */
  function BoundPayload(amountAtomic: Text, q: ReserveRequest): Json.Json {
    Json.Obj([
      Keyed(Lit("request"), Json.Obj([
        Keyed(Lit("amountAtomic"), Json.Str(amountAtomic)),
        Keyed(Lit("budgetId"), Json.Str(q.budgetId.text)),
        Keyed(Lit("expiresAt"), Json.Str(InstantText(q.expiresAt))),
        Keyed(Lit("operationId"), Json.Str(q.operationId.text))])),
      Keyed(Lit("payload"), q.payload)])
  }

  /** The operation, its agent and its policy exist. */
  predicate Identified(db: Db, operationId: Id) {
    && operationId in db.operations
    && db.operations[operationId].agentId in db.registry.agentOwner
    && db.operations[operationId].policyId in db.policies
  }

  /** All four fences over the operation exist and are active, and its policy is not revoked. */
  predicate ReservationAllowed(db: Db, operationId: Id)
    requires Identified(db, operationId)
  {
    var op := db.operations[operationId];
    && (forall s :: s in {SystemScope, OwnerScope(db.registry.agentOwner[op.agentId]), AgentScope(op.agentId),
      PolicyScope(op.policyId)}
                    ==> s in db.fences && db.fences[s].state == Active)
    && db.policies[op.policyId].status != RevokedPolicy
  }

  /** hashIdempotencyPayload of the bound payload; a payload with a non-finite number has no hash. */
  function PayloadHash(q: ReserveRequest): Option<Hash> {
    var text := Json.Canonicalize(BoundPayload(q.amountAtomic, q));
    if text.Some? then Some(Sha256(text.value)) else None
  }

  function Reserve(db: Db, q: ReserveRequest): Tx<Reservation> {
    if !Decimal.IsPositiveAtomic(q.amountAtomic) then Abort(InvalidAtomicAmount)
    else if PayloadHash(q).None? then Abort(NotSerializable)
    else ReserveAmount(db, q, Decimal.Value(q.amountAtomic), PayloadHash(q).value)
  }

  /** The reserving transaction, once the amount is parsed and the payload hashed. */
  function ReserveAmount(db: Db, q: ReserveRequest, amount: nat, payloadHash: Hash): Tx<Reservation> {
    if !Identified(db, q.operationId) then Abort(ReservationNotFound)
    else if !ReservationAllowed(db, q.operationId) then Abort(ControlFenceInactive)
    else if q.budgetId !in db.budgets || !Joined(db, db.operations[q.operationId]) then Abort(ReservationNotFound)
    else if !Consistent(db, db.operations[q.operationId], db.budgets[q.budgetId]) then Abort(BudgetBindingMismatch)
    else if q.idempotencyKey in db.idempotency then
      var prior := db.idempotency[q.idempotencyKey];
      if prior.payloadHash != payloadHash then Abort(IdempotencyConflict)
      else if prior.reservationId !in db.reservations then Abort(ReservationNotFound)
      else Commit(db, db.reservations[prior.reservationId])
    else if db.budgets[q.budgetId].available < amount then Abort(InsufficientBudget)
    else if ReservationKeyTaken(db, q) then Abort(DuplicateKey)
    else
      var r := Reservation(q.budgetId, q.operationId, q.idempotencyKey, amount, q.expiresAt, 0, Held, None, true);
      Commit(Hold(db, q.reservationId, r)
               .(idempotency := db.idempotency[q.idempotencyKey := IdempotencyRecord(payloadHash, q.reservationId)]), r)
  }

  /** The primary key and the unique columns of budget_reservations. */
  predicate ReservationKeyTaken(db: Db, q: ReserveRequest) {
    || q.reservationId in db.reservations
    || (exists k | k in db.reservations :: db.reservations[k].operationId == q.operationId)
    || (exists k | k in db.reservations :: db.reservations[k].idempotencyKey == q.idempotencyKey)
  }

  // ----- transitions -----------------------------------------------------------------------

  /** Evidence row a is the current authority over the reservation, with its operation in one of the states. */
  predicate CanonicalAuthority(db: Db, reservationId: Id, operationId: Id, states: set<L.State>, a: Id) {
    && a in db.authorizations
    && a !in db.invalidated
    && var e := db.authorizations[a].bound;
    && e.reservationId == reservationId
    && e.operationId == operationId
    && operationId in db.operations && db.operations[operationId].state in states
    && e.envelopeId in db.envelopes
    && db.envelopes[e.envelopeId].operationId == operationId
    && db.envelopes[e.envelopeId].revision == e.envelopeRevision
    && db.envelopes[e.envelopeId].hash == e.envelopeHash
    && e.decisionId in db.decisions
    && db.decisions[e.decisionId] ==
      Decision(operationId, e.policyId, e.policyVersion, db.decisions[e.decisionId].verdict, e.decisionHash)
    && !Superseded(db, operationId, e.envelopeRevision)
  }

  predicate Superseded(db: Db, operationId: Id, revision: nat) {
    exists e | e in db.envelopes :: db.envelopes[e].operationId == operationId && db.envelopes[e].revision > revision
  }

  /** Exactly one authorization row is canonical. */
  predicate CanonicallyAuthorized(db: Db, reservationId: Id, operationId: Id, states: set<L.State>) {
    exists a | a in db.authorizations ::
      && CanonicalAuthority(db, reservationId, operationId, states, a)
      && forall b | b in db.authorizations :: CanonicalAuthority(db, reservationId, operationId, states, b) ==> b == a
  }

  function MarkBroadcast(db: Db, reservationId: Id, receipt: Receipt, caller: Caller): Tx<Reservation> {
    if Refusal(db, reservationId).Some? then Abort(Refusal(db, reservationId).value)
    else
      var r := db.reservations[reservationId];
      if !caller.authentic then Abort(ComponentAuthenticationFailed)
      else if r.status != Authorized && r.status != Broadcast then Abort(InvalidReservationTransition)
      else if !CanonicallyAuthorized(db, reservationId, r.operationId, {L.Authorized, L.Signing, L.Signed}) then
        Abort(InvalidReservationTransition)
      else if r.status == Broadcast then
        if reservationId !in db.broadcasts then Abort(InvalidBroadcastEvidence)
        else if db.broadcasts[reservationId].receipt != receipt then Abort(RecoveryConflict)
        else Commit(db, r)
      else if reservationId in db.broadcasts then Abort(DuplicateKey)
      else
        var marked := Mark(db.(broadcasts := db.broadcasts[reservationId := BroadcastEvidence(receipt, false)]),
          reservationId, Broadcast);
        Commit(marked, marked.reservations[reservationId])
  }

  /** Mark the stored broadcast evidence as verified. */
  function Verify(db: Db, reservationId: Id): Db
    requires reservationId in db.broadcasts
  {
    db.(broadcasts := db.broadcasts[reservationId := db.broadcasts[reservationId].(verified := true)])
  }

  function VerifyBroadcast(db: Db, reservationId: Id, caller: Caller): Tx<Reservation> {
    if Refusal(db, reservationId).Some? then Abort(Refusal(db, reservationId).value)
    else
      var r := db.reservations[reservationId];
      if r.status != Broadcast then Abort(InvalidReservationTransition)
      else if reservationId !in db.broadcasts then Abort(InvalidBroadcastEvidence)
      else if !caller.authentic then Abort(ComponentAuthenticationFailed)
      else Commit(Verify(db, reservationId), r)
  }

  function Release(db: Db, reservationId: Id): Tx<Reservation> {
    if Refusal(db, reservationId).Some? then Abort(Refusal(db, reservationId).value)
    else
      var r := db.reservations[reservationId];
      if r.status == Released then Commit(db, r)
      else if r.status != Held && r.status != Authorized then Abort(InvalidReservationTransition)
      else
        var next := GiveBack(db, reservationId, Released);
        Commit(next, next.reservations[reservationId])
  }

  function Expire(db: Db, reservationId: Id, now: Time): Tx<Reservation> {
    if Refusal(db, reservationId).Some? then Abort(Refusal(db, reservationId).value)
    else
      var r := db.reservations[reservationId];
      if r.status == Expired then Commit(db, r)
      else if r.status != Held && r.status != Authorized then Abort(InvalidReservationTransition)
      else if r.expiresAt > now then Abort(ReservationNotExpired)
      else
        var next := GiveBack(db, reservationId, Expired);
        Commit(next, next.reservations[reservationId])
  }

  function Finalize(db: Db, reservationId: Id, spend: nat, proof: Text): Tx<Reservation> {
    if Refusal(db, reservationId).Some? then Abort(Refusal(db, reservationId).value)
    else
      var r := db.reservations[reservationId];
      if r.status == Finalized then Commit(db, r)
      else if r.status != Broadcast then Abort(InvalidReservationTransition)
      else if reservationId !in db.broadcasts || !db.broadcasts[reservationId].verified
        then Abort(InvalidBroadcastEvidence)
      else if proof != db.broadcasts[reservationId].receipt.receiptReference then Abort(InvalidBroadcastEvidence)
      else if spend > r.amount then Abort(InvalidAtomicAmount)
      else
        var next := Settle(db, reservationId, spend, proof);
        Commit(next, next.reservations[reservationId])
  }

  function Dispute(db: Db, reservationId: Id): Tx<Reservation> {
    if Refusal(db, reservationId).Some? then Abort(Refusal(db, reservationId).value)
    else
      var r := db.reservations[reservationId];
      if r.status == Disputed then Commit(db, r)
      else if r.status !in {Held, Authorized, Broadcast} then Abort(InvalidReservationTransition)
      else
        var next := Mark(db, reservationId, Disputed);
        Commit(next, next.reservations[reservationId])
  }

  // ----- recovery --------------------------------------------------------------------------

  const MAX_RECOVERY_LEASE_SECONDS := 300
  const MAX_SAFE_INTEGER := 9007199254740991

  /** now is the database clock. */
  function ClaimLease(db: Db, operationId: Id, reservationId: Id, seconds: int, caller: Caller, now: Time): Tx<Lease> {
    if seconds <= 0 || seconds > MAX_RECOVERY_LEASE_SECONDS then Abort(RecoveryLeaseStale)
    else if Refusal(db, reservationId).Some? then Abort(Refusal(db, reservationId).value)
    else if db.reservations[reservationId].operationId != operationId then Abort(BudgetBindingMismatch)
    else if !caller.authentic then Abort(ComponentAuthenticationFailed)
    else if operationId in db.leases && db.leases[operationId].active && db.leases[operationId].expiresAt > now then
      Abort(RecoveryLeaseHeld)
    else
      var version := if operationId in db.leases then db.leases[operationId].version + 1 else 1;
      if version > MAX_SAFE_INTEGER then Abort(RecoveryLeaseStale)
      else
        var lease := Lease(reservationId, caller.credentialId, version, now + 1000 * seconds, true);
        Commit(db.(leases := db.leases[operationId := lease]), lease)
  }

  /** The money movement of a new resolution, once its lease has been accepted. */
  function ApplyOutcome(db: Db, q: Resolution): (applied: Result<Db>)
    requires Funded(db, q.reservationId)
    ensures applied.Ok? ==> Funded(applied.value, q.reservationId)
  {
    var rid := q.reservationId;
    var r := db.reservations[rid];
    match q.outcome
    case ConfirmedOutcome =>
      if rid !in db.broadcasts || r.status != Broadcast then Err(InvalidBroadcastEvidence)
      else if q.proofReference != Some(db.broadcasts[rid].receipt.receiptReference) || q.actualSpend.None? then
        Err(InvalidBroadcastEvidence)
      else if q.actualSpend.value > r.amount then Err(InvalidAtomicAmount)
      else Ok(Settle(Verify(db, rid), rid, q.actualSpend.value, q.proofReference.value))
    case FailedOutcome =>
      if r.status == Held || r.status == Authorized then Ok(GiveBack(db, rid, Released))
      else if q.verifiedRevert && r.status == Broadcast then
        if
          || rid !in db.broadcasts
          || !db.broadcasts[rid].verified
          || q.proofReference != Some(db.broadcasts[rid].receipt.receiptReference)
          || q.actualSpend != Some(0)
        then Err(InvalidBroadcastEvidence)
        else Ok(GiveBack(db, rid, Released))
      else if r.status == Broadcast then Ok(Mark(db, rid, Disputed))
      else if r.status == Disputed then Ok(db)
      else Err(InvalidReservationTransition)
    case AmbiguousOutcome => Ok(if r.status == Disputed then db else Mark(db, rid, Disputed))
    case ConflictOutcome => Ok(if r.status == Disputed then db else Mark(db, rid, Disputed))
  }

  function StoredReceipt(db: Db, reservationId: Id): Option<Receipt> {
    if reservationId in db.broadcasts then Some(db.broadcasts[reservationId].receipt) else None
  }

  /** The caller holds the newest lease of the operation, it is active, and its time has not passed. */
  predicate LeaseAdmits(leases: map<Id, Lease>, q: Resolution, caller: Caller, now: Time) {
    && q.operationId in leases
    && var lease := leases[q.operationId];
    && lease.reservationId == q.reservationId
    && lease.credentialId == caller.credentialId
    && lease.version == q.leaseVersion
    && lease.active
    && lease.expiresAt > now
  }

  /** Insert the recovery attempt and close the lease it was made under. */
  function Recorded(db: Db, attemptId: Id, row: RecoveryAttempt): (next: Db)
    requires row.operationId in db.leases
    ensures next.reservations == db.reservations && next.budgets == db.budgets
  {
    db.(recoveries := db.recoveries[attemptId := row],
        leases := db.leases[row.operationId := db.leases[row.operationId].(active := false)])
  }

  function AttemptRow(q: Resolution, caller: Caller, digest: Hash): RecoveryAttempt {
    RecoveryAttempt(q.operationId, q.reservationId, q.leaseVersion, caller.credentialId, q.outcome, digest, q.reason,
      q.actualSpend, q.proofReference)
  }

  /** The attempt is recorded, its lease spent and its outcome applied, together. */
  function ResolveNew(db: Db, q: Resolution, row: RecoveryAttempt): Tx<Reservation>
    requires Funded(db, q.reservationId) && row.operationId in db.leases
  {
    var applied := ApplyOutcome(Recorded(db, q.attemptId, row), q);
    if applied.Err? then Abort(applied.error) else Commit(applied.value, applied.value.reservations[q.reservationId])
  }

  /** now is the worker's own clock, which need not agree with the database clock. */
  function Resolve(db: Db, q: Resolution, caller: Caller, now: Time): Tx<Reservation> {
    if q.outcome == ConfirmedOutcome
      && (q.actualSpend.None? || q.proofReference.None? || q.proofReference.value == []) then
      Abort(InvalidBroadcastEvidence)
    else if Refusal(db, q.reservationId).Some? then Abort(Refusal(db, q.reservationId).value)
    else if db.reservations[q.reservationId].operationId != q.operationId then Abort(BudgetBindingMismatch)
    else if !caller.authentic then Abort(ComponentAuthenticationFailed)
    else
      var digest := ResolutionDigest(caller, q, StoredReceipt(db, q.reservationId));
      if q.attemptId in db.recoveries then
        var prior := db.recoveries[q.attemptId];
        if (prior.operationId, prior.reservationId, prior.resolutionHash) != (q.operationId, q.reservationId,
          digest) then
          Abort(RecoveryConflict)
        else Commit(db, db.reservations[q.reservationId])
      else if !LeaseAdmits(db.leases, q, caller, now) then Abort(RecoveryLeaseStale)
      else ResolveNew(db, q, AttemptRow(q, caller, digest))
  }
}
