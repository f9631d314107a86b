/** Approvals and authorizations (packages/approvals/src/core.ts). */
module Approvals {
  import opened Texts
  import opened Schema
  import opened Fencing
  import opened Ledger
  import L = Lifecycle

  /** The rows an approval query joins to a binding exist and belong to its operation. */
  predicate Bound(db: Db, b: Binding) {
    && b.operationId in db.operations
    && Joined(db, db.operations[b.operationId])
    && Funded(db, b.reservationId)
    && db.reservations[b.reservationId].operationId == b.operationId
    && b.envelopeId in db.envelopes && db.envelopes[b.envelopeId].operationId == b.operationId
    && b.decisionId in db.decisions && db.decisions[b.decisionId].operationId == b.operationId
  }

  /** The persisted envelope is canonical and hashes to what is stored. */
  predicate CanonicalEnvelope(e: Envelope) {
    e.hash == EnvelopeDigest(e.payload)
  }

  /** The envelope, the decision and the operation all say what the binding says. */
  predicate Agrees(db: Db, b: Binding, verdict: Verdict)
    requires Bound(db, b)
  {
    var op, e, d := db.operations[b.operationId], db.envelopes[b.envelopeId], db.decisions[b.decisionId];
    && CanonicalEnvelope(e)
    && e.revision == b.envelopeRevision
    && e.hash == b.envelopeHash
    && d.hash == b.decisionHash
    && d.policyId == b.policyId
    && d.policyVersion == b.policyVersion
    && d.verdict == verdict
    && e.payload.intentId == op.intentId
    && e.payload.agentId == op.agentId
    && e.payload.walletId == op.walletId
    && e.payload.policyId == b.policyId
    && e.payload.policyVersion == b.policyVersion
    && e.payload.decisionHash == b.decisionHash
    && e.payload.reservationId == b.reservationId
  }

  function OwnerOf(db: Db, operationId: Id): Id
    requires operationId in db.operations && db.operations[operationId].agentId in db.registry.agentOwner
  {
    db.registry.agentOwner[db.operations[operationId].agentId]
  }

  /** The approval and the rows it is bound to are there, and so are the fences over its operation. */
  predicate IsLoaded(db: Db, approvalId: Id) {
    && approvalId in db.approvals
    && var b := db.approvals[approvalId].bound;
    && Bound(db, b)
    && Scopes(OwnerOf(db, b.operationId), db.operations[b.operationId].agentId, b.policyId) <= db.fences.Keys
  }

  /** Load an approval and lock its fences. */
  function Load(db: Db, approvalId: Id): (loaded: Result<Db>)
    ensures loaded.Ok? ==>
      && approvalId in db.approvals
      && var b := db.approvals[approvalId].bound;
      && Bound(db, b)
      && loaded.value == EnsureAll(db, OwnerOf(db, b.operationId), db.operations[b.operationId].agentId, b.policyId)
      && IsLoaded(loaded.value, approvalId)
  {
    if approvalId !in db.approvals || !Bound(db, db.approvals[approvalId].bound) then Err(ApprovalNotFound)
    else
      var b := db.approvals[approvalId].bound;
      Lock(db, OwnerOf(db, b.operationId), db.operations[b.operationId].agentId, b.policyId)
  }

  /** The recorded fences are all active and are the current ones. */
  predicate FencesHold(db: Db, b: Binding, recorded: Fences)
    requires Bound(db, b)
    requires Scopes(OwnerOf(db, b.operationId), db.operations[b.operationId].agentId, b.policyId) <= db.fences.Keys
  {
    && AllActive(recorded)
    && recorded == Read(db.fences, OwnerOf(db, b.operationId), db.operations[b.operationId].agentId, b.policyId)
  }

  /** The operation awaits approval and its money is held. */
  predicate Awaiting(db: Db, b: Binding)
    requires Bound(db, b)
  {
    && db.operations[b.operationId].state == L.AwaitingApproval
    && db.reservations[b.reservationId].status == Held
  }

  /** End an approval without authorizing: the operation leaves, the money returns, the approval closes. */
  function Close(db: Db, approvalId: Id, to: L.State, money: ReservationStatus, status: ApprovalStatus,
      approverId: Option<Id>): Db
    requires approvalId in db.approvals && Bound(db, db.approvals[approvalId].bound)
  {
    var a := db.approvals[approvalId];
    Withdraw(db, a.bound.operationId, to, a.bound.reservationId, money)
      .(approvals := db.approvals[approvalId := a.(status := status, approverId := approverId)])
  }

  function Coalesce(approverId: Option<Id>, actorId: Id): Option<Id> {
    if approverId.Some? then approverId else Some(actorId)
  }

  /** invalidateStaleApproval. */
  function Invalidate(db: Db, approvalId: Id, actorId: Id): Db
    requires approvalId in db.approvals && Bound(db, db.approvals[approvalId].bound)
  {
    Close(db, approvalId, L.RevalidationRequired, Released, ApprovalRevoked,
          Coalesce(db.approvals[approvalId].approverId, actorId))
  }

  /** What an approval call reports after its transaction committed. */
  datatype Report = Decided(approval: Approval) | MustRevalidate | LifetimeElapsed

  // ----- create ----------------------------------------------------------------------------

  datatype CreateRequest = CreateRequest(
    approvalId: Id, operationId: Id, reservationId: Id, envelopeId: Id, envelopeRevision: nat, envelopeHash: Hash,
    decisionId: Id, issuedAt: Time, expiresAt: Time, nonce: Id)

  predicate Repeats(q: CreateRequest, a: Approval) {
    && (a.bound.operationId, a.bound.reservationId) == (q.operationId, q.reservationId)
    && (a.bound.envelopeId, a.bound.envelopeRevision, a.bound.envelopeHash) ==
      (q.envelopeId, q.envelopeRevision, q.envelopeHash)
    && a.bound.decisionId == q.decisionId
    && (a.nonce, a.issuedAt, a.expiresAt) == (q.nonce, q.issuedAt, q.expiresAt)
  }

  /** The binding the database has for the rows a request names. */
  function AuthoritativeBinding(db: Db, operationId: Id, reservationId: Id, envelopeId: Id,
      decisionId: Id): (bound: Result<Binding>)
    ensures bound.Ok? ==> Bound(db, bound.value)
  {
    if operationId !in db.operations || envelopeId !in db.envelopes || decisionId !in db.decisions
      then Err(RevalidationNeeded)
    else
      var op, e, d := db.operations[operationId], db.envelopes[envelopeId], db.decisions[decisionId];
      var b := Binding(operationId, reservationId, envelopeId, e.revision, e.hash, decisionId, d.hash, op.policyId,
        op.policyVersion);
      if Bound(db, b) then Ok(b) else Err(RevalidationNeeded)
  }

  function Create(db: Db, q: CreateRequest): Tx<Approval> {
    if q.expiresAt <= q.issuedAt || q.envelopeRevision == 0 then Abort(ApprovalBindingMismatch)
    else if q.approvalId in db.approvals && Bound(db, db.approvals[q.approvalId].bound) then
      var a := db.approvals[q.approvalId];
      if !Repeats(q, a) then Abort(ApprovalConflict)
      else if !Agrees(db, a.bound, RequireApproval)
        || Superseded(db, a.bound.operationId, a.bound.envelopeRevision) then
        Abort(RevalidationNeeded)
      else Commit(db, a)
    else
      var bound := AuthoritativeBinding(db, q.operationId, q.reservationId, q.envelopeId, q.decisionId);
      if bound.Err? then Abort(bound.error)
      else
        var locked := LockOver(db, bound.value);
        if locked.Err? then Abort(locked.error) else CreateLocked(locked.value, q, bound.value)
  }

  /** Lock the fences over a bound operation. */
  function LockOver(db: Db, b: Binding): (locked: Result<Db>)
    requires Bound(db, b)
    ensures locked.Ok? ==>
      && locked.value == EnsureAll(db, OwnerOf(db, b.operationId), db.operations[b.operationId].agentId, b.policyId)
      && IsLocked(locked.value, b)
  {
    Lock(db, OwnerOf(db, b.operationId), db.operations[b.operationId].agentId, b.policyId)
  }

  predicate IsLocked(db: Db, b: Binding) {
    Bound(db, b) && Scopes(OwnerOf(db, b.operationId), db.operations[b.operationId].agentId,
      b.policyId) <= db.fences.Keys
  }

  function CurrentFences(db: Db, b: Binding): Fences
    requires IsLocked(db, b)
  {
    Read(db.fences, OwnerOf(db, b.operationId), db.operations[b.operationId].agentId, b.policyId)
  }

  function CreateLocked(db: Db, q: CreateRequest, b: Binding): Tx<Approval>
    requires IsLocked(db, b)
  {
    var fences, e, state := CurrentFences(db, b), db.envelopes[b.envelopeId].payload,
      db.operations[b.operationId].state;
    if !Agrees(db, b, RequireApproval) || Superseded(db, b.operationId, b.envelopeRevision)
      then Abort(RevalidationNeeded)
    else if !AllActive(fences) then Abort(RevalidationNeeded)
    else if (q.envelopeRevision, q.envelopeHash) != (b.envelopeRevision, b.envelopeHash)
      then Abort(ApprovalBindingMismatch)
    else if state != L.EnvelopeFinalized && state != L.AwaitingApproval then Abort(RevalidationNeeded)
    else if db.reservations[b.reservationId].status != Held then Abort(AuthorizationStateInvalid)
    else if q.issuedAt < e.createdAt || q.expiresAt > e.expiresAt then Abort(ApprovalBindingMismatch)
    else if q.approvalId in db.approvals then Abort(DuplicateKey)
    else
      var a := Approval(b, None, q.issuedAt, q.expiresAt, q.nonce, Pending, fences);
      var moved := if state == L.EnvelopeFinalized then SetState(db, b.operationId, L.AwaitingApproval) else db;
      Commit(moved.(approvals := db.approvals[q.approvalId := a]), a)
  }

  // ----- decide ----------------------------------------------------------------------------

  /**
   Whether a decided-on approval still stands at a moment: it may have lapsed, which is recorded, or
   be out of order.
   */
  datatype Standing = Stands | OutOfOrder(error: Error) | Lapsed(db: Db, report: Report)

  function StandingOf(db: Db, approvalId: Id, actorId: Id, now: Time): Standing
    requires IsLoaded(db, approvalId)
  {
    var a := db.approvals[approvalId];
    if !FencesHold(db, a.bound, a.fences) then
      Lapsed(if Awaiting(db, a.bound) then Invalidate(db, approvalId, actorId) else db, MustRevalidate)
    else if now < a.issuedAt then OutOfOrder(RevalidationNeeded)
    else if !Awaiting(db, a.bound) then OutOfOrder(AuthorizationStateInvalid)
    else if now >= a.expiresAt
      then Lapsed(Close(db, approvalId, L.Expired, Expired, ApprovalExpired, a.approverId), LifetimeElapsed)
    else if Superseded(db, a.bound.operationId, a.bound.envelopeRevision)
      then Lapsed(Invalidate(db, approvalId, actorId), MustRevalidate)
    else Stands
  }

  function Approve(db: Db, approvalId: Id, approverId: Id, actorId: Id, now: Time): Tx<Report> {
    var loaded := Load(db, approvalId);
    if loaded.Err? then Abort(loaded.error) else ApproveLoaded(loaded.value, approvalId, approverId, actorId, now)
  }

  function ApproveLoaded(db: Db, approvalId: Id, approverId: Id, actorId: Id, now: Time): Tx<Report>
    requires IsLoaded(db, approvalId)
  {
    var a := db.approvals[approvalId];
    if !Agrees(db, a.bound, RequireApproval) then Abort(RevalidationNeeded)
    else if a.status == Approved then
      if a.approverId != Some(approverId) then Abort(ApprovalConflict) else Commit(db, Decided(a))
    else if a.status != Pending then Abort(ApprovalInvalidState)
    else
      match StandingOf(db, approvalId, actorId, now)
      case OutOfOrder(error) => Abort(error)
      case Lapsed(lapsed, report) => Commit(lapsed, report)
      case Stands =>
        var approved := a.(status := Approved, approverId := Some(approverId));
        Commit(db.(approvals := db.approvals[approvalId := approved]), Decided(approved))
  }

  function Reject(db: Db, approvalId: Id, approverId: Id): Tx<Report> {
    var loaded := Load(db, approvalId);
    if loaded.Err? then Abort(loaded.error) else RejectLoaded(loaded.value, approvalId, approverId)
  }

  function RejectLoaded(db: Db, approvalId: Id, approverId: Id): Tx<Report>
    requires IsLoaded(db, approvalId)
  {
    var a := db.approvals[approvalId];
    if !Agrees(db, a.bound, RequireApproval) then Abort(RevalidationNeeded)
    else if a.status != Pending then Abort(ApprovalInvalidState)
    else if !Awaiting(db, a.bound) then Abort(AuthorizationStateInvalid)
    else if Superseded(db, a.bound.operationId, a.bound.envelopeRevision) then Abort(RevalidationNeeded)
    else
      Commit(Close(db, approvalId, L.Rejected, Released, Rejected, Some(approverId)),
             Decided(a.(status := Rejected, approverId := Some(approverId))))
  }

  function Revoke(db: Db, approvalId: Id, actorId: Id): Tx<Report> {
    var loaded := Load(db, approvalId);
    if loaded.Err? then Abort(loaded.error) else RevokeLoaded(loaded.value, approvalId, actorId)
  }

  function RevokeLoaded(db: Db, approvalId: Id, actorId: Id): Tx<Report>
    requires IsLoaded(db, approvalId)
  {
    var a := db.approvals[approvalId];
    if !Agrees(db, a.bound, RequireApproval) then Abort(RevalidationNeeded)
    else if a.status == ApprovalRevoked then Commit(db, Decided(a))
    else if a.status != Pending && a.status != Approved then Abort(ApprovalInvalidState)
    else if !Awaiting(db, a.bound) then Abort(AuthorizationStateInvalid)
    else
      var approver := Coalesce(a.approverId, actorId);
      Commit(Close(db, approvalId, L.Revoked, Released, ApprovalRevoked, approver),
             Decided(a.(status := ApprovalRevoked, approverId := approver)))
  }

  // ----- replace the envelope --------------------------------------------------------------

  predicate IsActive(a: Approval) {
    a.status == Pending || a.status == Approved
  }

  /** The operation has this active approval and no other. */
  predicate OnlyActive(db: Db, operationId: Id, approvalId: Id) {
    && approvalId in db.approvals && IsActive(db.approvals[approvalId])
      && db.approvals[approvalId].bound.operationId == operationId
    && forall k | k in db.approvals :: IsActive(db.approvals[k]) && db.approvals[k].bound.operationId == operationId ==>
      k == approvalId
  }

  predicate NoneActive(db: Db, operationId: Id) {
    forall k | k in db.approvals :: !(IsActive(db.approvals[k]) && db.approvals[k].bound.operationId == operationId)
  }

  predicate NoneAuthorized(db: Db, operationId: Id) {
    forall k | k in db.authorizations :: db.authorizations[k].bound.operationId != operationId
  }

  predicate OnlyAuthorized(db: Db, operationId: Id, authorizationId: Id) {
    && authorizationId in db.authorizations && db.authorizations[authorizationId].bound.operationId == operationId
    && forall k | k in db.authorizations :: db.authorizations[k].bound.operationId == operationId ==>
      k == authorizationId
  }

  predicate IsLatest(db: Db, operationId: Id, envelopeId: Id) {
    && envelopeId in db.envelopes
    && db.envelopes[envelopeId].operationId == operationId
    && !Superseded(db, operationId, db.envelopes[envelopeId].revision)
  }

  /** The authorized operation rests on exactly one authorization, and that on this approval. */
  predicate RestsOn(db: Db, operationId: Id, approvalId: Id) {
    exists k | k in db.authorizations ::
      OnlyAuthorized(db, operationId, k) && db.authorizations[k].source == OwnerApproval(approvalId)
  }

  /** The new revision follows the latest one. */
  predicate Follows(db: Db, operationId: Id, e: EnvelopePayload) {
    && e.supersedes.Some?
    && IsLatest(db, operationId, e.supersedes.value)
    && e.revision == db.envelopes[e.supersedes.value].revision + 1
  }

  /** approvalId is the row the replacement finds: the active approval, or the one behind the authorization. */
  function Replace(db: Db, operationId: Id, e: EnvelopePayload, approvalId: Id, actorId: Id): Tx<Envelope> {
    var loaded := Load(db, approvalId);
    if loaded.Err? then Abort(loaded.error) else ReplaceLoaded(loaded.value, operationId, e, approvalId, actorId)
  }

  function ReplaceLoaded(db: Db, operationId: Id, e: EnvelopePayload, approvalId: Id, actorId: Id): Tx<Envelope>
    requires IsLoaded(db, approvalId)
  {
    var a := db.approvals[approvalId];
    if a.bound.operationId != operationId || !Follows(db, operationId, e) || !Agrees(db, a.bound, RequireApproval)
       || Superseded(db, operationId, a.bound.envelopeRevision) then Abort(RevalidationNeeded)
    else if e.envelopeId in db.envelopes then Abort(DuplicateKey)
    else
      match db.operations[operationId].state
      case AwaitingApproval => ReplaceAwaiting(db, operationId, e, approvalId, actorId)
      case Authorized => ReplaceAuthorized(db, operationId, e, approvalId)
      case _ => Abort(RevalidationNeeded)
  }

  function NewEnvelope(operationId: Id, e: EnvelopePayload): Envelope {
    Envelope(operationId, e.revision, EnvelopeDigest(e), e)
  }

  /** The pending approval is invalidated with its envelope. */
  function ReplaceAwaiting(db: Db, operationId: Id, e: EnvelopePayload, approvalId: Id, actorId: Id): Tx<Envelope>
    requires IsLoaded(db, approvalId)
  {
    if !OnlyActive(db, operationId, approvalId)
      || db.reservations[db.approvals[approvalId].bound.reservationId].status != Held
       || !NoneAuthorized(db, operationId) then Abort(AuthorizationStateInvalid)
    else
      Commit(Invalidate(db, approvalId, actorId).(envelopes :=
        db.envelopes[e.envelopeId := NewEnvelope(operationId, e)]), NewEnvelope(operationId, e))
  }

  /** The authorization stays on record, but its operation must be validated again and its money returns. */
  function ReplaceAuthorized(db: Db, operationId: Id, e: EnvelopePayload, approvalId: Id): Tx<Envelope>
    requires IsLoaded(db, approvalId) && operationId in db.operations
  {
    var k := db.approvals[approvalId].bound.reservationId;
    if !RestsOn(db, operationId, approvalId) || db.reservations[k].status != Authorized
      || !NoneActive(db, operationId) then
      Abort(AuthorizationStateInvalid)
    else
      Commit(Withdraw(db, operationId, L.RevalidationRequired, k,
        Released).(envelopes := db.envelopes[e.envelopeId := NewEnvelope(operationId, e)]),
             NewEnvelope(operationId, e))
  }

  // ----- authorize -------------------------------------------------------------------------

  const AUTHORIZATION_SUFFIX: Text := Lit(":authorization")
  const CONSUMED_SUFFIX: Text := Lit(":consumed")
  const AUTONOMOUS_SUFFIX: Text := Lit(":autonomous")
  const AUTONOMOUS_CONSUMER: Id := Id(Lit("autonomous-policy-writer"))

  /** Move operation and reservation to authorized and record the evidence. */
  function Authorize(db: Db, authorizationId: Id, z: Authorization): Db
    requires z.bound.operationId in db.operations && z.bound.reservationId in db.reservations
  {
    Mark(SetState(db, z.bound.operationId, L.Authorized), z.bound.reservationId, Authorized)
      .(authorizations := db.authorizations[authorizationId := z])
  }

  datatype Claim = Claim(operationId: Id, envelopeId: Id, envelopeRevision: nat, envelopeHash: Hash)

  datatype ConsumeReport = Granted(authorizationId: Id, authorization: Authorization) | NotGranted(report: Report)

  function Consume(db: Db, approvalId: Id, claim: Claim, consumerId: Id, actorId: Id, now: Time): Tx<ConsumeReport> {
    var loaded := Load(db, approvalId);
    if loaded.Err? then Abort(loaded.error)
      else ConsumeLoaded(loaded.value, approvalId, claim, consumerId, actorId, now)
  }

  /** The authorization a consumed approval becomes. */
  function AuthorizationFrom(approvalId: Id, a: Approval, consumerId: Id): Authorization {
    Authorization(OwnerApproval(approvalId), a.bound, a.issuedAt, a.expiresAt, consumerId,
      Id(a.nonce.text + CONSUMED_SUFFIX), a.fences)
  }

  function ConsumeLoaded(db: Db, approvalId: Id, claim: Claim, consumerId: Id, actorId: Id,
      now: Time): Tx<ConsumeReport>
    requires IsLoaded(db, approvalId)
  {
    var a := db.approvals[approvalId];
    var b := a.bound;
    if Claim(b.operationId, b.envelopeId, b.envelopeRevision, b.envelopeHash) != claim
      then Abort(ApprovalBindingMismatch)
    else if !Agrees(db, b, RequireApproval) then Abort(RevalidationNeeded)
    else if a.status != Approved then Abort(ApprovalInvalidState)
    else
      match StandingOf(db, approvalId, actorId, now)
      case OutOfOrder(error) => Abort(error)
      case Lapsed(lapsed, report) => Commit(lapsed, NotGranted(report))
      case Stands =>
        var id := Id(approvalId.text + AUTHORIZATION_SUFFIX);
        if id in db.authorizations then Abort(DuplicateKey)
        else
          var z := AuthorizationFrom(approvalId, a, consumerId);
          Commit(Authorize(db, id, z).(approvals := db.approvals[approvalId := a.(status := Consumed)]), Granted(id, z))
  }

  datatype AutonomousRequest = AutonomousRequest(authorizationId: Id, bound: Binding, idempotencyKey: Id)

  /** The persisted rows allow this request to be authorized with the operation in the given state. */
  predicate AutonomyHolds(db: Db, b: Binding, fences: Fences, now: Time, state: L.State, money: ReservationStatus)
    requires Bound(db, b)
  {
    var op, e, r := db.operations[b.operationId], db.envelopes[b.envelopeId].payload, db.reservations[b.reservationId];
    && Agrees(db, b, AllowAutonomous)
    && db.policies[op.policyId].status == ActivePolicy
    && op.state == state
    && r.status == money
    && !e.ownerApproval
    && e.riskAllowed
    && AllActive(fences)
    && e.createdAt <= now < e.expiresAt
    && now < r.expiresAt
  }

  function AuthorizeAutonomously(db: Db, q: AutonomousRequest, now: Time): Tx<Authorization> {
    var ids := if q.authorizationId in db.authorizations then db.authorizations[q.authorizationId].bound else q.bound;
    var bound := AuthoritativeBinding(db, ids.operationId, ids.reservationId, ids.envelopeId, ids.decisionId);
    if bound.Err? then Abort(bound.error)
    else
      var locked := LockOver(db, bound.value);
      if locked.Err? then Abort(locked.error) else AuthorizeLocked(locked.value, q, bound.value, now)
  }

  function AuthorizeLocked(db: Db, q: AutonomousRequest, b: Binding, now: Time): Tx<Authorization>
    requires IsLocked(db, b)
  {
    var fences, nonce := CurrentFences(db, b), Id(q.idempotencyKey.text + AUTONOMOUS_SUFFIX);
    if q.authorizationId !in db.authorizations && !NoneAuthorized(db, b.operationId) then Abort(AutonomousConflict)
    else if b != q.bound then Abort(ApprovalBindingMismatch)
    else if db.decisions[b.decisionId].verdict != AllowAutonomous then Abort(AutonomousPolicyRequired)
    else if q.authorizationId in db.authorizations then
      var z := db.authorizations[q.authorizationId];
      if !AutonomyHolds(db, b, fences, now, L.Authorized, Authorized) then Abort(RevalidationNeeded)
      else if z.source != AutonomousPolicy || z.consumerId != AUTONOMOUS_CONSUMER || z.consumptionNonce != nonce
        then Abort(AutonomousConflict)
      else Commit(db, z)
    else if !AutonomyHolds(db, b, fences, now, L.EnvelopeFinalized, Held)
      || Superseded(db, b.operationId, b.envelopeRevision) then
      Abort(RevalidationNeeded)
    else if !NoneActive(db, b.operationId) then Abort(AutonomousConflict)
    else
      var e := db.envelopes[b.envelopeId].payload;
      var z := Authorization(AutonomousPolicy, b, e.createdAt, e.expiresAt, AUTONOMOUS_CONSUMER, nonce, fences);
      Commit(Authorize(db, q.authorizationId, z), z)
  }
}
