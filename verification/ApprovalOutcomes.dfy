/**
 What each approval transaction does in a reachable database: exactly when it commits, and then
 which rows are new, in full.
 */
module ApprovalOutcomes {
  import opened Texts
  import opened Schema
  import opened Fencing
  import opened Moves
  import opened Money
  import opened Evolution
  import opened Invariants
  import opened Authority
  import Ledger
  import Approvals
  import Refinement
  import L = Lifecycle

  // ----- loading ---------------------------------------------------------------------------

  /** A revoked policy has a revoked fence. */
  predicate InStep(db: Db, policyId: Id) {
    && policyId in db.policies
    && (db.policies[policyId].status == RevokedPolicy ==>
          PolicyScope(policyId) in db.fences && db.fences[PolicyScope(policyId)].state == Revoked)
  }

  lemma NothingToCreate(db: Db, owner: Id, agent: Id, policy: Id)
    requires Scopes(owner, agent, policy) <= db.fences.Keys
    ensures EnsureAll(db, owner, agent, policy) == db
  {
    hide EnsureFour;
    var next := EnsureFour(db.fences, db.policies, owner, agent, policy);
    assert next.Keys == db.fences.Keys;
    assert next == db.fences;
  }

  lemma BoundOf(db: Db, b: Binding, f: Fences, verdict: Verdict)
    requires Inv(db) && Recorded(db, b, f) && Sealed(db, b, verdict)
    ensures Approvals.IsLocked(db, b) && b.policyId in db.policies
    ensures Approvals.Agrees(db, b, verdict)
  {
    hide Conserved, Authorizations, SignedOnce, BroadcastsHold, LeasesSpent, Executed, FenceRises;
    assert Drawn(db, b.reservationId);
  }

  /** In a reachable database an approval loads as it stands: its rows and its fences are all there. */
  lemma LoadsAsIs(db: Db, k: Id)
    requires Inv(db)
    ensures k !in db.approvals ==> Approvals.Load(db, k) == Err(ApprovalNotFound)
    ensures k in db.approvals ==>
      && var b := db.approvals[k].bound;
      && Approvals.IsLoaded(db, k)
      && Approvals.Agrees(db, b, RequireApproval)
      && Approvals.Load(db, k) == if InStep(db, b.policyId) then Ok(db) else Err(RevalidationNeeded)
  {
    hide Inv, Recorded, Sealed, Approvals.Agrees, EnsureAll;
    if k in db.approvals {
      var b := db.approvals[k].bound;
      ApprovalOf(db, k);
      BoundOf(db, b, db.approvals[k].fences, RequireApproval);
      NothingToCreate(db, Approvals.OwnerOf(db, b.operationId), db.operations[b.operationId].agentId, b.policyId);
    }
  }

  // ----- closing ---------------------------------------------------------------------------

  /** The approval is closed, its operation has left for another state, and its money is back in its budget. */
  predicate ClosedAs(db: Db, next: Db, k: Id, to: L.State, money: ReservationStatus, status: ApprovalStatus,
      approverId: Option<Id>)
  {
    && k in db.approvals
    && var a := db.approvals[k];
    && var o, j := a.bound.operationId, a.bound.reservationId;
    && o in db.operations && Funded(db, j)
    && var r := db.reservations[j];
    && var b := db.budgets[r.budgetId];
    && next == db.(
      approvals := db.approvals[k := a.(status := status, approverId := approverId)],
      operations := db.operations[o := db.operations[o].(state := to)],
      history := db.history + [StateChange(o, db.operations[o].state, to)],
      reservations := db.reservations[j := r.(status := money, encumbered := false)],
      budgets := db.budgets[r.budgetId := b.(available := b.available + r.amount, reserved := b.reserved - r.amount,
        version := b.version + 1)])
  }

  /** The operation of an approval awaits it, with its money held. */
  predicate AwaitsApproval(db: Db, a: Approval) {
    && a.bound.operationId in db.operations
    && db.operations[a.bound.operationId].state == L.AwaitingApproval
    && a.bound.reservationId in db.reservations
    && db.reservations[a.bound.reservationId].status == Held
  }

  /** An approval that can be acted on: current, awaited, in its time, and for the latest envelope. */
  predicate Ready(db: Db, a: Approval, now: Time) {
    && AreCurrent(db, a.bound, a.fences)
    && AwaitsApproval(db, a)
    && a.issuedAt <= now < a.expiresAt
    && NewestRevision(db, a.bound.operationId, a.bound.envelopeRevision)
  }

  /** It cannot be acted on and is not to be closed either: too early, or not awaited. */
  predicate Inopportune(db: Db, a: Approval, now: Time) {
    AreCurrent(db, a.bound, a.fences) && (now < a.issuedAt || !AwaitsApproval(db, a))
  }

  /** How an approval that is neither ready nor inopportune ends. */
  predicate EndsAs(db: Db, next: Db, k: Id, actor: Id, now: Time, report: Approvals.Report)
    requires k in db.approvals
  {
    var a := db.approvals[k];
    var decider := if a.approverId.Some? then a.approverId else Some(actor);
    if AreCurrent(db, a.bound, a.fences) && now >= a.expiresAt then
      report == Approvals.LifetimeElapsed
        && ClosedAs(db, next, k, L.Expired, Expired, ApprovalExpired, a.approverId)
    else
      && report == Approvals.MustRevalidate
      && if AwaitsApproval(db, a)
         then ClosedAs(db, next, k, L.RevalidationRequired, Released, ApprovalRevoked, decider)
         else next == db
  }

  lemma HoldsIff(db: Db, k: Id)
    requires Inv(db) && k in db.approvals && Approvals.IsLoaded(db, k)
    ensures var a := db.approvals[k];
      && (Approvals.FencesHold(db, a.bound, a.fences) <==> AreCurrent(db, a.bound, a.fences))
      && (Approvals.Awaiting(db, a.bound) <==> AwaitsApproval(db, a))
  {
    hide Inv, FenceRises, Sealed;
    ApprovalOf(db, k);
  }

  lemma CloseIs(db: Db, k: Id, to: L.State, money: ReservationStatus, status: ApprovalStatus, approverId: Option<Id>)
    requires k in db.approvals && Approvals.Bound(db, db.approvals[k].bound)
    ensures ClosedAs(db, Approvals.Close(db, k, to, money, status, approverId), k, to, money, status, approverId)
  {}

  /** What the shared check of approving and consuming concludes. */
  lemma StandingIs(db: Db, k: Id, actor: Id, now: Time)
    requires Inv(db) && k in db.approvals && Approvals.IsLoaded(db, k)
    ensures var a := db.approvals[k];
      match Approvals.StandingOf(db, k, actor, now)
      case Stands => Ready(db, a, now) && !Inopportune(db, a, now)
      case OutOfOrder(_) => !Ready(db, a, now) && Inopportune(db, a, now)
      case Lapsed(next, report) =>
        !Ready(db, a, now) && !Inopportune(db, a, now) && EndsAs(db, next, k, actor, now, report)
  {
    hide Inv, Approvals.FencesHold, Approvals.Awaiting, AreCurrent, AwaitsApproval, Approvals.Close, ClosedAs,
        Ledger.Superseded, NewestRevision;
    var a := db.approvals[k];
    HoldsIff(db, k);
    Refinement.NotSuperseded(db, a.bound.operationId, a.bound.envelopeRevision);
    CloseIs(db, k, L.RevalidationRequired, Released, ApprovalRevoked, Approvals.Coalesce(a.approverId, actor));
    CloseIs(db, k, L.Expired, Expired, ApprovalExpired, a.approverId);
  }

  // ----- approve, reject, revoke -----------------------------------------------------------

  /** Only a ready pending approval is approved, and by exactly the approver named. */
  lemma ApproveOutcome(db: Db, k: Id, approver: Id, actor: Id, now: Time)
    requires Inv(db)
    ensures var tx := Approvals.Approve(db, k, approver, actor, now);
      && (tx.Commit? ==> k in db.approvals && InStep(db, db.approvals[k].bound.policyId))
      && (k in db.approvals && InStep(db, db.approvals[k].bound.policyId) ==>
            var a := db.approvals[k];
            match a.status
            case Approved =>
              && (tx.Commit? <==> a.approverId == Some(approver))
              && (tx.Commit? ==> tx == Commit(db, Approvals.Decided(a)))
            case Pending =>
              if Ready(db, a, now) then
                var approved := a.(status := Approved, approverId := Some(approver));
                tx == Commit(db.(approvals := db.approvals[k := approved]), Approvals.Decided(approved))
              else if Inopportune(db, a, now) then tx.Abort?
              else tx.Commit? && EndsAs(db, tx.db, k, actor, now, tx.value)
            case _ => tx.Abort?)
  {
    hide Inv, Approvals.Load, Approvals.StandingOf, Approvals.Agrees, InStep, Ready, Inopportune, EndsAs;
    LoadsAsIs(db, k);
    if k in db.approvals {
      StandingIs(db, k, actor, now);
    }
  }

  /** A pending approval for the latest envelope, still awaited. */
  predicate Rejectable(db: Db, k: Id) {
    && k in db.approvals
    && var a := db.approvals[k];
    && InStep(db, a.bound.policyId)
    && a.status == Pending
    && AwaitsApproval(db, a)
    && NewestRevision(db, a.bound.operationId, a.bound.envelopeRevision)
  }

  lemma RejectOutcome(db: Db, k: Id, approver: Id)
    requires Inv(db)
    ensures var tx := Approvals.Reject(db, k, approver);
      && (tx.Commit? <==> Rejectable(db, k))
      && (tx.Commit? ==>
            && ClosedAs(db, tx.db, k, L.Rejected, Released, Rejected, Some(approver))
            && k in tx.db.approvals && tx.value == Approvals.Decided(tx.db.approvals[k]))
  {
    hide Inv, Approvals.Load, Approvals.Agrees, InStep, Approvals.Close, AwaitsApproval, Approvals.Awaiting,
        Ledger.Superseded, NewestRevision;
    LoadsAsIs(db, k);
    if k in db.approvals {
      HoldsIff(db, k);
      var b := db.approvals[k].bound;
      Refinement.NotSuperseded(db, b.operationId, b.envelopeRevision);
      CloseIs(db, k, L.Rejected, Released, Rejected, Some(approver));
    }
  }

  lemma RevokeOutcome(db: Db, k: Id, actor: Id)
    requires Inv(db)
    ensures var tx := Approvals.Revoke(db, k, actor);
      && (tx.Commit? <==>
            && k in db.approvals && InStep(db, db.approvals[k].bound.policyId)
            && (|| db.approvals[k].status == ApprovalRevoked
                || (db.approvals[k].status in {Pending, Approved} && AwaitsApproval(db, db.approvals[k]))))
      && (tx.Commit? && db.approvals[k].status == ApprovalRevoked ==>
            tx == Commit(db, Approvals.Decided(db.approvals[k])))
      && (tx.Commit? && db.approvals[k].status != ApprovalRevoked ==>
            var a := db.approvals[k];
            && ClosedAs(db, tx.db, k, L.Revoked, Released, ApprovalRevoked,
              if a.approverId.Some? then a.approverId else Some(actor))
            && k in tx.db.approvals && tx.value == Approvals.Decided(tx.db.approvals[k]))
  {
    hide Inv, Approvals.Load, Approvals.Agrees, InStep, Approvals.Close, AwaitsApproval, Approvals.Awaiting;
    LoadsAsIs(db, k);
    if k in db.approvals {
      HoldsIff(db, k);
      CloseIs(db, k, L.Revoked, Released, ApprovalRevoked, Approvals.Coalesce(db.approvals[k].approverId, actor));
    }
  }

  /** In any database, reachable or not, nothing is decided about an approval whose envelope and decision disagree. */
  lemma NothingUnsealed(db: Db, k: Id, approver: Id, actor: Id, now: Time, claim: Approvals.Claim, o: Id,
      e: EnvelopePayload)
    ensures
      || Approvals.Approve(db, k, approver, actor, now).Commit?
      || Approvals.Reject(db, k, approver).Commit?
      || Approvals.Revoke(db, k, actor).Commit?
      || Approvals.Replace(db, o, e, k, actor).Commit?
      || Approvals.Consume(db, k, claim, approver, actor, now).Commit?
      ==> k in db.approvals && Sealed(db, db.approvals[k].bound, RequireApproval)
  {
    hide Approvals.Agrees, Approvals.Load, Sealed, Approvals.StandingOf, Approvals.Follows, Ledger.Superseded,
        Approvals.ReplaceAwaiting, Approvals.ReplaceAuthorized;
    var loaded := Approvals.Load(db, k);
    if loaded.Ok? {
      AgreesAsLoaded(db, loaded.value, db.approvals[k].bound);
    }
  }

  lemma AgreesAsLoaded(db: Db, loaded: Db, b: Binding)
    requires Approvals.Bound(db, b) && Approvals.Bound(loaded, b) && loaded == db.(fences := loaded.fences)
    ensures Approvals.Agrees(loaded, b, RequireApproval) ==> Sealed(db, b, RequireApproval)
  {}

  // ----- consume ---------------------------------------------------------------------------

  /** The operation and the reservation are authorized and the authorization is on record. */
  predicate GrantedAs(db: Db, next: Db, id: Id, z: Authorization) {
    var o, j := z.bound.operationId, z.bound.reservationId;
    && o in db.operations && j in db.reservations
    && next.operations == db.operations[o := db.operations[o].(state := L.Authorized)]
    && next.history == db.history + [StateChange(o, db.operations[o].state, L.Authorized)]
    && next.reservations == db.reservations[j := db.reservations[j].(status := Authorized)]
    && next.authorizations == db.authorizations[id := z]
    && next == db.(operations := next.operations, history := next.history, reservations := next.reservations,
      authorizations := next.authorizations, approvals := next.approvals, fences := next.fences)
  }

  /** An approved approval, claimed by its operation and envelope. */
  predicate Claimable(db: Db, k: Id, claim: Approvals.Claim) {
    && k in db.approvals
    && var a := db.approvals[k];
    && InStep(db, a.bound.policyId)
    && a.status == Approved
    && claim.operationId == a.bound.operationId
    && (claim.envelopeId, claim.envelopeRevision, claim.envelopeHash) ==
      (a.bound.envelopeId, a.bound.envelopeRevision, a.bound.envelopeHash)
  }

  /** The approval is consumed and has become an authorization with its lifetime, binding and fences. */
  predicate ConsumedAs(db: Db, next: Db, k: Id, consumer: Id, report: Approvals.ConsumeReport) {
    && k in db.approvals
    && var a := db.approvals[k];
    && var z := Authorization(OwnerApproval(k), a.bound, a.issuedAt, a.expiresAt, consumer,
      Id(a.nonce.text + Lit(":consumed")), a.fences);
    && AuthorizationOf(k) !in db.authorizations
    && report == Approvals.Granted(AuthorizationOf(k), z)
    && GrantedAs(db, next, AuthorizationOf(k), z)
    && next.fences == db.fences
    && next.approvals == db.approvals[k := a.(status := Consumed)]
  }

  /** An approval is consumed by whoever names its operation and envelope, once, while it is ready. */
  lemma ConsumeOutcome(db: Db, k: Id, claim: Approvals.Claim, consumer: Id, actor: Id, now: Time)
    requires Inv(db)
    ensures var tx := Approvals.Consume(db, k, claim, consumer, actor, now);
      tx.Commit? ==>
        && Claimable(db, k, claim)
        && !Inopportune(db, db.approvals[k], now)
        && if Ready(db, db.approvals[k], now) then ConsumedAs(db, tx.db, k, consumer, tx.value)
           else tx.value.NotGranted? && EndsAs(db, tx.db, k, actor, now, tx.value.report)
  {
    hide Inv, Approvals.Load, Approvals.StandingOf, Approvals.Agrees, InStep, Ready, Inopportune, EndsAs;
    LoadsAsIs(db, k);
    if k in db.approvals {
      StandingIs(db, k, actor, now);
    }
  }

  /** And that is all it takes. */
  lemma ConsumeCommits(db: Db, k: Id, claim: Approvals.Claim, consumer: Id, actor: Id, now: Time)
    requires Inv(db) && Claimable(db, k, claim) && !Inopportune(db, db.approvals[k], now)
    requires Ready(db, db.approvals[k], now) ==> AuthorizationOf(k) !in db.authorizations
    ensures Approvals.Consume(db, k, claim, consumer, actor, now).Commit?
  {
    hide Inv, Approvals.Load, Approvals.StandingOf, Approvals.Agrees, InStep, Ready, Inopportune, EndsAs;
    LoadsAsIs(db, k);
    StandingIs(db, k, actor, now);
  }

  // ----- create ----------------------------------------------------------------------------

  /** What the rows a request names say, as a binding. */
  function BindingOf(db: Db, o: Id, k: Id, envelopeId: Id, decisionId: Id): Binding
    requires o in db.operations && envelopeId in db.envelopes && decisionId in db.decisions
  {
    var op, e, d := db.operations[o], db.envelopes[envelopeId], db.decisions[decisionId];
    Binding(o, k, envelopeId, e.revision, e.hash, decisionId, d.hash, op.policyId, op.policyVersion)
  }

  /** Neither a fence over the operation nor its policy forbids it; fences not created yet do not. */
  predicate Unforbidden(db: Db, o: Id) {
    && o in db.operations
    && var op := db.operations[o];
    && op.agentId in db.registry.agentOwner
    && op.policyId in db.policies
    && db.policies[op.policyId].status != RevokedPolicy
    && forall s | s in {SystemScope, OwnerScope(db.registry.agentOwner[op.agentId]), AgentScope(op.agentId),
         PolicyScope(op.policyId)} && s in db.fences :: db.fences[s].state == Active
  }

  /** The missing fences over the operation have been created, and these are now the four. */
  predicate FencesTaken(db: Db, next: map<Scope, Fence>, b: Binding, f: Fences) {
    && Grows(db.fences, next)
    && (forall s | s in next && s !in db.fences :: IsFirst(next[s], db.policies, s))
    && AreCurrent(db.(fences := next), b, f)
    && Unblocked(f)
  }

  /** A new fence is active unless its policy is revoked. */
  lemma FirstIsActive(f: Fence, policies: map<Id, Policy>, s: Scope)
    requires IsFirst(f, policies, s)
    ensures f.state == Active <==>
      !(s.PolicyScope? && s.policyId in policies && policies[s.policyId].status == RevokedPolicy)
  {}

  lemma FourActive(db: Db, next: map<Scope, Fence>, b: Binding, f: Fences)
    requires OwnPolicy(db, b) && b.policyId in db.policies && Grows(db.fences, next)
    requires forall s | s in next && s !in db.fences :: IsFirst(next[s], db.policies, s)
    requires AreCurrent(db.(fences := next), b, f)
    ensures Unforbidden(db, b.operationId) <==>
      && (db.policies[b.policyId].status == RevokedPolicy ==> f.policy.state == Revoked)
      && Unblocked(f)
  {
    hide IsFirst;
    var op := db.operations[b.operationId];
    var owner := db.registry.agentOwner[op.agentId];
    forall s | s in next && s !in db.fences
      ensures next[s].state == Active <==>
        !(s.PolicyScope? && s.policyId in db.policies && db.policies[s.policyId].status == RevokedPolicy)
    {
      FirstIsActive(next[s], db.policies, s);
    }
    assert Unforbidden(db, b.operationId) ==>
      && (OwnerScope(owner) in db.fences ==> f.owner.state == Active)
      && (AgentScope(op.agentId) in db.fences ==> f.agent.state == Active)
      && (PolicyScope(op.policyId) in db.fences ==> f.policy.state == Active)
      && (SystemScope in db.fences ==> f.system.state == Active);
  }

  /** Locking either gives the four fences, all active, or something forbids it. */
  lemma Locking(db: Db, b: Binding)
    requires Approvals.Bound(db, b) && OwnPolicy(db, b)
    ensures var locked := Approvals.LockOver(db, b);
      && (locked.Ok? ==> locked.value == db.(fences := locked.value.fences) && Approvals.IsLocked(locked.value, b))
      && (locked.Ok? && AllActive(Approvals.CurrentFences(locked.value, b)) <==> Unforbidden(db, b.operationId))
      && (Unforbidden(db, b.operationId) ==>
            FencesTaken(db, locked.value.fences, b, Approvals.CurrentFences(locked.value, b)))
  {
    hide EnsureFour, Unforbidden, IsFirst;
    var op := db.operations[b.operationId];
    var owner := db.registry.agentOwner[op.agentId];
    var next := EnsureFour(db.fences, db.policies, owner, op.agentId, op.policyId);
    var f := Read(next, owner, op.agentId, op.policyId);
    FourActive(db, next, b, f);
  }

  /** The rows are in order for an approval to be asked for. */
  predicate MayRequest(db: Db, q: Approvals.CreateRequest) {
    && q.operationId in db.operations && q.envelopeId in db.envelopes && q.decisionId in db.decisions
    && var b := BindingOf(db, q.operationId, q.reservationId, q.envelopeId, q.decisionId);
    && Sealed(db, b, RequireApproval)
    && NewestRevision(db, q.operationId, b.envelopeRevision)
    && Reserved(db, q.operationId, q.reservationId)
    && db.reservations[q.reservationId].status == Held
    && db.operations[q.operationId].state in {L.EnvelopeFinalized, L.AwaitingApproval}
    && q.envelopeRevision == b.envelopeRevision && q.envelopeRevision > 0
    && q.envelopeHash == b.envelopeHash
    && Within(q.issuedAt, q.expiresAt, db.envelopes[q.envelopeId].payload)
    && Unforbidden(db, q.operationId)
  }

  /** A pending approval with what was asked for, under the fences of this moment; its operation awaits it. */
  predicate RequestedAs(db: Db, next: Db, q: Approvals.CreateRequest, a: Approval) {
    && MayRequest(db, q)
    && var op := db.operations[q.operationId];
    && a == Approval(BindingOf(db, q.operationId, q.reservationId, q.envelopeId, q.decisionId), None, q.issuedAt,
      q.expiresAt, q.nonce, Pending, a.fences)
    && FencesTaken(db, next.fences, a.bound, a.fences)
    && next == db.(
      fences := next.fences,
      approvals := db.approvals[q.approvalId := a],
      operations := db.operations[q.operationId := op.(state := L.AwaitingApproval)],
      history := if op.state == L.AwaitingApproval then db.history
        else db.history + [StateChange(q.operationId, op.state, L.AwaitingApproval)])
  }

  lemma BoundIff(db: Db, o: Id, k: Id, envelopeId: Id, decisionId: Id)
    requires Inv(db)
    ensures var bound := Approvals.AuthoritativeBinding(db, o, k, envelopeId, decisionId);
      && (bound.Ok? <==>
            && o in db.operations && envelopeId in db.envelopes && decisionId in db.decisions
            && db.envelopes[envelopeId].operationId == o && db.decisions[decisionId].operationId == o
            && Reserved(db, o, k))
      && (bound.Ok? ==>
            && bound.value == BindingOf(db, o, k, envelopeId, decisionId)
            && OwnPolicy(db, bound.value)
            && (bound.value.operationId, bound.value.reservationId) == (o, k)
            && (bound.value.envelopeId, bound.value.decisionId) == (envelopeId, decisionId))
  {
    hide Conserved, Authorizations, SignedOnce, BroadcastsHold, LeasesSpent, Executed;
    if k in db.reservations {
      assert Drawn(db, k);
    }
  }

  lemma AgreesIff(db: Db, b: Binding, verdict: Verdict)
    requires Approvals.Bound(db, b)
    ensures Approvals.Agrees(db, b, verdict) <==> Sealed(db, b, verdict)
  {}

  /** An approval is created exactly when the rows are in order and nothing forbids it. */
  lemma CreateOutcome(db: Db, q: Approvals.CreateRequest)
    requires Inv(db) && q.approvalId !in db.approvals
    ensures var tx := Approvals.Create(db, q);
      && (tx.Commit? <==> MayRequest(db, q))
      && (tx.Commit? ==> RequestedAs(db, tx.db, q, tx.value))
  {
    hide Inv, Approvals.AuthoritativeBinding, Approvals.LockOver, Approvals.CreateLocked, Reserved, OwnPolicy,
        BindingOf, FencesTaken, Unforbidden, MayRequest, RequestedAs;
    BoundIff(db, q.operationId, q.reservationId, q.envelopeId, q.decisionId);
    MayRequestIsBound(db, q);
    var bound := Approvals.AuthoritativeBinding(db, q.operationId, q.reservationId, q.envelopeId, q.decisionId);
    if bound.Ok? {
      Locking(db, bound.value);
      var locked := Approvals.LockOver(db, bound.value);
      if locked.Ok? {
        CreateLockedOutcome(db, locked.value, q, bound.value);
      }
    }
  }

  lemma MayRequestIsBound(db: Db, q: Approvals.CreateRequest)
    ensures MayRequest(db, q) ==>
      && q.operationId in db.operations && q.envelopeId in db.envelopes && q.decisionId in db.decisions
      && db.envelopes[q.envelopeId].operationId == q.operationId
      && db.decisions[q.decisionId].operationId == q.operationId
      && Reserved(db, q.operationId, q.reservationId)
      && Unforbidden(db, q.operationId)
      && q.expiresAt > q.issuedAt && q.envelopeRevision > 0
  {}

  lemma CreateLockedOutcome(db: Db, locked: Db, q: Approvals.CreateRequest, b: Binding)
    requires locked == db.(fences := locked.fences) && Approvals.IsLocked(locked, b) && Approvals.Bound(db, b)
    requires q.operationId in db.operations && q.envelopeId in db.envelopes && q.decisionId in db.decisions
    requires b == BindingOf(db, q.operationId, q.reservationId, q.envelopeId, q.decisionId)
    requires AllActive(Approvals.CurrentFences(locked, b)) <==> Unforbidden(db, b.operationId)
    requires Unforbidden(db, b.operationId) ==> FencesTaken(db, locked.fences, b, Approvals.CurrentFences(locked, b))
    requires q.approvalId !in db.approvals
    ensures var tx := Approvals.CreateLocked(locked, q, b);
      && (tx.Commit? && q.expiresAt > q.issuedAt && q.envelopeRevision > 0 <==> MayRequest(db, q))
      && (tx.Commit? && MayRequest(db, q) ==> RequestedAs(db, tx.db, q, tx.value))
  {
    hide Approvals.Agrees, Sealed, Ledger.Superseded, NewestRevision, AllActive, FencesTaken, Unforbidden,
        Approvals.CurrentFences, Approvals.IsLocked;
    AgreesIff(db, b, RequireApproval);
    SameAgreement(db, locked, b, RequireApproval);
    Refinement.NotSuperseded(db, b.operationId, b.envelopeRevision);
    var op := db.operations[q.operationId];
    if op.state == L.AwaitingApproval {
      assert db.operations[q.operationId := op.(state := L.AwaitingApproval)] == db.operations;
    }
  }

  lemma SameAgreement(db: Db, locked: Db, b: Binding, verdict: Verdict)
    requires locked == db.(fences := locked.fences) && Approvals.Bound(db, b) && Approvals.Bound(locked, b)
    ensures Approvals.Agrees(locked, b, verdict) == Approvals.Agrees(db, b, verdict)
    ensures forall o, revision :: Ledger.Superseded(locked, o, revision) == Ledger.Superseded(db, o, revision)
  {}

  /** Asking again for the same approval changes nothing. */
  lemma CreateAgain(db: Db, q: Approvals.CreateRequest)
    requires Inv(db) && q.approvalId in db.approvals
    ensures var tx := Approvals.Create(db, q);
      var a := db.approvals[q.approvalId];
      && (tx.Commit? <==>
            && (q.operationId, q.reservationId) == (a.bound.operationId, a.bound.reservationId)
            && (q.envelopeId, q.envelopeRevision, q.envelopeHash) ==
              (a.bound.envelopeId, a.bound.envelopeRevision, a.bound.envelopeHash)
            && q.decisionId == a.bound.decisionId
            && (q.issuedAt, q.expiresAt, q.nonce) == (a.issuedAt, a.expiresAt, a.nonce)
            && q.envelopeRevision > 0
            && NewestRevision(db, a.bound.operationId, a.bound.envelopeRevision))
      && (tx.Commit? ==> tx == Commit(db, a))
  {
    hide Inv, Recorded, Sealed, Approvals.Agrees, Ledger.Superseded, NewestRevision;
    var a := db.approvals[q.approvalId];
    ApprovalOf(db, q.approvalId);
    LoadsAsIs(db, q.approvalId);
    Refinement.NotSuperseded(db, a.bound.operationId, a.bound.envelopeRevision);
  }

  // ----- autonomous authorization ----------------------------------------------------------

  /** The policy may authorize the operation by itself, now. */
  predicate MayAutomate(db: Db, b: Binding, now: Time) {
    && b.operationId in db.operations && b.envelopeId in db.envelopes && b.decisionId in db.decisions
    && b == BindingOf(db, b.operationId, b.reservationId, b.envelopeId, b.decisionId)
    && Sealed(db, b, AllowAutonomous)
    && NewestRevision(db, b.operationId, b.envelopeRevision)
    && Reserved(db, b.operationId, b.reservationId)
    && var op, e, r := db.operations[b.operationId], db.envelopes[b.envelopeId].payload,
      db.reservations[b.reservationId];
    && op.policyId in db.policies && db.policies[op.policyId].status == ActivePolicy
    && op.state == L.EnvelopeFinalized
    && r.status == Held
    && !e.ownerApproval
    && e.riskAllowed
    && e.createdAt <= now < e.expiresAt
    && now < r.expiresAt
    && Unforbidden(db, b.operationId)
    && (forall a | a in db.approvals && Approvals.IsActive(db.approvals[a]) ::
          db.approvals[a].bound.operationId != b.operationId)
    && (forall z | z in db.authorizations :: db.authorizations[z].bound.operationId != b.operationId)
  }

  /** The envelope's lifetime, the fences of this moment and the binding that was asked for. */
  predicate AutomatedAs(db: Db, next: Db, q: Approvals.AutonomousRequest, z: Authorization) {
    && q.bound.envelopeId in db.envelopes
    && var e := db.envelopes[q.bound.envelopeId].payload;
    && z == Authorization(AutonomousPolicy, q.bound, e.createdAt, e.expiresAt, Id(Lit("autonomous-policy-writer")),
      Id(q.idempotencyKey.text + Lit(":autonomous")), z.fences)
    && FencesTaken(db, next.fences, z.bound, z.fences)
    && GrantedAs(db, next, q.authorizationId, z)
    && next.approvals == db.approvals
  }

  lemma AutonomousOutcome(db: Db, q: Approvals.AutonomousRequest, now: Time)
    requires Inv(db) && q.authorizationId !in db.authorizations
    ensures var tx := Approvals.AuthorizeAutonomously(db, q, now);
      && (tx.Commit? <==> MayAutomate(db, q.bound, now))
      && (tx.Commit? ==> AutomatedAs(db, tx.db, q, tx.value))
  {
    hide Inv, Approvals.AuthoritativeBinding, Approvals.LockOver, Approvals.AuthorizeLocked, Reserved, OwnPolicy,
        BindingOf, FencesTaken, Unforbidden, MayAutomate, AutomatedAs;
    var b := q.bound;
    BoundIff(db, b.operationId, b.reservationId, b.envelopeId, b.decisionId);
    MayAutomateIsBound(db, b, now);
    var bound := Approvals.AuthoritativeBinding(db, b.operationId, b.reservationId, b.envelopeId, b.decisionId);
    if bound.Ok? {
      Locking(db, bound.value);
      var locked := Approvals.LockOver(db, bound.value);
      if locked.Ok? {
        AuthorizeLockedOutcome(db, locked.value, q, bound.value, now);
      }
    }
  }

  lemma MayAutomateIsBound(db: Db, b: Binding, now: Time)
    ensures MayAutomate(db, b, now) ==>
      && b.operationId in db.operations && b.envelopeId in db.envelopes && b.decisionId in db.decisions
      && db.envelopes[b.envelopeId].operationId == b.operationId
      && db.decisions[b.decisionId].operationId == b.operationId
      && Reserved(db, b.operationId, b.reservationId)
      && Unforbidden(db, b.operationId)
  {}

  lemma AuthorizeLockedOutcome(db: Db, locked: Db, q: Approvals.AutonomousRequest, b: Binding, now: Time)
    requires locked == db.(fences := locked.fences) && Approvals.IsLocked(locked, b) && Approvals.Bound(db, b)
    requires b.operationId == q.bound.operationId && b.envelopeId == q.bound.envelopeId
      && b.decisionId == q.bound.decisionId && b.reservationId == q.bound.reservationId
    requires b == BindingOf(db, b.operationId, b.reservationId, b.envelopeId, b.decisionId)
    requires AllActive(Approvals.CurrentFences(locked, b)) <==> Unforbidden(db, b.operationId)
    requires Unforbidden(db, b.operationId) ==> FencesTaken(db, locked.fences, b, Approvals.CurrentFences(locked, b))
    requires q.authorizationId !in db.authorizations
    ensures var tx := Approvals.AuthorizeLocked(locked, q, b, now);
      && (tx.Commit? <==> MayAutomate(db, q.bound, now))
      && (tx.Commit? ==> AutomatedAs(db, tx.db, q, tx.value))
  {
    hide Approvals.Agrees, Sealed, Ledger.Superseded, NewestRevision, AllActive, FencesTaken, Unforbidden,
        Approvals.CurrentFences, Approvals.IsLocked;
    AgreesIff(db, b, AllowAutonomous);
    SealedVerdict(db, b);
    SameAgreement(db, locked, b, AllowAutonomous);
    Refinement.NotSuperseded(db, b.operationId, b.envelopeRevision);
  }

  lemma SealedVerdict(db: Db, b: Binding)
    requires b.decisionId in db.decisions
    ensures Sealed(db, b, AllowAutonomous) ==> db.decisions[b.decisionId].verdict == AllowAutonomous
  {}

  /** The same request again, while what it authorized is still good. */
  predicate StillAutomated(db: Db, q: Approvals.AutonomousRequest, now: Time) {
    && q.authorizationId in db.authorizations
    && var z := db.authorizations[q.authorizationId];
    && z.source == AutonomousPolicy
    && z.bound == q.bound
    && z.consumerId == Id(Lit("autonomous-policy-writer"))
    && z.consumptionNonce == Id(q.idempotencyKey.text + Lit(":autonomous"))
    && z.issuedAt <= now < z.expiresAt
    && Open(db, z.bound.operationId)
    && z.bound.policyId in db.policies && db.policies[z.bound.policyId].status == ActivePolicy
    && db.operations[z.bound.operationId].state == L.Authorized
    && z.bound.reservationId in db.reservations
    && db.reservations[z.bound.reservationId].status == Authorized
    && now < db.reservations[z.bound.reservationId].expiresAt
  }

  lemma RebindsItself(db: Db, z: Id)
    requires Inv(db) && z in db.authorizations
    ensures var b := db.authorizations[z].bound;
      && Approvals.IsLocked(db, b)
      && b.policyId in db.policies
      && Approvals.Agrees(db, b, VerdictFor(db.authorizations[z].source))
      && Approvals.AuthoritativeBinding(db, b.operationId, b.reservationId, b.envelopeId, b.decisionId) == Ok(b)
  {
    hide Inv, Approvals.Agrees;
    AuthorityOf(db, z);
    var y := db.authorizations[z];
    BoundOf(db, y.bound, y.fences, VerdictFor(y.source));
  }

  /** Authorizing again with the same request changes nothing. */
  lemma AutonomousAgain(db: Db, q: Approvals.AutonomousRequest, now: Time)
    requires Inv(db) && q.authorizationId in db.authorizations
    ensures var tx := Approvals.AuthorizeAutonomously(db, q, now);
      && (tx.Commit? <==> StillAutomated(db, q, now))
      && (tx.Commit? ==> tx == Commit(db, db.authorizations[q.authorizationId]))
  {
    hide Inv, Approvals.AuthoritativeBinding, Approvals.IsLocked, Approvals.AuthorizeLocked, Approvals.Agrees,
        EnsureAll, StillAutomated;
    var b := db.authorizations[q.authorizationId].bound;
    RebindsItself(db, q.authorizationId);
    LockedAsIs(db, b);
    if InStep(db, b.policyId) {
      AgainLocked(db, q, now);
    } else {
      RevokedIsOver(db, q, now);
    }
  }

  lemma LockedAsIs(db: Db, b: Binding)
    requires Approvals.IsLocked(db, b) && b.policyId in db.policies
    ensures Approvals.LockOver(db, b) == if InStep(db, b.policyId) then Ok(db) else Err(RevalidationNeeded)
  {
    hide EnsureAll;
    NothingToCreate(db, Approvals.OwnerOf(db, b.operationId), db.operations[b.operationId].agentId, b.policyId);
  }

  lemma RevokedIsOver(db: Db, q: Approvals.AutonomousRequest, now: Time)
    requires Inv(db) && q.authorizationId in db.authorizations
    requires db.authorizations[q.authorizationId].bound.policyId in db.policies
    requires !InStep(db, db.authorizations[q.authorizationId].bound.policyId)
    ensures !StillAutomated(db, q, now)
  {}

  lemma AgainLocked(db: Db, q: Approvals.AutonomousRequest, now: Time)
    requires Inv(db) && q.authorizationId in db.authorizations
    requires Approvals.IsLocked(db, db.authorizations[q.authorizationId].bound)
    ensures var tx := Approvals.AuthorizeLocked(db, q, db.authorizations[q.authorizationId].bound, now);
      && (tx.Commit? <==> StillAutomated(db, q, now))
      && (tx.Commit? ==> tx == Commit(db, db.authorizations[q.authorizationId]))
  {
    hide Inv, Approvals.Agrees;
    AuthorityOf(db, q.authorizationId);
    RebindsItself(db, q.authorizationId);
  }

  // ----- replace the envelope --------------------------------------------------------------

  /** A new revision right after the operation's latest. */
  predicate NextRevision(db: Db, o: Id, e: EnvelopePayload) {
    && e.envelopeId !in db.envelopes
    && e.supersedes.Some? && e.supersedes.value in db.envelopes
    && var latest := db.envelopes[e.supersedes.value];
    && latest.operationId == o
    && NewestRevision(db, o, latest.revision)
    && e.revision == latest.revision + 1
  }

  /** The approval behind the operation: the only active one, or the one that was consumed. */
  predicate Replaceable(db: Db, o: Id, k: Id) {
    && k in db.approvals
    && var a := db.approvals[k];
    && InStep(db, a.bound.policyId)
    && a.bound.operationId == o
    && NewestRevision(db, o, a.bound.envelopeRevision)
    && o in db.operations
    && a.bound.reservationId in db.reservations
    && var others := set j | j in db.approvals && j != k && db.approvals[j].bound.operationId == o
      && Approvals.IsActive(db.approvals[j]);
    && others == {}
    && match db.operations[o].state
       case AwaitingApproval =>
         && a.status in {Pending, Approved}
         && db.reservations[a.bound.reservationId].status == Held
         && (forall z | z in db.authorizations :: db.authorizations[z].bound.operationId != o)
       case Authorized => a.status == Consumed && db.reservations[a.bound.reservationId].status == Authorized
       case _ => false
  }

  /** The operation has to be validated again, its money is back, an active approval is revoked, the envelope is new. */
  predicate ReplacedAs(db: Db, next: Db, o: Id, e: EnvelopePayload, k: Id, actor: Id) {
    && k in db.approvals
    && var a := db.approvals[k];
    && var status := if a.status == Consumed then Consumed else ApprovalRevoked;
    && var decider := if a.approverId.Some? then a.approverId else Some(actor);
    && e.envelopeId in next.envelopes
    && next.envelopes == db.envelopes[e.envelopeId := Envelope(o, e.revision, EnvelopeDigest(e), e)]
    && ClosedAs(db, next.(envelopes := db.envelopes), k, L.RevalidationRequired, Released, status, decider)
  }

  lemma RestsIff(db: Db, o: Id, k: Id)
    requires Inv(db) && k in db.approvals && db.approvals[k].bound.operationId == o
    ensures Approvals.RestsOn(db, o, k) <==> db.approvals[k].status == Consumed
  {
    hide Inv, Recorded, Sealed;
    ApprovalOf(db, k);
    if Approvals.RestsOn(db, o, k) {
      var z :| z in db.authorizations && db.authorizations[z].source == OwnerApproval(k);
      AuthorityOf(db, z);
    }
    if db.approvals[k].status == Consumed {
      var z := AuthorizationOf(k);
      AuthorityOf(db, z);
      forall y | y in db.authorizations && db.authorizations[y].bound.operationId == o ensures y == z {
        AuthorityOf(db, y);
        SameReservations(db, y, z);
      }
      assert Approvals.OnlyAuthorized(db, o, z);
    }
  }

  lemma SameReservations(db: Db, y: Id, z: Id)
    requires Inv(db) && y in db.authorizations && z in db.authorizations
    requires AuthorizationHolds(db, y) && AuthorizationHolds(db, z)
    requires db.authorizations[y].bound.operationId == db.authorizations[z].bound.operationId
    ensures y == z
  {
    hide Conserved, SignedOnce, BroadcastsHold, LeasesSpent, Executed, Drawn, ApprovalHolds, Sealed, Grounds;
  }

  lemma FollowsIff(db: Db, o: Id, e: EnvelopePayload)
    ensures Approvals.Follows(db, o, e) && e.envelopeId !in db.envelopes <==> NextRevision(db, o, e)
  {
    if e.supersedes.Some? && e.supersedes.value in db.envelopes {
      Refinement.NotSuperseded(db, o, db.envelopes[e.supersedes.value].revision);
    }
  }

  lemma OthersIff(db: Db, o: Id, k: Id)
    requires k in db.approvals && db.approvals[k].bound.operationId == o
    ensures var others := set j | j in db.approvals && j != k && db.approvals[j].bound.operationId == o
      && Approvals.IsActive(db.approvals[j]);
      && (Approvals.OnlyActive(db, o, k) <==> Approvals.IsActive(db.approvals[k]) && others == {})
      && (Approvals.NoneActive(db, o) <==> !Approvals.IsActive(db.approvals[k]) && others == {})
  {
    var others := set j | j in db.approvals && j != k && db.approvals[j].bound.operationId == o
      && Approvals.IsActive(db.approvals[j]);
    forall j | j in db.approvals && j != k && db.approvals[j].bound.operationId == o
      && Approvals.IsActive(db.approvals[j]) ensures others != {} {
      assert j in others;
    }
  }

  lemma ReplaceOutcome(db: Db, o: Id, e: EnvelopePayload, k: Id, actor: Id)
    requires Inv(db)
    ensures var tx := Approvals.Replace(db, o, e, k, actor);
      && (tx.Commit? <==> NextRevision(db, o, e) && Replaceable(db, o, k))
      && (tx.Commit? ==>
            ReplacedAs(db, tx.db, o, e, k, actor) && tx.value == tx.db.envelopes[e.envelopeId])
  {
    hide Inv, Approvals.Load, Approvals.ReplaceLoaded, Approvals.Agrees, InStep, NextRevision, ReplacedAs,
        NewestRevision;
    LoadsAsIs(db, k);
    if k in db.approvals {
      ReplaceLoadedOutcome(db, o, e, k, actor);
    }
  }

  lemma ReplaceLoadedOutcome(db: Db, o: Id, e: EnvelopePayload, k: Id, actor: Id)
    requires Inv(db) && k in db.approvals && Approvals.IsLoaded(db, k)
    requires Approvals.Agrees(db, db.approvals[k].bound, RequireApproval)
    ensures var tx := Approvals.ReplaceLoaded(db, o, e, k, actor);
      && (tx.Commit? && InStep(db, db.approvals[k].bound.policyId) <==> NextRevision(db, o, e) && Replaceable(db, o, k))
      && (tx.Commit? ==>
            ReplacedAs(db, tx.db, o, e, k, actor) && tx.value == tx.db.envelopes[e.envelopeId])
  {
    hide Inv, Approvals.Agrees, InStep, NextRevision, NewestRevision, Ledger.Superseded, Approvals.Follows,
        Approvals.OnlyActive, Approvals.NoneActive, Approvals.RestsOn, ReplacedAs, Approvals.Invalidate, Withdraw,
        Recorded, Sealed;
    var a := db.approvals[k];
    FollowsIff(db, o, e);
    if a.bound.operationId == o {
      Refinement.NotSuperseded(db, o, a.bound.envelopeRevision);
      OthersIff(db, o, k);
      RestsIff(db, o, k);
      ApprovalOf(db, k);
      if Approvals.IsActive(a) {
        ReplacedActive(db, o, e, k, actor);
      } else if a.status == Consumed {
        ReplacedConsumed(db, o, e, k, actor);
      }
    }
  }

  lemma ReplacedActive(db: Db, o: Id, e: EnvelopePayload, k: Id, actor: Id)
    requires k in db.approvals && Approvals.Bound(db, db.approvals[k].bound) && Approvals.IsActive(db.approvals[k])
    ensures ReplacedAs(db, Approvals.Invalidate(db, k, actor).(envelopes :=
      db.envelopes[e.envelopeId := Approvals.NewEnvelope(o, e)]), o, e, k, actor)
  {
    hide Approvals.Close, ClosedAs;
    var next := Approvals.Invalidate(db, k, actor).(envelopes :=
      db.envelopes[e.envelopeId := Approvals.NewEnvelope(o, e)]);
    var decider := Approvals.Coalesce(db.approvals[k].approverId, actor);
    CloseIs(db, k, L.RevalidationRequired, Released, ApprovalRevoked, decider);
    CloseKeeps(db, k, decider);
    assert next.(envelopes := db.envelopes) == Approvals.Invalidate(db, k, actor);
  }

  lemma CloseKeeps(db: Db, k: Id, decider: Option<Id>)
    requires k in db.approvals && Approvals.Bound(db, db.approvals[k].bound)
    ensures Approvals.Close(db, k, L.RevalidationRequired, Released, ApprovalRevoked, decider).envelopes == db.envelopes
  {}

  lemma ReplacedConsumed(db: Db, o: Id, e: EnvelopePayload, k: Id, actor: Id)
    requires k in db.approvals && Approvals.Bound(db, db.approvals[k].bound) && db.approvals[k].bound.operationId == o
    requires db.approvals[k].status == Consumed && db.approvals[k].approverId.Some?
    ensures ReplacedAs(db, Withdraw(db, o, L.RevalidationRequired, db.approvals[k].bound.reservationId,
      Released).(envelopes := db.envelopes[e.envelopeId := Approvals.NewEnvelope(o, e)]), o, e, k, actor)
  {
    assert db.approvals == db.approvals[k := db.approvals[k]];
  }
}
