/** Every transaction is a sequence of legal moves. */
module Refinement {
  import opened Texts
  import opened Schema
  import opened Fencing
  import opened Moves
  import opened Protocol
  import Ledger
  import Approvals
  import Control
  import Execution
  import Decimal
  import L = Lifecycle

  // ----- the shared writes -----------------------------------------------------------------

  lemma SetStateMoves(db: Db, next: Db, o: Id, to: L.State, kind: Kind)
    requires Reaches(db, next, kind)
    requires o in next.operations && L.IsEdge(next.operations[o].state, to) && to != L.Authorized
    ensures Reaches(db, SetState(next, o, to), kind)
  {
    hide Reaches;
    Extend(db, next, Step(o, to), kind);
    assert Perform(next, Step(o, to)) == SetState(next, o, to);
  }

  lemma GiveBackMoves(db: Db, next: Db, k: Id, status: ReservationStatus, kind: Kind)
    requires Reaches(db, next, kind)
    requires Funded(next, k) && next.reservations[k].status in {Held, Authorized}
    requires status == Released || (status == Expired && kind in {Expiring, Approving, Consuming})
    ensures Reaches(db, GiveBack(next, k, status), kind)
  {
    hide Reaches;
    var given := GiveBack(next, k, status);
    var m := Pay(k, given.reservations[k], given.budgets[next.reservations[k].budgetId], Returned);
    Extend(db, next, m, kind);
    assert Perform(next, m) == given;
  }

  lemma DisputeMoves(db: Db, next: Db, k: Id, kind: Kind)
    requires Reaches(db, next, kind) && kind in {Disputing, Resolving}
    requires Funded(next, k) && next.reservations[k].status != Disputed
    ensures Reaches(db, Mark(next, k, Disputed), kind)
  {
    hide Reaches;
    var budgetId := next.reservations[k].budgetId;
    var m := Pay(k, next.reservations[k].(status := Disputed), next.budgets[budgetId], Contested);
    Extend(db, next, m, kind);
    assert next.budgets[budgetId := next.budgets[budgetId]] == next.budgets;
    assert Perform(next, m) == Mark(next, k, Disputed);
  }

  lemma SettleMoves(db: Db, next: Db, k: Id, spend: nat, proof: Text, kind: Kind)
    requires Reaches(db, next, kind) && kind in {Finalizing, Resolving}
    requires Funded(next, k) && next.reservations[k].status == Broadcast
    requires spend <= next.reservations[k].amount && Proved(next, k, Some(proof))
    ensures Reaches(db, Settle(next, k, spend, proof), kind)
  {
    hide Reaches;
    var settled := Settle(next, k, spend, proof);
    var m := Pay(k, settled.reservations[k], settled.budgets[next.reservations[k].budgetId], Spent);
    Extend(db, next, m, kind);
    assert Perform(next, m) == settled;
  }

  lemma VerifyMoves(db: Db, next: Db, k: Id, kind: Kind)
    requires Reaches(db, next, kind) && kind in {Proving, Resolving} && k in next.broadcasts
    ensures Reaches(db, Ledger.Verify(next, k), kind)
  {
    hide Reaches;
    var m := Prove(k, next.broadcasts[k].(verified := true));
    Extend(db, next, m, kind);
    assert Perform(next, m) == Ledger.Verify(next, k);
  }

  // ----- the ledger ------------------------------------------------------------------------

  lemma ReserveRefines(db: Db, q: Ledger.ReserveRequest)
    ensures Reaches(db, After(db, Ledger.Reserve(db, q)), Drawing)
  {
    hide Reaches, Decimal.IsPositiveAtomic, Decimal.Value, Ledger.PayloadHash;
    Stay(db, Drawing);
    var tx := Ledger.Reserve(db, q);
    if tx.Commit? && q.idempotencyKey !in db.idempotency {
      Decimal.AtomicIsUint256(q.amountAtomic);
      ReserveAmountRefines(db, q, Decimal.Value(q.amountAtomic), Ledger.PayloadHash(q).value);
    }
  }

  lemma DrawAllowed(db: Db, q: Ledger.ReserveRequest)
    requires Ledger.Identified(db, q.operationId) && Ledger.ReservationAllowed(db, q.operationId)
    requires q.budgetId in db.budgets && Ledger.Joined(db, db.operations[q.operationId])
    requires Ledger.Consistent(db, db.operations[q.operationId], db.budgets[q.budgetId])
    ensures Accounted(db, q.operationId, q.budgetId) && Open(db, q.operationId)
    ensures q.operationId in db.operations && db.operations[q.operationId].policyId in db.policies
    ensures db.policies[db.operations[q.operationId].policyId].status != RevokedPolicy
  {}

  lemma ReserveAmountRefines(db: Db, q: Ledger.ReserveRequest, amount: nat, hash: Hash)
    requires amount > 0
    ensures Reaches(db, After(db, Ledger.ReserveAmount(db, q, amount, hash)), Drawing)
  {
    hide Reaches, Accounted, Open, Ledger.Identified, Ledger.ReservationAllowed, Ledger.Joined, Ledger.Consistent;
    Stay(db, Drawing);
    var tx := Ledger.ReserveAmount(db, q, amount, hash);
    if tx.Commit? && q.idempotencyKey !in db.idempotency {
      DrawAllowed(db, q);
      var m := Draw(q.reservationId, tx.value, tx.db.budgets[q.budgetId], IdempotencyRecord(hash, q.reservationId));
      Extend(db, db, m, Drawing);
      assert Perform(db, m) == tx.db;
    }
  }

  lemma MarkBroadcastRefines(db: Db, k: Id, receipt: Receipt, caller: Caller)
    ensures Reaches(db, After(db, Ledger.MarkBroadcast(db, k, receipt, caller)), Publishing)
  {
    hide Reaches, Ledger.CanonicallyAuthorized;
    Stay(db, Publishing);
    var tx := Ledger.MarkBroadcast(db, k, receipt, caller);
    if tx.Commit? && db.reservations[k].status != Broadcast {
      var m := Publish(k, tx.value, BroadcastEvidence(receipt, false));
      Extend(db, db, m, Publishing);
      assert Perform(db, m) == tx.db;
    }
  }

  lemma VerifyBroadcastRefines(db: Db, k: Id, caller: Caller)
    ensures Reaches(db, After(db, Ledger.VerifyBroadcast(db, k, caller)), Proving)
  {
    hide Reaches;
    Stay(db, Proving);
    if Ledger.VerifyBroadcast(db, k, caller).Commit? {
      VerifyMoves(db, db, k, Proving);
    }
  }

  lemma ReleaseRefines(db: Db, k: Id)
    ensures Reaches(db, After(db, Ledger.Release(db, k)), Plain)
  {
    hide Reaches;
    Stay(db, Plain);
    if Ledger.Release(db, k).Commit? && db.reservations[k].status != Released {
      GiveBackMoves(db, db, k, Released, Plain);
    }
  }

  lemma ExpireRefines(db: Db, k: Id, now: Time)
    ensures Reaches(db, After(db, Ledger.Expire(db, k, now)), Expiring)
  {
    hide Reaches;
    Stay(db, Expiring);
    if Ledger.Expire(db, k, now).Commit? && db.reservations[k].status != Expired {
      GiveBackMoves(db, db, k, Expired, Expiring);
    }
  }

  lemma FinalizeRefines(db: Db, k: Id, spend: nat, proof: Text)
    ensures Reaches(db, After(db, Ledger.Finalize(db, k, spend, proof)), Finalizing)
  {
    hide Reaches;
    Stay(db, Finalizing);
    if Ledger.Finalize(db, k, spend, proof).Commit? && db.reservations[k].status != Finalized {
      SettleMoves(db, db, k, spend, proof, Finalizing);
    }
  }

  lemma DisputeRefines(db: Db, k: Id)
    ensures Reaches(db, After(db, Ledger.Dispute(db, k)), Disputing)
  {
    hide Reaches;
    Stay(db, Disputing);
    if Ledger.Dispute(db, k).Commit? && db.reservations[k].status != Disputed {
      DisputeMoves(db, db, k, Disputing);
    }
  }

  lemma ClaimLeaseRefines(db: Db, o: Id, k: Id, seconds: int, caller: Caller, now: Time)
    ensures Reaches(db, After(db, Ledger.ClaimLease(db, o, k, seconds, caller, now)), Claiming)
  {
    hide Reaches;
    Stay(db, Claiming);
    var tx := Ledger.ClaimLease(db, o, k, seconds, caller, now);
    if tx.Commit? {
      Extend(db, db, Claim(o, tx.value, now), Claiming);
      assert Perform(db, Claim(o, tx.value, now)) == tx.db;
    }
  }

  /** The money a resolution moves, once its attempt is on record. */
  lemma OutcomeMoves(db: Db, next: Db, q: Resolution)
    requires Reaches(db, next, Resolving) && Funded(next, q.reservationId)
    requires q.attemptId in next.recoveries
    requires var row := next.recoveries[q.attemptId];
      (row.reservationId, row.outcome, row.actualSpend, row.proofReference) ==
        (q.reservationId, q.outcome, q.actualSpend, q.proofReference)
    ensures var applied := Ledger.ApplyOutcome(next, q); applied.Ok? ==> Reaches(db, applied.value, Resolving)
  {
    hide Reaches;
    var k := q.reservationId;
    var r := next.reservations[k];
    if Ledger.ApplyOutcome(next, q).Ok? {
      match q.outcome
      case ConfirmedOutcome =>
        VerifyMoves(db, next, k, Resolving);
        SettleMoves(db, Ledger.Verify(next, k), k, q.actualSpend.value, q.proofReference.value, Resolving);
      case FailedOutcome =>
        if r.status in {Held, Authorized} {
          GiveBackMoves(db, next, k, Released, Resolving);
        } else if q.verifiedRevert && r.status == Broadcast {
          RevertMoves(db, next, k, q.attemptId);
        } else if r.status == Broadcast {
          DisputeMoves(db, next, k, Resolving);
        }
      case _ =>
        if r.status != Disputed {
          DisputeMoves(db, next, k, Resolving);
        }
    }
  }

  lemma RevertMoves(db: Db, next: Db, k: Id, attemptId: Id)
    requires Reaches(db, next, Resolving) && Funded(next, k)
    requires next.reservations[k].status == Broadcast && RevertRecorded(next, k, attemptId)
    ensures Reaches(db, GiveBack(next, k, Released), Resolving)
  {
    hide Reaches;
    var given := GiveBack(next, k, Released);
    var m := Pay(k, given.reservations[k], given.budgets[next.reservations[k].budgetId], Reverted(attemptId));
    Extend(db, next, m, Resolving);
    assert Perform(next, m) == given;
  }

  lemma ResolveRefines(db: Db, q: Resolution, caller: Caller, now: Time)
    ensures Reaches(db, After(db, Ledger.Resolve(db, q, caller, now)), Resolving)
  {
    hide Reaches, Ledger.ApplyOutcome;
    Stay(db, Resolving);
    var tx := Ledger.Resolve(db, q, caller, now);
    if tx.Commit? && q.attemptId !in db.recoveries {
      var row := Ledger.AttemptRow(q, caller, ResolutionDigest(caller, q, Ledger.StoredReceipt(db, q.reservationId)));
      var m := Record(q.attemptId, row, db.leases[q.operationId].(active := false), now);
      Extend(db, db, m, Resolving);
      assert Perform(db, m) == Ledger.Recorded(db, q.attemptId, row);
      OutcomeMoves(db, Perform(db, m), q);
    }
  }

  function KindOfLedger(c: LedgerCommand): Kind {
    match c
    case Reserve(_) => Drawing
    case MarkBroadcast(_, _, _) => Publishing
    case VerifyBroadcast(_, _) => Proving
    case Release(_) => Plain
    case Expire(_, _) => Expiring
    case Finalize(_, _, _) => Finalizing
    case Dispute(_) => Disputing
    case ClaimLease(_, _, _, _, _) => Claiming
    case Resolve(_, _, _) => Resolving
  }

  lemma LedgerRefines(db: Db, c: LedgerCommand)
    ensures Reaches(db, ApplyLedger(db, c), KindOfLedger(c))
  {
    hide Reaches, Ledger.Reserve, Ledger.MarkBroadcast, Ledger.VerifyBroadcast, Ledger.Release, Ledger.Expire,
         Ledger.Finalize, Ledger.Dispute, Ledger.ClaimLease, Ledger.Resolve;
    match c
    case Reserve(q) => ReserveRefines(db, q);
    case MarkBroadcast(k, receipt, caller) => MarkBroadcastRefines(db, k, receipt, caller);
    case VerifyBroadcast(k, caller) => VerifyBroadcastRefines(db, k, caller);
    case Release(k) => ReleaseRefines(db, k);
    case Expire(k, now) => ExpireRefines(db, k, now);
    case Finalize(k, spend, proof) => FinalizeRefines(db, k, spend, proof);
    case Dispute(k) => DisputeRefines(db, k);
    case ClaimLease(o, k, seconds, caller, now) => ClaimLeaseRefines(db, o, k, seconds, caller, now);
    case Resolve(q, caller, now) => ResolveRefines(db, q, caller, now);
  }

  // ----- approvals -------------------------------------------------------------------------

  /** Creating the missing fences over an operation. */
  lemma LockMoves(db: Db, owner: Id, agent: Id, policy: Id)
    ensures Reaches(db, EnsureAll(db, owner, agent, policy), Plain)
  {
    hide Reaches, IsFirst, EnsureFour;
    Stay(db, Plain);
    var m := AddFences(EnsureFour(db.fences, db.policies, owner, agent, policy));
    Extend(db, db, m, Plain);
    assert Perform(db, m) == EnsureAll(db, owner, agent, policy);
  }

  lemma LoadMoves(db: Db, a: Id)
    ensures var loaded := Approvals.Load(db, a); loaded.Ok? ==> Reaches(db, loaded.value, Plain)
  {
    hide Reaches;
    if Approvals.Load(db, a).Ok? {
      var b := db.approvals[a].bound;
      LockMoves(db, Approvals.OwnerOf(db, b.operationId), db.operations[b.operationId].agentId, b.policyId);
    }
  }

  lemma SetApprovalMoves(db: Db, next: Db, k: Id, status: ApprovalStatus, approver: Option<Id>, kind: Kind)
    requires Reaches(db, next, kind) && k in next.approvals
    requires var a := next.approvals[k].(status := status, approverId := approver);
      LegalDecision(next.approvals[k], a) && May(kind, SetApproval(k, a))
    ensures Reaches(db, next.(approvals :=
      next.approvals[k := next.approvals[k].(status := status, approverId := approver)]), kind)
  {
    hide Reaches;
    var m := SetApproval(k, next.approvals[k].(status := status, approverId := approver));
    Extend(db, next, m, kind);
    assert Perform(next, m) == next.(approvals := next.approvals[k := m.approval]);
  }

  /** The operation leaves and the money returns. */
  lemma WithdrawMoves(db: Db, next: Db, o: Id, to: L.State, k: Id, status: ReservationStatus, kind: Kind)
    requires Reaches(db, next, kind) && Funded(next, k) && o in next.operations
    requires L.IsEdge(next.operations[o].state, to) && to != L.Authorized
    requires next.reservations[k].status in {Held, Authorized}
    requires status == Released || (status == Expired && kind in {Expiring, Approving, Consuming})
    ensures Reaches(db, Withdraw(next, o, to, k, status), kind)
  {
    hide Reaches;
    SetStateMoves(db, next, o, to, kind);
    GiveBackMoves(db, SetState(next, o, to), k, status, kind);
  }

  lemma PutEnvelopeMoves(db: Db, next: Db, k: Id, e: Envelope)
    requires Reaches(db, next, Plain) && Legal(next, PutEnvelope(k, e))
    ensures Reaches(db, next.(envelopes := next.envelopes[k := e]), Plain)
  {
    hide Reaches;
    Extend(db, next, PutEnvelope(k, e), Plain);
    assert Perform(next, PutEnvelope(k, e)) == next.(envelopes := next.envelopes[k := e]);
  }

  lemma CloseMoves(db: Db, next: Db, k: Id, to: L.State, money: ReservationStatus, status: ApprovalStatus,
      approver: Option<Id>, kind: Kind)
    requires Reaches(db, next, kind)
    requires k in next.approvals && Approvals.Bound(next, next.approvals[k].bound)
    requires Approvals.Awaiting(next, next.approvals[k].bound)
    requires to in {L.RevalidationRequired, L.Expired, L.Rejected, L.Revoked}
    requires money == Released || (money == Expired && kind in {Expiring, Approving, Consuming})
    requires var a := next.approvals[k].(status := status, approverId := approver);
      LegalDecision(next.approvals[k], a) && May(kind, SetApproval(k, a))
    ensures Reaches(db, Approvals.Close(next, k, to, money, status, approver), kind)
  {
    hide Reaches;
    var b := next.approvals[k].bound;
    WithdrawMoves(db, next, b.operationId, to, b.reservationId, money, kind);
    SetApprovalMoves(db, Withdraw(next, b.operationId, to, b.reservationId, money), k, status, approver, kind);
  }

  lemma LockOverMoves(db: Db, b: Binding)
    requires Approvals.Bound(db, b)
    ensures var locked := Approvals.LockOver(db, b); locked.Ok? ==> Reaches(db, locked.value, Plain)
  {
    hide Reaches;
    LockMoves(db, Approvals.OwnerOf(db, b.operationId), db.operations[b.operationId].agentId, b.policyId);
  }

  lemma CreateRefines(db: Db, q: Approvals.CreateRequest)
    ensures Reaches(db, After(db, Approvals.Create(db, q)), Requesting)
  {
    hide Reaches, Approvals.LockOver, Approvals.CreateLocked, Approvals.Agrees, Ledger.Superseded;
    Stay(db, Requesting);
    var bound := Approvals.AuthoritativeBinding(db, q.operationId, q.reservationId, q.envelopeId, q.decisionId);
    if bound.Ok? {
      LockOverMoves(db, bound.value);
      var locked := Approvals.LockOver(db, bound.value);
      if locked.Ok? && q.issuedAt < q.expiresAt {
        Weaken(db, locked.value, Requesting);
        CreateLockedMoves(db, locked.value, q, bound.value);
      }
    }
  }

  /** What the binding of a request and the agreement of its rows amount to. */
  lemma BindingIsSealed(db: Db, b: Binding, verdict: Verdict)
    requires Approvals.IsLocked(db, b) && Approvals.Agrees(db, b, verdict)
    ensures Sealed(db, b, verdict) && Reserved(db, b.operationId, b.reservationId)
    ensures AreCurrent(db, b, Approvals.CurrentFences(db, b))
  {}

  lemma NotSuperseded(db: Db, o: Id, revision: nat)
    ensures !Ledger.Superseded(db, o, revision) <==> NewestRevision(db, o, revision)
  {}

  lemma CreateLockedMoves(db: Db, next: Db, q: Approvals.CreateRequest, b: Binding)
    requires Reaches(db, next, Requesting) && Approvals.IsLocked(next, b) && OwnPolicy(next, b)
    requires q.issuedAt < q.expiresAt
    ensures var tx := Approvals.CreateLocked(next, q, b); tx.Commit? ==> Reaches(db, tx.db, Requesting)
  {
    hide Reaches, Approvals.Agrees, Ledger.Superseded, NewestRevision, Sealed;
    var tx := Approvals.CreateLocked(next, q, b);
    if tx.Commit? {
      BindingIsSealed(next, b, RequireApproval);
      NotSuperseded(next, b.operationId, b.envelopeRevision);
      AddApprovalMoves(db, next, q.approvalId, tx.value);
    }
  }

  /** All that makes a new approval legal, apart from the state of its operation. */
  predicate Approvable(db: Db, k: Id, a: Approval) {
    && k !in db.approvals
    && LegalBinding(db, a.bound, a.fences, RequireApproval)
    && OwnPolicy(db, a.bound)
    && a.status == Pending && a.approverId == None
    && var e := db.envelopes[a.bound.envelopeId].payload;
    e.createdAt <= a.issuedAt < a.expiresAt <= e.expiresAt
  }

  lemma AddApprovalMoves(db: Db, next: Db, k: Id, a: Approval)
    requires Reaches(db, next, Requesting) && Approvable(next, k, a) && a.bound.operationId in next.operations
    requires next.operations[a.bound.operationId].state in {L.EnvelopeFinalized, L.AwaitingApproval}
    ensures
      var o := a.bound.operationId;
      var moved := if next.operations[o].state == L.EnvelopeFinalized then SetState(next, o, L.AwaitingApproval)
        else next;
      Reaches(db, moved.(approvals := next.approvals[k := a]), Requesting)
  {
    hide Reaches, LegalApproval, Approvable;
    var o := a.bound.operationId;
    var moved := if next.operations[o].state == L.EnvelopeFinalized then SetState(next, o, L.AwaitingApproval)
      else next;
    if next.operations[o].state == L.EnvelopeFinalized {
      SetStateMoves(db, next, o, L.AwaitingApproval, Requesting);
    }
    StateAside(next, moved, k, a);
    InsertApprovalMoves(db, moved, k, a);
  }

  lemma StateAside(next: Db, moved: Db, k: Id, a: Approval)
    requires Approvable(next, k, a) && a.bound.operationId in next.operations
    requires
      || (moved == next && next.operations[a.bound.operationId].state == L.AwaitingApproval)
      || moved == SetState(next, a.bound.operationId, L.AwaitingApproval)
    ensures LegalApproval(moved, k, a) && moved.approvals == next.approvals
  {}

  lemma InsertApprovalMoves(db: Db, next: Db, k: Id, a: Approval)
    requires Reaches(db, next, Requesting) && LegalApproval(next, k, a)
    ensures Reaches(db, next.(approvals := next.approvals[k := a]), Requesting)
  {
    hide Reaches, LegalApproval;
    Extend(db, next, AddApproval(k, a), Requesting);
    assert Perform(next, AddApproval(k, a)) == next.(approvals := next.approvals[k := a]);
  }

  lemma LapseMoves(db: Db, next: Db, k: Id, actor: Id, now: Time, kind: Kind)
    requires Reaches(db, next, kind) && kind in {Approving, Consuming}
    requires Approvals.IsLoaded(next, k) && Approvals.IsActive(next.approvals[k])
    ensures var standing := Approvals.StandingOf(next, k, actor, now);
      standing.Lapsed? ==> Reaches(db, standing.db, kind)
  {
    hide Reaches, Approvals.Close, Approvals.FencesHold, Ledger.Superseded;
    var a := next.approvals[k];
    if Approvals.Awaiting(next, a.bound) {
      CloseMoves(db, next, k, L.RevalidationRequired, Released, ApprovalRevoked,
        Approvals.Coalesce(a.approverId, actor), kind);
      CloseMoves(db, next, k, L.Expired, Expired, ApprovalExpired, a.approverId, kind);
    }
  }

  lemma ApproveRefines(db: Db, k: Id, approver: Id, actor: Id, now: Time)
    ensures Reaches(db, After(db, Approvals.Approve(db, k, approver, actor, now)), Approving)
  {
    hide Reaches, Approvals.Load, Approvals.ApproveLoaded;
    Stay(db, Approving);
    LoadMoves(db, k);
    var loaded := Approvals.Load(db, k);
    if loaded.Ok? {
      Weaken(db, loaded.value, Approving);
      ApproveLoadedMoves(db, loaded.value, k, approver, actor, now);
    }
  }

  lemma ApproveLoadedMoves(db: Db, next: Db, k: Id, approver: Id, actor: Id, now: Time)
    requires Reaches(db, next, Approving) && Approvals.IsLoaded(next, k)
    ensures var tx := Approvals.ApproveLoaded(next, k, approver, actor, now);
      tx.Commit? ==> Reaches(db, tx.db, Approving)
  {
    hide Reaches, Approvals.Agrees, Approvals.StandingOf;
    if next.approvals[k].status == Pending {
      SetApprovalMoves(db, next, k, Approved, Some(approver), Approving);
      LapseMoves(db, next, k, actor, now, Approving);
    }
  }

  lemma RejectRefines(db: Db, k: Id, approver: Id)
    ensures Reaches(db, After(db, Approvals.Reject(db, k, approver)), Rejecting)
  {
    hide Reaches, Approvals.Load, Approvals.RejectLoaded;
    Stay(db, Rejecting);
    LoadMoves(db, k);
    var loaded := Approvals.Load(db, k);
    if loaded.Ok? {
      Weaken(db, loaded.value, Rejecting);
      RejectLoadedMoves(db, loaded.value, k, approver);
    }
  }

  lemma RejectLoadedMoves(db: Db, next: Db, k: Id, approver: Id)
    requires Reaches(db, next, Rejecting) && Approvals.IsLoaded(next, k)
    ensures var tx := Approvals.RejectLoaded(next, k, approver); tx.Commit? ==> Reaches(db, tx.db, Rejecting)
  {
    hide Reaches, Approvals.Agrees, Ledger.Superseded, Approvals.Close;
    if Approvals.RejectLoaded(next, k, approver).Commit? {
      CloseMoves(db, next, k, L.Rejected, Released, Rejected, Some(approver), Rejecting);
    }
  }

  lemma RevokeRefines(db: Db, k: Id, actor: Id)
    ensures Reaches(db, After(db, Approvals.Revoke(db, k, actor)), Plain)
  {
    hide Reaches, Approvals.Load, Approvals.RevokeLoaded;
    Stay(db, Plain);
    LoadMoves(db, k);
    var loaded := Approvals.Load(db, k);
    if loaded.Ok? {
      RevokeLoadedMoves(db, loaded.value, k, actor);
    }
  }

  lemma RevokeLoadedMoves(db: Db, next: Db, k: Id, actor: Id)
    requires Reaches(db, next, Plain) && Approvals.IsLoaded(next, k)
    ensures var tx := Approvals.RevokeLoaded(next, k, actor); tx.Commit? ==> Reaches(db, tx.db, Plain)
  {
    hide Reaches, Approvals.Agrees, Approvals.Close;
    var a := next.approvals[k];
    if Approvals.RevokeLoaded(next, k, actor).Commit? && a.status != ApprovalRevoked {
      CloseMoves(db, next, k, L.Revoked, Released, ApprovalRevoked, Approvals.Coalesce(a.approverId, actor), Plain);
    }
  }

  lemma ReplaceRefines(db: Db, o: Id, e: EnvelopePayload, k: Id, actor: Id)
    ensures Reaches(db, After(db, Approvals.Replace(db, o, e, k, actor)), Plain)
  {
    hide Reaches, Approvals.Load, Approvals.ReplaceLoaded;
    Stay(db, Plain);
    LoadMoves(db, k);
    var loaded := Approvals.Load(db, k);
    if loaded.Ok? {
      ReplaceLoadedMoves(db, loaded.value, o, e, k, actor);
    }
  }

  lemma ReplaceLoadedMoves(db: Db, next: Db, o: Id, e: EnvelopePayload, k: Id, actor: Id)
    requires Reaches(db, next, Plain) && Approvals.IsLoaded(next, k)
    ensures var tx := Approvals.ReplaceLoaded(next, o, e, k, actor); tx.Commit? ==> Reaches(db, tx.db, Plain)
  {
    hide Reaches, Approvals.Agrees, Ledger.Superseded, Approvals.Follows, Approvals.ReplaceAwaiting,
        Approvals.ReplaceAuthorized;
    var tx := Approvals.ReplaceLoaded(next, o, e, k, actor);
    if tx.Commit? {
      if next.operations[o].state == L.AwaitingApproval {
        ReplaceAwaitingMoves(db, next, o, e, k, actor);
      } else {
        ReplaceAuthorizedMoves(db, next, o, e, k);
      }
    }
  }

  lemma ReplaceAwaitingMoves(db: Db, next: Db, o: Id, e: EnvelopePayload, k: Id, actor: Id)
    requires Reaches(db, next, Plain) && Approvals.IsLoaded(next, k) && next.approvals[k].bound.operationId == o
    requires next.operations[o].state == L.AwaitingApproval && e.envelopeId !in next.envelopes
    ensures var tx := Approvals.ReplaceAwaiting(next, o, e, k, actor); tx.Commit? ==> Reaches(db, tx.db, Plain)
  {
    hide Reaches, Approvals.NoneAuthorized;
    if Approvals.ReplaceAwaiting(next, o, e, k, actor).Commit? {
      CloseMoves(db, next, k, L.RevalidationRequired, Released, ApprovalRevoked,
        Approvals.Coalesce(next.approvals[k].approverId, actor), Plain);
      PutEnvelopeMoves(db, Approvals.Invalidate(next, k, actor), e.envelopeId, Approvals.NewEnvelope(o, e));
    }
  }

  lemma ReplaceAuthorizedMoves(db: Db, next: Db, o: Id, e: EnvelopePayload, k: Id)
    requires Reaches(db, next, Plain) && Approvals.IsLoaded(next, k) && next.approvals[k].bound.operationId == o
    requires next.operations[o].state == L.Authorized && e.envelopeId !in next.envelopes
    ensures var tx := Approvals.ReplaceAuthorized(next, o, e, k); tx.Commit? ==> Reaches(db, tx.db, Plain)
  {
    hide Reaches, Approvals.RestsOn, Approvals.NoneActive;
    if Approvals.ReplaceAuthorized(next, o, e, k).Commit? {
      var r := next.approvals[k].bound.reservationId;
      WithdrawMoves(db, next, o, L.RevalidationRequired, r, Released, Plain);
      PutEnvelopeMoves(db, Withdraw(next, o, L.RevalidationRequired, r, Released), e.envelopeId,
        Approvals.NewEnvelope(o, e));
    }
  }

  lemma GrantMoves(db: Db, next: Db, id: Id, z: Authorization, now: Time, kind: Kind)
    requires Reaches(db, next, kind) && kind == (if z.source.OwnerApproval? then Consuming else Granting)
    requires z.bound.operationId in next.operations && z.bound.reservationId in next.reservations
    requires LegalGrant(next, id, z, next.reservations[z.bound.reservationId].(status := Authorized), now)
    ensures
      var authorized := Approvals.Authorize(next, id, z);
      Reaches(db, match z.source
                  case OwnerApproval(a) =>
                    authorized.(approvals := next.approvals[a := next.approvals[a].(status := Consumed)])
                  case AutonomousPolicy => authorized, kind)
  {
    hide Reaches, LegalBinding;
    var m := Grant(id, z, next.reservations[z.bound.reservationId].(status := Authorized), now);
    Extend(db, next, m, kind);
    var authorized := Approvals.Authorize(next, id, z);
    assert Perform(next, m) == match z.source
      case OwnerApproval(a) => authorized.(approvals := next.approvals[a := next.approvals[a].(status := Consumed)])
      case AutonomousPolicy => authorized;
  }

  lemma StandsFacts(db: Db, k: Id, actor: Id, now: Time)
    requires Approvals.IsLoaded(db, k) && Approvals.StandingOf(db, k, actor, now).Stands?
    ensures var a := db.approvals[k];
      && Unblocked(a.fences) && AreCurrent(db, a.bound, a.fences) && Approvals.Awaiting(db, a.bound)
      && NewestRevision(db, a.bound.operationId, a.bound.envelopeRevision)
      && a.issuedAt <= now < a.expiresAt
  {}

  lemma ConsumeRefines(db: Db, k: Id, claim: Approvals.Claim, consumer: Id, actor: Id, now: Time)
    ensures Reaches(db, After(db, Approvals.Consume(db, k, claim, consumer, actor, now)), Consuming)
  {
    hide Reaches, Approvals.Load, Approvals.ConsumeLoaded;
    Stay(db, Consuming);
    LoadMoves(db, k);
    var loaded := Approvals.Load(db, k);
    if loaded.Ok? {
      Weaken(db, loaded.value, Consuming);
      ConsumeLoadedMoves(db, loaded.value, k, claim, consumer, actor, now);
    }
  }

  lemma ConsumeLoadedMoves(db: Db, next: Db, k: Id, claim: Approvals.Claim, consumer: Id, actor: Id, now: Time)
    requires Reaches(db, next, Consuming) && Approvals.IsLoaded(next, k)
    ensures var tx := Approvals.ConsumeLoaded(next, k, claim, consumer, actor, now);
      tx.Commit? ==> Reaches(db, tx.db, Consuming)
  {
    hide Reaches, Approvals.Agrees, Approvals.StandingOf, Approvals.Authorize, Sealed, NewestRevision;
    var tx := Approvals.ConsumeLoaded(next, k, claim, consumer, actor, now);
    if tx.Commit? {
      if tx.value.Granted? {
        StandsFacts(next, k, actor, now);
        BindingIsSealed(next, next.approvals[k].bound, RequireApproval);
        GrantMoves(db, next, tx.value.authorizationId, tx.value.authorization, now, Consuming);
      } else {
        LapseMoves(db, next, k, actor, now, Consuming);
      }
    }
  }

  lemma AutonomousRefines(db: Db, q: Approvals.AutonomousRequest, now: Time)
    ensures Reaches(db, After(db, Approvals.AuthorizeAutonomously(db, q, now)), Granting)
  {
    hide Reaches, Approvals.LockOver, Approvals.AuthorizeLocked;
    Stay(db, Granting);
    var ids := if q.authorizationId in db.authorizations then db.authorizations[q.authorizationId].bound else q.bound;
    var bound := Approvals.AuthoritativeBinding(db, ids.operationId, ids.reservationId, ids.envelopeId, ids.decisionId);
    if bound.Ok? {
      LockOverMoves(db, bound.value);
      var locked := Approvals.LockOver(db, bound.value);
      if locked.Ok? {
        Weaken(db, locked.value, Granting);
        AuthorizeLockedMoves(db, locked.value, q, bound.value, now);
      }
    }
  }

  lemma AuthorizeLockedMoves(db: Db, next: Db, q: Approvals.AutonomousRequest, b: Binding, now: Time)
    requires Reaches(db, next, Granting) && Approvals.IsLocked(next, b) && OwnPolicy(next, b)
    ensures var tx := Approvals.AuthorizeLocked(next, q, b, now); tx.Commit? ==> Reaches(db, tx.db, Granting)
  {
    hide Reaches, Approvals.Agrees, Approvals.Authorize, Ledger.Superseded, Approvals.NoneActive, Sealed,
        NewestRevision;
    var tx := Approvals.AuthorizeLocked(next, q, b, now);
    if tx.Commit? && q.authorizationId !in next.authorizations {
      BindingIsSealed(next, b, AllowAutonomous);
      NotSuperseded(next, b.operationId, b.envelopeRevision);
      GrantMoves(db, next, q.authorizationId, tx.value, now, Granting);
    }
  }

  function KindOfApproval(c: ApprovalCommand): Kind {
    match c
    case CreateApproval(_) => Requesting
    case Approve(_, _, _, _) => Approving
    case Reject(_, _) => Rejecting
    case Revoke(_, _) => Plain
    case Replace(_, _, _, _) => Plain
    case Consume(_, _, _, _, _) => Consuming
    case Autonomous(_, _) => Granting
  }

  lemma ApprovalsRefine(db: Db, c: ApprovalCommand)
    ensures Reaches(db, ApplyApprovals(db, c), KindOfApproval(c))
  {
    hide Reaches, Approvals.Create, Approvals.Approve, Approvals.Reject, Approvals.Revoke, Approvals.Replace,
         Approvals.Consume, Approvals.AuthorizeAutonomously;
    match c
    case CreateApproval(q) => CreateRefines(db, q);
    case Approve(k, approver, actor, now) => ApproveRefines(db, k, approver, actor, now);
    case Reject(k, approver) => RejectRefines(db, k, approver);
    case Revoke(k, actor) => RevokeRefines(db, k, actor);
    case Replace(o, e, k, actor) => ReplaceRefines(db, o, e, k, actor);
    case Consume(k, claim, consumer, actor, now) => ConsumeRefines(db, k, claim, consumer, actor, now);
    case Autonomous(q, now) => AutonomousRefines(db, q, now);
  }

  // ----- control ---------------------------------------------------------------------------

  lemma FencedIsEdge(scope: Scope, from: L.State)
    requires from in Control.BEFORE_AUTHORIZATION || from == L.Authorized
    ensures L.IsEdge(from, Control.FencedState(scope)) && Control.FencedState(scope) != L.Authorized
  {}

  lemma ControlWithdrawMoves(db: Db, next: Db, k: Id, from: set<L.State>, scope: Scope, kind: Kind)
    requires Reaches(db, next, kind) && from <= Control.BEFORE_AUTHORIZATION + {L.Authorized}
    ensures var done := Control.WithdrawFrom(next, k, from, Control.FencedState(scope));
      done.Ok? ==> Reaches(db, done.value, kind)
  {
    hide Reaches;
    if Control.WithdrawFrom(next, k, from, Control.FencedState(scope)).Ok? {
      var o := next.reservations[k].operationId;
      FencedIsEdge(scope, next.operations[o].state);
      WithdrawMoves(db, next, o, Control.FencedState(scope), k, Released, kind);
    }
  }

  lemma {:induction false} FenceAllHeldMoves(db: Db, scope: Scope, rows: seq<Id>)
    ensures var done := Control.FenceAllHeld(db, scope, rows); done.Ok? ==> Reaches(db, done.value, Plain)
    decreases |rows|
  {
    hide Reaches, Control.WithdrawFrom;
    Stay(db, Plain);
    if rows != [] && Control.FenceAllHeld(db, scope, rows).Ok? {
      ControlWithdrawMoves(db, db, rows[0], Control.BEFORE_AUTHORIZATION, scope, Plain);
      var first := Control.FenceHeld(db, scope, rows[0]).value;
      FenceAllHeldMoves(first, scope, rows[1..]);
      Join(db, first, Control.FenceAllHeld(db, scope, rows).value, Plain);
    }
  }

  lemma {:induction false} FenceAllPendingMoves(db: Db, scope: Scope, actor: Id, rows: seq<(Id, Id)>)
    ensures var done := Control.FenceAllPending(db, scope, actor, rows); done.Ok? ==> Reaches(db, done.value, Plain)
    decreases |rows|
  {
    hide Reaches, Control.WithdrawFrom, Control.FencePending;
    Stay(db, Plain);
    if rows != [] && Control.FenceAllPending(db, scope, actor, rows).Ok? {
      FencePendingMoves(db, db, scope, actor, rows[0]);
      var first := Control.FencePending(db, scope, actor, rows[0]).value;
      FenceAllPendingMoves(first, scope, actor, rows[1..]);
      Join(db, first, Control.FenceAllPending(db, scope, actor, rows).value, Plain);
    }
  }

  lemma FencePendingMoves(db: Db, next: Db, scope: Scope, actor: Id, row: (Id, Id))
    requires Reaches(db, next, Plain)
    ensures var done := Control.FencePending(next, scope, actor, row); done.Ok? ==> Reaches(db, done.value, Plain)
  {
    hide Reaches;
    if Control.FencePending(next, scope, actor, row).Ok? {
      ControlWithdrawMoves(db, next, row.1, {L.AwaitingApproval}, scope, Plain);
      SetApprovalMoves(db, Control.WithdrawFrom(next, row.1, {L.AwaitingApproval}, Control.FencedState(scope)).value,
        row.0,
                       ApprovalRevoked, Approvals.Coalesce(next.approvals[row.0].approverId, actor), Plain);
    }
  }

  lemma {:induction false} FenceAllAuthorizedMoves(db: Db, scope: Scope, rows: seq<Id>)
    ensures var done := Control.FenceAllAuthorized(db, scope, rows); done.Ok? ==> Reaches(db, done.value, Raising)
    decreases |rows|
  {
    hide Reaches, Control.WithdrawFrom, Control.FenceAuthorized;
    Stay(db, Raising);
    if rows != [] && Control.FenceAllAuthorized(db, scope, rows).Ok? {
      FenceAuthorizedMoves(db, db, scope, rows[0]);
      var first := Control.FenceAuthorized(db, scope, rows[0]).value;
      FenceAllAuthorizedMoves(first, scope, rows[1..]);
      Join(db, first, Control.FenceAllAuthorized(db, scope, rows).value, Raising);
    }
  }

  lemma FenceAuthorizedMoves(db: Db, next: Db, scope: Scope, z: Id)
    requires Reaches(db, next, Raising)
    ensures var done := Control.FenceAuthorized(next, scope, z); done.Ok? ==> Reaches(db, done.value, Raising)
  {
    hide Reaches;
    if Control.FenceAuthorized(next, scope, z).Ok? {
      var k := next.authorizations[z].bound.reservationId;
      ControlWithdrawMoves(db, next, k, {L.Authorized}, scope, Raising);
      var withdrawn := Control.WithdrawFrom(next, k, {L.Authorized}, Control.FencedState(scope)).value;
      Extend(db, withdrawn, Invalidate(z), Raising);
      assert Perform(withdrawn, Invalidate(z)) == withdrawn.(invalidated := withdrawn.invalidated + {z});
    }
  }

  lemma LockTargetMoves(db: Db, scope: Scope)
    requires Control.IsTarget(db, scope)
    ensures Reaches(db, db.(fences := Control.LockTarget(db, scope)), Plain)
  {
    hide Reaches, Control.LockTarget;
    Stay(db, Plain);
    var m := AddFences(Control.LockTarget(db, scope));
    Extend(db, db, m, Plain);
    assert Perform(db, m) == db.(fences := Control.LockTarget(db, scope));
  }

  lemma RaiseMoves(db: Db, next: Db, scope: Scope, command: Control.Command)
    requires Reaches(db, next, Plain) && scope in next.fences && Control.IsTarget(next, scope)
    requires Control.Allows(scope, command) && next.fences[scope].state != Control.TargetState(command)
    ensures Reaches(db, Control.RaiseFence(next, scope, command), Raising)
  {
    hide Reaches;
    Weaken(db, next, Raising);
    var raised := Control.RaiseFence(next, scope, command);
    var m := Raise(scope, raised.fences[scope], raised.policies);
    Extend(db, next, m, Raising);
    assert Perform(next, m) == raised;
  }

  lemma InvalidateMoves(db: Db, scope: Scope, actor: Id, rows: Control.Rows)
    ensures var done := Control.InvalidateAffected(db, scope, actor, rows);
      done.Ok? ==> Reaches(db, done.value, Raising)
  {
    hide Reaches, Control.FenceAllHeld, Control.FenceAllPending, Control.FenceAllAuthorized, Control.Lists,
         Control.HeldRows, Control.PendingRows, Control.AuthorizedRows;
    if Control.InvalidateAffected(db, scope, actor, rows).Ok? {
      var held := Control.FenceAllHeld(db, scope, rows.held).value;
      var pending := Control.FenceAllPending(held, scope, actor, rows.pending).value;
      FenceAllHeldMoves(db, scope, rows.held);
      FenceAllPendingMoves(held, scope, actor, rows.pending);
      FenceAllAuthorizedMoves(pending, scope, rows.authorized);
      Join(db, held, pending, Plain);
      Weaken(db, pending, Raising);
      Join(db, pending, Control.FenceAllAuthorized(pending, scope, rows.authorized).value, Raising);
    }
  }

  lemma ControlRefines(db: Db, scope: Scope, command: Control.Command, actor: Id, rows: Control.Rows)
    ensures Reaches(db, After(db, Control.ChangeFence(db, scope, command, actor, rows)), Raising)
  {
    hide Reaches, Control.LockTarget, Control.RaiseFence, Control.InvalidateAffected;
    Stay(db, Raising);
    var tx := Control.ChangeFence(db, scope, command, actor, rows);
    if tx.Commit? {
      LockTargetMoves(db, scope);
      var locked := db.(fences := Control.LockTarget(db, scope));
      Weaken(db, locked, Raising);
      if tx.value.changed {
        RaiseMoves(db, locked, scope, command);
        var raised := Control.RaiseFence(locked, scope, command);
        InvalidateMoves(raised, scope, actor, rows);
        Join(db, raised, tx.db, Raising);
      }
    }
  }

  // ----- execution -------------------------------------------------------------------------

  lemma AdvanceRefines(db: Db, o: Id, expected: L.State, to: L.State)
    ensures Reaches(db, After(db, Execution.Advance(db, o, expected, to)), if to == L.Authorized then Jumping
      else Plain)
  {
    hide Reaches;
    Stay(db, if to == L.Authorized then Jumping else Plain);
    if Execution.Advance(db, o, expected, to).Commit? {
      if to != L.Authorized {
        SetStateMoves(db, db, o, to, Plain);
      } else {
        Extend(db, db, Jump(o), Jumping);
        assert Perform(db, Jump(o)) == SetState(db, o, to);
      }
    }
  }

  lemma PersistDecisionRefines(db: Db, k: Id, d: Decision)
    ensures Reaches(db, After(db, Execution.PersistDecision(db, k, d)), Plain)
  {
    hide Reaches;
    Stay(db, Plain);
    if Execution.PersistDecision(db, k, d).Commit? {
      var next := SetState(db, d.operationId, L.PolicyFinalized);
      SetStateMoves(db, db, d.operationId, L.PolicyFinalized, Plain);
      PutDecisionMoves(db, next, k, d);
    }
  }

  lemma PutDecisionMoves(db: Db, next: Db, k: Id, d: Decision)
    requires Reaches(db, next, Plain) && Legal(next, PutDecision(k, d))
    ensures Reaches(db, next.(decisions := next.decisions[k := d]), Plain)
  {
    hide Reaches;
    Extend(db, next, PutDecision(k, d), Plain);
    assert Perform(next, PutDecision(k, d)) == next.(decisions := next.decisions[k := d]);
  }

  lemma PersistEnvelopeRefines(db: Db, o: Id, e: EnvelopePayload)
    ensures Reaches(db, After(db, Execution.PersistEnvelope(db, o, e)), Plain)
  {
    hide Reaches;
    Stay(db, Plain);
    if Execution.PersistEnvelope(db, o, e).Commit? {
      var next := SetState(db, o, L.EnvelopeFinalized);
      SetStateMoves(db, db, o, L.EnvelopeFinalized, Plain);
      PutEnvelopeMoves(db, next, e.envelopeId, Envelope(o, e.revision, EnvelopeDigest(e), e));
    }
  }

  lemma BeginSigningRefines(db: Db, o: Id, z: Id, now: Time)
    ensures Reaches(db, After(db, Execution.BeginSigning(db, o, z, now)), Plain)
  {
    hide Reaches;
    Stay(db, Plain);
    if Execution.MaySign(db, o, z, now) && db.operations[o].state == L.Authorized {
      SetStateMoves(db, db, o, L.Signing, Plain);
    }
  }

  lemma PersistSignedRefines(db: Db, id: Id, s: SignedTransaction, now: Time)
    ensures Reaches(db, After(db, Execution.PersistSigned(db, id, s, now)), Signing)
  {
    hide Reaches;
    Stay(db, Signing);
    var tx := Execution.PersistSigned(db, id, s, now);
    if tx.Commit? {
      Extend(db, db, Sign(id, s, now), Signing);
      assert Perform(db, Sign(id, s, now)) == tx.db;
    }
  }

  lemma {:induction false} WalkMoves(db: Db, next: Db, o: Id, path: seq<L.State>)
    requires Reaches(db, next, Plain) && o in next.operations && L.Authorized !in path
    ensures var walked := Execution.Walk(next, o, path); walked.Ok? ==> Reaches(db, walked.value, Plain)
    decreases |path|
  {
    hide Reaches;
    if path != [] {
      if next.operations[o].state == path[0] {
        WalkMoves(db, next, o, path[1..]);
      } else if L.IsEdge(next.operations[o].state, path[0]) {
        SetStateMoves(db, next, o, path[0], Plain);
        WalkMoves(db, SetState(next, o, path[0]), o, path[1..]);
      }
    }
  }

  lemma AdvanceToRefines(db: Db, o: Id, target: L.State, confirmed: bool)
    ensures Reaches(db, After(db, Execution.AdvanceTo(db, o, target, confirmed)), Plain)
  {
    hide Reaches, Execution.Walk;
    Stay(db, Plain);
    if o in db.operations {
      WalkMoves(db, db, o, if target == L.Disputed then [L.Disputed]
                           else if confirmed then Execution.CONFIRMED_PATH else Execution.REVERTED_PATH);
    }
  }

  lemma {:induction false} NoneFound(attempts: seq<Attempt>, attemptId: Id, signedId: Id)
    requires Execution.FirstAttempt(attempts, attemptId, signedId).None?
    ensures forall i | 0 <= i < |attempts| :: attempts[i].attemptId != attemptId && attempts[i].signedId != signedId
  {
    if attempts != [] {
      NoneFound(attempts[1..], attemptId, signedId);
      assert forall i | 0 < i < |attempts| :: attempts[i] == attempts[1..][i - 1];
    }
  }

  lemma StartAttemptRefines(db: Db, s: Id, k: Id, id: Id)
    ensures Reaches(db, After(db, Execution.StartAttempt(db, s, k, id)), Trying)
  {
    hide Reaches, Execution.FirstAttempt;
    Stay(db, Trying);
    var tx := Execution.StartAttempt(db, s, k, id);
    if tx.Commit? && Execution.FirstAttempt(db.attempts, id, s).None? {
      NoneFound(db.attempts, id, s);
      Extend(db, db, Start(tx.value), Trying);
      assert Perform(db, Start(tx.value)) == tx.db;
    }
  }

  lemma FinishAttemptRefines(db: Db, id: Id, status: AttemptStatus)
    ensures Reaches(db, After(db, Execution.FinishAttempt(db, id, status)), Trying)
  {
    hide Reaches, Execution.Finished;
    Stay(db, Trying);
    var tx := Execution.FinishAttempt(db, id, status);
    if tx.Commit? {
      Extend(db, db, Finish(id, status), Trying);
      assert Perform(db, Finish(id, status)) == tx.db;
    }
  }

  lemma ChainEvidenceRefines(db: Db, hash: Hash, evidence: ChainEvidence)
    ensures Reaches(db, After(db, Execution.PersistChainEvidence(db, hash, evidence)), Plain)
  {
    hide Reaches;
    Stay(db, Plain);
    var tx := Execution.PersistChainEvidence(db, hash, evidence);
    if tx.Commit? {
      Extend(db, db, Witness(hash, evidence), Plain);
      assert Perform(db, Witness(hash, evidence)) == tx.db;
    }
  }

  lemma EffectRefines(db: Db, o: Id, effect: Effect)
    ensures Reaches(db, After(db, Execution.InsertEffect(db, o, effect)), Plain)
  {
    hide Reaches;
    Stay(db, Plain);
    var tx := Execution.InsertEffect(db, o, effect);
    if tx.Commit? && o !in db.effects {
      Extend(db, db, Book(o, effect), Plain);
      assert Perform(db, Book(o, effect)) == tx.db;
    }
  }

  function KindOfExecution(c: ExecutionCommand): Kind {
    if c.PersistSigned? then Signing
    else if c.StartAttempt? || c.FinishAttempt? then Trying
    else if c.Advance? && c.next == L.Authorized then Jumping else Plain
  }

  lemma ExecutionRefines(db: Db, c: ExecutionCommand)
    ensures Reaches(db, ApplyExecution(db, c), KindOfExecution(c))
  {
    hide Reaches, Execution.PersistDecision, Execution.PersistEnvelope, Execution.BeginSigning, Execution.PersistSigned,
         Execution.AdvanceTo, Execution.Advance, Execution.StartAttempt, Execution.FinishAttempt,
           Execution.PersistChainEvidence, Execution.InsertEffect;
    match c
    case Advance(o, expected, to) => AdvanceRefines(db, o, expected, to);
    case PersistDecision(k, d) => PersistDecisionRefines(db, k, d);
    case PersistEnvelope(o, e) => PersistEnvelopeRefines(db, o, e);
    case BeginSigning(o, z, now) => BeginSigningRefines(db, o, z, now);
    case PersistSigned(id, s, now) => PersistSignedRefines(db, id, s, now);
    case AdvanceTo(o, target, confirmed) => AdvanceToRefines(db, o, target, confirmed);
    case StartAttempt(s, k, id) => StartAttemptRefines(db, s, k, id);
    case FinishAttempt(id, status) => FinishAttemptRefines(db, id, status);
    case PersistChainEvidence(hash, evidence) => ChainEvidenceRefines(db, hash, evidence);
    case InsertEffect(o, effect) => EffectRefines(db, o, effect);
  }

  // ----- all of them -----------------------------------------------------------------------

  /** What each command is for, which decides the moves it may make. */
  function KindOfCommand(c: Command): Kind {
    match c
    case OfLedger(l) => KindOfLedger(l)
    case OfApprovals(a) => KindOfApproval(a)
    case OfControl(_, _, _, _) => Raising
    case OfExecution(e) => KindOfExecution(e)
  }

  /** The generic lifecycle step, used to enter Authorized without an authorization. */
  predicate IsJump(c: Command) {
    KindOfCommand(c) == Jumping
  }

  /** Every transaction is a sequence of legal moves of its kind. */
  lemma Refines(db: Db, c: Command)
    ensures Reaches(db, Apply(db, c), KindOfCommand(c))
  {
    hide Reaches;
    match c
    case OfLedger(l) => LedgerRefines(db, l);
    case OfApprovals(a) => ApprovalsRefine(db, a);
    case OfControl(scope, command, actor, rows) => ControlRefines(db, scope, command, actor, rows);
    case OfExecution(e) => ExecutionRefines(db, e);
  }
}
