/**
 The shared database as an object: its tables are fields that every transaction updates in place.

 Each method is one transaction. Its contract says that it leaves the tables as the transaction
 function of the corresponding module does, or as they were, and reports what that function does.
 */
module Database {
  import opened Texts
  import opened Schema
  import opened Fencing
  import Ledger
  import Approvals
  import Control
  import Execution
  import Protocol
  import Refinement
  import opened Money
  import opened Moves
  import opened Invariants
  import Decimal
  import L = Lifecycle

  /** What a caller sees of a transaction. */
  function Reported<T>(tx: Tx<T>): Result<T> {
    match tx
    case Commit(_, value) => Ok(value)
    case Abort(error) => Err(error)
  }

  class Store {
    var registry: Registry
    var policies: map<Id, Policy>
    var budgets: map<Id, Budget>
    var reservations: map<Id, Reservation>
    var idempotency: map<Id, IdempotencyRecord>
    var broadcasts: map<Id, BroadcastEvidence>
    var operations: map<Id, Operation>
    var history: seq<StateChange>
    var envelopes: map<Id, Envelope>
    var decisions: map<Id, Decision>
    var fences: map<Scope, Fence>
    var approvals: map<Id, Approval>
    var authorizations: map<Id, Authorization>
    var invalidated: set<Id>
    var leases: map<Id, Lease>
    var recoveries: map<Id, RecoveryAttempt>
    var signed: map<Id, SignedTransaction>
    var attempts: seq<Attempt>
    var chain: map<Hash, ChainEvidence>
    var effects: map<Id, Effect>

    /** The contents of all tables. */
    function Tables(): Db
      reads this
    {
      Db(registry, policies, budgets, reservations, idempotency, broadcasts, operations, history, envelopes, decisions,
        fences,
         approvals, authorizations, invalidated, leases, recoveries, signed, attempts, chain, effects)
    }

    /** What holds between transactions. */
    ghost predicate Valid()
      reads this
    {
      Inv(Tables())
    }

    /** What holds even within one: every budget accounts for its reservations. */
    ghost predicate Solvent()
      reads this`budgets, this`reservations
    {
      Accounts(budgets, reservations)
    }

    constructor (db: Db)
      requires Protocol.Initial(db)
      ensures Valid() && Tables() == db
    {
      registry, policies, budgets, reservations := db.registry, db.policies, db.budgets, db.reservations;
      idempotency, broadcasts, operations, history := db.idempotency, db.broadcasts, db.operations, db.history;
      envelopes, decisions, fences, approvals := db.envelopes, db.decisions, db.fences, db.approvals;
      authorizations, invalidated, leases, recoveries := db.authorizations, db.invalidated, db.leases, db.recoveries;
      signed, attempts, chain, effects := db.signed, db.attempts, db.chain, db.effects;
      new;
      hide Inv;
      InitialHolds(db);
    }

    // ----- rows ----------------------------------------------------------------------------

    method SetOperationState(operationId: Id, to: L.State)
      requires operationId in operations
      modifies this`operations, this`history
      ensures Tables() == SetState(old(Tables()), operationId, to)
    {
      var op := operations[operationId];
      operations := operations[operationId := op.(state := to)];
      history := history + [StateChange(operationId, op.state, to)];
    }

    method SetReservationStatus(reservationId: Id, status: ReservationStatus) returns (row: Reservation)
      requires Solvent() && reservationId in reservations
      requires status == Disputed
        || (status in {Authorized, Broadcast} && reservations[reservationId].status in {Held, Authorized})
      modifies this`reservations
      ensures Solvent() && Tables() == Mark(old(Tables()), reservationId, status)
      ensures reservationId in reservations && row == reservations[reservationId]
    {
      hide Accounts;
      MarkAccounts(budgets, reservations, reservationId, status);
      row := reservations[reservationId].(status := status);
      reservations := reservations[reservationId := row];
    }

    /**
     UPDATE budget_accounts SET available = available - amount, reserved = reserved + amount, and
     the new reservation.
     */
    method HoldAmount(reservationId: Id, row: Reservation)
      requires Solvent() && reservationId !in reservations && row.budgetId in budgets
      requires Coherent(row) && row.encumbered && row.amount <= budgets[row.budgetId].available
      modifies this`budgets, this`reservations
      ensures Solvent() && Tables() == Hold(old(Tables()), reservationId, row)
    {
      hide Accounts;
      HoldAccounts(budgets, reservations, reservationId, row);
      var b := budgets[row.budgetId];
      budgets := budgets[row.budgetId :=
        b.(available := b.available - row.amount, reserved := b.reserved + row.amount, version := b.version + 1)];
      reservations := reservations[reservationId := row];
    }

    /**
     UPDATE budget_accounts SET available = available + amount, reserved = reserved - amount, and
     the reservation with it.
     */
    method ReturnAmount(reservationId: Id, status: ReservationStatus) returns (row: Reservation)
      requires Solvent() && Funded(Tables(), reservationId) && status in {Released, Expired}
      requires reservations[reservationId].status in {Held, Authorized, Broadcast}
      modifies this`budgets, this`reservations
      ensures Solvent() && Tables() == GiveBack(old(Tables()), reservationId, status)
      ensures reservationId in reservations && row == reservations[reservationId]
    {
      hide Accounts;
      ReturnAccounts(budgets, reservations, reservationId, status);
      var r := reservations[reservationId];
      var b := budgets[r.budgetId];
      assert b.reserved >= r.amount;
      budgets := budgets[r.budgetId :=
        b.(available := b.available + r.amount, reserved := b.reserved - r.amount, version := b.version + 1)];
      row := r.(status := status, encumbered := false);
      reservations := reservations[reservationId := row];
    }

    /** The operation leaves for another state and its money returns. */
    method WithdrawOperation(operationId: Id, to: L.State, reservationId: Id, status: ReservationStatus)
      requires Solvent() && operationId in operations && Funded(Tables(), reservationId)
        && status in {Released, Expired}
      requires reservations[reservationId].status in {Held, Authorized}
      modifies this`operations, this`history, this`budgets, this`reservations
      ensures Solvent() && Tables() == Withdraw(old(Tables()), operationId, to, reservationId, status)
    {
      hide Accounts, GiveBack;
      SetOperationState(operationId, to);
      var _ := ReturnAmount(reservationId, status);
    }

    method SpendAmount(reservationId: Id, spend: nat, proof: Text) returns (row: Reservation)
      requires Solvent() && Funded(Tables(), reservationId)
      requires reservations[reservationId].status == Broadcast && spend <= reservations[reservationId].amount
      modifies this`budgets, this`reservations
      ensures Solvent() && Tables() == Settle(old(Tables()), reservationId, spend, proof)
      ensures reservationId in reservations && row == reservations[reservationId]
    {
      hide Accounts;
      SpendAccounts(budgets, reservations, reservationId, spend, proof);
      var r := reservations[reservationId];
      var b := budgets[r.budgetId];
      assert b.reserved >= r.amount >= spend;
      budgets := budgets[r.budgetId := b.(
        available := b.available + (r.amount - spend), reserved := b.reserved - r.amount,
        finalizedSpend := b.finalizedSpend + spend, version := b.version + 1)];
      row := r.(status := Finalized, finalizedSpend := spend, proofReference := Some(proof), encumbered := false);
      reservations := reservations[reservationId := row];
    }

    method SetApproval(approvalId: Id, a: Approval)
      modifies this`approvals
      ensures Tables() == old(Tables()).(approvals := old(approvals)[approvalId := a])
    {
      approvals := approvals[approvalId := a];
    }

    // ----- the ledger ----------------------------------------------------------------------

    method Reserve(q: Ledger.ReserveRequest) returns (r: Result<Reservation>)
      requires Solvent()
      modifies this
      ensures var tx := Ledger.Reserve(old(Tables()), q); Tables() == After(old(Tables()), tx) && r == Reported(tx)
    {
      hide Accounts, Decimal.Value, Ledger.PayloadHash;
      if !Decimal.IsPositiveAtomic(q.amountAtomic) { return Err(InvalidAtomicAmount); }
      var hash := Ledger.PayloadHash(q);
      if hash.None? { return Err(NotSerializable); }
      Decimal.AtomicIsUint256(q.amountAtomic);
      r := ReserveAmount(q, Decimal.Value(q.amountAtomic), hash.value);
    }

    method ReserveAmount(q: Ledger.ReserveRequest, amount: nat, hash: Hash) returns (r: Result<Reservation>)
      requires Solvent() && amount > 0
      modifies this
      ensures var tx := Ledger.ReserveAmount(old(Tables()), q, amount, hash);
        Tables() == After(old(Tables()), tx) && r == Reported(tx)
    {
      hide Accounts, Ledger.ReservationAllowed, Ledger.Joined, Ledger.Consistent, Ledger.ReservationKeyTaken, Hold;
      if !Ledger.Identified(Tables(), q.operationId) { return Err(ReservationNotFound); }
      if !Ledger.ReservationAllowed(Tables(), q.operationId) { return Err(ControlFenceInactive); }
      if q.budgetId !in budgets || !Ledger.Joined(Tables(), operations[q.operationId]) {
        return Err(ReservationNotFound);
      }
      if !Ledger.Consistent(Tables(), operations[q.operationId], budgets[q.budgetId]) {
        return Err(BudgetBindingMismatch);
      }
      if q.idempotencyKey in idempotency {
        var prior := idempotency[q.idempotencyKey];
        if prior.payloadHash != hash { return Err(IdempotencyConflict); }
        if prior.reservationId !in reservations { return Err(ReservationNotFound); }
        return Ok(reservations[prior.reservationId]);
      }
      if budgets[q.budgetId].available < amount { return Err(InsufficientBudget); }
      if Ledger.ReservationKeyTaken(Tables(), q) { return Err(DuplicateKey); }
      var row := Reservation(q.budgetId, q.operationId, q.idempotencyKey, amount, q.expiresAt, 0, Held, None, true);
      assert q.reservationId !in reservations by { FreshKey(Tables(), q); }
      HoldAmount(q.reservationId, row);
      idempotency := idempotency[q.idempotencyKey := IdempotencyRecord(hash, q.reservationId)];
      return Ok(row);
    }

    method MarkBroadcast(reservationId: Id, receipt: Receipt, caller: Caller) returns (r: Result<Reservation>)
      requires Solvent()
      modifies this
      ensures var tx := Ledger.MarkBroadcast(old(Tables()), reservationId, receipt, caller);
        Tables() == After(old(Tables()), tx) && r == Reported(tx)
    {
      hide Accounts, Ledger.CanonicallyAuthorized, Ledger.Joined, Ledger.Consistent;
      var refusal := Ledger.Refusal(Tables(), reservationId);
      if refusal.Some? { return Err(refusal.value); }
      var row := reservations[reservationId];
      if !caller.authentic { return Err(ComponentAuthenticationFailed); }
      if row.status != Authorized && row.status != Broadcast { return Err(InvalidReservationTransition); }
      if !Ledger.CanonicallyAuthorized(Tables(), reservationId, row.operationId, {L.Authorized, L.Signing, L.Signed}) {
        return Err(InvalidReservationTransition);
      }
      if row.status == Broadcast {
        if reservationId !in broadcasts { return Err(InvalidBroadcastEvidence); }
        if broadcasts[reservationId].receipt != receipt { return Err(RecoveryConflict); }
        return Ok(row);
      }
      if reservationId in broadcasts { return Err(DuplicateKey); }
      broadcasts := broadcasts[reservationId := BroadcastEvidence(receipt, false)];
      var next := SetReservationStatus(reservationId, Broadcast);
      return Ok(next);
    }

    method VerifyBroadcast(reservationId: Id, caller: Caller) returns (r: Result<Reservation>)
      modifies this
      ensures var tx := Ledger.VerifyBroadcast(old(Tables()), reservationId, caller);
        Tables() == After(old(Tables()), tx) && r == Reported(tx)
    {
      hide Ledger.Joined, Ledger.Consistent, GiveBack, Settle;
      var refusal := Ledger.Refusal(Tables(), reservationId);
      if refusal.Some? { return Err(refusal.value); }
      var row := reservations[reservationId];
      if row.status != Broadcast { return Err(InvalidReservationTransition); }
      if reservationId !in broadcasts { return Err(InvalidBroadcastEvidence); }
      if !caller.authentic { return Err(ComponentAuthenticationFailed); }
      broadcasts := broadcasts[reservationId := broadcasts[reservationId].(verified := true)];
      return Ok(row);
    }

    method Release(reservationId: Id) returns (r: Result<Reservation>)
      requires Solvent()
      modifies this
      ensures var tx := Ledger.Release(old(Tables()), reservationId);
        Tables() == After(old(Tables()), tx) && r == Reported(tx)
    {
      hide Accounts, Ledger.Joined, Ledger.Consistent, GiveBack, Settle;
      var refusal := Ledger.Refusal(Tables(), reservationId);
      if refusal.Some? { return Err(refusal.value); }
      var row := reservations[reservationId];
      if row.status == Released { return Ok(row); }
      if row.status != Held && row.status != Authorized { return Err(InvalidReservationTransition); }
      var next := ReturnAmount(reservationId, Released);
      return Ok(next);
    }

    method Expire(reservationId: Id, now: Time) returns (r: Result<Reservation>)
      requires Solvent()
      modifies this
      ensures var tx := Ledger.Expire(old(Tables()), reservationId, now);
        Tables() == After(old(Tables()), tx) && r == Reported(tx)
    {
      hide Accounts, Ledger.Joined, Ledger.Consistent, GiveBack, Settle;
      var refusal := Ledger.Refusal(Tables(), reservationId);
      if refusal.Some? { return Err(refusal.value); }
      var row := reservations[reservationId];
      if row.status == Expired { return Ok(row); }
      if row.status != Held && row.status != Authorized { return Err(InvalidReservationTransition); }
      if row.expiresAt > now { return Err(ReservationNotExpired); }
      var next := ReturnAmount(reservationId, Expired);
      return Ok(next);
    }

    method Finalize(reservationId: Id, spend: nat, proof: Text) returns (r: Result<Reservation>)
      requires Solvent()
      modifies this
      ensures var tx := Ledger.Finalize(old(Tables()), reservationId, spend, proof);
        Tables() == After(old(Tables()), tx) && r == Reported(tx)
    {
      hide Accounts, Ledger.Joined, Ledger.Consistent, GiveBack, Settle;
      var refusal := Ledger.Refusal(Tables(), reservationId);
      if refusal.Some? { return Err(refusal.value); }
      var row := reservations[reservationId];
      if row.status == Finalized { return Ok(row); }
      if row.status != Broadcast { return Err(InvalidReservationTransition); }
      if reservationId !in broadcasts || !broadcasts[reservationId].verified { return Err(InvalidBroadcastEvidence); }
      if proof != broadcasts[reservationId].receipt.receiptReference { return Err(InvalidBroadcastEvidence); }
      if spend > row.amount { return Err(InvalidAtomicAmount); }
      var next := SpendAmount(reservationId, spend, proof);
      return Ok(next);
    }

    method Dispute(reservationId: Id) returns (r: Result<Reservation>)
      requires Solvent()
      modifies this
      ensures var tx := Ledger.Dispute(old(Tables()), reservationId);
        Tables() == After(old(Tables()), tx) && r == Reported(tx)
    {
      hide Accounts, Ledger.Joined, Ledger.Consistent, GiveBack, Settle;
      var refusal := Ledger.Refusal(Tables(), reservationId);
      if refusal.Some? { return Err(refusal.value); }
      var row := reservations[reservationId];
      if row.status == Disputed { return Ok(row); }
      if row.status !in {Held, Authorized, Broadcast} { return Err(InvalidReservationTransition); }
      var next := SetReservationStatus(reservationId, Disputed);
      return Ok(next);
    }

    method ClaimLease(operationId: Id, reservationId: Id, seconds: int, caller: Caller, now: Time)
        returns (r: Result<Lease>)
      modifies this
      ensures var tx := Ledger.ClaimLease(old(Tables()), operationId, reservationId, seconds, caller, now);
        Tables() == After(old(Tables()), tx) && r == Reported(tx)
    {
      hide Ledger.Joined, Ledger.Consistent, GiveBack, Settle;
      if seconds <= 0 || seconds > Ledger.MAX_RECOVERY_LEASE_SECONDS { return Err(RecoveryLeaseStale); }
      var refusal := Ledger.Refusal(Tables(), reservationId);
      if refusal.Some? { return Err(refusal.value); }
      if reservations[reservationId].operationId != operationId { return Err(BudgetBindingMismatch); }
      if !caller.authentic { return Err(ComponentAuthenticationFailed); }
      var version := 1;
      if operationId in leases {
        if leases[operationId].active && leases[operationId].expiresAt > now { return Err(RecoveryLeaseHeld); }
        version := leases[operationId].version + 1;
      }
      if version > Ledger.MAX_SAFE_INTEGER { return Err(RecoveryLeaseStale); }
      var lease := Lease(reservationId, caller.credentialId, version, now + 1000 * seconds, true);
      leases := leases[operationId := lease];
      return Ok(lease);
    }

    /** The money movement of a resolution; on an error nothing has been written. */
    method ApplyOutcome(q: Resolution) returns (r: Result<()>)
      requires Funded(Tables(), q.reservationId)
      requires Solvent()
      modifies this`broadcasts, this`budgets, this`reservations
      ensures var applied := Ledger.ApplyOutcome(old(Tables()), q);
        if applied.Ok? then r == Ok(()) && Tables() == applied.value
          else r == Err(applied.error) && Tables() == old(Tables())
    {
      hide Accounts;
      var rid := q.reservationId;
      var row := reservations[rid];
      match q.outcome {
        case ConfirmedOutcome =>
          if rid !in broadcasts || row.status != Broadcast { return Err(InvalidBroadcastEvidence); }
          if q.proofReference != Some(broadcasts[rid].receipt.receiptReference) || q.actualSpend.None? {
            return Err(InvalidBroadcastEvidence);
          }
          if q.actualSpend.value > row.amount { return Err(InvalidAtomicAmount); }
          broadcasts := broadcasts[rid := broadcasts[rid].(verified := true)];
          var _ := SpendAmount(rid, q.actualSpend.value, q.proofReference.value);
        case FailedOutcome =>
          if row.status == Held || row.status == Authorized {
            var _ := ReturnAmount(rid, Released);
          } else if q.verifiedRevert && row.status == Broadcast {
            if rid !in broadcasts || !broadcasts[rid].verified
               || q.proofReference != Some(broadcasts[rid].receipt.receiptReference) || q.actualSpend != Some(0) {
              return Err(InvalidBroadcastEvidence);
            }
            var _ := ReturnAmount(rid, Released);
          } else if row.status == Broadcast {
            var _ := SetReservationStatus(rid, Disputed);
          } else if row.status != Disputed {
            return Err(InvalidReservationTransition);
          }
        case _ =>
          if row.status != Disputed {
            var _ := SetReservationStatus(rid, Disputed);
          }
      }
      return Ok(());
    }

    /** Insert the recovery attempt and close the lease it was made under. */
    method RecordAttempt(attemptId: Id, row: RecoveryAttempt)
      requires row.operationId in leases
      modifies this`recoveries, this`leases
      ensures Tables() == Ledger.Recorded(old(Tables()), attemptId, row)
    {
      recoveries := recoveries[attemptId := row];
      leases := leases[row.operationId := leases[row.operationId].(active := false)];
    }

    method ResolveNew(q: Resolution, row: RecoveryAttempt) returns (r: Result<Reservation>)
      requires Funded(Tables(), q.reservationId) && row.operationId in leases
      requires Solvent()
      modifies this
      ensures var tx := Ledger.ResolveNew(old(Tables()), q, row);
        Tables() == After(old(Tables()), tx) && r == Reported(tx)
    {
      hide Accounts, Ledger.ApplyOutcome;
      var savedRecoveries, savedLeases := recoveries, leases;
      RecordAttempt(q.attemptId, row);
      var applied := ApplyOutcome(q);
      if applied.Err? {
        recoveries, leases := savedRecoveries, savedLeases;
        return Err(applied.error);
      }
      return Ok(reservations[q.reservationId]);
    }

    method Resolve(q: Resolution, caller: Caller, now: Time) returns (r: Result<Reservation>)
      requires Solvent()
      modifies this
      ensures var tx := Ledger.Resolve(old(Tables()), q, caller, now);
        Tables() == After(old(Tables()), tx) && r == Reported(tx)
    {
      hide Accounts, Ledger.Joined, Ledger.Consistent, Ledger.ResolveNew;
      if q.outcome == ConfirmedOutcome
        && (q.actualSpend.None? || q.proofReference.None? || q.proofReference.value == []) {
        return Err(InvalidBroadcastEvidence);
      }
      var refusal := Ledger.Refusal(Tables(), q.reservationId);
      if refusal.Some? { return Err(refusal.value); }
      if reservations[q.reservationId].operationId != q.operationId { return Err(BudgetBindingMismatch); }
      if !caller.authentic { return Err(ComponentAuthenticationFailed); }
      var digest := ResolutionDigest(caller, q, Ledger.StoredReceipt(Tables(), q.reservationId));
      if q.attemptId in recoveries {
        var prior := recoveries[q.attemptId];
        if (prior.operationId, prior.reservationId, prior.resolutionHash) != (q.operationId, q.reservationId, digest) {
          return Err(RecoveryConflict);
        }
        return Ok(reservations[q.reservationId]);
      }
      if !Ledger.LeaseAdmits(leases, q, caller, now) { return Err(RecoveryLeaseStale); }
      r := ResolveNew(q, Ledger.AttemptRow(q, caller, digest));
    }

    // ----- fences --------------------------------------------------------------------------

    /** INSERT ... ON CONFLICT DO NOTHING for the four fences over an operation, in locking order. */
    method EnsureFences(ownerId: Id, agentId: Id, policyId: Id)
      modifies this`fences
      ensures Tables() == EnsureAll(old(Tables()), ownerId, agentId, policyId)
    {
      hide Ensure;
      fences := Ensure(fences, policies, SystemScope);
      fences := Ensure(fences, policies, OwnerScope(ownerId));
      fences := Ensure(fences, policies, AgentScope(agentId));
      fences := Ensure(fences, policies, PolicyScope(policyId));
    }

    /** lockControlFences; on an error nothing has been written. */
    method LockFences(ownerId: Id, agentId: Id, policyId: Id) returns (r: Result<()>)
      modifies this`fences
      ensures var locked := Lock(old(Tables()), ownerId, agentId, policyId);
        if locked.Ok? then r == Ok(()) && Tables() == locked.value
          else r == Err(locked.error) && Tables() == old(Tables())
    {
      hide EnsureFour;
      if policyId !in policies { return Err(ControlTargetNotFound); }
      var saved := fences;
      EnsureFences(ownerId, agentId, policyId);
      if policies[policyId].status == RevokedPolicy && fences[PolicyScope(policyId)].state != Revoked {
        fences := saved;
        return Err(RevalidationNeeded);
      }
      return Ok(());
    }

    method LoadApproval(approvalId: Id) returns (r: Result<()>)
      modifies this`fences
      ensures var loaded := Approvals.Load(old(Tables()), approvalId);
        if loaded.Ok? then r == Ok(()) && Tables() == loaded.value
          else r == Err(loaded.error) && Tables() == old(Tables())
    {
      hide Lock;
      if approvalId !in approvals || !Approvals.Bound(Tables(), approvals[approvalId].bound) {
        return Err(ApprovalNotFound);
      }
      var b := approvals[approvalId].bound;
      r := LockFences(Approvals.OwnerOf(Tables(), b.operationId), operations[b.operationId].agentId, b.policyId);
    }

    // ----- approvals -----------------------------------------------------------------------

    method CloseApproval(approvalId: Id, to: L.State, money: ReservationStatus, status: ApprovalStatus,
        approverId: Option<Id>)
      requires approvalId in approvals && Approvals.Bound(Tables(), approvals[approvalId].bound)
      requires Solvent() && money in {Released, Expired}
      requires reservations[approvals[approvalId].bound.reservationId].status == Held
      modifies this
      ensures Tables() == Approvals.Close(old(Tables()), approvalId, to, money, status, approverId)
    {
      hide Accounts, Withdraw;
      var a := approvals[approvalId];
      WithdrawOperation(a.bound.operationId, to, a.bound.reservationId, money);
      SetApproval(approvalId, a.(status := status, approverId := approverId));
    }

    /** Whether the approval still stands; if it has lapsed, that is written. */
    method Judge(approvalId: Id, actorId: Id, now: Time) returns (r: Result<Option<Approvals.Report>>)
      requires Approvals.IsLoaded(Tables(), approvalId)
      requires Solvent()
      modifies this
      ensures match Approvals.StandingOf(old(Tables()), approvalId, actorId, now)
        case Stands => r == Ok(None) && Tables() == old(Tables())
        case OutOfOrder(error) => r == Err(error) && Tables() == old(Tables())
        case Lapsed(db, report) => r == Ok(Some(report)) && Tables() == db
    {
      hide Accounts, Approvals.Close, Approvals.FencesHold, Ledger.Superseded;
      var a := approvals[approvalId];
      var approver := Approvals.Coalesce(a.approverId, actorId);
      if !Approvals.FencesHold(Tables(), a.bound, a.fences) {
        if Approvals.Awaiting(Tables(), a.bound) {
          CloseApproval(approvalId, L.RevalidationRequired, Released, ApprovalRevoked, approver);
        }
        return Ok(Some(Approvals.MustRevalidate));
      }
      if now < a.issuedAt { return Err(RevalidationNeeded); }
      if !Approvals.Awaiting(Tables(), a.bound) { return Err(AuthorizationStateInvalid); }
      if now >= a.expiresAt {
        CloseApproval(approvalId, L.Expired, Expired, ApprovalExpired, a.approverId);
        return Ok(Some(Approvals.LifetimeElapsed));
      }
      if Ledger.Superseded(Tables(), a.bound.operationId, a.bound.envelopeRevision) {
        CloseApproval(approvalId, L.RevalidationRequired, Released, ApprovalRevoked, approver);
        return Ok(Some(Approvals.MustRevalidate));
      }
      return Ok(None);
    }

    method ApproveLoaded(approvalId: Id, approverId: Id, actorId: Id, now: Time) returns (r: Result<Approvals.Report>)
      requires Approvals.IsLoaded(Tables(), approvalId)
      requires Solvent()
      modifies this
      ensures var tx := Approvals.ApproveLoaded(old(Tables()), approvalId, approverId, actorId, now);
        Tables() == After(old(Tables()), tx) && r == Reported(tx)
    {
      hide Accounts, Approvals.Agrees, Approvals.StandingOf;
      var a := approvals[approvalId];
      if !Approvals.Agrees(Tables(), a.bound, RequireApproval) { return Err(RevalidationNeeded); }
      if a.status == Approved {
        if a.approverId != Some(approverId) { return Err(ApprovalConflict); }
        return Ok(Approvals.Decided(a));
      }
      if a.status != Pending { return Err(ApprovalInvalidState); }
      var standing := Judge(approvalId, actorId, now);
      if standing.Err? { return Err(standing.error); }
      if standing.value.Some? { return Ok(standing.value.value); }
      var approved := a.(status := Approved, approverId := Some(approverId));
      SetApproval(approvalId, approved);
      return Ok(Approvals.Decided(approved));
    }

    method Approve(approvalId: Id, approverId: Id, actorId: Id, now: Time) returns (r: Result<Approvals.Report>)
      requires Solvent()
      modifies this
      ensures var tx := Approvals.Approve(old(Tables()), approvalId, approverId, actorId, now);
        Tables() == After(old(Tables()), tx) && r == Reported(tx)
    {
      hide Accounts, EnsureFour, Approvals.Bound, Approvals.IsLoaded, Approvals.ApproveLoaded;
      var saved := fences;
      var loaded := LoadApproval(approvalId);
      if loaded.Err? { return Err(loaded.error); }
      r := ApproveLoaded(approvalId, approverId, actorId, now);
      if r.Err? { fences := saved; }
    }

    method RejectLoaded(approvalId: Id, approverId: Id) returns (r: Result<Approvals.Report>)
      requires Approvals.IsLoaded(Tables(), approvalId)
      requires Solvent()
      modifies this
      ensures var tx := Approvals.RejectLoaded(old(Tables()), approvalId, approverId);
        Tables() == After(old(Tables()), tx) && r == Reported(tx)
    {
      hide Accounts, Approvals.Agrees, Ledger.Superseded, Approvals.Close;
      var a := approvals[approvalId];
      if !Approvals.Agrees(Tables(), a.bound, RequireApproval) { return Err(RevalidationNeeded); }
      if a.status != Pending { return Err(ApprovalInvalidState); }
      if !Approvals.Awaiting(Tables(), a.bound) { return Err(AuthorizationStateInvalid); }
      if Ledger.Superseded(Tables(), a.bound.operationId, a.bound.envelopeRevision) { return Err(RevalidationNeeded); }
      CloseApproval(approvalId, L.Rejected, Released, Rejected, Some(approverId));
      return Ok(Approvals.Decided(a.(status := Rejected, approverId := Some(approverId))));
    }

    method Reject(approvalId: Id, approverId: Id) returns (r: Result<Approvals.Report>)
      requires Solvent()
      modifies this
      ensures var tx := Approvals.Reject(old(Tables()), approvalId, approverId);
        Tables() == After(old(Tables()), tx) && r == Reported(tx)
    {
      hide Accounts, EnsureFour, Approvals.Bound, Approvals.IsLoaded, Approvals.RejectLoaded;
      var saved := fences;
      var loaded := LoadApproval(approvalId);
      if loaded.Err? { return Err(loaded.error); }
      r := RejectLoaded(approvalId, approverId);
      if r.Err? { fences := saved; }
    }

    method RevokeLoaded(approvalId: Id, actorId: Id) returns (r: Result<Approvals.Report>)
      requires Approvals.IsLoaded(Tables(), approvalId)
      requires Solvent()
      modifies this
      ensures var tx := Approvals.RevokeLoaded(old(Tables()), approvalId, actorId);
        Tables() == After(old(Tables()), tx) && r == Reported(tx)
    {
      hide Accounts, Approvals.Agrees, Approvals.Close;
      var a := approvals[approvalId];
      if !Approvals.Agrees(Tables(), a.bound, RequireApproval) { return Err(RevalidationNeeded); }
      if a.status == ApprovalRevoked { return Ok(Approvals.Decided(a)); }
      if a.status != Pending && a.status != Approved { return Err(ApprovalInvalidState); }
      if !Approvals.Awaiting(Tables(), a.bound) { return Err(AuthorizationStateInvalid); }
      var approver := Approvals.Coalesce(a.approverId, actorId);
      CloseApproval(approvalId, L.Revoked, Released, ApprovalRevoked, approver);
      return Ok(Approvals.Decided(a.(status := ApprovalRevoked, approverId := approver)));
    }

    method RevokeApproval(approvalId: Id, actorId: Id) returns (r: Result<Approvals.Report>)
      requires Solvent()
      modifies this
      ensures var tx := Approvals.Revoke(old(Tables()), approvalId, actorId);
        Tables() == After(old(Tables()), tx) && r == Reported(tx)
    {
      hide Accounts, EnsureFour, Approvals.Bound, Approvals.IsLoaded, Approvals.RevokeLoaded;
      var saved := fences;
      var loaded := LoadApproval(approvalId);
      if loaded.Err? { return Err(loaded.error); }
      r := RevokeLoaded(approvalId, actorId);
      if r.Err? { fences := saved; }
    }

    /** Move operation and reservation to authorized and record the evidence. */
    method IssueAuthorization(authorizationId: Id, z: Authorization)
      requires z.bound.operationId in operations && z.bound.reservationId in reservations
      requires Solvent() && reservations[z.bound.reservationId].status in {Held, Authorized}
      modifies this`operations, this`history, this`reservations, this`authorizations
      ensures Tables() == Approvals.Authorize(old(Tables()), authorizationId, z)
    {
      hide Accounts;
      SetOperationState(z.bound.operationId, L.Authorized);
      var _ := SetReservationStatus(z.bound.reservationId, Authorized);
      authorizations := authorizations[authorizationId := z];
    }

    /** The authorization is issued and its approval is used up, together. */
    method GrantApproval(approvalId: Id, id: Id, consumerId: Id) returns (z: Authorization)
      requires Approvals.IsLoaded(Tables(), approvalId)
      requires Solvent() && reservations[approvals[approvalId].bound.reservationId].status == Held
      modifies this`operations, this`history, this`reservations, this`authorizations, this`approvals
      ensures z == Approvals.AuthorizationFrom(approvalId, old(approvals)[approvalId], consumerId)
      ensures Tables() == Approvals.Authorize(old(Tables()), id, z)
        .(approvals := old(approvals)[approvalId := old(approvals)[approvalId].(status := Consumed)])
    {
      hide Accounts;
      var a := approvals[approvalId];
      z := Approvals.AuthorizationFrom(approvalId, a, consumerId);
      IssueAuthorization(id, z);
      approvals := approvals[approvalId := a.(status := Consumed)];
    }

    method ConsumeLoaded(approvalId: Id, claim: Approvals.Claim, consumerId: Id, actorId: Id, now: Time)
        returns (r: Result<Approvals.ConsumeReport>)
      requires Approvals.IsLoaded(Tables(), approvalId)
      requires Solvent()
      modifies this
      ensures var tx := Approvals.ConsumeLoaded(old(Tables()), approvalId, claim, consumerId, actorId, now);
        Tables() == After(old(Tables()), tx) && r == Reported(tx)
    {
      hide Accounts, Approvals.Agrees, Approvals.StandingOf, Approvals.Authorize, Approvals.AuthorizationFrom,
          Approvals.AUTHORIZATION_SUFFIX;
      var a := approvals[approvalId];
      var b := a.bound;
      if Approvals.Claim(b.operationId, b.envelopeId, b.envelopeRevision, b.envelopeHash) != claim {
        return Err(ApprovalBindingMismatch);
      }
      if !Approvals.Agrees(Tables(), b, RequireApproval) { return Err(RevalidationNeeded); }
      if a.status != Approved { return Err(ApprovalInvalidState); }
      var standing := Judge(approvalId, actorId, now);
      if standing.Err? { return Err(standing.error); }
      if standing.value.Some? { return Ok(Approvals.NotGranted(standing.value.value)); }
      Refinement.StandsFacts(Tables(), approvalId, actorId, now);
      var id := Id(approvalId.text + Approvals.AUTHORIZATION_SUFFIX);
      if id in authorizations { return Err(DuplicateKey); }
      var z := GrantApproval(approvalId, id, consumerId);
      return Ok(Approvals.Granted(id, z));
    }

    method Consume(approvalId: Id, claim: Approvals.Claim, consumerId: Id, actorId: Id, now: Time)
        returns (r: Result<Approvals.ConsumeReport>)
      requires Solvent()
      modifies this
      ensures var tx := Approvals.Consume(old(Tables()), approvalId, claim, consumerId, actorId, now);
        Tables() == After(old(Tables()), tx) && r == Reported(tx)
    {
      hide Accounts, EnsureFour, Approvals.Bound, Approvals.IsLoaded, Approvals.ConsumeLoaded;
      var saved := fences;
      var loaded := LoadApproval(approvalId);
      if loaded.Err? { return Err(loaded.error); }
      r := ConsumeLoaded(approvalId, claim, consumerId, actorId, now);
      if r.Err? { fences := saved; }
    }

    method CreateLocked(q: Approvals.CreateRequest, b: Binding) returns (r: Result<Approval>)
      requires Approvals.IsLocked(Tables(), b)
      modifies this
      ensures var tx := Approvals.CreateLocked(old(Tables()), q, b);
        Tables() == After(old(Tables()), tx) && r == Reported(tx)
    {
      hide Approvals.Agrees, Ledger.Superseded, AllActive, Approvals.CurrentFences;
      var current, e, state := Approvals.CurrentFences(Tables(), b), envelopes[b.envelopeId].payload,
        operations[b.operationId].state;
      if !Approvals.Agrees(Tables(), b, RequireApproval)
        || Ledger.Superseded(Tables(), b.operationId, b.envelopeRevision) {
        return Err(RevalidationNeeded);
      }
      if !AllActive(current) { return Err(RevalidationNeeded); }
      if (q.envelopeRevision, q.envelopeHash) != (b.envelopeRevision, b.envelopeHash) {
        return Err(ApprovalBindingMismatch);
      }
      if state != L.EnvelopeFinalized && state != L.AwaitingApproval { return Err(RevalidationNeeded); }
      if reservations[b.reservationId].status != Held { return Err(AuthorizationStateInvalid); }
      if q.issuedAt < e.createdAt || q.expiresAt > e.expiresAt { return Err(ApprovalBindingMismatch); }
      if q.approvalId in approvals { return Err(DuplicateKey); }
      var a := Approval(b, None, q.issuedAt, q.expiresAt, q.nonce, Pending, current);
      if state == L.EnvelopeFinalized {
        SetOperationState(b.operationId, L.AwaitingApproval);
      }
      SetApproval(q.approvalId, a);
      return Ok(a);
    }

    method LockOver(b: Binding) returns (r: Result<()>)
      requires Approvals.Bound(Tables(), b)
      modifies this`fences
      ensures var locked := Approvals.LockOver(old(Tables()), b);
        if locked.Ok? then r == Ok(()) && Tables() == locked.value
          else r == Err(locked.error) && Tables() == old(Tables())
    {
      r := LockFences(Approvals.OwnerOf(Tables(), b.operationId), operations[b.operationId].agentId, b.policyId);
    }

    method CreateApproval(q: Approvals.CreateRequest) returns (r: Result<Approval>)
      modifies this
      ensures var tx := Approvals.Create(old(Tables()), q); Tables() == After(old(Tables()), tx) && r == Reported(tx)
    {
      hide EnsureFour, Approvals.Bound, Approvals.IsLocked, Approvals.CreateLocked, Approvals.AuthoritativeBinding,
          Approvals.Agrees, Ledger.Superseded, Approvals.OwnerOf, Lock, Approvals.Repeats;
      if q.expiresAt <= q.issuedAt || q.envelopeRevision == 0 { return Err(ApprovalBindingMismatch); }
      if q.approvalId in approvals && Approvals.Bound(Tables(), approvals[q.approvalId].bound) {
        var a := approvals[q.approvalId];
        if !Approvals.Repeats(q, a) { return Err(ApprovalConflict); }
        if !Approvals.Agrees(Tables(), a.bound, RequireApproval)
          || Ledger.Superseded(Tables(), a.bound.operationId, a.bound.envelopeRevision) {
          return Err(RevalidationNeeded);
        }
        return Ok(a);
      }
      var bound := Approvals.AuthoritativeBinding(Tables(), q.operationId, q.reservationId, q.envelopeId, q.decisionId);
      if bound.Err? { return Err(bound.error); }
      var saved := fences;
      var locked := LockOver(bound.value);
      if locked.Err? { return Err(locked.error); }
      r := CreateLocked(q, bound.value);
      if r.Err? { fences := saved; }
    }

    method ReplaceAwaiting(operationId: Id, e: EnvelopePayload, approvalId: Id, actorId: Id)
        returns (r: Result<Envelope>)
      requires Approvals.IsLoaded(Tables(), approvalId)
      requires Solvent()
      modifies this
      ensures var tx := Approvals.ReplaceAwaiting(old(Tables()), operationId, e, approvalId, actorId);
        Tables() == After(old(Tables()), tx) && r == Reported(tx)
    {
      hide Accounts, Approvals.OnlyActive, Approvals.NoneAuthorized, Approvals.Close;
      var a := approvals[approvalId];
      if !Approvals.OnlyActive(Tables(), operationId, approvalId) || reservations[a.bound.reservationId].status != Held
         || !Approvals.NoneAuthorized(Tables(), operationId) { return Err(AuthorizationStateInvalid); }
      var rows := envelopes;
      CloseApproval(approvalId, L.RevalidationRequired, Released, ApprovalRevoked,
        Approvals.Coalesce(a.approverId, actorId));
      envelopes := rows[e.envelopeId := Approvals.NewEnvelope(operationId, e)];
      return Ok(Approvals.NewEnvelope(operationId, e));
    }

    method ReplaceAuthorized(operationId: Id, e: EnvelopePayload, approvalId: Id) returns (r: Result<Envelope>)
      requires Approvals.IsLoaded(Tables(), approvalId) && operationId in operations
      requires Solvent()
      modifies this
      ensures var tx := Approvals.ReplaceAuthorized(old(Tables()), operationId, e, approvalId);
        Tables() == After(old(Tables()), tx) && r == Reported(tx)
    {
      hide Accounts, Approvals.RestsOn, Approvals.NoneActive, Withdraw;
      var k := approvals[approvalId].bound.reservationId;
      if !Approvals.RestsOn(Tables(), operationId, approvalId) || reservations[k].status != Authorized
         || !Approvals.NoneActive(Tables(), operationId) { return Err(AuthorizationStateInvalid); }
      WithdrawOperation(operationId, L.RevalidationRequired, k, Released);
      envelopes := envelopes[e.envelopeId := Approvals.NewEnvelope(operationId, e)];
      return Ok(Approvals.NewEnvelope(operationId, e));
    }

    method ReplaceLoaded(operationId: Id, e: EnvelopePayload, approvalId: Id, actorId: Id) returns (r: Result<Envelope>)
      requires Approvals.IsLoaded(Tables(), approvalId)
      requires Solvent()
      modifies this
      ensures var tx := Approvals.ReplaceLoaded(old(Tables()), operationId, e, approvalId, actorId);
        Tables() == After(old(Tables()), tx) && r == Reported(tx)
    {
      hide Accounts, Approvals.Agrees, Approvals.Follows, Ledger.Superseded, Approvals.ReplaceAwaiting,
          Approvals.ReplaceAuthorized;
      var a := approvals[approvalId];
      if a.bound.operationId != operationId || !Approvals.Follows(Tables(), operationId, e)
        || !Approvals.Agrees(Tables(), a.bound, RequireApproval)
         || Ledger.Superseded(Tables(), operationId, a.bound.envelopeRevision) { return Err(RevalidationNeeded); }
      if e.envelopeId in envelopes { return Err(DuplicateKey); }
      match operations[operationId].state {
        case AwaitingApproval => r := ReplaceAwaiting(operationId, e, approvalId, actorId);
        case Authorized => r := ReplaceAuthorized(operationId, e, approvalId);
        case _ => return Err(RevalidationNeeded);
      }
    }

    method ReplaceEnvelope(operationId: Id, e: EnvelopePayload, approvalId: Id, actorId: Id)
        returns (r: Result<Envelope>)
      requires Solvent()
      modifies this
      ensures var tx := Approvals.Replace(old(Tables()), operationId, e, approvalId, actorId);
        Tables() == After(old(Tables()), tx) && r == Reported(tx)
    {
      hide Accounts, EnsureFour, Approvals.Bound, Approvals.IsLoaded, Approvals.ReplaceLoaded;
      var saved := fences;
      var loaded := LoadApproval(approvalId);
      if loaded.Err? { return Err(loaded.error); }
      r := ReplaceLoaded(operationId, e, approvalId, actorId);
      if r.Err? { fences := saved; }
    }

    method AuthorizeLocked(q: Approvals.AutonomousRequest, b: Binding, now: Time) returns (r: Result<Authorization>)
      requires Approvals.IsLocked(Tables(), b)
      requires Solvent()
      modifies this
      ensures var tx := Approvals.AuthorizeLocked(old(Tables()), q, b, now);
        Tables() == After(old(Tables()), tx) && r == Reported(tx)
    {
      hide Accounts, Approvals.AutonomyHolds, Approvals.NoneAuthorized, Approvals.NoneActive, Ledger.Superseded,
          Approvals.Authorize, Approvals.CurrentFences,
           Approvals.AUTONOMOUS_SUFFIX, Approvals.AUTONOMOUS_CONSUMER;
      var current, nonce := Approvals.CurrentFences(Tables(), b),
        Id(q.idempotencyKey.text + Approvals.AUTONOMOUS_SUFFIX);
      if q.authorizationId !in authorizations && !Approvals.NoneAuthorized(Tables(), b.operationId) {
        return Err(AutonomousConflict);
      }
      if b != q.bound { return Err(ApprovalBindingMismatch); }
      if decisions[b.decisionId].verdict != AllowAutonomous { return Err(AutonomousPolicyRequired); }
      if q.authorizationId in authorizations {
        var z := authorizations[q.authorizationId];
        if !Approvals.AutonomyHolds(Tables(), b, current, now, L.Authorized, Authorized) {
          return Err(RevalidationNeeded);
        }
        if z.source != AutonomousPolicy || z.consumerId != Approvals.AUTONOMOUS_CONSUMER
          || z.consumptionNonce != nonce {
          return Err(AutonomousConflict);
        }
        return Ok(z);
      }
      if !Approvals.AutonomyHolds(Tables(), b, current, now, L.EnvelopeFinalized, Held)
        || Ledger.Superseded(Tables(), b.operationId, b.envelopeRevision) {
        return Err(RevalidationNeeded);
      }
      if !Approvals.NoneActive(Tables(), b.operationId) { return Err(AutonomousConflict); }
      var e := envelopes[b.envelopeId].payload;
      var z := Authorization(AutonomousPolicy, b, e.createdAt, e.expiresAt, Approvals.AUTONOMOUS_CONSUMER, nonce,
        current);
      AutonomyIsHeld(Tables(), b, current, now);
      IssueAuthorization(q.authorizationId, z);
      return Ok(z);
    }

    method AuthorizeAutonomously(q: Approvals.AutonomousRequest, now: Time) returns (r: Result<Authorization>)
      requires Solvent()
      modifies this
      ensures var tx := Approvals.AuthorizeAutonomously(old(Tables()), q, now);
        Tables() == After(old(Tables()), tx) && r == Reported(tx)
    {
      hide Accounts, EnsureFour, Approvals.Bound, Approvals.IsLocked, Approvals.AuthorizeLocked,
          Approvals.AuthoritativeBinding, Approvals.OwnerOf, Lock;
      var ids := if q.authorizationId in authorizations then authorizations[q.authorizationId].bound else q.bound;
      var bound := Approvals.AuthoritativeBinding(Tables(), ids.operationId, ids.reservationId, ids.envelopeId,
        ids.decisionId);
      if bound.Err? { return Err(bound.error); }
      var saved := fences;
      var locked := LockOver(bound.value);
      if locked.Err? { return Err(locked.error); }
      r := AuthorizeLocked(q, bound.value, now);
      if r.Err? { fences := saved; }
    }

    // ----- control -------------------------------------------------------------------------

    /** Move an operation out of one of the given states and return its money; on an error nothing has been written. */
    method WithdrawFrom(reservationId: Id, from: set<L.State>, to: L.State) returns (r: Result<()>)
      requires Solvent()
      modifies this`operations, this`history, this`budgets, this`reservations
      ensures Solvent()
      ensures var next := Control.WithdrawFrom(old(Tables()), reservationId, from, to);
        if next.Ok? then r == Ok(()) && Tables() == next.value else r == Err(next.error) && Tables() == old(Tables())
    {
      hide Accounts, Withdraw;
      if !Funded(Tables(), reservationId) || reservations[reservationId].operationId !in operations {
        return Err(ControlTargetNotFound);
      }
      var row := reservations[reservationId];
      if operations[row.operationId].state !in from { return Err(ControlTargetNotFound); }
      if budgets[row.budgetId].reserved < row.amount { return Err(ControlTargetNotFound); }
      if row.status != Held && row.status != Authorized { return Err(ControlTargetNotFound); }
      WithdrawOperation(row.operationId, to, reservationId, Released);
      return Ok(());
    }

    method FencePending(scope: Scope, actorId: Id, row: (Id, Id)) returns (r: Result<()>)
      requires Solvent()
      modifies this`operations, this`history, this`budgets, this`reservations, this`approvals
      ensures Solvent()
      ensures var next := Control.FencePending(old(Tables()), scope, actorId, row); next.Ok? == r.Ok?
      ensures var next := Control.FencePending(old(Tables()), scope, actorId, row);
        if next.Ok? then Tables() == next.value else r.error == next.error
    {
      hide Accounts, Control.WithdrawFrom, Control.FencedState;
      var rows := approvals;
      var withdrawn := WithdrawFrom(row.1, {L.AwaitingApproval}, Control.FencedState(scope));
      if withdrawn.Err? { return withdrawn; }
      if row.0 !in rows || !Approvals.IsActive(rows[row.0]) { return Err(ControlTargetNotFound); }
      var a := rows[row.0];
      approvals := rows[row.0 :=
        a.(status := ApprovalRevoked, approverId := Approvals.Coalesce(a.approverId, actorId))];
      return Ok(());
    }

    method FenceAuthorized(scope: Scope, authorizationId: Id) returns (r: Result<()>)
      requires Solvent()
      modifies this`operations, this`history, this`budgets, this`reservations, this`invalidated
      ensures Solvent()
      ensures var next := Control.FenceAuthorized(old(Tables()), scope, authorizationId); next.Ok? == r.Ok?
      ensures var next := Control.FenceAuthorized(old(Tables()), scope, authorizationId);
        if next.Ok? then Tables() == next.value else r.error == next.error
    {
      hide Accounts, Control.WithdrawFrom, Control.FencedState;
      if authorizationId !in authorizations || authorizationId in invalidated { return Err(DuplicateKey); }
      var withdrawn := WithdrawFrom(authorizations[authorizationId].bound.reservationId, {L.Authorized},
        Control.FencedState(scope));
      if withdrawn.Err? { return withdrawn; }
      invalidated := invalidated + {authorizationId};
      return Ok(());
    }

    /** The first loop: held reservations of operations without an active approval. */
    method FenceAllHeld(scope: Scope, rows: seq<Id>) returns (r: Result<()>)
      requires Solvent()
      modifies this`operations, this`history, this`budgets, this`reservations
      ensures Solvent()
      ensures var done := Control.FenceAllHeld(old(Tables()), scope, rows);
        if r.Ok? then done == Ok(Tables()) else done == Err(r.error)
    {
      hide Accounts, Control.WithdrawFrom, Control.BEFORE_AUTHORIZATION, Control.FencedState;
      ghost var goal := Control.FenceAllHeld(Tables(), scope, rows);
      for i := 0 to |rows|
        invariant Solvent()
        invariant Control.FenceAllHeld(Tables(), scope, rows[i..]) == goal
      {
        assert rows[i..][0] == rows[i] && rows[i..][1..] == rows[i + 1..];
        r := WithdrawFrom(rows[i], Control.BEFORE_AUTHORIZATION, Control.FencedState(scope));
        if r.Err? { return r; }
      }
      return Ok(());
    }

    /** The second loop: active approvals, each with the reservation of its operation. */
    method FenceAllPending(scope: Scope, actorId: Id, rows: seq<(Id, Id)>) returns (r: Result<()>)
      requires Solvent()
      modifies this`operations, this`history, this`budgets, this`reservations, this`approvals
      ensures Solvent()
      ensures var done := Control.FenceAllPending(old(Tables()), scope, actorId, rows);
        if r.Ok? then done == Ok(Tables()) else done == Err(r.error)
    {
      hide Accounts, Control.FencePending;
      ghost var goal := Control.FenceAllPending(Tables(), scope, actorId, rows);
      for i := 0 to |rows|
        invariant Solvent()
        invariant Control.FenceAllPending(Tables(), scope, actorId, rows[i..]) == goal
      {
        assert rows[i..][0] == rows[i] && rows[i..][1..] == rows[i + 1..];
        r := FencePending(scope, actorId, rows[i]);
        if r.Err? { return r; }
      }
      return Ok(());
    }

    /** The third loop: live authorizations. */
    method FenceAllAuthorized(scope: Scope, rows: seq<Id>) returns (r: Result<()>)
      requires Solvent()
      modifies this`operations, this`history, this`budgets, this`reservations, this`invalidated
      ensures Solvent()
      ensures var done := Control.FenceAllAuthorized(old(Tables()), scope, rows);
        if r.Ok? then done == Ok(Tables()) else done == Err(r.error)
    {
      hide Accounts, Control.FenceAuthorized;
      ghost var goal := Control.FenceAllAuthorized(Tables(), scope, rows);
      for i := 0 to |rows|
        invariant Solvent()
        invariant Control.FenceAllAuthorized(Tables(), scope, rows[i..]) == goal
      {
        assert rows[i..][0] == rows[i] && rows[i..][1..] == rows[i + 1..];
        r := FenceAuthorized(scope, rows[i]);
        if r.Err? { return r; }
      }
      return Ok(());
    }

    method InvalidateAffected(scope: Scope, actorId: Id, rows: Control.Rows) returns (r: Result<()>)
      requires Solvent()
      modifies this`operations, this`history, this`budgets, this`reservations, this`approvals, this`invalidated
      ensures var done := Control.InvalidateAffected(old(Tables()), scope, actorId, rows);
        if r.Ok? then done == Ok(Tables()) else done == Err(r.error)
    {
      hide Accounts, Control.FenceAllHeld, Control.FenceAllPending, Control.FenceAllAuthorized, Control.Lists,
           Control.HeldRows, Control.PendingRows, Control.AuthorizedRows;
      if !Control.Lists(rows.held, Control.HeldRows(Tables(), scope)) { return Err(ControlTargetNotFound); }
      r := FenceAllHeld(scope, rows.held);
      if r.Err? { return r; }
      if !Control.Lists(rows.pending, Control.PendingRows(Tables(), scope)) { return Err(ControlTargetNotFound); }
      r := FenceAllPending(scope, actorId, rows.pending);
      if r.Err? { return r; }
      if !Control.Lists(rows.authorized, Control.AuthorizedRows(Tables(), scope)) { return Err(ControlTargetNotFound); }
      r := FenceAllAuthorized(scope, rows.authorized);
    }

    method RaiseFence(scope: Scope, command: Control.Command)
      requires scope in fences
      modifies this`fences, this`policies
      ensures Tables() == Control.RaiseFence(old(Tables()), scope, command)
    {
      fences := fences[scope := Fence(fences[scope].version + 1, Control.TargetState(command))];
      policies := Control.PoliciesAfter(policies, scope);
    }

    method RestoreMoney(db: Db)
      modifies this`operations, this`history, this`budgets, this`reservations
      ensures operations == db.operations && history == db.history && budgets == db.budgets
        && reservations == db.reservations
    {
      operations, history, budgets, reservations := db.operations, db.history, db.budgets, db.reservations;
    }

    method RestoreAuthority(db: Db)
      modifies this`fences, this`policies, this`approvals, this`invalidated
      ensures fences == db.fences && policies == db.policies && approvals == db.approvals
        && invalidated == db.invalidated
    {
      fences, policies, approvals, invalidated := db.fences, db.policies, db.approvals, db.invalidated;
    }

    /** ROLLBACK of everything a control change may have written. */
    method Rollback(db: Db)
      requires registry == db.registry && idempotency == db.idempotency && broadcasts == db.broadcasts
      requires envelopes == db.envelopes && decisions == db.decisions && authorizations == db.authorizations
      requires leases == db.leases && recoveries == db.recoveries && signed == db.signed
      requires attempts == db.attempts && chain == db.chain && effects == db.effects
      modifies this`operations, this`history, this`budgets, this`reservations
      modifies this`fences, this`policies, this`approvals, this`invalidated
      ensures Tables() == db
    {
      RestoreMoney(db);
      RestoreAuthority(db);
    }

    /** Raise the fence and invalidate what it covers; on an error everything is rolled back to the given tables. */
    method RaiseAndInvalidate(scope: Scope, command: Control.Command, actorId: Id, rows: Control.Rows, saved: Db)
        returns (r: Result<()>)
      requires scope in fences && Tables() == saved.(fences := fences)
      requires Solvent()
      modifies this
      ensures var done := Control.InvalidateAffected(Control.RaiseFence(old(Tables()), scope, command), scope, actorId,
        rows);
        if done.Ok? then r.Ok? && Tables() == done.value else r == Err(done.error) && Tables() == saved
    {
      hide Accounts, Control.InvalidateAffected, Control.RaiseFence;
      RaiseFence(scope, command);
      r := InvalidateAffected(scope, actorId, rows);
      if r.Err? {
        Rollback(saved);
      }
    }

    method ChangeFence(scope: Scope, command: Control.Command, actorId: Id, rows: Control.Rows)
        returns (r: Result<Control.Change>)
      requires Solvent()
      modifies this
      ensures var tx := Control.ChangeFence(old(Tables()), scope, command, actorId, rows);
        Tables() == After(old(Tables()), tx) && r == Reported(tx)
    {
      hide Accounts, Control.InvalidateAffected, Control.LockTarget, Control.PoliciesAfter;
      if !Control.Allows(scope, command) { return Err(InvalidCommand); }
      if !Control.IsTarget(Tables(), scope) { return Err(ControlTargetNotFound); }
      var saved := Tables();
      fences := Control.LockTarget(Tables(), scope);
      var current := fences[scope];
      if scope.PolicyScope? && policies[scope.policyId].status == RevokedPolicy && current.state != Revoked {
        fences := saved.fences;
        return Err(RevalidationNeeded);
      }
      if current.state == Control.TargetState(command) { return Ok(Control.Change(current, false)); }
      var done := RaiseAndInvalidate(scope, command, actorId, rows, saved);
      if done.Err? { return Err(done.error); }
      return Ok(Control.Change(Fence(current.version + 1, Control.TargetState(command)), true));
    }

    // ----- preparation ---------------------------------------------------------------------

    method Advance(operationId: Id, expected: L.State, next: L.State) returns (r: Result<()>)
      modifies this
      ensures var tx := Execution.Advance(old(Tables()), operationId, expected, next);
        Tables() == After(old(Tables()), tx) && r == Reported(tx)
    {
      if !L.IsEdge(expected, next) { return Err(PreparationFailed); }
      if operationId !in operations || operations[operationId].state != expected { return Err(PreparationFailed); }
      SetOperationState(operationId, next);
      return Ok(());
    }

    method PersistDecision(decisionId: Id, d: Decision) returns (r: Result<()>)
      modifies this
      ensures var tx := Execution.PersistDecision(old(Tables()), decisionId, d);
        Tables() == After(old(Tables()), tx) && r == Reported(tx)
    {
      if d.operationId !in operations || operations[d.operationId].state != L.Simulated {
        return Err(PreparationFailed);
      }
      if (d.policyId, d.policyVersion) != (operations[d.operationId].policyId,
        operations[d.operationId].policyVersion) {
        return Err(PreparationFailed);
      }
      if decisionId in decisions && decisions[decisionId] != d { return Err(PreparationFailed); }
      decisions := decisions[decisionId := d];
      SetOperationState(d.operationId, L.PolicyFinalized);
      return Ok(());
    }

    method PersistEnvelope(operationId: Id, e: EnvelopePayload) returns (r: Result<()>)
      modifies this
      ensures var tx := Execution.PersistEnvelope(old(Tables()), operationId, e);
        Tables() == After(old(Tables()), tx) && r == Reported(tx)
    {
      var row := Envelope(operationId, e.revision, EnvelopeDigest(e), e);
      if operationId !in operations || operations[operationId].state != L.BudgetReserved {
        return Err(PreparationFailed);
      }
      if !(exists k | k in reservations ::
             reservations[k].operationId == operationId && reservations[k].status == Held) {
        return Err(PreparationFailed);
      }
      if e.envelopeId in envelopes && envelopes[e.envelopeId] != row { return Err(PreparationFailed); }
      envelopes := envelopes[e.envelopeId := row];
      SetOperationState(operationId, L.EnvelopeFinalized);
      return Ok(());
    }

    // ----- signing -------------------------------------------------------------------------

    method BeginSigning(operationId: Id, authorizationId: Id, now: Time) returns (r: Result<()>)
      modifies this
      ensures var tx := Execution.BeginSigning(old(Tables()), operationId, authorizationId, now);
        Tables() == After(old(Tables()), tx) && r == Reported(tx)
    {
      if !Execution.MaySign(Tables(), operationId, authorizationId, now) { return Err(SigningAuthorityInvalid); }
      if operations[operationId].state == L.Authorized {
        SetOperationState(operationId, L.Signing);
      }
      return Ok(());
    }

    method PersistSigned(signedId: Id, s: SignedTransaction, now: Time) returns (r: Result<()>)
      modifies this
      ensures var tx := Execution.PersistSigned(old(Tables()), signedId, s, now);
        Tables() == After(old(Tables()), tx) && r == Reported(tx)
    {
      hide Execution.MaySign;
      if Execution.MaySign(Tables(), s.operationId, s.authorizationId, now) {
        SignerBound(Tables(), s.operationId, s.authorizationId, now);
      }
      if !Execution.MaySign(Tables(), s.operationId, s.authorizationId, now) { return Err(SigningAuthorityInvalid); }
      var b := authorizations[s.authorizationId].bound;
      if (s.reservationId, s.envelopeId, s.envelopeRevision, s.envelopeHash) != (b.reservationId, b.envelopeId,
        b.envelopeRevision, b.envelopeHash) {
        return Err(SigningAuthorityInvalid);
      }
      if signedId in signed || (exists k | k in signed :: signed[k].transactionHash == s.transactionHash) {
        return Err(DuplicateKey);
      }
      signed := signed[signedId := s];
      SetOperationState(s.operationId, L.Signed);
      return Ok(());
    }

    // ----- broadcasting --------------------------------------------------------------------

    method StartAttempt(signedId: Id, reservationId: Id, attemptId: Id) returns (r: Result<Attempt>)
      modifies this
      ensures var tx := Execution.StartAttempt(old(Tables()), signedId, reservationId, attemptId);
        Tables() == After(old(Tables()), tx) && r == Reported(tx)
    {
      hide Execution.FirstAttempt;
      if reservationId !in reservations || reservations[reservationId].status != Authorized {
        return Err(BroadcastRefused);
      }
      var existing := Execution.FirstAttempt(attempts, attemptId, signedId);
      if existing.Some? { return Ok(existing.value); }
      if signedId !in signed { return Err(BroadcastRefused); }
      var s := signed[signedId];
      var row := Attempt(attemptId, signedId, s.operationId, s.authorizationId, s.reservationId, s.transactionHash,
        Started);
      attempts := attempts + [row];
      return Ok(row);
    }

    method FinishAttempt(attemptId: Id, status: AttemptStatus) returns (r: Result<()>)
      modifies this
      ensures var tx := Execution.FinishAttempt(old(Tables()), attemptId, status);
        Tables() == After(old(Tables()), tx) && r == Reported(tx)
    {
      hide Execution.Finished;
      if !(exists i | 0 <= i < |attempts| :: attempts[i].attemptId == attemptId) { return Err(BroadcastRefused); }
      attempts := Execution.Finished(attempts, attemptId, status);
      return Ok(());
    }

    /**
     broadcastSignedTransaction, with the answer the sender will give: bytes are handed over only
     after their attempt is durable, only if they hash to the signed transaction, and only if the
     attempt is still marked as started; the attempt then records what the answer proves.
     */
    method BroadcastSigned(operationId: Id, authorizationId: Id, signedId: Id, attemptId: Id, raw: Text, answer: Answer)
      returns (r: Result<AttemptStatus>, sent: bool)
      requires Valid()
      modifies this
      ensures Valid()
      ensures sent ==>
        && signedId in old(signed)
        && var s := old(signed)[signedId];
        && (s.operationId, s.authorizationId, s.transactionHash) == (operationId, authorizationId, Keccak(raw))
        && var tx := Execution.StartAttempt(old(Tables()), signedId, s.reservationId, attemptId);
        && tx.Commit? && tx.value.status == Started
        && (tx.value.operationId, tx.value.authorizationId, tx.value.transactionHash) ==
          (operationId, authorizationId, Keccak(raw))
        && r == Ok(Classify(answer, s.transactionHash))
          && Finishes(tx.db, tx.value.attemptId, Classify(answer, s.transactionHash), Tables())
      ensures !sent ==>
        || Tables() == old(Tables())
        || (signedId in old(signed)
            && Tables() == After(old(Tables()),
              Execution.StartAttempt(old(Tables()), signedId, old(signed)[signedId].reservationId, attemptId)))
    {
      hide Inv, Reaches, Execution.StartAttempt, Execution.FinishAttempt;
      sent := false;
      if signedId !in signed { r := Err(BroadcastRefused); return; }
      var s := signed[signedId];
      if s.operationId != operationId || s.authorizationId != authorizationId || Keccak(raw) != s.transactionHash {
        r := Err(BroadcastRefused);
        return;
      }
      Refinement.StartAttemptRefines(Tables(), signedId, s.reservationId, attemptId);
      ReachesKeeps(Tables(), After(Tables(), Execution.StartAttempt(Tables(), signedId, s.reservationId, attemptId)),
        Trying);
      var started := StartAttempt(signedId, s.reservationId, attemptId);
      if started.Err? { r := Err(started.error); return; }
      var row := started.value;
      if (row.signedId, row.transactionHash, row.operationId, row.authorizationId) != (signedId, s.transactionHash,
        s.operationId, s.authorizationId) {
        r := Err(BroadcastRefused);
        return;
      }
      if row.status != Started { r := Ok(row.status); return; }
      var status := Unknown;
      sent := true;
      match answer {
        case Returned(hash) => status := if hash == s.transactionHash then Accepted else Conflicting;
        case ProvenRejection => status := RejectedBeforeAcceptance;
        case Uncertain =>
      }
      Refinement.FinishAttemptRefines(Tables(), row.attemptId, status);
      ReachesKeeps(Tables(), After(Tables(), Execution.FinishAttempt(Tables(), row.attemptId, status)), Trying);
      var _ := FinishAttempt(row.attemptId, status);
      r := Ok(status);
    }

    // ----- reconciling ---------------------------------------------------------------------

    method PersistChainEvidence(transactionHash: Hash, evidence: ChainEvidence) returns (r: Result<()>)
      modifies this
      ensures var tx := Execution.PersistChainEvidence(old(Tables()), transactionHash, evidence);
        Tables() == After(old(Tables()), tx) && r == Reported(tx)
    {
      if transactionHash in chain && chain[transactionHash] != evidence { return Err(ReconciliationFailed); }
      chain := chain[transactionHash := evidence];
      return Ok(());
    }

    method InsertEffect(operationId: Id, effect: Effect) returns (r: Result<()>)
      modifies this
      ensures var tx := Execution.InsertEffect(old(Tables()), operationId, effect);
        Tables() == After(old(Tables()), tx) && r == Reported(tx)
    {
      if operationId in effects {
        if effects[operationId] != effect { return Err(ReconciliationFailed); }
        return Ok(());
      }
      if effect.transactionHash !in chain { return Err(ReconciliationFailed); }
      if exists k | k in effects :: effects[k].transactionHash == effect.transactionHash { return Err(DuplicateKey); }
      effects := effects[operationId := effect];
      return Ok(());
    }

    /** The loop along the lifecycle path; if a step is not allowed, all are rolled back. */
    method Walk(operationId: Id, path: seq<L.State>) returns (r: Result<()>)
      requires operationId in operations
      modifies this`operations, this`history
      ensures var walked := Execution.Walk(old(Tables()), operationId, path);
        if walked.Ok? then r == Ok(()) && Tables() == walked.value
          else r == Err(walked.error) && Tables() == old(Tables())
    {
      var current := operations[operationId].state;
      var savedOperations, savedHistory := operations, history;
      ghost var goal := Execution.Walk(Tables(), operationId, path);
      for i := 0 to |path|
        invariant operationId in operations && current == operations[operationId].state
        invariant Execution.Walk(Tables(), operationId, path[i..]) == goal
      {
        assert path[i..][0] == path[i] && path[i..][1..] == path[i + 1..];
        if current == path[i] { continue; }
        if !L.IsEdge(current, path[i]) {
          operations, history := savedOperations, savedHistory;
          return Err(ReconciliationFailed);
        }
        SetOperationState(operationId, path[i]);
        current := path[i];
      }
      return Ok(());
    }

    method AdvanceTo(operationId: Id, target: L.State, confirmed: bool) returns (r: Result<()>)
      modifies this
      ensures var tx := Execution.AdvanceTo(old(Tables()), operationId, target, confirmed);
        Tables() == After(old(Tables()), tx) && r == Reported(tx)
    {
      hide Execution.Walk, Execution.CONFIRMED_PATH, Execution.REVERTED_PATH;
      if operationId !in operations { return Err(ReconciliationFailed); }
      if operations[operationId].state in {target, L.Reconciled} { return Ok(()); }
      var path := if target == L.Disputed then [L.Disputed] else if confirmed then Execution.CONFIRMED_PATH
        else Execution.REVERTED_PATH;
      r := Walk(operationId, path);
    }

    // ----- any transaction -----------------------------------------------------------------

    method ExecuteLedger(c: Protocol.LedgerCommand)
      requires Solvent()
      modifies this
      ensures Tables() == Protocol.ApplyLedger(old(Tables()), c)
    {
      hide Accounts, Ledger.Reserve, Ledger.MarkBroadcast, Ledger.VerifyBroadcast, Ledger.Release, Ledger.Expire,
           Ledger.Finalize, Ledger.Dispute, Ledger.ClaimLease, Ledger.Resolve;
      match c {
        case Reserve(q) => var _ := Reserve(q);
        case MarkBroadcast(k, receipt, caller) => var _ := MarkBroadcast(k, receipt, caller);
        case VerifyBroadcast(k, caller) => var _ := VerifyBroadcast(k, caller);
        case Release(k) => var _ := Release(k);
        case Expire(k, now) => var _ := Expire(k, now);
        case Finalize(k, spend, proof) => var _ := Finalize(k, spend, proof);
        case Dispute(k) => var _ := Dispute(k);
        case ClaimLease(o, k, seconds, caller, now) => var _ := ClaimLease(o, k, seconds, caller, now);
        case Resolve(q, caller, now) => var _ := Resolve(q, caller, now);
      }
    }

    method ExecuteApproval(c: Protocol.ApprovalCommand)
      requires Solvent()
      modifies this
      ensures Tables() == Protocol.ApplyApprovals(old(Tables()), c)
    {
      hide Accounts, Approvals.Create, Approvals.Approve, Approvals.Reject, Approvals.Revoke, Approvals.Replace,
           Approvals.Consume, Approvals.AuthorizeAutonomously;
      match c {
        case CreateApproval(q) => var _ := CreateApproval(q);
        case Approve(k, approver, actor, now) => var _ := Approve(k, approver, actor, now);
        case Reject(k, approver) => var _ := Reject(k, approver);
        case Revoke(k, actor) => var _ := RevokeApproval(k, actor);
        case Replace(o, e, k, actor) => var _ := ReplaceEnvelope(o, e, k, actor);
        case Consume(k, claim, consumer, actor, now) => var _ := Consume(k, claim, consumer, actor, now);
        case Autonomous(q, now) => var _ := AuthorizeAutonomously(q, now);
      }
    }

    method ExecuteExecution(c: Protocol.ExecutionCommand)
      modifies this
      ensures Tables() == Protocol.ApplyExecution(old(Tables()), c)
    {
      hide Execution.Advance, Execution.PersistDecision, Execution.PersistEnvelope, Execution.BeginSigning,
          Execution.PersistSigned,
           Execution.StartAttempt, Execution.FinishAttempt, Execution.PersistChainEvidence, Execution.InsertEffect,
             Execution.AdvanceTo;
      match c {
        case Advance(o, expected, next) => var _ := Advance(o, expected, next);
        case PersistDecision(k, d) => var _ := PersistDecision(k, d);
        case PersistEnvelope(o, e) => var _ := PersistEnvelope(o, e);
        case BeginSigning(o, z, now) => var _ := BeginSigning(o, z, now);
        case PersistSigned(k, s, now) => var _ := PersistSigned(k, s, now);
        case StartAttempt(s, k, id) => var _ := StartAttempt(s, k, id);
        case FinishAttempt(id, status) => var _ := FinishAttempt(id, status);
        case PersistChainEvidence(h, e) => var _ := PersistChainEvidence(h, e);
        case InsertEffect(o, e) => var _ := InsertEffect(o, e);
        case AdvanceTo(o, target, confirmed) => var _ := AdvanceTo(o, target, confirmed);
      }
    }

    /** Any transaction keeps the invariants and leaves what its command leaves. */
    method Execute(c: Protocol.Command)
      requires Valid()
      modifies this
      ensures Valid() && Tables() == Protocol.Apply(old(Tables()), c)
    {
      hide Inv, Accounts, Protocol.ApplyLedger, Protocol.ApplyApprovals, Protocol.ApplyExecution, Control.ChangeFence;
      StepKeeps(Tables(), c);
      Balances(Tables());
      match c {
        case OfLedger(l) => ExecuteLedger(l);
        case OfApprovals(a) => ExecuteApproval(a);
        case OfControl(scope, command, actor, rows) => var _ := ChangeFence(scope, command, actor, rows);
        case OfExecution(e) => ExecuteExecution(e);
      }
    }

    /** The object goes through exactly the runs of the protocol: what holds of every run holds of it. */
    method Serve(cs: seq<Protocol.Command>)
      requires Valid()
      modifies this
      ensures Valid() && Tables() == Protocol.Run(old(Tables()), cs)
    {
      hide Inv, Protocol.Apply;
      for i := 0 to |cs|
        invariant Valid() && Tables() == Protocol.Run(old(Tables()), cs[..i])
      {
        assert cs[..i + 1][..i] == cs[..i];
        Execute(cs[i]);
      }
      assert cs[..|cs|] == cs;
    }
  }

  lemma Balances(db: Db)
    requires Inv(db)
    ensures Accounts(db.budgets, db.reservations)
  {}

  /** What the sender of raw bytes answers. */
  datatype Answer = Returned(hash: Hash) | ProvenRejection | Uncertain

  /** What an answer proves about a transaction. */
  function Classify(answer: Answer, expected: Hash): AttemptStatus {
    match answer
    case Returned(hash) => if hash == expected then Accepted else Conflicting
    case ProvenRejection => RejectedBeforeAcceptance
    case Uncertain => Unknown
  }

  predicate Finishes(db: Db, attemptId: Id, status: AttemptStatus, next: Db) {
    next == After(db, Execution.FinishAttempt(db, attemptId, status))
  }

  lemma FreshKey(db: Db, q: Ledger.ReserveRequest)
    requires !Ledger.ReservationKeyTaken(db, q)
    ensures q.reservationId !in db.reservations
  {}

  lemma AutonomyIsHeld(db: Db, b: Binding, fences: Fences, now: Time)
    requires Approvals.Bound(db, b) && Approvals.AutonomyHolds(db, b, fences, now, L.EnvelopeFinalized, Held)
    ensures db.reservations[b.reservationId].status == Held
  {}

  lemma SignerBound(db: Db, operationId: Id, authorizationId: Id, now: Time)
    requires Execution.MaySign(db, operationId, authorizationId, now)
    ensures operationId in db.operations && authorizationId in db.authorizations
  {}
}
