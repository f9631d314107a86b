/**
 What each ledger transaction does in a reachable database: exactly when it commits, and then
 which rows are new, in full.
 */
module LedgerOutcomes {
  import opened Texts
  import opened Schema
  import opened Moves
  import opened Money
  import opened Evolution
  import opened Invariants
  import Ledger
  import Decimal
  import L = Lifecycle

  /** In a reachable database a reservation can be used as soon as it is there. */
  lemma UsableIfPresent(db: Db, k: Id)
    requires Inv(db)
    ensures Ledger.Refusal(db, k) == if k in db.reservations then None else Some(ReservationNotFound)
    ensures k in db.reservations ==>
      db.reservations[k].operationId in db.operations && db.reservations[k].budgetId in db.budgets
  {
    hide Conserved, Authorizations, SignedOnce, BroadcastsHold, LeasesSpent, Executed;
    if k in db.reservations {
      assert Drawn(db, k);
    }
  }

  /** A reservation whose budget, operation, intent and policy belong together. */
  predicate AccountedRow(db: Db, k: Id) {
    k in db.reservations && Accounted(db, db.reservations[k].operationId, db.reservations[k].budgetId)
  }

  lemma RefusedIff(db: Db, k: Id)
    ensures Ledger.Refusal(db, k).None? <==> AccountedRow(db, k)
  {}

  /** In any database, reachable or not, no transaction touches a reservation whose rows do not belong together. */
  lemma NothingUnaccounted(db: Db, o: Id, k: Id, caller: Caller, now: Time, receipt: Receipt, spend: nat, proof: Text,
      seconds: int, q: Resolution)
    ensures Ledger.MarkBroadcast(db, k, receipt, caller).Commit? ==> AccountedRow(db, k)
    ensures Ledger.VerifyBroadcast(db, k, caller).Commit? ==> AccountedRow(db, k)
    ensures Ledger.Release(db, k).Commit? || Ledger.Expire(db, k, now).Commit? ==> AccountedRow(db, k)
    ensures Ledger.Finalize(db, k, spend, proof).Commit? || Ledger.Dispute(db, k).Commit? ==> AccountedRow(db, k)
    ensures Ledger.ClaimLease(db, o, k, seconds, caller, now).Commit? ==> AccountedRow(db, k)
    ensures Ledger.Resolve(db, q, caller, now).Commit? ==> AccountedRow(db, q.reservationId)
  {
    hide Ledger.Refusal, AccountedRow, Ledger.CanonicallyAuthorized, Ledger.ApplyOutcome;
    RefusedIff(db, k);
    RefusedIff(db, q.reservationId);
  }

  // ----- reserve ---------------------------------------------------------------------------

  /** The parties belong together, nothing over the operation is paused or revoked, and neither is its policy. */
  predicate MayDraw(db: Db, q: Ledger.ReserveRequest) {
    && Accounted(db, q.operationId, q.budgetId)
    && Open(db, q.operationId)
    && db.policies[db.operations[q.operationId].policyId].status != RevokedPolicy
  }

  lemma MayDrawIff(db: Db, q: Ledger.ReserveRequest)
    ensures MayDraw(db, q) <==>
      && Ledger.Identified(db, q.operationId) && Ledger.ReservationAllowed(db, q.operationId)
      && q.budgetId in db.budgets && Ledger.Joined(db, db.operations[q.operationId])
      && Ledger.Consistent(db, db.operations[q.operationId], db.budgets[q.budgetId])
  {}

  lemma KeysFree(db: Db, q: Ledger.ReserveRequest)
    requires Inv(db) && q.idempotencyKey !in db.idempotency
    ensures Ledger.ReservationKeyTaken(db, q) <==>
      || q.reservationId in db.reservations
      || (exists k | k in db.reservations :: db.reservations[k].operationId == q.operationId)
  {
    hide Conserved, Authorizations, SignedOnce, BroadcastsHold, LeasesSpent, Executed, Accounted;
    assert forall k | k in db.reservations :: Drawn(db, k);
  }

  /**
   A first reserve commits exactly when the amount is a positive 256-bit number within the budget
   and nothing forbids it; it takes that amount and records the request under its key.
   */
  lemma ReserveOutcome(db: Db, q: Ledger.ReserveRequest)
    requires Inv(db) && q.idempotencyKey !in db.idempotency
    ensures var tx := Ledger.Reserve(db, q);
      && (tx.Commit? <==>
            && Decimal.IsCanonical(q.amountAtomic) && 0 < Decimal.Value(q.amountAtomic) <= Decimal.MAX_UINT256
            && Ledger.PayloadHash(q).Some?
            && MayDraw(db, q)
            && Decimal.Value(q.amountAtomic) <= db.budgets[q.budgetId].available
            && q.reservationId !in db.reservations
            && (forall k | k in db.reservations :: db.reservations[k].operationId != q.operationId))
      && (tx.Commit? ==>
            var amount := Decimal.Value(q.amountAtomic);
            var b := db.budgets[q.budgetId];
            && tx.value ==
              Reservation(q.budgetId, q.operationId, q.idempotencyKey, amount, q.expiresAt, 0, Held, None, true)
            && tx.db == db.(
              reservations := db.reservations[q.reservationId := tx.value],
              budgets := db.budgets[q.budgetId := b.(available := b.available - amount, reserved := b.reserved + amount,
                version := b.version + 1)],
              idempotency := db.idempotency[q.idempotencyKey :=
                IdempotencyRecord(Ledger.PayloadHash(q).value, q.reservationId)]))
  {
    hide Inv, MayDraw, Ledger.Identified, Ledger.ReservationAllowed, Ledger.Joined, Ledger.Consistent,
        Ledger.ReservationKeyTaken, Ledger.PayloadHash, Decimal.Value, Decimal.IsPositiveAtomic;
    Decimal.AtomicIsUint256(q.amountAtomic);
    MayDrawIff(db, q);
    MayDrawRows(db, q);
    KeysFree(db, q);
  }

  lemma MayDrawRows(db: Db, q: Ledger.ReserveRequest)
    ensures MayDraw(db, q) ==> q.operationId in db.operations && q.budgetId in db.budgets
  {}

  /** A repeated reserve changes nothing: it returns what its key names, or is refused for another payload. */
  lemma RepeatOutcome(db: Db, q: Ledger.ReserveRequest)
    requires Inv(db) && q.idempotencyKey in db.idempotency
    ensures var tx := Ledger.Reserve(db, q);
      && (tx.Commit? <==>
            && Decimal.IsCanonical(q.amountAtomic) && 0 < Decimal.Value(q.amountAtomic) <= Decimal.MAX_UINT256
            && Ledger.PayloadHash(q) == Some(db.idempotency[q.idempotencyKey].payloadHash)
            && MayDraw(db, q))
      && (tx.Commit? ==> tx == Commit(db, db.reservations[db.idempotency[q.idempotencyKey].reservationId]))
  {
    hide Conserved, Authorizations, SignedOnce, BroadcastsHold, LeasesSpent, Executed, Drawn, MayDraw,
        Ledger.Identified, Ledger.ReservationAllowed, Ledger.Joined, Ledger.Consistent, Ledger.ReservationKeyTaken,
        Ledger.PayloadHash, Decimal.Value, Decimal.IsPositiveAtomic;
    Decimal.AtomicIsUint256(q.amountAtomic);
    MayDrawIff(db, q);
  }

  // ----- release, expire, finalize, dispute ------------------------------------------------

  /** The reservation is closed in the given status and its whole amount is back in its budget. */
  predicate AmountReturned(db: Db, next: Db, k: Id, status: ReservationStatus) {
    && Funded(db, k)
    && var r := db.reservations[k];
    && var b := db.budgets[r.budgetId];
    && next == db.(
      reservations := db.reservations[k := r.(status := status, encumbered := false)],
      budgets := db.budgets[r.budgetId := b.(available := b.available + r.amount, reserved := b.reserved - r.amount,
        version := b.version + 1)])
  }

  /** The spend stays in the budget's finalized part under its proof, and the rest of the amount is back. */
  predicate AmountSpent(db: Db, next: Db, k: Id, spend: nat, proof: Text) {
    && Funded(db, k)
    && var r := db.reservations[k];
    && var b := db.budgets[r.budgetId];
    && next == db.(
      reservations := db.reservations[k :=
        r.(status := Finalized, finalizedSpend := spend, proofReference := Some(proof), encumbered := false)],
      budgets := db.budgets[r.budgetId := b.(available := b.available + (r.amount - spend),
        reserved := b.reserved - r.amount, finalizedSpend := b.finalizedSpend + spend, version := b.version + 1)])
  }

  /** Only the status of the reservation is new. */
  predicate StatusWritten(db: Db, next: Db, k: Id, status: ReservationStatus) {
    && k in db.reservations
    && next == db.(reservations := db.reservations[k := db.reservations[k].(status := status)])
  }

  predicate InStatus(db: Db, k: Id, status: ReservationStatus) {
    k in db.reservations && db.reservations[k].status == status
  }

  /** The transaction reports the row it leaves. */
  predicate Reports(tx: Tx<Reservation>, k: Id) {
    tx.Commit? && k in tx.db.reservations && tx.value == tx.db.reservations[k]
  }

  lemma ReleaseOutcome(db: Db, k: Id)
    requires Inv(db)
    ensures var tx := Ledger.Release(db, k);
      && (tx.Commit? <==> k in db.reservations && db.reservations[k].status in {Held, Authorized, Released})
      && (tx.Commit? && InStatus(db, k, Released) ==> tx == Commit(db, db.reservations[k]))
      && (tx.Commit? && !InStatus(db, k, Released) ==>
            AmountReturned(db, tx.db, k, Released) && Reports(tx, k))
  {
    hide Inv, Ledger.Refusal;
    UsableIfPresent(db, k);
  }

  /** A reservation expires only once its time has come. */
  lemma ExpireOutcome(db: Db, k: Id, now: Time)
    requires Inv(db)
    ensures var tx := Ledger.Expire(db, k, now);
      && (tx.Commit? <==>
            && k in db.reservations
            && (|| db.reservations[k].status == Expired
                || (db.reservations[k].status in {Held, Authorized} && db.reservations[k].expiresAt <= now)))
      && (tx.Commit? && InStatus(db, k, Expired) ==> tx == Commit(db, db.reservations[k]))
      && (tx.Commit? && !InStatus(db, k, Expired) ==>
            AmountReturned(db, tx.db, k, Expired) && Reports(tx, k))
  {
    hide Inv, Ledger.Refusal;
    UsableIfPresent(db, k);
  }

  /** Finalizing a broadcast reservation records exactly the spend and the proof given, under a verified receipt. */
  lemma FinalizeOutcome(db: Db, k: Id, spend: nat, proof: Text)
    requires Inv(db)
    ensures var tx := Ledger.Finalize(db, k, spend, proof);
      && (tx.Commit? <==>
            && k in db.reservations
            && (|| db.reservations[k].status == Finalized
                || (&& db.reservations[k].status == Broadcast
                    && Proved(db, k, Some(proof))
                    && spend <= db.reservations[k].amount)))
      && (tx.Commit? && InStatus(db, k, Finalized) ==> tx == Commit(db, db.reservations[k]))
      && (tx.Commit? && InStatus(db, k, Broadcast) ==>
            AmountSpent(db, tx.db, k, spend, proof) && Reports(tx, k))
  {
    hide Inv, Ledger.Refusal;
    UsableIfPresent(db, k);
  }

  lemma DisputeOutcome(db: Db, k: Id)
    requires Inv(db)
    ensures var tx := Ledger.Dispute(db, k);
      && (tx.Commit? <==>
            k in db.reservations && db.reservations[k].status in {Held, Authorized, Broadcast, Disputed})
      && (tx.Commit? && InStatus(db, k, Disputed) ==> tx == Commit(db, db.reservations[k]))
      && (tx.Commit? && !InStatus(db, k, Disputed) ==>
            StatusWritten(db, tx.db, k, Disputed) && Reports(tx, k))
  {
    hide Inv, Ledger.Refusal;
    UsableIfPresent(db, k);
  }

  // ----- broadcast -------------------------------------------------------------------------

  /** The one authorization over a reservation stands: not invalidated, its envelope the latest, not sent yet. */
  predicate Standing(db: Db, k: Id, z: Id) {
    && z in db.authorizations
    && z !in db.invalidated
    && var b := db.authorizations[z].bound;
    && b.reservationId == k
    && b.operationId in db.operations
    && db.operations[b.operationId].state in {L.Authorized, L.Signing, L.Signed}
    && NewestRevision(db, b.operationId, b.envelopeRevision)
  }

  lemma CanonicalIffStanding(db: Db, k: Id, z: Id)
    requires Inv(db) && k in db.reservations && z in db.authorizations
    ensures Ledger.CanonicalAuthority(db, k, db.reservations[k].operationId, {L.Authorized, L.Signing, L.Signed}, z)
      <==> Standing(db, k, z)
  {
    hide Conserved, Drawings, SignedOnce, BroadcastsHold, LeasesSpent, Executed, Grounds, FenceRises;
    assert AuthorizationHolds(db, z);
  }

  lemma AuthorizedIff(db: Db, k: Id)
    requires Inv(db) && k in db.reservations
    ensures Ledger.CanonicallyAuthorized(db, k, db.reservations[k].operationId, {L.Authorized, L.Signing, L.Signed})
      <==> exists z | z in db.authorizations :: Standing(db, k, z)
  {
    hide Inv, Ledger.CanonicalAuthority;
    forall z | z in db.authorizations
      ensures Ledger.CanonicalAuthority(db, k, db.reservations[k].operationId, {L.Authorized, L.Signing, L.Signed}, z)
        <==> Standing(db, k, z)
    {
      CanonicalIffStanding(db, k, z);
    }
    OneEach(db, k);
  }

  lemma OneEach(db: Db, k: Id)
    requires Inv(db)
    ensures forall y, z | y in db.authorizations && z in db.authorizations ::
      Standing(db, k, y) && Standing(db, k, z) ==> y == z
  {
    hide Conserved, Drawings, SignedOnce, BroadcastsHold, LeasesSpent, Executed, AuthorizationHolds, ApprovalHolds,
        NewestRevision;
  }

  /** A reservation is broadcast only by an authentic caller and under a standing authorization. */
  lemma MarkBroadcastOutcome(db: Db, k: Id, receipt: Receipt, caller: Caller)
    requires Inv(db)
    ensures var tx := Ledger.MarkBroadcast(db, k, receipt, caller);
      && (tx.Commit? <==>
            && k in db.reservations
            && caller.authentic
            && (exists z | z in db.authorizations :: Standing(db, k, z))
            && (|| db.reservations[k].status == Authorized
                || (&& db.reservations[k].status == Broadcast
                    && k in db.broadcasts && db.broadcasts[k].receipt == receipt)))
      && (tx.Commit? && InStatus(db, k, Broadcast) ==> tx == Commit(db, db.reservations[k]))
      && (tx.Commit? && InStatus(db, k, Authorized) ==>
            && tx.db == db.(
              reservations := db.reservations[k := db.reservations[k].(status := Broadcast)],
              broadcasts := db.broadcasts[k := BroadcastEvidence(receipt, false)])
            && Reports(tx, k))
  {
    hide Inv, Ledger.Refusal, Ledger.CanonicallyAuthorized, Standing;
    UsableIfPresent(db, k);
    if k in db.reservations {
      AuthorizedIff(db, k);
      NotYetBroadcast(db, k);
    }
  }

  lemma NotYetBroadcast(db: Db, k: Id)
    requires Inv(db) && k in db.reservations
    ensures db.reservations[k].status == Authorized ==> k !in db.broadcasts
    ensures db.reservations[k].status == Broadcast ==> k in db.broadcasts
  {
    hide Conserved, Drawings, Authorizations, SignedOnce, LeasesSpent, Executed, ProvedClosed;
    if k in db.broadcasts {
      assert BroadcastHolds(db, k);
    }
  }

  lemma VerifyBroadcastOutcome(db: Db, k: Id, caller: Caller)
    requires Inv(db)
    ensures var tx := Ledger.VerifyBroadcast(db, k, caller);
      && (tx.Commit? <==> k in db.reservations && db.reservations[k].status == Broadcast && caller.authentic)
      && (tx.Commit? ==>
            && k in db.broadcasts
            && tx == Commit(db.(broadcasts := db.broadcasts[k := BroadcastEvidence(db.broadcasts[k].receipt, true)]),
              db.reservations[k]))
  {
    hide Inv, Ledger.Refusal;
    UsableIfPresent(db, k);
    if k in db.reservations {
      NotYetBroadcast(db, k);
    }
  }

  // ----- recovery --------------------------------------------------------------------------

  /** A lease is claimed only while no other is live, and lasts as long as was asked, five minutes at most. */
  lemma ClaimOutcome(db: Db, o: Id, k: Id, seconds: int, caller: Caller, now: Time)
    requires Inv(db)
    ensures var tx := Ledger.ClaimLease(db, o, k, seconds, caller, now);
      var version := if o in db.leases then db.leases[o].version + 1 else 1;
      && (tx.Commit? <==>
            && 1 <= seconds <= 300
            && k in db.reservations && db.reservations[k].operationId == o
            && caller.authentic
            && (o in db.leases ==> !db.leases[o].active || db.leases[o].expiresAt <= now)
            && version <= 9007199254740991)
      && (tx.Commit? ==>
            && tx.value == Lease(k, caller.credentialId, version, now + 1000 * seconds, true)
            && tx.db == db.(leases := db.leases[o := tx.value]))
  {
    hide Inv, Ledger.Refusal;
    UsableIfPresent(db, k);
  }

  /** The caller holds the newest lease of the operation, unspent and unexpired. */
  predicate HoldsLease(db: Db, q: Resolution, caller: Caller, now: Time) {
    && q.operationId in db.leases
    && var lease := db.leases[q.operationId];
    && lease.reservationId == q.reservationId
    && lease.credentialId == caller.credentialId
    && lease.version == q.leaseVersion
    && lease.active
    && now < lease.expiresAt
  }

  /** The attempt on record and its lease spent, whatever it resolves. */
  function Logged(db: Db, q: Resolution, caller: Caller): Db
    requires q.operationId in db.leases
  {
    var receipt := if q.reservationId in db.broadcasts then Some(db.broadcasts[q.reservationId].receipt) else None;
    db.(recoveries := db.recoveries[q.attemptId :=
          RecoveryAttempt(q.operationId, q.reservationId, q.leaseVersion, caller.credentialId, q.outcome,
            ResolutionDigest(caller, q, receipt), q.reason, q.actualSpend, q.proofReference)],
        leases := db.leases[q.operationId := db.leases[q.operationId].(active := false)])
  }

  /** What a resolution asks of the reservation, by its outcome. */
  predicate Resolvable(db: Db, q: Resolution)
    requires q.reservationId in db.reservations
  {
    var k, r := q.reservationId, db.reservations[q.reservationId];
    match q.outcome
    case ConfirmedOutcome =>
      && r.status == Broadcast
      && k in db.broadcasts
      && q.proofReference == Some(db.broadcasts[k].receipt.receiptReference) && q.proofReference != Some([])
      && q.actualSpend.Some? && q.actualSpend.value <= r.amount
    case FailedOutcome =>
      || r.status in {Held, Authorized, Disputed}
      || (r.status == Broadcast && (q.verifiedRevert ==> Proved(db, k, q.proofReference) && q.actualSpend == Some(0)))
    case _ => true
  }

  /** The money and the status a resolution leaves, by its outcome, once it is logged. */
  predicate ResolvedTo(was: Db, logged: Db, next: Db, q: Resolution)
    requires q.reservationId in was.reservations
  {
    var k, r := q.reservationId, was.reservations[q.reservationId];
    match q.outcome
    case ConfirmedOutcome =>
      && k in was.broadcasts && q.actualSpend.Some? && q.proofReference.Some?
      && AmountSpent(logged.(broadcasts := was.broadcasts[k := BroadcastEvidence(was.broadcasts[k].receipt, true)]),
        next, k, q.actualSpend.value, q.proofReference.value)
    case FailedOutcome =>
      if r.status == Disputed then next == logged
      else if r.status == Broadcast && !q.verifiedRevert then StatusWritten(logged, next, k, Disputed)
      else AmountReturned(logged, next, k, Released)
    case _ =>
      if r.status == Disputed then next == logged else StatusWritten(logged, next, k, Disputed)
  }

  /** A new resolution is recorded, spends its lease and applies its outcome together, or does nothing. */
  lemma ResolveOutcome(db: Db, q: Resolution, caller: Caller, now: Time)
    requires Inv(db) && q.attemptId !in db.recoveries
    ensures var tx := Ledger.Resolve(db, q, caller, now);
      && (tx.Commit? <==>
            && q.reservationId in db.reservations && db.reservations[q.reservationId].operationId == q.operationId
            && caller.authentic
            && HoldsLease(db, q, caller, now)
            && Resolvable(db, q))
      && (tx.Commit? ==>
            && ResolvedTo(db, Logged(db, q, caller), tx.db, q)
            && Reports(tx, q.reservationId))
  {
    hide Inv, Ledger.Refusal, Ledger.ApplyOutcome, ResolvedTo, Resolvable;
    UsableIfPresent(db, q.reservationId);
    if q.reservationId in db.reservations && HoldsLease(db, q, caller, now) {
      var logged := Logged(db, q, caller);
      OutcomeApplied(db, logged, q);
      assert Ledger.Recorded(db, q.attemptId, logged.recoveries[q.attemptId]) == logged;
      assert Ledger.AttemptRow(q, caller, ResolutionDigest(caller, q, Ledger.StoredReceipt(db, q.reservationId)))
        == logged.recoveries[q.attemptId];
    }
    ConfirmedNeedsProof(db, q);
  }

  lemma ConfirmedNeedsProof(db: Db, q: Resolution)
    ensures q.reservationId in db.reservations && Resolvable(db, q) && q.outcome == ConfirmedOutcome ==>
      q.actualSpend.Some? && q.proofReference.Some? && q.proofReference.value != []
  {}

  lemma OutcomeApplied(db: Db, logged: Db, q: Resolution)
    requires Funded(db, q.reservationId)
    requires logged == db.(recoveries := logged.recoveries, leases := logged.leases)
    ensures var applied := Ledger.ApplyOutcome(logged, q);
      && (applied.Ok? && (q.outcome == ConfirmedOutcome ==> q.proofReference != Some([])) <==> Resolvable(db, q))
      && (applied.Ok? ==> ResolvedTo(db, logged, applied.value, q))
  {}
}
