/**
 However often and wherever a reconciliation was cut off, made again it comes to its end: what was
 begun is taken up where it stands, and nothing is done twice.
 */
module Completion {
  import opened Texts
  import opened Schema
  import opened Ledger
  import opened Execution
  import opened Reconciler
  import L = Lifecycle

  // ----- where a reconciliation can stand --------------------------------------------------

  function EvidenceOf(x: Input): ChainEvidence {
    ChainEvidence(x.operationId, x.reservationId, x.envelopeId)
  }

  function EffectOf(x: Input): Effect {
    Effect(x.reservationId, x.envelopeId, x.receipt.transactionHash, x.spend)
  }

  /** The attempt was accepted or its fate is unknown, its rows are usable, and the caller is authentic. */
  predicate InOrder(db: Db, x: Input) {
    && Present(db, x)
    && Refusal(db, x.reservationId).None?
    && x.caller.authentic
    && x.spend <= db.reservations[x.reservationId].amount
    && Recoverable(db, x)
    && x.receipt.receiptReference == RECEIPT_PREFIX + x.attemptId.text
    && 0 < x.leaseSeconds <= MAX_RECOVERY_LEASE_SECONDS
  }

  predicate NoSuchEffect(db: Db, x: Input) {
    forall k | k in db.effects :: db.effects[k].transactionHash != x.receipt.transactionHash
  }

  /** Nothing is resolved yet; the receipt may be announced and the evidence on record. */
  predicate Open(db: Db, x: Input) {
    && InOrder(db, x)
    && db.operations[x.operationId].state == L.Signed
    && x.attemptId !in db.recoveries
    && x.operationId !in db.effects && NoSuchEffect(db, x)
    && Announceable(db, x)
    && CanonicallyAuthorized(db, x.reservationId, x.operationId, {L.Authorized, L.Signing, L.Signed})
    && (x.receipt.transactionHash in db.chain ==> db.chain[x.receipt.transactionHash] == EvidenceOf(x))
  }

  /** The attempt as it is recorded when it resolves under a version of the lease. */
  function RowOf(x: Input, version: nat): RecoveryAttempt {
    var q := NewResolution(x, x.receipt.receiptReference, version);
    AttemptRow(q, x.caller, ResolutionDigest(x.caller, q, Some(x.receipt)))
  }

  predicate HasEvidence(db: Db, x: Input) {
    x.receipt.transactionHash in db.chain && db.chain[x.receipt.transactionHash] == EvidenceOf(x)
  }

  /** The evidence has been applied; its effect may be on record. */
  predicate Settled(db: Db, x: Input) {
    && InOrder(db, x)
    && db.operations[x.operationId].state == L.Signed
    && x.attemptId in db.recoveries && db.recoveries[x.attemptId] == RowOf(x, db.recoveries[x.attemptId].leaseVersion)
    && x.reservationId in db.broadcasts && db.broadcasts[x.reservationId].receipt == x.receipt
    && HasEvidence(db, x)
    && (if x.operationId in db.effects then x.success && db.effects[x.operationId] == EffectOf(x)
        else NoSuchEffect(db, x))
  }

  /** All of it is done. */
  predicate Done(db: Db, x: Input) {
    && InOrder(db, x)
    && db.operations[x.operationId].state == L.Reconciled
    && HasEvidence(db, x)
  }

  predicate Underway(db: Db, x: Input) {
    Open(db, x) || Settled(db, x) || Done(db, x)
  }

  /** What the stage of a call says about where its reconciliation stands. */
  predicate StageFits(p: Progress, x: Input) {
    match p.stage
    case Marking => Open(p.db, x)
    case Verifying => Open(p.db, x) && Announced(p.db, x)
    case Persisting => Open(p.db, x) && Announced(p.db, x)
    case Claiming(proof) => Claimable(p.db, x) && proof == x.receipt.receiptReference
    case Resolving(proof, _) => Claimable(p.db, x) && proof == x.receipt.receiptReference
    case Replaying(prior) => Settled(p.db, x) && prior == p.db.recoveries[x.attemptId]
    case Recording => Settled(p.db, x) && x.success
    case Advancing => Settled(p.db, x) && (x.success ==> x.operationId in p.db.effects)
    case Returned => Done(p.db, x)
    case _ => Underway(p.db, x)
  }

  predicate Claimable(db: Db, x: Input) {
    Open(db, x) && Announced(db, x) && HasEvidence(db, x)
  }

  // ----- one transaction at a time ---------------------------------------------------------

  /** The rows a reconciliation rests on are the same, apart from the reservation's money and status. */
  predicate SameGround(db: Db, next: Db, x: Input) {
    && next.registry == db.registry && next.policies == db.policies && next.envelopes == db.envelopes
    && next.decisions == db.decisions && next.authorizations == db.authorizations && next.invalidated == db.invalidated
    && next.attempts == db.attempts && next.operations == db.operations && next.effects == db.effects
    && next.budgets == db.budgets && next.recoveries == db.recoveries
    && next.reservations.Keys == db.reservations.Keys
    && x.reservationId in db.reservations
    && next.reservations[x.reservationId] ==
      db.reservations[x.reservationId].(status := next.reservations[x.reservationId].status)
  }

  lemma StaysOpen(db: Db, next: Db, x: Input)
    requires Open(db, x) && SameGround(db, next, x)
    requires Announceable(next, x)
    requires x.receipt.transactionHash in next.chain ==> next.chain[x.receipt.transactionHash] == EvidenceOf(x)
    ensures Open(next, x)
  {
    hide RECEIPT_PREFIX, CanonicalAuthority;
    var o, k := x.operationId, x.reservationId;
    var states := {L.Authorized, L.Signing, L.Signed};
    forall z ensures CanonicalAuthority(next, k, o, states, z) == CanonicalAuthority(db, k, o, states, z) {
      SameAuthority(db, next, k, o, states, z);
    }
  }

  lemma SameAuthority(db: Db, next: Db, k: Id, o: Id, states: set<L.State>, z: Id)
    requires next.envelopes == db.envelopes && next.decisions == db.decisions
    requires next.authorizations == db.authorizations && next.invalidated == db.invalidated
    requires next.operations == db.operations
    ensures CanonicalAuthority(next, k, o, states, z) == CanonicalAuthority(db, k, o, states, z)
  {}

  /** The receipt is not announced yet, or it is this one. */
  predicate Announceable(db: Db, x: Input) {
    || (&& x.reservationId in db.reservations && db.reservations[x.reservationId].status == Authorized
        && x.reservationId !in db.broadcasts)
    || Announced(db, x)
  }

  lemma MarkIs(db: Db, x: Input)
    requires Present(db, x) && Refusal(db, x.reservationId).None? && x.caller.authentic && Announceable(db, x)
    requires CanonicallyAuthorized(db, x.reservationId, x.operationId, {L.Authorized, L.Signing, L.Signed})
    ensures var tx := MarkBroadcast(db, x.reservationId, x.receipt, x.caller);
      && tx.Commit?
      && tx.db == if db.reservations[x.reservationId].status == Broadcast then db
        else db.(
          reservations := db.reservations[x.reservationId := db.reservations[x.reservationId].(status := Broadcast)],
          broadcasts := db.broadcasts[x.reservationId := BroadcastEvidence(x.receipt, false)])
  {
    hide CanonicallyAuthorized, Refusal;
  }

  lemma MarkedGround(db: Db, x: Input)
    requires x.reservationId in db.reservations
    ensures SameGround(db, db, x)
    ensures SameGround(db, db.(
      reservations := db.reservations[x.reservationId := db.reservations[x.reservationId].(status := Broadcast)],
      broadcasts := db.broadcasts[x.reservationId := BroadcastEvidence(x.receipt, false)]), x)
  {}

  lemma MarkFits(db: Db, x: Input)
    requires Open(db, x)
    ensures var tx := MarkBroadcast(db, x.reservationId, x.receipt, x.caller);
      && tx.Commit? && Open(tx.db, x) && Announced(tx.db, x)
      && tx.db.chain == db.chain && tx.db.leases == db.leases
  {
    hide MarkBroadcast, SameGround, InOrder, CanonicallyAuthorized, NoSuchEffect, Refusal;
    OpenInOrder(db, x);
    MarkIs(db, x);
    assert SameGround(db, MarkBroadcast(db, x.reservationId, x.receipt, x.caller).db, x) by {
      MarkedGround(db, x);
    }
    StaysOpen(db, MarkBroadcast(db, x.reservationId, x.receipt, x.caller).db, x);
  }

  lemma OpenChain(db: Db, x: Input)
    requires Open(db, x)
    ensures x.receipt.transactionHash in db.chain ==> db.chain[x.receipt.transactionHash] == EvidenceOf(x)
  {
    hide InOrder, CanonicallyAuthorized, NoSuchEffect;
  }

  lemma VerifyFits(db: Db, x: Input)
    requires Open(db, x) && Announced(db, x)
    ensures var tx := VerifyBroadcast(db, x.reservationId, x.caller);
      && tx.Commit? && Open(tx.db, x) && Announced(tx.db, x) && tx.db.broadcasts[x.reservationId].verified
      && tx.db.chain == db.chain && tx.db.leases == db.leases
  {
    hide Open, CanonicallyAuthorized, RECEIPT_PREFIX, Recoverable, NoSuchEffect;
    OpenChain(db, x);
    OpenInOrder(db, x);
    var tx := VerifyBroadcast(db, x.reservationId, x.caller);
    StaysOpen(db, tx.db, x);
  }

  lemma OpenInOrder(db: Db, x: Input)
    requires Open(db, x)
    ensures InOrder(db, x) && x.attemptId !in db.recoveries && x.operationId !in db.effects
    ensures Present(db, x) && Refusal(db, x.reservationId).None? && x.caller.authentic
    ensures db.operations[x.operationId].state == L.Signed
  {
    hide CanonicallyAuthorized, NoSuchEffect, Refusal, Recoverable, RECEIPT_PREFIX;
  }

  lemma PersistFits(db: Db, x: Input)
    requires Open(db, x) && Announced(db, x)
    ensures var tx := PersistChainEvidence(db, x.receipt.transactionHash, EvidenceOf(x));
      && tx.Commit? && Claimable(tx.db, x)
      && tx.db.broadcasts == db.broadcasts && tx.db.leases == db.leases
  {
    hide Open;
    OpenChain(db, x);
    OpenInOrder(db, x);
    var tx := PersistChainEvidence(db, x.receipt.transactionHash, EvidenceOf(x));
    StaysOpen(db, tx.db, x);
  }

  /** No lease of the operation is live. */
  predicate LeaseFree(db: Db, x: Input, now: Time) {
    x.operationId in db.leases ==>
      && (!db.leases[x.operationId].active || db.leases[x.operationId].expiresAt <= now)
      && db.leases[x.operationId].version < MAX_SAFE_INTEGER
  }

  lemma ClaimFits(db: Db, x: Input, now: Time)
    requires Claimable(db, x)
    ensures var tx := ClaimLease(db, x.operationId, x.reservationId, x.leaseSeconds, x.caller, now);
      && (LeaseFree(db, x, now) ==> tx.Commit?)
      && (tx.Commit? ==>
            && Claimable(tx.db, x) && tx.db.broadcasts == db.broadcasts
            && x.operationId in tx.db.leases
            && tx.db.leases[x.operationId] == Lease(x.reservationId, x.caller.credentialId, tx.value.version,
              now + 1000 * x.leaseSeconds, true))
  {
    hide Open, Refusal, CanonicallyAuthorized;
    OpenInOrder(db, x);
    OpenChain(db, x);
    OpenSeconds(db, x);
    var tx := ClaimLease(db, x.operationId, x.reservationId, x.leaseSeconds, x.caller, now);
    if tx.Commit? {
      StaysOpen(db, tx.db, x);
    }
  }

  lemma OpenSeconds(db: Db, x: Input)
    requires Open(db, x)
    ensures 0 < x.leaseSeconds <= MAX_RECOVERY_LEASE_SECONDS
    ensures x.spend <= db.reservations[x.reservationId].amount && x.receipt.receiptReference != []
    ensures NoSuchEffect(db, x)
  {
    hide CanonicallyAuthorized, NoSuchEffect, Refusal, Recoverable;
  }

  // ----- resolving -------------------------------------------------------------------------

  /** The reservation's rows after its evidence was applied. */
  predicate AppliedTo(db: Db, next: Db, x: Input) {
    && x.reservationId in db.reservations && x.reservationId in next.reservations
    && next == db.(reservations := next.reservations, budgets := next.budgets, broadcasts := next.broadcasts)
    && next.reservations.Keys == db.reservations.Keys
    && (next.reservations[x.reservationId].operationId, next.reservations[x.reservationId].budgetId,
        next.reservations[x.reservationId].amount) ==
       (db.reservations[x.reservationId].operationId, db.reservations[x.reservationId].budgetId,
        db.reservations[x.reservationId].amount)
    && (forall b | b in db.budgets ::
          && b in next.budgets
          && (next.budgets[b].agentId, next.budgets[b].walletId) == (db.budgets[b].agentId, db.budgets[b].walletId)
          && (next.budgets[b].policyId, next.budgets[b].policyVersion) ==
            (db.budgets[b].policyId, db.budgets[b].policyVersion))
    && x.reservationId in next.broadcasts && next.broadcasts[x.reservationId].receipt == x.receipt
  }

  lemma OutcomeIs(db: Db, x: Input, q: Resolution)
    requires Announced(db, x) && Funded(db, x.reservationId)
    requires q == NewResolution(x, x.receipt.receiptReference, q.leaseVersion)
    ensures var applied := ApplyOutcome(db, q);
      && (applied.Ok? ==> AppliedTo(db, applied.value, x))
      && (db.broadcasts[x.reservationId].verified && x.spend <= db.reservations[x.reservationId].amount ==> applied.Ok?)
  {
    hide CONFIRMED_REASON, REVERTED_REASON;
  }

  /** What a resolution that commits is recorded as, and what it leaves. */
  lemma ResolveIs(db: Db, x: Input, version: nat, now: Time)
    requires Present(db, x) && Refusal(db, x.reservationId).None? && x.caller.authentic && Announced(db, x)
    requires x.attemptId !in db.recoveries && x.receipt.receiptReference != []
    ensures var q := NewResolution(x, x.receipt.receiptReference, version);
      var tx := Resolve(db, q, x.caller, now);
      && (tx.Commit? ==>
            && x.operationId in db.leases
            && AppliedTo(Recorded(db, x.attemptId, RowOf(x, version)), tx.db, x))
      && (&& LeaseAdmits(db.leases, q, x.caller, now)
          && db.broadcasts[x.reservationId].verified
          && x.spend <= db.reservations[x.reservationId].amount
          ==> tx.Commit?)
  {
    hide CONFIRMED_REASON, REVERTED_REASON, ApplyOutcome, Joined, Consistent, AppliedTo;
    var q := NewResolution(x, x.receipt.receiptReference, version);
    if x.operationId in db.leases {
      OutcomeIs(Recorded(db, x.attemptId, RowOf(x, version)), x, q);
    }
  }

  lemma AppliedKeepsOrder(db: Db, next: Db, x: Input)
    requires InOrder(db, x) && AppliedTo(db, next, x)
    ensures InOrder(next, x)
  {
    hide RECEIPT_PREFIX;
  }

  lemma RecordedKeepsOrder(db: Db, x: Input, row: RecoveryAttempt)
    requires InOrder(db, x) && row.operationId in db.leases
    ensures InOrder(Recorded(db, x.attemptId, row), x)
  {
    hide RECEIPT_PREFIX;
  }

  lemma ResolveFits(db: Db, x: Input, version: nat, now: Time)
    requires Claimable(db, x)
    ensures var q := NewResolution(x, x.receipt.receiptReference, version);
      var tx := Resolve(db, q, x.caller, now);
      && (tx.Commit? ==> Settled(tx.db, x) && tx.db.effects == db.effects)
      && (LeaseAdmits(db.leases, q, x.caller, now) && db.broadcasts[x.reservationId].verified ==> tx.Commit?)
  {
    hide Open, InOrder, Refusal, Resolve, NewResolution, NoSuchEffect, AttemptRow, LeaseAdmits;
    OpenInOrder(db, x);
    OpenSeconds(db, x);
    ResolveIs(db, x, version, now);
    var tx := Resolve(db, NewResolution(x, x.receipt.receiptReference, version), x.caller, now);
    if tx.Commit? {
      var row := RowOf(x, version);
      RowFields(x, version);
      var logged := Recorded(db, x.attemptId, row);
      RecordedKeepsOrder(db, x, row);
      AppliedKeepsOrder(logged, tx.db, x);
      SameEffects(db, tx.db, x);
    }
  }

  lemma RowFields(x: Input, version: nat)
    ensures RowOf(x, version).operationId == x.operationId && RowOf(x, version).leaseVersion == version
  {
    hide CONFIRMED_REASON, REVERTED_REASON;
  }

  lemma SameEffects(db: Db, next: Db, x: Input)
    requires next.effects == db.effects
    ensures NoSuchEffect(next, x) == NoSuchEffect(db, x)
  {}

  /** A resolution on record is read back as it was made, and repeating it changes nothing. */
  lemma ReplayFits(db: Db, x: Input, now: Time)
    requires Settled(db, x)
    ensures var tx := Resolve(db, PriorResolution(x, db.recoveries[x.attemptId]), x.caller, now);
      tx.Commit? && tx.db == db
  {
    hide CONFIRMED_REASON, REVERTED_REASON, Recoverable, NoSuchEffect, RECEIPT_PREFIX, Joined, Consistent;
    var version := db.recoveries[x.attemptId].leaseVersion;
    assert PriorResolution(x, RowOf(x, version)) == NewResolution(x, x.receipt.receiptReference, version);
    SettledReference(db, x);
  }

  lemma SettledReference(db: Db, x: Input)
    requires Settled(db, x)
    ensures x.receipt.receiptReference != []
  {
    hide Refusal, Recoverable, NoSuchEffect;
  }

  // ----- recording and advancing -----------------------------------------------------------

  lemma RecordIs(db: Db, x: Input)
    requires HasEvidence(db, x)
    requires if x.operationId in db.effects then db.effects[x.operationId] == EffectOf(x) else NoSuchEffect(db, x)
    ensures var tx := InsertEffect(db, x.operationId, EffectOf(x));
      tx.Commit? && tx.db == db.(effects := db.effects[x.operationId := EffectOf(x)])
  {
    if x.operationId in db.effects {
      assert db.effects[x.operationId := db.effects[x.operationId]] == db.effects;
    }
  }

  lemma RecordFits(db: Db, x: Input)
    requires Settled(db, x) && x.success
    ensures var tx := InsertEffect(db, x.operationId, EffectOf(x));
      tx.Commit? && Settled(tx.db, x) && x.operationId in tx.db.effects
  {
    hide InOrder, RowOf, InsertEffect, NoSuchEffect;
    RecordIs(db, x);
    EffectKeepsOrder(db, x, db.effects[x.operationId := EffectOf(x)]);
    SettledPresent(db, x);
  }

  lemma EffectKeepsOrder(db: Db, x: Input, effects: map<Id, Effect>)
    requires InOrder(db, x)
    ensures InOrder(db.(effects := effects), x)
  {
    hide RECEIPT_PREFIX;
  }

  lemma {:induction false} WalkCommits(db: Db, o: Id, path: seq<L.State>)
    requires o in db.operations
    requires path != [] ==> L.IsEdge(db.operations[o].state, path[0])
    requires forall i | 0 <= i < |path| - 1 :: L.IsEdge(path[i], path[i + 1])
    ensures Walk(db, o, path).Ok?
    decreases |path|
  {
    if path != [] {
      var next := SetState(db, o, path[0]);
      assert next.operations[o].state == path[0];
      if |path| > 1 {
        assert L.IsEdge(path[0], path[1]);
      }
      if db.operations[o].state != path[0] {
        WalkCommits(next, o, path[1..]);
      } else {
        WalkCommits(db, o, path[1..]);
      }
    }
  }

  lemma AdvanceFits(db: Db, x: Input)
    requires Settled(db, x)
    ensures var tx := AdvanceTo(db, x.operationId, L.Reconciled, x.success);
      tx.Commit? && Done(tx.db, x)
  {
    hide Walk, InOrder, RowOf, NoSuchEffect, L.IsEdge;
    var path := if x.success then CONFIRMED_PATH else REVERTED_PATH;
    PathIsLawful(x.success);
    SettledPresent(db, x);
    WalkCommits(db, x.operationId, path);
    WalkEnds(db, x.operationId, path);
    WalkedKeepsOrder(db, Walk(db, x.operationId, path).value, x);
  }

  lemma PathIsLawful(success: bool)
    ensures var path := if success then CONFIRMED_PATH else REVERTED_PATH;
      && L.IsEdge(L.Signed, path[0])
      && forall i | 0 <= i < |path| - 1 :: L.IsEdge(path[i], path[i + 1])
  {}

  lemma SettledPresent(db: Db, x: Input)
    requires InOrder(db, x)
    ensures Present(db, x) && Recoverable(db, x)
  {}

  lemma WalkedKeepsOrder(db: Db, next: Db, x: Input)
    requires InOrder(db, x) && x.operationId in next.operations
    requires next == db.(operations := next.operations, history := next.history)
    requires next.operations[x.operationId] ==
      db.operations[x.operationId].(state := next.operations[x.operationId].state)
    ensures InOrder(next, x)
  {
    hide RECEIPT_PREFIX;
  }

  // ----- every event -----------------------------------------------------------------------

  lemma EnterFits(db: Db, x: Input)
    requires Underway(db, x)
    ensures var stage := Enter(db, x);
      || (Open(db, x) && stage == Marking)
      || (Settled(db, x) && stage == Replaying(db.recoveries[x.attemptId]))
      || (Done(db, x) && stage == Returned)
  {
    hide Refusal, CanonicallyAuthorized, NoSuchEffect, Recoverable, RECEIPT_PREFIX, CONFIRMED_REASON, REVERTED_REASON,
        Announceable;
  }

  lemma ContinuedFits(p: Progress, x: Input, databaseNow: Time, workerNow: Time)
    requires StageFits(p, x)
    ensures StageFits(Continued(p, x, databaseNow, workerNow), x)
  {
    hide Open, Settled, Done, Enter, MarkBroadcast, VerifyBroadcast, PersistChainEvidence, ClaimLease, Resolve,
        InsertEffect, AdvanceTo, Moved, NewResolution, PriorResolution;
    var db := p.db;
    match p.stage
    case Entering => EnterFits(db, x);
    case Marking => MarkFits(db, x);
    case Verifying => VerifyFits(db, x);
    case Persisting => PersistFits(db, x);
    case Claiming(_) => ClaimFits(db, x, databaseNow);
    case Resolving(_, version) => ResolveFits(db, x, version, workerNow);
    case Replaying(_) =>
      ReplayFits(db, x, workerNow);
    case Recording => RecordFits(db, x);
    case Advancing => AdvanceFits(db, x);
    case _ =>
  }

  /** The call goes on or is cut off; nothing else happens in the database. */
  predicate OnlyCalls(es: seq<Event>) {
    forall i | 0 <= i < |es| :: !es[i].Otherwise?
  }

  lemma {:induction false} UnfoldFits(p: Progress, x: Input, es: seq<Event>)
    requires StageFits(p, x) && OnlyCalls(es)
    ensures StageFits(Unfold(p, x, es), x)
  {
    hide Continued, StageFits;
    if es != [] {
      var before, e := es[..|es| - 1], es[|es| - 1];
      var at := Unfold(p, x, before);
      UnfoldFits(p, x, before);
      if e.Crash? {
        CutOffFits(at, x);
      } else {
        assert !es[|es| - 1].Otherwise?;
        ContinuedFits(at, x, e.databaseNow, e.workerNow);
      }
    }
  }

  lemma CutOffFits(p: Progress, x: Input)
    requires StageFits(p, x)
    ensures StageFits(p.(stage := Entering), x)
  {
    hide Open, Settled, Done;
  }

  // ----- coming to the end -----------------------------------------------------------------

  /** The caller's lease, of this version, is live. */
  predicate Holds(db: Db, x: Input, version: nat, now: Time) {
    && x.operationId in db.leases
    && var lease := db.leases[x.operationId];
    && lease == Lease(x.reservationId, x.caller.credentialId, version, lease.expiresAt, true)
    && now < lease.expiresAt
  }

  predicate IsVerified(db: Db, x: Input) {
    x.reservationId in db.broadcasts && db.broadcasts[x.reservationId].verified
  }

  /** The stage fits, and nothing stands in the way of the stages to come. */
  predicate OnTrack(p: Progress, x: Input, now: Time) {
    && StageFits(p, x)
    && match p.stage
       case Entering => Open(p.db, x) ==> LeaseFree(p.db, x, now)
       case Marking => LeaseFree(p.db, x, now)
       case Verifying => LeaseFree(p.db, x, now)
       case Persisting => LeaseFree(p.db, x, now) && IsVerified(p.db, x)
       case Claiming(_) => LeaseFree(p.db, x, now) && IsVerified(p.db, x)
       case Resolving(_, version) => IsVerified(p.db, x) && Holds(p.db, x, version, now)
       case Failed => false
       case _ => true
  }

  function Left(stage: Stage): nat {
    match stage
    case Entering => 9
    case Marking => 8
    case Verifying => 7
    case Persisting => 6
    case Claiming(_) => 5
    case Resolving(_, _) => 4
    case Replaying(_) => 4
    case Recording => 3
    case Advancing => 2
    case _ => 0
  }

  lemma StepsOn(p: Progress, x: Input, now: Time)
    requires OnTrack(p, x, now) && !p.stage.Returned?
    ensures var next := Continued(p, x, now, now); OnTrack(next, x, now) && Left(next.stage) < Left(p.stage)
  {
    hide Open, Settled, Done, Enter, MarkBroadcast, VerifyBroadcast, PersistChainEvidence, ClaimLease, Resolve,
        InsertEffect, AdvanceTo, Moved, NewResolution, PriorResolution;
    var db := p.db;
    match p.stage
    case Entering =>
      EnterFits(db, x);
      OneOfThree(db, x);
    case Marking => MarkFits(db, x);
    case Verifying => VerifyFits(db, x);
    case Persisting =>
      PersistFits(db, x);
      ReferenceGiven(db, x);
    case Claiming(_) =>
      ClaimFits(db, x, now);
      OpenSeconds(db, x);
    case Resolving(_, version) =>
      ResolveFits(db, x, version, now);
      HeldLeaseAdmits(db, x, version, now);
    case Replaying(_) => ReplayFits(db, x, now);
    case Recording => RecordFits(db, x);
    case Advancing => AdvanceFits(db, x);
  }

  /** Open, settled and done exclude one another. */
  lemma OneOfThree(db: Db, x: Input)
    ensures !(Open(db, x) && Settled(db, x)) && !(Open(db, x) && Done(db, x)) && !(Settled(db, x) && Done(db, x))
  {
    hide InOrder, CanonicallyAuthorized, NoSuchEffect, RowOf;
  }

  lemma ReferenceGiven(db: Db, x: Input)
    requires Open(db, x)
    ensures x.receipt.receiptReference != []
  {
    hide Open;
    OpenSeconds(db, x);
  }

  lemma HeldLeaseAdmits(db: Db, x: Input, version: nat, now: Time)
    requires Holds(db, x, version, now)
    ensures LeaseAdmits(db.leases, NewResolution(x, x.receipt.receiptReference, version), x.caller, now)
  {
    hide CONFIRMED_REASON, REVERTED_REASON;
  }

  /** A call that goes on n times with nothing in between. */
  function Straight(now: Time, n: nat): seq<Event> {
    if n == 0 then [] else Straight(now, n - 1) + [Continue(now, now)]
  }

  lemma Onward(p: Progress, x: Input, now: Time, n: nat)
    ensures Unfold(p, x, Straight(now, n + 1)) == Continued(Unfold(p, x, Straight(now, n)), x, now, now)
  {
    hide Continued;
    var es := Straight(now, n + 1);
    assert es[..|es| - 1] == Straight(now, n);
  }

  lemma {:induction false} ComesToTheEnd(p: Progress, x: Input, now: Time, n: nat) returns (m: nat)
    requires OnTrack(Unfold(p, x, Straight(now, n)), x, now)
    ensures Unfold(p, x, Straight(now, m)).stage.Returned?
    decreases Left(Unfold(p, x, Straight(now, n)).stage)
  {
    hide Continued, OnTrack, Unfold, Straight;
    var at := Unfold(p, x, Straight(now, n));
    if at.stage.Returned? {
      m := n;
    } else {
      Onward(p, x, now, n);
      StepsOn(at, x, now);
      m := ComesToTheEnd(p, x, now, n + 1);
    }
  }

  /** Left alone, a call returns, from wherever the reconciliation stands, once no lease is in the way. */
  lemma Uninterrupted(db: Db, x: Input, now: Time, movements: seq<Movement>) returns (n: nat)
    requires Underway(db, x) && (Open(db, x) ==> LeaseFree(db, x, now))
    ensures Unfold(Progress(db, Entering, movements), x, Straight(now, n)).stage.Returned?
  {
    hide Open, Settled, Done;
    var p := Progress(db, Entering, movements);
    assert Unfold(p, x, Straight(now, 0)) == p;
    n := ComesToTheEnd(p, x, now, 0);
  }

  lemma {:induction false} UnfoldAppend(p: Progress, x: Input, es: seq<Event>, fs: seq<Event>)
    ensures Unfold(p, x, es + fs) == Unfold(Unfold(p, x, es), x, fs)
  {
    hide Happen;
    var all := es + fs;
    if fs == [] {
      assert all == es;
    } else {
      assert all[..|all| - 1] == es + fs[..|fs| - 1];
      UnfoldAppend(p, x, es, fs[..|fs| - 1]);
    }
  }

  /**
   However a reconciliation was cut off, and however often, made again once its last lease has run
   out it returns; and then the evidence has been applied exactly once.
   */
  lemma MadeAgainItReturns(db: Db, x: Input, es: seq<Event>, now: Time) returns (more: seq<Event>)
    requires Open(db, x) && MayBegin(db, x) && OnlyCalls(es)
    requires LeaseFree(Unfold(Progress(db, Entering, []), x, es).db, x, now)
    ensures var r := db.reservations[x.reservationId];
      var p := Unfold(Progress(db, Entering, []), x, es + more);
      && p.stage.Returned?
      && p.movements == [Due(r, x)]
      && x.reservationId in p.db.reservations && p.db.reservations[x.reservationId] == Final(r, x)
      && x.operationId in p.db.operations && p.db.operations[x.operationId].state == L.Reconciled
  {
    hide Open, Settled, Done, Unfold, MayBegin, Final, Due, LeaseFree, Straight;
    var start := Progress(db, Entering, []);
    var cut := Unfold(start, x, es);
    UnfoldFits(start, x, es);
    CutOffFits(cut, x);
    var n := Uninterrupted(cut.db, x, now, cut.movements);
    more := [Crash] + Straight(now, n);
    Restarted(cut, x);
    UnfoldAppend(cut, x, [Crash], Straight(now, n));
    UnfoldAppend(start, x, es, more);
    ReturnedIsComplete(db, x, es + more);
  }

  lemma Restarted(p: Progress, x: Input)
    ensures Unfold(p, x, [Crash]) == Progress(p.db, Entering, p.movements)
  {
    assert [Crash][..0] == [];
    assert Unfold(p, x, []) == p;
  }

  // ----- where a movement comes from -------------------------------------------------------

  /** The attempt is on record, for this transaction, and the network took it or may have. */
  predicate MayHaveBeenSent(db: Db, x: Input, i: nat) {
    && i < |db.attempts|
    && var a := db.attempts[i];
    && a.attemptId == x.attemptId
    && a.operationId == x.operationId
    && a.reservationId == x.reservationId
    && a.transactionHash == x.receipt.transactionHash
    && a.status in {Accepted, Unknown}
  }

  /** The attempt was or may have been sent, and its operation and reservation are there and belong together. */
  predicate IsKnown(db: Db, x: Input) {
    && (exists i | 0 <= i < |db.attempts| :: MayHaveBeenSent(db, x, i))
    && x.operationId in db.operations
    && x.reservationId in db.reservations && db.reservations[x.reservationId].operationId == x.operationId
  }

  /** An attempt on record that resolved the same evidence to the same end. */
  predicate SameResolution(row: RecoveryAttempt, x: Input) {
    && row.operationId == x.operationId && row.reservationId == x.reservationId
    && row.outcome == (if x.success then ConfirmedOutcome else FailedOutcome)
    && row.proofReference == Some(x.receipt.receiptReference)
  }

  lemma KnownIff(db: Db, x: Input)
    ensures IsKnown(db, x) <==> Recoverable(db, x) && Present(db, x)
  {
    if Recoverable(db, x) {
      var i :| 0 <= i < |db.attempts|
        && db.attempts[i].attemptId == x.attemptId
        && (db.attempts[i].operationId, db.attempts[i].reservationId, db.attempts[i].transactionHash)
           == (x.operationId, x.reservationId, x.receipt.transactionHash)
        && (db.attempts[i].status == Accepted || db.attempts[i].status == Unknown);
      assert MayHaveBeenSent(db, x, i);
    }
  }

  /**
   A call returns at once exactly for a reconciled operation whose evidence is on record; it begins
   anew exactly when nothing was resolved, and takes up an attempt exactly when that resolved the
   same evidence to the same end.
   */
  lemma EntranceLaw(db: Db, x: Input)
    ensures var stage := Enter(db, x);
      var reconciled := IsKnown(db, x) && db.operations[x.operationId].state == L.Reconciled;
      var own := IsKnown(db, x) && !reconciled && x.receipt.receiptReference == Lit("receipt:") + x.attemptId.text;
      && (stage == Returned <==>
            && reconciled
            && x.receipt.transactionHash in db.chain
            && db.chain[x.receipt.transactionHash].operationId == x.operationId
            && db.chain[x.receipt.transactionHash].reservationId == x.reservationId)
      && (stage == Marking <==> own && x.attemptId !in db.recoveries)
      && (stage.Replaying? <==>
            own && x.attemptId in db.recoveries && SameResolution(db.recoveries[x.attemptId], x))
      && (stage.Replaying? ==> stage.prior == db.recoveries[x.attemptId])
  {
    hide Recoverable, IsKnown;
    KnownIff(db, x);
    IsKnownRows(db, x);
  }

  lemma IsKnownRows(db: Db, x: Input)
    ensures IsKnown(db, x) ==> x.operationId in db.operations && x.reservationId in db.reservations
  {
    hide MayHaveBeenSent;
  }

  /** A call that goes on from its entrance enters with such an attempt, its own receipt, and an open operation. */
  predicate EntersRightly(p: Progress, x: Input, e: Event) {
    && e.Continue?
    && p.stage.Entering?
    && IsKnown(p.db, x)
    && p.db.operations[x.operationId].state != L.Reconciled
    && x.receipt.receiptReference == Lit("receipt:") + x.attemptId.text
    && (x.attemptId in p.db.recoveries ==> SameResolution(p.db.recoveries[x.attemptId], x))
  }

  predicate IsWorking(stage: Stage) {
    !stage.Entering? && !stage.Returned? && !stage.Failed?
  }

  lemma OnlySomeStages(db: Db, x: Input)
    ensures var stage := Enter(db, x); IsWorking(stage) ==> stage.Marking? || stage.Replaying?
  {
    hide Recoverable, RECEIPT_PREFIX;
  }

  lemma IdleStep(p: Progress, x: Input, e: Event)
    requires p.movements == [] && !IsWorking(p.stage)
    ensures var next := Happen(p, x, e);
      next.movements == [] && (IsWorking(next.stage) ==> EntersRightly(p, x, e))
  {
    hide Enter, MarkBroadcast, VerifyBroadcast, PersistChainEvidence, ClaimLease, Resolve, InsertEffect, AdvanceTo,
        Moved, IsKnown, Reconciler.Apart;
    EntranceLaw(p.db, x);
    OnlySomeStages(p.db, x);
  }

  /**
   Money moves only in a call that entered rightly: for an attempt on record that the network took or
   may have taken, and under that attempt's own receipt.
   */
  lemma {:induction false} MovedForWhatWasSent(db: Db, x: Input, es: seq<Event>) returns (i: nat)
    requires var p := Unfold(Progress(db, Entering, []), x, es); p.movements != [] || IsWorking(p.stage)
    ensures i < |es| && EntersRightly(Unfold(Progress(db, Entering, []), x, es[..i]), x, es[i])
  {
    hide Happen, EntersRightly;
    if es != [] {
      var before, e := es[..|es| - 1], es[|es| - 1];
      var at := Unfold(Progress(db, Entering, []), x, before);
      if at.movements != [] || IsWorking(at.stage) {
        i := MovedForWhatWasSent(db, x, before);
        assert before[..i] == es[..i];
      } else {
        i := |before|;
        IdleStep(at, x, e);
      }
    }
  }
}
