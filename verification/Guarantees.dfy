/** What callers of the protocol may rely on, over every run from an initial database. */
module Guarantees {
  import opened Texts
  import opened Schema
  import opened Money
  import opened Moves
  import opened Evolution
  import opened Invariants
  import Ledger
  import Refinement
  import Approvals
  import Protocol
  import Decimal
  import Json = CanonicalJson
  import JsonCanonicity
  import L = Lifecycle

  // ----- money -----------------------------------------------------------------------------

  /** Every budget is split into parts none of which is negative, and its reservations account for the parts. */
  lemma BudgetsBalance(db: Db, cs: seq<Protocol.Command>, b: Id)
    requires Protocol.Initial(db) && b in db.budgets
    ensures var now := Protocol.Run(db, cs);
      && b in now.budgets
      && var x := now.budgets[b];
      && x.allocation == db.budgets[b].allocation == x.available + x.reserved + x.finalizedSpend
      && x.available >= 0 && x.reserved >= 0 && x.finalizedSpend >= 0
      && x.reserved == Total(now.reservations, b, ReservedPart)
      && x.finalizedSpend == Total(now.reservations, b, SpentPart)
  {
    hide Protocol.Run;
    Always(db, cs);
    RunEvolves(db, cs);
    assert Balanced(Protocol.Run(db, cs).budgets[b], b, Protocol.Run(db, cs).reservations);
  }

  /** Whenever a transaction may return a reservation's amount, the budget still holds all of it. */
  lemma ReturnsAreCovered(db: Db, cs: seq<Protocol.Command>, k: Id)
    requires Protocol.Initial(db)
    requires k in Protocol.Run(db, cs).reservations
      && Protocol.Run(db, cs).reservations[k].status in {Held, Authorized, Broadcast}
    ensures var now := Protocol.Run(db, cs);
      Funded(now, k) && now.reservations[k].amount <= now.budgets[now.reservations[k].budgetId].reserved
  {
    hide Protocol.Run;
    Always(db, cs);
    assert Coherent(Protocol.Run(db, cs).reservations[k]);
    NoUnderflow(Protocol.Run(db, cs), k);
  }

  /** A disputed reservation stays as it is for ever: its row, and so its share of the budget, never changes again. */
  lemma DisputedForever(db: Db, cs: seq<Protocol.Command>, k: Id)
    requires k in db.reservations && db.reservations[k].status == Disputed
    ensures var now := Protocol.Run(db, cs); k in now.reservations && now.reservations[k] == db.reservations[k]
  {
    hide Protocol.Run;
    RunEvolves(db, cs);
  }

  /**
   The value of reservation k is still inside, or it left under the receipt: for its spend, or as a
   revert that spent nothing.
   */
  ghost predicate LeftUnder(db: Db, k: Id, receipt: Receipt) {
    && k in db.reservations
    && var r := db.reservations[k];
    && r.status !in {Held, Authorized, Expired}
    && (r.encumbered ==> r.finalizedSpend == 0)
    && (!r.encumbered ==>
          && k in db.broadcasts && db.broadcasts[k] == BroadcastEvidence(receipt, true)
          && (|| r.proofReference == Some(receipt.receiptReference)
              || (r.finalizedSpend == 0 && exists a | a in db.recoveries ::
                    && (db.recoveries[a].reservationId, db.recoveries[a].outcome, db.recoveries[a].actualSpend) ==
                      (k, FailedOutcome, Some(0))
                    && db.recoveries[a].proofReference == Some(receipt.receiptReference))))
  }

  lemma InvLeftUnder(at: Db, now: Db, k: Id)
    requires Inv(now) && Evolves(at, now) && k in at.broadcasts
    ensures LeftUnder(now, k, at.broadcasts[k].receipt)
  {
    hide Drawings, Authorizations, SignedOnce, LeasesSpent, Balanced, OperationsEvolve, FencesRise, ApprovalsEvolve,
        LeasesEvolve,
         ReservationsEvolve, BudgetsEvolve, PoliciesEvolve, RecordsGrow, TrailGrows;
    assert BroadcastHolds(now, k);
    var r := now.reservations[k];
    assert Coherent(r);
    if !r.encumbered && !Proved(now, k, r.proofReference) {
      var a :| RevertRecorded(now, k, a);
      assert a in now.recoveries;
    }
  }

  /**
   A reservation that was broadcast lets value go only under the receipt stored for it, verified:
   either amount minus spend for a proof that names that receipt, or all of it for a recorded
   revert that names that receipt and spent nothing. It never expires.
   */
  lemma BroadcastValue(db: Db, before: seq<Protocol.Command>, later: seq<Protocol.Command>, k: Id)
    requires Protocol.Initial(db) && k in Protocol.Run(db, before).broadcasts
    ensures LeftUnder(Protocol.Run(Protocol.Run(db, before), later), k, Protocol.Run(db, before).broadcasts[k].receipt)
  {
    hide Protocol.Run, Inv, Evolves, LeftUnder;
    Always(db, before);
    RunKeeps(Protocol.Run(db, before), later);
    RunEvolves(Protocol.Run(db, before), later);
    InvLeftUnder(Protocol.Run(db, before), Protocol.Run(Protocol.Run(db, before), later), k);
  }

  // ----- approvals -------------------------------------------------------------------------

  /** One approval yields at most one authorization, and one reservation or one operation backs at most one. */
  lemma OneAuthorization(db: Db, cs: seq<Protocol.Command>, j: Id, k: Id)
    requires Protocol.Initial(db)
    requires j in Protocol.Run(db, cs).authorizations && k in Protocol.Run(db, cs).authorizations
    ensures var now := Protocol.Run(db, cs);
      var y, z := now.authorizations[j], now.authorizations[k];
      (y.source.OwnerApproval? && y.source == z.source) || y.bound.reservationId == z.bound.reservationId
        || y.bound.operationId == z.bound.operationId
      ==> j == k
  {
    hide Protocol.Run, Conserved, SignedOnce, BroadcastsHold, LeasesSpent, Drawn;
    Always(db, cs);
    var now := Protocol.Run(db, cs);
    assert AuthorizationHolds(now, j) && AuthorizationHolds(now, k);
  }

  /** Rejected, expired, revoked and consumed are final. */
  lemma FinalForever(db: Db, cs: seq<Protocol.Command>, k: Id)
    requires k in db.approvals && IsFinal(db.approvals[k].status)
    ensures var now := Protocol.Run(db, cs); k in now.approvals && now.approvals[k] == db.approvals[k]
  {
    hide Protocol.Run;
    RunEvolves(db, cs);
  }

  /** Approval k, its operation and its reservation moved together, and one authorization for them was issued. */
  predicate MovedTogether(db: Db, next: Db, k: Id, id: Id, z: Authorization)
    requires k in db.approvals
  {
    var b := db.approvals[k].bound;
    && db.approvals[k].status == Approved
    && next.approvals == db.approvals[k := db.approvals[k].(status := Consumed)]
    && b.operationId in db.operations && db.operations[b.operationId].state == L.AwaitingApproval
    && next.operations == db.operations[b.operationId := db.operations[b.operationId].(state := L.Authorized)]
    && b.reservationId in db.reservations && db.reservations[b.reservationId].status == Held
    && next.reservations == db.reservations[b.reservationId := db.reservations[b.reservationId].(status := Authorized)]
    && next.budgets == db.budgets
    && id !in db.authorizations
    && next.authorizations == db.authorizations[id := z]
    && z.source == OwnerApproval(k) && z.bound == b
  }

  /** Nothing was consumed, and nothing became authorized. */
  predicate NothingMoved(db: Db, next: Db, k: Id)
    requires k in db.approvals
  {
    && next.authorizations == db.authorizations
    && k in next.approvals && (next.approvals[k].status == Consumed ==> db.approvals[k].status == Consumed)
    && next.operations.Keys == db.operations.Keys
    && (forall o | o in db.operations :: next.operations[o].state == L.Authorized ==>
      db.operations[o].state == L.Authorized)
    && next.reservations.Keys == db.reservations.Keys
    && (forall r | r in db.reservations :: next.reservations[r].status == Authorized ==>
      db.reservations[r].status == Authorized)
  }

  lemma CloseMovesNothing(db: Db, k: Id, to: L.State, money: ReservationStatus, status: ApprovalStatus,
      approver: Option<Id>)
    requires k in db.approvals && Approvals.Bound(db, db.approvals[k].bound)
    requires to != L.Authorized && money != Authorized && status != Consumed
    ensures NothingMoved(db, Approvals.Close(db, k, to, money, status, approver), k)
  {}

  /** The fences play no part in what moves. */
  lemma FencesAside(db: Db, locked: Db, next: Db, k: Id)
    requires k in db.approvals && locked == db.(fences := locked.fences)
    ensures NothingMoved(db, locked, k)
    ensures NothingMoved(locked, next, k) ==> NothingMoved(db, next, k)
  {}

  lemma TogetherAside(db: Db, locked: Db, next: Db, k: Id, id: Id, z: Authorization)
    requires k in db.approvals && locked == db.(fences := locked.fences)
    ensures MovedTogether(locked, next, k, id, z) ==> MovedTogether(db, next, k, id, z)
  {}

  lemma GrantMovesTogether(db: Db, next: Db, k: Id, id: Id, z: Authorization)
    requires k in db.approvals && db.approvals[k].status == Approved && Approvals.Bound(db, z.bound)
      && z.bound == db.approvals[k].bound
    requires Approvals.Awaiting(db, z.bound) && id !in db.authorizations && z.source == OwnerApproval(k)
    requires next == db.(fences := next.fences)
    ensures MovedTogether(db,
      Approvals.Authorize(next, id, z).(approvals := next.approvals[k := db.approvals[k].(status := Consumed)]), k, id,
      z)
  {}

  lemma LapsedApart(db: Db, k: Id, actor: Id, now: Time)
    requires Approvals.IsLoaded(db, k)
    ensures var standing := Approvals.StandingOf(db, k, actor, now);
      standing.Lapsed? ==> NothingMoved(db, standing.db, k)
  {
    hide Approvals.Close, Approvals.FencesHold, Ledger.Superseded, Approvals.Coalesce, NothingMoved;
    var a := db.approvals[k];
    FencesAside(db, db, db, k);
    CloseMovesNothing(db, k, L.RevalidationRequired, Released, ApprovalRevoked,
      Approvals.Coalesce(a.approverId, actor));
    CloseMovesNothing(db, k, L.Expired, Expired, ApprovalExpired, a.approverId);
  }

  lemma LoadedTogether(db: Db, k: Id, claim: Approvals.Claim, consumer: Id, actor: Id, now: Time)
    requires Approvals.IsLoaded(db, k)
    ensures var tx := Approvals.ConsumeLoaded(db, k, claim, consumer, actor, now);
      tx.Commit? ==>
        if tx.value.Granted?
        then MovedTogether(db, tx.db, k, tx.value.authorizationId, tx.value.authorization)
          && tx.value.authorization.expiresAt > now
        else NothingMoved(db, tx.db, k)
  {
    hide Approvals.Agrees, Approvals.StandingOf, Approvals.Authorize, MovedTogether, NothingMoved;
    var tx := Approvals.ConsumeLoaded(db, k, claim, consumer, actor, now);
    if tx.Commit? {
      if tx.value.Granted? {
        Refinement.StandsFacts(db, k, actor, now);
        GrantMovesTogether(db, db, k, tx.value.authorizationId, tx.value.authorization);
      } else {
        LapsedApart(db, k, actor, now);
      }
    }
  }

  /**
   Consuming moves approval, operation and reservation together and issues one authorization, or
   none of these happens.
   */
  lemma ConsumedTogether(db: Db, k: Id, claim: Approvals.Claim, consumer: Id, actor: Id, now: Time)
    requires k in db.approvals
    ensures var tx := Approvals.Consume(db, k, claim, consumer, actor, now);
      if tx.Commit? && tx.value.Granted?
      then MovedTogether(db, tx.db, k, tx.value.authorizationId, tx.value.authorization)
        && tx.value.authorization.expiresAt > now
      else NothingMoved(db, After(db, tx), k)
  {
    hide Approvals.Load, Approvals.ConsumeLoaded, MovedTogether, NothingMoved;
    FencesAside(db, db, db, k);
    var loaded := Approvals.Load(db, k);
    if loaded.Ok? {
      LoadedTogether(loaded.value, k, claim, consumer, actor, now);
      var tx := Approvals.ConsumeLoaded(loaded.value, k, claim, consumer, actor, now);
      if tx.Commit? && tx.value.Granted? {
        TogetherAside(db, loaded.value, tx.db, k, tx.value.authorizationId, tx.value.authorization);
      } else if tx.Commit? {
        FencesAside(db, loaded.value, tx.db, k);
      }
    }
  }

  // ----- recovery --------------------------------------------------------------------------

  lemma NewLease(db: Db, o: Id, k: Id, seconds: int, caller: Caller, now: Time)
    ensures var tx := Ledger.ClaimLease(db, o, k, seconds, caller, now);
      tx.Commit? ==>
        && o in tx.db.leases && tx.db.leases[o] == tx.value
        && (o in db.leases ==> tx.value.version > db.leases[o].version)
  {}

  /** A claim of a lease, as a worker makes it. */
  datatype LeaseClaim = LeaseClaim(operationId: Id, reservationId: Id, seconds: int, caller: Caller, now: Time)

  function Claimed(db: Db, c: LeaseClaim): Tx<Lease> {
    Ledger.ClaimLease(db, c.operationId, c.reservationId, c.seconds, c.caller, c.now)
  }

  /**
   Of two claims of one operation that both commit, the later has the larger version, whatever
   happens between them.
   */
  lemma LaterLeaseIsNewer(db: Db, earlier: LeaseClaim, between: seq<Protocol.Command>, later: LeaseClaim)
    requires earlier.operationId == later.operationId && Claimed(db, earlier).Commit?
    requires Claimed(Protocol.Run(Claimed(db, earlier).db, between), later).Commit?
    ensures Claimed(Protocol.Run(Claimed(db, earlier).db, between), later).value.version > Claimed(db,
      earlier).value.version
  {
    hide Protocol.Run, Ledger.ClaimLease;
    var e, l := earlier, later;
    var first := Claimed(db, earlier);
    NewLease(db, e.operationId, e.reservationId, e.seconds, e.caller, e.now);
    RunEvolves(first.db, between);
    NewLease(Protocol.Run(first.db, between), l.operationId, l.reservationId, l.seconds, l.caller, l.now);
  }

  lemma ResolvesUnderNewest(db: Db, q: Resolution, caller: Caller, now: Time)
    ensures var tx := Ledger.Resolve(db, q, caller, now);
      tx.Commit? && q.attemptId !in db.recoveries ==>
        && q.operationId in db.leases
        && db.leases[q.operationId].version == q.leaseVersion
        && db.leases[q.operationId].active
  {}

  lemma ReplayChangesNothing(db: Db, q: Resolution, caller: Caller, now: Time)
    requires q.attemptId in db.recoveries
    ensures var tx := Ledger.Resolve(db, q, caller, now);
      && After(db, tx) == db
      && (tx.Commit? ==>
            db.recoveries[q.attemptId].resolutionHash ==
              ResolutionDigest(caller, q, Ledger.StoredReceipt(db, q.reservationId)))
  {}

  /** The lease version has been overtaken, or a resolution was made under it. */
  predicate LeaseIsStale(db: Db, o: Id, version: nat) {
    || (o in db.leases && db.leases[o].version > version)
    || (exists a | a in db.recoveries :: db.recoveries[a].operationId == o && db.recoveries[a].leaseVersion == version)
  }

  /**
   A worker under a stale lease version never changes anything again, in any later state and
   whatever either clock says: its call fails, or it repeats, word for word, an attempt on record.
   */
  lemma StaleWorkerIsFenced(
    db: Db, before: seq<Protocol.Command>, later: seq<Protocol.Command>, q: Resolution, caller: Caller, clock: Time)
    requires Protocol.Initial(db) && LeaseIsStale(Protocol.Run(db, before), q.operationId, q.leaseVersion)
    ensures
      var now := Protocol.Run(Protocol.Run(db, before), later);
      var tx := Ledger.Resolve(now, q, caller, clock);
      && After(now, tx) == now
      && (tx.Commit? ==>
            && q.attemptId in now.recoveries
            && now.recoveries[q.attemptId].resolutionHash ==
              ResolutionDigest(caller, q, Ledger.StoredReceipt(now, q.reservationId)))
  {
    hide Protocol.Run, Inv, Evolves, LeaseIsStale, Ledger.Resolve;
    var at := Protocol.Run(db, before);
    var now := Protocol.Run(at, later);
    Always(db, before);
    RunKeeps(at, later);
    RunEvolves(at, later);
    StaysStale(at, now, q.operationId, q.leaseVersion);
    StaleIsSpent(now, q.operationId, q.leaseVersion);
    ResolvesUnderNewest(now, q, caller, clock);
    if q.attemptId in now.recoveries {
      ReplayChangesNothing(now, q, caller, clock);
    }
  }

  lemma StaysStale(db: Db, next: Db, o: Id, version: nat)
    requires Evolves(db, next) && LeaseIsStale(db, o, version)
    ensures LeaseIsStale(next, o, version)
  {
    if !(o in db.leases && db.leases[o].version > version) {
      var a :| a in db.recoveries && db.recoveries[a].operationId == o && db.recoveries[a].leaseVersion == version;
      assert a in next.recoveries && next.recoveries[a] == db.recoveries[a];
    }
  }

  lemma StaleIsSpent(db: Db, o: Id, version: nat)
    requires Inv(db) && LeaseIsStale(db, o, version)
    ensures o in db.leases ==> !(db.leases[o].version == version && db.leases[o].active)
  {
    hide Conserved, Drawings, Authorizations, SignedOnce, BroadcastsHold;
    assert UnderSpentLeases(db.recoveries, db.leases);
  }

  /** Each lease version of an operation yields at most one resolution. */
  lemma OneResolutionPerLease(db: Db, cs: seq<Protocol.Command>, a: Id, b: Id)
    requires Protocol.Initial(db)
    requires a in Protocol.Run(db, cs).recoveries && b in Protocol.Run(db, cs).recoveries
    requires var now := Protocol.Run(db, cs);
      (now.recoveries[a].operationId, now.recoveries[a].leaseVersion) ==
        (now.recoveries[b].operationId, now.recoveries[b].leaseVersion)
    ensures a == b
  {
    hide Protocol.Run, Conserved, Drawings, Authorizations, SignedOnce, BroadcastsHold;
    Always(db, cs);
  }

  // ----- reserving once --------------------------------------------------------------------

  lemma InstantsDiffer(s: Time, t: Time)
    requires Ledger.InstantText(s) == Ledger.InstantText(t)
    ensures s == t
  {
    hide Decimal.Render, Decimal.Value;
    var a, b := Decimal.Render(if s < 0 then -s else s), Decimal.Render(if t < 0 then -t else t);
    assert Decimal.IsDigit(a[0]) && Decimal.IsDigit(b[0]);
    if s < 0 && t < 0 {
      assert a == Ledger.InstantText(s)[1..] && b == Ledger.InstantText(t)[1..];
    }
  }

  /** The fields a request is bound by, apart from the payload. */
  function BoundFields(q: Ledger.ReserveRequest): (Text, Id, Id, Time) {
    (q.amountAtomic, q.budgetId, q.operationId, q.expiresAt)
  }

  lemma SameMember(ms: seq<Json.Member>, ns: seq<Json.Member>, i: nat)
    requires Json.Same(Json.Obj(ms), Json.Obj(ns)) && i < |ms| && i < |ns| && ms[i].key == ns[i].key
    ensures Json.Same(ms[i].value, ns[i].value)
  {}

  lemma SameText(s: Text, t: Text)
    requires Json.Same(Json.Str(s), Json.Str(t))
    ensures s == t
  {}

  lemma RequestsAgree(p: Ledger.ReserveRequest, q: Ledger.ReserveRequest)
    requires Json.Same(Ledger.BoundPayload(p.amountAtomic, p), Ledger.BoundPayload(q.amountAtomic, q))
    ensures BoundFields(p) == BoundFields(q) && Json.Same(p.payload, q.payload)
  {
    hide Json.Same, Lit, Ledger.InstantText;
    var v, w := Ledger.BoundPayload(p.amountAtomic, p), Ledger.BoundPayload(q.amountAtomic, q);
    SameMember(v.members, w.members, 0);
    SameMember(v.members, w.members, 1);
    var x, y := v.members[0].value, w.members[0].value;
    SameMember(x.members, y.members, 0);
    SameMember(x.members, y.members, 1);
    SameMember(x.members, y.members, 2);
    SameMember(x.members, y.members, 3);
    SameText(p.amountAtomic, q.amountAtomic);
    SameText(p.budgetId.text, q.budgetId.text);
    SameText(Ledger.InstantText(p.expiresAt), Ledger.InstantText(q.expiresAt));
    SameText(p.operationId.text, q.operationId.text);
    InstantsDiffer(p.expiresAt, q.expiresAt);
  }

  lemma BoundPayloadWellFormed(q: Ledger.ReserveRequest)
    requires Json.WellFormed(q.payload)
    ensures Json.WellFormed(Ledger.BoundPayload(q.amountAtomic, q))
  {
    var v := Ledger.BoundPayload(q.amountAtomic, q);
    assert v.members[0].key[0] != v.members[1].key[0];
    assert Json.WellFormed(v.members[0].value);
  }

  /** Equal hashes mean equal requests, with payloads compared as JSON values. */
  lemma HashBindsRequest(p: Ledger.ReserveRequest, q: Ledger.ReserveRequest)
    requires Json.WellFormed(p.payload) && Json.WellFormed(q.payload)
    requires Ledger.PayloadHash(p).Some? && Ledger.PayloadHash(p) == Ledger.PayloadHash(q)
    ensures BoundFields(p) == BoundFields(q) && Json.Same(p.payload, q.payload)
  {
    hide Ledger.BoundPayload, Json.Same, Json.Print;
    BoundPayloadWellFormed(p);
    BoundPayloadWellFormed(q);
    JsonCanonicity.Canonical(Ledger.BoundPayload(p.amountAtomic, p), Ledger.BoundPayload(q.amountAtomic, q));
    RequestsAgree(p, q);
  }

  /** What a committed reserve call leaves under its key. */
  lemma ReserveLeavesRecord(db: Db, q: Ledger.ReserveRequest)
    ensures var tx := Ledger.Reserve(db, q);
      tx.Commit? ==>
        && q.idempotencyKey in tx.db.idempotency
        && Ledger.PayloadHash(q) == Some(tx.db.idempotency[q.idempotencyKey].payloadHash)
        && tx.db.idempotency[q.idempotencyKey].reservationId in tx.db.reservations
        && tx.value == tx.db.reservations[tx.db.idempotency[q.idempotencyKey].reservationId]
        && (q.idempotencyKey in db.idempotency ==> tx.db == db)
  {
    hide Ledger.PayloadHash, Decimal.IsPositiveAtomic, Decimal.Value;
  }

  /** Reservation id is the only one under a key. */
  predicate OnlyUnderKey(db: Db, key: Id, id: Id) {
    && id in db.reservations
    && forall k | k in db.reservations :: db.reservations[k].idempotencyKey == key ==> k == id
  }

  /** The call changed nothing and returned reservation id, and both requests bind the same fields and payload. */
  ghost predicate Repeats(now: Db, again: Tx<Reservation>, id: Id, p: Ledger.ReserveRequest, q: Ledger.ReserveRequest) {
    && again.Commit?
    && again.db == now
    && id in now.reservations && again.value == now.reservations[id]
    && BoundFields(p) == BoundFields(q)
    && Json.Same(p.payload, q.payload)
  }

  /**
   Once a key was used, every later call with it either fails or returns the one reservation
   under that key without touching anything, and it only succeeds when every bound field and the
   payload are the same.
   */
  lemma ReservedOnce(db: Db, before: seq<Protocol.Command>, q: Ledger.ReserveRequest, later: seq<Protocol.Command>,
      p: Ledger.ReserveRequest)
    returns (id: Id)
    requires Protocol.Initial(db) && Json.WellFormed(p.payload) && Json.WellFormed(q.payload)
    requires Ledger.Reserve(Protocol.Run(db, before), q).Commit? && p.idempotencyKey == q.idempotencyKey
    ensures
      var first := Ledger.Reserve(Protocol.Run(db, before), q);
      var now := Protocol.Run(first.db, later);
      var again := Ledger.Reserve(now, p);
      && OnlyUnderKey(first.db, q.idempotencyKey, id) && first.value == first.db.reservations[id]
      && OnlyUnderKey(now, q.idempotencyKey, id)
      && (again.Commit? ==> Repeats(now, again, id, p, q))
  {
    hide Protocol.Run, Ledger.Reserve, Json.Same, Conserved, Authorizations, SignedOnce, BroadcastsHold, LeasesSpent,
        Ledger.PayloadHash;
    var at := Protocol.Run(db, before);
    var first := Ledger.Reserve(at, q);
    var now := Protocol.Run(first.db, later);
    Always(db, before);
    StepKeeps(at, Protocol.OfLedger(Protocol.Reserve(q)));
    assert Protocol.Apply(at, Protocol.OfLedger(Protocol.Reserve(q))) == first.db;
    RunKeeps(first.db, later);
    RunEvolves(first.db, later);
    ReserveLeavesRecord(at, q);
    ReserveLeavesRecord(now, p);
    id := first.db.idempotency[q.idempotencyKey].reservationId;
    if Ledger.Reserve(now, p).Commit? {
      HashBindsRequest(p, q);
    }
  }
}
