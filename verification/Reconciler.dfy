/**
 Reconciling verified chain evidence (adapters/local-anvil/src/reconciliation.ts): a call is a
 sequence of transactions that may be cut short anywhere and repeated any number of times.
 */
module Reconciler {
  import opened Texts
  import opened Schema
  import opened Ledger
  import opened Execution
  import L = Lifecycle

  /** A call with evidence the chain verifier has accepted: spend is what the receipt proves was spent. */
  datatype Input = Input(
    attemptId: Id, operationId: Id, reservationId: Id, envelopeId: Id,
    receipt: Receipt, success: bool, spend: nat, caller: Caller, leaseSeconds: int)

  datatype Stage =
    | Entering
    | Marking
    | Verifying
    | Persisting
    | Claiming(proof: Text)
    | Resolving(proof: Text, leaseVersion: nat)
    | Replaying(prior: RecoveryAttempt)
    | Recording
    | Advancing
    | Returned
    | Failed

  /** What one transaction did to the reservation's budget. */
  datatype Movement = Movement(available: int, reserved: int, finalizedSpend: int)

  datatype Progress = Progress(db: Db, stage: Stage, movements: seq<Movement>)

  /** The call goes on, or is cut off and will be made again, or something else happens in the database. */
  datatype Event = Continue(databaseNow: Time, workerNow: Time) | Crash | Otherwise(db: Db)

  const RECEIPT_PREFIX: Text := Lit("receipt:")
  const CONFIRMED_REASON: Text := Lit("matching canonical ") + Lit("transaction, receipt, ")
    + Lit("block, and Transfer ") + Lit("evidence")
  const REVERTED_REASON: Text := Lit("matching status-0 ") + Lit("receipt proves the ") + Lit("transfer reverted")

  /** loadBroadcastBinding: the durable attempt is the one the caller expects and may be recovered. */
  predicate Recoverable(db: Db, x: Input) {
    exists i :: 0 <= i < |db.attempts|
      && db.attempts[i].attemptId == x.attemptId
      && (db.attempts[i].operationId, db.attempts[i].reservationId, db.attempts[i].transactionHash)
         == (x.operationId, x.reservationId, x.receipt.transactionHash)
      && (db.attempts[i].status == Accepted || db.attempts[i].status == Unknown)
  }

  /** loadOperationBinding. */
  predicate Present(db: Db, x: Input) {
    && x.operationId in db.operations
    && x.reservationId in db.reservations
    && db.reservations[x.reservationId].operationId == x.operationId
  }

  predicate HasChainEvidence(db: Db, x: Input) {
    && x.receipt.transactionHash in db.chain
    && var e := db.chain[x.receipt.transactionHash];
    (e.operationId, e.reservationId) == (x.operationId, x.reservationId)
  }

  function OutcomeOf(x: Input): Outcome {
    if x.success then ConfirmedOutcome else FailedOutcome
  }

  /** The resolution a call asks for once it holds a lease. */
  function NewResolution(x: Input, proof: Text, leaseVersion: nat): Resolution {
    Resolution(x.attemptId, x.operationId, x.reservationId, leaseVersion, OutcomeOf(x),
               if x.success then CONFIRMED_REASON else REVERTED_REASON,
               Some(if x.success then x.spend else 0), Some(proof), !x.success)
  }

  /** loadResolvedRecovery: the same resolution, read back. */
  function PriorResolution(x: Input, row: RecoveryAttempt): Resolution {
    Resolution(x.attemptId, row.operationId, row.reservationId, row.leaseVersion, row.outcome, row.reason,
               row.actualSpend, row.proofReference, row.outcome == FailedOutcome)
  }

  function Enter(db: Db, x: Input): Stage {
    if !Recoverable(db, x) || !Present(db, x) then Failed
    else if db.operations[x.operationId].state == L.Reconciled
      then (if HasChainEvidence(db, x) then Returned else Failed)
    else if x.receipt.receiptReference != RECEIPT_PREFIX + x.attemptId.text then Failed
    else if x.attemptId in db.recoveries then
      var prior := db.recoveries[x.attemptId];
      if (prior.operationId, prior.reservationId) != (x.operationId, x.reservationId) then Failed
      else if prior.outcome != OutcomeOf(x) || prior.proofReference != Some(x.receipt.receiptReference) then Failed
      else Replaying(prior)
    else Marking
  }

  /** The reservation's budget before and after a transaction. */
  function Moved(db: Db, next: Db, x: Input): seq<Movement> {
    if !Funded(db, x.reservationId) || db.reservations[x.reservationId].budgetId !in next.budgets then []
    else
      var b, c := db.budgets[db.reservations[x.reservationId].budgetId],
        next.budgets[db.reservations[x.reservationId].budgetId];
      var m := Movement(c.available - b.available, c.reserved - b.reserved, c.finalizedSpend - b.finalizedSpend);
      if m == Movement(0, 0, 0) then [] else [m]
  }

  /** The call goes on to a stage after its transaction committed, and fails if it aborted. */
  function Then<T>(p: Progress, x: Input, tx: Tx<T>, stage: Stage): Progress {
    if tx.Abort? then p.(stage := Failed)
    else Progress(tx.db, stage, p.movements + Moved(p.db, tx.db, x))
  }

  function AfterResolution(x: Input): Stage {
    if x.success then Recording else Advancing
  }

  function Continued(p: Progress, x: Input, databaseNow: Time, workerNow: Time): Progress {
    var db, k, o := p.db, x.reservationId, x.operationId;
    match p.stage
    case Entering => p.(stage := Enter(db, x))
    case Marking => Then(p, x, MarkBroadcast(db, k, x.receipt, x.caller), Verifying)
    case Verifying => Then(p, x, VerifyBroadcast(db, k, x.caller), Persisting)
    case Persisting =>
      if k !in db.broadcasts || db.broadcasts[k].receipt.receiptReference == [] then p.(stage := Failed)
      else Then(p, x, PersistChainEvidence(db, x.receipt.transactionHash, ChainEvidence(o, k, x.envelopeId)),
                Claiming(db.broadcasts[k].receipt.receiptReference))
    case Claiming(proof) =>
      var tx := ClaimLease(db, o, k, x.leaseSeconds, x.caller, databaseNow);
      Then(p, x, tx, if tx.Commit? then Resolving(proof, tx.value.version) else Failed)
    case Resolving(proof, version) =>
      Then(p, x, Resolve(db, NewResolution(x, proof, version), x.caller, workerNow), AfterResolution(x))
    case Replaying(prior) =>
      Then(p, x, Resolve(db, PriorResolution(x, prior), x.caller, workerNow), AfterResolution(x))
    case Recording => Then(p, x, InsertEffect(db, o, Effect(k, x.envelopeId, x.receipt.transactionHash, x.spend)),
      Advancing)
    case Advancing => Then(p, x, AdvanceTo(db, o, L.Reconciled, x.success), Returned)
    case Returned => p.(stage := Entering)
    case Failed => p.(stage := Entering)
  }

  function Happen(p: Progress, x: Input, e: Event): Progress {
    match e
    case Continue(databaseNow, workerNow) => Continued(p, x, databaseNow, workerNow)
    case Crash => p.(stage := Entering)
    case Otherwise(next) => if Apart(p.db, next, x) then p.(db := next) else p
  }

  function Unfold(p: Progress, x: Input, es: seq<Event>): Progress {
    if es == [] then p else Happen(Unfold(p, x, es[..|es| - 1]), x, es[|es| - 1])
  }

  /**
   Only reconciliation acts on the reservation: whatever else changes, its row, its attempt and its
   effect do not, the operation is not reconciled by others, and the broadcast keeps its receipt.
   */
  predicate Apart(db: Db, next: Db, x: Input) {
    && x.reservationId in db.reservations && x.reservationId in next.reservations
    && next.reservations[x.reservationId] == db.reservations[x.reservationId]
    && (db.reservations[x.reservationId].budgetId in db.budgets ==>
      db.reservations[x.reservationId].budgetId in next.budgets)
    && x.operationId in db.operations && x.operationId in next.operations
    && (next.operations[x.operationId].state == L.Reconciled <==> db.operations[x.operationId].state == L.Reconciled)
    && (x.reservationId in db.broadcasts ==>
          x.reservationId in next.broadcasts && next.broadcasts[x.reservationId].receipt ==
            db.broadcasts[x.reservationId].receipt)
    && SameRow(db.recoveries, next.recoveries, x.attemptId)
    && SameRow(db.effects, next.effects, x.operationId)
  }

  predicate SameRow<V(==)>(before: map<Id, V>, after: map<Id, V>, k: Id) {
    (k in before <==> k in after) && (k in before ==> after[k] == before[k])
  }

  // ----- what reconciliation is for --------------------------------------------------------

  /** The reservation's row once the evidence has been applied. */
  function Final(r: Reservation, x: Input): Reservation {
    if x.success then r.(status := Finalized, finalizedSpend := x.spend,
      proofReference := Some(x.receipt.receiptReference), encumbered := false)
    else r.(status := Released, encumbered := false)
  }

  /** What applying the evidence moves, once. */
  function Due(r: Reservation, x: Input): Movement {
    var spend := if x.success then x.spend else 0;
    Movement(r.amount - spend, 0 - r.amount, spend)
  }

  /** Nothing has been applied yet. */
  predicate Unresolved(p: Progress, x: Input, r: Reservation) {
    && Present(p.db, x)
    && Funded(p.db, x.reservationId)
    && (p.db.reservations[x.reservationId] == r.(status := Authorized)
      || p.db.reservations[x.reservationId] == r.(status := Broadcast))
    && x.attemptId !in p.db.recoveries
    && x.operationId !in p.db.effects
    && p.db.operations[x.operationId].state != L.Reconciled
    && p.movements == []
  }

  /** The evidence has been applied, once. */
  predicate Resolved(p: Progress, x: Input, r: Reservation) {
    && Present(p.db, x)
    && Funded(p.db, x.reservationId)
    && x.attemptId in p.db.recoveries
    && p.db.reservations[x.reservationId] == Final(r, x)
    && p.movements == [Due(r, x)]
    && (x.operationId in p.db.effects ==>
          x.success && p.db.effects[x.operationId] ==
            Effect(x.reservationId, x.envelopeId, x.receipt.transactionHash, x.spend))
    && (x.success && p.db.operations[x.operationId].state == L.Reconciled ==> x.operationId in p.db.effects)
  }

  /** What the stage of a call says about the database. */
  predicate StageHolds(p: Progress, x: Input, r: Reservation) {
    match p.stage
    case Marking => Unresolved(p, x, r)
    case Verifying => Unresolved(p, x, r) && Announced(p.db, x)
    case Persisting => Unresolved(p, x, r) && Announced(p.db, x)
    case Claiming(proof) => Unresolved(p, x, r) && Announced(p.db, x) && proof == x.receipt.receiptReference
    case Resolving(proof, _) => Unresolved(p, x, r) && Announced(p.db, x) && proof == x.receipt.receiptReference
    case Replaying(prior) => Resolved(p, x, r)
    case Recording => Resolved(p, x, r) && x.success
    case Advancing => Resolved(p, x, r) && (x.success ==> x.operationId in p.db.effects)
    case Returned => Resolved(p, x, r) && p.db.operations[x.operationId].state == L.Reconciled
    case _ => true
  }

  /** The reservation is broadcast under the caller's receipt. */
  predicate Announced(db: Db, x: Input) {
    && x.reservationId in db.reservations && db.reservations[x.reservationId].status == Broadcast
    && x.reservationId in db.broadcasts && db.broadcasts[x.reservationId].receipt == x.receipt
  }

  predicate Keeps(p: Progress, x: Input, r: Reservation) {
    (Unresolved(p, x, r) || Resolved(p, x, r)) && StageHolds(p, x, r)
  }

  // ----- what the transactions do here -----------------------------------------------------

  /** The tables the argument is about, other than reservations and broadcasts. */
  predicate Untouched(db: Db, next: Db) {
    && next.budgets == db.budgets && next.recoveries == db.recoveries && next.effects == db.effects
      && next.operations == db.operations
  }

  lemma MarkingEffect(db: Db, x: Input)
    ensures var tx := MarkBroadcast(db, x.reservationId, x.receipt, x.caller);
      tx.Commit? ==>
        && Untouched(db, tx.db)
        && x.reservationId in db.reservations
        && tx.db.reservations ==
          db.reservations[x.reservationId := db.reservations[x.reservationId].(status := Broadcast)]
        && Announced(tx.db, x)
  {
    hide CanonicallyAuthorized;
    if MarkBroadcast(db, x.reservationId, x.receipt, x.caller).Commit?
      && db.reservations[x.reservationId].status == Broadcast {
      assert db.reservations == db.reservations[x.reservationId := db.reservations[x.reservationId]];
    }
  }

  lemma VerifyingEffect(db: Db, x: Input)
    ensures var tx := VerifyBroadcast(db, x.reservationId, x.caller);
      tx.Commit? && Announced(db, x) ==>
        Untouched(db, tx.db) && tx.db.reservations == db.reservations && Announced(tx.db, x)
  {}

  /** Applying a resolution makes the reservation final and moves what is due. */
  predicate Applied(db: Db, next: Db, x: Input) {
    && Funded(db, x.reservationId)
    && next.budgets.Keys == db.budgets.Keys
    && next.reservations == db.reservations[x.reservationId := Final(db.reservations[x.reservationId], x)]
    && next.recoveries == db.recoveries && next.effects == db.effects && next.operations == db.operations
    && Moved(db, next, x) == [Due(db.reservations[x.reservationId], x)]
  }

  lemma SettleApplies(db: Db, x: Input)
    requires Announced(db, x) && Funded(db, x.reservationId) && db.reservations[x.reservationId].amount > 0 && x.success
    ensures Applied(db, Settle(Verify(db, x.reservationId), x.reservationId, x.spend, x.receipt.receiptReference), x)
  {}

  lemma ReturnApplies(db: Db, x: Input)
    requires Funded(db, x.reservationId) && db.reservations[x.reservationId].amount > 0 && !x.success
    ensures Applied(db, GiveBack(db, x.reservationId, Released), x)
  {}

  lemma OutcomeEffect(db: Db, x: Input, q: Resolution)
    requires Announced(db, x) && Funded(db, x.reservationId) && db.reservations[x.reservationId].amount > 0
    requires q == NewResolution(x, x.receipt.receiptReference, q.leaseVersion)
    ensures var applied := ApplyOutcome(db, q); applied.Ok? ==> Applied(db, applied.value, x)
  {
    hide CONFIRMED_REASON, REVERTED_REASON, Applied, Settle, GiveBack;
    if x.success {
      SettleApplies(db, x);
    } else {
      ReturnApplies(db, x);
    }
  }

  /** A new resolution applies the evidence. */
  lemma ResolvingEffect(db: Db, x: Input, version: nat, now: Time)
    requires Announced(db, x) && x.attemptId !in db.recoveries && db.reservations[x.reservationId].amount > 0
    ensures var tx := Resolve(db, NewResolution(x, x.receipt.receiptReference, version), x.caller, now);
      tx.Commit? ==>
        && Funded(db, x.reservationId)
        && tx.db.budgets.Keys == db.budgets.Keys
        && tx.db.reservations == db.reservations[x.reservationId := Final(db.reservations[x.reservationId], x)]
        && tx.db.effects == db.effects && tx.db.operations == db.operations
        && x.attemptId in tx.db.recoveries
        && Moved(db, tx.db, x) == [Due(db.reservations[x.reservationId], x)]
  {
    hide CONFIRMED_REASON, REVERTED_REASON, ApplyOutcome, Final, Due, Joined, Consistent;
    var q := NewResolution(x, x.receipt.receiptReference, version);
    if Resolve(db, q, x.caller, now).Commit? && q.operationId in db.leases {
      var row := AttemptRow(q, x.caller, ResolutionDigest(x.caller, q, StoredReceipt(db, q.reservationId)));
      OutcomeEffect(Recorded(db, q.attemptId, row), x, q);
    }
  }

  lemma ReplayingEffect(db: Db, x: Input, prior: RecoveryAttempt, now: Time)
    requires x.attemptId in db.recoveries
    ensures var tx := Resolve(db, PriorResolution(x, prior), x.caller, now); tx.Commit? ==> tx.db == db
  {
    hide ApplyOutcome, LeaseAdmits;
  }

  lemma {:induction false} WalkEnds(db: Db, o: Id, path: seq<L.State>)
    requires o in db.operations && path != []
    ensures var walked := Walk(db, o, path);
      walked.Ok? ==>
        && o in walked.value.operations && walked.value.operations[o] == db.operations[o].(state := path[|path| - 1])
        && walked.value == db.(operations := walked.value.operations, history := walked.value.history)
    decreases |path|
  {
    hide L.IsEdge;
    var state := db.operations[o].state;
    if |path| > 1 {
      if state == path[0] {
        WalkEnds(db, o, path[1..]);
      } else if L.IsEdge(state, path[0]) {
        WalkEnds(SetState(db, o, path[0]), o, path[1..]);
      }
    } else {
      assert path[1..] == [];
    }
  }

  lemma AdvancingEffect(db: Db, x: Input)
    ensures var tx := AdvanceTo(db, x.operationId, L.Reconciled, x.success);
      tx.Commit? ==>
        && tx.db == db.(operations := tx.db.operations, history := tx.db.history)
        && x.operationId in db.operations && x.operationId in tx.db.operations
        && tx.db.operations[x.operationId].state == L.Reconciled
  {
    hide Walk;
    if x.operationId in db.operations {
      WalkEnds(db, x.operationId, if x.success then CONFIRMED_PATH else REVERTED_PATH);
    }
  }

  // ----- every event -----------------------------------------------------------------------

  lemma QuietlyUnresolved(p: Progress, x: Input, r: Reservation, next: Db, stage: Stage)
    requires Unresolved(p, x, r) && Untouched(p.db, next) && x.reservationId in next.reservations
    requires next.reservations[x.reservationId] in {p.db.reservations[x.reservationId], r.(status := Broadcast)}
    ensures Unresolved(Progress(next, stage, p.movements + Moved(p.db, next, x)), x, r)
  {}

  lemma MarkingKeeps(p: Progress, x: Input, r: Reservation)
    requires Keeps(p, x, r) && p.stage.Marking?
    ensures Keeps(Then(p, x, MarkBroadcast(p.db, x.reservationId, x.receipt, x.caller), Verifying), x, r)
  {
    hide MarkBroadcast, Moved;
    var tx := MarkBroadcast(p.db, x.reservationId, x.receipt, x.caller);
    MarkingEffect(p.db, x);
    if tx.Commit? {
      QuietlyUnresolved(p, x, r, tx.db, Verifying);
    }
  }

  lemma VerifyingKeeps(p: Progress, x: Input, r: Reservation)
    requires Keeps(p, x, r) && p.stage.Verifying?
    ensures Keeps(Then(p, x, VerifyBroadcast(p.db, x.reservationId, x.caller), Persisting), x, r)
  {
    hide VerifyBroadcast, Moved;
    var tx := VerifyBroadcast(p.db, x.reservationId, x.caller);
    VerifyingEffect(p.db, x);
    if tx.Commit? {
      QuietlyUnresolved(p, x, r, tx.db, Persisting);
    }
  }

  lemma PersistingKeeps(p: Progress, x: Input, r: Reservation, databaseNow: Time, workerNow: Time)
    requires Keeps(p, x, r) && p.stage.Persisting?
    ensures Keeps(Continued(p, x, databaseNow, workerNow), x, r)
  {
    hide Moved;
    var next := Continued(p, x, databaseNow, workerNow);
    QuietlyUnresolved(p, x, r, next.db, next.stage);
  }

  lemma ClaimingKeeps(p: Progress, x: Input, r: Reservation, databaseNow: Time, workerNow: Time)
    requires Keeps(p, x, r) && p.stage.Claiming?
    ensures Keeps(Continued(p, x, databaseNow, workerNow), x, r)
  {
    hide Moved, Refusal;
    var next := Continued(p, x, databaseNow, workerNow);
    QuietlyUnresolved(p, x, r, next.db, next.stage);
  }

  lemma ResolvingKeeps(p: Progress, x: Input, r: Reservation, version: nat, now: Time)
    requires Keeps(p, x, r) && r.amount > 0 && p.stage == Resolving(x.receipt.receiptReference, version)
    ensures Keeps(Then(p, x, Resolve(p.db, NewResolution(x, x.receipt.receiptReference, version), x.caller, now),
      AfterResolution(x)), x, r)
  {
    hide Resolve, Moved, Final, Due;
    ResolvingEffect(p.db, x, version, now);
    SameFinal(r, p.db.reservations[x.reservationId], x);
  }

  lemma SameFinal(r: Reservation, s: Reservation, x: Input)
    requires s == r.(status := s.status)
    ensures Final(s, x) == Final(r, x) && Due(s, x) == Due(r, x)
    ensures (Final(r, x).operationId, Final(r, x).budgetId) == (r.operationId, r.budgetId)
  {}

  lemma ReplayingKeeps(p: Progress, x: Input, r: Reservation, prior: RecoveryAttempt, now: Time)
    requires Keeps(p, x, r) && p.stage == Replaying(prior)
    ensures Keeps(Then(p, x, Resolve(p.db, PriorResolution(x, prior), x.caller, now), AfterResolution(x)), x, r)
  {
    hide Resolve, Final, Due;
    ReplayingEffect(p.db, x, prior, now);
  }

  lemma RecordingKeeps(p: Progress, x: Input, r: Reservation)
    requires Keeps(p, x, r) && p.stage.Recording?
    ensures Keeps(Then(p, x,
      InsertEffect(p.db, x.operationId, Effect(x.reservationId, x.envelopeId, x.receipt.transactionHash, x.spend)),
      Advancing), x, r)
  {
    hide Final, Due;
  }

  lemma AdvancingKeeps(p: Progress, x: Input, r: Reservation)
    requires Keeps(p, x, r) && p.stage.Advancing?
    ensures Keeps(Then(p, x, AdvanceTo(p.db, x.operationId, L.Reconciled, x.success), Returned), x, r)
  {
    hide AdvanceTo, Final, Due;
    AdvancingEffect(p.db, x);
    AdvancingSameRow(p.db, x);
  }

  lemma AdvancingSameRow(db: Db, x: Input)
    ensures var tx := AdvanceTo(db, x.operationId, L.Reconciled, x.success);
      tx.Commit? ==> tx.db.reservations == db.reservations
  {
    AdvancingEffect(db, x);
  }

  lemma ContinuedKeeps(p: Progress, x: Input, r: Reservation, databaseNow: Time, workerNow: Time)
    requires Keeps(p, x, r) && r.amount > 0
    ensures Keeps(Continued(p, x, databaseNow, workerNow), x, r)
  {
    hide Then, NewResolution, PriorResolution, Resolved, Unresolved, Recoverable, HasChainEvidence, RECEIPT_PREFIX;
    match p.stage
    case Marking => MarkingKeeps(p, x, r);
    case Verifying => VerifyingKeeps(p, x, r);
    case Persisting => PersistingKeeps(p, x, r, databaseNow, workerNow);
    case Claiming(_) => ClaimingKeeps(p, x, r, databaseNow, workerNow);
    case Resolving(_, version) => ResolvingKeeps(p, x, r, version, workerNow);
    case Replaying(prior) => ReplayingKeeps(p, x, r, prior, workerNow);
    case Recording => RecordingKeeps(p, x, r);
    case Advancing => AdvancingKeeps(p, x, r);
    case _ => LocalKeeps(p, x, r, databaseNow, workerNow);
  }

  lemma LocalKeeps(p: Progress, x: Input, r: Reservation, databaseNow: Time, workerNow: Time)
    requires Keeps(p, x, r) && (p.stage.Entering? || p.stage.Returned? || p.stage.Failed?)
    ensures Keeps(Continued(p, x, databaseNow, workerNow), x, r)
  {
    hide Final, Due, Recoverable, HasChainEvidence, RECEIPT_PREFIX;
  }

  lemma HappenKeeps(p: Progress, x: Input, r: Reservation, e: Event)
    requires Keeps(p, x, r) && r.amount > 0
    ensures Keeps(Happen(p, x, e), x, r)
  {
    hide Continued, Resolved, Unresolved, Apart;
    match e
    case Continue(databaseNow, workerNow) => ContinuedKeeps(p, x, r, databaseNow, workerNow);
    case Crash => RestartKeeps(p, x, r);
    case Otherwise(next) =>
      if Apart(p.db, next, x) {
        ApartKeeps(p, x, r, next);
      }
  }

  /** The stage of a call plays no part in what has been applied. */
  lemma RestartKeeps(p: Progress, x: Input, r: Reservation)
    requires Keeps(p, x, r)
    ensures Keeps(p.(stage := Entering), x, r)
  {
    hide Final, Due;
  }

  lemma ApartKeeps(p: Progress, x: Input, r: Reservation, next: Db)
    requires Keeps(p, x, r) && Apart(p.db, next, x)
    ensures Keeps(p.(db := next), x, r)
  {
    hide Final, Due;
  }

  lemma {:induction false} UnfoldKeeps(p: Progress, x: Input, r: Reservation, es: seq<Event>)
    requires Keeps(p, x, r) && r.amount > 0
    ensures Keeps(Unfold(p, x, es), x, r)
  {
    hide Happen, Keeps;
    if es != [] {
      UnfoldKeeps(p, x, r, es[..|es| - 1]);
      HappenKeeps(Unfold(p, x, es[..|es| - 1]), x, r, es[|es| - 1]);
    }
  }

  // ----- theorems --------------------------------------------------------------------------

  /** A call may begin: the reservation's money is in place and nothing about it has been resolved. */
  predicate MayBegin(db: Db, x: Input) {
    && Present(db, x)
    && Funded(db, x.reservationId)
    && db.reservations[x.reservationId].status in {Authorized, Broadcast}
    && db.reservations[x.reservationId].amount > 0
    && x.attemptId !in db.recoveries
    && x.operationId !in db.effects
    && db.operations[x.operationId].state != L.Reconciled
  }

  /**
   However often reconciliation of the same evidence is started, cut off and started again, the
   reservation's budget moves at most once, and then by exactly what the evidence says.
   */
  lemma AppliedAtMostOnce(db: Db, x: Input, es: seq<Event>)
    requires MayBegin(db, x)
    ensures var r := db.reservations[x.reservationId];
      var p := Unfold(Progress(db, Entering, []), x, es);
      && x.reservationId in p.db.reservations
      && (|| (p.movements == []
        && p.db.reservations[x.reservationId] in {r.(status := Authorized), r.(status := Broadcast)})
          || (p.movements == [Due(r, x)] && p.db.reservations[x.reservationId] == Final(r, x)))
  {
    hide Unfold, Final, Due;
    UnfoldKeeps(Progress(db, Entering, []), x, db.reservations[x.reservationId], es);
  }

  /**
   Whenever a call returns, the operation is reconciled and the evidence has been applied exactly
   once: finalized with its one economic effect, or released with none.
   */
  lemma ReturnedIsComplete(db: Db, x: Input, es: seq<Event>)
    requires MayBegin(db, x) && Unfold(Progress(db, Entering, []), x, es).stage.Returned?
    ensures var r := db.reservations[x.reservationId];
      var p := Unfold(Progress(db, Entering, []), x, es);
      && x.operationId in p.db.operations && p.db.operations[x.operationId].state == L.Reconciled
      && x.reservationId in p.db.reservations && p.db.reservations[x.reservationId] == Final(r, x)
      && p.movements == [Due(r, x)]
      && (if x.success
          then x.operationId in p.db.effects
               && p.db.effects[x.operationId] ==
                 Effect(x.reservationId, x.envelopeId, x.receipt.transactionHash, x.spend)
          else x.operationId !in p.db.effects)
  {
    hide Unfold, Final, Due;
    UnfoldKeeps(Progress(db, Entering, []), x, db.reservations[x.reservationId], es);
  }

  /**
   Interrupted or not, calls that return leave the same reservation, the same effect and the same
   movement of money.
   */
  lemma InterruptionsDoNotMatter(db: Db, x: Input, straight: seq<Event>, interrupted: seq<Event>)
    requires MayBegin(db, x)
    requires Unfold(Progress(db, Entering, []), x, straight).stage.Returned?
      && Unfold(Progress(db, Entering, []), x, interrupted).stage.Returned?
    ensures var p, q := Unfold(Progress(db, Entering, []), x, straight),
      Unfold(Progress(db, Entering, []), x, interrupted);
      && p.movements == q.movements
      && SameRow(p.db.reservations, q.db.reservations, x.reservationId)
      && SameRow(p.db.effects, q.db.effects, x.operationId)
  {
    hide Unfold, Final, Due;
    ReturnedIsComplete(db, x, straight);
    ReturnedIsComplete(db, x, interrupted);
  }
}
