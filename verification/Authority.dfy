/** Live authority is always current, and a control change leaves none of it behind in its scope. */
module Authority {
  import opened Schema
  import opened Approvals
  import opened Control
  import opened Invalidation
  import opened Moves
  import opened Money
  import opened Evolution
  import opened Invariants
  import Protocol
  import Refinement
  import Execution
  import L = Lifecycle

  /** An authorization that could still be acted on: not invalidated, its operation and its money both authorized. */
  predicate Live(db: Db, k: Id) {
    && k in db.authorizations
    && k !in db.invalidated
    && var b := db.authorizations[k].bound;
    && b.operationId in db.operations && db.operations[b.operationId].state == L.Authorized
    && b.reservationId in db.reservations && db.reservations[b.reservationId].status == Authorized
  }

  /** Every live authorization carries the current rows of its four fences, all of them active. */
  predicate Current(db: Db) {
    forall k | k in db.authorizations && Live(db, k) ::
      AreCurrent(db, db.authorizations[k].bound, db.authorizations[k].fences) && Unblocked(db.authorizations[k].fences)
  }

  // ----- safe moves ------------------------------------------------------------------------

  /** Moves that keep authority current on their own: all but a fence change and the generic jump. */
  predicate Safe(m: Move) {
    !m.Raise? && !m.Jump?
  }

  /** An authorization live after a safe move was live before it, unless the move issued it. */
  lemma LiveBefore(db: Db, m: Move, k: Id)
    requires Inv(db) && Legal(db, m) && Safe(m) && k in db.authorizations && Live(Perform(db, m), k)
    ensures Live(db, k)
  {
    hide Legal, Evolves, Inv;
    var b := db.authorizations[k].bound;
    AuthorityOf(db, k);
    MoveEvolves(db, m);
    KeptBinding(db, Perform(db, m), k);
    EntersAuthorized(db, m, b.operationId);
    if m.Grant? && m.authorization.bound.operationId == b.operationId {
      SameReservation(db, m, b);
    }
  }

  lemma AuthorityOf(db: Db, k: Id)
    requires Inv(db) && k in db.authorizations
    ensures AuthorizationHolds(db, k)
  {}

  lemma KeptBinding(db: Db, next: Db, k: Id)
    requires Evolves(db, next) && k in db.authorizations && AuthorizationHolds(db, k)
    ensures k in next.authorizations && next.authorizations[k] == db.authorizations[k]
      && db.invalidated <= next.invalidated
    ensures var r := db.authorizations[k].bound.reservationId;
      r in next.reservations && (next.reservations[r].status == Authorized ==> db.reservations[r].status == Authorized)
  {}

  lemma EntersAuthorized(db: Db, m: Move, o: Id)
    requires Legal(db, m) && Safe(m) && o in db.operations
    ensures o in Operations(db, m)
    ensures Operations(db, m)[o].state == L.Authorized ==>
      db.operations[o].state == L.Authorized || (m.Grant? && m.authorization.bound.operationId == o)
  {}

  /** An operation has one reservation, and granting takes it from held to authorized. */
  lemma SameReservation(db: Db, m: Move, b: Binding)
    requires Inv(db) && m.Grant? && Legal(db, m) && m.authorization.bound.operationId == b.operationId
    requires b.reservationId in db.reservations && db.reservations[b.reservationId].operationId == b.operationId
    ensures db.reservations[b.reservationId].status == Held
  {
    hide Conserved, Authorizations, SignedOnce, BroadcastsHold, LeasesSpent, Drawn;
    assert Drawings(db);
  }

  lemma StaysCurrent(db: Db, m: Move, b: Binding, f: Fences)
    requires Legal(db, m) && Safe(m) && AreCurrent(db, b, f)
    ensures AreCurrent(Perform(db, m), b, f)
  {
    hide LegalDraw, LegalPay, LegalPublish, LegalApproval, LegalSign, LegalRecord;
    OperationsMove(db, m);
  }

  lemma GrantedCurrent(db: Db, m: Move)
    requires m.Grant? && Legal(db, m)
    ensures AreCurrent(db, m.authorization.bound, m.authorization.fences) && Unblocked(m.authorization.fences)
  {}

  lemma SafeMoveKeepsCurrent(db: Db, m: Move)
    requires Inv(db) && Current(db) && Legal(db, m) && Safe(m)
    ensures Current(Perform(db, m))
  {
    hide Legal, Inv, AreCurrent, Live, Safe, Operations, History, Budgets, Broadcasts, Leases, Reservations,
        ApprovalRows;
    var next := Perform(db, m);
    forall k | k in next.authorizations && Live(next, k)
      ensures AreCurrent(next, next.authorizations[k].bound, next.authorizations[k].fences)
        && Unblocked(next.authorizations[k].fences)
    {
      var z := next.authorizations[k];
      if m.Grant? && k == m.authorizationId {
        GrantedCurrent(db, m);
      } else {
        LiveBefore(db, m, k);
      }
      StaysCurrent(db, m, z.bound, z.fences);
    }
  }

  lemma {:induction false} PlayKeepsCurrent(db: Db, ms: seq<Move>, kind: Kind)
    requires Inv(db) && Current(db) && LegalPlay(db, ms, kind) && kind !in {Raising, Jumping}
    ensures Current(Play(db, ms))
  {
    hide Legal, Perform, Inv, Current;
    if ms != [] {
      var front := ms[..|ms| - 1];
      PlayKeepsCurrent(db, front, kind);
      PlayKeeps(db, front, kind);
      SafeMoveKeepsCurrent(Play(db, front), ms[|ms| - 1]);
    }
  }

  lemma SafeReachKeepsCurrent(db: Db, next: Db, kind: Kind)
    requires Inv(db) && Current(db) && Reaches(db, next, kind) && kind !in {Raising, Jumping}
    ensures Current(next)
  {
    hide Legal, Perform, Inv, Current;
    var ms :| LegalPlay(db, ms, kind) && Play(db, ms) == next;
    PlayKeepsCurrent(db, ms, kind);
  }

  // ----- what the invalidation loops can change --------------------------------------------

  predicate RowFenced(r: Reservation, s: Reservation) {
    s == r || s == r.(status := Released, encumbered := false)
  }

  predicate OperationFenced(o: Operation, p: Operation) {
    p == o || p == o.(state := L.Revoked) || p == o.(state := L.RevalidationRequired)
  }

  predicate ApprovalFenced(a: Approval, b: Approval) {
    b == a || b == a.(status := ApprovalRevoked, approverId := b.approverId)
  }

  predicate Fenced(db: Db, next: Db) {
    && next.registry == db.registry
    && next.policies == db.policies
    && next.fences == db.fences
    && next.authorizations == db.authorizations
    && db.invalidated <= next.invalidated
    && next.operations.Keys == db.operations.Keys
    && (forall k | k in db.operations :: OperationFenced(db.operations[k], next.operations[k]))
    && next.reservations.Keys == db.reservations.Keys
    && (forall k | k in db.reservations :: RowFenced(db.reservations[k], next.reservations[k]))
    && next.approvals.Keys == db.approvals.Keys
    && (forall k | k in db.approvals :: ApprovalFenced(db.approvals[k], next.approvals[k]))
  }

  lemma FencedTransitive(a: Db, b: Db, c: Db)
    requires Fenced(a, b) && Fenced(b, c)
    ensures Fenced(a, c)
  {}

  lemma FencedOffIsFenced(db: Db, next: Db, scope: Scope, actor: Id, h: Hits)
    requires FencedOff(db, next, scope, actor, h)
    ensures Fenced(db, next)
    ensures forall k | k in h.reservations && k in db.reservations :: next.reservations[k].status == Released
    ensures forall a | a in h.approvals && a in db.approvals :: next.approvals[a].status == ApprovalRevoked
    ensures h.authorizations <= next.invalidated
    ensures h.approvals == {} ==> next.approvals == db.approvals
  {}

  predicate Withdrawn(db: Db, row: (Id, Id)) {
    && row.0 in db.approvals && db.approvals[row.0].status == ApprovalRevoked
    && row.1 in db.reservations && db.reservations[row.1].status == Released
  }

  // ----- a committed control change --------------------------------------------------------

  /** Nothing in scope can still be authorized, signed or charged on the strength of the old fence. */
  predicate Cleared(db: Db, scope: Scope) {
    && (forall k | k in db.authorizations && Live(db, k) ::
          !InScope(db, scope, db.operations[db.authorizations[k].bound.operationId]))
    && (forall k | k in db.approvals && IsActive(db.approvals[k])
      && db.approvals[k].bound.operationId in db.operations ::
          !InScope(db, scope, db.operations[db.approvals[k].bound.operationId]))
    && (forall k | k in db.reservations && db.reservations[k].status == Held
      && db.reservations[k].operationId in db.operations
                   && db.operations[db.reservations[k].operationId].state in BEFORE_AUTHORIZATION ::
          !InScope(db, scope, db.operations[db.reservations[k].operationId]))
  }

  /** The three intermediate states of the invalidation. */
  ghost predicate Loops(db: Db, scope: Scope, actor: Id, rows: Rows, held: Db, pending: Db, done: Db) {
    && Lists(rows.held, HeldRows(db, scope))
    && FenceAllHeld(db, scope, rows.held) == Ok(held)
    && Lists(rows.pending, PendingRows(held, scope))
    && FenceAllPending(held, scope, actor, rows.pending) == Ok(pending)
    && Lists(rows.authorized, AuthorizedRows(pending, scope))
    && FenceAllAuthorized(pending, scope, rows.authorized) == Ok(done)
  }

  /** What the three loops leave, related to where they started. */
  ghost predicate Visited(db: Db, scope: Scope, held: Db, pending: Db, done: Db) {
    && Inv(db) && Inv(held) && Inv(pending) && Inv(done)
    && Fenced(db, held) && Fenced(held, pending) && Fenced(pending, done)
    && held.approvals == db.approvals
    && (forall k | k in HeldRows(db, scope) :: k in held.reservations && held.reservations[k].status == Released)
    && (forall row | row in PendingRows(held, scope) :: Withdrawn(pending, row))
    && (forall k | k in AuthorizedRows(pending, scope) :: k in done.invalidated)
  }

  lemma LoopsVisit(db: Db, scope: Scope, actor: Id, rows: Rows, held: Db, pending: Db, done: Db)
    requires Inv(db) && Loops(db, scope, actor, rows, held, pending, done)
    ensures Visited(db, scope, held, pending, done)
  {
    hide Inv, Fenced, FencedOff, Reaches, FenceAllHeld, FenceAllPending, FenceAllAuthorized, HeldRow, PendingRow,
        AuthorizedRow, OwnOperations;
    HeldLoop(db, scope, actor, rows.held);
    FencedOffIsFenced(db, held, scope, actor, HeldHits(db, rows.held));
    PendingLoop(held, scope, actor, rows.pending);
    FencedOffIsFenced(held, pending, scope, actor, PendingHits(held, rows.pending));
    VisitedPairs(held, pending, scope, actor, rows.pending);
    AuthorizedLoop(pending, scope, actor, rows.authorized);
    FencedOffIsFenced(pending, done, scope, actor, AuthorizedHits(pending, rows.authorized));
    Refinement.FenceAllHeldMoves(db, scope, rows.held);
    ReachesKeeps(db, held, Plain);
    Refinement.FenceAllPendingMoves(held, scope, actor, rows.pending);
    ReachesKeeps(held, pending, Plain);
    Refinement.FenceAllAuthorizedMoves(pending, scope, rows.authorized);
    ReachesKeeps(pending, done, Raising);
  }

  lemma VisitedPairs(db: Db, next: Db, scope: Scope, actor: Id, rows: seq<(Id, Id)>)
    requires FencedOff(db, next, scope, actor, PendingHits(db, rows))
    ensures forall row | row in rows && row.0 in db.approvals && row.1 in db.reservations :: Withdrawn(next, row)
  {
    forall row | row in rows && row.0 in db.approvals && row.1 in db.reservations ensures Withdrawn(next, row) {
      assert row.0 in PendingHits(db, rows).approvals && row.1 in PendingHits(db, rows).reservations;
    }
  }

  lemma FencedScope(db: Db, next: Db, scope: Scope, o: Id)
    requires Fenced(db, next) && o in next.operations
    ensures o in db.operations && InScope(next, scope, next.operations[o]) == InScope(db, scope, db.operations[o])
    ensures next.operations[o].state !in {L.Revoked, L.RevalidationRequired} ==>
      next.operations[o].state == db.operations[o].state
  {}

  lemma FencedRows(db: Db, next: Db, k: Id)
    requires Fenced(db, next) && k in next.reservations
    ensures k in db.reservations && db.reservations[k].operationId == next.reservations[k].operationId
    ensures next.reservations[k].status != Released ==> db.reservations[k] == next.reservations[k]
  {}

  lemma FencedApprovals(db: Db, next: Db, k: Id)
    requires Fenced(db, next) && k in next.approvals
    ensures k in db.approvals && db.approvals[k].bound == next.approvals[k].bound
    ensures IsActive(next.approvals[k]) ==> IsActive(db.approvals[k])
  {}

  /** A reservation of an operation in scope is a row the queries see. */
  lemma InScopeIsRow(db: Db, scope: Scope, k: Id)
    requires Inv(db) && k in db.reservations
    requires db.reservations[k].operationId in db.operations
      && InScope(db, scope, db.operations[db.reservations[k].operationId])
    ensures Row(db, scope, k)
  {
    hide Authorizations, SignedOnce, BroadcastsHold, LeasesSpent;
    assert Drawn(db, k);
  }

  lemma LiveIsListed(db: Db, scope: Scope, k: Id)
    requires Inv(db) && Live(db, k) && InScope(db, scope, db.operations[db.authorizations[k].bound.operationId])
    ensures k in AuthorizedRows(db, scope)
  {
    hide Inv, Row, InScope;
    AuthorityOf(db, k);
    InScopeIsRow(db, scope, db.authorizations[k].bound.reservationId);
  }

  lemma ActiveIsListed(db: Db, scope: Scope, k: Id)
    requires Inv(db) && k in db.approvals && IsActive(db.approvals[k])
      && db.approvals[k].bound.operationId in db.operations
    requires InScope(db, scope, db.operations[db.approvals[k].bound.operationId])
    ensures (k, db.approvals[k].bound.reservationId) in PendingRows(db, scope)
  {
    hide Inv, Row, InScope;
    ApprovalOf(db, k);
    InScopeIsRow(db, scope, db.approvals[k].bound.reservationId);
    assert PendingRow(db, scope, (k, db.approvals[k].bound.reservationId));
  }

  lemma HeldIsListed(db: Db, scope: Scope, k: Id)
    requires Inv(db) && k in db.reservations && db.reservations[k].status == Held
      && db.reservations[k].operationId in db.operations
    requires var op := db.operations[db.reservations[k].operationId];
      op.state in BEFORE_AUTHORIZATION && InScope(db, scope, op)
    ensures k in HeldRows(db, scope) || exists a :: a in db.approvals && (a, k) in PendingRows(db, scope)
  {
    hide Inv, Row, InScope;
    InScopeIsRow(db, scope, k);
    var o := db.reservations[k].operationId;
    if !NoneActive(db, o) {
      var a :| a in db.approvals && IsActive(db.approvals[a]) && db.approvals[a].bound.operationId == o;
      assert PendingRow(db, scope, (a, k));
    }
  }

  /** The held loop touches no approval, so the pending query still finds what it would have found before. */
  lemma PendingStillListed(db: Db, held: Db, scope: Scope, row: (Id, Id))
    requires Inv(held) && Fenced(db, held) && held.approvals == db.approvals && row in PendingRows(db, scope)
    ensures row in PendingRows(held, scope)
  {
    hide Inv, Row, InScope;
    assert PendingRow(db, scope, row);
    FencedRows(db, held, row.1);
    RowScope(db, scope, row.1);
    FencedScope(db, held, scope, db.reservations[row.1].operationId);
    InScopeIsRow(held, scope, row.1);
    assert PendingRow(held, scope, row);
  }

  lemma RowScope(db: Db, scope: Scope, k: Id)
    requires Row(db, scope, k)
    ensures k in db.reservations && db.reservations[k].operationId in db.operations
    ensures InScope(db, scope, db.operations[db.reservations[k].operationId])
  {}

  lemma FencedLive(db: Db, next: Db, k: Id)
    requires Fenced(db, next) && Live(next, k)
    ensures Live(db, k) && db.authorizations[k] == next.authorizations[k]
  {
    FencedRows(db, next, next.authorizations[k].bound.reservationId);
    FencedScope(db, next, SystemScope, next.authorizations[k].bound.operationId);
  }

  lemma ApprovalOf(db: Db, k: Id)
    requires Inv(db) && k in db.approvals
    ensures ApprovalHolds(db, k)
  {}

  lemma LiveIsCleared(db: Db, scope: Scope, held: Db, pending: Db, done: Db, k: Id)
    requires Visited(db, scope, held, pending, done) && Live(done, k)
    ensures !InScope(done, scope, done.operations[done.authorizations[k].bound.operationId])
  {
    hide Inv, Fenced, InScope, AuthorizedRows;
    FencedLive(pending, done, k);
    FencedScope(pending, done, scope, pending.authorizations[k].bound.operationId);
    if InScope(done, scope, done.operations[done.authorizations[k].bound.operationId]) {
      LiveIsListed(pending, scope, k);
    }
  }

  lemma ActiveIsCleared(db: Db, scope: Scope, held: Db, pending: Db, done: Db, k: Id)
    requires Visited(db, scope, held, pending, done)
    requires k in done.approvals && IsActive(done.approvals[k])
      && done.approvals[k].bound.operationId in done.operations
    ensures !InScope(done, scope, done.operations[done.approvals[k].bound.operationId])
  {
    hide Inv, Fenced, InScope, PendingRows, HeldRows, AuthorizedRows;
    FencedApprovals(pending, done, k);
    FencedApprovals(held, pending, k);
    FencedTransitive(held, pending, done);
    FencedScope(held, done, scope, done.approvals[k].bound.operationId);
    if InScope(done, scope, done.operations[done.approvals[k].bound.operationId]) {
      ActiveIsListed(held, scope, k);
    }
  }

  lemma HeldIsCleared(db: Db, scope: Scope, held: Db, pending: Db, done: Db, k: Id)
    requires Visited(db, scope, held, pending, done)
    requires k in done.reservations && done.reservations[k].status == Held
      && done.reservations[k].operationId in done.operations
    requires done.operations[done.reservations[k].operationId].state in BEFORE_AUTHORIZATION
    ensures !InScope(done, scope, done.operations[done.reservations[k].operationId])
  {
    hide Inv, Fenced, InScope, PendingRows, HeldRows, AuthorizedRows, BEFORE_AUTHORIZATION;
    var o := done.reservations[k].operationId;
    FencedTransitive(held, pending, done);
    FencedTransitive(db, held, done);
    FencedRows(pending, done, k);
    FencedRows(held, done, k);
    FencedRows(db, done, k);
    FencedBefore(db, done, scope, o);
    if InScope(done, scope, done.operations[o]) {
      HeldIsListed(db, scope, k);
      if k !in HeldRows(db, scope) {
        var a :| a in db.approvals && (a, k) in PendingRows(db, scope);
        PendingStillListed(db, held, scope, (a, k));
      }
    }
  }

  lemma FencedBefore(db: Db, next: Db, scope: Scope, o: Id)
    requires Fenced(db, next) && o in next.operations && next.operations[o].state in BEFORE_AUTHORIZATION
    ensures o in db.operations && db.operations[o].state in BEFORE_AUTHORIZATION
    ensures InScope(next, scope, next.operations[o]) == InScope(db, scope, db.operations[o])
  {}

  lemma LoopsClear(db: Db, scope: Scope, actor: Id, rows: Rows, held: Db, pending: Db, done: Db)
    requires Inv(db) && Loops(db, scope, actor, rows, held, pending, done)
    ensures Cleared(done, scope)
  {
    hide Inv, Fenced, Loops, InScope, Visited;
    LoopsVisit(db, scope, actor, rows, held, pending, done);
    forall k | k in done.authorizations && Live(done, k)
      ensures !InScope(done, scope, done.operations[done.authorizations[k].bound.operationId]) {
      LiveIsCleared(db, scope, held, pending, done, k);
    }
    forall k | k in done.approvals && IsActive(done.approvals[k])
      && done.approvals[k].bound.operationId in done.operations
      ensures !InScope(done, scope, done.operations[done.approvals[k].bound.operationId]) {
      ActiveIsCleared(db, scope, held, pending, done, k);
    }
    forall k | k in done.reservations && done.reservations[k].status == Held
      && done.reservations[k].operationId in done.operations
               && done.operations[done.reservations[k].operationId].state in BEFORE_AUTHORIZATION
      ensures !InScope(done, scope, done.operations[done.reservations[k].operationId]) {
      HeldIsCleared(db, scope, held, pending, done, k);
    }
  }

  /** Raising a fence leaves authority outside its scope current. */
  lemma RaiseElsewhere(db: Db, scope: Scope, command: Command, b: Binding, f: Fences)
    requires scope in db.fences && AreCurrent(db, b, f)
    requires b.policyId == db.operations[b.operationId].policyId && !InScope(db, scope, db.operations[b.operationId])
    ensures AreCurrent(RaiseFence(db, scope, command), b, f)
  {}

  lemma FencedCurrent(db: Db, next: Db, b: Binding, f: Fences)
    requires Fenced(db, next) && AreCurrent(db, b, f)
    ensures AreCurrent(next, b, f)
  {}

  lemma InvalidationKeepsCurrent(db: Db, scope: Scope, command: Command, done: Db)
    requires Inv(db) && Current(db) && scope in db.fences && Fenced(RaiseFence(db, scope, command), done)
      && Cleared(done, scope)
    ensures Current(done)
  {
    hide Inv, AreCurrent, Fenced;
    var raised := RaiseFence(db, scope, command);
    forall k | k in done.authorizations && Live(done, k)
      ensures AreCurrent(done, done.authorizations[k].bound, done.authorizations[k].fences)
        && Unblocked(done.authorizations[k].fences)
    {
      var z := done.authorizations[k];
      FencedLive(raised, done, k);
      assert Live(db, k);
      AuthorityOf(db, k);
      FencedScope(raised, done, scope, z.bound.operationId);
      assert InScope(raised, scope, raised.operations[z.bound.operationId]) ==
        InScope(db, scope, db.operations[z.bound.operationId]);
      RaiseElsewhere(db, scope, command, z.bound, z.fences);
      FencedCurrent(raised, done, z.bound, z.fences);
    }
  }

  /** The states a committed change passes through. */
  lemma ChangeLoops(db: Db, scope: Scope, command: Command, actor: Id, rows: Rows) returns (held: Db, pending: Db)
    requires Inv(db) && ChangeFence(db, scope, command, actor, rows).Commit?
      && ChangeFence(db, scope, command, actor, rows).value.changed
    ensures IsTarget(db, scope)
    ensures var locked := db.(fences := LockTarget(db, scope));
      var raised := RaiseFence(locked, scope, command);
      Reaches(db, locked, Plain) && Inv(raised)
        && Loops(raised, scope, actor, rows, held, pending, ChangeFence(db, scope, command, actor, rows).db)
  {
    hide Reaches, Inv, LockTarget, RaiseFence, FenceAllHeld, FenceAllPending, FenceAllAuthorized, Lists, HeldRows,
        PendingRows, AuthorizedRows;
    var locked := db.(fences := LockTarget(db, scope));
    var raised := RaiseFence(locked, scope, command);
    held := FenceAllHeld(raised, scope, rows.held).value;
    pending := FenceAllPending(held, scope, actor, rows.pending).value;
    Refinement.LockTargetMoves(db, scope);
    Refinement.RaiseMoves(db, locked, scope, command);
    ReachesKeeps(db, raised, Raising);
  }

  /** A committed change of a fence leaves nothing in its scope that rests on the old fence. */
  lemma ChangeClears(db: Db, scope: Scope, command: Command, actor: Id, rows: Rows)
    requires Inv(db)
    ensures var tx := ChangeFence(db, scope, command, actor, rows);
      tx.Commit? && tx.value.changed ==> Cleared(tx.db, scope)
  {
    hide Reaches, Inv, ChangeFence, Loops, Cleared, RaiseFence, LockTarget;
    var tx := ChangeFence(db, scope, command, actor, rows);
    if tx.Commit? && tx.value.changed {
      var held, pending := ChangeLoops(db, scope, command, actor, rows);
      LoopsClear(RaiseFence(db.(fences := LockTarget(db, scope)), scope, command), scope, actor, rows, held, pending,
        tx.db);
    }
  }

  lemma ChangeKeepsCurrent(db: Db, scope: Scope, command: Command, actor: Id, rows: Rows)
    requires Inv(db) && Current(db)
    ensures Current(After(db, ChangeFence(db, scope, command, actor, rows)))
  {
    hide Reaches, Inv, Current, Loops, Cleared, RaiseFence, LockTarget, InvalidateAffected, Fenced, Visited;
    var tx := ChangeFence(db, scope, command, actor, rows);
    if tx.Commit? {
      var locked := db.(fences := LockTarget(db, scope));
      Refinement.LockTargetMoves(db, scope);
      SafeReachKeepsCurrent(db, locked, Plain);
      if tx.value.changed {
        ReachesKeeps(db, locked, Plain);
        ChangeClears(db, scope, command, actor, rows);
        var held, pending := ChangeLoops(db, scope, command, actor, rows);
        LoopsVisit(RaiseFence(locked, scope, command), scope, actor, rows, held, pending, tx.db);
        VisitedFenced(RaiseFence(locked, scope, command), scope, held, pending, tx.db);
        InvalidationKeepsCurrent(locked, scope, command, tx.db);
      }
    }
  }

  lemma VisitedFenced(db: Db, scope: Scope, held: Db, pending: Db, done: Db)
    requires Visited(db, scope, held, pending, done)
    ensures Fenced(db, done)
  {
    hide Inv, Fenced;
    FencedTransitive(db, held, pending);
    FencedTransitive(db, pending, done);
  }

  lemma StepKeepsCurrent(db: Db, c: Protocol.Command)
    requires Inv(db) && Current(db) && !Refinement.IsJump(c)
    ensures Current(Protocol.Apply(db, c))
  {
    hide Reaches, Inv, Current, ChangeFence;
    if c.OfControl? {
      ChangeKeepsCurrent(db, c.scope, c.command, c.actorId, c.rows);
    } else {
      Refinement.Refines(db, c);
      SafeReachKeepsCurrent(db, Protocol.Apply(db, c), Refinement.KindOfCommand(c));
    }
  }

  // ----- the generic lifecycle step --------------------------------------------------------

  /** Authorizations that would become live if their operation entered Authorized. */
  predicate Dormant(db: Db, o: Id, k: Id) {
    && k in db.authorizations
    && k !in db.invalidated
    && var b := db.authorizations[k].bound;
    && b.operationId == o
    && b.reservationId in db.reservations && db.reservations[b.reservationId].status == Authorized
  }

  /** Every authorization the step would bring to life is current. */
  predicate DormantCurrent(db: Db, o: Id) {
    forall k | k in db.authorizations && Dormant(db, o, k) ::
      AreCurrent(db, db.authorizations[k].bound, db.authorizations[k].fences)
  }

  /**
   Stepping into Authorized generically keeps live authority current exactly when what it brings to
   life is current.
   */
  lemma JumpKeepsCurrentIff(db: Db, o: Id)
    requires Inv(db) && Current(db) && o in db.operations && L.IsEdge(db.operations[o].state, L.Authorized)
    ensures var tx := Execution.Advance(db, o, db.operations[o].state, L.Authorized);
      tx.Commit? && (Current(tx.db) <==> DormantCurrent(db, o))
  {
    hide Inv;
    var next := SetState(db, o, L.Authorized);
    forall k | k in db.authorizations
      ensures AreCurrent(next, db.authorizations[k].bound, db.authorizations[k].fences) ==
        AreCurrent(db, db.authorizations[k].bound, db.authorizations[k].fences)
      ensures Unblocked(db.authorizations[k].fences)
      ensures db.authorizations[k].bound.operationId != o ==> Live(next, k) == Live(db, k)
      ensures db.authorizations[k].bound.operationId == o ==> Live(next, k) == Dormant(db, o, k)
    {
      AuthorityOf(db, k);
    }
  }

  /** The command does not bring an outdated authorization back to life; only the generic step into Authorized could. */
  predicate Harmless(db: Db, c: Protocol.Command) {
    Refinement.IsJump(c) && Execution.Advance(db, c.execution.operationId, c.execution.expected, L.Authorized).Commit?
    ==> DormantCurrent(db, c.execution.operationId)
  }

  lemma JumpCurrentIff(db: Db, c: Protocol.Command)
    requires Inv(db) && Current(db) && Refinement.IsJump(c)
    ensures Current(Protocol.Apply(db, c)) <==> Harmless(db, c)
  {
    hide Inv, Current, DormantCurrent;
    var o, expected := c.execution.operationId, c.execution.expected;
    if Execution.Advance(db, o, expected, L.Authorized).Commit? {
      JumpKeepsCurrentIff(db, o);
    }
  }

  /** A command keeps live authority current exactly when it is harmless. */
  lemma StepCurrentIff(db: Db, c: Protocol.Command)
    requires Inv(db) && Current(db)
    ensures Current(Protocol.Apply(db, c)) <==> Harmless(db, c)
  {
    hide Inv, Current, DormantCurrent, Protocol.Apply;
    if Refinement.IsJump(c) {
      JumpCurrentIff(db, c);
    } else {
      StepKeepsCurrent(db, c);
    }
  }

  // ----- runs ------------------------------------------------------------------------------

  /** Every command of the run is harmless in the state in which it is made. */
  predicate HarmlessRun(db: Db, cs: seq<Protocol.Command>) {
    forall i | 0 <= i < |cs| :: Harmless(Protocol.Run(db, cs[..i]), cs[i])
  }

  /**
   In every database a harmless run reaches, a live authorization carries the current versions of
   its four fences, all active.
   */
  lemma {:induction false} CurrentAlways(db: Db, cs: seq<Protocol.Command>)
    requires Protocol.Initial(db) && HarmlessRun(db, cs)
    ensures Current(Protocol.Run(db, cs))
  {
    hide Inv, Harmless, Protocol.Apply;
    if cs != [] {
      var front := cs[..|cs| - 1];
      forall i | 0 <= i < |front| ensures Harmless(Protocol.Run(db, front[..i]), front[i]) {
        assert front[..i] == cs[..i];
        assert Harmless(Protocol.Run(db, cs[..i]), cs[i]);
      }
      CurrentAlways(db, front);
      Always(db, front);
      StepCurrentIff(Protocol.Run(db, front), cs[|cs| - 1]);
    }
  }

  /** Live authority is current all along a run if and only if the run is harmless. */
  lemma CurrentThroughoutIff(db: Db, cs: seq<Protocol.Command>)
    requires Protocol.Initial(db)
    ensures (forall i | 0 <= i <= |cs| :: Current(Protocol.Run(db, cs[..i]))) <==> HarmlessRun(db, cs)
  {
    hide Inv, Harmless, Current, Protocol.Apply;
    if HarmlessRun(db, cs) {
      forall i | 0 <= i <= |cs| ensures Current(Protocol.Run(db, cs[..i])) {
        HarmlessPrefix(db, cs, i);
        CurrentAlways(db, cs[..i]);
      }
    }
    if forall i | 0 <= i <= |cs| :: Current(Protocol.Run(db, cs[..i])) {
      forall i | 0 <= i < |cs| ensures Harmless(Protocol.Run(db, cs[..i]), cs[i]) {
        Always(db, cs[..i]);
        assert cs[..i + 1][..i] == cs[..i];
        assert Current(Protocol.Run(db, cs[..i])) && Current(Protocol.Run(db, cs[..i + 1]));
        StepCurrentIff(Protocol.Run(db, cs[..i]), cs[i]);
      }
    }
  }

  lemma HarmlessPrefix(db: Db, cs: seq<Protocol.Command>, n: nat)
    requires HarmlessRun(db, cs) && n <= |cs|
    ensures HarmlessRun(db, cs[..n])
  {
    hide Harmless, Protocol.Run;
    forall i | 0 <= i < n ensures Harmless(Protocol.Run(db, cs[..n][..i]), cs[..n][i]) {
      assert cs[..n][..i] == cs[..i];
      assert Harmless(Protocol.Run(db, cs[..i]), cs[i]);
    }
  }
}
