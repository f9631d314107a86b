/** Control fences: pause, resume, revoke, and what they invalidate (packages/approvals/src/control.ts). */
module Control {
  import opened Schema
  import opened Fencing
  import opened Approvals
  import L = Lifecycle

  datatype Command = Pause | Resume | Revoke

  /** The target of a command exists. */
  predicate IsTarget(db: Db, scope: Scope) {
    match scope
    case SystemScope => true
    case OwnerScope(o) => o in db.registry.owners
    case AgentScope(a) => a in db.registry.agentOwner
    case PolicyScope(p) => p in db.policies
  }

  predicate Allows(scope: Scope, command: Command) {
    scope.SystemScope? <==> command != Revoke
  }

  function TargetState(command: Command): FenceState {
    match command
    case Pause => Paused
    case Resume => Active
    case Revoke => Revoked
  }

  /** lockMutationFence: the fences above the target are created first. */
  function LockTarget(db: Db, scope: Scope): (next: map<Scope, Fence>)
    requires IsTarget(db, scope)
    ensures scope in next
    ensures db.fences.Keys <= next.Keys
    ensures forall s :: s in db.fences ==> next[s] == db.fences[s]
    ensures forall s :: s in next && s !in db.fences ==> IsFirst(next[s], db.policies, s)
  {
    var f := Ensure(db.fences, db.policies, SystemScope);
    match scope
    case SystemScope => f
    case OwnerScope(_) => Ensure(f, db.policies, scope)
    case AgentScope(a) => Ensure(Ensure(f, db.policies, OwnerScope(db.registry.agentOwner[a])), db.policies, scope)
    case PolicyScope(p) =>
      Ensure(Ensure(Ensure(f, db.policies, OwnerScope(db.policies[p].ownerId)),
                    db.policies, AgentScope(db.policies[p].agentId)), db.policies, scope)
  }

  predicate InScope(db: Db, scope: Scope, op: Operation) {
    match scope
    case SystemScope => true
    case OwnerScope(o) => op.agentId in db.registry.agentOwner && db.registry.agentOwner[op.agentId] == o
    case AgentScope(a) => op.agentId == a
    case PolicyScope(p) => op.policyId == p
  }

  // ----- the rows the three loops visit ----------------------------------------------------

  const BEFORE_AUTHORIZATION := {L.PolicyFinalized, L.BudgetReserved, L.EnvelopeFinalized, L.AwaitingApproval}

  /** A reservation joined to its operation, budget and agent, with the operation in scope. */
  predicate Row(db: Db, scope: Scope, reservationId: Id) {
    && Funded(db, reservationId)
    && db.reservations[reservationId].operationId in db.operations
    && var op := db.operations[db.reservations[reservationId].operationId];
    && op.agentId in db.registry.agentOwner
    && InScope(db, scope, op)
  }

  predicate HeldRow(db: Db, scope: Scope, reservationId: Id) {
    && Row(db, scope, reservationId)
    && db.reservations[reservationId].status == Held
    && db.operations[db.reservations[reservationId].operationId].state in BEFORE_AUTHORIZATION
    && NoneActive(db, db.reservations[reservationId].operationId)
  }

  /** An active approval joined to the reservation of its operation. */
  predicate PendingRow(db: Db, scope: Scope, row: (Id, Id)) {
    && row.0 in db.approvals
    && IsActive(db.approvals[row.0])
    && Row(db, scope, row.1)
    && db.reservations[row.1].operationId == db.approvals[row.0].bound.operationId
  }

  predicate AuthorizedRow(db: Db, scope: Scope, authorizationId: Id) {
    && authorizationId in db.authorizations
    && authorizationId !in db.invalidated
    && var b := db.authorizations[authorizationId].bound;
    && Row(db, scope, b.reservationId)
    && db.reservations[b.reservationId].operationId == b.operationId
    && db.reservations[b.reservationId].status == Authorized
    && db.operations[b.operationId].state == L.Authorized
  }

  /** The rows of a query, in whatever order the database returns them. */
  predicate Lists<T(==)>(rows: seq<T>, all: set<T>) {
    && (forall i :: 0 <= i < |rows| ==> rows[i] in all)
    && (forall x | x in all :: x in rows)
    && forall i, j :: 0 <= i < j < |rows| ==> rows[i] != rows[j]
  }

  // ----- what the loops do to one row ------------------------------------------------------

  /** Where a fenced operation goes. */
  function FencedState(scope: Scope): L.State {
    if scope.SystemScope? then L.RevalidationRequired else L.Revoked
  }

  /** Move the operation out of one of the given states and give the reserved money back. */
  function WithdrawFrom(db: Db, reservationId: Id, from: set<L.State>, to: L.State): (next: Result<Db>) {
    if !Funded(db, reservationId) || db.reservations[reservationId].operationId !in db.operations
      then Err(ControlTargetNotFound)
    else
      var r := db.reservations[reservationId];
      if db.operations[r.operationId].state !in from then Err(ControlTargetNotFound)
      else if db.budgets[r.budgetId].reserved < r.amount then Err(ControlTargetNotFound)
      else if r.status != Held && r.status != Authorized then Err(ControlTargetNotFound)
      else Ok(Withdraw(db, r.operationId, to, reservationId, Released))
  }

  function FenceHeld(db: Db, scope: Scope, reservationId: Id): Result<Db> {
    WithdrawFrom(db, reservationId, BEFORE_AUTHORIZATION, FencedState(scope))
  }

  function FencePending(db: Db, scope: Scope, actorId: Id, row: (Id, Id)): Result<Db> {
    var next := WithdrawFrom(db, row.1, {L.AwaitingApproval}, FencedState(scope));
    if next.Err? then next
    else if row.0 !in db.approvals || !IsActive(db.approvals[row.0]) then Err(ControlTargetNotFound)
    else
      var a := db.approvals[row.0];
      Ok(next.value.(approvals :=
        db.approvals[row.0 := a.(status := ApprovalRevoked, approverId := Coalesce(a.approverId, actorId))]))
  }

  function FenceAuthorized(db: Db, scope: Scope, authorizationId: Id): Result<Db> {
    if authorizationId !in db.authorizations || authorizationId in db.invalidated then Err(DuplicateKey)
    else
      var next := WithdrawFrom(db, db.authorizations[authorizationId].bound.reservationId, {L.Authorized},
        FencedState(scope));
      if next.Err? then next else Ok(next.value.(invalidated := db.invalidated + {authorizationId}))
  }

  // ----- the loops -------------------------------------------------------------------------

  function FenceAllHeld(db: Db, scope: Scope, rows: seq<Id>): Result<Db>
    decreases |rows|
  {
    if rows == [] then Ok(db)
    else
      var first := FenceHeld(db, scope, rows[0]);
      if first.Err? then first else FenceAllHeld(first.value, scope, rows[1..])
  }

  function FenceAllPending(db: Db, scope: Scope, actorId: Id, rows: seq<(Id, Id)>): Result<Db>
    decreases |rows|
  {
    if rows == [] then Ok(db)
    else
      var first := FencePending(db, scope, actorId, rows[0]);
      if first.Err? then first else FenceAllPending(first.value, scope, actorId, rows[1..])
  }

  function FenceAllAuthorized(db: Db, scope: Scope, rows: seq<Id>): Result<Db>
    decreases |rows|
  {
    if rows == [] then Ok(db)
    else
      var first := FenceAuthorized(db, scope, rows[0]);
      if first.Err? then first else FenceAllAuthorized(first.value, scope, rows[1..])
  }

  /** The rows each of the three queries returned, in order. */
  datatype Rows = Rows(held: seq<Id>, pending: seq<(Id, Id)>, authorized: seq<Id>)

  function HeldRows(db: Db, scope: Scope): set<Id> {
    set r | r in db.reservations && HeldRow(db, scope, r)
  }

  function PendingRows(db: Db, scope: Scope): set<(Id, Id)> {
    set a, r | a in db.approvals && r in db.reservations && PendingRow(db, scope, (a, r)) :: (a, r)
  }

  function AuthorizedRows(db: Db, scope: Scope): set<Id> {
    set z | z in db.authorizations && AuthorizedRow(db, scope, z)
  }

  /** Each query runs on what the loop before it left. */
  function InvalidateAffected(db: Db, scope: Scope, actorId: Id, rows: Rows): Result<Db> {
    if !Lists(rows.held, HeldRows(db, scope)) then Err(ControlTargetNotFound)
    else
      var held := FenceAllHeld(db, scope, rows.held);
      if held.Err? then held
      else if !Lists(rows.pending, PendingRows(held.value, scope)) then Err(ControlTargetNotFound)
      else
        var pending := FenceAllPending(held.value, scope, actorId, rows.pending);
        if pending.Err? then pending
        else if !Lists(rows.authorized, AuthorizedRows(pending.value, scope)) then Err(ControlTargetNotFound)
        else FenceAllAuthorized(pending.value, scope, rows.authorized)
  }

  /** The policy rows after a change of scope's fence: a policy can only be revoked. */
  function PoliciesAfter(policies: map<Id, Policy>, scope: Scope): map<Id, Policy> {
    if scope.PolicyScope? && scope.policyId in policies
    then policies[scope.policyId := policies[scope.policyId].(status := RevokedPolicy)]
    else policies
  }

  /** Raise the target's version, set its state, and revoke the policy row along with its fence. */
  function RaiseFence(db: Db, scope: Scope, command: Command): Db
    requires scope in db.fences
  {
    db.(fences := db.fences[scope := Fence(db.fences[scope].version + 1, TargetState(command))],
        policies := PoliciesAfter(db.policies, scope))
  }

  datatype Change = Change(fence: Fence, changed: bool)

  function ChangeFence(db: Db, scope: Scope, command: Command, actorId: Id, rows: Rows): Tx<Change> {
    if !Allows(scope, command) then Abort(InvalidCommand)
    else if !IsTarget(db, scope) then Abort(ControlTargetNotFound)
    else
      var locked := db.(fences := LockTarget(db, scope));
      var current := locked.fences[scope];
      if scope.PolicyScope? && db.policies[scope.policyId].status == RevokedPolicy && current.state != Revoked then
        Abort(RevalidationNeeded)
      else if current.state == TargetState(command) then Commit(locked, Change(current, false))
      else
        var raised := RaiseFence(locked, scope, command);
        var done := InvalidateAffected(raised, scope, actorId, rows);
        if done.Err? then Abort(done.error) else Commit(done.value, Change(raised.fences[scope], true))
  }
}
