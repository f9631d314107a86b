/** What pausing, resuming and revoking do: the fence they leave, the rows they end, and when they go through. */
module ControlOutcomes {
  import opened Schema
  import opened Fencing
  import opened Approvals
  import opened Control
  import opened Invalidation
  import opened Moves
  import opened Money
  import opened Evolution
  import opened Invariants
  import opened Authority
  import Refinement
  import L = Lifecycle

  // ----- the fence -------------------------------------------------------------------------

  /** The fence a command finds over its scope: the one on record, or a new one. */
  predicate Finds(db: Db, scope: Scope, f: Fence) {
    if scope in db.fences then f == db.fences[scope] else IsFirst(f, db.policies, scope)
  }

  /** The target of a command is registered. */
  predicate Registered(db: Db, scope: Scope) {
    match scope
    case SystemScope => true
    case OwnerScope(o) => o in db.registry.owners
    case AgentScope(a) => a in db.registry.agentOwner.Keys
    case PolicyScope(p) => p in db.policies.Keys
  }

  /** The system is paused and resumed, everything else is revoked; a revoked policy already has a revoked fence. */
  predicate MayChange(db: Db, scope: Scope, command: Command, prior: Fence) {
    && Registered(db, scope)
    && (command == Revoke <==> scope != SystemScope)
    && (scope.PolicyScope? && scope.policyId in db.policies && db.policies[scope.policyId].status == RevokedPolicy ==>
          prior.state == Revoked)
  }

  /** The state each command is for. */
  predicate Leaves(command: Command, state: FenceState) {
    && (command == Pause ==> state == Paused)
    && (command == Resume ==> state == Active)
    && (command == Revoke ==> state == Revoked)
  }

  /** A policy is revoked together with its fence, and no policy changes otherwise. */
  predicate PoliciesFollow(db: Db, next: Db, scope: Scope) {
    match scope
    case PolicyScope(p) =>
      p in db.policies && next.policies == db.policies[p := db.policies[p].(status := RevokedPolicy)]
    case _ => next.policies == db.policies
  }

  /** The fence and the policy rows a committed command leaves, and what it reports. */
  predicate FenceLeft(db: Db, next: Db, scope: Scope, command: Command, prior: Fence, change: Change) {
    && scope in next.fences && change.fence == next.fences[scope]
    && Leaves(command, change.fence.state)
    && (change.changed <==> prior.state != change.fence.state)
    && change.fence.version == prior.version + (if change.changed then 1 else 0)
    && (forall s | s in db.fences && s != scope :: s in next.fences && next.fences[s] == db.fences[s])
    && (forall s | s in next.fences && s !in db.fences && s != scope :: IsFirst(next.fences[s], db.policies, s))
    && (if change.changed then PoliciesFollow(db, next, scope) else next == db.(fences := next.fences))
  }

  /** The fences above the target have been created. */
  predicate Locks(db: Db, scope: Scope, fences: map<Scope, Fence>) {
    && scope in fences
    && Grows(db.fences, fences)
    && forall s | s in fences && s !in db.fences :: IsFirst(fences[s], db.policies, s)
  }

  lemma TargetLocks(db: Db, scope: Scope)
    requires IsTarget(db, scope)
    ensures Locks(db, scope, LockTarget(db, scope))
  {
    hide LockTarget, IsFirst;
  }

  lemma RaisedLeft(db: Db, next: Db, scope: Scope, command: Command, fences: map<Scope, Fence>)
    requires Locks(db, scope, fences) && IsTarget(db, scope) && fences[scope].state != TargetState(command)
    requires next.fences == fences[scope := Fence(fences[scope].version + 1, TargetState(command))]
    requires next.policies == PoliciesAfter(db.policies, scope)
    ensures FenceLeft(db, next, scope, command, fences[scope], Change(next.fences[scope], true))
  {
    hide IsFirst;
  }

  lemma LockedLeft(db: Db, scope: Scope, command: Command, fences: map<Scope, Fence>)
    requires Locks(db, scope, fences) && fences[scope].state == TargetState(command)
    ensures FenceLeft(db, db.(fences := fences), scope, command, fences[scope], Change(fences[scope], false))
  {
    hide IsFirst;
  }

  /** A command leaves its scope's fence in the state it is for; the version rises exactly if that is a change. */
  lemma ChangeOutcome(db: Db, scope: Scope, command: Command, actor: Id, rows: Rows) returns (prior: Fence)
    ensures Finds(db, scope, prior)
    ensures var tx := ChangeFence(db, scope, command, actor, rows);
      tx.Commit? ==> MayChange(db, scope, command, prior) && FenceLeft(db, tx.db, scope, command, prior, tx.value)
  {
    hide LockTarget, InvalidateAffected, IsFirst, FenceLeft, RaiseFence;
    var tx := ChangeFence(db, scope, command, actor, rows);
    if !IsTarget(db, scope) {
      prior := Found(db, scope);
      return;
    }
    TargetLocks(db, scope);
    var fences := LockTarget(db, scope);
    prior := fences[scope];
    if tx.Commit? {
      if tx.value.changed {
        var raised := RaiseFence(db.(fences := fences), scope, command);
        LoopsKeep(raised, scope, actor, rows);
        Raised(db.(fences := fences), scope, command);
        RaisedLeft(db, tx.db, scope, command, fences);
      } else {
        LockedLeft(db, scope, command, fences);
      }
    }
  }

  lemma Raised(db: Db, scope: Scope, command: Command)
    requires scope in db.fences
    ensures var next := RaiseFence(db, scope, command);
      && next == db.(fences := next.fences, policies := next.policies)
      && next.fences == db.fences[scope := Fence(db.fences[scope].version + 1, TargetState(command))]
      && next.policies == PoliciesAfter(db.policies, scope)
  {}

  lemma Found(db: Db, scope: Scope) returns (prior: Fence)
    ensures Finds(db, scope, prior)
  {
    prior := Ensure(db.fences, db.policies, scope)[scope];
  }

  lemma LoopsKeep(db: Db, scope: Scope, actor: Id, rows: Rows)
    ensures var done := InvalidateAffected(db, scope, actor, rows);
      done.Ok? ==> done.value.fences == db.fences && done.value.policies == db.policies
  {
    hide FenceAllHeld, FenceAllPending, FenceAllAuthorized, Lists, HeldRows, PendingRows, AuthorizedRows, FencedOff;
    if InvalidateAffected(db, scope, actor, rows).Ok? {
      var held := FenceAllHeld(db, scope, rows.held).value;
      var pending := FenceAllPending(held, scope, actor, rows.pending).value;
      var done := FenceAllAuthorized(pending, scope, rows.authorized).value;
      HeldLoop(db, scope, actor, rows.held);
      PendingLoop(held, scope, actor, rows.pending);
      AuthorizedLoop(pending, scope, actor, rows.authorized);
      KeptAside(db, held, scope, actor, HeldHits(db, rows.held));
      KeptAside(held, pending, scope, actor, PendingHits(held, rows.pending));
      KeptAside(pending, done, scope, actor, AuthorizedHits(pending, rows.authorized));
    }
  }

  // ----- the rows --------------------------------------------------------------------------

  /** The scope is over the operation. */
  predicate Covers(db: Db, scope: Scope, o: Id) {
    && o in db.operations
    && var op := db.operations[o];
    match scope
    case SystemScope => true
    case OwnerScope(owner) => op.agentId in db.registry.agentOwner && db.registry.agentOwner[op.agentId] == owner
    case AgentScope(agent) => op.agentId == agent
    case PolicyScope(policy) => op.policyId == policy
  }

  /** The operation has money held for it and is on its way to be authorized. */
  predicate Preparing(db: Db, k: Id) {
    && k in db.reservations
    && var r := db.reservations[k];
    && r.status == Held
    && r.operationId in db.operations
    && db.operations[r.operationId].state in
      {L.PolicyFinalized, L.BudgetReserved, L.EnvelopeFinalized, L.AwaitingApproval}
  }

  /** Something in flight for the operation would outlive the change. */
  predicate InFlight(db: Db, o: Id) {
    || (exists k | k in db.reservations :: db.reservations[k].operationId == o && Preparing(db, k))
    || (exists a | a in db.approvals :: db.approvals[a].bound.operationId == o && IsActive(db.approvals[a]))
    || (exists z | z in db.authorizations :: db.authorizations[z].bound.operationId == o && Live(db, z))
  }

  /** Everything in flight under a scope. */
  function AllHits(db: Db, scope: Scope): Hits {
    Hits(
      set o | o in db.operations && Covers(db, scope, o) && InFlight(db, o),
      set k | k in db.reservations && Covers(db, scope, db.reservations[k].operationId)
        && InFlight(db, db.reservations[k].operationId),
      set a | a in db.approvals && IsActive(db.approvals[a]) && Covers(db, scope, db.approvals[a].bound.operationId),
      set z | z in db.authorizations && Live(db, z) && Covers(db, scope, db.authorizations[z].bound.operationId))
  }

  // ----- what the three queries return -----------------------------------------------------

  lemma RowIff(db: Db, scope: Scope, k: Id)
    requires Inv(db)
    ensures Row(db, scope, k) <==> k in db.reservations && Covers(db, scope, db.reservations[k].operationId)
  {
    hide Inv;
    if k in db.reservations {
      ReservationOf(db, k);
    }
  }

  lemma ReservationOf(db: Db, k: Id)
    requires Inv(db) && k in db.reservations
    ensures Drawn(db, k)
  {}

  lemma HeldRowIff(db: Db, scope: Scope, k: Id)
    requires Inv(db)
    ensures HeldRow(db, scope, k) <==>
      && Preparing(db, k)
      && Covers(db, scope, db.reservations[k].operationId)
      && NoneActive(db, db.reservations[k].operationId)
  {
    hide Inv, Row, Covers, NoneActive;
    RowIff(db, scope, k);
    if k in db.reservations {
      ReservationOf(db, k);
    }
  }

  lemma PendingRowIff(db: Db, scope: Scope, a: Id, k: Id)
    requires Inv(db)
    ensures PendingRow(db, scope, (a, k)) <==>
      && a in db.approvals && IsActive(db.approvals[a])
      && k == db.approvals[a].bound.reservationId
      && Covers(db, scope, db.approvals[a].bound.operationId)
  {
    hide Inv, Row, Covers;
    RowIff(db, scope, k);
    if a in db.approvals {
      ApprovalOf(db, a);
      if k in db.reservations {
        OneReservation(db, k, db.approvals[a].bound.reservationId);
      }
    }
  }

  lemma OneReservation(db: Db, j: Id, k: Id)
    requires Inv(db) && j in db.reservations && k in db.reservations
    ensures db.reservations[j].operationId == db.reservations[k].operationId ==> j == k
  {
    hide Conserved, Authorizations, SignedOnce, BroadcastsHold, LeasesSpent, Executed, Drawn;
  }

  lemma AuthorizedRowIff(db: Db, scope: Scope, z: Id)
    requires Inv(db)
    ensures AuthorizedRow(db, scope, z) <==>
      Live(db, z) && Covers(db, scope, db.authorizations[z].bound.operationId)
  {
    hide Inv, Row, Covers;
    if z in db.authorizations {
      AuthorityOf(db, z);
      RowIff(db, scope, db.authorizations[z].bound.reservationId);
    }
  }

  // ----- the loops together ----------------------------------------------------------------

  lemma CoversKept(db: Db, next: Db, scope: Scope, actor: Id, h: Hits, s: Scope, o: Id)
    requires FencedOff(db, next, scope, actor, h)
    ensures Covers(next, s, o) <==> Covers(db, s, o)
  {}

  /** The held loop touches no approval, so the pending query finds what it would have found before. */
  lemma SamePending(db: Db, held: Db, scope: Scope, actor: Id, h: Hits)
    requires Inv(db) && Inv(held) && FencedOff(db, held, scope, actor, h) && h.approvals == {}
    ensures PendingRows(held, scope) == PendingRows(db, scope)
  {
    hide Inv, FencedOff, Covers, PendingRow;
    FencedOffIsFenced(db, held, scope, actor, h);
    SameKeys(db, held, scope, actor, h);
    forall a, k | a in db.approvals && k in db.reservations
      ensures PendingRow(held, scope, (a, k)) <==> PendingRow(db, scope, (a, k))
    {
      PendingRowIff(db, scope, a, k);
      PendingRowIff(held, scope, a, k);
      CoversKept(db, held, scope, actor, h, scope, db.approvals[a].bound.operationId);
    }
  }

  lemma SameKeys(db: Db, next: Db, scope: Scope, actor: Id, h: Hits)
    requires FencedOff(db, next, scope, actor, h)
    ensures next.reservations.Keys == db.reservations.Keys && next.authorizations == db.authorizations
    ensures next.operations.Keys == db.operations.Keys && next.approvals.Keys == db.approvals.Keys
  {}

  /** What is authorized before the loops is untouched by the first two. */
  lemma StillLive(db: Db, next: Db, scope: Scope, actor: Id, h: Hits, z: Id)
    requires FencedOff(db, next, scope, actor, h) && h.authorizations == {}
    requires forall o | o in h.operations && o in db.operations :: db.operations[o].state != L.Authorized
    requires forall k | k in h.reservations && k in db.reservations :: db.reservations[k].operationId in h.operations
    requires z in db.authorizations && db.authorizations[z].bound.reservationId in db.reservations
    requires var b := db.authorizations[z].bound; db.reservations[b.reservationId].operationId == b.operationId
    ensures Live(next, z) <==> Live(db, z)
  {}

  lemma SameAuthorized(db: Db, next: Db, scope: Scope, actor: Id, h: Hits)
    requires Inv(db) && Inv(next) && FencedOff(db, next, scope, actor, h) && h.authorizations == {}
    requires forall o | o in h.operations && o in db.operations :: db.operations[o].state != L.Authorized
    requires forall k | k in h.reservations && k in db.reservations :: db.reservations[k].operationId in h.operations
    ensures AuthorizedRows(next, scope) == AuthorizedRows(db, scope)
  {
    hide Inv, FencedOff, Covers, AuthorizedRow, Live;
    SameKeys(db, next, scope, actor, h);
    forall z | z in db.authorizations ensures AuthorizedRow(next, scope, z) <==> AuthorizedRow(db, scope, z) {
      AuthorityOf(db, z);
      AuthorizedRowIff(db, scope, z);
      AuthorizedRowIff(next, scope, z);
      StillLive(db, next, scope, actor, h, z);
      CoversKept(db, next, scope, actor, h, scope, db.authorizations[z].bound.operationId);
    }
  }

  /** The rows of the three loops, all read off the database they start from. */
  ghost predicate Queried(db: Db, scope: Scope, rows: Rows) {
    && Lists(rows.held, HeldRows(db, scope))
    && Lists(rows.pending, PendingRows(db, scope))
    && Lists(rows.authorized, AuthorizedRows(db, scope))
  }

  function LoopHits(db: Db, rows: Rows): Hits {
    Both(Both(HeldHits(db, rows.held), PendingHits(db, rows.pending)), AuthorizedHits(db, rows.authorized))
  }

  /** Before the loops no operation of a held or pending row is authorized. */
  lemma NotYetAuthorized(db: Db, scope: Scope, held: Db, actor: Id, rows: Rows)
    requires Inv(db) && FencedOff(db, held, scope, actor, HeldHits(db, rows.held))
    requires Lists(rows.held, HeldRows(db, scope)) && FenceAllPending(held, scope, actor, rows.pending).Ok?
    ensures var h := Both(HeldHits(db, rows.held), PendingHits(db, rows.pending));
      && (forall o | o in h.operations && o in db.operations :: db.operations[o].state != L.Authorized)
      && (forall k | k in h.reservations && k in db.reservations :: db.reservations[k].operationId in h.operations)
  {
    hide Inv, FencedOff, HeldRow, FenceAllPending;
    var h := Both(HeldHits(db, rows.held), PendingHits(db, rows.pending));
    PendingLoopVisits(held, scope, actor, rows.pending);
    forall k | k in h.reservations && k in db.reservations
      ensures db.reservations[k].operationId in h.operations
      ensures var o := db.reservations[k].operationId; o in db.operations && db.operations[o].state != L.Authorized
    {
      if k in rows.held {
        assert k in HeldRows(db, scope);
        HeldRowIff(db, scope, k);
      } else {
        var i :| 0 <= i < |rows.pending| && rows.pending[i].1 == k;
        AwaitedBefore(db, held, scope, actor, HeldHits(db, rows.held), k);
      }
    }
  }

  lemma LoopsEffect(db: Db, scope: Scope, actor: Id, rows: Rows, held: Db, pending: Db, done: Db)
    requires Inv(db) && Loops(db, scope, actor, rows, held, pending, done)
    ensures Queried(db, scope, rows)
    ensures FencedOff(db, done, scope, actor, LoopHits(db, rows))
  {
    hide Inv, FencedOff, FenceAllHeld, FenceAllPending, FenceAllAuthorized, Visited, HeldRows, PendingRows,
        AuthorizedRows, OwnOperations, Lists, Reaches;
    LoopsVisit(db, scope, actor, rows, held, pending, done);
    VisitedKeeps(db, scope, held, pending, done);
    var h := HeldHits(db, rows.held);
    HeldLoop(db, scope, actor, rows.held);
    SamePending(db, held, scope, actor, h);
    PendingLoop(held, scope, actor, rows.pending);
    SameOwners(db, held, scope, actor, h, PendingHits(db, rows.pending).reservations);
    var i := PendingHits(db, rows.pending);
    assert PendingHits(held, rows.pending) == i;
    FencedInTurn(db, held, pending, scope, actor, h, i);
    NotYetAuthorized(db, scope, held, actor, rows);
    SameAuthorized(db, pending, scope, actor, Both(h, i));
    AuthorizedLoop(pending, scope, actor, rows.authorized);
    KeptAside(db, pending, scope, actor, Both(h, i));
    SameOwners(db, pending, scope, actor, Both(h, i), AuthorizedHits(db, rows.authorized).reservations);
    assert AuthorizedHits(pending, rows.authorized) == AuthorizedHits(db, rows.authorized);
    FencedInTurn(db, pending, done, scope, actor, Both(h, i), AuthorizedHits(db, rows.authorized));
  }

  lemma VisitedKeeps(db: Db, scope: Scope, held: Db, pending: Db, done: Db)
    requires Visited(db, scope, held, pending, done)
    ensures Inv(held) && Inv(pending) && Inv(done)
  {
    hide Inv;
  }

  // ----- the loops visit everything in flight, and nothing else ----------------------------

  lemma ListedIff<T>(rows: seq<T>, all: set<T>, x: T)
    requires Lists(rows, all)
    ensures x in rows <==> x in all
  {}

  lemma ReservationsHit(db: Db, scope: Scope, rows: Rows, k: Id)
    requires Inv(db) && Queried(db, scope, rows) && k in db.reservations
    ensures k in LoopHits(db, rows).reservations <==>
      Covers(db, scope, db.reservations[k].operationId) && InFlight(db, db.reservations[k].operationId)
  {
    hide Inv, Covers, HeldRow, PendingRow, AuthorizedRow, Lists, Preparing, Live, OwnOperations, IsActive;
    if k in LoopHits(db, rows).reservations {
      LoopHitsInFlight(db, scope, rows, k);
    }
    if Covers(db, scope, db.reservations[k].operationId) && InFlight(db, db.reservations[k].operationId) {
      InFlightIsHit(db, scope, rows, k);
    }
  }

  lemma LoopHitsInFlight(db: Db, scope: Scope, rows: Rows, k: Id)
    requires Inv(db) && Queried(db, scope, rows) && k in LoopHits(db, rows).reservations
    ensures k in db.reservations
    ensures Covers(db, scope, db.reservations[k].operationId) && InFlight(db, db.reservations[k].operationId)
  {
    hide Inv, Covers, HeldRow, PendingRow, AuthorizedRow, Lists, OwnOperations;
    if k in rows.held {
      ListedIff(rows.held, HeldRows(db, scope), k);
      HeldRowIff(db, scope, k);
    } else if k in PendingHits(db, rows.pending).reservations {
      var i :| 0 <= i < |rows.pending| && rows.pending[i].1 == k;
      ListedIff(rows.pending, PendingRows(db, scope), rows.pending[i]);
      PendingRowIff(db, scope, rows.pending[i].0, k);
      ApprovalOf(db, rows.pending[i].0);
    } else {
      var i :| 0 <= i < |rows.authorized| && rows.authorized[i] in db.authorizations
        && db.authorizations[rows.authorized[i]].bound.reservationId == k;
      ListedIff(rows.authorized, AuthorizedRows(db, scope), rows.authorized[i]);
      AuthorizedRowIff(db, scope, rows.authorized[i]);
      AuthorityOf(db, rows.authorized[i]);
    }
  }

  lemma InFlightIsHit(db: Db, scope: Scope, rows: Rows, k: Id)
    requires Inv(db) && Queried(db, scope, rows) && k in db.reservations
    requires Covers(db, scope, db.reservations[k].operationId) && InFlight(db, db.reservations[k].operationId)
    ensures k in LoopHits(db, rows).reservations
  {
    hide Inv, Covers, HeldRow, PendingRow, AuthorizedRow, Lists, OwnOperations, Preparing, Live, Sealed,
        Grounds, FenceRises, Within, Unblocked;
    var o := db.reservations[k].operationId;
    if !NoneActive(db, o) {
      var a :| a in db.approvals && IsActive(db.approvals[a]) && db.approvals[a].bound.operationId == o;
      ActiveIsHit(db, scope, rows, a);
      ApprovalOf(db, a);
      OneReservation(db, k, db.approvals[a].bound.reservationId);
    } else if j :| j in db.reservations && db.reservations[j].operationId == o && Preparing(db, j) {
      OneReservation(db, j, k);
      HeldRowIff(db, scope, k);
      ListedIff(rows.held, HeldRows(db, scope), k);
    } else {
      var z :| z in db.authorizations && db.authorizations[z].bound.operationId == o && Live(db, z);
      AuthorizedRowIff(db, scope, z);
      ListedIff(rows.authorized, AuthorizedRows(db, scope), z);
      AuthorityOf(db, z);
      OneReservation(db, k, db.authorizations[z].bound.reservationId);
    }
  }

  lemma ActiveIsHit(db: Db, scope: Scope, rows: Rows, a: Id)
    requires Inv(db) && Queried(db, scope, rows)
    requires a in db.approvals && IsActive(db.approvals[a]) && Covers(db, scope, db.approvals[a].bound.operationId)
    ensures (a, db.approvals[a].bound.reservationId) in rows.pending
  {
    hide Inv, Covers, PendingRow, Lists;
    var k := db.approvals[a].bound.reservationId;
    PendingRowIff(db, scope, a, k);
    ApprovalOf(db, a);
    ListedIff(rows.pending, PendingRows(db, scope), (a, k));
  }

  lemma OperationsHit(db: Db, scope: Scope, rows: Rows, o: Id)
    requires Inv(db) && Queried(db, scope, rows)
    ensures o in LoopHits(db, rows).operations <==> o in db.operations && Covers(db, scope, o) && InFlight(db, o)
  {
    hide Inv, InFlight, HeldRows, PendingRows, AuthorizedRows, Lists;
    var h := LoopHits(db, rows);
    if o in h.operations {
      var k :| k in h.reservations && k in db.reservations && db.reservations[k].operationId == o;
      ReservationsHit(db, scope, rows, k);
    }
    if Covers(db, scope, o) && InFlight(db, o) {
      var k := FlightReservation(db, o);
      ReservationsHit(db, scope, rows, k);
      assert k in h.reservations && o in OwnOperations(db, h.reservations);
    }
  }

  /** Whatever is in flight for an operation has its reservation. */
  lemma FlightReservation(db: Db, o: Id) returns (k: Id)
    requires Inv(db) && InFlight(db, o)
    ensures k in db.reservations && db.reservations[k].operationId == o
  {
    hide Inv, Preparing, Live;
    if j :| j in db.reservations && db.reservations[j].operationId == o {
      k := j;
    } else if a :| a in db.approvals && db.approvals[a].bound.operationId == o {
      ApprovalOf(db, a);
      k := db.approvals[a].bound.reservationId;
    } else {
      var z :| z in db.authorizations && db.authorizations[z].bound.operationId == o;
      AuthorityOf(db, z);
      k := db.authorizations[z].bound.reservationId;
    }
  }

  lemma EvidenceHit(db: Db, scope: Scope, rows: Rows)
    requires Inv(db) && Queried(db, scope, rows)
    ensures LoopHits(db, rows).approvals == AllHits(db, scope).approvals
    ensures LoopHits(db, rows).authorizations == AllHits(db, scope).authorizations
  {
    hide Inv, Covers, HeldRow, PendingRow, AuthorizedRow, Lists, InFlight, Live;
    forall a ensures a in LoopHits(db, rows).approvals <==> a in AllHits(db, scope).approvals {
      if a in LoopHits(db, rows).approvals {
        var i :| 0 <= i < |rows.pending| && rows.pending[i].0 == a;
        ListedIff(rows.pending, PendingRows(db, scope), rows.pending[i]);
        PendingRowIff(db, scope, a, rows.pending[i].1);
      }
      if a in AllHits(db, scope).approvals {
        ActiveIsHit(db, scope, rows, a);
      }
    }
    forall z ensures z in rows.authorized <==> z in AllHits(db, scope).authorizations {
      AuthorizedRowIff(db, scope, z);
      ListedIff(rows.authorized, AuthorizedRows(db, scope), z);
    }
  }

  lemma HitsAgree(db: Db, scope: Scope, rows: Rows)
    requires Inv(db) && Queried(db, scope, rows)
    ensures LoopHits(db, rows) == AllHits(db, scope)
  {
    hide Inv, Covers, InFlight, Queried, LoopHits;
    EvidenceHit(db, scope, rows);
    forall o ensures o in LoopHits(db, rows).operations <==> o in AllHits(db, scope).operations {
      OperationsHit(db, scope, rows, o);
    }
    forall k ensures k in LoopHits(db, rows).reservations <==> k in AllHits(db, scope).reservations {
      if k in db.reservations {
        ReservationsHit(db, scope, rows, k);
      } else if k in LoopHits(db, rows).reservations {
        LoopHitsInFlight(db, scope, rows, k);
      }
    }
  }

  // ----- the effect of a change ------------------------------------------------------------

  /** Which rows are in flight does not depend on fences and policies. */
  lemma FencesApart(db: Db, next: Db, scope: Scope)
    requires next == db.(fences := next.fences, policies := next.policies)
    ensures AllHits(next, scope) == AllHits(db, scope)
  {
    hide Live, Covers, Preparing, InFlight, IsActive;
    forall o ensures Covers(next, scope, o) == Covers(db, scope, o) && InFlight(next, o) == InFlight(db, o) {
      SameFlight(db, next, scope, o);
    }
    forall z ensures Live(next, z) == Live(db, z) {
      SameLife(db, next, z, z);
    }
  }

  lemma SameFlight(db: Db, next: Db, scope: Scope, o: Id)
    requires next == db.(fences := next.fences, policies := next.policies)
    ensures Covers(next, scope, o) == Covers(db, scope, o) && InFlight(next, o) == InFlight(db, o)
  {
    hide Live, Preparing, IsActive;
    forall z ensures Live(next, z) == Live(db, z) {
      SameLife(db, next, z, z);
    }
    forall k ensures Preparing(next, k) == Preparing(db, k) {
      SameLife(db, next, k, k);
    }
  }

  lemma SameLife(db: Db, next: Db, z: Id, k: Id)
    requires next == db.(fences := next.fences, policies := next.policies)
    ensures Live(next, z) == Live(db, z) && Preparing(next, k) == Preparing(db, k)
  {}

  /**
   A change of a fence ends everything in flight under its scope and nothing else, whatever order
   the database returns the rows in: apart from fences, policies, budgets and the audit trail, the
   three loops are one simultaneous update.
   */
  lemma ChangeEffect(db: Db, scope: Scope, command: Command, actor: Id, rows: Rows)
    requires Inv(db)
    ensures var tx := ChangeFence(db, scope, command, actor, rows);
      tx.Commit? && tx.value.changed ==>
        FencedOff(db.(fences := tx.db.fences, policies := tx.db.policies), tx.db, scope, actor, AllHits(db, scope))
  {
    hide Inv, ChangeFence, Loops, FencedOff, AllHits, RaiseFence, LockTarget, Reaches, LoopHits, Queried;
    var tx := ChangeFence(db, scope, command, actor, rows);
    if tx.Commit? && tx.value.changed {
      var held, pending := ChangeLoops(db, scope, command, actor, rows);
      var locked := db.(fences := LockTarget(db, scope));
      var raised := RaiseFence(locked, scope, command);
      Raised(locked, scope, command);
      LoopsEffect(raised, scope, actor, rows, held, pending, tx.db);
      HitsAgree(raised, scope, rows);
      FencesApart(db, raised, scope);
      KeptAside(raised, tx.db, scope, actor, AllHits(db, scope));
      assert db.(fences := tx.db.fences, policies := tx.db.policies) == raised;
    }
  }

  // ----- when a change goes through --------------------------------------------------------

  /** Every active approval in scope is the only one of its operation, which awaits it with its money in place. */
  predicate Clearable(db: Db, scope: Scope) {
    forall a | a in db.approvals && IsActive(db.approvals[a])
        && Covers(db, scope, db.approvals[a].bound.operationId) ::
      && Awaits(db, db.approvals[a].bound.reservationId)
      && forall b | b in db.approvals && IsActive(db.approvals[b]) ::
           db.approvals[b].bound.operationId == db.approvals[a].bound.operationId ==> b == a
  }

  lemma CommittedWasClearable(db: Db, scope: Scope, actor: Id, rows: Rows, held: Db, pending: Db, done: Db)
    requires Inv(db) && Loops(db, scope, actor, rows, held, pending, done)
    ensures Clearable(db, scope)
  {
    hide Inv, FencedOff, FenceAllHeld, FenceAllPending, FenceAllAuthorized, Lists, Covers, Awaits, HeldRows,
        PendingRows, AuthorizedRows;
    LoopsEffect(db, scope, actor, rows, held, pending, done);
    HeldLoop(db, scope, actor, rows.held);
    PendingLoopVisits(held, scope, actor, rows.pending);
    var h := HeldHits(db, rows.held);
    forall a | a in db.approvals && IsActive(db.approvals[a]) && Covers(db, scope, db.approvals[a].bound.operationId)
      ensures Awaits(db, db.approvals[a].bound.reservationId)
      ensures forall b | b in db.approvals && IsActive(db.approvals[b]) ::
        db.approvals[b].bound.operationId == db.approvals[a].bound.operationId ==> b == a
    {
      var k := db.approvals[a].bound.reservationId;
      ActiveIsHit(db, scope, rows, a);
      var i :| 0 <= i < |rows.pending| && rows.pending[i] == (a, k);
      AwaitedBefore(db, held, scope, actor, h, k);
      forall b | b in db.approvals && IsActive(db.approvals[b])
        && db.approvals[b].bound.operationId == db.approvals[a].bound.operationId
        ensures b == a
      {
        ActiveIsHit(db, scope, rows, b);
        SameMoney(db, a, b);
        var j :| 0 <= j < |rows.pending| && rows.pending[j] == (b, k);
      }
    }
  }

  lemma SameMoney(db: Db, a: Id, b: Id)
    requires Inv(db) && a in db.approvals && b in db.approvals
    requires db.approvals[a].bound.operationId == db.approvals[b].bound.operationId
    ensures db.approvals[a].bound.reservationId == db.approvals[b].bound.reservationId
  {
    hide Inv;
    ApprovalOf(db, a);
    ApprovalOf(db, b);
    OneReservation(db, db.approvals[a].bound.reservationId, db.approvals[b].bound.reservationId);
  }

  /** The operation of the reservation is in one of the states, and its money is in place. */
  predicate CanWithdraw(db: Db, k: Id, from: set<L.State>) {
    && k in db.reservations
    && db.reservations[k].status in {Held, Authorized}
    && db.reservations[k].operationId in db.operations
    && db.operations[db.reservations[k].operationId].state in from
  }

  lemma Withdraws(db: Db, scope: Scope, actor: Id, k: Id, from: set<L.State>) returns (next: Db)
    requires Inv(db) && CanWithdraw(db, k, from) && from <= BEFORE_AUTHORIZATION + {L.Authorized}
    ensures WithdrawFrom(db, k, from, FencedState(scope)) == Ok(next) && Inv(next)
    ensures FencedOff(db, next, scope, actor, Hits({db.reservations[k].operationId}, {k}, {}, {}))
  {
    hide Inv, FencedOff, Reaches, FencedState, BEFORE_AUTHORIZATION;
    MoneyInPlace(db, k);
    next := WithdrawFrom(db, k, from, FencedState(scope)).value;
    WithdrawRow(db, k, from, scope, actor);
    Stay(db, Plain);
    Refinement.ControlWithdrawMoves(db, db, k, from, scope, Plain);
    ReachesKeeps(db, next, Plain);
  }

  lemma MoneyInPlace(db: Db, k: Id)
    requires Inv(db) && k in db.reservations && db.reservations[k].status in {Held, Authorized}
    ensures Funded(db, k) && db.reservations[k].amount <= db.budgets[db.reservations[k].budgetId].reserved
  {
    hide Drawings, Authorizations, SignedOnce, BroadcastsHold, LeasesSpent, Executed;
    Unfold(db, k);
    NoUnderflow(db, k);
  }

  lemma Elsewhere(db: Db, next: Db, scope: Scope, actor: Id, h: Hits, k: Id, from: set<L.State>)
    requires FencedOff(db, next, scope, actor, h) && CanWithdraw(db, k, from)
    requires k !in h.reservations && db.reservations[k].operationId !in h.operations
    ensures CanWithdraw(next, k, from)
  {}

  lemma {:induction false} HeldGoes(db: Db, scope: Scope, actor: Id, rows: seq<Id>) returns (next: Db)
    requires Inv(db)
    requires forall i | 0 <= i < |rows| :: CanWithdraw(db, rows[i], BEFORE_AUTHORIZATION)
    requires forall i, j | 0 <= i < j < |rows| :: rows[i] != rows[j]
    ensures FenceAllHeld(db, scope, rows) == Ok(next) && Inv(next)
    decreases |rows|
  {
    hide Inv, FencedOff, WithdrawFrom, FencedState, BEFORE_AUTHORIZATION;
    if rows == [] {
      return db;
    }
    var k := rows[0];
    var first := Withdraws(db, scope, actor, k, BEFORE_AUTHORIZATION);
    var h := Hits({db.reservations[k].operationId}, {k}, {}, {});
    forall i | 0 <= i < |rows[1..]| ensures CanWithdraw(first, rows[1..][i], BEFORE_AUTHORIZATION) {
      OneReservation(db, k, rows[i + 1]);
      Elsewhere(db, first, scope, actor, h, rows[i + 1], BEFORE_AUTHORIZATION);
    }
    next := HeldGoes(first, scope, actor, rows[1..]);
  }

  /** The approval of the row can be revoked and its money withdrawn. */
  predicate CanRevoke(db: Db, row: (Id, Id)) {
    row.0 in db.approvals && IsActive(db.approvals[row.0]) && CanWithdraw(db, row.1, {L.AwaitingApproval})
  }

  lemma Revokes(db: Db, scope: Scope, actor: Id, row: (Id, Id)) returns (next: Db)
    requires Inv(db) && CanRevoke(db, row)
    ensures FencePending(db, scope, actor, row) == Ok(next) && Inv(next)
    ensures FencedOff(db, next, scope, actor, Hits({db.reservations[row.1].operationId}, {row.1}, {row.0}, {}))
  {
    hide Inv, FencedOff, Reaches, WithdrawFrom, FencedState;
    var withdrawn := Withdraws(db, scope, actor, row.1, {L.AwaitingApproval});
    next := FencePending(db, scope, actor, row).value;
    PendingRowFenced(db, scope, actor, row);
    Stay(db, Plain);
    Refinement.FencePendingMoves(db, db, scope, actor, row);
    ReachesKeeps(db, next, Plain);
  }

  lemma RevocableElsewhere(db: Db, next: Db, scope: Scope, actor: Id, h: Hits, row: (Id, Id))
    requires FencedOff(db, next, scope, actor, h) && CanRevoke(db, row)
    requires row.0 !in h.approvals && row.1 !in h.reservations && db.reservations[row.1].operationId !in h.operations
    ensures CanRevoke(next, row)
  {}

  lemma {:induction false} PendingGoes(db: Db, scope: Scope, actor: Id, rows: seq<(Id, Id)>) returns (next: Db)
    requires Inv(db)
    requires forall i | 0 <= i < |rows| :: CanRevoke(db, rows[i])
    requires forall i, j | 0 <= i < j < |rows| :: rows[i].0 != rows[j].0 && rows[i].1 != rows[j].1
    ensures FenceAllPending(db, scope, actor, rows) == Ok(next) && Inv(next)
    decreases |rows|
  {
    hide Inv, FencedOff, FencePending;
    if rows == [] {
      return db;
    }
    var k := rows[0].1;
    var first := Revokes(db, scope, actor, rows[0]);
    var h := Hits({db.reservations[k].operationId}, {k}, {rows[0].0}, {});
    forall i | 0 <= i < |rows[1..]| ensures CanRevoke(first, rows[1..][i]) {
      OneReservation(db, k, rows[i + 1].1);
      RevocableElsewhere(db, first, scope, actor, h, rows[i + 1]);
    }
    next := PendingGoes(first, scope, actor, rows[1..]);
  }

  predicate CanInvalidate(db: Db, z: Id) {
    && z in db.authorizations
    && z !in db.invalidated
    && CanWithdraw(db, db.authorizations[z].bound.reservationId, {L.Authorized})
  }

  lemma Invalidates(db: Db, scope: Scope, actor: Id, z: Id) returns (next: Db)
    requires Inv(db) && CanInvalidate(db, z)
    ensures FenceAuthorized(db, scope, z) == Ok(next) && Inv(next)
    ensures var k := db.authorizations[z].bound.reservationId;
      FencedOff(db, next, scope, actor, Hits({db.reservations[k].operationId}, {k}, {}, {z}))
  {
    hide Inv, FencedOff, Reaches, WithdrawFrom, FencedState;
    var withdrawn := Withdraws(db, scope, actor, db.authorizations[z].bound.reservationId, {L.Authorized});
    next := FenceAuthorized(db, scope, z).value;
    AuthorizedRowFenced(db, scope, actor, z);
    Stay(db, Raising);
    Refinement.FenceAuthorizedMoves(db, db, scope, z);
    ReachesKeeps(db, next, Raising);
  }

  lemma InvalidElsewhere(db: Db, next: Db, scope: Scope, actor: Id, h: Hits, z: Id)
    requires FencedOff(db, next, scope, actor, h) && CanInvalidate(db, z) && z !in h.authorizations
    requires var k := db.authorizations[z].bound.reservationId;
      k !in h.reservations && db.reservations[k].operationId !in h.operations
    ensures CanInvalidate(next, z)
  {}

  lemma OneAuthorization(db: Db, y: Id, z: Id)
    requires Inv(db) && y in db.authorizations && z in db.authorizations && y != z
    ensures db.authorizations[y].bound.reservationId != db.authorizations[z].bound.reservationId
  {
    hide Conserved, Drawings, SignedOnce, BroadcastsHold, LeasesSpent, Executed, AuthorizationHolds, ApprovalHolds;
  }

  lemma {:induction false} AuthorizedGoes(db: Db, scope: Scope, actor: Id, rows: seq<Id>) returns (next: Db)
    requires Inv(db)
    requires forall i | 0 <= i < |rows| :: CanInvalidate(db, rows[i])
    requires forall i, j | 0 <= i < j < |rows| :: rows[i] != rows[j]
    ensures FenceAllAuthorized(db, scope, rows) == Ok(next) && Inv(next)
    decreases |rows|
  {
    hide Inv, FencedOff, FenceAuthorized;
    if rows == [] {
      return db;
    }
    var k := db.authorizations[rows[0]].bound.reservationId;
    var first := Invalidates(db, scope, actor, rows[0]);
    var h := Hits({db.reservations[k].operationId}, {k}, {}, {rows[0]});
    forall i | 0 <= i < |rows[1..]| ensures CanInvalidate(first, rows[1..][i]) {
      OneAuthorization(db, rows[0], rows[i + 1]);
      OneReservation(db, k, db.authorizations[rows[i + 1]].bound.reservationId);
      InvalidElsewhere(db, first, scope, actor, h, rows[i + 1]);
    }
    next := AuthorizedGoes(first, scope, actor, rows[1..]);
  }

  /** The rows of a set, in some order. */
  lemma {:induction false} Enumerate<T>(all: set<T>) returns (rows: seq<T>)
    ensures Lists(rows, all)
    decreases |all|
  {
    if all == {} {
      return [];
    }
    var x :| x in all;
    var rest := Enumerate(all - {x});
    rows := [x] + rest;
  }

  /** With an order for each query, the three loops run to their end. */
  lemma LoopsGo(db: Db, scope: Scope, actor: Id) returns (rows: Rows)
    requires Inv(db) && Clearable(db, scope)
    ensures InvalidateAffected(db, scope, actor, rows).Ok?
  {
    hide Inv, FencedOff, FenceAllHeld, FenceAllPending, FenceAllAuthorized, HeldRow, PendingRow, AuthorizedRow,
        OwnOperations, Covers, Clearable, BEFORE_AUTHORIZATION;
    var held := Enumerate(HeldRows(db, scope));
    var pending := Enumerate(PendingRows(db, scope));
    var authorized := Enumerate(AuthorizedRows(db, scope));
    rows := Rows(held, pending, authorized);
    HeldReady(db, scope, held);
    var first := HeldGoes(db, scope, actor, held);
    HeldLoop(db, scope, actor, held);
    SamePending(db, first, scope, actor, HeldHits(db, held));
    PendingReady(db, first, scope, actor, rows);
    var second := PendingGoes(first, scope, actor, pending);
    AuthorizedReady(db, first, second, scope, actor, rows);
    var third := AuthorizedGoes(second, scope, actor, authorized);
  }

  lemma HeldReady(db: Db, scope: Scope, rows: seq<Id>)
    requires Inv(db) && Lists(rows, HeldRows(db, scope))
    ensures forall i | 0 <= i < |rows| :: CanWithdraw(db, rows[i], BEFORE_AUTHORIZATION)
  {
    hide Inv, HeldRow;
    forall i | 0 <= i < |rows| ensures CanWithdraw(db, rows[i], BEFORE_AUTHORIZATION) {
      assert rows[i] in HeldRows(db, scope);
      HeldRowIff(db, scope, rows[i]);
    }
  }

  lemma PendingReady(db: Db, held: Db, scope: Scope, actor: Id, rows: Rows)
    requires Inv(db) && Clearable(db, scope) && FencedOff(db, held, scope, actor, HeldHits(db, rows.held))
    requires Lists(rows.held, HeldRows(db, scope)) && Lists(rows.pending, PendingRows(db, scope))
    ensures forall i | 0 <= i < |rows.pending| :: CanRevoke(held, rows.pending[i])
    ensures forall i, j | 0 <= i < j < |rows.pending| ::
      rows.pending[i].0 != rows.pending[j].0 && rows.pending[i].1 != rows.pending[j].1
  {
    hide Inv, HeldRow, PendingRow, FencedOff, Covers, OwnOperations, Recorded, Sealed;
    var ps := rows.pending;
    forall i | 0 <= i < |ps|
      ensures PendingFact(db, scope, ps[i]) && CanRevoke(held, ps[i])
    {
      assert ps[i] in PendingRows(db, scope);
      PendingRowIff(db, scope, ps[i].0, ps[i].1);
      PendingStays(db, held, scope, actor, rows, ps[i]);
    }
    forall i, j | 0 <= i < j < |ps| ensures ps[i].0 != ps[j].0 && ps[i].1 != ps[j].1 {
      assert PendingFact(db, scope, ps[i]) && PendingFact(db, scope, ps[j]);
      assert ps[i] != ps[j];
      if ps[i].1 == ps[j].1 {
        ApprovalOf(db, ps[i].0);
        ApprovalOf(db, ps[j].0);
        SameApproval(db, scope, ps[i], ps[j]);
      }
    }
  }

  predicate PendingFact(db: Db, scope: Scope, row: (Id, Id)) {
    && row.0 in db.approvals && IsActive(db.approvals[row.0])
    && row.1 == db.approvals[row.0].bound.reservationId
    && Covers(db, scope, db.approvals[row.0].bound.operationId)
  }

  lemma SameApproval(db: Db, scope: Scope, row: (Id, Id), other: (Id, Id))
    requires Clearable(db, scope) && PendingFact(db, scope, row) && PendingFact(db, scope, other) && row.1 == other.1
    requires ApprovalHolds(db, row.0) && ApprovalHolds(db, other.0)
    ensures row == other
  {
    hide Covers, Awaits;
  }

  lemma PendingStays(db: Db, held: Db, scope: Scope, actor: Id, rows: Rows, row: (Id, Id))
    requires Inv(db) && Clearable(db, scope) && FencedOff(db, held, scope, actor, HeldHits(db, rows.held))
    requires Lists(rows.held, HeldRows(db, scope)) && PendingFact(db, scope, row)
    ensures CanRevoke(held, row)
  {
    hide Inv, HeldRow, FencedOff, Covers;
    ApprovalOf(db, row.0);
    var h := HeldHits(db, rows.held);
    forall k | k in h.reservations ensures k in db.reservations
      && db.reservations[k].operationId != db.reservations[row.1].operationId {
      assert k in HeldRows(db, scope);
      HeldRowIff(db, scope, k);
    }
    RevocableElsewhere(db, held, scope, actor, h, row);
  }

  lemma AuthorizedReady(db: Db, held: Db, pending: Db, scope: Scope, actor: Id, rows: Rows)
    requires Inv(db) && Inv(pending) && FencedOff(db, held, scope, actor, HeldHits(db, rows.held))
    requires Lists(rows.held, HeldRows(db, scope)) && Lists(rows.authorized, AuthorizedRows(db, scope))
    requires FenceAllPending(held, scope, actor, rows.pending) == Ok(pending)
    ensures AuthorizedRows(pending, scope) == AuthorizedRows(db, scope)
    ensures forall i | 0 <= i < |rows.authorized| :: CanInvalidate(pending, rows.authorized[i])
  {
    hide Inv, FencedOff, FenceAllPending, HeldRow, AuthorizedRow, OwnOperations, Covers;
    var h, i := HeldHits(db, rows.held), PendingHits(db, rows.pending);
    PendingLoop(held, scope, actor, rows.pending);
    SameOwners(db, held, scope, actor, h, i.reservations);
    assert PendingHits(held, rows.pending) == i;
    FencedInTurn(db, held, pending, scope, actor, h, i);
    NotYetAuthorized(db, scope, held, actor, rows);
    SameAuthorized(db, pending, scope, actor, Both(h, i));
    forall n | 0 <= n < |rows.authorized| ensures CanInvalidate(pending, rows.authorized[n]) {
      assert rows.authorized[n] in AuthorizedRows(pending, scope);
      AuthorizedRowIff(pending, scope, rows.authorized[n]);
      AuthorityOf(pending, rows.authorized[n]);
    }
  }

  /** Clearing concerns neither fences nor policies. */
  lemma ClearableApart(db: Db, next: Db, scope: Scope)
    requires next == db.(fences := next.fences, policies := next.policies)
    ensures Clearable(next, scope) <==> Clearable(db, scope)
  {}

  /**
   A change that the rules allow goes through, for some order of the rows, if and only if every
   active approval in its scope is the only one of its operation and that operation awaits it with
   its money in place. Two active approvals for one operation block every change over it.
   */
  lemma ChangeGoesThroughIff(db: Db, scope: Scope, command: Command, actor: Id)
    requires Inv(db) && IsTarget(db, scope) && MayChange(db, scope, command, LockTarget(db, scope)[scope])
    requires !Leaves(command, LockTarget(db, scope)[scope].state)
    ensures (exists rows :: ChangeFence(db, scope, command, actor, rows).Commit?) <==> Clearable(db, scope)
  {
    hide Inv, LockTarget, RaiseFence, InvalidateAffected, Clearable, Loops, Reaches;
    var locked := db.(fences := LockTarget(db, scope));
    var raised := RaiseFence(locked, scope, command);
    Raised(locked, scope, command);
    ClearableApart(db, raised, scope);
    if rows :| ChangeFence(db, scope, command, actor, rows).Commit? {
      var held, pending := ChangeLoops(db, scope, command, actor, rows);
      CommittedWasClearable(raised, scope, actor, rows, held, pending, ChangeFence(db, scope, command, actor, rows).db);
    }
    if Clearable(db, scope) {
      Refinement.LockTargetMoves(db, scope);
      Refinement.RaiseMoves(db, locked, scope, command);
      ReachesKeeps(db, raised, Raising);
      var rows := LoopsGo(raised, scope, actor);
      assert ChangeFence(db, scope, command, actor, rows).Commit?;
    }
  }
}
