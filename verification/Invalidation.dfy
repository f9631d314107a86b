/**
 What the three loops of a control change do, taken together: they are the one simultaneous
 update of the rows they visit, in whatever order they visit them.
 */
module Invalidation {
  import opened Texts
  import opened Schema
  import opened Control
  import L = Lifecycle

  /** Rows to fence off. */
  datatype Hits = Hits(operations: set<Id>, reservations: set<Id>, approvals: set<Id>, authorizations: set<Id>)

  function Both(h: Hits, i: Hits): Hits {
    Hits(h.operations + i.operations, h.reservations + i.reservations, h.approvals + i.approvals,
      h.authorizations + i.authorizations)
  }

  /** Paused work has to be validated again; revoked work is over. */
  function ExitState(scope: Scope): L.State {
    match scope
    case SystemScope => L.RevalidationRequired
    case _ => L.Revoked
  }

  function RevokedBy(a: Approval, actor: Id): Approval {
    a.(status := ApprovalRevoked, approverId := if a.approverId.Some? then a.approverId else Some(actor))
  }

  /**
   The named operations have left, the named reservations are released, the named approvals are
   revoked and the named authorizations invalidated; no other row of these tables, and no other
   table but the budgets and the audit trail, has changed.
   */
  predicate FencedOff(db: Db, next: Db, scope: Scope, actor: Id, h: Hits) {
    && next == db.(operations := next.operations, history := next.history, reservations := next.reservations,
      budgets := next.budgets, approvals := next.approvals, invalidated := db.invalidated + h.authorizations)
    && next.operations.Keys == db.operations.Keys
    && (forall o | o in db.operations ::
          next.operations[o] ==
            if o in h.operations then db.operations[o].(state := ExitState(scope)) else db.operations[o])
    && next.reservations.Keys == db.reservations.Keys
    && (forall k | k in db.reservations ::
          next.reservations[k] ==
            if k in h.reservations then db.reservations[k].(status := Released, encumbered := false)
            else db.reservations[k])
    && next.approvals.Keys == db.approvals.Keys
    && (forall a | a in db.approvals ::
          next.approvals[a] == if a in h.approvals then RevokedBy(db.approvals[a], actor) else db.approvals[a])
  }

  lemma NothingFenced(db: Db, scope: Scope, actor: Id)
    ensures FencedOff(db, db, scope, actor, Hits({}, {}, {}, {}))
  {}

  lemma FencedInTurn(a: Db, b: Db, c: Db, scope: Scope, actor: Id, h: Hits, i: Hits)
    requires FencedOff(a, b, scope, actor, h) && FencedOff(b, c, scope, actor, i)
    ensures FencedOff(a, c, scope, actor, Both(h, i))
  {}

  // ----- one row ---------------------------------------------------------------------------

  /** The operation of a reservation. */
  function OwnOperations(db: Db, ks: set<Id>): set<Id> {
    set k | k in ks && k in db.reservations :: db.reservations[k].operationId
  }

  lemma WithdrawRow(db: Db, k: Id, from: set<L.State>, scope: Scope, actor: Id)
    ensures var done := WithdrawFrom(db, k, from, FencedState(scope));
      done.Ok? ==>
        && k in db.reservations
        && done.value.approvals == db.approvals
        && FencedOff(db, done.value, scope, actor, Hits({db.reservations[k].operationId}, {k}, {}, {}))
  {}

  lemma PendingRowFenced(db: Db, scope: Scope, actor: Id, row: (Id, Id))
    ensures var done := FencePending(db, scope, actor, row);
      done.Ok? ==>
        && row.1 in db.reservations
        && FencedOff(db, done.value, scope, actor, Hits({db.reservations[row.1].operationId}, {row.1}, {row.0}, {}))
  {
    hide WithdrawFrom;
    WithdrawRow(db, row.1, {L.AwaitingApproval}, scope, actor);
  }

  lemma AuthorizedRowFenced(db: Db, scope: Scope, actor: Id, z: Id)
    ensures var done := FenceAuthorized(db, scope, z);
      done.Ok? ==>
        && z in db.authorizations
        && var k := db.authorizations[z].bound.reservationId;
        && k in db.reservations
        && FencedOff(db, done.value, scope, actor, Hits({db.reservations[k].operationId}, {k}, {}, {z}))
  {
    hide WithdrawFrom;
    if z in db.authorizations {
      WithdrawRow(db, db.authorizations[z].bound.reservationId, {L.Authorized}, scope, actor);
    }
  }

  // ----- the loops -------------------------------------------------------------------------

  function HeldHits(db: Db, rows: seq<Id>): Hits {
    var ks := set k | k in rows;
    Hits(OwnOperations(db, ks), ks, {}, {})
  }

  function PendingHits(db: Db, rows: seq<(Id, Id)>): Hits {
    var ks := set row | row in rows :: row.1;
    Hits(OwnOperations(db, ks), ks, set row | row in rows :: row.0, {})
  }

  function AuthorizedHits(db: Db, rows: seq<Id>): Hits {
    var ks := set z | z in rows && z in db.authorizations :: db.authorizations[z].bound.reservationId;
    Hits(OwnOperations(db, ks), ks, {}, set z | z in rows)
  }

  lemma SameOwners(db: Db, next: Db, scope: Scope, actor: Id, h: Hits, ks: set<Id>)
    requires FencedOff(db, next, scope, actor, h)
    ensures OwnOperations(next, ks) == OwnOperations(db, ks)
  {}

  lemma OneMore(db: Db, k: Id, ks: set<Id>)
    requires k in db.reservations
    ensures OwnOperations(db, {k} + ks) == {db.reservations[k].operationId} + OwnOperations(db, ks)
  {}

  /** The held loop is one update of all the rows it visits. */
  lemma {:induction false} HeldLoop(db: Db, scope: Scope, actor: Id, rows: seq<Id>)
    ensures var done := FenceAllHeld(db, scope, rows);
      done.Ok? ==> FencedOff(db, done.value, scope, actor, HeldHits(db, rows))
    decreases |rows|
  {
    hide WithdrawFrom, FencedOff, OwnOperations;
    var done := FenceAllHeld(db, scope, rows);
    if rows == [] {
      NothingFenced(db, scope, actor);
      NoOwners(db);
      assert (set k | k in rows) == {};
      assert HeldHits(db, rows) == Hits({}, {}, {}, {});
    } else if done.Ok? {
      var first := FenceHeld(db, scope, rows[0]).value;
      WithdrawRow(db, rows[0], BEFORE_AUTHORIZATION, scope, actor);
      var h := Hits({db.reservations[rows[0]].operationId}, {rows[0]}, {}, {});
      HeldLoop(first, scope, actor, rows[1..]);
      var ks := set k | k in rows[1..];
      SameOwners(db, first, scope, actor, h, ks);
      OneMore(db, rows[0], ks);
      assert (set k | k in rows) == {rows[0]} + ks;
      assert Both(h, HeldHits(first, rows[1..])) == HeldHits(db, rows);
      FencedInTurn(db, first, done.value, scope, actor, h, HeldHits(first, rows[1..]));
    }
  }

  lemma NoOwners(db: Db)
    ensures OwnOperations(db, {}) == {}
  {}

  /** So is the pending loop. */
  lemma {:induction false} PendingLoop(db: Db, scope: Scope, actor: Id, rows: seq<(Id, Id)>)
    ensures var done := FenceAllPending(db, scope, actor, rows);
      done.Ok? ==> FencedOff(db, done.value, scope, actor, PendingHits(db, rows))
    decreases |rows|
  {
    hide FencePending, FencedOff, OwnOperations;
    var done := FenceAllPending(db, scope, actor, rows);
    if rows == [] {
      NothingFenced(db, scope, actor);
      NoOwners(db);
      assert (set row | row in rows :: row.1) == {} && (set row | row in rows :: row.0) == {};
      assert PendingHits(db, rows) == Hits({}, {}, {}, {});
    } else if done.Ok? {
      var first := FencePending(db, scope, actor, rows[0]).value;
      PendingRowFenced(db, scope, actor, rows[0]);
      var h := Hits({db.reservations[rows[0].1].operationId}, {rows[0].1}, {rows[0].0}, {});
      PendingLoop(first, scope, actor, rows[1..]);
      var ks := set row | row in rows[1..] :: row.1;
      SameOwners(db, first, scope, actor, h, ks);
      OneMore(db, rows[0].1, ks);
      assert (set row | row in rows :: row.1) == {rows[0].1} + ks;
      assert (set row | row in rows :: row.0) == {rows[0].0} + set row | row in rows[1..] :: row.0;
      assert Both(h, PendingHits(first, rows[1..])) == PendingHits(db, rows);
      FencedInTurn(db, first, done.value, scope, actor, h, PendingHits(first, rows[1..]));
    }
  }

  /** The operation of a reservation awaits approval, with its money in place. */
  predicate Awaits(db: Db, k: Id) {
    && k in db.reservations
    && db.reservations[k].status in {Held, Authorized}
    && db.reservations[k].operationId in db.operations
    && db.operations[db.reservations[k].operationId].state == L.AwaitingApproval
  }

  lemma AwaitedBefore(db: Db, next: Db, scope: Scope, actor: Id, h: Hits, k: Id)
    requires FencedOff(db, next, scope, actor, h) && Awaits(next, k)
    ensures Awaits(db, k) && db.reservations[k].operationId !in h.operations
  {}

  /** The pending loop fails on an operation that does not await approval, or no longer does. */
  lemma {:induction false} PendingLoopVisits(db: Db, scope: Scope, actor: Id, rows: seq<(Id, Id)>)
    requires FenceAllPending(db, scope, actor, rows).Ok?
    ensures forall i | 0 <= i < |rows| :: Awaits(db, rows[i].1)
    ensures forall i, j | 0 <= i < j < |rows| ::
      && rows[i].1 in db.reservations && rows[j].1 in db.reservations
      && db.reservations[rows[i].1].operationId != db.reservations[rows[j].1].operationId
    decreases |rows|
  {
    hide FencedOff;
    if rows != [] {
      var first := FencePending(db, scope, actor, rows[0]).value;
      PendingRowFenced(db, scope, actor, rows[0]);
      var h := Hits({db.reservations[rows[0].1].operationId}, {rows[0].1}, {rows[0].0}, {});
      PendingLoopVisits(first, scope, actor, rows[1..]);
      forall i | 0 < i < |rows|
        ensures Awaits(db, rows[i].1)
        ensures db.reservations[rows[i].1].operationId !in h.operations
        ensures first.reservations[rows[i].1].operationId == db.reservations[rows[i].1].operationId
      {
        assert rows[i] == rows[1..][i - 1];
        AwaitedBefore(db, first, scope, actor, h, rows[i].1);
        SameOwner(db, first, scope, actor, h, rows[i].1);
      }
    }
  }

  lemma SameOwner(db: Db, next: Db, scope: Scope, actor: Id, h: Hits, k: Id)
    requires FencedOff(db, next, scope, actor, h) && k in db.reservations
    ensures k in next.reservations && next.reservations[k].operationId == db.reservations[k].operationId
  {}

  /** And the authorized loop. */
  lemma {:induction false} AuthorizedLoop(db: Db, scope: Scope, actor: Id, rows: seq<Id>)
    ensures var done := FenceAllAuthorized(db, scope, rows);
      done.Ok? ==> FencedOff(db, done.value, scope, actor, AuthorizedHits(db, rows))
    decreases |rows|
  {
    hide FenceAuthorized, FencedOff, OwnOperations;
    var done := FenceAllAuthorized(db, scope, rows);
    if rows == [] {
      NothingFenced(db, scope, actor);
      NoOwners(db);
      assert (set z | z in rows) == {};
      assert AuthorizedHits(db, rows).reservations == {};
      assert AuthorizedHits(db, rows) == Hits({}, {}, {}, {});
    } else if done.Ok? {
      var first := FenceAuthorized(db, scope, rows[0]).value;
      AuthorizedRowFenced(db, scope, actor, rows[0]);
      var k := db.authorizations[rows[0]].bound.reservationId;
      var h := Hits({db.reservations[k].operationId}, {k}, {}, {rows[0]});
      AuthorizedLoop(first, scope, actor, rows[1..]);
      assert first.authorizations == db.authorizations by { KeptAside(db, first, scope, actor, h); }
      var ks := set z | z in rows[1..] && z in db.authorizations :: db.authorizations[z].bound.reservationId;
      SameOwners(db, first, scope, actor, h, ks);
      OneMore(db, k, ks);
      assert (set z | z in rows && z in db.authorizations :: db.authorizations[z].bound.reservationId) == {k} + ks;
      assert (set z | z in rows) == {rows[0]} + set z | z in rows[1..];
      assert Both(h, AuthorizedHits(first, rows[1..])) == AuthorizedHits(db, rows);
      FencedInTurn(db, first, done.value, scope, actor, h, AuthorizedHits(first, rows[1..]));
    }
  }

  lemma KeptAside(db: Db, next: Db, scope: Scope, actor: Id, h: Hits)
    requires FencedOff(db, next, scope, actor, h)
    ensures next.authorizations == db.authorizations && next.registry == db.registry && next.fences == db.fences
    ensures next.policies == db.policies
  {}
}
