/** The audit trail of operation states: complete, and every entry an edge of the lifecycle table. */
module Trail {
  import opened Schema
  import opened Moves
  import opened Refinement
  import Protocol
  import Footprint
  import L = Lifecycle

  /** The operations a trail leads to. */
  function Replay(ops: map<Id, Operation>, trail: seq<StateChange>): map<Id, Operation> {
    if trail == [] then ops
    else
      var last := trail[|trail| - 1];
      Entered(Replay(ops, trail[..|trail| - 1]), last.operationId, last.to)
  }

  /** Every entry starts where its operation stood and follows the table. */
  predicate Lawful(ops: map<Id, Operation>, trail: seq<StateChange>) {
    trail != [] ==>
      var front, last := trail[..|trail| - 1], trail[|trail| - 1];
      && Lawful(ops, front)
      && last.operationId in Replay(ops, front)
      && Replay(ops, front)[last.operationId].state == last.from
      && L.IsEdge(last.from, last.to)
  }

  /** The trail is lawful and complete: replaying it gives the present states. */
  predicate Traced(ops: map<Id, Operation>, db: Db) {
    Lawful(ops, db.history) && Replay(ops, db.history) == db.operations
  }

  lemma Append(ops: map<Id, Operation>, db: Db, o: Id, to: L.State)
    requires Traced(ops, db) && o in db.operations && L.IsEdge(db.operations[o].state, to)
    ensures var longer := Logged(db, o, to); Lawful(ops, longer) && Replay(ops, longer) == Entered(db.operations, o, to)
  {
    var longer := Logged(db, o, to);
    assert longer[..|longer| - 1] == db.history;
  }

  lemma MoveTraced(ops: map<Id, Operation>, db: Db, m: Move)
    requires Traced(ops, db) && Legal(db, m)
    requires m.Sign? ==> m.signed.operationId in db.operations && db.operations[m.signed.operationId].state == L.Signing
    ensures Traced(ops, Perform(db, m))
  {
    hide LegalDraw, LegalPay, LegalPublish, LegalApproval, LegalRecord, LegalGrant, LegalSign, LegalRaise,
        LegalClaim, LegalStart, LegalBook, LegalDecision, Attempts, Replay, Lawful, Logged, Entered, Budgets,
        Reservations, Broadcasts, Leases, ApprovalRows;
    match m
    case Step(o, to) => Append(ops, db, o, to);
    case Jump(o) => Append(ops, db, o, L.Authorized);
    case Grant(id, z, r, now) =>
      GrantIsEdge(db, id, z, r, now);
      Append(ops, db, z.bound.operationId, L.Authorized);
    case Sign(id, s, now) =>
      SignIsBound(db, id, s, now);
      Append(ops, db, s.operationId, L.Signed);
    case _ =>
  }

  lemma {:induction false} PlayTraced(ops: map<Id, Operation>, db: Db, ms: seq<Move>, kind: Kind)
    requires Traced(ops, db) && LegalPlay(db, ms, kind) && kind != Signing
    ensures Traced(ops, Play(db, ms))
  {
    hide Legal, Perform, Traced;
    if ms != [] {
      PlayTraced(ops, db, ms[..|ms| - 1], kind);
      MoveTraced(ops, Play(db, ms[..|ms| - 1]), ms[|ms| - 1]);
    }
  }

  /** Whatever commands run, apart from the signer's own write, the trail stays lawful and complete. */
  lemma StepTraced(ops: map<Id, Operation>, db: Db, c: Protocol.Command)
    requires Traced(ops, db) && KindOfCommand(c) != Signing
    ensures Traced(ops, Protocol.Apply(db, c))
  {
    hide Legal, Perform, Traced, Protocol.Apply;
    Refines(db, c);
    var ms :| LegalPlay(db, ms, KindOfCommand(c)) && Play(db, ms) == Protocol.Apply(db, c);
    PlayTraced(ops, db, ms, KindOfCommand(c));
  }

  /** Only the broadcaster writes attempts. */
  lemma StepKeepsAttempts(db: Db, c: Protocol.Command)
    requires KindOfCommand(c) != Trying
    ensures Protocol.Apply(db, c).attempts == db.attempts
  {
    hide Protocol.Apply, Footprint.LeavesReservations, Footprint.LeavesApprovals;
    Footprint.StepLeaves(db, c);
  }
}
