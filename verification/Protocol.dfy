/** Every transaction any component can run against the shared database, and runs of them. */
module Protocol {
  import opened Texts
  import opened Schema
  import Ledger
  import Approvals
  import Control
  import Execution
  import L = Lifecycle

  datatype LedgerCommand =
    | Reserve(reserveRequest: Ledger.ReserveRequest)
    | MarkBroadcast(reservationId: Id, receipt: Receipt, caller: Caller)
    | VerifyBroadcast(reservationId: Id, caller: Caller)
    | Release(reservationId: Id)
    | Expire(reservationId: Id, now: Time)
    | Finalize(reservationId: Id, spend: nat, proof: Text)
    | Dispute(reservationId: Id)
    | ClaimLease(operationId: Id, reservationId: Id, seconds: int, caller: Caller, now: Time)
    | Resolve(resolution: Resolution, caller: Caller, now: Time)

  datatype ApprovalCommand =
    | CreateApproval(createRequest: Approvals.CreateRequest)
    | Approve(approvalId: Id, approverId: Id, actorId: Id, now: Time)
    | Reject(approvalId: Id, approverId: Id)
    | Revoke(approvalId: Id, actorId: Id)
    | Replace(operationId: Id, envelope: EnvelopePayload, approvalId: Id, actorId: Id)
    | Consume(approvalId: Id, claim: Approvals.Claim, consumerId: Id, actorId: Id, now: Time)
    | Autonomous(autonomousRequest: Approvals.AutonomousRequest, now: Time)

  datatype ExecutionCommand =
    | Advance(operationId: Id, expected: L.State, next: L.State)
    | PersistDecision(decisionId: Id, decision: Decision)
    | PersistEnvelope(operationId: Id, envelope: EnvelopePayload)
    | BeginSigning(operationId: Id, authorizationId: Id, now: Time)
    | PersistSigned(signedId: Id, signed: SignedTransaction, now: Time)
    | StartAttempt(signedId: Id, reservationId: Id, attemptId: Id)
    | FinishAttempt(attemptId: Id, status: AttemptStatus)
    | PersistChainEvidence(transactionHash: Hash, evidence: ChainEvidence)
    | InsertEffect(operationId: Id, effect: Effect)
    | AdvanceTo(operationId: Id, target: L.State, confirmed: bool)

  datatype Command =
    | OfLedger(ledger: LedgerCommand)
    | OfApprovals(approvals: ApprovalCommand)
    | OfControl(scope: Scope, command: Control.Command, actorId: Id, rows: Control.Rows)
    | OfExecution(execution: ExecutionCommand)

  function ApplyLedger(db: Db, c: LedgerCommand): Db {
    match c
    case Reserve(q) => After(db, Ledger.Reserve(db, q))
    case MarkBroadcast(r, receipt, caller) => After(db, Ledger.MarkBroadcast(db, r, receipt, caller))
    case VerifyBroadcast(r, caller) => After(db, Ledger.VerifyBroadcast(db, r, caller))
    case Release(r) => After(db, Ledger.Release(db, r))
    case Expire(r, now) => After(db, Ledger.Expire(db, r, now))
    case Finalize(r, spend, proof) => After(db, Ledger.Finalize(db, r, spend, proof))
    case Dispute(r) => After(db, Ledger.Dispute(db, r))
    case ClaimLease(o, r, seconds, caller, now) => After(db, Ledger.ClaimLease(db, o, r, seconds, caller, now))
    case Resolve(q, caller, now) => After(db, Ledger.Resolve(db, q, caller, now))
  }

  function ApplyApprovals(db: Db, c: ApprovalCommand): Db {
    match c
    case CreateApproval(q) => After(db, Approvals.Create(db, q))
    case Approve(a, approver, actor, now) => After(db, Approvals.Approve(db, a, approver, actor, now))
    case Reject(a, approver) => After(db, Approvals.Reject(db, a, approver))
    case Revoke(a, actor) => After(db, Approvals.Revoke(db, a, actor))
    case Replace(o, e, a, actor) => After(db, Approvals.Replace(db, o, e, a, actor))
    case Consume(a, claim, consumer, actor, now) => After(db, Approvals.Consume(db, a, claim, consumer, actor, now))
    case Autonomous(q, now) => After(db, Approvals.AuthorizeAutonomously(db, q, now))
  }

  function ApplyExecution(db: Db, c: ExecutionCommand): Db {
    match c
    case Advance(o, expected, next) => After(db, Execution.Advance(db, o, expected, next))
    case PersistDecision(id, d) => After(db, Execution.PersistDecision(db, id, d))
    case PersistEnvelope(o, e) => After(db, Execution.PersistEnvelope(db, o, e))
    case BeginSigning(o, z, now) => After(db, Execution.BeginSigning(db, o, z, now))
    case PersistSigned(id, s, now) => After(db, Execution.PersistSigned(db, id, s, now))
    case StartAttempt(s, r, id) => After(db, Execution.StartAttempt(db, s, r, id))
    case FinishAttempt(id, status) => After(db, Execution.FinishAttempt(db, id, status))
    case PersistChainEvidence(h, e) => After(db, Execution.PersistChainEvidence(db, h, e))
    case InsertEffect(o, e) => After(db, Execution.InsertEffect(db, o, e))
    case AdvanceTo(o, target, confirmed) => After(db, Execution.AdvanceTo(db, o, target, confirmed))
  }

  /** The database after one command: what it committed, or what was there before. */
  function Apply(db: Db, c: Command): Db {
    match c
    case OfLedger(l) => ApplyLedger(db, l)
    case OfApprovals(a) => ApplyApprovals(db, a)
    case OfControl(s, command, actor, rows) => After(db, Control.ChangeFence(db, s, command, actor, rows))
    case OfExecution(e) => ApplyExecution(db, e)
  }

  /** The database after a run of commands, from any callers, in any order. */
  function Run(db: Db, cs: seq<Command>): Db {
    if cs == [] then db else Apply(Run(db, cs[..|cs| - 1]), cs[|cs| - 1])
  }

  lemma {:induction false} RunAppend(db: Db, before: seq<Command>, later: seq<Command>)
    ensures Run(db, before + later) == Run(Run(db, before), later)
  {
    hide Apply;
    var all := before + later;
    if later == [] {
      assert all == before;
    } else {
      assert all[..|all| - 1] == before + later[..|later| - 1];
      RunAppend(db, before, later[..|later| - 1]);
    }
  }

  /** An initial database: registered parties, funded budgets, drafted operations, nothing else. */
  predicate Initial(db: Db) {
    && (forall b | b in db.budgets :: db.budgets[b].available == db.budgets[b].allocation >= 0
                                   && db.budgets[b].reserved == db.budgets[b].finalizedSpend == 0)
    && (forall o | o in db.operations :: db.operations[o].state == L.Draft)
    && db.reservations == map[] && db.idempotency == map[] && db.broadcasts == map[] && db.history == []
    && db.approvals == map[] && db.authorizations == map[] && db.invalidated == {}
    && db.leases == map[] && db.recoveries == map[]
    && db.signed == map[] && db.attempts == [] && db.chain == map[] && db.effects == map[]
  }
}
