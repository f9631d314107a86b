/**
 Who agreed to what, over every run: approvals, authorizations and signatures exist only by the
 command made for them, at a moment when it was allowed, and never again once their scope is revoked.
 */
module Consent {
  import opened Texts
  import opened Schema
  import opened Moves
  import opened Evolution
  import opened Invariants
  import opened Protocol
  import opened LedgerOutcomes
  import opened ApprovalOutcomes
  import Authority
  import Signing
  import Footprint
  import Refinement
  import Ledger
  import Approvals
  import Execution

  // ----- the commands, one by one ----------------------------------------------------------

  lemma Approves(db: Db, c: Command)
    requires c.OfApprovals? && c.approvals.Approve?
    ensures var a := c.approvals;
      Apply(db, c) == After(db, Approvals.Approve(db, a.approvalId, a.approverId, a.actorId, a.now))
  {
    hide Approvals.Approve;
  }

  lemma Consumes(db: Db, c: Command)
    requires c.OfApprovals? && c.approvals.Consume?
    ensures var a := c.approvals;
      Apply(db, c) == After(db, Approvals.Consume(db, a.approvalId, a.claim, a.consumerId, a.actorId, a.now))
  {
    hide Approvals.Consume;
  }

  lemma Automates(db: Db, c: Command)
    requires c.OfApprovals? && c.approvals.Autonomous?
    ensures Apply(db, c) == After(db, Approvals.AuthorizeAutonomously(db, c.approvals.autonomousRequest,
      c.approvals.now))
  {
    hide Approvals.AuthorizeAutonomously;
  }

  lemma Expires(db: Db, c: Command)
    requires c.OfLedger? && c.ledger.Expire?
    ensures Apply(db, c) == After(db, Ledger.Expire(db, c.ledger.reservationId, c.ledger.now))
  {
    hide Ledger.Expire;
  }

  lemma Persists(db: Db, c: Command)
    requires c.OfExecution? && c.execution.PersistSigned?
    ensures Apply(db, c) == After(db, Execution.PersistSigned(db, c.execution.signedId, c.execution.signed,
      c.execution.now))
  {
    hide Execution.PersistSigned;
  }

  // ----- expiry ----------------------------------------------------------------------------

  predicate ExpiredIn(rs: map<Id, Reservation>, k: Id) {
    k in rs && rs[k].status == Expired
  }

  /** The time of the reservation, or of an approval it is held for, had come. */
  predicate OutOfTime(at: Db, c: Command, k: Id) {
    match c
    case OfLedger(Expire(j, now)) => j == k && k in at.reservations && at.reservations[k].expiresAt <= now
    case OfApprovals(Approve(a, _, _, now)) => ApprovalOutOfTime(at, a, k, now)
    case OfApprovals(Consume(a, _, _, _, now)) => ApprovalOutOfTime(at, a, k, now)
    case _ => false
  }

  predicate ApprovalOutOfTime(at: Db, a: Id, k: Id, now: Time) {
    a in at.approvals && at.approvals[a].bound.reservationId == k && at.approvals[a].expiresAt <= now
  }

  lemma EndsInTime(db: Db, next: Db, a: Id, actor: Id, now: Time, report: Approvals.Report, k: Id)
    requires a in db.approvals && EndsAs(db, next, a, actor, now, report)
    requires ExpiredIn(next.reservations, k) && !ExpiredIn(db.reservations, k)
    ensures ApprovalOutOfTime(db, a, k, now)
  {
    hide AreCurrent;
  }

  lemma ApproveExpires(db: Db, a: Id, approver: Id, actor: Id, now: Time, k: Id)
    requires Inv(db) && !ExpiredIn(db.reservations, k)
    requires ExpiredIn(After(db, Approvals.Approve(db, a, approver, actor, now)).reservations, k)
    ensures ApprovalOutOfTime(db, a, k, now)
  {
    hide Inv, Approvals.Approve, EndsAs, Ready, Inopportune, InStep;
    ApproveOutcome(db, a, approver, actor, now);
    var tx := Approvals.Approve(db, a, approver, actor, now);
    if tx.Commit? && EndsAs(db, tx.db, a, actor, now, tx.value) {
      EndsInTime(db, tx.db, a, actor, now, tx.value, k);
    }
  }

  lemma ConsumeExpires(db: Db, a: Id, claim: Approvals.Claim, consumer: Id, actor: Id, now: Time, k: Id)
    requires Inv(db) && !ExpiredIn(db.reservations, k)
    requires ExpiredIn(After(db, Approvals.Consume(db, a, claim, consumer, actor, now)).reservations, k)
    ensures ApprovalOutOfTime(db, a, k, now)
  {
    hide Inv, Approvals.Consume, EndsAs, Ready, Inopportune, InStep;
    ConsumeOutcome(db, a, claim, consumer, actor, now);
    var tx := Approvals.Consume(db, a, claim, consumer, actor, now);
    if tx.Commit? && tx.value.NotGranted? {
      EndsInTime(db, tx.db, a, actor, now, tx.value.report, k);
    }
  }

  lemma ExpireExpires(db: Db, j: Id, now: Time, k: Id)
    requires Inv(db) && !ExpiredIn(db.reservations, k)
    requires ExpiredIn(After(db, Ledger.Expire(db, j, now)).reservations, k)
    ensures j == k && k in db.reservations && db.reservations[k].expiresAt <= now
  {
    hide Inv, Ledger.Expire;
    ExpireOutcome(db, j, now);
  }

  lemma ExpiryStep(db: Db, c: Command, next: Db, k: Id)
    requires Inv(db) && next == Apply(db, c)
    requires ExpiredIn(next.reservations, k) && !ExpiredIn(db.reservations, k)
    ensures OutOfTime(db, c, k)
  {
    hide Inv, Apply, Approvals.Approve, Approvals.Consume, Ledger.Expire, Footprint.LeavesApprovals,
        Footprint.LeavesRecords, ApprovalOutOfTime;
    Footprint.StepLeaves(db, c);
    assert Refinement.KindOfCommand(c) in {Expiring, Approving, Consuming};
    match c
    case OfLedger(l) =>
      Expires(db, c);
      ExpireExpires(db, l.reservationId, l.now, k);
    case OfApprovals(a) =>
      if a.Approve? {
        Approves(db, c);
        ApproveExpires(db, a.approvalId, a.approverId, a.actorId, a.now, k);
      } else {
        Consumes(db, c);
        ConsumeExpires(db, a.approvalId, a.claim, a.consumerId, a.actorId, a.now, k);
      }
    case _ =>
  }

  /**
   A reservation expires only in time: at or after its own expiry, or when an approval it is held
   for is decided on at or after the approval's.
   */
  lemma {:induction false} ExpiredInTime(db: Db, cs: seq<Command>, k: Id) returns (i: nat)
    requires Initial(db) && ExpiredIn(Run(db, cs).reservations, k)
    ensures i < |cs| && OutOfTime(Run(db, cs[..i]), cs[i], k)
  {
    hide Apply, OutOfTime, Inv;
    if cs != [] {
      var before := cs[..|cs| - 1];
      var front := Run(db, before);
      if ExpiredIn(front.reservations, k) {
        i := ExpiredInTime(db, before, k);
        assert before[..i] == cs[..i];
      } else {
        i := |before|;
        Always(db, before);
        ExpiryStep(front, cs[i], Run(db, cs), k);
      }
    }
  }

  // ----- approvals -------------------------------------------------------------------------

  /** The approval stands approved, or was until it was consumed, by the approver. */
  predicate ApprovedIn(approvals: map<Id, Approval>, k: Id, approver: Option<Id>) {
    k in approvals && approvals[k].status in {Approved, Consumed} && approvals[k].approverId == approver
  }

  /** The approver approved it while it was pending and everything it rests on was in order. */
  predicate ApprovesReady(at: Db, c: Command, k: Id, approver: Option<Id>) {
    && c.OfApprovals? && c.approvals.Approve?
    && c.approvals.approvalId == k
    && Some(c.approvals.approverId) == approver
    && k in at.approvals && at.approvals[k].status == Pending
    && Ready(at, at.approvals[k], c.approvals.now)
  }

  lemma EndsUndecided(db: Db, next: Db, a: Id, actor: Id, now: Time, report: Approvals.Report, k: Id,
      approver: Option<Id>)
    requires a in db.approvals && EndsAs(db, next, a, actor, now, report) && ApprovedIn(next.approvals, k, approver)
    ensures ApprovedIn(db.approvals, k, approver)
  {
    hide AreCurrent;
  }

  lemma ApproveApproves(db: Db, a: Id, approver: Id, actor: Id, now: Time, k: Id, who: Option<Id>)
    requires Inv(db) && !ApprovedIn(db.approvals, k, who)
    requires ApprovedIn(After(db, Approvals.Approve(db, a, approver, actor, now)).approvals, k, who)
    ensures ApprovesReady(db, OfApprovals(Approve(a, approver, actor, now)), k, who)
  {
    hide Inv, Approvals.Approve, EndsAs, Ready, Inopportune, InStep;
    ApproveOutcome(db, a, approver, actor, now);
    var tx := Approvals.Approve(db, a, approver, actor, now);
    if tx.Commit? && EndsAs(db, tx.db, a, actor, now, tx.value) {
      EndsUndecided(db, tx.db, a, actor, now, tx.value, k, who);
    }
  }

  lemma ConsumeApproves(db: Db, a: Id, claim: Approvals.Claim, consumer: Id, actor: Id, now: Time, k: Id,
      who: Option<Id>)
    requires Inv(db) && ApprovedIn(After(db, Approvals.Consume(db, a, claim, consumer, actor, now)).approvals, k, who)
    ensures ApprovedIn(db.approvals, k, who)
  {
    hide Inv, Approvals.Consume, EndsAs, Ready, Inopportune, InStep, GrantedAs;
    ConsumeOutcome(db, a, claim, consumer, actor, now);
    var tx := Approvals.Consume(db, a, claim, consumer, actor, now);
    if tx.Commit? && tx.value.NotGranted? {
      EndsUndecided(db, tx.db, a, actor, now, tx.value.report, k, who);
    }
  }

  lemma ApprovalStep(db: Db, c: Command, next: Db, k: Id, who: Option<Id>)
    requires Inv(db) && next == Apply(db, c)
    requires ApprovedIn(next.approvals, k, who) && !ApprovedIn(db.approvals, k, who)
    ensures ApprovesReady(db, c, k, who)
  {
    hide Inv, Apply, Approvals.Approve, Approvals.Consume, Footprint.LeavesReservations, Footprint.LeavesRecords,
        ApprovesReady;
    Footprint.StepLeaves(db, c);
    assert Refinement.KindOfCommand(c) in {Approving, Consuming};
    var a := c.approvals;
    if a.Approve? {
      Approves(db, c);
      ApproveApproves(db, a.approvalId, a.approverId, a.actorId, a.now, k, who);
    } else {
      Consumes(db, c);
      ConsumeApproves(db, a.approvalId, a.claim, a.consumerId, a.actorId, a.now, k, who);
    }
  }

  /** Every approval that stands approved, or was consumed, was approved by the very approver it names, in time. */
  lemma {:induction false} ApprovedByApprover(db: Db, cs: seq<Command>, k: Id, who: Option<Id>) returns (i: nat)
    requires Initial(db) && ApprovedIn(Run(db, cs).approvals, k, who)
    ensures i < |cs| && ApprovesReady(Run(db, cs[..i]), cs[i], k, who)
  {
    hide Apply, ApprovesReady, Inv;
    if cs != [] {
      var before := cs[..|cs| - 1];
      var front := Run(db, before);
      if ApprovedIn(front.approvals, k, who) {
        i := ApprovedByApprover(db, before, k, who);
        assert before[..i] == cs[..i];
      } else {
        i := |before|;
        Always(db, before);
        ApprovalStep(front, cs[i], Run(db, cs), k, who);
      }
    }
  }

  // ----- authorizations --------------------------------------------------------------------

  /** An owner's approval was consumed while ready, or the policy was allowed to authorize by itself. */
  predicate Allowed(at: Db, c: Command, id: Id, z: Authorization) {
    && c.OfApprovals?
    && match z.source
       case OwnerApproval(k) =>
         && c.approvals.Consume?
         && c.approvals.approvalId == k && id == AuthorizationOf(k)
         && Claimable(at, k, c.approvals.claim)
         && Ready(at, at.approvals[k], c.approvals.now)
         && z == Authorization(OwnerApproval(k), at.approvals[k].bound, at.approvals[k].issuedAt,
           at.approvals[k].expiresAt, c.approvals.consumerId, z.consumptionNonce, at.approvals[k].fences)
       case AutonomousPolicy =>
         && c.approvals.Autonomous?
         && c.approvals.autonomousRequest.authorizationId == id
         && c.approvals.autonomousRequest.bound == z.bound
         && MayAutomate(at, z.bound, c.approvals.now)
  }

  lemma EndsGrantNothing(db: Db, next: Db, a: Id, actor: Id, now: Time, report: Approvals.Report)
    requires a in db.approvals && EndsAs(db, next, a, actor, now, report)
    ensures next.authorizations == db.authorizations
  {
    hide AreCurrent;
  }

  lemma ConsumeGrants(db: Db, a: Id, claim: Approvals.Claim, consumer: Id, actor: Id, now: Time, id: Id)
    requires Inv(db) && id !in db.authorizations
    ensures var next := After(db, Approvals.Consume(db, a, claim, consumer, actor, now));
      id in next.authorizations ==>
        Allowed(db, OfApprovals(Consume(a, claim, consumer, actor, now)), id, next.authorizations[id])
  {
    hide Inv, Approvals.Consume, EndsAs, Ready, Inopportune, InStep, MayAutomate;
    ConsumeOutcome(db, a, claim, consumer, actor, now);
    var tx := Approvals.Consume(db, a, claim, consumer, actor, now);
    if tx.Commit? && tx.value.NotGranted? {
      EndsGrantNothing(db, tx.db, a, actor, now, tx.value.report);
    }
  }

  lemma AutonomousGrants(db: Db, q: Approvals.AutonomousRequest, now: Time, id: Id)
    requires Inv(db) && id !in db.authorizations
    ensures var next := After(db, Approvals.AuthorizeAutonomously(db, q, now));
      id in next.authorizations ==> Allowed(db, OfApprovals(Autonomous(q, now)), id, next.authorizations[id])
  {
    hide Inv, Approvals.AuthorizeAutonomously, MayAutomate, StillAutomated, FencesTaken;
    if q.authorizationId in db.authorizations {
      AutonomousAgain(db, q, now);
    } else {
      AutonomousOutcome(db, q, now);
    }
  }

  lemma GrantStep(db: Db, c: Command, next: Db, id: Id)
    requires Inv(db) && next == Apply(db, c) && id !in db.authorizations && id in next.authorizations
    ensures Allowed(db, c, id, next.authorizations[id])
  {
    hide Inv, Apply, Approvals.Consume, Approvals.AuthorizeAutonomously, Footprint.LeavesReservations,
        Footprint.LeavesApprovals, Allowed;
    Footprint.StepLeaves(db, c);
    assert Refinement.KindOfCommand(c) in {Consuming, Granting};
    var a := c.approvals;
    if a.Consume? {
      Consumes(db, c);
      ConsumeGrants(db, a.approvalId, a.claim, a.consumerId, a.actorId, a.now, id);
    } else {
      Automates(db, c);
      AutonomousGrants(db, a.autonomousRequest, a.now, id);
    }
  }

  /**
   Every authorization came from consuming an approval that was ready, or from a policy that was
   active and allowed to authorize by itself, within the lifetimes of envelope and reservation.
   */
  lemma {:induction false} AuthorizationWasAllowed(db: Db, cs: seq<Command>, id: Id) returns (i: nat)
    requires Initial(db) && id in Run(db, cs).authorizations
    ensures i < |cs| && Allowed(Run(db, cs[..i]), cs[i], id, Run(db, cs).authorizations[id])
  {
    hide Apply, Allowed, Inv, Evolves;
    if cs != [] {
      var before := cs[..|cs| - 1];
      var front := Run(db, before);
      if id in front.authorizations {
        i := AuthorizationWasAllowed(db, before, id);
        assert before[..i] == cs[..i];
        StepEvolves(front, cs[|cs| - 1]);
        SameRecords(front, Run(db, cs));
      } else {
        i := |before|;
        Always(db, before);
        GrantStep(front, cs[i], Run(db, cs), id);
      }
    }
  }

  lemma SameRecords(db: Db, next: Db)
    requires Evolves(db, next)
    ensures Grows(db.authorizations, next.authorizations) && Grows(db.signed, next.signed)
  {}

  /** What stands behind an autonomous authorization, in every reachable database. */
  lemma AutonomousGrounds(db: Db, cs: seq<Command>, id: Id)
    requires Initial(db) && id in Run(db, cs).authorizations
    requires Run(db, cs).authorizations[id].source == AutonomousPolicy
    ensures var now := Run(db, cs);
      var b := now.authorizations[id].bound;
      && b.envelopeId in now.envelopes && b.decisionId in now.decisions
      && !now.envelopes[b.envelopeId].payload.ownerApproval
      && now.envelopes[b.envelopeId].payload.riskAllowed
      && now.envelopes[b.envelopeId].hash == b.envelopeHash == EnvelopeDigest(now.envelopes[b.envelopeId].payload)
      && now.decisions[b.decisionId].verdict == AllowAutonomous
      && now.decisions[b.decisionId].hash == b.decisionHash
  {
    hide Run, Inv, Recorded;
    Always(db, cs);
    Authority.AuthorityOf(Run(db, cs), id);
  }

  // ----- signatures ------------------------------------------------------------------------

  /** The signature was persisted as it stands, by someone warranted to, under current active fences. */
  predicate SignedWarranted(at: Db, c: Command, id: Id, s: SignedTransaction) {
    && c.OfExecution? && c.execution.PersistSigned?
    && c.execution.signedId == id
    && c.execution.signed == s
    && Signing.Warranted(at, s.operationId, s.authorizationId, c.execution.now)
    && AreCurrent(at, at.authorizations[s.authorizationId].bound, at.authorizations[s.authorizationId].fences)
    && Unblocked(at.authorizations[s.authorizationId].fences)
  }

  lemma PersistSigns(db: Db, id: Id, s: SignedTransaction, now: Time, k: Id)
    requires Inv(db) && k !in db.signed
    ensures var next := After(db, Execution.PersistSigned(db, id, s, now));
      k in next.signed ==> SignedWarranted(db, OfExecution(PersistSigned(id, s, now)), k, next.signed[k])
  {
    hide Inv, Execution.MaySign, Signing.Warranted, AreCurrent;
    Signing.MaySignIsWarranted(db, s.operationId, s.authorizationId, now);
    if Execution.MaySign(db, s.operationId, s.authorizationId, now) {
      Signing.SigningIsCurrent(db, s.operationId, s.authorizationId, now);
      Known(db, s.operationId, s.authorizationId, now);
    }
  }

  lemma Known(db: Db, o: Id, z: Id, now: Time)
    requires Signing.Warranted(db, o, z, now)
    ensures z in db.authorizations && o in db.operations
  {}

  lemma SignatureStep(db: Db, c: Command, next: Db, id: Id)
    requires Inv(db) && next == Apply(db, c) && id !in db.signed && id in next.signed
    ensures SignedWarranted(db, c, id, next.signed[id])
  {
    hide Inv, Apply, Execution.PersistSigned, Footprint.LeavesReservations, Footprint.LeavesApprovals, SignedWarranted;
    Footprint.StepLeaves(db, c);
    assert Refinement.KindOfCommand(c) == Kind.Signing;
    Persists(db, c);
    PersistSigns(db, c.execution.signedId, c.execution.signed, c.execution.now, id);
  }

  /**
   Every signed transaction was persisted by someone whose authorization had not run out, was not
   invalidated and rested on an authorized reservation, the latest envelope and the decision its
   source demands, under the current fences, all active.
   */
  lemma {:induction false} SignatureWasWarranted(db: Db, cs: seq<Command>, id: Id) returns (i: nat)
    requires Initial(db) && id in Run(db, cs).signed
    ensures i < |cs| && SignedWarranted(Run(db, cs[..i]), cs[i], id, Run(db, cs).signed[id])
  {
    hide Apply, SignedWarranted, Inv, Evolves;
    if cs != [] {
      var before := cs[..|cs| - 1];
      var front := Run(db, before);
      if id in front.signed {
        i := SignatureWasWarranted(db, before, id);
        assert before[..i] == cs[..i];
        StepEvolves(front, cs[|cs| - 1]);
        SameRecords(front, Run(db, cs));
      } else {
        i := |before|;
        Always(db, before);
        SignatureStep(front, cs[i], Run(db, cs), id);
      }
    }
  }
}
