/** A signature is only ever made under the fences its authorization was issued under. */
module Signing {
  import opened Schema
  import opened Control
  import opened Execution
  import opened Moves
  import opened Evolution
  import opened Invariants
  import opened Authority
  import opened Money
  import Protocol
  import Refinement
  import Footprint
  import L = Lifecycle

  /** Some fence over the authorized operation has moved on since the authorization was issued. */
  predicate Outdated(db: Db, z: Authorization) {
    && z.bound.operationId in db.operations
    && var op := db.operations[z.bound.operationId];
    && op.agentId in db.registry.agentOwner
    && var owner := OwnerScope(db.registry.agentOwner[op.agentId]);
    || (SystemScope in db.fences && db.fences[SystemScope].version > z.fences.system.version)
    || (owner in db.fences && db.fences[owner].version > z.fences.owner.version)
    || (AgentScope(op.agentId) in db.fences && db.fences[AgentScope(op.agentId)].version > z.fences.agent.version)
    || (PolicyScope(op.policyId) in db.fences && db.fences[PolicyScope(op.policyId)].version > z.fences.policy.version)
  }

  predicate SignedUnder(db: Db, k: Id) {
    exists s | s in db.signed :: db.signed[s].authorizationId == k
  }

  lemma OutdatedForever(db: Db, next: Db, z: Authorization)
    requires Evolves(db, next) && Outdated(db, z)
    ensures Outdated(next, z)
  {}

  // ----- who may sign ----------------------------------------------------------------------

  /** The decision behind an authorization, and the approval if it has one, are of the kind its source demands. */
  predicate Decided(db: Db, z: Authorization) {
    && z.bound.decisionId in db.decisions
    && var d := db.decisions[z.bound.decisionId];
    && d.operationId == z.bound.operationId
    && d.hash == z.bound.decisionHash
    && match z.source
       case OwnerApproval(a) =>
         && d.verdict == RequireApproval
         && a in db.approvals && db.approvals[a].status == Consumed && db.approvals[a].approverId.Some?
       case AutonomousPolicy => d.verdict == AllowAutonomous
  }

  /** The envelope an authorization is bound to is the operation's latest, and unchanged. */
  predicate EnvelopeStands(db: Db, b: Binding) {
    && b.envelopeId in db.envelopes
    && db.envelopes[b.envelopeId].operationId == b.operationId
    && db.envelopes[b.envelopeId].revision == b.envelopeRevision
    && db.envelopes[b.envelopeId].hash == b.envelopeHash
    && NewestRevision(db, b.operationId, b.envelopeRevision)
  }

  /** A fence is there, active, and at the version it had when the authorization was issued. */
  predicate Unmoved(db: Db, scope: Scope, recorded: Fence) {
    scope in db.fences && db.fences[scope].state == Active && db.fences[scope].version == recorded.version
  }

  /** So are all four over the operation, its owner found through its wallet. */
  predicate FencesUnmoved(db: Db, op: Operation, f: Fences) {
    && Unmoved(db, SystemScope, f.system)
    && op.walletId in db.registry.walletOwner
    && Unmoved(db, OwnerScope(db.registry.walletOwner[op.walletId]), f.owner)
    && Unmoved(db, AgentScope(op.agentId), f.agent)
    && Unmoved(db, PolicyScope(op.policyId), f.policy)
  }

  /** All that a signer relies on, at the time of signing. */
  predicate Warranted(db: Db, o: Id, k: Id, now: Time) {
    && k in db.authorizations
    && k !in db.invalidated
    && var z := db.authorizations[k];
    && z.bound.operationId == o
    && now < z.expiresAt
    && o in db.operations && db.operations[o].state in {L.Authorized, L.Signing}
    && z.bound.reservationId in db.reservations
    && db.reservations[z.bound.reservationId].operationId == o
    && db.reservations[z.bound.reservationId].status == Authorized
    && EnvelopeStands(db, z.bound)
    && Decided(db, z)
    && db.decisions[z.bound.decisionId].policyId == db.operations[o].policyId
    && db.decisions[z.bound.decisionId].policyVersion == db.operations[o].policyVersion
    && FencesUnmoved(db, db.operations[o], z.fences)
  }

  /** In any database, whoever is let through to sign is warranted to. */
  lemma SignerIsWarranted(db: Db, o: Id, k: Id, now: Time)
    ensures BeginSigning(db, o, k, now).Commit? ==> Warranted(db, o, k, now)
    ensures forall id, s: SignedTransaction | (s.operationId, s.authorizationId) == (o, k) ::
      PersistSigned(db, id, s, now).Commit? ==> Warranted(db, o, k, now)
  {
    hide MaySign;
    MaySignIsWarranted(db, o, k, now);
  }

  lemma MaySignIsWarranted(db: Db, o: Id, k: Id, now: Time)
    ensures MaySign(db, o, k, now) ==> Warranted(db, o, k, now)
  {}

  /** What is left to check of an authorization in a reachable database. */
  predicate Entitled(db: Db, o: Id, k: Id, now: Time) {
    && k in db.authorizations
    && k !in db.invalidated
    && var z := db.authorizations[k];
    && z.bound.operationId == o
    && now < z.expiresAt
    && o in db.operations && db.operations[o].state in {L.Authorized, L.Signing}
    && z.bound.reservationId in db.reservations && db.reservations[z.bound.reservationId].status == Authorized
    && NewestRevision(db, o, z.bound.envelopeRevision)
    && AreCurrent(db, z.bound, z.fences)
  }

  /** The signer finds the owner through the wallet; it is the owner the authorization was fenced under. */
  lemma SignerOwner(db: Db, o: Id, k: Id, now: Time)
    requires Inv(db) && MaySign(db, o, k, now)
    ensures db.operations[o].agentId in db.registry.agentOwner
    ensures db.registry.walletOwner[db.operations[o].walletId] == db.registry.agentOwner[db.operations[o].agentId]
  {
    hide Conserved, Authorizations, SignedOnce, BroadcastsHold, LeasesSpent, Executed;
    assert Drawn(db, db.authorizations[k].bound.reservationId);
  }

  /** Whoever may sign holds an authorization whose four fences are the current ones, all active. */
  lemma SigningIsCurrent(db: Db, o: Id, k: Id, now: Time)
    requires Inv(db) && MaySign(db, o, k, now)
    ensures AreCurrent(db, db.authorizations[k].bound, db.authorizations[k].fences)
      && Unblocked(db.authorizations[k].fences)
  {
    hide Inv;
    SignerOwner(db, o, k, now);
    AuthorityOf(db, k);
  }

  /** In a reachable database the signer's whole query comes down to being entitled. */
  lemma MaySignIff(db: Db, o: Id, k: Id, now: Time)
    requires Inv(db)
    ensures MaySign(db, o, k, now) <==> Entitled(db, o, k, now)
  {
    hide Inv, MaySign, AreCurrent;
    if MaySign(db, o, k, now) {
      MaySignIsWarranted(db, o, k, now);
      SigningIsCurrent(db, o, k, now);
    }
    if Entitled(db, o, k, now) {
      EntitledMaySign(db, o, k, now);
    }
  }

  lemma EntitledMaySign(db: Db, o: Id, k: Id, now: Time)
    requires Inv(db) && Entitled(db, o, k, now)
    ensures MaySign(db, o, k, now)
  {
    hide Inv, FenceRises;
    AuthorityOf(db, k);
    ReservationOf(db, db.authorizations[k].bound.reservationId);
    if db.authorizations[k].source.OwnerApproval? {
      ApprovalOf(db, db.authorizations[k].source.approvalId);
    }
  }

  lemma ReservationOf(db: Db, k: Id)
    requires Inv(db) && k in db.reservations
    ensures Drawn(db, k)
  {}

  lemma OutdatedCannotSign(db: Db, o: Id, k: Id, now: Time)
    requires Inv(db) && k in db.authorizations && Outdated(db, db.authorizations[k])
    ensures !MaySign(db, o, k, now)
  {
    hide Inv;
    if MaySign(db, o, k, now) {
      SigningIsCurrent(db, o, k, now);
    }
  }

  lemma {:induction false} OutdatedPlayNeverSigns(db: Db, ms: seq<Move>, kind: Kind, k: Id)
    requires Inv(db) && LegalPlay(db, ms, kind)
    requires k in db.authorizations && Outdated(db, db.authorizations[k]) && !SignedUnder(db, k)
    ensures !SignedUnder(Play(db, ms), k)
  {
    hide Legal, Inv, Outdated, Evolves, Perform;
    if ms != [] {
      var front, m := Play(db, ms[..|ms| - 1]), ms[|ms| - 1];
      OutdatedPlayNeverSigns(db, ms[..|ms| - 1], kind, k);
      PlayKeeps(db, ms[..|ms| - 1], kind);
      PlayEvolves(db, ms[..|ms| - 1], kind);
      Persists(db, front, k);
      OutdatedMoveNeverSigns(front, m, k);
    }
  }

  lemma Persists(db: Db, next: Db, k: Id)
    requires Evolves(db, next) && k in db.authorizations && Outdated(db, db.authorizations[k])
    ensures k in next.authorizations && next.authorizations[k] == db.authorizations[k]
      && Outdated(next, next.authorizations[k])
  {
    OutdatedForever(db, next, db.authorizations[k]);
  }

  lemma OutdatedMoveNeverSigns(db: Db, m: Move, k: Id)
    requires Inv(db) && Legal(db, m)
    requires k in db.authorizations && Outdated(db, db.authorizations[k]) && !SignedUnder(db, k)
    ensures !SignedUnder(Perform(db, m), k)
  {
    hide Inv, Outdated, MaySign, LegalDraw, LegalPay, LegalPublish, LegalApproval, LegalRecord, LegalGrant;
    if m.Sign? {
      OutdatedCannotSign(db, m.signed.operationId, k, m.now);
    }
  }

  lemma {:induction false} OutdatedNeverSigned(db: Db, cs: seq<Protocol.Command>, k: Id)
    requires Inv(db) && k in db.authorizations && Outdated(db, db.authorizations[k]) && !SignedUnder(db, k)
    ensures !SignedUnder(Protocol.Run(db, cs), k)
  {
    hide Legal, Perform, Inv, Outdated, Evolves, Protocol.Apply, SignedUnder;
    if cs != [] {
      var front, c := Protocol.Run(db, cs[..|cs| - 1]), cs[|cs| - 1];
      OutdatedNeverSigned(db, cs[..|cs| - 1], k);
      RunKeeps(db, cs[..|cs| - 1]);
      RunEvolves(db, cs[..|cs| - 1]);
      Persists(db, front, k);
      var kind := Refinement.KindOfCommand(c);
      Refinement.Refines(front, c);
      var ms :| LegalPlay(front, ms, kind) && Play(front, ms) == Protocol.Apply(front, c);
      OutdatedPlayNeverSigns(front, ms, kind, k);
    }
  }

  // ----- a fence change outdates what it covers --------------------------------------------

  lemma RaiseOutdates(db: Db, scope: Scope, command: Command, z: Authorization)
    requires scope in db.fences && Recorded(db, z.bound, z.fences)
      && InScope(db, scope, db.operations[z.bound.operationId])
    ensures Outdated(RaiseFence(db, scope, command), z)
  {}

  lemma ChangeOutdates(db: Db, scope: Scope, command: Command, actor: Id, rows: Rows, k: Id)
    requires Inv(db) && ChangeFence(db, scope, command, actor, rows).Commit?
      && ChangeFence(db, scope, command, actor, rows).value.changed
    requires k in db.authorizations && db.authorizations[k].bound.operationId in db.operations
    requires InScope(db, scope, db.operations[db.authorizations[k].bound.operationId])
    ensures var next := ChangeFence(db, scope, command, actor, rows).db;
      k in next.authorizations && next.authorizations[k] == db.authorizations[k]
        && Outdated(next, next.authorizations[k])
  {
    hide Inv, Reaches, Evolves, LockTarget, InvalidateAffected, Outdated, Recorded;
    var z := db.authorizations[k];
    var locked := db.(fences := LockTarget(db, scope));
    var raised := RaiseFence(locked, scope, command);
    AuthorityOf(db, k);
    Refinement.LockTargetMoves(db, scope);
    ReachesEvolves(db, locked, Plain);
    RecordedPersists(db, locked, z.bound, z.fences);
    RaiseOutdates(locked, scope, command, z);
    Refinement.InvalidateMoves(raised, scope, actor, rows);
    ReachesEvolves(raised, InvalidateAffected(raised, scope, actor, rows).value, Raising);
    Persists(raised, InvalidateAffected(raised, scope, actor, rows).value, k);
  }

  /**
   An authorization that was not signed before a pause, resume or revoke over its operation is
   never signed after it, whatever happens later: a resume does not bring it back.
   */
  lemma NoSignatureAcrossAFence(db: Db, before: seq<Protocol.Command>, change: Protocol.Command,
      later: seq<Protocol.Command>, k: Id)
    requires Protocol.Initial(db) && change.OfControl?
    requires
      var at := Protocol.Run(db, before);
      var tx := ChangeFence(at, change.scope, change.command, change.actorId, change.rows);
      && tx.Commit? && tx.value.changed
      && k in at.authorizations && at.authorizations[k].bound.operationId in at.operations
      && InScope(at, change.scope, at.operations[at.authorizations[k].bound.operationId])
      && !SignedUnder(at, k)
    ensures !SignedUnder(Protocol.Run(Protocol.Apply(Protocol.Run(db, before), change), later), k)
  {
    hide Inv, ChangeFence, Outdated, InScope;
    var at := Protocol.Run(db, before);
    var next := Protocol.Apply(at, change);
    Always(db, before);
    ChangeOutdates(at, change.scope, change.command, change.actorId, change.rows, k);
    StepKeeps(at, change);
    Refinement.Refines(at, change);
    SignsNothing(at, next, Raising);
    OutdatedNeverSigned(next, later, k);
  }

  /** Only the signing transaction adds a signed transaction. */
  lemma SignsNothing(db: Db, next: Db, kind: Kind)
    requires Reaches(db, next, kind) && kind != Kind.Signing
    ensures next.signed == db.signed
  {
    hide Reaches, Footprint.LeavesReservations, Footprint.LeavesApprovals;
    Footprint.ReachLeaves(db, next, kind);
  }
}
