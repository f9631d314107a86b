/** Revoking is for good: a revoked owner, agent or policy stays revoked, and nothing new comes about under it. */
module Revocation {
  import opened Schema
  import opened Moves
  import opened Evolution
  import opened Invariants
  import opened Protocol
  import opened ControlOutcomes
  import opened Money
  import Authority
  import Signing
  import Execution
  import Footprint
  import Refinement
  import Control

  predicate IsRevoked(db: Db, scope: Scope) {
    scope in db.fences && db.fences[scope].state == Revoked
  }

  /** Nothing is reserved, put up for approval, authorized or signed for an operation under the scope. */
  predicate NothingNew(db: Db, next: Db, scope: Scope) {
    && (forall k | k in next.reservations && k !in db.reservations ::
          !Covers(next, scope, next.reservations[k].operationId))
    && (forall a | a in next.approvals && a !in db.approvals ::
          !Covers(next, scope, next.approvals[a].bound.operationId))
    && (forall z | z in next.authorizations && z !in db.authorizations ::
          !Covers(next, scope, next.authorizations[z].bound.operationId))
    && (forall s | s in next.signed && s !in db.signed :: !Covers(next, scope, next.signed[s].operationId))
  }

  lemma NotOpen(db: Db, scope: Scope, o: Id)
    requires IsRevoked(db, scope) && Open(db, o)
    ensures !Covers(db, scope, o)
  {}

  lemma CurrentIsOpen(db: Db, b: Binding, f: Fences)
    requires AreCurrent(db, b, f) && Unblocked(f) && OwnPolicy(db, b)
    ensures Open(db, b.operationId)
  {}

  lemma CoversEvolves(db: Db, next: Db, scope: Scope, o: Id)
    requires Evolves(db, next)
    ensures Covers(next, scope, o) <==> Covers(db, scope, o)
  {}

  // ----- moves -----------------------------------------------------------------------------

  lemma DrawsElsewhere(db: Db, m: Move, scope: Scope)
    requires Legal(db, m) && IsRevoked(db, scope)
    ensures forall k | k in Reservations(db, m) && k !in db.reservations ::
      !Covers(db, scope, Reservations(db, m)[k].operationId)
  {
    hide Covers, LegalPay, LegalApproval, LegalGrant, LegalSign, LegalRecord, LegalClaim, LegalRaise, Accounted;
    if m.Draw? {
      NotOpen(db, scope, m.reservation.operationId);
    } else {
      KeysKept(db, m);
    }
  }

  lemma ApprovesElsewhere(db: Db, m: Move, scope: Scope)
    requires Legal(db, m) && IsRevoked(db, scope)
    ensures forall a | a in ApprovalRows(db, m) && a !in db.approvals ::
      !Covers(db, scope, ApprovalRows(db, m)[a].bound.operationId)
  {
    hide Covers, LegalPay, LegalGrant, LegalSign, LegalRecord, LegalClaim, LegalRaise, LegalDraw, Sealed;
    if m.AddApproval? {
      CurrentIsOpen(db, m.approval.bound, m.approval.fences);
      NotOpen(db, scope, m.approval.bound.operationId);
    }
  }

  lemma GrantsElsewhere(db: Db, m: Move, scope: Scope)
    requires Inv(db) && m.Grant? && Legal(db, m) && IsRevoked(db, scope)
    ensures !Covers(db, scope, m.authorization.bound.operationId)
  {
    hide Covers, Conserved, Drawings, SignedOnce, BroadcastsHold, LeasesSpent, Executed, Authorizations, Sealed,
        NewestRevision, LegalConsumption, LegalAutonomy, FenceRises;
    var z := m.authorization;
    RecordedAtGrant(db, m.authorizationId, z, m.reservation, m.now);
    CurrentIsOpen(db, z.bound, z.fences);
    NotOpen(db, scope, z.bound.operationId);
  }

  lemma SignsElsewhere(db: Db, m: Move, scope: Scope)
    requires Inv(db) && m.Sign? && Legal(db, m) && IsRevoked(db, scope)
    ensures !Covers(db, scope, m.signed.operationId)
  {
    hide Covers, Inv, Execution.MaySign, Sealed, Grounds, AreCurrent;
    var s := m.signed;
    Signing.SigningIsCurrent(db, s.operationId, s.authorizationId, m.now);
    Signing.MaySignIsWarranted(db, s.operationId, s.authorizationId, m.now);
    Authority.AuthorityOf(db, s.authorizationId);
    var z := db.authorizations[s.authorizationId];
    CurrentIsOpen(db, z.bound, z.fences);
    NotOpen(db, scope, s.operationId);
  }

  lemma MoveElsewhere(db: Db, m: Move, scope: Scope)
    requires Inv(db) && Legal(db, m) && IsRevoked(db, scope)
    ensures NothingNew(db, Perform(db, m), scope)
  {
    hide Covers, Inv, Legal, Evolves, Operations, History, Reservations, Budgets, Broadcasts, Leases, ApprovalRows,
        Attempts, IsRevoked;
    MoveEvolves(db, m);
    forall o ensures Covers(Perform(db, m), scope, o) <==> Covers(db, scope, o) {
      CoversEvolves(db, Perform(db, m), scope, o);
    }
    DrawsElsewhere(db, m, scope);
    ApprovesElsewhere(db, m, scope);
    if m.Grant? {
      GrantsElsewhere(db, m, scope);
    } else if m.Sign? {
      SignsElsewhere(db, m, scope);
    }
  }

  // ----- runs ------------------------------------------------------------------------------

  lemma NothingNewReflexive(db: Db, scope: Scope)
    ensures NothingNew(db, db, scope)
  {}

  lemma NothingNewTransitive(a: Db, b: Db, c: Db, scope: Scope)
    requires NothingNew(a, b, scope) && NothingNew(b, c, scope) && Evolves(b, c)
    ensures NothingNew(a, c, scope)
  {
    hide Covers, PoliciesEvolve, BudgetsEvolve, OperationsEvolve, FencesRise, BroadcastsEvolve, LeasesEvolve, PlansGrow,
        TrailGrows;
    forall o ensures Covers(c, scope, o) <==> Covers(b, scope, o) {
      CoversEvolves(b, c, scope, o);
    }
  }

  /** A revoked fence of anything but the system never changes again. */
  lemma StaysRevoked(db: Db, next: Db, scope: Scope)
    requires Evolves(db, next) && IsRevoked(db, scope) && scope != SystemScope
    ensures IsRevoked(next, scope) && next.fences[scope] == db.fences[scope]
  {}

  lemma {:induction false} PlayElsewhere(db: Db, ms: seq<Move>, kind: Kind, scope: Scope)
    requires Inv(db) && LegalPlay(db, ms, kind) && IsRevoked(db, scope) && scope != SystemScope
    ensures NothingNew(db, Play(db, ms), scope)
  {
    hide Inv, Legal, May, Perform, Evolves, NothingNew, IsRevoked;
    NothingNewReflexive(db, scope);
    if ms != [] {
      var before, m := ms[..|ms| - 1], ms[|ms| - 1];
      var front := Play(db, before);
      PlayElsewhere(db, before, kind, scope);
      PlayKeeps(db, before, kind);
      PlayEvolves(db, before, kind);
      StaysRevoked(db, front, scope);
      MoveElsewhere(front, m, scope);
      MoveEvolves(front, m);
      NothingNewTransitive(db, front, Play(db, ms), scope);
    }
  }

  lemma {:induction false} RunElsewhere(db: Db, cs: seq<Command>, scope: Scope)
    requires Inv(db) && IsRevoked(db, scope) && scope != SystemScope
    ensures NothingNew(db, Run(db, cs), scope)
  {
    hide Inv, Apply, Evolves, NothingNew, IsRevoked, Reaches, Legal, Perform;
    NothingNewReflexive(db, scope);
    if cs != [] {
      var before, c := cs[..|cs| - 1], cs[|cs| - 1];
      var front := Run(db, before);
      RunElsewhere(db, before, scope);
      RunKeeps(db, before);
      RunEvolves(db, before);
      StaysRevoked(db, front, scope);
      Refinement.Refines(front, c);
      ReachElsewhere(front, Apply(front, c), Refinement.KindOfCommand(c), scope);
      StepEvolves(front, c);
      NothingNewTransitive(db, front, Run(db, cs), scope);
    }
  }

  lemma ReachElsewhere(db: Db, next: Db, kind: Kind, scope: Scope)
    requires Inv(db) && Reaches(db, next, kind) && IsRevoked(db, scope) && scope != SystemScope
    ensures NothingNew(db, next, scope)
  {
    hide Inv, Legal, Perform, NothingNew, IsRevoked;
    var ms :| LegalPlay(db, ms, kind) && Play(db, ms) == next;
    PlayElsewhere(db, ms, kind, scope);
  }

  /** A revoke, as its caller makes it. */
  function Revoking(db: Db, scope: Scope, actor: Id, rows: Control.Rows): Tx<Control.Change> {
    Control.ChangeFence(db, scope, Control.Revoke, actor, rows)
  }

  /**
   After a revoke that commits, in every later run: the fence stays revoked, and nothing is reserved,
   put up for approval, authorized or signed for any operation under it.
   */
  lemma RevokedForever(db: Db, before: seq<Command>, scope: Scope, actor: Id, rows: Control.Rows, later: seq<Command>)
    requires Initial(db) && Revoking(Run(db, before), scope, actor, rows).Commit?
    ensures
      var at := Revoking(Run(db, before), scope, actor, rows).db;
      IsRevoked(Run(at, later), scope) && NothingNew(at, Run(at, later), scope)
  {
    hide Inv, Evolves, Control.ChangeFence, NothingNew, Finds, Reaches, Run;
    var prior := Run(db, before);
    var at := Revoking(prior, scope, actor, rows).db;
    Always(db, before);
    var fence := ChangeOutcome(prior, scope, Control.Revoke, actor, rows);
    Refinement.ControlRefines(prior, scope, Control.Revoke, actor, rows);
    ReachesKeeps(prior, at, Raising);
    RunEvolves(at, later);
    StaysRevoked(at, Run(at, later), scope);
    RunElsewhere(at, later, scope);
  }

  // ----- where fences come from ------------------------------------------------------------

  /** The command changed the scope's fence to what it is. */
  predicate Commanded(at: Db, c: Command, scope: Scope, f: Fence) {
    && c.OfControl?
    && c.scope == scope
    && ControlOutcomes.Leaves(c.command, f.state)
    && (c.command == Control.Revoke <==> scope != SystemScope)
    && (scope in at.fences ==> f.version == at.fences[scope].version + 1 && f.state != at.fences[scope].state)
  }

  /** The fence has been changed since it was first there. */
  predicate HasChanged(db: Db, now: Db, scope: Scope) {
    && scope in now.fences
    && if scope in db.fences then now.fences[scope] != db.fences[scope] else now.fences[scope].version > 1
  }

  lemma Changes(db: Db, c: Command)
    requires c.OfControl?
    ensures Apply(db, c) == After(db, Control.ChangeFence(db, c.scope, c.command, c.actorId, c.rows))
  {
    hide Control.ChangeFence;
  }

  lemma CommandStep(db: Db, c: Command, next: Db, scope: Scope)
    requires next == Apply(db, c) && scope in next.fences
    requires if scope in db.fences then next.fences[scope] != db.fences[scope] else next.fences[scope].version > 1
    ensures Commanded(db, c, scope, next.fences[scope])
  {
    hide Apply, Control.ChangeFence, Footprint.LeavesReservations, Footprint.LeavesApprovals, Reaches, Evolves;
    Footprint.StepLeaves(db, c);
    if Refinement.KindOfCommand(c) == Raising {
      Changes(db, c);
      var prior := ChangeOutcome(db, c.scope, c.command, c.actorId, c.rows);
    } else {
      Refinement.Refines(db, c);
      CreatedFirst(db, next, Refinement.KindOfCommand(c), scope);
    }
  }

  lemma {:induction false} PlayCreates(db: Db, ms: seq<Move>, kind: Kind, scope: Scope)
    requires LegalPlay(db, ms, kind) && kind != Raising && scope !in db.fences
    ensures scope in Play(db, ms).fences ==> Play(db, ms).fences[scope].version == 1
  {
    hide LegalDraw, LegalPay, LegalPublish, LegalApproval, LegalGrant, LegalSign, LegalRecord, LegalClaim, LegalRaise,
        Operations, History, Reservations, Budgets, Broadcasts, Leases, ApprovalRows, Attempts;
    if ms != [] {
      PlayCreates(db, ms[..|ms| - 1], kind, scope);
    }
  }

  lemma CreatedFirst(db: Db, next: Db, kind: Kind, scope: Scope)
    requires Reaches(db, next, kind) && kind != Raising && scope !in db.fences
    ensures scope in next.fences ==> next.fences[scope].version == 1
  {
    hide Legal, Perform;
    var ms :| LegalPlay(db, ms, kind) && Play(db, ms) == next;
    PlayCreates(db, ms, kind, scope);
  }

  /** Every fence that has changed is in the state that the last command to change it is for. */
  lemma {:induction false} FenceWasCommanded(db: Db, cs: seq<Command>, scope: Scope) returns (i: nat)
    requires HasChanged(db, Run(db, cs), scope)
    ensures i < |cs| && Commanded(Run(db, cs[..i]), cs[i], scope, Run(db, cs).fences[scope])
  {
    hide Apply, Commanded;
    if cs != [] {
      var before := cs[..|cs| - 1];
      var front, now := Run(db, before), Run(db, cs);
      if scope in front.fences && front.fences[scope] == now.fences[scope] {
        i := FenceWasCommanded(db, before, scope);
        assert before[..i] == cs[..i];
      } else {
        i := |before|;
        RunEvolves(db, before);
        CommandStep(front, cs[i], now, scope);
      }
    }
  }
}
