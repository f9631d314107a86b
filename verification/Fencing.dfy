/** Reading and creating control fences (packages/approvals/src/control.ts:548-702). */
module Fencing {
  import opened Schema

  predicate AllActive(f: Fences) {
    f.system.state == f.owner.state == f.agent.state == f.policy.state == Active
  }

  /** The four scopes over one operation, in locking order. */
  function Scopes(ownerId: Id, agentId: Id, policyId: Id): set<Scope> {
    {SystemScope, OwnerScope(ownerId), AgentScope(agentId), PolicyScope(policyId)}
  }

  /** A fence as it is first created: at version 1, and revoked exactly when it is that of a revoked policy. */
  predicate IsFirst(f: Fence, policies: map<Id, Policy>, scope: Scope) {
    && f.version == 1
    && f.state != Paused
    && (f.state == Revoked <==>
          exists p | p in policies :: scope == PolicyScope(p) && policies[p].status == RevokedPolicy)
  }

  /** INSERT ... ON CONFLICT DO NOTHING: a missing fence starts at version 1. */
  function Ensure(fences: map<Scope, Fence>, policies: map<Id, Policy>, scope: Scope): (next: map<Scope, Fence>)
    ensures next.Keys == fences.Keys + {scope}
    ensures forall s :: s in fences ==> next[s] == fences[s]
    ensures scope !in fences ==> IsFirst(next[scope], policies, scope)
  {
    if scope in fences then fences
    else
      var revoked := scope.PolicyScope? && scope.policyId in policies
        && policies[scope.policyId].status == RevokedPolicy;
      fences[scope := Fence(1, if revoked then Revoked else Active)]
  }

  function EnsureFour(fences: map<Scope, Fence>, policies: map<Id, Policy>, ownerId: Id, agentId: Id,
      policyId: Id): (next: map<Scope, Fence>)
    ensures next.Keys == fences.Keys + Scopes(ownerId, agentId, policyId)
    ensures forall s :: s in fences ==> next[s] == fences[s]
    ensures forall s :: s in next && s !in fences ==> IsFirst(next[s], policies, s)
  {
    Ensure(Ensure(Ensure(Ensure(fences, policies, SystemScope), policies, OwnerScope(ownerId)),
                  policies, AgentScope(agentId)), policies, PolicyScope(policyId))
  }

  function EnsureAll(db: Db, ownerId: Id, agentId: Id, policyId: Id): Db {
    db.(fences := EnsureFour(db.fences, db.policies, ownerId, agentId, policyId))
  }

  /** lockControlFences: create the missing ones; a revoked policy must have a revoked fence. */
  function Lock(db: Db, ownerId: Id, agentId: Id, policyId: Id): (locked: Result<Db>)
    ensures locked.Ok? ==> locked.value == EnsureAll(db, ownerId, agentId, policyId)
  {
    if policyId !in db.policies then Err(ControlTargetNotFound)
    else
      var next := EnsureAll(db, ownerId, agentId, policyId);
      if db.policies[policyId].status == RevokedPolicy && next.fences[PolicyScope(policyId)].state != Revoked then
        Err(RevalidationNeeded)
      else Ok(next)
  }

  function Read(fences: map<Scope, Fence>, ownerId: Id, agentId: Id, policyId: Id): Fences
    requires Scopes(ownerId, agentId, policyId) <= fences.Keys
  {
    Fences(fences[SystemScope], fences[OwnerScope(ownerId)], fences[AgentScope(agentId)], fences[PolicyScope(policyId)])
  }
}
