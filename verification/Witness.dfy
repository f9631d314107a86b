/**
 Runs that happen: from one initial database an operation is authorized, and then either revived
 under a fence that has moved on, or signed, sent and reconciled.
 */
module Witness {
  import opened Texts
  import opened Schema
  import opened Fencing
  import opened Moves
  import opened Authority
  import Decimal
  import Json = CanonicalJson
  import Ledger
  import Approvals
  import Control
  import Execution
  import Protocol
  import opened Machine
  import R = Reconciler
  import C = Completion
  import L = Lifecycle

  // ----- the example -----------------------------------------------------------------------

  const AGENT := Id([1])
  const WALLET := Id([2])
  const OWNER := Id([3])
  const POLICY := Id([4])
  const BUDGET := Id([5])
  const K := Id([6])
  const O := Id([7])
  const KEY := Id([8])
  const DECISION := Id([9])
  const ENVELOPE := Id([10])
  const Z := Id([11])

  const FIRST := Fence(1, Active)
  const FENCES := map[SystemScope := FIRST, OwnerScope(OWNER) := FIRST, AgentScope(AGENT) := FIRST,
    PolicyScope(POLICY) := FIRST]

  const REQUEST := Ledger.ReserveRequest(K, BUDGET, O, KEY, Json.Null, [49], 900)
  const DECIDED := Decision(O, POLICY, 1, AllowAutonomous, [5])
  const PAYLOAD := EnvelopePayload(ENVELOPE, 1, None, O, AGENT, WALLET, POLICY, 1, [5], K, 0, 800, false, true)
  const SEALED := Envelope(O, 1, EnvelopeDigest(PAYLOAD), PAYLOAD)
  const BOUND := Binding(O, K, ENVELOPE, 1, EnvelopeDigest(PAYLOAD), DECISION, [5], POLICY, 1)
  const AUTHORIZED := Authorization(
    AutonomousPolicy, BOUND, 0, 800, Approvals.AUTONOMOUS_CONSUMER, Id(KEY.text + Approvals.AUTONOMOUS_SUFFIX),
    Fences(FIRST, FIRST, FIRST, FIRST))

  function Money(status: ReservationStatus): Reservation {
    Reservation(BUDGET, O, KEY, 1, 900, 0, status, None, true)
  }

  const FULL := Budget(AGENT, WALLET, POLICY, 1, 10, 10, 0, 0, 0)
  const HELD := Budget(AGENT, WALLET, POLICY, 1, 10, 9, 1, 0, 1)

  /** One operation in a state, after its trail so far, with what has been recorded for it. */
  function Tables(
    state: L.State, trail: seq<StateChange>, b: Budget, rs: map<Id, Reservation>, keys: map<Id, IdempotencyRecord>,
    es: map<Id, Envelope>, ds: map<Id, Decision>, fences: map<Scope, Fence>, zs: map<Id, Authorization>): Db
  {
    Db(Registry({OWNER}, map[AGENT := OWNER], map[WALLET := OWNER], map[O := Intent(AGENT, WALLET, POLICY, 1)]),
       map[POLICY := Policy(OWNER, AGENT, WALLET, ActivePolicy)],
       map[BUDGET := b], rs, keys, map[],
       map[O := Operation(O, AGENT, WALLET, POLICY, 1, state)], trail,
       es, ds, fences, map[], zs, {}, map[], map[], map[], [], map[], map[])
  }

  function Drafted(state: L.State, trail: seq<StateChange>): Db {
    Tables(state, trail, FULL, map[], map[], map[], map[], FENCES, map[])
  }

  function Decided(state: L.State, trail: seq<StateChange>): Db {
    Tables(state, trail, FULL, map[], map[], map[], map[DECISION := DECIDED], FENCES, map[])
  }

  function Funding(state: L.State, trail: seq<StateChange>, hash: Hash): Db {
    Tables(state, trail, HELD, map[K := Money(Held)], map[KEY := IdempotencyRecord(hash, K)],
           map[], map[DECISION := DECIDED], FENCES, map[])
  }

  function Prepared(state: L.State, trail: seq<StateChange>, hash: Hash): Db {
    Tables(state, trail, HELD, map[K := Money(Held)], map[KEY := IdempotencyRecord(hash, K)],
           map[ENVELOPE := SEALED], map[DECISION := DECIDED], FENCES, map[])
  }

  function Granted(state: L.State, trail: seq<StateChange>, hash: Hash, fences: map<Scope, Fence>): Db {
    Tables(state, trail, HELD, map[K := Money(ReservationStatus.Authorized)], map[KEY := IdempotencyRecord(hash, K)],
           map[ENVELOPE := SEALED], map[DECISION := DECIDED], fences, map[Z := AUTHORIZED])
  }

  // ----- steps -----------------------------------------------------------------------------

  /** The generic step along a path, as commands. */
  function Advances(path: seq<L.State>): seq<Protocol.Command> {
    if |path| < 2 then []
    else Advances(path[..|path| - 1]) + [Protocol.OfExecution(Protocol.Advance(O, path[|path| - 2], path[|path| - 1]))]
  }

  predicate IsPath(path: seq<L.State>) {
    forall i | 0 <= i < |path| - 1 :: L.IsEdge(path[i], path[i + 1])
  }

  /** db with its operation in another state and another trail. */
  function Moved(db: Db, state: L.State, trail: seq<StateChange>): Db
    requires O in db.operations
  {
    db.(operations := db.operations[O := db.operations[O].(state := state)], history := trail)
  }

  lemma {:induction false} Walks(db: Db, path: seq<L.State>) returns (trail: seq<StateChange>)
    requires path != [] && IsPath(path) && O in db.operations && db.operations[O].state == path[0]
    ensures Protocol.Run(db, Advances(path)) == Moved(db, path[|path| - 1], trail)
  {
    if |path| == 1 {
      trail := db.history;
      assert db.operations[O := db.operations[O]] == db.operations;
    } else {
      var front, last := path[..|path| - 1], path[|path| - 1];
      var before := Walks(db, front);
      var cs := Advances(path);
      assert cs[..|cs| - 1] == Advances(front);
      var at := Moved(db, path[|path| - 2], before);
      trail := before + [StateChange(O, path[|path| - 2], last)];
      StepsOn(db, at, path[|path| - 2], last, trail);
    }
  }

  lemma StepsOn(db: Db, at: Db, from: L.State, to: L.State, trail: seq<StateChange>)
    requires O in db.operations && at == Moved(db, from, at.history) && L.IsEdge(from, to)
    requires trail == at.history + [StateChange(O, from, to)]
    ensures Protocol.Apply(at, Protocol.OfExecution(Protocol.Advance(O, from, to))) == Moved(db, to, trail)
  {}

  const DECIDE := Protocol.OfExecution(Protocol.PersistDecision(DECISION, DECIDED))
  const RESERVE := Protocol.OfLedger(Protocol.Reserve(REQUEST))
  const SEAL := Protocol.OfExecution(Protocol.PersistEnvelope(O, PAYLOAD))
  const AUTHORIZE := Protocol.OfApprovals(Protocol.Autonomous(Approvals.AutonomousRequest(Z, BOUND, KEY), 100))

  lemma Decides(trail: seq<StateChange>) returns (next: seq<StateChange>)
    ensures Protocol.Apply(Drafted(L.Simulated, trail), DECIDE) == Decided(L.PolicyFinalized, next)
  {
    hide Execution.PersistDecision;
    next := trail + [StateChange(O, L.Simulated, L.PolicyFinalized)];
    DecisionPersists(trail, next);
  }

  lemma DecisionPersists(trail: seq<StateChange>, next: seq<StateChange>)
    requires next == trail + [StateChange(O, L.Simulated, L.PolicyFinalized)]
    ensures Execution.PersistDecision(Drafted(L.Simulated, trail), DECISION, DECIDED) ==
      Commit(Decided(L.PolicyFinalized, next), ())
  {}

  lemma Reserves(trail: seq<StateChange>) returns (hash: Hash)
    ensures Protocol.Apply(Decided(L.PolicyFinalized, trail), RESERVE) == Funding(L.PolicyFinalized, trail, hash)
  {
    hide Json.Canonicalize, Ledger.ReserveAmount, Decided, Funding;
    OneUnit();
    assert Ledger.PayloadHash(REQUEST).Some? by { Serializes(); }
    hash := Ledger.PayloadHash(REQUEST).value;
    ReservesOne(trail, hash);
  }

  lemma OneUnit()
    ensures Decimal.IsPositiveAtomic([49]) && Decimal.Value([49]) == 1
  {
    assert [49][..0] == [];
    Decimal.AtomicIsUint256([49]);
  }

  lemma Serializes()
    ensures Ledger.PayloadHash(REQUEST).Some?
  {}

  lemma ReservesOne(trail: seq<StateChange>, hash: Hash)
    ensures Ledger.ReserveAmount(Decided(L.PolicyFinalized, trail), REQUEST, 1, hash)
         == Commit(Funding(L.PolicyFinalized, trail, hash), Money(Held))
  {
    hide Ledger.ReservationAllowed, Ledger.Consistent, Ledger.ReservationKeyTaken, Funding, Hold;
    MayReserve(trail);
    Holds(trail, hash);
  }

  lemma MayReserve(trail: seq<StateChange>)
    ensures var db := Decided(L.PolicyFinalized, trail);
      && Ledger.Identified(db, O) && Ledger.ReservationAllowed(db, O)
      && Ledger.Joined(db, db.operations[O]) && Ledger.Consistent(db, db.operations[O], db.budgets[BUDGET])
      && !Ledger.ReservationKeyTaken(db, REQUEST)
  {}

  lemma Holds(trail: seq<StateChange>, hash: Hash)
    ensures var db := Decided(L.PolicyFinalized, trail);
      Hold(db, K, Money(Held)).(idempotency := db.idempotency[KEY := IdempotencyRecord(hash, K)]) ==
        Funding(L.PolicyFinalized, trail, hash)
  {}

  lemma Seals(trail: seq<StateChange>, hash: Hash) returns (next: seq<StateChange>)
    ensures Protocol.Apply(Funding(L.BudgetReserved, trail, hash), SEAL) == Prepared(L.EnvelopeFinalized, next, hash)
  {
    hide Execution.PersistEnvelope, Funding, Prepared;
    next := trail + [StateChange(O, L.BudgetReserved, L.EnvelopeFinalized)];
    EnvelopePersists(trail, hash, next);
  }

  lemma EnvelopePersists(trail: seq<StateChange>, hash: Hash, next: seq<StateChange>)
    requires next == trail + [StateChange(O, L.BudgetReserved, L.EnvelopeFinalized)]
    ensures Execution.PersistEnvelope(Funding(L.BudgetReserved, trail, hash), O, PAYLOAD)
         == Commit(Prepared(L.EnvelopeFinalized, next, hash), ())
  {
    hide DECIDED, FENCES;
    var db := Funding(L.BudgetReserved, trail, hash);
    assert K in db.reservations && db.reservations[K].operationId == O && db.reservations[K].status == Held;
  }

  lemma Authorizes(trail: seq<StateChange>, hash: Hash) returns (next: seq<StateChange>)
    ensures Protocol.Apply(Prepared(L.EnvelopeFinalized, trail, hash), AUTHORIZE) ==
      Granted(L.Authorized, next, hash, FENCES)
  {
    hide Approvals.AuthorizeAutonomously, Prepared, Granted;
    next := trail + [StateChange(O, L.EnvelopeFinalized, L.Authorized)];
    AuthorizesNow(trail, hash, next);
  }

  lemma AuthorizesNow(trail: seq<StateChange>, hash: Hash, next: seq<StateChange>)
    requires next == trail + [StateChange(O, L.EnvelopeFinalized, L.Authorized)]
    ensures Approvals.AuthorizeAutonomously(Prepared(L.EnvelopeFinalized, trail, hash),
      Approvals.AutonomousRequest(Z, BOUND, KEY), 100)
         == Commit(Granted(L.Authorized, next, hash, FENCES), AUTHORIZED)
  {
    hide Approvals.AuthoritativeBinding, Approvals.LockOver, Approvals.AuthorizeLocked, Approvals.Bound,
        Approvals.IsLocked, Granted, AUTHORIZED;
    Binds(trail, hash);
    Locks(Prepared(L.EnvelopeFinalized, trail, hash));
    Grants(trail, hash, next);
  }

  lemma Binds(trail: seq<StateChange>, hash: Hash)
    ensures var db := Prepared(L.EnvelopeFinalized, trail, hash);
      Approvals.Bound(db, BOUND) && Approvals.AuthoritativeBinding(db, O, K, ENVELOPE, DECISION) == Ok(BOUND)
  {}

  /** The fences are there already. */
  lemma Locks(db: Db)
    requires Approvals.Bound(db, BOUND) && db.fences == FENCES && POLICY in db.policies
      && db.policies[POLICY].status == ActivePolicy
    requires db.operations[O].agentId == AGENT && db.registry.agentOwner == map[AGENT := OWNER]
    ensures Approvals.LockOver(db, BOUND) == Ok(db)
  {
    var next := EnsureFour(db.fences, db.policies, OWNER, AGENT, POLICY);
    assert next.Keys == db.fences.Keys;
    assert next == db.fences;
  }

  lemma Grants(trail: seq<StateChange>, hash: Hash, next: seq<StateChange>)
    requires next == trail + [StateChange(O, L.EnvelopeFinalized, L.Authorized)]
    requires Approvals.IsLocked(Prepared(L.EnvelopeFinalized, trail, hash), BOUND)
    ensures Approvals.AuthorizeLocked(Prepared(L.EnvelopeFinalized, trail, hash),
      Approvals.AutonomousRequest(Z, BOUND, KEY), BOUND, 100)
         == Commit(Granted(L.Authorized, next, hash, FENCES), AUTHORIZED)
  {
    hide Approvals.AUTONOMOUS_SUFFIX, Approvals.AUTONOMOUS_CONSUMER, Approvals.AutonomyHolds, Approvals.NoneAuthorized,
        Approvals.NoneActive,
         Approvals.Authorize, Approvals.CurrentFences, Ledger.Superseded, Granted;
    Autonomous(trail, hash);
    Issues(trail, hash, next);
  }

  lemma Autonomous(trail: seq<StateChange>, hash: Hash)
    requires Approvals.IsLocked(Prepared(L.EnvelopeFinalized, trail, hash), BOUND)
    ensures var db := Prepared(L.EnvelopeFinalized, trail, hash);
      && Approvals.CurrentFences(db, BOUND) == AUTHORIZED.fences
      && Approvals.AutonomyHolds(db, BOUND, AUTHORIZED.fences, 100, L.EnvelopeFinalized, Held)
      && Approvals.NoneAuthorized(db, O) && Approvals.NoneActive(db, O) && !Ledger.Superseded(db, O, 1)
  {
    hide Approvals.AUTONOMOUS_SUFFIX, Approvals.AUTONOMOUS_CONSUMER;
  }

  lemma Issues(trail: seq<StateChange>, hash: Hash, next: seq<StateChange>)
    requires next == trail + [StateChange(O, L.EnvelopeFinalized, L.Authorized)]
    ensures Approvals.Authorize(Prepared(L.EnvelopeFinalized, trail, hash), Z, AUTHORIZED) ==
      Granted(L.Authorized, next, hash, FENCES)
  {
    hide Approvals.AUTONOMOUS_SUFFIX, Approvals.AUTONOMOUS_CONSUMER, SetState, Mark, Prepared, Granted;
    Enters(trail, hash, next);
    Takes(next, hash);
  }

  lemma Enters(trail: seq<StateChange>, hash: Hash, next: seq<StateChange>)
    requires next == trail + [StateChange(O, L.EnvelopeFinalized, L.Authorized)]
    ensures O in Prepared(L.EnvelopeFinalized, trail, hash).operations
      && K in Prepared(L.Authorized, next, hash).reservations
    ensures SetState(Prepared(L.EnvelopeFinalized, trail, hash), O, L.Authorized) == Prepared(L.Authorized, next, hash)
    ensures Prepared(L.EnvelopeFinalized, trail, hash).authorizations == map[]
  {
    hide SEALED, FENCES, DECIDED;
  }

  lemma Takes(trail: seq<StateChange>, hash: Hash)
    requires K in Prepared(L.Authorized, trail, hash).reservations
    ensures Mark(Prepared(L.Authorized, trail, hash), K,
      ReservationStatus.Authorized).(authorizations := map[][Z := AUTHORIZED])
         == Granted(L.Authorized, trail, hash, FENCES)
  {
    hide SEALED, AUTHORIZED, FENCES, DECIDED;
  }

  // ----- pausing and resuming --------------------------------------------------------------

  const NO_ROWS := Control.Rows([], [], [])

  function Pausing(command: Control.Command): Protocol.Command {
    Protocol.OfControl(SystemScope, command, OWNER, NO_ROWS)
  }

  const PAUSED := FENCES[SystemScope := Fence(2, Paused)]
  const RESUMED := FENCES[SystemScope := Fence(3, Active)]

  /** While the operation is being prepared again there is nothing for the loops to find. */
  lemma NothingToInvalidate(trail: seq<StateChange>, hash: Hash, fences: map<Scope, Fence>)
    ensures var db := Granted(L.EnvelopeFinalized, trail, hash, fences);
      Control.InvalidateAffected(db, SystemScope, OWNER, NO_ROWS) == Ok(db)
  {
    var db := Granted(L.EnvelopeFinalized, trail, hash, fences);
    assert Control.HeldRows(db, SystemScope) == {};
    assert Control.PendingRows(db, SystemScope) == {};
    assert Control.AuthorizedRows(db, SystemScope) == {};
  }

  lemma Changes(trail: seq<StateChange>, hash: Hash, before: map<Scope, Fence>, command: Control.Command,
      after: map<Scope, Fence>)
    requires SystemScope in before && command != Control.Revoke
      && before[SystemScope].state != Control.TargetState(command)
    requires after == before[SystemScope := Fence(before[SystemScope].version + 1, Control.TargetState(command))]
    ensures Protocol.Apply(Granted(L.EnvelopeFinalized, trail, hash, before), Pausing(command)) ==
      Granted(L.EnvelopeFinalized, trail, hash, after)
  {
    hide Control.ChangeFence;
    ChangesNow(trail, hash, before, command, after);
  }

  lemma ChangesNow(trail: seq<StateChange>, hash: Hash, before: map<Scope, Fence>, command: Control.Command,
      after: map<Scope, Fence>)
    requires SystemScope in before && command != Control.Revoke
      && before[SystemScope].state != Control.TargetState(command)
    requires after == before[SystemScope := Fence(before[SystemScope].version + 1, Control.TargetState(command))]
    ensures var tx := Control.ChangeFence(Granted(L.EnvelopeFinalized, trail, hash, before), SystemScope, command,
      OWNER, NO_ROWS);
      tx.Commit? && tx.db == Granted(L.EnvelopeFinalized, trail, hash, after)
  {
    hide Control.InvalidateAffected, AUTHORIZED, SEALED;
    NothingToInvalidate(trail, hash, after);
  }

  // ----- the run that revives --------------------------------------------------------------

  const PREPARE := [L.Draft, L.Validated, L.PolicyPrechecked, L.Constructed, L.Decoded, L.Verified, L.Simulated]
  const HOLD := [L.PolicyFinalized, L.BudgetReserved]
  const JUMP := [L.EnvelopeFinalized, L.Authorized]
  const RETURN := [L.Authorized, L.RevalidationRequired, L.Validated, L.PolicyPrechecked, L.Constructed, L.Decoded,
                   L.Verified, L.Simulated, L.PolicyFinalized, L.BudgetReserved, L.EnvelopeFinalized]

  /** From a draft to an authorized operation. */
  function Authorizing(): seq<Protocol.Command> {
    Advances(PREPARE) + [DECIDE, RESERVE] + Advances(HOLD) + [SEAL, AUTHORIZE]
  }

  /** Back to preparation and forth again, across a pause and a resume, and into Authorized without an authorization. */
  function Reviving(): seq<Protocol.Command> {
    Advances(RETURN) + [Pausing(Control.Pause), Pausing(Control.Resume)] + Advances(JUMP)
  }

  lemma Two(db: Db, c: Protocol.Command, d: Protocol.Command)
    ensures Protocol.Run(db, [c, d]) == Protocol.Apply(Protocol.Apply(db, c), d)
  {
    hide Protocol.Apply;
    One(db, c);
    assert [c, d][..1] == [c];
  }

  lemma One(db: Db, c: Protocol.Command)
    ensures Protocol.Run(db, [c]) == Protocol.Apply(db, c)
  {
    hide Protocol.Apply;
    assert [c][..0] == [];
    assert Protocol.Run(db, []) == db;
  }

  lemma Draft()
    ensures Protocol.Initial(Drafted(L.Draft, []))
  {}

  lemma MovedTables(state: L.State, trail: seq<StateChange>, to: L.State, next: seq<StateChange>, hash: Hash,
      fences: map<Scope, Fence>)
    ensures O in Drafted(state, trail).operations && Moved(Drafted(state, trail), to, next) == Drafted(to, next)
    ensures O in Funding(state, trail, hash).operations
      && Moved(Funding(state, trail, hash), to, next) == Funding(to, next, hash)
    ensures O in Granted(state, trail, hash, fences).operations
    ensures Moved(Granted(state, trail, hash, fences), to, next) == Granted(to, next, hash, fences)
    ensures Drafted(state, trail).operations[O].state == state
    ensures Funding(state, trail, hash).operations[O].state == state
    ensures Granted(state, trail, hash, fences).operations[O].state == state
  {
    hide SEALED, AUTHORIZED, FENCES, DECIDED;
  }

  lemma Authorized() returns (trail: seq<StateChange>, hash: Hash)
    ensures Protocol.Run(Drafted(L.Draft, []), Authorizing()) == Granted(L.Authorized, trail, hash, FENCES)
  {
    hide Protocol.Apply, Protocol.Run, Advances, PREPARE, Drafted, Funding, Granted, Moved, IsPath;
    var db, first, second := Drafted(L.Draft, []), Advances(PREPARE), Advances(HOLD);
    Paths();
    MovedTables(L.Draft, [], L.Simulated, [], Sha256([]), FENCES);
    var a := Walks(db, PREPARE);
    MovedTables(L.Draft, [], L.Simulated, a, Sha256([]), FENCES);
    var b := Decides(a);
    hash := Reserves(b);
    MovedTables(L.PolicyFinalized, b, L.BudgetReserved, b, hash, FENCES);
    var c := Walks(Funding(L.PolicyFinalized, b, hash), HOLD);
    MovedTables(L.PolicyFinalized, b, L.BudgetReserved, c, hash, FENCES);
    var d := Seals(c, hash);
    trail := Authorizes(d, hash);
    Protocol.RunAppend(db, first + [DECIDE, RESERVE] + second, [SEAL, AUTHORIZE]);
    Protocol.RunAppend(db, first + [DECIDE, RESERVE], second);
    Protocol.RunAppend(db, first, [DECIDE, RESERVE]);
    Two(Drafted(L.Simulated, a), DECIDE, RESERVE);
    Two(Funding(L.BudgetReserved, c, hash), SEAL, AUTHORIZE);
  }

  predicate Leads(path: seq<L.State>, from: L.State, to: L.State) {
    path != [] && IsPath(path) && path[0] == from && path[|path| - 1] == to
  }

  lemma Paths()
    ensures Leads(PREPARE, L.Draft, L.Simulated) && Leads(HOLD, L.PolicyFinalized, L.BudgetReserved)
    ensures Leads(RETURN, L.Authorized, L.EnvelopeFinalized) && Leads(JUMP, L.EnvelopeFinalized, L.Authorized)
  {
    hide RETURN, Leads;
    assert Leads(RETURN, L.Authorized, L.EnvelopeFinalized) by { WayBack(); }
    ShortPaths();
  }

  lemma ShortPaths()
    ensures Leads(PREPARE, L.Draft, L.Simulated) && Leads(HOLD, L.PolicyFinalized, L.BudgetReserved)
    ensures Leads(JUMP, L.EnvelopeFinalized, L.Authorized)
  {}

  lemma WayBack()
    ensures Leads(RETURN, L.Authorized, L.EnvelopeFinalized)
  {}

  lemma Systems()
    ensures SystemScope in FENCES && FENCES[SystemScope] == Fence(1, Active)
    ensures PAUSED == FENCES[SystemScope := Fence(2, Paused)] && RESUMED == PAUSED[SystemScope := Fence(3, Active)]
  {}

  /** A pause and a resume find nothing to invalidate. */
  lemma Resumes(trail: seq<StateChange>, hash: Hash)
    ensures Protocol.Run(Granted(L.EnvelopeFinalized, trail, hash, FENCES),
      [Pausing(Control.Pause), Pausing(Control.Resume)])
         == Granted(L.EnvelopeFinalized, trail, hash, RESUMED)
  {
    hide Protocol.Apply, Protocol.Run, Granted, FENCES, PAUSED, RESUMED, Pausing;
    Systems();
    Changes(trail, hash, FENCES, Control.Pause, PAUSED);
    Changes(trail, hash, PAUSED, Control.Resume, RESUMED);
    Two(Granted(L.EnvelopeFinalized, trail, hash, FENCES), Pausing(Control.Pause), Pausing(Control.Resume));
  }

  lemma GrantedWalks(trail: seq<StateChange>, hash: Hash, fences: map<Scope, Fence>, path: seq<L.State>, from: L.State,
      to: L.State)
    returns (next: seq<StateChange>)
    requires Leads(path, from, to)
    ensures Protocol.Run(Granted(from, trail, hash, fences), Advances(path)) == Granted(to, next, hash, fences)
  {
    hide Protocol.Run, Advances, Drafted, Funding, Granted, Moved, IsPath;
    MovedTables(from, trail, to, trail, hash, fences);
    next := Walks(Granted(from, trail, hash, fences), path);
    MovedTables(from, trail, to, next, hash, fences);
  }

  lemma Revived() returns (trail: seq<StateChange>, hash: Hash)
    ensures Protocol.Run(Drafted(L.Draft, []), Authorizing() + Reviving()) ==
      Granted(L.Authorized, trail, hash, RESUMED)
  {
    hide Protocol.Run, Advances, Authorizing, RETURN, JUMP, Drafted, Granted, Leads, FENCES, RESUMED, Pausing;
    var a: seq<StateChange>;
    a, hash := Authorized();
    var db, first, pair := Granted(L.Authorized, a, hash, FENCES), Advances(RETURN),
      [Pausing(Control.Pause), Pausing(Control.Resume)];
    Paths();
    var b := GrantedWalks(a, hash, FENCES, RETURN, L.Authorized, L.EnvelopeFinalized);
    Resumes(b, hash);
    trail := GrantedWalks(b, hash, RESUMED, JUMP, L.EnvelopeFinalized, L.Authorized);
    Protocol.RunAppend(Drafted(L.Draft, []), Authorizing(), Reviving());
    Protocol.RunAppend(db, first + pair, Advances(JUMP));
    Protocol.RunAppend(db, first, pair);
  }

  lemma Outdated(trail: seq<StateChange>, hash: Hash)
    ensures !Current(Granted(L.Authorized, trail, hash, RESUMED))
  {
    var db := Granted(L.Authorized, trail, hash, RESUMED);
    assert Z in db.authorizations && Live(db, Z);
    assert !AreCurrent(db, BOUND, AUTHORIZED.fences);
  }

  /**
   From an initial database, the generic step into Authorized can bring back to life an
   authorization that a pause and a resume have left behind.
   */
  lemma JumpRevives()
    ensures Protocol.Initial(Drafted(L.Draft, []))
    ensures !Current(Protocol.Run(Drafted(L.Draft, []), Authorizing() + Reviving()))
  {
    hide Protocol.Run, Protocol.Initial, Drafted, Granted, Current, Authorizing, Reviving;
    Draft();
    var trail, hash := Revived();
    Outdated(trail, hash);
  }

  // ----- the run that sends ----------------------------------------------------------------

  const IDS := Ids(O, Z)
  const RAW: Text := [77]
  const SIGNED_ID := SignedId(O, 1)
  const SIGNATURE := SignedTransaction(O, Z, K, ENVELOPE, 1, EnvelopeDigest(PAYLOAD), Keccak(RAW))

  /** One executor somewhere in its work, over some tables. */
  function Working(db: Db, pc: Pc): System {
    System(db, map[0 := Process(IDS, true, None, pc)], map[O := 0], [])
  }

  /** A command of any other caller is a transaction of the machine. */
  function Transacting(cs: seq<Protocol.Command>): seq<Action> {
    if cs == [] then [] else Transacting(cs[..|cs| - 1]) + [Transact(cs[|cs| - 1])]
  }

  lemma {:induction false} Transacts(db: Db, cs: seq<Protocol.Command>)
    requires forall c | c in cs :: !Machine.Reserved(c)
    ensures RunAll(System(db, map[], map[], []), Transacting(cs)) == System(Protocol.Run(db, cs), map[], map[], [])
  {
    hide Protocol.Apply, Machine.Reserved;
    if cs != [] {
      var front, last, actions := cs[..|cs| - 1], cs[|cs| - 1], Transacting(cs);
      Transacts(db, front);
      assert actions[..|actions| - 1] == Transacting(front);
      assert last in cs;
    }
  }

  lemma Signs(state: L.State, trail: seq<StateChange>, hash: Hash)
    requires state in {L.Authorized, L.Signing}
    ensures Execution.MaySign(Granted(state, trail, hash, FENCES), O, Z, 100)
  {
    hide Approvals.AUTONOMOUS_SUFFIX, Approvals.AUTONOMOUS_CONSUMER;
  }

  lemma GrantedEnters(from: L.State, to: L.State, trail: seq<StateChange>, hash: Hash)
    ensures O in Granted(from, trail, hash, FENCES).operations
      && Granted(from, trail, hash, FENCES).operations[O].state == from
    ensures SetState(Granted(from, trail, hash, FENCES), O, to) ==
      Granted(to, trail + [StateChange(O, from, to)], hash, FENCES)
  {
    hide AUTHORIZED, SEALED, DECIDED, FENCES;
  }

  lemma Begins(trail: seq<StateChange>, hash: Hash) returns (next: seq<StateChange>)
    ensures Execution.BeginSigning(Granted(L.Authorized, trail, hash, FENCES), O, Z, 100)
         == Commit(Granted(L.Signing, next, hash, FENCES), ())
  {
    hide Execution.MaySign, Granted, SetState;
    Signs(L.Authorized, trail, hash);
    GrantedEnters(L.Authorized, L.Signing, trail, hash);
    next := trail + [StateChange(O, L.Authorized, L.Signing)];
  }

  function Signed(trail: seq<StateChange>, hash: Hash): Db {
    Granted(L.Signed, trail, hash, FENCES).(signed := map[SIGNED_ID := SIGNATURE])
  }

  lemma GrantedRows(state: L.State, trail: seq<StateChange>, hash: Hash)
    ensures var db := Granted(state, trail, hash, FENCES);
      && Z in db.authorizations && db.authorizations[Z].bound == BOUND
      && K in db.reservations && db.reservations[K].status == ReservationStatus.Authorized
      && db.signed == map[] && db.attempts == []
  {
    hide SEALED, DECIDED, FENCES, Approvals.AUTONOMOUS_SUFFIX, Approvals.AUTONOMOUS_CONSUMER;
  }

  lemma PersistsSignature(trail: seq<StateChange>, hash: Hash) returns (next: seq<StateChange>)
    ensures Execution.PersistSigned(Granted(L.Signing, trail, hash, FENCES), SIGNED_ID, SIGNATURE, 100) ==
      Commit(Signed(next, hash), ())
  {
    hide Execution.MaySign, Granted, SetState, SIGNED_ID;
    Signs(L.Signing, trail, hash);
    GrantedRows(L.Signing, trail, hash);
    GrantedEnters(L.Signing, L.Signed, trail, hash);
    next := trail + [StateChange(O, L.Signing, L.Signed)];
  }

  /** Some actions lead from one system to another. */
  ghost predicate Comes(sys: System, at: System) {
    exists actions :: RunAll(sys, actions) == at
  }

  lemma Goes(sys: System, at: System, a: Action)
    requires Comes(sys, at)
    ensures Comes(sys, Act(at, a))
  {
    hide Act;
    var actions :| RunAll(sys, actions) == at;
    assert (actions + [a])[..|actions + [a]| - 1] == actions;
    assert RunAll(sys, actions + [a]) == Act(at, a);
  }

  lemma LockSteps(db: Db)
    ensures Act(System(db, map[], map[], []), Spawn(0, IDS, true))
         == System(db, map[0 := Process(IDS, true, None, Waiting)], map[], [])
    ensures Act(System(db, map[0 := Process(IDS, true, None, Waiting)], map[], []), Acquire(0)) == Working(db, Locked)
  {
    hide Protocol.Apply;
  }

  /** What an executor does where nothing has been signed or attempted. */
  lemma EnterSteps(db: Db)
    requires db.attempts == [] && db.signed == map[]
    ensures Act(Working(db, Locked), LookUp(0)) == Working(db, Unattempted)
    ensures Act(Working(db, Unattempted), Survey(0, None)) == Working(db, Signer(false))
    ensures Act(Working(db, Signer(false)), Examine(0, None)) == Working(db, Fresh)
  {
    hide Protocol.Apply, Starting, Persisting, Beginning, Finding, Deriving;
  }

  lemma BeginStep(db: Db, next: Db)
    requires Execution.BeginSigning(db, O, Z, 100) == Commit(next, ())
    ensures Act(Working(db, Fresh), Begin(0, 100)) == Working(next, Begun)
  {
    hide Protocol.Apply, Beginning;
    BeginsWork(db, next);
  }

  lemma BeginsWork(db: Db, next: Db)
    requires Execution.BeginSigning(db, O, Z, 100) == Commit(next, ())
    ensures Beginning(Working(db, Fresh), 0, 100) == Working(next, Begun)
  {
    hide Execution.BeginSigning;
  }

  lemma SignStep(db: Db)
    ensures Act(Working(db, Begun), MakeSignature(0, Some(RAW), Keccak(RAW))) ==
      Working(db, Holding(Some(RAW), Keccak(RAW)))
  {
    hide Protocol.Apply;
  }

  lemma PersistStep(db: Db, next: Db)
    requires Z in db.authorizations && db.authorizations[Z].bound == BOUND
    requires Execution.PersistSigned(db, SIGNED_ID, SIGNATURE, 100) == Commit(next, ())
    ensures Act(Working(db, Holding(Some(RAW), Keccak(RAW))), Persist(0, 100)) ==
      Working(next, Ready(SIGNED_ID, Some(RAW), Keccak(RAW)))
  {
    hide Protocol.Apply, Persisting;
    PersistsWork(db, next);
  }

  lemma PersistsWork(db: Db, next: Db)
    requires Z in db.authorizations && db.authorizations[Z].bound == BOUND
    requires Execution.PersistSigned(db, SIGNED_ID, SIGNATURE, 100) == Commit(next, ())
    ensures Persisting(Working(db, Holding(Some(RAW), Keccak(RAW))), 0, Some(RAW), Keccak(RAW), 100)
         == Working(next, Ready(SIGNED_ID, Some(RAW), Keccak(RAW)))
  {
    hide Execution.PersistSigned, SignedId;
    assert Evidence(IDS, BOUND, Keccak(RAW)) == SIGNATURE;
  }

  lemma DeriveStep(db: Db)
    ensures Act(Working(db, Ready(SIGNED_ID, Some(RAW), Keccak(RAW))), Derive(0))
         == Working(db, Derived(SIGNED_ID, RAW))
  {
    hide Protocol.Apply, SIGNED_ID, Finding, Starting, Persisting, Beginning;
  }

  lemma FindStep(db: Db)
    requires SIGNED_ID in db.signed && db.signed[SIGNED_ID] == SIGNATURE
    ensures Act(Working(db, Derived(SIGNED_ID, RAW)), Find(0)) == Working(db, Checked(SIGNED_ID, RAW))
  {
    hide Protocol.Apply, SIGNED_ID, Deriving, Starting, Persisting, Beginning;
  }

  const ATTEMPT_ID := AttemptId(SIGNED_ID)
  const ATTEMPT := Attempt(ATTEMPT_ID, SIGNED_ID, O, Z, K, Keccak(RAW), AttemptStatus.Started)

  lemma StartStep(db: Db)
    requires SIGNED_ID in db.signed && db.signed[SIGNED_ID] == SIGNATURE && db.attempts == []
    requires K in db.reservations && db.reservations[K].status == ReservationStatus.Authorized
    ensures Act(Working(db, Checked(SIGNED_ID, RAW)), Action.Start(0)) ==
      Working(db.(attempts := [ATTEMPT]), Pc.Started(ATTEMPT_ID, RAW))
  {
    hide Protocol.Apply, SIGNED_ID, AttemptId;
  }

  const SENT := Sending(IDS, ATTEMPT_ID, RAW)

  lemma SendStep(db: Db)
    ensures Act(Working(db, Pc.Started(ATTEMPT_ID, RAW)), Send(0)) == Working(db, Pc.Sent(ATTEMPT_ID)).(sent := [SENT])
  {
    hide Protocol.Apply, ATTEMPT_ID;
  }

  lemma FinishStep(db: Db, next: Db)
    requires Execution.FinishAttempt(db, ATTEMPT_ID, Accepted) == Commit(next, ())
    ensures Act(Working(db, Pc.Sent(ATTEMPT_ID)).(sent := [SENT]), Action.Finish(0, Accepted)) ==
      System(next, map[], map[], [SENT])
  {
    hide Protocol.Apply, ATTEMPT_ID, Execution.FinishAttempt;
    assert map[0 := Process(IDS, true, None, Pc.Sent(ATTEMPT_ID))] - {0} == map[];
    assert map[O := 0] - {O} == map[];
  }

  // ----- putting it together ---------------------------------------------------------------

  lemma {:induction false} NotReserved(path: seq<L.State>)
    ensures forall c | c in Advances(path) :: !Machine.Reserved(c)
  {
    if |path| >= 2 {
      NotReserved(path[..|path| - 1]);
    }
  }

  lemma NoneReserved()
    ensures forall c | c in Authorizing() :: !Machine.Reserved(c)
  {
    hide Machine.Reserved, Advances, PREPARE, HOLD;
    NotReserved(PREPARE);
    NotReserved(HOLD);
    assert !Machine.Reserved(DECIDE) && !Machine.Reserved(RESERVE) && !Machine.Reserved(SEAL)
      && !Machine.Reserved(AUTHORIZE) by { Others(); }
  }

  lemma Others()
    ensures !Machine.Reserved(DECIDE) && !Machine.Reserved(RESERVE) && !Machine.Reserved(SEAL)
      && !Machine.Reserved(AUTHORIZE)
  {}

  /** The machine can bring the operation to where it is authorized. */
  lemma ComesAuthorized() returns (trail: seq<StateChange>, hash: Hash)
    ensures Comes(System(Drafted(L.Draft, []), map[], map[], []),
      System(Granted(L.Authorized, trail, hash, FENCES), map[], map[], []))
  {
    hide Machine.Reserved, Authorizing, Drafted, Granted, Protocol.Run, RunAll;
    trail, hash := Authorized();
    NoneReserved();
    Transacts(Drafted(L.Draft, []), Authorizing());
  }

  lemma ComesReady(sys: System, trail: seq<StateChange>, hash: Hash) returns (next: seq<StateChange>)
    requires Comes(sys, System(Granted(L.Authorized, trail, hash, FENCES), map[], map[], []))
    ensures Comes(sys, Working(Signed(next, hash), Ready(SIGNED_ID, Some(RAW), Keccak(RAW))))
  {
    hide Comes, Act, Working, Granted, Signed, Execution.BeginSigning, Execution.PersistSigned, SIGNED_ID, SIGNATURE;
    var db := Granted(L.Authorized, trail, hash, FENCES);
    GrantedRows(L.Authorized, trail, hash);
    LockSteps(db);
    EnterSteps(db);
    Goes(sys, System(db, map[], map[], []), Spawn(0, IDS, true));
    Goes(sys, System(db, map[0 := Process(IDS, true, None, Waiting)], map[], []), Acquire(0));
    Goes(sys, Working(db, Locked), LookUp(0));
    Goes(sys, Working(db, Unattempted), Survey(0, None));
    Goes(sys, Working(db, Signer(false)), Examine(0, None));
    var begun := Begins(trail, hash);
    var signing := Granted(L.Signing, begun, hash, FENCES);
    BeginStep(db, signing);
    Goes(sys, Working(db, Fresh), Begin(0, 100));
    SignStep(signing);
    Goes(sys, Working(signing, Begun), MakeSignature(0, Some(RAW), Keccak(RAW)));
    next := PersistsSignature(begun, hash);
    GrantedRows(L.Signing, begun, hash);
    PersistStep(signing, Signed(next, hash));
    Goes(sys, Working(signing, Holding(Some(RAW), Keccak(RAW))), Persist(0, 100));
  }

  lemma SignedRows(trail: seq<StateChange>, hash: Hash)
    ensures var db := Signed(trail, hash);
      && SIGNED_ID in db.signed && db.signed[SIGNED_ID] == SIGNATURE && db.attempts == []
      && K in db.reservations && db.reservations[K].status == ReservationStatus.Authorized
  {
    hide Granted, SIGNED_ID, SIGNATURE;
    GrantedRows(L.Signed, trail, hash);
  }

  /** The tables once the transaction was sent and accepted. */
  function Settling(trail: seq<StateChange>, hash: Hash): Db {
    Signed(trail, hash).(attempts := [ATTEMPT.(status := Accepted)])
  }

  lemma Finishes(trail: seq<StateChange>, hash: Hash)
    ensures Execution.FinishAttempt(Signed(trail, hash).(attempts := [ATTEMPT]), ATTEMPT_ID, Accepted) ==
      Commit(Settling(trail, hash), ())
  {
    hide Signed, ATTEMPT_ID;
    var db := Signed(trail, hash).(attempts := [ATTEMPT]);
    assert db.attempts[0].attemptId == ATTEMPT_ID;
    assert Execution.Finished(db.attempts, ATTEMPT_ID, Accepted) == [ATTEMPT.(status := Accepted)];
  }

  /** From an initial system, one executor signs and sends the operation's transaction, and the network accepts it. */
  lemma Sends() returns (actions: seq<Action>, trail: seq<StateChange>, hash: Hash)
    ensures InitialSystem(System(Drafted(L.Draft, []), map[], map[], []))
    ensures RunAll(System(Drafted(L.Draft, []), map[], map[], []), actions) ==
      System(Settling(trail, hash), map[], map[], [SENT])
  {
    hide Act, Working, Signed, Drafted, RunAll, SIGNED_ID, SIGNATURE, ATTEMPT_ID, ATTEMPT, Protocol.Initial, Granted,
        Settling, SENT,
         Execution.FinishAttempt;
    Draft();
    var sys := System(Drafted(L.Draft, []), map[], map[], []);
    var before: seq<StateChange>;
    before, hash := ComesAuthorized();
    trail := ComesReady(sys, before, hash);
    ComesSettled(sys, trail, hash);
    actions :| RunAll(sys, actions) == System(Settling(trail, hash), map[], map[], [SENT]);
  }

  lemma ComesSettled(sys: System, trail: seq<StateChange>, hash: Hash)
    requires Comes(sys, Working(Signed(trail, hash), Ready(SIGNED_ID, Some(RAW), Keccak(RAW))))
    ensures Comes(sys, System(Settling(trail, hash), map[], map[], [SENT]))
  {
    hide Comes, Act, Working, Signed, SIGNED_ID, SIGNATURE, ATTEMPT_ID, ATTEMPT, Settling, SENT,
        Execution.FinishAttempt;
    var db := Signed(trail, hash);
    var started := db.(attempts := [ATTEMPT]);
    SignedRows(trail, hash);
    DeriveStep(db);
    FindStep(db);
    Goes(sys, Working(db, Ready(SIGNED_ID, Some(RAW), Keccak(RAW))), Derive(0));
    Goes(sys, Working(db, Derived(SIGNED_ID, RAW)), Find(0));
    StartStep(db);
    Goes(sys, Working(db, Checked(SIGNED_ID, RAW)), Action.Start(0));
    SendStep(started);
    Goes(sys, Working(started, Pc.Started(ATTEMPT_ID, RAW)), Send(0));
    Finishes(trail, hash);
    FinishStep(started, Settling(trail, hash));
    Goes(sys, Working(started, Pc.Sent(ATTEMPT_ID)).(sent := [SENT]), Action.Finish(0, Accepted));
  }

  // ----- the call that returns -------------------------------------------------------------

  const RECONCILER := Caller(Id([12]), Id([13]), true)

  function Proof(success: bool): R.Input {
    R.Input(ATTEMPT_ID, O, K, ENVELOPE, Receipt(Keccak(RAW), 0, R.RECEIPT_PREFIX + ATTEMPT_ID.text), success, 1,
      RECONCILER, 60)
  }

  lemma StillAuthorized(trail: seq<StateChange>, hash: Hash)
    ensures Ledger.CanonicallyAuthorized(Settling(trail, hash), K, O, {L.Authorized, L.Signing, L.Signed})
  {
    hide Ledger.CanonicalAuthority, Approvals.AUTONOMOUS_SUFFIX, Approvals.AUTONOMOUS_CONSUMER, SIGNED_ID, ATTEMPT_ID;
    StillCanonical(trail, hash);
    assert Settling(trail, hash).authorizations == map[Z := AUTHORIZED];
  }

  lemma StillCanonical(trail: seq<StateChange>, hash: Hash)
    ensures Ledger.CanonicalAuthority(Settling(trail, hash), K, O, {L.Authorized, L.Signing, L.Signed}, Z)
  {
    hide Ledger.Superseded, Approvals.AUTONOMOUS_SUFFIX, Approvals.AUTONOMOUS_CONSUMER, SIGNED_ID, ATTEMPT_ID;
    NotSuperseded(trail, hash);
  }

  lemma NotSuperseded(trail: seq<StateChange>, hash: Hash)
    ensures !Ledger.Superseded(Settling(trail, hash), O, 1)
  {
    hide AUTHORIZED, SIGNED_ID, ATTEMPT_ID;
  }

  lemma RowsInOrder(trail: seq<StateChange>, hash: Hash, success: bool)
    ensures C.InOrder(Settling(trail, hash), Proof(success))
  {
    hide SIGNED_ID, ATTEMPT_ID, SIGNATURE, AUTHORIZED, SEALED, DECIDED, FENCES, R.RECEIPT_PREFIX;
    var db := Settling(trail, hash);
    assert db.attempts[0] == ATTEMPT.(status := Accepted);
  }

  lemma SettlingIsOpen(trail: seq<StateChange>, hash: Hash, success: bool)
    ensures C.Open(Settling(trail, hash), Proof(success)) && C.LeaseFree(Settling(trail, hash), Proof(success), 0)
  {
    hide SIGNED_ID, ATTEMPT_ID, SIGNATURE, AUTHORIZED, SEALED, DECIDED, FENCES, R.RECEIPT_PREFIX, C.InOrder,
        Ledger.CanonicallyAuthorized;
    StillAuthorized(trail, hash);
    RowsInOrder(trail, hash, success);
  }

  /**
   The transaction sent from an initial system can be reconciled, whether it succeeded or reverted:
   the call returns.
   */
  lemma Returns(success: bool) returns (actions: seq<Action>, events: seq<R.Event>)
    ensures InitialSystem(System(Drafted(L.Draft, []), map[], map[], []))
    ensures
      var sent := RunAll(System(Drafted(L.Draft, []), map[], map[], []), actions);
      |sent.sent| == 1 && R.Unfold(R.Progress(sent.db, R.Entering, []), Proof(success), events).stage.Returned?
  {
    hide RunAll, Drafted, Settling, Protocol.Initial, Proof, R.Unfold, C.Open, C.LeaseFree, SENT;
    var trail, hash;
    actions, trail, hash := Sends();
    SettlingIsOpen(trail, hash, success);
    var n := C.Uninterrupted(Settling(trail, hash), Proof(success), 0, []);
    events := C.Straight(0, n);
  }
}
