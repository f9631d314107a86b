/**
 Executors and signers as processes over the shared database
 (adapters/local-anvil/src/execution-core.ts, signer-core.ts, broadcast-core.ts, execution-store.ts).

 A process moves by single actions, interleaved with those of every other process and with any
 other transaction. It may stop anywhere: a refusal and a crash look alike, and both drop its lock.
 */
module Machine {
  import opened Texts
  import opened Schema
  import opened Execution
  import Decimal
  import Protocol
  import Refinement
  import Moves

  datatype Ids = Ids(operationId: Id, authorizationId: Id)

  /** Where a process stands. */
  datatype Pc =
    | Waiting                                              // for the execution lock
    | Locked                                               // holds it
    | Unattempted                                          // found no earlier attempt
    | Signer(rematerialize: bool)                          // enters the signer
    | Rematerializing(signedId: Id)                        // signs again what is already durable
    | Fresh                                                // found nothing signed
    | Begun                                                // began signing
    | Holding(bytes: Option<Text>, claimed: Hash)          // holds a new signature, with or without its bytes
    | Ready(signedId: Id, bytes: Option<Text>, claimed: Hash)  // holds a signature whose evidence is durable
    | Derived(signedId: Id, raw: Text)                     // holds bytes that hash to what the signer claimed
    | Checked(signedId: Id, raw: Text)                     // read that evidence back and compared it
    | Started(attemptId: Id, raw: Text)                    // its attempt is durable
    | Sent(attemptId: Id)                                  // handed the bytes to the network

  /**
   executes is false for a signer that runs on its own, without the lock. durable is the hash of
   the signed evidence the executor found before it entered the signer.
   */
  datatype Process = Process(ids: Ids, executes: bool, durable: Option<Hash>, pc: Pc)

  datatype Sending = Sending(ids: Ids, attemptId: Id, raw: Text)

  datatype System = System(db: Db, processes: map<nat, Process>, locks: map<Id, nat>, sent: seq<Sending>)

  datatype Action =
    | Transact(command: Protocol.Command)
    | Spawn(pid: nat, ids: Ids, executes: bool)
    | Acquire(pid: nat)
    | LookUp(pid: nat)
    | Survey(pid: nat, found: Option<Id>)
    | Examine(pid: nat, found: Option<Id>)
    | Begin(pid: nat, now: Time)
    | MakeSignature(pid: nat, bytes: Option<Text>, claimed: Hash)
    | Persist(pid: nat, now: Time)
    | Derive(pid: nat)
    | Find(pid: nat)
    | Start(pid: nat)
    | Send(pid: nat)
    | Finish(pid: nat, status: AttemptStatus)
    | Stop(pid: nat)

  // ----- what a process reads and derives --------------------------------------------------

  /** findDurableSignedEvidence. */
  predicate Finds(db: Db, ids: Ids, found: Option<Id>) {
    match found
    case Some(k) =>
      k in db.signed && db.signed[k].operationId == ids.operationId
        && db.signed[k].authorizationId == ids.authorizationId
    case None =>
      forall k | k in db.signed ::
        !(db.signed[k].operationId == ids.operationId && db.signed[k].authorizationId == ids.authorizationId)
  }

  function SignedId(operationId: Id, revision: nat): Id {
    Id(Lit("signed:") + operationId.text + Lit(":") + Decimal.Render(revision))
  }

  function AttemptId(signedId: Id): Id {
    if Lit("signed:") <= signedId.text then Id(Lit("attempt:") + signedId.text[7..]) else signedId
  }

  /** The evidence a signer persists under an authorization: the hash is the one the signature came with. */
  function Evidence(ids: Ids, b: Binding, claimed: Hash): SignedTransaction {
    SignedTransaction(
      ids.operationId, ids.authorizationId, b.reservationId, b.envelopeId, b.envelopeRevision, b.envelopeHash, claimed)
  }

  // ----- actions ---------------------------------------------------------------------------

  function Goto(sys: System, pid: nat, pc: Pc): System
    requires pid in sys.processes
  {
    sys.(processes := sys.processes[pid := sys.processes[pid].(pc := pc)])
  }

  /** The process ends, however it ends, and its lock with it. */
  function End(sys: System, pid: nat): System
    requires pid in sys.processes
  {
    var o := sys.processes[pid].ids.operationId;
    sys.(processes := sys.processes - {pid}, locks := if o in sys.locks && sys.locks[o] == pid then sys.locks - {o}
      else sys.locks)
  }

  /** Transactions that only the processes themselves run. */
  predicate Reserved(c: Protocol.Command) {
    Refinement.KindOfCommand(c) in {Moves.Signing, Moves.Trying}
  }

  function LookingUp(sys: System, pid: nat): System
    requires pid in sys.processes
  {
    var p := sys.processes[pid];
    if FindAttempt(sys.db.attempts, p.ids.operationId, p.ids.authorizationId).Some? then End(sys, pid)
    else Goto(sys, pid, Unattempted)
  }

  /** The executor reads what is already signed; the signer is told to sign it again if there is any. */
  function Surveying(sys: System, pid: nat, found: Option<Id>): System
    requires pid in sys.processes && Finds(sys.db, sys.processes[pid].ids, found)
  {
    var durable := if found.Some? then Some(sys.db.signed[found.value].transactionHash) else None;
    sys.(processes := sys.processes[pid := sys.processes[pid].(durable := durable, pc := Signer(found.Some?))])
  }

  function Examining(sys: System, pid: nat, rematerialize: bool, found: Option<Id>): System
    requires pid in sys.processes
  {
    match found
    case None => Goto(sys, pid, Fresh)
    case Some(k) => if rematerialize then Goto(sys, pid, Rematerializing(k)) else End(sys, pid)
  }

  function Beginning(sys: System, pid: nat, now: Time): System
    requires pid in sys.processes
  {
    var p := sys.processes[pid];
    var tx := BeginSigning(sys.db, p.ids.operationId, p.ids.authorizationId, now);
    if tx.Abort? then End(sys, pid) else Goto(sys.(db := tx.db), pid, Begun)
  }

  function Rematerialized(sys: System, pid: nat, signedId: Id, bytes: Option<Text>, claimed: Hash): System
    requires pid in sys.processes
  {
    if signedId in sys.db.signed && sys.db.signed[signedId].transactionHash == claimed
    then Goto(sys, pid, Ready(signedId, bytes, claimed))
    else End(sys, pid)
  }

  /** The executor hashes the bytes itself and believes neither the signer nor the evidence it found. */
  function Deriving(sys: System, pid: nat, signedId: Id, bytes: Option<Text>, claimed: Hash): System
    requires pid in sys.processes
  {
    var durable := sys.processes[pid].durable;
    if bytes.None? || Keccak(bytes.value) != claimed then End(sys, pid)
    else if durable.Some? && Keccak(bytes.value) != durable.value then End(sys, pid)
    else Goto(sys, pid, Derived(signedId, bytes.value))
  }

  function Persisting(sys: System, pid: nat, bytes: Option<Text>, claimed: Hash, now: Time): System
    requires pid in sys.processes
  {
    var p := sys.processes[pid];
    if p.ids.authorizationId !in sys.db.authorizations then End(sys, pid)
    else
      var b := sys.db.authorizations[p.ids.authorizationId].bound;
      var k := SignedId(p.ids.operationId, b.envelopeRevision);
      var tx := PersistSigned(sys.db, k, Evidence(p.ids, b, claimed), now);
      if tx.Abort? then End(sys, pid)
      else if p.executes then Goto(sys.(db := tx.db), pid, Ready(k, bytes, claimed))
      else End(sys.(db := tx.db), pid)
  }

  function Finding(sys: System, pid: nat, signedId: Id, raw: Text): System
    requires pid in sys.processes
  {
    var p := sys.processes[pid];
    if
      && signedId in sys.db.signed
      && var s := sys.db.signed[signedId];
      && (s.operationId, s.authorizationId, s.transactionHash) ==
        (p.ids.operationId, p.ids.authorizationId, Keccak(raw))
    then Goto(sys, pid, Checked(signedId, raw))
    else End(sys, pid)
  }

  function Starting(sys: System, pid: nat, signedId: Id, raw: Text): System
    requires pid in sys.processes
  {
    if signedId !in sys.db.signed then End(sys, pid)
    else
      var s := sys.db.signed[signedId];
      var tx := StartAttempt(sys.db, signedId, s.reservationId, AttemptId(signedId));
      if tx.Abort? then End(sys, pid)
      else
        var row := tx.value;
        if (row.signedId, row.transactionHash, row.operationId, row.authorizationId)
           != (signedId, s.transactionHash, s.operationId, s.authorizationId) then End(sys.(db := tx.db), pid)
        else if row.status != AttemptStatus.Started then End(sys.(db := tx.db), pid)
        else Goto(sys.(db := tx.db), pid, Pc.Started(row.attemptId, raw))
  }

  /** What process p does on its own action a; an action that does not fit where p stands does nothing. */
  function Proceed(sys: System, a: Action): System
    requires !a.Transact? && !a.Spawn? && a.pid in sys.processes
  {
    var p := sys.processes[a.pid];
    var o := p.ids.operationId;
    match a
    case Acquire(pid) =>
      if p.pc.Waiting? && o !in sys.locks then Goto(sys, pid, Locked).(locks := sys.locks[o := pid]) else sys
    case LookUp(pid) => if p.pc.Locked? then LookingUp(sys, pid) else sys
    case Survey(pid, found) => if p.pc.Unattempted? && Finds(sys.db, p.ids, found) then Surveying(sys, pid, found)
      else sys
    case Examine(pid, found) =>
      if p.pc.Signer? && Finds(sys.db, p.ids, found) then Examining(sys, pid, p.pc.rematerialize, found) else sys
    case Begin(pid, now) => if p.pc.Fresh? then Beginning(sys, pid, now) else sys
    case MakeSignature(pid, bytes, claimed) =>
      if p.pc.Begun? then Goto(sys, pid, Holding(bytes, claimed))
      else if p.pc.Rematerializing? then Rematerialized(sys, pid, p.pc.signedId, bytes, claimed)
      else sys
    case Persist(pid, now) => if p.pc.Holding? then Persisting(sys, pid, p.pc.bytes, p.pc.claimed, now) else sys
    case Derive(pid) => if p.pc.Ready? then Deriving(sys, pid, p.pc.signedId, p.pc.bytes, p.pc.claimed) else sys
    case Find(pid) => if p.pc.Derived? then Finding(sys, pid, p.pc.signedId, p.pc.raw) else sys
    case Start(pid) => if p.pc.Checked? then Starting(sys, pid, p.pc.signedId, p.pc.raw) else sys
    case Send(pid) =>
      if p.pc.Started? then Goto(sys, pid, Sent(p.pc.attemptId)).(sent := sys.sent
        + [Sending(p.ids, p.pc.attemptId, p.pc.raw)]) else sys
    case Finish(pid, status) =>
      if p.pc.Sent? then End(sys.(db := After(sys.db, FinishAttempt(sys.db, p.pc.attemptId, status))), pid) else sys
    case Stop(pid) => End(sys, pid)
  }

  function Act(sys: System, a: Action): System {
    match a
    case Transact(c) => if Reserved(c) then sys else sys.(db := Protocol.Apply(sys.db, c))
    case Spawn(pid, ids, executes) =>
      if pid in sys.processes then sys
      else sys.(processes := sys.processes[pid := Process(ids, executes, None, if executes then Waiting
        else Signer(false))])
    case _ => if a.pid in sys.processes then Proceed(sys, a) else sys
  }

  function RunAll(sys: System, actions: seq<Action>): System {
    if actions == [] then sys else Act(RunAll(sys, actions[..|actions| - 1]), actions[|actions| - 1])
  }

  predicate InitialSystem(sys: System) {
    Protocol.Initial(sys.db) && sys.processes == map[] && sys.locks == map[] && sys.sent == []
  }
}
