/**
 Every interleaving of processes is a run of the protocol, so whatever holds of all runs holds of
 it; and its signatures were made in time and with authority.
 */
module MachineRuns {
  import opened Texts
  import opened Schema
  import opened Machine
  import opened Invariants
  import opened Evolution
  import opened Moves
  import opened Protocol
  import Execution
  import Signing
  import Consent
  import Decimal

  // ----- the commands of an interleaving ---------------------------------------------------

  /** The transaction a process makes by an action, if it makes one. */
  function ProcessCommands(sys: System, a: Action): seq<Command>
    requires !a.Transact? && !a.Spawn? && a.pid in sys.processes
  {
    var p, db := sys.processes[a.pid], sys.db;
    match a
    case Begin(_, now) =>
      if p.pc.Fresh? then [OfExecution(BeginSigning(p.ids.operationId, p.ids.authorizationId, now))] else []
    case Persist(_, now) =>
      if p.pc.Holding? && p.ids.authorizationId in db.authorizations then
        var b := db.authorizations[p.ids.authorizationId].bound;
        [OfExecution(PersistSigned(SignedId(p.ids.operationId, b.envelopeRevision), Evidence(p.ids, b, p.pc.claimed),
          now))]
      else []
    case Start(_) =>
      if p.pc.Checked? && p.pc.signedId in db.signed then
        [OfExecution(StartAttempt(p.pc.signedId, db.signed[p.pc.signedId].reservationId, AttemptId(p.pc.signedId)))]
      else []
    case Finish(_, status) =>
      if p.pc.Sent? then [OfExecution(FinishAttempt(p.pc.attemptId, status))] else []
    case _ => []
  }

  function Commands(sys: System, a: Action): seq<Command> {
    match a
    case Transact(c) => if Machine.Reserved(c) then [] else [c]
    case Spawn(_, _, _) => []
    case _ => if a.pid in sys.processes then ProcessCommands(sys, a) else []
  }

  /** All the transactions of an interleaving, in order. */
  function Trace(sys: System, actions: seq<Action>): seq<Command> {
    if actions == [] then []
    else
      var front := actions[..|actions| - 1];
      Trace(sys, front) + Commands(RunAll(sys, front), actions[|actions| - 1])
  }

  lemma One(db: Db, c: Command)
    ensures Run(db, [c]) == Apply(db, c)
  {
    hide Apply;
    assert [c][..0] == [];
    assert Run(db, []) == db;
  }

  lemma ProceedIsRun(sys: System, a: Action)
    requires !a.Transact? && !a.Spawn? && a.pid in sys.processes
    ensures var cs := ProcessCommands(sys, a);
      Proceed(sys, a).db == if cs == [] then sys.db else ApplyExecution(sys.db, cs[0].execution)
  {
    hide Execution.BeginSigning, Execution.PersistSigned, Execution.StartAttempt, Execution.FinishAttempt, Finds,
        SignedId, AttemptId;
  }

  lemma ActIsRun(sys: System, a: Action)
    ensures Act(sys, a).db == Run(sys.db, Commands(sys, a))
  {
    hide ProcessCommands, Proceed, ApplyExecution, ApplyLedger, ApplyApprovals, Machine.Reserved, Run;
    Nothing(sys.db);
    match a
    case Transact(c) => One(sys.db, c);
    case Spawn(_, _, _) =>
    case _ =>
      if a.pid in sys.processes {
        ProceedIsRun(sys, a);
        var cs := ProcessCommands(sys, a);
        AtMostOne(sys, a);
        if cs != [] {
          assert cs[0] in cs && cs == [cs[0]];
          One(sys.db, cs[0]);
        }
      }
  }

  lemma Nothing(db: Db)
    ensures Run(db, []) == db
  {}

  lemma AtMostOne(sys: System, a: Action)
    requires !a.Transact? && !a.Spawn? && a.pid in sys.processes
    ensures |ProcessCommands(sys, a)| <= 1
    ensures forall c | c in ProcessCommands(sys, a) :: c.OfExecution?
  {
    hide SignedId, AttemptId;
  }

  /** The database of an interleaving is the database of the run of its transactions. */
  lemma {:induction false} MachineIsARun(sys: System, actions: seq<Action>)
    ensures RunAll(sys, actions).db == Run(sys.db, Trace(sys, actions))
  {
    hide Act, Commands, Apply;
    if actions != [] {
      var front := actions[..|actions| - 1];
      var at, a := RunAll(sys, front), actions[|actions| - 1];
      MachineIsARun(sys, front);
      ActIsRun(at, a);
      RunAppend(sys.db, Trace(sys, front), Commands(at, a));
    }
  }

  lemma AlwaysInv(sys: System, actions: seq<Action>)
    requires InitialSystem(sys)
    ensures Inv(RunAll(sys, actions).db)
  {
    hide Inv, Run, RunAll;
    MachineIsARun(sys, actions);
    Always(sys.db, Trace(sys, actions));
  }

  // ----- signatures ------------------------------------------------------------------------

  /** A process holding the authority persists the signature, in time. */
  predicate PersistsWarranted(at: System, a: Action, s: SignedTransaction) {
    && a.Persist?
    && a.pid in at.processes
    && at.processes[a.pid].ids == Ids(s.operationId, s.authorizationId)
    && Signing.Warranted(at.db, s.operationId, s.authorizationId, a.now)
    && AreCurrent(at.db, at.db.authorizations[s.authorizationId].bound, at.db.authorizations[s.authorizationId].fences)
    && Unblocked(at.db.authorizations[s.authorizationId].fences)
  }

  lemma SigningCommand(sys: System, a: Action, c: Command)
    requires Commands(sys, a) == [c] && c.OfExecution? && c.execution.PersistSigned?
    ensures a.Persist? && a.pid in sys.processes && c.execution.now == a.now
    ensures sys.processes[a.pid].ids == Ids(c.execution.signed.operationId, c.execution.signed.authorizationId)
  {
    hide SignedId, AttemptId;
  }

  lemma FewCommands(sys: System, a: Action)
    ensures |Commands(sys, a)| <= 1
  {
    hide ProcessCommands;
    if !a.Transact? && !a.Spawn? && a.pid in sys.processes {
      AtMostOne(sys, a);
    }
  }

  lemma SignatureAct(sys: System, a: Action, next: Db, id: Id)
    requires Inv(sys.db) && next == Act(sys, a).db && id !in sys.db.signed && id in next.signed
    ensures PersistsWarranted(sys, a, next.signed[id])
  {
    hide Inv, Act, Commands, Apply, Signing.Warranted, AreCurrent;
    ActIsRun(sys, a);
    FewCommands(sys, a);
    var cs := Commands(sys, a);
    Nothing(sys.db);
    assert cs != [];
    assert cs == [cs[0]];
    One(sys.db, cs[0]);
    Consent.SignatureStep(sys.db, cs[0], next, id);
    SigningCommand(sys, a, cs[0]);
  }

  lemma ActKeepsSigned(sys: System, a: Action)
    ensures Grows(sys.db.signed, Act(sys, a).db.signed)
  {
    hide Act, Commands, Evolves, Run;
    ActIsRun(sys, a);
    RunEvolves(sys.db, Commands(sys, a));
    Consent.SameRecords(sys.db, Act(sys, a).db);
  }

  /**
   Over every interleaving, every signed transaction was persisted by a process whose authorization
   had not run out and was not invalidated, on an authorized reservation, the latest envelope and the
   decision its source demands, under the current fences, all active.
   */
  lemma {:induction false} MachineSignatureWasWarranted(sys: System, actions: seq<Action>, id: Id) returns (i: nat)
    requires InitialSystem(sys) && id in RunAll(sys, actions).db.signed
    ensures i < |actions|
    ensures PersistsWarranted(RunAll(sys, actions[..i]), actions[i], RunAll(sys, actions).db.signed[id])
  {
    hide Inv, Act, PersistsWarranted;
    if actions != [] {
      var before := actions[..|actions| - 1];
      var at, a := RunAll(sys, before), actions[|actions| - 1];
      if id in at.db.signed {
        i := MachineSignatureWasWarranted(sys, before, id);
        assert before[..i] == actions[..i];
        ActKeepsSigned(at, a);
      } else {
        i := |before|;
        AlwaysInv(sys, before);
        SignatureAct(at, a, RunAll(sys, actions).db, id);
      }
    }
  }

  // ----- beginning -------------------------------------------------------------------------

  /** The process has begun signing for these ids. */
  predicate HasBegun(sys: System, pid: nat, ids: Ids) {
    && pid in sys.processes
    && sys.processes[pid].ids == ids
    && (sys.processes[pid].pc.Begun? || sys.processes[pid].pc.Holding?)
  }

  predicate BeginsWarranted(at: System, a: Action, pid: nat, ids: Ids) {
    && a.Begin?
    && a.pid == pid
    && Signing.Warranted(at.db, ids.operationId, ids.authorizationId, a.now)
  }

  lemma BeginAct(sys: System, a: Action, pid: nat, ids: Ids)
    requires HasBegun(Act(sys, a), pid, ids) && !HasBegun(sys, pid, ids)
    ensures BeginsWarranted(sys, a, pid, ids)
  {
    hide Execution.MaySign, Signing.Warranted, Execution.PersistSigned, Execution.StartAttempt, Execution.FinishAttempt,
        Finds, SignedId, AttemptId, Apply, Machine.Reserved;
    Signing.MaySignIsWarranted(sys.db, ids.operationId, ids.authorizationId, if a.Begin? then a.now else 0);
  }

  /** Over every interleaving, whoever has begun to sign began when it was warranted. */
  lemma {:induction false} BegunWasWarranted(sys: System, actions: seq<Action>, pid: nat, ids: Ids) returns (i: nat)
    requires InitialSystem(sys) && HasBegun(RunAll(sys, actions), pid, ids)
    ensures i < |actions| && BeginsWarranted(RunAll(sys, actions[..i]), actions[i], pid, ids)
  {
    hide Act, BeginsWarranted;
    if actions != [] {
      var before := actions[..|actions| - 1];
      var at, a := RunAll(sys, before), actions[|actions| - 1];
      if HasBegun(at, pid, ids) {
        i := BegunWasWarranted(sys, before, pid, ids);
        assert before[..i] == actions[..i];
      } else {
        i := |before|;
        BeginAct(at, a, pid, ids);
      }
    }
  }

  // ----- what a process checks on its own --------------------------------------------------

  /** The process goes on, and nothing else has changed. */
  predicate GoesOn(sys: System, next: System, pid: nat, pc: Pc) {
    && pid in sys.processes
    && next == sys.(processes := sys.processes[pid := sys.processes[pid].(pc := pc)])
  }

  /** The process has stopped; the database and what was sent are as they were. */
  predicate HasStopped(sys: System, next: System, pid: nat) {
    pid !in next.processes && next.db == sys.db && next.sent == sys.sent
  }

  /** Bytes are believed only if they hash to what the signer claimed and to what was found signed before. */
  lemma DeriveLaw(sys: System, pid: nat)
    requires pid in sys.processes && sys.processes[pid].pc.Ready?
    ensures var p := sys.processes[pid];
      var next := Act(sys, Derive(pid));
      if
        && p.pc.bytes.Some?
        && Keccak(p.pc.bytes.value) == p.pc.claimed
        && (p.durable.Some? ==> p.durable.value == p.pc.claimed)
      then GoesOn(sys, next, pid, Derived(p.pc.signedId, p.pc.bytes.value))
      else HasStopped(sys, next, pid)
  {
    hide Apply, Machine.Reserved;
  }

  /** What is signed again must hash as it did before. */
  lemma RematerializeLaw(sys: System, pid: nat, bytes: Option<Text>, claimed: Hash)
    requires pid in sys.processes && sys.processes[pid].pc.Rematerializing?
    ensures var k := sys.processes[pid].pc.signedId;
      var next := Act(sys, MakeSignature(pid, bytes, claimed));
      if k in sys.db.signed && sys.db.signed[k].transactionHash == claimed
      then GoesOn(sys, next, pid, Ready(k, bytes, claimed))
      else HasStopped(sys, next, pid)
  {
    hide Apply, Machine.Reserved;
  }

  /** A signer signs afresh only what is not signed, and signs again only when told to. */
  lemma ExamineLaw(sys: System, pid: nat, found: Option<Id>)
    requires pid in sys.processes && sys.processes[pid].pc.Signer?
    ensures var p := sys.processes[pid];
      var next := Act(sys, Examine(pid, found));
      var mine := set k | k in sys.db.signed && sys.db.signed[k].operationId == p.ids.operationId
        && sys.db.signed[k].authorizationId == p.ids.authorizationId;
      && (found.None? && mine == {} ==> GoesOn(sys, next, pid, Fresh))
      && (found.Some? && found.value in mine && p.pc.rematerialize ==>
            GoesOn(sys, next, pid, Rematerializing(found.value)))
      && (found.Some? && found.value in mine && !p.pc.rematerialize ==> HasStopped(sys, next, pid))
      && ((if found.Some? then found.value !in mine else mine != {}) ==> next == sys)
  {
    hide Apply, Machine.Reserved;
    var p := sys.processes[pid];
    var mine := set k | k in sys.db.signed && sys.db.signed[k].operationId == p.ids.operationId
      && sys.db.signed[k].authorizationId == p.ids.authorizationId;
    if mine != {} {
      var k :| k in mine;
    }
    assert mine == {} ==> forall k | k in sys.db.signed :: k !in mine;
  }

  /** An attempt is named after the operation and the envelope revision whose signature it sends. */
  lemma AttemptIsNamed(o: Id, revision: nat)
    ensures AttemptId(SignedId(o, revision)) ==
      Id(Lit("attempt:") + o.text + Lit(":") + Decimal.Render(revision))
  {
    hide Decimal.Render;
    var rest := o.text + Lit(":") + Decimal.Render(revision);
    var t := SignedId(o, revision).text;
    assert t == Lit("signed:") + rest;
    assert t[..7] == Lit("signed:") && t[7..] == rest;
  }
}
