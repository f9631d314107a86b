/** Over every interleaving of executors, signers, crashes and other transactions: one send, lawful states. */
module Dispatch {
  import opened Texts
  import opened Schema
  import opened Execution
  import opened Machine
  import opened Evolution
  import opened Invariants
  import opened Trail
  import opened Money
  import Protocol
  import Moves
  import L = Lifecycle

  // ----- what each process knows -----------------------------------------------------------

  predicate For(a: Attempt, ids: Ids) {
    a.operationId == ids.operationId && a.authorizationId == ids.authorizationId
  }

  predicate Attempted(attempts: seq<Attempt>, ids: Ids) {
    exists i :: 0 <= i < |attempts| && For(attempts[i], ids)
  }

  /** A durable attempt for ids, with this id and this transaction hash. */
  predicate Durable(attempts: seq<Attempt>, ids: Ids, attemptId: Id, hash: Hash) {
    exists i :: 0 <= i < |attempts| && For(attempts[i], ids) && attempts[i].attemptId == attemptId
      && attempts[i].transactionHash == hash
  }

  predicate Owns(attempts: seq<Attempt>, ids: Ids, attemptId: Id) {
    exists i :: 0 <= i < |attempts| && For(attempts[i], ids) && attempts[i].attemptId == attemptId
  }

  /** That attempt is still marked as started. */
  predicate StillStarted(attempts: seq<Attempt>, attemptId: Id) {
    forall i :: 0 <= i < |attempts| && attempts[i].attemptId == attemptId ==>
      attempts[i].status == AttemptStatus.Started
  }

  predicate WasSent(sent: seq<Sending>, ids: Ids) {
    exists i :: 0 <= i < |sent| && sent[i].ids == ids
  }

  /** Some signed transaction for ids has this hash. */
  predicate SignedAs(signed: map<Id, SignedTransaction>, ids: Ids, hash: Hash) {
    exists k | k in signed :: (signed[k].operationId, signed[k].authorizationId, signed[k].transactionHash) ==
      (ids.operationId, ids.authorizationId, hash)
  }

  /** Before its attempt is durable, an executor knows that there is none. */
  predicate BeforeStart(pc: Pc) {
    pc.Unattempted? || pc.Signer? || pc.Rematerializing? || pc.Fresh? || pc.Begun? || pc.Holding? || pc.Ready?
      || pc.Derived? || pc.Checked?
  }

  predicate Knows(p: Process, pid: nat, db: Db, locks: map<Id, nat>, sent: seq<Sending>) {
    && (p.executes && !p.pc.Waiting? ==> p.ids.operationId in locks && locks[p.ids.operationId] == pid)
    && (!p.executes ==> p.pc.Signer? || p.pc.Fresh? || p.pc.Begun? || p.pc.Holding?)
    && (!p.executes && p.pc.Signer? ==> !p.pc.rematerialize)
    && (p.executes && BeforeStart(p.pc) ==> !Attempted(db.attempts, p.ids))
    && (p.pc.Begun? || p.pc.Holding? ==>
          p.ids.operationId in db.operations && L.SigningBegun(db.operations[p.ids.operationId].state))
    && (p.pc.Checked? ==>
          && p.pc.signedId in db.signed
          && var s := db.signed[p.pc.signedId];
          (s.operationId, s.authorizationId, s.transactionHash) ==
            (p.ids.operationId, p.ids.authorizationId, Keccak(p.pc.raw)))
    && (p.pc.Started? ==>
          Durable(db.attempts, p.ids, p.pc.attemptId, Keccak(p.pc.raw)) && StillStarted(db.attempts, p.pc.attemptId)
            && !WasSent(sent, p.ids))
    && (p.pc.Started? ==> SignedAs(db.signed, p.ids, Keccak(p.pc.raw)))
    && (p.pc.Sent? ==> Owns(db.attempts, p.ids, p.pc.attemptId))
    && ((p.pc.Derived? || p.pc.Checked? || p.pc.Started?) && p.durable.Some? ==> Keccak(p.pc.raw) == p.durable.value)
  }

  /** Attempts are told apart by their ids and by what they are for. */
  predicate DistinctAttempts(attempts: seq<Attempt>) {
    forall i, j :: 0 <= i < j < |attempts| ==>
      && attempts[i].attemptId != attempts[j].attemptId
      && (attempts[i].operationId, attempts[i].authorizationId) != (attempts[j].operationId,
        attempts[j].authorizationId)
  }

  /** Nothing is sent twice, and everything sent has its durable attempt. */
  predicate SentOnce(sent: seq<Sending>, attempts: seq<Attempt>) {
    && (forall i, j :: 0 <= i < j < |sent| ==> sent[i].ids != sent[j].ids)
    && (forall i :: 0 <= i < |sent| ==> Durable(attempts, sent[i].ids, sent[i].attemptId, Keccak(sent[i].raw)))
  }

  /** Everything sent was signed as it was sent. */
  predicate SentSigned(sent: seq<Sending>, signed: map<Id, SignedTransaction>) {
    forall i :: 0 <= i < |sent| ==> SignedAs(signed, sent[i].ids, Keccak(sent[i].raw))
  }

  ghost predicate Sound(ops: map<Id, Operation>, sys: System) {
    && Inv(sys.db)
    && Traced(ops, sys.db)
    && (forall pid | pid in sys.processes :: Knows(sys.processes[pid], pid, sys.db, sys.locks, sys.sent))
    && DistinctAttempts(sys.db.attempts)
    && SentOnce(sys.sent, sys.db.attempts)
    && SentSigned(sys.sent, sys.db.signed)
  }

  // ----- reading the attempts --------------------------------------------------------------

  lemma {:induction false} FoundAttempt(attempts: seq<Attempt>, ids: Ids)
    ensures FindAttempt(attempts, ids.operationId, ids.authorizationId).Some? <==> Attempted(attempts, ids)
  {
    if attempts != [] {
      FoundAttempt(attempts[1..], ids);
      if Attempted(attempts, ids) && !For(attempts[0], ids) {
        var i :| 0 <= i < |attempts| && For(attempts[i], ids);
        assert For(attempts[1..][i - 1], ids);
      }
    }
  }

  lemma {:induction false} FoundFirst(attempts: seq<Attempt>, attemptId: Id, signedId: Id)
    ensures var first := FirstAttempt(attempts, attemptId, signedId);
      && (first.Some? ==> first.value in attempts)
      && (first.None? ==> forall i :: 0 <= i < |attempts| ==> attempts[i].attemptId != attemptId)
  {
    if attempts != [] {
      FoundFirst(attempts[1..], attemptId, signedId);
      assert forall i :: 0 < i < |attempts| ==> attempts[i] == attempts[1..][i - 1];
    }
  }

  // ----- steps that leave the attempts alone -----------------------------------------------

  /** What a process knows survives any change to the database that leaves the attempts alone. */
  lemma KnowsPersists(p: Process, pid: nat, db: Db, next: Db, locks: map<Id, nat>, sent: seq<Sending>)
    requires Knows(p, pid, db, locks, sent) && Evolves(db, next) && next.attempts == db.attempts
    ensures Knows(p, pid, next, locks, sent)
  {}

  lemma DatabaseStep(ops: map<Id, Operation>, sys: System, next: Db)
    requires Sound(ops, sys) && Inv(next) && Traced(ops, next) && Evolves(sys.db, next)
      && next.attempts == sys.db.attempts
    ensures Sound(ops, sys.(db := next))
  {
    hide Inv, Traced, Evolves, Knows;
    SentSignedPersists(sys.sent, sys.db, next);
    forall pid | pid in sys.processes ensures Knows(sys.processes[pid], pid, next, sys.locks, sys.sent) {
      KnowsPersists(sys.processes[pid], pid, sys.db, next, sys.locks, sys.sent);
    }
  }

  lemma GotoSound(ops: map<Id, Operation>, sys: System, pid: nat, pc: Pc)
    requires Sound(ops, sys) && pid in sys.processes
      && Knows(sys.processes[pid].(pc := pc), pid, sys.db, sys.locks, sys.sent)
    ensures Sound(ops, Goto(sys, pid, pc))
  {
    hide Inv, Traced, Knows;
  }

  lemma SurveyingSound(ops: map<Id, Operation>, sys: System, pid: nat, found: Option<Id>)
    requires Sound(ops, sys) && pid in sys.processes && sys.processes[pid].pc.Unattempted?
    requires Finds(sys.db, sys.processes[pid].ids, found)
    ensures Sound(ops, Surveying(sys, pid, found))
  {
    hide Inv, Traced, Attempted, Durable, StillStarted, WasSent;
    assert Knows(sys.processes[pid], pid, sys.db, sys.locks, sys.sent);
  }

  /** Signed transactions are never removed. */
  lemma SentSignedPersists(sent: seq<Sending>, db: Db, next: Db)
    requires SentSigned(sent, db.signed) && Evolves(db, next)
    ensures SentSigned(sent, next.signed)
  {
    forall i | 0 <= i < |sent| ensures SignedAs(next.signed, sent[i].ids, Keccak(sent[i].raw)) {
      assert SignedAs(db.signed, sent[i].ids, Keccak(sent[i].raw));
    }
  }

  lemma EndSound(ops: map<Id, Operation>, sys: System, pid: nat)
    requires Sound(ops, sys) && pid in sys.processes
    ensures Sound(ops, End(sys, pid))
  {
    hide Inv, Traced, BeforeStart, Attempted, Durable, StillStarted, WasSent;
    var next := End(sys, pid);
    forall q | q in next.processes ensures Knows(next.processes[q], q, next.db, next.locks, next.sent) {
      assert Knows(sys.processes[q], q, sys.db, sys.locks, sys.sent);
    }
  }

  lemma AcquireSound(ops: map<Id, Operation>, sys: System, pid: nat)
    requires Sound(ops, sys) && pid in sys.processes && sys.processes[pid].pc.Waiting?
      && sys.processes[pid].ids.operationId !in sys.locks
    ensures Sound(ops, Goto(sys, pid, Locked).(locks := sys.locks[sys.processes[pid].ids.operationId := pid]))
  {
    hide Inv, Traced, Attempted, Durable, StillStarted, WasSent;
    var next := Goto(sys, pid, Locked).(locks := sys.locks[sys.processes[pid].ids.operationId := pid]);
    forall q | q in next.processes ensures Knows(next.processes[q], q, next.db, next.locks, next.sent) {
      assert Knows(sys.processes[q], q, sys.db, sys.locks, sys.sent);
    }
  }

  lemma BeginningSound(ops: map<Id, Operation>, sys: System, pid: nat, now: Time)
    requires Sound(ops, sys) && pid in sys.processes && sys.processes[pid].pc.Fresh?
    ensures Sound(ops, Beginning(sys, pid, now))
  {
    hide Inv, Traced, Evolves, Sound, Knows;
    var p := sys.processes[pid];
    var tx := BeginSigning(sys.db, p.ids.operationId, p.ids.authorizationId, now);
    if tx.Abort? {
      EndSound(ops, sys, pid);
    } else {
      TransactSound(ops, sys, Protocol.OfExecution(Protocol.BeginSigning(p.ids.operationId, p.ids.authorizationId,
        now)));
      NowBegun(sys.db, p.ids, now);
      FreshToBegun(ops, sys.(db := tx.db), pid);
      GotoSound(ops, sys.(db := tx.db), pid, Begun);
    }
  }

  lemma NowBegun(db: Db, ids: Ids, now: Time)
    ensures var tx := BeginSigning(db, ids.operationId, ids.authorizationId, now);
      tx.Commit? ==> ids.operationId in tx.db.operations && L.SigningBegun(tx.db.operations[ids.operationId].state)
  {}

  lemma FreshToBegun(ops: map<Id, Operation>, sys: System, pid: nat)
    requires Sound(ops, sys) && pid in sys.processes && sys.processes[pid].pc.Fresh?
    requires var o := sys.processes[pid].ids.operationId;
      o in sys.db.operations && L.SigningBegun(sys.db.operations[o].state)
    ensures Knows(sys.processes[pid].(pc := Begun), pid, sys.db, sys.locks, sys.sent)
  {
    hide Inv, Traced;
  }

  lemma TransactSound(ops: map<Id, Operation>, sys: System, c: Protocol.Command)
    requires Sound(ops, sys) && !Reserved(c)
    ensures Sound(ops, sys.(db := Protocol.Apply(sys.db, c)))
  {
    hide Inv, Traced, Evolves, Knows, Protocol.Apply;
    StepKeeps(sys.db, c);
    StepEvolves(sys.db, c);
    StepTraced(ops, sys.db, c);
    StepKeepsAttempts(sys.db, c);
    DatabaseStep(ops, sys, Protocol.Apply(sys.db, c));
  }

  // ----- persisting a signature ------------------------------------------------------------

  /** A signer that has begun signs from Signing: the looser guard of the write is never used. */
  lemma PersistIsLawful(ops: map<Id, Operation>, db: Db, k: Id, s: SignedTransaction, now: Time)
    requires Traced(ops, db) && PersistSigned(db, k, s, now).Commit?
    requires s.operationId in db.operations && L.SigningBegun(db.operations[s.operationId].state)
    ensures db.operations[s.operationId].state == L.Signing
    ensures Traced(ops, PersistSigned(db, k, s, now).db)
  {
    hide Replay, Lawful;
    Append(ops, db, s.operationId, L.Signed);
  }

  lemma PersistingSound(ops: map<Id, Operation>, sys: System, pid: nat, now: Time)
    requires Sound(ops, sys) && pid in sys.processes && sys.processes[pid].pc.Holding?
    ensures Sound(ops, Persisting(sys, pid, sys.processes[pid].pc.bytes, sys.processes[pid].pc.claimed, now))
  {
    hide Inv, Traced, Evolves, PersistSigned, Protocol.Apply, SignedId, BeforeStart, Attempted, Durable, StillStarted,
        WasSent, Sound;
    var p := sys.processes[pid];
    EndSound(ops, sys, pid);
    if p.ids.authorizationId in sys.db.authorizations {
      var b := sys.db.authorizations[p.ids.authorizationId].bound;
      var k, s := SignedId(p.ids.operationId, b.envelopeRevision), Evidence(p.ids, b, p.pc.claimed);
      var tx := PersistSigned(sys.db, k, s, now);
      if tx.Commit? {
        PersistedSound(ops, sys, pid, k, s, now);
        var next := sys.(db := tx.db);
        EndSound(ops, next, pid);
        if p.executes {
          HoldingToReady(ops, next, pid, k);
          GotoSound(ops, next, pid, Ready(k, p.pc.bytes, p.pc.claimed));
        }
      }
    }
  }

  lemma PersistedSound(ops: map<Id, Operation>, sys: System, pid: nat, k: Id, s: SignedTransaction, now: Time)
    requires Sound(ops, sys) && pid in sys.processes && sys.processes[pid].pc.Holding?
    requires s.operationId == sys.processes[pid].ids.operationId && PersistSigned(sys.db, k, s, now).Commit?
    ensures Sound(ops, sys.(db := PersistSigned(sys.db, k, s, now).db))
  {
    hide Inv, Traced, Evolves, PersistSigned, Attempted, Durable, StillStarted, WasSent;
    var c := Protocol.OfExecution(Protocol.PersistSigned(k, s, now));
    assert Protocol.Apply(sys.db, c) == PersistSigned(sys.db, k, s, now).db;
    assert Knows(sys.processes[pid], pid, sys.db, sys.locks, sys.sent);
    StepKeeps(sys.db, c);
    StepEvolves(sys.db, c);
    StepKeepsAttempts(sys.db, c);
    PersistIsLawful(ops, sys.db, k, s, now);
    DatabaseStep(ops, sys, PersistSigned(sys.db, k, s, now).db);
  }

  lemma HoldingToReady(ops: map<Id, Operation>, sys: System, pid: nat, k: Id)
    requires Sound(ops, sys) && pid in sys.processes && sys.processes[pid].pc.Holding? && sys.processes[pid].executes
    ensures Knows(sys.processes[pid].(pc := Ready(k, sys.processes[pid].pc.bytes, sys.processes[pid].pc.claimed)), pid,
      sys.db, sys.locks, sys.sent)
  {
    hide Inv, Traced;
  }

  // ----- starting, sending, finishing ------------------------------------------------------

  /** Two executors past the lock are for different operations. */
  lemma Excluded(ops: map<Id, Operation>, sys: System, p: nat, q: nat)
    requires Sound(ops, sys) && p in sys.processes && q in sys.processes
    requires sys.processes[p].executes && sys.processes[q].executes && !sys.processes[p].pc.Waiting?
      && !sys.processes[q].pc.Waiting?
    requires sys.processes[p].ids.operationId == sys.processes[q].ids.operationId
    ensures p == q
  {
    hide Inv, Traced;
    assert Knows(sys.processes[p], p, sys.db, sys.locks, sys.sent)
      && Knows(sys.processes[q], q, sys.db, sys.locks, sys.sent);
  }

  lemma DurableGrows(before: seq<Attempt>, after: seq<Attempt>, ids: Ids, attemptId: Id, hash: Hash)
    requires Moves.AttemptsGrow(before, after)
    ensures Durable(before, ids, attemptId, hash) ==> Durable(after, ids, attemptId, hash)
    ensures Owns(before, ids, attemptId) ==> Owns(after, ids, attemptId)
  {
    if Durable(before, ids, attemptId, hash) {
      var i :| 0 <= i < |before| && For(before[i], ids) && before[i].attemptId == attemptId
        && before[i].transactionHash == hash;
      assert For(after[i], ids);
    }
    if Owns(before, ids, attemptId) {
      var i :| 0 <= i < |before| && For(before[i], ids) && before[i].attemptId == attemptId;
      assert For(after[i], ids);
    }
  }

  lemma SentOnceGrows(sent: seq<Sending>, before: seq<Attempt>, after: seq<Attempt>)
    requires SentOnce(sent, before) && Moves.AttemptsGrow(before, after)
    ensures SentOnce(sent, after)
  {
    forall i | 0 <= i < |sent| ensures Durable(after, sent[i].ids, sent[i].attemptId, Keccak(sent[i].raw)) {
      DurableGrows(before, after, sent[i].ids, sent[i].attemptId, Keccak(sent[i].raw));
    }
  }

  /** A new attempt for other ids changes nothing a process knows. */
  lemma KnowsAppend(p: Process, pid: nat, db: Db, next: Db, locks: map<Id, nat>, sent: seq<Sending>, row: Attempt)
    requires Knows(p, pid, db, locks, sent) && Evolves(db, next) && next.attempts == db.attempts + [row]
    requires row.status == AttemptStatus.Started && (p.executes && BeforeStart(p.pc) ==> !For(row, p.ids))
    ensures Knows(p, pid, next, locks, sent)
  {
    if p.pc.Started? {
      DurableGrows(db.attempts, next.attempts, p.ids, p.pc.attemptId, Keccak(p.pc.raw));
    } else if p.pc.Sent? {
      DurableGrows(db.attempts, next.attempts, p.ids, p.pc.attemptId, Keccak([]));
    }
  }

  /** What the starting process knows once its own attempt is durable. */
  lemma NewlyStarted(ops: map<Id, Operation>, sys: System, pid: nat, next: Db, row: Attempt, raw: Text)
    requires Sound(ops, sys) && pid in sys.processes && sys.processes[pid].pc.Checked?
      && sys.processes[pid].pc.raw == raw
    requires next.attempts == sys.db.attempts + [row] && For(row, sys.processes[pid].ids) && Evolves(sys.db, next)
    requires row.transactionHash == Keccak(raw) && row.status == AttemptStatus.Started
    requires forall i :: 0 <= i < |sys.db.attempts| ==> sys.db.attempts[i].attemptId != row.attemptId
    ensures Knows(sys.processes[pid].(pc := Pc.Started(row.attemptId, raw)), pid, next, sys.locks, sys.sent)
    ensures DistinctAttempts(next.attempts)
  {
    hide Inv, Traced;
    var p := sys.processes[pid];
    assert Knows(p, pid, sys.db, sys.locks, sys.sent);
    assert For(next.attempts[|sys.db.attempts|], p.ids);
    SentWasAttempted(sys.sent, sys.db.attempts, p.ids);
  }

  lemma SentWasAttempted(sent: seq<Sending>, attempts: seq<Attempt>, ids: Ids)
    requires SentOnce(sent, attempts)
    ensures WasSent(sent, ids) ==> Attempted(attempts, ids)
  {
    if WasSent(sent, ids) {
      var i :| 0 <= i < |sent| && sent[i].ids == ids;
      assert Durable(attempts, ids, sent[i].attemptId, Keccak(sent[i].raw));
    }
  }

  lemma AppendSound(ops: map<Id, Operation>, sys: System, pid: nat, next: Db, row: Attempt, raw: Text)
    requires Sound(ops, sys) && pid in sys.processes && sys.processes[pid].pc.Checked?
      && sys.processes[pid].pc.raw == raw
    requires Inv(next) && Traced(ops, next) && Evolves(sys.db, next)
    requires next.attempts == sys.db.attempts + [row] && For(row, sys.processes[pid].ids)
    requires row.transactionHash == Keccak(raw) && row.status == AttemptStatus.Started
    requires forall i :: 0 <= i < |sys.db.attempts| ==> sys.db.attempts[i].attemptId != row.attemptId
    ensures Sound(ops, Goto(sys.(db := next), pid, Pc.Started(row.attemptId, raw)))
  {
    hide Inv, Traced, Evolves, Knows;
    NewlyStarted(ops, sys, pid, next, row, raw);
    SentOnceGrows(sys.sent, sys.db.attempts, next.attempts);
    SentSignedPersists(sys.sent, sys.db, next);
    forall q | q in sys.processes && q != pid ensures Knows(sys.processes[q], q, next, sys.locks, sys.sent) {
      if sys.processes[q].executes && BeforeStart(sys.processes[q].pc) && For(row, sys.processes[q].ids) {
        OnlyExecutorsCheck(ops, sys, pid);
        Excluded(ops, sys, pid, q);
        assert false;
      }
      KnowsAppend(sys.processes[q], q, sys.db, next, sys.locks, sys.sent, row);
    }
  }

  lemma OnlyExecutorsCheck(ops: map<Id, Operation>, sys: System, pid: nat)
    requires Sound(ops, sys) && pid in sys.processes
    requires sys.processes[pid].pc.Checked? || sys.processes[pid].pc.Started? || sys.processes[pid].pc.Sent?
    ensures sys.processes[pid].executes
  {
    hide Inv, Traced;
    assert Knows(sys.processes[pid], pid, sys.db, sys.locks, sys.sent);
  }

  lemma StartingSound(ops: map<Id, Operation>, sys: System, pid: nat, signedId: Id, raw: Text)
    requires Sound(ops, sys) && pid in sys.processes && sys.processes[pid].pc == Checked(signedId, raw)
    ensures Sound(ops, Starting(sys, pid, signedId, raw))
  {
    hide Inv, Traced, Evolves, Sound, FirstAttempt, AttemptId, Protocol.Apply;
    var p := sys.processes[pid];
    CheckedFacts(ops, sys, pid);
    var s := sys.db.signed[signedId];
    var id := AttemptId(signedId);
    var tx := StartAttempt(sys.db, signedId, s.reservationId, id);
    EndSound(ops, sys, pid);
    FoundFirst(sys.db.attempts, id, signedId);
    if tx.Commit? {
      if FirstAttempt(sys.db.attempts, id, signedId).Some? {
        assert sys.(db := tx.db) == sys;
        ExistingIsForeign(sys.db.attempts, p.ids, tx.value);
      } else {
        StartedDatabase(ops, sys, signedId, s.reservationId, id);
        AppendSound(ops, sys, pid, tx.db, tx.value, raw);
      }
    }
  }

  lemma CheckedFacts(ops: map<Id, Operation>, sys: System, pid: nat)
    requires Sound(ops, sys) && pid in sys.processes && sys.processes[pid].pc.Checked?
    ensures var p := sys.processes[pid];
      && !Attempted(sys.db.attempts, p.ids)
      && p.pc.signedId in sys.db.signed
      && var s := sys.db.signed[p.pc.signedId];
      (s.operationId, s.authorizationId, s.transactionHash) ==
        (p.ids.operationId, p.ids.authorizationId, Keccak(p.pc.raw))
  {
    hide Inv, Traced;
    assert Knows(sys.processes[pid], pid, sys.db, sys.locks, sys.sent);
  }

  lemma ExistingIsForeign(attempts: seq<Attempt>, ids: Ids, row: Attempt)
    requires row in attempts && !Attempted(attempts, ids)
    ensures !For(row, ids)
  {}

  lemma StartedDatabase(ops: map<Id, Operation>, sys: System, signedId: Id, reservationId: Id, id: Id)
    requires Sound(ops, sys) && StartAttempt(sys.db, signedId, reservationId, id).Commit?
    ensures var next := StartAttempt(sys.db, signedId, reservationId, id).db;
      Inv(next) && Traced(ops, next) && Evolves(sys.db, next)
  {
    hide Inv, Traced, Evolves, StartAttempt, Knows;
    var c := Protocol.OfExecution(Protocol.StartAttempt(signedId, reservationId, id));
    assert Protocol.Apply(sys.db, c) == StartAttempt(sys.db, signedId, reservationId, id).db;
    StepKeeps(sys.db, c);
    StepEvolves(sys.db, c);
    StepTraced(ops, sys.db, c);
  }

  lemma SendSound(ops: map<Id, Operation>, sys: System, pid: nat)
    requires Sound(ops, sys) && pid in sys.processes && sys.processes[pid].pc.Started?
    ensures Sound(ops, Act(sys, Send(pid)))
  {
    hide Inv, Traced, Protocol.Apply, Attempted, StillStarted;
    var p := sys.processes[pid];
    var next := Act(sys, Send(pid));
    assert Knows(p, pid, sys.db, sys.locks, sys.sent);
    DurableIsOwned(sys.db.attempts, p.ids, p.pc.attemptId, Keccak(p.pc.raw));
    forall q | q in next.processes ensures Knows(next.processes[q], q, next.db, next.locks, next.sent) {
      assert Knows(sys.processes[q], q, sys.db, sys.locks, sys.sent);
      if q != pid && sys.processes[q].pc.Started? && sys.processes[q].ids == p.ids {
        Excluded(ops, sys, pid, q);
      }
    }
  }

  lemma DurableIsOwned(attempts: seq<Attempt>, ids: Ids, attemptId: Id, hash: Hash)
    requires Durable(attempts, ids, attemptId, hash)
    ensures Owns(attempts, ids, attemptId)
  {}

  /** Finishing one's own attempt changes nothing another process knows. */
  lemma KnowsFinished(p: Process, pid: nat, db: Db, next: Db, locks: map<Id, nat>, sent: seq<Sending>, id: Id,
      status: AttemptStatus)
    requires Knows(p, pid, db, locks, sent) && next == db.(attempts := Finished(db.attempts, id, status))
    requires p.pc.Started? ==> p.pc.attemptId != id
    ensures Knows(p, pid, next, locks, sent)
  {
    if p.pc.Started? {
      DurableGrows(db.attempts, next.attempts, p.ids, p.pc.attemptId, Keccak(p.pc.raw));
    } else if p.pc.Sent? {
      DurableGrows(db.attempts, next.attempts, p.ids, p.pc.attemptId, Keccak([]));
    }
    assert Attempted(next.attempts, p.ids) ==> Attempted(db.attempts, p.ids) by {
      if Attempted(next.attempts, p.ids) {
        var i :| 0 <= i < |next.attempts| && For(next.attempts[i], p.ids);
        assert For(db.attempts[i], p.ids);
      }
    }
  }

  /** Two attempts with one id are the same attempt. */
  lemma SameOwner(attempts: seq<Attempt>, ids: Ids, other: Ids, id: Id)
    requires DistinctAttempts(attempts) && Owns(attempts, ids, id) && Owns(attempts, other, id)
    ensures ids == other
  {
    var i :| 0 <= i < |attempts| && For(attempts[i], ids) && attempts[i].attemptId == id;
    var j :| 0 <= j < |attempts| && For(attempts[j], other) && attempts[j].attemptId == id;
    assert i == j;
  }

  lemma FinishSound(ops: map<Id, Operation>, sys: System, pid: nat, status: AttemptStatus)
    requires Sound(ops, sys) && pid in sys.processes && sys.processes[pid].pc.Sent?
    ensures Sound(ops, sys.(db := After(sys.db, FinishAttempt(sys.db, sys.processes[pid].pc.attemptId, status))))
  {
    hide Inv, Traced, Knows, Evolves, Protocol.Apply, Finished;
    var p := sys.processes[pid];
    var id := p.pc.attemptId;
    var next := After(sys.db, FinishAttempt(sys.db, id, status));
    FinishedDatabase(ops, sys, id, status);
    SentOnceGrows(sys.sent, sys.db.attempts, Finished(sys.db.attempts, id, status));
    forall q | q in sys.processes ensures Knows(sys.processes[q], q, next, sys.locks, sys.sent) {
      if sys.processes[q].pc.Started? && sys.processes[q].pc.attemptId == id {
        NotMine(ops, sys, pid, q);
        assert false;
      }
      if next != sys.db {
        KnowsFinished(sys.processes[q], q, sys.db, next, sys.locks, sys.sent, id, status);
      }
    }
  }

  lemma NotMine(ops: map<Id, Operation>, sys: System, pid: nat, q: nat)
    requires Sound(ops, sys) && pid in sys.processes && sys.processes[pid].pc.Sent? && q in sys.processes
      && sys.processes[q].pc.Started?
    ensures sys.processes[q].pc.attemptId != sys.processes[pid].pc.attemptId
  {
    hide Inv, Traced;
    var p, r := sys.processes[pid], sys.processes[q];
    assert Knows(p, pid, sys.db, sys.locks, sys.sent) && Knows(r, q, sys.db, sys.locks, sys.sent);
    if r.pc.attemptId == p.pc.attemptId {
      DurableIsOwned(sys.db.attempts, r.ids, r.pc.attemptId, Keccak(r.pc.raw));
      SameOwner(sys.db.attempts, p.ids, r.ids, p.pc.attemptId);
      Excluded(ops, sys, pid, q);
    }
  }

  lemma FinishedDatabase(ops: map<Id, Operation>, sys: System, id: Id, status: AttemptStatus)
    requires Sound(ops, sys)
    ensures var next := After(sys.db, FinishAttempt(sys.db, id, status));
      && Inv(next) && Traced(ops, next)
      && DistinctAttempts(next.attempts)
  {
    hide Inv, Traced, Knows;
    var c := Protocol.OfExecution(Protocol.FinishAttempt(id, status));
    StepKeeps(sys.db, c);
    StepTraced(ops, sys.db, c);
  }

  // ----- every action ----------------------------------------------------------------------

  lemma LookUpSound(ops: map<Id, Operation>, sys: System, pid: nat)
    requires Sound(ops, sys) && pid in sys.processes && sys.processes[pid].pc.Locked?
    ensures Sound(ops, LookingUp(sys, pid))
  {
    hide Inv, Traced, FindAttempt, Attempted, Sound;
    FoundAttempt(sys.db.attempts, sys.processes[pid].ids);
    EndSound(ops, sys, pid);
    if !Attempted(sys.db.attempts, sys.processes[pid].ids) {
      KnowsOf(ops, sys, pid);
      GotoSound(ops, sys, pid, Unattempted);
    }
  }

  lemma KnowsOf(ops: map<Id, Operation>, sys: System, pid: nat)
    requires Sound(ops, sys) && pid in sys.processes
    ensures Knows(sys.processes[pid], pid, sys.db, sys.locks, sys.sent)
  {}

  /** A step that only changes where the process stands. */
  lemma LocalSound(ops: map<Id, Operation>, sys: System, a: Action)
    requires Sound(ops, sys) && (a.Examine? || a.MakeSignature? || a.Derive? || a.Find?) && a.pid in sys.processes
    ensures Sound(ops, Proceed(sys, a))
  {
    hide Inv, Traced, Sound, Finds, Attempted, Durable, StillStarted, WasSent, Owns, Surveying;
    var p := sys.processes[a.pid];
    EndSound(ops, sys, a.pid);
    KnowsOf(ops, sys, a.pid);
    var next := Proceed(sys, a);
    if next != sys && next != End(sys, a.pid) {
      GotoSound(ops, sys, a.pid, next.processes[a.pid].pc);
    }
  }

  lemma ProceedSound(ops: map<Id, Operation>, sys: System, a: Action)
    requires Sound(ops, sys) && !a.Transact? && !a.Spawn? && a.pid in sys.processes
    ensures Sound(ops, Proceed(sys, a))
  {
    hide Inv, Traced, Sound, LookingUp, Examining, Beginning, Rematerialized, Persisting, Deriving, Finding, Starting,
        Surveying, End, Finds, FinishAttempt;
    var p := sys.processes[a.pid];
    match a
    case Acquire(pid) => if p.pc.Waiting? && p.ids.operationId !in sys.locks { AcquireSound(ops, sys, pid); }
    case LookUp(pid) => if p.pc.Locked? { LookUpSound(ops, sys, pid); }
    case Survey(pid, found) => if p.pc.Unattempted? && Finds(sys.db, p.ids, found) {
      SurveyingSound(ops, sys, pid, found);
    }
    case Begin(pid, now) => if p.pc.Fresh? { BeginningSound(ops, sys, pid, now); }
    case Persist(pid, now) => if p.pc.Holding? { PersistingSound(ops, sys, pid, now); }
    case Start(pid) => if p.pc.Checked? { StartingSound(ops, sys, pid, p.pc.signedId, p.pc.raw); }
    case Send(pid) => if p.pc.Started? { SendSound(ops, sys, pid); }
    case Finish(pid, status) =>
      if p.pc.Sent? {
        FinishSound(ops, sys, pid, status);
        EndSound(ops, sys.(db := After(sys.db, FinishAttempt(sys.db, p.pc.attemptId, status))), pid);
      }
    case Stop(pid) => EndSound(ops, sys, pid);
    case _ => LocalSound(ops, sys, a);
  }

  lemma ActSound(ops: map<Id, Operation>, sys: System, a: Action)
    requires Sound(ops, sys)
    ensures Sound(ops, Act(sys, a))
  {
    hide Inv, Traced, Protocol.Apply, Proceed, Reserved;
    match a
    case Transact(c) => if !Reserved(c) { TransactSound(ops, sys, c); }
    case Spawn(_, _, _) =>
    case _ => if a.pid in sys.processes { ProceedSound(ops, sys, a); }
  }

  lemma {:induction false} SoundAlways(sys: System, actions: seq<Action>)
    requires InitialSystem(sys)
    ensures Sound(sys.db.operations, RunAll(sys, actions))
  {
    hide Inv, Act;
    if actions == [] {
      InitialHolds(sys.db);
    } else {
      SoundAlways(sys, actions[..|actions| - 1]);
      ActSound(sys.db.operations, RunAll(sys, actions[..|actions| - 1]), actions[|actions| - 1]);
    }
  }

  // ----- theorems --------------------------------------------------------------------------

  /** For one operation and authorization at most one raw transaction is ever handed to the network. */
  lemma SentAtMostOnce(sys: System, actions: seq<Action>, i: nat, j: nat)
    requires InitialSystem(sys) && i < j < |RunAll(sys, actions).sent|
    ensures RunAll(sys, actions).sent[i].ids != RunAll(sys, actions).sent[j].ids
  {
    hide Inv, RunAll;
    SoundAlways(sys, actions);
  }

  /** For one operation at most one raw transaction is ever handed to the network, whatever authorizations it had. */
  lemma SentOncePerOperation(sys: System, actions: seq<Action>, i: nat, j: nat)
    requires InitialSystem(sys) && i < j < |RunAll(sys, actions).sent|
    ensures RunAll(sys, actions).sent[i].ids.operationId != RunAll(sys, actions).sent[j].ids.operationId
  {
    hide Conserved, Drawings, Authorizations, BroadcastsHold, LeasesSpent, RunAll;
    SoundAlways(sys, actions);
    var now := RunAll(sys, actions);
    OneSignature(now.db.signed, now.sent[i], now.sent[j]);
  }

  /** Two sends of one operation rest on its one signed transaction, so they are for the same authorization. */
  lemma OneSignature(signed: map<Id, SignedTransaction>, a: Sending, b: Sending)
    requires SignedAs(signed, a.ids, Keccak(a.raw)) && SignedAs(signed, b.ids, Keccak(b.raw))
    requires forall j, k | j in signed && k in signed :: signed[j].operationId == signed[k].operationId ==> j == k
    ensures a.ids.operationId == b.ids.operationId ==> a.ids == b.ids
  {}

  /**
   Whenever bytes are about to be sent, their attempt is durable and marked as started, and they
   hash to what the attempt says, to what the signed transaction it rests on says, and to what the
   executor found signed before it entered the signer.
   */
  lemma SentOnlyWhenDurable(sys: System, actions: seq<Action>, pid: nat)
    requires InitialSystem(sys)
    requires pid in RunAll(sys, actions).processes && RunAll(sys, actions).processes[pid].pc.Started?
    ensures
      var now := RunAll(sys, actions);
      var p := now.processes[pid];
      exists i :: 0 <= i < |now.db.attempts|
        && now.db.attempts[i].status == AttemptStatus.Started
        && now.db.attempts[i].attemptId == p.pc.attemptId
        && now.db.attempts[i].operationId == p.ids.operationId
        && now.db.attempts[i].authorizationId == p.ids.authorizationId
        && now.db.attempts[i].transactionHash == Keccak(p.pc.raw)
    ensures
      var now := RunAll(sys, actions);
      SignedAs(now.db.signed, now.processes[pid].ids, Keccak(now.processes[pid].pc.raw))
    ensures
      var p := RunAll(sys, actions).processes[pid];
      p.durable.Some? ==> Keccak(p.pc.raw) == p.durable.value
  {
    hide Inv, RunAll;
    SoundAlways(sys, actions);
    var now := RunAll(sys, actions);
    var p := now.processes[pid];
    assert Knows(p, pid, now.db, now.locks, now.sent);
    var i :| 0 <= i < |now.db.attempts| && For(now.db.attempts[i], p.ids)
      && now.db.attempts[i].attemptId == p.pc.attemptId
             && now.db.attempts[i].transactionHash == Keccak(p.pc.raw);
  }

  /**
   Every state an operation was ever given is an edge away from its last one, and it has at most one
   signed transaction.
   */
  lemma LawfulAlways(sys: System, actions: seq<Action>)
    requires InitialSystem(sys)
    ensures Traced(sys.db.operations, RunAll(sys, actions).db) && SignedOnce(RunAll(sys, actions).db)
  {
    hide RunAll;
    SoundAlways(sys, actions);
  }
}
