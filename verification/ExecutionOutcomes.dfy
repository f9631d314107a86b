/**
 What signing, broadcasting and reconciling do: exactly when they commit, and then which rows are
 new, in full.
 */
module ExecutionOutcomes {
  import opened Texts
  import opened Schema
  import opened Execution
  import opened Moves
  import opened Invariants
  import opened Signing
  import L = Lifecycle

  /** The operation is in another state, with its audit entry, and nothing else has changed. */
  predicate StateEntered(db: Db, next: Db, o: Id, to: L.State) {
    && o in db.operations
    && next == db.(
      operations := db.operations[o := db.operations[o].(state := to)],
      history := db.history + [StateChange(o, db.operations[o].state, to)])
  }

  // ----- preparation -----------------------------------------------------------------------

  /** An envelope for an operation whose money is held, under the digest of all it says, and for ever. */
  lemma EnvelopeOutcome(db: Db, o: Id, e: EnvelopePayload)
    ensures var tx := PersistEnvelope(db, o, e);
      var row := Envelope(o, e.revision, EnvelopeDigest(e), e);
      && (tx.Commit? <==>
            && o in db.operations && db.operations[o].state == L.BudgetReserved
            && (exists k | k in db.reservations ::
                  db.reservations[k].operationId == o && db.reservations[k].status == Held)
            && (e.envelopeId in db.envelopes ==> db.envelopes[e.envelopeId] == row))
      && (tx.Commit? ==>
            && StateEntered(db, tx.db.(envelopes := db.envelopes), o, L.EnvelopeFinalized)
            && tx.db.envelopes == db.envelopes[e.envelopeId := row])
  {}

  // ----- signing ---------------------------------------------------------------------------

  /** Signing begins exactly for those entitled to it. */
  lemma BeginOutcome(db: Db, o: Id, z: Id, now: Time)
    requires Inv(db)
    ensures var tx := BeginSigning(db, o, z, now);
      && (tx.Commit? <==> Entitled(db, o, z, now))
      && (tx.Commit? && db.operations[o].state == L.Authorized ==> StateEntered(db, tx.db, o, L.Signing))
      && (tx.Commit? && db.operations[o].state == L.Signing ==> tx.db == db)
  {
    hide Inv, MaySign, AreCurrent;
    MaySignIff(db, o, z, now);
  }

  /** A signature is persisted exactly for those entitled to it, for the envelope they were authorized for, and once. */
  lemma PersistOutcome(db: Db, id: Id, s: SignedTransaction, now: Time)
    requires Inv(db)
    ensures var tx := PersistSigned(db, id, s, now);
      && (tx.Commit? <==>
            && Entitled(db, s.operationId, s.authorizationId, now)
            && var b := db.authorizations[s.authorizationId].bound;
            && (s.reservationId, s.envelopeId) == (b.reservationId, b.envelopeId)
            && (s.envelopeRevision, s.envelopeHash) == (b.envelopeRevision, b.envelopeHash)
            && id !in db.signed
            && forall k | k in db.signed :: db.signed[k].transactionHash != s.transactionHash)
      && (tx.Commit? ==>
            && StateEntered(db, tx.db.(signed := db.signed), s.operationId, L.Signed)
            && tx.db.signed == db.signed[id := s])
  {
    hide Inv, MaySign, AreCurrent, NewestRevision;
    MaySignIff(db, s.operationId, s.authorizationId, now);
  }

  // ----- broadcasting ----------------------------------------------------------------------

  predicate IsAttempt(a: Attempt, attemptId: Id, signedId: Id) {
    a.attemptId == attemptId || a.signedId == signedId
  }

  /** The attempt found is the oldest with its id or at its signed transaction. */
  lemma {:induction false} FirstIsOldest(attempts: seq<Attempt>, attemptId: Id, signedId: Id) returns (i: nat)
    ensures i <= |attempts| && (forall j | 0 <= j < i :: !IsAttempt(attempts[j], attemptId, signedId))
    ensures var first := FirstAttempt(attempts, attemptId, signedId);
      if i == |attempts| then first.None?
      else IsAttempt(attempts[i], attemptId, signedId) && first == Some(attempts[i])
  {
    if attempts == [] || IsAttempt(attempts[0], attemptId, signedId) {
      i := 0;
    } else {
      i := FirstIsOldest(attempts[1..], attemptId, signedId);
      i := i + 1;
      assert forall j | 0 < j < |attempts| :: attempts[j] == attempts[1..][j - 1];
    }
  }

  /** The same for the attempt an executor looks up. */
  lemma {:induction false} FoundIsOldest(attempts: seq<Attempt>, o: Id, z: Id) returns (i: nat)
    ensures i <= |attempts|
    ensures forall j | 0 <= j < i :: (attempts[j].operationId, attempts[j].authorizationId) != (o, z)
    ensures var found := FindAttempt(attempts, o, z);
      if i == |attempts| then found.None?
      else (attempts[i].operationId, attempts[i].authorizationId) == (o, z) && found == Some(attempts[i])
  {
    if attempts == [] || (attempts[0].operationId, attempts[0].authorizationId) == (o, z) {
      i := 0;
    } else {
      i := FoundIsOldest(attempts[1..], o, z);
      i := i + 1;
      assert forall j | 0 < j < |attempts| :: attempts[j] == attempts[1..][j - 1];
    }
  }

  /** An attempt is started once, for a signed transaction, while the reservation named is authorized. */
  lemma StartOutcome(db: Db, signedId: Id, k: Id, id: Id) returns (i: nat)
    ensures i <= |db.attempts| && (forall j | 0 <= j < i :: !IsAttempt(db.attempts[j], id, signedId))
    ensures i < |db.attempts| ==> IsAttempt(db.attempts[i], id, signedId)
    ensures var tx := StartAttempt(db, signedId, k, id);
      && (tx.Commit? <==>
            && k in db.reservations && db.reservations[k].status == Authorized
            && (i < |db.attempts| || signedId in db.signed))
      && (tx.Commit? && i < |db.attempts| ==> tx == Commit(db, db.attempts[i]))
      && (tx.Commit? && i == |db.attempts| ==>
            var s := db.signed[signedId];
            && tx.value == Attempt(id, signedId, s.operationId, s.authorizationId, s.reservationId, s.transactionHash,
              Started)
            && tx.db == db.(attempts := db.attempts + [tx.value]))
  {
    hide FirstAttempt;
    i := FirstIsOldest(db.attempts, id, signedId);
  }

  // ----- reconciling -----------------------------------------------------------------------

  /** One effect for an operation, and one for a transaction whose evidence is on record. */
  lemma EffectOutcome(db: Db, o: Id, e: Effect)
    requires Inv(db)
    ensures var tx := InsertEffect(db, o, e);
      && (tx.Commit? <==>
            if o in db.effects then db.effects[o] == e
            else
              && e.transactionHash in db.chain
              && forall k | k in db.effects :: db.effects[k].transactionHash != e.transactionHash)
      && (tx.Commit? ==> tx.db == db.(effects := db.effects[o := e]))
  {
    hide Inv;
    if o in db.effects {
      assert db.effects[o := db.effects[o]] == db.effects;
    }
  }

  /** The audit entries of a walk. */
  function Entries(o: Id, from: L.State, path: seq<L.State>): seq<StateChange>
    decreases |path|
  {
    if path == [] then [] else [StateChange(o, from, path[0])] + Entries(o, path[0], path[1..])
  }

  /** The operation has gone the whole path, step by step. */
  predicate Walked(db: Db, next: Db, o: Id, path: seq<L.State>) {
    && o in db.operations && path != []
    && next == db.(
      operations := db.operations[o := db.operations[o].(state := path[|path| - 1])],
      history := db.history + Entries(o, db.operations[o].state, path))
  }

  /** One step, and then the rest of the path. */
  lemma WalkedOn(db: Db, next: Db, o: Id, path: seq<L.State>)
    requires o in db.operations && |path| > 1 && Walked(SetState(db, o, path[0]), next, o, path[1..])
    ensures Walked(db, next, o, path)
  {
    var mid, last := SetState(db, o, path[0]), path[|path| - 1];
    assert path[1..][|path[1..]| - 1] == last;
    assert mid.operations[o := mid.operations[o].(state := last)] ==
      db.operations[o := db.operations[o].(state := last)];
    assert mid.history + Entries(o, path[0], path[1..]) == db.history + Entries(o, db.operations[o].state, path);
  }

  lemma WalkedOne(db: Db, o: Id, to: L.State)
    requires o in db.operations
    ensures Walked(db, SetState(db, o, to), o, [to])
  {
    assert [to][1..] == [];
  }

  lemma {:induction false} WalkIs(db: Db, o: Id, path: seq<L.State>)
    requires o in db.operations && path != [] && db.operations[o].state != path[0]
    requires L.IsEdge(db.operations[o].state, path[0])
    requires forall i | 0 <= i < |path| - 1 :: L.IsEdge(path[i], path[i + 1]) && path[i] != path[i + 1]
    ensures Walk(db, o, path).Ok? && Walked(db, Walk(db, o, path).value, o, path)
    decreases |path|
  {
    hide L.IsEdge, Walked;
    var next := SetState(db, o, path[0]);
    if |path| == 1 {
      assert path == [path[0]] && path[1..] == [];
      WalkedOne(db, o, path[0]);
    } else {
      assert L.IsEdge(path[0], path[1]) && path[0] != path[1];
      WalkIs(next, o, path[1..]);
      WalkedOn(db, Walk(db, o, path).value, o, path);
    }
  }

  lemma OnlySignedIsSent(s: L.State)
    ensures L.IsEdge(s, L.Broadcast) <==> s == L.Signed
  {}

  /** Where a reconciled operation passes through on its way from being sent. */
  function Way(confirmed: bool): seq<L.State> {
    [L.PendingConfirmation, if confirmed then L.Confirmed else L.Reverted, L.Reconciled]
  }

  /** Reconciling walks a signed or sent operation to its end, and leaves a reconciled one alone. */
  lemma ReconcileOutcome(db: Db, o: Id, confirmed: bool)
    ensures var tx := AdvanceTo(db, o, L.Reconciled, confirmed);
      && (tx.Commit? <==> o in db.operations && db.operations[o].state in {L.Signed, L.Broadcast, L.Reconciled})
      && (tx.Commit? && db.operations[o].state == L.Reconciled ==> tx.db == db)
      && (tx.Commit? && db.operations[o].state == L.Signed ==> Walked(db, tx.db, o, [L.Broadcast] + Way(confirmed)))
      && (tx.Commit? && db.operations[o].state == L.Broadcast ==> Walked(db, tx.db, o, Way(confirmed)))
  {
    hide Walk, L.IsEdge, Walked, Way;
    if o in db.operations {
      OnlySignedIsSent(db.operations[o].state);
      WalksTheWay(db, o, confirmed);
    }
  }

  lemma WalksTheWay(db: Db, o: Id, confirmed: bool)
    requires o in db.operations
    ensures var walked := Walk(db, o, if confirmed then CONFIRMED_PATH else REVERTED_PATH);
      && (walked.Ok? <==> db.operations[o].state in {L.Signed, L.Broadcast})
      && (db.operations[o].state == L.Signed ==> Walked(db, walked.value, o, [L.Broadcast] + Way(confirmed)))
      && (db.operations[o].state == L.Broadcast ==> Walked(db, walked.value, o, Way(confirmed)))
  {
    hide Walk, L.IsEdge, Walked;
    var path, state := [L.Broadcast] + Way(confirmed), db.operations[o].state;
    assert path == if confirmed then CONFIRMED_PATH else REVERTED_PATH;
    assert path[1..] == Way(confirmed);
    OnlySignedIsSent(state);
    WayIsPath(confirmed);
    FirstStep(db, o, path);
    if state == L.Signed {
      WalkIs(db, o, path);
    } else if state == L.Broadcast {
      WalkIs(db, o, Way(confirmed));
    }
  }

  lemma WayIsPath(confirmed: bool)
    ensures L.IsEdge(L.Signed, L.Broadcast) && L.IsEdge(L.Broadcast, Way(confirmed)[0])
    ensures L.IsEdge(Way(confirmed)[0], Way(confirmed)[1]) && L.IsEdge(Way(confirmed)[1], Way(confirmed)[2])
  {}

  lemma FirstStep(db: Db, o: Id, path: seq<L.State>)
    requires o in db.operations && path != []
    ensures Walk(db, o, path) ==
      var state := db.operations[o].state;
      if state == path[0] then Walk(db, o, path[1..])
      else if !L.IsEdge(state, path[0]) then Err(ReconciliationFailed)
      else Walk(SetState(db, o, path[0]), o, path[1..])
  {}

  lemma Contestable(s: L.State)
    ensures L.IsEdge(s, L.Disputed) <==>
      s in {L.Signing, L.Signed, L.Broadcast, L.PendingConfirmation, L.Confirmed, L.BroadcastFailed, L.Reverted}
  {}

  /** Disputing takes one step, from wherever the table has one. */
  lemma ContestOutcome(db: Db, o: Id, confirmed: bool)
    ensures var tx := AdvanceTo(db, o, L.Disputed, confirmed);
      && (tx.Commit? <==>
            && o in db.operations
            && db.operations[o].state in
              {L.Signing, L.Signed, L.Broadcast, L.PendingConfirmation, L.Confirmed, L.BroadcastFailed, L.Reverted,
               L.Disputed, L.Reconciled})
      && (tx.Commit? && db.operations[o].state in {L.Disputed, L.Reconciled} ==> tx.db == db)
      && (tx.Commit? && db.operations[o].state !in {L.Disputed, L.Reconciled} ==>
            StateEntered(db, tx.db, o, L.Disputed))
  {
    hide Walk, L.IsEdge;
    if o in db.operations {
      Contestable(db.operations[o].state);
      FirstStep(db, o, [L.Disputed]);
      assert [L.Disputed][1..] == [];
      forall next: Db | o in next.operations ensures Walk(next, o, []) == Ok(next) {
        EmptyWalk(next, o);
      }
    }
  }

  lemma EmptyWalk(db: Db, o: Id)
    requires o in db.operations
    ensures Walk(db, o, []) == Ok(db)
  {}
}
