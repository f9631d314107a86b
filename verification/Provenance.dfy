/**
 Where rows come from: over every run, whatever stands in the database was put there by the command
 made for it, at a moment when everything that command demands was the case.
 */
module Provenance {
  import opened Texts
  import opened Schema
  import opened Moves
  import opened Evolution
  import opened Invariants
  import opened Protocol
  import opened LedgerOutcomes
  import Footprint
  import Refinement
  import Ledger
  import Decimal

  // ----- spending --------------------------------------------------------------------------

  /** The row carries a spend or the proof of one. */
  predicate IsSpent(r: Reservation) {
    r.status == Finalized || r.finalizedSpend != 0 || r.proofReference.Some?
  }

  predicate SameSpend(r: Reservation, s: Reservation) {
    IsSpent(r) && (r.finalizedSpend, r.proofReference) == (s.finalizedSpend, s.proofReference)
  }

  /** The command names exactly the spend and the proof of the row, and the proof is that of the stored receipt. */
  predicate NamesSpend(at: Db, c: Command, k: Id, r: Reservation) {
    && c.OfLedger?
    && k in at.reservations && at.reservations[k].status == Broadcast && r.finalizedSpend <= at.reservations[k].amount
    && k in at.broadcasts && r.proofReference == Some(at.broadcasts[k].receipt.receiptReference)
    && match c.ledger
       case Finalize(j, spend, proof) =>
         j == k && spend == r.finalizedSpend && Some(proof) == r.proofReference && at.broadcasts[k].verified
       case Resolve(q, caller, now) =>
         && q.reservationId == k
         && q.outcome == ConfirmedOutcome
         && q.actualSpend == Some(r.finalizedSpend)
         && q.proofReference == r.proofReference
         && caller.authentic
         && HoldsLease(at, q, caller, now)
       case _ => false
  }

  lemma FinalizeSpends(db: Db, j: Id, spend: nat, proof: Text, k: Id)
    requires Inv(db)
    ensures var next := After(db, Ledger.Finalize(db, j, spend, proof));
      && k in next.reservations && IsSpent(next.reservations[k])
      && !(k in db.reservations && SameSpend(db.reservations[k], next.reservations[k]))
      ==> NamesSpend(db, OfLedger(Finalize(j, spend, proof)), k, next.reservations[k])
  {
    hide Inv, Ledger.Finalize;
    FinalizeOutcome(db, j, spend, proof);
  }

  lemma SpentFacts(db: Db, next: Db, k: Id, spend: nat, proof: Text)
    requires AmountSpent(db, next, k, spend, proof)
    ensures k in db.reservations && next.reservations == db.reservations[k := db.reservations[k].(
      status := Finalized, finalizedSpend := spend, proofReference := Some(proof), encumbered := false)]
    ensures next.recoveries == db.recoveries && next.leases == db.leases
  {}

  lemma ReturnedFacts(db: Db, next: Db, k: Id)
    requires AmountReturned(db, next, k, Released)
    ensures k in db.reservations
    ensures next.reservations == db.reservations[k := db.reservations[k].(status := Released, encumbered := false)]
    ensures next.recoveries == db.recoveries && next.leases == db.leases
  {}

  lemma StatusFacts(db: Db, next: Db, k: Id)
    requires StatusWritten(db, next, k, Disputed)
    ensures k in db.reservations
    ensures next.reservations == db.reservations[k := db.reservations[k].(status := Disputed)]
    ensures next.recoveries == db.recoveries && next.leases == db.leases
  {}

  /** What a resolution leaves of the tables it touches. */
  lemma ResolvedFacts(db: Db, logged: Db, next: Db, q: Resolution)
    requires q.reservationId in db.reservations && ResolvedTo(db, logged, next, q)
    requires logged.reservations == db.reservations
    ensures next.recoveries == logged.recoveries && next.leases == logged.leases
    ensures q.reservationId in next.reservations
    ensures var r, s := db.reservations[q.reservationId], next.reservations[q.reservationId];
      && next.reservations == db.reservations[q.reservationId := s]
      && s == (match q.outcome
               case ConfirmedOutcome =>
                 if q.actualSpend.Some? && q.proofReference.Some?
                 then r.(status := Finalized, finalizedSpend := q.actualSpend.value, proofReference := q.proofReference,
                   encumbered := false)
                 else s
               case _ => r.(status := s.status, encumbered := s.encumbered))
      && (q.outcome == ConfirmedOutcome ==> q.actualSpend.Some? && q.proofReference.Some?)
      && (q.outcome != ConfirmedOutcome && s.status == Finalized ==> r.status == Finalized)
  {
    hide AmountSpent, AmountReturned, StatusWritten;
    var k, r := q.reservationId, db.reservations[q.reservationId];
    assert db.reservations[k := r] == db.reservations;
    if q.outcome == ConfirmedOutcome {
      SpentFacts(logged.(broadcasts := db.broadcasts[k := BroadcastEvidence(db.broadcasts[k].receipt, true)]), next, k,
        q.actualSpend.value, q.proofReference.value);
    } else if StatusWritten(logged, next, k, Disputed) {
      StatusFacts(logged, next, k);
    } else if AmountReturned(logged, next, k, Released) {
      ReturnedFacts(logged, next, k);
    }
  }

  /** Only a confirmed resolution spends, and only from its own reservation. */
  lemma ResolvedRow(db: Db, logged: Db, next: Db, q: Resolution)
    requires q.reservationId in db.reservations && ResolvedTo(db, logged, next, q)
    requires logged.reservations == db.reservations
    ensures q.reservationId in next.reservations
    ensures var r, s := db.reservations[q.reservationId], next.reservations[q.reservationId];
      && next.reservations == db.reservations[q.reservationId := s]
      && s == r.(status := s.status, encumbered := s.encumbered, finalizedSpend := s.finalizedSpend,
        proofReference := s.proofReference)
      && (if q.outcome == ConfirmedOutcome
          then q.actualSpend == Some(s.finalizedSpend) && q.proofReference == s.proofReference
          else (r.finalizedSpend, r.proofReference) == (s.finalizedSpend, s.proofReference))
      && (q.outcome != ConfirmedOutcome && s.status == Finalized ==> r.status == Finalized)
  {
    hide ResolvedTo;
    ResolvedFacts(db, logged, next, q);
  }

  lemma ResolvedSpends(db: Db, logged: Db, next: Db, q: Resolution, k: Id)
    requires q.reservationId in db.reservations && Resolvable(db, q) && ResolvedTo(db, logged, next, q)
    requires logged.reservations == db.reservations && k in next.reservations && IsSpent(next.reservations[k])
    requires !(k in db.reservations && SameSpend(db.reservations[k], next.reservations[k]))
    ensures k == q.reservationId && q.outcome == ConfirmedOutcome && db.reservations[k].status == Broadcast
    ensures q.actualSpend == Some(next.reservations[k].finalizedSpend)
    ensures q.proofReference == next.reservations[k].proofReference
  {
    hide ResolvedTo;
    ResolvedRow(db, logged, next, q);
  }

  lemma ResolveSpends(db: Db, q: Resolution, caller: Caller, now: Time, k: Id)
    requires Inv(db)
    ensures var next := After(db, Ledger.Resolve(db, q, caller, now));
      && k in next.reservations && IsSpent(next.reservations[k])
      && !(k in db.reservations && SameSpend(db.reservations[k], next.reservations[k]))
      ==> NamesSpend(db, OfLedger(Resolve(q, caller, now)), k, next.reservations[k])
  {
    hide Inv, Ledger.Resolve, ResolvedTo, IsSpent, SameSpend;
    var next := After(db, Ledger.Resolve(db, q, caller, now));
    if q.attemptId in db.recoveries {
      ReplayIsIdle(db, q, caller, now);
      SpendIsItself(db, k);
    } else {
      ResolveOutcome(db, q, caller, now);
      SpendIsItself(db, k);
      if next != db && k in next.reservations && IsSpent(next.reservations[k])
        && !(k in db.reservations && SameSpend(db.reservations[k], next.reservations[k])) {
        ResolvedSpends(db, LedgerOutcomes.Logged(db, q, caller), next, q, k);
      }
    }
  }

  lemma SpendIsItself(db: Db, k: Id)
    ensures k in db.reservations && IsSpent(db.reservations[k]) ==> SameSpend(db.reservations[k], db.reservations[k])
  {}

  lemma ReplayIsIdle(db: Db, q: Resolution, caller: Caller, now: Time)
    requires q.attemptId in db.recoveries
    ensures After(db, Ledger.Resolve(db, q, caller, now)) == db
  {}

  lemma SpendStep(db: Db, c: Command, next: Db, k: Id)
    requires Inv(db) && next == Apply(db, c)
    requires k in next.reservations && IsSpent(next.reservations[k])
    requires !(k in db.reservations && SameSpend(db.reservations[k], next.reservations[k]))
    ensures NamesSpend(db, c, k, next.reservations[k])
  {
    hide Inv, Apply, NamesSpend, Ledger.Finalize, Ledger.Resolve, Footprint.LeavesApprovals, Footprint.LeavesRecords;
    Footprint.StepLeaves(db, c);
    assert Refinement.KindOfCommand(c) in {Finalizing, Resolving};
    if Refinement.KindOfCommand(c) == Finalizing {
      FinalizeSpends(db, c.ledger.reservationId, c.ledger.spend, c.ledger.proof, k);
      Finalizes(db, c);
    } else {
      ResolveSpends(db, c.ledger.resolution, c.ledger.caller, c.ledger.now, k);
      Resolves(db, c);
    }
  }

  lemma Finalizes(db: Db, c: Command)
    requires c.OfLedger? && c.ledger.Finalize?
    ensures Apply(db, c) == After(db, Ledger.Finalize(db, c.ledger.reservationId, c.ledger.spend, c.ledger.proof))
  {
    hide Ledger.Finalize;
  }

  lemma Resolves(db: Db, c: Command)
    requires c.OfLedger? && c.ledger.Resolve?
    ensures Apply(db, c) == After(db, Ledger.Resolve(db, c.ledger.resolution, c.ledger.caller, c.ledger.now))
  {
    hide Ledger.Resolve;
  }

  /**
   Whatever was spent from a reservation was named, with its proof, by one command of the run: a
   finalize, or a confirmed resolution under a live lease.
   */
  lemma {:induction false} SpendIsNamed(db: Db, cs: seq<Command>, k: Id) returns (i: nat)
    requires Initial(db) && k in Run(db, cs).reservations && IsSpent(Run(db, cs).reservations[k])
    ensures i < |cs| && NamesSpend(Run(db, cs[..i]), cs[i], k, Run(db, cs).reservations[k])
  {
    hide Apply, NamesSpend, Inv;
    if cs != [] {
      var before := cs[..|cs| - 1];
      var front, now := Run(db, before), Run(db, cs);
      if k in front.reservations && SameSpend(front.reservations[k], now.reservations[k]) {
        i := SpendIsNamed(db, before, k);
        assert before[..i] == cs[..i];
        SameName(Run(db, cs[..i]), cs[i], k, front.reservations[k], now.reservations[k]);
      } else {
        i := |before|;
        Always(db, before);
        SpendStep(front, cs[i], now, k);
      }
    }
  }

  lemma SameName(at: Db, c: Command, k: Id, r: Reservation, s: Reservation)
    requires NamesSpend(at, c, k, r) && SameSpend(r, s)
    ensures NamesSpend(at, c, k, s)
  {}

  // ----- reserving -------------------------------------------------------------------------

  /** The command asks for exactly this reservation, and nothing stood against it at the time. */
  predicate AsksFor(at: Db, c: Command, k: Id, r: Reservation) {
    && c.OfLedger? && c.ledger.Reserve?
    && var q := c.ledger.reserveRequest;
    && q.reservationId == k
    && (q.budgetId, q.operationId, q.idempotencyKey, q.expiresAt) ==
      (r.budgetId, r.operationId, r.idempotencyKey, r.expiresAt)
    && Decimal.IsCanonical(q.amountAtomic) && Decimal.Value(q.amountAtomic) == r.amount
    && MayDraw(at, q)
    && r.amount <= at.budgets[q.budgetId].available
  }

  lemma Reserves(db: Db, c: Command)
    requires c.OfLedger? && c.ledger.Reserve?
    ensures Apply(db, c) == After(db, Ledger.Reserve(db, c.ledger.reserveRequest))
  {
    hide Ledger.Reserve;
  }

  lemma ReserveAdds(db: Db, q: Ledger.ReserveRequest, k: Id)
    requires Inv(db) && k !in db.reservations
    ensures var next := After(db, Ledger.Reserve(db, q));
      k in next.reservations ==> AsksFor(db, OfLedger(Reserve(q)), k, next.reservations[k])
  {
    hide Inv, Ledger.Reserve, MayDraw, Decimal.Value, Ledger.PayloadHash;
    if q.idempotencyKey in db.idempotency {
      RepeatOutcome(db, q);
    } else {
      ReserveOutcome(db, q);
    }
  }

  lemma DrawStep(db: Db, c: Command, next: Db, k: Id)
    requires Inv(db) && next == Apply(db, c) && k !in db.reservations && k in next.reservations
    ensures AsksFor(db, c, k, next.reservations[k])
  {
    hide Inv, Apply, AsksFor, Ledger.Reserve, Footprint.LeavesApprovals, Footprint.LeavesRecords;
    Footprint.StepLeaves(db, c);
    assert Refinement.KindOfCommand(c) == Drawing;
    Reserves(db, c);
    ReserveAdds(db, c.ledger.reserveRequest, k);
  }

  /**
   Every reservation was asked for, as it stands, by a command of the run, made while the four
   fences were active, the policy not revoked, and the amount available.
   */
  lemma {:induction false} ReservationWasAllowed(db: Db, cs: seq<Command>, k: Id) returns (i: nat)
    requires Initial(db) && k in Run(db, cs).reservations
    ensures i < |cs| && AsksFor(Run(db, cs[..i]), cs[i], k, Run(db, cs).reservations[k])
  {
    hide Apply, AsksFor, Inv, Evolves;
    if cs != [] {
      var before := cs[..|cs| - 1];
      var front := Run(db, before);
      Always(db, before);
      if k in front.reservations {
        i := ReservationWasAllowed(db, before, k);
        assert before[..i] == cs[..i];
        StepEvolves(front, cs[|cs| - 1]);
        SameAsked(Run(db, cs[..i]), cs[i], front, Run(db, cs), k);
      } else {
        i := |before|;
        DrawStep(front, cs[i], Run(db, cs), k);
      }
    }
  }

  lemma SameAsked(at: Db, c: Command, db: Db, next: Db, k: Id)
    requires Evolves(db, next) && k in db.reservations && AsksFor(at, c, k, db.reservations[k])
    ensures k in next.reservations && AsksFor(at, c, k, next.reservations[k])
  {
    hide MayDraw, Decimal.Value, Decimal.IsCanonical;
  }

  // ----- announcing ------------------------------------------------------------------------

  /** An authentic caller announced this receipt under a standing authorization. */
  ghost predicate Announces(at: Db, c: Command, k: Id, receipt: Receipt) {
    && c.OfLedger? && c.ledger.MarkBroadcast?
    && c.ledger.reservationId == k
    && c.ledger.receipt == receipt
    && c.ledger.caller.authentic
    && k in at.reservations && at.reservations[k].status == Authorized
    && exists z | z in at.authorizations :: Standing(at, k, z)
  }

  lemma Marks(db: Db, c: Command)
    requires c.OfLedger? && c.ledger.MarkBroadcast?
    ensures Apply(db, c) == After(db, Ledger.MarkBroadcast(db, c.ledger.reservationId, c.ledger.receipt,
      c.ledger.caller))
  {
    hide Ledger.MarkBroadcast;
  }

  lemma AnnounceStep(db: Db, c: Command, next: Db, k: Id)
    requires Inv(db) && next == Apply(db, c) && k !in db.broadcasts && k in next.broadcasts
    ensures Announces(db, c, k, next.broadcasts[k].receipt)
  {
    hide Inv, Apply, Ledger.MarkBroadcast, Footprint.LeavesApprovals, Footprint.LeavesReservations, Standing;
    Footprint.StepLeaves(db, c);
    assert Refinement.KindOfCommand(c) == Publishing;
    Marks(db, c);
    MarkBroadcastOutcome(db, c.ledger.reservationId, c.ledger.receipt, c.ledger.caller);
  }

  /** Every stored receipt was announced by an authentic caller, for a reservation under a standing authorization. */
  lemma {:induction false} ReceiptWasAnnounced(db: Db, cs: seq<Command>, k: Id) returns (i: nat)
    requires Initial(db) && k in Run(db, cs).broadcasts
    ensures i < |cs| && Announces(Run(db, cs[..i]), cs[i], k, Run(db, cs).broadcasts[k].receipt)
  {
    hide Apply, Announces, Inv, Evolves;
    if cs != [] {
      var before := cs[..|cs| - 1];
      var front := Run(db, before);
      Always(db, before);
      if k in front.broadcasts {
        i := ReceiptWasAnnounced(db, before, k);
        assert before[..i] == cs[..i];
        StepEvolves(front, cs[|cs| - 1]);
        SameReceipt(front, Run(db, cs), k);
      } else {
        i := |before|;
        AnnounceStep(front, cs[i], Run(db, cs), k);
      }
    }
  }

  lemma SameReceipt(db: Db, next: Db, k: Id)
    requires Evolves(db, next) && k in db.broadcasts
    ensures k in next.broadcasts && next.broadcasts[k].receipt == db.broadcasts[k].receipt
  {}

  // ----- recovering ------------------------------------------------------------------------

  /** An authentic caller that held the newest lease, unspent and in time, resolved what could be so resolved. */
  predicate ResolvedUnderLease(at: Db, c: Command, id: Id, row: RecoveryAttempt) {
    && c.OfLedger? && c.ledger.Resolve?
    && var q, caller := c.ledger.resolution, c.ledger.caller;
    && q.attemptId == id
    && (q.operationId, q.reservationId, q.leaseVersion) == (row.operationId, row.reservationId, row.leaseVersion)
    && (q.outcome, q.reason, q.actualSpend, q.proofReference) ==
      (row.outcome, row.reason, row.actualSpend, row.proofReference)
    && caller.credentialId == row.credentialId
    && caller.authentic
    && HoldsLease(at, q, caller, c.ledger.now)
    && q.reservationId in at.reservations && Resolvable(at, q)
  }

  lemma ResolveRecords(db: Db, q: Resolution, caller: Caller, now: Time, id: Id)
    requires Inv(db) && id !in db.recoveries
    ensures var next := After(db, Ledger.Resolve(db, q, caller, now));
      id in next.recoveries ==> ResolvedUnderLease(db, OfLedger(Resolve(q, caller, now)), id, next.recoveries[id])
  {
    hide Inv, Ledger.Resolve, ResolvedTo, Resolvable;
    if q.attemptId in db.recoveries {
      ReplayIsIdle(db, q, caller, now);
    } else {
      ResolveOutcome(db, q, caller, now);
      if Ledger.Resolve(db, q, caller, now).Commit? {
        ResolvedFacts(db, LedgerOutcomes.Logged(db, q, caller), Ledger.Resolve(db, q, caller, now).db, q);
      }
    }
  }

  lemma RecordStep(db: Db, c: Command, next: Db, id: Id)
    requires Inv(db) && next == Apply(db, c) && id !in db.recoveries && id in next.recoveries
    ensures ResolvedUnderLease(db, c, id, next.recoveries[id])
  {
    hide Inv, Apply, Ledger.Resolve, Footprint.LeavesApprovals, Footprint.LeavesReservations, ResolvedUnderLease;
    Footprint.StepLeaves(db, c);
    assert Refinement.KindOfCommand(c) == Resolving;
    Resolves(db, c);
    ResolveRecords(db, c.ledger.resolution, c.ledger.caller, c.ledger.now, id);
  }

  /** Every recovery attempt on record was made under a lease its caller held at the time. */
  lemma {:induction false} RecoveryHeldItsLease(db: Db, cs: seq<Command>, id: Id) returns (i: nat)
    requires Initial(db) && id in Run(db, cs).recoveries
    ensures i < |cs| && ResolvedUnderLease(Run(db, cs[..i]), cs[i], id, Run(db, cs).recoveries[id])
  {
    hide Apply, ResolvedUnderLease, Inv, Evolves;
    if cs != [] {
      var before := cs[..|cs| - 1];
      var front := Run(db, before);
      Always(db, before);
      if id in front.recoveries {
        i := RecoveryHeldItsLease(db, before, id);
        assert before[..i] == cs[..i];
        StepEvolves(front, cs[|cs| - 1]);
        SameRecovery(front, Run(db, cs), id);
      } else {
        i := |before|;
        RecordStep(front, cs[i], Run(db, cs), id);
      }
    }
  }

  lemma SameRecovery(db: Db, next: Db, id: Id)
    requires Evolves(db, next) && id in db.recoveries
    ensures id in next.recoveries && next.recoveries[id] == db.recoveries[id]
  {}

  /** No claim of the operation's lease is made after a time. */
  predicate ClaimedBefore(cs: seq<Command>, o: Id, time: Time) {
    forall i | 0 <= i < |cs| && cs[i].OfLedger? && cs[i].ledger.ClaimLease? && cs[i].ledger.operationId == o ::
      cs[i].ledger.now < time
  }

  /** A resolution was made under this version of the operation's lease. */
  predicate Resolved(db: Db, o: Id, version: nat) {
    exists a | a in db.recoveries :: db.recoveries[a].operationId == o && db.recoveries[a].leaseVersion == version
  }

  lemma Claims(db: Db, c: Command)
    requires c.OfLedger? && c.ledger.ClaimLease?
    ensures var l := c.ledger;
      Apply(db, c) == After(db, Ledger.ClaimLease(db, l.operationId, l.reservationId, l.seconds, l.caller, l.now))
  {
    hide Ledger.ClaimLease;
  }

  lemma ClaimKeeps(db: Db, o: Id, p: Id, k: Id, seconds: int, caller: Caller, now: Time)
    requires Inv(db) && o in db.leases && db.leases[o].active && (p == o ==> now < db.leases[o].expiresAt)
    ensures var next := After(db, Ledger.ClaimLease(db, p, k, seconds, caller, now));
      o in next.leases && next.leases[o] == db.leases[o]
  {
    hide Inv, Ledger.ClaimLease;
    ClaimOutcome(db, p, k, seconds, caller, now);
  }

  lemma ResolveSpendsLease(db: Db, q: Resolution, caller: Caller, now: Time, o: Id)
    requires Inv(db) && o in db.leases
    ensures var next := After(db, Ledger.Resolve(db, q, caller, now));
      o in next.leases && (next.leases[o] == db.leases[o] || Resolved(next, o, db.leases[o].version))
  {
    hide Inv, Ledger.Resolve, ResolvedTo, Resolvable;
    if q.attemptId in db.recoveries {
      ReplayIsIdle(db, q, caller, now);
    } else {
      ResolveOutcome(db, q, caller, now);
      var tx := Ledger.Resolve(db, q, caller, now);
      if tx.Commit? {
        ResolvedFacts(db, LedgerOutcomes.Logged(db, q, caller), tx.db, q);
        assert tx.db.recoveries[q.attemptId].operationId == q.operationId;
      }
    }
  }

  lemma LeaseStep(db: Db, c: Command, next: Db, o: Id)
    requires Inv(db) && next == Apply(db, c) && o in db.leases && db.leases[o].active
    requires ClaimedBefore([c], o, db.leases[o].expiresAt)
    ensures o in next.leases && (next.leases[o] == db.leases[o] || Resolved(next, o, db.leases[o].version))
  {
    hide Inv, Apply, Ledger.Resolve, Ledger.ClaimLease, Footprint.LeavesApprovals, Footprint.LeavesReservations,
        Resolved;
    Footprint.StepLeaves(db, c);
    if Refinement.KindOfCommand(c) == Claiming {
      var l := c.ledger;
      assert [c][0] == c;
      Claims(db, c);
      ClaimKeeps(db, o, l.operationId, l.reservationId, l.seconds, l.caller, l.now);
    } else if Refinement.KindOfCommand(c) == Resolving {
      Resolves(db, c);
      ResolveSpendsLease(db, c.ledger.resolution, c.ledger.caller, c.ledger.now, o);
    }
  }

  /** A live lease is taken over by nobody: until it runs out it stands as it is, or is spent by a resolution. */
  lemma {:induction false} LiveLeaseIsKept(db: Db, before: seq<Command>, later: seq<Command>, o: Id)
    requires Initial(db) && o in Run(db, before).leases && Run(db, before).leases[o].active
    requires ClaimedBefore(later, o, Run(db, before).leases[o].expiresAt)
    ensures var lease, now := Run(db, before).leases[o], Run(Run(db, before), later);
      o in now.leases && (now.leases[o] == lease || Resolved(now, o, lease.version))
  {
    hide Apply, Inv, Resolved, Evolves;
    var at := Run(db, before);
    if later != [] {
      var front, c := later[..|later| - 1], later[|later| - 1];
      forall i | 0 <= i < |front| ensures front[i] == later[i] {}
      LiveLeaseIsKept(db, before, front, o);
      var mid := Run(at, front);
      Always(db, before);
      RunKeeps(at, front);
      StepEvolves(mid, c);
      StillLeased(mid, Run(at, later), o, at.leases[o].version);
      if mid.leases[o] == at.leases[o] {
        LeaseStep(mid, c, Run(at, later), o);
      }
    }
  }

  lemma StillLeased(db: Db, next: Db, o: Id, version: nat)
    requires Evolves(db, next) && o in db.leases
    ensures o in next.leases && (Resolved(db, o, version) ==> Resolved(next, o, version))
  {
    if Resolved(db, o, version) {
      var a :| a in db.recoveries && db.recoveries[a].operationId == o && db.recoveries[a].leaseVersion == version;
      assert a in next.recoveries && next.recoveries[a] == db.recoveries[a];
    }
  }
}
