/** Conservation: what every budget row says about the reservations drawn on it. */
module Money {
  import opened Texts
  import opened Schema
  import opened Moves

  /** The two parts of a budget that reservations account for. */
  datatype Part = ReservedPart | SpentPart

  /** What one reservation contributes to a part of budget b. */
  function Share(r: Reservation, b: Id, part: Part): nat {
    if r.budgetId != b then 0
    else match part
      case ReservedPart => if r.encumbered then r.amount else 0
      case SpentPart => r.finalizedSpend
  }

  ghost function Total(rs: map<Id, Reservation>, b: Id, part: Part): nat {
    if rs == map[] then 0
    else
      var k :| k in rs;
      Share(rs[k], b, part) + Total(rs - {k}, b, part)
  }

  lemma {:induction false} TotalWithout(rs: map<Id, Reservation>, b: Id, part: Part, k: Id)
    requires k in rs
    ensures Total(rs, b, part) == Share(rs[k], b, part) + Total(rs - {k}, b, part)
    decreases rs.Keys
  {
    var first :| first in rs && Total(rs, b, part) == Share(rs[first], b, part) + Total(rs - {first}, b, part);
    if first != k {
      TotalWithout(rs - {first}, b, part, k);
      TotalWithout(rs - {k}, b, part, first);
      assert rs - {first} - {k} == rs - {k} - {first};
    }
  }

  /** Writing one row moves the total by the difference of the two shares. */
  lemma TotalUpdate(rs: map<Id, Reservation>, b: Id, part: Part, k: Id, r: Reservation)
    ensures Total(rs[k := r], b, part) + (if k in rs then Share(rs[k], b, part) else 0)
         == Total(rs, b, part) + Share(r, b, part)
  {
    TotalWithout(rs[k := r], b, part, k);
    assert rs[k := r] - {k} == rs - {k};
    if k in rs {
      TotalWithout(rs, b, part, k);
    } else {
      assert rs - {k} == rs;
    }
  }

  /** A budget row accounts for every reservation drawn on it. */
  ghost predicate Balanced(x: Budget, b: Id, rs: map<Id, Reservation>) {
    && x.allocation == x.available + x.reserved + x.finalizedSpend
    && x.available >= 0
    && x.reserved == Total(rs, b, ReservedPart)
    && x.finalizedSpend == Total(rs, b, SpentPart)
  }

  /** Status and money of one reservation fit together. */
  predicate Coherent(r: Reservation) {
    && r.amount > 0
    && r.finalizedSpend <= r.amount
    && (r.encumbered ==> r.finalizedSpend == 0)
    && (r.status in {Held, Authorized, Broadcast} ==> r.encumbered)
    && (r.status in {Released, Expired, Finalized} ==> !r.encumbered)
  }

  /** Every budget accounts for the reservations drawn on it. */
  ghost predicate Accounts(budgets: map<Id, Budget>, rs: map<Id, Reservation>) {
    && (forall b | b in budgets :: Balanced(budgets[b], b, rs))
    && (forall r | r in rs :: rs[r].budgetId in budgets && Coherent(rs[r]))
  }

  ghost predicate Conserved(db: Db) {
    Accounts(db.budgets, db.reservations)
  }

  /** Any one-row rewrite that moves its budget by the difference of the shares conserves money. */
  lemma Rewrite(budgets: map<Id, Budget>, rs: map<Id, Reservation>, k: Id, r: Reservation, x: Budget)
    requires Accounts(budgets, rs)
    requires k in rs ==> rs[k].budgetId == r.budgetId
    requires r.budgetId in budgets && Coherent(r)
    requires x.allocation == budgets[r.budgetId].allocation == x.available + x.reserved + x.finalizedSpend
    requires x.available >= 0
    requires x.reserved == budgets[r.budgetId].reserved + Share(r, r.budgetId, ReservedPart)
                           - (if k in rs then Share(rs[k], r.budgetId, ReservedPart) else 0)
    requires x.finalizedSpend == budgets[r.budgetId].finalizedSpend + Share(r, r.budgetId, SpentPart)
                           - (if k in rs then Share(rs[k], r.budgetId, SpentPart) else 0)
    ensures Accounts(budgets[r.budgetId := x], rs[k := r])
  {
    forall b | b in budgets ensures Balanced(budgets[r.budgetId := x][b], b, rs[k := r]) {
      TotalUpdate(rs, b, ReservedPart, k, r);
      TotalUpdate(rs, b, SpentPart, k, r);
      assert Balanced(budgets[b], b, rs);
    }
  }

  /** A status change that keeps money and budget as they were conserves money. */
  lemma Relabel(budgets: map<Id, Budget>, rs: map<Id, Reservation>, k: Id, r: Reservation)
    requires Accounts(budgets, rs) && k in rs
    requires r == rs[k].(status := r.status) && Coherent(r)
    ensures Accounts(budgets, rs[k := r])
  {
    assert Balanced(budgets[r.budgetId], r.budgetId, rs);
    assert budgets == budgets[r.budgetId := budgets[r.budgetId]];
    Rewrite(budgets, rs, k, r, budgets[r.budgetId]);
  }

  /** What an encumbered reservation holds is really there: no subtraction of it can underflow. */
  lemma NoUnderflow(db: Db, k: Id)
    requires Conserved(db) && k in db.reservations && db.reservations[k].encumbered
    ensures db.reservations[k].amount <= db.budgets[db.reservations[k].budgetId].reserved
  {
    TotalWithout(db.reservations, db.reservations[k].budgetId, ReservedPart, k);
    assert Balanced(db.budgets[db.reservations[k].budgetId], db.reservations[k].budgetId, db.reservations);
  }

  lemma PayConserves(db: Db, k: Id, r: Reservation, b: Budget, how: How)
    requires Conserved(db) && LegalPay(db, k, r, b, how)
    ensures Accounts(db.budgets[r.budgetId := b], db.reservations[k := r])
  {
    hide Accounts;
    assert Coherent(db.reservations[k]) && Balanced(db.budgets[r.budgetId], r.budgetId, db.reservations) by {
      Unfold(db, k);
    }
    Rewrite(db.budgets, db.reservations, k, r, b);
  }

  lemma Unfold(db: Db, k: Id)
    requires Conserved(db) && k in db.reservations
    ensures Coherent(db.reservations[k])
    ensures var b := db.reservations[k].budgetId; b in db.budgets && Balanced(db.budgets[b], b, db.reservations)
  {}

  lemma DrawConserves(db: Db, k: Id, r: Reservation, b: Budget, record: IdempotencyRecord)
    requires Conserved(db) && LegalDraw(db, k, r, b, record)
    ensures Accounts(db.budgets[r.budgetId := b], db.reservations[k := r])
  {
    assert Balanced(db.budgets[r.budgetId], r.budgetId, db.reservations);
    Rewrite(db.budgets, db.reservations, k, r, b);
  }

  /** Every legal move conserves money. */
  lemma MoveConserves(db: Db, m: Move)
    requires Conserved(db) && Legal(db, m)
    ensures Conserved(Perform(db, m))
  {
    hide Accounts, LegalDraw, LegalPay, LegalGrant, LegalSign, LegalApproval, LegalRecord, LegalClaim, LegalStart,
        LegalBook, LegalRaise, LegalDecision, Operations, History, Broadcasts, Leases, ApprovalRows, Attempts;
    match m
    case Draw(k, r, b, record) => DrawConserves(db, k, r, b, record);
    case Pay(k, r, b, how) => PayConserves(db, k, r, b, how);
    case Publish(k, r, _) =>
      Unfold(db, k);
      Relabel(db.budgets, db.reservations, k, r);
    case Grant(id, z, r, now) =>
      GrantIsEdge(db, id, z, r, now);
      Unfold(db, z.bound.reservationId);
      Relabel(db.budgets, db.reservations, z.bound.reservationId, r);
    case _ =>
  }

  // ----- the writes themselves -------------------------------------------------------------

  /** A new reservation within what is available. */
  lemma HoldAccounts(budgets: map<Id, Budget>, rs: map<Id, Reservation>, k: Id, r: Reservation)
    requires Accounts(budgets, rs) && k !in rs && r.budgetId in budgets && r.amount <= budgets[r.budgetId].available
    requires Coherent(r) && r.encumbered
    ensures var b := budgets[r.budgetId];
      Accounts(budgets[r.budgetId :=
        b.(available := b.available - r.amount, reserved := b.reserved + r.amount, version := b.version + 1)],
               rs[k := r])
  {
    var b := budgets[r.budgetId];
    assert Balanced(b, r.budgetId, rs);
    Rewrite(budgets, rs, k, r,
            b.(available := b.available - r.amount, reserved := b.reserved + r.amount, version := b.version + 1));
  }

  /** Returning an amount: it is all there, and the books still balance. */
  lemma ReturnAccounts(budgets: map<Id, Budget>, rs: map<Id, Reservation>, k: Id, status: ReservationStatus)
    requires Accounts(budgets, rs) && k in rs && rs[k].status in {Held, Authorized, Broadcast}
      && status in {Released, Expired}
    ensures rs[k].budgetId in budgets && rs[k].amount <= budgets[rs[k].budgetId].reserved
    ensures var r := rs[k];
      var b := budgets[r.budgetId];
      Accounts(budgets[r.budgetId :=
        b.(available := b.available + r.amount, reserved := b.reserved - r.amount, version := b.version + 1)],
               rs[k := r.(status := status, encumbered := false)])
  {
    var r := rs[k];
    var b := budgets[r.budgetId];
    assert Coherent(r) && Balanced(b, r.budgetId, rs);
    TotalWithout(rs, r.budgetId, ReservedPart, k);
    Rewrite(budgets, rs, k, r.(status := status, encumbered := false),
            b.(available := b.available + r.amount, reserved := b.reserved - r.amount, version := b.version + 1));
  }

  /** Spending part of an amount: it is all there, and the books still balance. */
  lemma SpendAccounts(budgets: map<Id, Budget>, rs: map<Id, Reservation>, k: Id, spend: nat, proof: Text)
    requires Accounts(budgets, rs) && k in rs && rs[k].status == Broadcast && spend <= rs[k].amount
    ensures rs[k].budgetId in budgets && rs[k].amount <= budgets[rs[k].budgetId].reserved
    ensures var r := rs[k];
      var b := budgets[r.budgetId];
      Accounts(budgets[r.budgetId := b.(
                 available := b.available + (r.amount - spend), reserved := b.reserved - r.amount,
                 finalizedSpend := b.finalizedSpend + spend, version := b.version + 1)],
               rs[k := r.(status := Finalized, finalizedSpend := spend, proofReference := Some(proof),
                 encumbered := false)])
  {
    var r := rs[k];
    var b := budgets[r.budgetId];
    assert Coherent(r) && Balanced(b, r.budgetId, rs);
    TotalWithout(rs, r.budgetId, ReservedPart, k);
    Rewrite(budgets, rs, k, r.(status := Finalized, finalizedSpend := spend, proofReference := Some(proof),
      encumbered := false),
            b.(available := b.available + (r.amount - spend), reserved := b.reserved - r.amount,
               finalizedSpend := b.finalizedSpend + spend, version := b.version + 1));
  }

  /** A status change that the money goes along with. */
  lemma MarkAccounts(budgets: map<Id, Budget>, rs: map<Id, Reservation>, k: Id, status: ReservationStatus)
    requires Accounts(budgets, rs) && k in rs
    requires status == Disputed || (status in {Authorized, Broadcast} && rs[k].status in {Held, Authorized})
    ensures Accounts(budgets, rs[k := rs[k].(status := status)])
  {
    Relabel(budgets, rs, k, rs[k].(status := status));
  }
}
