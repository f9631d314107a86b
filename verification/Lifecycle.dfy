/** The operation lifecycle (packages/schemas/src/lifecycle.ts). */
module Lifecycle {

  datatype State =
    | Draft | Validated | PolicyPrechecked | Constructed | Decoded | Verified | Simulated
    | PolicyFinalized | BudgetReserved | EnvelopeFinalized | AwaitingApproval | Authorized
    | Signing | Signed | Broadcast | PendingConfirmation | Confirmed | Reconciled
    | Rejected | Denied | Expired | SimulationFailed | SigningFailed | BroadcastFailed
    | Reverted | Cancelled | Disputed | Revoked | RevalidationRequired

  /** The explicit adjacency table. */
  function Next(s: State): set<State> {
    match s
    case Draft => {Validated, Rejected, Denied, Expired, Revoked}
    case Validated => {PolicyPrechecked, Rejected, Denied, Expired, Revoked}
    case PolicyPrechecked => {Constructed, Rejected, Denied, Expired, Revoked}
    case Constructed => {Decoded, Rejected, Denied, Expired, Revoked}
    case Decoded => {Verified, Rejected, Denied, Expired, Revoked}
    case Verified => {Simulated, Rejected, Denied, Expired, Revoked}
    case Simulated => {PolicyFinalized, SimulationFailed, Rejected, Denied, Expired, Revoked}
    case PolicyFinalized => {BudgetReserved, RevalidationRequired, Rejected, Denied, Expired, Revoked}
    case BudgetReserved => {EnvelopeFinalized, RevalidationRequired, Expired, Revoked}
    case EnvelopeFinalized => {AwaitingApproval, Authorized, RevalidationRequired, Expired, Revoked}
    case AwaitingApproval => {Authorized, RevalidationRequired, Expired, Cancelled, Rejected, Revoked}
    case Authorized => {Signing, RevalidationRequired, Expired, Cancelled, Revoked}
    case Signing => {Signed, SigningFailed, Revoked, Disputed}
    case Signed => {Broadcast, BroadcastFailed, Disputed, Revoked}
    case Broadcast => {PendingConfirmation, BroadcastFailed, Disputed}
    case PendingConfirmation => {Confirmed, Reverted, Disputed, BroadcastFailed}
    case Confirmed => {Reconciled, Disputed}
    case BroadcastFailed => {Disputed}
    case Reverted => {Reconciled, Disputed}
    case Disputed => {Reconciled}
    case RevalidationRequired => {Validated, Expired, Denied, Revoked}
    case Reconciled | Rejected | Denied | Expired | SimulationFailed | SigningFailed | Cancelled | Revoked => {}
  }

  predicate IsEdge(from: State, to: State) {
    to in Next(from)
  }

  /** States an operation can be in once its signing has begun. */
  predicate SigningBegun(s: State) {
    s in {Signing, Signed, SigningFailed, Broadcast, BroadcastFailed, PendingConfirmation,
          Confirmed, Reverted, Reconciled, Disputed, Revoked}
  }

  /** States an operation can be in once it has a signed transaction. */
  predicate SignedOrLater(s: State) {
    SigningBegun(s) && s != Signing && s != SigningFailed
  }

  /** Signing is a one-way door: no edge leads back to Authorized, and none from a signed state to Signing. */
  lemma OneWayDoor(from: State, to: State)
    requires IsEdge(from, to)
    ensures SigningBegun(from) ==> SigningBegun(to) && to != Authorized
    ensures SignedOrLater(from) ==> SignedOrLater(to) && to != Signing
    ensures to == Signing ==> from == Authorized
    ensures to == Signed ==> from == Signing
  {}

  /** How far along a state is. */
  function Rank(s: State): nat {
    match s
    case Draft => 0 case Validated => 1 case PolicyPrechecked => 2 case Constructed => 3 case Decoded => 4
    case Verified => 5 case Simulated => 6 case PolicyFinalized => 7 case BudgetReserved => 8
    case EnvelopeFinalized => 9 case AwaitingApproval => 10 case Authorized => 11 case RevalidationRequired => 12
    case Signing => 13 case Signed => 14 case Broadcast => 15 case PendingConfirmation => 16
    case Confirmed => 17 case Reverted => 17 case BroadcastFailed => 18 case Disputed => 19 case Reconciled => 20
    case _ => 21
  }

  /** The table read the other way: from where each state can be entered. */
  predicate EnteredFrom(to: State, from: State) {
    match to
    case Draft => false
    case Validated => from.Draft? || from.RevalidationRequired?
    case PolicyPrechecked => from.Validated?
    case Constructed => from.PolicyPrechecked?
    case Decoded => from.Constructed?
    case Verified => from.Decoded?
    case Simulated => from.Verified?
    case PolicyFinalized => from.Simulated?
    case BudgetReserved => from.PolicyFinalized?
    case EnvelopeFinalized => from.BudgetReserved?
    case AwaitingApproval => from.EnvelopeFinalized?
    case Authorized => from.EnvelopeFinalized? || from.AwaitingApproval?
    case Signing => from.Authorized?
    case Signed => from.Signing?
    case Broadcast => from.Signed?
    case PendingConfirmation => from.Broadcast?
    case Confirmed => from.PendingConfirmation?
    case Reverted => from.PendingConfirmation?
    case Reconciled => from.Confirmed? || from.Reverted? || from.Disputed?
    case SimulationFailed => from.Simulated?
    case SigningFailed => from.Signing?
    case BroadcastFailed => from.Signed? || from.Broadcast? || from.PendingConfirmation?
    case Cancelled => from.AwaitingApproval? || from.Authorized?
    case RevalidationRequired => 7 <= Rank(from) <= 11
    case Disputed => 13 <= Rank(from) <= 18
    case Rejected => Rank(from) <= 7 || from.AwaitingApproval?
    case Denied => Rank(from) <= 7 || from.RevalidationRequired?
    case Expired => Rank(from) <= 12
    case Revoked => Rank(from) <= 14
  }

  lemma EarlyEdge(from: State, to: State)
    requires from.Draft? || from.Validated? || from.PolicyPrechecked? || from.Constructed? || from.Decoded?
      || from.Verified?
    requires IsEdge(from, to)
    ensures EnteredFrom(to, from)
  {}

  lemma MiddleEdge(from: State, to: State)
    requires from.BudgetReserved? || from.RevalidationRequired?
    requires IsEdge(from, to)
    ensures EnteredFrom(to, from)
  {}

  lemma PolicyEdge(from: State, to: State)
    requires from.Simulated? || from.PolicyFinalized?
    requires IsEdge(from, to)
    ensures EnteredFrom(to, from)
  {}

  lemma AuthorityEdge(from: State, to: State)
    requires from.EnvelopeFinalized? || from.AwaitingApproval? || from.Authorized?
    requires IsEdge(from, to)
    ensures EnteredFrom(to, from)
  {}

  lemma LateEdge(from: State, to: State)
    requires Rank(from) >= 13 && IsEdge(from, to)
    ensures EnteredFrom(to, from)
  {}

  lemma EdgeHasSource(from: State, to: State)
    requires IsEdge(from, to)
    ensures EnteredFrom(to, from)
  {
    hide IsEdge, EnteredFrom;
    if Rank(from) >= 13 {
      LateEdge(from, to);
    } else if Rank(from) <= 5 {
      EarlyEdge(from, to);
    } else if 9 <= Rank(from) <= 11 {
      AuthorityEdge(from, to);
    } else if 6 <= Rank(from) <= 7 {
      PolicyEdge(from, to);
    } else {
      MiddleEdge(from, to);
    }
  }

  lemma SourceHasEdge(from: State, to: State)
    requires EnteredFrom(to, from)
    ensures IsEdge(from, to)
  {}

  /** Both readings of the table agree. */
  lemma EnteredFromSources(from: State, to: State)
    ensures IsEdge(from, to) <==> EnteredFrom(to, from)
  {
    hide IsEdge, EnteredFrom;
    if IsEdge(from, to) {
      EdgeHasSource(from, to);
    }
    if EnteredFrom(to, from) {
      SourceHasEdge(from, to);
    }
  }

  /**
   Every edge leads onward, except that what must be validated again starts over: an operation can
   only go round in circles through revalidation.
   */
  lemma EdgesLeadOnward(from: State, to: State)
    requires IsEdge(from, to)
    ensures Rank(from) < Rank(to) || (from == RevalidationRequired && to == Validated)
  {
    hide IsEdge;
    EdgeHasSource(from, to);
  }
}
