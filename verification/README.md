# Authorization protocol of the wallet control plane

A Dafny model of the protocol that takes a payment from reservation to reconciliation, and of the
exact text and arithmetic code it rests on.

**The protocol.** `Schema` holds every table of the shared PostgreSQL database as one value.
`Ledger`, `Fencing`, `Approvals`, `Control` and `Execution` give each transaction as a function
that either commits a whole new database or aborts. `Protocol` collects all transactions as
commands; a run is any sequence of them, by any callers, with any clock values. `Database.Store` is
the same database as an object with mutable tables, written step by step with its loops and
rollbacks. Its invariant is `Valid()`; it goes through exactly the runs of the protocol, and its
unguarded subtractions cannot underflow.

**Why the whole is sound.** `Moves` defines twenty-one kinds of elementary move, each with the rows it
demands, and which kinds of transaction make which moves. `Refinement` shows that every transaction
is a sequence of legal moves of its kind. What moves keep is then proved once: `Evolution` says what
can never be undone, `Footprint` what each kind of transaction leaves alone, `Money` that budgets
account for their reservations, `Invariants` what holds of every reachable database. From these
follow `Guarantees` (money, approvals, leases, idempotency), `Authority` (live authority is current;
control changes clear their scope), `Signing` (who may sign; no signature across a fence) and `Trail`
(the lifecycle table).

**What each transaction does.** `LedgerOutcomes`, `ApprovalOutcomes`, `ControlOutcomes` with
`Invalidation`, and `ExecutionOutcomes` say exactly when each transaction commits in a reachable
database and which rows it leaves, in terms of the rows themselves. `Provenance`, `Consent` and
`Revocation` turn that into statements about whole runs: whatever stands in the database was put
there by the command made for it, when everything it demands was the case, and never under a
revoked owner, agent or policy.

**Processes.** `Machine` runs executors and signers as processes over the database, interleaved
with each other and with all other transactions, stopping anywhere; `Dispatch` proves that nothing
is sent twice, and `MachineRuns` that every interleaving is a run of the protocol. `Reconciler` does
the same for a reconciliation that is cut off and repeated, and `Completion` shows that made again it
comes to its end. `Witness` exhibits runs that authorize, send and reconcile.

**The data layer.** `Decimal`, `CanonicalJson` with `KeyOrder`, `JsonCanonicity` and `JsonStrings`,
`Hex`, `TransferAbi`, `PolicyEngine`, `FeeResolution`, and `ChainEvidence` with `OnChain`.

Modelling choices:

- Text is a sequence of UTF-16 code units, as JavaScript strings are.
- Digests are symbolic: a digest is identified with what was hashed, so it is collision-free.
  Signatures are a flag that says whether they verify.
- Time is an argument of each transaction. The lease clock and the worker clock are separate.
- Primary and unique keys are enforced where rows are inserted: `budget_reservations` by
  reservation, operation and idempotency key (migrations/0001_ws003_budget_ledger.sql:134-152),
  `idempotency_records` by key, `approval_requests` and `execution_envelopes` by id, authorization evidence
  by id, `reservation_broadcast_evidence` by reservation, recovery attempts by attempt,
  `signed_transactions` by id and transaction hash, economic effects by operation and transaction.
- A control change takes three lists of rows, in any order; each must hold exactly the rows its
  query selects, when the loop before it is done.
- `encumbered` on a reservation is not a column. It records whether the amount is still inside the
  budget's reserved part, which the status DISPUTED does not tell: an AMBIGUOUS or CONFLICT
  resolution writes DISPUTED over a row that may already be closed.
- The executor, the signer and the reconciler run several transactions and may stop between any two,
  so each is a process with stages whose steps are those transactions, not one method.
- `history` is the part of the audit trail that records operation states.
- `Moves.Jump` is the generic lifecycle step into AUTHORIZED. Nothing in the repository calls the
  step that way, but nothing prevents it, and then live authority need not be current
  (`Witness.JumpRevives`). `Authority.CurrentThroughoutIff` says exactly when it is.
- A reservation can be EXPIRED before its own time: an approval that is decided on after its lifetime
  expires the reservation with it (packages/approvals/src/core.ts:925-993). `Consent.ExpiredInTime`
  gives both causes.
- Two active approvals for one operation would block every pause and revoke over it
  (`ControlOutcomes.ChangeGoesThroughIff`). The TypeScript does not exclude them; a deferred trigger
  does (migrations/0015_wp03_approval_authorization.sql:1062-1064), and triggers are not modelled.
- The signature a signer obtains carries a claimed hash beside its bytes; the two need not agree,
  and the executor hashes the bytes itself.

## Model

| member | source | states |
|---|---|---|
| `Guarantees.BudgetsBalance` | packages/budget-ledger/src/ledger.ts:605-1172 | after any commands, from any callers, a budget's allocation is unchanged and equals available + reserved + finalized spend, no part is negative, reserved is the sum over its encumbered reservations and finalized spend the sum of theirs |
| `Guarantees.ReturnsAreCovered` | packages/approvals/src/core.ts:776-808 | whenever a reservation is held, authorized or broadcast, its budget still holds its whole amount, so the subtractions written without a guard cannot underflow |
| `Guarantees.DisputedForever` | packages/budget-ledger/src/ledger.ts:1131-1160 | a disputed reservation's row never changes again in any run, so it never moves its budget |
| `Guarantees.BroadcastValue` | packages/budget-ledger/src/ledger.ts:1424-1623 | once broadcast, a reservation lets value go only under its stored receipt, verified: for a proof naming that receipt, or in full for a recorded revert naming it with zero spend; it never expires or returns to held |
| `Guarantees.OneAuthorization` | packages/approvals/src/core.ts:1778-1848 | in every run one approval, one reservation and one operation each back at most one authorization |
| `Guarantees.FinalForever` | packages/approvals/src/core.ts:859-993 | a rejected, expired, revoked or consumed approval never changes again |
| `Guarantees.ConsumedTogether` | packages/approvals/src/core.ts:1695-1848 | consuming moves approval, operation and reservation together and adds exactly one authorization, or none of them moves and nothing is authorized |
| `Guarantees.LaterLeaseIsNewer` | packages/budget-ledger/src/ledger.ts:1261-1307 | of two claims of one operation that both commit, the later has the larger version, whatever happens between them |
| `Guarantees.StaleWorkerIsFenced` | packages/budget-ledger/src/ledger.ts:1378-1422 | a worker under a lease version that was overtaken or used never changes anything again, in any later state and for any clock value: its call fails, or repeats word for word an attempt on record |
| `Guarantees.OneResolutionPerLease` | packages/budget-ledger/src/ledger.ts:1624-1645 | each lease version of an operation yields at most one resolution |
| `Guarantees.ReservedOnce` | packages/budget-ledger/src/ledger.ts:605-713 | after a reserve call committed, its key names one reservation for ever; a later call with the key that succeeds changes nothing, returns that reservation, and has the same amount, budget, operation, expiry and JSON payload |
| `Guarantees.HashBindsRequest` | packages/budget-ledger/src/ledger.ts:611-620 | equal idempotency hashes mean equal bound fields and the same payload as a JSON value |
| `Authority.CurrentAlways` | packages/approvals/src/control.ts:756-824 | in every run whose generic steps into AUTHORIZED revive nothing outdated, a live authorization carries the current rows of its four fences, all active |
| `Authority.CurrentThroughoutIff` | packages/transaction-pipeline/src/preparation.ts:342-365 | live authority is current all along a run if and only if each generic step into AUTHORIZED is made where every authorization it would revive is current |
| `Authority.ChangeClears` | packages/approvals/src/control.ts:217-546 | a committed control change leaves in its scope no live authorization, no pending or approved approval and no held reservation of an operation from POLICY_FINALIZED to AWAITING_APPROVAL |
| `Authority.JumpKeepsCurrentIff` | packages/transaction-pipeline/src/preparation.ts:342-365 | the generic lifecycle step into AUTHORIZED keeps live authority current if and only if every authorization it would revive is current |
| `Witness.JumpRevives` | packages/transaction-pipeline/src/preparation.ts:342-365 | a run from an initial database, through an autonomous authorization, a pause and a resume, after which the generic step has revived an outdated authorization |
| `Witness.Sends` | adapters/local-anvil/src/execution-core.ts:129-205 | a machine run from an initial system that authorizes, signs and sends, and whose send is accepted |
| `Witness.Returns` | adapters/local-anvil/src/reconciliation.ts:660-802 | that run continued by a reconciliation that returns, whether the transaction succeeded or reverted |
| `Signing.NoSignatureAcrossAFence` | adapters/local-anvil/src/signer-store.ts:567-611 | an authorization not signed before a pause, resume or revoke over its operation is never signed after it, whatever happens later |
| `Signing.ChangeOutdates` | packages/approvals/src/control.ts:773-788 | a committed control change makes every authorization in its scope outdated |
| `Signing.SignerOwner` | adapters/local-anvil/src/signer-store.ts:399-399 | the owner the signer finds through the wallet is the owner approvals find through the agent |
| `Dispatch.SentAtMostOnce` | adapters/local-anvil/src/execution-core.ts:129-205 | over every interleaving of executors, signers, crashes and other transactions, at most one raw transaction is sent for an operation and authorization |
| `Dispatch.SentOncePerOperation` | adapters/local-anvil/src/execution-core.ts:129-205 | over the same runs at most one raw transaction is sent for an operation, whatever authorizations it had |
| `Dispatch.SentOnlyWhenDurable` | adapters/local-anvil/src/broadcast-core.ts:130-190 | whenever bytes are about to be sent, their attempt is durable and STARTED and they hash to what the attempt says, what the signed row says and what was found signed before |
| `Dispatch.LawfulAlways` | packages/schemas/src/lifecycle.ts:39-120 | in every machine run the audit trail replays from the first states to the present ones, every entry an edge of the table, and each operation has at most one signed transaction |
| `Dispatch.PersistIsLawful` | adapters/local-anvil/src/signer-store.ts:604-611 | a signer that has begun writes SIGNED from SIGNING only, although the write also admits AUTHORIZED |
| `Dispatch.FoundAttempt` | adapters/local-anvil/src/execution-store.ts:78-88 | the lookup finds an attempt if and only if there is one for the operation and authorization |
| `Dispatch.SoundAlways` | adapters/local-anvil/src/signer-core.ts:715-786 | the invariant behind the three results above holds after any actions |
| `Reconciler.AppliedAtMostOnce` | adapters/local-anvil/src/reconciliation.ts:660-802 | while only reconciliation acts on the reservation and anything else may change, however often a call with the same evidence is started, cut off and restarted, its budget moves at most once, by exactly what the evidence says |
| `Reconciler.ReturnedIsComplete` | adapters/local-anvil/src/reconciliation.ts:660-802 | whenever a call returns, the operation is RECONCILED and its reservation FINALIZED with its one economic effect, or RELEASED with none, and the money moved exactly once |
| `Reconciler.InterruptionsDoNotMatter` | adapters/local-anvil/src/reconciliation.ts:660-802 | an interrupted run that returns leaves the reservation, the effect and the movement of money an uninterrupted one leaves |
| `Reconciler.WalkEnds` | adapters/local-anvil/src/reconciliation.ts:585-653 | the lifecycle walk ends in the last state of its path and touches nothing but that operation's state and the trail |
| `Provenance.SpendIsNamed` | packages/budget-ledger/src/ledger.ts:1059-1128 | over every run, whatever spend and proof a reservation carries were named by one command of that run, a finalize or a CONFIRMED resolution under a live lease, while the row was BROADCAST, the proof the stored receipt's and the spend within the amount |
| `Provenance.ReservationWasAllowed` | packages/budget-ledger/src/ledger.ts:605-713 | over every run, each reservation was asked for as it stands by a command of that run, made while budget, operation, intent, policy and owner belonged together, all four fences were active, the policy was not revoked and the amount was available |
| `Provenance.ReceiptWasAnnounced` | packages/budget-ledger/src/ledger.ts:827-916 | over every run, each stored receipt was announced by an authentic caller for an AUTHORIZED reservation under a standing authorization |
| `Provenance.RecoveryHeldItsLease` | packages/budget-ledger/src/ledger.ts:1339-1667 | over every run, each recovery attempt was made by an authentic caller that held the newest lease, unspent and in time, and its outcome was one the reservation then admitted |
| `Provenance.LiveLeaseIsKept` | packages/budget-ledger/src/ledger.ts:1261-1307 | over every run, a live lease is taken over by nobody: while no claim is made after its expiry, it stands as it is or a resolution was made under it |
| `Consent.ExpiredInTime` | packages/budget-ledger/src/ledger.ts:1018-1057 | over every run, a reservation is EXPIRED only because it was expired at or after its own time, or because an approval it was held for was decided on at or after the approval's |
| `Consent.ApprovedByApprover` | packages/approvals/src/core.ts:1149-1247 | over every run, an approval that stands approved or was consumed was approved by the very approver it names, while pending, current, awaited, in its lifetime and for the latest envelope |
| `Consent.AuthorizationWasAllowed` | packages/approvals/src/core.ts:1695-2294 | over every run, each authorization came from consuming a ready approval with its binding, lifetime and fences, or from an active policy with an envelope that needs no approval and whose risk is allowed, within the lifetimes of envelope and reservation |
| `Consent.AutonomousGrounds` | packages/approvals/src/core.ts:1945-1983 | in every reachable database an autonomous authorization is bound to an envelope that demands no owner approval and whose risk is allowed, and to a decision ALLOW_AUTONOMOUS, by their hashes |
| `Consent.SignatureWasWarranted` | adapters/local-anvil/src/signer-store.ts:362-501 | over every run, each signed transaction was persisted when its authorization had not expired and was not invalidated, its reservation was AUTHORIZED, its envelope the latest, its decision of the kind its source demands (with a consumed, decided approval for an owner's), and its four fences current and active |
| `Revocation.RevokedForever` | packages/approvals/src/control.ts:732-824 | after a revoke of an owner, agent or policy that commits, in every later run its fence stays REVOKED and nothing is reserved, put up for approval, authorized or signed for an operation under it |
| `Revocation.FenceWasCommanded` | packages/approvals/src/control.ts:756-788 | over every run, a fence that has changed is in the state that the last command to change it is for, one version up, with only the system paused or resumed and only the others revoked |
| `MachineRuns.MachineIsARun` | adapters/local-anvil/src/execution-core.ts:121-205 | the database of every interleaving of processes is that of a run of the protocol, so every result about runs holds of it |
| `MachineRuns.MachineSignatureWasWarranted` | adapters/local-anvil/src/signer-store.ts:567-611 | over every interleaving, each signed transaction was persisted by a process with its ids at a time when all of the above was the case |
| `MachineRuns.BegunWasWarranted` | adapters/local-anvil/src/signer-store.ts:527-566 | over every interleaving, a process that has begun to sign began when all of the above was the case |
| `Footprint.StepLeaves` | packages/budget-ledger/src/transaction.ts:24-55 | a command leaves alone every row, status, spend and proof that transactions of its kind do not write |
| `ControlOutcomes.ChangeOutcome` | packages/approvals/src/control.ts:732-824 | a committed PAUSE leaves the fence paused, RESUME active, REVOKE revoked, and reports that row; it reports a change exactly if the state differed, and then the version is one up; other fences, and policies other than a revoked one, are as they were |
| `ControlOutcomes.ChangeEffect` | packages/approvals/src/control.ts:432-546 | whatever order the rows come in, the three loops are one update: every operation in scope with anything in flight leaves for REVALIDATION_REQUIRED (system) or REVOKED, its reservation is released, its active approvals are revoked and its live authorizations invalidated, and nothing else changes but the budgets, which stay balanced, and the trail |
| `ControlOutcomes.ChangeGoesThroughIff` | packages/approvals/src/control.ts:432-546 | a permitted change goes through for some order of the rows if and only if each active approval in scope is the only one of its operation, which awaits it with its money in place |
| `Invalidation.HeldLoop` | packages/approvals/src/control.ts:384-430 | the first loop is one simultaneous update of the rows it visits |
| `Invalidation.PendingLoop` | packages/approvals/src/control.ts:217-315 | so is the second |
| `Invalidation.AuthorizedLoop` | packages/approvals/src/control.ts:317-382 | so is the third |
| `Invalidation.PendingLoopVisits` | packages/approvals/src/control.ts:217-315 | the second loop succeeds only if every operation it visits awaits approval and none is visited twice |
| `LedgerOutcomes.UsableIfPresent` | packages/budget-ledger/src/ledger.ts:399-443 | in a reachable database every reservation passes the binding checks |
| `LedgerOutcomes.NothingUnaccounted` | packages/budget-ledger/src/ledger.ts:399-443 | in any database no transaction touches a reservation whose budget, operation, intent, policy and owner do not belong together |
| `LedgerOutcomes.ReserveOutcome` | packages/budget-ledger/src/ledger.ts:605-713 | when a first reserve commits, in positive 256-bit amounts, active fences, an unrevoked policy and free keys, and the rows it writes |
| `LedgerOutcomes.RepeatOutcome` | packages/budget-ledger/src/ledger.ts:640-668 | a repeated reserve commits exactly for the same hash, changes nothing and returns what its key names |
| `LedgerOutcomes.MarkBroadcastOutcome` | packages/budget-ledger/src/ledger.ts:827-916 | a reservation is broadcast exactly by an authentic caller under its one standing authorization, once, with the receipt given |
| `LedgerOutcomes.VerifyBroadcastOutcome` | packages/budget-ledger/src/ledger.ts:918-981 | a stored receipt is marked verified exactly by an authentic caller while the reservation is BROADCAST |
| `LedgerOutcomes.ReleaseOutcome` | packages/budget-ledger/src/ledger.ts:983-1016 | a release returns the whole amount of a held or authorized reservation, and only of one |
| `LedgerOutcomes.ExpireOutcome` | packages/budget-ledger/src/ledger.ts:1018-1057 | an expiry does the same at or after the reservation's time, and not before |
| `LedgerOutcomes.FinalizeOutcome` | packages/budget-ledger/src/ledger.ts:1059-1128 | a finalize of a BROADCAST row commits exactly under the verified receipt and within the amount, records exactly the spend and proof given, adds amount - spend to available and spend to finalized, takes the amount from reserved, and changes no other row |
| `LedgerOutcomes.DisputeOutcome` | packages/budget-ledger/src/ledger.ts:1131-1160 | a dispute writes the status of an open reservation and moves no money |
| `LedgerOutcomes.ClaimOutcome` | packages/budget-ledger/src/ledger.ts:1229-1337 | a lease is claimed exactly when none is live, by an authentic caller, for 1 to 300 seconds, with the next version |
| `LedgerOutcomes.ResolveOutcome` | packages/budget-ledger/src/ledger.ts:1339-1667 | a resolution commits exactly for the authentic holder of the newest live lease and an outcome the reservation admits; then attempt, spent lease, money and status are written as the outcome says |
| `ApprovalOutcomes.LoadsAsIs` | packages/approvals/src/core.ts:516-622 | in a reachable database an approval loads unchanged unless its policy is revoked and its fence is not |
| `ApprovalOutcomes.NothingUnsealed` | packages/approvals/src/core.ts:657-703 | in any database nothing is decided about an approval whose envelope and decision do not say what it says |
| `ApprovalOutcomes.CreateOutcome` | packages/approvals/src/core.ts:995-1147 | when an approval is created, over rows, lifetimes and fences, and the rows it writes, with the fences of that moment |
| `ApprovalOutcomes.CreateAgain` | packages/approvals/src/core.ts:1023-1033 | the same request again changes nothing; another under the same id is refused |
| `ApprovalOutcomes.ApproveOutcome` | packages/approvals/src/core.ts:1149-1247 | a ready pending approval becomes approved by exactly the approver named; one that is not current, outdated by a newer envelope or past its time ends instead, and how |
| `ApprovalOutcomes.RejectOutcome` | packages/approvals/src/core.ts:1249-1335 | exactly a pending, awaited approval for the latest envelope is rejected, by the approver named, and its money returns |
| `ApprovalOutcomes.RevokeOutcome` | packages/approvals/src/core.ts:1337-1423 | exactly an active, awaited approval is revoked, and its money returns |
| `ApprovalOutcomes.ConsumeOutcome` | packages/approvals/src/core.ts:1695-1848 | consuming takes an approved approval named by operation and envelope: if ready it becomes the authorization with its binding, lifetime and fences, if not it ends as approving would end it |
| `ApprovalOutcomes.ConsumeCommits` | packages/approvals/src/core.ts:1695-1848 | and nothing else is needed for it to commit |
| `ApprovalOutcomes.AutonomousOutcome` | packages/approvals/src/core.ts:1945-2294 | the policy authorizes by itself exactly when the rows agree, it is active, the envelope needs no approval, its risk is allowed, both lifetimes hold, nothing forbids it and there is no other approval or authorization; and the rows it writes |
| `ApprovalOutcomes.AutonomousAgain` | packages/approvals/src/core.ts:2099-2126 | the same request again returns the authorization, unchanged, exactly while it is still good |
| `ApprovalOutcomes.ReplaceOutcome` | packages/approvals/src/core.ts:1425-1693 | an envelope is replaced exactly by the next revision, through the only active approval or the consumed one; the operation must be validated again and its money returns |
| `ExecutionOutcomes.EnvelopeOutcome` | packages/transaction-pipeline/src/preparation.ts:604-672 | an envelope is persisted only while the operation's money is held, under the digest of all it says, and for good |
| `Signing.SignerIsWarranted` | adapters/local-anvil/src/signer-store.ts:362-501 | in any database a BeginSigning or PersistSigned that commits has an authorization that has not expired and is not invalidated, the AUTHORIZED reservation of that operation, its latest envelope with the bound hash, the decision of its kind under the operation's own policy, and four active fences at the versions recorded |
| `Signing.MaySignIff` | adapters/local-anvil/src/signer-store.ts:362-501 | in a reachable database the signer's whole query is equivalent to a short condition: everything else it checks is an invariant |
| `ExecutionOutcomes.BeginOutcome` | adapters/local-anvil/src/signer-store.ts:527-566 | signing begins exactly for those who meet that condition |
| `ExecutionOutcomes.PersistOutcome` | adapters/local-anvil/src/signer-store.ts:567-640 | a signature is persisted exactly for those who do, for the envelope they were authorized for, under a new id and a new hash |
| `ExecutionOutcomes.StartOutcome` | adapters/local-anvil/src/broadcast-store.ts:83-132 | an attempt is started once for a signed transaction while the reservation is AUTHORIZED; otherwise the oldest one with its id or transaction is returned |
| `ExecutionOutcomes.FoundIsOldest` | adapters/local-anvil/src/execution-store.ts:78-88 | the executor's lookup finds the oldest attempt of its operation and authorization |
| `ExecutionOutcomes.EffectOutcome` | adapters/local-anvil/src/reconciliation.ts:458-549 | one effect for each operation and each transaction, and only for a transaction whose evidence is on record |
| `ExecutionOutcomes.ReconcileOutcome` | adapters/local-anvil/src/reconciliation.ts:585-653 | the walk to RECONCILED commits exactly from SIGNED, BROADCAST and RECONCILED, and writes exactly the states and audit entries of its way |
| `ExecutionOutcomes.ContestOutcome` | adapters/local-anvil/src/reconciliation.ts:585-653 | the walk to DISPUTED takes one step, from exactly the nine states that admit it or need none |
| `Completion.Uninterrupted` | adapters/local-anvil/src/reconciliation.ts:660-802 | from wherever a reconciliation stands, a call left alone returns once no lease is in the way, for success and for revert |
| `Completion.MadeAgainItReturns` | adapters/local-anvil/src/reconciliation.ts:660-802 | however often and wherever calls were cut off, one made again after the last lease has run out returns, and the evidence has been applied exactly once |
| `Completion.MovedForWhatWasSent` | adapters/local-anvil/src/reconciliation.ts:107-138 | money moves only in a call that entered with an accepted or unknown attempt on record for that transaction, under the attempt's own receipt |
| `Completion.EntranceLaw` | adapters/local-anvil/src/reconciliation.ts:660-731 | a call returns at once exactly for a reconciled operation whose evidence is on record, begins anew exactly when nothing was resolved, and takes up an attempt exactly when that resolved the same evidence to the same end |
| `MachineRuns.DeriveLaw` | adapters/local-anvil/src/execution-core.ts:157-172 | an executor goes on only with bytes that hash to what the signer claimed and to what it found signed before |
| `MachineRuns.RematerializeLaw` | adapters/local-anvil/src/signer-core.ts:745-748 | what is signed again must hash as it did before |
| `MachineRuns.ExamineLaw` | adapters/local-anvil/src/signer-core.ts:705-715 | a signer signs afresh only what is not signed, and again only when told to |
| `MachineRuns.AttemptIsNamed` | adapters/local-anvil/src/execution-core.ts:174-177 | an attempt's id is derived from operation and envelope revision through the signed transaction's |
| `Lifecycle.EnteredFromSources` | packages/schemas/src/lifecycle.ts:39-120 | the table agrees with its transpose, written out by the states each state is entered from |
| `Lifecycle.EdgesLeadOnward` | packages/schemas/src/lifecycle.ts:39-120 | every edge leads onward except from REVALIDATION_REQUIRED to VALIDATED, so operations go round in circles only through revalidation |
| `Refinement.Refines` | packages/budget-ledger/src/transaction.ts:24-55 | every transaction, of every module, is a sequence of legal elementary moves that transactions of its kind make, or changes nothing |
| `Evolution.RunEvolves` | packages/budget-ledger/src/ledger.ts:605-1667 | in any run fence and lease versions never fall, fences other than the system's and policies are only ever revoked and then for good, closed and disputed rows never reopen, and recorded evidence never changes |
| `Invariants.Always` | packages/budget-ledger/src/ledger.ts:369-388 | every reachable database conserves money, binds each reservation to budget, intent, policy and one owner, seals each approval and authorization by envelope, decision, lifetime and grounds, gives each operation at most one reservation, authorization and signature, repeats the signed transaction in each attempt, rests each effect on evidence, and accounts for every broadcast value |
| `Money.MoveConserves` | packages/budget-ledger/src/ledger.ts:677-682 | every legal move keeps every budget accounting for its reservations |
| `Money.NoUnderflow` | packages/budget-ledger/src/ledger.ts:997-1005 | the budget of an encumbered reservation holds at least its amount |
| `Trail.MoveTraced` | packages/approvals/src/core.ts:758-774 | every move keeps the audit trail complete and lawful |
| `Lifecycle.OneWayDoor` | packages/schemas/src/lifecycle.ts:39-120 | no edge leads back to AUTHORIZED once signing has begun, nor back to SIGNING once signed |
| `Fencing.Ensure` | packages/approvals/src/control.ts:584-633 | a missing fence starts at version 1, revoked exactly for a revoked policy and active otherwise, and an existing one is not touched |
| `Control.LockTarget` | packages/approvals/src/control.ts:635-675 | the fence of any existing target exists afterwards and existing fences are as they were |
| `Fencing.EnsureFour` | packages/approvals/src/control.ts:677-700 | the four fences over an operation exist afterwards and the existing ones are as they were |
| `Database.Store.Serve` | packages/budget-ledger/src/transaction.ts:24-55 | an object started on an initial database goes through exactly the runs of the protocol, and every invariant holds of it after each transaction; so every result about runs is one about the object |
| `Database.Store.Execute` | packages/budget-ledger/src/transaction.ts:24-55 | whatever transaction is asked for, the tables end up as its command leaves them and every invariant still holds |
| `Database.Store.HoldAmount` | packages/budget-ledger/src/ledger.ts:670-694 | the amount is available when it is taken, and every budget still accounts for its reservations |
| `Database.Store.ReturnAmount` | packages/approvals/src/core.ts:776-808 | the budget holds at least the amount where it is subtracted without a guard, and every budget still accounts for its reservations |
| `Database.Store.SpendAmount` | packages/budget-ledger/src/ledger.ts:1096-1107 | the budget holds the amount and the amount covers the spend where both are subtracted, and every budget still accounts for its reservations |
| `Database.Store.ResolveNew` | packages/budget-ledger/src/ledger.ts:1424-1645 | attempt, spent lease and outcome are written together, or a refused outcome rolls the first two back |
| `Database.Store.FenceAllHeld` | packages/approvals/src/control.ts:480-487 | the loop over held rows leaves what its row step leaves row after row, or stops with the first error |
| `Database.Store.FenceAllPending` | packages/approvals/src/control.ts:508-509 | the loop over pending rows likewise |
| `Database.Store.FenceAllAuthorized` | packages/approvals/src/control.ts:537-545 | the loop over authorized rows likewise |
| `Database.Store.RaiseAndInvalidate` | packages/approvals/src/control.ts:773-816 | a raised fence and all three loops take effect together, or every table they wrote is rolled back |
| `Database.Store.BroadcastSigned` | adapters/local-anvil/src/broadcast-core.ts:124-190 | bytes are sent only if they hash to the signed row and only after their attempt is durable and started, the attempt then records what the answer proves, and every invariant still holds |
| `Database.Store.Walk` | adapters/local-anvil/src/reconciliation.ts:605-650 | the loop takes the steps of the path it has not yet taken, or rolls all of them back |
| `Decimal.Subtract` | packages/policy-engine/src/index.ts:48-74 | the borrow loop returns the canonical text of the difference, or zero if it would be negative |
| `Decimal.CompareIsNumeric` | packages/policy-engine/src/index.ts:39-46 | comparing canonical texts compares their values |
| `Decimal.MinIsNumeric` | packages/transaction-pipeline/src/simulation.ts:247-250 | the smaller text has the smaller value |
| `Decimal.MaxText` | packages/schemas/src/money.ts:4-5 | the 78 digits written out denote 2^256 - 1 |
| `Decimal.AtomicIsUint256` | packages/schemas/src/money.ts:3-25 | the amount schemas, comparing with those digits as text, accept exactly the canonical texts of 0 (or 1) to 2^256 - 1 |
| `Decimal.CanonicalIsRendered` | packages/schemas/src/money.ts:3-3 | every canonical text is the rendering of its value |
| `JsonCanonicity.Canonical` | packages/schemas/src/idempotency.ts:8-35 | two values print the same text if and only if they are the same JSON value with objects read as maps |
| `JsonCanonicity.Parses` | packages/schemas/src/idempotency.ts:8-35 | a printed value followed by a delimiter can be read in one way only |
| `JsonCanonicity.PrintedInKeyOrder` | packages/schemas/src/idempotency.ts:27-34 | an object's members are printed once each, in strictly ascending UTF-16 key order |
| `KeyOrder.AscendingUnique` | packages/schemas/src/idempotency.ts:27-28 | ascending lists with the same keys have them in the same places, whatever order they came in |
| `TransferAbi.DecodesEncoding` | packages/transaction-pipeline/src/construct-transfer.ts:105-109 | decoding the encoding of a transfer gives its recipient and amount |
| `TransferAbi.EncodesDecoding` | packages/transaction-pipeline/src/decode-transfer.ts:21-58 | encoding what was decoded gives back the input |
| `TransferAbi.DecoderIsInverse` | packages/transaction-pipeline/src/decode-transfer.ts:21-58 | the decoder returns a pair if and only if the input is that pair's encoding |
| `PolicyEngine.Evaluate` | packages/policy-engine/src/index.ts:331-373 | a well-formed intent is denied exactly when some condition fails over the true numbers, and allowed as action and mode say; malformed input is denied |
| `PolicyEngine.EvaluateSubject` | packages/policy-engine/src/index.ts:209-240 | the first six rules are pushed in order, each with the result its condition has |
| `PolicyEngine.EvaluateAction` | packages/policy-engine/src/index.ts:241-264 | the next four rules likewise |
| `PolicyEngine.EvaluateBudget` | packages/policy-engine/src/index.ts:265-305 | the budget and fee rules likewise, over the true numbers |
| `PolicyEngine.EvaluateRules` | packages/policy-engine/src/index.ts:201-325 | all fifteen rules, in order |
| `PolicyEngine.FitsRemaining` | packages/policy-engine/src/index.ts:279-285 | the amount fits the remaining budget exactly when spent + amount is at most the total, also when the budget is overspent |
| `PolicyEngine.CompliantMoney` | packages/policy-engine/src/index.ts:265-305 | what compliance means for the money of a transfer |
| `FeeResolution.ResolvedVerifies` | packages/transaction-pipeline/src/simulation.ts:421-601 | what the simulator resolves from a verified core is accepted by the exact verifier under the same ceilings if and only if every number fits 256 bits |
| `ChainEvidence.Verify` | packages/transaction-pipeline/src/chain-evidence.ts:416-632 | arbitrary evidence is accepted if and only if the declarative match holds, with the transfer and spend reported accordingly |
| `ChainEvidence.CheckPresence` | packages/transaction-pipeline/src/chain-evidence.ts:423-465 | no issue if and only if everything is present and parses |
| `ChainEvidence.CheckCall` | packages/transaction-pipeline/src/chain-evidence.ts:468-481 | no issue added if and only if the transaction does what the envelope says |
| `ChainEvidence.CheckTerms` | packages/transaction-pipeline/src/chain-evidence.ts:482-506 | no issue added if and only if its terms are the envelope's |
| `ChainEvidence.CheckPlaces` | packages/transaction-pipeline/src/chain-evidence.ts:508-533 | no issue if and only if transaction, receipt and both blocks agree |
| `ChainEvidence.CheckTransfer` | packages/transaction-pipeline/src/chain-evidence.ts:535-573 | no issue on success only for one log that is the expected transfer, and on a revert only for none |
| `ChainEvidence.CheckLogs` | packages/transaction-pipeline/src/chain-evidence.ts:574-589 | no issue added if and only if every log belongs to the transaction |
| `ChainEvidence.TransferFromLogInverse` | packages/transaction-pipeline/src/chain-evidence.ts:302-317 | a log is read as a transfer if and only if it is that transfer's event |
| `ChainEvidence.TopicAddressInverse` | packages/transaction-pipeline/src/chain-evidence.ts:296-300 | a topic is read as an address if and only if it is that address padded to a word |
| `ChainEvidence.MatchedLogs` | packages/transaction-pipeline/src/chain-evidence.ts:535-589 | after a match the raw receipt holds exactly the Transfer event of the transaction's own calldata, or no log at all |
| `KeyOrder.FirstDifference` | packages/schemas/src/idempotency.ts:27-28 | keys are ordered by the first code unit that differs, a proper prefix first |
| `JsonStrings.QuotedReadsBack` | packages/schemas/src/idempotency.ts:8-35 | a quoted string is a JSON string (section 7 of RFC 8259) and reads back as what was quoted |
| `JsonStrings.EscapedSparingly` | packages/schemas/src/idempotency.ts:8-35 | only what must be escaped is, with the short escape where there is one |
| `TransferAbi.RefusalIs` | packages/transaction-pipeline/src/decode-transfer.ts:21-58 | each refusal has exactly its cause, in bytes, and no word is refused as a number |
| `PolicyEngine.WellFormedIff` | packages/policy-engine/src/index.ts:336-346 | inputs pass the schemas exactly when versions, windows, lists and amounts are as they must be, in numbers |
| `FeeResolution.ResolveOutcome` | packages/transaction-pipeline/src/simulation.ts:421-601 | fees are resolved exactly when the simulation is in order and ceil(11/10 estimate) * (2 base + priority) exceeds neither ceiling nor the native balance; the executable has that gas limit and maximum fee, and the RPC's nonce and priority fee, and the evidence repeats every number; which refusal is given for which excess |
| `FeeResolution.VerifyIff` | packages/transaction-pipeline/src/simulation.ts:657-741 | the verifier accepts exactly evidence that says, in numbers, all it must: the executable's own fields and digest, one delta, gas ceil(11/10 estimate), base + priority within the maximum fee, and the product as a cost within both ceilings |
| `OnChain.MatchesIffOnChain` | packages/transaction-pipeline/src/chain-evidence.ts:416-632 | evidence matches exactly when its fields as they came, of the transaction, both blocks, the receipt and its one log, are those of the envelope |

## Left out

- Child processes, IPC, key files, RPC clients and the fault proxy.
- Keccak, SHA-256 and Ed25519, and the bytes that signatures cover.
- The canonicalization in the trust boundary package, whose order depends on the locale.
- Triggers and CHECK constraints: they can only abort more transactions.
- Audit events other than operation states, and the correlation fields that are only compared with them.
- Schemas and patterns for identifiers, timestamps and URLs; an input is taken as shaped, and the numeric and structural demands are modelled.
- `authorizeReservation` and `revalidateAuthorization`, which read and change nothing.
- Simulation persistence and freshness, and the signer's checks of fixtures, simulations and executables before it begins: a signer process may stop at any point instead.
- Loss of the advisory-lock connection while its holder goes on; a lock is held until its process ends.
- Liveness, apart from reconciliation (`Completion`) and control changes (`ControlOutcomes.ChangeGoesThroughIff`): executors and signers that stop are not shown to be resumed.
- Chain evidence that does not match, once reconciliation has begun: `resolveMismatch` is a claim, a CONFLICT resolution and a walk to DISPUTED, which are commands of the protocol, but not a stage of `Reconciler`.
- The limit and requested amounts attached to failed policy rules, and the source and field attached to evidence mismatches.

