/**
 Resolving gas and fees against one canonical block, and the exact verifier of what was resolved
 (packages/transaction-pipeline/src/simulation.ts).

 Fields with one legal value (chain, action, native value, selector, nonce strategy, transaction
 type, empty access list, simulator version) are left out of the records.
 */
module FeeResolution {
  import opened Texts
  import D = Decimal
  import Abi = TransferAbi

  const LOCAL_CHAIN_NUMBER := 31337

  datatype Core = Core(from: Text, target: Text, calldata: Text, recipient: Text, amountAtomic: Text, fixtureId: Text,
      provenance: Text)

  datatype Executable = Executable(core: Core, nonce: Text, gasLimit: Text, maxPriorityFeePerGas: Text,
      maxFeePerGas: Text)

  datatype Delta = Delta(asset: Text, from: Text, to: Text, amountAtomic: Text)

  /** Collision-free digests of the two things that are hashed. */
  datatype Digest = OfExecutable(executable: Executable) | OfEvidence(body: Body)

  datatype Body = Body(
    fixtureId: Text, blockNumber: Text, blockHash: Text, candidateHash: Digest, from: Text, to: Text, calldata: Text,
    senderNonce: Text, tokenBalance: Text, nativeBalance: Text, gasEstimate: Text, gasLimit: Text, baseFeePerGas: Text,
    maxPriorityFeePerGas: Text, maxFeePerGas: Text, success: bool, deltas: seq<Delta>, maximumFee: Text)

  datatype Evidence = Evidence(body: Body, evidenceHash: Digest)

  datatype Fixture = Fixture(fixtureId: Text, walletAddress: Text)

  datatype Constraints = Constraints(intentMaximum: Text, policyMaximum: Text)

  datatype Block = Block(number: int, hash: Text, baseFeePerGas: int)

  /** Everything the RPC answers, in the order it is asked; none of it is trusted. */
  datatype Answers = Answers(
    chainId: int, blockNumber: int, byNumber: Option<Block>, byHash: Option<Block>,
    nonce: int, tokenBalance: int, nativeBalance: int, reverted: bool,
    gasEstimate: int, baseFeePerGas: int, maxPriorityFeePerGas: int)

  datatype Failure =
    | FixtureMismatch | InvalidVerifiedCore | FeeCeilingConflict | InvalidRpcEvidence | WrongChain | MissingBlock
    | NoncanonicalBlock | InsufficientTokenBalance | SimulationRevert | InvalidFeeData | InsufficientNativeBalance
    | InvalidExecutable | ExecutableChanged | PriorityFeeExceedsMaxFee | SimulationChanged

  datatype Outcome<+T> = Fine(value: T) | Refused(failure: Failure)

  datatype Resolution = Resolution(executable: Executable, evidence: Evidence)

  predicate IsHash(t: Text) {
    |t| == 66 && Abi.IsPrefixedHex(t)
  }

  predicate IsCalldata(t: Text) {
    Abi.IsPrefixedHex(t) && |t| % 2 == 0
  }

  /** What static verification established about the core. */
  predicate IsVerifiedCore(c: Core) {
    && Abi.IsAddress(c.from) && Abi.IsAddress(c.target) && Abi.IsAddress(c.recipient)
    && IsCalldata(c.calldata) && D.IsAtomic(c.amountAtomic)
  }

  // ----- resolving -------------------------------------------------------------------------

  function GasLimit(estimate: nat): nat {
    var margin := (estimate + 9) / 10;
    estimate + (if margin == 0 then 1 else margin)
  }

  function MaxFee(base: nat, priority: nat): nat {
    base * 2 + priority
  }

  /** The lower of the two ceilings, compared as text. */
  function Ceiling(k: Constraints): (c: Text)
    requires D.IsCanonical(k.intentMaximum) && D.IsCanonical(k.policyMaximum)
    ensures D.IsCanonical(c)
  {
    D.MinAtomic(k.intentMaximum, k.policyMaximum)
  }

  function Product(left: nat, right: nat): nat {
    left * right
  }

  /** The block read by number and again by its hash. */
  function CanonicalBlock(a: Answers): Outcome<Block> {
    if a.byNumber.None? then Refused(MissingBlock)
    else
      var b := a.byNumber.value;
      if b.number != a.blockNumber || !IsHash(b.hash) || b.baseFeePerGas < 0 then Refused(InvalidRpcEvidence)
      else if a.byHash.None? || a.byHash.value.number != b.number || a.byHash.value.hash != b.hash
        then Refused(NoncanonicalBlock)
      else Fine(b)
  }

  function Resolve(core: Core, fixture: Fixture, k: Constraints, a: Answers): Outcome<Resolution>
    requires D.IsCanonical(core.amountAtomic)
  {
    if core.fixtureId != fixture.fixtureId then Refused(FixtureMismatch)
    else if core.from != fixture.walletAddress then Refused(InvalidVerifiedCore)
    else if !D.IsCanonical(k.intentMaximum) || !D.IsCanonical(k.policyMaximum) then Refused(FeeCeilingConflict)
    else if a.chainId < 0 then Refused(InvalidRpcEvidence)
    else if a.chainId != LOCAL_CHAIN_NUMBER then Refused(WrongChain)
    else if a.blockNumber < 0 then Refused(InvalidRpcEvidence)
    else if CanonicalBlock(a).Refused? then Refused(CanonicalBlock(a).failure)
    else if a.nonce < 0 || a.tokenBalance < 0 || a.nativeBalance < 0 then Refused(InvalidRpcEvidence)
    else if a.reverted then Refused(if a.tokenBalance < D.Value(core.amountAtomic) then InsufficientTokenBalance
      else SimulationRevert)
    else if a.tokenBalance < D.Value(core.amountAtomic) then Refused(InsufficientTokenBalance)
    else if a.gasEstimate <= 0 || a.baseFeePerGas < 0 || a.maxPriorityFeePerGas < 0 then Refused(InvalidRpcEvidence)
    else if a.baseFeePerGas != CanonicalBlock(a).value.baseFeePerGas then Refused(InvalidFeeData)
    else ResolveFees(core, k, a, CanonicalBlock(a).value.hash)
  }

  function ResolveFees(core: Core, k: Constraints, a: Answers, blockHash: Text): Outcome<Resolution>
    requires D.IsCanonical(k.intentMaximum) && D.IsCanonical(k.policyMaximum)
    requires a.blockNumber >= 0 && a.nonce >= 0 && a.tokenBalance >= 0 && a.nativeBalance >= 0
    requires a.gasEstimate > 0 && a.baseFeePerGas >= 0 && a.maxPriorityFeePerGas >= 0
  {
    var gasLimit, maxFee := GasLimit(a.gasEstimate), MaxFee(a.baseFeePerGas, a.maxPriorityFeePerGas);
    var maximumFee := Product(gasLimit, maxFee);
    if a.maxPriorityFeePerGas > maxFee then Refused(InvalidFeeData)
    else if maximumFee > D.Value(Ceiling(k)) then Refused(FeeCeilingConflict)
    else if a.nativeBalance < maximumFee then Refused(InsufficientNativeBalance)
    else
      var x := Executable(core, D.Render(a.nonce), D.Render(gasLimit), D.Render(a.maxPriorityFeePerGas),
        D.Render(maxFee));
      var body := Body(core.fixtureId, D.Render(a.blockNumber), blockHash, OfExecutable(x), core.from, core.target,
        core.calldata,
                       x.nonce, D.Render(a.tokenBalance), D.Render(a.nativeBalance), D.Render(a.gasEstimate),
                         x.gasLimit,
                       D.Render(a.baseFeePerGas), x.maxPriorityFeePerGas, x.maxFeePerGas, true,
                       [Delta(core.target, core.from, core.recipient, core.amountAtomic)], D.Render(maximumFee));
      Fine(Resolution(x, Evidence(body, OfEvidence(body))))
  }

  // ----- verifying -------------------------------------------------------------------------

  /** executableTransferCandidateSchema. */
  predicate ExecutableParses(x: Executable) {
    && Abi.IsAddress(x.core.from) && Abi.IsAddress(x.core.target) && Abi.IsAddress(x.core.recipient)
    && IsCalldata(x.core.calldata) && D.IsAtomic(x.core.amountAtomic)
    && D.IsAtomic(x.nonce) && D.IsAtomic(x.gasLimit) && D.IsAtomic(x.maxPriorityFeePerGas) && D.IsAtomic(x.maxFeePerGas)
    && D.Value(x.maxPriorityFeePerGas) <= D.Value(x.maxFeePerGas)
  }

  predicate DeltaParses(d: Delta) {
    Abi.IsAddress(d.asset) && Abi.IsAddress(d.from) && Abi.IsAddress(d.to) && D.IsAtomic(d.amountAtomic)
  }

  /** The amounts the evidence schema bounds to 256 bits. */
  predicate AmountsParse(b: Body) {
    && D.IsAtomic(b.blockNumber) && D.IsAtomic(b.senderNonce) && D.IsAtomic(b.tokenBalance)
      && D.IsAtomic(b.nativeBalance)
    && D.IsAtomic(b.gasEstimate) && D.IsAtomic(b.gasLimit) && D.IsAtomic(b.baseFeePerGas)
      && D.IsAtomic(b.maxPriorityFeePerGas)
    && D.IsAtomic(b.maxFeePerGas) && D.IsAtomic(b.maximumFee)
  }

  predicate EvidenceIsValid(e: Evidence) {
    && AmountsParse(e.body)
    && IsHash(e.body.blockHash)
    && Abi.IsAddress(e.body.from) && Abi.IsAddress(e.body.to) && IsCalldata(e.body.calldata)
    && |e.body.deltas| >= 1 && (forall d | d in e.body.deltas :: DeltaParses(d))
    && e.evidenceHash == OfEvidence(e.body)
  }

  /** The evidence is about this executable. */
  predicate Describes(b: Body, x: Executable) {
    && (b.fixtureId, b.from, b.to, b.calldata) == (x.core.fixtureId, x.core.from, x.core.target, x.core.calldata)
    && (b.senderNonce, b.gasLimit, b.maxPriorityFeePerGas, b.maxFeePerGas) ==
      (x.nonce, x.gasLimit, x.maxPriorityFeePerGas, x.maxFeePerGas)
    && b.candidateHash == OfExecutable(x)
  }

  predicate GasAndFeesAdd(b: Body)
    requires AmountsParse(b)
  {
    && D.Value(b.gasEstimate) != 0
    && D.Value(b.gasLimit) == GasLimit(D.Value(b.gasEstimate))
    && D.Value(b.baseFeePerGas) + D.Value(b.maxPriorityFeePerGas) <= D.Value(b.maxFeePerGas)
  }

  function Verify(core: Core, x: Executable, e: Evidence, k: Constraints): Outcome<Executable> {
    if !ExecutableParses(x) then Refused(InvalidExecutable)
    else if x.core != core then Refused(ExecutableChanged)
    else if D.Value(x.maxPriorityFeePerGas) > D.Value(x.maxFeePerGas) then Refused(PriorityFeeExceedsMaxFee)
    else if !EvidenceIsValid(e) || !e.body.success then Refused(SimulationChanged)
    else if !Describes(e.body, x) then Refused(SimulationChanged)
    else if e.body.deltas != [Delta(x.core.target, x.core.from, x.core.recipient, x.core.amountAtomic)]
      || !GasAndFeesAdd(e.body) then
      Refused(SimulationChanged)
    else if !D.IsCanonical(k.intentMaximum) || !D.IsCanonical(k.policyMaximum) then Refused(FeeCeilingConflict)
    else
      var maximumCost := Product(D.Value(x.gasLimit), D.Value(x.maxFeePerGas));
      if maximumCost > D.Value(Ceiling(k)) then Refused(FeeCeilingConflict)
      else if e.body.maximumFee != D.Render(maximumCost) then Refused(SimulationChanged)
      else Fine(x)
  }

  // ----- the numbers -----------------------------------------------------------------------

  predicate FitsUint256(n: int) {
    n <= D.MAX_UINT256
  }

  /** Eleven tenths of the estimate, rounded up. */
  function Gas(a: Answers): int {
    (11 * a.gasEstimate + 9) / 10
  }

  /** Twice the base fee, and the priority fee. */
  function Rate(a: Answers): int {
    2 * a.baseFeePerGas + a.maxPriorityFeePerGas
  }

  /** Everything the RPC answered, and everything derived from it, fits 256 bits. */
  predicate Fits(a: Answers) {
    && FitsUint256(a.blockNumber) && FitsUint256(a.nonce) && FitsUint256(a.tokenBalance) && FitsUint256(a.nativeBalance)
    && FitsUint256(a.gasEstimate) && FitsUint256(a.baseFeePerGas) && FitsUint256(a.maxPriorityFeePerGas)
    && FitsUint256(Gas(a)) && FitsUint256(Rate(a)) && FitsUint256(Gas(a) * Rate(a))
  }

  lemma DerivedNumbers(a: Answers)
    requires a.gasEstimate > 0 && a.baseFeePerGas >= 0 && a.maxPriorityFeePerGas >= 0
    ensures GasLimit(a.gasEstimate) == Gas(a) && MaxFee(a.baseFeePerGas, a.maxPriorityFeePerGas) == Rate(a)
    ensures Product(GasLimit(a.gasEstimate), MaxFee(a.baseFeePerGas, a.maxPriorityFeePerGas)) == Gas(a) * Rate(a)
    ensures a.maxPriorityFeePerGas <= Rate(a)
  {}

  // ----- what is resolved ------------------------------------------------------------------

  /** The block read by number is read again, the same, by its hash. */
  predicate BlockIsCanonical(a: Answers) {
    && a.byNumber.Some? && a.byHash.Some?
    && a.byNumber.value.number == a.byHash.value.number == a.blockNumber
    && a.byNumber.value.hash == a.byHash.value.hash
    && IsHash(a.byNumber.value.hash)
    && a.byNumber.value.baseFeePerGas >= 0
  }

  /** Everything but the fees is in order: the fixture, the chain, the block, the simulation and its numbers. */
  predicate Simulates(core: Core, fixture: Fixture, k: Constraints, a: Answers)
    requires D.IsCanonical(core.amountAtomic)
  {
    && core.fixtureId == fixture.fixtureId
    && core.from == fixture.walletAddress
    && D.IsCanonical(k.intentMaximum) && D.IsCanonical(k.policyMaximum)
    && a.chainId == 31337
    && a.blockNumber >= 0
    && BlockIsCanonical(a)
    && a.nonce >= 0 && a.tokenBalance >= 0 && a.nativeBalance >= 0
    && !a.reverted
    && D.Value(core.amountAtomic) <= a.tokenBalance
    && a.gasEstimate > 0 && a.baseFeePerGas >= 0 && a.maxPriorityFeePerGas >= 0
    && a.baseFeePerGas == a.byNumber.value.baseFeePerGas
  }

  /** The executable asks for what the RPC said, with the margin on gas and twice the base fee. */
  predicate AsksFor(x: Executable, core: Core, a: Answers) {
    && x.core == core
    && D.IsCanonical(x.nonce) && D.Value(x.nonce) == a.nonce
    && D.IsCanonical(x.gasLimit) && D.Value(x.gasLimit) == Gas(a)
    && D.IsCanonical(x.maxPriorityFeePerGas) && D.Value(x.maxPriorityFeePerGas) == a.maxPriorityFeePerGas
    && D.IsCanonical(x.maxFeePerGas) && D.Value(x.maxFeePerGas) == Rate(a)
  }

  predicate Says(t: Text, n: int) {
    D.IsCanonical(t) && D.Value(t) == n
  }

  /** The evidence repeats the executable and everything it was resolved from, and promises one transfer. */
  predicate Attests(e: Evidence, x: Executable, core: Core, a: Answers) {
    var b := e.body;
    && e.evidenceHash == OfEvidence(b)
    && b.candidateHash == OfExecutable(x)
    && (b.fixtureId, b.from, b.to, b.calldata) == (core.fixtureId, core.from, core.target, core.calldata)
    && Says(b.blockNumber, a.blockNumber) && a.byNumber.Some? && b.blockHash == a.byNumber.value.hash
    && Says(b.senderNonce, a.nonce) && Says(b.tokenBalance, a.tokenBalance) && Says(b.nativeBalance, a.nativeBalance)
    && Says(b.gasEstimate, a.gasEstimate) && Says(b.gasLimit, Gas(a)) && Says(b.baseFeePerGas, a.baseFeePerGas)
    && Says(b.maxPriorityFeePerGas, a.maxPriorityFeePerGas) && Says(b.maxFeePerGas, Rate(a))
    && Says(b.maximumFee, Gas(a) * Rate(a))
    && b.success
    && b.deltas == [Delta(core.target, core.from, core.recipient, core.amountAtomic)]
  }

  /**
   Fees are resolved exactly when the simulation is in order and the most they can come to, gas with
   its margin at twice the base fee and the priority fee, exceeds neither ceiling nor the balance.
   */
  lemma ResolveOutcome(core: Core, fixture: Fixture, k: Constraints, a: Answers)
    requires D.IsCanonical(core.amountAtomic)
    ensures var r := Resolve(core, fixture, k, a);
      && (r.Fine? <==>
            && Simulates(core, fixture, k, a)
            && Gas(a) * Rate(a) <= D.Value(k.intentMaximum)
            && Gas(a) * Rate(a) <= D.Value(k.policyMaximum)
            && Gas(a) * Rate(a) <= a.nativeBalance)
      && (r.Fine? ==>
            AsksFor(r.value.executable, core, a) && Attests(r.value.evidence, r.value.executable, core, a))
      && (Simulates(core, fixture, k, a) ==>
            && (r == Refused(FeeCeilingConflict) <==>
                  Gas(a) * Rate(a) > D.Value(k.intentMaximum) || Gas(a) * Rate(a) > D.Value(k.policyMaximum))
            && (r == Refused(InsufficientNativeBalance) <==>
                  && Gas(a) * Rate(a) <= D.Value(k.intentMaximum) && Gas(a) * Rate(a) <= D.Value(k.policyMaximum)
                  && a.nativeBalance < Gas(a) * Rate(a)))
  {
    hide D.IsCanonical, D.Value, D.Render, D.MinAtomic, IsHash, ResolveFees, Gas, Rate, AsksFor, Attests;
    if Simulates(core, fixture, k, a) {
      FeesOutcome(core, k, a, a.byNumber.value.hash);
    }
  }

  lemma FeesOutcome(core: Core, k: Constraints, a: Answers, blockHash: Text)
    requires D.IsCanonical(k.intentMaximum) && D.IsCanonical(k.policyMaximum)
    requires a.blockNumber >= 0 && a.nonce >= 0 && a.tokenBalance >= 0 && a.nativeBalance >= 0
    requires a.gasEstimate > 0 && a.baseFeePerGas >= 0 && a.maxPriorityFeePerGas >= 0
    requires a.byNumber.Some? && a.byNumber.value.hash == blockHash
    ensures var r, fee := ResolveFees(core, k, a, blockHash), Gas(a) * Rate(a);
      && (r == Refused(FeeCeilingConflict) <==> fee > D.Value(k.intentMaximum) || fee > D.Value(k.policyMaximum))
      && (r == Refused(InsufficientNativeBalance) <==>
            fee <= D.Value(k.intentMaximum) && fee <= D.Value(k.policyMaximum) && a.nativeBalance < fee)
      && (r.Fine? <==> fee <= D.Value(k.intentMaximum) && fee <= D.Value(k.policyMaximum) && fee <= a.nativeBalance)
      && (r.Fine? ==>
            AsksFor(r.value.executable, core, a) && Attests(r.value.evidence, r.value.executable, core, a))
  {
    hide D.IsCanonical, D.Value, D.Render, D.MinAtomic, IsHash, GasLimit, MaxFee, Product, Gas, Rate;
    DerivedNumbers(a);
    D.MinIsNumeric(k.intentMaximum, k.policyMaximum);
  }

  lemma RenderedFits(n: nat)
    ensures D.IsAtomic(D.Render(n)) <==> FitsUint256(n)
  {
    D.AtomicIsUint256(D.Render(n));
  }

  lemma ResolvedAmounts(core: Core, k: Constraints, a: Answers, blockHash: Text)
    requires D.IsCanonical(k.intentMaximum) && D.IsCanonical(k.policyMaximum)
    requires a.blockNumber >= 0 && a.nonce >= 0 && a.tokenBalance >= 0 && a.nativeBalance >= 0
    requires a.gasEstimate > 0 && a.baseFeePerGas >= 0 && a.maxPriorityFeePerGas >= 0
    requires ResolveFees(core, k, a, blockHash).Fine?
    ensures var r := ResolveFees(core, k, a, blockHash).value;
      && (AmountsParse(r.evidence.body) <==> Fits(a))
      && (Fits(a) ==> D.IsAtomic(r.executable.nonce) && D.IsAtomic(r.executable.gasLimit)
                      && D.IsAtomic(r.executable.maxPriorityFeePerGas) && D.IsAtomic(r.executable.maxFeePerGas))
  {
    hide D.IsAtomic, D.Render, D.Value, FitsUint256, GasLimit, MaxFee, Product, D.MinAtomic, Ceiling, Gas, Rate;
    DerivedNumbers(a);
    var gasLimit, maxFee := GasLimit(a.gasEstimate), MaxFee(a.baseFeePerGas, a.maxPriorityFeePerGas);
    RenderedFits(a.blockNumber);
    RenderedFits(a.nonce);
    RenderedFits(a.tokenBalance);
    RenderedFits(a.nativeBalance);
    RenderedFits(a.gasEstimate);
    RenderedFits(gasLimit);
    RenderedFits(a.baseFeePerGas);
    RenderedFits(a.maxPriorityFeePerGas);
    RenderedFits(maxFee);
    RenderedFits(Product(gasLimit, maxFee));
  }

  /** What was resolved from a verified core is accepted under the same ceilings, exactly when the numbers fit. */
  lemma FeesAccepted(core: Core, k: Constraints, a: Answers, blockHash: Text)
    requires IsVerifiedCore(core) && IsHash(blockHash) && D.IsCanonical(k.intentMaximum)
      && D.IsCanonical(k.policyMaximum)
    requires a.blockNumber >= 0 && a.nonce >= 0 && a.tokenBalance >= 0 && a.nativeBalance >= 0
    requires a.gasEstimate > 0 && a.baseFeePerGas >= 0 && a.maxPriorityFeePerGas >= 0
    requires ResolveFees(core, k, a, blockHash).Fine?
    ensures var r := ResolveFees(core, k, a, blockHash).value;
      && (Verify(core, r.executable, r.evidence, k).Fine? <==> Fits(a))
      && (Fits(a) ==> Verify(core, r.executable, r.evidence, k) == Fine(r.executable))
  {
    hide D.IsAtomic, D.Render, D.Value, Fits, D.MinAtomic, Ceiling, Abi.IsAddress, IsCalldata, IsHash;
    ResolvedAmounts(core, k, a, blockHash);
  }

  /**
   The simulator and the exact verifier agree: whatever is resolved verifies, if and only if every
   number fits 256 bits.
   */
  lemma ResolvedVerifies(core: Core, fixture: Fixture, k: Constraints, a: Answers)
    requires IsVerifiedCore(core) && D.IsCanonical(core.amountAtomic) && Resolve(core, fixture, k, a).Fine?
    ensures var r := Resolve(core, fixture, k, a).value;
      && (Verify(core, r.executable, r.evidence, k).Fine? <==> Fits(a))
      && (Fits(a) ==> Verify(core, r.executable, r.evidence, k) == Fine(r.executable))
  {
    hide D.IsAtomic, Fits, Verify, ResolveFees, IsHash;
    FeesAccepted(core, k, a, CanonicalBlock(a).value.hash);
  }

  predicate IsUint256(t: Text) {
    D.IsCanonical(t) && D.Value(t) <= D.MAX_UINT256
  }

  /** All that evidence has to say for an executable to be accepted, in numbers. */
  predicate Acceptable(core: Core, x: Executable, e: Evidence, k: Constraints) {
    var b := e.body;
    && x.core == core
    && Abi.IsAddress(core.from) && Abi.IsAddress(core.target) && Abi.IsAddress(core.recipient)
    && IsCalldata(core.calldata) && IsUint256(core.amountAtomic)
    && e.evidenceHash == OfEvidence(b)
    && b.candidateHash == OfExecutable(x)
    && b.success
    && (b.fixtureId, b.from, b.to, b.calldata) == (core.fixtureId, core.from, core.target, core.calldata)
    && (b.senderNonce, b.gasLimit, b.maxPriorityFeePerGas, b.maxFeePerGas) ==
      (x.nonce, x.gasLimit, x.maxPriorityFeePerGas, x.maxFeePerGas)
    && b.deltas == [Delta(core.target, core.from, core.recipient, core.amountAtomic)]
    && IsHash(b.blockHash)
    && IsUint256(b.blockNumber) && IsUint256(b.senderNonce) && IsUint256(b.tokenBalance) && IsUint256(b.nativeBalance)
    && IsUint256(b.gasEstimate) && IsUint256(b.gasLimit) && IsUint256(b.baseFeePerGas)
    && IsUint256(b.maxPriorityFeePerGas) && IsUint256(b.maxFeePerGas) && IsUint256(b.maximumFee)
    && D.Value(b.gasEstimate) > 0
    && 11 * D.Value(b.gasEstimate) <= 10 * D.Value(b.gasLimit) < 11 * D.Value(b.gasEstimate) + 10
    && D.Value(b.baseFeePerGas) + D.Value(b.maxPriorityFeePerGas) <= D.Value(b.maxFeePerGas)
    && D.IsCanonical(k.intentMaximum) && D.IsCanonical(k.policyMaximum)
    && D.Value(b.maximumFee) == D.Value(b.gasLimit) * D.Value(b.maxFeePerGas)
    && D.Value(b.maximumFee) <= D.Value(k.intentMaximum)
    && D.Value(b.maximumFee) <= D.Value(k.policyMaximum)
  }

  lemma {:induction false} AmountsInNumbers(b: Body)
    ensures AmountsParse(b) <==>
      && IsUint256(b.blockNumber) && IsUint256(b.senderNonce) && IsUint256(b.tokenBalance) && IsUint256(b.nativeBalance)
      && IsUint256(b.gasEstimate) && IsUint256(b.gasLimit) && IsUint256(b.baseFeePerGas)
      && IsUint256(b.maxPriorityFeePerGas) && IsUint256(b.maxFeePerGas) && IsUint256(b.maximumFee)
  {
    hide D.IsAtomic, D.IsCanonical, D.Value;
    D.AtomicIsUint256(b.blockNumber);
    D.AtomicIsUint256(b.senderNonce);
    D.AtomicIsUint256(b.tokenBalance);
    D.AtomicIsUint256(b.nativeBalance);
    D.AtomicIsUint256(b.gasEstimate);
    D.AtomicIsUint256(b.gasLimit);
    D.AtomicIsUint256(b.baseFeePerGas);
    D.AtomicIsUint256(b.maxPriorityFeePerGas);
    D.AtomicIsUint256(b.maxFeePerGas);
    D.AtomicIsUint256(b.maximumFee);
  }

  /** The executable parses exactly when the core and its numbers do. */
  lemma ExecutableInNumbers(x: Executable)
    ensures ExecutableParses(x) <==>
      && Abi.IsAddress(x.core.from) && Abi.IsAddress(x.core.target) && Abi.IsAddress(x.core.recipient)
      && IsCalldata(x.core.calldata) && IsUint256(x.core.amountAtomic)
      && IsUint256(x.nonce) && IsUint256(x.gasLimit) && IsUint256(x.maxPriorityFeePerGas) && IsUint256(x.maxFeePerGas)
      && D.Value(x.maxPriorityFeePerGas) <= D.Value(x.maxFeePerGas)
  {
    hide D.IsAtomic, D.IsCanonical, D.Value, Abi.IsAddress, IsCalldata;
    D.AtomicIsUint256(x.core.amountAtomic);
    D.AtomicIsUint256(x.nonce);
    D.AtomicIsUint256(x.gasLimit);
    D.AtomicIsUint256(x.maxPriorityFeePerGas);
    D.AtomicIsUint256(x.maxFeePerGas);
  }

  lemma GasInNumbers(estimate: nat, gas: nat)
    ensures estimate > 0 ==> (gas == GasLimit(estimate) <==> 11 * estimate <= 10 * gas < 11 * estimate + 10)
  {}

  lemma OneDelta(core: Core, b: Body)
    requires Abi.IsAddress(core.from) && Abi.IsAddress(core.target) && Abi.IsAddress(core.recipient)
    requires IsUint256(core.amountAtomic)
    ensures b.deltas == [Delta(core.target, core.from, core.recipient, core.amountAtomic)] ==>
      |b.deltas| >= 1 && forall d | d in b.deltas :: DeltaParses(d)
  {
    hide D.IsAtomic, D.IsCanonical, D.Value, Abi.IsAddress;
    D.AtomicIsUint256(core.amountAtomic);
  }

  /** The exact verifier accepts exactly what is acceptable. */
  lemma VerifyIff(core: Core, x: Executable, e: Evidence, k: Constraints)
    ensures Verify(core, x, e, k).Fine? <==> Acceptable(core, x, e, k)
    ensures Verify(core, x, e, k).Fine? ==> Verify(core, x, e, k) == Fine(x)
  {
    hide D.IsAtomic, D.Value, D.Render, D.MinAtomic, Abi.IsAddress, IsCalldata, IsHash, AmountsParse, ExecutableParses,
        GasLimit, DeltaParses;
    var b := e.body;
    AmountsInNumbers(b);
    ExecutableInNumbers(x);
    if ExecutableParses(x) && x.core == core {
      OneDelta(core, b);
    }
    if AmountsParse(b) {
      GasInNumbers(D.Value(b.gasEstimate), D.Value(b.gasLimit));
      if b.gasLimit == x.gasLimit && b.maxFeePerGas == x.maxFeePerGas {
        RenderedIff(b.maximumFee, D.Value(b.gasLimit) * D.Value(b.maxFeePerGas));
      }
    }
    if D.IsCanonical(k.intentMaximum) && D.IsCanonical(k.policyMaximum) {
      D.MinIsNumeric(k.intentMaximum, k.policyMaximum);
    }
  }

  lemma RenderedIff(t: Text, n: nat)
    requires D.IsCanonical(t)
    ensures t == D.Render(n) <==> D.Value(t) == n
  {
    D.CanonicalIsRendered(t);
  }
}
