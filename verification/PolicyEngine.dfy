/** The deterministic policy engine (packages/policy-engine/src/index.ts). */
module PolicyEngine {
  import opened Texts
  import D = Decimal

  // ----- contracts -------------------------------------------------------------------------

  datatype Status = DraftPolicy | ActivePolicy | SupersededPolicy | RevokedPolicy
  datatype Mode = ReadOnly | ReviewRequired | AutonomousWithinPolicy
  datatype ActionName = ReadState | AssetTransfer
  datatype Grade = Onchain | SignerGrade | ControlPlane | Advisory | Unsupported

  /** The asset type has the single value erc20. */
  datatype Asset = Asset(chainId: Text, address: Text)

  datatype Enforcement = Enforcement(budget: Grade, recipient: Grade)

  datatype Policy = Policy(
    policyId: Text, version: nat, status: Status, agentId: Text, walletId: Text, mode: Mode,
    notBefore: int, expiresAt: int,
    chains: seq<Text>, assets: seq<Asset>, recipients: seq<Text>, actions: seq<ActionName>,
    totalAsset: Text, total: Text, perTransaction: Text, maximumFee: Text, minimum: Enforcement)

  datatype Transfer = Transfer(assetAddress: Text, amount: Text, recipient: Text, maximumFee: Text)

  /** transfer is None for wallet.read_state. */
  datatype Intent = Intent(agentId: Text, walletId: Text, chainId: Text, notBefore: int, expiresAt: int,
      transfer: Option<Transfer>)

  datatype Context = Context(evaluatedAt: int, totalSpent: Text, enforcement: Enforcement)

  const MAXIMUM_LIFETIME_SECONDS := 900

  /** What the schemas demand of values that already have the right shape. */
  predicate PolicyParses(p: Policy) {
    && p.version > 0 && p.notBefore < p.expiresAt
    && p.chains != [] && p.assets != [] && p.recipients != [] && p.actions != []
    && D.IsPositiveAtomic(p.total) && D.IsPositiveAtomic(p.perTransaction) && D.IsAtomic(p.maximumFee)
  }

  predicate IntentParses(i: Intent) {
    && i.notBefore < i.expiresAt && i.expiresAt - i.notBefore <= 1000 * MAXIMUM_LIFETIME_SECONDS
    && (i.transfer.Some? ==> D.IsPositiveAtomic(i.transfer.value.amount) && D.IsAtomic(i.transfer.value.maximumFee))
  }

  predicate ContextParses(c: Context) {
    D.IsAtomic(c.totalSpent)
  }

  function Strength(g: Grade): nat {
    match g
    case Onchain => 0
    case SignerGrade => 1
    case ControlPlane => 2
    case Advisory => 3
    case Unsupported => 4
  }

  // ----- decisions -------------------------------------------------------------------------

  datatype RuleName =
    | InputContract | PolicyStatus | SubjectAgent | SubjectWallet | ValidityPolicy | ValidityIntent | ChainAllowlist
    | AssetAllowlist | RecipientAllowlist | ActionAllowlist | ModeRule | BudgetPerTransaction | BudgetTotal
    | NetworkFeeMaximum | EnforcementBudget | EnforcementRecipient

  datatype Result = Pass | Fail | Undetermined

  datatype Rule = Rule(name: RuleName, result: Result)

  datatype Verdict = AllowRead | AllowAutonomous | RequireApproval | Deny

  datatype Decision = Decision(verdict: Verdict, rules: seq<Rule>)

  // ----- what the rules mean, over the true numbers ----------------------------------------

  /** On-chain enforcement is the strongest, then the signer's, then the control plane's, then advice. */
  predicate AtLeast(g: Grade, minimum: Grade) {
    match minimum
    case Onchain => g == Onchain
    case SignerGrade => g in {Onchain, SignerGrade}
    case ControlPlane => g in {Onchain, SignerGrade, ControlPlane}
    case Advisory => g != Unsupported
    case Unsupported => true
  }

  predicate Within(at: int, notBefore: int, expiresAt: int) {
    notBefore <= at < expiresAt
  }

  predicate Satisfied(rule: RuleName, p: Policy, i: Intent, c: Context)
    requires PolicyParses(p) && IntentParses(i) && ContextParses(c)
  {
    match rule
    case InputContract => true
    case PolicyStatus => p.status == ActivePolicy
    case SubjectAgent => i.agentId == p.agentId
    case SubjectWallet => i.walletId == p.walletId
    case ValidityPolicy => p.notBefore <= c.evaluatedAt < p.expiresAt
    case ValidityIntent => i.notBefore <= c.evaluatedAt < i.expiresAt
    case ChainAllowlist => i.chainId in p.chains
    case AssetAllowlist => i.transfer.Some? ==> Asset(i.chainId, i.transfer.value.assetAddress) in p.assets
    case RecipientAllowlist => i.transfer.Some? ==> i.transfer.value.recipient in p.recipients
    case ActionAllowlist => (if i.transfer.Some? then AssetTransfer else ReadState) in p.actions
    case ModeRule => i.transfer.Some? ==> p.mode != ReadOnly
    case BudgetPerTransaction => i.transfer.Some? ==> D.Value(i.transfer.value.amount) <= D.Value(p.perTransaction)
    case BudgetTotal =>
      i.transfer.Some? ==>
        i.transfer.value.assetAddress == p.totalAsset
          && D.Value(c.totalSpent) + D.Value(i.transfer.value.amount) <= D.Value(p.total)
    case NetworkFeeMaximum => i.transfer.Some? ==> D.Value(i.transfer.value.maximumFee) <= D.Value(p.maximumFee)
    case EnforcementBudget => AtLeast(c.enforcement.budget, p.minimum.budget)
    case EnforcementRecipient => AtLeast(c.enforcement.recipient, p.minimum.recipient)
  }

  const RULES := [PolicyStatus, SubjectAgent, SubjectWallet, ValidityPolicy, ValidityIntent, ChainAllowlist,
    AssetAllowlist,
                  RecipientAllowlist, ActionAllowlist, ModeRule, BudgetPerTransaction, BudgetTotal, NetworkFeeMaximum,
                  EnforcementBudget, EnforcementRecipient]

  /** Every condition of the policy holds. */
  predicate Complies(p: Policy, i: Intent, c: Context)
    requires PolicyParses(p) && IntentParses(i) && ContextParses(c)
  {
    forall r: RuleName :: Satisfied(r, p, i, c)
  }

  // ----- the code under study --------------------------------------------------------------

  function Outcome(name: RuleName, passes: bool): Rule {
    Rule(name, if passes then Pass else Fail)
  }

  /** A list of allowed assets, searched in order. */
  method AllowsAsset(allow: seq<Asset>, chainId: Text, address: Text) returns (found: bool)
    ensures found <==> Asset(chainId, address) in allow
  {
    for n := 0 to |allow|
      invariant Asset(chainId, address) !in allow[..n]
    {
      if allow[n].chainId == chainId && allow[n].address == address {
        return true;
      }
    }
    assert allow[..|allow|] == allow;
    return false;
  }

  /** The remaining budget is computed as text; it bounds the amount exactly as the true difference would. */
  method FitsRemaining(total: Text, spent: Text, amount: Text) returns (fits: bool)
    requires D.IsCanonical(total) && D.IsCanonical(spent) && D.IsCanonical(amount) && D.Value(amount) > 0
    ensures fits <==> D.Value(spent) + D.Value(amount) <= D.Value(total)
  {
    var remaining := D.Subtract(total, spent);
    D.CompareIsNumeric(amount, remaining);
    fits := D.AtMost(amount, remaining);
  }

  /** The rules pushed so far, in order, each with the result it should have. */
  predicate Judged(rules: seq<Rule>, p: Policy, i: Intent, c: Context)
    requires PolicyParses(p) && IntentParses(i) && ContextParses(c)
  {
    && |rules| <= |RULES|
    && forall n :: 0 <= n < |rules| ==> rules[n] == Outcome(RULES[n], Satisfied(RULES[n], p, i, c))
  }

  lemma Pushed(rules: seq<Rule>, name: RuleName, passes: bool, p: Policy, i: Intent, c: Context)
    requires PolicyParses(p) && IntentParses(i) && ContextParses(c) && Judged(rules, p, i, c)
    requires name != InputContract && RuleIndex(name) == |rules| && passes == Satisfied(name, p, i, c)
    ensures Judged(rules + [Outcome(name, passes)], p, i, c)
  {
    hide RULES, Satisfied, PolicyParses, IntentParses, ContextParses;
  }

  /** Who asks, when, and on which chain. */
  method EvaluateSubject(p: Policy, i: Intent, c: Context) returns (rules: seq<Rule>)
    requires PolicyParses(p) && IntentParses(i) && ContextParses(c)
    ensures |rules| == 6 && Judged(rules, p, i, c)
  {
    hide RULES, PolicyParses, IntentParses, ContextParses;
    rules := [];
    Pushed(rules, PolicyStatus, p.status == ActivePolicy, p, i, c);
    rules := rules + [Outcome(PolicyStatus, p.status == ActivePolicy)];
    Pushed(rules, SubjectAgent, i.agentId == p.agentId, p, i, c);
    rules := rules + [Outcome(SubjectAgent, i.agentId == p.agentId)];
    Pushed(rules, SubjectWallet, i.walletId == p.walletId, p, i, c);
    rules := rules + [Outcome(SubjectWallet, i.walletId == p.walletId)];
    var policyValid := Within(c.evaluatedAt, p.notBefore, p.expiresAt);
    Pushed(rules, ValidityPolicy, policyValid, p, i, c);
    rules := rules + [Outcome(ValidityPolicy, policyValid)];
    var intentValid := Within(c.evaluatedAt, i.notBefore, i.expiresAt);
    Pushed(rules, ValidityIntent, intentValid, p, i, c);
    rules := rules + [Outcome(ValidityIntent, intentValid)];
    Pushed(rules, ChainAllowlist, i.chainId in p.chains, p, i, c);
    rules := rules + [Outcome(ChainAllowlist, i.chainId in p.chains)];
  }

  /** What is asked for. */
  method EvaluateAction(before: seq<Rule>, p: Policy, i: Intent, c: Context) returns (rules: seq<Rule>)
    requires PolicyParses(p) && IntentParses(i) && ContextParses(c) && |before| == 6 && Judged(before, p, i, c)
    ensures |rules| == 10 && Judged(rules, p, i, c)
  {
    hide RULES, PolicyParses, IntentParses, ContextParses;
    var asset := true;
    if i.transfer.Some? {
      asset := AllowsAsset(p.assets, i.chainId, i.transfer.value.assetAddress);
    }
    Pushed(before, AssetAllowlist, asset, p, i, c);
    rules := before + [Outcome(AssetAllowlist, asset)];
    var recipient := i.transfer.None? || i.transfer.value.recipient in p.recipients;
    Pushed(rules, RecipientAllowlist, recipient, p, i, c);
    rules := rules + [Outcome(RecipientAllowlist, recipient)];
    var action := (if i.transfer.Some? then AssetTransfer else ReadState) in p.actions;
    Pushed(rules, ActionAllowlist, action, p, i, c);
    rules := rules + [Outcome(ActionAllowlist, action)];
    var mode := p.mode != ReadOnly || i.transfer.None?;
    Pushed(rules, ModeRule, mode, p, i, c);
    rules := rules + [Outcome(ModeRule, mode)];
  }

  /** What it may cost. */
  method EvaluateBudget(before: seq<Rule>, p: Policy, i: Intent, c: Context) returns (rules: seq<Rule>)
    requires PolicyParses(p) && IntentParses(i) && ContextParses(c) && |before| == 10 && Judged(before, p, i, c)
    ensures |rules| == 13 && Judged(rules, p, i, c)
  {
    hide RULES, D.IsAtomic, D.IsPositiveAtomic, D.IsCanonical, D.AtMost, D.Value;
    Numbers(p, i, c);
    var perTransaction := i.transfer.None? || D.AtMost(i.transfer.value.amount, p.perTransaction);
    Pushed(before, BudgetPerTransaction, perTransaction, p, i, c);
    rules := before + [Outcome(BudgetPerTransaction, perTransaction)];
    var total, fee := true, true;
    if i.transfer.Some? {
      var fits := FitsRemaining(p.total, c.totalSpent, i.transfer.value.amount);
      total := i.transfer.value.assetAddress == p.totalAsset && fits;
      fee := D.AtMost(i.transfer.value.maximumFee, p.maximumFee);
    }
    Pushed(rules, BudgetTotal, total, p, i, c);
    rules := rules + [Outcome(BudgetTotal, total)];
    Pushed(rules, NetworkFeeMaximum, fee, p, i, c);
    rules := rules + [Outcome(NetworkFeeMaximum, fee)];
  }

  method EvaluateRules(p: Policy, i: Intent, c: Context) returns (rules: seq<Rule>)
    requires PolicyParses(p) && IntentParses(i) && ContextParses(c)
    ensures |rules| == |RULES| && Judged(rules, p, i, c)
  {
    hide PolicyParses, IntentParses, ContextParses, Judged;
    rules := EvaluateSubject(p, i, c);
    rules := EvaluateAction(rules, p, i, c);
    rules := EvaluateBudget(rules, p, i, c);
    var budget := Strength(c.enforcement.budget) <= Strength(p.minimum.budget);
    Pushed(rules, EnforcementBudget, budget, p, i, c);
    rules := rules + [Outcome(EnforcementBudget, budget)];
    var recipient := Strength(c.enforcement.recipient) <= Strength(p.minimum.recipient);
    Pushed(rules, EnforcementRecipient, recipient, p, i, c);
    rules := rules + [Outcome(EnforcementRecipient, recipient)];
  }

  /** The amounts that passed the schemas are canonical, and comparing their texts compares their values. */
  lemma Numbers(p: Policy, i: Intent, c: Context)
    requires PolicyParses(p) && IntentParses(i) && ContextParses(c)
    ensures D.IsCanonical(p.total) && D.IsCanonical(p.perTransaction) && D.IsCanonical(p.maximumFee)
      && D.IsCanonical(c.totalSpent)
    ensures i.transfer.Some? ==>
      && D.IsCanonical(i.transfer.value.amount) && D.IsCanonical(i.transfer.value.maximumFee)
        && D.Value(i.transfer.value.amount) > 0
      && (D.AtMost(i.transfer.value.amount, p.perTransaction) <==>
        D.Value(i.transfer.value.amount) <= D.Value(p.perTransaction))
      && (D.AtMost(i.transfer.value.maximumFee, p.maximumFee) <==>
        D.Value(i.transfer.value.maximumFee) <= D.Value(p.maximumFee))
  {
    D.AtomicIsUint256(p.total);
    D.AtomicIsUint256(p.perTransaction);
    D.AtomicIsUint256(p.maximumFee);
    D.AtomicIsUint256(c.totalSpent);
    if i.transfer.Some? {
      D.AtomicIsUint256(i.transfer.value.amount);
      D.AtomicIsUint256(i.transfer.value.maximumFee);
      D.CompareIsNumeric(i.transfer.value.amount, p.perTransaction);
      D.CompareIsNumeric(i.transfer.value.maximumFee, p.maximumFee);
    }
  }

  /** rules.some(({ result }) => result !== "pass"). */
  predicate HasFailure(rules: seq<Rule>) {
    exists n :: 0 <= n < |rules| && rules[n].result != Pass
  }

  /** An input without the right shape is None. */
  predicate WellFormed(p: Option<Policy>, i: Option<Intent>, c: Option<Context>) {
    p.Some? && PolicyParses(p.value) && i.Some? && IntentParses(i.value) && c.Some? && ContextParses(c.value)
  }

  predicate IsAmount(t: Text) {
    D.IsCanonical(t) && D.Value(t) <= D.MAX_UINT256
  }

  predicate IsPositive(t: Text) {
    IsAmount(t) && D.Value(t) > 0
  }

  /** A policy, an intent and a context that say what they must, in numbers. */
  predicate Stated(policy: Option<Policy>, intent: Option<Intent>, context: Option<Context>) {
    && policy.Some? && intent.Some? && context.Some?
    && var p, i, c := policy.value, intent.value, context.value;
    && p.version >= 1
    && p.notBefore < p.expiresAt
    && |p.chains| >= 1 && |p.assets| >= 1 && |p.recipients| >= 1 && |p.actions| >= 1
    && IsPositive(p.total) && IsPositive(p.perTransaction) && IsAmount(p.maximumFee)
    && 0 < i.expiresAt - i.notBefore <= 900000
    && (i.transfer.Some? ==> IsPositive(i.transfer.value.amount) && IsAmount(i.transfer.value.maximumFee))
    && IsAmount(c.totalSpent)
  }

  /** Inputs are well-formed exactly when they say what they must. */
  lemma WellFormedIff(policy: Option<Policy>, intent: Option<Intent>, context: Option<Context>)
    ensures WellFormed(policy, intent, context) <==> Stated(policy, intent, context)
  {
    hide D.IsAtomic, D.IsPositiveAtomic, D.IsCanonical, D.Value;
    if policy.Some? && intent.Some? && context.Some? {
      var p, i := policy.value, intent.value;
      D.AtomicIsUint256(p.total);
      D.AtomicIsUint256(p.perTransaction);
      D.AtomicIsUint256(p.maximumFee);
      D.AtomicIsUint256(context.value.totalSpent);
      if i.transfer.Some? {
        D.AtomicIsUint256(i.transfer.value.amount);
        D.AtomicIsUint256(i.transfer.value.maximumFee);
      }
    }
  }

  /** Where a rule stands in the list. */
  function RuleIndex(r: RuleName): (n: nat)
    requires r != InputContract
    ensures n < |RULES| && RULES[n] == r
  {
    match r
    case PolicyStatus => 0
    case SubjectAgent => 1
    case SubjectWallet => 2
    case ValidityPolicy => 3
    case ValidityIntent => 4
    case ChainAllowlist => 5
    case AssetAllowlist => 6
    case RecipientAllowlist => 7
    case ActionAllowlist => 8
    case ModeRule => 9
    case BudgetPerTransaction => 10
    case BudgetTotal => 11
    case NetworkFeeMaximum => 12
    case EnforcementBudget => 13
    case EnforcementRecipient => 14
  }

  /** No rule fails exactly when the intent complies. */
  lemma FailureIsNoncompliance(p: Policy, i: Intent, c: Context, rules: seq<Rule>)
    requires PolicyParses(p) && IntentParses(i) && ContextParses(c) && |rules| == |RULES| && Judged(rules, p, i, c)
    ensures HasFailure(rules) <==> !Complies(p, i, c)
  {
    hide Satisfied, RULES, PolicyParses, IntentParses, ContextParses, RuleIndex;
    if !HasFailure(rules) {
      forall r: RuleName ensures Satisfied(r, p, i, c) {
        if r == InputContract {
          ContractSatisfied(p, i, c);
        } else {
          assert rules[RuleIndex(r)].result == Pass;
        }
      }
    } else {
      var n :| 0 <= n < |rules| && rules[n].result != Pass;
      assert !Satisfied(RULES[n], p, i, c);
    }
  }

  lemma ContractSatisfied(p: Policy, i: Intent, c: Context)
    requires PolicyParses(p) && IntentParses(i) && ContextParses(c)
    ensures Satisfied(InputContract, p, i, c)
  {}

  /**
   A well-formed transfer is allowed, autonomously or subject to approval as the policy's mode
   says, exactly when it complies; whatever is malformed is denied.
   */
  method Evaluate(policy: Option<Policy>, intent: Option<Intent>, context: Option<Context>) returns (d: Decision)
    ensures !WellFormed(policy, intent, context) ==> d == Decision(Deny, [Rule(InputContract, Undetermined)])
    ensures WellFormed(policy, intent, context) ==>
      var p, i, c := policy.value, intent.value, context.value;
      && (d.verdict == Deny <==> !Complies(p, i, c))
      && (d.verdict == AllowRead <==> Complies(p, i, c) && i.transfer.None?)
      && (d.verdict == RequireApproval <==> Complies(p, i, c) && i.transfer.Some? && p.mode == ReviewRequired)
      && (d.verdict == AllowAutonomous <==> Complies(p, i, c) && i.transfer.Some? && p.mode == AutonomousWithinPolicy)
  {
    hide Satisfied, RULES, PolicyParses, IntentParses, ContextParses, D.IsAtomic, D.IsPositiveAtomic;
    if !WellFormed(policy, intent, context) {
      return Decision(Deny, [Rule(InputContract, Undetermined)]);
    }
    var p, i, c := policy.value, intent.value, context.value;
    var rules := EvaluateRules(p, i, c);
    FailureIsNoncompliance(p, i, c, rules);
    var verdict :=
      if HasFailure(rules) then Deny
      else if i.transfer.None? then AllowRead
      else if p.mode == ReviewRequired then RequireApproval
      else AllowAutonomous;
    if Complies(p, i, c) {
      CompliantMode(p, i, c);
    }
    d := Decision(verdict, rules);
  }

  /** A compliant transfer is never under a read-only policy. */
  lemma CompliantMode(p: Policy, i: Intent, c: Context)
    requires PolicyParses(p) && IntentParses(i) && ContextParses(c) && Complies(p, i, c)
    ensures i.transfer.Some? ==> p.mode != ReadOnly
  {
    assert Satisfied(ModeRule, p, i, c);
  }

  /** What compliance means for the money of a transfer, including when the budget is already overspent. */
  lemma CompliantMoney(p: Policy, i: Intent, c: Context)
    requires PolicyParses(p) && IntentParses(i) && ContextParses(c) && Complies(p, i, c) && i.transfer.Some?
    ensures D.IsCanonical(c.totalSpent) && D.IsCanonical(p.total) && D.IsCanonical(p.perTransaction)
      && D.IsCanonical(p.maximumFee)
    ensures D.IsCanonical(i.transfer.value.amount) && D.IsCanonical(i.transfer.value.maximumFee)
    ensures D.Value(c.totalSpent) + D.Value(i.transfer.value.amount) <= D.Value(p.total)
    ensures 0 < D.Value(i.transfer.value.amount) <= D.Value(p.perTransaction)
    ensures D.Value(i.transfer.value.maximumFee) <= D.Value(p.maximumFee)
    ensures D.Value(c.totalSpent) < D.Value(p.total)
  {
    Numbers(p, i, c);
    assert Satisfied(BudgetTotal, p, i, c) && Satisfied(BudgetPerTransaction, p, i, c)
      && Satisfied(NetworkFeeMaximum, p, i, c);
  }
}
