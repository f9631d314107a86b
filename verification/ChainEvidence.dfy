/**
 Checking untrusted chain evidence against the authority to execute
 (packages/transaction-pipeline/src/chain-evidence.ts).
 */
module ChainEvidence {
  import opened Texts
  import opened Hex
  import D = Decimal
  import Abi = TransferAbi

  // ----- untrusted values ------------------------------------------------------------------

  datatype Field =
    | HashField | ChainIdField | BlockHashField | BlockNumberField | TransactionIndexField | FromField | ToField
      | ValueField
    | InputField | NonceField | TypeField | GasField | MaxPriorityFeeField | MaxFeeField | AccessListField
    | TransactionHashField | StatusField | GasUsedField | EffectiveGasPriceField | LogsField
    | AddressField | TopicsField | DataField | LogIndexField | RemovedField | NumberField

  /** A JavaScript value, as far as the checker can tell values apart. */
  datatype Js = Undefined | Null | Truth(b: bool) | Str(text: Text) | Big(n: int) | List(items: seq<Js>)
      | Rec(fields: map<Field, Js>) | Other

  function Get(v: Js, f: Field): Js {
    if v.Rec? && f in v.fields then v.fields[f] else Undefined
  }

  predicate IsHash(v: Js) { v.Str? && IsHashText(v.text) }
  predicate IsHashText(t: Text) { |t| == 66 && Abi.IsPrefixedHex(t) }
  predicate IsAddress(v: Js) { v.Str? && Abi.IsAddress(v.text) }
  predicate IsHexBytes(v: Js) { v.Str? && Abi.IsPrefixedHex(v.text) && |v.text| % 2 == 0 }
  predicate IsAmount(v: Js) { v.Big? && v.n >= 0 }
  predicate IsMissing(v: Js) { v.Null? || v.Undefined? }

  datatype Transaction = Transaction(
    hash: Text, chainId: nat, blockHash: Text, blockNumber: nat, from: Text, to: Text, value: nat, input: Text,
    nonce: nat, kind: Text, gas: nat, maxPriorityFeePerGas: nat, maxFeePerGas: nat, accessList: seq<Js>)

  datatype Log = Log(
    address: Text, topics: seq<Text>, data: Text, logIndex: nat, transactionHash: Text, blockHash: Text,
      blockNumber: nat, removed: bool)

  datatype Receipt = Receipt(
    transactionHash: Text, blockHash: Text, blockNumber: nat, status: Text, gasUsed: nat, effectiveGasPrice: nat,
    logs: seq<Log>, malformedLog: bool)

  datatype Block = Block(number: nat, hash: Text)

  function ParseTransaction(v: Js): Option<Transaction> {
    var index := Get(v, TransactionIndexField);
    if
      && IsHash(Get(v, HashField)) && IsAmount(Get(v, ChainIdField)) && IsHash(Get(v, BlockHashField))
        && IsAmount(Get(v, BlockNumberField))
      && (index.Undefined? || IsAmount(index))
      && IsAddress(Get(v, FromField)) && IsAddress(Get(v, ToField)) && IsAmount(Get(v, ValueField))
        && IsHexBytes(Get(v, InputField))
      && IsAmount(Get(v, NonceField)) && Get(v, TypeField).Str? && IsAmount(Get(v, GasField))
      && IsAmount(Get(v, MaxPriorityFeeField)) && IsAmount(Get(v, MaxFeeField)) && Get(v, AccessListField).List?
    then Some(Transaction(
      Get(v, HashField).text, Get(v, ChainIdField).n, Get(v, BlockHashField).text, Get(v, BlockNumberField).n,
      Get(v, FromField).text, Get(v, ToField).text, Get(v, ValueField).n, Get(v, InputField).text, Get(v, NonceField).n,
      Get(v, TypeField).text, Get(v, GasField).n, Get(v, MaxPriorityFeeField).n, Get(v, MaxFeeField).n,
        Get(v, AccessListField).items))
    else None
  }

  function ParseLog(v: Js): Option<Log> {
    var topics := Get(v, TopicsField);
    if
      && topics.List? && (forall i :: 0 <= i < |topics.items| ==> IsHash(topics.items[i]))
      && IsAddress(Get(v, AddressField)) && IsHexBytes(Get(v, DataField)) && IsAmount(Get(v, LogIndexField))
      && IsHash(Get(v, TransactionHashField)) && IsHash(Get(v, BlockHashField)) && IsAmount(Get(v, BlockNumberField))
      && Get(v, RemovedField).Truth?
    then Some(Log(
      Get(v, AddressField).text, TopicTexts(topics.items), Get(v, DataField).text, Get(v, LogIndexField).n,
      Get(v, TransactionHashField).text, Get(v, BlockHashField).text, Get(v, BlockNumberField).n,
        Get(v, RemovedField).b))
    else None
  }

  function TopicTexts(topics: seq<Js>): (ts: seq<Text>)
    requires forall i :: 0 <= i < |topics| ==> IsHash(topics[i])
    ensures |ts| == |topics| && forall i :: 0 <= i < |ts| ==> Str(ts[i]) == topics[i]
  {
    if topics == [] then []
    else
      assert IsHash(topics[0]);
      [topics[0].text] + TopicTexts(topics[1..])
  }

  /** The logs that parse, in order. */
  function ParsedLogs(vs: seq<Js>): seq<Log> {
    if vs == [] then []
    else
      var log := ParseLog(vs[0]);
      if log.None? then ParsedLogs(vs[1..]) else [log.value] + ParsedLogs(vs[1..])
  }

  function ParseReceipt(v: Js): Option<Receipt> {
    var logs := Get(v, LogsField);
    if
      && logs.List?
      && IsHash(Get(v, TransactionHashField)) && IsHash(Get(v, BlockHashField)) && IsAmount(Get(v, BlockNumberField))
      && Get(v, StatusField).Str? && IsAmount(Get(v, GasUsedField)) && IsAmount(Get(v, EffectiveGasPriceField))
    then Some(Receipt(
      Get(v, TransactionHashField).text, Get(v, BlockHashField).text, Get(v, BlockNumberField).n,
        Get(v, StatusField).text,
      Get(v, GasUsedField).n, Get(v, EffectiveGasPriceField).n, ParsedLogs(logs.items), exists l | l in logs.items ::
        ParseLog(l).None?))
    else None
  }

  function ParseBlock(v: Js): Option<Block> {
    if IsAmount(Get(v, NumberField)) && IsHash(Get(v, HashField))
      then Some(Block(Get(v, NumberField).n, Get(v, HashField).text)) else None
  }

  // ----- trusted bindings ------------------------------------------------------------------

  datatype Delta = Delta(asset: Text, from: Text, to: Text, amountAtomic: Text)

  /** hashMatches says whether the envelope hashes to the hash it carries. */
  datatype Envelope = Envelope(
    envelopeId: Text, revision: nat, hash: Text, hashMatches: bool, reservationId: Text, from: Text, to: Text,
      value: Text,
    calldata: Text, recipient: Text, amountAtomic: Text, nonce: Text, kind: Text, gasLimit: Text,
      maxPriorityFeePerGas: Text,
    maxFeePerGas: Text, deltas: seq<Delta>)

  /** wellShaped says whether the identifiers and the endpoint have the form they must have. */
  datatype Expectation = Expectation(
    wellShaped: bool, reservationId: Text, envelopeId: Text, envelopeRevision: nat, envelopeHash: Text,
      fixtureInstanceId: Text,
    expectedTransactionHash: Text, fixtureId: Text, walletAddress: Text, tokenAddress: Text, envelope: Envelope)

  datatype Evidence = Evidence(transaction: Js, receipt: Js, blockByNumber: Js, blockByHash: Js)

  /** The amounts of a canonical envelope. */
  predicate EnvelopeParses(e: Envelope) {
    && D.IsAtomic(e.nonce) && D.IsAtomic(e.gasLimit) && D.IsAtomic(e.maxPriorityFeePerGas) && D.IsAtomic(e.maxFeePerGas)
    && D.IsCanonical(e.value)
  }

  predicate ShapeHolds(x: Expectation) {
    && x.wellShaped
    && IsHashText(x.expectedTransactionHash) && Abi.IsAddress(x.walletAddress) && Abi.IsAddress(x.tokenAddress)
  }

  predicate EnvelopeBinds(x: Expectation) {
    var e := x.envelope;
    && EnvelopeParses(e)
    && (x.envelopeId, x.envelopeRevision, x.envelopeHash, x.reservationId) ==
      (e.envelopeId, e.revision, e.hash, e.reservationId)
    && e.hashMatches
    && (e.from, e.to) == (x.walletAddress, x.tokenAddress)
    && e.value == [48]
    && e.deltas == [Delta(e.to, e.from, e.recipient, e.amountAtomic)]
    && Abi.Decode(Some(e.calldata)) == Abi.Decoded(e.recipient, e.amountAtomic)
  }

  // ----- Transfer events -------------------------------------------------------------------

  const TRANSFER_EVENT_SIGNATURE: Text :=
    Abi.PREFIX + HexDigits(0xddf252ad_1be2c89b_69c2b068_fc378daa_952ba7f1_63c4a116_28f55a4d_f523b3ef, 64)

  datatype TransferEvent = TransferEvent(token: Text, from: Text, to: Text, amountAtomic: Text)

  predicate IsTransferLog(log: Log) {
    |log.topics| > 0 && log.topics[0] == TRANSFER_EVENT_SIGNATURE
  }

  function TopicAddress(topic: Text): Option<Text> {
    if |topic| >= 26 && topic[..26] == Abi.PREFIX + Abi.Zeros(24) && Abi.IsAddress(Abi.PREFIX + topic[26..])
    then Some(Abi.PREFIX + topic[26..]) else None
  }

  function TransferFromLog(log: Log): Option<TransferEvent> {
    if !IsTransferLog(log) || |log.topics| != 3 || |log.data| != 66 then None
    else
      var from, to := TopicAddress(log.topics[1]), TopicAddress(log.topics[2]);
      if from.None? || to.None? || !IsHashText(log.data) then None
      else Some(TransferEvent(log.address, from.value, to.value, D.Render(HexValue(log.data[2..]))))
  }

  /** An address as an indexed event argument. */
  function AddressTopic(address: Text): Text
    requires Abi.IsAddress(address)
  {
    Abi.PREFIX + Abi.Zeros(24) + address[2..]
  }

  /** The log is the Transfer event of EIP-20 with these arguments. */
  predicate Emits(log: Log, t: TransferEvent) {
    && log.address == t.token
    && Abi.IsAddress(t.from) && Abi.IsAddress(t.to) && D.IsCanonical(t.amountAtomic)
      && D.Value(t.amountAtomic) <= D.MAX_UINT256
    && log.topics == [TRANSFER_EVENT_SIGNATURE, AddressTopic(t.from), AddressTopic(t.to)]
    && log.data == Abi.PREFIX + HexDigits(D.Value(t.amountAtomic), 64)
  }

  lemma TopicOfAddress(address: Text)
    requires Abi.IsAddress(address)
    ensures TopicAddress(AddressTopic(address)) == Some(address)
  {
    var topic := AddressTopic(address);
    assert topic[..26] == Abi.PREFIX + Abi.Zeros(24) && topic[26..] == address[2..];
    assert address == Abi.PREFIX + address[2..];
  }

  lemma TopicAddressInverse(topic: Text, address: Text)
    ensures TopicAddress(topic) == Some(address) <==> Abi.IsAddress(address) && topic == AddressTopic(address)
  {
    if Abi.IsAddress(address) {
      TopicOfAddress(address);
    }
    if TopicAddress(topic) == Some(address) {
      assert topic == topic[..26] + topic[26..] && address[2..] == topic[26..];
    }
  }

  /** Reading a transfer off a log inverts emitting it. */
  lemma TransferFromLogInverse(log: Log, t: TransferEvent)
    ensures TransferFromLog(log) == Some(t) <==> Emits(log, t)
  {
    hide TopicAddress, AddressTopic, HexDigits, HexValue, D.Render, D.Value;
    if |log.topics| == 3 {
      TopicAddressInverse(log.topics[1], t.from);
      TopicAddressInverse(log.topics[2], t.to);
    }
    DataInverse(log.data, t.amountAtomic);
  }

  lemma DataInverse(data: Text, amountAtomic: Text)
    ensures (IsHashText(data) && D.Render(HexValue(data[2..])) == amountAtomic) <==>
      && D.IsCanonical(amountAtomic) && D.Value(amountAtomic) <= D.MAX_UINT256
      && data == Abi.PREFIX + HexDigits(D.Value(amountAtomic), 64)
  {
    hide HexDigits, HexValue, D.Render, D.Value;
    if IsHashText(data) {
      ReadWord(data);
    }
    if D.IsCanonical(amountAtomic) && D.Value(amountAtomic) <= D.MAX_UINT256 {
      WrittenWord(amountAtomic);
    }
  }

  lemma ReadWord(data: Text)
    requires IsHashText(data)
    ensures HexValue(data[2..]) <= D.MAX_UINT256 && data == Abi.PREFIX + HexDigits(HexValue(data[2..]), 64)
  {
    hide HexDigits, HexValue;
    Abi.WordHoldsUint256();
    ValueDigits(data[2..]);
    assert data == Abi.PREFIX + data[2..];
  }

  lemma WrittenWord(amountAtomic: Text)
    requires D.IsCanonical(amountAtomic) && D.Value(amountAtomic) <= D.MAX_UINT256
    ensures var data := Abi.PREFIX + HexDigits(D.Value(amountAtomic), 64);
      IsHashText(data) && D.Render(HexValue(data[2..])) == amountAtomic
  {
    hide HexDigits, HexValue, D.Render, D.Value;
    var data := Abi.PREFIX + HexDigits(D.Value(amountAtomic), 64);
    Abi.WordHoldsUint256();
    assert data[2..] == HexDigits(D.Value(amountAtomic), 64) && data[..2] == Abi.PREFIX;
    DigitsValue(D.Value(amountAtomic), 64);
    D.CanonicalIsRendered(amountAtomic);
  }

  // ----- the match the checker decides -----------------------------------------------------

  const SUCCESS: Text := Lit("success")
  const REVERTED: Text := Lit("reverted")

  /** The transaction does what the envelope says. */
  predicate CallMatches(x: Expectation, t: Transaction)
    requires EnvelopeParses(x.envelope)
  {
    var e := x.envelope;
    && t.hash == x.expectedTransactionHash && t.chainId == 31337
    && (t.from, t.to, t.input) == (e.from, e.to, e.calldata)
    && t.value == D.Value(e.value)
  }

  /** It does so on the terms the envelope sets. */
  predicate TermsMatch(x: Expectation, t: Transaction)
    requires EnvelopeParses(x.envelope)
  {
    var e := x.envelope;
    && t.nonce == D.Value(e.nonce) && t.kind == e.kind && t.gas == D.Value(e.gasLimit)
    && t.maxPriorityFeePerGas == D.Value(e.maxPriorityFeePerGas) && t.maxFeePerGas == D.Value(e.maxFeePerGas)
    && t.accessList == []
  }

  /** The transaction is the one the envelope describes. */
  predicate TransactionMatches(x: Expectation, t: Transaction)
    requires EnvelopeParses(x.envelope)
  {
    CallMatches(x, t) && TermsMatch(x, t)
  }

  /** Transaction, receipt and both readings of the block are about the same place in the chain. */
  predicate PlacesMatch(x: Expectation, t: Transaction, r: Receipt, b: Block, c: Block) {
    && Block(t.blockNumber, t.blockHash) == b && b == c
    && r.transactionHash == t.hash == x.expectedTransactionHash
    && (r.blockNumber, r.blockHash) == (t.blockNumber, t.blockHash)
    && r.gasUsed <= t.gas
  }

  predicate LogIsOf(log: Log, t: Transaction) {
    !log.removed && (log.transactionHash, log.blockHash, log.blockNumber) == (t.hash, t.blockHash, t.blockNumber)
  }

  function ExpectedTransfer(e: Envelope): TransferEvent {
    TransferEvent(e.to, e.from, e.recipient, e.amountAtomic)
  }

  /** One log, the expected Transfer, after success; no log after a revert. */
  predicate LogsMatch(x: Expectation, t: Transaction, r: Receipt) {
    && !r.malformedLog
    && (|| (r.status == SUCCESS && |r.logs| == 1 && LogIsOf(r.logs[0], t)
      && Emits(r.logs[0], ExpectedTransfer(x.envelope)))
        || (r.status == REVERTED && r.logs == []))
  }

  predicate Matches(x: Expectation, v: Evidence) {
    && ShapeHolds(x) && EnvelopeBinds(x) && x.fixtureId == x.fixtureInstanceId
    && var t, r, b, c := ParseTransaction(v.transaction), ParseReceipt(v.receipt), ParseBlock(v.blockByNumber),
      ParseBlock(v.blockByHash);
    && t.Some? && r.Some? && b.Some? && c.Some?
    && TransactionMatches(x, t.value)
    && PlacesMatch(x, t.value, r.value, b.value, c.value)
    && LogsMatch(x, t.value, r.value)
  }

  // ----- the checker -----------------------------------------------------------------------

  datatype Issue =
    | InvalidExpectation | EnvelopeInvalid | FixtureMismatch | TransactionMissing | ReceiptMissing
      | MalformedTransaction | MalformedReceipt
    | MalformedLog | CanonicalBlockMissing | MalformedBlock | TransactionHashMismatch | TransactionChainMismatch
      | TransactionFromMismatch
    | TransactionToMismatch | TransactionInputMismatch | TransactionValueMismatch | TransactionNonceMismatch
      | TransactionTypeMismatch
    | TransactionGasMismatch | TransactionPriorityFeeMismatch | TransactionMaxFeeMismatch
      | TransactionAccessListMismatch
    | TransactionBlockMismatch | CanonicalBlockMismatch | ReceiptHashMismatch | ReceiptBlockMismatch | ReceiptGasInvalid
    | ReceiptStatusInvalid | RevertedReceiptHasLogs | TransferMissing | TransferDuplicate | TransferMalformed
      | UnexpectedLog
    | ReceiptLogCountMismatch | TransferMismatch

  datatype Verified = Verified(success: bool, transactionHash: Text, from: Text, to: Text, nativeFee: nat,
      tokenSpend: Text, transfer: Option<TransferEvent>)

  datatype Verdict = Accepted(verified: Verified) | Rejected(issues: seq<Issue>)

  method CheckCall(before: seq<Issue>, x: Expectation, t: Transaction) returns (issues: seq<Issue>)
    requires EnvelopeParses(x.envelope)
    ensures before <= issues
    ensures issues == before <==> CallMatches(x, t)
  {
    hide D.IsAtomic, D.Value;
    var e := x.envelope;
    issues := before;
    if t.hash != x.expectedTransactionHash { issues := issues + [TransactionHashMismatch]; }
    if t.chainId != 31337 { issues := issues + [TransactionChainMismatch]; }
    if t.from != e.from { issues := issues + [TransactionFromMismatch]; }
    if t.to != e.to { issues := issues + [TransactionToMismatch]; }
    if t.input != e.calldata { issues := issues + [TransactionInputMismatch]; }
    if t.value != D.Value(e.value) { issues := issues + [TransactionValueMismatch]; }
  }

  method CheckTerms(before: seq<Issue>, x: Expectation, t: Transaction) returns (issues: seq<Issue>)
    requires EnvelopeParses(x.envelope)
    ensures before <= issues
    ensures issues == before <==> TermsMatch(x, t)
  {
    hide D.IsAtomic, D.Value;
    Amounts(x.envelope);
    var e := x.envelope;
    issues := before;
    if t.nonce != D.Value(e.nonce) { issues := issues + [TransactionNonceMismatch]; }
    if t.kind != e.kind { issues := issues + [TransactionTypeMismatch]; }
    if t.gas != D.Value(e.gasLimit) { issues := issues + [TransactionGasMismatch]; }
    if t.maxPriorityFeePerGas != D.Value(e.maxPriorityFeePerGas) {
      issues := issues + [TransactionPriorityFeeMismatch];
    }
    if t.maxFeePerGas != D.Value(e.maxFeePerGas) { issues := issues + [TransactionMaxFeeMismatch]; }
    if |t.accessList| != 0 { issues := issues + [TransactionAccessListMismatch]; }
  }

  lemma Amounts(e: Envelope)
    requires EnvelopeParses(e)
    ensures D.IsCanonical(e.nonce) && D.IsCanonical(e.gasLimit) && D.IsCanonical(e.maxPriorityFeePerGas)
      && D.IsCanonical(e.maxFeePerGas)
  {}

  method CheckPlaces(before: seq<Issue>, x: Expectation, t: Transaction, r: Receipt, b: Block, c: Block)
      returns (issues: seq<Issue>)
    requires t.hash == x.expectedTransactionHash || before != []
    ensures before <= issues
    ensures issues == [] <==>
      before == [] && PlacesMatch(x, t, r, b, c) && (r.status == SUCCESS || r.status == REVERTED)
  {
    issues := before;
    if t.blockNumber != b.number || t.blockHash != b.hash { issues := issues + [TransactionBlockMismatch]; }
    if b.number != c.number || b.hash != c.hash { issues := issues + [CanonicalBlockMismatch]; }
    if r.transactionHash != t.hash || r.transactionHash != x.expectedTransactionHash {
      issues := issues + [ReceiptHashMismatch];
    }
    if r.blockNumber != t.blockNumber || r.blockHash != t.blockHash { issues := issues + [ReceiptBlockMismatch]; }
    if r.gasUsed > t.gas { issues := issues + [ReceiptGasInvalid]; }
    if r.status != SUCCESS && r.status != REVERTED { issues := issues + [ReceiptStatusInvalid]; }
  }

  /** The logs whose first topic is, or is not, the Transfer signature. */
  method SplitLogs(logs: seq<Log>) returns (transfers: seq<Log>, others: seq<Log>)
    ensures |transfers| + |others| == |logs|
    ensures |logs| == 1 ==> (if IsTransferLog(logs[0]) then transfers == logs else others == logs)
  {
    hide TRANSFER_EVENT_SIGNATURE;
    transfers, others := [], [];
    for n := 0 to |logs|
      invariant |transfers| + |others| == n
      invariant n == 1 && |logs| == 1 ==> (if IsTransferLog(logs[0]) then transfers == logs else others == logs)
    {
      if IsTransferLog(logs[n]) {
        transfers := transfers + [logs[n]];
      } else {
        others := others + [logs[n]];
      }
    }
  }

  /** What the logs must be, given the status. */
  method CheckTransfer(before: seq<Issue>, x: Expectation, r: Receipt)
      returns (issues: seq<Issue>, transfer: Option<TransferEvent>)
    ensures before <= issues
    ensures issues == [] ==> before == [] && (r.status == REVERTED ==> r.logs == [] && transfer.None?)
    ensures issues == [] && r.status == SUCCESS ==>
      |r.logs| == 1 && transfer == Some(ExpectedTransfer(x.envelope)) && TransferFromLog(r.logs[0]) == transfer
    ensures before == [] && r.status == REVERTED && r.logs == [] ==> issues == []
    ensures
      && before == [] && r.status == SUCCESS && |r.logs| == 1
      && TransferFromLog(r.logs[0]) == Some(ExpectedTransfer(x.envelope))
      ==> issues == []
  {
    hide TRANSFER_EVENT_SIGNATURE, D.Render, TopicAddress, IsHashText;
    issues, transfer := before, None;
    StatusesDiffer();
    var transfers, others := SplitLogs(r.logs);
    if r.status == REVERTED {
      if |r.logs| != 0 { issues := issues + [RevertedReceiptHasLogs]; }
    } else if r.status == SUCCESS {
      if |transfers| == 0 {
        issues := issues + [TransferMissing];
      } else if |transfers| > 1 {
        issues := issues + [TransferDuplicate];
      } else {
        transfer := TransferFromLog(transfers[0]);
        if transfer.None? { issues := issues + [TransferMalformed]; }
        if |r.logs| != 1 { issues := issues + [UnexpectedLog]; }
      }
      if |r.logs| == 0 { issues := issues + [ReceiptLogCountMismatch]; }
    }
    if r.status == SUCCESS && |others| > 0 { issues := issues + [UnexpectedLog]; }
    if transfer.Some? {
      var e := x.envelope;
      if transfer.value.token != e.to { issues := issues + [TransferMismatch]; }
      if transfer.value.from != e.from { issues := issues + [TransferMismatch]; }
      if transfer.value.to != e.recipient { issues := issues + [TransferMismatch]; }
      if transfer.value.amountAtomic != e.amountAtomic { issues := issues + [TransferMismatch]; }
    }
  }

  lemma StatusesDiffer()
    ensures SUCCESS != REVERTED
  {
    assert |SUCCESS| == 7 && |REVERTED| == 8;
  }

  /** Every log belongs to the transaction. */
  method CheckLogs(before: seq<Issue>, t: Transaction, logs: seq<Log>) returns (issues: seq<Issue>)
    ensures before <= issues
    ensures issues == before <==> forall n :: 0 <= n < |logs| ==> LogIsOf(logs[n], t)
  {
    issues := before;
    for n := 0 to |logs|
      invariant before <= issues
      invariant issues == before <==> forall m :: 0 <= m < n ==> LogIsOf(logs[m], t)
    {
      if logs[n].removed { issues := issues + [TransferMismatch]; }
      if logs[n].transactionHash != t.hash { issues := issues + [TransferMismatch]; }
      if logs[n].blockHash != t.blockHash { issues := issues + [TransferMismatch]; }
      if logs[n].blockNumber != t.blockNumber { issues := issues + [TransferMismatch]; }
    }
  }

  /** What is missing or malformed. */
  method CheckPresence(x: Expectation, v: Evidence) returns (issues: seq<Issue>)
    ensures issues == [] <==>
      && x.fixtureId == x.fixtureInstanceId
      && ParseTransaction(v.transaction).Some? && ParseReceipt(v.receipt).Some?
        && !ParseReceipt(v.receipt).value.malformedLog
      && ParseBlock(v.blockByNumber).Some? && ParseBlock(v.blockByHash).Some?
  {
    hide IsHash, IsAddress, IsHexBytes, ParsedLogs, ParseLog;
    issues := [];
    if x.fixtureId != x.fixtureInstanceId { issues := issues + [FixtureMismatch]; }
    if IsMissing(v.transaction) { issues := issues + [TransactionMissing]; }
    if IsMissing(v.receipt) { issues := issues + [ReceiptMissing]; }
    var t, r := ParseTransaction(v.transaction), ParseReceipt(v.receipt);
    if !IsMissing(v.transaction) && t.None? { issues := issues + [MalformedTransaction]; }
    if !IsMissing(v.receipt) && r.None? { issues := issues + [MalformedReceipt]; }
    if r.Some? && r.value.malformedLog { issues := issues + [MalformedLog]; }
    if IsMissing(v.blockByNumber) { issues := issues + [CanonicalBlockMissing]; }
    else if ParseBlock(v.blockByNumber).None? { issues := issues + [MalformedBlock]; }
    if IsMissing(v.blockByHash) { issues := issues + [CanonicalBlockMissing]; }
    else if ParseBlock(v.blockByHash).None? { issues := issues + [MalformedBlock]; }
  }

  /**
   Evidence of any shape, with any number of logs, is accepted exactly when it matches; what is
   reported is the transfer the matching log emitted, or a revert that spent nothing.
   */
  method Verify(x: Expectation, v: Evidence) returns (verdict: Verdict)
    ensures verdict.Accepted? <==> Matches(x, v)
    ensures verdict.Rejected? ==> verdict.issues != []
    ensures verdict.Accepted? ==>
      var r, t := ParseReceipt(v.receipt).value, ParseTransaction(v.transaction).value;
      && verdict.verified.success == (r.status == SUCCESS)
      && (verdict.verified.transactionHash, verdict.verified.from, verdict.verified.to) == (t.hash, t.from, t.to)
      && verdict.verified.nativeFee == r.gasUsed * r.effectiveGasPrice
      && (verdict.verified.success ==>
            && verdict.verified.transfer == Some(ExpectedTransfer(x.envelope))
            && verdict.verified.tokenSpend == x.envelope.amountAtomic)
      && (!verdict.verified.success ==> verdict.verified.transfer == None && verdict.verified.tokenSpend == [48])
  {
    hide ParseTransaction, ParseReceipt, ParseBlock, EnvelopeParses, CallMatches, TermsMatch, Emits, TransferFromLog,
        LogIsOf, SUCCESS, REVERTED,
         ShapeHolds, PlacesMatch;
    if !ShapeHolds(x) { return Rejected([InvalidExpectation]); }
    if !EnvelopeBinds(x) { return Rejected([EnvelopeInvalid]); }
    var issues := CheckPresence(x, v);
    var t, r, b, c := ParseTransaction(v.transaction), ParseReceipt(v.receipt), ParseBlock(v.blockByNumber),
      ParseBlock(v.blockByHash);
    if t.None? || r.None? || b.None? || c.None? { return Rejected(issues); }
    issues := CheckCall(issues, x, t.value);
    issues := CheckTerms(issues, x, t.value);
    ExpectedHash(x, t.value);
    issues := CheckPlaces(issues, x, t.value, r.value, b.value, c.value);
    var transfer;
    issues, transfer := CheckTransfer(issues, x, r.value);
    issues := CheckLogs(issues, t.value, r.value.logs);
    StatusesDiffer();
    if |r.value.logs| == 1 {
      TransferFromLogInverse(r.value.logs[0], ExpectedTransfer(x.envelope));
    }
    if issues != [] { return Rejected(issues); }
    var success := r.value.status == SUCCESS;
    verdict := Accepted(Verified(success, t.value.hash, t.value.from, t.value.to,
      r.value.gasUsed * r.value.effectiveGasPrice,
                                 if success then x.envelope.amountAtomic else [48], transfer));
  }

  lemma ExpectedHash(x: Expectation, t: Transaction)
    requires EnvelopeParses(x.envelope)
    ensures CallMatches(x, t) ==> t.hash == x.expectedTransactionHash
  {}

  // ----- what a match amounts to -----------------------------------------------------------

  lemma {:induction false} NoneLost(vs: seq<Js>)
    requires forall v | v in vs :: ParseLog(v).Some?
    ensures |ParsedLogs(vs)| == |vs|
    ensures forall i :: 0 <= i < |vs| ==> ParseLog(vs[i]) == Some(ParsedLogs(vs)[i])
  {
    hide ParseLog;
    if vs != [] {
      assert vs[0] in vs;
      NoneLost(vs[1..]);
    }
  }

  /**
   After a match the receipt as it came holds one log on success, the Transfer event whose token,
   sender, recipient and amount are those of the transaction's own calldata, and none on a revert.
   */
  lemma MatchedLogs(x: Expectation, v: Evidence)
    requires Matches(x, v)
    ensures Get(v.receipt, LogsField).List? && ParseTransaction(v.transaction).Some? && ParseReceipt(v.receipt).Some?
    ensures
      var raw, t, r := Get(v.receipt, LogsField).items, ParseTransaction(v.transaction).value,
        ParseReceipt(v.receipt).value;
      if r.status == SUCCESS then
        && |raw| == 1 && ParseLog(raw[0]).Some?
        && var d := Abi.Decode(Some(t.input));
        && d.Decoded?
        && Emits(ParseLog(raw[0]).value, TransferEvent(t.to, t.from, d.recipient, d.amountAtomic))
        && LogIsOf(ParseLog(raw[0]).value, t)
      else raw == []
  {
    hide ParseTransaction, ParseLog, ParsedLogs, ParseBlock, EnvelopeParses, Emits, SUCCESS, REVERTED, ShapeHolds,
        Abi.Decode, IsHash, IsAmount;
    StatusesDiffer();
    NoneLost(Get(v.receipt, LogsField).items);
  }
}
