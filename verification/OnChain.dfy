/**
 What it takes for chain evidence to be accepted, read off the untrusted values themselves, field
 by field.
 */
module OnChain {
  import opened Texts
  import opened Hex
  import opened ChainEvidence
  import D = Decimal
  import Abi = TransferAbi

  predicate IsNat(v: Js) {
    v.Big? && v.n >= 0
  }

  predicate IsHashValue(v: Js) {
    v.Str? && |v.text| == 66 && v.text[..2] == [48, 120] && IsHex(v.text[2..])
  }

  /** Where a record says it is in the chain. */
  predicate At(v: Js, hash: Js, number: Js) {
    Get(v, BlockHashField) == hash && Get(v, BlockNumberField) == number
  }

  predicate IsUint256(t: Text) {
    D.IsCanonical(t) && D.Value(t) <= D.MAX_UINT256
  }

  predicate AmountsStated(e: Envelope) {
    && IsUint256(e.nonce) && IsUint256(e.gasLimit) && IsUint256(e.maxPriorityFeePerGas) && IsUint256(e.maxFeePerGas)
    && D.IsCanonical(e.value)
  }

  lemma StatedIff(e: Envelope)
    ensures AmountsStated(e) <==> EnvelopeParses(e)
  {
    hide D.IsAtomic, D.IsCanonical, D.Value;
    D.AtomicIsUint256(e.nonce);
    D.AtomicIsUint256(e.gasLimit);
    D.AtomicIsUint256(e.maxPriorityFeePerGas);
    D.AtomicIsUint256(e.maxFeePerGas);
  }

  /** The transaction as it came: every field is the envelope's, in the block given by hash and number. */
  predicate CarriesTransaction(v: Js, x: Expectation, hash: Js, number: Js)
    requires AmountsStated(x.envelope)
  {
    var e := x.envelope;
    && Get(v, HashField) == Str(x.expectedTransactionHash)
    && Get(v, ChainIdField) == Big(31337)
    && At(v, hash, number)
    && (Get(v, TransactionIndexField) == Undefined || IsNat(Get(v, TransactionIndexField)))
    && Get(v, FromField) == Str(e.from)
    && Get(v, ToField) == Str(e.to)
    && Get(v, ValueField) == Big(0)
    && Get(v, InputField) == Str(e.calldata)
    && Get(v, NonceField) == Big(D.Value(e.nonce))
    && Get(v, TypeField) == Str(e.kind)
    && Get(v, GasField) == Big(D.Value(e.gasLimit))
    && Get(v, MaxPriorityFeeField) == Big(D.Value(e.maxPriorityFeePerGas))
    && Get(v, MaxFeeField) == Big(D.Value(e.maxFeePerGas))
    && Get(v, AccessListField) == List([])
  }

  predicate CarriesBlock(v: Js, hash: Js, number: Js) {
    Get(v, HashField) == hash && Get(v, NumberField) == number
  }

  /** The receipt as it came, apart from its logs. */
  predicate CarriesReceipt(v: Js, x: Expectation, hash: Js, number: Js)
    requires AmountsStated(x.envelope)
  {
    && Get(v, TransactionHashField) == Str(x.expectedTransactionHash)
    && At(v, hash, number)
    && IsNat(Get(v, GasUsedField)) && Get(v, GasUsedField).n <= D.Value(x.envelope.gasLimit)
    && IsNat(Get(v, EffectiveGasPriceField))
  }

  /** The Keccak-256 digest of Transfer(address,address,uint256). */
  function TransferTopic(): Text {
    [48, 120] + HexDigits(0xddf252ad_1be2c89b_69c2b068_fc378daa_952ba7f1_63c4a116_28f55a4d_f523b3ef, 64)
  }

  /** The one log as it came: the Transfer event of the envelope's token, sender, recipient and amount. */
  predicate CarriesTransfer(v: Js, x: Expectation, hash: Js, number: Js) {
    var e := x.envelope;
    && Get(v, AddressField) == Str(e.to)
    && Abi.IsAddress(e.from) && Abi.IsAddress(e.recipient)
    && D.IsCanonical(e.amountAtomic) && D.Value(e.amountAtomic) <= D.MAX_UINT256
    && Get(v, TopicsField) ==
      List([Str(TransferTopic()), Str(AddressTopic(e.from)), Str(AddressTopic(e.recipient))])
    && Get(v, DataField) == Str([48, 120] + HexDigits(D.Value(e.amountAtomic), 64))
    && IsNat(Get(v, LogIndexField))
    && Get(v, TransactionHashField) == Str(x.expectedTransactionHash)
    && At(v, hash, number)
    && Get(v, RemovedField) == Truth(false)
  }

  /** One such log after success, and none after a revert. */
  predicate CarriesLogs(v: Js, x: Expectation, hash: Js, number: Js) {
    || (&& Get(v, StatusField) == Str(Lit("success"))
        && Get(v, LogsField).List? && |Get(v, LogsField).items| == 1
        && CarriesTransfer(Get(v, LogsField).items[0], x, hash, number))
    || (Get(v, StatusField) == Str(Lit("reverted")) && Get(v, LogsField) == List([]))
  }

  /** What is expected is well-formed, and the envelope is bound to it and says one thing throughout. */
  predicate IsBound(x: Expectation) {
    var e := x.envelope;
    && x.wellShaped && x.fixtureId == x.fixtureInstanceId
    && IsHashValue(Str(x.expectedTransactionHash))
    && Abi.IsAddress(x.walletAddress) && Abi.IsAddress(x.tokenAddress)
    && x.envelopeId == e.envelopeId && x.envelopeRevision == e.revision
    && x.envelopeHash == e.hash && e.hashMatches
    && x.reservationId == e.reservationId
    && e.from == x.walletAddress && e.to == x.tokenAddress
    && e.value == [48]
    && e.deltas == [Delta(e.to, e.from, e.recipient, e.amountAtomic)]
    && Abi.Decode(Some(e.calldata)) == Abi.Decoded(e.recipient, e.amountAtomic)
    && AmountsStated(e)
  }

  /**
   The evidence as it came, field by field: the transaction of the envelope, mined in one block that
   reads the same by number and by hash, with the receipt and the log that belong to it.
   */
  predicate OnChain(x: Expectation, v: Evidence) {
    && IsBound(x)
    && var hash, number := Get(v.transaction, BlockHashField), Get(v.transaction, BlockNumberField);
    && IsHashValue(hash) && IsNat(number)
    && CarriesTransaction(v.transaction, x, hash, number)
    && CarriesBlock(v.blockByNumber, hash, number)
    && CarriesBlock(v.blockByHash, hash, number)
    && CarriesReceipt(v.receipt, x, hash, number)
    && CarriesLogs(v.receipt, x, hash, number)
  }

  lemma BoundIff(x: Expectation)
    ensures IsBound(x) <==> ShapeHolds(x) && EnvelopeBinds(x) && x.fixtureId == x.fixtureInstanceId
    ensures IsBound(x) ==> EnvelopeParses(x.envelope) && AmountsStated(x.envelope)
  {
    hide Abi.Decode, EnvelopeParses, Abi.IsAddress, AmountsStated;
    StatedIff(x.envelope);
  }

  lemma TransactionIff(x: Expectation, v: Js)
    requires IsBound(x) && EnvelopeParses(x.envelope)
    ensures
      var hash, number, t := Get(v, BlockHashField), Get(v, BlockNumberField), ParseTransaction(v);
      (t.Some? && TransactionMatches(x, t.value)) <==>
        IsHashValue(hash) && IsNat(number) && CarriesTransaction(v, x, hash, number)
  {
    hide Abi.Decode, D.IsAtomic, HexValue, D.Render;
    CalldataIsHex(x.envelope);
    assert D.Value([48]) == 0 by { assert [48][..0] == []; }
  }

  lemma CalldataIsHex(e: Envelope)
    requires Abi.Decode(Some(e.calldata)).Decoded?
    ensures Abi.IsPrefixedHex(e.calldata) && |e.calldata| % 2 == 0
  {}

  lemma PlacesIff(x: Expectation, v: Evidence)
    requires IsBound(x)
    requires var hash, number := Get(v.transaction, BlockHashField), Get(v.transaction, BlockNumberField);
      IsHashValue(hash) && IsNat(number) && CarriesTransaction(v.transaction, x, hash, number)
    ensures
      var hash, number := Get(v.transaction, BlockHashField), Get(v.transaction, BlockNumberField);
      var t, r, b, c := ParseTransaction(v.transaction), ParseReceipt(v.receipt), ParseBlock(v.blockByNumber),
        ParseBlock(v.blockByHash);
      && t.Some?
      && ((r.Some? && b.Some? && c.Some? && PlacesMatch(x, t.value, r.value, b.value, c.value)) <==>
            && CarriesBlock(v.blockByNumber, hash, number) && CarriesBlock(v.blockByHash, hash, number)
            && CarriesReceipt(v.receipt, x, hash, number)
            && Get(v.receipt, StatusField).Str? && Get(v.receipt, LogsField).List?)
  {
    hide Abi.Decode, D.IsAtomic, ParsedLogs, ParseLog, D.Value, EnvelopeParses, ParseTransaction;
    BoundIff(x);
    TransactionIff(x, v.transaction);
    ParsedPlace(v.transaction);
  }

  lemma ParsedPlace(v: Js)
    ensures var t := ParseTransaction(v);
      t.Some? ==>
        && Get(v, BlockHashField) == Str(t.value.blockHash) && Get(v, BlockNumberField) == Big(t.value.blockNumber)
        && Get(v, HashField) == Str(t.value.hash) && Get(v, GasField) == Big(t.value.gas)
  {
    hide IsHashText, Abi.IsAddress, Abi.IsPrefixedHex;
  }

  lemma SignatureIsHash()
    ensures TransferTopic() == TRANSFER_EVENT_SIGNATURE && IsHashText(TRANSFER_EVENT_SIGNATURE)
  {
    hide HexDigits;
    var t := TransferTopic();
    assert t[..2] == Abi.PREFIX && t[2..] == HexDigits(
      0xddf252ad_1be2c89b_69c2b068_fc378daa_952ba7f1_63c4a116_28f55a4d_f523b3ef, 64);
  }

  lemma TopicIsHash(address: Text)
    requires Abi.IsAddress(address)
    ensures IsHashText(AddressTopic(address))
  {
    var t := AddressTopic(address);
    assert t[..2] == Abi.PREFIX && t[2..] == Abi.Zeros(24) + address[2..];
  }

  lemma WordIsHash(n: nat)
    ensures IsHashText([48, 120] + HexDigits(n, 64))
  {
    hide HexDigits;
    var t := [48, 120] + HexDigits(n, 64);
    assert t[..2] == Abi.PREFIX && t[2..] == HexDigits(n, 64);
  }

  /** Three topics as they came, and as they parse. */
  lemma TopicsIff(items: seq<Js>, a: Text, b: Text, c: Text)
    requires forall i :: 0 <= i < |items| ==> IsHash(items[i])
    ensures TopicTexts(items) == [a, b, c] <==> items == [Str(a), Str(b), Str(c)]
  {
    hide IsHash;
  }

  lemma LogIff(x: Expectation, v: Js, t: Transaction)
    requires IsBound(x) && t.hash == x.expectedTransactionHash && IsHashText(t.blockHash)
    ensures
      var log := ParseLog(v);
      (log.Some? && LogIsOf(log.value, t) && Emits(log.value, ExpectedTransfer(x.envelope))) <==>
        CarriesTransfer(v, x, Str(t.blockHash), Big(t.blockNumber))
  {
    hide Abi.Decode, HexDigits, D.Value, TRANSFER_EVENT_SIGNATURE, EnvelopeParses, AddressTopic, Abi.IsAddress,
        D.IsCanonical, IsHex, TransferTopic, TopicTexts, Emits, CarriesTransfer, IsHashText;
    if ParseLog(v).Some? && LogIsOf(ParseLog(v).value, t) && Emits(ParseLog(v).value, ExpectedTransfer(x.envelope)) {
      EmittedIsCarried(x, v, t);
    }
    if CarriesTransfer(v, x, Str(t.blockHash), Big(t.blockNumber)) {
      CarriedIsEmitted(x, v, t);
    }
  }

  lemma EmittedIsCarried(x: Expectation, v: Js, t: Transaction)
    requires t.hash == x.expectedTransactionHash && ParseLog(v).Some? && LogIsOf(ParseLog(v).value, t)
    requires Emits(ParseLog(v).value, ExpectedTransfer(x.envelope))
    ensures CarriesTransfer(v, x, Str(t.blockHash), Big(t.blockNumber))
  {
    hide HexDigits, D.Value, TRANSFER_EVENT_SIGNATURE, AddressTopic, Abi.IsAddress, D.IsCanonical, IsHex, TransferTopic,
        TopicTexts, IsHashText;
    var e := x.envelope;
    SignatureIsHash();
    TopicsIff(Get(v, TopicsField).items, TransferTopic(), AddressTopic(e.from), AddressTopic(e.recipient));
  }

  lemma CarriedIsEmitted(x: Expectation, v: Js, t: Transaction)
    requires IsBound(x) && t.hash == x.expectedTransactionHash && IsHashText(t.blockHash)
    requires CarriesTransfer(v, x, Str(t.blockHash), Big(t.blockNumber))
    ensures var log := ParseLog(v);
      log.Some? && LogIsOf(log.value, t) && Emits(log.value, ExpectedTransfer(x.envelope))
  {
    hide Abi.Decode, HexDigits, D.Value, TRANSFER_EVENT_SIGNATURE, AddressTopic, IsHex, TransferTopic, TopicTexts,
        EnvelopeParses;
    var e := x.envelope;
    SignatureIsHash();
    TopicIsHash(e.from);
    TopicIsHash(e.recipient);
    WordIsHash(D.Value(e.amountAtomic));
    var items := Get(v, TopicsField).items;
    assert IsHash(items[0]) && IsHash(items[1]) && IsHash(items[2]);
    TopicsIff(items, TransferTopic(), AddressTopic(e.from), AddressTopic(e.recipient));
  }

  lemma LogsIff(x: Expectation, v: Js, t: Transaction)
    requires IsBound(x) && t.hash == x.expectedTransactionHash && IsHashText(t.blockHash) && ParseReceipt(v).Some?
    ensures LogsMatch(x, t, ParseReceipt(v).value) <==> CarriesLogs(v, x, Str(t.blockHash), Big(t.blockNumber))
  {
    hide Abi.Decode, EnvelopeParses, IsBound, CarriesTransfer, ParseLog, Emits, IsHashText, Abi.IsAddress;
    var items := Get(v, LogsField).items;
    StatusesDiffer();
    if |items| == 1 {
      LogIff(x, items[0], t);
      assert items == [items[0]];
      assert items[1..] == [];
    }
    if forall l | l in items :: ParseLog(l).Some? {
      NoneLost(items);
    }
  }

  /** Evidence matches exactly when its fields, as they came, are those of the envelope's transaction. */
  lemma MatchesIffOnChain(x: Expectation, v: Evidence)
    ensures Matches(x, v) <==> OnChain(x, v)
  {
    hide Abi.Decode, EnvelopeParses, ParseTransaction, ParseReceipt, ParseBlock, TransactionMatches, PlacesMatch,
        LogsMatch, CarriesLogs, CarriesReceipt, CarriesBlock, CarriesTransaction, IsBound, ShapeHolds, EnvelopeBinds,
        IsHashValue;
    BoundIff(x);
    if IsBound(x) {
      TransactionIff(x, v.transaction);
      ParsedPlace(v.transaction);
      var t := ParseTransaction(v.transaction);
      if t.Some? && TransactionMatches(x, t.value) {
        PlacesIff(x, v);
        MatchedHash(x, v.transaction);
        if ParseReceipt(v.receipt).Some? {
          LogsIff(x, v.receipt, t.value);
        } else {
          NoReceipt(x, v.receipt, Str(t.value.blockHash), Big(t.value.blockNumber));
        }
        LogsAreListed(v.receipt, x, Str(t.value.blockHash), Big(t.value.blockNumber));
      }
    }
  }

  lemma LogsAreListed(v: Js, x: Expectation, hash: Js, number: Js)
    ensures CarriesLogs(v, x, hash, number) ==> Get(v, StatusField).Str? && Get(v, LogsField).List?
  {
    hide CarriesTransfer;
  }

  /** A receipt that does not parse lacks something its carried form has. */
  lemma NoReceipt(x: Expectation, v: Js, hash: Js, number: Js)
    requires AmountsStated(x.envelope) && ParseReceipt(v).None? && IsHashValue(hash) && IsNat(number)
    requires IsHashValue(Str(x.expectedTransactionHash))
    ensures !(CarriesReceipt(v, x, hash, number) && CarriesLogs(v, x, hash, number))
  {
    hide CarriesTransfer, D.Value, IsHex;
  }

  lemma MatchedHash(x: Expectation, v: Js)
    requires IsBound(x) && EnvelopeParses(x.envelope)
    requires ParseTransaction(v).Some? && TransactionMatches(x, ParseTransaction(v).value)
    ensures var t := ParseTransaction(v).value;
      t.hash == x.expectedTransactionHash && IsHashText(t.blockHash) && IsHashValue(Str(t.blockHash))
        && IsHashValue(Str(x.expectedTransactionHash))
  {
    hide Abi.Decode, D.Value, IsHex, Abi.IsAddress, IsHexBytes;
  }
}
