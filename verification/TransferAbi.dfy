/**
 The calldata of an EIP-20 transfer: the hand-written decoder
 (packages/transaction-pipeline/src/decode-transfer.ts) against the Contract ABI encoding that
 construction uses (packages/transaction-pipeline/src/construct-transfer.ts).
 */
module TransferAbi {
  import opened Texts
  import opened Hex
  import Decimal

  const PREFIX: Text := [48, 120]                                      // 0x
  const SELECTOR: Text := [97, 57, 48, 53, 57, 99, 98, 98]             // a9059cbb
  const WORD_HEX_LENGTH := 64
  const TRANSFER_DATA_HEX_LENGTH := 8 + WORD_HEX_LENGTH * 2

  datatype DecodeError =
    | MalformedHex | InvalidLength | TrailingData | UnknownSelector | NonCanonicalAddressPadding | InvalidUint256

  datatype Decoding = Decoded(recipient: Text, amountAtomic: Text) | Refused(code: DecodeError)

  predicate IsPrefixedHex(t: Text) {
    |t| >= 2 && t[..2] == PREFIX && IsHex(t[2..])
  }

  /** The canonical address pattern: 0x and forty lower-case hexadecimal digits. */
  predicate IsAddress(t: Text) {
    |t| == 42 && IsPrefixedHex(t)
  }

  predicate IsZeros(t: Text) {
    forall i :: 0 <= i < |t| ==> t[i] == 48
  }

  /** None stands for an input that is not a string. */
  function Decode(input: Option<Text>): Decoding {
    if input.None? || !IsPrefixedHex(input.value) then Refused(MalformedHex)
    else
      var t := input.value;
      var length := |t| - 2;
      if length % 2 != 0 then Refused(MalformedHex)
      else if length < TRANSFER_DATA_HEX_LENGTH then Refused(InvalidLength)
      else if length > TRANSFER_DATA_HEX_LENGTH then Refused(TrailingData)
      else if t[2..10] != SELECTOR then Refused(UnknownSelector)
      else
        var addressWord := t[10..74];
        if !IsZeros(addressWord[..24]) || !IsHex(addressWord[24..]) then Refused(NonCanonicalAddressPadding)
        else
          var amountWord := t[74..138];
          if !IsHex(amountWord) then Refused(InvalidUint256)
          else Decoded(PREFIX + addressWord[24..], Decimal.Render(HexValue(amountWord)))
  }

  function Zeros(k: nat): (t: Text)
    ensures |t| == k && IsZeros(t)
  {
    seq(k, _ => 48)
  }

  /** Selector, address padded to a word, amount as a word (Solidity Contract ABI Specification). */
  function Encode(recipient: Text, amount: nat): Text
    requires IsAddress(recipient)
  {
    PREFIX + SELECTOR + Zeros(24) + recipient[2..] + HexDigits(amount, WORD_HEX_LENGTH)
  }

  lemma WordHoldsUint256()
    ensures Pow16(WORD_HEX_LENGTH) == Decimal.MAX_UINT256 + 1
  {
    assert Pow16(8) == 0x1_0000_0000;
    assert Pow16(16) == 0x1_0000_0000_0000_0000;
    assert Pow16(24) == 0x1_00000000_00000000_00000000;
    assert Pow16(32) == 0x1_00000000_00000000_00000000_00000000;
    assert Pow16(40) == 0x1_00000000_00000000_00000000_00000000_00000000;
    assert Pow16(48) == 0x1_00000000_00000000_00000000_00000000_00000000_00000000;
    assert Pow16(56) == 0x1_00000000_00000000_00000000_00000000_00000000_00000000_00000000;
  }

  /** The parts of an encoding, where the decoder looks for them. */
  lemma EncodedParts(recipient: Text, amount: nat)
    requires IsAddress(recipient)
    ensures var t := Encode(recipient, amount);
      && |t| == 138 && IsPrefixedHex(t) && t[2..10] == SELECTOR
      && t[10..74] == Zeros(24) + recipient[2..]
      && t[74..138] == HexDigits(amount, WORD_HEX_LENGTH)
  {
    var t := Encode(recipient, amount);
    assert t[..2] == PREFIX;
    assert t[2..] == SELECTOR + Zeros(24) + recipient[2..] + HexDigits(amount, WORD_HEX_LENGTH);
    assert IsHex(SELECTOR) && IsHex(Zeros(24)) && IsHex(recipient[2..]);
  }

  /** What is encoded is decoded. */
  lemma DecodesEncoding(recipient: Text, amount: nat)
    requires IsAddress(recipient) && amount <= Decimal.MAX_UINT256
    ensures Decode(Some(Encode(recipient, amount))) == Decoded(recipient, Decimal.Render(amount))
  {
    hide Zeros, HexDigits, HexValue, Encode, Decimal.Render;
    EncodedParts(recipient, amount);
    WordHoldsUint256();
    DigitsValue(amount, WORD_HEX_LENGTH);
    var word := Encode(recipient, amount)[10..74];
    assert word[..24] == Zeros(24) && word[24..] == recipient[2..];
    assert recipient == PREFIX + recipient[2..];
  }

  /** What is decoded encodes back to the input. */
  lemma EncodesDecoding(t: Text)
    requires Decode(Some(t)).Decoded?
    ensures var d := Decode(Some(t));
      && IsAddress(d.recipient)
      && Decimal.IsCanonical(d.amountAtomic) && Decimal.Value(d.amountAtomic) <= Decimal.MAX_UINT256
      && Encode(d.recipient, Decimal.Value(d.amountAtomic)) == t
  {
    hide HexDigits, HexValue, Decimal.Render, Decimal.Value;
    var d, word := Decode(Some(t)), t[74..138];
    WordHoldsUint256();
    ValueDigits(word);
    var address := t[34..74];
    assert t[10..74][24..] == address && t[10..74][..24] == t[10..34];
    assert t[10..34] == Zeros(24);
    assert d.recipient == PREFIX + address && d.recipient[..2] == PREFIX && d.recipient[2..] == address;
    assert t == t[..2] + t[2..10] + t[10..34] + t[34..74] + t[74..138];
  }

  /** The decoder succeeds on exactly the encodings of transfers, with exactly what was encoded. */
  lemma DecoderIsInverse(t: Text, recipient: Text, amountAtomic: Text)
    ensures Decode(Some(t)) == Decoded(recipient, amountAtomic) <==>
      && IsAddress(recipient)
      && Decimal.IsCanonical(amountAtomic) && Decimal.Value(amountAtomic) <= Decimal.MAX_UINT256
      && t == Encode(recipient, Decimal.Value(amountAtomic))
  {
    hide Decode, Encode, Decimal.Render, Decimal.Value;
    if Decode(Some(t)) == Decoded(recipient, amountAtomic) {
      EncodesDecoding(t);
    } else if IsAddress(recipient) && Decimal.IsCanonical(amountAtomic)
      && Decimal.Value(amountAtomic) <= Decimal.MAX_UINT256 {
      DecodesEncoding(recipient, Decimal.Value(amountAtomic));
      Decimal.CanonicalIsRendered(amountAtomic);
    }
  }

  /** The first byte that is not as it should be decides the refusal; no word is ever an invalid number. */
  lemma RefusalIs(input: Option<Text>)
    ensures var d := Decode(input);
      var bytes := input.Some? && IsPrefixedHex(input.value) && |input.value| % 2 == 0;
      && (d == Refused(MalformedHex) <==> !bytes)
      && (d == Refused(InvalidLength) <==> bytes && |input.value| < 2 + 2 * 68)
      && (d == Refused(TrailingData) <==> bytes && |input.value| > 2 + 2 * 68)
      && (d == Refused(UnknownSelector) <==>
            bytes && |input.value| == 2 + 2 * 68 && input.value[2..10] != Lit("a9059cbb"))
      && (d == Refused(NonCanonicalAddressPadding) <==>
            && bytes && |input.value| == 2 + 2 * 68 && input.value[2..10] == Lit("a9059cbb")
            && exists i :: 10 <= i < 34 && input.value[i] != 48)
      && d != Refused(InvalidUint256)
  {
    hide HexValue, Decimal.Render;
    assert SELECTOR == Lit("a9059cbb");
    if input.Some? && |input.value| == 138 {
      var t := input.value;
      var word := t[10..74];
      assert forall i :: 0 <= i < 24 ==> word[..24][i] == t[10 + i];
      assert (exists i :: 10 <= i < 34 && t[i] != 48) ==> !IsZeros(word[..24]) by {
        if i :| 10 <= i < 34 && t[i] != 48 {
          assert word[..24][i - 10] != 48;
        }
      }
      if IsPrefixedHex(t) {
        assert forall i :: 0 <= i < 40 ==> word[24..][i] == t[2..][32 + i];
        assert forall i :: 0 <= i < 64 ==> t[74..138][i] == t[2..][72 + i];
      }
    }
  }
}
