/** Lower-case hexadecimal text. */
module Hex {
  import opened Texts

  function HexUnit(d: nat): (u: CodeUnit)
    requires d < 16
  {
    if d < 10 then 48 + d else 87 + d
  }

  predicate IsHexUnit(u: CodeUnit) {
    48 <= u <= 57 || 97 <= u <= 102
  }

  predicate IsHex(t: Text) {
    forall i :: 0 <= i < |t| ==> IsHexUnit(t[i])
  }

  function UnitValue(u: CodeUnit): (d: nat)
    requires IsHexUnit(u)
    ensures d < 16 && HexUnit(d) == u
  {
    if u <= 57 then u - 48 else u - 87
  }

  lemma HexUnitInjective(d: nat, e: nat)
    requires d < 16 && e < 16 && HexUnit(d) == HexUnit(e)
    ensures d == e
  {}

  /** The number a run of hexadecimal digits denotes. */
  function HexValue(t: Text): nat
    requires IsHex(t)
  {
    if t == [] then 0 else 16 * HexValue(t[..|t| - 1]) + UnitValue(t[|t| - 1])
  }

  /** The last k hexadecimal digits of n. */
  function HexDigits(n: nat, k: nat): (t: Text)
    ensures |t| == k && IsHex(t)
  {
    if k == 0 then [] else HexDigits(n / 16, k - 1) + [HexUnit(n % 16)]
  }

  function Pow16(k: nat): nat {
    if k == 0 then 1 else 16 * Pow16(k - 1)
  }

  lemma {:induction false} DigitsValue(n: nat, k: nat)
    requires n < Pow16(k)
    ensures HexValue(HexDigits(n, k)) == n
  {
    if k > 0 {
      DigitsValue(n / 16, k - 1);
      var t := HexDigits(n, k);
      assert t[..|t| - 1] == HexDigits(n / 16, k - 1);
      HexUnitInjective(UnitValue(t[|t| - 1]), n % 16);
    }
  }

  lemma {:induction false} ValueDigits(t: Text)
    requires IsHex(t)
    ensures HexDigits(HexValue(t), |t|) == t
    ensures HexValue(t) < Pow16(|t|)
  {
    if t != [] {
      var front := t[..|t| - 1];
      ValueDigits(front);
      assert HexValue(t) / 16 == HexValue(front) && HexValue(t) % 16 == UnitValue(t[|t| - 1]);
      assert t == front + [t[|t| - 1]];
    }
  }
}
