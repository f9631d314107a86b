/**
 Reading quoted strings back (section 7 of RFC 8259), and how sparingly they are escaped
 (section 3.2.2.2 of RFC 8785).
 */
module JsonStrings {
  import opened Texts
  import opened Hex
  import opened CanonicalJson
  import JsonCanonicity

  /** What a two-character escape stands for. */
  function Escaped(u: CodeUnit): Option<CodeUnit> {
    if u == 34 || u == 92 || u == 47 then Some(u)
    else if u == 98 then Some(8)
    else if u == 102 then Some(12)
    else if u == 110 then Some(10)
    else if u == 114 then Some(13)
    else if u == 116 then Some(9)
    else None
  }

  /** The code unit that four hexadecimal digits stand for. */
  function FourDigits(t: Text): Option<CodeUnit>
    requires |t| == 4
  {
    if !IsHex(t) then None
    else Some(4096 * UnitValue(t[0]) + 256 * UnitValue(t[1]) + 16 * UnitValue(t[2]) + UnitValue(t[3]))
  }

  function Before(u: CodeUnit, rest: Option<Text>): Option<Text> {
    if rest.Some? then Some([u] + rest.value) else None
  }

  /** The characters of a string whose opening quotation mark has been read; the closing one must end the text. */
  function ReadString(t: Text): Option<Text>
    decreases |t|
  {
    if t == [] || t[0] < 32 then None
    else if t[0] == 34 then (if |t| == 1 then Some([]) else None)
    else if t[0] != 92 then Before(t[0], ReadString(t[1..]))
    else if |t| >= 6 && t[1] == 117 then
      var u := FourDigits(t[2..6]);
      if u.None? then None else Before(u.value, ReadString(t[6..]))
    else if |t| < 2 || Escaped(t[1]).None? then None
    else Before(Escaped(t[1]).value, ReadString(t[2..]))
  }

  lemma ReadsHexEscape(u: CodeUnit)
    ensures FourDigits(HexEscape(u)[2..6]) == Some(u)
  {
    JsonCanonicity.Nibbles(u);
    Digits(u / 4096, u / 256 % 16, u / 16 % 16, u % 16);
    assert HexEscape(u)[2..6] ==
      [HexUnit(u / 4096), HexUnit(u / 256 % 16), HexUnit(u / 16 % 16), HexUnit(u % 16)];
  }

  lemma Digits(a: nat, b: nat, c: nat, d: nat)
    requires a < 16 && b < 16 && c < 16 && d < 16
    ensures FourDigits([HexUnit(a), HexUnit(b), HexUnit(c), HexUnit(d)]) == Some(4096 * a + 256 * b + 16 * c + d)
  {
    var t := [HexUnit(a), HexUnit(b), HexUnit(c), HexUnit(d)];
    HexUnitInjective(UnitValue(t[0]), a);
    HexUnitInjective(UnitValue(t[1]), b);
    HexUnitInjective(UnitValue(t[2]), c);
    HexUnitInjective(UnitValue(t[3]), d);
  }

  /** One printed code unit is read back as itself. */
  lemma ReadsUnit(s: Text, i: nat, rest: Text)
    requires i < |s|
    ensures ReadString(QuoteUnit(s, i) + rest) == Before(s[i], ReadString(rest))
  {
    var q := QuoteUnit(s, i);
    var t := q + rest;
    assert t[|q|..] == rest;
    if |q| == 6 {
      ReadsHexEscape(s[i]);
      assert t[2..6] == q[2..6];
    }
  }

  lemma {:induction false} ReadsFrom(s: Text, i: nat)
    requires i <= |s|
    ensures ReadString(QuoteFrom(s, i)) == Some(s[i..])
    decreases |s| - i
  {
    if i < |s| {
      ReadsFrom(s, i + 1);
      ReadsUnit(s, i, QuoteFrom(s, i + 1));
      assert s[i..] == [s[i]] + s[i + 1..];
    } else {
      assert s[i..] == [];
    }
  }

  /** A quoted string is a JSON string, and reading it gives back what was quoted. */
  lemma QuotedReadsBack(s: Text)
    ensures |Quote(s)| >= 2 && Quote(s)[0] == 34 && ReadString(Quote(s)[1..]) == Some(s)
  {
    ReadsFrom(s, 0);
    assert s[0..] == s;
  }

  /** Half of a surrogate pair without its other half. */
  predicate IsLone(s: Text, i: nat)
    requires i < |s|
  {
    || (0xD800 <= s[i] <= 0xDBFF && !(i + 1 < |s| && 0xDC00 <= s[i + 1] <= 0xDFFF))
    || (0xDC00 <= s[i] <= 0xDFFF && !(i > 0 && 0xD800 <= s[i - 1] <= 0xDBFF))
  }

  /** Nothing is escaped that need not be, and what has a short escape gets it. */
  lemma EscapedSparingly(s: Text, i: nat)
    requires i < |s|
    ensures QuoteUnit(s, i) == [s[i]] <==> s[i] >= 32 && s[i] != 34 && s[i] != 92 && !IsLone(s, i)
    ensures |QuoteUnit(s, i)| == 2 <==> s[i] in {8, 9, 10, 12, 13, 34, 92}
    ensures |QuoteUnit(s, i)| in {1, 2, 6}
  {}
}
