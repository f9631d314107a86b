/**
 Canonical JSON printing (packages/schemas/src/idempotency.ts).

 A JavaScript object is its list of members in insertion order; two objects are the same JSON
 value when they are the same map from keys to values.
 */
module CanonicalJson {
  import opened Texts
  import opened KeyOrder
  import opened Hex

  /** A number is known by the numeral ECMAScript prints for it; NaN and the infinities have none. */
  datatype Number = Finite(numeral: Numeral) | NonFinite

  type Numeral = t: Text | IsNumeral(t) witness [48]

  predicate IsNumeralUnit(u: CodeUnit) {
    48 <= u <= 57 || u == 43 || u == 45 || u == 46 || u == 101  // 0-9 + - . e
  }

  predicate IsNumeral(t: Text) {
    |t| > 0 && forall i :: 0 <= i < |t| ==> IsNumeralUnit(t[i])
  }

  type Member = Keyed<Json>

  datatype Json =
    | Null
    | Bool(b: bool)
    | Num(n: Number)
    | Str(s: Text)
    | Arr(items: seq<Json>)
    | Obj(members: seq<Member>)

  /** No two members of one object share a key: JavaScript objects cannot. */
  predicate WellFormed(v: Json) {
    match v
    case Arr(items) => forall x | x in items :: WellFormed(x)
    case Obj(ms) =>
      && (forall m | m in ms :: WellFormed(m.value))
      && DistinctKeys(ms)
    case _ => true
  }

  /** The printer throws exactly when a non-finite number occurs somewhere. */
  predicate Serializable(v: Json) {
    match v
    case Num(n) => n.Finite?
    case Arr(items) => forall x | x in items :: Serializable(x)
    case Obj(ms) => forall m | m in ms :: Serializable(m.value)
    case _ => true
  }

  /** The same JSON value, with objects read as maps. */
  ghost predicate Same(v: Json, w: Json)
    decreases v
  {
    match v
    case Arr(xs) =>
      w.Arr? && |xs| == |w.items| && forall i :: 0 <= i < |xs| ==> Same(xs[i], w.items[i])
    case Obj(ms) =>
      && w.Obj?
      && SameKeys(ms, w.members)
      && (forall i, j :: 0 <= i < |ms| && 0 <= j < |w.members| && ms[i].key == w.members[j].key ==>
                           Same(ms[i].value, w.members[j].value))
    case _ => v == w
  }

  const QUOTE: CodeUnit := 34
  const BACKSLASH: CodeUnit := 92
  const COMMA: CodeUnit := 44
  const COLON: CodeUnit := 58
  const OPEN_BRACKET: CodeUnit := 91
  const CLOSE_BRACKET: CodeUnit := 93
  const OPEN_BRACE: CodeUnit := 123
  const CLOSE_BRACE: CodeUnit := 125

  predicate IsHigh(u: CodeUnit) { 0xD800 <= u <= 0xDBFF }
  predicate IsLow(u: CodeUnit) { 0xDC00 <= u <= 0xDFFF }

  /** Is the code unit at i half of a surrogate pair? */
  predicate Paired(s: Text, i: nat)
    requires i < |s|
  {
    || (IsHigh(s[i]) && i + 1 < |s| && IsLow(s[i + 1]))
    || (IsLow(s[i]) && i > 0 && IsHigh(s[i - 1]))
  }

  function HexEscape(u: CodeUnit): (t: Text) {
    [BACKSLASH, 117, HexUnit(u / 4096), HexUnit(u / 256 % 16), HexUnit(u / 16 % 16), HexUnit(u % 16)]
  }

  /** QuoteJSONString of ECMAScript, one code unit at a time. */
  function QuoteUnit(s: Text, i: nat): (t: Text)
    requires i < |s|
  {
    var u := s[i];
    if u == 8 then [BACKSLASH, 98]
    else if u == 9 then [BACKSLASH, 116]
    else if u == 10 then [BACKSLASH, 110]
    else if u == 12 then [BACKSLASH, 102]
    else if u == 13 then [BACKSLASH, 114]
    else if u == QUOTE || u == BACKSLASH then [BACKSLASH, u]
    else if u < 32 || ((IsHigh(u) || IsLow(u)) && !Paired(s, i)) then HexEscape(u)
    else [u]
  }

  function QuoteFrom(s: Text, i: nat): Text
    requires i <= |s|
    decreases |s| - i
  {
    if i == |s| then [QUOTE] else QuoteUnit(s, i) + QuoteFrom(s, i + 1)
  }

  function Quote(s: Text): Text {
    [QUOTE] + QuoteFrom(s, 0)
  }

  /** A key with the printed text of its value. */
  type Entry = Keyed<Text>

  function JoinTexts(ts: seq<Text>): Text {
    if ts == [] then [] else if |ts| == 1 then ts[0] else ts[0] + [COMMA] + JoinTexts(ts[1..])
  }

  function EntryText(e: Entry): Text {
    Quote(e.key) + [COLON] + e.value
  }

  function EntryTexts(es: seq<Entry>): (ts: seq<Text>)
    ensures |ts| == |es|
    ensures forall i :: 0 <= i < |es| ==> ts[i] == EntryText(es[i])
  {
    if es == [] then [] else [EntryText(es[0])] + EntryTexts(es[1..])
  }

  function Print(v: Json): Text
    requires Serializable(v)
    decreases v, 0
  {
    match v
    case Null => Lit("null")
    case Bool(b) => if b then Lit("true") else Lit("false")
    case Num(n) => n.numeral
    case Str(s) => Quote(s)
    case Arr(items) => [OPEN_BRACKET] + JoinTexts(PrintAll(items)) + [CLOSE_BRACKET]
    case Obj(ms) => [OPEN_BRACE] + JoinTexts(EntryTexts(Sort(Entries(ms)))) + [CLOSE_BRACE]
  }

  function PrintAll(items: seq<Json>): (ts: seq<Text>)
    requires forall x | x in items :: Serializable(x)
    ensures |ts| == |items|
    ensures forall i :: 0 <= i < |items| ==> ts[i] == Print(items[i])
    decreases items, 1
  {
    if items == [] then [] else [Print(items[0])] + PrintAll(items[1..])
  }

  function Entries(ms: seq<Member>): (es: seq<Entry>)
    requires forall m | m in ms :: Serializable(m.value)
    ensures |es| == |ms|
    ensures forall i :: 0 <= i < |ms| ==> es[i] == Keyed(ms[i].key, Print(ms[i].value))
    decreases ms, 1
  {
    if ms == [] then [] else [Keyed(ms[0].key, Print(ms[0].value))] + Entries(ms[1..])
  }

  /** The exported entry point: no text for a value holding a non-finite number. */
  function Canonicalize(v: Json): Option<Text> {
    if Serializable(v) then Some(Print(v)) else None
  }
}
