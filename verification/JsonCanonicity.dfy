/** Canonical JSON is injective and blind to insertion order. */
module JsonCanonicity {
  import opened Texts
  import opened KeyOrder
  import opened Hex
  import opened CanonicalJson

  // ----- strings are read back -------------------------------------------------------------

  lemma Nibbles(u: CodeUnit)
    ensures u == 4096 * (u / 4096) + 256 * (u / 256 % 16) + 16 * (u / 16 % 16) + u % 16
  {
    assert u / 256 == 16 * (u / 4096) + u / 256 % 16;
    assert u / 16 == 16 * (u / 256) + u / 16 % 16;
  }

  lemma HexInjective(u: CodeUnit, v: CodeUnit)
    requires HexEscape(u) == HexEscape(v)
    ensures u == v
  {
    hide HexUnit;
    assert HexEscape(u)[2] == HexEscape(v)[2] && HexEscape(u)[3] == HexEscape(v)[3];
    assert HexEscape(u)[4] == HexEscape(v)[4] && HexEscape(u)[5] == HexEscape(v)[5];
    HexUnitInjective(u / 4096, v / 4096);
    HexUnitInjective(u / 256 % 16, v / 256 % 16);
    HexUnitInjective(u / 16 % 16, v / 16 % 16);
    HexUnitInjective(u % 16, v % 16);
    Nibbles(u);
    Nibbles(v);
  }

  /** How long the printed form of a code unit is, read off its first two units. */
  function UnitLength(t: Text): nat
    requires |t| > 0
  {
    if t[0] != BACKSLASH then 1 else if |t| > 1 && t[1] == 117 then 6 else 2
  }

  lemma QuoteUnitLength(s: Text, i: nat, rest: Text)
    requires i < |s|
    ensures var q := QuoteUnit(s, i); |q| > 0 && q[0] != QUOTE && |q| == UnitLength(q + rest)
  {
    var q := QuoteUnit(s, i);
    assert (q + rest)[0] == q[0];
    if |q| > 1 {
      assert (q + rest)[1] == q[1];
    }
  }

  /** What is printed for a code unit says which code unit it was, wherever it stood. */
  lemma QuoteUnitInjective(s: Text, i: nat, t: Text, j: nat)
    requires i < |s| && j < |t| && QuoteUnit(s, i) == QuoteUnit(t, j)
    ensures s[i] == t[j]
  {
    var q := QuoteUnit(s, i);
    if |q| == 6 {
      HexInjective(s[i], t[j]);
    } else if |q| == 2 {
      assert q[1] == QuoteUnit(t, j)[1];
    } else {
      assert q[0] == QuoteUnit(t, j)[0];
    }
  }

  lemma SplitPrefix(p: Text, a: Text, q: Text, b: Text)
    requires |p| == |q| && p + a == q + b
    ensures p == q && a == b
  {
    assert p == (p + a)[..|p|] && q == (q + b)[..|q|];
    assert a == (p + a)[|p|..] && b == (q + b)[|q|..];
  }

  lemma {:induction false} QuoteParses(s: Text, t: Text, i: nat, a: Text, b: Text)
    requires i <= |s| && i <= |t| && s[..i] == t[..i] && QuoteFrom(s, i) + a == QuoteFrom(t, i) + b
    ensures s == t && a == b
    decreases |s| - i
  {
    hide QuoteUnit;
    if i < |s| {
      QuoteUnitLength(s, i, QuoteFrom(s, i + 1) + a);
      assert QuoteFrom(s, i) + a == QuoteUnit(s, i) + (QuoteFrom(s, i + 1) + a);
    }
    if i < |t| {
      QuoteUnitLength(t, i, QuoteFrom(t, i + 1) + b);
      assert QuoteFrom(t, i) + b == QuoteUnit(t, i) + (QuoteFrom(t, i + 1) + b);
    }
    assert i < |s| ==> (QuoteFrom(s, i) + a)[0] == QuoteUnit(s, i)[0];
    assert i < |t| ==> (QuoteFrom(t, i) + b)[0] == QuoteUnit(t, i)[0];
    assert i == |s| ==> (QuoteFrom(s, i) + a)[0] == QUOTE;
    assert i == |t| ==> (QuoteFrom(t, i) + b)[0] == QUOTE;
    if i < |s| && i < |t| {
      SplitPrefix(QuoteUnit(s, i), QuoteFrom(s, i + 1) + a, QuoteUnit(t, i), QuoteFrom(t, i + 1) + b);
      QuoteUnitInjective(s, i, t, i);
      assert s[..i + 1] == s[..i] + [s[i]] && t[..i + 1] == t[..i] + [t[i]];
      QuoteParses(s, t, i + 1, a, b);
    } else {
      assert s == s[..i] && t == t[..i];
      SplitPrefix([QUOTE], a, [QUOTE], b);
    }
  }

  lemma QuoteReadsBack(s: Text, t: Text, a: Text, b: Text)
    requires Quote(s) + a == Quote(t) + b
    ensures s == t && a == b
  {
    hide QuoteFrom;
    assert Quote(s) + a == [QUOTE] + (QuoteFrom(s, 0) + a);
    assert Quote(t) + b == [QUOTE] + (QuoteFrom(t, 0) + b);
    SplitPrefix([QUOTE], QuoteFrom(s, 0) + a, [QUOTE], QuoteFrom(t, 0) + b);
    QuoteParses(s, t, 0, a, b);
  }

  // ----- numbers are read back -------------------------------------------------------------

  /** What can follow a value inside a larger text. */
  predicate Ends(a: Text) {
    a == [] || a[0] == COMMA || a[0] == CLOSE_BRACKET || a[0] == CLOSE_BRACE
  }

  lemma NumeralReadsBack(n: Text, m: Text, a: Text, b: Text)
    requires IsNumeral(n) && IsNumeral(m) && Ends(a) && Ends(b) && n + a == m + b
    ensures n == m && a == b
  {
    assert forall k :: 0 <= k < |m| ==> (m + b)[k] == m[k];
    assert forall k :: 0 <= k < |n| ==> (n + a)[k] == n[k];
    assert a != [] ==> (n + a)[|n|] == a[0];
    assert b != [] ==> (m + b)[|m|] == b[0];
    SplitPrefix(n, a, m, b);
  }

  // ----- values are read back --------------------------------------------------------------

  /** Printing depth, an upper bound for recursion through sorted members. */
  function Depth(v: Json): nat
    decreases v, 0
  {
    match v
    case Arr(items) => 1 + ItemsDepth(items)
    case Obj(ms) => 1 + MembersDepth(ms)
    case _ => 0
  }

  function ItemsDepth(items: seq<Json>): (d: nat)
    ensures forall x | x in items :: Depth(x) <= d
    decreases items, 1
  {
    if items == [] then 0
    else
      var head, tail := Depth(items[0]), ItemsDepth(items[1..]);
      if head > tail then head else tail
  }

  function MembersDepth(ms: seq<Member>): (d: nat)
    ensures forall m | m in ms :: Depth(m.value) <= d
    decreases ms, 1
  {
    if ms == [] then 0
    else
      var head, tail := Depth(ms[0].value), MembersDepth(ms[1..]);
      if head > tail then head else tail
  }

  /** The first code unit tells the kind of a value, and is not one that ends a value. */
  lemma FirstUnit(v: Json)
    requires Serializable(v)
    ensures |Print(v)| > 0
    ensures var u := Print(v)[0];
      match v
      case Null => u == 110
      case Bool(b) => u == if b then 116 else 102
      case Num(n) => IsNumeralUnit(u)
      case Str(_) => u == QUOTE
      case Arr(_) => u == OPEN_BRACKET
      case Obj(_) => u == OPEN_BRACE
  {}

  /** The text of array items up to and including the closing bracket. */
  function ItemsText(items: seq<Json>): Text
    requires forall x | x in items :: Serializable(x)
    decreases |items|, 1
  {
    if items == [] then [CLOSE_BRACKET] else Print(items[0]) + AfterItem(items)
  }

  function AfterItem(items: seq<Json>): (t: Text)
    requires items != [] && forall x | x in items :: Serializable(x)
    decreases |items|, 0
  {
    if |items| == 1 then [CLOSE_BRACKET] else [COMMA] + ItemsText(items[1..])
  }

  lemma {:induction false} ArrayText(items: seq<Json>)
    requires forall x | x in items :: Serializable(x)
    ensures JoinTexts(PrintAll(items)) + [CLOSE_BRACKET] == ItemsText(items)
  {
    if |items| > 1 {
      ArrayText(items[1..]);
      assert PrintAll(items)[1..] == PrintAll(items[1..]);
      var head, tail := Print(items[0]), JoinTexts(PrintAll(items[1..]));
      assert head + [COMMA] + tail + [CLOSE_BRACKET] == head + ([COMMA] + (tail + [CLOSE_BRACKET]));
    }
  }

  function MemberText(m: Member): Text
    requires Serializable(m.value)
  {
    Quote(m.key) + ([COLON] + Print(m.value))
  }

  /** The text of members up to and including the closing brace. */
  function MembersText(ms: seq<Member>): Text
    requires forall m | m in ms :: Serializable(m.value)
    decreases |ms|, 1
  {
    if ms == [] then [CLOSE_BRACE] else MemberText(ms[0]) + AfterMember(ms)
  }

  function AfterMember(ms: seq<Member>): (t: Text)
    requires ms != [] && forall m | m in ms :: Serializable(m.value)
    decreases |ms|, 0
  {
    if |ms| == 1 then [CLOSE_BRACE] else [COMMA] + MembersText(ms[1..])
  }

  lemma {:induction false} ObjectText(ms: seq<Member>)
    requires forall m | m in ms :: Serializable(m.value)
    ensures JoinTexts(EntryTexts(Entries(ms))) + [CLOSE_BRACE] == MembersText(ms)
  {
    hide Print, Quote;
    if ms != [] {
      assert EntryText(Entries(ms)[0]) == MemberText(ms[0]);
    }
    if |ms| > 1 {
      ObjectText(ms[1..]);
      assert EntryTexts(Entries(ms))[1..] == EntryTexts(Entries(ms[1..]));
      var head, tail := MemberText(ms[0]), JoinTexts(EntryTexts(Entries(ms[1..])));
      assert head + [COMMA] + tail + [CLOSE_BRACE] == head + ([COMMA] + (tail + [CLOSE_BRACE]));
    }
  }

  /** Sorting printed entries is printing sorted members. */
  lemma {:induction false} InsertEntries(m: Member, ms: seq<Member>)
    requires Serializable(m.value) && forall n | n in ms :: Serializable(n.value)
    ensures forall n | n in Insert(m, ms) :: Serializable(n.value)
    ensures Insert(Keyed(m.key, Print(m.value)), Entries(ms)) == Entries(Insert(m, ms))
  {
    if ms != [] && !Less(m.key, ms[0].key) {
      InsertEntries(m, ms[1..]);
      assert Entries(ms)[1..] == Entries(ms[1..]);
    }
  }

  lemma {:induction false} SortEntries(ms: seq<Member>)
    requires forall m | m in ms :: Serializable(m.value)
    ensures forall m | m in Sort(ms) :: Serializable(m.value)
    ensures Sort(Entries(ms)) == Entries(Sort(ms))
  {
    if ms != [] {
      SortEntries(ms[1..]);
      InsertEntries(ms[0], Sort(ms[1..]));
      assert Entries(ms)[1..] == Entries(ms[1..]);
    }
  }

  lemma PrintObject(ms: seq<Member>)
    requires Serializable(Obj(ms))
    ensures forall m | m in Sort(ms) :: Serializable(m.value)
    ensures Print(Obj(ms)) == [OPEN_BRACE] + MembersText(Sort(ms))
  {
    SortEntries(ms);
    ObjectText(Sort(ms));
    var inner := JoinTexts(EntryTexts(Sort(Entries(ms))));
    assert [OPEN_BRACE] + inner + [CLOSE_BRACE] == [OPEN_BRACE] + (inner + [CLOSE_BRACE]);
  }

  lemma PrintArray(items: seq<Json>)
    requires Serializable(Arr(items))
    ensures Print(Arr(items)) == [OPEN_BRACKET] + ItemsText(items)
  {
    ArrayText(items);
    var inner := JoinTexts(PrintAll(items));
    assert [OPEN_BRACKET] + inner + [CLOSE_BRACKET] == [OPEN_BRACKET] + (inner + [CLOSE_BRACKET]);
  }

  predicate Proper(v: Json) {
    Serializable(v) && WellFormed(v)
  }

  predicate ProperItems(xs: seq<Json>) {
    (forall x | x in xs :: Serializable(x)) && (forall x | x in xs :: WellFormed(x))
  }

  predicate ProperMembers(ms: seq<Member>) {
    (forall m | m in ms :: Serializable(m.value)) && (forall m | m in ms :: WellFormed(m.value))
  }

  /** Members in ascending key order that agree place by place. */
  ghost predicate Aligned(ms: seq<Member>, ns: seq<Member>) {
    |ms| == |ns| && forall i :: 0 <= i < |ms| ==> ms[i].key == ns[i].key && Same(ms[i].value, ns[i].value)
  }

  lemma SplitUnit(p: Text, a: Text, q: Text, b: Text, u: CodeUnit)
    requires p + a == q + b
    ensures |p| > 0 && |q| > 0 ==> p[0] == q[0]
    ensures p == [u] && q == [u] ==> a == b
  {
    assert |p| > 0 ==> (p + a)[0] == p[0];
    assert |q| > 0 ==> (q + b)[0] == q[0];
    if p == [u] && q == [u] {
      SplitPrefix(p, a, q, b);
    }
  }

  lemma Reassociate(p: Text, q: Text, r: Text)
    ensures (p + q) + r == p + (q + r)
  {}

  /** A printed value followed by something that ends a value can be read in one way only. */
  lemma {:induction false} Parses(v: Json, w: Json, a: Text, b: Text, d: nat)
    requires Proper(v) && Proper(w) && Ends(a) && Ends(b) && Print(v) + a == Print(w) + b && Depth(v) <= d
    ensures Same(v, w) && a == b
    decreases d, 0
  {
    hide Quote;
    FirstUnit(v);
    FirstUnit(w);
    SplitUnit(Print(v), a, Print(w), b, 0);
    match v
    case Null => SplitPrefix(Print(v), a, Print(w), b);
    case Bool(_) => SplitPrefix(Print(v), a, Print(w), b);
    case Num(n) => NumeralReadsBack(n.numeral, w.n.numeral, a, b);
    case Str(s) => QuoteReadsBack(s, w.s, a, b);
    case Arr(xs) => ArrayParses(xs, w.items, a, b, d);
    case Obj(ms) => ObjectParses(ms, w.members, a, b, d);
  }

  lemma {:induction false} ArrayParses(xs: seq<Json>, ys: seq<Json>, a: Text, b: Text, d: nat)
    requires Proper(Arr(xs)) && Proper(Arr(ys)) && Print(Arr(xs)) + a == Print(Arr(ys)) + b && Depth(Arr(xs)) <= d
    ensures Same(Arr(xs), Arr(ys)) && a == b
    decreases d - 1, 2 + |xs|
  {
    hide Print;
    PrintArray(xs);
    PrintArray(ys);
    Reassociate([OPEN_BRACKET], ItemsText(xs), a);
    Reassociate([OPEN_BRACKET], ItemsText(ys), b);
    SplitUnit([OPEN_BRACKET], ItemsText(xs) + a, [OPEN_BRACKET], ItemsText(ys) + b, OPEN_BRACKET);
    ItemsParse(xs, ys, a, b, d - 1);
  }

  lemma {:induction false} ItemsParse(xs: seq<Json>, ys: seq<Json>, a: Text, b: Text, d: nat)
    requires ProperItems(xs) && ProperItems(ys) && forall x | x in xs :: Depth(x) <= d
    requires ItemsText(xs) + a == ItemsText(ys) + b
    ensures |xs| == |ys| && (forall i :: 0 <= i < |xs| ==> Same(xs[i], ys[i])) && a == b
    decreases d, 1 + |xs|
  {
    hide Print;
    if xs != [] { FirstUnit(xs[0]); ItemsStart(xs); }
    if ys != [] { FirstUnit(ys[0]); ItemsStart(ys); }
    SplitUnit(ItemsText(xs), a, ItemsText(ys), b, CLOSE_BRACKET);
    if xs != [] && ys != [] {
      Reassociate(Print(xs[0]), AfterItem(xs), a);
      Reassociate(Print(ys[0]), AfterItem(ys), b);
      assert Ends(AfterItem(xs) + a) && Ends(AfterItem(ys) + b);
      Parses(xs[0], ys[0], AfterItem(xs) + a, AfterItem(ys) + b, d);
      SplitUnit(AfterItem(xs), a, AfterItem(ys), b, CLOSE_BRACKET);
      if |xs| > 1 && |ys| > 1 {
        Reassociate([COMMA], ItemsText(xs[1..]), a);
        Reassociate([COMMA], ItemsText(ys[1..]), b);
        SplitUnit([COMMA], ItemsText(xs[1..]) + a, [COMMA], ItemsText(ys[1..]) + b, COMMA);
        ItemsParse(xs[1..], ys[1..], a, b, d);
        forall i | 0 <= i < |xs| ensures Same(xs[i], ys[i]) {
          if i > 0 {
            assert xs[i] == xs[1..][i - 1] && ys[i] == ys[1..][i - 1];
          }
        }
      }
    }
  }

  lemma ItemsStart(xs: seq<Json>)
    requires xs != [] && forall x | x in xs :: Serializable(x)
    ensures |ItemsText(xs)| > 0 && |Print(xs[0])| > 0 && ItemsText(xs)[0] == Print(xs[0])[0]
      && ItemsText(xs)[0] != CLOSE_BRACKET
  {
    FirstUnit(xs[0]);
  }

  lemma {:induction false} ObjectParses(ms: seq<Member>, ns: seq<Member>, a: Text, b: Text, d: nat)
    requires Proper(Obj(ms)) && Proper(Obj(ns)) && Print(Obj(ms)) + a == Print(Obj(ns)) + b && Depth(Obj(ms)) <= d
    ensures Same(Obj(ms), Obj(ns)) && a == b
    decreases d - 1, 2 + |ms|
  {
    hide Print, Same;
    PrintObject(ms);
    PrintObject(ns);
    Reassociate([OPEN_BRACE], MembersText(Sort(ms)), a);
    Reassociate([OPEN_BRACE], MembersText(Sort(ns)), b);
    SplitUnit([OPEN_BRACE], MembersText(Sort(ms)) + a, [OPEN_BRACE], MembersText(Sort(ns)) + b, OPEN_BRACE);
    forall m | m in Sort(ms) ensures Proper(m.value) && Depth(m.value) <= d - 1 {
      SortKeeps(ms, m);
    }
    forall n | n in Sort(ns) ensures Proper(n.value) {
      SortKeeps(ns, n);
    }
    SortKeeps(ms, Keyed([], Null));
    MembersParse(Sort(ms), Sort(ns), a, b, d - 1);
    AlignedIsSame(ms, ns);
  }

  lemma {:induction false} MembersParse(ms: seq<Member>, ns: seq<Member>, a: Text, b: Text, d: nat)
    requires ProperMembers(ms) && ProperMembers(ns) && forall m | m in ms :: Depth(m.value) <= d
    requires MembersText(ms) + a == MembersText(ns) + b
    ensures Aligned(ms, ns) && a == b
    decreases d, 1 + |ms|
  {
    hide Print, Quote, Same;
    if ms != [] { MembersStart(ms); }
    if ns != [] { MembersStart(ns); }
    SplitUnit(MembersText(ms), a, MembersText(ns), b, CLOSE_BRACE);
    if ms != [] && ns != [] {
      MemberParses(ms, ns, a, b, d);
      SplitUnit(AfterMember(ms), a, AfterMember(ns), b, CLOSE_BRACE);
      if |ms| > 1 && |ns| > 1 {
        Reassociate([COMMA], MembersText(ms[1..]), a);
        Reassociate([COMMA], MembersText(ns[1..]), b);
        SplitUnit([COMMA], MembersText(ms[1..]) + a, [COMMA], MembersText(ns[1..]) + b, COMMA);
        MembersParse(ms[1..], ns[1..], a, b, d);
        forall i | 0 <= i < |ms| ensures ms[i].key == ns[i].key && Same(ms[i].value, ns[i].value) {
          if i > 0 {
            assert ms[i] == ms[1..][i - 1] && ns[i] == ns[1..][i - 1];
          }
        }
      }
    }
  }

  /** The first member is read back, and what follows it is left. */
  lemma {:induction false} MemberParses(ms: seq<Member>, ns: seq<Member>, a: Text, b: Text, d: nat)
    requires ms != [] && ns != [] && ProperMembers(ms) && ProperMembers(ns)
    requires Depth(ms[0].value) <= d && MembersText(ms) + a == MembersText(ns) + b
    ensures ms[0].key == ns[0].key && Same(ms[0].value, ns[0].value) && AfterMember(ms) + a == AfterMember(ns) + b
    decreases d, 1
  {
    hide Print, Quote, Same;
    var x, y := Print(ms[0].value), Print(ns[0].value);
    var r, s := AfterMember(ms) + a, AfterMember(ns) + b;
    assert MembersText(ms) + a == Quote(ms[0].key) + ([COLON] + (x + r));
    assert MembersText(ns) + b == Quote(ns[0].key) + ([COLON] + (y + s));
    QuoteReadsBack(ms[0].key, ns[0].key, [COLON] + (x + r), [COLON] + (y + s));
    SplitUnit([COLON], x + r, [COLON], y + s, COLON);
    assert Ends(r) && Ends(s);
    Parses(ms[0].value, ns[0].value, r, s, d);
  }

  lemma MembersStart(ms: seq<Member>)
    requires ms != [] && forall m | m in ms :: Serializable(m.value)
    ensures |MembersText(ms)| > 0 && MembersText(ms)[0] == QUOTE
  {
    hide Print, QuoteFrom, MembersText;
    assert MembersText(ms) == MemberText(ms[0]) + AfterMember(ms) by { MembersUnfold(ms); }
    assert MemberText(ms[0])[0] == QUOTE;
  }

  lemma MembersUnfold(ms: seq<Member>)
    requires ms != [] && forall m | m in ms :: Serializable(m.value)
    ensures MembersText(ms) == MemberText(ms[0]) + AfterMember(ms)
  {}

  // ----- objects as maps -------------------------------------------------------------------

  lemma SortedAt(ms: seq<Member>, i: nat) returns (p: nat)
    requires i < |ms|
    ensures p < |Sort(ms)| && Sort(ms)[p] == ms[i]
  {
    SortKeeps(ms, ms[i]);
    p :| 0 <= p < |Sort(ms)| && Sort(ms)[p] == ms[i];
  }

  lemma UnsortedAt(ms: seq<Member>, p: nat) returns (i: nat)
    requires p < |Sort(ms)|
    ensures i < |ms| && ms[i] == Sort(ms)[p]
  {
    SortKeeps(ms, Sort(ms)[p]);
    i :| 0 <= i < |ms| && ms[i] == Sort(ms)[p];
  }

  lemma AlignedKeys(ms: seq<Member>, ns: seq<Member>)
    requires Aligned(Sort(ms), Sort(ns))
    ensures forall i :: 0 <= i < |ms| ==> HasKey(ns, ms[i].key)
  {
    hide Same, Sort;
    forall i | 0 <= i < |ms| ensures HasKey(ns, ms[i].key) {
      var p := SortedAt(ms, i);
      var j := UnsortedAt(ns, p);
      assert ns[j].key == ms[i].key;
    }
  }

  lemma AlignedKeysBack(ms: seq<Member>, ns: seq<Member>)
    requires Aligned(Sort(ms), Sort(ns))
    ensures forall j :: 0 <= j < |ns| ==> HasKey(ms, ns[j].key)
  {
    hide Same, Sort;
    forall j | 0 <= j < |ns| ensures HasKey(ms, ns[j].key) {
      var p := SortedAt(ns, j);
      var i := UnsortedAt(ms, p);
      assert ms[i].key == ns[j].key;
    }
  }

  lemma AlignedIsSame(ms: seq<Member>, ns: seq<Member>)
    requires DistinctKeys(ms) && DistinctKeys(ns) && Aligned(Sort(ms), Sort(ns))
    ensures Same(Obj(ms), Obj(ns))
  {
    AlignedKeys(ms, ns);
    AlignedKeysBack(ms, ns);
    forall i, j | 0 <= i < |ms| && 0 <= j < |ns| && ms[i].key == ns[j].key ensures Same(ms[i].value, ns[j].value) {
      var p := SortedAt(ms, i);
      var q := SortedAt(ns, j);
      SortAscends(ns);
      LessIrreflexive(ns[j].key);
      assert p == q;
    }
  }

  // ----- the same value prints the same text -----------------------------------------------

  lemma {:induction false} SameSerializable(v: Json, w: Json)
    requires Same(v, w) && Serializable(v)
    ensures Serializable(w)
  {
    match v
    case Arr(xs) =>
      forall y | y in w.items ensures Serializable(y) {
        var i :| 0 <= i < |w.items| && w.items[i] == y;
        SameSerializable(xs[i], y);
      }
    case Obj(ms) =>
      forall n | n in w.members ensures Serializable(n.value) {
        var j :| 0 <= j < |w.members| && w.members[j] == n;
        assert HasKey(ms, w.members[j].key);
        var i :| 0 <= i < |ms| && ms[i].key == w.members[j].key;
        SameSerializable(ms[i].value, n.value);
      }
    case _ =>
  }

  lemma SortedKeys(ms: seq<Member>, ns: seq<Member>)
    requires SameKeys(ms, ns)
    ensures SameKeys(Sort(ms), Sort(ns))
  {
    hide Sort;
    forall p | 0 <= p < |Sort(ms)| ensures HasKey(Sort(ns), Sort(ms)[p].key) {
      var i := UnsortedAt(ms, p);
      assert HasKey(ns, ms[i].key);
      var j :| 0 <= j < |ns| && ns[j].key == ms[i].key;
      var q := SortedAt(ns, j);
      assert Sort(ns)[q].key == Sort(ms)[p].key;
    }
    forall q | 0 <= q < |Sort(ns)| ensures HasKey(Sort(ms), Sort(ns)[q].key) {
      var j := UnsortedAt(ns, q);
      assert HasKey(ms, ns[j].key);
      var i :| 0 <= i < |ms| && ms[i].key == ns[j].key;
      var p := SortedAt(ms, i);
      assert Sort(ms)[p].key == Sort(ns)[q].key;
    }
  }

  /** Objects with the same members, in whatever order, have the same members in key order. */
  lemma SameIsAligned(ms: seq<Member>, ns: seq<Member>)
    requires DistinctKeys(ms) && DistinctKeys(ns) && Same(Obj(ms), Obj(ns))
    ensures Aligned(Sort(ms), Sort(ns))
  {
    SortedKeys(ms, ns);
    SortAscends(ms);
    SortAscends(ns);
    AscendingUnique(Sort(ms), Sort(ns));
    forall p | 0 <= p < |Sort(ms)| ensures Same(Sort(ms)[p].value, Sort(ns)[p].value) {
      var i := UnsortedAt(ms, p);
      var j := UnsortedAt(ns, p);
      assert ms[i].key == ns[j].key;
    }
  }

  lemma {:induction false} SamePrints(v: Json, w: Json, d: nat)
    requires Proper(v) && Proper(w) && Same(v, w) && Depth(v) <= d
    ensures Print(v) == Print(w)
    decreases d, 0
  {
    match v
    case Arr(xs) =>
      forall i | 0 <= i < |xs| ensures PrintAll(xs)[i] == PrintAll(w.items)[i] {
        SamePrints(xs[i], w.items[i], d - 1);
      }
      assert PrintAll(xs) == PrintAll(w.items);
    case Obj(ms) => ObjectPrints(ms, w.members, d);
    case _ =>
  }

  lemma {:induction false} ObjectPrints(ms: seq<Member>, ns: seq<Member>, d: nat)
    requires Proper(Obj(ms)) && Proper(Obj(ns)) && Same(Obj(ms), Obj(ns)) && Depth(Obj(ms)) <= d
    ensures Print(Obj(ms)) == Print(Obj(ns))
    decreases d - 1, 1
  {
    hide Same, Sort, Entries, EntryTexts, JoinTexts;
    SameIsAligned(ms, ns);
    SortEntries(ms);
    SortEntries(ns);
    var es, fs := Entries(Sort(ms)), Entries(Sort(ns));
    forall p | 0 <= p < |es| ensures es[p] == fs[p] {
      SortKeeps(ms, Sort(ms)[p]);
      SortKeeps(ns, Sort(ns)[p]);
      SamePrints(Sort(ms)[p].value, Sort(ns)[p].value, d - 1);
    }
    assert es == fs;
  }

  // ----- canonicity ------------------------------------------------------------------------

  /** Two JavaScript values print the same text exactly when they are the same JSON value. */
  lemma Canonical(v: Json, w: Json)
    requires WellFormed(v) && WellFormed(w) && Serializable(v)
    ensures Canonicalize(v) == Canonicalize(w) <==> Same(v, w)
  {
    if Same(v, w) {
      SameSerializable(v, w);
      SamePrints(v, w, Depth(v));
    } else if Serializable(w) && Print(v) == Print(w) {
      Parses(v, w, [], [], Depth(v));
    }
  }

  /** An object's members are printed in strictly ascending key order, each of them once. */
  lemma PrintedInKeyOrder(ms: seq<Member>)
    requires Proper(Obj(ms))
    ensures multiset(Sort(ms)) == multiset(ms) && Ascending(Sort(ms))
    ensures forall m | m in Sort(ms) :: Serializable(m.value)
    ensures Print(Obj(ms)) == [OPEN_BRACE] + MembersText(Sort(ms))
  {
    SortPermutes(ms);
    SortAscends(ms);
    PrintObject(ms);
  }
}
