/**
 Canonical atomic-unit amounts (packages/schemas/src/money.ts) and the arithmetic done on them
 as text (packages/policy-engine/src/index.ts, packages/transaction-pipeline/src/simulation.ts).
 */
module Decimal {
  import opened Texts

  const ZERO: CodeUnit := 48
  const MAX_UINT256 := 0xffffffff_ffffffff_ffffffff_ffffffff_ffffffff_ffffffff_ffffffff_ffffffff

  /** The digits the source writes out. */
  const MAX_UINT256_TEXT: Text :=
    Lit("1157920892373") + Lit("1619542357098") + Lit("5008687907853")
    + Lit("2699846656405") + Lit("6403945758400") + Lit("7913129639935")

  predicate IsDigit(u: CodeUnit) {
    ZERO <= u <= ZERO + 9
  }

  predicate AllDigits(t: Text) {
    forall i :: 0 <= i < |t| ==> IsDigit(t[i])
  }

  /** The pattern ^(?:0|[1-9][0-9]*)$. */
  predicate IsCanonical(t: Text) {
    |t| > 0 && AllDigits(t) && (t[0] == ZERO ==> |t| == 1)
  }

  /** The number a run of decimal digits denotes. */
  function Value(t: Text): nat
    requires AllDigits(t)
  {
    if t == [] then 0 else 10 * Value(t[..|t| - 1]) + (t[|t| - 1] - ZERO)
  }

  /** The canonical text of a number. */
  function Render(n: nat): (t: Text)
    ensures IsCanonical(t)
    ensures Value(t) == n
  {
    if n < 10 then [ZERO + n] else
      var front := Render(n / 10);
      var t := front + [ZERO + n % 10];
      assert t[..|t| - 1] == front;
      assert Value([ZERO]) == 0;
      t
  }

  /** d shifted k places to the left: d * 10^k, written without a product. */
  function Place(d: int, k: nat): int {
    if k == 0 then d else 10 * Place(d, k - 1)
  }

  // ----- the code under study --------------------------------------------------------------

  /** JavaScript's < on strings of equal length. */
  predicate TextLess(a: Text, b: Text)
    requires |a| == |b|
  {
    a != [] && (a[0] < b[0] || (a[0] == b[0] && TextLess(a[1..], b[1..])))
  }

  function Compare(left: Text, right: Text): (c: int) {
    if |left| != |right| then (if |left| < |right| then -1 else 1)
    else if left == right then 0 else if TextLess(left, right) then -1 else 1
  }

  predicate AtMost(value: Text, limit: Text) {
    Compare(value, limit) <= 0
  }

  function MinAtomic(left: Text, right: Text): Text {
    if |left| < |right| || (|left| == |right| && (left == right || TextLess(left, right))) then left else right
  }

  /** The refinement isWithinUint256: texts that are not canonical are left to the pattern to refuse. */
  predicate WithinUint256(t: Text) {
    Within(t, MAX_UINT256_TEXT)
  }

  predicate Within(t: Text, maximum: Text) {
    if !IsCanonical(t) then true
    else if |t| != |maximum| then |t| < |maximum|
    else t == maximum || TextLess(t, maximum)
  }

  /** What atomicUnitSchema accepts. */
  predicate IsAtomic(t: Text) {
    |t| <= 78 && IsCanonical(t) && WithinUint256(t)
  }

  /** What positiveAtomicUnitSchema accepts. */
  predicate IsPositiveAtomic(t: Text) {
    IsAtomic(t) && t != [ZERO]
  }

  function Reverse(ds: seq<CodeUnit>): (t: Text)
    ensures |t| == |ds|
    ensures AllDigits(ds) ==> AllDigits(t)
  {
    if ds == [] then [] else [ds[|ds| - 1]] + Reverse(ds[..|ds| - 1])
  }

  /** replace(/^0+(?=\d)/, ""). */
  function StripZeros(t: Text): (s: Text)
    requires AllDigits(t)
    ensures AllDigits(s)
    ensures t != [] ==> IsCanonical(s)
  {
    if |t| > 1 && t[0] == ZERO then StripZeros(t[1..]) else t
  }

  /** subtractAtomic: schoolbook subtraction with a borrow, digits pushed from the least significant end. */
  method Subtract(left: Text, right: Text) returns (r: Text)
    requires IsCanonical(left) && IsCanonical(right)
    ensures IsCanonical(r)
    ensures Value(r) == if Value(right) <= Value(left) then Value(left) - Value(right) else 0
  {
    hide AtMost, SubtractedSoFar, Reverse, StripZeros;
    CompareIsNumeric(right, left);
    if !AtMost(right, left) {
      assert [ZERO][..0] == [];
      return [ZERO];
    }
    var digits: seq<CodeUnit> := [];
    var borrow := 0;
    NothingSubtracted(left, right);
    var leftIndex := |left| - 1;
    var rightIndex := |right| - 1;
    while leftIndex >= 0
      invariant -1 <= leftIndex < |left|
      invariant |digits| == |left| - 1 - leftIndex
      invariant rightIndex == |right| - 1 - |digits|
      invariant (borrow == 0 || borrow == 1) && AllDigits(digits)
      invariant SubtractedSoFar(left, right, digits, borrow)
    {
      ghost var owed := borrow;
      var digit := left[leftIndex] - ZERO - borrow;
      var rightDigit := if rightIndex >= 0 then right[rightIndex] - ZERO else 0;
      if digit < rightDigit {
        digit := digit + 10;
        borrow := 1;
      } else {
        borrow := 0;
      }
      var difference := digit - rightDigit;
      BorrowStep(left, right, digits, owed, difference, borrow);
      digits := digits + [ZERO + difference];
      leftIndex := leftIndex - 1;
      rightIndex := rightIndex - 1;
    }
    r := StripZeros(Reverse(digits));
    BorrowPaidBack(left, right, digits, borrow);
  }

  // ----- proofs ----------------------------------------------------------------------------

  lemma {:induction false} PlaceAdds(x: int, y: int, k: nat)
    ensures Place(x + y, k) == Place(x, k) + Place(y, k)
  {
    if k > 0 {
      PlaceAdds(x, y, k - 1);
    }
  }

  lemma {:induction false} PlaceShifts(x: int, k: nat)
    ensures Place(10 * x, k) == Place(x, k + 1)
  {
    if k > 0 {
      PlaceShifts(x, k - 1);
    }
  }

  lemma {:induction false} PlaceOrder(x: int, y: int, k: nat)
    requires x <= y
    ensures Place(x, k) <= Place(y, k)
  {
    if k > 0 {
      PlaceOrder(x, y, k - 1);
    }
  }

  lemma {:induction false} PlaceGrows(j: nat, k: nat)
    requires j <= k
    ensures 0 < Place(1, j) <= Place(1, k)
  {
    if j < k {
      PlaceGrows(j, k - 1);
    } else if j > 0 {
      PlaceGrows(j - 1, j - 1);
    }
  }

  lemma {:induction false} Concat(a: Text, b: Text)
    requires AllDigits(a) && AllDigits(b)
    ensures AllDigits(a + b)
    ensures Value(a + b) == Place(Value(a), |b|) + Value(b)
  {
    if b == [] {
      assert a + b == a;
    } else {
      var front := b[..|b| - 1];
      Concat(a, front);
      assert (a + b)[..|a + b| - 1] == a + front;
    }
  }

  lemma {:induction false} Cons(u: CodeUnit, t: Text)
    requires IsDigit(u) && AllDigits(t)
    ensures AllDigits([u] + t)
    ensures Value([u] + t) == Place(u - ZERO, |t|) + Value(t)
  {
    Concat([u], t);
    assert [u][..0] == [];
    assert Value([u]) == u - ZERO;
  }

  /** n digits denote a number below 10^n. */
  lemma {:induction false} Bound(t: Text)
    requires AllDigits(t)
    ensures Value(t) < Place(1, |t|)
  {
    if t != [] {
      Bound(t[..|t| - 1]);
    }
  }

  lemma {:induction false} LeadingDigit(t: Text)
    requires IsCanonical(t) && t[0] != ZERO
    ensures Value(t) >= Place(1, |t| - 1)
  {
    assert t == [t[0]] + t[1..];
    Cons(t[0], t[1..]);
    PlaceOrder(1, t[0] - ZERO, |t| - 1);
  }

  /** A canonical text with more digits denotes a larger number. */
  lemma {:induction false} LongerIsLarger(a: Text, b: Text)
    requires IsCanonical(a) && IsCanonical(b)
    ensures |a| < |b| ==> Value(a) < Value(b)
    ensures |b| < |a| ==> Value(b) < Value(a)
  {
    if |a| < |b| {
      Bound(a);
      LeadingDigit(b);
      PlaceGrows(|a|, |b| - 1);
    } else if |b| < |a| {
      Bound(b);
      LeadingDigit(a);
      PlaceGrows(|b|, |a| - 1);
    }
  }

  /** On equally many digits, text order is number order. */
  lemma {:induction false} SameLengthOrder(a: Text, b: Text)
    requires |a| == |b| && AllDigits(a) && AllDigits(b)
    ensures TextLess(a, b) <==> Value(a) < Value(b)
    ensures a == b <==> Value(a) == Value(b)
  {
    if a != [] {
      assert a == [a[0]] + a[1..] && b == [b[0]] + b[1..];
      Cons(a[0], a[1..]);
      Cons(b[0], b[1..]);
      Bound(a[1..]);
      Bound(b[1..]);
      SameLengthOrder(a[1..], b[1..]);
      DigitDominates(a[0] - ZERO, b[0] - ZERO, |a| - 1, Value(a[1..]), Value(b[1..]));
    }
  }

  lemma {:induction false} DigitDominates(x: nat, y: nat, k: nat, u: nat, v: nat)
    requires u < Place(1, k) && v < Place(1, k)
    ensures x < y ==> Place(x, k) + u < Place(y, k) + v
    ensures y < x ==> Place(y, k) + v < Place(x, k) + u
  {
    PlaceAdds(x, 1, k);
    PlaceAdds(y, 1, k);
    if x < y {
      PlaceOrder(x + 1, y, k);
    } else if y < x {
      PlaceOrder(y + 1, x, k);
    }
  }

  /** compareAtomic orders canonical texts as the numbers they denote. */
  lemma {:induction false} CompareIsNumeric(a: Text, b: Text)
    requires IsCanonical(a) && IsCanonical(b)
    ensures Compare(a, b) < 0 <==> Value(a) < Value(b)
    ensures Compare(a, b) == 0 <==> Value(a) == Value(b)
    ensures AtMost(a, b) <==> Value(a) <= Value(b)
  {
    LongerIsLarger(a, b);
    if |a| == |b| {
      SameLengthOrder(a, b);
    }
  }

  /** minAtomic returns the text of the smaller number. */
  lemma {:induction false} MinIsNumeric(a: Text, b: Text)
    requires IsCanonical(a) && IsCanonical(b)
    ensures MinAtomic(a, b) in {a, b}
    ensures Value(MinAtomic(a, b)) == if Value(a) <= Value(b) then Value(a) else Value(b)
  {
    LongerIsLarger(a, b);
    if |a| == |b| {
      SameLengthOrder(a, b);
    }
  }

  /** Canonical texts and numbers correspond one to one. */
  lemma {:induction false} CanonicalIsRendered(t: Text)
    requires IsCanonical(t)
    ensures Render(Value(t)) == t
  {
    LongerIsLarger(Render(Value(t)), t);
    SameLengthOrder(Render(Value(t)), t);
  }

  lemma {:induction false} StripKeepsValue(t: Text)
    requires AllDigits(t)
    ensures Value(StripZeros(t)) == Value(t)
  {
    if |t| > 1 && t[0] == ZERO {
      assert t == [t[0]] + t[1..];
      Cons(t[0], t[1..]);
      PlaceAdds(0, 0, |t| - 1);
      StripKeepsValue(t[1..]);
    }
  }

  lemma {:induction false} ReverseSnoc(ds: seq<CodeUnit>, u: CodeUnit)
    ensures Reverse(ds + [u]) == [u] + Reverse(ds)
  {
    assert (ds + [u])[..|ds|] == ds;
  }

  /** The last k digits of t, or all of them. */
  function Tail(t: Text, k: nat): (s: Text)
    ensures AllDigits(t) ==> AllDigits(s)
  {
    if k >= |t| then t else t[|t| - k..]
  }

  /** The k-th digit from the right, zero beyond the text. */
  function DigitAt(t: Text, k: nat): int {
    if k < |t| then t[|t| - 1 - k] - ZERO else 0
  }

  /** The digits out so far are the difference of the tails, with a borrow owed by the next digit. */
  ghost predicate SubtractedSoFar(left: Text, right: Text, ds: seq<CodeUnit>, borrow: int) {
    && AllDigits(left) && AllDigits(right) && AllDigits(ds)
    && Value(Tail(left, |ds|)) + Place(borrow, |ds|) == Value(Reverse(ds)) + Value(Tail(right, |ds|))
  }

  lemma {:induction false} NothingSubtracted(left: Text, right: Text)
    requires AllDigits(left) && AllDigits(right)
    ensures SubtractedSoFar(left, right, [], 0)
  {
    assert Tail(left, 0) == [] && Tail(right, 0) == [] && Reverse([]) == [];
  }

  lemma {:induction false} TailStep(t: Text, k: nat)
    requires AllDigits(t)
    ensures Value(Tail(t, k + 1)) == Place(DigitAt(t, k), k) + Value(Tail(t, k))
  {
    if k < |t| {
      assert Tail(t, k) == t[|t| - k..];
      assert Tail(t, k + 1) == [t[|t| - 1 - k]] + Tail(t, k);
      Cons(t[|t| - 1 - k], Tail(t, k));
    } else {
      PlaceAdds(0, 0, k);
    }
  }

  lemma {:induction false} BorrowDigit(l: int, r: int, d: int, borrow: int, next: int, k: nat)
    requires d == l - borrow + 10 * next - r
    ensures Place(l, k) + Place(next, k + 1) == Place(d, k) + Place(r, k) + Place(borrow, k)
  {
    PlaceShifts(next, k);
    PlaceAdds(l, 10 * next, k);
    PlaceAdds(d, r + borrow, k);
    PlaceAdds(r, borrow, k);
    assert l + 10 * next == d + (r + borrow);
  }

  /** One turn of the borrow loop keeps its invariant. */
  lemma {:induction false} BorrowStep(left: Text, right: Text, ds: seq<CodeUnit>, borrow: int, d: int, next: int)
    requires SubtractedSoFar(left, right, ds, borrow) && 0 <= d <= 9
    requires d == DigitAt(left, |ds|) - borrow + 10 * next - DigitAt(right, |ds|)
    ensures SubtractedSoFar(left, right, ds + [ZERO + d], next)
  {
    var out, k := ds + [ZERO + d], |ds|;
    assert AllDigits(out) && |out| == k + 1;
    assert Value(Reverse(out)) == Place(d, k) + Value(Reverse(ds)) by {
      ReverseSnoc(ds, ZERO + d);
      Cons(ZERO + d, Reverse(ds));
    }
    TailStep(left, k);
    TailStep(right, k);
    BorrowDigit(DigitAt(left, k), DigitAt(right, k), d, borrow, next, k);
    assert Value(Tail(left, k + 1)) + Place(next, k + 1) == Value(Reverse(out)) + Value(Tail(right, k + 1));
  }

  /** When the left number is not the smaller one, nothing is owed after the last digit. */
  lemma {:induction false} BorrowPaidBack(left: Text, right: Text, ds: seq<CodeUnit>, borrow: int)
    requires IsCanonical(left) && IsCanonical(right)
    requires SubtractedSoFar(left, right, ds, borrow) && |ds| == |left| && borrow in {0, 1}
    requires Value(right) <= Value(left)
    ensures Value(StripZeros(Reverse(ds))) == Value(left) - Value(right)
  {
    var out := Reverse(ds);
    assert Tail(left, |ds|) == left && Tail(right, |ds|) == right by { LongerIsLarger(left, right); }
    Bound(out);
    PlaceAdds(0, 0, |ds|);
    assert Value(out) == Value(left) - Value(right);
    StripKeepsValue(out);
  }

  lemma {:induction false} Snoc(t: Text, k: nat)
    requires AllDigits(t) && k < |t|
    ensures Value(t[..k + 1]) == 10 * Value(t[..k]) + (t[k] - ZERO)
  {
    assert t[..k + 1][..k] == t[..k];
  }

  /** Thirteen digits at once. */
  lemma {:induction false} Thirteen(t: Text)
    requires |t| == 13 && AllDigits(t)
    ensures Value(t) ==
      1000000000000 * (t[0] - ZERO) + 100000000000 * (t[1] - ZERO) + 10000000000 * (t[2] - ZERO)
        + 1000000000 * (t[3] - ZERO)
      + 100000000 * (t[4] - ZERO) + 10000000 * (t[5] - ZERO) + 1000000 * (t[6] - ZERO) + 100000 * (t[7] - ZERO)
      + 10000 * (t[8] - ZERO) + 1000 * (t[9] - ZERO) + 100 * (t[10] - ZERO) + 10 * (t[11] - ZERO)
      + (t[12] - ZERO)
  {
    hide Value;
    assert Value(t[..0]) == 0 by { NoDigits(t); }
    Snoc(t, 0);
    Snoc(t, 1);
    Snoc(t, 2);
    Snoc(t, 3);
    Snoc(t, 4);
    Snoc(t, 5);
    Snoc(t, 6);
    Snoc(t, 7);
    Snoc(t, 8);
    Snoc(t, 9);
    Snoc(t, 10);
    Snoc(t, 11);
    Snoc(t, 12);
    assert t[..13] == t;
  }

  lemma NoDigits(t: Text)
    requires AllDigits(t)
    ensures Value(t[..0]) == 0
  {}

  lemma {:induction false} Shift13(x: int)
    ensures Place(x, 13) == 10000000000000 * x
  {
    assert Place(x, 1) == 10 * x;
    assert Place(x, 3) == 1000 * x;
    assert Place(x, 5) == 100000 * x;
    assert Place(x, 7) == 10000000 * x;
    assert Place(x, 9) == 1000000000 * x;
    assert Place(x, 11) == 100000000000 * x;
  }

  /** Appending thirteen digits. */
  lemma {:induction false} Append13(front: Text, back: Text)
    requires AllDigits(front) && AllDigits(back) && |back| == 13
    ensures AllDigits(front + back) && Value(front + back) == 10000000000000 * Value(front) + Value(back)
  {
    Concat(front, back);
    Shift13(Value(front));
  }

  /** The digits the source writes out denote 2^256 - 1, and there are 78 of them. */
  lemma {:induction false} MaxText()
    ensures |MAX_UINT256_TEXT| == 78 && IsCanonical(MAX_UINT256_TEXT) && Value(MAX_UINT256_TEXT) == MAX_UINT256
  {
    hide Value;
    var a := Lit("1157920892373");
    var b := Lit("1619542357098");
    var c := Lit("5008687907853");
    var d := Lit("2699846656405");
    var e := Lit("6403945758400");
    var f := Lit("7913129639935");
    assert AllDigits(a) && Value(a) == 1157920892373 by { Thirteen(a); }
    assert AllDigits(b) && Value(b) == 1619542357098 by { Thirteen(b); }
    assert AllDigits(c) && Value(c) == 5008687907853 by { Thirteen(c); }
    assert AllDigits(d) && Value(d) == 2699846656405 by { Thirteen(d); }
    assert AllDigits(e) && Value(e) == 6403945758400 by { Thirteen(e); }
    assert AllDigits(f) && Value(f) == 7913129639935 by { Thirteen(f); }
    Append13(a, b);
    Append13(a + b, c);
    Append13(a + b + c, d);
    Append13(a + b + c + d, e);
    Append13(a + b + c + d + e, f);
    assert MAX_UINT256_TEXT == a + b + c + d + e + f;
  }

  lemma {:induction false} OnlyZeroIsZero(t: Text)
    requires IsCanonical(t)
    ensures t == [ZERO] <==> Value(t) == 0
  {
    CompareIsNumeric(t, [ZERO]);
    assert Value([ZERO]) == 0 by { assert [ZERO][..0] == []; }
  }

  lemma {:induction false} WithinIsNumeric(t: Text, maximum: Text)
    requires IsCanonical(maximum)
    ensures |t| <= |maximum| && IsCanonical(t) && Within(t, maximum) <==> IsCanonical(t) && Value(t) <= Value(maximum)
    ensures IsCanonical(t) ==> (t == [ZERO] <==> Value(t) == 0)
  {
    if IsCanonical(t) {
      CompareIsNumeric(t, maximum);
      LongerIsLarger(t, maximum);
      OnlyZeroIsZero(t);
    }
  }

  /** The schema accepts a canonical text exactly when its number fits in 256 bits. */
  lemma {:induction false} AtomicIsUint256(t: Text)
    ensures IsAtomic(t) <==> IsCanonical(t) && Value(t) <= MAX_UINT256
    ensures IsPositiveAtomic(t) <==> IsCanonical(t) && 0 < Value(t) <= MAX_UINT256
  {
    hide MAX_UINT256_TEXT;
    MaxText();
    WithinIsNumeric(t, MAX_UINT256_TEXT);
  }
}
