/** Benchmark scoring: rounded money comparison and the weighted components of a score. */
module Scoring {
  import opened Prelude
  import opened ReceiptModel

  // ----- money

  /** `Decimal.quantize(0.01, ROUND_HALF_UP)`: to cents, ties away from zero. */
  function RoundHalfUp(x: real): real
  {
    if x >= 0.0 then (x * 100.0 + 0.5).Floor as real / 100.0
    else -((-x * 100.0 + 0.5).Floor as real / 100.0)
  }

  const MONEY_TOLERANCE := 0.01

  function NormalizeMoney(value: Option<real>): Option<real>
  {
    if value.None? then None else Some(RoundHalfUp(value.value))
  }

  predicate MoneyEqual(expected: Option<real>, actual: Option<real>)
  {
    var left, right := NormalizeMoney(expected), NormalizeMoney(actual);
    left.Some? && right.Some? && Abs(left.value - right.value) <= MONEY_TOLERANCE
  }

  lemma RoundingError(x: real)
    ensures Abs(RoundHalfUp(x) - x) <= 0.005
  {
  }

  /** Money that compares equal differs by at most two cents. */
  lemma EqualMoneyIsClose(x: real, y: real)
    requires MoneyEqual(Some(x), Some(y))
    ensures Abs(x - y) <= 0.02
  {
    RoundingError(x);
    RoundingError(y);
  }

  lemma FloorOfSum(x: real, y: real)
    requires x <= y <= x + 1.0
    ensures x.Floor <= y.Floor <= x.Floor + 1
  {
  }

  lemma SameSignIsEqual(x: real, y: real)
    requires (x >= 0.0 && y >= 0.0) || (x < 0.0 && y < 0.0)
    requires Abs(x - y) <= 0.01
    ensures MoneyEqual(Some(x), Some(y))
  {
    var a, b := Abs(x) * 100.0 + 0.5, Abs(y) * 100.0 + 0.5;
    if a <= b {
      FloorOfSum(a, b);
    } else {
      FloorOfSum(b, a);
    }
  }

  /** The two amounts lie on different sides of zero and each rounds away from it. */
  predicate RoundApart(x: real, y: real)
  {
    (x >= 0.005 && y <= -0.005) || (x <= -0.005 && y >= 0.005)
  }

  lemma SmallRoundsToZero(x: real)
    ensures -0.005 < x < 0.005 ==> RoundHalfUp(x) == 0.0
    ensures 0.0 <= x < 0.015 ==> 0.0 <= RoundHalfUp(x) <= 0.01
    ensures -0.015 < x <= 0.0 ==> -0.01 <= RoundHalfUp(x) <= 0.0
    ensures x >= 0.005 ==> RoundHalfUp(x) >= 0.01
    ensures x <= -0.005 ==> RoundHalfUp(x) <= -0.01
  {
    var n := (Abs(x) * 100.0 + 0.5).Floor;
    assert x >= 0.0 ==> RoundHalfUp(x) == n as real / 100.0;
    assert x < 0.0 ==> RoundHalfUp(x) == -(n as real / 100.0);
  }

  /** Amounts at most one cent apart compare equal, unless they round away from each other
      across zero. */
  lemma CentIsTolerated(x: real, y: real)
    requires Abs(x - y) <= 0.01
    ensures MoneyEqual(Some(x), Some(y)) <==> !RoundApart(x, y)
  {
    if (x >= 0.0 && y >= 0.0) || (x < 0.0 && y < 0.0) {
      SameSignIsEqual(x, y);
    } else {
      SmallRoundsToZero(x);
      SmallRoundsToZero(y);
    }
  }

  /** So within a cent exactly one pair of amounts, in either order, compares different. */
  lemma OnePairIsNotTolerated(x: real, y: real)
    requires Abs(x - y) <= 0.01
    ensures !MoneyEqual(Some(x), Some(y)) <==> (x == 0.005 && y == -0.005) || (x == -0.005 && y == 0.005)
  {
    CentIsTolerated(x, y);
  }

  lemma SignsMatter()
    ensures Abs(0.005 - -0.005) <= 0.01 && !MoneyEqual(Some(0.005), Some(-0.005))
  {
    OnePairIsNotTolerated(0.005, -0.005);
  }

  /** In particular amounts of one sign always compare equal within a cent. */
  lemma CloseMoneyIsEqual(x: real, y: real)
    requires (x >= 0.0 && y >= 0.0) || (x < 0.0 && y < 0.0)
    requires Abs(x - y) <= 0.01
    ensures MoneyEqual(Some(x), Some(y))
  {
    CentIsTolerated(x, y);
  }

  /** An amount equals itself exactly when there is one. */
  lemma MoneyEqualsItself(x: Option<real>)
    ensures MoneyEqual(x, x) <==> x.Some?
  {
  }

  // ----- components

  datatype Scores = Scores(
    header: real, totals: real, lineItems: real, taxes: real,
    spendingCategories: Option<real>, overall: real)

  function Fraction(matches: nat, total: nat): (r: real)
    requires matches <= total
    ensures 0.0 <= r <= 1.0
  {
    if total == 0 then 1.0 else matches as real / total as real
  }

  function Count(matches: seq<bool>): (n: nat)
    ensures n <= |matches|
  {
    if matches == [] then 0 else (if matches[0] then 1 else 0) + Count(matches[1..])
  }

  function HeaderMatches(e: Receipt, a: Receipt): seq<bool>
  {
    [e.merchantName == a.merchantName, e.merchantAddress == a.merchantAddress,
     e.receiptNumber == a.receiptNumber, e.date == a.date, e.time == a.time,
     e.currency == a.currency, e.category == a.category, e.paymentMethod == a.paymentMethod]
  }

  function TotalMatches(e: Receipt, a: Receipt): seq<bool>
  {
    [MoneyEqual(Some(e.subtotal), Some(a.subtotal)),
     MoneyEqual(Some(e.discountTotal), Some(a.discountTotal)),
     MoneyEqual(Some(e.taxTotal), Some(a.taxTotal)),
     MoneyEqual(e.tip, a.tip),
     MoneyEqual(Some(e.total), Some(a.total))]
  }

  function Min(a: nat, b: nat): nat
  {
    if a < b then a else b
  }

  function Max(a: nat, b: nat): nat
  {
    if a < b then b else a
  }

  function ItemMatches(e: seq<LineItem>, a: seq<LineItem>): (r: seq<bool>)
    ensures |r| == Min(|e|, |a|)
  {
    seq(Min(|e|, |a|), i requires 0 <= i < |e| && i < |a| =>
      e[i].description == a[i].description && MoneyEqual(Some(e[i].totalPrice), Some(a[i].totalPrice)))
  }

  function TaxMatches(e: seq<TaxLine>, a: seq<TaxLine>): (r: seq<bool>)
    ensures |r| == Min(|e|, |a|)
  {
    seq(Min(|e|, |a|), i requires 0 <= i < |e| && i < |a| =>
      e[i].name == a[i].name && MoneyEqual(Some(e[i].amount), Some(a[i].amount)))
  }

  /** The indices of the expected items that have a known category. */
  function Labelled(e: seq<LineItem>, n: nat): (r: seq<nat>)
    requires n <= |e|
    ensures forall i: nat :: i in r <==> i < n && e[i].spendingCategory != Unknown
  {
    if n == 0 then []
    else Labelled(e, n - 1) + if e[n - 1].spendingCategory != Unknown then [n - 1] else []
  }

  function CategoryMatches(e: seq<LineItem>, a: seq<LineItem>, labelled: seq<nat>): (r: seq<bool>)
    requires forall i :: i in labelled ==> i < |e|
    ensures |r| == |labelled|
  {
    seq(|labelled|, k requires 0 <= k < |labelled| =>
      assert labelled[k] in labelled;
      labelled[k] < |a|
      && e[labelled[k]].description == a[labelled[k]].description
      && e[labelled[k]].spendingCategory == a[labelled[k]].spendingCategory)
  }

  function Score(e: Receipt, a: Receipt): Scores
  {
    var header := Fraction(Count(HeaderMatches(e, a)), 8);
    var totals := Fraction(Count(TotalMatches(e, a)), 5);
    var items := Fraction(Count(ItemMatches(e.lineItems, a.lineItems)), Max(|e.lineItems|, |a.lineItems|));
    var taxes := Fraction(Count(TaxMatches(e.taxes, a.taxes)), Max(|e.taxes|, |a.taxes|));
    var labelled := Labelled(e.lineItems, |e.lineItems|);
    var categories :=
      if labelled == [] then None
      else Some(Fraction(Count(CategoryMatches(e.lineItems, a.lineItems, labelled)), |labelled|));
    Scores(header, totals, items, taxes, categories,
           0.20 * header + 0.35 * totals + 0.30 * items + 0.15 * taxes)
  }

  // ----- what a score means

  lemma WeightedMean(h: real, t: real, i: real, x: real, h': real, t': real, i': real, x': real)
    requires h <= h' && t <= t' && i <= i' && x <= x'
    ensures 0.20 * h + 0.35 * t + 0.30 * i + 0.15 * x <= 0.20 * h' + 0.35 * t' + 0.30 * i' + 0.15 * x'
  {
  }

  /** Every component, and the overall score, is a fraction. */
  lemma ScoresAreFractions(e: Receipt, a: Receipt)
    ensures var s := Score(e, a);
            && 0.0 <= s.header <= 1.0 && 0.0 <= s.totals <= 1.0
            && 0.0 <= s.lineItems <= 1.0 && 0.0 <= s.taxes <= 1.0
            && (s.spendingCategories.Some? ==> 0.0 <= s.spendingCategories.value <= 1.0)
            && 0.0 <= s.overall <= 1.0
  {
    var s := Score(e, a);
    WeightedMean(0.0, 0.0, 0.0, 0.0, s.header, s.totals, s.lineItems, s.taxes);
    WeightedMean(s.header, s.totals, s.lineItems, s.taxes, 1.0, 1.0, 1.0, 1.0);
  }

  predicate AllTrue(matches: seq<bool>)
  {
    forall i :: 0 <= i < |matches| ==> matches[i]
  }

  lemma {:induction false} CountOfAll(matches: seq<bool>)
    ensures Count(matches) == |matches| <==> AllTrue(matches)
  {
    if matches != [] {
      CountOfAll(matches[1..]);
      if AllTrue(matches[1..]) && matches[0] {
        forall i | 0 <= i < |matches| ensures matches[i] {
          if i > 0 { assert matches[i] == matches[1..][i - 1]; }
        }
      }
    }
  }

  lemma {:induction false} CountIsMonotone(weak: seq<bool>, strong: seq<bool>)
    requires |weak| == |strong|
    requires forall i :: 0 <= i < |weak| ==> weak[i] ==> strong[i]
    ensures Count(weak) <= Count(strong)
  {
    if weak != [] {
      CountIsMonotone(weak[1..], strong[1..]);
    }
  }

  lemma QuotientIsOne(n: nat, total: nat)
    requires n <= total && total > 0
    ensures n as real / total as real == 1.0 <==> n == total
  {
    var q := n as real / total as real;
    assert q * total as real == n as real;
  }

  lemma FullFraction(matches: seq<bool>, total: nat)
    requires |matches| <= total
    ensures Fraction(Count(matches), total) == 1.0 <==> (|matches| == total && AllTrue(matches))
  {
    hide Count;
    CountOfAll(matches);
    if total > 0 {
      QuotientIsOne(Count(matches), total);
    }
  }

  lemma CountStep(match0: bool, rest: seq<bool>)
    ensures Count([match0] + rest) == (if match0 then 1 else 0) + Count(rest)
  {
    assert ([match0] + rest)[1..] == rest;
  }

  lemma CountFive(a: bool, b: bool, c: bool, d: bool, e: bool)
    ensures Count([a, b, c, d, e]) == (if a then 1 else 0) + (if b then 1 else 0) + (if c then 1 else 0)
                                      + (if d then 1 else 0) + (if e then 1 else 0)
  {
    CountStep(a, [b, c, d, e]);
    CountStep(b, [c, d, e]);
    CountStep(c, [d, e]);
    CountStep(d, [e]);
    CountStep(e, []);
    assert [e] + [] == [e] && [d] + [e] == [d, e] && [c] + [d, e] == [c, d, e];
    assert [b] + [c, d, e] == [b, c, d, e] && [a] + [b, c, d, e] == [a, b, c, d, e];
  }

  lemma SelfTotals(e: Receipt)
    ensures Count(TotalMatches(e, e)) == if e.tip.Some? then 5 else 4
  {
    hide Count;
    MoneyEqualsItself(e.tip);
    CountFive(true, true, true, e.tip.Some?, true);
    assert TotalMatches(e, e) == [true, true, true, e.tip.Some?, true];
  }

  lemma SelfCategories(e: Receipt)
    ensures var c := Score(e, e).spendingCategories; c.Some? ==> c.value == 1.0
  {
    hide Count, Fraction, Labelled;
    var labelled := Labelled(e.lineItems, |e.lineItems|);
    var categories := CategoryMatches(e.lineItems, e.lineItems, labelled);
    forall k | 0 <= k < |categories| ensures categories[k] {
      assert labelled[k] in labelled;
    }
    FullFraction(categories, |labelled|);
  }

  /** Scored against itself a receipt is perfect, except that a missing tip never matches. */
  lemma SelfScore(e: Receipt)
    ensures var s := Score(e, e);
            && s.header == 1.0 && s.lineItems == 1.0 && s.taxes == 1.0
            && s.totals == (if e.tip.Some? then 1.0 else 0.8)
            && (s.spendingCategories.Some? ==> s.spendingCategories.value == 1.0)
            && s.overall == (if e.tip.Some? then 1.0 else 0.93)
  {
    PartsAre(e, e);
    OverallIs(e, e);
    SelfCategories(e);
    SelfTotals(e);
    hide Score, Count;
    FullFraction(HeaderMatches(e, e), 8);
    FullFraction(ItemMatches(e.lineItems, e.lineItems), |e.lineItems|);
    FullFraction(TaxMatches(e.taxes, e.taxes), |e.taxes|);
  }

  /** No extraction beats the expected receipt itself, in any component. */
  lemma NothingBeatsTheTruth(e: Receipt, a: Receipt)
    ensures var s, best := Score(e, a), Score(e, e);
            && s.header <= best.header && s.totals <= best.totals
            && s.lineItems <= best.lineItems && s.taxes <= best.taxes
            && (s.spendingCategories.Some? <==> best.spendingCategories.Some?)
            && (s.spendingCategories.Some? ==> s.spendingCategories.value <= best.spendingCategories.value)
            && s.overall <= best.overall
  {
    SelfScore(e);
    ScoresAreFractions(e, a);
    CountIsMonotone(TotalMatches(e, a), TotalMatches(e, e));
    PartsAre(e, a);
    PartsAre(e, e);
    OverallIs(e, a);
    OverallIs(e, e);
    var s, best := Score(e, a), Score(e, e);
    WeightedMean(s.header, s.totals, s.lineItems, s.taxes, best.header, best.totals, best.lineItems, best.taxes);
  }

  /** The overall score reaches 1 exactly when the four weighted parts match completely. */
  lemma PerfectMeansEveryPartMatches(e: Receipt, a: Receipt)
    ensures Score(e, a).overall == 1.0 <==>
            && AllTrue(HeaderMatches(e, a)) && AllTrue(TotalMatches(e, a))
            && |e.lineItems| == |a.lineItems| && AllTrue(ItemMatches(e.lineItems, a.lineItems))
            && |e.taxes| == |a.taxes| && AllTrue(TaxMatches(e.taxes, a.taxes))
  {
    var s := Score(e, a);
    ScoresAreFractions(e, a);
    FullFraction(HeaderMatches(e, a), 8);
    FullFraction(TotalMatches(e, a), 5);
    FullFraction(ItemMatches(e.lineItems, a.lineItems), Max(|e.lineItems|, |a.lineItems|));
    FullFraction(TaxMatches(e.taxes, a.taxes), Max(|e.taxes|, |a.taxes|));
    hide Score;
    assert s.overall == 1.0 <==> s.header == 1.0 && s.totals == 1.0 && s.lineItems == 1.0 && s.taxes == 1.0 by {
      OverallIs(e, a);
    }
    PartsAre(e, a);
  }

  lemma OverallIs(e: Receipt, a: Receipt)
    ensures var s := Score(e, a);
            s.overall == 0.20 * s.header + 0.35 * s.totals + 0.30 * s.lineItems + 0.15 * s.taxes
  {
  }

  lemma PartsAre(e: Receipt, a: Receipt)
    ensures var s := Score(e, a);
            && s.header == Fraction(Count(HeaderMatches(e, a)), 8)
            && s.totals == Fraction(Count(TotalMatches(e, a)), 5)
            && s.lineItems
               == Fraction(Count(ItemMatches(e.lineItems, a.lineItems)), Max(|e.lineItems|, |a.lineItems|))
            && s.taxes == Fraction(Count(TaxMatches(e.taxes, a.taxes)), Max(|e.taxes|, |a.taxes|))
  {
  }
}
