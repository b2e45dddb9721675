/** The projection stated in money: which bills exist, what they round to, and how usage may be cut up. */
module Billing {
  import opened Types
  import opened Money
  import opened Sums
  import opened Pricing
  import opened Projection

  /** Nothing used, or an applicable price whose product fits 64 bits and whose rounded quotient
      is a representable amount of micros. */
  predicate Priceable(m: Market, e: CostEvidence, k: nat)
    requires k < LINES
  {
    var u := UsageAt(e, k);
    u == 0 ||
    match Find(m, QueryAt(e, k))
    case None => false
    case Some(p) =>
      u > 0 && u * p.amount <= U64_MAX && CeilQuotient(u * p.amount, DenominatorFor(p.kind)) <= I64_MAX
  }

  predicate AllPriceable(m: Market, attempts: seq<CostEvidence>) {
    forall i, k :: 0 <= i < |attempts| && 0 <= k < LINES ==> Priceable(m, attempts[i], k)
  }

  /** ceil(usage * price / unit), over the integers. */
  function Rounded(m: Market, e: CostEvidence, k: nat): (c: int)
    requires k < LINES
  {
    match Find(m, QueryAt(e, k))
    case None => 0
    case Some(p) => CeilQuotient(UsageAt(e, k) * p.amount, DenominatorFor(p.kind))
  }

  function RoundedLines(m: Market, e: CostEvidence, n: nat): int
    requires n <= LINES
  {
    if n == 0 then 0 else RoundedLines(m, e, n - 1) + Rounded(m, e, n - 1)
  }

  function LineMeasure(m: Market, k: nat): CostEvidence -> int
    requires k < LINES
  {
    e => Rounded(m, e, k)
  }

  function BillMeasure(m: Market): CostEvidence -> int {
    e => RoundedLines(m, e, LINES)
  }

  /** The bill: the rounded-up cost of every line of every attempt. */
  function Bill(m: Market, attempts: seq<CostEvidence>): int {
    Sum(attempts, BillMeasure(m))
  }

  // ---- the pricer of a market -----------------------------------------------------------

  lemma PricerIsSound(m: Market)
    ensures Sound(PricerOf(m))
  {
    var p := PricerOf(m);
    forall e: CostEvidence, k: nat | k < LINES && p(e, k).Ok? ensures p(e, k).value >= 0 {
      var o := Find(m, QueryAt(e, k)).value;
      CeilMulDivExact(UsageAt(e, k), o.amount, DenominatorFor(o.kind));
    }
  }

  lemma PricerMeaning(m: Market, e: CostEvidence, k: nat)
    requires k < LINES
    ensures LineFits(PricerOf(m), e, k) <==> Priceable(m, e, k)
    ensures Priceable(m, e, k) ==> LineCost(PricerOf(m), e, k) == Rounded(m, e, k)
  {
    if Find(m, QueryAt(e, k)).Some? {
      var o := Find(m, QueryAt(e, k)).value;
      CeilMulDivExact(UsageAt(e, k), o.amount, DenominatorFor(o.kind));
      if UsageAt(e, k) == 0 { CeilSign(UsageAt(e, k) * o.amount, DenominatorFor(o.kind)); }
    }
  }

  lemma {:induction false} RoundedLinesAreCosts(m: Market, e: CostEvidence, n: nat)
    requires n <= LINES
    requires forall k :: 0 <= k < LINES ==> Priceable(m, e, k)
    ensures LinesCost(PricerOf(m), e, n) == RoundedLines(m, e, n)
  {
    if n > 0 {
      RoundedLinesAreCosts(m, e, n - 1);
      assert Priceable(m, e, n - 1);
      PricerMeaning(m, e, n - 1);
    }
  }

  lemma AllFitMeaning(m: Market, attempts: seq<CostEvidence>)
    ensures AllFit(PricerOf(m), attempts) <==> AllPriceable(m, attempts)
    ensures AllPriceable(m, attempts) ==> TotalCost(PricerOf(m), attempts) == Bill(m, attempts)
  {
    var p := PricerOf(m);
    forall i, k | 0 <= i < |attempts| && 0 <= k < LINES
      ensures LineFits(p, attempts[i], k) <==> Priceable(m, attempts[i], k)
    {
      PricerMeaning(m, attempts[i], k);
    }
    if AllFit(p, attempts) {
      forall i, k | 0 <= i < |attempts| && 0 <= k < LINES ensures Priceable(m, attempts[i], k) {
        assert Fits(p, attempts[i]);
        assert LineFits(p, attempts[i], k);
      }
    }
    if AllPriceable(m, attempts) {
      forall i | 0 <= i < |attempts| ensures AttemptCost(p)(attempts[i]) == BillMeasure(m)(attempts[i]) {
        forall k | 0 <= k < LINES ensures Priceable(m, attempts[i], k) {}
        RoundedLinesAreCosts(m, attempts[i], LINES);
      }
      SumSame(attempts, AttemptCost(p), BillMeasure(m));
    }
  }

  // ---- the laws -------------------------------------------------------------------------

  /** Projection returns exactly when every used amount can be priced and the bill fits; the total
      is then the bill. */
  lemma ProjectExact(m: Market, attempts: seq<CostEvidence>)
    ensures Project(m, attempts).Ok? <==> AllPriceable(m, attempts) && Bill(m, attempts) <= I64_MAX
    ensures Project(m, attempts).Ok? ==> Project(m, attempts).value.total == Bill(m, attempts) >= 0
  {
    PricerIsSound(m);
    ProjectWithExact(PricerOf(m), m.currency, attempts);
    RetryWithinMeasured(PricerOf(m), attempts);
    AllFitMeaning(m, attempts);
  }

  /** The breakdown, components and all, is the same for every order of the attempts. */
  lemma ProjectOrderFree(m: Market, a: seq<CostEvidence>, b: seq<CostEvidence>)
    requires multiset(a) == multiset(b)
    ensures Project(m, a).Ok? <==> Project(m, b).Ok?
    ensures Project(m, a).Ok? ==> Project(m, a) == Project(m, b)
  {
    PricerIsSound(m);
    ProjectWithOrderFree(PricerOf(m), m.currency, a, b);
  }

  /** Bills add up over concatenation, component by component. */
  lemma ProjectConcat(m: Market, a: seq<CostEvidence>, b: seq<CostEvidence>)
    ensures Project(m, a + b).Ok? <==>
              Project(m, a).Ok? && Project(m, b).Ok? &&
              Project(m, a).value.total + Project(m, b).value.total <= I64_MAX
    ensures Project(m, a + b).Ok? ==>
              var x, y, z := Project(m, a).value, Project(m, b).value, Project(m, a + b).value;
              && z.total == x.total + y.total
              && forall s :: 0 <= s < SLOTS ==>
                   z.components[s].value == x.components[s].value + y.components[s].value
  {
    var p := PricerOf(m);
    PricerIsSound(m);
    ProjectWithExact(p, m.currency, a);
    ProjectWithExact(p, m.currency, b);
    ProjectWithExact(p, m.currency, a + b);
    AllFitConcat(p, a, b);
    SumConcat(a, b, AttemptCost(p));
    if Project(m, a + b).Ok? {
      ProjectWithConcat(p, m.currency, a, b);
    }
  }

  /** The measurable cost of a failed completion, by the mathematical rounding. */
  function FailedMeasure(m: Market): CostEvidence -> int {
    e => if Failed(e) then RoundedLines(m, e, 6) else 0
  }

  /** Retry is the six-component cost of exactly the failed completions, wherever the successful
      ones lie; it never exceeds components 0 to 5 and is not in the total again. */
  lemma RetryIsSubTotal(m: Market, attempts: seq<CostEvidence>)
    requires Project(m, attempts).Ok?
    ensures var bd := Project(m, attempts).value;
            var c := bd.components;
            var measured := c[0].value + c[1].value + c[2].value + c[3].value + c[4].value + c[5].value;
            && c[RETRY].value == Sum(attempts, FailedMeasure(m))
            && (c[RETRY].known <==> exists i :: 0 <= i < |attempts| && Failed(attempts[i]))
            && 0 <= c[RETRY].value <= measured
            && bd.total == measured + c[RECOMPUTATION].value
            && c[RECOVERY] == c[9] == ComponentValue(false, 0)
  {
    var p := PricerOf(m);
    PricerIsSound(m);
    ProjectWithExact(p, m.currency, attempts);
    RetryWithinMeasured(p, attempts);
    AdditiveIsTotal(p, attempts);
    AllFitMeaning(m, attempts);
    forall i | 0 <= i < |attempts|
      ensures SlotMeasure(p, RETRY)(attempts[i]) == FailedMeasure(m)(attempts[i])
    {
      forall k | 0 <= k < LINES ensures Priceable(m, attempts[i], k) {}
      RoundedLinesAreCosts(m, attempts[i], 6);
    }
    SumSame(attempts, SlotMeasure(p, RETRY), FailedMeasure(m));
    var c := Project(m, attempts).value.components;
    assert Holds(c[RETRY], AnyUses(attempts, RETRY), SlotTotal(p, attempts, RETRY));
    if AnyUses(attempts, RETRY) {
      var i :| 0 <= i < |attempts| && SlotUsed(attempts[i], RETRY);
      assert Failed(attempts[i]);
    }
    if i :| 0 <= i < |attempts| && Failed(attempts[i]) {
      assert SlotUsed(attempts[i], RETRY);
    }
    assert Holds(c[RECOVERY], AnyUses(attempts, RECOVERY), SlotTotal(p, attempts, RECOVERY));
    assert Holds(c[9], AnyUses(attempts, 9), SlotTotal(p, attempts, 9));
  }

  // ---- a single attempt ---------------------------------------------------------------

  lemma SinglePriceable(m: Market, e: CostEvidence, k: nat)
    requires k < LINES && AllPriceable(m, [e])
    ensures Priceable(m, e, k)
  {
    assert [e][0] == e;
  }

  lemma SumOfOne(e: CostEvidence, f: CostEvidence -> int)
    ensures Sum([e], f) == f(e)
  {}

  lemma UnusedIsFree(m: Market, e: CostEvidence, k: nat)
    requires k < LINES && UsageAt(e, k) == 0
    ensures Rounded(m, e, k) == 0
  {}

  // ---- rounding -------------------------------------------------------------------------

  /** The exact rational cost of a line. */
  function ExactLine(m: Market, e: CostEvidence, k: nat): real
    requires k < LINES
  {
    match Find(m, QueryAt(e, k))
    case None => 0.0
    case Some(p) => (UsageAt(e, k) * p.amount) as real / DenominatorFor(p.kind) as real
  }

  function ExactLines(m: Market, e: CostEvidence, n: nat): real
    requires n <= LINES
  {
    if n == 0 then 0.0 else ExactLines(m, e, n - 1) + ExactLine(m, e, n - 1)
  }

  /** The exact rational cost of a request. */
  function ExactCost(m: Market, attempts: seq<CostEvidence>): real {
    if |attempts| == 0 then 0.0
    else ExactCost(m, attempts[..|attempts| - 1]) + ExactLines(m, attempts[|attempts| - 1], LINES)
  }

  /** How many of the first `n` amounts of an attempt are used. */
  function UsedLines(e: CostEvidence, n: nat): (c: nat)
    requires n <= LINES
  {
    if n == 0 then 0 else UsedLines(e, n - 1) + if UsageAt(e, n - 1) != 0 then 1 else 0
  }

  function UsedAmounts(attempts: seq<CostEvidence>): (c: nat) {
    if |attempts| == 0 then 0
    else UsedAmounts(attempts[..|attempts| - 1]) + UsedLines(attempts[|attempts| - 1], LINES)
  }

  /** `rounded` is at least `exact` and above it by less than one micro per rounding. */
  predicate RoundsUp(rounded: int, exact: real, roundings: nat) {
    && exact <= rounded as real <= exact + roundings as real
    && (roundings > 0 ==> (rounded as real) < exact + roundings as real)
  }

  lemma LineRoundsUp(m: Market, e: CostEvidence, k: nat)
    requires k < LINES && Priceable(m, e, k)
    ensures RoundsUp(Rounded(m, e, k), ExactLine(m, e, k), if UsageAt(e, k) != 0 then 1 else 0)
  {}

  lemma {:induction false} LinesRoundUp(m: Market, e: CostEvidence, n: nat)
    requires n <= LINES
    requires forall k :: 0 <= k < LINES ==> Priceable(m, e, k)
    ensures RoundsUp(RoundedLines(m, e, n), ExactLines(m, e, n), UsedLines(e, n))
  {
    if n > 0 {
      LinesRoundUp(m, e, n - 1);
      assert Priceable(m, e, n - 1);
      LineRoundsUp(m, e, n - 1);
    }
  }

  lemma {:induction false} BillRoundsUp(m: Market, attempts: seq<CostEvidence>)
    requires AllPriceable(m, attempts)
    ensures RoundsUp(Bill(m, attempts), ExactCost(m, attempts), UsedAmounts(attempts))
  {
    if |attempts| > 0 {
      var before, e := attempts[..|attempts| - 1], attempts[|attempts| - 1];
      forall i, k | 0 <= i < |before| && 0 <= k < LINES ensures Priceable(m, before[i], k) {
        assert before[i] == attempts[i];
      }
      BillRoundsUp(m, before);
      forall k | 0 <= k < LINES ensures Priceable(m, e, k) {}
      LinesRoundUp(m, e, LINES);
    }
  }

  /** A whole request is billed at least its exact rational cost, and less than one micro more per
      priced amount. */
  lemma TotalRoundsUp(m: Market, attempts: seq<CostEvidence>)
    requires Project(m, attempts).Ok?
    ensures RoundsUp(Project(m, attempts).value.total, ExactCost(m, attempts), UsedAmounts(attempts))
  {
    ProjectExact(m, attempts);
    BillRoundsUp(m, attempts);
  }

  // ---- splitting ------------------------------------------------------------------------

  function UsageMeasure(k: nat): CostEvidence -> int
    requires k < LINES
  {
    e => UsageAt(e, k)
  }

  /** `parts` are non-negative attempts on the device and resource of `whole` that together use
      what it uses. */
  predicate Splits(parts: seq<CostEvidence>, whole: CostEvidence) {
    && |parts| > 0
    && (forall i :: 0 <= i < |parts| ==> parts[i].device == whole.device && parts[i].resource == whole.resource)
    && (forall i, k :: 0 <= i < |parts| && 0 <= k < LINES ==> UsageAt(parts[i], k) >= 0)
    && (forall k :: 0 <= k < LINES ==> Sum(parts, UsageMeasure(k)) == UsageAt(whole, k))
  }

  lemma CeilOfSum(x: int, y: int, d: int)
    requires d > 0
    ensures CeilQuotient(x + y, d) <= CeilQuotient(x, d) + CeilQuotient(y, d) <= CeilQuotient(x + y, d) + 1
  {
    var a, b, c := CeilQuotient(x, d), CeilQuotient(y, d), CeilQuotient(x + y, d);
    assert (a + b) * d == a * d + b * d;
    assert (a - 1) * d == a * d - d && (b - 1) * d == b * d - d && (c - 1) * d == c * d - d;
    assert (c + 2) * d == c * d + 2 * d;
    if c > a + b { StepApart(d, a + b, c); }
    if a + b > c + 1 { StepApart(d, c + 2, a + b + 1); }
  }

  lemma CeilMonotone(x: int, y: int, d: int)
    requires d > 0 && x <= y
    ensures CeilQuotient(x, d) <= CeilQuotient(y, d)
  {
    var a, b := CeilQuotient(x, d), CeilQuotient(y, d);
    if b < a { StepApart(d, b, a); }
  }

  function CeilMeasure(k: nat, price: int, d: int): CostEvidence -> int
    requires k < LINES && d > 0
  {
    e => CeilQuotient(UsageAt(e, k) * price, d)
  }

  lemma {:induction false} SplitCeil(parts: seq<CostEvidence>, k: nat, price: int, d: int)
    requires k < LINES && d > 0 && |parts| > 0
    ensures var whole := CeilQuotient(Sum(parts, UsageMeasure(k)) * price, d);
            whole <= Sum(parts, CeilMeasure(k, price, d)) <= whole + |parts| - 1
  {
    var before, e := parts[..|parts| - 1], parts[|parts| - 1];
    var s, u := Sum(before, UsageMeasure(k)), UsageAt(e, k);
    assert (s + u) * price == s * price + u * price;
    if |before| > 0 {
      SplitCeil(before, k, price, d);
      CeilOfSum(s * price, u * price, d);
    } else {
      assert s == 0;
      assert Sum(before, CeilMeasure(k, price, d)) == 0;
    }
  }

  lemma PartWithinWhole(parts: seq<CostEvidence>, whole: CostEvidence, i: nat, k: nat)
    requires Splits(parts, whole) && i < |parts| && k < LINES
    ensures 0 <= UsageAt(parts[i], k) <= UsageAt(whole, k)
  {
    forall j | 0 <= j < |parts| ensures UsageMeasure(k)(parts[j]) >= 0 {
      assert UsageAt(parts[j], k) >= 0;
    }
    SumBounds(parts, UsageMeasure(k));
    assert UsageMeasure(k)(parts[i]) <= Sum(parts, UsageMeasure(k));
  }

  lemma PartPriceable(m: Market, parts: seq<CostEvidence>, whole: CostEvidence, i: nat, k: nat)
    requires Splits(parts, whole) && i < |parts| && k < LINES
    requires Priceable(m, whole, k)
    ensures Priceable(m, parts[i], k)
  {
    PartWithinWhole(parts, whole, i, k);
    assert QueryAt(parts[i], k) == QueryAt(whole, k);
    if UsageAt(parts[i], k) != 0 {
      var o := Find(m, QueryAt(whole, k)).value;
      SmallerFits(UsageAt(parts[i], k), UsageAt(whole, k), o.amount, DenominatorFor(o.kind));
    }
  }

  lemma SmallerFits(u: int, v: int, price: int, d: int)
    requires 0 <= u <= v && price >= 0 && d > 0
    ensures u * price <= v * price && CeilQuotient(u * price, d) <= CeilQuotient(v * price, d)
  {
    NonNegativeProduct(v - u, price);
    assert v * price == u * price + (v - u) * price;
    CeilMonotone(u * price, v * price, d);
  }

  /** Per component: the parts are never billed less, and at most one micro more for each extra part. */
  lemma SplitLine(m: Market, parts: seq<CostEvidence>, whole: CostEvidence, k: nat)
    requires Splits(parts, whole) && k < LINES
    ensures Rounded(m, whole, k) <= Sum(parts, LineMeasure(m, k)) <= Rounded(m, whole, k) + |parts| - 1
  {
    assert forall i :: 0 <= i < |parts| ==> QueryAt(parts[i], k) == QueryAt(whole, k);
    if Find(m, QueryAt(whole, k)).Some? {
      var o := Find(m, QueryAt(whole, k)).value;
      SplitCeil(parts, k, o.amount, DenominatorFor(o.kind));
      SumSame(parts, LineMeasure(m, k), CeilMeasure(k, o.amount, DenominatorFor(o.kind)));
    } else {
      SumSame(parts, LineMeasure(m, k), (e: CostEvidence) => 0);
      SumOfZeros(parts);
    }
  }

  lemma {:induction false} SumOfZeros(parts: seq<CostEvidence>)
    ensures Sum(parts, (e: CostEvidence) => 0) == 0
  {
    if |parts| > 0 {
      SumOfZeros(parts[..|parts| - 1]);
      SumSame(parts[..|parts| - 1], (e: CostEvidence) => 0, (e: CostEvidence) => 0);
    }
  }

  function LinesMeasure(m: Market, n: nat): CostEvidence -> int
    requires n <= LINES
  {
    e => RoundedLines(m, e, n)
  }

  lemma {:induction false} SumOfLines(m: Market, parts: seq<CostEvidence>, n: nat)
    requires 0 < n <= LINES
    ensures Sum(parts, LinesMeasure(m, n)) ==
            Sum(parts, LinesMeasure(m, n - 1)) + Sum(parts, LineMeasure(m, n - 1))
  {
    if |parts| > 0 {
      SumOfLines(m, parts[..|parts| - 1], n);
    }
  }

  lemma {:induction false} SplitLines(m: Market, parts: seq<CostEvidence>, whole: CostEvidence, n: nat)
    requires Splits(parts, whole) && n <= LINES
    ensures RoundedLines(m, whole, n) <= Sum(parts, LinesMeasure(m, n))
                                      <= RoundedLines(m, whole, n) + n * (|parts| - 1)
  {
    if n == 0 {
      SumSame(parts, LinesMeasure(m, 0), (e: CostEvidence) => 0);
      SumOfZeros(parts);
    } else {
      SplitLines(m, parts, whole, n - 1);
      SplitLine(m, parts, whole, n - 1);
      SumOfLines(m, parts, n);
      assert n * (|parts| - 1) == (n - 1) * (|parts| - 1) + (|parts| - 1);
    }
  }

  lemma SplitPriceable(m: Market, parts: seq<CostEvidence>, whole: CostEvidence)
    requires Splits(parts, whole) && AllPriceable(m, [whole])
    ensures AllPriceable(m, parts)
  {
    assert [whole][0] == whole;
    forall i, k | 0 <= i < |parts| && 0 <= k < LINES ensures Priceable(m, parts[i], k) {
      assert Priceable(m, [whole][0], k);
      PartPriceable(m, parts, whole, i, k);
    }
  }

  lemma SplitAlone(m: Market, parts: seq<CostEvidence>, whole: CostEvidence)
    requires Splits(parts, whole) && Project(m, [whole]).Ok?
    ensures var total := Project(m, [whole]).value.total;
            && total <= Bill(m, parts) <= total + LINES * (|parts| - 1)
            && (Project(m, parts).Ok? <==> Bill(m, parts) <= I64_MAX)
            && (Project(m, parts).Ok? ==> Project(m, parts).value.total == Bill(m, parts))
  {
    ProjectExact(m, [whole]);
    ProjectExact(m, parts);
    SplitPriceable(m, parts, whole);
    SplitLines(m, parts, whole, LINES);
    SumSame(parts, LinesMeasure(m, LINES), BillMeasure(m));
    SumPush([], whole, BillMeasure(m));
    assert [] + [whole] == [whole];
  }

  lemma PriceableConcat(m: Market, a: seq<CostEvidence>, b: seq<CostEvidence>)
    ensures AllPriceable(m, a + b) <==> AllPriceable(m, a) && AllPriceable(m, b)
  {
    if AllPriceable(m, a + b) {
      forall i, k | 0 <= i < |a| && 0 <= k < LINES ensures Priceable(m, a[i], k) { assert (a + b)[i] == a[i]; }
      forall i, k | 0 <= i < |b| && 0 <= k < LINES ensures Priceable(m, b[i], k) { assert (a + b)[|a| + i] == b[i]; }
    }
  }

  lemma BillConcat(m: Market, a: seq<CostEvidence>, b: seq<CostEvidence>)
    ensures Bill(m, a + b) == Bill(m, a) + Bill(m, b)
  {
    SumConcat(a, b, BillMeasure(m));
  }

  /** Splitting one attempt of a request into `k` attempts on the same device and resource never lowers the
      request's bill and raises it by at most `k - 1` micros per amount; it can fail only if that pushes the
      total out of range. */
  lemma SplitBill(m: Market, before: seq<CostEvidence>, parts: seq<CostEvidence>, whole: CostEvidence,
                  after: seq<CostEvidence>)
    requires Splits(parts, whole) && Project(m, before + [whole] + after).Ok?
    ensures var total, split := Project(m, before + [whole] + after).value.total, before + parts + after;
            && total <= Bill(m, split) <= total + LINES * (|parts| - 1)
            && (Project(m, split).Ok? <==> Bill(m, split) <= I64_MAX)
            && (Project(m, split).Ok? ==> Project(m, split).value.total == Bill(m, split))
  {
    ProjectConcat(m, before + [whole], after);
    ProjectConcat(m, before, [whole]);
    SplitAlone(m, parts, whole);
    ProjectExact(m, before + [whole] + after);
    ProjectExact(m, before + parts + after);
    ProjectExact(m, [whole]);
    BillConcat(m, before + [whole], after);
    BillConcat(m, before, [whole]);
    BillConcat(m, before + parts, after);
    BillConcat(m, before, parts);
    PriceableConcat(m, before + [whole], after);
    PriceableConcat(m, before, [whole]);
    PriceableConcat(m, before + parts, after);
    PriceableConcat(m, before, parts);
    SplitPriceable(m, parts, whole);
  }
}
