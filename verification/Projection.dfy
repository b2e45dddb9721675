/** What the projection computes: exactly the sum of the rounded-up line costs.

`Project` runs checked additions in a fixed order and may throw at any of them. The lemmas here
say when it returns at all and what it returns, in terms of sums that do not mention the order.
They hold for any pricer that never returns a negative price.
 */
module Projection {
  import opened Types
  import opened Sums
  import opened Pricing

  // ---- the mathematical cost ------------------------------------------------------------

  ghost predicate Sound(p: Pricer) {
    forall e: CostEvidence, k: nat :: k < LINES && p(e, k).Ok? ==> p(e, k).value >= 0
  }

  predicate LineFits(p: Pricer, e: CostEvidence, k: nat)
    requires k < LINES
  {
    UsageAt(e, k) == 0 || p(e, k).Ok?
  }

  /** The cost of a line, in micros; 0 when it is not used or cannot be priced. */
  function LineCost(p: Pricer, e: CostEvidence, k: nat): (c: int)
    requires k < LINES
  {
    if UsageAt(e, k) == 0 || p(e, k).Err? then 0 else p(e, k).value
  }

  predicate Fits(p: Pricer, e: CostEvidence) {
    forall k :: 0 <= k < LINES ==> LineFits(p, e, k)
  }

  predicate AllFit(p: Pricer, attempts: seq<CostEvidence>) {
    forall i :: 0 <= i < |attempts| ==> Fits(p, attempts[i])
  }

  /** The cost of the first `n` lines of an attempt. */
  function LinesCost(p: Pricer, e: CostEvidence, n: nat): (c: int)
    requires n <= LINES
  {
    if n == 0 then 0 else LinesCost(p, e, n - 1) + LineCost(p, e, n - 1)
  }

  function AttemptCost(p: Pricer): CostEvidence -> int {
    e => LinesCost(p, e, LINES)
  }

  /** What an attempt adds to one component. Retry gets the measurable cost of a failed completion. */
  function SlotCost(p: Pricer, e: CostEvidence, slot: nat): (c: int) {
    if slot < 6 then LineCost(p, e, slot)
    else if slot == RECOMPUTATION then LineCost(p, e, 6)
    else if slot == RETRY && Failed(e) then LinesCost(p, e, 6)
    else 0
  }

  function SlotMeasure(p: Pricer, slot: nat): CostEvidence -> int {
    e => SlotCost(p, e, slot)
  }

  predicate SlotUsed(e: CostEvidence, slot: nat) {
    if slot < 6 then UsageAt(e, slot) != 0
    else if slot == RECOMPUTATION then UsageAt(e, 6) != 0
    else slot == RETRY && Failed(e)
  }

  predicate AnyUses(attempts: seq<CostEvidence>, slot: nat) {
    exists i :: 0 <= i < |attempts| && SlotUsed(attempts[i], slot)
  }

  function TotalCost(p: Pricer, attempts: seq<CostEvidence>): int {
    Sum(attempts, AttemptCost(p))
  }

  function SlotTotal(p: Pricer, attempts: seq<CostEvidence>, slot: nat): int {
    Sum(attempts, SlotMeasure(p, slot))
  }

  predicate Holds(v: ComponentValue, known: bool, amount: int) {
    v.known == known && v.value == amount
  }

  // ---- one attempt ----------------------------------------------------------------------

  lemma {:induction false} LinesCostNonNegative(p: Pricer, e: CostEvidence, n: nat)
    requires Sound(p) && n <= LINES
    ensures LinesCost(p, e, n) >= 0
  {
    if n > 0 { LinesCostNonNegative(p, e, n - 1); }
  }

  lemma SlotCostNonNegative(p: Pricer, e: CostEvidence, slot: nat)
    requires Sound(p)
    ensures SlotCost(p, e, slot) >= 0
  {
    LinesCostNonNegative(p, e, 6);
  }

  predicate NonNegative(c: Components) {
    forall s :: 0 <= s < SLOTS ==> c[s].value >= 0
  }

  /** The line that posts to a component, if any. */
  function LineOf(slot: nat): (k: nat) {
    if slot < 6 then slot else if slot == RECOMPUTATION then 6 else LINES
  }

  /** Component `s` holds what is left after the first `k` lines of `e` are added to `c`. */
  predicate HoldsAfter(p: Pricer, e: CostEvidence, k: nat, c: Components, s: nat, v: ComponentValue)
    requires k <= LINES && s < SLOTS
  {
    if LineOf(s) < k && UsageAt(e, LineOf(s)) != 0
    then Holds(v, true, c[s].value + LineCost(p, e, LineOf(s)))
    else v == c[s]
  }

  predicate LinePosts(p: Pricer, e: CostEvidence, j: nat, c: Components)
    requires j < LINES
  {
    LineFits(p, e, j) && c[SlotOf(j)].value + LineCost(p, e, j) <= I64_MAX
  }

  lemma {:induction false} PostLinesExact(p: Pricer, e: CostEvidence, k: nat, c: Components)
    requires Sound(p) && k <= LINES && NonNegative(c)
    ensures PostLines(p, e, k, c).Ok? <==> forall j :: 0 <= j < k ==> LinePosts(p, e, j, c)
    ensures PostLines(p, e, k, c).Ok? ==>
              forall s :: 0 <= s < SLOTS ==> HoldsAfter(p, e, k, c, s, PostLines(p, e, k, c).value[s])
  {
    if k > 0 {
      PostLinesExact(p, e, k - 1, c);
      var r := PostLines(p, e, k - 1, c);
      if r.Ok? {
        var slot := SlotOf(k - 1);
        assert LineOf(slot) == k - 1;
        assert HoldsAfter(p, e, k - 1, c, slot, r.value[slot]);
        assert r.value[slot] == c[slot];
        assert PostLines(p, e, k, c).Ok? <==> LinePosts(p, e, k - 1, c);
        if PostLines(p, e, k, c).Ok? {
          forall s | 0 <= s < SLOTS ensures HoldsAfter(p, e, k, c, s, PostLines(p, e, k, c).value[s]) {
            assert HoldsAfter(p, e, k - 1, c, s, r.value[s]);
          }
        }
      }
    }
  }

  lemma {:induction false} FailedCostExact(p: Pricer, e: CostEvidence, k: nat)
    requires Sound(p) && k <= 6
    ensures FailedCost(p, e, k).Ok? <==>
              (forall j :: 0 <= j < k ==> LineFits(p, e, j)) && LinesCost(p, e, k) <= I64_MAX
    ensures FailedCost(p, e, k).Ok? ==> FailedCost(p, e, k).value == LinesCost(p, e, k)
  {
    if k > 0 {
      FailedCostExact(p, e, k - 1);
      LinesCostNonNegative(p, e, k - 1);
      assert LineCost(p, e, k - 1) >= 0;
      if FailedCost(p, e, k).Ok? {
        forall j | 0 <= j < k ensures LineFits(p, e, j) { assert j == k - 1 || LineFits(p, e, j); }
      } else if forall j :: 0 <= j < k ==> LineFits(p, e, j) {
        assert LineFits(p, e, k - 1);
        assert FailedCost(p, e, k - 1).Ok? || LinesCost(p, e, k - 1) > I64_MAX;
      }
    }
  }

  // ---- all attempts ---------------------------------------------------------------------

  lemma SlotTotalNonNegative(p: Pricer, attempts: seq<CostEvidence>, slot: nat)
    requires Sound(p)
    ensures 0 <= SlotTotal(p, attempts, slot)
  {
    forall i | 0 <= i < |attempts| ensures SlotMeasure(p, slot)(attempts[i]) >= 0 {
      SlotCostNonNegative(p, attempts[i], slot);
    }
    SumBounds(attempts, SlotMeasure(p, slot));
  }

  lemma SlotUsePush(attempts: seq<CostEvidence>, slot: nat)
    requires |attempts| > 0
    ensures AnyUses(attempts, slot) <==>
              AnyUses(attempts[..|attempts| - 1], slot) || SlotUsed(attempts[|attempts| - 1], slot)
  {}

  lemma AllFitPush(p: Pricer, attempts: seq<CostEvidence>)
    requires |attempts| > 0
    ensures AllFit(p, attempts) <==>
              AllFit(p, attempts[..|attempts| - 1]) && Fits(p, attempts[|attempts| - 1])
  {}

  /** Component `s` of the first pass: the total of its slot, and nothing yet for retry. */
  predicate HoldsPosted(p: Pricer, attempts: seq<CostEvidence>, s: nat, v: ComponentValue) {
    if s == RETRY then v == ComponentValue(false, 0)
    else Holds(v, AnyUses(attempts, s), SlotTotal(p, attempts, s))
  }

  predicate PostedSlotsFit(p: Pricer, attempts: seq<CostEvidence>) {
    forall s :: 0 <= s < SLOTS && s != RETRY ==> SlotTotal(p, attempts, s) <= I64_MAX
  }

  /** One more attempt, on top of components that hold the totals of the earlier ones. */
  lemma PostAttemptExact(p: Pricer, attempts: seq<CostEvidence>, c: Components)
    requires Sound(p) && |attempts| > 0
    requires forall s :: 0 <= s < SLOTS ==> HoldsPosted(p, attempts[..|attempts| - 1], s, c[s])
    ensures var r := PostLines(p, attempts[|attempts| - 1], LINES, c);
            && (r.Ok? <==> Fits(p, attempts[|attempts| - 1]) && PostedSlotsFit(p, attempts))
            && (r.Ok? ==> forall s :: 0 <= s < SLOTS ==> HoldsPosted(p, attempts, s, r.value[s]))
  {
    var before, e := attempts[..|attempts| - 1], attempts[|attempts| - 1];
    forall s | 0 <= s < SLOTS && s != RETRY
      ensures c[s].value == SlotTotal(p, before, s) >= 0
      ensures SlotTotal(p, attempts, s) == c[s].value + SlotCost(p, e, s)
      ensures AnyUses(attempts, s) <==> c[s].known || SlotUsed(e, s)
    {
      assert HoldsPosted(p, before, s, c[s]);
      SlotTotalNonNegative(p, before, s);
      SlotUsePush(attempts, s);
    }
    assert HoldsPosted(p, before, RETRY, c[RETRY]);
    PostLinesExact(p, e, LINES, c);
    var r := PostLines(p, e, LINES, c);
    if r.Ok? {
      forall s | 0 <= s < SLOTS ensures s != RETRY ==> SlotTotal(p, attempts, s) <= I64_MAX
                                ensures HoldsPosted(p, attempts, s, r.value[s]) {
        assert HoldsAfter(p, e, LINES, c, s, r.value[s]);
        if LineOf(s) < LINES { assert SlotOf(LineOf(s)) == s; assert LinePosts(p, e, LineOf(s), c); }
      }
      forall j | 0 <= j < LINES ensures LineFits(p, e, j) { assert LinePosts(p, e, j, c); }
      assert Fits(p, e);
    }
    if Fits(p, e) && PostedSlotsFit(p, attempts) {
      forall j | 0 <= j < LINES ensures LinePosts(p, e, j, c) {
        assert SlotTotal(p, attempts, SlotOf(j)) <= I64_MAX;
      }
    }
  }

  lemma PostedSlotsFitEarlier(p: Pricer, attempts: seq<CostEvidence>)
    requires Sound(p) && |attempts| > 0 && PostedSlotsFit(p, attempts)
    ensures PostedSlotsFit(p, attempts[..|attempts| - 1])
  {
    var before, e := attempts[..|attempts| - 1], attempts[|attempts| - 1];
    forall s | 0 <= s < SLOTS && s != RETRY ensures SlotTotal(p, before, s) <= I64_MAX {
      SlotCostNonNegative(p, e, s);
      assert SlotTotal(p, attempts, s) == SlotTotal(p, before, s) + SlotCost(p, e, s);
    }
  }

  lemma {:induction false} PostAllExact(p: Pricer, attempts: seq<CostEvidence>)
    requires Sound(p)
    ensures PostAll(p, attempts).Ok? <==> AllFit(p, attempts) && PostedSlotsFit(p, attempts)
    ensures PostAll(p, attempts).Ok? ==>
              forall s :: 0 <= s < SLOTS ==> HoldsPosted(p, attempts, s, PostAll(p, attempts).value[s])
  {
    if |attempts| > 0 {
      var before := attempts[..|attempts| - 1];
      PostAllExact(p, before);
      AllFitPush(p, attempts);
      if PostAll(p, before).Ok? {
        PostAttemptExact(p, attempts, PostAll(p, before).value);
      } else if PostedSlotsFit(p, attempts) {
        PostedSlotsFitEarlier(p, attempts);
      }
    }
  }

  /** The retry pass changes the retry component only, and to the cost of the failed completions. */
  lemma {:induction false} PostRetriesExact(p: Pricer, attempts: seq<CostEvidence>, c: Components)
    requires Sound(p) && AllFit(p, attempts)
    requires c[RETRY] == ComponentValue(false, 0)
    ensures PostRetries(p, attempts, c).Ok? <==> SlotTotal(p, attempts, RETRY) <= I64_MAX
    ensures PostRetries(p, attempts, c).Ok? ==>
              var c' := PostRetries(p, attempts, c).value;
              && Holds(c'[RETRY], AnyUses(attempts, RETRY), SlotTotal(p, attempts, RETRY))
              && forall s :: 0 <= s < SLOTS && s != RETRY ==> c'[s] == c[s]
  {
    if |attempts| > 0 {
      var before, e := attempts[..|attempts| - 1], attempts[|attempts| - 1];
      AllFitPush(p, attempts);
      PostRetriesExact(p, before, c);
      SlotTotalNonNegative(p, before, RETRY);
      SlotUsePush(attempts, RETRY);
      SlotCostNonNegative(p, e, RETRY);
      FailedCostExact(p, e, 6);
      assert SlotTotal(p, attempts, RETRY) == SlotTotal(p, before, RETRY) + SlotCost(p, e, RETRY);
    }
  }

  // ---- totals ---------------------------------------------------------------------------

  /** The additive components, up to component `n`. */
  function AdditiveSum(p: Pricer, attempts: seq<CostEvidence>, n: nat): int {
    if n == 0 then 0
    else AdditiveSum(p, attempts, n - 1) +
         if n - 1 == RETRY || n - 1 == RECOVERY then 0 else SlotTotal(p, attempts, n - 1)
  }

  lemma {:induction false} AdditiveSumMonotone(p: Pricer, attempts: seq<CostEvidence>, n: nat, s: nat)
    requires Sound(p) && s < n
    ensures 0 <= AdditiveSum(p, attempts, s) <= AdditiveSum(p, attempts, n)
    ensures s != RETRY && s != RECOVERY ==> SlotTotal(p, attempts, s) <= AdditiveSum(p, attempts, n)
    decreases n
  {
    SlotTotalNonNegative(p, attempts, n - 1);
    if s < n - 1 {
      AdditiveSumMonotone(p, attempts, n - 1, s);
    } else if s > 0 {
      AdditiveSumMonotone(p, attempts, s, 0);
    }
  }

  lemma {:induction false} UnusedSlot(p: Pricer, attempts: seq<CostEvidence>, slot: nat)
    requires !AnyUses(attempts, slot)
    ensures SlotTotal(p, attempts, slot) == 0
  {
    if |attempts| > 0 {
      SlotUsePush(attempts, slot);
      UnusedSlot(p, attempts[..|attempts| - 1], slot);
      assert !SlotUsed(attempts[|attempts| - 1], slot);
    }
  }

  predicate HoldsTotals(p: Pricer, attempts: seq<CostEvidence>, c: Components) {
    forall s :: 0 <= s < SLOTS ==> Holds(c[s], AnyUses(attempts, s), SlotTotal(p, attempts, s))
  }

  lemma {:induction false} TotalOfExact(p: Pricer, attempts: seq<CostEvidence>, c: Components, n: nat)
    requires Sound(p) && n <= SLOTS && HoldsTotals(p, attempts, c)
    ensures TotalOf(c, n).Ok? <==> AdditiveSum(p, attempts, n) <= I64_MAX
    ensures TotalOf(c, n).Ok? ==> TotalOf(c, n).value == AdditiveSum(p, attempts, n)
  {
    if n > 0 {
      TotalOfExact(p, attempts, c, n - 1);
      AdditiveSumMonotone(p, attempts, n, n - 1);
      SlotTotalNonNegative(p, attempts, n - 1);
      assert Holds(c[n - 1], AnyUses(attempts, n - 1), SlotTotal(p, attempts, n - 1));
      if !AnyUses(attempts, n - 1) { UnusedSlot(p, attempts, n - 1); }
    }
  }

  lemma AttemptSlots(p: Pricer, e: CostEvidence)
    ensures LinesCost(p, e, LINES) == LinesCost(p, e, 6) + LineCost(p, e, 6)
    ensures LinesCost(p, e, 6) ==
            LineCost(p, e, 0) + LineCost(p, e, 1) + LineCost(p, e, 2) +
            LineCost(p, e, 3) + LineCost(p, e, 4) + LineCost(p, e, 5)
  {
    assert LinesCost(p, e, 1) == LineCost(p, e, 0);
    assert LinesCost(p, e, 2) == LinesCost(p, e, 1) + LineCost(p, e, 1);
    assert LinesCost(p, e, 3) == LinesCost(p, e, 2) + LineCost(p, e, 2);
    assert LinesCost(p, e, 4) == LinesCost(p, e, 3) + LineCost(p, e, 3);
    assert LinesCost(p, e, 5) == LinesCost(p, e, 4) + LineCost(p, e, 4);
  }

  function MeasuredTotal(p: Pricer, a: seq<CostEvidence>): int {
    SlotTotal(p, a, 0) + SlotTotal(p, a, 1) + SlotTotal(p, a, 2) +
    SlotTotal(p, a, 3) + SlotTotal(p, a, 4) + SlotTotal(p, a, 5)
  }

  lemma AdditiveSumUnrolled(p: Pricer, a: seq<CostEvidence>)
    ensures AdditiveSum(p, a, SLOTS) ==
            MeasuredTotal(p, a) + SlotTotal(p, a, RECOMPUTATION) + SlotTotal(p, a, 9)
  {
    assert AdditiveSum(p, a, 1) == SlotTotal(p, a, 0);
    assert AdditiveSum(p, a, 2) == AdditiveSum(p, a, 1) + SlotTotal(p, a, 1);
    assert AdditiveSum(p, a, 3) == AdditiveSum(p, a, 2) + SlotTotal(p, a, 2);
    assert AdditiveSum(p, a, 4) == AdditiveSum(p, a, 3) + SlotTotal(p, a, 3);
    assert AdditiveSum(p, a, 5) == AdditiveSum(p, a, 4) + SlotTotal(p, a, 4);
    assert AdditiveSum(p, a, 6) == AdditiveSum(p, a, 5) + SlotTotal(p, a, 5);
    assert AdditiveSum(p, a, 8) == AdditiveSum(p, a, 7) == AdditiveSum(p, a, 6);
    assert AdditiveSum(p, a, 9) == AdditiveSum(p, a, 8) + SlotTotal(p, a, 8);
  }

  /** The additive components together are the cost of every attempt, each counted once. */
  lemma {:induction false} AdditiveIsTotal(p: Pricer, a: seq<CostEvidence>)
    ensures MeasuredTotal(p, a) + SlotTotal(p, a, RECOMPUTATION) == TotalCost(p, a)
    ensures SlotTotal(p, a, RECOVERY) == SlotTotal(p, a, 9) == 0
    ensures AdditiveSum(p, a, SLOTS) == TotalCost(p, a)
  {
    AdditiveSumUnrolled(p, a);
    if |a| > 0 {
      AdditiveIsTotal(p, a[..|a| - 1]);
      AttemptSlots(p, a[|a| - 1]);
    }
  }

  /** The retry component is part of what components 0 to 5 already hold. */
  lemma {:induction false} RetryWithinMeasured(p: Pricer, a: seq<CostEvidence>)
    requires Sound(p)
    ensures 0 <= SlotTotal(p, a, RETRY) <= MeasuredTotal(p, a) <= TotalCost(p, a)
  {
    AdditiveIsTotal(p, a);
    SlotTotalNonNegative(p, a, RECOMPUTATION);
    if |a| > 0 {
      var e := a[|a| - 1];
      RetryWithinMeasured(p, a[..|a| - 1]);
      AttemptSlots(p, e);
      LinesCostNonNegative(p, e, 6);
    }
  }

  // ---- the projection -------------------------------------------------------------------

  /** A projection with a sound pricer returns exactly when every line can be priced and the
      mathematical total fits; every component and the total are then the mathematical sums. */
  lemma ProjectWithExact(p: Pricer, currency: Bytes, attempts: seq<CostEvidence>)
    requires Sound(p)
    ensures var r := ProjectWith(p, currency, attempts);
            && (r.Ok? <==> AllFit(p, attempts) && TotalCost(p, attempts) <= I64_MAX)
            && (r.Ok? ==>
                 && r.value.currency == currency
                 && r.value.total == TotalCost(p, attempts)
                 && r.value.anyUnknown == AnyUnknown(attempts)
                 && HoldsTotals(p, attempts, r.value.components))
  {
    PostAllExact(p, attempts);
    AdditiveIsTotal(p, attempts);
    RetryWithinMeasured(p, attempts);
    if TotalCost(p, attempts) <= I64_MAX {
      forall s | 0 <= s < SLOTS && s != RETRY ensures SlotTotal(p, attempts, s) <= I64_MAX {
        AdditiveSumMonotone(p, attempts, SLOTS, s);
      }
    }
    if PostAll(p, attempts).Ok? {
      var posted := PostAll(p, attempts).value;
      assert HoldsPosted(p, attempts, RETRY, posted[RETRY]);
      PostRetriesExact(p, attempts, posted);
      if PostRetries(p, attempts, posted).Ok? {
        var c := PostRetries(p, attempts, posted).value;
        forall s | 0 <= s < SLOTS ensures Holds(c[s], AnyUses(attempts, s), SlotTotal(p, attempts, s)) {
          assert HoldsPosted(p, attempts, s, posted[s]);
        }
        TotalOfExact(p, attempts, c, SLOTS);
      }
    }
  }

  /** The whole breakdown is the same for every order of the attempts. */
  lemma ProjectWithOrderFree(p: Pricer, currency: Bytes, a: seq<CostEvidence>, b: seq<CostEvidence>)
    requires Sound(p) && multiset(a) == multiset(b)
    ensures ProjectWith(p, currency, a).Ok? <==> ProjectWith(p, currency, b).Ok?
    ensures ProjectWith(p, currency, a).Ok? ==> ProjectWith(p, currency, a) == ProjectWith(p, currency, b)
  {
    ProjectWithExact(p, currency, a);
    ProjectWithExact(p, currency, b);
    SumReorder(a, b, AttemptCost(p));
    ReorderKeeps(p, a, b);
    ReorderKeeps(p, b, a);
    if ProjectWith(p, currency, a).Ok? {
      var x, y := ProjectWith(p, currency, a).value, ProjectWith(p, currency, b).value;
      forall s | 0 <= s < SLOTS ensures x.components[s] == y.components[s] {
        SumReorder(a, b, SlotMeasure(p, s));
        assert Holds(x.components[s], AnyUses(a, s), SlotTotal(p, a, s));
        assert Holds(y.components[s], AnyUses(b, s), SlotTotal(p, b, s));
      }
      assert x.components == y.components;
    }
  }

  lemma ReorderKeeps(p: Pricer, a: seq<CostEvidence>, b: seq<CostEvidence>)
    requires multiset(a) == multiset(b)
    ensures AllFit(p, a) ==> AllFit(p, b)
    ensures forall s :: AnyUses(a, s) ==> AnyUses(b, s)
    ensures AnyUnknown(a) ==> AnyUnknown(b)
  {
    forall i | 0 <= i < |b| ensures b[i] in a { assert b[i] in multiset(b); }
    forall i | 0 <= i < |a| ensures a[i] in b { assert a[i] in multiset(a); }
    forall s | AnyUses(a, s) ensures AnyUses(b, s) {
      var i :| 0 <= i < |a| && SlotUsed(a[i], s);
      assert a[i] in b;
    }
    if AnyUnknown(a) {
      var i :| 0 <= i < |a| && a[i].dataLabel == UNSUPPORTED;
      assert a[i] in b;
    }
  }

  lemma AllFitConcat(p: Pricer, a: seq<CostEvidence>, b: seq<CostEvidence>)
    ensures AllFit(p, a + b) <==> AllFit(p, a) && AllFit(p, b)
  {
    if AllFit(p, a + b) {
      forall i | 0 <= i < |a| ensures Fits(p, a[i]) { assert Fits(p, (a + b)[i]); }
      forall i | 0 <= i < |b| ensures Fits(p, b[i]) { assert Fits(p, (a + b)[|a| + i]); }
    }
  }

  /** Attempts billed together cost what they cost apart, component by component. */
  lemma ProjectWithConcat(p: Pricer, currency: Bytes, a: seq<CostEvidence>, b: seq<CostEvidence>)
    requires Sound(p) && ProjectWith(p, currency, a + b).Ok?
    ensures ProjectWith(p, currency, a).Ok? && ProjectWith(p, currency, b).Ok?
    ensures var x, y, z := ProjectWith(p, currency, a).value, ProjectWith(p, currency, b).value,
                           ProjectWith(p, currency, a + b).value;
            && z.total == x.total + y.total
            && forall s :: 0 <= s < SLOTS ==>
                 z.components[s].value == x.components[s].value + y.components[s].value
  {
    ProjectWithExact(p, currency, a);
    ProjectWithExact(p, currency, b);
    ProjectWithExact(p, currency, a + b);
    AllFitConcat(p, a, b);
    SumConcat(a, b, AttemptCost(p));
    RetryWithinMeasured(p, a);
    RetryWithinMeasured(p, b);
    var x, y, z := ProjectWith(p, currency, a).value, ProjectWith(p, currency, b).value,
                   ProjectWith(p, currency, a + b).value;
    forall s | 0 <= s < SLOTS
      ensures z.components[s].value == x.components[s].value + y.components[s].value
    {
      SumConcat(a, b, SlotMeasure(p, s));
      assert Holds(x.components[s], AnyUses(a, s), SlotTotal(p, a, s));
      assert Holds(y.components[s], AnyUses(b, s), SlotTotal(p, b, s));
      assert Holds(z.components[s], AnyUses(a + b, s), SlotTotal(p, a + b, s));
    }
  }
}
