/** Which of a feasible plan's amounts are priced from fresh observations.

The freshness loop walks the six measurable amounts. Recomputation is priced as accelerator time, so it
shares the check of accelerator time when the plan uses any, and has none otherwise.
 */
module Freshness {
  import opened Types
  import opened Pricing
  import opened Billing
  import opened Lookup
  import opened Planning
  import opened Ranking
  import opened Admission

  /** The observation line `k` of the plan is priced from. */
  function PriceOf(x: Economy, p: ExecutionPlan, k: nat): Option<PriceObservation>
    requires k < LINES
  {
    Find(x.Market(), QueryAt(PlanEvidence(p), k))
  }

  predicate PricedFresh(x: Economy, p: ExecutionPlan, k: nat)
    requires k < LINES
  {
    PriceOf(x, p, k).Some? && !Stale(PriceOf(x, p, k).value, x.schedule.createdAt, x.now, x.policy)
  }

  predicate Uses(p: ExecutionPlan, k: nat)
    requires k < LINES
  {
    UsageAt(PlanEvidence(p), k) != 0
  }

  /** Refused labels disturb no lookup of line `k`. */
  ghost predicate HarmlessAt(x: Economy, p: ExecutionPlan, k: nat)
    requires k < LINES
  {
    LabelsHarmless(x.Market(), QueryAt(PlanEvidence(p), k), x.policy)
  }

  /** The check of line `k` finds a price, and a fresh one. */
  predicate ChecksFresh(x: Economy, p: ExecutionPlan, k: nat)
    requires k < LINES
  {
    CheckAt(x, p, k).Present? && !CheckAt(x, p, k).stale
  }

  lemma CheckedIsPriced(x: Economy, p: ExecutionPlan, k: nat)
    requires k < LINES && HarmlessAt(x, p, k)
    ensures PricedFresh(x, p, k) <==> ChecksFresh(x, p, k)
  {
    LookupsAgree(x.Market(), QueryAt(PlanEvidence(p), k), x.policy);
  }

  /** Recomputation asks for the same price as accelerator time. */
  lemma RecomputeIsAcceleratorTime(x: Economy, p: ExecutionPlan)
    ensures PricedFresh(x, p, 6) <==> PricedFresh(x, p, 0)
    ensures HarmlessAt(x, p, 6) <==> HarmlessAt(x, p, 0)
  {
    assert QueryAt(PlanEvidence(p), 6) == QueryAt(PlanEvidence(p), 0);
  }

  lemma FeasibleChecks(x: Economy, p: ExecutionPlan, k: nat)
    requires BaseFeasible(x, p) && k < 6 && Uses(p, k)
    ensures ChecksFresh(x, p, k)
  {
    BaseMeaning(x, p);
    UnpricedMeaning(x, p, 0);
  }

  /** Every amount a feasible plan uses is priced from a fresh observation, recomputation too when the plan
      also uses accelerator time, provided refused labels do not disturb the lookup. */
  lemma FeasibleIsPricedFresh(x: Economy, p: ExecutionPlan, k: nat)
    requires BaseFeasible(x, p) && k < LINES && Uses(p, k) && HarmlessAt(x, p, k)
    requires k == 6 ==> p.acceleratorTime != 0
    ensures PricedFresh(x, p, k)
  {
    RecomputeIsAcceleratorTime(x, p);
    var line := if k == 6 then 0 else k;
    FeasibleChecks(x, p, line);
    CheckedIsPriced(x, p, line);
  }

  /** Every amount the plan uses is priced from a fresh observation exactly when its recomputation, if it has
      any and no accelerator time beside it, would pass the check that nobody makes. */
  lemma FeasibleFreshExactly(x: Economy, p: ExecutionPlan)
    requires BaseFeasible(x, p) && forall k :: 0 <= k < LINES && Uses(p, k) ==> HarmlessAt(x, p, k)
    ensures (forall k :: 0 <= k < LINES && Uses(p, k) ==> PricedFresh(x, p, k)) <==>
            (p.recomputeNs != 0 && p.acceleratorTime == 0 ==> ChecksFresh(x, p, 0))
  {
    RecomputeIsAcceleratorTime(x, p);
    if Uses(p, 6) { CheckedIsPriced(x, p, 0); }
    forall k | 0 <= k < LINES && Uses(p, k) && (k == 6 ==> p.acceleratorTime != 0) ensures PricedFresh(x, p, k) {
      FeasibleIsPricedFresh(x, p, k);
    }
    assert Uses(p, 6) <==> p.recomputeNs != 0;
  }

  // ---- the failing family ---------------------------------------------------------------

  /** The plan uses nothing but recomputation. */
  predicate OnlyRecomputes(p: ExecutionPlan) {
    p.recomputeNs > 0 && forall k :: 0 <= k < 6 ==> !Uses(p, k)
  }

  lemma {:induction false} OnlyRecomputeCosts(m: Market, p: ExecutionPlan, n: nat)
    requires OnlyRecomputes(p) && n <= 6
    ensures RoundedLines(m, PlanEvidence(p), n) == 0
  {
    if n > 0 {
      assert !Uses(p, n - 1);
      OnlyRecomputeCosts(m, p, n - 1);
      UnusedIsFree(m, PlanEvidence(p), n - 1);
    }
  }

  /** A plan that only recomputes is feasible however old its price is, at the cost of its recomputation. */
  lemma RecomputeIsNotChecked(x: Economy, p: ExecutionPlan)
    requires OnlyRecomputes(p) && p.dataLabel != UNSUPPORTED && p.meetsHardSlo && !x.revalidation
    requires Priceable(x.Market(), PlanEvidence(p), 6)
    ensures BaseFeasible(x, p) && PlanTotal(x, p) == Rounded(x.Market(), PlanEvidence(p), 6)
  {
    var m, e := x.Market(), PlanEvidence(p);
    forall k | 0 <= k < 6 ensures UsageAt(e, k) == 0 { assert !Uses(p, k); }
    UnpricedMeaning(x, p, 0);
    forall i, k | 0 <= i < |[e]| && 0 <= k < LINES ensures Priceable(m, [e][i], k) {}
    OnlyRecomputeCosts(m, p, 6);
    SumOfOne(e, BillMeasure(m));
    ProjectExact(m, [e]);
    BaseMeaning(x, p);
  }

  const USD: Bytes := [0x55, 0x53, 0x44]

  /** A price of a micro per second of accelerator time, observed at time 0. */
  function SecondPrice(): PriceObservation {
    PriceObservation(1, ACCELERATOR_TIME, 0, 0, 1, USD, 0, REAL, 0, 0, 0, 1, 1, 0, 0)
  }

  /** That price, good for ten milliseconds, seen at 1000. */
  function OldMarket(): Economy {
    Economy(CostPolicy(1, 1, 1, USD, 0, 0, 10, 0, 0, 0, 0, 80, 90, 0, 0, false, true, true, true),
            PriceSchedule(1, 1, 0, [SecondPrice()]), false, 1000)
  }

  function RecomputingPlan(): ExecutionPlan {
    ExecutionPlan(1, 1, 1, 1, 0, 0, 0, 0, 0, 0, 0, 0, 0, 0, 0, 0, 0, 0, 0, 1, 0, 0, 7, 1, POLICY, true, 100)
  }

  /** At that price the plan is feasible before any budget is looked at, and costs one micro. */
  lemma RecomputationPriced(x: Economy)
    requires x.schedule.observations == [SecondPrice()] && x.policy.currency == USD && !x.revalidation && x.now >= 0
    ensures BaseFeasible(x, RecomputingPlan()) && PlanTotal(x, RecomputingPlan()) == 1
    ensures Find(x.Market(), QueryAt(PlanEvidence(RecomputingPlan()), 6)) == Some(SecondPrice())
  {
    var p := RecomputingPlan();
    var q := QueryAt(PlanEvidence(p), 6);
    assert Applies(x.Market(), SecondPrice(), q) && SecondPrice() in x.Market().observations;
    assert CeilQuotient(1, 1_000_000_000) == 1;
    RecomputeIsNotChecked(x, p);
  }

  /** A feasible plan priced from a stale observation. */
  lemma StaleRecomputation()
    ensures BaseFeasible(OldMarket(), RecomputingPlan()) && Uses(RecomputingPlan(), 6)
    ensures HarmlessAt(OldMarket(), RecomputingPlan(), 6) && !PricedFresh(OldMarket(), RecomputingPlan(), 6)
  {
    var x, p := OldMarket(), RecomputingPlan();
    RecomputationPriced(x);
    AcceptedIsHarmless(x.Market(), QueryAt(PlanEvidence(p), 6), x.policy);
  }
}
