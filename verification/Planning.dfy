/** Economics of a plan, the hard-budget gate, and the ranked choice among feasible plans. */
module Planning {
  import opened Types
  import opened Money
  import opened Pricing

  datatype Feasibility = Feasible | Infeasible | RevalidationRequired | InsufficientEvidence | Unknown

  datatype Reason =
    | NoReason | MissingPrice | StalePrice | HardBudgetExceeded | SloConflict
    | TransferTooExpensive | EnergyTooExpensive | UnknownCostComponent

  datatype PlanEconomics = PlanEconomics(
    feasible: Feasibility, reason: Reason, projected: CostBreakdown,
    perRequest: i64, perToken: i64, perTokenValid: bool)

  /** Everything but the budgets that an evaluation reads. */
  datatype Economy = Economy(policy: CostPolicy, schedule: PriceSchedule, revalidation: bool, now: i64)
  {
    function Market(): Market { Pricing.Market(schedule.observations, policy.currency, now) }
  }

  type Budgets = map<u64, Budget>

  function NoBreakdown(): CostBreakdown {
    CostBreakdown([0x55, 0x53, 0x44], Blank(), 0, false)
  }

  function Verdict(feasible: Feasibility, reason: Reason): PlanEconomics {
    PlanEconomics(feasible, reason, NoBreakdown(), 0, 0, false)
  }

  function PlanEvidence(p: ExecutionPlan): CostEvidence {
    CostEvidence(0, 0, 0, 0, 0, 0, 0, 0, 0, 0, p.device, p.resource, p.dataLabel, false, false,
                 p.acceleratorTime, p.energy, p.transfer, p.memoryHold, p.residencyHold, p.storageBytes,
                 p.requests, p.tokens, p.operations, 0, p.recomputeNs)
  }

  // ---- before the budgets ---------------------------------------------------------------

  function CheckAt(x: Economy, p: ExecutionPlan, k: nat): PriceCheck
    requires k < LINES
  {
    Check(x.Market(), QueryAt(PlanEvidence(p), k), x.schedule.createdAt, x.policy)
  }

  /** The first of components `k`..5 that is used but has no fresh price. */
  function FirstUnpriced(x: Economy, p: ExecutionPlan, k: nat): Option<PlanEconomics>
    requires k <= 6
    decreases 6 - k
  {
    if k == 6 then None
    else if UsageAt(PlanEvidence(p), k) == 0 then FirstUnpriced(x, p, k + 1)
    else match CheckAt(x, p, k)
         case Missing => Some(Verdict(InsufficientEvidence, MissingPrice))
         case Present(_, stale) =>
           if stale then Some(Verdict(RevalidationRequired, StalePrice)) else FirstUnpriced(x, p, k + 1)
  }

  /** The rate of a non-negative total over a positive count, rounded up. */
  function Rate(total: i64, count: i64): i64 {
    if count > 0 then (match CheckedDiv(total, count, Ceil) case Ok(v) => v case Err(_) => 0) else 0
  }

  /** The economics of a plan with its budgets still to be checked. */
  function BaseEconomics(x: Economy, p: ExecutionPlan): (r: Result<PlanEconomics>) {
    if p.dataLabel == UNSUPPORTED then Ok(Verdict(Unknown, UnknownCostComponent))
    else if !p.meetsHardSlo then Ok(Verdict(Infeasible, SloConflict))
    else if x.revalidation then Ok(Verdict(RevalidationRequired, StalePrice))
    else match FirstUnpriced(x, p, 0)
         case Some(e) => Ok(e)
         case None =>
           match Project(x.Market(), [PlanEvidence(p)])
           case Err(error) =>
             if error == Thrown(MISSING_PRICE) then Ok(Verdict(InsufficientEvidence, MissingPrice)) else Err(error)
           case Ok(bd) =>
             if bd.anyUnknown then Ok(Verdict(Unknown, UnknownCostComponent))
             else Ok(PlanEconomics(Feasible, NoReason, bd, Rate(bd.total, p.requests), Rate(bd.total, p.tokens),
                                   p.tokens > 0))
  }

  // ---- the gate -------------------------------------------------------------------------

  /** `order` lists the budgets of a hash map once each. */
  predicate IsOrder(order: seq<u64>, budgets: Budgets) {
    && (forall i :: 0 <= i < |order| ==> order[i] in budgets)
    && (forall id :: id in budgets ==> id in order)
    && (forall i, j :: 0 <= i < j < |order| ==> order[i] != order[j])
  }

  predicate Listed(order: seq<u64>, budgets: Budgets) {
    forall i :: 0 <= i < |order| ==> order[i] in budgets
  }

  function ReasonFor(b: Budget): Reason {
    if b.objective == MAX_ENERGY_COST then EnergyTooExpensive
    else if b.objective == MAX_TRANSFER_COST then TransferTooExpensive
    else HardBudgetExceeded
  }

  function Remaining(b: Budget): Result<i64> { CheckedSub(b.limit, b.consumed) }

  /** The first budget in hash order that cannot pay decides; an overflow on the way throws. */
  function Gate(budgets: Budgets, order: seq<u64>, e: PlanEconomics): (r: Result<PlanEconomics>)
    requires Listed(order, budgets)
  {
    if |order| == 0 then Ok(e)
    else
      var b := budgets[order[0]];
      if b.mode != HARD then Gate(budgets, order[1..], e)
      else
        var remaining :- Remaining(b);
        if e.projected.total > remaining then Ok(e.(feasible := Infeasible, reason := ReasonFor(b)))
        else Gate(budgets, order[1..], e)
  }

  function EvaluatePlan(x: Economy, budgets: Budgets, order: seq<u64>, p: ExecutionPlan): (r: Result<PlanEconomics>)
    requires Listed(order, budgets)
  {
    var e :- BaseEconomics(x, p);
    if e.feasible == Feasible then Gate(budgets, order, e) else Ok(e)
  }

  method EvaluatePlanLocked(x: Economy, budgets: Budgets, order: seq<u64>, p: ExecutionPlan)
    returns (r: Result<PlanEconomics>)
    requires Listed(order, budgets)
    ensures r == EvaluatePlan(x, budgets, order, p)
  {
    if p.dataLabel == UNSUPPORTED { return Ok(Verdict(Unknown, UnknownCostComponent)); }
    if !p.meetsHardSlo { return Ok(Verdict(Infeasible, SloConflict)); }
    if x.revalidation { return Ok(Verdict(RevalidationRequired, StalePrice)); }
    for k := 0 to 6
      invariant FirstUnpriced(x, p, 0) == FirstUnpriced(x, p, k)
    {
      if UsageAt(PlanEvidence(p), k) == 0 { continue; }
      var check := CheckPrice(x.Market(), QueryAt(PlanEvidence(p), k), x.schedule.createdAt, x.policy);
      if check.Missing? { return Ok(Verdict(InsufficientEvidence, MissingPrice)); }
      if check.stale { return Ok(Verdict(RevalidationRequired, StalePrice)); }
    }
    var projected := ProjectAttempts(x.Market(), [PlanEvidence(p)]);
    if projected.Err? {
      if projected.error == Thrown(MISSING_PRICE) { return Ok(Verdict(InsufficientEvidence, MissingPrice)); }
      return Err(projected.error);
    }
    var bd := projected.value;
    if bd.anyUnknown { return Ok(Verdict(Unknown, UnknownCostComponent)); }
    var e := PlanEconomics(Feasible, NoReason, bd, Rate(bd.total, p.requests), Rate(bd.total, p.tokens), p.tokens > 0);
    r := GateLoop(budgets, order, e);
  }

  method GateLoop(budgets: Budgets, order: seq<u64>, e: PlanEconomics) returns (r: Result<PlanEconomics>)
    requires Listed(order, budgets)
    ensures r == Gate(budgets, order, e)
  {
    for i := 0 to |order|
      invariant Gate(budgets, order, e) == Gate(budgets, order[i..], e)
    {
      var b := budgets[order[i]];
      assert order[i..][1..] == order[i + 1..];
      if b.mode == HARD {
        var remaining :- Remaining(b);
        if e.projected.total > remaining {
          return Ok(e.(feasible := Infeasible, reason := ReasonFor(b)));
        }
      }
    }
    return Ok(e);
  }

  // ---- ranking --------------------------------------------------------------------------

  datatype Candidate = Candidate(plan: ExecutionPlan, econ: PlanEconomics)

  function KnownValue(bd: CostBreakdown, slot: nat): i64
    requires slot < SLOTS
  {
    if bd.components[slot].known then bd.components[slot].value else 0
  }

  predicate Better(a: Candidate, b: Candidate) {
    var x, y := a.econ, b.econ;
    if x.projected.total != y.projected.total then x.projected.total < y.projected.total
    else if x.perRequest != y.perRequest then x.perRequest < y.perRequest
    else if x.perToken != y.perToken then x.perToken < y.perToken
    else if KnownValue(x.projected, 1) != KnownValue(y.projected, 1) then
      KnownValue(x.projected, 1) < KnownValue(y.projected, 1)
    else if KnownValue(x.projected, 2) != KnownValue(y.projected, 2) then
      KnownValue(x.projected, 2) < KnownValue(y.projected, 2)
    else if KnownValue(x.projected, 0) != KnownValue(y.projected, 0) then
      KnownValue(x.projected, 0) < KnownValue(y.projected, 0)
    else if a.plan.completionProbabilityPercent != b.plan.completionProbabilityPercent then
      a.plan.completionProbabilityPercent > b.plan.completionProbabilityPercent
    else a.plan.id < b.plan.id
  }

  type Comparison = (Candidate, Candidate) -> bool

  /** Insertion before the first element that does not rank ahead, which keeps equals in order. */
  function Insert(c: Candidate, sorted: seq<Candidate>, ahead: Comparison): (r: seq<Candidate>)
    ensures |r| == |sorted| + 1
  {
    if |sorted| == 0 then [c]
    else if !ahead(sorted[0], c) then [c] + sorted
    else [sorted[0]] + Insert(c, sorted[1..], ahead)
  }

  /** The library's stable sort. */
  function StableSort(s: seq<Candidate>, ahead: Comparison): (r: seq<Candidate>)
    ensures |r| == |s|
  {
    if |s| == 0 then [] else Insert(s[0], StableSort(s[1..], ahead), ahead)
  }

  type Evaluator = ExecutionPlan -> Result<PlanEconomics>

  function EvaluatorOf(x: Economy, budgets: Budgets, order: seq<u64>): Evaluator
    requires Listed(order, budgets)
  {
    p => EvaluatePlan(x, budgets, order, p)
  }

  function EvaluateAll(eval: Evaluator, plans: seq<ExecutionPlan>): (r: Result<seq<Candidate>>)
    ensures r.Ok? ==> |r.value| == |plans|
    ensures r.Ok? ==> forall i :: 0 <= i < |plans| ==>
              r.value[i].plan == plans[i] && eval(plans[i]) == Ok(r.value[i].econ)
    ensures r.Err? ==> exists i :: 0 <= i < |plans| && eval(plans[i]).Err?
  {
    if |plans| == 0 then Ok([])
    else
      var before :- EvaluateAll(eval, plans[..|plans| - 1]);
      var p := plans[|plans| - 1];
      var e :- eval(p);
      Ok(before + [Candidate(p, e)])
  }

  lemma {:induction false} EvaluateAllStops(eval: Evaluator, plans: seq<ExecutionPlan>, i: nat)
    requires i <= |plans| && EvaluateAll(eval, plans[..i]).Err?
    ensures EvaluateAll(eval, plans) == EvaluateAll(eval, plans[..i])
    decreases |plans|
  {
    if i == |plans| {
      assert plans[..i] == plans;
    } else {
      assert plans[..|plans| - 1][..i] == plans[..i];
      EvaluateAllStops(eval, plans[..|plans| - 1], i);
    }
  }

  /** `eval` is how plans are evaluated here. */
  ghost predicate Evaluates(eval: Evaluator, x: Economy, budgets: Budgets, order: seq<u64>)
    requires Listed(order, budgets)
  {
    forall p {:trigger EvaluatePlan(x, budgets, order, p)} :: eval(p) == EvaluatePlan(x, budgets, order, p)
  }

  method EvaluateNext(x: Economy, budgets: Budgets, order: seq<u64>, p: ExecutionPlan, ghost eval: Evaluator)
    returns (e: Result<PlanEconomics>)
    requires Listed(order, budgets) && Evaluates(eval, x, budgets, order)
    ensures e == eval(p)
  {
    e := EvaluatePlanLocked(x, budgets, order, p);
  }

  method EvaluateEach(x: Economy, budgets: Budgets, order: seq<u64>, plans: seq<ExecutionPlan>, ghost eval: Evaluator)
    returns (r: Result<seq<Candidate>>)
    requires Listed(order, budgets) && Evaluates(eval, x, budgets, order)
    ensures r == EvaluateAll(eval, plans)
  {
    var candidates: seq<Candidate> := [];
    for i := 0 to |plans|
      invariant EvaluateAll(eval, plans[..i]) == Ok(candidates)
    {
      assert plans[..i + 1][..i] == plans[..i];
      var e := EvaluateNext(x, budgets, order, plans[i], eval);
      if e.Err? {
        EvaluateAllStops(eval, plans, i + 1);
        return Err(e.error);
      }
      candidates := candidates + [Candidate(plans[i], e.value)];
    }
    assert plans[..|plans|] == plans;
    return Ok(candidates);
  }

  method EvaluatePlans(x: Economy, budgets: Budgets, order: seq<u64>, plans: seq<ExecutionPlan>)
    returns (r: Result<seq<Candidate>>)
    requires Listed(order, budgets)
    ensures r == EvaluateAll(EvaluatorOf(x, budgets, order), plans)
  {
    r := EvaluateEach(x, budgets, order, plans, EvaluatorOf(x, budgets, order));
  }

  function FeasibleOf(cs: seq<Candidate>): (r: seq<Candidate>)
    ensures forall c :: c in r <==> c in cs && c.econ.feasible == Feasible
  {
    if |cs| == 0 then []
    else
      var c := cs[|cs| - 1];
      assert cs == cs[..|cs| - 1] + [c];
      FeasibleOf(cs[..|cs| - 1]) + if c.econ.feasible == Feasible then [c] else []
  }

  /** The reason of the last candidate that is not feasible and has one. */
  function LastReason(cs: seq<Candidate>): Reason {
    if |cs| == 0 then NoReason
    else
      var c := cs[|cs| - 1];
      if c.econ.feasible != Feasible && c.econ.reason != NoReason then c.econ.reason
      else LastReason(cs[..|cs| - 1])
  }

  function RejectedOf(cs: seq<Candidate>, selected: u64): (ids: seq<u64>) {
    if |cs| == 0 then []
    else
      var c := cs[|cs| - 1];
      RejectedOf(cs[..|cs| - 1], selected) + if c.plan.id != selected then [c.plan.id] else []
  }

  // ---- the state of a decision ----------------------------------------------------------

  datatype CostState = WithinBudget | NearBudget | AtRisk | OverHardBudget | UnknownState

  function Threshold(b: Budget, percent: i64): Result<i64> {
    var scaled :- CheckedMul(b.limit, percent);
    CheckedDiv(scaled, 100, Ceil)
  }

  function StateFrom(policy: CostPolicy, budgets: Budgets, order: seq<u64>, total: i64, state: CostState)
    : Result<CostState>
    requires Listed(order, budgets)
  {
    if |order| == 0 then Ok(state)
    else
      var b := budgets[order[0]];
      if b.mode != HARD || b.limit == 0 then StateFrom(policy, budgets, order[1..], total, state)
      else
        var remaining :- Remaining(b);
        if total > remaining then Ok(OverHardBudget)
        else
          var near :- Threshold(b, policy.nearBudgetPercent);
          var atRisk :- Threshold(b, policy.atRiskPercent);
          StateFrom(policy, budgets, order[1..], total,
                    if total >= atRisk then AtRisk else if total >= near then NearBudget else state)
  }

  /** What is left of the first hard budget in hash order. */
  function FirstRemaining(budgets: Budgets, order: seq<u64>): Result<i64>
    requires Listed(order, budgets)
  {
    if |order| == 0 then Ok(0)
    else if budgets[order[0]].mode == HARD then Remaining(budgets[order[0]])
    else FirstRemaining(budgets, order[1..])
  }
}
