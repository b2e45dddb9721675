/** What the iteration order of the hash map of budgets can and cannot change, exceptions included. */
module Orders {
  import opened Types
  import opened Planning
  import opened Ranking
  import opened GovernorModel
  import opened Ledger

  /** What is left of the budget is a 64-bit amount. */
  predicate Payable(b: Budget) {
    b.consumed != I64_MIN && I64_MIN <= b.limit - b.consumed <= I64_MAX
  }

  /** The gate stops at the budget because it cannot pay. */
  predicate Refuses(b: Budget, total: int) {
    b.mode == HARD && Payable(b) && total > b.limit - b.consumed
  }

  /** The gate throws at the budget. */
  predicate Breaks(b: Budget) {
    b.mode == HARD && !Payable(b)
  }

  /** One budget refuses and another throws. */
  ghost predicate Mixed(budgets: Budgets, total: int) {
    && (exists id :: id in budgets && Refuses(budgets[id], total))
    && (exists id :: id in budgets && Breaks(budgets[id]))
  }

  /** Two evaluations of a plan throw alike, or agree on whether it is feasible and on its economics if so. */
  predicate SameVerdict(r: Result<PlanEconomics>, r': Result<PlanEconomics>) {
    match (r, r')
    case (Err(e), Err(e')) => e == e'
    case (Ok(v), Ok(v')) =>
      && (v.feasible == Feasible <==> v'.feasible == Feasible)
      && (v.feasible == Feasible ==> v == v')
    case _ => false
  }

  // ---- the gate -------------------------------------------------------------------------

  /** The first budget in the walk that stops the gate. */
  function Blocker(budgets: Budgets, order: seq<u64>, total: int): (id: Option<u64>)
    requires Listed(order, budgets)
    ensures id.Some? ==> id.value in order && id.value in budgets
    ensures id.Some? ==> Refuses(budgets[id.value], total) || Breaks(budgets[id.value])
    ensures id.None? ==> forall i :: 0 <= i < |order| ==>
              !Refuses(budgets[order[i]], total) && !Breaks(budgets[order[i]])
  {
    if |order| == 0 then None
    else if Refuses(budgets[order[0]], total) || Breaks(budgets[order[0]]) then Some(order[0])
    else Blocker(budgets, order[1..], total)
  }

  /** The gate is decided by its blocker. */
  lemma {:induction false} GateBlocked(budgets: Budgets, order: seq<u64>, e: PlanEconomics)
    requires Listed(order, budgets)
    ensures match Blocker(budgets, order, e.projected.total)
            case None => Gate(budgets, order, e) == Ok(e)
            case Some(id) =>
              if Breaks(budgets[id]) then Gate(budgets, order, e) == Err(Overflow)
              else Gate(budgets, order, e) == Ok(e.(feasible := Infeasible, reason := ReasonFor(budgets[id])))
  {
    if |order| > 0 { GateBlocked(budgets, order[1..], e); }
  }

  lemma GateOrderFree(budgets: Budgets, order: seq<u64>, order': seq<u64>, e: PlanEconomics)
    requires IsOrder(order, budgets) && IsOrder(order', budgets) && !Mixed(budgets, e.projected.total)
    ensures SameVerdict(Gate(budgets, order, e), Gate(budgets, order', e))
  {
    GateBlocked(budgets, order, e);
    GateBlocked(budgets, order', e);
    BlockersExist(budgets, order, order', e.projected.total);
    BlockersExist(budgets, order', order, e.projected.total);
  }

  lemma BlockersExist(budgets: Budgets, order: seq<u64>, order': seq<u64>, total: int)
    requires IsOrder(order, budgets) && IsOrder(order', budgets)
    ensures Blocker(budgets, order, total).Some? ==> Blocker(budgets, order', total).Some?
  {
    var id := Blocker(budgets, order, total);
    if id.Some? {
      assert id.value in order';
      var i :| 0 <= i < |order'| && order'[i] == id.value;
    }
  }

  /** The walk that meets `order[i]` first. */
  function Front(order: seq<u64>, i: nat): seq<u64>
    requires i < |order|
  {
    [order[i]] + order[..i] + order[i + 1..]
  }

  lemma FrontIsOrder(order: seq<u64>, budgets: Budgets, i: nat)
    requires IsOrder(order, budgets) && i < |order|
    ensures IsOrder(Front(order, i), budgets)
  {
    var f := Front(order, i);
    forall k | 0 <= k < |f| ensures f[k] == order[if k == 0 then i else if k <= i then k - 1 else k] {}
    forall id | id in budgets ensures id in f {
      assert id in order;
      var j :| 0 <= j < |order| && order[j] == id;
      assert f[if j == i then 0 else if j < i then j + 1 else j] == id;
    }
  }

  /** With one of each kind, one walk refuses and another throws. */
  lemma MixedDiffers(budgets: Budgets, order: seq<u64>, e: PlanEconomics) returns (refused: seq<u64>, threw: seq<u64>)
    requires IsOrder(order, budgets) && Mixed(budgets, e.projected.total)
    ensures IsOrder(refused, budgets) && Gate(budgets, refused, e).Ok?
            && Gate(budgets, refused, e).value.feasible == Infeasible
    ensures IsOrder(threw, budgets) && Gate(budgets, threw, e) == Err(Overflow)
  {
    var a :| a in budgets && Refuses(budgets[a], e.projected.total);
    var b :| b in budgets && Breaks(budgets[b]);
    assert a in order && b in order;
    var i :| 0 <= i < |order| && order[i] == a;
    var j :| 0 <= j < |order| && order[j] == b;
    refused, threw := Front(order, i), Front(order, j);
    FrontIsOrder(order, budgets, i);
    FrontIsOrder(order, budgets, j);
    GateBlocked(budgets, refused, e);
    GateBlocked(budgets, threw, e);
  }

  // ---- one plan -------------------------------------------------------------------------

  lemma PlanOrderFree(x: Economy, budgets: Budgets, order: seq<u64>, order': seq<u64>, p: ExecutionPlan)
    requires IsOrder(order, budgets) && IsOrder(order', budgets)
    requires BaseFeasible(x, p) ==> !Mixed(budgets, PlanTotal(x, p))
    ensures SameVerdict(EvaluatePlan(x, budgets, order, p), EvaluatePlan(x, budgets, order', p))
  {
    if BaseFeasible(x, p) { GateOrderFree(budgets, order, order', BaseEconomics(x, p).value); }
  }

  ghost predicate OrderFree(x: Economy, budgets: Budgets, p: ExecutionPlan) {
    forall order, order' :: IsOrder(order, budgets) && IsOrder(order', budgets) ==>
      SameVerdict(EvaluatePlan(x, budgets, order, p), EvaluatePlan(x, budgets, order', p))
  }

  /** Every two walks of the budgets agree on whether a plan throws, what it throws, whether it is feasible and
      its economics if so, exactly when it is not the case that the plan has a price, one budget refuses it
      and another throws. */
  lemma PlanOrderFreeExactly(x: Economy, budgets: Budgets, order: seq<u64>, p: ExecutionPlan)
    requires IsOrder(order, budgets)
    ensures OrderFree(x, budgets, p) <==> !(BaseFeasible(x, p) && Mixed(budgets, PlanTotal(x, p)))
  {
    if BaseFeasible(x, p) && Mixed(budgets, PlanTotal(x, p)) {
      var refused, threw := MixedDiffers(budgets, order, BaseEconomics(x, p).value);
      assert !SameVerdict(EvaluatePlan(x, budgets, refused, p), EvaluatePlan(x, budgets, threw, p));
    } else {
      forall a, b | IsOrder(a, budgets) && IsOrder(b, budgets)
        ensures SameVerdict(EvaluatePlan(x, budgets, a, p), EvaluatePlan(x, budgets, b, p))
      {
        PlanOrderFree(x, budgets, a, b, p);
      }
    }
  }

  // ---- the selection --------------------------------------------------------------------

  ghost predicate SameVerdicts(f: Evaluator, g: Evaluator, plans: seq<ExecutionPlan>) {
    forall i :: 0 <= i < |plans| ==> SameVerdict(f(plans[i]), g(plans[i]))
  }

  /** Candidate lists that differ at most in why a plan is not feasible. */
  predicate SameCandidates(r: Result<seq<Candidate>>, r': Result<seq<Candidate>>) {
    match (r, r')
    case (Err(e), Err(e')) => e == e'
    case (Ok(cs), Ok(cs')) =>
      FeasibleOf(cs) == FeasibleOf(cs') && |cs| == |cs'| && forall i :: 0 <= i < |cs| ==> cs[i].plan == cs'[i].plan
    case _ => false
  }

  lemma AlikePush(cs: seq<Candidate>, cs': seq<Candidate>, p: ExecutionPlan, e: PlanEconomics, e': PlanEconomics)
    requires SameCandidates(Ok(cs), Ok(cs')) && SameVerdict(Ok(e), Ok(e'))
    ensures SameCandidates(Ok(cs + [Candidate(p, e)]), Ok(cs' + [Candidate(p, e')]))
  {
    FeasiblePush(cs, Candidate(p, e));
    FeasiblePush(cs', Candidate(p, e'));
  }

  lemma SameVerdictsPrefix(f: Evaluator, g: Evaluator, plans: seq<ExecutionPlan>)
    requires SameVerdicts(f, g, plans) && |plans| > 0
    ensures SameVerdicts(f, g, plans[..|plans| - 1])
  {
    var before := plans[..|plans| - 1];
    forall i | 0 <= i < |before| ensures SameVerdict(f(before[i]), g(before[i])) {
      assert before[i] == plans[i];
    }
  }

  lemma {:induction false} CandidatesAlike(f: Evaluator, g: Evaluator, plans: seq<ExecutionPlan>)
    requires SameVerdicts(f, g, plans)
    ensures SameCandidates(EvaluateAll(f, plans), EvaluateAll(g, plans))
  {
    if |plans| > 0 {
      var before, p := plans[..|plans| - 1], plans[|plans| - 1];
      SameVerdictsPrefix(f, g, plans);
      CandidatesAlike(f, g, before);
      assert SameVerdict(f(p), g(p));
      if EvaluateAll(f, before).Ok? && f(p).Ok? {
        AlikePush(EvaluateAll(f, before).value, EvaluateAll(g, before).value, p, f(p).value, g(p).value);
      }
    }
  }

  lemma FeasiblePush(cs: seq<Candidate>, c: Candidate)
    ensures FeasibleOf(cs + [c]) == FeasibleOf(cs) + if c.econ.feasible == Feasible then [c] else []
  {
    assert (cs + [c])[..|cs|] == cs;
  }

  lemma {:induction false} RejectedAlike(cs: seq<Candidate>, cs': seq<Candidate>, selected: u64)
    requires |cs| == |cs'| && forall i :: 0 <= i < |cs| ==> cs[i].plan == cs'[i].plan
    ensures RejectedOf(cs, selected) == RejectedOf(cs', selected)
  {
    if |cs| > 0 { RejectedAlike(cs[..|cs| - 1], cs'[..|cs| - 1], selected); }
  }

  /** No plan with a price meets a refusing and a throwing budget. */
  ghost predicate NeverMixed(x: Economy, budgets: Budgets, plans: seq<ExecutionPlan>) {
    forall i :: 0 <= i < |plans| && BaseFeasible(x, plans[i]) ==> !Mixed(budgets, PlanTotal(x, plans[i]))
  }

  lemma VerdictsOrderFree(x: Economy, budgets: Budgets, order: seq<u64>, order': seq<u64>, plans: seq<ExecutionPlan>)
    requires IsOrder(order, budgets) && IsOrder(order', budgets) && NeverMixed(x, budgets, plans)
    ensures SameVerdicts(EvaluatorOf(x, budgets, order), EvaluatorOf(x, budgets, order'), plans)
  {
    forall i | 0 <= i < |plans|
      ensures SameVerdict(EvaluatorOf(x, budgets, order)(plans[i]), EvaluatorOf(x, budgets, order')(plans[i]))
    {
      PlanOrderFree(x, budgets, order, order', plans[i]);
    }
  }

  /** The order in which the budgets are walked does not matter to the selection, whether it throws or not. */
  lemma SelectionHashOrderFree(x: Economy, budgets: Budgets, order: seq<u64>, order': seq<u64>,
                               plans: seq<ExecutionPlan>)
    requires IsOrder(order, budgets) && IsOrder(order', budgets) && NeverMixed(x, budgets, plans)
    ensures Select(EvaluatorOf(x, budgets, order), plans) == Select(EvaluatorOf(x, budgets, order'), plans)
  {
    VerdictsOrderFree(x, budgets, order, order', plans);
    CandidatesAlike(EvaluatorOf(x, budgets, order), EvaluatorOf(x, budgets, order'), plans);
  }

  // ---- the whole decision ---------------------------------------------------------------

  /** What is left of every hard budget is a 64-bit amount. */
  predicate AllPayable(budgets: Budgets) {
    forall id :: id in budgets && budgets[id].mode == HARD ==> Payable(budgets[id])
  }

  /** Every governor whose account balances is such. */
  lemma BalancedIsPayable(w: World)
    requires Conserved(w)
    ensures AllPayable(w.g.budgets)
  {
    IssuedAmounts(w);
    forall id | id in w.g.budgets ensures Payable(w.g.budgets[id]) {
      assert BalancedAt(w, id);
      HeldBounds(w.handles, id, Committed);
    }
  }

  /** A threshold of the budget does not fit. */
  predicate NoThreshold(policy: CostPolicy, b: Budget) {
    && b.mode == HARD && b.limit != 0
    && (Threshold(b, policy.nearBudgetPercent).Err? || Threshold(b, policy.atRiskPercent).Err?)
  }

  lemma ThresholdError(b: Budget, percent: i64)
    ensures Threshold(b, percent).Err? ==> Threshold(b, percent).error == Overflow
  {}

  predicate AnyNoThreshold(policy: CostPolicy, budgets: Budgets, order: seq<u64>)
    requires Listed(order, budgets)
  {
    exists i :: 0 <= i < |order| && NoThreshold(policy, budgets[order[i]])
  }

  lemma AnyNoThresholdStep(policy: CostPolicy, budgets: Budgets, order: seq<u64>)
    requires Listed(order, budgets) && |order| > 0
    ensures AnyNoThreshold(policy, budgets, order) <==>
            NoThreshold(policy, budgets[order[0]]) || AnyNoThreshold(policy, budgets, order[1..])
  {
    if i :| 0 < i < |order| && NoThreshold(policy, budgets[order[i]]) { assert order[1..][i - 1] == order[i]; }
  }

  /** Every hard budget of the walk can pay the total. */
  predicate PaidBy(budgets: Budgets, order: seq<u64>, total: int)
    requires Listed(order, budgets)
  {
    forall i :: 0 <= i < |order| && budgets[order[i]].mode == HARD ==>
      Payable(budgets[order[i]]) && total <= budgets[order[i]].limit - budgets[order[i]].consumed
  }

  /** One budget of the walk, when it can pay: its thresholds fail, or the walk goes on. */
  lemma StateStep(policy: CostPolicy, budgets: Budgets, order: seq<u64>, total: i64, state: CostState)
    returns (next: CostState)
    requires Listed(order, budgets) && |order| > 0 && PaidBy(budgets, order, total)
    ensures var r := StateFrom(policy, budgets, order, total, state);
            if NoThreshold(policy, budgets[order[0]]) then r == Err(Overflow)
            else r == StateFrom(policy, budgets, order[1..], total, next)
  {
    var b := budgets[order[0]];
    ThresholdError(b, policy.nearBudgetPercent);
    ThresholdError(b, policy.atRiskPercent);
    next := state;
    if b.mode == HARD && b.limit != 0 && !NoThreshold(policy, b) {
      var near, atRisk := Threshold(b, policy.nearBudgetPercent).value, Threshold(b, policy.atRiskPercent).value;
      next := if total >= atRisk then AtRisk else if total >= near then NearBudget else state;
    }
  }

  lemma {:induction false} StateThrows(policy: CostPolicy, budgets: Budgets, order: seq<u64>, total: i64,
                                       state: CostState)
    requires Listed(order, budgets) && PaidBy(budgets, order, total)
    ensures var r := StateFrom(policy, budgets, order, total, state);
            (r.Err? <==> AnyNoThreshold(policy, budgets, order)) && (r.Err? ==> r.error == Overflow)
    decreases |order|
  {
    if |order| > 0 {
      var rest := order[1..];
      AnyNoThresholdStep(policy, budgets, order);
      forall i | 0 <= i < |rest| ensures rest[i] == order[i + 1] {}
      var next := StateStep(policy, budgets, order, total, state);
      StateThrows(policy, budgets, rest, total, next);
    }
  }

  lemma StateOrderFree(policy: CostPolicy, budgets: Budgets, order: seq<u64>, order': seq<u64>, total: i64)
    requires IsOrder(order, budgets) && IsOrder(order', budgets) && AllPayable(budgets) && Affordable(budgets, total)
    ensures var r, r' := StateFrom(policy, budgets, order, total, WithinBudget),
                         StateFrom(policy, budgets, order', total, WithinBudget);
            (r.Err? <==> r'.Err?) && (r.Err? ==> r.error == r'.error)
  {
    StateThrows(policy, budgets, order, total, WithinBudget);
    StateThrows(policy, budgets, order', total, WithinBudget);
    ThresholdsExist(policy, budgets, order, order');
    ThresholdsExist(policy, budgets, order', order);
  }

  lemma ThresholdsExist(policy: CostPolicy, budgets: Budgets, order: seq<u64>, order': seq<u64>)
    requires IsOrder(order, budgets) && IsOrder(order', budgets)
    ensures AnyNoThreshold(policy, budgets, order) ==> AnyNoThreshold(policy, budgets, order')
  {
    if i :| 0 <= i < |order| && NoThreshold(policy, budgets[order[i]]) {
      assert order[i] in order';
      var j :| 0 <= j < |order'| && order'[j] == order[i];
    }
  }

  lemma {:induction false} RemainingReturns(budgets: Budgets, order: seq<u64>)
    requires Listed(order, budgets) && AllPayable(budgets)
    ensures FirstRemaining(budgets, order).Ok?
  {
    if |order| > 0 { RemainingReturns(budgets, order[1..]); }
  }

  /** The same exception, or decisions that agree in everything the walk cannot change: all but the binding
      reason, what is left of the first budget and the cost state. */
  predicate SameDecision(r: Result<CostDecision>, r': Result<CostDecision>) {
    match (r, r')
    case (Err(e), Err(e')) => e == e'
    case (Ok(d), Ok(d')) => d' == d.(binding := d'.binding, remaining := d'.remaining, state := d'.state)
    case _ => false
  }

  lemma FeasibleIsAffordable(g: Governor, now: i64, order: seq<u64>, plans: seq<ExecutionPlan>)
    requires IsOrder(order, g.budgets) && EvaluateAll(EvaluatorAt(g, now, order), plans).Ok?
    ensures forall c :: c in FeasibleOf(EvaluateAll(EvaluatorAt(g, now, order), plans).value) ==>
              Affordable(g.budgets, c.econ.projected.total)
  {
    var cs := EvaluateAll(EvaluatorAt(g, now, order), plans).value;
    forall c | c in FeasibleOf(cs) ensures Affordable(g.budgets, c.econ.projected.total) {
      var i :| 0 <= i < |cs| && cs[i] == c;
      FeasibleMeaning(g.Economy(now), g.budgets, order, plans[i]);
    }
  }

  lemma {:induction false} InsertFirst(c: Candidate, s: seq<Candidate>, ahead: Comparison)
    ensures forall x :: x in Insert(c, s, ahead) ==> x == c || x in s
  {
    if |s| > 0 && ahead(s[0], c) { InsertFirst(c, s[1..], ahead); }
  }

  lemma {:induction false} SortedFrom(s: seq<Candidate>, ahead: Comparison)
    ensures forall x :: x in StableSort(s, ahead) ==> x in s
  {
    if |s| > 0 {
      SortedFrom(s[1..], ahead);
      InsertFirst(s[0], StableSort(s[1..], ahead), ahead);
    }
  }

  lemma BestIsAffordable(g: Governor, now: i64, order: seq<u64>, plans: seq<ExecutionPlan>)
    requires IsOrder(order, g.budgets) && EvaluateAll(EvaluatorAt(g, now, order), plans).Ok?
    requires |FeasibleOf(EvaluateAll(EvaluatorAt(g, now, order), plans).value)| > 0
    ensures var feasible := FeasibleOf(EvaluateAll(EvaluatorAt(g, now, order), plans).value);
            Affordable(g.budgets, StableSort(feasible, Better)[0].econ.projected.total)
  {
    var feasible := FeasibleOf(EvaluateAll(EvaluatorAt(g, now, order), plans).value);
    SortedFrom(feasible, Better);
    FeasibleIsAffordable(g, now, order, plans);
    assert StableSort(feasible, Better)[0] in StableSort(feasible, Better);
  }

  /** The walk of the budgets changes neither whether an evaluation throws, nor what it throws, nor the plan,
      its projection, the rejected plans or the authority. */
  lemma EvaluateOrderFree(g: Governor, now: i64, order: seq<u64>, order': seq<u64>, workloadGeneration: u64,
                          plans: seq<ExecutionPlan>)
    requires IsOrder(order, g.budgets) && IsOrder(order', g.budgets) && AllPayable(g.budgets)
    ensures SameDecision(Evaluate(g, now, order, workloadGeneration, plans),
                         Evaluate(g, now, order', workloadGeneration, plans))
  {
    var x := g.Economy(now);
    assert NeverMixed(x, g.budgets, plans);
    VerdictsOrderFree(x, g.budgets, order, order', plans);
    CandidatesAlike(EvaluatorAt(g, now, order), EvaluatorAt(g, now, order'), plans);
    var r, r' := EvaluateAll(EvaluatorAt(g, now, order), plans), EvaluateAll(EvaluatorAt(g, now, order'), plans);
    RemainingReturns(g.budgets, order);
    RemainingReturns(g.budgets, order');
    if r.Ok? && |FeasibleOf(r.value)| > 0 {
      var best := StableSort(FeasibleOf(r.value), Better)[0];
      BestIsAffordable(g, now, order, plans);
      StateOrderFree(g.policy, g.budgets, order, order', best.econ.projected.total);
      RejectedAlike(r.value, r'.value, best.plan.id);
    }
  }

  // ---- two sets of budgets --------------------------------------------------------------

  /** Budgets that are all payable throw at no plan that does not throw without them. */
  lemma PayableGate(x: Economy, budgets: Budgets, order: seq<u64>, p: ExecutionPlan)
    requires Listed(order, budgets) && AllPayable(budgets)
    ensures var r := EvaluatePlan(x, budgets, order, p);
            if BaseEconomics(x, p).Err? then r == Err(BaseEconomics(x, p).error) else r.Ok?
  {
    if BaseFeasible(x, p) { GateBlocked(budgets, order, BaseEconomics(x, p).value); }
  }

  /** The plan throws under both evaluations, and alike, or under neither. */
  predicate ThrowAlike<T>(r: Result<T>, r': Result<T>) {
    (r.Err? <==> r'.Err?) && (r.Err? ==> r.error == r'.error)
  }

  lemma {:induction false} AllThrowAlike(f: Evaluator, g: Evaluator, plans: seq<ExecutionPlan>)
    requires forall p :: ThrowAlike(f(p), g(p))
    ensures ThrowAlike(EvaluateAll(f, plans), EvaluateAll(g, plans))
  {
    if |plans| > 0 {
      AllThrowAlike(f, g, plans[..|plans| - 1]);
      assert ThrowAlike(f(plans[|plans| - 1]), g(plans[|plans| - 1]));
    }
  }

  /** Under any two sets of payable budgets the selection throws the same or not at all. */
  lemma SelectThrowsAlike(x: Economy, a: Budgets, order: seq<u64>, b: Budgets, order': seq<u64>,
                          plans: seq<ExecutionPlan>)
    requires IsOrder(order, a) && IsOrder(order', b) && AllPayable(a) && AllPayable(b)
    ensures ThrowAlike(Select(EvaluatorOf(x, a, order), plans), Select(EvaluatorOf(x, b, order'), plans))
  {
    forall p ensures ThrowAlike(EvaluatorOf(x, a, order)(p), EvaluatorOf(x, b, order')(p)) {
      PayableGate(x, a, order, p);
      PayableGate(x, b, order', p);
    }
    AllThrowAlike(EvaluatorOf(x, a, order), EvaluatorOf(x, b, order'), plans);
  }

  /** With payable budgets an evaluation throws exactly when the selection does, or when it selects and a
      threshold of some hard budget does not fit. */
  lemma EvaluateThrowsExactly(g: Governor, now: i64, order: seq<u64>, workloadGeneration: u64,
                              plans: seq<ExecutionPlan>)
    requires IsOrder(order, g.budgets) && AllPayable(g.budgets)
    ensures var r, s := Evaluate(g, now, order, workloadGeneration, plans), Select(EvaluatorAt(g, now, order), plans);
            && (r.Err? <==>
                 !g.revalidation && (s.Err? || (s.value.Some? && AnyNoThreshold(g.policy, g.budgets, order))))
            && (r.Err? ==> r.error == if s.Err? then s.error else Overflow)
  {
    var r := EvaluateAll(EvaluatorAt(g, now, order), plans);
    RemainingReturns(g.budgets, order);
    if r.Ok? && |FeasibleOf(r.value)| > 0 {
      var best := StableSort(FeasibleOf(r.value), Better)[0];
      BestIsAffordable(g, now, order, plans);
      StateThrows(g.policy, g.budgets, order, best.econ.projected.total, WithinBudget);
    }
  }
}
