/** Budgets gate the choice of a plan along a whole run, but never steer it. */
module Steering {
  import opened Types
  import opened Planning
  import opened Ranking
  import opened GovernorModel
  import opened Ledger
  import opened Closure
  import opened Fencing
  import opened Orders

  predicate LedgerOnly(ops: seq<Op>) {
    forall i :: 0 <= i < |ops| ==> IsLedgerOp(ops[i])
  }

  lemma LedgerStepKeepsEconomy(w: World, op: Op)
    requires IsLedgerOp(op)
    ensures Step(w, op).now == w.now && Step(w, op).g.Economy(w.now) == w.g.Economy(w.now)
  {
    LedgerKeepsAuthority(w, op);
  }

  lemma {:induction false} LedgerRunKeepsEconomy(w: World, ops: seq<Op>)
    requires LedgerOnly(ops)
    ensures Run(w, ops).now == w.now && Run(w, ops).g.Economy(w.now) == w.g.Economy(w.now)
  {
    if |ops| > 0 {
      var before := ops[..|ops| - 1];
      assert forall i :: 0 <= i < |before| ==> before[i] == ops[i];
      LedgerRunKeepsEconomy(w, before);
      LedgerStepKeepsEconomy(Run(w, before), ops[|ops| - 1]);
    }
  }

  /** Consumption never falls, so what can be paid after a run could be paid before it. */
  lemma RunTightens(w: World, ops: seq<Op>, total: int)
    requires AllIssued(w) && Affordable(Run(w, ops).g.budgets, total)
    ensures Affordable(w.g.budgets, total)
  {
    forall id | id in w.g.budgets && w.g.budgets[id].mode == HARD
      ensures total <= w.g.budgets[id].limit - w.g.budgets[id].consumed
    {
      ClosedMeansClosed(w, ops, id);
      assert Run(w, ops).g.budgets[id].mode == HARD;
    }
  }

  /** Along any run of budget operations, evaluating the same plans picks one constant plan with one
      constant projection until it finds none, and once it finds none it never finds one again. */
  lemma RunKeepsChoice(w: World, ops: seq<Op>, order: seq<u64>, order': seq<u64>,
                       workloadGeneration: u64, plans: seq<ExecutionPlan>)
    requires AllIssued(w) && LedgerOnly(ops) && DistinctIds(plans)
    requires IsOrder(order, w.g.budgets) && IsOrder(order', Run(w, ops).g.budgets)
    requires Evaluate(w.g, w.now, order, workloadGeneration, plans).Ok?
    requires Evaluate(Run(w, ops).g, Run(w, ops).now, order', workloadGeneration, plans).Ok?
    ensures var d := Evaluate(w.g, w.now, order, workloadGeneration, plans).value;
            var d' := Evaluate(Run(w, ops).g, Run(w, ops).now, order', workloadGeneration, plans).value;
            && (d.kind == Revalidate <==> d'.kind == Revalidate)
            && (d.kind == NoFeasiblePlan ==> d'.kind == NoFeasiblePlan)
            && (d.kind == Authorize && d'.kind == Authorize ==>
                 d'.selected == d.selected && d'.planGeneration == d.planGeneration && d'.projected == d.projected)
  {
    var w' := Run(w, ops);
    LedgerRunKeepsEconomy(w, ops);
    var d := Evaluate(w.g, w.now, order, workloadGeneration, plans).value;
    var d' := Evaluate(w'.g, w'.now, order', workloadGeneration, plans).value;
    AuthorizationMeaning(w.g, w.now, order, workloadGeneration, plans);
    AuthorizationMeaning(w'.g, w'.now, order', workloadGeneration, plans);
    if d.kind == Authorize && d'.kind == Authorize {
      BudgetsNeverSteer(w.g.Economy(w.now), w.g.budgets, order, w'.g.budgets, order', plans);
    } else if d.kind == NoFeasiblePlan && d'.kind == Authorize {
      forall total: int | Affordable(w'.g.budgets, total) ensures Affordable(w.g.budgets, total) {
        RunTightens(w, ops, total);
      }
      TighterBudgetsStayClosed(w.g.Economy(w.now), w.g.budgets, order, w'.g.budgets, order', plans);
    }
  }

  /** Along any run of budget operations that keeps the account, selecting among the same plans throws the
      same, or gives the same, or finds none where it found one before. */
  lemma RunKeepsSelection(w: World, ops: seq<Op>, order: seq<u64>, order': seq<u64>, plans: seq<ExecutionPlan>)
    requires Conserved(w) && AllHonest(ops) && NeverStrands(w, ops) && LedgerOnly(ops) && DistinctIds(plans)
    requires IsOrder(order, w.g.budgets) && IsOrder(order', Run(w, ops).g.budgets)
    ensures var s := Select(EvaluatorAt(w.g, w.now, order), plans);
            var s' := Select(EvaluatorAt(Run(w, ops).g, Run(w, ops).now, order'), plans);
            s' == s || (s.Ok? && s' == Ok(None))
  {
    var w', x := Run(w, ops), w.g.Economy(w.now);
    LedgerRunKeepsEconomy(w, ops);
    RunConserves(w, ops);
    BalancedIsPayable(w);
    BalancedIsPayable(w');
    SelectThrowsAlike(x, w.g.budgets, order, w'.g.budgets, order', plans);
    var s := Select(EvaluatorOf(x, w.g.budgets, order), plans);
    var s' := Select(EvaluatorOf(x, w'.g.budgets, order'), plans);
    if s.Ok? && s.value.Some? && s'.value.Some? {
      BudgetsNeverSteer(x, w.g.budgets, order, w'.g.budgets, order', plans);
    } else if s == Ok(None) {
      forall total: int | Affordable(w'.g.budgets, total) ensures Affordable(w.g.budgets, total) {
        RunTightens(w, ops, total);
      }
      TighterBudgetsStayClosed(x, w.g.budgets, order, w'.g.budgets, order', plans);
    }
  }

  /** An evaluation that throws goes on throwing the same until no plan is left to select: a budget whose
      thresholds do not fit stays. */
  lemma RunKeepsThrowing(w: World, ops: seq<Op>, order: seq<u64>, order': seq<u64>, workloadGeneration: u64,
                         plans: seq<ExecutionPlan>)
    requires Conserved(w) && AllHonest(ops) && NeverStrands(w, ops) && LedgerOnly(ops) && DistinctIds(plans)
    requires IsOrder(order, w.g.budgets) && IsOrder(order', Run(w, ops).g.budgets)
    requires Evaluate(w.g, w.now, order, workloadGeneration, plans).Err?
    ensures var w' := Run(w, ops);
            || Select(EvaluatorAt(w'.g, w'.now, order'), plans) == Ok(None)
            || Evaluate(w'.g, w'.now, order', workloadGeneration, plans) ==
               Evaluate(w.g, w.now, order, workloadGeneration, plans)
  {
    var w' := Run(w, ops);
    LedgerRunKeepsEconomy(w, ops);
    RunConserves(w, ops);
    BalancedIsPayable(w);
    BalancedIsPayable(w');
    RunKeepsSelection(w, ops, order, order', plans);
    EvaluateThrowsExactly(w.g, w.now, order, workloadGeneration, plans);
    EvaluateThrowsExactly(w'.g, w'.now, order', workloadGeneration, plans);
    if AnyNoThreshold(w.g.policy, w.g.budgets, order) { ThresholdsStay(w, ops, order, order'); }
  }

  lemma ThresholdsStay(w: World, ops: seq<Op>, order: seq<u64>, order': seq<u64>)
    requires AllIssued(w) && IsOrder(order, w.g.budgets) && IsOrder(order', Run(w, ops).g.budgets)
    requires AnyNoThreshold(w.g.policy, w.g.budgets, order)
    ensures AnyNoThreshold(w.g.policy, Run(w, ops).g.budgets, order')
  {
    var i :| 0 <= i < |order| && NoThreshold(w.g.policy, w.g.budgets[order[i]]);
    ClosedMeansClosed(w, ops, order[i]);
    assert order[i] in order';
    var j :| 0 <= j < |order'| && order'[j] == order[i];
  }
}
