/** Authority fencing: what an epoch advance or an accepted price takes away stays away, and what a
decision grants holds as long as nothing happens. */
module Fencing {
  import opened Types
  import opened Planning
  import opened Ranking
  import opened GovernorModel
  import opened Ledger

  // ---- generations only grow ------------------------------------------------------------

  predicate Grows(before: u64, after: u64) { before <= after <= before + 1 }

  /** Same epoch, prices, policy and need for revalidation. */
  predicate SameAuthority(g: Governor, g': Governor) {
    g'.epoch == g.epoch && g'.schedule == g.schedule && g'.policy == g.policy && g'.revalidation == g.revalidation
  }

  predicate IsLedgerOp(op: Op) {
    op.DoCreate? || op.DoReserve? || op.DoCommit? || op.DoRelease? || op.DoConsume?
  }

  lemma LedgerKeepsAuthority(w: World, op: Op)
    requires IsLedgerOp(op)
    ensures SameAuthority(w.g, Step(w, op).g) && Step(w, op).now == w.now
  {}

  lemma OtherKeepsAuthority(w: World, op: Op)
    requires !IsLedgerOp(op) && !op.DoAdvanceEpoch? && !op.DoPublish?
    ensures SameAuthority(w.g, Step(w, op).g)
  {}

  lemma StepGrows(w: World, op: Op)
    requires w.g.epoch < U64_MAX && w.g.schedule.generation < U64_MAX
    ensures Grows(w.g.epoch, Step(w, op).g.epoch)
    ensures Grows(w.g.schedule.generation, Step(w, op).g.schedule.generation)
    ensures Step(w, op).g.policy == w.g.policy
    ensures op == DoAdvanceEpoch ==> w.g.epoch < Step(w, op).g.epoch
    ensures op.DoPublish? && PublishPrice(w.g, op.observation).1 == OK ==>
              w.g.schedule.generation < Step(w, op).g.schedule.generation
  {
    if IsLedgerOp(op) {
      LedgerKeepsAuthority(w, op);
    } else if !op.DoAdvanceEpoch? && !op.DoPublish? {
      OtherKeepsAuthority(w, op);
    }
  }

  /** No generation wraps within `steps` more steps. */
  predicate RoomFor(w: World, steps: nat) {
    w.g.epoch + steps <= U64_MAX && w.g.schedule.generation + steps <= U64_MAX
  }

  lemma {:induction false} RunGrows(w: World, ops: seq<Op>)
    requires RoomFor(w, |ops|)
    ensures w.g.epoch <= Run(w, ops).g.epoch <= w.g.epoch + |ops|
    ensures w.g.schedule.generation <= Run(w, ops).g.schedule.generation <= w.g.schedule.generation + |ops|
    ensures Run(w, ops).g.policy == w.g.policy
  {
    if |ops| > 0 {
      RunGrows(w, ops[..|ops| - 1]);
      StepGrows(Run(w, ops[..|ops| - 1]), ops[|ops| - 1]);
    }
  }

  lemma {:induction false} RunFrom(w: World, op: Op, ops: seq<Op>)
    ensures Run(w, [op] + ops) == Run(Step(w, op), ops)
  {
    if |ops| == 0 {
      assert [op] + ops == [op] && [op][..0] == [];
    } else {
      RunFrom(w, op, ops[..|ops| - 1]);
      assert ([op] + ops)[..|ops|] == [op] + ops[..|ops| - 1];
      assert ([op] + ops)[|ops|] == ops[|ops| - 1];
    }
  }

  /** The step revokes what was authorized before it. */
  predicate Revokes(w: World, op: Op) {
    op == DoAdvanceEpoch || (op.DoPublish? && PublishPrice(w.g, op.observation).1 == OK)
  }

  /** The decision was authorized by `g`, or by it or an earlier state of it. */
  predicate AuthorizedUpTo(d: CostDecision, g: Governor) {
    d.kind == Authorize && d.authority.epoch <= g.epoch && d.authority.priceGeneration <= g.schedule.generation
  }

  lemma DecisionIsAuthorized(g: Governor, now: i64, order: seq<u64>, workloadGeneration: u64, plans: seq<ExecutionPlan>)
    requires Listed(order, g.budgets)
    requires Evaluate(g, now, order, workloadGeneration, plans).Ok?
    requires Evaluate(g, now, order, workloadGeneration, plans).value.kind == Authorize
    ensures AuthorizedUpTo(Evaluate(g, now, order, workloadGeneration, plans).value, g)
  {}

  /** After an accepted price or an epoch advance, every earlier authorization is stale for ever:
      after any further steps, at any time, for any plans and any budget order. */
  lemma FencingIsPermanent(w: World, d: CostDecision, op: Op, ops: seq<Op>,
                           now: i64, order: seq<u64>, plans: seq<ExecutionPlan>)
    requires AuthorizedUpTo(d, w.g) && Revokes(w, op) && RoomFor(w, |ops| + 1)
    requires Listed(order, Run(w, [op] + ops).g.budgets)
    ensures ValidateForDispatch(Run(w, [op] + ops).g, now, order, d, plans) == Ok(STALE_AUTHORITY)
  {
    StepGrows(w, op);
    RunFrom(w, op, ops);
    RunGrows(Step(w, op), ops);
  }

  /** A decision made at any moment of any run is stale for ever once the run revokes, however much later
      and whatever comes before and after. */
  lemma DecisionsAreFenced(w: World, when: i64, walked: seq<u64>, workloadGeneration: u64, offered: seq<ExecutionPlan>,
                           before: seq<Op>, op: Op, after: seq<Op>, now: i64, order: seq<u64>,
                           plans: seq<ExecutionPlan>)
    requires Listed(walked, w.g.budgets) && Evaluate(w.g, when, walked, workloadGeneration, offered).Ok?
    requires Evaluate(w.g, when, walked, workloadGeneration, offered).value.kind == Authorize
    requires Revokes(Run(w, before), op) && RoomFor(w, |before| + |after| + 1)
    requires Listed(order, Run(Run(w, before), [op] + after).g.budgets)
    ensures ValidateForDispatch(Run(Run(w, before), [op] + after).g, now, order,
                                Evaluate(w.g, when, walked, workloadGeneration, offered).value, plans)
            == Ok(STALE_AUTHORITY)
  {
    DecisionIsAuthorized(w.g, when, walked, workloadGeneration, offered);
    RunGrows(w, before);
    FencingIsPermanent(Run(w, before), Evaluate(w.g, when, walked, workloadGeneration, offered).value, op, after, now,
                       order, plans);
  }

  /** After an epoch advance no reservation of an earlier epoch, as issued or forged, changes the
      governor or itself through a commit or a release. */
  lemma OldReservationsAreInert(w: World, ops: seq<Op>, h: Reservation, now: i64)
    requires h.epoch <= w.g.epoch && RoomFor(w, |ops| + 1)
    ensures var g := Run(w, [DoAdvanceEpoch] + ops).g;
            && Commit(g, now, h).g == g && Commit(g, now, h).handle == h
            && Release(g, h).g == g && Release(g, h).handle == h
  {
    StepGrows(w, DoAdvanceEpoch);
    RunFrom(w, DoAdvanceEpoch, ops);
    RunGrows(Step(w, DoAdvanceEpoch), ops);
    var g := Run(w, [DoAdvanceEpoch] + ops).g;
    assert h.epoch != g.epoch;
    assert h.budget in g.budgets ==> g.budgets[h.budget := g.budgets[h.budget]] == g.budgets;
  }

  // ---- a fresh decision -----------------------------------------------------------------

  lemma {:induction false} FindPlanMeaning(plans: seq<ExecutionPlan>, p: ExecutionPlan)
    requires DistinctIds(plans) && p in plans
    ensures FindPlan(plans, p.id) == Some(p)
  {
    if plans[0].id == p.id {
      DistinctHead(plans, p);
    } else {
      assert p in plans[1..];
      FindPlanMeaning(plans[1..], p);
    }
  }

  lemma DistinctHead(plans: seq<ExecutionPlan>, p: ExecutionPlan)
    requires DistinctIds(plans) && p in plans && plans[0].id == p.id
    ensures plans[0] == p
  {}

  lemma {:induction false} RecheckPasses(budgets: Budgets, order: seq<u64>, e: PlanEconomics)
    requires Listed(order, budgets) && e.feasible == Feasible
    requires Gate(budgets, order, e).Ok? && Gate(budgets, order, e).value.feasible == Feasible
    ensures Recheck(budgets, order, e.projected.total) == Ok(OK)
  {
    if |order| > 0 { RecheckPasses(budgets, order[1..], e); }
  }

  /** What an authorization says about the selection it was made from. */
  lemma AuthorizationMeaning(g: Governor, now: i64, order: seq<u64>, workloadGeneration: u64, plans: seq<ExecutionPlan>)
    requires Listed(order, g.budgets) && DistinctIds(plans)
    requires Evaluate(g, now, order, workloadGeneration, plans).Ok?
    ensures var d := Evaluate(g, now, order, workloadGeneration, plans).value;
            var s := Select(EvaluatorAt(g, now, order), plans);
            && (d.kind == Authorize || d.kind == Revalidate || d.kind == NoFeasiblePlan)
            && (d.kind == Revalidate <==> g.revalidation)
            && (d.kind == NoFeasiblePlan ==> s == Ok(None))
            && (d.kind == Authorize ==>
                 && s.Ok? && s.value.Some?
                 && Chosen(EvaluatorAt(g, now, order), plans, s.value.value.plan)
                 && s.value.value == AsCandidate(EvaluatorAt(g, now, order), s.value.value.plan)
                 && d.selected == s.value.value.plan.id
                 && d.planGeneration == s.value.value.plan.generation
                 && d.projected == s.value.value.econ.projected
                 && d.authority == AuthorityOf(g, s.value.value.plan, workloadGeneration))
  {
    var eval := EvaluatorAt(g, now, order);
    if !g.revalidation {
      if |plans| == 0 {
        assert EvaluateAll(eval, plans) == Ok([]);
      } else if Select(eval, plans).Ok? {
        SelectIsLeast(eval, plans);
      }
    }
  }

  lemma FeasibleMeansGated(x: Economy, budgets: Budgets, order: seq<u64>, p: ExecutionPlan)
    requires Listed(order, budgets)
    requires EvaluatePlan(x, budgets, order, p).Ok? && EvaluatePlan(x, budgets, order, p).value.feasible == Feasible
    ensures p.meetsHardSlo
    ensures Recheck(budgets, order, EvaluatePlan(x, budgets, order, p).value.projected.total) == Ok(OK)
  {
    var base := BaseEconomics(x, p).value;
    GateMeaning(budgets, order, base);
    RecheckPasses(budgets, order, base);
  }

  /** With no step and no tick in between, a fresh authorization over distinct plans validates. */
  lemma FreshDecisionValidates(g: Governor, now: i64, order: seq<u64>, workloadGeneration: u64,
                               plans: seq<ExecutionPlan>)
    requires Listed(order, g.budgets) && DistinctIds(plans)
    requires Evaluate(g, now, order, workloadGeneration, plans).Ok?
    ensures var d := Evaluate(g, now, order, workloadGeneration, plans).value;
            ValidateForDispatch(g, now, order, d, plans) == Ok(OK)
  {
    var d := Evaluate(g, now, order, workloadGeneration, plans).value;
    if d.kind == Authorize {
      AuthorizationMeaning(g, now, order, workloadGeneration, plans);
      var p := Select(EvaluatorAt(g, now, order), plans).value.value.plan;
      FindPlanMeaning(plans, p);
      assert IsFeasible(EvaluatorAt(g, now, order), p);
      FeasibleMeansGated(g.Economy(now), g.budgets, order, p);
    }
  }

  /** The decision was made under the authority that is current now. */
  predicate CurrentAuthority(g: Governor, d: CostDecision) {
    && d.authority.epoch == g.epoch && d.authority.policyGeneration == g.policy.generation
    && d.authority.priceGeneration == g.schedule.generation && d.authority.boot == CurrentBoot(g, d.authority.worker)
  }

  /** The plan the decision names is still offered and still feasible. */
  predicate StillFeasible(g: Governor, now: i64, order: seq<u64>, d: CostDecision, plans: seq<ExecutionPlan>)
    requires Listed(order, g.budgets)
  {
    var p := FindPlan(plans, d.selected);
    p.Some? && IsFeasible(EvaluatorAt(g, now, order), p.value)
  }

  /** An authorization may be dispatched exactly when its authority is current, prices are not awaiting
      revalidation, and its plan is still offered and feasible; the second look at the budgets never refuses. */
  lemma DispatchExactly(g: Governor, now: i64, order: seq<u64>, d: CostDecision, plans: seq<ExecutionPlan>)
    requires Listed(order, g.budgets) && d.kind == Authorize
    ensures ValidateForDispatch(g, now, order, d, plans) == Ok(OK) <==>
            CurrentAuthority(g, d) && !g.revalidation && StillFeasible(g, now, order, d, plans)
    ensures ValidateForDispatch(g, now, order, d, plans) != Ok(BUDGET_EXCEEDED)
  {
    if StillFeasible(g, now, order, d, plans) {
      FeasibleMeansGated(g.Economy(now), g.budgets, order, FindPlan(plans, d.selected).value);
    }
  }
}
