/** The governor as the object it is: fields that its methods update in place, each method proved to do
what the corresponding function of the model says. Time is a parameter, and so is the order in which the
hash maps are walked. */
module Governor {
  import opened Types
  import opened Money
  import opened Keys
  import opened Pricing
  import opened Planning
  import GovernorModel
  import opened Snapshot
  import opened Restart

  type State = GovernorModel.Governor
  type Outcome = GovernorModel.Outcome
  type Decision = GovernorModel.CostDecision

  /** A reservation in its caller's hands. */
  class Ticket {
    var r: Reservation

    constructor (r: Reservation)
      ensures this.r == r
    {
      this.r := r;
    }
  }

  class CostGovernor {
    var policy: CostPolicy
    var schedule: PriceSchedule
    var epoch: u64
    var boots: map<u64, u64>
    var revalidation: bool
    var budgets: Budgets
    var attempts: map<u64, map<u64, CostEvidence>>
    var reservations: map<u64, seq<Reservation>>
    var history: seq<HistoryEntry>
    var interventions: map<u64, InterventionEntry>
    var nextReservation: u64

    /** A new governor: the default policy at epoch 1, nothing recorded. */
    constructor ()
      ensures Model() == GovernorModel.New()
    {
      policy, schedule, epoch := GovernorModel.DEFAULT_POLICY, PriceSchedule(0, 0, 0, []), 1;
      boots, revalidation, budgets := map[], false, map[];
      attempts, reservations, history, interventions, nextReservation := map[], map[], [], map[], 1;
    }

    function Model(): State
      reads this
    {
      GovernorModel.Governor(policy, schedule, epoch, boots, revalidation, budgets, attempts, reservations, history,
                             interventions, nextReservation)
    }

    // ---- authority ------------------------------------------------------------------------

    method SetPolicy(p: CostPolicy)
      modifies this
      ensures Model() == GovernorModel.SetPolicy(old(Model()), p)
    {
      policy := p;
      epoch := p.epoch;
      revalidation := true;
    }

    method SetPriceSchedule(s: PriceSchedule)
      modifies this
      ensures Model() == GovernorModel.SetPriceSchedule(old(Model()), s)
    {
      schedule := s;
      revalidation := false;
    }

    method AdvanceEpoch()
      modifies this
      ensures Model() == GovernorModel.AdvanceEpoch(old(Model()))
    {
      epoch := Next(epoch);
      revalidation := true;
    }

    method SetWorkerBoot(worker: u64, boot: u64)
      modifies this
      ensures Model() == GovernorModel.SetWorkerBoot(old(Model()), worker, boot)
    {
      boots := boots[worker := boot];
    }

    method CreateBudget(b: Budget) returns (s: Status)
      modifies this
      ensures (Model(), s) == GovernorModel.CreateBudget(old(Model()), b)
    {
      if b.limit < 0 { return INVALID_INPUT; }
      if b.currency != policy.currency { return CURRENCY_MISMATCH; }
      if b.epoch != epoch { return STALE_AUTHORITY; }
      if b.policyGeneration != policy.generation { return STALE_AUTHORITY; }
      if b.id in budgets { return INVALID_INPUT; }
      budgets := budgets[b.id := b.(lifecycle := ACTIVE)];
      return OK;
    }

    method PublishPrice(o: PriceObservation) returns (s: Status)
      modifies this
      ensures (Model(), s) == GovernorModel.PublishPrice(old(Model()), o)
    {
      if o.epoch != epoch { return STALE_AUTHORITY; }
      if o.boot != 0 && o.boot != GovernorModel.CurrentBoot(Model(), o.worker) { return STALE_AUTHORITY; }
      if o.currency != policy.currency { return CURRENCY_MISMATCH; }
      if o.amount < 0 { return INVALID_INPUT; }
      var observations := Replace(schedule.observations, o);
      schedule := schedule.(observations := observations, generation := Next(schedule.generation));
      revalidation := false;
      return OK;
    }

    static method Replace(observations: seq<PriceObservation>, o: PriceObservation) returns (r: seq<PriceObservation>)
      ensures r == GovernorModel.Upsert(observations, o)
    {
      for i := 0 to |observations|
        invariant GovernorModel.Upsert(observations, o) ==
                    observations[..i] + GovernorModel.Upsert(observations[i..], o)
      {
        assert observations[i..][1..] == observations[i + 1..];
        if observations[i].id == o.id {
          assert observations[i := o] == observations[..i] + ([o] + observations[i + 1..]);
          return observations[i := o];
        }
        assert observations[..i] + ([observations[i]] + GovernorModel.Upsert(observations[i + 1..], o)) ==
               observations[..i + 1] + GovernorModel.Upsert(observations[i + 1..], o);
      }
      assert observations[..|observations|] == observations;
      return observations + [o];
    }

    // ---- attempts -------------------------------------------------------------------------

    method RecordAttempt(e: CostEvidence) returns (s: Status)
      modifies this
      ensures (Model(), s) == GovernorModel.RecordAttempt(old(Model()), e)
    {
      if e.epoch != epoch { return STALE_AUTHORITY; }
      if e.boot != GovernorModel.CurrentBoot(Model(), e.worker) { return STALE_AUTHORITY; }
      if e.dataLabel == UNSUPPORTED { return INVALID_INPUT; }
      if GovernorModel.NegativeUsage(e) { return INVALID_INPUT; }
      var known := GovernorModel.AttemptsOf(Model(), e.request);
      if e.attempt in known && known[e.attempt].attemptGeneration == e.attemptGeneration { return INVALID_INPUT; }
      attempts := attempts[e.request := known[e.attempt := e]];
      return OK;
    }

    method Realize(now: i64, request: u64) returns (r: Result<CostBreakdown>)
      ensures r == GovernorModel.Realize(Model(), now, request)
    {
      var evidence := WalkInOrder(GovernorModel.AttemptsOf(Model(), request));
      r := ProjectAttempts(Model().Market(now), evidence);
    }

    method FinalizeRequest(now: i64, request: u64, workload: u64) returns (outcome: Outcome)
      modifies this
      ensures (Model(), outcome) == GovernorModel.FinalizeRequest(old(Model()), now, request, workload)
    {
      for i := 0 to |history|
        invariant forall j :: 0 <= j < i ==> history[j].request != request
        invariant Model() == old(Model())
      {
        if history[i].request == request { return GovernorModel.Returned(OK); }
      }
      if request !in attempts { return GovernorModel.Returned(INVALID_INPUT); }
      var bd := Realize(now, request);
      if bd.Err? { return GovernorModel.Threw(bd.error); }
      history := history + [HistoryEntry(request, workload, now, bd.value.total, Wrap(|attempts[request]|), 0)];
      return GovernorModel.Returned(OK);
    }

    // ---- budgets --------------------------------------------------------------------------

    method Reserve(now: i64, id: u64, generation: u64, e: u64, amount: i64, out: Ticket) returns (outcome: Outcome)
      modifies this, out
      ensures var (g, o, handle) := GovernorModel.Reserve(old(Model()), now, id, generation, e, amount);
              && Model() == g && outcome == o
              && out.r == if handle.Some? then handle.value else old(out.r)
    {
      if id !in budgets { return GovernorModel.Returned(INVALID_INPUT); }
      var b := budgets[id];
      assert budgets[id := b] == budgets;
      if b.generation != generation || b.epoch != e { return GovernorModel.Returned(STALE_AUTHORITY); }
      if b.epoch != epoch { return GovernorModel.Returned(STALE_AUTHORITY); }
      if !b.IsLive() { return GovernorModel.Returned(BUDGET_EXPIRED); }
      if GovernorModel.PastExpiry(b.expiresAt, now) {
        budgets := budgets[id := b.(lifecycle := EXPIRED)];
        return GovernorModel.Returned(BUDGET_EXPIRED);
      }
      if amount < 0 { return GovernorModel.Returned(INVALID_INPUT); }
      var after := CheckedAdd(b.reserved, amount);
      if after.Err? { return GovernorModel.Threw(after.error); }
      if after.value > b.limit { return GovernorModel.Returned(BUDGET_EXCEEDED); }
      budgets := budgets[id := b.(reserved := after.value, lifecycle := RESERVED)];
      var r := Reservation(nextReservation, id, generation, e, amount, now, b.expiresAt, Active);
      nextReservation := Next(nextReservation);
      reservations := reservations[id := GovernorModel.CopiesOf(Model(), id) + [r]];
      out.r := r;
      return GovernorModel.Returned(OK);
    }

    /** Lowers `reserved`, then raises `released`; an overflow in between leaves the first done. */
    method GiveBack(id: u64, amount: i64) returns (error: Option<Error>)
      requires id in budgets
      modifies this`budgets
      ensures (var (b, e) := GovernorModel.GiveBack(old(budgets[id]), amount);
               budgets == old(budgets)[id := b] && error == e)
    {
      var b := budgets[id];
      assert budgets[id := b] == budgets;
      var reserved := CheckedSub(b.reserved, amount);
      if reserved.Err? { return Some(reserved.error); }
      budgets := budgets[id := b.(reserved := reserved.value)];
      var released := CheckedAdd(b.released, amount);
      if released.Err? { return Some(released.error); }
      budgets := budgets[id := budgets[id].(released := released.value)];
      return None;
    }

    method Commit(now: i64, ticket: Ticket) returns (outcome: Outcome)
      modifies this, ticket
      ensures var c := GovernorModel.Commit(old(Model()), now, old(ticket.r));
              Model() == c.g && outcome == c.outcome && ticket.r == c.handle
    {
      var id := ticket.r.budget;
      if id !in budgets { return GovernorModel.Returned(INVALID_INPUT); }
      var b := budgets[id];
      assert budgets[id := b] == budgets;
      if b.generation != ticket.r.budgetGeneration { return GovernorModel.Returned(STALE_AUTHORITY); }
      if ticket.r.epoch != epoch { return GovernorModel.Returned(STALE_AUTHORITY); }
      if b.epoch != epoch { return GovernorModel.Returned(STALE_AUTHORITY); }
      if ticket.r.state != Active { return GovernorModel.Returned(OK); }
      if !b.IsLive() { return GovernorModel.Returned(BUDGET_EXPIRED); }
      if GovernorModel.PastExpiry(ticket.r.expiresAt, now) {
        ticket.r := ticket.r.(state := Expired);
        var error := GiveBack(id, ticket.r.amount);
        if error.Some? { return GovernorModel.Threw(error.value); }
        return GovernorModel.Returned(BUDGET_EXPIRED);
      }
      var after := CheckedAdd(b.consumed, ticket.r.amount);
      if after.Err? { return GovernorModel.Threw(after.error); }
      if b.mode == HARD && after.value > b.limit { return GovernorModel.Returned(BUDGET_EXCEEDED); }
      var reserved := CheckedSub(b.reserved, ticket.r.amount);
      if reserved.Err? { return GovernorModel.Threw(reserved.error); }
      b := b.(reserved := reserved.value, consumed := after.value);
      ticket.r := ticket.r.(state := Committed);
      budgets := budgets[id := b.(lifecycle := if b.consumed < b.limit then PARTIALLY_CONSUMED else EXHAUSTED)];
      return GovernorModel.Returned(OK);
    }

    /** Whether any stored copy is active. */
    method LookForActive(copies: seq<Reservation>) returns (any: bool)
      ensures any == GovernorModel.AnyActive(copies)
    {
      any := false;
      for i := 0 to |copies|
        invariant any <==> exists j :: 0 <= j < i && copies[j].state == Active
      {
        if copies[i].state == Active { any := true; }
      }
    }

    method Release(ticket: Ticket) returns (outcome: Outcome)
      modifies this, ticket
      ensures var c := GovernorModel.Release(old(Model()), old(ticket.r));
              Model() == c.g && outcome == c.outcome && ticket.r == c.handle
    {
      var id := ticket.r.budget;
      if id !in budgets { return GovernorModel.Returned(INVALID_INPUT); }
      assert budgets[id := budgets[id]] == budgets;
      if budgets[id].generation != ticket.r.budgetGeneration { return GovernorModel.Returned(STALE_AUTHORITY); }
      if ticket.r.epoch != epoch { return GovernorModel.Returned(STALE_AUTHORITY); }
      if ticket.r.state != Active { return GovernorModel.Returned(OK); }
      var error := GiveBack(id, ticket.r.amount);
      if error.Some? { return GovernorModel.Threw(error.value); }
      ticket.r := ticket.r.(state := Released);
      var copies := GovernorModel.CopiesOf(Model(), id);
      reservations := reservations[id := copies];
      var any := LookForActive(copies);
      var b := budgets[id];
      var lifecycle := if any then RESERVED else if b.consumed == 0 then ACTIVE else PARTIALLY_CONSUMED;
      budgets := budgets[id := b.(lifecycle := lifecycle)];
      return GovernorModel.Returned(OK);
    }

    method Consume(now: i64, id: u64, generation: u64, e: u64, amount: i64) returns (outcome: Outcome)
      modifies this
      ensures (Model(), outcome) == GovernorModel.Consume(old(Model()), now, id, generation, e, amount)
    {
      if id !in budgets { return GovernorModel.Returned(INVALID_INPUT); }
      var b := budgets[id];
      assert budgets[id := b] == budgets;
      if b.generation != generation || b.epoch != e { return GovernorModel.Returned(STALE_AUTHORITY); }
      if !b.IsLive() { return GovernorModel.Returned(BUDGET_EXPIRED); }
      if amount < 0 { return GovernorModel.Returned(INVALID_INPUT); }
      if GovernorModel.PastExpiry(b.expiresAt, now) {
        budgets := budgets[id := b.(lifecycle := EXPIRED)];
        return GovernorModel.Returned(BUDGET_EXPIRED);
      }
      var after := CheckedAdd(b.consumed, amount);
      if after.Err? { return GovernorModel.Threw(after.error); }
      if b.mode == HARD && after.value > b.limit { return GovernorModel.Returned(BUDGET_EXCEEDED); }
      b := b.(consumed := after.value);
      budgets := budgets[id := b.(lifecycle := if b.consumed < b.limit then PARTIALLY_CONSUMED else EXHAUSTED)];
      return GovernorModel.Returned(OK);
    }

    // ---- decisions ------------------------------------------------------------------------

    /** The economics of every plan, stopping at the first that throws. */
    method Candidates(now: i64, order: seq<u64>, plans: seq<ExecutionPlan>) returns (r: Result<seq<Candidate>>)
      requires Listed(order, budgets)
      ensures r == EvaluateAll(GovernorModel.EvaluatorAt(Model(), now, order), plans)
    {
      r := EvaluatePlans(Model().Economy(now), budgets, order, plans);
    }

    method Feasibles(candidates: seq<Candidate>) returns (feasible: seq<Candidate>, worst: Reason)
      ensures feasible == FeasibleOf(candidates) && worst == LastReason(candidates)
    {
      feasible, worst := [], NoReason;
      for i := 0 to |candidates|
        invariant feasible == FeasibleOf(candidates[..i]) && worst == LastReason(candidates[..i])
      {
        assert candidates[..i + 1][..i] == candidates[..i];
        var c := candidates[i];
        if c.econ.feasible == Feasible { feasible := feasible + [c]; }
        if c.econ.feasible != Feasible && c.econ.reason != NoReason { worst := c.econ.reason; }
      }
      assert candidates[..|candidates|] == candidates;
    }

    method Rejected(candidates: seq<Candidate>, selected: u64) returns (ids: seq<u64>)
      ensures ids == RejectedOf(candidates, selected)
    {
      ids := [];
      for i := 0 to |candidates|
        invariant ids == RejectedOf(candidates[..i], selected)
      {
        assert candidates[..i + 1][..i] == candidates[..i];
        if candidates[i].plan.id != selected { ids := ids + [candidates[i].plan.id]; }
      }
      assert candidates[..|candidates|] == candidates;
    }

    method FirstHardRemaining(order: seq<u64>) returns (r: Result<i64>)
      requires Listed(order, budgets)
      ensures r == FirstRemaining(budgets, order)
    {
      for i := 0 to |order|
        invariant FirstRemaining(budgets, order) == FirstRemaining(budgets, order[i..])
      {
        assert order[i..][1..] == order[i + 1..];
        if budgets[order[i]].mode == HARD { return Remaining(budgets[order[i]]); }
      }
      return Ok(0);
    }

    method StateOf(order: seq<u64>, total: i64) returns (r: Result<CostState>)
      requires Listed(order, budgets)
      ensures r == StateFrom(policy, budgets, order, total, WithinBudget)
    {
      var state := WithinBudget;
      for i := 0 to |order|
        invariant StateFrom(policy, budgets, order, total, WithinBudget) ==
                    StateFrom(policy, budgets, order[i..], total, state)
      {
        assert order[i..][1..] == order[i + 1..];
        var b := budgets[order[i]];
        if b.mode != HARD || b.limit == 0 { continue; }
        var remaining :- Remaining(b);
        if total > remaining { return Ok(OverHardBudget); }
        var near :- Threshold(b, policy.nearBudgetPercent);
        var atRisk :- Threshold(b, policy.atRiskPercent);
        if total >= atRisk { state := AtRisk; } else if total >= near { state := NearBudget; }
      }
      return Ok(state);
    }

    method Evaluate(now: i64, order: seq<u64>, workloadGeneration: u64, plans: seq<ExecutionPlan>)
      returns (r: Result<Decision>)
      requires Listed(order, budgets)
      ensures r == GovernorModel.Evaluate(Model(), now, order, workloadGeneration, plans)
    {
      if revalidation { return Ok(GovernorModel.NoDecision(GovernorModel.Revalidate, STALE_EVIDENCE, NoReason)); }
      if |plans| == 0 { return Ok(GovernorModel.NoDecision(GovernorModel.NoFeasiblePlan, PLAN_INFEASIBLE, NoReason)); }
      var candidates :- Candidates(now, order, plans);
      var feasible, worst := Feasibles(candidates);
      if |feasible| == 0 { return Ok(GovernorModel.NoDecision(GovernorModel.NoFeasiblePlan, PLAN_INFEASIBLE, worst)); }
      var best := StableSort(feasible, Better)[0];
      var rejected := Rejected(candidates, best.plan.id);
      var remaining :- FirstHardRemaining(order);
      var state :- StateOf(order, best.econ.projected.total);
      return Ok(GovernorModel.CostDecision(
                  GovernorModel.Authorize, best.plan.id, best.plan.generation, rejected, NoReason, best.econ.projected,
                  remaining, state, GovernorModel.AuthorityOf(Model(), best.plan, workloadGeneration), OK));
    }

    method RecheckBudgets(order: seq<u64>, total: i64) returns (r: Result<Status>)
      requires Listed(order, budgets)
      ensures r == GovernorModel.Recheck(budgets, order, total)
    {
      for i := 0 to |order|
        invariant GovernorModel.Recheck(budgets, order, total) == GovernorModel.Recheck(budgets, order[i..], total)
      {
        assert order[i..][1..] == order[i + 1..];
        if budgets[order[i]].mode == HARD {
          var remaining :- Remaining(budgets[order[i]]);
          if total > remaining { return Ok(BUDGET_EXCEEDED); }
        }
      }
      return Ok(OK);
    }

    method ValidateForDispatch(now: i64, order: seq<u64>, prior: Decision, plans: seq<ExecutionPlan>)
      returns (r: Result<Status>)
      requires Listed(order, budgets)
      ensures r == GovernorModel.ValidateForDispatch(Model(), now, order, prior, plans)
    {
      if prior.kind != GovernorModel.Authorize { return Ok(OK); }
      if prior.authority.epoch != epoch { return Ok(STALE_AUTHORITY); }
      if prior.authority.policyGeneration != policy.generation { return Ok(STALE_AUTHORITY); }
      if prior.authority.priceGeneration != schedule.generation { return Ok(STALE_AUTHORITY); }
      var boot := GovernorModel.CurrentBoot(Model(), prior.authority.worker);
      if prior.authority.boot != boot { return Ok(STALE_AUTHORITY); }
      if revalidation { return Ok(STALE_EVIDENCE); }
      for i := 0 to |plans|
        invariant GovernorModel.FindPlan(plans, prior.selected) == GovernorModel.FindPlan(plans[i..], prior.selected)
      {
        assert plans[i..][1..] == plans[i + 1..];
        if plans[i].id == prior.selected {
          if !plans[i].meetsHardSlo { return Ok(PLAN_INFEASIBLE); }
          var e :- EvaluatePlanLocked(Model().Economy(now), budgets, order, plans[i]);
          if e.feasible != Feasible { return Ok(PLAN_INFEASIBLE); }
          r := RecheckBudgets(order, e.projected.total);
          return;
        }
      }
      return Ok(PLAN_SUPERSEDED);
    }

    // ---- durable state ----------------------------------------------------------------------

    method Snapshot(order: seq<u64>) returns (s: DurableSnapshot)
      requires forall i :: 0 <= i < |order| ==> order[i] in interventions
      ensures s == Persist(Model(), order)
    {
      var sorted := WalkInOrder(budgets);
      s := DurableSnapshot(epoch, policy, schedule, sorted, history, ValuesAt(interventions, order));
    }

    method LoadFrom(s: DurableSnapshot)
      modifies this
      ensures Model() == Load(old(Model()), s)
    {
      var filed := FileBudgets(s.budgets);
      epoch, policy, schedule, budgets := s.epoch, s.policy, s.schedule, filed;
      history, interventions, revalidation := s.history, LoadInterventions(s.interventions), true;
    }
  }
}
