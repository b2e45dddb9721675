/** Exactly when each budget operation goes through, in mathematical integers, what a run files, and what an
epoch advance leaves of the budgets that existed before it. */
module Admission {
  import opened Types
  import opened Pricing
  import opened Billing
  import opened Planning
  import opened Ranking
  import opened GovernorModel
  import opened Ledger
  import opened Fencing
  import Closure

  // ---- the four operations ------------------------------------------------------------------

  /** The budget answers to this generation and epoch, and is open at `now`. */
  predicate Open(b: Budget, generation: u64, epoch: u64, now: i64) {
    b.generation == generation && b.epoch == epoch && b.IsLive() && !PastExpiry(b.expiresAt, now)
  }

  /** A reservation is made exactly when the budget is open in the current epoch and its limit covers
  everything reserved; the limit is not reduced by what was consumed. */
  lemma ReserveSucceeds(g: Governor, now: i64, id: u64, generation: u64, epoch: u64, amount: i64)
    ensures var (g', outcome, handle) := Reserve(g, now, id, generation, epoch, amount);
            && (handle.Some? <==> outcome == Returned(OK))
            && (outcome == Returned(OK) <==>
                 && id in g.budgets && epoch == g.epoch && Open(g.budgets[id], generation, epoch, now)
                 && 0 <= amount && g.budgets[id].reserved + amount <= g.budgets[id].limit)
            && (handle.Some? ==>
                 && handle.value == Reservation(g.nextReservation, id, generation, epoch, amount, now,
                                                g.budgets[id].expiresAt, Active)
                 && handle.value in CopiesOf(g', id))
  {}

  /** The governor would act on this reservation. */
  predicate ActsOn(g: Governor, h: Reservation) {
    h.budget in g.budgets && g.budgets[h.budget].generation == h.budgetGeneration && h.epoch == g.epoch
  }

  /** The budget takes one more charge of `amount` out of what is reserved. */
  predicate TakesCharge(b: Budget, amount: i64) {
    && b.IsLive() && (b.mode == HARD ==> b.consumed + amount <= b.limit)
    && I64_MIN <= b.consumed + amount <= I64_MAX
    && amount != I64_MIN && I64_MIN <= b.reserved - amount <= I64_MAX
  }

  /** A commit of the reservation goes through. */
  predicate Commits(g: Governor, now: i64, h: Reservation) {
    && ActsOn(g, h) && g.budgets[h.budget].epoch == g.epoch && !PastExpiry(h.expiresAt, now)
    && TakesCharge(g.budgets[h.budget], h.amount)
  }

  /** A commit turns an active reservation into consumption exactly when the reservation is current, its
  budget open, the reservation not expired, a hard limit covers all consumption, and the counters fit. */
  lemma CommitSucceeds(g: Governor, now: i64, h: Reservation)
    requires h.state == Active
    ensures Commit(g, now, h).handle.state == Committed <==> Commits(g, now, h)
    ensures Commit(g, now, h).handle.state == Committed ==>
              Moved(g.budgets[h.budget], Commit(g, now, h).g.budgets[h.budget], h.amount, Committed)
  {}

  /** A release hands an active reservation back whenever it is current, whatever the budget's lifecycle. */
  lemma ReleaseSucceeds(g: Governor, h: Reservation)
    requires h.state == Active
    ensures Release(g, h).handle.state == Released <==>
            && ActsOn(g, h)
            && h.amount != I64_MIN && I64_MIN <= g.budgets[h.budget].reserved - h.amount <= I64_MAX
            && I64_MIN <= g.budgets[h.budget].released + h.amount <= I64_MAX
    ensures Release(g, h).handle.state == Released ==>
              Moved(g.budgets[h.budget], Release(g, h).g.budgets[h.budget], h.amount, Released)
  {}

  /** A direct charge needs the budget's own epoch only, not the governor's. */
  lemma ConsumeSucceeds(g: Governor, now: i64, id: u64, generation: u64, epoch: u64, amount: i64)
    ensures Consume(g, now, id, generation, epoch, amount).1 == Returned(OK) <==>
            && id in g.budgets && Open(g.budgets[id], generation, epoch, now) && 0 <= amount
            && g.budgets[id].consumed + amount <= I64_MAX
            && (g.budgets[id].mode == HARD ==> g.budgets[id].consumed + amount <= g.budgets[id].limit)
  {}

  // ---- what a run files ---------------------------------------------------------------------

  /** The governor files the budget. */
  predicate Files(g: Governor, b: Budget) {
    && b.limit >= 0 && b.currency == g.policy.currency && b.epoch == g.epoch
    && b.policyGeneration == g.policy.generation && b.id !in g.budgets
  }

  /** The budgets filed along the run, as they were handed in. */
  function Filed(w: World, ops: seq<Op>): seq<Budget> {
    if |ops| == 0 then []
    else
      var before, op := ops[..|ops| - 1], ops[|ops| - 1];
      Filed(w, before) + if op.DoCreate? && Files(Run(w, before).g, op.budget) then [op.budget] else []
  }

  /** One of the budgets has the identity and the terms of `b`. */
  ghost predicate AmongTerms(bs: seq<Budget>, id: u64, b: Budget) {
    exists i :: 0 <= i < |bs| && bs[i].id == id && SameTerms(bs[i], b)
  }

  lemma AmongMore(bs: seq<Budget>, more: seq<Budget>, id: u64, b: Budget, b': Budget)
    requires SameTerms(b, b')
    requires AmongTerms(bs, id, b) || (more == [b] && b.id == id)
    ensures AmongTerms(bs + more, id, b')
  {
    var all := bs + more;
    if AmongTerms(bs, id, b) {
      var i :| 0 <= i < |bs| && bs[i].id == id && SameTerms(bs[i], b);
      assert all[i].id == id && SameTerms(all[i], b');
    } else {
      assert all[|bs|].id == id && SameTerms(all[|bs|], b');
    }
  }

  lemma CreateFiles(g: Governor, b: Budget)
    ensures CreateBudget(g, b).0.budgets ==
            if Files(g, b) then g.budgets[b.id := b.(lifecycle := ACTIVE)] else g.budgets
  {}

  lemma StepKeepsKeys(w: World, op: Op)
    requires AllIssued(w) && !op.DoCreate?
    ensures Step(w, op).g.budgets.Keys == w.g.budgets.Keys
  {
    if !op.DoReserve? && !op.DoCommit? && !op.DoRelease? && !op.DoConsume? { AsideKeepsAccount(w, op); }
  }

  /** Over every run the budgets are those it began with and those filed by a step at which the limit was not
  negative, currency, epoch and policy were the current ones and the identity was new; each keeps the terms
  it came with. */
  lemma {:induction false} BudgetsAreFiled(w: World, ops: seq<Op>, id: u64)
    requires AllIssued(w)
    ensures AllIssued(Run(w, ops))
    ensures id in Run(w, ops).g.budgets <==> id in w.g.budgets || exists b :: b in Filed(w, ops) && b.id == id
    ensures id in Run(w, ops).g.budgets ==>
              var b := Run(w, ops).g.budgets[id];
              if id in w.g.budgets then SameTerms(w.g.budgets[id], b) else AmongTerms(Filed(w, ops), id, b)
  {
    if |ops| > 0 {
      var before, op := ops[..|ops| - 1], ops[|ops| - 1];
      BudgetsAreFiled(w, before, id);
      var v := Run(w, before);
      Closure.StepObeys(v, op);
      if op.DoCreate? { CreateFiles(v.g, op.budget); } else { StepKeepsKeys(v, op); }
      if id in v.g.budgets { assert SameTerms(v.g.budgets[id], Step(v, op).g.budgets[id]); }
      if id in Step(v, op).g.budgets && id !in w.g.budgets {
        var b' := Step(v, op).g.budgets[id];
        var filed, more := Filed(w, before), Filed(w, ops)[|Filed(w, before)|..];
        assert Filed(w, ops) == filed + more;
        AmongMore(filed, more, id, if id in v.g.budgets then v.g.budgets[id] else op.budget, b');
      }
    }
  }

  /** The governor accepts the price. */
  predicate Accepts(g: Governor, o: PriceObservation) {
    && o.epoch == g.epoch && (o.boot == 0 || o.boot == CurrentBoot(g, o.worker))
    && o.currency == g.policy.currency && o.amount >= 0
  }

  /** The prices accepted along the run, in order. */
  function Published(w: World, ops: seq<Op>): seq<PriceObservation> {
    if |ops| == 0 then []
    else
      var before, op := ops[..|ops| - 1], ops[|ops| - 1];
      Published(w, before) + if op.DoPublish? && Accepts(Run(w, before).g, op.observation) then [op.observation] else []
  }

  /** `o` is there, and no later one has its identity. */
  ghost predicate LastOfIts(all: seq<PriceObservation>, o: PriceObservation) {
    exists i :: 0 <= i < |all| && all[i] == o && forall j :: i < j < |all| ==> all[j].id != o.id
  }

  lemma LastPush(all: seq<PriceObservation>, p: PriceObservation, o: PriceObservation)
    ensures LastOfIts(all + [p], o) <==> o == p || (LastOfIts(all, o) && o.id != p.id)
  {
    var more := all + [p];
    assert more[|all|] == p && forall i :: 0 <= i < |all| ==> more[i] == all[i];
  }

  predicate Unrepeated(observations: seq<PriceObservation>) {
    forall i, j :: 0 <= i < j < |observations| ==> observations[i].id != observations[j].id
  }

  lemma {:induction false} UpsertHolds(observations: seq<PriceObservation>, o: PriceObservation)
    requires Unrepeated(observations)
    ensures Unrepeated(Upsert(observations, o))
    ensures forall p :: p in Upsert(observations, o) <==> p == o || (p in observations && p.id != o.id)
  {
    if |observations| > 0 {
      var first, rest := observations[0], observations[1..];
      forall i, j | 0 <= i < j < |rest| ensures rest[i].id != rest[j].id {
        assert rest[i] == observations[i + 1] && rest[j] == observations[j + 1];
      }
      assert forall p :: p in rest ==> p.id != first.id;
      UpsertHolds(rest, o);
      assert observations == [first] + rest;
    }
  }

  lemma StepKeepsPrices(w: World, op: Op)
    ensures Step(w, op).g.schedule.observations ==
            if op.DoPublish? && Accepts(w.g, op.observation) then Upsert(w.g.schedule.observations, op.observation)
            else w.g.schedule.observations
  {}

  /** Over every run the schedule holds, per identity, exactly the last price accepted. */
  lemma {:induction false} LastPriceIsHeld(w: World, ops: seq<Op>, o: PriceObservation)
    requires Unrepeated(w.g.schedule.observations)
    ensures Unrepeated(Run(w, ops).g.schedule.observations)
    ensures o in Run(w, ops).g.schedule.observations <==>
            LastOfIts(w.g.schedule.observations + Published(w, ops), o)
  {
    var start := w.g.schedule.observations;
    if |ops| == 0 {
      assert start + [] == start;
    } else {
      var before, op := ops[..|ops| - 1], ops[|ops| - 1];
      LastPriceIsHeld(w, before, o);
      var v := Run(w, before);
      StepKeepsPrices(v, op);
      if op.DoPublish? && Accepts(v.g, op.observation) {
        UpsertHolds(v.g.schedule.observations, op.observation);
        LastPush(start + Published(w, before), op.observation, o);
        assert start + (Published(w, before) + [op.observation]) == (start + Published(w, before)) + [op.observation];
      } else {
        assert Published(w, ops) == Published(w, before);
      }
    }
  }

  // ---- budgets of an earlier epoch ------------------------------------------------------------

  /** The step is a direct charge to budget `id`. */
  predicate ChargesDirectly(op: Op, id: u64) {
    op.DoConsume? && op.id == id
  }

  lemma OldBudgetInCall(w: World, op: Op, id: u64)
    requires AllIssued(w) && id in w.g.budgets && w.g.budgets[id].epoch != w.g.epoch && (op.DoCommit? || op.DoRelease?)
    ensures id in Step(w, op).g.budgets && Step(w, op).g.budgets[id] == w.g.budgets[id]
  {}

  /** Nothing happened to the budget but, if at all, a direct charge. */
  predicate Frozen(b: Budget, b': Budget, charged: bool) {
    SameTerms(b, b') && b'.reserved == b.reserved && b'.released == b.released && (charged || b' == b)
  }

  lemma OldBudgetInReserve(w: World, op: Op, id: u64)
    requires op.DoReserve? && id in w.g.budgets && w.g.budgets[id].epoch != w.g.epoch
    ensures id in Step(w, op).g.budgets && Step(w, op).g.budgets[id] == w.g.budgets[id]
  {}

  lemma OldBudgetInConsume(w: World, op: Op, id: u64)
    requires op.DoConsume? && id in w.g.budgets
    ensures id in Step(w, op).g.budgets && Frozen(w.g.budgets[id], Step(w, op).g.budgets[id], op.id == id)
  {
    ConsumeStep(w, op.id, op.generation, op.epoch, op.amount);
    if op.id in w.g.budgets { ConsumeEffect(w.g.budgets[op.id], w.now, op.generation, op.epoch, op.amount); }
  }

  lemma OldBudgetInStep(w: World, op: Op, id: u64)
    requires AllIssued(w) && id in w.g.budgets && w.g.budgets[id].epoch != w.g.epoch
    ensures id in Step(w, op).g.budgets
    ensures Frozen(w.g.budgets[id], Step(w, op).g.budgets[id], ChargesDirectly(op, id))
  {
    match op
    case DoCommit(_) => OldBudgetInCall(w, op, id);
    case DoRelease(_) => OldBudgetInCall(w, op, id);
    case DoReserve(_, _, _, _) => OldBudgetInReserve(w, op, id);
    case DoConsume(_, _, _, _) => OldBudgetInConsume(w, op, id);
    case DoCreate(_) =>
    case _ => AsideKeepsAccount(w, op);
  }

  /** After an epoch advance no continuation changes what is reserved or released of a budget that existed
  before; without direct charges nothing about it changes at all. */
  lemma {:induction false} OldBudgetsAreFrozen(w: World, ops: seq<Op>, id: u64)
    requires AllIssued(w) && id in w.g.budgets && w.g.budgets[id].epoch < w.g.epoch && RoomFor(w, |ops|)
    ensures AllIssued(Run(w, ops)) && id in Run(w, ops).g.budgets
    ensures Frozen(w.g.budgets[id], Run(w, ops).g.budgets[id], EverCharged(ops, id))
  {
    if |ops| > 0 {
      var n := |ops| - 1;
      var v := Run(w, ops[..n]);
      OldBudgetsAreFrozen(w, ops[..n], id);
      RunGrows(w, ops[..n]);
      OldBudgetInStep(v, ops[n], id);
      Closure.StepObeys(v, ops[n]);
      FrozenTwice(w.g.budgets[id], v.g.budgets[id], Step(v, ops[n]).g.budgets[id], ops, id);
    }
  }

  predicate EverCharged(ops: seq<Op>, id: u64) {
    exists i :: 0 <= i < |ops| && ChargesDirectly(ops[i], id)
  }

  lemma FrozenTwice(a: Budget, b: Budget, c: Budget, ops: seq<Op>, id: u64)
    requires |ops| > 0 && Frozen(a, b, EverCharged(ops[..|ops| - 1], id))
    requires Frozen(b, c, ChargesDirectly(ops[|ops| - 1], id))
    ensures Frozen(a, c, EverCharged(ops, id))
  {
    var before := ops[..|ops| - 1];
    if EverCharged(before, id) {
      var i :| 0 <= i < |before| && ChargesDirectly(before[i], id);
      assert ChargesDirectly(ops[i], id);
    }
  }

  // ---- worker boots -----------------------------------------------------------------------------

  predicate SetsBoot(op: Op, worker: u64) {
    op.DoSetBoot? && op.worker == worker
  }

  lemma StepKeepsBoot(w: World, op: Op, worker: u64)
    requires !SetsBoot(op, worker)
    ensures CurrentBoot(Step(w, op).g, worker) == CurrentBoot(w.g, worker)
  {
    match op
    case DoFinalize(request, workload) => FinalizeKeepsAccount(w.g, w.now, request, workload);
    case DoCommit(_) =>
    case DoRelease(_) =>
    case _ =>
  }

  lemma {:induction false} RunKeepsBoot(w: World, ops: seq<Op>, worker: u64)
    requires forall i :: 0 <= i < |ops| ==> !SetsBoot(ops[i], worker)
    ensures CurrentBoot(Run(w, ops).g, worker) == CurrentBoot(w.g, worker)
  {
    if |ops| > 0 {
      var n := |ops| - 1;
      forall i | 0 <= i < n ensures !SetsBoot(ops[..n][i], worker) { assert ops[..n][i] == ops[i]; }
      RunKeepsBoot(w, ops[..n], worker);
      StepKeepsBoot(Run(w, ops[..n]), ops[n], worker);
    }
  }

  /** A decision for another incarnation of its worker is stale, and stays so until that worker boots again. */
  lemma OtherBootIsStale(w: World, ops: seq<Op>, d: CostDecision, now: i64, order: seq<u64>, plans: seq<ExecutionPlan>)
    requires d.kind == Authorize && d.authority.boot != CurrentBoot(w.g, d.authority.worker)
    requires forall i :: 0 <= i < |ops| ==> !SetsBoot(ops[i], d.authority.worker)
    requires Listed(order, Run(w, ops).g.budgets)
    ensures ValidateForDispatch(Run(w, ops).g, now, order, d, plans) == Ok(STALE_AUTHORITY)
  {
    RunKeepsBoot(w, ops, d.authority.worker);
  }

  // ---- prices -----------------------------------------------------------------------------------

  /** The first observation with the identity of `o`. */
  predicate IsFirst(observations: seq<PriceObservation>, o: PriceObservation, i: nat) {
    i < |observations| && observations[i].id == o.id && forall j :: 0 <= j < i ==> observations[j].id != o.id
  }

  /** A published price replaces the first observation with its identity and nothing else, or is added last. */
  lemma {:induction false} UpsertMeaning(observations: seq<PriceObservation>, o: PriceObservation, i: nat)
    ensures IsFirst(observations, o, i) ==> Upsert(observations, o) == observations[i := o]
    ensures (forall j :: 0 <= j < |observations| ==> observations[j].id != o.id) ==>
              Upsert(observations, o) == observations + [o]
  {
    if |observations| > 0 && observations[0].id != o.id {
      var rest := observations[1..];
      UpsertMeaning(rest, o, if i > 0 then i - 1 else 0);
      if IsFirst(observations, o, i) {
        assert IsFirst(rest, o, i - 1) by {
          forall j | 0 <= j < i - 1 ensures rest[j].id != o.id { assert rest[j] == observations[j + 1]; }
        }
        assert [observations[0]] + rest[i - 1 := o] == observations[i := o];
      }
      if forall j :: 0 <= j < |observations| ==> observations[j].id != o.id {
        forall j | 0 <= j < |rest| ensures rest[j].id != o.id { assert rest[j] == observations[j + 1]; }
        assert [observations[0]] + (rest + [o]) == observations + [o];
      }
    }
  }

  // ---- feasible plans ---------------------------------------------------------------------------

  /** Every measurable amount the plan uses has a fresh price with an accepted label. */
  predicate FreshlyPriced(x: Economy, p: ExecutionPlan, from: nat) {
    forall k :: from <= k < 6 && UsageAt(PlanEvidence(p), k) != 0 ==>
        CheckAt(x, p, k).Present? && !CheckAt(x, p, k).stale
  }

  lemma {:induction false} UnpricedMeaning(x: Economy, p: ExecutionPlan, k: nat)
    requires k <= 6
    ensures FirstUnpriced(x, p, k) == None <==> FreshlyPriced(x, p, k)
    decreases 6 - k
  {
    if k < 6 { UnpricedMeaning(x, p, k + 1); }
  }

  lemma BaseMeaning(x: Economy, p: ExecutionPlan)
    ensures BaseFeasible(x, p) <==>
            && p.dataLabel != UNSUPPORTED && p.meetsHardSlo && !x.revalidation && FirstUnpriced(x, p, 0) == None
            && Project(x.Market(), [PlanEvidence(p)]).Ok?
    ensures BaseFeasible(x, p) ==> PlanTotal(x, p) == Project(x.Market(), [PlanEvidence(p)]).value.total
  {
    assert [PlanEvidence(p)][0] == PlanEvidence(p);
  }

  /** A plan whose evaluation does not throw is feasible exactly when it is supported, meets its objective,
  prices are not awaiting revalidation, every amount it uses has a fresh accepted price, its bill exists
  and fits, and every hard budget can pay it. */
  lemma FeasibleExactly(x: Economy, budgets: Budgets, order: seq<u64>, p: ExecutionPlan)
    requires IsOrder(order, budgets) && EvaluatePlan(x, budgets, order, p).Ok?
    ensures EvaluatePlan(x, budgets, order, p).value.feasible == Feasible <==>
            && p.dataLabel != UNSUPPORTED && p.meetsHardSlo && !x.revalidation && FreshlyPriced(x, p, 0)
            && AllPriceable(x.Market(), [PlanEvidence(p)]) && Bill(x.Market(), [PlanEvidence(p)]) <= I64_MAX
            && Affordable(budgets, Bill(x.Market(), [PlanEvidence(p)]))
  {
    FeasibleMeaning(x, budgets, order, p);
    BaseMeaning(x, p);
    UnpricedMeaning(x, p, 0);
    ProjectExact(x.Market(), [PlanEvidence(p)]);
  }
}
