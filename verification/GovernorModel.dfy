/** The governor as a value: its state and what each operation does to it.

Every public operation runs under one mutex, so a run is a sequence of these functions. The clock
is a parameter, and so is the iteration order of the hash map of budgets. An operation that throws
half way leaves the fields it had already assigned.
 */
module GovernorModel {
  import opened Types
  import opened Money
  import opened Pricing
  import opened Planning
  import opened Keys

  datatype Governor = Governor(
    policy: CostPolicy, schedule: PriceSchedule, epoch: u64, boots: map<u64, u64>, revalidation: bool,
    budgets: Budgets, attempts: map<u64, map<u64, CostEvidence>>, reservations: map<u64, seq<Reservation>>,
    history: seq<HistoryEntry>, interventions: map<u64, InterventionEntry>, nextReservation: u64)
  {
    function Economy(now: i64): Economy { Planning.Economy(policy, schedule, revalidation, now) }

    function Market(now: i64): Market { Pricing.Market(schedule.observations, policy.currency, now) }
  }

  const DEFAULT_POLICY: CostPolicy :=
    CostPolicy(1, 1, 1, [0x55, 0x53, 0x44], 0, 0, 30_000, 30_000, 100, 0, 0, 80, 90, 0, 0, false, false, true, true)

  /** A governor as it is made: the default policy at epoch 1, nothing recorded. */
  function New(): Governor {
    Governor(DEFAULT_POLICY, PriceSchedule(0, 0, 0, []), 1, map[], false, map[], map[], map[], [], map[], 1)
  }

  datatype Outcome = Returned(status: Status) | Threw(error: Error)

  // ---- authority ------------------------------------------------------------------------

  function SetPolicy(g: Governor, policy: CostPolicy): Governor {
    g.(policy := policy, epoch := policy.epoch, revalidation := true)
  }

  function SetPriceSchedule(g: Governor, schedule: PriceSchedule): Governor {
    g.(schedule := schedule, revalidation := false)
  }

  function AdvanceEpoch(g: Governor): Governor {
    g.(epoch := Next(g.epoch), revalidation := true)
  }

  function SetWorkerBoot(g: Governor, worker: u64, boot: u64): Governor {
    g.(boots := g.boots[worker := boot])
  }

  function CurrentBoot(g: Governor, worker: u64): u64 {
    if worker in g.boots then g.boots[worker] else 0
  }

  function CreateBudget(g: Governor, b: Budget): (r: (Governor, Status)) {
    if b.limit < 0 then (g, INVALID_INPUT)
    else if b.currency != g.policy.currency then (g, CURRENCY_MISMATCH)
    else if b.epoch != g.epoch then (g, STALE_AUTHORITY)
    else if b.policyGeneration != g.policy.generation then (g, STALE_AUTHORITY)
    else if b.id in g.budgets then (g, INVALID_INPUT)
    else (g.(budgets := g.budgets[b.id := b.(lifecycle := ACTIVE)]), OK)
  }

  /** Replaces the first observation with the same identity, or appends. */
  function Upsert(observations: seq<PriceObservation>, o: PriceObservation): (r: seq<PriceObservation>) {
    if |observations| == 0 then [o]
    else if observations[0].id == o.id then [o] + observations[1..]
    else [observations[0]] + Upsert(observations[1..], o)
  }

  function PublishPrice(g: Governor, o: PriceObservation): (r: (Governor, Status)) {
    if o.epoch != g.epoch then (g, STALE_AUTHORITY)
    else if o.boot != 0 && o.boot != CurrentBoot(g, o.worker) then (g, STALE_AUTHORITY)
    else if o.currency != g.policy.currency then (g, CURRENCY_MISMATCH)
    else if o.amount < 0 then (g, INVALID_INPUT)
    else (g.(schedule := g.schedule.(observations := Upsert(g.schedule.observations, o),
                                     generation := Next(g.schedule.generation)),
             revalidation := false), OK)
  }

  // ---- attempts -------------------------------------------------------------------------

  predicate NegativeUsage(e: CostEvidence) {
    e.acceleratorTime < 0 || e.energy < 0 || e.transfer < 0 || e.memoryHold < 0 || e.residencyHold < 0 ||
    e.storageBytes < 0 || e.recomputeNs < 0 || e.tokens < 0 || e.operations < 0
  }

  function AttemptsOf(g: Governor, request: u64): map<u64, CostEvidence> {
    if request in g.attempts then g.attempts[request] else map[]
  }

  function RecordAttempt(g: Governor, e: CostEvidence): (r: (Governor, Status)) {
    if e.epoch != g.epoch then (g, STALE_AUTHORITY)
    else if e.boot != CurrentBoot(g, e.worker) then (g, STALE_AUTHORITY)
    else if e.dataLabel == UNSUPPORTED then (g, INVALID_INPUT)
    else if NegativeUsage(e) then (g, INVALID_INPUT)
    else
      var known := AttemptsOf(g, e.request);
      if e.attempt in known && known[e.attempt].attemptGeneration == e.attemptGeneration then (g, INVALID_INPUT)
      else (g.(attempts := g.attempts[e.request := known[e.attempt := e]]), OK)
  }

  function Realize(g: Governor, now: i64, request: u64): (r: Result<CostBreakdown>) {
    Project(g.Market(now), SortedValues(AttemptsOf(g, request)))
  }

  function RealizedRequestCost(g: Governor, now: i64, request: u64): (r: Result<i64>) {
    if request !in g.attempts then Ok(0)
    else
      var bd :- Realize(g, now, request);
      Ok(bd.total)
  }

  predicate InHistory(g: Governor, request: u64) {
    exists i :: 0 <= i < |g.history| && g.history[i].request == request
  }

  function FinalizeRequest(g: Governor, now: i64, request: u64, workload: u64): (r: (Governor, Outcome)) {
    if InHistory(g, request) then (g, Returned(OK))
    else if request !in g.attempts then (g, Returned(INVALID_INPUT))
    else match Realize(g, now, request)
         case Err(error) => (g, Threw(error))
         case Ok(bd) =>
           var entry := HistoryEntry(request, workload, now, bd.total, Wrap(|AttemptsOf(g, request)|), 0);
           (g.(history := g.history + [entry]), Returned(OK))
  }

  // ---- budgets --------------------------------------------------------------------------

  /** What a call leaves behind: the governor, how it ended, and the caller's reservation. */
  datatype Call = Call(g: Governor, outcome: Outcome, handle: Reservation)

  predicate PastExpiry(expiresAt: i64, now: i64) { expiresAt != 0 && now > expiresAt }

  function SpentLifecycle(b: Budget): u8 {
    if b.consumed < b.limit then PARTIALLY_CONSUMED else EXHAUSTED
  }

  function CopiesOf(g: Governor, budget: u64): seq<Reservation> {
    if budget in g.reservations then g.reservations[budget] else []
  }

  /** A call on one budget: the budget it leaves, how it ended, and the state of the reservation. */
  datatype Entry = Entry(budget: Budget, outcome: Outcome, state: ReservationState)

  function ReserveIn(b: Budget, current: u64, now: i64, generation: u64, epoch: u64, amount: i64)
    : (r: (Budget, Outcome))
  {
    if b.generation != generation || b.epoch != epoch then (b, Returned(STALE_AUTHORITY))
    else if b.epoch != current then (b, Returned(STALE_AUTHORITY))
    else if !b.IsLive() then (b, Returned(BUDGET_EXPIRED))
    else if PastExpiry(b.expiresAt, now) then (b.(lifecycle := EXPIRED), Returned(BUDGET_EXPIRED))
    else if amount < 0 then (b, Returned(INVALID_INPUT))
    else match CheckedAdd(b.reserved, amount)
         case Err(error) => (b, Threw(error))
         case Ok(after) =>
           if after > b.limit then (b, Returned(BUDGET_EXCEEDED))
           else (b.(reserved := after, lifecycle := RESERVED), Returned(OK))
  }

  function Reserve(g: Governor, now: i64, id: u64, generation: u64, epoch: u64, amount: i64)
    : (r: (Governor, Outcome, Option<Reservation>))
  {
    if id !in g.budgets then (g, Returned(INVALID_INPUT), None)
    else
      var (b, outcome) := ReserveIn(g.budgets[id], g.epoch, now, generation, epoch, amount);
      if outcome != Returned(OK) then (g.(budgets := g.budgets[id := b]), outcome, None)
      else
        var handle := Reservation(g.nextReservation, id, generation, epoch, amount, now, b.expiresAt, Active);
        (g.(budgets := g.budgets[id := b],
            reservations := g.reservations[id := CopiesOf(g, id) + [handle]],
            nextReservation := Next(g.nextReservation)),
         outcome, Some(handle))
  }

  /** Gives an amount back to a budget: first lowers `reserved`, then raises `released`. */
  function GiveBack(b: Budget, amount: i64): (r: (Budget, Option<Error>)) {
    match CheckedSub(b.reserved, amount)
    case Err(error) => (b, Some(error))
    case Ok(reserved) =>
      match CheckedAdd(b.released, amount)
      case Err(error) => (b.(reserved := reserved), Some(error))
      case Ok(released) => (b.(reserved := reserved, released := released), None)
  }

  function CommitIn(b: Budget, current: u64, now: i64, h: Reservation): (r: Entry) {
    if b.generation != h.budgetGeneration then Entry(b, Returned(STALE_AUTHORITY), h.state)
    else if h.epoch != current then Entry(b, Returned(STALE_AUTHORITY), h.state)
    else if b.epoch != current then Entry(b, Returned(STALE_AUTHORITY), h.state)
    else if h.state != Active then Entry(b, Returned(OK), h.state)
    else if !b.IsLive() then Entry(b, Returned(BUDGET_EXPIRED), h.state)
    else if PastExpiry(h.expiresAt, now) then
      var (b', error) := GiveBack(b, h.amount);
      Entry(b', if error.Some? then Threw(error.value) else Returned(BUDGET_EXPIRED), Expired)
    else match CheckedAdd(b.consumed, h.amount)
         case Err(error) => Entry(b, Threw(error), h.state)
         case Ok(after) =>
           if b.mode == HARD && after > b.limit then Entry(b, Returned(BUDGET_EXCEEDED), h.state)
           else match CheckedSub(b.reserved, h.amount)
                case Err(error) => Entry(b, Threw(error), h.state)
                case Ok(reserved) =>
                  var spent := b.(reserved := reserved, consumed := after);
                  Entry(spent.(lifecycle := SpentLifecycle(spent)), Returned(OK), Committed)
  }

  function Commit(g: Governor, now: i64, h: Reservation): (r: Call) {
    if h.budget !in g.budgets then Call(g, Returned(INVALID_INPUT), h)
    else
      var e := CommitIn(g.budgets[h.budget], g.epoch, now, h);
      Call(g.(budgets := g.budgets[h.budget := e.budget]), e.outcome, h.(state := e.state))
  }

  /** The governor's own copies are never updated, so this looks at what `Reserve` stored. */
  predicate AnyActive(copies: seq<Reservation>) {
    exists i :: 0 <= i < |copies| && copies[i].state == Active
  }

  function ReleaseIn(b: Budget, current: u64, anyActive: bool, h: Reservation): (r: Entry) {
    if b.generation != h.budgetGeneration then Entry(b, Returned(STALE_AUTHORITY), h.state)
    else if h.epoch != current then Entry(b, Returned(STALE_AUTHORITY), h.state)
    else if h.state != Active then Entry(b, Returned(OK), h.state)
    else
      var (b', error) := GiveBack(b, h.amount);
      if error.Some? then Entry(b', Threw(error.value), h.state)
      else
        var lifecycle := if anyActive then RESERVED else if b'.consumed == 0 then ACTIVE else PARTIALLY_CONSUMED;
        Entry(b'.(lifecycle := lifecycle), Returned(OK), Released)
  }

  /** Looking up the copies of a budget that has none leaves an empty list behind. */
  function Release(g: Governor, h: Reservation): (r: Call) {
    if h.budget !in g.budgets then Call(g, Returned(INVALID_INPUT), h)
    else
      var e := ReleaseIn(g.budgets[h.budget], g.epoch, AnyActive(CopiesOf(g, h.budget)), h);
      Call(g.(budgets := g.budgets[h.budget := e.budget],
              reservations := if e.state == h.state then g.reservations
                              else g.reservations[h.budget := CopiesOf(g, h.budget)]),
           e.outcome, h.(state := e.state))
  }

  /** A direct charge compares the caller's epoch with the budget's only. */
  function ConsumeIn(b: Budget, now: i64, generation: u64, epoch: u64, amount: i64): (r: (Budget, Outcome)) {
    if b.generation != generation || b.epoch != epoch then (b, Returned(STALE_AUTHORITY))
    else if !b.IsLive() then (b, Returned(BUDGET_EXPIRED))
    else if amount < 0 then (b, Returned(INVALID_INPUT))
    else if PastExpiry(b.expiresAt, now) then (b.(lifecycle := EXPIRED), Returned(BUDGET_EXPIRED))
    else match CheckedAdd(b.consumed, amount)
         case Err(error) => (b, Threw(error))
         case Ok(after) =>
           if b.mode == HARD && after > b.limit then (b, Returned(BUDGET_EXCEEDED))
           else
             var spent := b.(consumed := after);
             (spent.(lifecycle := SpentLifecycle(spent)), Returned(OK))
  }

  function Consume(g: Governor, now: i64, id: u64, generation: u64, epoch: u64, amount: i64): (r: (Governor, Outcome)) {
    if id !in g.budgets then (g, Returned(INVALID_INPUT))
    else
      var (b, outcome) := ConsumeIn(g.budgets[id], now, generation, epoch, amount);
      (g.(budgets := g.budgets[id := b]), outcome)
  }

  // ---- decisions ------------------------------------------------------------------------

  datatype DecisionKind = Authorize | Reject | Defer | Revalidate | NoFeasiblePlan

  datatype AuthorityContext = AuthorityContext(
    epoch: u64, policyGeneration: u64, priceGeneration: u64, planGeneration: u64,
    workloadGeneration: u64, worker: u64, boot: u64)

  datatype CostDecision = CostDecision(
    kind: DecisionKind, selected: u64, planGeneration: u64, rejected: seq<u64>, binding: Reason,
    projected: CostBreakdown, remaining: i64, state: CostState, authority: AuthorityContext, status: Status)

  function NoDecision(kind: DecisionKind, status: Status, binding: Reason): CostDecision {
    CostDecision(kind, 0, 0, [], binding, NoBreakdown(), 0, UnknownState,
                 AuthorityContext(0, 0, 0, 0, 0, 0, 0), status)
  }

  function AuthorityOf(g: Governor, p: ExecutionPlan, workloadGeneration: u64): AuthorityContext {
    AuthorityContext(g.epoch, g.policy.generation, g.schedule.generation, p.generation,
                     workloadGeneration, p.worker, CurrentBoot(g, p.worker))
  }

  function EvaluatorAt(g: Governor, now: i64, order: seq<u64>): Evaluator
    requires Listed(order, g.budgets)
  {
    EvaluatorOf(g.Economy(now), g.budgets, order)
  }

  function Evaluate(g: Governor, now: i64, order: seq<u64>, workloadGeneration: u64, plans: seq<ExecutionPlan>)
    : (r: Result<CostDecision>)
    requires Listed(order, g.budgets)
  {
    if g.revalidation then Ok(NoDecision(Revalidate, STALE_EVIDENCE, NoReason))
    else if |plans| == 0 then Ok(NoDecision(NoFeasiblePlan, PLAN_INFEASIBLE, NoReason))
    else
      var candidates :- EvaluateAll(EvaluatorAt(g, now, order), plans);
      var feasible := FeasibleOf(candidates);
      if |feasible| == 0 then Ok(NoDecision(NoFeasiblePlan, PLAN_INFEASIBLE, LastReason(candidates)))
      else
        var best := StableSort(feasible, Better)[0];
        var remaining :- FirstRemaining(g.budgets, order);
        var state :- StateFrom(g.policy, g.budgets, order, best.econ.projected.total, WithinBudget);
        Ok(CostDecision(Authorize, best.plan.id, best.plan.generation, RejectedOf(candidates, best.plan.id), NoReason,
                        best.econ.projected, remaining, state, AuthorityOf(g, best.plan, workloadGeneration), OK))
  }

  function FindPlan(plans: seq<ExecutionPlan>, id: u64): (p: Option<ExecutionPlan>) {
    if |plans| == 0 then None else if plans[0].id == id then Some(plans[0]) else FindPlan(plans[1..], id)
  }

  function Recheck(budgets: Budgets, order: seq<u64>, total: i64): Result<Status>
    requires Listed(order, budgets)
  {
    if |order| == 0 then Ok(OK)
    else if budgets[order[0]].mode != HARD then Recheck(budgets, order[1..], total)
    else
      var remaining :- Remaining(budgets[order[0]]);
      if total > remaining then Ok(BUDGET_EXCEEDED) else Recheck(budgets, order[1..], total)
  }

  function ValidateForDispatch(g: Governor, now: i64, order: seq<u64>, prior: CostDecision, plans: seq<ExecutionPlan>)
    : (r: Result<Status>)
    requires Listed(order, g.budgets)
  {
    if prior.kind != Authorize then Ok(OK)
    else if prior.authority.epoch != g.epoch then Ok(STALE_AUTHORITY)
    else if prior.authority.policyGeneration != g.policy.generation then Ok(STALE_AUTHORITY)
    else if prior.authority.priceGeneration != g.schedule.generation then Ok(STALE_AUTHORITY)
    else if prior.authority.boot != CurrentBoot(g, prior.authority.worker) then Ok(STALE_AUTHORITY)
    else if g.revalidation then Ok(STALE_EVIDENCE)
    else match FindPlan(plans, prior.selected)
         case None => Ok(PLAN_SUPERSEDED)
         case Some(p) =>
           if !p.meetsHardSlo then Ok(PLAN_INFEASIBLE)
           else
             var e :- EvaluatePlan(g.Economy(now), g.budgets, order, p);
             if e.feasible != Feasible then Ok(PLAN_INFEASIBLE)
             else Recheck(g.budgets, order, e.projected.total)
  }
}
