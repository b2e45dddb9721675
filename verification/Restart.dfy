/** Saving a governor to octets, loading it into a fresh one, and what a restart changes.

The attempts, the reservations and the worker boots are not saved. Loaded budgets start with nothing
reserved, and nothing is authorized until prices are set or published again.
 */
module Restart {
  import opened Types
  import opened Keys
  import opened Planning
  import opened GovernorModel
  import opened Ledger
  import opened Orders
  import opened Fencing
  import opened Snapshot

  /** Budgets are filed under their own identity, as `create_budget` and `load` do. */
  predicate Keyed(g: Governor) {
    forall id :: id in g.budgets ==> g.budgets[id].id == id
  }

  lemma ChargesKeepId(b: Budget, current: u64, now: i64, generation: u64, epoch: u64, amount: i64)
    ensures ReserveIn(b, current, now, generation, epoch, amount).0.id == b.id
    ensures ConsumeIn(b, now, generation, epoch, amount).0.id == b.id
  {}

  /** Every operation keeps budgets filed under their own identity. */
  lemma StepKeepsKeyed(w: World, op: Op)
    requires Keyed(w.g)
    ensures Keyed(Step(w, op).g)
  {
    match op
    case DoReserve(_, _, _, _) => ChargeKeepsKeyed(w, op);
    case DoConsume(_, _, _, _) => ChargeKeepsKeyed(w, op);
    case DoCommit(_) => CallKeepsKeyed(w, op);
    case DoRelease(_) => CallKeepsKeyed(w, op);
    case DoCreate(_) =>
    case _ => AsideKeepsAccount(w, op);
  }

  /** So every governor that a run reaches from a new one is filed that way. */
  lemma {:induction false} RunKeepsKeyed(w: World, ops: seq<Op>)
    requires Keyed(w.g)
    ensures Keyed(Run(w, ops).g)
  {
    if |ops| > 0 {
      RunKeepsKeyed(w, ops[..|ops| - 1]);
      StepKeepsKeyed(Run(w, ops[..|ops| - 1]), ops[|ops| - 1]);
    }
  }

  lemma ChargeKeepsKeyed(w: World, op: Op)
    requires Keyed(w.g) && (op.DoReserve? || op.DoConsume?)
    ensures Keyed(Step(w, op).g)
  {
    if op.id in w.g.budgets { ChargesKeepId(w.g.budgets[op.id], w.g.epoch, w.now, op.generation, op.epoch, op.amount); }
  }

  lemma CallKeepsKeyed(w: World, op: Op)
    requires Keyed(w.g) && (op.DoCommit? || op.DoRelease?)
    ensures Keyed(Step(w, op).g)
  {}

  /** So does a load. */
  lemma {:induction false} LoadedIsKeyed(bs: seq<Budget>, id: u64)
    requires id in LoadBudgets(bs)
    ensures LoadBudgets(bs)[id].id == id
  {
    if |bs| > 0 && id in LoadBudgets(bs[..|bs| - 1]) { LoadedIsKeyed(bs[..|bs| - 1], id); }
  }

  /** The snapshot of a governor; interventions come in hash order. */
  function Persist(g: Governor, order: seq<u64>): DurableSnapshot
    requires forall i :: 0 <= i < |order| ==> order[i] in g.interventions
  {
    DurableSnapshot(g.epoch, g.policy, g.schedule, SortedValues(g.budgets), g.history, ValuesAt(g.interventions, order))
  }

  /** A loaded budget has no reservations, and is active again when it had nothing but reservations. */
  function Reset(b: Budget): Budget {
    b.(reserved := 0,
       lifecycle := if b.consumed == 0 && b.released == 0 && b.lifecycle == RESERVED then ACTIVE else b.lifecycle)
  }

  /** Files budgets one by one; an identity already filed is kept. */
  function LoadBudgets(bs: seq<Budget>): Budgets {
    if |bs| == 0 then map[]
    else
      var m, b := LoadBudgets(bs[..|bs| - 1]), bs[|bs| - 1];
      if b.id in m then m else m[b.id := Reset(b)]
  }

  function LoadInterventions(entries: seq<InterventionEntry>): map<u64, InterventionEntry> {
    if |entries| == 0 then map[]
    else
      var m, e := LoadInterventions(entries[..|entries| - 1]), entries[|entries| - 1];
      if e.id in m then m else m[e.id := e]
  }

  function Load(g: Governor, s: DurableSnapshot): Governor {
    g.(epoch := s.epoch, policy := s.policy, schedule := s.schedule, budgets := LoadBudgets(s.budgets),
       history := s.history, interventions := LoadInterventions(s.interventions), revalidation := true)
  }

  method FileBudgets(bs: seq<Budget>) returns (m: Budgets)
    ensures m == LoadBudgets(bs)
  {
    m := map[];
    for i := 0 to |bs|
      invariant m == LoadBudgets(bs[..i])
    {
      assert bs[..i + 1][..i] == bs[..i];
      if bs[i].id !in m { m := m[bs[i].id := Reset(bs[i])]; }
    }
    assert bs[..|bs|] == bs;
  }

  // ---- what loading gives -----------------------------------------------------------------

  ghost predicate HasId(bs: seq<Budget>, id: u64) {
    exists i :: 0 <= i < |bs| && bs[i].id == id
  }

  lemma HasIdPush(bs: seq<Budget>, id: u64)
    requires |bs| > 0
    ensures HasId(bs, id) <==> HasId(bs[..|bs| - 1], id) || bs[|bs| - 1].id == id
  {}

  lemma {:induction false} LoadedKeys(bs: seq<Budget>, id: u64)
    ensures id in LoadBudgets(bs) <==> HasId(bs, id)
  {
    if |bs| > 0 {
      LoadedKeys(bs[..|bs| - 1], id);
      HasIdPush(bs, id);
    }
  }

  /** The first budget with an identity is the one that is filed. */
  lemma {:induction false} LoadedFirst(bs: seq<Budget>, i: nat)
    requires i < |bs| && !HasId(bs[..i], bs[i].id)
    ensures bs[i].id in LoadBudgets(bs) && LoadBudgets(bs)[bs[i].id] == Reset(bs[i])
  {
    var n := |bs| - 1;
    if i < n {
      assert bs[..n][..i] == bs[..i];
      LoadedFirst(bs[..n], i);
    } else {
      LoadedKeys(bs[..n], bs[n].id);
    }
  }

  /** The same budgets, apart from what is reserved and the lifecycle. */
  ghost predicate Alike(a: Budgets, b: Budgets) {
    && a.Keys == b.Keys
    && forall id :: id in a ==> b[id] == a[id].(reserved := b[id].reserved, lifecycle := b[id].lifecycle)
  }

  lemma LoadedAt(budgets: Budgets, id: u64)
    requires id in budgets && forall k :: k in budgets ==> budgets[k].id == k
    ensures id in LoadBudgets(SortedValues(budgets)) && LoadBudgets(SortedValues(budgets))[id] == Reset(budgets[id])
  {
    var keys, bs := SortedKeys(budgets.Keys), SortedValues(budgets);
    assert id in keys;
    var i :| 0 <= i < |keys| && keys[i] == id;
    forall j | 0 <= j < i ensures bs[..i][j].id != id {
      assert bs[j] == budgets[keys[j]] && keys[j] < keys[i];
    }
    LoadedFirst(bs, i);
  }

  lemma LoadedAlike(budgets: Budgets)
    requires forall id :: id in budgets ==> budgets[id].id == id
    ensures Alike(budgets, LoadBudgets(SortedValues(budgets)))
  {
    var keys, bs := SortedKeys(budgets.Keys), SortedValues(budgets);
    forall id | id in budgets ensures id in LoadBudgets(bs) && LoadBudgets(bs)[id] == Reset(budgets[id]) {
      LoadedAt(budgets, id);
    }
    forall id | id in LoadBudgets(bs) ensures id in budgets {
      LoadedKeys(bs, id);
      var i :| 0 <= i < |bs| && bs[i].id == id;
      assert bs[i] == budgets[keys[i]] && keys[i] in keys;
    }
  }

  // ---- evaluation sees only what is kept --------------------------------------------------

  lemma {:induction false} GateAlike(a: Budgets, b: Budgets, order: seq<u64>, e: PlanEconomics)
    requires Alike(a, b) && Listed(order, a) && Listed(order, b)
    ensures Gate(a, order, e) == Gate(b, order, e)
  {
    if |order| > 0 {
      assert order[0] in a;
      GateAlike(a, b, order[1..], e);
    }
  }

  lemma {:induction false} StateAlike(policy: CostPolicy, a: Budgets, b: Budgets, order: seq<u64>, total: i64,
                                      state: CostState)
    requires Alike(a, b) && Listed(order, a) && Listed(order, b)
    ensures StateFrom(policy, a, order, total, state) == StateFrom(policy, b, order, total, state)
    decreases |order|
  {
    if |order| > 0 {
      assert order[0] in a;
      StateAlike(policy, a, b, order[1..], total, state);
      StateAlike(policy, a, b, order[1..], total, AtRisk);
      StateAlike(policy, a, b, order[1..], total, NearBudget);
    }
  }

  lemma {:induction false} RemainingAlike(a: Budgets, b: Budgets, order: seq<u64>)
    requires Alike(a, b) && Listed(order, a) && Listed(order, b)
    ensures FirstRemaining(a, order) == FirstRemaining(b, order)
  {
    if |order| > 0 {
      assert order[0] in a;
      RemainingAlike(a, b, order[1..]);
    }
  }

  lemma PlanAlike(x: Economy, a: Budgets, b: Budgets, order: seq<u64>, p: ExecutionPlan)
    requires Alike(a, b) && Listed(order, a) && Listed(order, b)
    ensures EvaluatePlan(x, a, order, p) == EvaluatePlan(x, b, order, p)
  {
    if BaseEconomics(x, p).Ok? { GateAlike(a, b, order, BaseEconomics(x, p).value); }
  }

  lemma {:induction false} AllAlike(f: Evaluator, g: Evaluator, plans: seq<ExecutionPlan>)
    requires forall p :: p in plans ==> f(p) == g(p)
    ensures EvaluateAll(f, plans) == EvaluateAll(g, plans)
  {
    if |plans| > 0 {
      var before := plans[..|plans| - 1];
      assert forall p :: p in before ==> p in plans;
      assert plans[|plans| - 1] in plans;
      AllAlike(f, g, before);
    }
  }

  /** A decision with the boot of its worker blanked: a restart forgets boots. */
  function ForgetBoot(r: Result<CostDecision>): Result<CostDecision> {
    match r
    case Err(error) => Err(error)
    case Ok(d) => Ok(d.(authority := d.authority.(boot := 0)))
  }

  /** Same prices and policy, alike budgets, no known boots. */
  ghost predicate Resumes(g: Governor, g': Governor) {
    && g'.policy == g.policy && g'.schedule == g.schedule && g'.epoch == g.epoch && g'.revalidation == g.revalidation
    && Alike(g.budgets, g'.budgets) && g'.boots == map[]
  }

  lemma CandidatesResume(g: Governor, g': Governor, now: i64, order: seq<u64>, plans: seq<ExecutionPlan>)
    requires Resumes(g, g') && Listed(order, g.budgets) && Listed(order, g'.budgets)
    ensures EvaluateAll(EvaluatorAt(g, now, order), plans) == EvaluateAll(EvaluatorAt(g', now, order), plans)
  {
    forall p | p in plans ensures EvaluatorAt(g, now, order)(p) == EvaluatorAt(g', now, order)(p) {
      PlanAlike(g.Economy(now), g.budgets, g'.budgets, order, p);
    }
    AllAlike(EvaluatorAt(g, now, order), EvaluatorAt(g', now, order), plans);
  }

  lemma EvaluateResumes(g: Governor, g': Governor, now: i64, order: seq<u64>, workloadGeneration: u64,
                        plans: seq<ExecutionPlan>)
    requires Resumes(g, g') && Listed(order, g.budgets) && Listed(order, g'.budgets)
    ensures Evaluate(g', now, order, workloadGeneration, plans) ==
              ForgetBoot(Evaluate(g, now, order, workloadGeneration, plans))
  {
    CandidatesResume(g, g', now, order, plans);
    RemainingAlike(g.budgets, g'.budgets, order);
    var candidates := EvaluateAll(EvaluatorAt(g, now, order), plans);
    if candidates.Ok? && |FeasibleOf(candidates.value)| > 0 {
      var best := StableSort(FeasibleOf(candidates.value), Better)[0];
      StateAlike(g.policy, g.budgets, g'.budgets, order, best.econ.projected.total, WithinBudget);
    }
  }

  // ---- restart transparency ---------------------------------------------------------------

  /** Save `g`, read the octets back into the fresh governor `g0`, and set the schedule again. */
  ghost predicate IsRestart(g: Governor, g0: Governor, order: seq<u64>, octets: Bytes, g': Governor) {
    && (forall i :: 0 <= i < |order| ==> order[i] in g.interventions)
    && Encode(Persist(g, order)) == Ok(octets)
    && Decode(octets).Ok?
    && g' == SetPriceSchedule(Load(g0, Decode(octets).value), g.schedule)
  }

  lemma RestartResumes(g: Governor, g0: Governor, order: seq<u64>, octets: Bytes, g': Governor)
    requires Keyed(g) && !g.revalidation && g0.boots == map[] && IsRestart(g, g0, order, octets, g')
    requires InBounds(Persist(g, order))
    ensures Resumes(g, g')
  {
    RoundTrip(Persist(g, order));
    LoadedAlike(g.budgets);
  }

  /** `order` lists every intervention once, and each is filed under its own identity. */
  predicate ListsInterventions(m: map<u64, InterventionEntry>, order: seq<u64>) {
    && (forall i :: 0 <= i < |order| ==> order[i] in m)
    && (forall id :: id in m ==> id in order && m[id].id == id)
    && (forall i, j :: 0 <= i < j < |order| ==> order[i] != order[j])
  }

  lemma {:induction false} InterventionsBack(m: map<u64, InterventionEntry>, order: seq<u64>, n: nat)
    requires ListsInterventions(m, order) && n <= |order|
    ensures LoadInterventions(ValuesAt(m, order)[..n]) == map id | id in m && id in order[..n] :: m[id]
  {
    if n > 0 {
      var entries := ValuesAt(m, order);
      assert entries[..n][..n - 1] == entries[..n - 1];
      assert order[..n] == order[..n - 1] + [order[n - 1]];
      InterventionsBack(m, order, n - 1);
    }
  }

  lemma AllInterventionsBack(m: map<u64, InterventionEntry>, order: seq<u64>)
    requires ListsInterventions(m, order)
    ensures LoadInterventions(ValuesAt(m, order)) == m
  {
    InterventionsBack(m, order, |order|);
    assert ValuesAt(m, order)[..|order|] == ValuesAt(m, order) && order[..|order|] == order;
  }

  /** Everything durable comes back as it was: epoch, policy, prices, history and interventions. */
  lemma RestartKeepsRecords(g: Governor, g0: Governor, order: seq<u64>, octets: Bytes, s: DurableSnapshot)
    requires ListsInterventions(g.interventions, order) && InBounds(Persist(g, order))
    requires Encode(Persist(g, order)) == Ok(octets) && Decode(octets) == Ok(s)
    ensures var g' := Load(g0, s);
            && g'.epoch == g.epoch && g'.policy == g.policy && g'.schedule == g.schedule
            && g'.history == g.history && g'.interventions == g.interventions
  {
    RoundTrip(Persist(g, order));
    AllInterventionsBack(g.interventions, order);
  }

  lemma AlikeOrder(a: Budgets, b: Budgets, order: seq<u64>)
    requires Alike(a, b) && Listed(order, a)
    ensures Listed(order, b)
  {}

  /** A restart is invisible to evaluation: walking the budgets in the same order, every evaluation
  returns the same decision or throws the same exception, only without a worker boot. */
  lemma RestartIsTransparent(g: Governor, g0: Governor, saved: seq<u64>, octets: Bytes, g': Governor,
                             now: i64, order: seq<u64>, workloadGeneration: u64, plans: seq<ExecutionPlan>)
    requires Keyed(g) && !g.revalidation && g0.boots == map[] && IsRestart(g, g0, saved, octets, g')
    requires InBounds(Persist(g, saved)) && Listed(order, g.budgets)
    ensures Listed(order, g'.budgets)
    ensures Evaluate(g', now, order, workloadGeneration, plans) ==
              ForgetBoot(Evaluate(g, now, order, workloadGeneration, plans))
  {
    RestartResumes(g, g0, saved, octets, g');
    AlikeOrder(g.budgets, g'.budgets, order);
    EvaluateResumes(g, g', now, order, workloadGeneration, plans);
  }

  /** The hash map of a restarted process may be walked in another order: the evaluation still throws the
  same, or returns the same kind, plan, projection, rejected plans and authority. */
  lemma RestartKeepsChoice(g: Governor, g0: Governor, saved: seq<u64>, octets: Bytes, g': Governor,
                           now: i64, order: seq<u64>, order': seq<u64>, workloadGeneration: u64,
                           plans: seq<ExecutionPlan>)
    requires Keyed(g) && !g.revalidation && g0.boots == map[] && IsRestart(g, g0, saved, octets, g')
    requires InBounds(Persist(g, saved)) && AllPayable(g.budgets)
    requires IsOrder(order, g.budgets) && IsOrder(order', g'.budgets)
    ensures SameDecision(ForgetBoot(Evaluate(g, now, order, workloadGeneration, plans)),
                         Evaluate(g', now, order', workloadGeneration, plans))
  {
    RestartResumes(g, g0, saved, octets, g');
    ChoiceResumes(g, g', now, order, order', workloadGeneration, plans);
  }

  lemma AlikeIsOrder(a: Budgets, b: Budgets, order: seq<u64>)
    requires Alike(a, b) && IsOrder(order, a)
    ensures IsOrder(order, b)
  {
    forall i | 0 <= i < |order| ensures order[i] in b { assert order[i] in a; }
    forall id | id in b ensures id in order { assert id in a; }
  }

  lemma ChoiceResumes(g: Governor, g': Governor, now: i64, order: seq<u64>, order': seq<u64>,
                      workloadGeneration: u64, plans: seq<ExecutionPlan>)
    requires Resumes(g, g') && AllPayable(g.budgets) && IsOrder(order, g.budgets) && IsOrder(order', g'.budgets)
    ensures SameDecision(ForgetBoot(Evaluate(g, now, order, workloadGeneration, plans)),
                         Evaluate(g', now, order', workloadGeneration, plans))
  {
    AlikeIsOrder(g.budgets, g'.budgets, order);
    EvaluateResumes(g, g', now, order, workloadGeneration, plans);
    forall id | id in g'.budgets && g'.budgets[id].mode == HARD ensures Payable(g'.budgets[id]) {
      assert id in g.budgets;
    }
    EvaluateOrderFree(g', now, order, order', workloadGeneration, plans);
  }

  // ---- until prices are back ----------------------------------------------------------------

  lemma StepKeepsWaiting(w: World, op: Op)
    requires w.g.revalidation && !(op.DoPublish? && PublishPrice(w.g, op.observation).1 == OK)
    ensures Step(w, op).g.revalidation
  {}

  /** No price has been accepted in the run. */
  predicate NoPriceAccepted(w: World, ops: seq<Op>) {
    forall i :: 0 <= i < |ops| ==> !(ops[i].DoPublish? && PublishPrice(Run(w, ops[..i]).g, ops[i].observation).1 == OK)
  }

  lemma {:induction false} RunKeepsWaiting(w: World, ops: seq<Op>)
    requires w.g.revalidation && NoPriceAccepted(w, ops)
    ensures Run(w, ops).g.revalidation
  {
    if |ops| > 0 {
      var before := ops[..|ops| - 1];
      forall i | 0 <= i < |before|
        ensures !(before[i].DoPublish? && PublishPrice(Run(w, before[..i]).g, before[i].observation).1 == OK)
      {
        assert before[..i] == ops[..i];
      }
      RunKeepsWaiting(w, before);
      StepKeepsWaiting(Run(w, before), ops[|ops| - 1]);
    }
  }

  /** After a load, and whatever happens next short of an accepted price, every evaluation asks for
  revalidation and no authorization can be dispatched. */
  lemma NothingBeforePrices(g0: Governor, s: DurableSnapshot, handles: seq<Reservation>, direct: map<u64, int>,
                            start: i64, ops: seq<Op>, now: i64, order: seq<u64>, workloadGeneration: u64,
                            plans: seq<ExecutionPlan>, d: CostDecision)
    requires var w := World(Load(g0, s), handles, start, direct);
             NoPriceAccepted(w, ops) && Listed(order, Run(w, ops).g.budgets)
    ensures var g := Run(World(Load(g0, s), handles, start, direct), ops).g;
            && Evaluate(g, now, order, workloadGeneration, plans) ==
                 Ok(NoDecision(Revalidate, STALE_EVIDENCE, NoReason))
            && (d.kind == Authorize ==>
                  ValidateForDispatch(g, now, order, d, plans) in {Ok(STALE_AUTHORITY), Ok(STALE_EVIDENCE)})
  {
    RunKeepsWaiting(World(Load(g0, s), handles, start, direct), ops);
  }

  // ---- the coordinator's restart --------------------------------------------------------------

  /** What the coordinator does with a saved state: its built-in policy, the load, and a new epoch. */
  function Reboot(g0: Governor, policy: CostPolicy, s: DurableSnapshot): Governor {
    AdvanceEpoch(Load(SetPolicy(g0, policy), s))
  }

  /** Handles issued before the saved state are inert for ever after a reboot from it. */
  lemma RebootFencesHandles(g0: Governor, policy: CostPolicy, s: DurableSnapshot, start: i64, ops: seq<Op>,
                            h: Reservation, now: i64)
    requires h.epoch <= s.epoch && s.epoch + |ops| < U64_MAX && s.schedule.generation + |ops| < U64_MAX
    ensures var g := Run(World(Reboot(g0, policy, s), [], start, map[]), ops).g;
            && Commit(g, now, h).g == g && Commit(g, now, h).handle == h
            && Release(g, h).g == g && Release(g, h).handle == h
  {
    var w := World(Load(SetPolicy(g0, policy), s), [], start, map[]);
    RebootIsStep(g0, policy, s, start);
    RunFrom(w, DoAdvanceEpoch, ops);
    OldReservationsAreInert(w, ops, h, now);
  }

  lemma RebootIsStep(g0: Governor, policy: CostPolicy, s: DurableSnapshot, start: i64)
    ensures var w := World(Load(SetPolicy(g0, policy), s), [], start, map[]);
            && Step(w, DoAdvanceEpoch) == World(Reboot(g0, policy, s), [], start, map[])
            && w.g.epoch == s.epoch && w.g.schedule.generation == s.schedule.generation
  {}

  /** So are the authorizations given up to the saved epoch, also those under prices accepted after the last
  save: they are stale at any time after the reboot. */
  lemma RebootFencesDecisions(g0: Governor, policy: CostPolicy, s: DurableSnapshot, start: i64, ops: seq<Op>,
                              d: CostDecision, now: i64, order: seq<u64>, plans: seq<ExecutionPlan>)
    requires d.kind == Authorize && d.authority.epoch <= s.epoch
    requires s.epoch + |ops| < U64_MAX && s.schedule.generation + |ops| < U64_MAX
    requires Listed(order, Run(World(Reboot(g0, policy, s), [], start, map[]), ops).g.budgets)
    ensures ValidateForDispatch(Run(World(Reboot(g0, policy, s), [], start, map[]), ops).g, now, order, d, plans) ==
              Ok(STALE_AUTHORITY)
  {
    var w := World(Load(SetPolicy(g0, policy), s), [], start, map[]);
    RebootIsStep(g0, policy, s, start);
    RunFrom(w, DoAdvanceEpoch, ops);
    RunGrows(Step(w, DoAdvanceEpoch), ops);
  }

  /** A reboot gets a later epoch than the previous one exactly when the saved epoch moved in between;
  two reboots from states saved at one epoch share theirs. */
  lemma RebootEpochs(g0: Governor, g1: Governor, policy: CostPolicy, first: DurableSnapshot, second: DurableSnapshot)
    requires first.epoch <= second.epoch < U64_MAX
    ensures Reboot(g0, policy, first).epoch < Reboot(g1, policy, second).epoch <==> first.epoch != second.epoch
    ensures first.epoch == second.epoch ==> Reboot(g0, policy, first).epoch == Reboot(g1, policy, second).epoch
  {}
}
