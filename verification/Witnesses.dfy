/** Runs from a new governor that reach the states in which a promise one might expect does not hold. */
module Witnesses {
  import opened Types
  import opened Planning
  import opened Ranking
  import opened Freshness
  import opened GovernorModel
  import opened Ledger
  import opened Closure
  import opened Orders
  import opened Sessions
  import opened Interleaving

  /** A hard budget of the default policy, as a caller would hand it in. */
  function BudgetOf(limit: i64): Budget {
    Budget(1, 1, 1, 1, DEFAULT_POLICY.currency, HARD, 0, limit, CREATED, 0, 0, 0, 0, 0, POLICY)
  }

  function Start(): World {
    World(New(), [], 0, map[])
  }

  lemma RunPush(w: World, ops: seq<Op>, op: Op)
    ensures Run(w, ops + [op]) == Step(Run(w, ops), op)
  {
    assert (ops + [op])[..|ops|] == ops;
  }

  lemma RunThree(w: World, a: Op, b: Op, c: Op)
    ensures Run(w, [a, b, c]) == Step(Step(Step(w, a), b), c)
  {
    assert [] + [a] == [a] && [a] + [b] == [a, b] && [a, b] + [c] == [a, b, c];
    RunPush(w, [], a);
    RunPush(w, [a], b);
    RunPush(w, [a, b], c);
  }

  lemma RunFour(w: World, a: Op, b: Op, c: Op, d: Op)
    ensures Run(w, [a, b, c, d]) == Step(Step(Step(Step(w, a), b), c), d)
  {
    assert [a, b, c] + [d] == [a, b, c, d];
    RunThree(w, a, b, c);
    RunPush(w, [a, b, c], d);
  }

  function Opened(b: Budget, reserved: i64, consumed: i64, released: i64, lifecycle: u8): Budget {
    b.(reserved := reserved, consumed := consumed, released := released, lifecycle := lifecycle)
  }

  function Handle(id: u64, amount: i64, state: ReservationState): Reservation {
    Reservation(id, 1, 1, 1, amount, 0, 0, state)
  }

  /** The one budget, the reservations made so far and the next number. */
  predicate Holds(w: World, b: Budget, handles: seq<Reservation>, next: u64) {
    && w.g.budgets == map[1 := b] && w.handles == handles && w.g.nextReservation == next
    && w.g.epoch == 1 && w.now == 0 && b.id == b.generation == b.epoch == 1 && b.expiresAt == 0
  }

  lemma CreateHolds(limit: i64)
    requires limit >= 0
    ensures Holds(Step(Start(), DoCreate(BudgetOf(limit))), Opened(BudgetOf(limit), 0, 0, 0, ACTIVE), [], 1)
  {}

  lemma ReserveHolds(w: World, b: Budget, handles: seq<Reservation>, next: u64, amount: i64)
    requires Holds(w, b, handles, next) && b.IsLive() && 0 <= amount && b.reserved + amount <= b.limit && next < U64_MAX
    ensures Holds(Step(w, DoReserve(1, 1, 1, amount)), b.(reserved := b.reserved + amount, lifecycle := RESERVED),
                  handles + [Handle(next, amount, Active)], next + 1)
    ensures AnyActive(CopiesOf(Step(w, DoReserve(1, 1, 1, amount)).g, 1))
  {
    var copies := CopiesOf(Step(w, DoReserve(1, 1, 1, amount)).g, 1);
    assert copies[|copies| - 1] == Handle(next, amount, Active);
  }

  lemma ReleaseHolds(w: World, b: Budget, handles: seq<Reservation>, next: u64, i: nat, id: u64, amount: i64)
    requires Holds(w, b, handles, next) && i < |handles| && handles[i] == Handle(id, amount, Active)
    requires 0 <= amount && I64_MIN <= b.reserved - amount && b.released + amount <= I64_MAX
             && AnyActive(CopiesOf(w.g, 1))
    ensures Holds(Step(w, DoRelease(i)), Opened(b, b.reserved - amount, b.consumed, b.released + amount, RESERVED),
                  handles[i := Handle(id, amount, Released)], next)
  {
    ReleaseStep(w, i);
  }

  lemma ConsumeHolds(w: World, b: Budget, handles: seq<Reservation>, next: u64, amount: i64)
    requires Holds(w, b, handles, next) && b.IsLive() && 0 <= amount && 0 <= b.consumed
             && b.consumed + amount == b.limit
    ensures Holds(Step(w, DoConsume(1, 1, 1, amount)), b.(consumed := b.limit, lifecycle := EXHAUSTED), handles, next)
    ensures CopiesOf(Step(w, DoConsume(1, 1, 1, amount)).g, 1) == CopiesOf(w.g, 1)
  {
    ConsumeStep(w, 1, 1, 1, amount);
  }

  /** Reserve the whole limit, release it, and reserve one again. */
  function StrandOps(limit: i64): seq<Op> {
    [DoCreate(BudgetOf(limit)), DoReserve(1, 1, 1, limit), DoRelease(0), DoReserve(1, 1, 1, 1)]
  }

  lemma StrandMiddle(limit: i64) returns (w: World, b: Budget)
    requires limit >= 1
    ensures w == Step(Step(Start(), DoCreate(BudgetOf(limit))), DoReserve(1, 1, 1, limit))
    ensures Holds(w, b, [Handle(1, limit, Active)], 2) && b.reserved == b.limit == limit && b.released == 0
    ensures AnyActive(CopiesOf(w.g, 1))
  {
    var w1 := Step(Start(), DoCreate(BudgetOf(limit)));
    CreateHolds(limit);
    ReserveHolds(w1, Opened(BudgetOf(limit), 0, 0, 0, ACTIVE), [], 1, limit);
    w := Step(w1, DoReserve(1, 1, 1, limit));
    b := Opened(BudgetOf(limit), 0, 0, 0, ACTIVE).(reserved := limit, lifecycle := RESERVED);
  }

  lemma StrandState(limit: i64) returns (w: World, b: Budget)
    requires limit >= 1
    ensures w == Run(Start(), StrandOps(limit))
    ensures Holds(w, b, [Handle(1, limit, Released), Handle(2, 1, Active)], 3) && b.released == limit
  {
    RunFour(Start(), DoCreate(BudgetOf(limit)), DoReserve(1, 1, 1, limit), DoRelease(0), DoReserve(1, 1, 1, 1));
    var w2, b2 := StrandMiddle(limit);
    var one, two := [Handle(1, limit, Active)], [Handle(1, limit, Released)];
    ReleaseHolds(w2, b2, one, 2, 0, 1, limit);
    assert one[0 := Handle(1, limit, Released)] == two;
    var w3, b3 := Step(w2, DoRelease(0)), Opened(b2, 0, b2.consumed, limit, RESERVED);
    ReserveHolds(w3, b3, two, 2, 1);
    w, b := Step(w3, DoReserve(1, 1, 1, 1)), b3.(reserved := 1, lifecycle := RESERVED);
  }

  lemma StrandKept(limit: i64)
    requires limit >= 1
    ensures Conserved(Run(Start(), StrandOps(limit)))
  {
    RunFour(Start(), DoCreate(BudgetOf(limit)), DoReserve(1, 1, 1, limit), DoRelease(0), DoReserve(1, 1, 1, 1));
    FreshIsConserved(New(), 0);
    CreateConserves(Start(), BudgetOf(limit));
    ReserveConserves(Step(Start(), DoCreate(BudgetOf(limit))), 1, 1, 1, limit);
    var w2, b2 := StrandMiddle(limit);
    ReleaseConserves(w2, 0);
    ReserveConserves(Step(w2, DoRelease(0)), 1, 1, 1, 1);
  }

  /** After the whole 64-bit range was released there is no room to release one more: the account is kept
  up to there, and the next release breaks it. */
  lemma StrandReached()
    ensures var w := Run(Start(), StrandOps(I64_MAX));
            Conserved(w) && Strands(w, DoRelease(1)) && !Conserved(Step(w, DoRelease(1)))
  {
    var w, b := StrandState(I64_MAX);
    StrandKept(I64_MAX);
    StepConserves(w, DoRelease(1));
  }

  /** A budget of ten, five reserved, ten consumed directly: exhausted, and reopened by the release. */
  lemma ReopeningReached()
    ensures var w := Run(Start(), [DoCreate(BudgetOf(10)), DoReserve(1, 1, 1, 5), DoConsume(1, 1, 1, 10)]);
            TerminalAt(w.g, 1) && !TerminalAt(Step(w, DoRelease(0)).g, 1)
  {
    var made := Opened(BudgetOf(10), 0, 0, 0, ACTIVE);
    RunThree(Start(), DoCreate(BudgetOf(10)), DoReserve(1, 1, 1, 5), DoConsume(1, 1, 1, 10));
    CreateHolds(10);
    var w1 := Step(Start(), DoCreate(BudgetOf(10)));
    ReserveHolds(w1, made, [], 1, 5);
    var w2, b2 := Step(w1, DoReserve(1, 1, 1, 5)), made.(reserved := 5, lifecycle := RESERVED);
    assert [] + [Handle(1, 5, Active)] == [Handle(1, 5, Active)];
    ConsumeHolds(w2, b2, [Handle(1, 5, Active)], 2, 10);
    ReleaseHolds(Step(w2, DoConsume(1, 1, 1, 10)), b2.(consumed := 10, lifecycle := EXHAUSTED),
                 [Handle(1, 5, Active)], 2, 0, 1, 5);
  }

  // ---- two walks of the budgets -----------------------------------------------------------

  /** A budget of nothing, one that comes with a negative consumption, and a price: all three are accepted. */
  function MixedOps(): (Op, Op, Op) {
    (DoCreate(BudgetOf(0)), DoCreate(BudgetOf(I64_MAX).(id := 2, consumed := -1)), DoPublish(SecondPrice()))
  }

  lemma MixedState() returns (w: World)
    ensures var (a, b, c) := MixedOps(); w == Run(Start(), [a, b, c])
    ensures w.g.budgets == map[1 := BudgetOf(0).(lifecycle := ACTIVE),
                               2 := BudgetOf(I64_MAX).(id := 2, consumed := -1, lifecycle := ACTIVE)]
    ensures w.g.schedule.observations == [SecondPrice()] && w.g.policy == DEFAULT_POLICY
    ensures !w.g.revalidation && w.now == 0
  {
    var (a, b, c) := MixedOps();
    RunThree(Start(), a, b, c);
    var one := Step(Start(), a);
    assert one.g.budgets == map[1 := BudgetOf(0).(lifecycle := ACTIVE)];
    var two := Step(one, b);
    assert two.g.schedule.observations == [] && two.g.policy == DEFAULT_POLICY && two.g.epoch == 1;
    w := Step(two, c);
  }

  /** The walk that meets budget 1 first refuses the plan, the one that meets budget 2 first throws. */
  predicate WalksDiffer(x: Economy, budgets: Budgets, p: ExecutionPlan) {
    && IsOrder([1, 2], budgets) && IsOrder([2, 1], budgets)
    && EvaluatePlan(x, budgets, [1, 2], p).Ok?
    && EvaluatePlan(x, budgets, [1, 2], p).value.feasible == Infeasible
    && EvaluatePlan(x, budgets, [2, 1], p) == Err(Overflow)
  }

  lemma MixedWalks(x: Economy, budgets: Budgets, p: ExecutionPlan)
    requires BaseFeasible(x, p) && budgets.Keys == {1, 2}
    requires Refuses(budgets[1], PlanTotal(x, p)) && Breaks(budgets[2])
    ensures WalksDiffer(x, budgets, p) && !OrderFree(x, budgets, p)
  {
    assert [1, 2][0] == 1 && [1, 2][1] == 2 && [2, 1][0] == 2 && [2, 1][1] == 1;
    GateBlocked(budgets, [1, 2], BaseEconomics(x, p).value);
    GateBlocked(budgets, [2, 1], BaseEconomics(x, p).value);
    PlanOrderFreeExactly(x, budgets, [1, 2], p);
  }

  /** A plan of one micro is refused by the first budget and throws at the second, so two walks of the budgets
  evaluate it differently. */
  lemma MixedReached()
    ensures var (a, b, c) := MixedOps(); var w := Run(Start(), [a, b, c]);
            && WalksDiffer(w.g.Economy(w.now), w.g.budgets, RecomputingPlan())
            && !OrderFree(w.g.Economy(w.now), w.g.budgets, RecomputingPlan())
  {
    var w := MixedState();
    RecomputationPriced(w.g.Economy(w.now));
    MixedWalks(w.g.Economy(w.now), w.g.budgets, RecomputingPlan());
  }

  // ---- a charge after an epoch advance ----------------------------------------------------

  /** A budget of the first epoch is charged in the second. */
  lemma DirectChargeReached()
    ensures var w := Run(Start(), [DoCreate(BudgetOf(10)), DoAdvanceEpoch, DoConsume(1, 1, 1, 5)]);
            w.g.epoch == 2 && 1 in w.g.budgets && w.g.budgets[1].epoch == 1 && w.g.budgets[1].consumed == 5
  {
    RunThree(Start(), DoCreate(BudgetOf(10)), DoAdvanceEpoch, DoConsume(1, 1, 1, 5));
    CreateHolds(10);
  }

  // ---- two sessions -----------------------------------------------------------------------

  function NewCoordinator(): Coordinator {
    Coordinator(New(), 0, Desk(map[], map[]))
  }

  lemma MovesPush(c: Coordinator, moves: seq<Move>, m: Move)
    ensures RunMoves(c, moves + [m]) == Advance(RunMoves(c, moves), m)
  {
    assert (moves + [m])[..|moves|] == moves;
  }

  /** One reservation is made, and two sessions look it up, each to commit or to release it. */
  function RaceMoves(first: bool, second: bool): seq<Move> {
    [Atomic(DoCreate(BudgetOf(20))), Reserving(0, 1, 1, 1, 5), Inserting(0), LookingUp(0, 1, first),
     LookingUp(1, 1, second)]
  }

  lemma RaceState(first: bool, second: bool) returns (c: Coordinator)
    ensures c == RunMoves(NewCoordinator(), RaceMoves(first, second))
    ensures c.g.budgets == map[1 := Opened(BudgetOf(20), 5, 0, 0, RESERVED)] && c.g.epoch == 1 && c.now == 0
    ensures c.desk.At(0) == Looked(1, Handle(1, 5, Active), first)
    ensures c.desk.At(1) == Looked(1, Handle(1, 5, Active), second)
  {
    var ms, b := RaceMoves(first, second), BudgetOf(20);
    assert ms[..1] == [] + [ms[0]] && ms[..2] == ms[..1] + [ms[1]] && ms[..3] == ms[..2] + [ms[2]];
    assert ms[..4] == ms[..3] + [ms[3]] && ms == ms[..4] + [ms[4]];
    MovesPush(NewCoordinator(), [], ms[0]);
    MovesPush(NewCoordinator(), ms[..1], ms[1]);
    MovesPush(NewCoordinator(), ms[..2], ms[2]);
    MovesPush(NewCoordinator(), ms[..3], ms[3]);
    MovesPush(NewCoordinator(), ms[..4], ms[4]);
    var c1 := Advance(NewCoordinator(), ms[0]);
    assert c1.g.budgets == map[1 := Opened(b, 0, 0, 0, ACTIVE)];
    var c2 := Advance(c1, ms[1]);
    assert c2.g.budgets == map[1 := Opened(b, 5, 0, 0, RESERVED)] && c2.desk.At(0) == Holding(Handle(1, 5, Active));
    var c3 := Advance(c2, ms[2]);
    assert c3.desk.table == map[1 := Handle(1, 5, Active)];
    c := Advance(Advance(c3, ms[3]), ms[4]);
  }

  /** One reservation of five is charged twice: ten are consumed. */
  lemma DoubleChargeReached()
    ensures var moves := RaceMoves(true, true) + [Calling(0)];
            var c, c' := RunMoves(NewCoordinator(), moves), RunMoves(NewCoordinator(), moves + [Calling(1)]);
            && Charges(RunMoves(NewCoordinator(), RaceMoves(true, true)), Calling(0), 1) && Charges(c, Calling(1), 1)
            && 1 in c'.g.budgets && c'.g.budgets[1].consumed == 10
  {
    var c := RaceState(true, true);
    var moves := RaceMoves(true, true);
    MovesPush(NewCoordinator(), moves, Calling(0));
    MovesPush(NewCoordinator(), moves + [Calling(0)], Calling(1));
    OverlapChargesTwice(c, 0, 1, 1, Handle(1, 5, Active));
  }

  /** Whether each session commits or releases, the reservation of five is taken off twice: reserved falls to
  minus five. */
  lemma DoubleLoweringReached(first: bool, second: bool)
    ensures var c := RunMoves(NewCoordinator(), RaceMoves(first, second) + [Calling(0)] + [Calling(1)]);
            1 in c.g.budgets && c.g.budgets[1].reserved == -5
  {
    var c := RaceState(first, second);
    var moves := RaceMoves(first, second);
    MovesPush(NewCoordinator(), moves, Calling(0));
    MovesPush(NewCoordinator(), moves + [Calling(0)], Calling(1));
    OverlapLowersTwice(c, 0, 1, 1, Handle(1, 5, Active), first, second);
  }
}
