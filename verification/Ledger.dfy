/** Runs of the governor together with the callers' reservations, and what every run conserves.

A reservation is the caller's own struct: the governor keeps only a copy that it never updates. The
world therefore holds one entry per issued reservation, which `commit` and `release` change in
place, and a running account of the direct charges.
 */
module Ledger {
  import opened Types
  import opened Sums
  import opened GovernorModel

  datatype World = World(g: Governor, handles: seq<Reservation>, now: i64, direct: map<u64, int>)

  datatype Op =
    | DoCreate(budget: Budget)
    | DoReserve(id: u64, generation: u64, epoch: u64, amount: i64)
    | DoCommit(handle: nat)
    | DoRelease(handle: nat)
    | DoConsume(id: u64, generation: u64, epoch: u64, amount: i64)
    | DoAdvanceEpoch
    | DoSetBoot(worker: u64, boot: u64)
    | DoPublish(observation: PriceObservation)
    | DoRecord(evidence: CostEvidence)
    | DoFinalize(request: u64, workload: u64)
    | DoTick(time: i64)

  function DirectOf(w: World, id: u64): int {
    if id in w.direct then w.direct[id] else 0
  }

  function Step(w: World, op: Op): World {
    match op
    case DoCreate(b) => w.(g := CreateBudget(w.g, b).0)
    case DoReserve(id, generation, epoch, amount) =>
      var (g, _, handle) := Reserve(w.g, w.now, id, generation, epoch, amount);
      w.(g := g, handles := if handle.Some? then w.handles + [handle.value] else w.handles)
    case DoCommit(h) =>
      if h >= |w.handles| then w
      else
        var c := Commit(w.g, w.now, w.handles[h]);
        w.(g := c.g, handles := w.handles[h := c.handle])
    case DoRelease(h) =>
      if h >= |w.handles| then w
      else
        var c := Release(w.g, w.handles[h]);
        w.(g := c.g, handles := w.handles[h := c.handle])
    case DoConsume(id, generation, epoch, amount) =>
      var (g, outcome) := Consume(w.g, w.now, id, generation, epoch, amount);
      w.(g := g, direct := if outcome == Returned(OK) then w.direct[id := DirectOf(w, id) + amount] else w.direct)
    case DoAdvanceEpoch => w.(g := AdvanceEpoch(w.g))
    case DoSetBoot(worker, boot) => w.(g := SetWorkerBoot(w.g, worker, boot))
    case DoPublish(o) => w.(g := PublishPrice(w.g, o).0)
    case DoRecord(e) => w.(g := RecordAttempt(w.g, e).0)
    case DoFinalize(request, workload) => w.(g := FinalizeRequest(w.g, w.now, request, workload).0)
    case DoTick(time) => w.(now := if time > w.now then time else w.now)
  }

  function Run(w: World, ops: seq<Op>): World {
    if |ops| == 0 then w else Step(Run(w, ops[..|ops| - 1]), ops[|ops| - 1])
  }

  // ---- the account ----------------------------------------------------------------------

  function AmountIn(id: u64, state: ReservationState): Reservation -> int {
    (h: Reservation) => if h.budget == id && h.state == state then h.amount else 0
  }

  /** The reserved money of one budget that is in one state, over all reservations. */
  function Held(handles: seq<Reservation>, id: u64, state: ReservationState): int {
    Sum(handles, AmountIn(id, state))
  }

  /** A reservation as `reserve` issued it, apart from its state. */
  predicate HandleSound(b: Budget, copies: seq<Reservation>, h: Reservation) {
    && h.amount >= 0
    && h.expiresAt == b.expiresAt && h.budgetGeneration == b.generation && h.epoch == b.epoch
    && AnyActive(copies)
  }

  predicate Issued(g: Governor, h: Reservation) {
    h.budget in g.budgets && HandleSound(g.budgets[h.budget], CopiesOf(g, h.budget), h)
  }

  /** A budget's counters are the sums over the reservations and the direct charges. */
  predicate Balanced(b: Budget, handles: seq<Reservation>, direct: int) {
    && b.reserved == Held(handles, b.id, Active)
    && b.consumed == Held(handles, b.id, Committed) + direct
    && b.released == Held(handles, b.id, Released) + Held(handles, b.id, Expired)
    && 0 <= b.reserved <= b.limit
    && direct >= 0
  }

  predicate BalancedAt(w: World, id: u64)
    requires id in w.g.budgets
  {
    w.g.budgets[id].id == id && Balanced(w.g.budgets[id], w.handles, DirectOf(w, id))
  }

  predicate AllIssued(w: World) {
    forall i :: 0 <= i < |w.handles| ==> Issued(w.g, w.handles[i])
  }

  predicate AllBalanced(w: World) {
    forall id :: id in w.g.budgets ==> BalancedAt(w, id)
  }

  predicate Conserved(w: World) {
    AllIssued(w) && AllBalanced(w) && w.direct.Keys <= w.g.budgets.Keys
  }

  /** Budgets enter a run with zero counters. */
  predicate Honest(op: Op) {
    op.DoCreate? ==> op.budget.reserved == op.budget.consumed == op.budget.released == 0
  }

  predicate AllHonest(ops: seq<Op>) {
    forall i :: 0 <= i < |ops| ==> Honest(ops[i])
  }

  // ---- sums under the moves of a run ----------------------------------------------------

  predicate NonNegativeAmounts(handles: seq<Reservation>) {
    forall i :: 0 <= i < |handles| ==> handles[i].amount >= 0
  }

  lemma IssuedAmounts(w: World)
    requires AllIssued(w)
    ensures NonNegativeAmounts(w.handles)
  {}

  lemma HeldBounds(handles: seq<Reservation>, id: u64, state: ReservationState)
    requires NonNegativeAmounts(handles)
    ensures Held(handles, id, state) >= 0
    ensures forall i :: 0 <= i < |handles| && handles[i].budget == id && handles[i].state == state ==>
              handles[i].amount <= Held(handles, id, state)
  {
    SumBounds(handles, AmountIn(id, state));
    forall i | 0 <= i < |handles| && handles[i].budget == id && handles[i].state == state
      ensures handles[i].amount <= Held(handles, id, state)
    {
      assert AmountIn(id, state)(handles[i]) == handles[i].amount;
    }
  }

  lemma {:induction false} HeldNothing(handles: seq<Reservation>, id: u64, state: ReservationState)
    requires forall i :: 0 <= i < |handles| ==> handles[i].budget != id
    ensures Held(handles, id, state) == 0
  {
    if |handles| > 0 { HeldNothing(handles[..|handles| - 1], id, state); }
  }

  /** A new active reservation against `h.budget`. */
  lemma PushBalances(b: Budget, b': Budget, handles: seq<Reservation>, h: Reservation, direct: int)
    requires Balanced(b, handles, direct) && b'.id == b.id && h.state == Active && h.amount >= 0
    requires if h.budget == b.id
             then && b'.reserved == b.reserved + h.amount <= b'.limit
                  && b'.consumed == b.consumed && b'.released == b.released
             else b' == b
    ensures Balanced(b', handles + [h], direct)
  {}

  /** An active reservation that moves to `to`, and its money with it. */
  lemma MoveBalances(b: Budget, b': Budget, handles: seq<Reservation>, i: nat, to: ReservationState, direct: int)
    requires i < |handles| && handles[i].state == Active && to != Active && NonNegativeAmounts(handles)
    requires Balanced(b, handles, direct) && b'.id == b.id && b'.limit == b.limit
    requires var h := handles[i];
             if h.budget == b.id
             then && b'.reserved == b.reserved - h.amount
                  && b'.consumed == (if to == Committed then b.consumed + h.amount else b.consumed)
                  && b'.released == (if to == Committed then b.released else b.released + h.amount)
             else b' == b
    ensures Balanced(b', handles[i := handles[i].(state := to)], direct)
  {
    var h' := handles[i].(state := to);
    HeldBounds(handles, b.id, Active);
    SumUpdate(handles, i, h', AmountIn(b.id, Active));
    SumUpdate(handles, i, h', AmountIn(b.id, Committed));
    SumUpdate(handles, i, h', AmountIn(b.id, Released));
    SumUpdate(handles, i, h', AmountIn(b.id, Expired));
  }

  // ---- one step -------------------------------------------------------------------------

  /** The account reads the budgets, the governor's copies, the reservations and the direct charges. */
  lemma SameAccount(w: World, w': World)
    requires Conserved(w) && w'.handles == w.handles && w'.direct == w.direct
    requires w'.g.budgets == w.g.budgets && w'.g.reservations == w.g.reservations
    ensures Conserved(w')
  {}

  /** Same budget, apart from the counters and the lifecycle. */
  predicate SameTerms(b: Budget, b': Budget) {
    b' == b.(reserved := b'.reserved, consumed := b'.consumed, released := b'.released, lifecycle := b'.lifecycle)
  }

  /** One budget changed, and no reservation. */
  lemma OneBudgetChanged(w: World, w': World, id: u64, b: Budget)
    requires Conserved(w) && w'.handles == w.handles && id in w.g.budgets
    requires w'.g.budgets == w.g.budgets[id := b] && w'.g.reservations == w.g.reservations
    requires SameTerms(w.g.budgets[id], b)
    requires forall j :: j != id ==> DirectOf(w', j) == DirectOf(w, j)
    requires w'.direct.Keys <= w'.g.budgets.Keys
    requires Balanced(b, w.handles, DirectOf(w', id))
    ensures Conserved(w')
  {
    forall i | 0 <= i < |w.handles| ensures Issued(w'.g, w.handles[i]) { assert Issued(w.g, w.handles[i]); }
    forall j | j in w'.g.budgets ensures BalancedAt(w', j) { assert BalancedAt(w, j); }
  }

  lemma CreateConserves(w: World, b: Budget)
    requires Conserved(w) && Honest(DoCreate(b))
    ensures Conserved(Step(w, DoCreate(b)))
  {
    if CreateBudget(w.g, b).1 == OK {
      NewBudgetConserves(w, Step(w, DoCreate(b)), b.(lifecycle := ACTIVE));
    }
  }

  lemma NewBudgetConserves(w: World, w': World, b: Budget)
    requires Conserved(w) && b.id !in w.g.budgets && b.limit >= 0 && b.reserved == b.consumed == b.released == 0
    requires w' == w.(g := w.g.(budgets := w.g.budgets[b.id := b]))
    ensures Conserved(w')
  {
    forall i | 0 <= i < |w.handles| ensures Issued(w'.g, w.handles[i]) && w.handles[i].budget != b.id {
      assert Issued(w.g, w.handles[i]);
    }
    HeldNothing(w.handles, b.id, Active);
    HeldNothing(w.handles, b.id, Committed);
    HeldNothing(w.handles, b.id, Released);
    HeldNothing(w.handles, b.id, Expired);
    forall id | id in w'.g.budgets ensures BalancedAt(w', id) {
      if id != b.id { assert BalancedAt(w, id); }
    }
  }

  lemma PushKeepsActive(copies: seq<Reservation>, h: Reservation)
    ensures AnyActive(copies) || h.state == Active ==> AnyActive(copies + [h])
  {
    if i :| 0 <= i < |copies| && copies[i].state == Active {
      assert (copies + [h])[i].state == Active;
    } else {
      assert (copies + [h])[|copies|] == h;
    }
  }

  lemma IssueConserves(w: World, w': World, h: Reservation, b: Budget)
    requires Conserved(w) && h.budget in w.g.budgets && h.state == Active && h.amount >= 0
    requires w'.handles == w.handles + [h] && w'.direct == w.direct
    requires var o := w.g.budgets[h.budget];
             && SameTerms(o, b) && b.reserved == o.reserved + h.amount <= b.limit
             && b.consumed == o.consumed && b.released == o.released
             && h.expiresAt == o.expiresAt && h.budgetGeneration == o.generation && h.epoch == o.epoch
    requires w'.g.budgets == w.g.budgets[h.budget := b]
    requires w'.g.reservations == w.g.reservations[h.budget := CopiesOf(w.g, h.budget) + [h]]
    ensures Conserved(w')
  {
    PushKeepsActive(CopiesOf(w.g, h.budget), h);
    forall i | 0 <= i < |w'.handles| ensures Issued(w'.g, w'.handles[i]) {
      if i < |w.handles| { assert Issued(w.g, w.handles[i]); }
    }
    forall id | id in w'.g.budgets ensures BalancedAt(w', id) {
      assert BalancedAt(w, id);
      PushBalances(w.g.budgets[id], w'.g.budgets[id], w.handles, h, DirectOf(w, id));
    }
  }

  lemma ReserveEffect(b: Budget, current: u64, now: i64, generation: u64, epoch: u64, amount: i64)
    ensures var (b', outcome) := ReserveIn(b, current, now, generation, epoch, amount);
            && b' == b.(reserved := b'.reserved, lifecycle := b'.lifecycle)
            && (outcome != Returned(OK) ==> b'.reserved == b.reserved)
            && (outcome == Returned(OK) ==>
                 b.generation == generation && b.epoch == epoch && amount >= 0 &&
                 b'.reserved == b.reserved + amount <= b.limit)
  {}

  lemma ReserveConserves(w: World, id: u64, generation: u64, epoch: u64, amount: i64)
    requires Conserved(w)
    ensures Conserved(Step(w, DoReserve(id, generation, epoch, amount)))
  {
    if id in w.g.budgets {
      ReserveEffect(w.g.budgets[id], w.g.epoch, w.now, generation, epoch, amount);
      if ReserveIn(w.g.budgets[id], w.g.epoch, w.now, generation, epoch, amount).1 == Returned(OK) {
        ReserveIssues(w, id, generation, epoch, amount);
      } else {
        ReserveRefuses(w, id, generation, epoch, amount);
      }
    }
  }

  lemma ReserveIssues(w: World, id: u64, generation: u64, epoch: u64, amount: i64)
    requires Conserved(w) && id in w.g.budgets
    requires ReserveIn(w.g.budgets[id], w.g.epoch, w.now, generation, epoch, amount).1 == Returned(OK)
    ensures Conserved(Step(w, DoReserve(id, generation, epoch, amount)))
  {
    var w' := Step(w, DoReserve(id, generation, epoch, amount));
    ReserveEffect(w.g.budgets[id], w.g.epoch, w.now, generation, epoch, amount);
    IssueConserves(w, w', w'.handles[|w.handles|], w'.g.budgets[id]);
  }

  lemma ReserveRefuses(w: World, id: u64, generation: u64, epoch: u64, amount: i64)
    requires Conserved(w) && id in w.g.budgets
    requires ReserveIn(w.g.budgets[id], w.g.epoch, w.now, generation, epoch, amount).1 != Returned(OK)
    ensures Conserved(Step(w, DoReserve(id, generation, epoch, amount)))
  {
    ReserveEffect(w.g.budgets[id], w.g.epoch, w.now, generation, epoch, amount);
    var b := ReserveIn(w.g.budgets[id], w.g.epoch, w.now, generation, epoch, amount).0;
    LifecycleConserves(w, w.(g := w.g.(budgets := w.g.budgets[id := b])), id, b);
  }

  lemma LifecycleConserves(w: World, w': World, id: u64, b: Budget)
    requires Conserved(w) && id in w.g.budgets && b == w.g.budgets[id].(lifecycle := b.lifecycle)
    requires w' == w.(g := w.g.(budgets := w.g.budgets[id := b]))
    ensures Conserved(w')
  {
    assert BalancedAt(w, id);
    OneBudgetChanged(w, w', id, b);
  }

  lemma ConsumeEffect(b: Budget, now: i64, generation: u64, epoch: u64, amount: i64)
    ensures var (b', outcome) := ConsumeIn(b, now, generation, epoch, amount);
            && b' == b.(consumed := b'.consumed, lifecycle := b'.lifecycle)
            && (outcome != Returned(OK) ==> b'.consumed == b.consumed)
            && (outcome == Returned(OK) ==> amount >= 0 && b'.consumed == b.consumed + amount)
  {}

  /** A charge of `amount` to budget `id` that was counted, or a refusal that charged nothing. */
  lemma ChargeConserves(w: World, w': World, id: u64, b: Budget, charged: int)
    requires Conserved(w) && id in w.g.budgets && charged >= 0
    requires b == w.g.budgets[id].(consumed := b.consumed, lifecycle := b.lifecycle)
    requires b.consumed == w.g.budgets[id].consumed + charged
    requires w'.g == w.g.(budgets := w.g.budgets[id := b]) && w'.handles == w.handles
    requires w'.direct == w.direct[id := DirectOf(w, id) + charged] || (charged == 0 && w'.direct == w.direct)
    ensures Conserved(w')
  {
    assert BalancedAt(w, id);
    OneBudgetChanged(w, w', id, b);
  }

  /** What a direct charge does to the world. */
  lemma ConsumeStep(w: World, id: u64, generation: u64, epoch: u64, amount: i64)
    ensures var w' := Step(w, DoConsume(id, generation, epoch, amount));
            if id !in w.g.budgets then w' == w
            else
              var (b, outcome) := ConsumeIn(w.g.budgets[id], w.now, generation, epoch, amount);
              w' == w.(g := w.g.(budgets := w.g.budgets[id := b]),
                       direct := if outcome == Returned(OK) then w.direct[id := DirectOf(w, id) + amount] else w.direct)
  {}

  lemma ConsumeConserves(w: World, id: u64, generation: u64, epoch: u64, amount: i64)
    requires Conserved(w)
    ensures Conserved(Step(w, DoConsume(id, generation, epoch, amount)))
  {
    ConsumeStep(w, id, generation, epoch, amount);
    if id in w.g.budgets {
      ConsumeEffect(w.g.budgets[id], w.now, generation, epoch, amount);
      var (b, outcome) := ConsumeIn(w.g.budgets[id], w.now, generation, epoch, amount);
      var charged := if outcome == Returned(OK) then amount else 0;
      ChargeConserves(w, Step(w, DoConsume(id, generation, epoch, amount)), id, b, charged);
    }
  }

  /** The budget after an amount moved out of `reserved`, to where `to` says. */
  predicate Moved(o: Budget, b: Budget, amount: int, to: ReservationState) {
    && SameTerms(o, b)
    && b.reserved == o.reserved - amount
    && b.consumed == (if to == Committed then o.consumed + amount else o.consumed)
    && b.released == (if to == Committed then o.released else o.released + amount)
  }

  lemma MoveConserves(w: World, w': World, i: nat, to: ReservationState)
    requires Conserved(w) && i < |w.handles| && w.handles[i].state == Active && to != Active
    requires w'.handles == w.handles[i := w.handles[i].(state := to)] && w'.direct == w.direct
    requires var id := w.handles[i].budget;
             && id in w.g.budgets && id in w'.g.budgets
             && w'.g.budgets == w.g.budgets[id := w'.g.budgets[id]]
             && Moved(w.g.budgets[id], w'.g.budgets[id], w.handles[i].amount, to)
    requires forall id :: CopiesOf(w'.g, id) == CopiesOf(w.g, id)
    ensures Conserved(w')
  {
    IssuedAmounts(w);
    forall j | 0 <= j < |w'.handles| ensures Issued(w'.g, w'.handles[j]) {
      assert Issued(w.g, w.handles[j]);
    }
    forall id | id in w'.g.budgets ensures BalancedAt(w', id) {
      assert BalancedAt(w, id);
      MoveBalances(w.g.budgets[id], w'.g.budgets[id], w.handles, i, to, DirectOf(w, id));
    }
  }

  /** A commit either leaves everything as it was, or moves the amount; only a hand-back may fail. */
  lemma CommitEffect(b: Budget, current: u64, now: i64, h: Reservation)
    requires h.state == Active && 0 <= h.amount <= b.reserved
    ensures var e := CommitIn(b, current, now, h);
            && (e.state == Active ==> e.budget == b)
            && (e.state != Active ==> e.state == Committed || e.state == Expired)
            && (e.state == Committed || (e.state == Expired && b.released + h.amount <= I64_MAX) ==>
                 Moved(b, e.budget, h.amount, e.state))
  {}

  lemma ReleaseEffect(b: Budget, current: u64, anyActive: bool, h: Reservation)
    requires h.state == Active && 0 <= h.amount <= b.reserved
    ensures var e := ReleaseIn(b, current, anyActive, h);
            && (e.state == Active || e.state == Released)
            && (e.state == Active && (e.outcome.Returned? || b.released + h.amount <= I64_MAX) ==> e.budget == b)
            && (e.state == Released ==> Moved(b, e.budget, h.amount, Released))
  {}

  /** The call gets as far as handing the amount back to the budget. */
  predicate GivesBack(w: World, op: Op) {
    && (op.DoCommit? || op.DoRelease?)
    && op.handle < |w.handles|
    && var h := w.handles[op.handle];
       && h.budget in w.g.budgets
       && var b := w.g.budgets[h.budget];
          && b.generation == h.budgetGeneration && h.epoch == w.g.epoch && h.state == Active
          && (op.DoCommit? ==> b.epoch == w.g.epoch && b.IsLive() && PastExpiry(h.expiresAt, w.now))
  }

  /** ... and `released` has no room for it: `reserved` has been lowered by then. */
  predicate Strands(w: World, op: Op) {
    GivesBack(w, op) &&
    var h := w.handles[op.handle];
    w.g.budgets[h.budget].released + h.amount > I64_MAX
  }

  /** Committing or releasing a finished reservation changes nothing at all. */
  lemma FinishedIsInert(w: World, op: Op)
    requires (op.DoCommit? || op.DoRelease?)
    requires op.handle < |w.handles| ==> w.handles[op.handle].state != Active
    ensures Step(w, op) == w
  {}

  lemma ActiveIsReserved(w: World, i: nat)
    requires Conserved(w) && i < |w.handles| && w.handles[i].state == Active
    ensures var h := w.handles[i];
            && h.budget in w.g.budgets
            && 0 <= h.amount <= w.g.budgets[h.budget].reserved
            && w.g.budgets[h.budget].released >= 0
  {
    var h := w.handles[i];
    assert Issued(w.g, h) && BalancedAt(w, h.budget);
    IssuedAmounts(w);
    HeldBounds(w.handles, h.budget, Active);
    HeldBounds(w.handles, h.budget, Released);
    HeldBounds(w.handles, h.budget, Expired);
  }

  /** What a commit or a release of reservation `i` does to the world. */
  lemma CommitStep(w: World, i: nat)
    requires i < |w.handles| && w.handles[i].budget in w.g.budgets
    ensures var h := w.handles[i]; var e := CommitIn(w.g.budgets[h.budget], w.g.epoch, w.now, h);
            Step(w, DoCommit(i)) ==
              w.(g := w.g.(budgets := w.g.budgets[h.budget := e.budget]),
                 handles := w.handles[i := h.(state := e.state)])
  {}

  lemma ReleaseStep(w: World, i: nat)
    requires i < |w.handles| && w.handles[i].budget in w.g.budgets
    ensures var h, w' := w.handles[i], Step(w, DoRelease(i));
            var e := ReleaseIn(w.g.budgets[h.budget], w.g.epoch, AnyActive(CopiesOf(w.g, h.budget)), h);
            && w' == w.(g := w.g.(budgets := w.g.budgets[h.budget := e.budget], reservations := w'.g.reservations),
                        handles := w.handles[i := h.(state := e.state)])
            && (e.state == h.state ==> w'.g.reservations == w.g.reservations)
            && (forall id :: CopiesOf(w'.g, id) == CopiesOf(w.g, id))
  {}

  lemma CommitConserves(w: World, i: nat)
    requires Conserved(w) && !Strands(w, DoCommit(i))
    ensures Conserved(Step(w, DoCommit(i)))
  {
    if i < |w.handles| && w.handles[i].state == Active {
      var w', h := Step(w, DoCommit(i)), w.handles[i];
      ActiveIsReserved(w, i);
      CommitStep(w, i);
      var b := w.g.budgets[h.budget];
      CommitEffect(b, w.g.epoch, w.now, h);
      EntryConserves(w, w', i, CommitIn(b, w.g.epoch, w.now, h));
    } else {
      FinishedIsInert(w, DoCommit(i));
    }
  }

  lemma ReleaseConserves(w: World, i: nat)
    requires Conserved(w) && !Strands(w, DoRelease(i))
    ensures Conserved(Step(w, DoRelease(i)))
  {
    if i < |w.handles| && w.handles[i].state == Active {
      var w', h := Step(w, DoRelease(i)), w.handles[i];
      ActiveIsReserved(w, i);
      ReleaseStep(w, i);
      var b, active := w.g.budgets[h.budget], AnyActive(CopiesOf(w.g, h.budget));
      ReleaseEffect(b, w.g.epoch, active, h);
      EntryConserves(w, w', i, ReleaseIn(b, w.g.epoch, active, h));
    } else {
      FinishedIsInert(w, DoRelease(i));
    }
  }

  /** A call that either left its budget and reservation alone or moved the amount. */
  lemma EntryConserves(w: World, w': World, i: nat, e: Entry)
    requires Conserved(w) && i < |w.handles| && w.handles[i].state == Active && w.handles[i].budget in w.g.budgets
    requires w'.g.budgets == w.g.budgets[w.handles[i].budget := e.budget] && w'.direct == w.direct
    requires w'.handles == w.handles[i := w.handles[i].(state := e.state)]
    requires e.state == Active ==> e.budget == w.g.budgets[w.handles[i].budget] && w'.g.reservations == w.g.reservations
    requires e.state != Active ==> Moved(w.g.budgets[w.handles[i].budget], e.budget, w.handles[i].amount, e.state)
    requires forall id :: CopiesOf(w'.g, id) == CopiesOf(w.g, id)
    ensures Conserved(w')
  {
    if e.state == Active {
      assert w'.handles == w.handles && w'.g.budgets == w.g.budgets;
      SameAccount(w, w');
    } else {
      MoveConserves(w, w', i, e.state);
    }
  }

  lemma CommitStrands(w: World, i: nat)
    requires Conserved(w) && Strands(w, DoCommit(i))
    ensures !Conserved(Step(w, DoCommit(i)))
  {
    var w', h := Step(w, DoCommit(i)), w.handles[i];
    ActiveIsReserved(w, i);
    assert BalancedAt(w, h.budget);
    ExpiryUnbalances(w.g.budgets[h.budget], w'.g.budgets[h.budget], w.handles, i, DirectOf(w, h.budget));
    assert !BalancedAt(w', h.budget);
  }

  /** An expired amount that `released` does not show. */
  lemma ExpiryUnbalances(b: Budget, b': Budget, handles: seq<Reservation>, i: nat, direct: int)
    requires i < |handles| && handles[i].state == Active && handles[i].budget == b.id && handles[i].amount > 0
    requires Balanced(b, handles, direct) && b'.id == b.id && b'.released == b.released
    ensures !Balanced(b', handles[i := handles[i].(state := Expired)], direct)
  {
    SumUpdate(handles, i, handles[i].(state := Expired), AmountIn(b.id, Released));
    SumUpdate(handles, i, handles[i].(state := Expired), AmountIn(b.id, Expired));
  }

  lemma ReleaseStrands(w: World, i: nat)
    requires Conserved(w) && Strands(w, DoRelease(i))
    ensures !Conserved(Step(w, DoRelease(i)))
  {
    var w', h := Step(w, DoRelease(i)), w.handles[i];
    ActiveIsReserved(w, i);
    assert BalancedAt(w, h.budget);
    assert w'.handles == w.handles;
    assert !BalancedAt(w', h.budget);
  }

  /** Operations that touch no budget, no reservation and no charge. */
  predicate IsAside(op: Op) {
    op.DoAdvanceEpoch? || op.DoSetBoot? || op.DoPublish? || op.DoTick? || op.DoRecord? || op.DoFinalize?
  }

  lemma AsideKeepsAccount(w: World, op: Op)
    requires IsAside(op)
    ensures var w' := Step(w, op);
            && w'.handles == w.handles && w'.direct == w.direct
            && w'.g.budgets == w.g.budgets && w'.g.reservations == w.g.reservations
  {
    match op
    case DoFinalize(request, workload) => FinalizeKeepsAccount(w.g, w.now, request, workload);
    case _ =>
  }

  lemma FinalizeKeepsAccount(g: Governor, now: i64, request: u64, workload: u64)
    ensures var g' := FinalizeRequest(g, now, request, workload).0; g' == g.(history := g'.history)
  {}

  /** Every step conserves the account, except exactly the hand-back that `released` cannot hold. */
  lemma StepConserves(w: World, op: Op)
    requires Conserved(w) && Honest(op)
    ensures Conserved(Step(w, op)) <==> !Strands(w, op)
  {
    match op
    case DoCreate(b) => CreateConserves(w, b);
    case DoReserve(id, generation, epoch, amount) => ReserveConserves(w, id, generation, epoch, amount);
    case DoConsume(id, generation, epoch, amount) => ConsumeConserves(w, id, generation, epoch, amount);
    case DoCommit(i) => if Strands(w, op) { CommitStrands(w, i); } else { CommitConserves(w, i); }
    case DoRelease(i) => if Strands(w, op) { ReleaseStrands(w, i); } else { ReleaseConserves(w, i); }
    case _ =>
      AsideKeepsAccount(w, op);
      SameAccount(w, Step(w, op));
  }

  // ---- whole runs -----------------------------------------------------------------------

  /** No step of the run hands back more than `released` can hold. */
  predicate NeverStrands(w: World, ops: seq<Op>) {
    forall i :: 0 <= i < |ops| ==> !Strands(Run(w, ops[..i]), ops[i])
  }

  lemma HonestPrefix(w: World, ops: seq<Op>)
    requires |ops| > 0 && AllHonest(ops) && NeverStrands(w, ops)
    ensures AllHonest(ops[..|ops| - 1]) && NeverStrands(w, ops[..|ops| - 1])
  {
    var before := ops[..|ops| - 1];
    forall i | 0 <= i < |before| ensures Honest(before[i]) && !Strands(Run(w, before[..i]), before[i]) {
      assert before[i] == ops[i] && before[..i] == ops[..i];
    }
  }

  /** Conservation over every run: reserved is the sum of the active reservations, consumed the sum
      of the committed ones plus the direct charges, released the sum of the returned ones, and
      0 <= reserved <= limit. */
  lemma {:induction false} RunConserves(w: World, ops: seq<Op>)
    requires Conserved(w) && AllHonest(ops) && NeverStrands(w, ops)
    ensures Conserved(Run(w, ops))
  {
    if |ops| > 0 {
      HonestPrefix(w, ops);
      RunConserves(w, ops[..|ops| - 1]);
      StepConserves(Run(w, ops[..|ops| - 1]), ops[|ops| - 1]);
    }
  }

  /** A governor without budgets and without reservations starts every such run. */
  lemma FreshIsConserved(g: Governor, now: i64)
    requires g.budgets == map[]
    ensures Conserved(World(g, [], now, map[]))
  {}
}
