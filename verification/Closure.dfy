/** Hard limits and expiry over whole runs, and the lifecycle that does not stay terminal.

Nothing here needs the account to balance: it is enough that the reservations presented are the
ones that were issued.
 */
module Closure {
  import opened Types
  import opened GovernorModel
  import opened Ledger

  /** A budget that can pay nothing more: past its expiry, or hard and used up. */
  predicate Closed(b: Budget, now: i64) {
    PastExpiry(b.expiresAt, now) || (b.mode == HARD && b.consumed >= b.limit)
  }

  predicate WithinLimit(b: Budget) { b.mode == HARD ==> b.consumed <= b.limit }

  /** What one step may do to a budget at time `now`. */
  predicate Obeys(b: Budget, b': Budget, now: i64) {
    && SameTerms(b, b')
    && b.consumed <= b'.consumed
    && (WithinLimit(b) ==> WithinLimit(b'))
    && (Closed(b, now) ==> b'.consumed == b.consumed)
  }

  predicate AllObey(g: Governor, g': Governor, now: i64) {
    forall id :: id in g.budgets ==> id in g'.budgets && Obeys(g.budgets[id], g'.budgets[id], now)
  }

  lemma EntriesObey(b: Budget, current: u64, now: i64, h: Reservation, anyActive: bool)
    ensures h.amount >= 0 && h.expiresAt == b.expiresAt ==> Obeys(b, CommitIn(b, current, now, h).budget, now)
    ensures Obeys(b, ReleaseIn(b, current, anyActive, h).budget, now)
  {}

  lemma ChargesObey(b: Budget, current: u64, now: i64, generation: u64, epoch: u64, amount: i64)
    ensures Obeys(b, ConsumeIn(b, now, generation, epoch, amount).0, now)
    ensures Obeys(b, ReserveIn(b, current, now, generation, epoch, amount).0, now)
  {}

  lemma ReserveObeys(g: Governor, now: i64, id: u64, generation: u64, epoch: u64, amount: i64)
    ensures var (g', _, handle) := Reserve(g, now, id, generation, epoch, amount);
            && AllObey(g, g', now)
            && (forall j :: AnyActive(CopiesOf(g, j)) ==> AnyActive(CopiesOf(g', j)))
            && (handle.Some? ==> Issued(g', handle.value))
  {
    var (g', _, handle) := Reserve(g, now, id, generation, epoch, amount);
    if id in g.budgets {
      ChargesObey(g.budgets[id], g.epoch, now, generation, epoch, amount);
      ReserveEffect(g.budgets[id], g.epoch, now, generation, epoch, amount);
    }
    if handle.Some? {
      PushKeepsActive(CopiesOf(g, id), handle.value);
      assert CopiesOf(g', id) == CopiesOf(g, id) + [handle.value];
      forall j | AnyActive(CopiesOf(g, j)) ensures AnyActive(CopiesOf(g', j)) {
        if j != id { assert CopiesOf(g', j) == CopiesOf(g, j); }
      }
    } else {
      assert g'.reservations == g.reservations;
    }
  }

  lemma AllIssuedStays(w: World, g': Governor)
    requires AllIssued(w) && AllObey(w.g, g', w.now)
    requires forall id :: AnyActive(CopiesOf(w.g, id)) ==> AnyActive(CopiesOf(g', id))
    ensures forall i :: 0 <= i < |w.handles| ==> Issued(g', w.handles[i])
  {}

  lemma SameBudgetsObey(w: World, g': Governor)
    requires AllIssued(w) && g'.reservations == w.g.reservations
    requires forall id :: id in w.g.budgets ==> id in g'.budgets && g'.budgets[id] == w.g.budgets[id]
    ensures AllObey(w.g, g', w.now)
    ensures forall i :: 0 <= i < |w.handles| ==> Issued(g', w.handles[i])
  {}

  /** Every step keeps the reservations sound and obeys the limits. */
  lemma StepObeys(w: World, op: Op)
    requires AllIssued(w)
    ensures AllIssued(Step(w, op))
    ensures AllObey(w.g, Step(w, op).g, w.now)
    ensures w.now <= Step(w, op).now
  {
    match op
    case DoReserve(id, generation, epoch, amount) =>
      ReserveObeys(w.g, w.now, id, generation, epoch, amount);
      AllIssuedStays(w, Step(w, op).g);
    case DoConsume(_, _, _, _) => ConsumeObeys(w, op);
    case DoCommit(i) => StepCallObeys(w, op);
    case DoRelease(i) => StepCallObeys(w, op);
    case DoCreate(_) => SameBudgetsObey(w, Step(w, op).g);
    case _ =>
      AsideKeepsAccount(w, op);
      SameBudgetsObey(w, Step(w, op).g);
  }

  lemma ConsumeObeys(w: World, op: Op)
    requires AllIssued(w) && op.DoConsume?
    ensures AllIssued(Step(w, op)) && AllObey(w.g, Step(w, op).g, w.now)
  {
    var g' := Step(w, op).g;
    if op.id in w.g.budgets { ChargesObey(w.g.budgets[op.id], w.g.epoch, w.now, op.generation, op.epoch, op.amount); }
    assert forall j :: CopiesOf(g', j) == CopiesOf(w.g, j);
    AllIssuedStays(w, g');
  }

  lemma StepCallObeys(w: World, op: Op)
    requires AllIssued(w) && (op.DoCommit? || op.DoRelease?)
    ensures AllIssued(Step(w, op)) && AllObey(w.g, Step(w, op).g, w.now)
  {
    if op.handle < |w.handles| {
      var h := w.handles[op.handle];
      assert Issued(w.g, h);
      var b, active := w.g.budgets[h.budget], AnyActive(CopiesOf(w.g, h.budget));
      EntriesObey(b, w.g.epoch, w.now, h, active);
      if op.DoCommit? {
        CommitStep(w, op.handle);
        EntryObeys(w, Step(w, op), op.handle, CommitIn(b, w.g.epoch, w.now, h));
      } else {
        ReleaseStep(w, op.handle);
        EntryObeys(w, Step(w, op), op.handle, ReleaseIn(b, w.g.epoch, active, h));
      }
    }
  }

  /** A call that obeys on its own budget, and changed nothing else but the state of its reservation. */
  lemma EntryObeys(w: World, w': World, i: nat, e: Entry)
    requires AllIssued(w) && i < |w.handles| && w.handles[i].budget in w.g.budgets
    requires w'.g.budgets == w.g.budgets[w.handles[i].budget := e.budget]
    requires w'.handles == w.handles[i := w.handles[i].(state := e.state)]
    requires Obeys(w.g.budgets[w.handles[i].budget], e.budget, w.now)
    requires forall id :: CopiesOf(w'.g, id) == CopiesOf(w.g, id)
    ensures AllIssued(w') && AllObey(w.g, w'.g, w.now)
  {
    AllIssuedStays(w, w'.g);
    forall j | 0 <= j < |w'.handles| ensures Issued(w'.g, w'.handles[j]) {
      assert Issued(w'.g, w.handles[j]);
    }
  }

  /** Over every run a hard budget's consumption stays within its limit once it is, no budget's
      consumption falls, and a budget that is closed is closed for good: nothing any continuation
      does raises its consumption, whatever its lifecycle says. */
  lemma {:induction false} ClosedMeansClosed(w: World, ops: seq<Op>, id: u64)
    requires AllIssued(w) && id in w.g.budgets
    ensures AllIssued(Run(w, ops)) && w.now <= Run(w, ops).now
    ensures id in Run(w, ops).g.budgets
    ensures var b, b' := w.g.budgets[id], Run(w, ops).g.budgets[id];
            && SameTerms(b, b')
            && b.consumed <= b'.consumed
            && (WithinLimit(b) ==> WithinLimit(b'))
            && (Closed(b, w.now) ==> Closed(b', Run(w, ops).now) && b'.consumed == b.consumed)
  {
    if |ops| > 0 {
      var before := ops[..|ops| - 1];
      ClosedMeansClosed(w, before, id);
      var v := Run(w, before);
      StepObeys(v, ops[|ops| - 1]);
      assert Obeys(v.g.budgets[id], Run(w, ops).g.budgets[id], v.now);
    }
  }

  // ---- the lifecycle --------------------------------------------------------------------

  /** The step is a release that gets to the counters, and the counters have room for it. */
  predicate ReleaseGoesThrough(w: World, op: Op) {
    && op.DoRelease? && GivesBack(w, op)
    && var h := w.handles[op.handle];
       && I64_MIN <= w.g.budgets[h.budget].reserved - h.amount
       && w.g.budgets[h.budget].released + h.amount <= I64_MAX
  }

  lemma ReleaseOutcome(w: World, op: Op)
    requires AllIssued(w) && op.DoRelease? && op.handle < |w.handles|
    ensures ReleaseGoesThrough(w, op) <==>
            GivesBack(w, op) && Release(w.g, w.handles[op.handle]).outcome == Returned(OK)
  {
    assert Issued(w.g, w.handles[op.handle]);
  }

  /** A release that goes through leaves its budget RESERVED, whatever it was: the copies it looks
      at are all still active. */
  lemma ReleaseReopens(w: World, op: Op)
    requires AllIssued(w) && ReleaseGoesThrough(w, op)
    ensures Step(w, op).g.budgets[w.handles[op.handle].budget].lifecycle == RESERVED
  {
    ReleaseOutcome(w, op);
    assert Issued(w.g, w.handles[op.handle]);
  }

  predicate TerminalAt(g: Governor, id: u64) {
    id in g.budgets && g.budgets[id].IsTerminal()
  }

  lemma CommitStaysTerminal(g: Governor, now: i64, h: Reservation, id: u64)
    requires TerminalAt(g, id)
    ensures TerminalAt(Commit(g, now, h).g, id)
  {}

  lemma ReserveStaysTerminal(g: Governor, now: i64, budget: u64, generation: u64, epoch: u64, amount: i64, id: u64)
    requires TerminalAt(g, id)
    ensures TerminalAt(Reserve(g, now, budget, generation, epoch, amount).0, id)
  {}

  lemma ConsumeStaysTerminal(g: Governor, now: i64, budget: u64, generation: u64, epoch: u64, amount: i64, id: u64)
    requires TerminalAt(g, id)
    ensures TerminalAt(Consume(g, now, budget, generation, epoch, amount).0, id)
  {}

  /** A terminal lifecycle does not remain terminal: a step takes a terminal budget back to a live
      lifecycle exactly when it is a release of one of its active reservations that is current and for
      which the counters have room. */
  lemma TerminalReopens(w: World, op: Op, id: u64)
    requires AllIssued(w) && TerminalAt(w.g, id)
    ensures !TerminalAt(Step(w, op).g, id) <==>
            ReleaseGoesThrough(w, op) && w.handles[op.handle].budget == id
  {
    match op
    case DoReserve(budget, generation, epoch, amount) =>
      ReserveStaysTerminal(w.g, w.now, budget, generation, epoch, amount, id);
    case DoConsume(budget, generation, epoch, amount) =>
      ConsumeStaysTerminal(w.g, w.now, budget, generation, epoch, amount, id);
    case DoCommit(i) =>
      if i < |w.handles| { CommitStaysTerminal(w.g, w.now, w.handles[i], id); }
    case DoRelease(i) =>
      if i < |w.handles| {
        ReleaseOutcome(w, op);
        if ReleaseGoesThrough(w, op) { ReleaseReopens(w, op); }
        ReleaseChangesLifecycle(w.g, w.handles[i], id);
      }
    case _ =>
  }

  lemma ReleaseChangesLifecycle(g: Governor, h: Reservation, id: u64)
    requires id in g.budgets
    ensures id in Release(g, h).g.budgets
    ensures Release(g, h).g.budgets[id].lifecycle != g.budgets[id].lifecycle ==>
              h.budget == id && h.state == Active && Release(g, h).outcome == Returned(OK)
              && g.budgets[id].generation == h.budgetGeneration && h.epoch == g.epoch
  {}
}
