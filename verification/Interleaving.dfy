/** What the simulation gives for whole interleavings: the table is the ledger, and a token is charged
at most once; and what two handlers on one token do to it. */
module Interleaving {
  import opened Types
  import opened Sums
  import opened Keys
  import opened GovernorModel
  import opened Ledger
  import opened Sessions
  import opened Admission

  ghost predicate AllowedRun(c: Coordinator, moves: seq<Move>) {
    forall i :: 0 <= i < |moves| ==> Allowed(RunMoves(c, moves[..i]), moves[i])
  }

  lemma AllowedPrefix(c: Coordinator, moves: seq<Move>, n: nat)
    requires AllowedRun(c, moves) && n <= |moves|
    ensures AllowedRun(c, moves[..n])
  {
    forall i | 0 <= i < n ensures Allowed(RunMoves(c, moves[..n][..i]), moves[..n][i]) {
      assert moves[..n][..i] == moves[..i];
    }
  }

  // ---- refinement of a sequential run -----------------------------------------------------

  /** The sequential operations an interleaving stands for, in the order the governor saw them. */
  ghost function LedgerOps(c: Coordinator, w: World, moves: seq<Move>): seq<Op> {
    if |moves| == 0 then []
    else
      var before := moves[..|moves| - 1];
      LedgerOps(c, w, before) + OpsOf(RunMoves(c, before), Run(w, LedgerOps(c, w, before)), moves[|moves| - 1])
  }

  ghost function OpsOf(c: Coordinator, w: World, m: Move): seq<Op> {
    match m
    case Reserving(t, id, generation, epoch, amount) =>
      if c.desk.At(t) == Idle then [DoReserve(id, generation, epoch, amount)] else []
    case Calling(t) =>
      var h := c.desk.At(t);
      if h.Looked? && Known(w.handles, h.token) then [OpOf(h, IndexOf(w.handles, h.token))] else []
    case Atomic(op) => if IsAtomic(op) then [op] else []
    case _ => []
  }

  lemma OpsAreShadow(c: Coordinator, w: World, start: World, ops: seq<Op>, m: Move)
    requires w == Run(start, ops)
    ensures Run(start, ops + OpsOf(c, w, m)) == Shadow(c, w, m)
  {
    var more := OpsOf(c, w, m);
    if more == [] {
      assert ops + more == ops;
    } else {
      assert (ops + more)[..|ops|] == ops && (ops + more)[|ops|] == more[0];
    }
  }

  /** Every exclusive interleaving ends in the governor of a sequential run of the ledger, with the same
  reservations in the same states. */
  lemma {:induction false} InterleavingRefines(c: Coordinator, w: World, moves: seq<Move>)
    requires Simulates(c, w) && AllowedRun(c, moves)
    ensures Simulates(RunMoves(c, moves), Run(w, LedgerOps(c, w, moves)))
  {
    if |moves| > 0 {
      var n := |moves| - 1;
      AllowedPrefix(c, moves, n);
      InterleavingRefines(c, w, moves[..n]);
      var c', ops := RunMoves(c, moves[..n]), LedgerOps(c, w, moves[..n]);
      OpsAreShadow(c', Run(w, ops), w, ops, moves[n]);
      assert Allowed(c', moves[n]);
      MoveSimulates(c', Run(w, ops), moves[n]);
    }
  }

  lemma FreshSimulates(g: Governor, now: i64)
    requires g.budgets == map[]
    ensures Simulates(Coordinator(g, now, Desk(map[], map[])), World(g, [], now, map[]))
  {}

  // ---- the table is the ledger ------------------------------------------------------------

  /** Tokens in the table or just made. */
  function Tokens(d: Desk): set<u64> {
    d.table.Keys + set t | t in d.handlers && d.handlers[t].Holding? :: d.handlers[t].made.id
  }

  /** The table as it will be when every handler has finished storing what it has. */
  ghost function Effective(d: Desk): map<u64, Reservation> {
    map token | token in Tokens(d) && Current(d, token).Some? :: Current(d, token).value
  }

  ghost function Ids(hs: seq<Reservation>): (ids: seq<u64>)
    ensures |ids| == |hs| && forall i :: 0 <= i < |hs| ==> ids[i] == hs[i].id
  {
    seq(|hs|, i requires 0 <= i < |hs| => hs[i].id)
  }

  lemma TokenKnown(d: Desk, hs: seq<Reservation>, token: u64)
    requires DeskSound(d, hs)
    ensures token in Tokens(d) && Current(d, token).Some? <==> Known(hs, token)
  {}

  lemma EffectiveIsLedger(d: Desk, hs: seq<Reservation>, next: u64)
    requires DeskSound(d, hs) && Numbered(hs, next)
    ensures SortedValues(Effective(d)) == hs
  {
    var m, ids := Effective(d), Ids(hs);
    forall token: u64 ensures token in SortedKeys(m.Keys) <==> token in ids {
      TokenKnown(d, hs, token);
      if Known(hs, token) { assert ids[IndexOf(hs, token)] == token; }
    }
    AscendingUnique(SortedKeys(m.Keys), ids);
    forall i | 0 <= i < |hs| ensures SortedValues(m)[i] == hs[i] {
      assert Current(d, hs[i].id) == Some(hs[i]);
    }
  }

  /** After any exclusive interleaving each budget's counters are the sums over the reservations of the
  table, with the copies still held by handlers in place of theirs. */
  lemma SessionsBalance(c: Coordinator, w: World, moves: seq<Move>, id: u64)
    requires Simulates(c, w) && AllowedRun(c, moves) && id in RunMoves(c, moves).g.budgets
    ensures var end := RunMoves(c, moves);
            end.g.budgets[id].id == id &&
            Balanced(end.g.budgets[id], SortedValues(Effective(end.desk)), DirectOf(Run(w, LedgerOps(c, w, moves)), id))
  {
    InterleavingRefines(c, w, moves);
    var w' := Run(w, LedgerOps(c, w, moves));
    EffectiveIsLedger(RunMoves(c, moves).desk, w'.handles, w'.g.nextReservation);
    assert BalancedAt(w', id);
  }

  /** With no handler at work, that is the table itself. */
  lemma QuietDesk(d: Desk)
    requires forall t: nat :: d.At(t) == Idle
    ensures Effective(d) == d.table
  {}

  // ---- one charge per token ---------------------------------------------------------------

  /** The move is a governor call on the token that changes what its budget has consumed. */
  ghost predicate Charges(c: Coordinator, m: Move, token: u64) {
    && m.Calling? && c.desk.At(m.t).Looked? && c.desk.At(m.t).token == token
    && var id := c.desk.At(m.t).copy.budget;
       id in c.g.budgets && Advance(c, m).g.budgets[id].consumed != c.g.budgets[id].consumed
  }

  lemma CallCharges(g: Governor, now: i64, h: Handler)
    requires h.Looked? && h.copy.budget in g.budgets
    ensures var call := CallOf(g, now, h);
            call.g.budgets[h.copy.budget].consumed != g.budgets[h.copy.budget].consumed ==>
              h.copy.state == Active && call.handle.state == Committed
  {}

  lemma FinishedCallInert(g: Governor, now: i64, h: Handler)
    requires h.Looked? && h.copy.state != Active
    ensures CallOf(g, now, h).handle == h.copy
  {}

  /** Reservation `i` is finished, and unchanged from `hs` to `hs'`. */
  predicate Finished(hs: seq<Reservation>, hs': seq<Reservation>, i: nat) {
    i < |hs| && i < |hs'| && hs[i].state != Active && hs'[i] == hs[i]
  }

  lemma FinishedStaysCalling(c: Coordinator, w: World, m: Move, i: nat)
    requires DeskSound(c.desk, w.handles) && m.Calling? && c.desk.At(m.t).Looked? && Finished(w.handles, w.handles, i)
    ensures Finished(w.handles, Shadow(c, w, m).handles, i)
  {
    var h := c.desk.At(m.t);
    LookedIsLedger(c.desk, w.handles, m.t);
    var j := IndexOf(w.handles, h.token);
    CallIsStep(w, j, h);
    if i == j { FinishedCallInert(w.g, w.now, h); }
  }

  lemma FinishedStaysReserving(w: World, op: Op, i: nat)
    requires op.DoReserve? && Finished(w.handles, w.handles, i)
    ensures Finished(w.handles, Step(w, op).handles, i)
  {}

  /** Once a token is finished, no move changes it. */
  lemma FinishedStays(c: Coordinator, w: World, m: Move, i: nat)
    requires DeskSound(c.desk, w.handles) && Finished(w.handles, w.handles, i)
    ensures Finished(w.handles, Shadow(c, w, m).handles, i)
  {
    match m
    case Reserving(t, id, generation, epoch, amount) =>
      FinishedStaysReserving(w, DoReserve(id, generation, epoch, amount), i);
    case Calling(t) => if c.desk.At(t).Looked? { FinishedStaysCalling(c, w, m, i); }
    case Atomic(op) => if IsAtomic(op) { AtomicKeepsHandles(w, op); }
    case _ =>
  }

  lemma ChargeFinishes(c: Coordinator, w: World, m: Move, token: u64)
    requires Simulates(c, w) && Allowed(c, m) && Charges(c, m, token)
    ensures Known(w.handles, token) && w.handles[IndexOf(w.handles, token)].state == Active
    ensures var w' := Shadow(c, w, m); var i := IndexOf(w.handles, token);
            i < |w'.handles| && w'.handles[i].id == token && w'.handles[i].state == Committed
  {
    var h := c.desk.At(m.t);
    LookedIsLedger(c.desk, w.handles, m.t);
    CallCharges(c.g, c.now, h);
    CallKeepsIdentity(c.g, c.now, h);
    assert HandlerSound(c.desk, h);
    CallIsStep(w, IndexOf(w.handles, token), h);
  }

  /** The ledger after the first `n` moves. */
  ghost function LedgerAt(c: Coordinator, w: World, moves: seq<Move>, n: nat): World
    requires n <= |moves|
  {
    Run(w, LedgerOps(c, w, moves[..n]))
  }

  /** Move `n` of a run, seen from both sides. */
  lemma StepOfRun(c: Coordinator, w: World, moves: seq<Move>, n: nat)
    requires Simulates(c, w) && AllowedRun(c, moves) && n < |moves|
    ensures var at, there := RunMoves(c, moves[..n]), LedgerAt(c, w, moves, n);
            Simulates(at, there) && Allowed(at, moves[n]) && LedgerAt(c, w, moves, n + 1) == Shadow(at, there, moves[n])
  {
    AllowedPrefix(c, moves, n);
    InterleavingRefines(c, w, moves[..n]);
    assert moves[..n + 1][..n] == moves[..n];
    var ops := LedgerOps(c, w, moves[..n]);
    OpsAreShadow(RunMoves(c, moves[..n]), Run(w, ops), w, ops, moves[n]);
  }

  /** The reservations after the first `j` moves. */
  ghost function HandlesAt(c: Coordinator, w: World, moves: seq<Move>): nat -> seq<Reservation> {
    (j: nat) => if j <= |moves| then LedgerAt(c, w, moves, j).handles else []
  }

  lemma FinishedStaysInStep(c: Coordinator, w: World, moves: seq<Move>, n: nat, i: nat)
    requires Simulates(c, w) && AllowedRun(c, moves) && n < |moves|
    requires Finished(HandlesAt(c, w, moves)(n), HandlesAt(c, w, moves)(n), i)
    ensures Finished(HandlesAt(c, w, moves)(n), HandlesAt(c, w, moves)(n + 1), i)
  {
    StepOfRun(c, w, moves, n);
    FinishedStays(RunMoves(c, moves[..n]), LedgerAt(c, w, moves, n), moves[n], i);
  }

  lemma {:induction false} FinishedChain(at: nat -> seq<Reservation>, n: nat, k: nat, i: nat)
    requires n <= k && Finished(at(n), at(n), i)
    requires forall j :: n <= j < k && Finished(at(j), at(j), i) ==> Finished(at(j), at(j + 1), i)
    ensures Finished(at(n), at(k), i)
    decreases k
  {
    if n < k { FinishedChain(at, n, k - 1, i); }
  }

  lemma FinishedStaysInRun(c: Coordinator, w: World, moves: seq<Move>, n: nat, k: nat, i: nat)
    requires Simulates(c, w) && AllowedRun(c, moves) && n <= k <= |moves|
    requires Finished(HandlesAt(c, w, moves)(n), HandlesAt(c, w, moves)(n), i)
    ensures Finished(HandlesAt(c, w, moves)(n), HandlesAt(c, w, moves)(k), i)
  {
    var at := HandlesAt(c, w, moves);
    forall j | n <= j < k && Finished(at(j), at(j), i) ensures Finished(at(j), at(j + 1), i) {
      FinishedStaysInStep(c, w, moves, j, i);
    }
    FinishedChain(at, n, k, i);
  }

  /** In an exclusive interleaving no token is charged twice. */
  lemma ChargedAtMostOnce(c: Coordinator, w: World, moves: seq<Move>, n: nat, k: nat, token: u64)
    requires Simulates(c, w) && AllowedRun(c, moves) && n < k < |moves|
    requires Charges(RunMoves(c, moves[..n]), moves[n], token)
    ensures !Charges(RunMoves(c, moves[..k]), moves[k], token)
  {
    var w0 := LedgerAt(c, w, moves, n);
    StepOfRun(c, w, moves, n);
    ChargeFinishes(RunMoves(c, moves[..n]), w0, moves[n], token);
    var i := IndexOf(w0.handles, token);
    FinishedStaysInRun(c, w, moves, n + 1, k, i);
    StepOfRun(c, w, moves, k);
    var w1 := LedgerAt(c, w, moves, k);
    if Charges(RunMoves(c, moves[..k]), moves[k], token) {
      ChargeFinishes(RunMoves(c, moves[..k]), w1, moves[k], token);
      OneOfEach(w1.handles, w1.g.nextReservation, i, IndexOf(w1.handles, token));
    }
  }

  // ---- two handlers on one token ----------------------------------------------------------

  /** After one charge of `amount` the budget takes another: it is still live, a hard limit covers both, and
  the counters fit. */
  predicate TakesSecondCharge(b: Budget, amount: i64) {
    && b.consumed + amount < b.limit && (b.mode == HARD ==> b.consumed + 2 * amount <= b.limit)
    && I64_MIN <= b.consumed + 2 * amount <= I64_MAX && I64_MIN <= b.reserved - 2 * amount <= I64_MAX
  }

  lemma FirstCharge(g: Governor, now: i64, h: Reservation)
    requires h.state == Active && Commits(g, now, h)
    ensures var g' := Commit(g, now, h).g; var b := g.budgets[h.budget];
            && g' == g.(budgets := g'.budgets) && h.budget in g'.budgets && !Commit(g, now, h).outcome.Threw?
            && Moved(b, g'.budgets[h.budget], h.amount, Committed)
            && (g'.budgets[h.budget].IsLive() <==> b.consumed + h.amount < b.limit)
  {}

  lemma SecondCharge(g: Governor, now: i64, h: Reservation)
    requires h.state == Active && Commits(g, now, h)
    ensures Commits(Commit(g, now, h).g, now, h) <==> TakesSecondCharge(g.budgets[h.budget], h.amount)
  {
    FirstCharge(g, now, h);
  }

  lemma CallChargesExactly(c: Coordinator, t: nat, token: u64, copy: Reservation)
    requires c.desk.At(t) == Looked(token, copy, true)
    ensures Charges(c, Calling(t), token) <==> copy.state == Active && copy.amount != 0 && Commits(c.g, c.now, copy)
  {
    if copy.state == Active {
      CommitSucceeds(c.g, c.now, copy);
      if copy.budget in c.g.budgets { CallCharges(c.g, c.now, c.desk.At(t)); }
    }
  }

  lemma FirstCallLeaves(c: Coordinator, t: nat, u: nat, token: u64, copy: Reservation)
    requires t != u && c.desk.At(t) == c.desk.At(u) == Looked(token, copy, true)
    ensures var c' := Advance(c, Calling(t));
            c'.desk.At(u) == Looked(token, copy, true) && c'.g == Commit(c.g, c.now, copy).g && c'.now == c.now
  {}

  /** Two commits that both looked a token up before either wrote back both charge its budget exactly when
  the reservation was active, the first goes through, and the budget takes the amount a second time; the
  one reservation is then taken off `reserved` twice. */
  lemma OverlapChargesTwice(c: Coordinator, t: nat, u: nat, token: u64, copy: Reservation)
    requires t != u && c.desk.At(t) == c.desk.At(u) == Looked(token, copy, true)
    ensures Charges(c, Calling(t), token) && Charges(Advance(c, Calling(t)), Calling(u), token) <==>
            && copy.state == Active && copy.amount != 0 && Commits(c.g, c.now, copy)
            && TakesSecondCharge(c.g.budgets[copy.budget], copy.amount)
    ensures Charges(c, Calling(t), token) && Charges(Advance(c, Calling(t)), Calling(u), token) ==>
            DoublyCharged(c.g, Advance(Advance(c, Calling(t)), Calling(u)).g, copy)
  {
    var c1 := Advance(c, Calling(t));
    CallChargesExactly(c, t, token, copy);
    FirstCallLeaves(c, t, u, token, copy);
    CallChargesExactly(c1, u, token, copy);
    if copy.state == Active && Commits(c.g, c.now, copy) {
      SecondCharge(c.g, c.now, copy);
      FirstCharge(c.g, c.now, copy);
      if Commits(c1.g, c.now, copy) { FirstCharge(c1.g, c.now, copy); }
    }
  }

  predicate DoublyCharged(g: Governor, g': Governor, h: Reservation) {
    && h.budget in g.budgets && h.budget in g'.budgets
    && g'.budgets[h.budget].consumed == g.budgets[h.budget].consumed + 2 * h.amount
    && g'.budgets[h.budget].reserved == g.budgets[h.budget].reserved - 2 * h.amount
  }

  // ---- a commit or a release beside another -----------------------------------------------

  /** The call takes the amount of its copy off what is reserved. */
  ghost predicate LowersReserved(c: Coordinator, t: nat) {
    && c.desk.At(t).Looked?
    && var id := c.desk.At(t).copy.budget;
       id in c.g.budgets && Advance(c, Calling(t)).g.budgets[id].reserved != c.g.budgets[id].reserved
  }

  /** The limit and the counter have room for the charge. */
  predicate Covers(b: Budget, amount: i64) {
    (b.mode == HARD ==> b.consumed + amount <= b.limit) && I64_MIN <= b.consumed + amount <= I64_MAX
  }

  /** What a commit or a release asks before it lowers `reserved`. */
  predicate Lowers(b: Budget, current: u64, now: i64, h: Reservation, commits: bool) {
    && b.generation == h.budgetGeneration && h.epoch == current && h.state == Active
    && h.amount != I64_MIN && I64_MIN <= b.reserved - h.amount <= I64_MAX
    && (commits ==> b.epoch == current && b.IsLive() && (PastExpiry(h.expiresAt, now) || Covers(b, h.amount)))
  }

  /** What a second one asks after a first that has lowered it, of the budget as it was before both: room in
  `reserved`, and for a commit a current epoch, a budget that is still live, and room for the charge. */
  predicate LowersAgain(b: Budget, current: u64, now: i64, h: Reservation, first: bool, second: bool) {
    && I64_MIN <= b.reserved - 2 * h.amount <= I64_MAX
    && (second ==>
         && b.epoch == current
         && (!first ==> b.IsLive() || I64_MIN <= b.released + h.amount <= I64_MAX)
         && (PastExpiry(h.expiresAt, now) ||
             if first then TakesSecondCharge(b, h.amount) else Covers(b, h.amount)))
  }

  function EntryOf(b: Budget, current: u64, now: i64, h: Reservation, anyActive: bool, commits: bool): Entry {
    if commits then CommitIn(b, current, now, h) else ReleaseIn(b, current, anyActive, h)
  }

  lemma EntryLowers(b: Budget, current: u64, now: i64, h: Reservation, anyActive: bool, commits: bool)
    ensures var b' := EntryOf(b, current, now, h, anyActive, commits).budget;
            && SameTerms(b, b')
            && b'.reserved == b.reserved - if Lowers(b, current, now, h, commits) then h.amount else 0
  {}

  lemma SecondLowers(b: Budget, current: u64, now: i64, h: Reservation, anyActive: bool, first: bool, second: bool)
    requires Lowers(b, current, now, h, first)
    ensures Lowers(EntryOf(b, current, now, h, anyActive, first).budget, current, now, h, second) <==>
            LowersAgain(b, current, now, h, first, second)
  {}

  lemma CallEntry(c: Coordinator, t: nat)
    requires c.desk.At(t).Looked? && c.desk.At(t).copy.budget in c.g.budgets
    ensures var h, c' := c.desk.At(t), Advance(c, Calling(t)); var id := h.copy.budget;
            && c'.g.epoch == c.g.epoch && c'.now == c.now
            && c'.g.budgets == c.g.budgets[id := EntryOf(c.g.budgets[id], c.g.epoch, c.now, h.copy,
                                                         AnyActive(CopiesOf(c.g, id)), h.commits).budget]
            && forall u: nat :: u != t ==> c'.desk.At(u) == c.desk.At(u)
  {}

  /** Two handlers that both looked a token up before either wrote back, each to commit or to release it, both
  take its amount off `reserved` exactly under the stated conditions on the state before them. */
  lemma OverlapLowersTwice(c: Coordinator, t: nat, u: nat, token: u64, copy: Reservation, first: bool, second: bool)
    requires t != u && c.desk.At(t) == Looked(token, copy, first) && c.desk.At(u) == Looked(token, copy, second)
    ensures LowersReserved(c, t) && LowersReserved(Advance(c, Calling(t)), u) <==>
            && copy.budget in c.g.budgets && copy.amount != 0
            && Lowers(c.g.budgets[copy.budget], c.g.epoch, c.now, copy, first)
            && LowersAgain(c.g.budgets[copy.budget], c.g.epoch, c.now, copy, first, second)
    ensures LowersReserved(c, t) && LowersReserved(Advance(c, Calling(t)), u) ==>
              var end := Advance(Advance(c, Calling(t)), Calling(u));
              && copy.budget in end.g.budgets && SameTerms(c.g.budgets[copy.budget], end.g.budgets[copy.budget])
              && end.g.budgets[copy.budget].reserved == c.g.budgets[copy.budget].reserved - 2 * copy.amount
  {
    if copy.budget in c.g.budgets {
      var b, active := c.g.budgets[copy.budget], AnyActive(CopiesOf(c.g, copy.budget));
      var c' := Advance(c, Calling(t));
      CallEntry(c, t);
      EntryLowers(b, c.g.epoch, c.now, copy, active, first);
      CallEntry(c', u);
      var active' := AnyActive(CopiesOf(c'.g, copy.budget));
      EntryLowers(c'.g.budgets[copy.budget], c.g.epoch, c.now, copy, active', second);
      if Lowers(b, c.g.epoch, c.now, copy, first) { SecondLowers(b, c.g.epoch, c.now, copy, active, first, second); }
    }
  }

  lemma LoweredTwice(b: Budget, b': Budget, handles: seq<Reservation>, i: nat, state: ReservationState,
                     direct: int, direct': int)
    requires i < |handles| && handles[i].budget == b.id == b'.id && handles[i].state == Active && state != Active
    requires Balanced(b, handles, direct)
    requires handles[i].amount != 0 && b'.reserved == b.reserved - 2 * handles[i].amount
    ensures !Balanced(b', handles[i := handles[i].(state := state)], direct')
  {
    SumUpdate(handles, i, handles[i].(state := state), AmountIn(b.id, Active));
  }

  /** No state the reservation may be in then makes the account balance again. */
  lemma OverlapUnbalances(c: Coordinator, w: World, t: nat, u: nat, i: nat, first: bool, second: bool,
                          state: ReservationState, direct: int)
    requires Conserved(w) && w.g == c.g && i < |w.handles| && state != Active && t != u
    requires c.desk.At(t) == Looked(w.handles[i].id, w.handles[i], first)
    requires c.desk.At(u) == Looked(w.handles[i].id, w.handles[i], second)
    requires LowersReserved(c, t) && LowersReserved(Advance(c, Calling(t)), u)
    ensures var end := Advance(Advance(c, Calling(t)), Calling(u)); var h := w.handles[i];
            h.budget in end.g.budgets &&
            !Balanced(end.g.budgets[h.budget], w.handles[i := h.(state := state)], direct)
  {
    var h := w.handles[i];
    OverlapLowersTwice(c, t, u, h.id, h, first, second);
    var b' := Advance(Advance(c, Calling(t)), Calling(u)).g.budgets[h.budget];
    assert BalancedAt(w, h.budget);
    LoweredTwice(w.g.budgets[h.budget], b', w.handles, i, state, DirectOf(w, h.budget), direct);
  }
}
