/** Concurrent sessions of the coordinator.

Each handler takes the table lock and the governor lock separately: a reservation is made and then
inserted; a commit or release looks its token up, calls the governor on its own copy, and writes the
copy back. A run is any interleaving of these pieces. When no two handlers are between lookup and
write-back on the same token, such a run refines a sequential run of the ledger.
 */
module Sessions {
  import opened Types
  import opened GovernorModel
  import opened Ledger

  /** Where a handler stands between two locks. */
  datatype Handler =
    | Idle
    | Holding(made: Reservation)
    | Looked(token: u64, copy: Reservation, commits: bool)
    | Called(token: u64, result: Reservation)

  /** The shared table and the handlers, by thread. */
  datatype Desk = Desk(table: map<u64, Reservation>, handlers: map<nat, Handler>) {
    function At(t: nat): Handler { if t in handlers then handlers[t] else Idle }

    function Set(t: nat, h: Handler): Desk { this.(handlers := handlers[t := h]) }
  }

  datatype Coordinator = Coordinator(g: Governor, now: i64, desk: Desk)

  datatype Move =
    | Reserving(t: nat, id: u64, generation: u64, epoch: u64, amount: i64)
    | Inserting(t: nat)
    | LookingUp(t: nat, token: u64, commits: bool)
    | Calling(t: nat)
    | WritingBack(t: nat)
    | Atomic(op: Op)

  /** The operations other sessions run entirely under the governor's lock. */
  predicate IsAtomic(op: Op) {
    !op.DoReserve? && !op.DoCommit? && !op.DoRelease?
  }

  function CallOf(g: Governor, now: i64, h: Handler): Call
    requires h.Looked?
  {
    if h.commits then Commit(g, now, h.copy) else Release(g, h.copy)
  }

  /** One piece of one handler; a piece that is not due does nothing. An exception from the governor
  skips the write-back. */
  function Advance(c: Coordinator, m: Move): Coordinator {
    match m
    case Reserving(t, id, generation, epoch, amount) =>
      if c.desk.At(t) != Idle then c
      else
        var (g, _, handle) := Reserve(c.g, c.now, id, generation, epoch, amount);
        c.(g := g, desk := if handle.Some? then c.desk.Set(t, Holding(handle.value)) else c.desk)
    case Inserting(t) =>
      var h := c.desk.At(t);
      if !h.Holding? then c else c.(desk := Desk(c.desk.table[h.made.id := h.made], c.desk.Set(t, Idle).handlers))
    case LookingUp(t, token, commits) =>
      if c.desk.At(t) != Idle || token !in c.desk.table then c
      else c.(desk := c.desk.Set(t, Looked(token, c.desk.table[token], commits)))
    case Calling(t) =>
      var h := c.desk.At(t);
      if !h.Looked? then c
      else
        var call := CallOf(c.g, c.now, h);
        c.(g := call.g, desk := c.desk.Set(t, if call.outcome.Threw? then Idle else Called(h.token, call.handle)))
    case WritingBack(t) =>
      var h := c.desk.At(t);
      if !h.Called? then c else c.(desk := Desk(c.desk.table[h.token := h.result], c.desk.Set(t, Idle).handlers))
    case Atomic(op) =>
      var w := Step(World(c.g, [], c.now, map[]), op);
      if IsAtomic(op) then c.(g := w.g, now := w.now) else c
  }

  function RunMoves(c: Coordinator, moves: seq<Move>): Coordinator {
    if |moves| == 0 then c else Advance(RunMoves(c, moves[..|moves| - 1]), moves[|moves| - 1])
  }

  // ---- what each token is worth -----------------------------------------------------------

  /** The handler works on the token. */
  predicate Busy(h: Handler, token: u64) {
    match h
    case Idle => false
    case Holding(made) => made.id == token
    case Looked(k, _, _) => k == token
    case Called(k, _) => k == token
  }

  /** The handler has the only up-to-date copy of the token. */
  predicate Carries(h: Handler, token: u64) {
    !h.Looked? && Busy(h, token)
  }

  function Copy(h: Handler): Reservation
    requires h.Holding? || h.Called?
  {
    if h.Holding? then h.made else h.result
  }

  ghost predicate Exclusive(d: Desk) {
    forall t: nat, u: nat, token: u64 :: t != u && Busy(d.At(t), token) ==> !Busy(d.At(u), token)
  }

  ghost predicate IsCarried(d: Desk, token: u64) {
    exists t: nat :: Carries(d.At(t), token)
  }

  /** The up-to-date copy of a token: a handler's, or else the table's. */
  ghost function Current(d: Desk, token: u64): Option<Reservation> {
    if IsCarried(d, token) then
      var t: nat :| Carries(d.At(t), token);
      Some(Copy(d.At(t)))
    else if token in d.table then Some(d.table[token])
    else None
  }

  lemma CurrentIsCarried(d: Desk, t: nat, token: u64)
    requires Exclusive(d) && Carries(d.At(t), token)
    ensures Current(d, token) == Some(Copy(d.At(t)))
  {}

  /** A change by thread `t` that does not concern the token. */
  lemma CurrentElsewhere(d: Desk, d': Desk, t: nat, token: u64)
    requires Exclusive(d) && Exclusive(d')
    requires forall u: nat :: u != t ==> d'.At(u) == d.At(u)
    requires !Carries(d.At(t), token) && !Carries(d'.At(t), token)
    requires token in d.table <==> token in d'.table
    requires token in d.table ==> d.table[token] == d'.table[token]
    ensures Current(d', token) == Current(d, token)
  {}

  // ---- the desk against the ledger's reservations -----------------------------------------

  ghost predicate Known(hs: seq<Reservation>, token: u64) {
    exists i :: 0 <= i < |hs| && hs[i].id == token
  }

  ghost function IndexOf(hs: seq<Reservation>, token: u64): (i: nat)
    requires Known(hs, token)
    ensures i < |hs| && hs[i].id == token
  {
    var i :| 0 <= i < |hs| && hs[i].id == token;
    i
  }

  /** Reservations are numbered in the order they were made, below the next number. */
  ghost predicate Numbered(hs: seq<Reservation>, next: u64) {
    && (forall i, j :: 0 <= i < j < |hs| ==> hs[i].id < hs[j].id)
    && (forall i :: 0 <= i < |hs| ==> hs[i].id < next)
  }

  lemma OneOfEach(hs: seq<Reservation>, next: u64, i: nat, j: nat)
    requires Numbered(hs, next) && i < |hs| && j < |hs| && hs[i].id == hs[j].id
    ensures i == j
  {}

  ghost predicate HandlerSound(d: Desk, h: Handler) {
    match h
    case Idle => true
    case Holding(made) => made.id !in d.table
    case Looked(token, copy, _) => token in d.table && d.table[token] == copy && copy.id == token
    case Called(token, result) => token in d.table && result.id == token
  }

  /** The up-to-date copies of the desk are exactly the reservations of the ledger. */
  ghost predicate DeskSound(d: Desk, hs: seq<Reservation>) {
    && Exclusive(d)
    && (forall t: nat :: HandlerSound(d, d.At(t)))
    && (forall t: nat, token: u64 :: Busy(d.At(t), token) ==> Known(hs, token))
    && (forall token :: token in d.table ==> Known(hs, token))
    && (forall i :: 0 <= i < |hs| ==> Current(d, hs[i].id) == Some(hs[i]))
  }

  lemma SetElsewhere(d: Desk, t: nat, h: Handler)
    ensures d.Set(t, h).At(t) == h && d.Set(t, h).table == d.table
    ensures forall u: nat :: u != t ==> d.Set(t, h).At(u) == d.At(u)
  {}

  lemma OthersNotBusy(d: Desk, t: nat, token: u64)
    requires Exclusive(d) && Busy(d.At(t), token)
    ensures forall u: nat :: u != t ==> !Busy(d.At(u), token)
  {}

  lemma ExclusiveStays(d: Desk, d': Desk, t: nat, token: u64)
    requires Exclusive(d) && (forall u: nat :: u != t ==> d'.At(u) == d.At(u))
    requires forall k: u64 :: Busy(d'.At(t), k) ==> k == token
    requires forall u: nat :: u != t ==> !Busy(d.At(u), token)
    ensures Exclusive(d')
  {}

  /** Thread `t` moved, and only `token` is concerned. */
  ghost predicate OnlyConcerns(d: Desk, d': Desk, t: nat, token: u64) {
    && (forall u: nat :: u != t ==> d'.At(u) == d.At(u))
    && (forall k :: k != token ==> (k in d'.table <==> k in d.table) && (k in d.table ==> d'.table[k] == d.table[k]))
    && (forall k: u64 :: Busy(d.At(t), k) || Busy(d'.At(t), k) ==> k == token)
    && (forall u: nat :: u != t ==> !Busy(d.At(u), token))
  }

  /** The desk's copy of `token`, when only thread `t` may be busy with it. */
  ghost function Seen(d: Desk, t: nat, token: u64): Option<Reservation> {
    if Carries(d.At(t), token) then Some(Copy(d.At(t)))
    else if token in d.table then Some(d.table[token])
    else None
  }

  lemma SeenIsCurrent(d: Desk, t: nat, token: u64)
    requires Exclusive(d) && forall u: nat :: u != t ==> !Busy(d.At(u), token)
    ensures Current(d, token) == Seen(d, t, token)
  {}

  /** The ledger's reservations changed at most at `token`. */
  ghost predicate HandlesFollow(hs: seq<Reservation>, hs': seq<Reservation>, token: u64, seen: Option<Reservation>) {
    && (forall k: u64 :: Known(hs, k) ==> Known(hs', k))
    && (forall i :: 0 <= i < |hs'| && hs'[i].id != token ==> i < |hs| && hs'[i] == hs[i])
    && (forall i :: 0 <= i < |hs'| && hs'[i].id == token ==> seen == Some(hs'[i]))
  }

  lemma DeskStaysSound(d: Desk, d': Desk, hs: seq<Reservation>, hs': seq<Reservation>, t: nat, token: u64)
    requires DeskSound(d, hs) && OnlyConcerns(d, d', t, token) && HandlerSound(d', d'.At(t))
    requires HandlesFollow(hs, hs', token, Seen(d', t, token)) && Known(hs', token)
    ensures DeskSound(d', hs')
  {
    ExclusiveStays(d, d', t, token);
    forall u: nat ensures HandlerSound(d', d'.At(u)) {
      if u != t { assert HandlerSound(d, d.At(u)) && !Busy(d.At(u), token); }
    }
    forall u: nat, k: u64 | Busy(d'.At(u), k) ensures Known(hs', k) {
      if u != t { assert Busy(d.At(u), k); }
    }
    forall k | k in d'.table ensures Known(hs', k) {
      if k != token { assert k in d.table; }
    }
    forall i | 0 <= i < |hs'| ensures Current(d', hs'[i].id) == Some(hs'[i]) {
      if hs'[i].id != token {
        CurrentElsewhere(d, d', t, hs'[i].id);
      } else {
        SeenIsCurrent(d', t, token);
      }
    }
  }

  lemma HandlesStay(d: Desk, hs: seq<Reservation>, next: u64, token: u64, i: nat)
    requires DeskSound(d, hs) && Numbered(hs, next) && i < |hs| && hs[i].id == token
    ensures HandlesFollow(hs, hs, token, Some(hs[i]))
  {}

  /** A carried copy goes into the table. */
  lemma DeskStores(d: Desk, hs: seq<Reservation>, next: u64, t: nat)
    requires DeskSound(d, hs) && Numbered(hs, next) && (d.At(t).Holding? || d.At(t).Called?)
    ensures DeskSound(Desk(d.table[Copy(d.At(t)).id := Copy(d.At(t))], d.Set(t, Idle).handlers), hs)
  {
    var copy := Copy(d.At(t));
    var token := copy.id;
    var d' := Desk(d.table[token := copy], d.Set(t, Idle).handlers);
    assert HandlerSound(d, d.At(t)) && Busy(d.At(t), token) && Known(hs, token);
    SetElsewhere(d, t, Idle);
    forall u: nat | u != t ensures d'.At(u) == d.At(u) { assert d.Set(t, Idle).At(u) == d.At(u); }
    OthersNotBusy(d, t, token);
    CurrentIsCarried(d, t, token);
    HandlesStay(d, hs, next, token, IndexOf(hs, token));
    DeskStaysSound(d, d', hs, hs, t, token);
  }

  lemma DeskLooksUp(d: Desk, hs: seq<Reservation>, next: u64, t: nat, token: u64, commits: bool)
    requires DeskSound(d, hs) && Numbered(hs, next) && d.At(t) == Idle && token in d.table
    requires forall u: nat :: u != t ==> !Busy(d.At(u), token)
    ensures DeskSound(d.Set(t, Looked(token, d.table[token], commits)), hs)
  {
    var h := Looked(token, d.table[token], commits);
    SetElsewhere(d, t, h);
    SeenIsCurrent(d, t, token);
    HandlesStay(d, hs, next, token, IndexOf(hs, token));
    DeskStaysSound(d, d.Set(t, h), hs, hs, t, token);
  }

  lemma DeskHolds(d: Desk, hs: seq<Reservation>, t: nat, made: Reservation)
    requires DeskSound(d, hs) && Numbered(hs, made.id) && d.At(t) == Idle
    ensures DeskSound(d.Set(t, Holding(made)), hs + [made])
  {
    var hs', token := hs + [made], made.id;
    assert !Known(hs, token);
    assert forall u: nat :: !Busy(d.At(u), token);
    SetElsewhere(d, t, Holding(made));
    assert hs'[|hs|].id == token;
    forall k: u64 | Known(hs, k) ensures Known(hs', k) { assert hs'[IndexOf(hs, k)].id == k; }
    DeskStaysSound(d, d.Set(t, Holding(made)), hs, hs', t, token);
  }

  /** What a looked-up copy is worth. */
  lemma LookedIsLedger(d: Desk, hs: seq<Reservation>, t: nat)
    requires DeskSound(d, hs) && d.At(t).Looked?
    ensures Known(hs, d.At(t).token) && hs[IndexOf(hs, d.At(t).token)] == d.At(t).copy
  {}

  lemma DeskCalls(d: Desk, hs: seq<Reservation>, next: u64, t: nat, result: Reservation)
    requires DeskSound(d, hs) && Numbered(hs, next) && d.At(t).Looked? && result.id == d.At(t).token
    ensures Known(hs, d.At(t).token)
    ensures DeskSound(d.Set(t, Called(d.At(t).token, result)), hs[IndexOf(hs, d.At(t).token) := result])
  {
    LookedIsLedger(d, hs, t);
    var token := d.At(t).token;
    var i := IndexOf(hs, token);
    var hs' := hs[i := result];
    OthersNotBusy(d, t, token);
    SetElsewhere(d, t, Called(token, result));
    assert HandlerSound(d, d.At(t));
    forall k: u64 | Known(hs, k) ensures Known(hs', k) { assert hs'[IndexOf(hs, k)].id == k; }
    forall j | 0 <= j < |hs'| && hs'[j].id == token ensures j == i { OneOfEach(hs, next, i, j); }
    DeskStaysSound(d, d.Set(t, Called(token, result)), hs, hs', t, token);
  }

  lemma DeskGivesUp(d: Desk, hs: seq<Reservation>, next: u64, t: nat)
    requires DeskSound(d, hs) && Numbered(hs, next) && d.At(t).Looked?
    ensures DeskSound(d.Set(t, Idle), hs)
  {
    LookedIsLedger(d, hs, t);
    var token := d.At(t).token;
    OthersNotBusy(d, t, token);
    SetElsewhere(d, t, Idle);
    assert HandlerSound(d, d.At(t));
    HandlesStay(d, hs, next, token, IndexOf(hs, token));
    DeskStaysSound(d, d.Set(t, Idle), hs, hs, t, token);
  }

  // ---- the simulation ---------------------------------------------------------------------

  /** The desk and the sequential ledger tell the same story. */
  ghost predicate Simulates(c: Coordinator, w: World) {
    && c.g == w.g && c.now == w.now && Conserved(w)
    && Numbered(w.handles, w.g.nextReservation) && DeskSound(c.desk, w.handles)
  }

  function OpOf(h: Handler, i: nat): Op
    requires h.Looked?
  {
    if h.commits then DoCommit(i) else DoRelease(i)
  }

  /** The sequential step a move stands for, if any. */
  ghost function Shadow(c: Coordinator, w: World, m: Move): World {
    match m
    case Reserving(t, id, generation, epoch, amount) =>
      if c.desk.At(t) == Idle then Step(w, DoReserve(id, generation, epoch, amount)) else w
    case Calling(t) =>
      var h := c.desk.At(t);
      if h.Looked? && Known(w.handles, h.token) then Step(w, OpOf(h, IndexOf(w.handles, h.token))) else w
    case Atomic(op) => if IsAtomic(op) then Step(w, op) else w
    case _ => w
  }

  /** A lookup waits for the other handlers of its token; a counter does not wrap; no hand-back overflows. */
  ghost predicate Allowed(c: Coordinator, m: Move) {
    match m
    case Reserving(_, _, _, _, _) => c.g.nextReservation < U64_MAX
    case LookingUp(t, token, _) => forall u: nat :: u != t ==> !Busy(c.desk.At(u), token)
    case Calling(t) =>
      var h := c.desk.At(t);
      h.Looked? ==> !Strands(World(c.g, [h.copy], c.now, map[]), OpOf(h, 0))
    case Atomic(op) => Honest(op)
    case _ => true
  }

  lemma StoringSimulates(c: Coordinator, w: World, m: Move)
    requires Simulates(c, w) && (m.Inserting? || m.WritingBack?)
    ensures Simulates(Advance(c, m), w)
  {
    var h := c.desk.At(m.t);
    assert HandlerSound(c.desk, h);
    if (m.Inserting? && h.Holding?) || (m.WritingBack? && h.Called?) {
      DeskStores(c.desk, w.handles, w.g.nextReservation, m.t);
    }
  }

  lemma LookingUpSimulates(c: Coordinator, w: World, m: Move)
    requires Simulates(c, w) && m.LookingUp? && Allowed(c, m)
    ensures Simulates(Advance(c, m), w)
  {
    if c.desk.At(m.t) == Idle && m.token in c.desk.table {
      DeskLooksUp(c.desk, w.handles, w.g.nextReservation, m.t, m.token, m.commits);
    }
  }

  /** A reservation either fails and numbers nothing, or takes the next number. */
  lemma ReserveNumbers(g: Governor, now: i64, id: u64, generation: u64, epoch: u64, amount: i64)
    ensures var (g', _, handle) := Reserve(g, now, id, generation, epoch, amount);
            && (handle.None? ==> g'.nextReservation == g.nextReservation)
            && (handle.Some? ==> g'.nextReservation == Next(g.nextReservation) && handle.value.id == g.nextReservation)
  {}

  lemma NumberedPush(hs: seq<Reservation>, made: Reservation, next: u64)
    requires Numbered(hs, made.id) && made.id < next
    ensures Numbered(hs + [made], next)
  {}

  lemma ReservingSimulates(c: Coordinator, w: World, m: Move)
    requires Simulates(c, w) && m.Reserving? && Allowed(c, m)
    ensures Simulates(Advance(c, m), Shadow(c, w, m))
  {
    if c.desk.At(m.t) == Idle {
      var op := DoReserve(m.id, m.generation, m.epoch, m.amount);
      ReserveConserves(w, m.id, m.generation, m.epoch, m.amount);
      ReserveNumbers(w.g, w.now, m.id, m.generation, m.epoch, m.amount);
      var (g, _, handle) := Reserve(w.g, w.now, m.id, m.generation, m.epoch, m.amount);
      if handle.Some? {
        DeskHolds(c.desk, w.handles, m.t, handle.value);
        NumberedPush(w.handles, handle.value, g.nextReservation);
      }
    }
  }

  lemma CallKeepsIdentity(g: Governor, now: i64, h: Handler)
    requires h.Looked?
    ensures var call := CallOf(g, now, h);
            call.handle.id == h.copy.id && call.g.nextReservation == g.nextReservation
  {}

  /** Without an overflowing hand-back, a call that throws has changed nothing. */
  lemma ThrowChangesNothing(w: World, i: nat, h: Handler)
    requires Conserved(w) && h.Looked? && i < |w.handles| && w.handles[i] == h.copy
    requires !Strands(w, OpOf(h, i)) && CallOf(w.g, w.now, h).outcome.Threw?
    ensures CallOf(w.g, w.now, h).g == w.g && CallOf(w.g, w.now, h).handle == h.copy
  {
    var b := w.g.budgets[h.copy.budget];
    assert w.g.budgets[h.copy.budget := b] == w.g.budgets;
    if h.copy.state == Active {
      ActiveIsReserved(w, i);
      if h.commits {
        CommitThrew(b, w.g.epoch, w.now, h.copy);
      } else {
        ReleaseThrew(b, w.g.epoch, AnyActive(CopiesOf(w.g, h.copy.budget)), h.copy);
      }
    }
  }

  lemma CommitThrew(b: Budget, current: u64, now: i64, h: Reservation)
    requires h.state == Active && 0 <= h.amount <= b.reserved && CommitIn(b, current, now, h).outcome.Threw?
    ensures CommitIn(b, current, now, h).state == Active ==> CommitIn(b, current, now, h).budget == b
    ensures CommitIn(b, current, now, h).state != Active ==>
              (b.released + h.amount > I64_MAX && b.generation == h.budgetGeneration
               && h.epoch == current && b.epoch == current && b.IsLive() && PastExpiry(h.expiresAt, now))
  {}

  lemma ReleaseThrew(b: Budget, current: u64, anyActive: bool, h: Reservation)
    requires h.state == Active && 0 <= h.amount <= b.reserved && ReleaseIn(b, current, anyActive, h).outcome.Threw?
    ensures b.released + h.amount > I64_MAX && b.generation == h.budgetGeneration && h.epoch == current
  {}

  lemma CallIsStep(w: World, i: nat, h: Handler)
    requires h.Looked? && i < |w.handles| && w.handles[i] == h.copy
    ensures var call := CallOf(w.g, w.now, h);
            Step(w, OpOf(h, i)) == w.(g := call.g, handles := w.handles[i := call.handle])
    ensures Strands(World(w.g, [h.copy], w.now, map[]), OpOf(h, 0)) <==> Strands(w, OpOf(h, i))
  {}

  lemma NumberedUpdate(hs: seq<Reservation>, next: u64, i: nat, h: Reservation)
    requires Numbered(hs, next) && i < |hs| && h.id == hs[i].id
    ensures Numbered(hs[i := h], next)
  {}

  lemma CallingSimulates(c: Coordinator, w: World, m: Move)
    requires Simulates(c, w) && m.Calling? && Allowed(c, m)
    ensures Simulates(Advance(c, m), Shadow(c, w, m))
  {
    var d, h := c.desk, c.desk.At(m.t);
    if h.Looked? {
      LookedIsLedger(d, w.handles, m.t);
      assert HandlerSound(d, h);
      var i := IndexOf(w.handles, h.token);
      CallIsStep(w, i, h);
      if CallOf(c.g, c.now, h).outcome.Threw? {
        ThrowSimulates(c, w, m.t, i);
      } else {
        ReturnSimulates(c, w, m.t, i);
      }
    }
  }

  lemma ThrowSimulates(c: Coordinator, w: World, t: nat, i: nat)
    requires Simulates(c, w) && c.desk.At(t).Looked? && Known(w.handles, c.desk.At(t).token)
    requires i == IndexOf(w.handles, c.desk.At(t).token) && w.handles[i] == c.desk.At(t).copy
    requires !Strands(w, OpOf(c.desk.At(t), i)) && CallOf(c.g, c.now, c.desk.At(t)).outcome.Threw?
    ensures var h := c.desk.At(t);
            Simulates(Coordinator(CallOf(c.g, c.now, h).g, c.now, c.desk.Set(t, Idle)), Step(w, OpOf(h, i)))
  {
    ThrowIsNoStep(w, i, c.desk.At(t));
    DeskGivesUp(c.desk, w.handles, w.g.nextReservation, t);
  }

  lemma ThrowIsNoStep(w: World, i: nat, h: Handler)
    requires Conserved(w) && h.Looked? && i < |w.handles| && w.handles[i] == h.copy
    requires !Strands(w, OpOf(h, i)) && CallOf(w.g, w.now, h).outcome.Threw?
    ensures Step(w, OpOf(h, i)) == w && CallOf(w.g, w.now, h).g == w.g
  {
    CallIsStep(w, i, h);
    ThrowChangesNothing(w, i, h);
    assert w.handles[i := h.copy] == w.handles;
  }

  lemma ReturnSimulates(c: Coordinator, w: World, t: nat, i: nat)
    requires Simulates(c, w) && c.desk.At(t).Looked? && Known(w.handles, c.desk.At(t).token)
    requires i == IndexOf(w.handles, c.desk.At(t).token) && w.handles[i] == c.desk.At(t).copy
    requires !Strands(w, OpOf(c.desk.At(t), i))
    ensures var h := c.desk.At(t); var call := CallOf(c.g, c.now, h);
            Simulates(Coordinator(call.g, c.now, c.desk.Set(t, Called(h.token, call.handle))), Step(w, OpOf(h, i)))
  {
    var h := c.desk.At(t);
    var call := CallOf(c.g, c.now, h);
    CallIsStep(w, i, h);
    CallKeepsIdentity(w.g, w.now, h);
    StepConserves(w, OpOf(h, i));
    NumberedUpdate(w.handles, w.g.nextReservation, i, call.handle);
    DeskCalls(c.desk, w.handles, w.g.nextReservation, t, call.handle);
  }

  lemma AtomicKeepsHandles(w: World, op: Op)
    requires IsAtomic(op)
    ensures var w' := Step(w, op); w'.handles == w.handles && w'.g.nextReservation == w.g.nextReservation
    ensures var v := Step(World(w.g, [], w.now, map[]), op); v.g == Step(w, op).g && v.now == Step(w, op).now
  {}

  lemma AtomicSimulates(c: Coordinator, w: World, m: Move)
    requires Simulates(c, w) && m.Atomic? && Allowed(c, m)
    ensures Simulates(Advance(c, m), Shadow(c, w, m))
  {
    if IsAtomic(m.op) {
      AtomicKeepsHandles(w, m.op);
      StepConserves(w, m.op);
    }
  }

  /** Every allowed move of every handler is a step of the sequential ledger, or none. */
  lemma MoveSimulates(c: Coordinator, w: World, m: Move)
    requires Simulates(c, w) && Allowed(c, m)
    ensures Simulates(Advance(c, m), Shadow(c, w, m))
  {
    match m
    case Reserving(_, _, _, _, _) => ReservingSimulates(c, w, m);
    case Inserting(_) => StoringSimulates(c, w, m);
    case LookingUp(_, _, _) => LookingUpSimulates(c, w, m);
    case Calling(_) => CallingSimulates(c, w, m);
    case WritingBack(_) => StoringSimulates(c, w, m);
    case Atomic(_) => AtomicSimulates(c, w, m);
  }
}
