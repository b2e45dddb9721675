/** One charge per attempt, over every run of deliveries, and a history that only grows. */
module Attempts {
  import opened Types
  import opened Billing
  import opened Keys
  import opened GovernorModel
  import opened Ledger

  /** The governor after a sequence of deliveries. */
  function Deliver(g: Governor, log: seq<CostEvidence>): Governor {
    if |log| == 0 then g else RecordAttempt(Deliver(g, log[..|log| - 1]), log[|log| - 1]).0
  }

  /** The delivery carries the current epoch and boot, and is well formed. */
  predicate Acceptable(g: Governor, e: CostEvidence) {
    e.epoch == g.epoch && e.boot == CurrentBoot(g, e.worker) && e.dataLabel != UNSUPPORTED && !NegativeUsage(e)
  }

  /** Delivery `i` is an acceptable one for this attempt. */
  predicate Counts(g: Governor, log: seq<CostEvidence>, request: u64, attempt: u64, i: nat) {
    i < |log| && log[i].request == request && log[i].attempt == attempt && Acceptable(g, log[i])
  }

  /** Delivery `i` starts the last run of acceptable deliveries with one attempt generation. */
  ghost predicate IsLastAccepted(g: Governor, log: seq<CostEvidence>, request: u64, attempt: u64, i: nat) {
    && Counts(g, log, request, attempt, i)
    && (forall j :: i < j < |log| && Counts(g, log, request, attempt, j) ==>
          log[j].attemptGeneration == log[i].attemptGeneration)
    && (forall j :: 0 <= j < i && Counts(g, log, request, attempt, j) &&
                    log[j].attemptGeneration == log[i].attemptGeneration ==>
          exists k :: j < k < i && Counts(g, log, request, attempt, k) &&
                      log[k].attemptGeneration != log[i].attemptGeneration)
  }

  lemma LastAcceptedUnique(g: Governor, log: seq<CostEvidence>, request: u64, attempt: u64, i: nat, j: nat)
    requires IsLastAccepted(g, log, request, attempt, i) && IsLastAccepted(g, log, request, attempt, j)
    ensures i == j
  {}

  function Stored(g: Governor, request: u64, attempt: u64): Option<CostEvidence> {
    if attempt in AttemptsOf(g, request) then Some(AttemptsOf(g, request)[attempt]) else None
  }

  lemma {:induction false} DeliverKeepsAuthority(g: Governor, log: seq<CostEvidence>)
    ensures Deliver(g, log) == g.(attempts := Deliver(g, log).attempts)
  {
    if |log| > 0 { DeliverKeepsAuthority(g, log[..|log| - 1]); }
  }

  /** A delivery reaches exactly the attempt it names, and only with a new generation. */
  lemma RecordMeaning(g: Governor, e: CostEvidence, request: u64, attempt: u64)
    ensures Stored(RecordAttempt(g, e).0, request, attempt) ==
            if && e.request == request && e.attempt == attempt && Acceptable(g, e)
               && (var s := Stored(g, request, attempt); s.None? || s.value.attemptGeneration != e.attemptGeneration)
            then Some(e) else Stored(g, request, attempt)
  {}

  lemma PrefixCounts(g: Governor, log: seq<CostEvidence>, request: u64, attempt: u64)
    requires |log| > 0
    ensures forall j :: 0 <= j < |log| - 1 ==>
              (Counts(g, log[..|log| - 1], request, attempt, j) <==> Counts(g, log, request, attempt, j))
  {}

  /** Over every run of deliveries, whatever is interleaved, the governor holds for each attempt
      nothing if none was acceptable, and otherwise exactly the last accepted evidence. */
  lemma {:induction false} LastAcceptedIsStored(g: Governor, log: seq<CostEvidence>, request: u64, attempt: u64)
    returns (i: nat)
    requires Stored(g, request, attempt).None?
    ensures Stored(Deliver(g, log), request, attempt).None? <==>
              forall j :: 0 <= j < |log| ==> !Counts(g, log, request, attempt, j)
    ensures Stored(Deliver(g, log), request, attempt).Some? ==>
              IsLastAccepted(g, log, request, attempt, i) &&
              log[i] == Stored(Deliver(g, log), request, attempt).value
  {
    if |log| == 0 {
      i := 0;
    } else {
      var before, n := log[..|log| - 1], |log| - 1;
      i := LastAcceptedIsStored(g, before, request, attempt);
      DeliverKeepsAuthority(g, before);
      RecordMeaning(Deliver(g, before), log[n], request, attempt);
      PrefixCounts(g, log, request, attempt);
      var was := Stored(Deliver(g, before), request, attempt);
      if Counts(g, log, request, attempt, n) && (was.None? || was.value.attemptGeneration != log[n].attemptGeneration) {
        if was.Some? { NewRunStarts(g, log, request, attempt, i, n); }
        i := n;
      } else if was.Some? {
        OldRunContinues(g, log, request, attempt, i, n);
      }
    }
  }

  lemma NewRunStarts(g: Governor, log: seq<CostEvidence>, request: u64, attempt: u64, i: nat, n: nat)
    requires n == |log| - 1 && i < n && IsLastAccepted(g, log[..n], request, attempt, i)
    requires Counts(g, log, request, attempt, n) && log[i].attemptGeneration != log[n].attemptGeneration
    ensures IsLastAccepted(g, log, request, attempt, n)
  {}

  lemma OldRunContinues(g: Governor, log: seq<CostEvidence>, request: u64, attempt: u64, i: nat, n: nat)
    requires n == |log| - 1 && i < n && IsLastAccepted(g, log[..n], request, attempt, i)
    requires Counts(g, log, request, attempt, n) ==> log[i].attemptGeneration == log[n].attemptGeneration
    ensures IsLastAccepted(g, log, request, attempt, i)
  {}

  // ---- deliveries that change nothing ---------------------------------------------------

  lemma {:induction false} DeliverConcat(g: Governor, a: seq<CostEvidence>, b: seq<CostEvidence>)
    ensures Deliver(g, a + b) == Deliver(Deliver(g, a), b)
  {
    if |b| == 0 {
      assert a + b == a;
    } else {
      DeliverConcat(g, a, b[..|b| - 1]);
      assert (a + b)[..|a + b| - 1] == a + b[..|b| - 1];
    }
  }

  /** A stale or invalid delivery, wherever it is inserted, leaves no trace. */
  lemma UnacceptableLeavesNoTrace(g: Governor, a: seq<CostEvidence>, e: CostEvidence, b: seq<CostEvidence>)
    requires !Acceptable(g, e)
    ensures Deliver(g, a + [e] + b) == Deliver(g, a + b)
  {
    DeliverConcat(g, a, b);
    DeliverConcat(g, a + [e], b);
    DeliverConcat(g, a, [e]);
    DeliverKeepsAuthority(g, a);
    DeliverOne(Deliver(g, a), e);
  }

  lemma DeliverOne(g: Governor, e: CostEvidence)
    ensures Deliver(g, [e]) == RecordAttempt(g, e).0
  {}

  /** A delivery repeated at once is charged once. */
  lemma RepeatLeavesNoTrace(g: Governor, a: seq<CostEvidence>, e: CostEvidence, b: seq<CostEvidence>)
    ensures Deliver(g, a + [e, e] + b) == Deliver(g, a + [e] + b)
  {
    var h := Deliver(g, a);
    DeliverConcat(g, a + [e], b);
    DeliverConcat(g, a, [e]);
    DeliverConcat(g, a + [e, e], b);
    DeliverConcat(g, a, [e, e]);
    assert [e, e] == [e] + [e];
    DeliverConcat(h, [e], [e]);
    DeliverOne(h, e);
    DeliverOne(RecordAttempt(h, e).0, e);
  }

  /** A delivery repeated after another generation of the attempt is not refused: it replaces the
      newer evidence. The attempt is still charged once. */
  lemma LateRepeatReplaces(g: Governor, e: CostEvidence, f: CostEvidence)
    requires Acceptable(g, e) && Acceptable(g, f)
    requires e.request == f.request && e.attempt == f.attempt && e.attemptGeneration != f.attemptGeneration
    requires Stored(g, e.request, e.attempt).None?
    ensures Stored(Deliver(g, [e, f, e]), e.request, e.attempt) == Some(e)
  {
    assert [e, f, e] == [e, f] + [e] && [e, f] == [e] + [f];
    DeliverConcat(g, [e, f], [e]);
    DeliverConcat(g, [e], [f]);
    DeliverOne(g, e);
    var g1 := RecordAttempt(g, e).0;
    DeliverOne(g1, f);
    var g2 := RecordAttempt(g1, f).0;
    DeliverOne(g2, e);
    RecordMeaning(g, e, e.request, e.attempt);
    RecordMeaning(g1, f, e.request, e.attempt);
    RecordMeaning(g2, e, e.request, e.attempt);
  }

  // ---- the realized cost ----------------------------------------------------------------

  ghost predicate Delivered(g: Governor, log: seq<CostEvidence>, request: u64, attempt: u64) {
    exists j :: 0 <= j < |log| && Counts(g, log, request, attempt, j)
  }

  /** For each attempt of `ids`, where in the deliveries its last accepted evidence is. */
  ghost predicate LastOfEach(g: Governor, log: seq<CostEvidence>, request: u64, ids: seq<u64>, last: seq<nat>) {
    |last| == |ids| && forall n :: 0 <= n < |ids| ==> IsLastAccepted(g, log, request, ids[n], last[n])
  }

  function Chosen(log: seq<CostEvidence>, last: seq<nat>): seq<CostEvidence>
    requires forall n :: 0 <= n < |last| ==> last[n] < |log|
  {
    seq(|last|, n requires 0 <= n < |last| => log[last[n]])
  }

  lemma FindLast(g: Governor, log: seq<CostEvidence>, request: u64, ids: seq<u64>) returns (last: seq<nat>)
    requires request !in g.attempts
    requires forall n :: 0 <= n < |ids| ==> ids[n] in AttemptsOf(Deliver(g, log), request)
    ensures LastOfEach(g, log, request, ids, last)
    ensures Chosen(log, last) == ValuesAt(AttemptsOf(Deliver(g, log), request), ids)
  {
    last := [];
    for n := 0 to |ids|
      invariant LastOfEach(g, log, request, ids[..n], last)
      invariant forall k :: 0 <= k < n ==> log[last[k]] == AttemptsOf(Deliver(g, log), request)[ids[k]]
    {
      var i := LastAcceptedIsStored(g, log, request, ids[n]);
      last := last + [i];
    }
    assert ids[..|ids|] == ids;
  }

  lemma DeliveredIsStored(g: Governor, log: seq<CostEvidence>, request: u64, attempt: u64)
    requires request !in g.attempts
    ensures Delivered(g, log, request, attempt) <==> attempt in AttemptsOf(Deliver(g, log), request)
  {
    var i := LastAcceptedIsStored(g, log, request, attempt);
  }

  lemma RealizedAs(g: Governor, now: i64, request: u64)
    ensures var evidence := SortedValues(AttemptsOf(g, request)); var r := RealizedRequestCost(g, now, request);
            && (r.Ok? <==> AllPriceable(g.Market(now), evidence) && Bill(g.Market(now), evidence) <= I64_MAX)
            && (r.Ok? ==> r.value == Bill(g.Market(now), evidence))
  {
    ProjectExact(g.Market(now), SortedValues(AttemptsOf(g, request)));
  }

  /** After any deliveries for a new request, its cost is the bill of the last accepted evidence of each
      attempt that was delivered, each attempt once, and exists exactly when that bill does. */
  lemma RealizedIsBill(g: Governor, log: seq<CostEvidence>, now: i64, request: u64)
    returns (ids: seq<u64>, last: seq<nat>)
    requires request !in g.attempts
    ensures Ascending(ids) && forall id :: id in ids <==> Delivered(g, log, request, id)
    ensures LastOfEach(g, log, request, ids, last)
    ensures var r, bill := RealizedRequestCost(Deliver(g, log), now, request), Bill(g.Market(now), Chosen(log, last));
            && (r.Ok? <==> AllPriceable(g.Market(now), Chosen(log, last)) && bill <= I64_MAX)
            && (r.Ok? ==> r.value == bill)
  {
    var g' := Deliver(g, log);
    ids := SortedKeys(AttemptsOf(g', request).Keys);
    forall id ensures id in ids <==> Delivered(g, log, request, id) { DeliveredIsStored(g, log, request, id); }
    last := FindLast(g, log, request, ids);
    DeliverKeepsAuthority(g, log);
    RealizedAs(g', now, request);
  }

  // ---- history --------------------------------------------------------------------------

  predicate OneEntryPerRequest(history: seq<HistoryEntry>) {
    forall i, j :: 0 <= i < j < |history| ==> history[i].request != history[j].request
  }

  /** Finalizing records a request once, at the cost realized at that moment. */
  lemma FinalizeAppends(g: Governor, now: i64, request: u64, workload: u64)
    ensures var (g', outcome) := FinalizeRequest(g, now, request, workload);
            && g.history <= g'.history
            && (OneEntryPerRequest(g.history) ==> OneEntryPerRequest(g'.history))
            && (outcome == Returned(OK) ==> InHistory(g', request))
            && (g'.history != g.history ==>
                 && RealizedRequestCost(g, now, request).Ok?
                 && g'.history ==
                      g.history + [HistoryEntry(request, workload, now, RealizedRequestCost(g, now, request).value,
                                                            Wrap(|AttemptsOf(g, request)|), 0)])
  {
    var (g', outcome) := FinalizeRequest(g, now, request, workload);
    if g'.history != g.history {
      var entry := g'.history[|g.history|];
      assert g'.history == g.history + [entry] && entry.request == request;
      EntryIsNew(g.history, entry);
    }
  }

  lemma EntryIsNew(history: seq<HistoryEntry>, entry: HistoryEntry)
    requires forall i :: 0 <= i < |history| ==> history[i].request != entry.request
    ensures history <= history + [entry]
    ensures OneEntryPerRequest(history) ==> OneEntryPerRequest(history + [entry])
  {}

  lemma StepKeepsHistory(w: World, op: Op)
    requires !op.DoFinalize?
    ensures Step(w, op).g.history == w.g.history
  {
    match op
    case DoReserve(_, _, _, _) =>
    case DoCommit(_) =>
    case DoRelease(_) =>
    case _ =>
  }

  /** Over every run the history gains at most one entry per request, and an entry never changes. */
  lemma {:induction false} HistoryOnlyGrows(w: World, ops: seq<Op>)
    ensures w.g.history <= Run(w, ops).g.history
    ensures OneEntryPerRequest(w.g.history) ==> OneEntryPerRequest(Run(w, ops).g.history)
  {
    if |ops| > 0 {
      var v, op := Run(w, ops[..|ops| - 1]), ops[|ops| - 1];
      HistoryOnlyGrows(w, ops[..|ops| - 1]);
      if op.DoFinalize? {
        FinalizeAppends(v.g, v.now, op.request, op.workload);
      } else {
        StepKeepsHistory(v, op);
      }
    }
  }
}
