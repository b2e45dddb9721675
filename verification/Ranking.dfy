/** The choice is the unique lexicographic minimum of the feasible plans, whatever the order of the
plans and of the budgets; the budgets decide whether there is a choice, never which. */
module Ranking {
  import opened Types
  import opened Planning

  // ---- the order ------------------------------------------------------------------------

  /** The eight ranking keys, smaller is better. */
  function Key(c: Candidate): (k: seq<int>)
    ensures |k| == 8
  {
    var probability: int := c.plan.completionProbabilityPercent;
    [c.econ.projected.total, c.econ.perRequest, c.econ.perToken,
     KnownValue(c.econ.projected, 1), KnownValue(c.econ.projected, 2), KnownValue(c.econ.projected, 0),
     -probability, c.plan.id]
  }

  /** `k` and `l` agree before position `i`, where `k` is smaller. */
  predicate LessAt(k: seq<int>, l: seq<int>, i: nat) {
    |k| == |l| && i < |k| && k[i] < l[i] && forall j :: 0 <= j < i ==> k[j] == l[j]
  }

  ghost predicate LexLess(k: seq<int>, l: seq<int>) {
    exists i: nat :: LessAt(k, l, i)
  }

  /** Two keys that agree before position `n` are the same, or one of them is smaller. */
  lemma {:induction false} LexTotalFrom(k: seq<int>, l: seq<int>, n: nat)
    requires |k| == |l| && n <= |k|
    requires forall j :: 0 <= j < n ==> k[j] == l[j]
    ensures k == l || LexLess(k, l) || LexLess(l, k)
    decreases |k| - n
  {
    if n < |k| {
      if k[n] == l[n] { LexTotalFrom(k, l, n + 1); }
      else if k[n] < l[n] { assert LessAt(k, l, n); }
      else { assert LessAt(l, k, n); }
    }
  }

  /** The comparison written out key by key is the lexicographic order. */
  lemma BetterIsLex(a: Candidate, b: Candidate)
    ensures Better(a, b) <==> LexLess(Key(a), Key(b))
  {
    var k, l := Key(a), Key(b);
    if Better(a, b) {
      assert LessAt(k, l, 0) || LessAt(k, l, 1) || LessAt(k, l, 2) || LessAt(k, l, 3) ||
             LessAt(k, l, 4) || LessAt(k, l, 5) || LessAt(k, l, 6) || LessAt(k, l, 7);
    }
    if LexLess(k, l) {
      var i: nat :| LessAt(k, l, i);
      assert forall j :: 0 <= j < i ==> k[j] == l[j];
      assert (i > 0 ==> k[0] == l[0]) && (i > 1 ==> k[1] == l[1]) && (i > 2 ==> k[2] == l[2]);
      assert (i > 3 ==> k[3] == l[3]) && (i > 4 ==> k[4] == l[4]) && (i > 5 ==> k[5] == l[5]);
      assert (i > 6 ==> k[6] == l[6]) && i < 8;
    }
  }

  /** Of two candidates with different ids, one is ranked before the other. */
  lemma RankedApart(a: Candidate, b: Candidate)
    requires a.plan.id != b.plan.id && !Better(b, a)
    ensures LexLess(Key(a), Key(b))
  {
    assert Key(a)[7] != Key(b)[7];
    LexTotalFrom(Key(a), Key(b), 0);
    BetterIsLex(b, a);
  }

  /** Not being beaten carries over: the order is a strict weak one, as the sort demands. */
  ghost predicate StrictWeak(ahead: Comparison) {
    && (forall a, b :: ahead(a, b) ==> !ahead(b, a))
    && (forall a, b, c :: !ahead(b, a) && !ahead(c, b) ==> !ahead(c, a))
  }

  lemma BetterIsStrictWeak()
    ensures StrictWeak(Better)
  {}

  // ---- the sort -------------------------------------------------------------------------

  predicate Sorted(s: seq<Candidate>, ahead: Comparison) {
    forall i, j :: 0 <= i < j < |s| ==> !ahead(s[j], s[i])
  }

  lemma {:induction false} InsertSorts(c: Candidate, s: seq<Candidate>, ahead: Comparison)
    requires StrictWeak(ahead) && Sorted(s, ahead)
    ensures Sorted(Insert(c, s, ahead), ahead)
  {
    if |s| > 0 && ahead(s[0], c) {
      var t := Insert(c, s[1..], ahead);
      InsertSorts(c, s[1..], ahead);
      InsertKeeps(c, s[1..], ahead);
      forall j | 0 <= j < |t| ensures !ahead(t[j], s[0]) {
        assert t[j] in multiset(t);
        if t[j] != c {
          assert t[j] in s[1..];
          var k :| 0 <= k < |s| - 1 && s[1..][k] == t[j];
          assert s[k + 1] == t[j];
        }
      }
    }
  }

  lemma {:induction false} InsertKeeps(c: Candidate, s: seq<Candidate>, ahead: Comparison)
    ensures multiset(Insert(c, s, ahead)) == multiset(s) + multiset{c}
  {
    if |s| > 0 && ahead(s[0], c) {
      InsertKeeps(c, s[1..], ahead);
      assert s == [s[0]] + s[1..];
    }
  }

  /** The stable sort returns an ordered permutation. */
  lemma {:induction false} StableSortSorts(s: seq<Candidate>, ahead: Comparison)
    requires StrictWeak(ahead)
    ensures Sorted(StableSort(s, ahead), ahead)
    ensures multiset(StableSort(s, ahead)) == multiset(s)
  {
    if |s| > 0 {
      StableSortSorts(s[1..], ahead);
      InsertSorts(s[0], StableSort(s[1..], ahead), ahead);
      InsertKeeps(s[0], StableSort(s[1..], ahead), ahead);
      assert s == [s[0]] + s[1..];
    }
  }

  // ---- the selection --------------------------------------------------------------------

  predicate DistinctIds(plans: seq<ExecutionPlan>) {
    forall i, j :: 0 <= i < j < |plans| ==> plans[i].id != plans[j].id
  }

  predicate IsFeasible(eval: Evaluator, p: ExecutionPlan) {
    eval(p).Ok? && eval(p).value.feasible == Feasible
  }

  function AsCandidate(eval: Evaluator, p: ExecutionPlan): Candidate
    requires eval(p).Ok?
  {
    Candidate(p, eval(p).value)
  }

  /** `p` is feasible and ranks before every other feasible plan. */
  ghost predicate Chosen(eval: Evaluator, plans: seq<ExecutionPlan>, p: ExecutionPlan) {
    && p in plans && IsFeasible(eval, p)
    && forall r :: r in plans && r != p && IsFeasible(eval, r) ==>
         LexLess(Key(AsCandidate(eval, p)), Key(AsCandidate(eval, r)))
  }

  lemma ChosenUnique(eval: Evaluator, plans: seq<ExecutionPlan>, p: ExecutionPlan, r: ExecutionPlan)
    requires Chosen(eval, plans, p) && Chosen(eval, plans, r)
    ensures p == r
  {}

  /** The front of the sorted feasible candidates, as the decision takes it. */
  function Select(eval: Evaluator, plans: seq<ExecutionPlan>): (r: Result<Option<Candidate>>) {
    var cs :- EvaluateAll(eval, plans);
    var feasible := FeasibleOf(cs);
    if |feasible| == 0 then Ok(None) else Ok(Some(StableSort(feasible, Better)[0]))
  }

  lemma CandidatesOf(eval: Evaluator, plans: seq<ExecutionPlan>)
    requires EvaluateAll(eval, plans).Ok?
    ensures var feasible := FeasibleOf(EvaluateAll(eval, plans).value);
            && (forall c :: c in feasible ==>
                  c.plan in plans && IsFeasible(eval, c.plan) && c == AsCandidate(eval, c.plan))
            && (forall p :: p in plans && IsFeasible(eval, p) ==> AsCandidate(eval, p) in feasible)
  {}

  /** With distinct ids the selected plan is the lexicographic minimum of the feasible plans, and
      there is none exactly when no plan is feasible. */
  lemma SelectIsLeast(eval: Evaluator, plans: seq<ExecutionPlan>)
    requires DistinctIds(plans) && Select(eval, plans).Ok?
    ensures Select(eval, plans).value.None? <==> forall p :: p in plans ==> !IsFeasible(eval, p)
    ensures Select(eval, plans).value.Some? ==>
              var c := Select(eval, plans).value.value;
              Chosen(eval, plans, c.plan) && c == AsCandidate(eval, c.plan)
  {
    CandidatesOf(eval, plans);
    var feasible := FeasibleOf(EvaluateAll(eval, plans).value);
    if |feasible| > 0 {
      var sorted := StableSort(feasible, Better);
      BetterIsStrictWeak();
      StableSortSorts(feasible, Better);
      var c := sorted[0];
      assert c in multiset(sorted);
      assert c in feasible && feasible[0] in feasible;
      forall r | r in plans && r != c.plan && IsFeasible(eval, r)
        ensures LexLess(Key(c), Key(AsCandidate(eval, r)))
      {
        var d := AsCandidate(eval, r);
        assert d in feasible && d in multiset(sorted);
        var j :| 0 <= j < |sorted| && sorted[j] == d;
        assert !Better(d, c);
        DistinctPlans(plans, r, c.plan);
        RankedApart(c, d);
      }
      assert feasible[0].plan in plans;
    }
  }

  lemma DistinctPlans(plans: seq<ExecutionPlan>, p: ExecutionPlan, r: ExecutionPlan)
    requires DistinctIds(plans) && p in plans && r in plans && p != r
    ensures p.id != r.id
  {}

  /** Only the chosen plan matters: a second list that still offers it, and whose other plans are
      from the first list, infeasible, or ranked after it, gives the same selection. This covers
      every reordering and every added or removed infeasible or lower-ranked plan. */
  lemma SelectionStable(eval: Evaluator, plans: seq<ExecutionPlan>, others: seq<ExecutionPlan>)
    requires DistinctIds(plans) && DistinctIds(others)
    requires Select(eval, plans).Ok? && Select(eval, plans).value.Some? && Select(eval, others).Ok?
    requires Select(eval, plans).value.value.plan in others
    requires var c := Select(eval, plans).value.value;
             forall r :: r in others ==>
               r in plans || !IsFeasible(eval, r) || LexLess(Key(c), Key(AsCandidate(eval, r)))
    ensures Select(eval, others) == Select(eval, plans)
  {
    SelectIsLeast(eval, plans);
    SelectIsLeast(eval, others);
    var c := Select(eval, plans).value.value;
    assert IsFeasible(eval, c.plan);
    assert Chosen(eval, others, c.plan);
    ChosenUnique(eval, others, c.plan, Select(eval, others).value.value.plan);
  }

  /** The same plans in another order are selected alike, with or without a feasible one. */
  lemma SelectionOrderFree(eval: Evaluator, plans: seq<ExecutionPlan>, others: seq<ExecutionPlan>)
    requires DistinctIds(plans) && multiset(plans) == multiset(others)
    ensures Select(eval, plans).Ok? <==> Select(eval, others).Ok?
    ensures Select(eval, plans).Ok? ==> Select(eval, others) == Select(eval, plans)
  {
    SameElements(plans, others);
    SameElements(others, plans);
    DistinctReordered(plans, others);
    if Select(eval, plans).Ok? && Select(eval, others).Ok? {
      SelectIsLeast(eval, plans);
      SelectIsLeast(eval, others);
      if Select(eval, plans).value.Some? {
        SelectionStable(eval, plans, others);
      }
    }
    if Select(eval, plans).Err? {
      var i :| 0 <= i < |plans| && eval(plans[i]).Err?;
      assert plans[i] in others;
    }
    if Select(eval, others).Err? {
      var i :| 0 <= i < |others| && eval(others[i]).Err?;
      assert others[i] in plans;
    }
  }

  lemma SameElements(a: seq<ExecutionPlan>, b: seq<ExecutionPlan>)
    requires multiset(a) == multiset(b)
    ensures forall p :: p in a ==> p in b
  {
    forall p | p in a ensures p in b { assert p in multiset(a); }
  }

  lemma DistinctReordered(a: seq<ExecutionPlan>, b: seq<ExecutionPlan>)
    requires DistinctIds(a) && multiset(a) == multiset(b)
    ensures DistinctIds(b)
  {
    forall i, j | 0 <= i < j < |b| ensures b[i].id != b[j].id {
      var p, r := b[i], b[j];
      assert b[i] in multiset(b) && b[j] in multiset(b);
      if p == r {
        TwiceInMultiset(b, i, j);
        var k :| 0 <= k < |a| && a[k] == p;
        OnceInMultiset(a, k);
      } else {
        DistinctPlans(a, p, r);
      }
    }
  }

  lemma TwiceInMultiset(b: seq<ExecutionPlan>, i: nat, j: nat)
    requires i < j < |b| && b[i] == b[j]
    ensures multiset(b)[b[i]] >= 2
  {
    assert b == b[..i] + [b[i]] + b[i + 1..j] + [b[j]] + b[j + 1..];
  }

  lemma OnceInMultiset(a: seq<ExecutionPlan>, k: nat)
    requires DistinctIds(a) && k < |a|
    ensures multiset(a)[a[k]] == 1
  {
    assert a == a[..k] + [a[k]] + a[k + 1..];
    assert a[k] !in a[..k] && a[k] !in a[k + 1..];
  }

  // ---- budgets --------------------------------------------------------------------------

  /** Every hard budget can pay `total` from what it has not consumed. */
  predicate Affordable(budgets: Budgets, total: int) {
    forall id :: id in budgets && budgets[id].mode == HARD ==> total <= budgets[id].limit - budgets[id].consumed
  }

  predicate AffordableFrom(budgets: Budgets, order: seq<u64>, total: int)
    requires Listed(order, budgets)
  {
    forall i :: 0 <= i < |order| && budgets[order[i]].mode == HARD ==>
      total <= budgets[order[i]].limit - budgets[order[i]].consumed
  }

  /** When the gate does not throw it lets exactly the affordable plans through, unchanged. */
  lemma {:induction false} GateMeaning(budgets: Budgets, order: seq<u64>, e: PlanEconomics)
    requires Listed(order, budgets) && e.feasible == Feasible && Gate(budgets, order, e).Ok?
    ensures var r := Gate(budgets, order, e).value;
            && (r.feasible == Feasible <==> AffordableFrom(budgets, order, e.projected.total))
            && (r.feasible == Feasible ==> r == e)
  {
    if |order| > 0 {
      var b := budgets[order[0]];
      if b.mode == HARD && e.projected.total > Remaining(b).value {
        assert !AffordableFrom(budgets, order, e.projected.total);
      } else {
        GateMeaning(budgets, order[1..], e);
        forall i | 0 <= i < |order[1..]| ensures order[1..][i] == order[i + 1] {}
        if AffordableFrom(budgets, order[1..], e.projected.total) {
          forall i | 0 <= i < |order| && budgets[order[i]].mode == HARD
            ensures e.projected.total <= budgets[order[i]].limit - budgets[order[i]].consumed
          {
            if i > 0 { assert order[1..][i - 1] == order[i]; }
          }
        }
      }
    }
  }

  lemma AffordableInAnyOrder(budgets: Budgets, order: seq<u64>, total: int)
    requires IsOrder(order, budgets)
    ensures AffordableFrom(budgets, order, total) <==> Affordable(budgets, total)
  {}

  predicate BaseFeasible(x: Economy, p: ExecutionPlan) {
    BaseEconomics(x, p).Ok? && BaseEconomics(x, p).value.feasible == Feasible
  }

  /** The total a plan projects to before any budget is looked at. */
  function PlanTotal(x: Economy, p: ExecutionPlan): int
    requires BaseFeasible(x, p)
  {
    BaseEconomics(x, p).value.projected.total
  }

  /** A plan is feasible exactly when it is so without budgets and every hard budget can pay its
      total; the hash order of the budgets and their counters do not show in its economics. */
  lemma FeasibleMeaning(x: Economy, budgets: Budgets, order: seq<u64>, p: ExecutionPlan)
    requires IsOrder(order, budgets) && EvaluatePlan(x, budgets, order, p).Ok?
    ensures EvaluatePlan(x, budgets, order, p).value.feasible == Feasible <==>
              BaseFeasible(x, p) && Affordable(budgets, PlanTotal(x, p))
    ensures EvaluatePlan(x, budgets, order, p).value.feasible == Feasible ==>
              EvaluatePlan(x, budgets, order, p) == BaseEconomics(x, p)
  {
    if BaseFeasible(x, p) {
      GateMeaning(budgets, order, BaseEconomics(x, p).value);
      AffordableInAnyOrder(budgets, order, PlanTotal(x, p));
    }
  }

  /** What the rest of a selection argument needs about one plan under one set of budgets. */
  ghost predicate GatedBy(x: Economy, budgets: Budgets, eval: Evaluator, plans: seq<ExecutionPlan>) {
    forall p :: p in plans ==>
      && eval(p).Ok?
      && (IsFeasible(eval, p) <==> BaseFeasible(x, p) && Affordable(budgets, PlanTotal(x, p)))
      && (IsFeasible(eval, p) ==> eval(p) == BaseEconomics(x, p))
  }

  lemma EvaluatorGated(x: Economy, budgets: Budgets, order: seq<u64>, plans: seq<ExecutionPlan>)
    requires IsOrder(order, budgets)
    requires EvaluateAll(EvaluatorOf(x, budgets, order), plans).Ok?
    ensures GatedBy(x, budgets, EvaluatorOf(x, budgets, order), plans)
  {
    var eval := EvaluatorOf(x, budgets, order);
    forall p | p in plans
      ensures && eval(p).Ok?
              && (IsFeasible(eval, p) <==> BaseFeasible(x, p) && Affordable(budgets, PlanTotal(x, p)))
              && (IsFeasible(eval, p) ==> eval(p) == BaseEconomics(x, p))
    {
      var i :| 0 <= i < |plans| && plans[i] == p;
      assert eval(plans[i]).Ok?;
      FeasibleMeaning(x, budgets, order, p);
    }
  }

  lemma NoDearer(k: seq<int>, l: seq<int>)
    requires LexLess(k, l) && |k| > 0
    ensures k[0] <= l[0]
  {}

  /** A chosen plan that other budgets can also pay is at least as good as their choice. */
  lemma CheaperChoiceWins(x: Economy, a: Budgets, b: Budgets, f: Evaluator, g: Evaluator,
                          plans: seq<ExecutionPlan>, p: ExecutionPlan, r: ExecutionPlan)
    requires GatedBy(x, a, f, plans) && GatedBy(x, b, g, plans)
    requires Chosen(f, plans, p) && Chosen(g, plans, r) && p != r
    requires PlanTotal(x, p) <= PlanTotal(x, r)
    ensures LexLess(Key(AsCandidate(g, r)), Key(AsCandidate(f, p)))
    ensures PlanTotal(x, r) <= PlanTotal(x, p)
  {
    assert Affordable(b, PlanTotal(x, r));
    assert Affordable(b, PlanTotal(x, p));
    assert IsFeasible(g, p) && AsCandidate(g, p) == AsCandidate(f, p);
    NoDearer(Key(AsCandidate(g, r)), Key(AsCandidate(g, p)));
  }

  /** Budgets gate but never steer: under one economy, any two sets of budgets that both leave a
      feasible plan select the same one, with the same economics. */
  lemma BudgetsNeverSteer(x: Economy, a: Budgets, order: seq<u64>, b: Budgets, order': seq<u64>,
                          plans: seq<ExecutionPlan>)
    requires IsOrder(order, a) && IsOrder(order', b) && DistinctIds(plans)
    requires var f, g := EvaluatorOf(x, a, order), EvaluatorOf(x, b, order');
             && Select(f, plans).Ok? && Select(f, plans).value.Some?
             && Select(g, plans).Ok? && Select(g, plans).value.Some?
    ensures Select(EvaluatorOf(x, a, order), plans) == Select(EvaluatorOf(x, b, order'), plans)
  {
    var f, g := EvaluatorOf(x, a, order), EvaluatorOf(x, b, order');
    EvaluatorGated(x, a, order, plans);
    EvaluatorGated(x, b, order', plans);
    SelectIsLeast(f, plans);
    SelectIsLeast(g, plans);
    var p, r := Select(f, plans).value.value.plan, Select(g, plans).value.value.plan;
    if p != r {
      if PlanTotal(x, p) <= PlanTotal(x, r) {
        CheaperChoiceWins(x, a, b, f, g, plans, p, r);
        CheaperChoiceWins(x, b, a, g, f, plans, r, p);
      } else {
        CheaperChoiceWins(x, b, a, g, f, plans, r, p);
        CheaperChoiceWins(x, a, b, f, g, plans, p, r);
      }
    }
  }

  /** Budgets that can pay no more than others cannot bring a feasible plan back. */
  lemma TighterBudgetsStayClosed(x: Economy, a: Budgets, order: seq<u64>, b: Budgets, order': seq<u64>,
                                 plans: seq<ExecutionPlan>)
    requires IsOrder(order, a) && IsOrder(order', b) && DistinctIds(plans)
    requires forall total: int :: Affordable(b, total) ==> Affordable(a, total)
    requires var f, g := EvaluatorOf(x, a, order), EvaluatorOf(x, b, order');
             Select(f, plans) == Ok(None) && Select(g, plans).Ok?
    ensures Select(EvaluatorOf(x, b, order'), plans) == Ok(None)
  {
    var f, g := EvaluatorOf(x, a, order), EvaluatorOf(x, b, order');
    EvaluatorGated(x, a, order, plans);
    EvaluatorGated(x, b, order', plans);
    SelectIsLeast(f, plans);
    SelectIsLeast(g, plans);
    forall p | p in plans ensures !IsFeasible(g, p) {
      assert !IsFeasible(f, p);
    }
  }
}
