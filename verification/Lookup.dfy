/** Which observation a lookup chooses, and exactly when the two lookups choose the same one. */
module Lookup {
  import opened Types
  import opened Pricing

  predicate FullyScoped(o: PriceObservation) { o.device != 0 && o.resource != 0 }

  predicate Unscoped(o: PriceObservation) { o.device == 0 && o.resource == 0 }

  /** One is scoped by device only and the other by resource only. */
  predicate Opposite(o: PriceObservation, r: PriceObservation) {
    || (o.device != 0 && o.resource == 0 && r.device == 0 && r.resource != 0)
    || (o.device == 0 && o.resource != 0 && r.device != 0 && r.resource == 0)
  }

  // ---- the rule -------------------------------------------------------------------------

  /** Which observations a scan may choose. */
  type Eligible = PriceObservation -> bool

  /** The scan both lookups make, over the observations that are eligible. */
  function Pick(obs: seq<PriceObservation>, ok: Eligible): Option<PriceObservation> {
    if |obs| == 0 then None
    else
      var o, best := obs[|obs| - 1], Pick(obs[..|obs| - 1], ok);
      if ok(o) && Displaces(o, best) then Some(o) else best
  }

  predicate Among(obs: seq<PriceObservation>, ok: Eligible, j: nat) {
    j < |obs| && ok(obs[j])
  }

  /** Scoped by the same half as `o`, when nothing is fully scoped. */
  predicate SameHalf(o: PriceObservation, r: PriceObservation) {
    !Unscoped(r) && !Opposite(o, r)
  }

  /** Position `i` starts its run of one half: every earlier one of that half is followed, before `i`, by
      one of the other. */
  ghost predicate StartsRun(obs: seq<PriceObservation>, ok: Eligible, i: nat)
    requires i < |obs|
  {
    forall j :: 0 <= j < i && Among(obs, ok, j) && SameHalf(obs[i], obs[j]) ==>
      exists k :: j < k < i && Among(obs, ok, k) && Opposite(obs[i], obs[k])
  }

  /** The rule the scan implements. A fully scoped price wins if it is the first one. Otherwise a
      half scoped price wins if it starts the last run of its half, and an unscoped one only if it
      is the first and nothing scoped is eligible. */
  ghost predicate Wins(obs: seq<PriceObservation>, ok: Eligible, i: nat) {
    && Among(obs, ok, i)
    && var o := obs[i];
       if FullyScoped(o) then
         forall j :: 0 <= j < i && Among(obs, ok, j) ==> !FullyScoped(obs[j])
       else if Unscoped(o) then
         && (forall j :: 0 <= j < i ==> !Among(obs, ok, j))
         && (forall j :: 0 <= j < |obs| && Among(obs, ok, j) ==> Unscoped(obs[j]))
       else
         && (forall j :: 0 <= j < |obs| && Among(obs, ok, j) ==> !FullyScoped(obs[j]))
         && (forall j :: i < j < |obs| && Among(obs, ok, j) ==> !Opposite(o, obs[j]))
         && StartsRun(obs, ok, i)
  }

  lemma WinsOnce(obs: seq<PriceObservation>, ok: Eligible, i: nat, j: nat)
    requires Wins(obs, ok, i) && Wins(obs, ok, j)
    ensures i == j
  {}

  lemma {:induction false} PickNothing(obs: seq<PriceObservation>, ok: Eligible)
    ensures Pick(obs, ok) == None <==> forall j :: 0 <= j < |obs| ==> !Among(obs, ok, j)
  {
    if |obs| > 0 {
      var before := obs[..|obs| - 1];
      PickNothing(before, ok);
      forall j | 0 <= j < |before| ensures Among(before, ok, j) <==> Among(obs, ok, j) {}
      assert Among(obs, ok, |obs| - 1) <==> ok(obs[|obs| - 1]);
      if Pick(before, ok).Some? {
        var j :| 0 <= j < |before| && Among(before, ok, j);
        assert Among(obs, ok, j);
      }
    }
  }

  lemma LaterWins(obs: seq<PriceObservation>, ok: Eligible, i: nat)
    requires |obs| > 0 && i < |obs| - 1 && Wins(obs[..|obs| - 1], ok, i)
    requires ok(obs[|obs| - 1]) && Displaces(obs[|obs| - 1], Some(obs[i]))
    ensures Wins(obs, ok, |obs| - 1)
  {
    var before := obs[..|obs| - 1];
    forall j | 0 <= j < |before| ensures Among(before, ok, j) <==> Among(obs, ok, j) {}
  }

  lemma EarlierWins(obs: seq<PriceObservation>, ok: Eligible, i: nat)
    requires |obs| > 0 && i < |obs| - 1 && Wins(obs[..|obs| - 1], ok, i)
    requires ok(obs[|obs| - 1]) ==> !Displaces(obs[|obs| - 1], Some(obs[i]))
    ensures Wins(obs, ok, i)
  {
    var before := obs[..|obs| - 1];
    forall j | 0 <= j < |before| ensures Among(before, ok, j) <==> Among(obs, ok, j) {}
  }

  /** The scan returns the observation the rule names. */
  lemma {:induction false} PickChooses(obs: seq<PriceObservation>, ok: Eligible) returns (i: nat)
    requires Pick(obs, ok).Some?
    ensures Wins(obs, ok, i) && obs[i] == Pick(obs, ok).value
  {
    var n := |obs| - 1;
    if Pick(obs[..n], ok).None? {
      PickNothing(obs[..n], ok);
      forall j | 0 <= j < n ensures !Among(obs, ok, j) { assert !Among(obs[..n], ok, j); }
      i := n;
    } else {
      i := PickChooses(obs[..n], ok);
      if ok(obs[n]) && Displaces(obs[n], Some(obs[i])) {
        LaterWins(obs, ok, i);
        i := n;
      } else {
        EarlierWins(obs, ok, i);
      }
    }
  }

  // ---- the projection's lookup ----------------------------------------------------------

  /** What the projection may use. */
  function Applicable(m: Market, q: Query): Eligible {
    (o: PriceObservation) => Applies(m, o, q)
  }

  predicate AppliesAt(m: Market, q: Query, j: nat) {
    Among(m.observations, Applicable(m, q), j)
  }

  ghost predicate IsWinner(m: Market, q: Query, i: nat) {
    Wins(m.observations, Applicable(m, q), i)
  }

  lemma {:induction false} FindIsPick(m: Market, q: Query, obs: seq<PriceObservation>)
    ensures Find(m.(observations := obs), q) == Pick(obs, Applicable(m, q))
  {
    if |obs| > 0 { FindIsPick(m, q, obs[..|obs| - 1]); }
  }

  /** At most one observation satisfies the rule. */
  lemma WinnerUnique(m: Market, q: Query, i: nat, j: nat)
    requires IsWinner(m, q, i) && IsWinner(m, q, j)
    ensures i == j
  {
    WinsOnce(m.observations, Applicable(m, q), i, j);
  }

  /** The lookup returns the winner, for every schedule and query. */
  lemma FindChoosesWinner(m: Market, q: Query) returns (i: nat)
    requires Find(m, q).Some?
    ensures IsWinner(m, q, i) && m.observations[i] == Find(m, q).value
  {
    FindIsPick(m, q, m.observations);
    i := PickChooses(m.observations, Applicable(m, q));
  }

  /** An unscoped price is never chosen when a scoped one applies, and the first fully scoped price
      always wins. */
  lemma ScopedPricesWin(m: Market, q: Query, j: nat)
    requires AppliesAt(m, q, j) && !Unscoped(m.observations[j])
    ensures Find(m, q).Some? && !Unscoped(Find(m, q).value)
    ensures FullyScoped(m.observations[j])
            && (forall k :: 0 <= k < j && AppliesAt(m, q, k) ==> !FullyScoped(m.observations[k]))
            ==> Find(m, q) == Some(m.observations[j])
  {
    assert m.observations[j] in m.observations;
    var i := FindChoosesWinner(m, q);
    if FullyScoped(m.observations[j])
       && (forall k :: 0 <= k < j && AppliesAt(m, q, k) ==> !FullyScoped(m.observations[k]))
    {
      assert IsWinner(m, q, j);
      WinnerUnique(m, q, i, j);
    }
  }

  // ---- the freshness check's lookup -----------------------------------------------------

  /** What the check may use: the policy must accept the label as well. */
  function Acceptable(m: Market, q: Query, policy: CostPolicy): Eligible {
    (o: PriceObservation) => Applies(m, o, q) && policy.AcceptsLabel(o.dataLabel)
  }

  ghost predicate IsCheckedWinner(m: Market, q: Query, policy: CostPolicy, i: nat) {
    Wins(m.observations, Acceptable(m, q, policy), i)
  }

  lemma {:induction false} FindCheckedIsPick(m: Market, q: Query, policy: CostPolicy, obs: seq<PriceObservation>)
    ensures FindChecked(m.(observations := obs), q, policy) == Pick(obs, Acceptable(m, q, policy))
  {
    if |obs| > 0 { FindCheckedIsPick(m, q, policy, obs[..|obs| - 1]); }
  }

  /** The check follows the same rule, among the observations whose label is accepted. */
  lemma CheckChoosesWinner(m: Market, q: Query, policy: CostPolicy) returns (i: nat)
    requires FindChecked(m, q, policy).Some?
    ensures IsCheckedWinner(m, q, policy, i) && m.observations[i] == FindChecked(m, q, policy).value
  {
    FindCheckedIsPick(m, q, policy, m.observations);
    i := PickChooses(m.observations, Acceptable(m, q, policy));
  }

  lemma CheckedWinnerIsFound(m: Market, q: Query, policy: CostPolicy, i: nat)
    requires IsCheckedWinner(m, q, policy, i)
    ensures FindChecked(m, q, policy) == Some(m.observations[i])
  {
    FindCheckedIsPick(m, q, policy, m.observations);
    PickNothing(m.observations, Acceptable(m, q, policy));
    var j := CheckChoosesWinner(m, q, policy);
    WinsOnce(m.observations, Acceptable(m, q, policy), i, j);
  }

  /** The check never finds a price where the projection finds none. */
  lemma CheckedImpliesFound(m: Market, q: Query, policy: CostPolicy)
    requires FindChecked(m, q, policy).Some?
    ensures Find(m, q).Some?
  {
    var i := CheckChoosesWinner(m, q, policy);
    assert m.observations[i] in m.observations && Applies(m, m.observations[i], q);
  }

  // ---- when the two agree ---------------------------------------------------------------

  /** Refused labels do not disturb the choice of `i`: its own label is accepted, and if it is scoped by
      one half it still starts its run among the accepted ones. */
  ghost predicate Undisturbed(m: Market, q: Query, policy: CostPolicy, i: nat)
    requires i < |m.observations|
  {
    var o := m.observations[i];
    && policy.AcceptsLabel(o.dataLabel)
    && (FullyScoped(o) || Unscoped(o) || StartsRun(m.observations, Acceptable(m, q, policy), i))
  }

  /** The check chooses the very observation the projection uses exactly when that one is undisturbed. */
  lemma LookupsAgreeExactly(m: Market, q: Query, policy: CostPolicy, i: nat)
    requires IsWinner(m, q, i)
    ensures IsCheckedWinner(m, q, policy, i) <==> Undisturbed(m, q, policy, i)
  {
    var all, accepted := Applicable(m, q), Acceptable(m, q, policy);
    forall j | 0 <= j < |m.observations| && Among(m.observations, accepted, j) ensures Among(m.observations, all, j) {}
  }

  /** No refused label disturbs the lookup, whichever observation it chooses. */
  ghost predicate LabelsHarmless(m: Market, q: Query, policy: CostPolicy) {
    forall i :: 0 <= i < |m.observations| && IsWinner(m, q, i) ==> Undisturbed(m, q, policy, i)
  }

  /** Undisturbed lookups return the same. */
  lemma LookupsAgree(m: Market, q: Query, policy: CostPolicy)
    requires LabelsHarmless(m, q, policy)
    ensures FindChecked(m, q, policy) == Find(m, q)
  {
    if Find(m, q).Some? {
      var i := FindChoosesWinner(m, q);
      LookupsAgreeExactly(m, q, policy, i);
      CheckedWinnerIsFound(m, q, policy, i);
    } else if FindChecked(m, q, policy).Some? {
      CheckedImpliesFound(m, q, policy);
    }
  }

  /** The policy accepts the label of every observation the query could use. */
  predicate LabelsAccepted(m: Market, q: Query, policy: CostPolicy) {
    forall j :: 0 <= j < |m.observations| && AppliesAt(m, q, j) ==> policy.AcceptsLabel(m.observations[j].dataLabel)
  }

  /** A policy that accepts every applicable label disturbs nothing. */
  lemma AcceptedIsHarmless(m: Market, q: Query, policy: CostPolicy)
    requires LabelsAccepted(m, q, policy)
    ensures LabelsHarmless(m, q, policy)
  {
    var all, accepted := Applicable(m, q), Acceptable(m, q, policy);
    forall i | 0 <= i < |m.observations| && IsWinner(m, q, i) ensures Undisturbed(m, q, policy, i) {
      assert AppliesAt(m, q, i);
      forall j | 0 <= j < |m.observations|
        ensures Among(m.observations, all, j) <==> Among(m.observations, accepted, j)
      {
        assert AppliesAt(m, q, j) <==> Among(m.observations, all, j);
      }
    }
  }

  /** They do differ: a refused device price is skipped by the check and used by the projection. */
  lemma RefusedLabelIsStillPriced(m: Market, q: Query, policy: CostPolicy, o: PriceObservation, r: PriceObservation)
    requires m.observations == [o, r]
    requires Applies(m, o, q) && Applies(m, r, q)
    requires Unscoped(o) && !Unscoped(r)
    requires policy.AcceptsLabel(o.dataLabel) && !policy.AcceptsLabel(r.dataLabel)
    ensures FindChecked(m, q, policy) == Some(o) && Find(m, q) == Some(r) && o != r
  {
    assert m.observations[..1] == [o] && [o][..0] == [];
    var one := m.(observations := [o]);
    var none := m.(observations := []);
    assert Find(none, q) == None && FindChecked(none, q, policy) == None;
    assert Find(one, q) == Some(o) && FindChecked(one, q, policy) == Some(o);
  }

  /** An accepted winner is not enough: without the refused resource price between them, the first of two
      device prices stays chosen. */
  lemma AcceptedWinnerStillDiffers(m: Market, q: Query, policy: CostPolicy,
                                   a: PriceObservation, b: PriceObservation, c: PriceObservation)
    requires m.observations == [a, b, c] && Applies(m, a, q) && Applies(m, b, q) && Applies(m, c, q)
    requires a.device != 0 && a.resource == 0 && b.device == 0 && b.resource != 0 && c.device != 0 && c.resource == 0
    requires policy.AcceptsLabel(a.dataLabel) && !policy.AcceptsLabel(b.dataLabel) && policy.AcceptsLabel(c.dataLabel)
    ensures Find(m, q) == Some(c) && FindChecked(m, q, policy) == Some(a)
  {
    var obs := m.observations;
    assert Among(obs, Applicable(m, q), 1) && Opposite(c, b);
    assert IsWinner(m, q, 2);
    assert c in obs;
    var i := FindChoosesWinner(m, q);
    WinnerUnique(m, q, i, 2);
    assert !Among(obs, Acceptable(m, q, policy), 1);
    assert IsCheckedWinner(m, q, policy, 0);
    CheckedWinnerIsFound(m, q, policy, 0);
  }
}
