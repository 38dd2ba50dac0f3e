/** The greedy upgrade loop and its optimality. */
module Upgrade {
  import opened Money
  import opened Domain
  import opened Order
  import opened Planner

  /** The most preferred candidate, scanning from `j`, that either is the current one or
      keeps the whole plan inside the envelope. */
  function FirstFit(cs: seq<Candidate>, current: Candidate, others: Amount, spendable: Amount, j: nat): Candidate
    requires j <= |cs|
    decreases |cs| - j
  {
    if j == |cs| || cs[j].key == current.key then current
    else if others + cs[j].Cost() <= spendable then cs[j]
    else FirstFit(cs, current, others, spendable, j + 1)
  }

  function UpgradeAt(sel: seq<Pick>, i: nat, spendable: Amount): seq<Pick>
    requires i < |sel|
  {
    var others := Total(sel) - sel[i].chosen.Cost();
    sel[i := sel[i].(chosen := FirstFit(sel[i].analysis.candidates, sel[i].chosen, others, spendable, 0))]
  }

  /** One round of upgrades over the first `n` formats, in priority order. */
  function Pass(sel: seq<Pick>, n: nat, spendable: Amount): (r: seq<Pick>)
    requires n <= |sel|
    ensures |r| == |sel|
  {
    if n == 0 then sel else UpgradeAt(Pass(sel, n - 1, spendable), n - 1, spendable)
  }

  /** What a selection entry must satisfy: a ranked list and a choice from it. */
  predicate Proper(strategy: Strategy, sel: seq<Pick>) {
    forall i :: 0 <= i < |sel| ==>
      && SortedBy(strategy, sel[i].analysis.candidates)
      && DistinctCandidates(sel[i].analysis.candidates)
      && sel[i].chosen in sel[i].analysis.candidates
  }

  predicate IsBaseline(sel: seq<Pick>) {
    forall i :: 0 <= i < |sel| ==> IsCheapest(sel[i].analysis.candidates, sel[i].chosen)
  }

  predicate SameMenu(a: seq<Pick>, b: seq<Pick>) {
    |a| == |b| && forall i :: 0 <= i < |a| ==> a[i].analysis == b[i].analysis
  }

  predicate AtLeast(a: seq<Pick>, b: seq<Pick>) {
    |a| == |b| && forall i :: 0 <= i < |a| ==> a[i].chosen.Cost() >= b[i].chosen.Cost()
  }

  lemma {:induction false} TotalMonotone(a: seq<Pick>, b: seq<Pick>)
    requires AtLeast(a, b)
    ensures Total(a) >= Total(b)
  {
    if a != [] {
      var n := |a| - 1;
      TotalMonotone(a[..n], b[..n]);
      assert PickCosts(a)[..n] == PickCosts(a[..n]);
      assert PickCosts(b)[..n] == PickCosts(b[..n]);
    }
  }

  lemma TotalSwap(sel: seq<Pick>, i: nat, c: Candidate)
    requires i < |sel|
    ensures Total(sel[i := sel[i].(chosen := c)]) == Total(sel) - sel[i].chosen.Cost() + c.Cost()
  {
    var t := sel[i := sel[i].(chosen := c)];
    assert PickCosts(t) == PickCosts(sel)[i := c.Cost()];
    SumOfUpdate(PickCosts(sel), i, c.Cost());
  }

  /** `r` is at least as good as `alt`: equal, or at the first format where they differ
      the model of `r` is preferred. */
  ghost predicate LexBest(strategy: Strategy, r: seq<Pick>, alt: seq<Pick>) {
    || r == alt
    || exists i :: 0 <= i < |r| && i < |alt| && r[..i] == alt[..i] && Prefers(strategy, r[i].chosen, alt[i].chosen)
  }

  /** The scan returns the first candidate that fits, provided the current one does. */
  lemma {:induction false} FirstFitIsFirst(cs: seq<Candidate>, current: Candidate, others: Amount, spendable: Amount,
                                           j: nat, k: nat)
    requires DistinctCandidates(cs)
    requires j <= k < |cs| && cs[k] == current
    ensures var c := FirstFit(cs, current, others, spendable, j);
            exists m :: j <= m <= k && cs[m] == c && (m < k ==> others + c.Cost() <= spendable) &&
              (forall x :: j <= x < m ==> others + cs[x].Cost() > spendable)
    decreases |cs| - j
  {
    if cs[j].key == current.key {
      assert j == k;
    } else if others + cs[j].Cost() <= spendable {
    } else {
      FirstFitIsFirst(cs, current, others, spendable, j + 1, k);
    }
  }

  /** Where `FirstFit` lands in the ranking of entry `i`. */
  lemma UpgradeLands(strategy: Strategy, sel: seq<Pick>, i: nat, spendable: Amount) returns (m: nat, k: nat)
    requires Proper(strategy, sel) && i < |sel|
    ensures var cs := sel[i].analysis.candidates;
            var others := Total(sel) - sel[i].chosen.Cost();
            var c := UpgradeAt(sel, i, spendable)[i].chosen;
            && m <= k < |cs| && cs[m] == c && cs[k] == sel[i].chosen
            && (m < k ==> others + c.Cost() <= spendable)
            && (forall x :: 0 <= x < m ==> others + cs[x].Cost() > spendable)
  {
    var cs := sel[i].analysis.candidates;
    var others := Total(sel) - sel[i].chosen.Cost();
    k :| 0 <= k < |cs| && cs[k] == sel[i].chosen;
    FirstFitIsFirst(cs, sel[i].chosen, others, spendable, 0, k);
    var c := FirstFit(cs, sel[i].chosen, others, spendable, 0);
    m :| 0 <= m <= k && cs[m] == c && (m < k ==> others + c.Cost() <= spendable) &&
         (forall x :: 0 <= x < m ==> others + cs[x].Cost() > spendable);
  }

  /** What one round leaves behind it. */
  ghost predicate Reached(strategy: Strategy, base: seq<Pick>, r: seq<Pick>, n: nat, spendable: Amount)
    requires n <= |base|
  {
    && SameMenu(r, base)
    && Proper(strategy, r)
    && r[n..] == base[n..]
    && Total(r) <= spendable
    && AtLeast(r, base)
  }

  lemma BaselineIsMinimal(base: seq<Pick>, alt: seq<Pick>)
    requires IsBaseline(base) && SameMenu(alt, base)
    requires forall i :: 0 <= i < |alt| ==> alt[i].chosen in alt[i].analysis.candidates
    ensures AtLeast(alt, base)
  {
  }

  lemma UpgradeKeepsReached(strategy: Strategy, base: seq<Pick>, sel: seq<Pick>, i: nat, spendable: Amount)
    requires IsBaseline(base) && i < |base|
    requires Reached(strategy, base, sel, i, spendable)
    ensures Reached(strategy, base, UpgradeAt(sel, i, spendable), i + 1, spendable)
  {
    var m, k := UpgradeLands(strategy, sel, i, spendable);
    var c := sel[i].analysis.candidates[m];
    var r := UpgradeAt(sel, i, spendable);
    assert r == sel[i := sel[i].(chosen := c)];
    TotalSwap(sel, i, c);
    assert c in sel[i].analysis.candidates;
    assert SameMenu(r, base);
    BaselineIsMinimal(base, r);
    assert r[i + 1..] == sel[i..][1..] == base[i..][1..] == base[i + 1..];
  }

  lemma {:induction false} PassReaches(strategy: Strategy, base: seq<Pick>, n: nat, spendable: Amount)
    requires Proper(strategy, base) && IsBaseline(base) && Total(base) <= spendable
    requires n <= |base|
    ensures Reached(strategy, base, Pass(base, n, spendable), n, spendable)
  {
    if n > 0 {
      PassReaches(strategy, base, n - 1, spendable);
      UpgradeKeepsReached(strategy, base, Pass(base, n - 1, spendable), n - 1, spendable);
    }
  }

  /** Later rounds leave the entries a round has finished. */
  lemma {:induction false} PassPrefix(base: seq<Pick>, n: nat, d: nat, spendable: Amount)
    requires d <= n <= |base|
    ensures Pass(base, n, spendable)[..d] == Pass(base, d, spendable)[..d]
  {
    if d < n {
      PassPrefix(base, n - 1, d, spendable);
    }
  }

  /** The cost around entry `d` while the round is at it: upgraded before, baseline after. */
  lemma CostAround(strategy: Strategy, base: seq<Pick>, d: nat, spendable: Amount)
    requires Proper(strategy, base) && IsBaseline(base) && Total(base) <= spendable
    requires d < |base|
    ensures var before := Pass(base, d, spendable);
            && before[d] == base[d]
            && Total(before) - before[d].chosen.Cost() == Total(before[..d]) + Total(base[d + 1..])
  {
    PassReaches(strategy, base, d, spendable);
    var before := Pass(base, d, spendable);
    TotalSplit(before, d);
    assert before[d + 1..] == base[d + 1..] by {
      assert before[d..][1..] == base[d..][1..];
    }
    assert before[d] == before[d..][0] == base[d..][0] == base[d];
  }

  /** The greedy round is optimal: among all choices of one candidate per kept format
      that fit the envelope, none is lexicographically better by preference, in format
      priority order. */
  lemma UpgradeIsOptimal(strategy: Strategy, base: seq<Pick>, alt: seq<Pick>, spendable: Amount)
    requires Proper(strategy, base) && IsBaseline(base) && Total(base) <= spendable
    requires SameMenu(alt, base) && Proper(strategy, alt) && Total(alt) <= spendable
    ensures var r := Pass(base, |base|, spendable);
            SameMenu(r, base) && Proper(strategy, r) && Total(r) <= spendable && LexBest(strategy, r, alt)
  {
    var r := Pass(base, |base|, spendable);
    PassReaches(strategy, base, |base|, spendable);
    if r != alt {
      var d := FirstDifference(r, alt);
      OptimalAt(strategy, base, alt, spendable, d);
    }
  }

  lemma FirstDifference(a: seq<Pick>, b: seq<Pick>) returns (d: nat)
    requires |a| == |b| && a != b
    ensures d < |a| && a[..d] == b[..d] && a[d] != b[d]
  {
    assert a[..|a|] == a && b[..|a|] == b;
    d := 0;
    while d < |a| && a[d] == b[d]
      invariant d <= |a| && a[..d] == b[..d]
    {
      d := d + 1;
    }
  }

  /** Where the finished round stands at entry `d`: nothing ranked above its choice
      fits beside the upgrades before it and the baseline after it. */
  lemma RoundLands(strategy: Strategy, base: seq<Pick>, d: nat, spendable: Amount) returns (m: nat)
    requires Proper(strategy, base) && IsBaseline(base) && Total(base) <= spendable
    requires d < |base|
    ensures var r := Pass(base, |base|, spendable); var cs := base[d].analysis.candidates;
            && SameMenu(r, base)
            && m < |cs| && r[d].chosen == cs[m]
            && forall x :: 0 <= x < m ==> Total(r[..d]) + cs[x].Cost() + Total(base[d + 1..]) > spendable
  {
    var before := Pass(base, d, spendable);
    PassReaches(strategy, base, |base|, spendable);
    PassReaches(strategy, base, d, spendable);
    EntryIsFinal(base, d, spendable);
    var k;
    m, k := UpgradeLands(strategy, before, d, spendable);
    CostAround(strategy, base, d, spendable);
  }

  /** What the round makes of entry `d` is what it leaves there. */
  lemma EntryIsFinal(base: seq<Pick>, d: nat, spendable: Amount)
    requires d < |base|
    ensures var r, before := Pass(base, |base|, spendable), Pass(base, d, spendable);
            r[d] == UpgradeAt(before, d, spendable)[d] && r[..d] == before[..d]
  {
    PassPrefix(base, |base|, d, spendable);
    PassPrefix(base, |base|, d + 1, spendable);
    var r := Pass(base, |base|, spendable);
    assert r[d] == r[..d + 1][d] == Pass(base, d + 1, spendable)[d];
  }

  lemma OptimalAt(strategy: Strategy, base: seq<Pick>, alt: seq<Pick>, spendable: Amount, d: nat)
    requires Proper(strategy, base) && IsBaseline(base) && Total(base) <= spendable
    requires SameMenu(alt, base) && Proper(strategy, alt) && Total(alt) <= spendable
    requires d < |base| && Pass(base, |base|, spendable)[..d] == alt[..d]
    requires Pass(base, |base|, spendable)[d] != alt[d]
    ensures Prefers(strategy, Pass(base, |base|, spendable)[d].chosen, alt[d].chosen)
  {
    var m := RoundLands(strategy, base, d, spendable);
    // The alternative spends at least the baseline on the formats after `d`.
    TotalSplit(alt, d);
    BaselineIsMinimal(base, alt);
    TotalMonotone(alt[d + 1..], base[d + 1..]);
    var cs := base[d].analysis.candidates;
    var x :| 0 <= x < |cs| && cs[x] == alt[d].chosen;
    assert x >= m;
  }

  /** An upgrade is never free: a model preferred over the baseline costs more. */
  lemma UpgradeCostsMore(strategy: Strategy, cs: seq<Candidate>, cheapest: Candidate, better: Candidate)
    requires IsCheapest(cs, cheapest) && better in cs && Prefers(strategy, better, cheapest)
    ensures better.Cost() > cheapest.Cost()
  {
    PrefersIsStrict(strategy, better, better);
    PrefersIsStrict(strategy, better, cheapest);
    LessIsTotal(better.key, cheapest.key);
  }

  /** A second round changes nothing. */
  lemma {:induction false} PassIsFixed(strategy: Strategy, base: seq<Pick>, n: nat, spendable: Amount)
    requires Proper(strategy, base) && IsBaseline(base) && Total(base) <= spendable
    requires n <= |base|
    ensures var r := Pass(base, |base|, spendable); Pass(r, n, spendable) == r
  {
    if n > 0 {
      PassIsFixed(strategy, base, n - 1, spendable);
      FixedAt(strategy, base, n - 1, spendable);
    }
  }

  lemma FixedAt(strategy: Strategy, base: seq<Pick>, d: nat, spendable: Amount)
    requires Proper(strategy, base) && IsBaseline(base) && Total(base) <= spendable
    requires d < |base|
    ensures var r := Pass(base, |base|, spendable); UpgradeAt(r, d, spendable) == r
  {
    var r := Pass(base, |base|, spendable);
    var m := RoundLands(strategy, base, d, spendable);
    PassReaches(strategy, base, |base|, spendable);
    var m', k := UpgradeLands(strategy, r, d, spendable);
    TotalSplit(r, d);
    TotalMonotone(r[d + 1..], base[d + 1..]);
    assert k == m;
    assert m' == m;
    assert UpgradeAt(r, d, spendable)[d] == r[d];
  }

  /** The candidates of one format, in preference order. */
  method Scan(cs: seq<Candidate>, current: Candidate, others: Amount, spendable: Amount)
    returns (found: bool, candidate: Candidate)
    ensures candidate == FirstFit(cs, current, others, spendable, 0)
    ensures if found then candidate.key != current.key else candidate == current
  {
    for j := 0 to |cs|
      invariant FirstFit(cs, current, others, spendable, j) == FirstFit(cs, current, others, spendable, 0)
    {
      if cs[j].key == current.key {
        return false, current;
      }
      if others + cs[j].Cost() <= spendable {
        return true, cs[j];
      }
    }
    return false, current;
  }

  /** Entry `i` gets a different model when the pass comes to it. */
  predicate Moves(sel: seq<Pick>, i: nat, spendable: Amount)
    requires i < |sel|
  {
    UpgradeAt(Pass(sel, i, spendable), i, spendable)[i].chosen.key != Pass(sel, i, spendable)[i].chosen.key
  }

  /** One round over all kept formats. */
  method UpgradeRound(sel: seq<Pick>, spendable: Amount) returns (selection: seq<Pick>, changed: bool, ghost at: nat)
    ensures selection == Pass(sel, |sel|, spendable)
    ensures changed ==> at < |sel| && Moves(sel, at, spendable)
  {
    selection, changed, at := sel, false, 0;
    for i := 0 to |sel|
      invariant selection == Pass(sel, i, spendable)
      invariant changed ==> at < i && Moves(sel, at, spendable)
    {
      var current := selection[i].chosen;
      var others := Total(selection) - current.Cost();
      var found, candidate := Scan(selection[i].analysis.candidates, current, others, spendable);
      if found {
        changed, at := true, i;
      }
      selection := selection[i := selection[i].(chosen := candidate)];
    }
  }

  /** The round after the first one finds nothing to change. */
  lemma SecondRoundIsIdle(strategy: Strategy, base: seq<Pick>, spendable: Amount)
    requires Proper(strategy, base) && IsBaseline(base) && Total(base) <= spendable
    ensures var r := Pass(base, |base|, spendable);
            && Pass(r, |r|, spendable) == r
            && forall i :: 0 <= i < |r| ==> !Moves(r, i, spendable)
  {
    var r := Pass(base, |base|, spendable);
    PassIsFixed(strategy, base, |base|, spendable);
    forall i | 0 <= i < |r| ensures !Moves(r, i, spendable) {
      PassIsFixed(strategy, base, i, spendable);
      FixedAt(strategy, base, i, spendable);
    }
  }

  /** The upgrade loop. The cap on rounds never binds: the second round finds nothing
      to change. */
  method UpgradeGreedily(strategy: Strategy, base: seq<Pick>, spendable: Amount)
    returns (selection: seq<Pick>, rounds: nat)
    requires Proper(strategy, base) && IsBaseline(base) && Total(base) <= spendable
    ensures selection == Pass(base, |base|, spendable)
    ensures rounds <= 2 < MAX_UPGRADE_ROUNDS
  {
    selection := base;
    rounds := 0;
    var changed := true;
    while rounds < MAX_UPGRADE_ROUNDS && changed
      invariant rounds == 0 ==> changed && selection == base
      invariant rounds > 0 ==> selection == Pass(base, |base|, spendable)
      invariant rounds >= 2 ==> !changed
      invariant rounds <= 2
    {
      if rounds == 1 {
        SecondRoundIsIdle(strategy, base, spendable);
      }
      ghost var at;
      selection, changed, at := UpgradeRound(selection, spendable);
      rounds := rounds + 1;
    }
  }
}
