/** Model selection: candidate analysis, budget fitting and the greedy upgrade. */
module Planner {
  import opened Money
  import opened Domain
  import opened Order

  const MAX_UPGRADE_ROUNDS := 20

  /** What the catalogue, the policy table and the brief say about one model. */
  datatype Spec = Spec(
    key: string, tier: int, excluded: bool, missesParams: bool, unbuildable: bool,
    params: string, upper: Option<Amount>)
  {
    predicate Eligible() {
      !excluded && !missesParams && !unbuildable
    }
  }

  datatype Candidate = Candidate(key: string, tier: int, params: string, upper: Option<Amount>) {
    /** A model the catalogue cannot price is planned at zero until it is estimated. */
    function Cost(): Amount {
      GetOr(upper, 0)
    }
  }

  /** The preference order of a strategy: tier first, then price, then key. */
  predicate Prefers(strategy: Strategy, a: Candidate, b: Candidate) {
    || a.tier < b.tier
    || (a.tier == b.tier && (
          || (if strategy.Quality? then a.Cost() > b.Cost() else a.Cost() < b.Cost())
          || (a.Cost() == b.Cost() && Less(a.key, b.key))))
  }

  /** The order of the baseline: price first, then tier, then key. */
  predicate Cheaper(a: Candidate, b: Candidate) {
    || a.Cost() < b.Cost()
    || (a.Cost() == b.Cost() && (a.tier < b.tier || (a.tier == b.tier && Less(a.key, b.key))))
  }

  predicate SortedBy(strategy: Strategy, cs: seq<Candidate>) {
    forall i, j :: 0 <= i < j < |cs| ==> Prefers(strategy, cs[i], cs[j])
  }

  lemma PrefersIsStrict(strategy: Strategy, a: Candidate, b: Candidate)
    ensures !(Prefers(strategy, a, b) && Prefers(strategy, b, a))
    ensures a.key != b.key ==> Prefers(strategy, a, b) || Prefers(strategy, b, a)
    ensures !Prefers(strategy, a, a)
  {
    LessIsTotal(a.key, b.key);
    LessIsTotal(a.key, a.key);
  }

  lemma PrefersIsTransitive(strategy: Strategy, a: Candidate, b: Candidate, c: Candidate)
    requires Prefers(strategy, a, b) && Prefers(strategy, b, c)
    ensures Prefers(strategy, a, c)
  {
    if Less(a.key, b.key) && Less(b.key, c.key) {
      LessIsTransitive(a.key, b.key, c.key);
    }
  }

  lemma CheaperIsStrict(a: Candidate, b: Candidate)
    ensures !(Cheaper(a, b) && Cheaper(b, a))
    ensures a.key != b.key ==> Cheaper(a, b) || Cheaper(b, a)
  {
    LessIsTotal(a.key, b.key);
  }

  lemma CheaperIsTransitive(a: Candidate, b: Candidate, c: Candidate)
    requires Cheaper(a, b) && Cheaper(b, c)
    ensures Cheaper(a, c)
  {
    if Less(a.key, b.key) && Less(b.key, c.key) {
      LessIsTransitive(a.key, b.key, c.key);
    }
  }

  // ---------------------------------------------------------------------------
  // Candidate analysis
  // ---------------------------------------------------------------------------

  /** Inserts `c` into a preference-sorted list. */
  function Insert(strategy: Strategy, c: Candidate, cs: seq<Candidate>): (r: seq<Candidate>)
    requires SortedBy(strategy, cs)
    requires forall x :: x in cs ==> x.key != c.key
    ensures SortedBy(strategy, r)
    ensures |r| == |cs| + 1
    ensures forall x :: x in r <==> x == c || x in cs
  {
    if cs == [] then [c]
    else if Prefers(strategy, c, cs[0]) then
      HeadIsBest(strategy, c, cs);
      [c] + cs
    else
      PrefersIsStrict(strategy, c, cs[0]);
      HeadBeatsRest(strategy, cs);
      var rest := Insert(strategy, c, cs[1..]);
      ConsIsSorted(strategy, cs[0], rest);
      [cs[0]] + rest
  }

  lemma HeadBeatsRest(strategy: Strategy, cs: seq<Candidate>)
    requires cs != [] && SortedBy(strategy, cs)
    ensures forall x :: x in cs[1..] ==> Prefers(strategy, cs[0], x)
  {
    forall x | x in cs[1..] ensures Prefers(strategy, cs[0], x) {
      var j :| 0 <= j < |cs[1..]| && cs[1..][j] == x;
      assert cs[j + 1] == x;
    }
  }

  lemma ConsIsSorted(strategy: Strategy, h: Candidate, t: seq<Candidate>)
    requires SortedBy(strategy, t) && forall x :: x in t ==> Prefers(strategy, h, x)
    ensures SortedBy(strategy, [h] + t)
  {
  }

  lemma HeadIsBest(strategy: Strategy, c: Candidate, cs: seq<Candidate>)
    requires cs != [] && SortedBy(strategy, cs) && Prefers(strategy, c, cs[0])
    ensures forall j :: 0 <= j < |cs| ==> Prefers(strategy, c, cs[j])
  {
    forall j | 0 < j < |cs| ensures Prefers(strategy, c, cs[j]) {
      PrefersIsTransitive(strategy, c, cs[0], cs[j]);
    }
  }

  function Sort(strategy: Strategy, cs: seq<Candidate>): (r: seq<Candidate>)
    requires DistinctCandidates(cs)
    ensures SortedBy(strategy, r)
    ensures |r| == |cs|
    ensures forall x :: x in r <==> x in cs
  {
    if cs == [] then [] else Insert(strategy, cs[0], Sort(strategy, cs[1..]))
  }

  predicate DistinctCandidates(cs: seq<Candidate>) {
    forall i, j :: 0 <= i < j < |cs| ==> cs[i].key != cs[j].key
  }

  /** A price already confirmed by an estimate replaces the catalogue's. */
  function ToCandidate(spec: Spec, overrides: map<string, Amount>): Candidate {
    var upper := if spec.key in overrides then Some(overrides[spec.key]) else spec.upper;
    Candidate(spec.key, spec.tier, spec.params, upper)
  }

  predicate DistinctKeys(specs: seq<Spec>) {
    forall i, j :: 0 <= i < j < |specs| ==> specs[i].key != specs[j].key
  }

  /** The eligible models of a format that have a price, or that have none. */
  function Eligible(specs: seq<Spec>, overrides: map<string, Amount>, priced: bool): seq<Candidate> {
    if specs == [] then []
    else
      var n := |specs| - 1;
      var rest := Eligible(specs[..n], overrides, priced);
      var c := ToCandidate(specs[n], overrides);
      if specs[n].Eligible() && c.upper.Some? == priced then rest + [c] else rest
  }

  lemma EligibleStep(specs: seq<Spec>, i: nat, overrides: map<string, Amount>, priced: bool)
    requires i < |specs|
    ensures var c := ToCandidate(specs[i], overrides);
            Eligible(specs[..i + 1], overrides, priced) ==
            Eligible(specs[..i], overrides, priced) + if specs[i].Eligible() && c.upper.Some? == priced then [c] else []
  {
    assert specs[..i + 1][..i] == specs[..i];
  }

  lemma {:induction false} EligibleMembers(specs: seq<Spec>, overrides: map<string, Amount>, priced: bool)
    ensures var cs := Eligible(specs, overrides, priced);
            && (forall c :: c in cs ==> c.upper.Some? == priced)
            && (forall s :: s in specs && s.Eligible() && ToCandidate(s, overrides).upper.Some? == priced ==>
                  ToCandidate(s, overrides) in cs)
            && (forall c :: c in cs ==> exists s :: s in specs && s.Eligible() && ToCandidate(s, overrides) == c)
  {
    if specs != [] {
      EligibleMembers(specs[..|specs| - 1], overrides, priced);
    }
  }

  lemma {:induction false} EligibleAreDistinct(specs: seq<Spec>, overrides: map<string, Amount>, priced: bool)
    requires DistinctKeys(specs)
    ensures DistinctCandidates(Eligible(specs, overrides, priced))
  {
    if specs != [] {
      var n := |specs| - 1;
      EligibleAreDistinct(specs[..n], overrides, priced);
      EligibleMembers(specs[..n], overrides, priced);
      var rest := Eligible(specs[..n], overrides, priced);
      forall c | c in rest ensures c.key != specs[n].key {
        var s :| s in specs[..n] && s.Eligible() && ToCandidate(s, overrides) == c;
        var k :| 0 <= k < n && specs[k] == s;
      }
      assert forall i :: 0 <= i < |rest| ==> rest[i] in rest;
    }
  }

  /** A format's ranking: the priced models in preference order, or, when there are
      none, the unpriced ones as a last resort. */
  function Ranking(strategy: Strategy, specs: seq<Spec>, overrides: map<string, Amount>): (cs: seq<Candidate>)
    requires DistinctKeys(specs)
    ensures SortedBy(strategy, cs) && DistinctCandidates(cs)
  {
    var priced := Eligible(specs, overrides, true);
    EligibleAreDistinct(specs, overrides, true);
    EligibleAreDistinct(specs, overrides, false);
    var cs := Sort(strategy, if priced != [] then priced else Eligible(specs, overrides, false));
    SortedAreDistinct(strategy, cs);
    cs
  }

  // ---------------------------------------------------------------------------
  // What a ranking says, read off the catalogue
  // ---------------------------------------------------------------------------

  /** A model the service may order for the brief. */
  ghost predicate IsUsable(spec: Spec) {
    !spec.excluded && !spec.missesParams && !spec.unbuildable
  }

  ghost predicate IsPriced(spec: Spec, overrides: map<string, Amount>) {
    spec.key in overrides || spec.upper.Some?
  }

  /** `c` is what the catalogue says of `spec`, at the price confirmed for it if there is
      one. */
  ghost predicate StandsFor(c: Candidate, spec: Spec, overrides: map<string, Amount>) {
    && c.key == spec.key && c.tier == spec.tier && c.params == spec.params
    && (spec.key in overrides ==> c.upper == Some(overrides[spec.key]))
    && (spec.key !in overrides ==> c.upper == spec.upper)
  }

  /** The candidate is one of the models in question. */
  ghost predicate StandsForOne(c: Candidate, specs: seq<Spec>, overrides: map<string, Amount>, priced: bool) {
    exists s :: s in specs && IsUsable(s) && IsPriced(s, overrides) == priced && StandsFor(c, s, overrides)
  }

  ghost predicate IsStoodFor(s: Spec, cs: seq<Candidate>, overrides: map<string, Amount>) {
    exists c :: c in cs && StandsFor(c, s, overrides)
  }

  lemma {:induction false} EligibleStands(specs: seq<Spec>, overrides: map<string, Amount>, priced: bool, c: Candidate)
    requires c in Eligible(specs, overrides, priced)
    ensures StandsForOne(c, specs, overrides, priced)
  {
    var n := |specs| - 1;
    if c in Eligible(specs[..n], overrides, priced) {
      EligibleStands(specs[..n], overrides, priced, c);
      var s :| s in specs[..n] && IsUsable(s) && IsPriced(s, overrides) == priced && StandsFor(c, s, overrides);
      assert s in specs;
    } else {
      assert specs[n] in specs && StandsFor(c, specs[n], overrides);
    }
  }

  lemma {:induction false} EligibleIsStoodFor(specs: seq<Spec>, overrides: map<string, Amount>, priced: bool, s: Spec)
    requires s in specs && IsUsable(s) && IsPriced(s, overrides) == priced
    ensures IsStoodFor(s, Eligible(specs, overrides, priced), overrides)
  {
    var n := |specs| - 1;
    if s in specs[..n] {
      EligibleIsStoodFor(specs[..n], overrides, priced, s);
      var c :| c in Eligible(specs[..n], overrides, priced) && StandsFor(c, s, overrides);
      assert c in Eligible(specs, overrides, priced);
    } else {
      var c := ToCandidate(s, overrides);
      assert s == specs[n] && c in Eligible(specs, overrides, priced) && StandsFor(c, s, overrides);
    }
  }

  lemma EligibleStandFor(specs: seq<Spec>, overrides: map<string, Amount>, priced: bool)
    ensures var cs := Eligible(specs, overrides, priced);
            && (forall c :: c in cs ==> StandsForOne(c, specs, overrides, priced))
            && (forall s :: s in specs && IsUsable(s) && IsPriced(s, overrides) == priced ==>
                  IsStoodFor(s, cs, overrides))
  {
    var cs := Eligible(specs, overrides, priced);
    forall c | c in cs ensures StandsForOne(c, specs, overrides, priced) {
      EligibleStands(specs, overrides, priced, c);
    }
    forall s | s in specs && IsUsable(s) && IsPriced(s, overrides) == priced ensures IsStoodFor(s, cs, overrides) {
      EligibleIsStoodFor(specs, overrides, priced, s);
    }
  }

  /** Every candidate is a usable model of the catalogue; and exactly the usable models are
      candidates, except that an unpriced model is one only when the format has no usable
      priced one. */
  lemma RankingIsExact(strategy: Strategy, specs: seq<Spec>, overrides: map<string, Amount>)
    requires DistinctKeys(specs)
    ensures var cs := Ranking(strategy, specs, overrides);
            && (forall c :: c in cs ==> exists s :: s in specs && IsUsable(s) && StandsFor(c, s, overrides))
            && (forall s :: s in specs ==>
                  (IsStoodFor(s, cs, overrides) <==>
                   IsUsable(s) && (IsPriced(s, overrides)
                                   || forall t :: t in specs && IsUsable(t) ==> !IsPriced(t, overrides))))
  {
    var cs := Ranking(strategy, specs, overrides);
    var priced := Eligible(specs, overrides, true);
    var unpriced := Eligible(specs, overrides, false);
    EligibleStandFor(specs, overrides, true);
    EligibleStandFor(specs, overrides, false);
    EligibleAreDistinct(specs, overrides, true);
    EligibleAreDistinct(specs, overrides, false);
    var some := priced != [];
    assert forall c :: c in cs <==> c in if some then priced else unpriced;
    assert some ==> priced[0] in priced && StandsForOne(priced[0], specs, overrides, true);
    forall c | c in cs ensures StandsForOne(c, specs, overrides, some) {
    }
    forall s, c | s in specs && c in cs && StandsFor(c, s, overrides)
      ensures IsUsable(s) && IsPriced(s, overrides) == some
    {
      var t :| t in specs && IsUsable(t) && IsPriced(t, overrides) == some && StandsFor(c, t, overrides);
      SameKeySameSpec(specs, s, t);
    }
  }

  lemma SameKeySameSpec(specs: seq<Spec>, s: Spec, t: Spec)
    requires DistinctKeys(specs) && s in specs && t in specs && s.key == t.key
    ensures s == t
  {
  }

  /** A ranking read from the top: tiers go up, inside a tier prices go up (down, when
      quality is asked for), and names decide the rest. */
  lemma RankingReadsAs(strategy: Strategy, specs: seq<Spec>, overrides: map<string, Amount>, i: nat, j: nat)
    requires DistinctKeys(specs) && i < j < |Ranking(strategy, specs, overrides)|
    ensures var a, b := Ranking(strategy, specs, overrides)[i], Ranking(strategy, specs, overrides)[j];
            var x, y := if a.upper.Some? then a.upper.value else 0, if b.upper.Some? then b.upper.value else 0;
            && a.tier <= b.tier
            && (a.tier == b.tier ==> if strategy == Quality then x >= y else x <= y)
            && (a.tier == b.tier && x == y ==> AlphabeticallyBefore(a.key, b.key))
  {
    var a, b := Ranking(strategy, specs, overrides)[i], Ranking(strategy, specs, overrides)[j];
    assert Prefers(strategy, a, b);
    LessIsAlphabetical(a.key, b.key);
  }

  lemma SortedAreDistinct(strategy: Strategy, cs: seq<Candidate>)
    requires SortedBy(strategy, cs)
    requires forall x, y :: x in cs && y in cs && x.key == y.key ==> x == y
    ensures DistinctCandidates(cs)
  {
    forall i, j | 0 <= i < j < |cs|
      ensures cs[i].key != cs[j].key
    {
      PrefersIsStrict(strategy, cs[i], cs[i]);
    }
  }

  /** Splits a format's catalogue into ranked candidates and rejected models; every
      model ends up in exactly one of the two. */
  method Analyse(strategy: Strategy, specs: seq<Spec>, overrides: map<string, Amount>)
    returns (candidates: seq<Candidate>, rejected: seq<string>)
    requires DistinctKeys(specs)
    ensures candidates == Ranking(strategy, specs, overrides)
    ensures |candidates| + |rejected| == |specs|
  {
    var known: seq<Candidate>, deferred: seq<Candidate> := [], [];
    rejected := [];
    for i := 0 to |specs|
      invariant |known| + |deferred| + |rejected| == i
      invariant known == Eligible(specs[..i], overrides, true)
      invariant deferred == Eligible(specs[..i], overrides, false)
    {
      EligibleStep(specs, i, overrides, true);
      EligibleStep(specs, i, overrides, false);
      var candidate := ToCandidate(specs[i], overrides);
      if !specs[i].Eligible() {
        rejected := rejected + [specs[i].key];
      } else if candidate.upper.Some? {
        known := known + [candidate];
      } else {
        deferred := deferred + [candidate];
      }
    }
    assert specs[..|specs|] == specs;
    EligibleAreDistinct(specs, overrides, true);
    EligibleAreDistinct(specs, overrides, false);
    if known == [] && deferred != [] {
      candidates := Sort(strategy, deferred);
    } else {
      candidates := Sort(strategy, known);
      rejected := rejected + seq(|deferred|, k requires 0 <= k < |deferred| => deferred[k].key);
    }
  }

  // ---------------------------------------------------------------------------
  // The baseline and the drop loop
  // ---------------------------------------------------------------------------

  datatype Analysis = Analysis(format: Format, candidates: seq<Candidate>)

  /** One entry of the selection: a format, its candidates and the model it has now. */
  datatype Pick = Pick(analysis: Analysis, chosen: Candidate)

  function PickCosts(sel: seq<Pick>): (cs: seq<Amount>)
    ensures |cs| == |sel|
    ensures forall k :: 0 <= k < |sel| ==> cs[k] == sel[k].chosen.Cost()
  {
    seq(|sel|, i requires 0 <= i < |sel| => sel[i].chosen.Cost())
  }

  function Total(sel: seq<Pick>): Amount {
    Sum(PickCosts(sel))
  }

  lemma TotalOfConcat(a: seq<Pick>, b: seq<Pick>)
    ensures Total(a + b) == Total(a) + Total(b)
  {
    assert PickCosts(a + b) == PickCosts(a) + PickCosts(b);
    SumOfConcat(PickCosts(a), PickCosts(b));
  }

  lemma TotalSplit(sel: seq<Pick>, i: nat)
    requires i < |sel|
    ensures Total(sel) == Total(sel[..i]) + sel[i].chosen.Cost() + Total(sel[i + 1..])
  {
    assert sel == (sel[..i] + [sel[i]]) + sel[i + 1..];
    TotalOfConcat(sel[..i] + [sel[i]], sel[i + 1..]);
    TotalOfConcat(sel[..i], [sel[i]]);
    assert PickCosts([sel[i]]) == [] + [sel[i].chosen.Cost()];
    assert Total([sel[i]]) == sel[i].chosen.Cost() by {
      SumOfConcat([], [sel[i].chosen.Cost()]);
      assert [sel[i].chosen.Cost()][..0] == [];
    }
  }

  predicate IsCheapest(cs: seq<Candidate>, c: Candidate) {
    c in cs && forall x :: x in cs ==> x == c || Cheaper(c, x)
  }

  /** The cheapest compatible model, ties broken by tier and key. */
  method PickCheapest(cs: seq<Candidate>) returns (best: Candidate)
    requires cs != [] && DistinctCandidates(cs)
    ensures IsCheapest(cs, best)
    ensures forall x :: x in cs ==>
              var b, c := if best.upper.Some? then best.upper.value else 0, if x.upper.Some? then x.upper.value else 0;
              && b <= c
              && (b == c ==> best.tier <= x.tier)
              && (b == c && best.tier == x.tier ==> x == best || AlphabeticallyBefore(best.key, x.key))
  {
    best := cs[0];
    for i := 1 to |cs|
      invariant best in cs[..i]
      invariant forall k :: 0 <= k < i ==> cs[k] == best || Cheaper(best, cs[k])
    {
      CheaperIsStrict(cs[i], best);
      if Cheaper(cs[i], best) {
        forall k | 0 <= k < i && cs[k] != best ensures Cheaper(cs[i], cs[k]) {
          CheaperIsTransitive(cs[i], best, cs[k]);
        }
        best := cs[i];
      }
    }
    forall x | x in cs ensures x == best || Cheaper(best, x) {
    }
    forall x | x in cs ensures Less(best.key, x.key) <==> AlphabeticallyBefore(best.key, x.key) {
      LessIsAlphabetical(best.key, x.key);
    }
  }

  /** The format's name, as far as it decides ties: its place in name order. */
  function NameRank(f: Format): nat {
    match f
    case Image => 0
    case Music => 1
    case Text => 2
    case Video => 3
    case Voice => 4
  }

  type Priority = Format -> int

  /** `f` is given up before `g`: by priority, then by name. */
  predicate After(p: Priority, f: Format, g: Format) {
    p(f) > p(g) || (p(f) == p(g) && NameRank(f) > NameRank(g))
  }

  predicate DistinctFormats(sel: seq<Pick>) {
    forall i, j :: 0 <= i < j < |sel| ==> sel[i].analysis.format != sel[j].analysis.format
  }

  /** Index of the lowest-priority format of a selection. */
  function Victim(p: Priority, sel: seq<Pick>): (v: nat)
    requires sel != []
    ensures v < |sel|
    ensures forall k :: 0 <= k < |sel| ==> !After(p, sel[k].analysis.format, sel[v].analysis.format)
  {
    if |sel| == 1 then 0
    else
      var n := |sel| - 1;
      var v := Victim(p, sel[..n]);
      if After(p, sel[n].analysis.format, sel[v].analysis.format) then n else v
  }

  function RemoveAt<T>(xs: seq<T>, i: nat): seq<T>
    requires i < |xs|
  {
    xs[..i] + xs[i + 1..]
  }

  /** What is left of a selection once it fits. */
  function Fitted(p: Priority, sel: seq<Pick>, spendable: Amount): seq<Pick>
    decreases |sel|
  {
    if sel == [] || Total(sel) <= spendable then sel
    else Fitted(p, RemoveAt(sel, Victim(p, sel)), spendable)
  }

  /** The picks given up no later than format `f`. */
  function UpTo(p: Priority, sel: seq<Pick>, f: Format): seq<Pick> {
    if sel == [] then []
    else
      var n := |sel| - 1;
      UpTo(p, sel[..n], f) + if After(p, sel[n].analysis.format, f) then [] else [sel[n]]
  }

  lemma {:induction false} UpToConcat(p: Priority, a: seq<Pick>, b: seq<Pick>, f: Format)
    ensures UpTo(p, a + b, f) == UpTo(p, a, f) + UpTo(p, b, f)
  {
    if b == [] {
      assert a + b == a;
    } else {
      assert (a + b)[..|a + b| - 1] == a + b[..|b| - 1];
      UpToConcat(p, a, b[..|b| - 1], f);
    }
  }

  lemma {:induction false} UpToAll(p: Priority, sel: seq<Pick>, f: Format)
    requires forall k :: 0 <= k < |sel| ==> !After(p, sel[k].analysis.format, f)
    ensures UpTo(p, sel, f) == sel
  {
    if sel != [] {
      UpToAll(p, sel[..|sel| - 1], f);
    }
  }

  lemma UpToSkips(p: Priority, sel: seq<Pick>, v: nat, f: Format)
    requires v < |sel| && After(p, sel[v].analysis.format, f)
    ensures UpTo(p, RemoveAt(sel, v), f) == UpTo(p, sel, f)
  {
    assert sel == (sel[..v] + [sel[v]]) + sel[v + 1..];
    UpToConcat(p, sel[..v] + [sel[v]], sel[v + 1..], f);
    UpToConcat(p, sel[..v], [sel[v]], f);
    UpToConcat(p, sel[..v], sel[v + 1..], f);
    assert UpTo(p, [sel[v]], f) == [] by {
      assert [sel[v]][..0] == [];
    }
  }

  /** The victim is last in priority among everything else that is kept. */
  lemma OthersAreAhead(p: Priority, sel: seq<Pick>)
    requires DistinctFormats(sel) && sel != []
    ensures var v := Victim(p, sel);
            forall y :: y in sel && y != sel[v] ==>
              y in RemoveAt(sel, v) && After(p, sel[v].analysis.format, y.analysis.format)
  {
    var v := Victim(p, sel);
    var rest := RemoveAt(sel, v);
    forall y | y in sel && y != sel[v]
      ensures y in rest && After(p, sel[v].analysis.format, y.analysis.format)
    {
      var k :| 0 <= k < |sel| && sel[k] == y;
      assert y == if k < v then rest[k] else rest[k - 1];
      assert sel[k].analysis.format != sel[v].analysis.format;
      NamesDiffer(sel[k].analysis.format, sel[v].analysis.format);
    }
  }

  /** The drop loop gives up formats strictly from the bottom of the priority order and
      not one more than needed: whatever was dropped would not fit together with
      everything ranked above it. */
  lemma {:induction false} DropIsMinimal(p: Priority, sel: seq<Pick>, spendable: Amount)
    requires DistinctFormats(sel)
    ensures var kept := Fitted(p, sel, spendable);
            && (kept == [] || Total(kept) <= spendable)
            && (forall x :: x in kept ==> x in sel)
            && (forall x, y :: x in kept && y in sel && y !in kept ==> After(p, y.analysis.format, x.analysis.format))
            && (forall y :: y in sel && y !in kept ==> Total(UpTo(p, sel, y.analysis.format)) > spendable)
            && DistinctFormats(kept)
    decreases |sel|
  {
    if sel != [] && Total(sel) > spendable {
      var v := Victim(p, sel);
      var rest := RemoveAt(sel, v);
      DropIsMinimal(p, rest, spendable);
      var kept := Fitted(p, sel, spendable);
      OthersAreAhead(p, sel);
      assert sel[v] !in rest;
      forall y | y in sel && y !in kept
        ensures Total(UpTo(p, sel, y.analysis.format)) > spendable
      {
        if y == sel[v] {
          UpToAll(p, sel, y.analysis.format);
        } else {
          UpToSkips(p, sel, v, y.analysis.format);
        }
      }
    }
  }

  lemma NamesDiffer(f: Format, g: Format)
    requires f != g
    ensures NameRank(f) != NameRank(g)
  {
  }

  /** In priority order the victim is the last format. */
  lemma LastIsVictim(p: Priority, sel: seq<Pick>)
    requires sel != []
    requires forall i, j :: 0 <= i < j < |sel| ==> p(sel[i].analysis.format) < p(sel[j].analysis.format)
    ensures Victim(p, sel) == |sel| - 1 && RemoveAt(sel, |sel| - 1) == sel[..|sel| - 1]
  {
  }

  /** `kept` is the longest prefix of `sel` that fits. */
  ghost predicate LongestPrefix(kept: seq<Pick>, sel: seq<Pick>, spendable: Amount) {
    && |kept| <= |sel| && kept == sel[..|kept|]
    && (kept == [] || Total(kept) <= spendable)
    && (forall n :: |kept| < n <= |sel| ==> Total(sel[..n]) > spendable)
  }

  lemma OneLonger(kept: seq<Pick>, sel: seq<Pick>, spendable: Amount)
    requires sel != [] && Total(sel) > spendable && LongestPrefix(kept, sel[..|sel| - 1], spendable)
    ensures LongestPrefix(kept, sel, spendable)
  {
    var rest := sel[..|sel| - 1];
    assert rest[..|kept|] == sel[..|kept|];
    forall n | |kept| < n <= |sel| ensures Total(sel[..n]) > spendable {
      if n == |sel| {
        assert sel[..n] == sel;
      } else {
        assert rest[..n] == sel[..n];
      }
    }
  }

  /** With distinct priorities, what is kept is the longest prefix of the priority
      order whose cheapest models fit together. */
  lemma {:induction false} KeepsLongestPrefix(p: Priority, sel: seq<Pick>, spendable: Amount)
    requires forall i, j :: 0 <= i < j < |sel| ==> p(sel[i].analysis.format) < p(sel[j].analysis.format)
    ensures LongestPrefix(Fitted(p, sel, spendable), sel, spendable)
    decreases |sel|
  {
    if sel == [] || Total(sel) <= spendable {
      assert sel[..|sel|] == sel;
    } else {
      LastIsVictim(p, sel);
      KeepsLongestPrefix(p, sel[..|sel| - 1], spendable);
      OneLonger(Fitted(p, sel, spendable), sel, spendable);
    }
  }
}
