/** Assembling a plan draft: rank, fit, and turn the selection into steps. */
module PlanBuilder {
  import opened Money
  import opened Domain
  import opened Order
  import opened Planner
  import opened Upgrade

  datatype Brief = Brief(formats: seq<Format>, budget: Amount, strategy: Strategy) {
    predicate Valid() {
      budget > 0 && AllDistinct(formats)
    }
  }

  /** The catalogue as the policy table and the brief see it. */
  type Catalogue = Format -> seq<Spec>

  type Overrides = map<(Format, string), Amount>

  function OverridesOf(overrides: Overrides, f: Format): map<string, Amount> {
    map k | k in overrides && k.0 == f :: k.1 := overrides[k]
  }

  function StepIdOf(f: Format): StepId {
    match f
    case Text => "text-1"
    case Image => "image-1"
    case Voice => "voice-1"
    case Video => "video-1"
    case Music => "music-1"
  }

  function ToStep(planId: PlanId, pick: Pick): PlanStep {
    var f := pick.analysis.format;
    var c := pick.chosen;
    PlanStep(StepIdOf(f), f, Generation, c.key, c.params,
             StepKey(planId, StepIdOf(f), c.key, c.params), c.Cost(), None)
  }

  /** Free, locally composed copy: the fallback when no paid text model fits. */
  function LocalText(planId: PlanId, copy: string): PlanStep {
    PlanStep(StepIdOf(Text), Text, Local, "", "", StepKey(planId, StepIdOf(Text), "local", ""), 0, Some(copy))
  }

  function Estimates(steps: seq<PlanStep>): (cs: seq<Amount>)
    ensures |cs| == |steps|
    ensures forall k :: 0 <= k < |steps| ==> cs[k] == steps[k].estimate
  {
    seq(|steps|, i requires 0 <= i < |steps| => steps[i].estimate)
  }

  function TotalEstimate(steps: seq<PlanStep>): Amount {
    Sum(Estimates(steps))
  }

  lemma TotalOfSteps(a: seq<PlanStep>, b: seq<PlanStep>)
    ensures TotalEstimate(a + b) == TotalEstimate(a) + TotalEstimate(b)
  {
    assert Estimates(a + b) == Estimates(a) + Estimates(b);
    SumOfConcat(Estimates(a), Estimates(b));
  }

  /** At most one step per requested format, under the format's own step id and a key
      derived from it; only copy is produced locally, and locally means free. */
  predicate WellFormed(brief: Brief, planId: PlanId, steps: seq<PlanStep>) {
    && (forall i, j :: 0 <= i < j < |steps| ==> steps[i].format != steps[j].format)
    && (forall s :: s in steps ==> s.format in brief.formats && StepFits(planId, s))
  }

  predicate StepFits(planId: PlanId, s: PlanStep) {
    && s.stepId == StepIdOf(s.format)
    && s.key == StepKey(planId, s.stepId, if s.kind.Local? then "local" else s.model, s.params)
    && (s.kind.Local? ==> s.format == Text && s.estimate == 0)
  }

  predicate HasText(steps: seq<PlanStep>) {
    exists s :: s in steps && s.format == Text
  }

  /** The cheapest compatible model for every format. */
  method Baseline(strategy: Strategy, analyses: seq<Analysis>) returns (base: seq<Pick>)
    requires Ranked(strategy, analyses)
    ensures |base| == |analyses| && forall i :: 0 <= i < |base| ==> base[i].analysis == analyses[i]
    ensures IsBaseline(base) && Proper(strategy, base)
  {
    base := [];
    for i := 0 to |analyses|
      invariant |base| == i
      invariant forall k :: 0 <= k < i ==>
                  base[k].analysis == analyses[k] && IsCheapest(analyses[k].candidates, base[k].chosen)
    {
      assert analyses[i] in analyses;
      var cheapest := PickCheapest(analyses[i].candidates);
      base := base + [Pick(analyses[i], cheapest)];
    }
    forall i | 0 <= i < |base|
      ensures SortedBy(strategy, base[i].analysis.candidates) && DistinctCandidates(base[i].analysis.candidates)
    {
      assert analyses[i] in analyses;
    }
  }

  predicate Offers(sel: seq<Pick>, f: Format) {
    exists i :: 0 <= i < |sel| && sel[i].analysis.format == f
  }

  /** What was dropped on the way from `base` to `kept`: every format that is missing and no
      other, lowest priority first, all of them below everything kept. */
  ghost predicate GaveUp(p: Priority, base: seq<Pick>, kept: seq<Pick>, dropped: seq<Format>) {
    && (forall f :: Offers(kept, f) ==> Offers(base, f))
    && (forall f :: f in dropped <==> Offers(base, f) && !Offers(kept, f))
    && (forall k, l :: 0 <= k < l < |dropped| ==> After(p, dropped[k], dropped[l]))
    && (forall f, i :: f in dropped && 0 <= i < |kept| ==> After(p, f, kept[i].analysis.format))
  }

  /** Ties between formats are decided by name. */
  lemma NamesDecideTies(f: Format, g: Format)
    ensures NameRank(f) < NameRank(g) <==> AlphabeticallyBefore(StepIdOf(f), StepIdOf(g))
  {
    var a, b := StepIdOf(f), StepIdOf(g);
    LessIsAlphabetical(a, b);
    if a[0] == b[0] && f != g {
      assert a[1..][0] != b[1..][0] && Less(a[1..], b[1..]) == (a[1] < b[1]);
    }
    LessIsTotal(a, b);
  }

  /** A format that is dropped has a larger priority number than one that is kept, or the
      same and a name further down the alphabet. */
  lemma DroppedRankBelow(p: Priority, base: seq<Pick>, spendable: Amount, x: Pick, y: Pick)
    requires DistinctFormats(base) && x in Fitted(p, base, spendable) && y in base && y !in Fitted(p, base, spendable)
    ensures var f, g := x.analysis.format, y.analysis.format;
            p(f) < p(g) || (p(f) == p(g) && AlphabeticallyBefore(StepIdOf(f), StepIdOf(g)))
  {
    DropIsMinimal(p, base, spendable);
    NamesDecideTies(x.analysis.format, y.analysis.format);
  }

  /** Removing a pick takes exactly its format off the menu. */
  lemma RestOffers(kept: seq<Pick>, v: nat, f: Format)
    requires v < |kept| && DistinctFormats(kept)
    ensures Offers(RemoveAt(kept, v), f) <==> Offers(kept, f) && f != kept[v].analysis.format
    ensures DistinctFormats(RemoveAt(kept, v))
  {
    var rest := RemoveAt(kept, v);
    assert forall i :: 0 <= i < |rest| ==> rest[i] == kept[if i < v then i else i + 1];
    if Offers(kept, f) && f != kept[v].analysis.format {
      var i :| 0 <= i < |kept| && kept[i].analysis.format == f;
      assert rest[if i < v then i else i - 1] == kept[i];
    }
  }

  lemma RestIsAhead(p: Priority, kept: seq<Pick>, i: nat)
    requires kept != [] && DistinctFormats(kept) && i < |RemoveAt(kept, Victim(p, kept))|
    ensures var rest := RemoveAt(kept, Victim(p, kept));
            rest[i] in kept && After(p, kept[Victim(p, kept)].analysis.format, rest[i].analysis.format)
  {
    var v := Victim(p, kept);
    OthersAreAhead(p, kept);
    assert RemoveAt(kept, v)[i] == kept[if i < v then i else i + 1];
  }

  lemma GivesUpOneMore(p: Priority, base: seq<Pick>, kept: seq<Pick>, dropped: seq<Format>, rest: seq<Pick>,
                       gone: Format)
    requires kept != [] && DistinctFormats(kept) && GaveUp(p, base, kept, dropped)
    requires rest == RemoveAt(kept, Victim(p, kept)) && gone == kept[Victim(p, kept)].analysis.format
    ensures DistinctFormats(rest) && GaveUp(p, base, rest, dropped + [gone])
  {
    forall f ensures Offers(rest, f) <==> Offers(kept, f) && f != gone {
      RestOffers(kept, Victim(p, kept), f);
    }
    RestOffers(kept, Victim(p, kept), gone);
    forall i | 0 <= i < |rest| ensures rest[i] in kept && After(p, gone, rest[i].analysis.format) {
      RestIsAhead(p, kept, i);
    }
    forall k | 0 <= k < |dropped| ensures After(p, dropped[k], gone) {
      assert dropped[k] in dropped;
    }
    assert Offers(kept, gone);
  }

  /** Gives up the lowest-priority formats until the baseline fits. */
  method DropUntilFits(p: Priority, base: seq<Pick>, spendable: Amount)
    returns (kept: seq<Pick>, dropped: seq<Format>)
    requires spendable >= 0 && DistinctFormats(base)
    ensures kept == Fitted(p, base, spendable)
    ensures Total(kept) <= spendable
    ensures GaveUp(p, base, kept, dropped) && (dropped == [] <==> kept == base)
  {
    kept := base;
    dropped := [];
    while kept != [] && Total(kept) > spendable
      invariant Fitted(p, kept, spendable) == Fitted(p, base, spendable)
      invariant DistinctFormats(kept) && GaveUp(p, base, kept, dropped)
      invariant |kept| + |dropped| == |base|
      invariant dropped == [] ==> kept == base
      decreases |kept|
    {
      var v := Victim(p, kept);
      GivesUpOneMore(p, base, kept, dropped, RemoveAt(kept, v), kept[v].analysis.format);
      dropped := dropped + [kept[v].analysis.format];
      kept := RemoveAt(kept, v);
    }
    if kept == [] {
      assert PickCosts(kept) == [];
    }
  }

  /** Every analysis holds a non-empty ranking with distinct models. */
  predicate Ranked(strategy: Strategy, analyses: seq<Analysis>) {
    forall a :: a in analyses ==>
      a.candidates != [] && SortedBy(strategy, a.candidates) && DistinctCandidates(a.candidates)
  }

  predicate DistinctAnalyses(analyses: seq<Analysis>) {
    forall i, j :: 0 <= i < j < |analyses| ==> analyses[i].format != analyses[j].format
  }

  /** What the budget fitting selects: from the cheapest model of every format, formats
      are dropped as `DropIsMinimal` says; of the affordable choices for the kept formats
      none ranks above the one made. */
  ghost predicate Selected(p: Priority, strategy: Strategy, analyses: seq<Analysis>, spendable: Amount,
                           base: seq<Pick>, selection: seq<Pick>) {
    && |base| == |analyses| && (forall i :: 0 <= i < |base| ==> base[i].analysis == analyses[i])
    && IsBaseline(base)
    && SameMenu(selection, Fitted(p, base, spendable))
    && Proper(strategy, selection)
    && Total(selection) <= spendable
    && (strategy.Cheapest? ==> IsBaseline(selection))
    && (!strategy.Cheapest? ==>
          forall alt :: SameMenu(alt, selection) && Proper(strategy, alt) && Total(alt) <= spendable ==>
            LexBest(strategy, selection, alt))
  }

  /** Fits the ranked formats into the envelope: cheapest baseline, drop from the
      bottom, upgrade from the top. */
  method FitToBudget(p: Priority, strategy: Strategy, analyses: seq<Analysis>, spendable: Amount)
    returns (selection: seq<Pick>, dropped: seq<Format>, ghost base: seq<Pick>)
    requires spendable >= 0
    requires Ranked(strategy, analyses) && DistinctAnalyses(analyses)
    ensures Selected(p, strategy, analyses, spendable, base, selection) && DistinctFormats(selection)
    ensures GaveUp(p, base, Fitted(p, base, spendable), dropped)
    ensures dropped == [] <==> Fitted(p, base, spendable) == base
  {
    var cheapest := Baseline(strategy, analyses);
    base := cheapest;
    selection, dropped := DropUntilFits(p, cheapest, spendable);
    DropIsMinimal(p, base, spendable);
    KeptIsBaseline(strategy, base, selection);
    if !strategy.Cheapest? {
      ghost var kept := selection;
      var rounds;
      selection, rounds := UpgradeGreedily(strategy, selection, spendable);
      PassReaches(strategy, kept, |kept|, spendable);
      forall alt | SameMenu(alt, selection) && Proper(strategy, alt) && Total(alt) <= spendable
        ensures LexBest(strategy, selection, alt)
      {
        UpgradeIsOptimal(strategy, kept, alt, spendable);
      }
    }
  }

  lemma KeptIsBaseline(strategy: Strategy, base: seq<Pick>, kept: seq<Pick>)
    requires IsBaseline(base) && Proper(strategy, base) && forall x :: x in kept ==> x in base
    ensures IsBaseline(kept) && Proper(strategy, kept)
  {
    forall i | 0 <= i < |kept|
      ensures IsCheapest(kept[i].analysis.candidates, kept[i].chosen)
      ensures SortedBy(strategy, kept[i].analysis.candidates) && DistinctCandidates(kept[i].analysis.candidates)
    {
      assert kept[i] in base;
      var k :| 0 <= k < |base| && base[k] == kept[i];
    }
  }

  /** The requested formats in the order they claim budget. */
  function ByPriority(p: Priority, fs: seq<Format>): seq<Format> {
    if fs == [] then [] else InsertOn(p, fs[|fs| - 1], ByPriority(p, fs[..|fs| - 1]))
  }

  lemma {:induction false} ByPrioritySorts(p: Priority, fs: seq<Format>)
    requires AllDistinct(fs)
    ensures SortedOn(p, ByPriority(p, fs)) && AllDistinct(ByPriority(p, fs))
    ensures forall f :: f in ByPriority(p, fs) <==> f in fs
  {
    if fs != [] {
      var n := |fs| - 1;
      ByPrioritySorts(p, fs[..n]);
      var rest := ByPriority(p, fs[..n]);
      var k := Place(p, fs[n], rest);
      InsertDistinct(fs[n], rest, k);
      InsertMembers(fs[n], rest, k);
      assert forall f :: f in fs <==> f in fs[..n] || f == fs[n];
      forall f ensures f in ByPriority(p, fs) <==> f in fs {
        assert f in ByPriority(p, fs) <==> f in multiset(rest) + multiset{fs[n]};
      }
    }
  }

  /** Every requested format that has a compatible model, with its ranking. */
  function RankAll(brief: Brief, catalogue: Catalogue, overrides: Overrides, fs: seq<Format>): seq<Analysis>
    requires forall f :: DistinctKeys(catalogue(f))
  {
    if fs == [] then []
    else
      var n := |fs| - 1;
      var ranking := Ranking(brief.strategy, catalogue(fs[n]), OverridesOf(overrides, fs[n]));
      RankAll(brief, catalogue, overrides, fs[..n]) + if ranking == [] then [] else [Analysis(fs[n], ranking)]
  }

  ghost predicate AnalysesOf(p: Priority, brief: Brief, fs: seq<Format>, analyses: seq<Analysis>) {
    && Ranked(brief.strategy, analyses)
    && DistinctAnalyses(analyses)
    && (forall i :: 0 <= i < |analyses| ==> analyses[i].format in fs)
    && (forall i, j :: 0 <= i < j < |analyses| ==> p(analyses[i].format) <= p(analyses[j].format))
  }

  lemma AnalysisAdded(p: Priority, brief: Brief, fs: seq<Format>, analyses: seq<Analysis>, a: Analysis)
    requires fs != [] && AllDistinct(fs) && SortedOn(p, fs)
    requires AnalysesOf(p, brief, fs[..|fs| - 1], analyses)
    requires a.format == fs[|fs| - 1] && Ranked(brief.strategy, [a])
    ensures AnalysesOf(p, brief, fs, analyses + [a])
  {
    assert a in [a];
    forall i | 0 <= i < |analyses|
      ensures analyses[i].format in fs && analyses[i].format != a.format && p(analyses[i].format) <= p(a.format)
    {
      var k :| 0 <= k < |fs| - 1 && fs[k] == analyses[i].format;
    }
  }

  lemma {:induction false} RankAllKeepsOrder(p: Priority, brief: Brief, catalogue: Catalogue, overrides: Overrides,
                                             fs: seq<Format>)
    requires forall f :: DistinctKeys(catalogue(f))
    requires AllDistinct(fs) && SortedOn(p, fs)
    ensures AnalysesOf(p, brief, fs, RankAll(brief, catalogue, overrides, fs))
  {
    if fs != [] {
      var n := |fs| - 1;
      RankAllKeepsOrder(p, brief, catalogue, overrides, fs[..n]);
      var rest := RankAll(brief, catalogue, overrides, fs[..n]);
      var ranking := Ranking(brief.strategy, catalogue(fs[n]), OverridesOf(overrides, fs[n]));
      if ranking != [] {
        AnalysisAdded(p, brief, fs, rest, Analysis(fs[n], ranking));
      } else {
        assert forall i :: 0 <= i < |rest| ==> rest[i].format in fs;
      }
    }
  }

  /** The steps of a selection, in its order. */
  function ToSteps(planId: PlanId, sel: seq<Pick>): (steps: seq<PlanStep>)
    ensures |steps| == |sel|
    ensures forall k :: 0 <= k < |sel| ==> steps[k] == ToStep(planId, sel[k])
  {
    seq(|sel|, i requires 0 <= i < |sel| => ToStep(planId, sel[i]))
  }

  lemma StepsOfSelection(brief: Brief, planId: PlanId, sel: seq<Pick>)
    requires DistinctFormats(sel) && forall k :: 0 <= k < |sel| ==> sel[k].analysis.format in brief.formats
    ensures WellFormed(brief, planId, ToSteps(planId, sel))
    ensures TotalEstimate(ToSteps(planId, sel)) == Total(sel)
  {
    assert Estimates(ToSteps(planId, sel)) == PickCosts(sel);
  }

  function FormatsOf(steps: seq<PlanStep>): (fs: seq<Format>)
    ensures |fs| == |steps|
    ensures forall k :: 0 <= k < |steps| ==> fs[k] == steps[k].format
  {
    seq(|steps|, i requires 0 <= i < |steps| => steps[i].format)
  }

  /** Adding the copy step where its priority puts it. */
  lemma TextInserted(brief: Brief, planId: PlanId, copy: string, steps: seq<PlanStep>, k: nat)
    requires WellFormed(brief, planId, steps) && Text in brief.formats && !HasText(steps) && k <= |steps|
    ensures var r := InsertAt(LocalText(planId, copy), steps, k);
            WellFormed(brief, planId, r) && HasText(r) && TotalEstimate(r) == TotalEstimate(steps)
  {
    var x := LocalText(planId, copy);
    var r := InsertAt(x, steps, k);
    InsertedTotal(x, steps, k);
    assert r[k] == x;
    forall i | 0 <= i < |steps| ensures FormatsOf(steps)[i] != Text {
      assert steps[i] in steps;
    }
    InsertDistinct(Text, FormatsOf(steps), k);
    assert FormatsOf(r) == InsertAt(Text, FormatsOf(steps), k);
    forall s | s in r ensures s.format in brief.formats && StepFits(planId, s) {
      assert s == x || s in steps;
    }
    forall i, j | 0 <= i < j < |r| ensures r[i].format != r[j].format {
      assert FormatsOf(r)[i] != FormatsOf(r)[j];
    }
  }

  lemma InsertedTotal(x: PlanStep, steps: seq<PlanStep>, k: nat)
    requires k <= |steps|
    ensures TotalEstimate(InsertAt(x, steps, k)) == TotalEstimate(steps) + x.estimate
  {
    assert steps == steps[..k] + steps[k..];
    TotalOfSteps(steps[..k], steps[k..]);
    TotalOfSteps(steps[..k] + [x], steps[k..]);
    TotalOfSteps(steps[..k], [x]);
    assert Estimates([x]) == [] + [x.estimate];
    SumOfConcat([], [x.estimate]);
    assert [x.estimate][..0] == [];
  }

  lemma {:induction false} FittedInOrder(p: Priority, sel: seq<Pick>, spendable: Amount)
    requires InOrder(p, sel)
    ensures InOrder(p, Fitted(p, sel, spendable))
    decreases |sel|
  {
    if sel != [] && Total(sel) > spendable {
      FittedInOrder(p, RemoveAt(sel, Victim(p, sel)), spendable);
    }
  }

  predicate InOrder(p: Priority, sel: seq<Pick>) {
    forall i, j :: 0 <= i < j < |sel| ==> p(sel[i].analysis.format) <= p(sel[j].analysis.format)
  }

  /** The order in which steps run. */
  predicate RunsInOrder(p: Priority, steps: seq<PlanStep>) {
    SortedOn(p, FormatsOf(steps))
  }

  /** The copy step, if it is asked for and missing: appended and then stably sorted, it
      lands after the last step not ranked below it. */
  function WithText(p: Priority, brief: Brief, planId: PlanId, copy: string, steps: seq<PlanStep>): seq<PlanStep> {
    if Text in brief.formats && !HasText(steps) then
      InsertAt(LocalText(planId, copy), steps, Place(p, Text, FormatsOf(steps)))
    else steps
  }

  lemma TextPlaced(p: Priority, brief: Brief, planId: PlanId, copy: string, steps: seq<PlanStep>)
    requires WellFormed(brief, planId, steps) && RunsInOrder(p, steps) && Text in brief.formats && !HasText(steps)
    ensures var r := InsertAt(LocalText(planId, copy), steps, Place(p, Text, FormatsOf(steps)));
            WellFormed(brief, planId, r) && RunsInOrder(p, r) && HasText(r) && TotalEstimate(r) == TotalEstimate(steps)
  {
    TextInserted(brief, planId, copy, steps, Place(p, Text, FormatsOf(steps)));
    TextInOrder(p, planId, copy, steps);
  }

  lemma TextInOrder(p: Priority, planId: PlanId, copy: string, steps: seq<PlanStep>)
    requires RunsInOrder(p, steps)
    ensures RunsInOrder(p, InsertAt(LocalText(planId, copy), steps, Place(p, Text, FormatsOf(steps))))
  {
    var k := Place(p, Text, FormatsOf(steps));
    assert FormatsOf(InsertAt(LocalText(planId, copy), steps, k)) == InsertOn(p, Text, FormatsOf(steps));
  }

  /** Copy composed locally, unless a paid text step is already there. */
  method EnsureText(p: Priority, brief: Brief, planId: PlanId, copy: string, steps: seq<PlanStep>)
    returns (r: seq<PlanStep>)
    requires WellFormed(brief, planId, steps) && RunsInOrder(p, steps)
    ensures r == WithText(p, brief, planId, copy, steps)
    ensures WellFormed(brief, planId, r) && RunsInOrder(p, r)
    ensures Text in brief.formats ==> HasText(r)
    ensures TotalEstimate(r) == TotalEstimate(steps)
  {
    r := steps;
    if Text in brief.formats && !HasText(steps) {
      TextPlaced(p, brief, planId, copy, steps);
      r := InsertAt(LocalText(planId, copy), steps, Place(p, Text, FormatsOf(steps)));
    }
  }

  method Assemble(planId: PlanId, selection: seq<Pick>) returns (steps: seq<PlanStep>)
    ensures steps == ToSteps(planId, selection)
  {
    steps := [];
    for i := 0 to |selection|
      invariant steps == ToSteps(planId, selection)[..i]
    {
      steps := steps + [ToStep(planId, selection[i])];
    }
  }

  method AnalyseAll(p: Priority, brief: Brief, catalogue: Catalogue, overrides: Overrides)
    returns (analyses: seq<Analysis>)
    requires brief.Valid()
    requires forall f :: DistinctKeys(catalogue(f))
    ensures analyses == RankAll(brief, catalogue, overrides, ByPriority(p, brief.formats))
    ensures AnalysesOf(p, brief, ByPriority(p, brief.formats), analyses)
  {
    var ordered := ByPriority(p, brief.formats);
    analyses := AnalyseInOrder(brief, catalogue, overrides, ordered);
    ByPrioritySorts(p, brief.formats);
    RankAllKeepsOrder(p, brief, catalogue, overrides, ordered);
  }

  lemma RankOneMore(brief: Brief, catalogue: Catalogue, overrides: Overrides, fs: seq<Format>, i: nat)
    requires (forall f :: DistinctKeys(catalogue(f))) && i < |fs|
    ensures var ranking := Ranking(brief.strategy, catalogue(fs[i]), OverridesOf(overrides, fs[i]));
            RankAll(brief, catalogue, overrides, fs[..i + 1]) ==
            RankAll(brief, catalogue, overrides, fs[..i]) + if ranking == [] then [] else [Analysis(fs[i], ranking)]
  {
    assert fs[..i + 1][..i] == fs[..i];
  }

  method AnalyseInOrder(brief: Brief, catalogue: Catalogue, overrides: Overrides, ordered: seq<Format>)
    returns (analyses: seq<Analysis>)
    requires forall f :: DistinctKeys(catalogue(f))
    ensures analyses == RankAll(brief, catalogue, overrides, ordered)
  {
    analyses := [];
    for i := 0 to |ordered|
      invariant analyses == RankAll(brief, catalogue, overrides, ordered[..i])
    {
      var candidates, rejected := Analyse(brief.strategy, catalogue(ordered[i]), OverridesOf(overrides, ordered[i]));
      RankOneMore(brief, catalogue, overrides, ordered, i);
      if candidates != [] {
        analyses := analyses + [Analysis(ordered[i], candidates)];
      }
    }
    assert ordered[..|ordered|] == ordered;
  }

  lemma SelectionFormats(p: Priority, brief: Brief, base: seq<Pick>, selection: seq<Pick>, spendable: Amount)
    requires DistinctFormats(base) && InOrder(p, base)
    requires forall x :: x in base ==> x.analysis.format in brief.formats
    requires SameMenu(selection, Fitted(p, base, spendable))
    ensures InOrder(p, selection)
    ensures forall k :: 0 <= k < |selection| ==> selection[k].analysis.format in brief.formats
  {
    FittedInOrder(p, base, spendable);
    DropIsMinimal(p, base, spendable);
    var kept := Fitted(p, base, spendable);
    forall k | 0 <= k < |selection|
      ensures selection[k].analysis.format in brief.formats
    {
      assert kept[k] in base;
    }
  }

  lemma BaseFormats(p: Priority, brief: Brief, analyses: seq<Analysis>, base: seq<Pick>)
    requires brief.Valid() && AnalysesOf(p, brief, ByPriority(p, brief.formats), analyses)
    requires |base| == |analyses| && forall i :: 0 <= i < |base| ==> base[i].analysis == analyses[i]
    ensures DistinctFormats(base) && InOrder(p, base)
    ensures forall x :: x in base ==> x.analysis.format in brief.formats
  {
    ByPrioritySorts(p, brief.formats);
  }

  // ---------------------------------------------------------------------------
  // What a draft orders
  // ---------------------------------------------------------------------------

  /** The step orders what was chosen for its format: that model, with its parameters, at
      its price. */
  ghost predicate Orders(s: PlanStep, pick: Pick) {
    && s.kind == Generation && s.format == pick.analysis.format
    && s.model == pick.chosen.key && s.params == pick.chosen.params
    && s.estimate == (if pick.chosen.upper.Some? then pick.chosen.upper.value else 0)
    && s.localOutput == None
  }

  ghost predicate IsOrdered(steps: seq<PlanStep>, pick: Pick) {
    exists s :: s in steps && Orders(s, pick)
  }

  ghost predicate WasChosen(s: PlanStep, selection: seq<Pick>) {
    exists k :: 0 <= k < |selection| && Orders(s, selection[k])
  }

  ghost predicate IsCopy(s: PlanStep, copy: string) {
    s.kind == Local && s.format == Text && s.localOutput == Some(copy) && s.estimate == 0
  }

  /** Every choice is ordered and nothing else is; copy is composed exactly if it is asked
      for and no text model was chosen. */
  ghost predicate Mirrors(brief: Brief, copy: string, steps: seq<PlanStep>, selection: seq<Pick>) {
    && (forall k :: 0 <= k < |selection| ==> IsOrdered(steps, selection[k]))
    && (forall s :: s in steps && s.kind == Generation ==> WasChosen(s, selection))
    && (forall s :: s in steps && s.kind == Local ==> IsCopy(s, copy))
    && ((exists s :: s in steps && s.kind == Local) <==> Text in brief.formats && !Offers(selection, Text))
  }

  lemma StepsMirror(brief: Brief, planId: PlanId, copy: string, sel: seq<Pick>)
    ensures var steps := ToSteps(planId, sel);
            && (forall k :: 0 <= k < |sel| ==> IsOrdered(steps, sel[k]))
            && (forall s :: s in steps ==> s.kind == Generation && WasChosen(s, sel))
            && (HasText(steps) <==> Offers(sel, Text))
  {
    var steps := ToSteps(planId, sel);
    forall k | 0 <= k < |sel| ensures steps[k] in steps && Orders(steps[k], sel[k]) {
    }
    if Offers(sel, Text) {
      var k :| 0 <= k < |sel| && sel[k].analysis.format == Text;
      assert steps[k] in steps && steps[k].format == Text;
    }
  }

  /** The copy is added to the steps, or nothing is. */
  lemma TextJoins(p: Priority, brief: Brief, planId: PlanId, copy: string, steps: seq<PlanStep>, s: PlanStep)
    ensures s in WithText(p, brief, planId, copy, steps) <==>
            s in steps || (Text in brief.formats && !HasText(steps) && s == LocalText(planId, copy))
  {
    if Text in brief.formats && !HasText(steps) {
      var x, k := LocalText(planId, copy), Place(p, Text, FormatsOf(steps));
      InsertMembers(x, steps, k);
      assert s in InsertAt(x, steps, k) <==> s in multiset(steps) + multiset{x};
    }
  }

  lemma DraftMirrors(p: Priority, brief: Brief, planId: PlanId, copy: string, sel: seq<Pick>)
    ensures Mirrors(brief, copy, WithText(p, brief, planId, copy, ToSteps(planId, sel)), sel)
  {
    StepsMirror(brief, planId, copy, sel);
    JoinedMirror(p, brief, planId, copy, ToSteps(planId, sel), sel);
  }

  lemma JoinedMirror(p: Priority, brief: Brief, planId: PlanId, copy: string, steps: seq<PlanStep>, sel: seq<Pick>)
    requires forall k :: 0 <= k < |sel| ==> IsOrdered(steps, sel[k])
    requires forall s :: s in steps ==> s.kind == Generation && WasChosen(s, sel)
    requires HasText(steps) <==> Offers(sel, Text)
    ensures Mirrors(brief, copy, WithText(p, brief, planId, copy, steps), sel)
  {
    var r := WithText(p, brief, planId, copy, steps);
    forall s
      ensures s in r <==> s in steps || (Text in brief.formats && !HasText(steps) && s == LocalText(planId, copy))
    {
      TextJoins(p, brief, planId, copy, steps, s);
    }
    forall k | 0 <= k < |sel| ensures IsOrdered(r, sel[k]) {
      var s :| s in steps && Orders(s, sel[k]);
      assert s in r;
    }
  }

  /** The step orders a usable model of its format, with that model's parameters, at the
      price confirmed for it, or else the catalogue's, or else zero. */
  ghost predicate IsOffered(s: PlanStep, specs: seq<Spec>, confirmed: Overrides) {
    exists spec ::
      && spec in specs && IsUsable(spec) && spec.key == s.model && spec.params == s.params
      && ((s.format, s.model) in confirmed ==> s.estimate == confirmed[(s.format, s.model)])
      && ((s.format, s.model) !in confirmed ==> s.estimate == if spec.upper.Some? then spec.upper.value else 0)
  }

  ghost predicate IsAnalysed(all: seq<Analysis>, f: Format) {
    exists a :: a in all && a.format == f
  }

  /** Exactly the formats with a usable model are analysed, each with its ranking. */
  lemma {:induction false} RankAllIsExact(brief: Brief, catalogue: Catalogue, overrides: Overrides, fs: seq<Format>)
    requires forall f :: DistinctKeys(catalogue(f))
    ensures var all := RankAll(brief, catalogue, overrides, fs);
            && (forall a :: a in all ==>
                  && a.format in fs && a.candidates != []
                  && a.candidates == Ranking(brief.strategy, catalogue(a.format), OverridesOf(overrides, a.format)))
            && (forall f :: IsAnalysed(all, f) <==>
                            f in fs && exists spec :: spec in catalogue(f) && IsUsable(spec))
  {
    if fs != [] {
      var n := |fs| - 1;
      var all, rest := RankAll(brief, catalogue, overrides, fs), RankAll(brief, catalogue, overrides, fs[..n]);
      var ranking := Ranking(brief.strategy, catalogue(fs[n]), OverridesOf(overrides, fs[n]));
      RankAllIsExact(brief, catalogue, overrides, fs[..n]);
      UsableIsRanked(brief.strategy, catalogue(fs[n]), OverridesOf(overrides, fs[n]));
      assert all == rest + if ranking == [] then [] else [Analysis(fs[n], ranking)];
      forall f ensures IsAnalysed(all, f) <==> IsAnalysed(rest, f) || (ranking != [] && f == fs[n]) {
        if ranking != [] {
          assert Analysis(fs[n], ranking) in all;
        }
      }
      assert forall f :: f in fs <==> f in fs[..n] || f == fs[n];
    }
  }

  lemma UsableIsRanked(strategy: Strategy, specs: seq<Spec>, overrides: map<string, Amount>)
    requires DistinctKeys(specs)
    ensures Ranking(strategy, specs, overrides) != [] <==> exists spec :: spec in specs && IsUsable(spec)
  {
    var cs := Ranking(strategy, specs, overrides);
    RankingIsExact(strategy, specs, overrides);
    assert cs != [] ==> cs[0] in cs;
    if spec :| spec in specs && IsUsable(spec) && IsPriced(spec, overrides) {
      assert IsStoodFor(spec, cs, overrides);
    } else if spec :| spec in specs && IsUsable(spec) {
      assert IsStoodFor(spec, cs, overrides);
    }
  }

  /** What is chosen for a format is offered for it. */
  lemma ChosenIsOffered(brief: Brief, catalogue: Catalogue, overrides: Overrides, fs: seq<Format>, pick: Pick,
                        s: PlanStep)
    requires forall f :: DistinctKeys(catalogue(f))
    requires pick.analysis in RankAll(brief, catalogue, overrides, fs) && pick.chosen in pick.analysis.candidates
    requires Orders(s, pick)
    ensures IsOffered(s, catalogue(s.format), overrides)
  {
    RankAllIsExact(brief, catalogue, overrides, fs);
    var f := s.format;
    RankingIsExact(brief.strategy, catalogue(f), OverridesOf(overrides, f));
    var spec :| spec in catalogue(f) && IsUsable(spec) && StandsFor(pick.chosen, spec, OverridesOf(overrides, f));
    OverridesAt(overrides, f, spec.key);
  }

  lemma OverridesAt(overrides: Overrides, f: Format, key: string)
    ensures key in OverridesOf(overrides, f) <==> (f, key) in overrides
    ensures (f, key) in overrides ==> OverridesOf(overrides, f)[key] == overrides[(f, key)]
  {
    if (f, key) in overrides {
      assert (f, key).1 in OverridesOf(overrides, f);
    }
  }

  lemma SelectionIsOffered(p: Priority, brief: Brief, catalogue: Catalogue, overrides: Overrides, fs: seq<Format>,
                           spendable: Amount, base: seq<Pick>, selection: seq<Pick>, k: nat)
    requires (forall f :: DistinctKeys(catalogue(f))) && DistinctFormats(base)
    requires Selected(p, brief.strategy, RankAll(brief, catalogue, overrides, fs), spendable, base, selection)
    requires k < |selection|
    ensures selection[k].analysis in RankAll(brief, catalogue, overrides, fs)
            && selection[k].chosen in selection[k].analysis.candidates
  {
    DropIsMinimal(p, base, spendable);
    var kept := Fitted(p, base, spendable);
    assert kept[k] in base;
    var i :| 0 <= i < |base| && base[i] == kept[k];
  }

  /** The steps are those of a selection for the ranked formats, and the copy. */
  ghost predicate IsDraft(p: Priority, brief: Brief, catalogue: Catalogue, planId: PlanId, copy: string,
                          spendable: Amount, overrides: Overrides, steps: seq<PlanStep>, dropped: bool)
    requires forall f :: DistinctKeys(catalogue(f))
  {
    exists base, selection ::
      && Selected(p, brief.strategy, RankAll(brief, catalogue, overrides, ByPriority(p, brief.formats)), spendable,
                  base, selection)
      && steps == WithText(p, brief, planId, copy, ToSteps(planId, selection))
      && (dropped <==> Fitted(p, base, spendable) != base)
  }

  /** The steps order a selection for the ranked formats, choice by choice; a format was
      dropped exactly if fewer were chosen for than could be. */
  ghost predicate OrdersSelection(p: Priority, brief: Brief, catalogue: Catalogue, copy: string, spendable: Amount,
                                  overrides: Overrides, steps: seq<PlanStep>, dropped: bool)
    requires forall f :: DistinctKeys(catalogue(f))
  {
    exists base, selection ::
      && Selected(p, brief.strategy, RankAll(brief, catalogue, overrides, ByPriority(p, brief.formats)), spendable,
                  base, selection)
      && Mirrors(brief, copy, steps, selection)
      && (dropped <==> |selection| < |base|)
  }

  /** Every billable step orders what the catalogue offers for its format. */
  ghost predicate AllOffered(steps: seq<PlanStep>, catalogue: Catalogue, confirmed: Overrides) {
    forall s :: s in steps && s.kind == Generation ==> IsOffered(s, catalogue(s.format), confirmed)
  }

  lemma DrawnIsOffered(p: Priority, brief: Brief, catalogue: Catalogue, overrides: Overrides, spendable: Amount,
                       base: seq<Pick>, selection: seq<Pick>, s: PlanStep)
    requires (forall f :: DistinctKeys(catalogue(f))) && DistinctFormats(base)
    requires Selected(p, brief.strategy, RankAll(brief, catalogue, overrides, ByPriority(p, brief.formats)), spendable,
                      base, selection)
    requires WasChosen(s, selection)
    ensures IsOffered(s, catalogue(s.format), overrides)
  {
    var k :| 0 <= k < |selection| && Orders(s, selection[k]);
    SelectionIsOffered(p, brief, catalogue, overrides, ByPriority(p, brief.formats), spendable, base, selection, k);
    ChosenIsOffered(brief, catalogue, overrides, ByPriority(p, brief.formats), selection[k], s);
  }

  lemma AllAreOffered(p: Priority, brief: Brief, catalogue: Catalogue, copy: string, overrides: Overrides,
                      spendable: Amount, steps: seq<PlanStep>, base: seq<Pick>, selection: seq<Pick>)
    requires (forall f :: DistinctKeys(catalogue(f))) && DistinctFormats(base)
    requires Selected(p, brief.strategy, RankAll(brief, catalogue, overrides, ByPriority(p, brief.formats)), spendable,
                      base, selection)
    requires Mirrors(brief, copy, steps, selection)
    ensures AllOffered(steps, catalogue, overrides)
  {
    forall s | s in steps && s.kind == Generation ensures IsOffered(s, catalogue(s.format), overrides) {
      DrawnIsOffered(p, brief, catalogue, overrides, spendable, base, selection, s);
    }
  }

  /** What is known of every draft. */
  ghost predicate IsSound(p: Priority, brief: Brief, catalogue: Catalogue, planId: PlanId, copy: string,
                          spendable: Amount, overrides: Overrides, steps: seq<PlanStep>, dropped: bool)
    requires forall f :: DistinctKeys(catalogue(f))
  {
    && WellFormed(brief, planId, steps) && RunsInOrder(p, steps) && AllOffered(steps, catalogue, overrides)
    && OrdersSelection(p, brief, catalogue, copy, spendable, overrides, steps, dropped)
  }

  /** Every draft orders a selection for the ranked formats, choice by choice, out of what
      the catalogue offers, one step per format at most, in the order the steps run. */
  lemma DraftIsSound(p: Priority, brief: Brief, catalogue: Catalogue, planId: PlanId, copy: string, spendable: Amount,
                     overrides: Overrides, steps: seq<PlanStep>, dropped: bool)
    requires brief.Valid() && forall f :: DistinctKeys(catalogue(f))
    requires IsDraft(p, brief, catalogue, planId, copy, spendable, overrides, steps, dropped)
    ensures IsSound(p, brief, catalogue, planId, copy, spendable, overrides, steps, dropped)
  {
    var base, selection :|
      && Selected(p, brief.strategy, RankAll(brief, catalogue, overrides, ByPriority(p, brief.formats)), spendable,
                  base, selection)
      && steps == WithText(p, brief, planId, copy, ToSteps(planId, selection))
      && (dropped <==> Fitted(p, base, spendable) != base);
    SelectionIsSound(p, brief, catalogue, planId, copy, spendable, overrides, base, selection);
    DraftMirrors(p, brief, planId, copy, selection);
    FittedShrinks(p, base, spendable);
  }

  lemma SelectionIsSound(p: Priority, brief: Brief, catalogue: Catalogue, planId: PlanId, copy: string,
                         spendable: Amount, overrides: Overrides, base: seq<Pick>, selection: seq<Pick>)
    requires brief.Valid() && forall f :: DistinctKeys(catalogue(f))
    requires Selected(p, brief.strategy, RankAll(brief, catalogue, overrides, ByPriority(p, brief.formats)), spendable,
                      base, selection)
    ensures var steps := WithText(p, brief, planId, copy, ToSteps(planId, selection));
            WellFormed(brief, planId, steps) && RunsInOrder(p, steps) && AllOffered(steps, catalogue, overrides)
  {
    var ordered := ByPriority(p, brief.formats);
    var steps := WithText(p, brief, planId, copy, ToSteps(planId, selection));
    ByPrioritySorts(p, brief.formats);
    RankAllKeepsOrder(p, brief, catalogue, overrides, ordered);
    BaseFormats(p, brief, RankAll(brief, catalogue, overrides, ordered), base);
    SelectionFormats(p, brief, base, selection, spendable);
    DraftMirrors(p, brief, planId, copy, selection);
    AllAreOffered(p, brief, catalogue, copy, overrides, spendable, steps, base, selection);
    SelectionIsDistinct(p, base, selection, spendable);
    OrderedIsSound(p, brief, planId, copy, selection);
  }

  lemma SelectionIsDistinct(p: Priority, base: seq<Pick>, selection: seq<Pick>, spendable: Amount)
    requires DistinctFormats(base) && SameMenu(selection, Fitted(p, base, spendable))
    ensures DistinctFormats(selection)
  {
    DropIsMinimal(p, base, spendable);
  }

  lemma OrderedIsSound(p: Priority, brief: Brief, planId: PlanId, copy: string, selection: seq<Pick>)
    requires DistinctFormats(selection) && InOrder(p, selection)
    requires forall k :: 0 <= k < |selection| ==> selection[k].analysis.format in brief.formats
    ensures var steps := WithText(p, brief, planId, copy, ToSteps(planId, selection));
            WellFormed(brief, planId, steps) && RunsInOrder(p, steps)
  {
    var steps := ToSteps(planId, selection);
    StepsOfSelection(brief, planId, selection);
    if Text in brief.formats && !HasText(steps) {
      TextPlaced(p, brief, planId, copy, steps);
    }
  }

  lemma {:induction false} FittedShrinks(p: Priority, sel: seq<Pick>, spendable: Amount)
    ensures |Fitted(p, sel, spendable)| <= |sel|
    ensures |Fitted(p, sel, spendable)| == |sel| <==> Fitted(p, sel, spendable) == sel
    decreases |sel|
  {
    if sel != [] && Total(sel) > spendable {
      FittedShrinks(p, RemoveAt(sel, Victim(p, sel)), spendable);
    }
  }

  /** A draft that fits the envelope. */
  method Build(p: Priority, brief: Brief, catalogue: Catalogue, planId: PlanId, copy: string,
               spendable: Amount, overrides: Overrides)
    returns (steps: seq<PlanStep>, dropped: bool)
    requires brief.Valid() && spendable >= 0
    requires forall f :: DistinctKeys(catalogue(f))
    ensures IsDraft(p, brief, catalogue, planId, copy, spendable, overrides, steps, dropped)
    ensures IsSound(p, brief, catalogue, planId, copy, spendable, overrides, steps, dropped)
    ensures TotalEstimate(steps) <= spendable
    ensures Text in brief.formats ==> HasText(steps)
  {
    var analyses := AnalyseAll(p, brief, catalogue, overrides);
    var selection, gone, base := FitToBudget(p, brief.strategy, analyses, spendable);
    dropped := gone != [];
    BaseFormats(p, brief, analyses, base);
    SelectionFormats(p, brief, base, selection, spendable);
    steps := Assemble(planId, selection);
    StepsOfSelection(brief, planId, selection);
    steps := EnsureText(p, brief, planId, copy, steps);
    DraftIsSound(p, brief, catalogue, planId, copy, spendable, overrides, steps, dropped);
  }
}
