/** From a brief to a priced plan. Planning calls `/generate/estimate` but never
    `/generate`; the answers of the platform are arbitrary throughout. */
module PlanCreation {
  import opened Money
  import opened Domain
  import opened Order
  import opened Budget
  import opened Planner
  import opened PlanBuilder
  import opened WireModel

  /** The authoritative price in an estimate: the fixed price, or else the reserve the
      platform holds. Missing or inconsistent figures mean no price at all. */
  function EstimatedCost(e: EstimatePayload): Option<Amount> {
    if e.cost.Some? then e.cost
    else if e.current.Some? && e.afterReserve.Some? && e.current.value >= e.afterReserve.value then
      Some(e.current.value - e.afterReserve.value)
    else None
  }

  function AskPrice(s: PlanStep): EstimateBody {
    EstimateBody(s.format, s.model, s.params)
  }

  /** What pricing makes of one billable step: dropped, or carrying the confirmed price. */
  function Confirmed(s: PlanStep, reply: Result<EstimatePayload, VibeError>): Option<PlanStep> {
    if reply.Err? || reply.value.invalid || EstimatedCost(reply.value).None? then None
    else Some(s.(estimate := EstimatedCost(reply.value).value))
  }

  /** Pricing the first `n` steps: the platform's state and the steps that survive. */
  function Priced<S>(wire: Wire<S>, state: S, steps: seq<PlanStep>, n: nat): (S, seq<PlanStep>)
    requires n <= |steps|
  {
    if n == 0 then (state, [])
    else
      var (before, kept) := Priced(wire, state, steps, n - 1);
      var s := steps[n - 1];
      if s.kind.Local? then (before, kept + [s])
      else
        var (next, reply) := wire.estimate(before, AskPrice(s));
        var c := Confirmed(s, reply);
        (next, if c.Some? then kept + [c.value] else kept)
  }

  method PriceSteps<S>(client: Client<S>, steps: seq<PlanStep>) returns (priced: seq<PlanStep>)
    modifies client`state
    ensures (client.state, priced) == Priced(client.wire, old(client.state), steps, |steps|)
  {
    priced := [];
    for i := 0 to |steps|
      invariant (client.state, priced) == Priced(client.wire, old(client.state), steps, i)
    {
      if steps[i].kind.Local? {
        priced := priced + [steps[i]];
      } else {
        var reply := client.Estimate(AskPrice(steps[i]));
        if reply.Ok? && !reply.value.invalid {
          var cost := EstimatedCost(reply.value);
          if cost.Some? {
            priced := priced + [steps[i].(estimate := cost.value)];
          }
        }
      }
    }
  }

  predicate SameButPrice(a: PlanStep, b: PlanStep) {
    a == b.(estimate := a.estimate)
  }

  ghost predicate RepricedOne(s: PlanStep, steps: seq<PlanStep>) {
    exists k :: 0 <= k < |steps| && SameButPrice(s, steps[k])
  }

  ghost predicate RepricedFrom(priced: seq<PlanStep>, steps: seq<PlanStep>) {
    forall i :: 0 <= i < |priced| ==> RepricedOne(priced[i], steps)
  }

  lemma Widen(priced: seq<PlanStep>, steps: seq<PlanStep>)
    requires steps != [] && RepricedFrom(priced, steps[..|steps| - 1])
    ensures RepricedFrom(priced, steps)
  {
    forall i | 0 <= i < |priced|
      ensures RepricedOne(priced[i], steps)
    {
      assert RepricedOne(priced[i], steps[..|steps| - 1]);
      var k :| 0 <= k < |steps| - 1 && SameButPrice(priced[i], steps[..|steps| - 1][k]);
      assert SameButPrice(priced[i], steps[k]);
    }
  }

  /** Pricing removes billable steps and changes prices, and nothing else. */
  lemma {:induction false} PricingKeepsShape<S>(wire: Wire<S>, state: S, brief: Brief, planId: PlanId,
                                                steps: seq<PlanStep>)
    requires WellFormed(brief, planId, steps)
    ensures var priced := Priced(wire, state, steps, |steps|).1;
            && WellFormed(brief, planId, priced)
            && RepricedFrom(priced, steps)
            && (forall k :: 0 <= k < |steps| && steps[k].kind.Local? ==> steps[k] in priced)
  {
    if steps != [] {
      var n := |steps| - 1;
      var init := steps[..n];
      PrefixPricing(wire, state, steps, n);
      PricingKeepsShape(wire, state, brief, planId, init);
      var before := Priced(wire, state, init, n).1;
      var priced := Priced(wire, state, steps, n + 1).1;
      Widen(before, steps);
      assert steps[n] in steps;
      if priced != before {
        var last := priced[|before|];
        assert priced == before + [last];
        assert SameButPrice(last, steps[n]);
        ShapeOfAppend(brief, planId, before, steps, last);
      }
      LocalsKept(steps, init, before, priced);
    }
  }

  lemma LocalsKept(steps: seq<PlanStep>, init: seq<PlanStep>, before: seq<PlanStep>, priced: seq<PlanStep>)
    requires steps != [] && init == steps[..|steps| - 1] && before <= priced
    requires forall k :: 0 <= k < |init| && init[k].kind.Local? ==> init[k] in before
    requires steps[|steps| - 1].kind.Local? ==> steps[|steps| - 1] in priced
    ensures forall k :: 0 <= k < |steps| && steps[k].kind.Local? ==> steps[k] in priced
  {
    forall k | 0 <= k < |steps| && steps[k].kind.Local? ensures steps[k] in priced {
      if k < |steps| - 1 {
        assert init[k] in before;
      }
    }
  }

  lemma {:induction false} PrefixPricing<S>(wire: Wire<S>, state: S, steps: seq<PlanStep>, n: nat)
    requires n <= |steps|
    ensures Priced(wire, state, steps, n) == Priced(wire, state, steps[..n], n)
  {
    PrefixPricingAt(wire, state, steps, steps[..n], n);
  }

  lemma {:induction false} PrefixPricingAt<S>(wire: Wire<S>, state: S, a: seq<PlanStep>, b: seq<PlanStep>, n: nat)
    requires n <= |a| && n <= |b| && a[..n] == b[..n]
    ensures Priced(wire, state, a, n) == Priced(wire, state, b, n)
  {
    if n > 0 {
      assert a[..n - 1] == a[..n][..n - 1] == b[..n][..n - 1] == b[..n - 1];
      PrefixPricingAt(wire, state, a, b, n - 1);
      assert a[n - 1] == a[..n][n - 1] == b[n - 1];
    }
  }

  lemma ShapeOfAppend(brief: Brief, planId: PlanId, before: seq<PlanStep>, steps: seq<PlanStep>, last: PlanStep)
    requires steps != [] && WellFormed(brief, planId, steps) && WellFormed(brief, planId, before)
    requires RepricedFrom(before, steps[..|steps| - 1]) && RepricedFrom(before, steps)
    requires SameButPrice(last, steps[|steps| - 1]) && (last.kind.Local? ==> last == steps[|steps| - 1])
    ensures WellFormed(brief, planId, before + [last]) && RepricedFrom(before + [last], steps)
  {
    var n := |steps| - 1;
    assert steps[n] in steps;
    forall i | 0 <= i < |before| ensures before[i].format != last.format {
      assert RepricedOne(before[i], steps[..n]);
      var k :| 0 <= k < n && SameButPrice(before[i], steps[..n][k]);
      assert steps[k].format != steps[n].format;
    }
  }

  // ---------------------------------------------------------------------------
  // The drop loop after authoritative pricing
  // ---------------------------------------------------------------------------

  predicate HasBillable(steps: seq<PlanStep>) {
    exists i :: 0 <= i < |steps| && steps[i].kind.Generation?
  }

  /** `a` is given up before `b`. */
  predicate GivenUpBefore(p: Priority, a: PlanStep, b: PlanStep) {
    p(a.format) > p(b.format) || (p(a.format) == p(b.format) && a.estimate > b.estimate)
  }

  /** The billable step given up next, the first one among equals. */
  function NextVictim(p: Priority, steps: seq<PlanStep>): (v: nat)
    requires HasBillable(steps)
    ensures v < |steps| && steps[v].kind.Generation?
    ensures forall k :: 0 <= k < |steps| && steps[k].kind.Generation? ==> !GivenUpBefore(p, steps[k], steps[v])
  {
    var n := |steps| - 1;
    if !HasBillable(steps[..n]) then n
    else
      var v := NextVictim(p, steps[..n]);
      if steps[n].kind.Generation? && GivenUpBefore(p, steps[n], steps[v]) then n else v
  }

  function Affordable(p: Priority, steps: seq<PlanStep>, spendable: Amount): seq<PlanStep>
    decreases |steps|
  {
    if TotalEstimate(steps) <= spendable || !HasBillable(steps) then steps
    else Affordable(p, RemoveAt(steps, NextVictim(p, steps)), spendable)
  }

  /** Every billable step kept has at most the priority number of every step given up, and
      at most its price if the numbers are equal. */
  ghost predicate GaveUpLowest(p: Priority, steps: seq<PlanStep>, kept: seq<PlanStep>) {
    forall s, t :: s in steps && s !in kept && t in kept && t.kind == Generation ==>
                     && s.kind == Generation
                     && p(t.format) <= p(s.format)
                     && (p(t.format) == p(s.format) ==> t.estimate <= s.estimate)
  }

  lemma {:induction false} AffordableGivesUpLowest(p: Priority, steps: seq<PlanStep>, spendable: Amount)
    ensures GaveUpLowest(p, steps, Affordable(p, steps, spendable))
    ensures forall s :: s in Affordable(p, steps, spendable) ==> s in steps
    decreases |steps|
  {
    if TotalEstimate(steps) > spendable && HasBillable(steps) {
      var v := NextVictim(p, steps);
      RemovalMembers(steps, v);
      AffordableGivesUpLowest(p, RemoveAt(steps, v), spendable);
    }
  }

  method DropUntilAffordable(p: Priority, steps: seq<PlanStep>, spendable: Amount)
    returns (kept: seq<PlanStep>, dropped: nat)
    ensures kept == Affordable(p, steps, spendable)
    ensures GaveUpLowest(p, steps, kept) && forall s :: s in kept ==> s in steps
    ensures |kept| + dropped == |steps|
    ensures TotalEstimate(kept) <= spendable || forall s :: s in kept ==> s.kind == Local
  {
    AffordableGivesUpLowest(p, steps, spendable);
    kept := steps;
    dropped := 0;
    while TotalEstimate(kept) > spendable && HasBillable(kept)
      invariant Affordable(p, kept, spendable) == Affordable(p, steps, spendable)
      invariant |kept| + dropped == |steps|
      decreases |kept|
    {
      kept := RemoveAt(kept, NextVictim(p, kept));
      dropped := dropped + 1;
    }
  }

  /** Whatever the confirmed prices are, the loop ends with a plan that fits. It only gives
      up billable steps, the largest priority number first and the dearest among equals,
      and stops as soon as it can. */
  lemma {:induction false} DropLoopFits(p: Priority, brief: Brief, planId: PlanId, steps: seq<PlanStep>,
                                        spendable: Amount)
    requires WellFormed(brief, planId, steps) && spendable >= 0
    ensures var kept := Affordable(p, steps, spendable);
            && WellFormed(brief, planId, kept)
            && TotalEstimate(kept) <= spendable
            && (forall s :: s in kept ==> s in steps)
            && (forall s :: s in steps && s !in kept ==> s.kind.Generation?)
            && GaveUpLowest(p, steps, kept)
            && (kept != steps ==> exists v :: v in steps && v !in kept && TotalEstimate(kept) + v.estimate > spendable)
    decreases |steps|
  {
    if TotalEstimate(steps) <= spendable {
    } else if !HasBillable(steps) {
      AllLocalIsFree(brief, planId, steps);
    } else {
      var v := NextVictim(p, steps);
      var rest := RemoveAt(steps, v);
      RemovalFacts(brief, planId, steps, v);
      DropLoopFits(p, brief, planId, rest, spendable);
      var kept := Affordable(p, steps, spendable);
      if kept == rest {
        assert TotalEstimate(kept) + steps[v].estimate > spendable;
      }
      assert steps[v] !in kept;
    }
  }

  /** The billable steps, in their order. */
  function Paid(steps: seq<PlanStep>): seq<PlanStep> {
    if steps == [] then []
    else
      var n := |steps| - 1;
      Paid(steps[..n]) + if steps[n].kind == Generation then [steps[n]] else []
  }

  lemma {:induction false} PaidMembers(steps: seq<PlanStep>, s: PlanStep)
    ensures s in Paid(steps) <==> s in steps && s.kind == Generation
  {
    if steps != [] {
      var n := |steps| - 1;
      PaidMembers(steps[..n], s);
      assert steps == steps[..n] + [steps[n]];
    }
  }

  lemma {:induction false} PaidConcat(a: seq<PlanStep>, b: seq<PlanStep>)
    ensures Paid(a + b) == Paid(a) + Paid(b)
  {
    if b == [] {
      assert a + b == a;
    } else {
      assert (a + b)[..|a + b| - 1] == a + b[..|b| - 1];
      PaidConcat(a, b[..|b| - 1]);
    }
  }

  predicate LocalsAreFree(steps: seq<PlanStep>) {
    forall s :: s in steps && s.kind == Local ==> s.estimate == 0
  }

  lemma {:induction false} PaidTotal(steps: seq<PlanStep>)
    requires LocalsAreFree(steps)
    ensures TotalEstimate(Paid(steps)) == TotalEstimate(steps)
  {
    if steps != [] {
      var n := |steps| - 1;
      PaidTotal(steps[..n]);
      TotalOfSteps(steps[..n], [steps[n]]);
      assert steps == steps[..n] + [steps[n]];
      TotalOfSteps(Paid(steps[..n]), if steps[n].kind == Generation then [steps[n]] else []);
      TotalOfNone();
      if steps[n].kind == Local {
        assert steps[n] in steps;
        TotalOfFree(steps[n]);
      }
    }
  }

  lemma TotalOfNone()
    ensures TotalEstimate([]) == 0
  {
    assert Estimates([]) == [];
  }

  lemma TotalOfFree(s: PlanStep)
    requires s.estimate == 0
    ensures TotalEstimate([s]) == 0
  {
    SumOfZeros(Estimates([s]));
  }

  /** The steps run in priority order, no two formats sharing a priority. */
  predicate StrictlyRanked(p: Priority, steps: seq<PlanStep>) {
    forall i, j :: 0 <= i < j < |steps| ==> p(steps[i].format) < p(steps[j].format)
  }

  /** `kept` is the longest prefix of `all` that the confirmed prices leave room for. */
  ghost predicate LongestThatFits(kept: seq<PlanStep>, all: seq<PlanStep>, spendable: Amount) {
    && |kept| <= |all| && kept == all[..|kept|]
    && TotalEstimate(kept) <= spendable
    && forall n :: |kept| < n <= |all| ==> TotalEstimate(all[..n]) > spendable
  }

  predicate AllLocal(steps: seq<PlanStep>) {
    forall k :: 0 <= k < |steps| ==> steps[k].kind == Local
  }

  lemma {:induction false} NothingPaid(steps: seq<PlanStep>)
    requires AllLocal(steps)
    ensures Paid(steps) == []
  {
    if steps != [] {
      NothingPaid(steps[..|steps| - 1]);
    }
  }

  lemma PaidThenLocal(a: seq<PlanStep>, b: seq<PlanStep>)
    requires AllLocal(b)
    ensures Paid(a + b) == Paid(a)
  {
    PaidConcat(a, b);
    NothingPaid(b);
  }

  /** Removing the last billable step shortens the list of billable steps by one. */
  lemma PaidOfRemoval(head: seq<PlanStep>, s: PlanStep, tail: seq<PlanStep>)
    requires s.kind == Generation && AllLocal(tail)
    ensures Paid(head + [s] + tail) == Paid(head + tail) + [s]
  {
    PaidThenLocal(head + [s], tail);
    PaidThenLocal(head, tail);
    assert (head + [s])[..|head|] == head;
  }

  lemma NothingPaidBehind(p: Priority, steps: seq<PlanStep>, v: nat)
    requires StrictlyRanked(p, steps) && HasBillable(steps) && NextVictim(p, steps) == v
    ensures AllLocal(steps[v + 1..])
  {
    forall k | v < k < |steps| ensures steps[k].kind == Local {
      assert p(steps[v].format) < p(steps[k].format);
    }
  }

  lemma SplitAt(steps: seq<PlanStep>, v: nat)
    requires v < |steps|
    ensures steps == steps[..v] + [steps[v]] + steps[v + 1..]
  {
  }

  /** In strict priority order the step given up next is the last billable one. */
  lemma VictimIsLastPaid(p: Priority, steps: seq<PlanStep>)
    requires StrictlyRanked(p, steps) && HasBillable(steps)
    ensures var v := NextVictim(p, steps);
            Paid(steps) == Paid(RemoveAt(steps, v)) + [steps[v]]
  {
    var v := NextVictim(p, steps);
    NothingPaidBehind(p, steps, v);
    SplitAt(steps, v);
    PaidOfRemoval(steps[..v], steps[v], steps[v + 1..]);
  }

  lemma RestIsRanked(p: Priority, steps: seq<PlanStep>, v: nat)
    requires StrictlyRanked(p, steps) && LocalsAreFree(steps) && v < |steps|
    ensures StrictlyRanked(p, RemoveAt(steps, v)) && LocalsAreFree(RemoveAt(steps, v))
  {
    var rest := RemoveAt(steps, v);
    assert forall i :: 0 <= i < |rest| ==> rest[i] == steps[if i < v then i else i + 1];
  }

  lemma OneStepLonger(kept: seq<PlanStep>, all: seq<PlanStep>, spendable: Amount)
    requires all != [] && TotalEstimate(all) > spendable && LongestThatFits(kept, all[..|all| - 1], spendable)
    ensures LongestThatFits(kept, all, spendable)
  {
    var rest := all[..|all| - 1];
    assert rest[..|kept|] == all[..|kept|];
    forall n | |kept| < n <= |all| ensures TotalEstimate(all[..n]) > spendable {
      if n == |all| {
        assert all[..n] == all;
      } else {
        assert rest[..n] == all[..n];
      }
    }
  }

  /** Where every format has its own priority, the billable steps kept are the longest run
      from the top of the priority order whose confirmed prices fit. */
  lemma {:induction false} KeepsTopOfTheOrder(p: Priority, steps: seq<PlanStep>, spendable: Amount)
    requires StrictlyRanked(p, steps) && LocalsAreFree(steps) && spendable >= 0
    ensures LongestThatFits(Paid(Affordable(p, steps, spendable)), Paid(steps), spendable)
    decreases |steps|
  {
    PaidTotal(steps);
    if TotalEstimate(steps) <= spendable {
      assert Paid(steps)[..|Paid(steps)|] == Paid(steps);
    } else if !HasBillable(steps) {
      NothingPaid(steps);
      TotalOfNone();
    } else {
      var v := NextVictim(p, steps);
      VictimIsLastPaid(p, steps);
      RestIsRanked(p, steps, v);
      KeepsTopOfTheOrder(p, RemoveAt(steps, v), spendable);
      assert Paid(steps)[..|Paid(steps)| - 1] == Paid(RemoveAt(steps, v));
      OneStepLonger(Paid(Affordable(p, steps, spendable)), Paid(steps), spendable);
    }
  }

  lemma AllLocalIsFree(brief: Brief, planId: PlanId, steps: seq<PlanStep>)
    requires WellFormed(brief, planId, steps) && !HasBillable(steps)
    ensures TotalEstimate(steps) == 0
  {
    forall i | 0 <= i < |steps| ensures Estimates(steps)[i] == 0 {
      assert steps[i] in steps;
    }
    SumOfZeros(Estimates(steps));
  }

  lemma RemovalFacts(brief: Brief, planId: PlanId, steps: seq<PlanStep>, v: nat)
    requires WellFormed(brief, planId, steps) && v < |steps|
    ensures var rest := RemoveAt(steps, v);
            && WellFormed(brief, planId, rest)
            && TotalEstimate(rest) == TotalEstimate(steps) - steps[v].estimate
            && steps[v] !in rest
            && (forall s :: s in steps <==> s in rest || s == steps[v])
  {
    var rest := RemoveAt(steps, v);
    RemovalTotal(steps, v);
    RemovalMembers(steps, v);
    RemovedFormatIsGone(steps, v);
    RemovalDistinct(steps, v);
  }

  lemma RemovedFormatIsGone(steps: seq<PlanStep>, v: nat)
    requires v < |steps| && forall i, j :: 0 <= i < j < |steps| ==> steps[i].format != steps[j].format
    ensures forall i :: 0 <= i < |RemoveAt(steps, v)| ==> RemoveAt(steps, v)[i].format != steps[v].format
  {
    var rest := RemoveAt(steps, v);
    forall i | 0 <= i < |rest| ensures rest[i].format != steps[v].format {
      assert rest[i] == if i < v then steps[i] else steps[i + 1];
    }
  }

  lemma RemovalTotal(steps: seq<PlanStep>, v: nat)
    requires v < |steps|
    ensures TotalEstimate(RemoveAt(steps, v)) == TotalEstimate(steps) - steps[v].estimate
  {
    assert Estimates(RemoveAt(steps, v)) == Estimates(steps)[..v] + Estimates(steps)[v + 1..];
    SumOfRemoval(Estimates(steps), v);
  }

  lemma RemovalMembers(steps: seq<PlanStep>, v: nat)
    requires v < |steps|
    ensures forall s :: s in steps <==> s in RemoveAt(steps, v) || s == steps[v]
  {
    assert steps == steps[..v] + [steps[v]] + steps[v + 1..];
  }

  lemma RemovalDistinct(steps: seq<PlanStep>, v: nat)
    requires v < |steps|
    requires forall i, j :: 0 <= i < j < |steps| ==> steps[i].format != steps[j].format
    ensures var rest := RemoveAt(steps, v);
            forall i, j :: 0 <= i < j < |rest| ==> rest[i].format != rest[j].format
  {
    var rest := RemoveAt(steps, v);
    forall i, j | 0 <= i < j < |rest| ensures rest[i].format != rest[j].format {
      var i' := if i < v then i else i + 1;
      var j' := if j < v then j else j + 1;
      assert rest[i] == steps[i'] && rest[j] == steps[j'];
    }
  }

  // ---------------------------------------------------------------------------
  // Plan creation
  // ---------------------------------------------------------------------------

  function ConfirmedPrices(steps: seq<PlanStep>): Overrides {
    if steps == [] then map[]
    else
      var n := |steps| - 1;
      var before := ConfirmedPrices(steps[..n]);
      if steps[n].kind.Generation? then before[(steps[n].format, steps[n].model) := steps[n].estimate] else before
  }

  /** What one planning request is made against. */
  datatype Setting = Setting(p: Priority, catalogue: Catalogue, margin: Margin, maxBudget: Amount, copy: string)

  ghost predicate ValidSetting(x: Setting) {
    x.margin.Valid() && forall f :: DistinctKeys(x.catalogue(f))
  }

  ghost predicate DraftFor(x: Setting, brief: Brief, planId: PlanId, spendable: Amount, overrides: Overrides,
                           draft: seq<PlanStep>, dropped: bool)
    requires ValidSetting(x)
  {
    IsDraft(x.p, brief, x.catalogue, planId, x.copy, spendable, overrides, draft, dropped)
  }

  /** The one re-plan: nothing is asked if the priced steps fit; otherwise a draft made
      with the confirmed prices is priced, and taken if it fits and loses no billable
      step. */
  ghost predicate Replanned<S>(wire: Wire<S>, s: S, s': S, x: Setting, brief: Brief, planId: PlanId,
                               spendable: Amount, steps: seq<PlanStep>, draft: seq<PlanStep>, dropped: bool,
                               r: seq<PlanStep>)
    requires ValidSetting(x)
  {
    if TotalEstimate(steps) <= spendable then s' == s && r == steps
    else
      var priced := Priced(wire, s, draft, |draft|);
      && DraftFor(x, brief, planId, spendable, ConfirmedPrices(steps), draft, dropped)
      && s' == priced.0
      && r == if TotalEstimate(priced.1) > spendable || |Paid(priced.1)| < |Paid(steps)| then steps else priced.1
  }

  /** When the priced plan overshoots, re-plans once with the confirmed prices and keeps
      the result only if it fits and loses no billable step. */
  method ReplanWithExactPrices<S>(client: Client<S>, x: Setting, brief: Brief, planId: PlanId, steps: seq<PlanStep>,
                                  spendable: Amount)
    returns (r: seq<PlanStep>, ghost draft: seq<PlanStep>, ghost dropped: bool)
    requires ValidSetting(x) && brief.Valid() && spendable >= 0
    requires WellFormed(brief, planId, steps)
    modifies client`state
    ensures Replanned(client.wire, old(client.state), client.state, x, brief, planId, spendable, steps, draft, dropped,
        r)
    ensures WellFormed(brief, planId, r)
  {
    draft, dropped := [], false;
    if TotalEstimate(steps) <= spendable {
      return steps, draft, dropped;
    }
    var redraft, redropped := Build(x.p, brief, x.catalogue, planId, x.copy, spendable, ConfirmedPrices(steps));
    draft, dropped := redraft, redropped;
    ghost var before := client.state;
    var priced := PriceSteps(client, redraft);
    PricingKeepsShape(client.wire, before, brief, planId, redraft);
    if TotalEstimate(priced) > spendable || |Paid(priced)| < |Paid(steps)| {
      return steps, draft, dropped;
    }
    r := priced;
  }

  datatype PlanError = BudgetAboveCeiling

  /** What every created plan promises. */
  ghost predicate GoodPlan(x: Setting, brief: Brief, planId: PlanId, plan: Plan)
    requires x.margin.Valid()
  {
    && plan.planId == planId && plan.budget == brief.budget
    && plan.total == TotalEstimate(plan.steps) <= plan.spendable == Spendable(brief.budget, x.margin) <= plan.budget
    && WellFormed(brief, planId, plan.steps)
    && (Text in brief.formats ==> HasText(plan.steps))
    && (plan.status.Infeasible? <==> plan.steps == [])
    && (plan.status.Ready? ==> forall f :: f in brief.formats ==> f in FormatsOf(plan.steps))
    && !plan.status.Executed?
  }

  /** How a plan came about: the state planning started from, the first draft, and what
      pricing and re-planning made of it. */
  datatype Trail<S> = Trail(
    entry: S, draft: seq<PlanStep>, dropped: bool, redraft: seq<PlanStep>, redropped: bool, priced: seq<PlanStep>)

  /** The copy, if everything else failed to provide it. */
  function LastChance(x: Setting, brief: Brief, planId: PlanId, steps: seq<PlanStep>): seq<PlanStep> {
    if Text in brief.formats && !HasText(steps) then steps + [LocalText(planId, x.copy)] else steps
  }

  function StatusOf(brief: Brief, steps: seq<PlanStep>, dropped: bool): PlanStatus {
    if steps == [] then Infeasible
    else if dropped || |steps| < |brief.formats| then Degraded
    else Ready
  }

  /** The plan is what drafting, pricing, one re-plan, the drop loop and the last chance
      for the copy make of the brief. */
  ghost predicate Follows<S>(wire: Wire<S>, s': S, x: Setting, brief: Brief, planId: PlanId, t: Trail<S>, plan: Plan)
    requires ValidSetting(x)
  {
    var spendable := Spendable(brief.budget, x.margin);
    var kept := Affordable(x.p, t.priced, spendable);
    && PricedDraft(wire, s', x, brief, planId, spendable, t)
    && plan.steps == LastChance(x, brief, planId, kept)
    && plan.status == StatusOf(brief, plan.steps, t.dropped || kept != t.priced)
  }

  ghost predicate PricedDraft<S>(wire: Wire<S>, s': S, x: Setting, brief: Brief, planId: PlanId, spendable: Amount,
                                 t: Trail<S>)
    requires ValidSetting(x)
  {
    var first := Priced(wire, t.entry, t.draft, |t.draft|);
    && DraftFor(x, brief, planId, spendable, map[], t.draft, t.dropped)
    && Replanned(wire, first.0, s', x, brief, planId, spendable, first.1, t.redraft, t.redropped, t.priced)
  }

  /** A brief becomes a plan. Only the client's own state may change: nothing is
      launched. */
  method CreatePlan<S>(client: Client<S>, x: Setting, brief: Brief, planId: PlanId)
    returns (r: Result<Plan, PlanError>, ghost t: Trail<S>)
    requires ValidSetting(x) && brief.Valid()
    modifies client`state
    ensures r.Err? <==> brief.budget > x.maxBudget
    ensures r.Err? ==> client.state == old(client.state)
    ensures r.Ok? ==> GoodPlan(x, brief, planId, r.value)
    ensures r.Ok? ==> t.entry == Snapshot(client.wire, old(client.state)).0
    ensures r.Ok? ==> Follows(client.wire, client.state, x, brief, planId, t, r.value)
    ensures client.launches == old(client.launches)
  {
    t := Trail(client.state, [], false, [], false, []);
    if brief.budget > x.maxBudget {
      return Err(BudgetAboveCeiling), t;
    }
    EnvelopeIsProper(brief.budget, x.margin);
    var account := client.AccountSnapshot();
    var steps, dropped;
    steps, dropped, t := DraftAndPrice(client, x, brief, planId, Spendable(brief.budget, x.margin));
    var plan := FinishPlan(x, brief, planId, steps, dropped);
    r := Ok(plan);
  }

  method FinishPlan(x: Setting, brief: Brief, planId: PlanId, priced: seq<PlanStep>, draftDropped: bool)
    returns (plan: Plan)
    requires x.margin.Valid() && brief.Valid() && WellFormed(brief, planId, priced)
    ensures GoodPlan(x, brief, planId, plan)
    ensures var kept := Affordable(x.p, priced, Spendable(brief.budget, x.margin));
            && plan.steps == LastChance(x, brief, planId, kept)
            && plan.status == StatusOf(brief, plan.steps, draftDropped || kept != priced)
  {
    EnvelopeIsProper(brief.budget, x.margin);
    var spendable := Spendable(brief.budget, x.margin);
    var steps, dropped := FinalSteps(x, brief, planId, priced, spendable);
    var status := StatusOf(brief, steps, draftDropped || dropped);
    if status.Ready? {
      AllFormatsCovered(brief, planId, steps);
    }
    plan := Plan(planId, status, brief.budget, spendable, TotalEstimate(steps), steps, None);
  }

  method DraftAndPrice<S>(client: Client<S>, x: Setting, brief: Brief, planId: PlanId, spendable: Amount)
    returns (steps: seq<PlanStep>, dropped: bool, ghost t: Trail<S>)
    requires ValidSetting(x) && brief.Valid() && spendable >= 0
    modifies client`state
    ensures WellFormed(brief, planId, steps)
    ensures t.entry == old(client.state) && t.dropped == dropped && t.priced == steps
    ensures PricedDraft(client.wire, client.state, x, brief, planId, spendable, t)
  {
    var draft;
    draft, dropped := Build(x.p, brief, x.catalogue, planId, x.copy, spendable, map[]);
    ghost var entry := client.state;
    steps := PriceSteps(client, draft);
    PricingKeepsShape(client.wire, entry, brief, planId, draft);
    ghost var redraft, redropped;
    steps, redraft, redropped := ReplanWithExactPrices(client, x, brief, planId, steps, spendable);
    t := Trail(entry, draft, dropped, redraft, redropped, steps);
  }

  /** The drop loop, then the last chance for the copy. */
  method FinalSteps(x: Setting, brief: Brief, planId: PlanId, steps: seq<PlanStep>, spendable: Amount)
    returns (r: seq<PlanStep>, dropped: bool)
    requires WellFormed(brief, planId, steps) && spendable >= 0
    ensures r == LastChance(x, brief, planId, Affordable(x.p, steps, spendable))
    ensures dropped <==> Affordable(x.p, steps, spendable) != steps
    ensures WellFormed(brief, planId, r) && TotalEstimate(r) <= spendable
    ensures Text in brief.formats ==> HasText(r)
  {
    DropLoopFits(x.p, brief, planId, steps, spendable);
    AffordableShrinks(x.p, steps, spendable);
    var count;
    r, count := DropUntilAffordable(x.p, steps, spendable);
    dropped := count > 0;
    if Text in brief.formats && !HasText(r) {
      TextInserted(brief, planId, x.copy, r, |r|);
      assert InsertAt(LocalText(planId, x.copy), r, |r|) == r + [LocalText(planId, x.copy)];
      r := r + [LocalText(planId, x.copy)];
    }
  }

  lemma {:induction false} AffordableShrinks(p: Priority, steps: seq<PlanStep>, spendable: Amount)
    ensures |Affordable(p, steps, spendable)| <= |steps|
    ensures |Affordable(p, steps, spendable)| == |steps| ==> Affordable(p, steps, spendable) == steps
    decreases |steps|
  {
    if TotalEstimate(steps) > spendable && HasBillable(steps) {
      AffordableShrinks(p, RemoveAt(steps, NextVictim(p, steps)), spendable);
    }
  }

  // ---------------------------------------------------------------------------
  // Confirmed prices
  // ---------------------------------------------------------------------------

  /** The price an estimate names: the fixed one, or else what would be held back. */
  ghost predicate NamesPrice(e: EstimatePayload, price: Amount) {
    && (e.cost.Some? ==> price == e.cost.value)
    && (e.cost.None? ==>
          && e.current.Some? && e.afterReserve.Some? && e.afterReserve.value <= e.current.value
          && price == e.current.value - e.afterReserve.value)
  }

  lemma CostIsNamed(e: EstimatePayload, price: Amount)
    ensures NamesPrice(e, price) <==> EstimatedCost(e) == Some(price)
  {
  }

  /** What the platform answers when pricing asks it about draft step `k`, by the step's own
      format, model and parameters. */
  ghost function QuoteFor<S>(wire: Wire<S>, state: S, draft: seq<PlanStep>, k: nat): Result<EstimatePayload, VibeError>
    requires k < |draft|
  {
    wire.estimate(Priced(wire, state, draft, k).0, EstimateBody(draft[k].format, draft[k].model, draft[k].params)).1
  }

  /** `s` is draft step `k` at the price the platform named for it. */
  ghost predicate ConfirmedAt<S>(wire: Wire<S>, state: S, draft: seq<PlanStep>, k: nat, s: PlanStep)
    requires k < |draft|
  {
    var reply := QuoteFor(wire, state, draft, k);
    && reply.Ok? && !reply.value.invalid && NamesPrice(reply.value, s.estimate)
    && s == draft[k].(estimate := s.estimate)
  }

  /** Pricing keeps a billable step exactly if the platform finds it valid and names a
      price for it. */
  lemma {:induction false} PricedExactlyIfConfirmed<S>(wire: Wire<S>, state: S, draft: seq<PlanStep>, k: nat, n: nat)
    requires k < n <= |draft| && draft[k].kind == Generation
    requires forall i, j :: 0 <= i < j < |draft| ==> draft[i].format != draft[j].format
    ensures var reply := QuoteFor(wire, state, draft, k);
            && ((exists s :: s in Priced(wire, state, draft, n).1 && s.format == draft[k].format) <==>
                reply.Ok? && !reply.value.invalid && exists price :: NamesPrice(reply.value, price))
            && forall s :: s in Priced(wire, state, draft, n).1 && s.format == draft[k].format ==>
                             ConfirmedAt(wire, state, draft, k, s)
  {
    var reply := QuoteFor(wire, state, draft, k);
    if k == n - 1 {
      FormatIsNew(wire, state, draft, k);
      forall price
        ensures reply.Ok? ==> (NamesPrice(reply.value, price) <==> EstimatedCost(reply.value) == Some(price))
      {
        if reply.Ok? {
          CostIsNamed(reply.value, price);
        }
      }
      OneMorePriced(wire, state, draft, k);
    } else {
      PricedExactlyIfConfirmed(wire, state, draft, k, n - 1);
      OneMorePriced(wire, state, draft, n - 1);
    }
  }

  lemma OneMorePriced<S>(wire: Wire<S>, state: S, draft: seq<PlanStep>, n: nat)
    requires n < |draft|
    ensures var a, b := Priced(wire, state, draft, n).1, Priced(wire, state, draft, n + 1).1;
            && (draft[n].kind == Local ==> b == a + [draft[n]])
            && (draft[n].kind == Generation ==>
                  var c := Confirmed(draft[n], QuoteFor(wire, state, draft, n));
                  b == a + if c.Some? then [c.value] else [])
  {
  }

  lemma {:induction false} FormatIsNew<S>(wire: Wire<S>, state: S, draft: seq<PlanStep>, n: nat)
    requires n < |draft| && forall i, j :: 0 <= i < j < |draft| ==> draft[i].format != draft[j].format
    ensures forall s :: s in Priced(wire, state, draft, n).1 ==> s.format != draft[n].format
  {
    forall s | s in Priced(wire, state, draft, n).1 ensures s.format != draft[n].format {
      var k := PricedStems(wire, state, draft, n, s);
    }
  }

  lemma {:induction false} PricedStems<S>(wire: Wire<S>, state: S, draft: seq<PlanStep>, n: nat, s: PlanStep)
    returns (k: nat)
    requires n <= |draft| && s in Priced(wire, state, draft, n).1
    ensures k < n && SameButPrice(s, draft[k])
  {
    assert n > 0;
    k := n - 1;
    if s in Priced(wire, state, draft, n - 1).1 {
      k := PricedStems(wire, state, draft, n - 1, s);
    }
  }

  /** Pricing lets no billable step through without the platform's own figure. */
  lemma {:induction false} PricesAreConfirmed<S>(wire: Wire<S>, state: S, draft: seq<PlanStep>, n: nat, s: PlanStep)
    requires n <= |draft| && s in Priced(wire, state, draft, n).1 && s.kind.Generation?
    ensures exists k: nat :: k < n && ConfirmedAt(wire, state, draft, k, s)
  {
    if n > 0 {
      if s in Priced(wire, state, draft, n - 1).1 {
        PricesAreConfirmed(wire, state, draft, n - 1, s);
      } else {
        OneMorePriced(wire, state, draft, n - 1);
        CostIsNamed(QuoteFor(wire, state, draft, n - 1).value, s.estimate);
        assert ConfirmedAt(wire, state, draft, n - 1, s);
      }
    }
  }

  /** Every billable step of a created plan carries a price the platform confirmed for that
      very request, in the first pricing or in the one after the re-plan. */
  lemma PlannedPricesAreConfirmed<S>(wire: Wire<S>, s': S, x: Setting, brief: Brief, planId: PlanId, t: Trail<S>,
                                     plan: Plan, s: PlanStep)
    requires ValidSetting(x) && Follows(wire, s', x, brief, planId, t, plan) && s in plan.steps && s.kind.Generation?
    ensures (exists k: nat :: k < |t.draft| && ConfirmedAt(wire, t.entry, t.draft, k, s))
            || (exists k: nat ::
                  k < |t.redraft| && ConfirmedAt(wire, Priced(wire, t.entry, t.draft, |t.draft|).0, t.redraft, k, s))
  {
    PlannedIsPriced(wire, s', x, brief, planId, t, plan, s);
    PricedInOneOfTwo(wire, s', x, brief, planId, Spendable(brief.budget, x.margin), t, s);
    if s in Priced(wire, t.entry, t.draft, |t.draft|).1 {
      PricesAreConfirmed(wire, t.entry, t.draft, |t.draft|, s);
    } else {
      PricesAreConfirmed(wire, Priced(wire, t.entry, t.draft, |t.draft|).0, t.redraft, |t.redraft|, s);
    }
  }

  lemma PlannedIsPriced<S>(wire: Wire<S>, s': S, x: Setting, brief: Brief, planId: PlanId, t: Trail<S>, plan: Plan,
                           s: PlanStep)
    requires ValidSetting(x) && Follows(wire, s', x, brief, planId, t, plan) && s in plan.steps && s.kind.Generation?
    ensures s in t.priced && PricedDraft(wire, s', x, brief, planId, Spendable(brief.budget, x.margin), t)
  {
    AffordableGivesUpLowest(x.p, t.priced, Spendable(brief.budget, x.margin));
  }

  lemma PricedInOneOfTwo<S>(wire: Wire<S>, s': S, x: Setting, brief: Brief, planId: PlanId, spendable: Amount,
                            t: Trail<S>, s: PlanStep)
    requires ValidSetting(x) && PricedDraft(wire, s', x, brief, planId, spendable, t) && s in t.priced
    ensures var first := Priced(wire, t.entry, t.draft, |t.draft|);
            s in first.1 || s in Priced(wire, first.0, t.redraft, |t.redraft|).1
  {
  }

  // ---------------------------------------------------------------------------
  // What a created plan orders, and what it gave up
  // ---------------------------------------------------------------------------

  /** A usable model of the step's format, with the step's parameters. */
  ghost predicate IsSold(s: PlanStep, specs: seq<Spec>) {
    exists spec :: spec in specs && IsUsable(spec) && spec.key == s.model && spec.params == s.params
  }

  /** Every billable step of a created plan orders a usable model of its format from the
      catalogue, with that model's parameters; every other step is the copy. */
  lemma PlannedStepsAreSold<S>(wire: Wire<S>, s': S, x: Setting, brief: Brief, planId: PlanId, t: Trail<S>, plan: Plan,
                               s: PlanStep)
    requires ValidSetting(x) && brief.Valid() && Follows(wire, s', x, brief, planId, t, plan)
    requires s in plan.steps && s.kind == Generation
    ensures IsSold(s, x.catalogue(s.format))
  {
    var spendable := Spendable(brief.budget, x.margin);
    PlannedIsPriced(wire, s', x, brief, planId, t, plan, s);
    PricedInOneOfTwo(wire, s', x, brief, planId, spendable, t, s);
    var first := Priced(wire, t.entry, t.draft, |t.draft|);
    if s in first.1 {
      DraftedIsSold(wire, t.entry, x, brief, planId, spendable, map[], t.draft, t.dropped, s);
    } else {
      DraftedIsSold(wire, first.0, x, brief, planId, spendable, ConfirmedPrices(first.1), t.redraft, t.redropped, s);
    }
  }

  lemma DraftIsOffered(x: Setting, brief: Brief, planId: PlanId, spendable: Amount, overrides: Overrides,
                       draft: seq<PlanStep>, dropped: bool)
    requires ValidSetting(x) && brief.Valid() && DraftFor(x, brief, planId, spendable, overrides, draft, dropped)
    ensures AllOffered(draft, x.catalogue, overrides)
  {
    DraftIsSound(x.p, brief, x.catalogue, planId, x.copy, spendable, overrides, draft, dropped);
  }

  lemma OfferedIsSold(draft: seq<PlanStep>, catalogue: Catalogue, overrides: Overrides, k: nat, s: PlanStep)
    requires AllOffered(draft, catalogue, overrides) && k < |draft| && SameButPrice(s, draft[k])
    requires s.kind == Generation
    ensures IsSold(s, catalogue(s.format))
  {
    assert draft[k] in draft && IsOffered(draft[k], catalogue(s.format), overrides);
  }

  lemma DraftedIsSold<S>(wire: Wire<S>, state: S, x: Setting, brief: Brief, planId: PlanId, spendable: Amount,
                         overrides: Overrides, draft: seq<PlanStep>, dropped: bool, s: PlanStep)
    requires ValidSetting(x) && brief.Valid() && DraftFor(x, brief, planId, spendable, overrides, draft, dropped)
    requires s in Priced(wire, state, draft, |draft|).1 && s.kind == Generation
    ensures IsSold(s, x.catalogue(s.format))
  {
    DraftIsOffered(x, brief, planId, spendable, overrides, draft, dropped);
    var k := PricedStems(wire, state, draft, |draft|, s);
    OfferedIsSold(draft, x.catalogue, overrides, k, s);
  }

  predicate Ascends(p: Priority, steps: seq<PlanStep>) {
    forall i, j :: 0 <= i < j < |steps| ==> p(steps[i].format) <= p(steps[j].format)
  }

  lemma {:induction false} PricingKeepsOrder<S>(p: Priority, wire: Wire<S>, state: S, steps: seq<PlanStep>, n: nat)
    requires n <= |steps| && Ascends(p, steps)
    ensures var priced := Priced(wire, state, steps, n).1;
            Ascends(p, priced) && forall i, k :: 0 <= i < |priced| && n <= k < |steps| ==>
                                    p(priced[i].format) <= p(steps[k].format)
  {
    if n > 0 {
      PricingKeepsOrder(p, wire, state, steps, n - 1);
      OneMorePriced(wire, state, steps, n - 1);
    }
  }

  lemma RunsAscending(p: Priority, steps: seq<PlanStep>)
    requires RunsInOrder(p, steps)
    ensures Ascends(p, steps)
  {
    forall i, j | 0 <= i < j < |steps| ensures p(steps[i].format) <= p(steps[j].format) {
      assert p(FormatsOf(steps)[i]) <= p(FormatsOf(steps)[j]);
    }
  }

  lemma DraftPricesInOrder<S>(wire: Wire<S>, state: S, x: Setting, brief: Brief, planId: PlanId, spendable: Amount,
                              overrides: Overrides, draft: seq<PlanStep>, dropped: bool)
    requires ValidSetting(x) && brief.Valid() && DraftFor(x, brief, planId, spendable, overrides, draft, dropped)
    ensures var priced := Priced(wire, state, draft, |draft|).1;
            WellFormed(brief, planId, priced) && Ascends(x.p, priced)
  {
    DraftIsSound(x.p, brief, x.catalogue, planId, x.copy, spendable, overrides, draft, dropped);
    RunsAscending(x.p, draft);
    PricingKeepsOrder(x.p, wire, state, draft, |draft|);
    PricingKeepsShape(wire, state, brief, planId, draft);
  }

  lemma PricedIsInOrder<S>(wire: Wire<S>, s': S, x: Setting, brief: Brief, planId: PlanId, spendable: Amount,
                           t: Trail<S>)
    requires ValidSetting(x) && brief.Valid() && PricedDraft(wire, s', x, brief, planId, spendable, t)
    ensures WellFormed(brief, planId, t.priced) && Ascends(x.p, t.priced)
  {
    var first := Priced(wire, t.entry, t.draft, |t.draft|);
    DraftPricesInOrder(wire, t.entry, x, brief, planId, spendable, map[], t.draft, t.dropped);
    if t.priced != first.1 {
      DraftPricesInOrder(wire, first.0, x, brief, planId, spendable, ConfirmedPrices(first.1), t.redraft, t.redropped);
    }
  }

  /** No two formats share a priority. */
  ghost predicate DistinctPriorities(p: Priority) {
    forall f, g :: p(f) == p(g) ==> f == g
  }

  lemma DistinctIsStrict(p: Priority, brief: Brief, planId: PlanId, steps: seq<PlanStep>)
    requires DistinctPriorities(p) && WellFormed(brief, planId, steps) && Ascends(p, steps)
    ensures StrictlyRanked(p, steps) && LocalsAreFree(steps)
  {
  }

  /** Where no two formats share a priority, a created plan orders the longest run from the
      top of the priority order whose confirmed prices fit the spendable sum. */
  lemma PlanKeepsTopOfTheOrder<S>(wire: Wire<S>, s': S, x: Setting, brief: Brief, planId: PlanId, t: Trail<S>,
                                  plan: Plan)
    requires ValidSetting(x) && brief.Valid() && Follows(wire, s', x, brief, planId, t, plan)
    requires DistinctPriorities(x.p)
    ensures LongestThatFits(Paid(plan.steps), Paid(t.priced), Spendable(brief.budget, x.margin))
  {
    var spendable := Spendable(brief.budget, x.margin);
    var kept := Affordable(x.p, t.priced, spendable);
    EnvelopeIsProper(brief.budget, x.margin);
    PricedIsInOrder(wire, s', x, brief, planId, spendable, t);
    DistinctIsStrict(x.p, brief, planId, t.priced);
    KeepsTopOfTheOrder(x.p, t.priced, spendable);
    PaidThenLocal(kept, [LocalText(planId, x.copy)]);
  }

  lemma {:induction false} ConfirmedPricesAre(steps: seq<PlanStep>, f: Format, model: string)
    ensures (f, model) in ConfirmedPrices(steps) <==>
            exists s :: s in steps && s.kind == Generation && s.format == f && s.model == model
    ensures (f, model) in ConfirmedPrices(steps) ==>
              exists s :: s in steps && s.kind == Generation && s.format == f && s.model == model
                          && ConfirmedPrices(steps)[(f, model)] == s.estimate
  {
    if steps != [] {
      var n := |steps| - 1;
      ConfirmedPricesAre(steps[..n], f, model);
      assert steps == steps[..n] + [steps[n]];
    }
  }

  /** A step drawn up again for a model whose price was just confirmed is planned at that
      price. */
  lemma RedraftKeepsConfirmedPrices(x: Setting, brief: Brief, planId: PlanId, spendable: Amount, priced: seq<PlanStep>,
                                    redraft: seq<PlanStep>, dropped: bool, u: PlanStep, s: PlanStep)
    requires ValidSetting(x) && brief.Valid() && WellFormed(brief, planId, priced)
    requires DraftFor(x, brief, planId, spendable, ConfirmedPrices(priced), redraft, dropped)
    requires u in priced && u.kind == Generation && s in redraft && s.kind == Generation
    requires s.format == u.format && s.model == u.model
    ensures s.estimate == u.estimate
  {
    DraftIsOffered(x, brief, planId, spendable, ConfirmedPrices(priced), redraft, dropped);
    assert IsOffered(s, x.catalogue(s.format), ConfirmedPrices(priced));
    ConfirmedPricesAre(priced, u.format, u.model);
    var w :| w in priced && w.format == u.format && ConfirmedPrices(priced)[(u.format, u.model)] == w.estimate;
    SameFormatSameStep(brief, planId, priced, u, w);
  }

  lemma SameFormatSameStep(brief: Brief, planId: PlanId, steps: seq<PlanStep>, u: PlanStep, w: PlanStep)
    requires WellFormed(brief, planId, steps) && u in steps && w in steps && u.format == w.format
    ensures u == w
  {
  }

  /** A plan is ready exactly if it has a step for every requested format, its first draft
      dropped none, and nothing priced was given up; infeasible exactly if it is empty. */
  lemma PlanStatusMeans<S>(wire: Wire<S>, s': S, x: Setting, brief: Brief, planId: PlanId, t: Trail<S>, plan: Plan)
    requires ValidSetting(x) && brief.Valid() && Follows(wire, s', x, brief, planId, t, plan)
    requires WellFormed(brief, planId, plan.steps)
    ensures plan.status == Infeasible <==> plan.steps == []
    ensures plan.status == Ready <==>
            && plan.steps != [] && !t.dropped
            && (forall s :: s in t.priced ==> s in plan.steps)
            && (forall f :: f in brief.formats ==> f in FormatsOf(plan.steps))
    ensures plan.status != Executed
  {
    var spendable := Spendable(brief.budget, x.margin);
    var kept := Affordable(x.p, t.priced, spendable);
    EnvelopeIsProper(brief.budget, x.margin);
    PricedIsInOrder(wire, s', x, brief, planId, spendable, t);
    GivenUpIsMissing(x, brief, planId, t.priced, spendable);
    StatusMeans(brief, planId, plan.steps, t.dropped || kept != t.priced);
  }

  lemma GivenUpIsMissing(x: Setting, brief: Brief, planId: PlanId, priced: seq<PlanStep>, spendable: Amount)
    requires WellFormed(brief, planId, priced) && spendable >= 0
    ensures var kept := Affordable(x.p, priced, spendable);
            kept == priced <==> forall s :: s in priced ==> s in LastChance(x, brief, planId, kept)
  {
    DropLoopFits(x.p, brief, planId, priced, spendable);
  }

  lemma StatusMeans(brief: Brief, planId: PlanId, steps: seq<PlanStep>, dropped: bool)
    requires brief.Valid() && WellFormed(brief, planId, steps)
    ensures var status := StatusOf(brief, steps, dropped);
            && (status == Infeasible <==> steps == [])
            && (status == Ready <==>
                steps != [] && !dropped && forall f :: f in brief.formats ==> f in FormatsOf(steps))
            && status != Executed
  {
    if |steps| >= |brief.formats| {
      AllFormatsCovered(brief, planId, steps);
    } else if forall f :: f in brief.formats ==> f in FormatsOf(steps) {
      TooFewSteps(brief, steps);
    }
  }

  /** Fewer steps than formats leave a format out. */
  lemma TooFewSteps(brief: Brief, steps: seq<PlanStep>)
    requires brief.Valid() && forall f :: f in brief.formats ==> f in FormatsOf(steps)
    ensures |steps| >= |brief.formats|
  {
    SizeOfDistinct(brief.formats);
    SizeAtMost(FormatsOf(steps));
    SubsetIsSmaller(set f | f in brief.formats, set f | f in FormatsOf(steps));
  }

  lemma {:induction false} SizeAtMost(fs: seq<Format>)
    ensures |set f | f in fs| <= |fs|
  {
    if fs != [] {
      var n := |fs| - 1;
      SizeAtMost(fs[..n]);
      assert (set f | f in fs) == (set f | f in fs[..n]) + {fs[n]};
    }
  }

  lemma SubsetIsSmaller(a: set<Format>, b: set<Format>)
    requires forall f :: f in a ==> f in b
    ensures |a| <= |b|
  {
    assert b == a + (b - a);
  }

  lemma {:induction false} SizeOfDistinct(fs: seq<Format>)
    requires AllDistinct(fs)
    ensures |set f | f in fs| == |fs|
  {
    if fs != [] {
      var n := |fs| - 1;
      SizeOfDistinct(fs[..n]);
      assert (set f | f in fs) == (set f | f in fs[..n]) + {fs[n]};
    }
  }

  /** As many steps as formats means a step for every format. */
  lemma AllFormatsCovered(brief: Brief, planId: PlanId, steps: seq<PlanStep>)
    requires brief.Valid() && WellFormed(brief, planId, steps) && |steps| >= |brief.formats|
    ensures forall f :: f in brief.formats ==> f in FormatsOf(steps)
  {
    var fs := FormatsOf(steps);
    SizeOfDistinct(fs);
    SizeOfDistinct(brief.formats);
    var a := set f | f in fs;
    var b := set f | f in brief.formats;
    forall f | f in a ensures f in b {
      var k :| 0 <= k < |fs| && fs[k] == f;
      assert steps[k] in steps;
    }
    SubsetOfSameSize(a, b);
    forall f | f in brief.formats ensures f in fs {
      assert f in b;
      assert f in a;
    }
  }

  lemma SubsetOfSameSize(a: set<Format>, b: set<Format>)
    requires a <= b && |a| >= |b|
    ensures a == b
  {
    assert b == a + (b - a);
  }
}
