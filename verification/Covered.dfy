/** What the recheck promises about the run that follows it, against the simulated
    platform: no launch is refused, and where no price drifts the plan is carried out to
    its end. */
module Covered {
  import opened Money
  import opened Domain
  import opened Budget
  import opened Ledger
  import opened WireModel
  import opened PlanCreation
  import opened Recheck
  import opened Execution
  import opened Spending
  import opened Endings
  import opened Books
  import opened PlanBuilder
  import opened JobRun
  import opened Admitted
  import P = Platform

  /** A price depends on format, model and parameters, not on the key. */
  ghost predicate PricesByModel(c: P.Config) {
    forall b: Body :: c.quote(b) == c.quote(Body(b.format, b.model, b.params, NoKey))
  }

  ghost function QuoteOf(c: P.Config, ps: PlanStep): Result<P.Quote, VibeError> {
    c.quote(Body(ps.format, ps.model, ps.params, NoKey))
  }

  /** What the platform holds back for a step. */
  ghost function Reserve(c: P.Config, ps: PlanStep): nat {
    if ps.kind == Generation && QuoteOf(c, ps).Ok? then QuoteOf(c, ps).value.reserve else 0
  }

  ghost function Reserves(c: P.Config, steps: seq<PlanStep>, n: nat): nat
    requires n <= |steps|
  {
    if n == 0 then 0 else Reserves(c, steps, n - 1) + Reserve(c, steps[n - 1])
  }

  lemma {:induction false} ReservesGrow(c: P.Config, steps: seq<PlanStep>, m: nat, n: nat)
    requires m <= n <= |steps|
    ensures Reserves(c, steps, m) <= Reserves(c, steps, n)
  {
    if m < n {
      ReservesGrow(c, steps, m, n - 1);
    }
  }

  // ---------------------------------------------------------------------------
  // What a recheck without blockers has made sure of
  // ---------------------------------------------------------------------------

  /** The plan's reserves fit the envelope, the balance and the day, all together. */
  ghost predicate Covers(c: P.Config, s: P.State, steps: seq<PlanStep>, spendable: Amount) {
    && (forall k :: 0 <= k < |steps| && steps[k].kind == Generation ==> QuoteOf(c, steps[k]).Ok?)
    && P.Rubles(Reserves(c, steps, |steps|)) <= spendable
    && (HasBillable(steps) ==>
          && Reserves(c, steps, |steps|) <= s.balance
          && s.spentToday + Reserves(c, steps, |steps|) <= c.dailyLimit)
  }

  lemma ReplyIsMock(c: P.Config, s: P.State, account: Account, steps: seq<PlanStep>, k: nat)
    requires k < |steps|
    ensures ReplyAt(MockWire(c), s, account, steps, k) ==
            MockEstimate(c, s, EstimateBody(steps[k].format, steps[k].model, steps[k].params))
  {
    RecheckOnlyReads(c, s, account, steps, k);
  }

  lemma PriceIsReserve(c: P.Config, s: P.State, account: Account, steps: seq<PlanStep>, k: nat)
    requires k < |steps| && Acceptable(steps[k], ReplyAt(MockWire(c), s, account, steps, k))
    ensures NewPrice(steps[k], ReplyAt(MockWire(c), s, account, steps, k)) == P.Rubles(Reserve(c, steps[k]))
    ensures steps[k].kind == Generation ==>
              QuoteOf(c, steps[k]).Ok? && s.spentToday + Reserve(c, steps[k]) <= c.dailyLimit
  {
    ReplyIsMock(c, s, account, steps, k);
  }

  lemma {:induction false} PricesAreReserves(c: P.Config, s: P.State, account: Account, steps: seq<PlanStep>, n: nat)
    requires n <= |steps| && AllAcceptable(MockWire(c), s, account, steps, n)
    ensures Sum(NewPrices(MockWire(c), s, account, steps, n)) == P.Rubles(Reserves(c, steps, n))
  {
    if n > 0 {
      AcceptanceGrows(MockWire(c), s, account, steps, n - 1);
      PricesAreReserves(c, s, account, steps, n - 1);
      PricesGrow(MockWire(c), s, account, steps, n - 1);
      PriceIsReserve(c, s, account, steps, n - 1);
    } else {
      TallyNone(MockWire(c), s, account, steps);
    }
  }

  /** The last of several equal figures is that figure. */
  lemma LastOfEqual(value: Option<Amount>, before: Option<Amount>, named: seq<Option<Amount>>, k: nat, x: Amount)
    requires LastNamed(value, before, named) && k < |named| && named[k].Some?
    requires forall j :: 0 <= j < |named| ==> named[j] == None || named[j] == Some(x)
    ensures value == Some(x)
  {
  }

  /** A figure the platform always names alike is known by the end, if anything is asked. */
  lemma FigureIsKnown(c: P.Config, s: P.State, account: Account, steps: seq<PlanStep>,
                      figure: EstimatePayload -> Option<Amount>, x: Amount, value: Option<Amount>,
                      before: Option<Amount>)
    requires AllAcceptable(MockWire(c), s, account, steps, |steps|) && HasBillable(steps)
    requires forall e: EstimateBody :: MockEstimate(c, s, e).Ok? ==> figure(MockEstimate(c, s, e).value) == Some(x)
    requires LastNamed(value, before, Echoes(MockWire(c), s, account, steps, |steps|, figure))
    ensures value == Some(x)
  {
    var named := Echoes(MockWire(c), s, account, steps, |steps|, figure);
    forall k | 0 <= k < |steps| ensures named[k] == if steps[k].kind == Generation then Some(x) else None {
      ReplyIsMock(c, s, account, steps, k);
      assert Acceptable(steps[k], ReplyAt(MockWire(c), s, account, steps, k));
    }
    var k :| 0 <= k < |steps| && steps[k].kind.Generation?;
    LastOfEqual(value, before, named, k, x);
  }

  /** The account the recheck ends with is the platform's own, if anything is to be paid. */
  lemma EchoIsTheAccount(c: P.Config, s: P.State, account: Account, steps: seq<PlanStep>)
    requires AllAcceptable(MockWire(c), s, account, steps, |steps|) && HasBillable(steps)
    ensures RecheckUpTo(MockWire(c), s, account, steps, |steps|).account ==
            Account(Some(P.Rubles(s.balance)), Some(P.Rubles(c.dailyLimit)), Some(P.Rubles(s.spentToday)))
  {
    var known := RecheckUpTo(MockWire(c), s, account, steps, |steps|).account;
    LastEchoCounts(MockWire(c), s, account, steps, |steps|);
    FigureIsKnown(c, s, account, steps, Current, P.Rubles(s.balance), known.balance, account.balance);
    FigureIsKnown(c, s, account, steps, Limit, P.Rubles(c.dailyLimit), known.dailyLimit, account.dailyLimit);
    FigureIsKnown(c, s, account, steps, Today, P.Rubles(s.spentToday), known.dailySpent, account.dailySpent);
  }

  lemma RecheckCovers(c: P.Config, s: P.State, account: Account, steps: seq<PlanStep>, spendable: Amount)
    requires Rechecked(MockWire(c), s, account, steps, spendable).blockers == []
    ensures Covers(c, s, steps, spendable)
  {
    var n := |steps|;
    RecheckIsExact(MockWire(c), s, account, steps, spendable);
    PricesAreReserves(c, s, account, steps, n);
    forall k | 0 <= k < n && steps[k].kind == Generation
      ensures QuoteOf(c, steps[k]).Ok? && s.spentToday + Reserve(c, steps[k]) <= c.dailyLimit
    {
      assert Acceptable(steps[k], ReplyAt(MockWire(c), s, account, steps, k));
      PriceIsReserve(c, s, account, steps, k);
    }
    if HasBillable(steps) {
      EchoIsTheAccount(c, s, account, steps);
    }
  }

  // ---------------------------------------------------------------------------
  // No launch is refused
  // ---------------------------------------------------------------------------

  lemma {:induction false} PollGivesBack(c: P.Config, s: P.State, h: Handle, pace: Pace, waited: nat)
    requires pace.interval > 0
    ensures var t := Poll(MockWire(c), s, h, pace, waited).0;
            t.balance >= s.balance && t.spentToday <= s.spentToday
    decreases pace.timeout - waited
  {
    var (next, reply) := MockStatus(c, s, h);
    if reply.Ok? && reply.value.phase.Working? && waited < pace.timeout {
      PollGivesBack(c, next, h, pace, waited + pace.interval);
    }
  }

  /** From `s` to `t` at most `sum` was taken from the account. */
  ghost predicate TookAtMost(s: P.State, t: P.State, sum: nat) {
    t.balance >= s.balance - sum && t.spentToday <= s.spentToday + sum
  }

  lemma LaunchTakes(c: P.Config, s: P.State, ps: PlanStep)
    requires PricesByModel(c) && ps.kind == Generation
    ensures TookAtMost(s, P.Generate(c, s, ps.GenerateBody()).0, Reserve(c, ps))
  {
    var b := ps.GenerateBody();
    assert c.quote(b) == c.quote(Body(b.format, b.model, b.params, NoKey));
  }

  lemma TurnTakes(c: P.Config, s: P.State, pace: Pace, g: Limits, planId: PlanId, ps: PlanStep, st: RunState)
    requires pace.interval > 0 && PricesByModel(c)
    ensures TookAtMost(s, DriveStep(MockWire(c), s, pace, g, planId, ps, st).0, Reserve(c, ps))
  {
    if ToBeRun(st, ps) {
      var i := FindStep(st.job.steps, ps.stepId).value;
      match Begin(g, planId, ps, st, i) {
        case Finished(_, _) =>
        case NeedPoll(_, h) => PollGivesBack(c, s, h, pace, 0);
        case NeedLaunch(st1) =>
          LaunchTakes(c, s, ps);
          var (q, launch) := P.Generate(c, s, ps.GenerateBody());
          match AfterLaunch(g, planId, ps, st1, i, launch) {
            case Finished(_, _) =>
            case NeedPoll(_, h) => PollGivesBack(c, q, h, pace, 0);
            case NeedLaunch(_) =>
          }
      }
    }
  }

  lemma OneMoreTakes(c: P.Config, pace: Pace, g: Limits, planId: PlanId, steps: seq<PlanStep>,
                     tr: seq<(P.State, RunState)>, k: nat)
    requires pace.interval > 0 && PricesByModel(c) && k + 1 < |tr|
    requires IsHistory(MockWire(c), pace, g, planId, steps, tr)
    ensures TookAtMost(tr[k].0, tr[k + 1].0, Reserve(c, steps[k]))
  {
    assert IsDrivenTurn(MockWire(c), pace, g, planId, steps[k], tr[k].0, tr[k].1, tr[k + 1].0, tr[k + 1].1);
    TurnTakes(c, tr[k].0, pace, g, planId, steps[k], tr[k].1);
  }

  lemma {:induction false} RunTakes(c: P.Config, pace: Pace, g: Limits, planId: PlanId, steps: seq<PlanStep>,
                                    tr: seq<(P.State, RunState)>, n: nat)
    requires pace.interval > 0 && PricesByModel(c) && n < |tr|
    requires IsHistory(MockWire(c), pace, g, planId, steps, tr)
    ensures TookAtMost(tr[0].0, tr[n].0, Reserves(c, steps, n))
  {
    if n > 0 {
      RunTakes(c, pace, g, planId, steps, tr, n - 1);
      OneMoreTakes(c, pace, g, planId, steps, tr, n - 1);
    }
  }

  lemma NextIsAccepted(c: P.Config, s: P.State, t: P.State, steps: seq<PlanStep>, spendable: Amount, n: nat)
    requires PricesByModel(c) && Covers(c, s, steps, spendable) && n < |steps|
    requires TookAtMost(s, t, Reserves(c, steps, n)) && steps[n].kind == Generation && steps[n].key != NoKey
    ensures P.Generate(c, t, Body(steps[n].format, steps[n].model, steps[n].params, steps[n].key)).1.Ok?
  {
    var ps := steps[n];
    var b := Body(ps.format, ps.model, ps.params, ps.key);
    assert c.quote(b) == QuoteOf(c, ps);
    assert steps[n].kind.Generation?;
    ReservesGrow(c, steps, n + 1, |steps|);
  }

  lemma {:induction false} SameReserves(c: P.Config, a: seq<PlanStep>, b: seq<PlanStep>, n: nat)
    requires OnlyCheaper(a, b) && n <= |a|
    ensures Reserves(c, b, n) == Reserves(c, a, n)
  {
    if n > 0 {
      SameReserves(c, a, b, n - 1);
      assert b[n - 1] == a[n - 1].(estimate := b[n - 1].estimate);
    }
  }

  lemma CheaperIsCovered(c: P.Config, s: P.State, a: seq<PlanStep>, b: seq<PlanStep>, spendable: Amount)
    requires OnlyCheaper(a, b) && Covers(c, s, a, spendable)
    ensures Covers(c, s, b, spendable)
  {
    SameReserves(c, a, b, |a|);
    forall k | 0 <= k < |b| ensures b[k].kind == a[k].kind && QuoteOf(c, b[k]) == QuoteOf(c, a[k]) {
      assert b[k] == a[k].(estimate := b[k].estimate);
    }
    if k :| 0 <= k < |b| && b[k].kind.Generation? {
      assert a[k].kind.Generation?;
    }
  }

  /** The job is a created plan, admitted once, let through by the recheck, and run. */
  ghost predicate IsAdmitted(service: PlanService<P.State>, c: P.Config, brief: Brief, plan: Plan, jobId: JobId,
                             now: nat, rows: Rows, p: Passage<P.State>, client': P.State)
  {
    && service.margin.Valid() && service.pace.interval > 0 && plan.budget > 0 && service.client.wire == MockWire(c)
    && WellFormed(brief, plan.planId, plan.steps) && NeverClaimed(plan, rows)
    && service.Spent(Started(NewJob(plan, jobId, now)), plan, rows, p, client')
  }

  lemma AdmittedIsCovered(service: PlanService<P.State>, c: P.Config, brief: Brief, plan: Plan, jobId: JobId,
                          now: nat, rows: Rows, p: Passage<P.State>, client': P.State)
    requires IsAdmitted(service, c, brief, plan, jobId, now, rows, p, client')
    ensures p.client == p.entry && Covers(c, p.entry, p.plan.steps, p.g.spendable)
    ensures p.history[0].0 == p.entry && IsHistory(MockWire(c), service.pace, p.g, plan.planId, p.plan.steps, p.history)
    ensures forall k :: 0 <= k < |p.plan.steps| ==> p.plan.steps[k].key != NoKey
  {
    PassageIsFresh(service, brief, plan, jobId, now, rows, p, client');
    RecheckOnlyReads(c, p.entry, p.account, plan.steps, |plan.steps|);
    RecheckCovers(c, p.entry, p.account, plan.steps, p.g.spendable);
    CheaperIsCovered(c, p.entry, plan.steps, p.plan.steps, p.g.spendable);
    forall k | 0 <= k < |p.plan.steps| ensures p.plan.steps[k].key != NoKey {
      assert p.plan.steps[k] == plan.steps[k].(estimate := p.plan.steps[k].estimate) && plan.steps[k] in plan.steps;
    }
  }

  /** Whatever launches, failures and refunds came before, the simulated platform accepts
      the launch of every billable step of an admitted plan: the recheck asked about the
      steps one by one, but it checked their sum against balance and day. */
  lemma AdmittedRunIsNeverRefused(service: PlanService<P.State>, c: P.Config, brief: Brief, plan: Plan, jobId: JobId,
                                  now: nat, rows: Rows, p: Passage<P.State>, client': P.State, n: nat)
    requires PricesByModel(c) && IsAdmitted(service, c, brief, plan, jobId, now, rows, p, client')
    requires n < |p.history| && n < |p.plan.steps| && p.plan.steps[n].kind == Generation
    ensures var ps := p.plan.steps[n];
            MockWire(c).generate(p.history[n].0, Body(ps.format, ps.model, ps.params, ps.key)).1.Ok?
  {
    AdmittedIsCovered(service, c, brief, plan, jobId, now, rows, p, client');
    RunTakes(c, service.pace, p.g, plan.planId, p.plan.steps, p.history, n);
    NextIsAccepted(c, p.entry, p.history[n].0, p.plan.steps, p.g.spendable, n);
  }

  // ---------------------------------------------------------------------------
  // Nothing is left undone
  // ---------------------------------------------------------------------------

  /** No step is planned above what the platform now asks for it. */
  ghost predicate Undrifted(c: P.Config, steps: seq<PlanStep>) {
    forall k :: 0 <= k < |steps| && steps[k].kind == Generation ==>
                  0 <= steps[k].estimate <= P.Rubles(Reserve(c, steps[k]))
  }

  /** The step was carried out: composed, or launched and paid for, for better or worse. */
  ghost predicate CarriedOut(ps: PlanStep, s: JobStep) {
    if ps.kind == Local then s.status == StepStatus.Succeeded
    else s.generationId != None && (s.status == StepStatus.Succeeded || s.status == StepStatus.Failed)
  }

  /** The guard knows the account as the platform had it. */
  ghost predicate KnowsAccount(c: P.Config, s: P.State, g: Limits) {
    g.account == Some(Account(Some(P.Rubles(s.balance)), Some(P.Rubles(c.dailyLimit)), Some(P.Rubles(s.spentToday))))
  }

  /** Step `n` passes the guard beside everything committed so far. */
  lemma NextMaySpend(c: P.Config, g: Limits, s: P.State, steps: seq<PlanStep>, n: nat, committed: Amount)
    requires n < |steps| && steps[n].kind == Generation && Covers(c, s, steps, g.spendable) && Undrifted(c, steps)
    requires KnowsAccount(c, s, g) && g.spendable <= g.budget && committed <= P.Rubles(Reserves(c, steps, n))
    ensures MaySpend(g, committed, steps[n].estimate)
  {
    assert steps[n].kind.Generation?;
    ReservesGrow(c, steps, n + 1, |steps|);
  }

  lemma NextIsAmong(c: P.Config, steps: seq<PlanStep>, n: nat)
    requires n < |steps|
    ensures Reserves(c, steps, n) + Reserve(c, steps[n]) <= Reserves(c, steps, |steps|)
  {
    ReservesGrow(c, steps, n + 1, |steps|);
  }

  lemma Fits(committed: Amount, a: nat, b: nat, sum: nat, spendable: Amount)
    requires committed <= P.Rubles(a) && a + b <= sum && P.Rubles(sum) <= spendable
    ensures committed + P.Rubles(b) <= spendable
  {
  }

  lemma NextFits(c: P.Config, steps: seq<PlanStep>, n: nat, committed: Amount, spendable: Amount)
    requires n < |steps| && P.Rubles(Reserves(c, steps, |steps|)) <= spendable
    requires committed <= P.Rubles(Reserves(c, steps, n))
    ensures committed + P.Rubles(Reserve(c, steps[n])) <= spendable
  {
    NextIsAmong(c, steps, n);
    Fits(committed, Reserves(c, steps, n), Reserve(c, steps[n]), Reserves(c, steps, |steps|), spendable);
  }

  lemma LaunchIsWaitedFor(c: P.Config, t: P.State, pace: Pace, g: Limits, planId: PlanId, ps: PlanStep, st: RunState,
                          i: nat)
    requires pace.interval > 0 && PricesByModel(c) && ReadyToLaunch(g, planId, ps, st, i)
    requires ps.key != NoKey && ps.key !in t.replies && QuoteOf(c, ps).Ok?
    requires P.Generate(c, t, ps.GenerateBody()).1.Ok?
    requires st.committed + P.Rubles(Reserve(c, ps)) <= g.spendable <= g.budget && 0 <= st.committed
    ensures var d := DriveStep(MockWire(c), t, pace, g, planId, ps, st);
            && d.2.launch.Ok? && d.1 == OneStep(g, planId, ps, st, d.2) && !d.2.poll.Faulted?
            && Waits(g, planId, ps, st, i, d.2.launch.value) && d.2.launch.value.Id().Some?
            && var charged := P.ChargeOf(QuoteOf(c, ps).value);
            && IsCharge(ps, d.2.launch.value, P.Rubles(charged))
            && (d.2.poll.Answered? ==>
                  IsVerdict(P.Record(charged, QuoteOf(c, ps).value.fails, false), d.2.poll.payload))
  {
    var b := ps.GenerateBody();
    var (q, launch) := P.Generate(c, t, b);
    assert c.quote(b) == QuoteOf(c, ps);
    LaunchLeavesRecord(c, t, b, QuoteOf(c, ps).value);
    assert IsCharge(ps, launch.value, P.Rubles(P.ChargeOf(QuoteOf(c, ps).value)));
    assert Waits(g, planId, ps, st, i, launch.value);
    WaitIsByTheGivenId(g, planId, ps, st, i, Events(launch, TimedOut));
    var st1 := Begin(g, planId, ps, st, i).state;
    TurnIsFound(st, ps, i);
    DriveFinishes(c, t, pace, g, planId, ps, st, i);
    LaunchCommits(g, planId, ps, st1, i, launch);
    MockWaitEnds(c, q, HandleOf(launch.value), pace, 0);
    DriveStepIsOneStep(MockWire(c), t, pace, g, planId, ps, st);
  }

  /** Waited for, a step is carried out and the run goes on. */
  lemma WaitCarriesOut(g: Limits, planId: PlanId, ps: PlanStep, st: RunState, i: nat, ev: Events)
    requires ev.launch.Ok? && Waits(g, planId, ps, st, i, ev.launch.value) && !ev.poll.Faulted?
    requires ev.launch.value.Id().Some?
    ensures var r := OneStep(g, planId, ps, st, ev);
            !r.aborted && OnlyItsOwn(planId, ps, st, r, i) && CarriedOut(ps, r.job.steps[i])
  {
    if ev.poll.TimedOut? {
      TimeoutLeavesItRunning(g, planId, ps, st, i, ev);
    } else {
      assert Hears(g, planId, ps, st, i, ev, ev.poll.payload);
      VerdictIsWrittenDown(g, planId, ps, st, i, ev, ev.poll.payload);
    }
  }

  /** The guard lets the step pass, at what is committed when its turn comes. */
  ghost predicate PassesGuard(g: Limits, ps: PlanStep, st: RunState) {
    ps.kind == Generation ==> MaySpend(g, st.committed, ps.estimate)
  }

  ghost predicate AllPass(g: Limits, steps: seq<PlanStep>, tr: seq<(P.State, RunState)>, n: nat) {
    n <= |steps| && n <= |tr| && forall k :: 0 <= k < n ==> PassesGuard(g, steps[k], tr[k].1)
  }

  /** The run so far agrees with the account, which lost no more than the reserves. */
  ghost predicate Balanced(c: P.Config, g: Limits, planId: PlanId, steps: seq<PlanStep>, s: P.State, t: P.State,
                           st: RunState, n: nat)
  {
    n <= |steps| && Honest(g, planId, steps, s, t, st, n) && TookAtMost(s, t, Reserves(c, steps, n))
  }

  /** The run goes on, and nothing was left undone so far. */
  ghost predicate GoesOn(steps: seq<PlanStep>, st: RunState, n: nat) {
    && n <= |steps| == |st.job.steps| && !st.aborted
    && forall k :: 0 <= k < n ==> CarriedOut(steps[k], st.job.steps[k])
  }

  lemma TurnCarriesOut(c: P.Config, pace: Pace, g: Limits, planId: PlanId, steps: seq<PlanStep>, s: P.State, t: P.State,
                       st: RunState, n: nat)
    requires pace.interval > 0 && PricesByModel(c) && n < |steps| && steps[n].key != NoKey
    requires Covers(c, s, steps, g.spendable) && g.spendable <= g.budget
    requires Balanced(c, g, planId, steps, s, t, st, n) && !st.aborted && PassesGuard(g, steps[n], st)
    ensures var d := DriveStep(MockWire(c), t, pace, g, planId, steps[n], st);
            && !d.1.aborted && OnlyItsOwn(planId, steps[n], st, d.1, n) && CarriedOut(steps[n], d.1.job.steps[n])
  {
    var ps := steps[n];
    FoundAt(steps, st.job, n);
    assert NotReached(planId, steps, st, n);
    assert ItsTurn(st, ps, n);
    DriveStepIsOneStep(MockWire(c), t, pace, g, planId, ps, st);
    var d := DriveStep(MockWire(c), t, pace, g, planId, ps, st);
    if ps.kind == Local {
      LocalStepIsFree(g, planId, ps, st, n, d.2);
    } else {
      assert steps[n].kind.Generation?;
      CostsNonNegative(planId, steps, st, n);
      NextFits(c, steps, n, st.committed, g.spendable);
      NextIsAccepted(c, s, t, steps, g.spendable, n);
      LaunchIsWaitedFor(c, t, pace, g, planId, ps, st, n);
      WaitCarriesOut(g, planId, ps, st, n, d.2);
    }
  }

  lemma CarriedOnceMore(planId: PlanId, steps: seq<PlanStep>, n: nat, st: RunState, st': RunState)
    requires n < |steps| && GoesOn(steps, st, n) && OnlyItsOwn(planId, steps[n], st, st', n)
    requires !st'.aborted && CarriedOut(steps[n], st'.job.steps[n])
    ensures GoesOn(steps, st', n + 1)
  {
  }

  /** A history against the simulated platform, begun within reserves that fit. */
  ghost predicate CoveredRun(c: P.Config, pace: Pace, g: Limits, planId: PlanId, steps: seq<PlanStep>,
                             tr: seq<(P.State, RunState)>)
  {
    && pace.interval > 0 && PricesByModel(c) && 0 <= g.spendable <= g.budget && 1 <= |tr| <= |steps| + 1
    && (forall k :: 0 <= k < |steps| ==> steps[k].key != NoKey)
    && Covers(c, tr[0].0, steps, g.spendable) && IsHistory(MockWire(c), pace, g, planId, steps, tr)
    && Honest(g, planId, steps, tr[0].0, tr[0].0, tr[0].1, 0) && GoesOn(steps, tr[0].1, 0)
  }

  lemma BalancedAt(c: P.Config, pace: Pace, g: Limits, planId: PlanId, steps: seq<PlanStep>,
                   tr: seq<(P.State, RunState)>, n: nat)
    requires CoveredRun(c, pace, g, planId, steps, tr) && n < |tr|
    ensures Balanced(c, g, planId, steps, tr[0].0, tr[n].0, tr[n].1, n)
  {
    RunIsHonest(c, pace, g, planId, steps, tr, n);
    RunTakes(c, pace, g, planId, steps, tr, n);
  }

  lemma NextGoesOn(c: P.Config, pace: Pace, g: Limits, planId: PlanId, steps: seq<PlanStep>,
                   tr: seq<(P.State, RunState)>, n: nat)
    requires CoveredRun(c, pace, g, planId, steps, tr) && n + 1 < |tr| && n < |steps|
    requires GoesOn(steps, tr[n].1, n) && PassesGuard(g, steps[n], tr[n].1)
    ensures GoesOn(steps, tr[n + 1].1, n + 1)
  {
    BalancedAt(c, pace, g, planId, steps, tr, n);
    assert IsDrivenTurn(MockWire(c), pace, g, planId, steps[n], tr[n].0, tr[n].1, tr[n + 1].0, tr[n + 1].1);
    TurnCarriesOut(c, pace, g, planId, steps, tr[0].0, tr[n].0, tr[n].1, n);
    CarriedOnceMore(planId, steps, n, tr[n].1, tr[n + 1].1);
  }

  lemma {:induction false} StaysGoing(c: P.Config, pace: Pace, g: Limits, planId: PlanId, steps: seq<PlanStep>,
                                      tr: seq<(P.State, RunState)>, n: nat)
    requires CoveredRun(c, pace, g, planId, steps, tr) && n < |tr| && AllPass(g, steps, tr, n)
    ensures GoesOn(steps, tr[n].1, n)
  {
    if n > 0 {
      StaysGoing(c, pace, g, planId, steps, tr, n - 1);
      NextGoesOn(c, pace, g, planId, steps, tr, n - 1);
    }
  }

  /** Where nothing drifts the guard knows the account, and prices are as quoted. */
  ghost predicate DriftFree(c: P.Config, g: Limits, steps: seq<PlanStep>, s: P.State) {
    Undrifted(c, steps) && (HasBillable(steps) ==> KnowsAccount(c, s, g))
  }

  lemma UndriftedPassesAt(c: P.Config, pace: Pace, g: Limits, planId: PlanId, steps: seq<PlanStep>,
                          tr: seq<(P.State, RunState)>, n: nat)
    requires CoveredRun(c, pace, g, planId, steps, tr) && n < |tr| && n < |steps| && DriftFree(c, g, steps, tr[0].0)
    ensures PassesGuard(g, steps[n], tr[n].1)
  {
    BalancedAt(c, pace, g, planId, steps, tr, n);
    BalancedMaySpend(c, g, planId, steps, tr[0].0, tr[n].0, tr[n].1, n);
  }

  /** Without drift the guard lets every step pass. */
  lemma UndriftedPasses(c: P.Config, pace: Pace, g: Limits, planId: PlanId, steps: seq<PlanStep>,
                        tr: seq<(P.State, RunState)>)
    requires CoveredRun(c, pace, g, planId, steps, tr) && |tr| == |steps| + 1 && DriftFree(c, g, steps, tr[0].0)
    ensures AllPass(g, steps, tr, |steps|)
  {
    forall k | 0 <= k < |steps| ensures PassesGuard(g, steps[k], tr[k].1) {
      UndriftedPassesAt(c, pace, g, planId, steps, tr, k);
    }
  }

  lemma BalancedMaySpend(c: P.Config, g: Limits, planId: PlanId, steps: seq<PlanStep>, s: P.State, t: P.State,
                         st: RunState, n: nat)
    requires n < |steps| && Covers(c, s, steps, g.spendable) && Undrifted(c, steps) && g.spendable <= g.budget
    requires (HasBillable(steps) ==> KnowsAccount(c, s, g)) && Balanced(c, g, planId, steps, s, t, st, n)
    ensures PassesGuard(g, steps[n], st)
  {
    if steps[n].kind == Generation {
      assert steps[n].kind.Generation?;
      NextMaySpend(c, g, s, steps, n, st.committed);
    }
  }

  // ---------------------------------------------------------------------------
  // Exactly when the guard stops an admitted plan
  // ---------------------------------------------------------------------------

  lemma {:induction false} AbortStays(c: P.Config, pace: Pace, g: Limits, planId: PlanId, steps: seq<PlanStep>,
                                      tr: seq<(P.State, RunState)>, k: nat, n: nat)
    requires pace.interval > 0 && k <= n < |tr| && IsHistory(MockWire(c), pace, g, planId, steps, tr)
    requires tr[k].1.aborted
    ensures tr[n].1.aborted
    decreases n
  {
    if k < n {
      var m := n - 1;
      AbortStays(c, pace, g, planId, steps, tr, k, m);
      assert IsDrivenTurn(MockWire(c), pace, g, planId, steps[m], tr[m].0, tr[m].1, tr[m + 1].0, tr[m + 1].1);
      DrivenTurnIsTurn(MockWire(c), pace, g, planId, steps[m], tr[m].0, tr[m].1, tr[m + 1].0, tr[m + 1].1);
      TurnChecks(g, planId, steps[m], tr[m].1, DriveStep(MockWire(c), tr[m].0, pace, g, planId, steps[m], tr[m].1).2,
                 tr[n].1);
    }
  }

  /** A step the guard does not let pass stops the run. */
  lemma RefusalStops(c: P.Config, pace: Pace, g: Limits, planId: PlanId, steps: seq<PlanStep>,
                     tr: seq<(P.State, RunState)>, k: nat)
    requires CoveredRun(c, pace, g, planId, steps, tr) && k + 1 < |tr| && k < |steps|
    requires GoesOn(steps, tr[k].1, k) && !PassesGuard(g, steps[k], tr[k].1)
    ensures tr[k + 1].1.aborted
  {
    BalancedAt(c, pace, g, planId, steps, tr, k);
    assert IsDrivenTurn(MockWire(c), pace, g, planId, steps[k], tr[k].0, tr[k].1, tr[k + 1].0, tr[k + 1].1);
    GuardStops(c, pace, g, planId, steps, tr[k].0, tr[k].1, k);
  }

  lemma GuardStops(c: P.Config, pace: Pace, g: Limits, planId: PlanId, steps: seq<PlanStep>, t: P.State, st: RunState,
                   k: nat)
    requires pace.interval > 0 && k < |steps| && RunInv(g, planId, steps, st, k) && !st.aborted
    requires !PassesGuard(g, steps[k], st)
    ensures DriveStep(MockWire(c), t, pace, g, planId, steps[k], st).1.aborted
  {
    FoundAt(steps, st.job, k);
    assert NotReached(planId, steps, st, k) && ItsTurn(st, steps[k], k);
    DriveStepIsOneStep(MockWire(c), t, pace, g, planId, steps[k], st);
    UnaffordableStops(g, planId, steps[k], st, k, DriveStep(MockWire(c), t, pace, g, planId, steps[k], st).2);
  }

  lemma {:induction false} FirstRefusal(g: Limits, steps: seq<PlanStep>, tr: seq<(P.State, RunState)>, n: nat)
    returns (k: nat)
    requires n <= |steps| && n <= |tr| && !AllPass(g, steps, tr, n)
    ensures k < n && AllPass(g, steps, tr, k) && !PassesGuard(g, steps[k], tr[k].1)
  {
    if AllPass(g, steps, tr, n - 1) {
      k := n - 1;
    } else {
      k := FirstRefusal(g, steps, tr, n - 1);
    }
  }

  lemma RecheckKnows(c: P.Config, s: P.State, account: Account, steps: seq<PlanStep>, spendable: Amount, g: Limits)
    requires Rechecked(MockWire(c), s, account, steps, spendable).blockers == [] && HasBillable(steps)
    requires g.account == Some(Rechecked(MockWire(c), s, account, steps, spendable).account)
    ensures KnowsAccount(c, s, g)
  {
    RecheckIsExact(MockWire(c), s, account, steps, spendable);
    EchoIsTheAccount(c, s, account, steps);
  }

  lemma CheaperIsBillable(a: seq<PlanStep>, b: seq<PlanStep>)
    requires OnlyCheaper(a, b) && HasBillable(b)
    ensures HasBillable(a)
  {
    var k :| 0 <= k < |b| && b[k].kind.Generation?;
    assert b[k] == a[k].(estimate := b[k].estimate);
  }

  lemma AdmittedGuardKnows(service: PlanService<P.State>, c: P.Config, brief: Brief, plan: Plan, jobId: JobId,
                           now: nat, rows: Rows, p: Passage<P.State>, client': P.State)
    requires IsAdmitted(service, c, brief, plan, jobId, now, rows, p, client')
    ensures HasBillable(p.plan.steps) ==> KnowsAccount(c, p.entry, p.g)
  {
    PassageIsFresh(service, brief, plan, jobId, now, rows, p, client');
    if HasBillable(p.plan.steps) {
      CheaperIsBillable(plan.steps, p.plan.steps);
      RecheckKnows(c, p.entry, p.account, plan.steps, p.g.spendable, p.g);
    }
  }

  lemma AdmittedIsHonest(service: PlanService<P.State>, c: P.Config, brief: Brief, plan: Plan, jobId: JobId,
                           now: nat, rows: Rows, p: Passage<P.State>, client': P.State)
    requires IsAdmitted(service, c, brief, plan, jobId, now, rows, p, client')
    requires P.Numbered(p.entry) && forall s :: s in plan.steps ==> s.key !in p.entry.replies
    ensures 0 <= p.g.spendable <= p.g.budget && p.client == p.entry && |p.history| >= 1
    ensures p.history[0] == (p.entry, p.start)
    ensures Honest(p.g, plan.planId, p.plan.steps, p.entry, p.entry, p.start, 0) && GoesOn(p.plan.steps, p.start, 0)
  {
    PassageIsFresh(service, brief, plan, jobId, now, rows, p, client');
    RecheckOnlyReads(c, p.entry, p.account, plan.steps, |plan.steps|);
    forall i | 0 <= i < |p.plan.steps| ensures p.plan.steps[i].key !in p.entry.replies {
      assert p.plan.steps[i] == plan.steps[i].(estimate := p.plan.steps[i].estimate) && plan.steps[i] in plan.steps;
    }
    HonestStart(p.g, plan.planId, p.plan.steps, p.entry, p.start);
  }

  ghost predicate AllCarriedOut(steps: seq<PlanStep>, st: RunState) {
    |st.job.steps| == |steps| && forall k :: 0 <= k < |steps| ==> CarriedOut(steps[k], st.job.steps[k])
  }

  lemma PassingIsCarriedOut(c: P.Config, pace: Pace, g: Limits, planId: PlanId, steps: seq<PlanStep>,
                            tr: seq<(P.State, RunState)>)
    requires CoveredRun(c, pace, g, planId, steps, tr) && |tr| == |steps| + 1 && AllPass(g, steps, tr, |steps|)
    ensures !tr[|steps|].1.aborted && AllCarriedOut(steps, tr[|steps|].1)
  {
    StaysGoing(c, pace, g, planId, steps, tr, |steps|);
  }

  lemma RefusedIsStopped(c: P.Config, pace: Pace, g: Limits, planId: PlanId, steps: seq<PlanStep>,
                         tr: seq<(P.State, RunState)>)
    requires CoveredRun(c, pace, g, planId, steps, tr) && |tr| == |steps| + 1 && !AllPass(g, steps, tr, |steps|)
    ensures tr[|steps|].1.aborted
  {
    var k := FirstRefusal(g, steps, tr, |steps|);
    StaysGoing(c, pace, g, planId, steps, tr, k);
    RefusalStops(c, pace, g, planId, steps, tr, k);
    AbortStays(c, pace, g, planId, steps, tr, k + 1, |steps|);
  }

  lemma StopsExactly(c: P.Config, pace: Pace, g: Limits, planId: PlanId, steps: seq<PlanStep>,
                     tr: seq<(P.State, RunState)>)
    requires CoveredRun(c, pace, g, planId, steps, tr) && |tr| == |steps| + 1
    ensures tr[|steps|].1.aborted <==> !AllPass(g, steps, tr, |steps|)
    ensures !tr[|steps|].1.aborted ==> AllCarriedOut(steps, tr[|steps|].1)
  {
    if AllPass(g, steps, tr, |steps|) {
      PassingIsCarriedOut(c, pace, g, planId, steps, tr);
    } else {
      RefusedIsStopped(c, pace, g, planId, steps, tr);
    }
  }

  lemma AdmittedIsComplete(service: PlanService<P.State>, c: P.Config, brief: Brief, plan: Plan, jobId: JobId,
                           now: nat, rows: Rows, p: Passage<P.State>, client': P.State)
    requires PricesByModel(c) && IsAdmitted(service, c, brief, plan, jobId, now, rows, p, client')
    requires P.Numbered(p.entry) && forall s :: s in plan.steps ==> s.key !in p.entry.replies
    ensures !p.end.refused && |p.history| == |p.plan.steps| + 1 && p.history[|p.plan.steps|].1 == p.end
  {
    AdmittedRunBalances(service, c, brief, plan, jobId, now, rows, p, client');
  }

  lemma AdmittedIsCoveredRun(service: PlanService<P.State>, c: P.Config, brief: Brief, plan: Plan, jobId: JobId,
                             now: nat, rows: Rows, p: Passage<P.State>, client': P.State)
    requires PricesByModel(c) && IsAdmitted(service, c, brief, plan, jobId, now, rows, p, client')
    requires P.Numbered(p.entry) && forall s :: s in plan.steps ==> s.key !in p.entry.replies
    ensures CoveredRun(c, service.pace, p.g, plan.planId, p.plan.steps, p.history) && p.history[0].0 == p.entry
  {
    AdmittedIsCovered(service, c, brief, plan, jobId, now, rows, p, client');
    AdmittedIsHonest(service, c, brief, plan, jobId, now, rows, p, client');
  }

  /** An admitted plan is stopped if and only if the guard does not let one of its steps
      pass when its turn comes: the platform refuses no launch, charges none beyond the
      envelope, and answers every wait. If none is stopped, every step is carried out,
      whatever fails, times out or is refunded on the way. */
  lemma StoppedExactlyByTheGuard(service: PlanService<P.State>, c: P.Config, brief: Brief, plan: Plan, jobId: JobId,
                                 now: nat, rows: Rows, p: Passage<P.State>, client': P.State)
    requires PricesByModel(c) && IsAdmitted(service, c, brief, plan, jobId, now, rows, p, client')
    requires P.Numbered(p.entry) && forall s :: s in plan.steps ==> s.key !in p.entry.replies
    ensures !p.end.refused && |p.history| == |p.plan.steps| + 1
    ensures p.end.aborted <==> !AllPass(p.g, p.plan.steps, p.history, |p.plan.steps|)
    ensures !p.end.aborted ==> AllCarriedOut(p.plan.steps, p.end)
  {
    AdmittedIsComplete(service, c, brief, plan, jobId, now, rows, p, client');
    AdmittedIsCoveredRun(service, c, brief, plan, jobId, now, rows, p, client');
    StopsExactly(c, service.pace, p.g, plan.planId, p.plan.steps, p.history);
  }

  /** Where no step is planned above what is asked for it now, an admitted plan is carried
      out to its end. */
  lemma AdmittedRunIsCarriedOut(service: PlanService<P.State>, c: P.Config, brief: Brief, plan: Plan, jobId: JobId,
                                now: nat, rows: Rows, p: Passage<P.State>, client': P.State)
    requires PricesByModel(c) && IsAdmitted(service, c, brief, plan, jobId, now, rows, p, client')
    requires P.Numbered(p.entry) && forall s :: s in plan.steps ==> s.key !in p.entry.replies
    requires Undrifted(c, p.plan.steps)
    ensures !p.end.refused && !p.end.aborted && AllCarriedOut(p.plan.steps, p.end)
  {
    StoppedExactlyByTheGuard(service, c, brief, plan, jobId, now, rows, p, client');
    AdmittedIsCoveredRun(service, c, brief, plan, jobId, now, rows, p, client');
    AdmittedGuardKnows(service, c, brief, plan, jobId, now, rows, p, client');
    UndriftedPasses(c, service.pace, p.g, plan.planId, p.plan.steps, p.history);
  }
}
