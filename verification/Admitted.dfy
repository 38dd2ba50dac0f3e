/** From an admitted plan to its books: what recheck and run together keep for a job that
    `PlanService.RunJob` takes on. */
module Admitted {
  import opened Domain
  import opened Budget
  import opened Ledger
  import opened WireModel
  import opened Execution
  import opened Spending
  import opened PlanBuilder
  import opened Recheck
  import opened JobRun
  import B = Books
  import P = Platform

  /** Every answer of a history is fair. */
  ghost predicate FairHistory<S>(wire: Wire<S>, pace: Pace, g: Limits, planId: PlanId, steps: seq<PlanStep>,
                                 tr: seq<(S, RunState)>)
    requires pace.interval > 0 && |tr| <= |steps| + 1
  {
    forall k {:trigger tr[k]} :: 0 <= k < |tr| - 1 ==>
      Fair(steps[k], DriveStep(wire, tr[k].0, pace, g, planId, steps[k], tr[k].1).2)
  }

  lemma {:induction false} HistoryKeepsInv<S>(wire: Wire<S>, pace: Pace, g: Limits, planId: PlanId,
                                              steps: seq<PlanStep>, tr: seq<(S, RunState)>, n: nat)
    requires pace.interval > 0 && 0 <= g.spendable <= g.budget && n < |tr|
    requires IsHistory(wire, pace, g, planId, steps, tr) && FairHistory(wire, pace, g, planId, steps, tr)
    requires RunInv(g, planId, steps, tr[0].1, 0)
    ensures RunInv(g, planId, steps, tr[n].1, n)
  {
    if n > 0 {
      var k := n - 1;
      HistoryKeepsInv(wire, pace, g, planId, steps, tr, k);
      assert IsDrivenTurn(wire, pace, g, planId, steps[k], tr[k].0, tr[k].1, tr[k + 1].0, tr[k + 1].1);
      DrivenTurnIsTurn(wire, pace, g, planId, steps[k], tr[k].0, tr[k].1, tr[k + 1].0, tr[k + 1].1);
      var said := DriveStep(wire, tr[k].0, pace, g, planId, steps[k], tr[k].1).2;
      TurnKeepsInv(g, planId, steps, tr[k].1, k, said, tr[n].1);
    }
  }

  /** What a job runs on is a fresh start of the rechecked plan, within a proper envelope. */
  lemma PassageIsFresh<S>(service: PlanService<S>, brief: Brief, plan: Plan, jobId: JobId, now: nat, rows: Rows,
                          p: Passage<S>, client': S)
    requires service.margin.Valid() && service.pace.interval > 0 && plan.budget > 0
    requires WellFormed(brief, plan.planId, plan.steps) && NeverClaimed(plan, rows)
    requires service.Spent(Started(NewJob(plan, jobId, now)), plan, rows, p, client')
    ensures 0 < p.g.spendable <= p.g.budget == plan.budget && p.plan.planId == plan.planId
    ensures OnlyCheaper(plan.steps, p.plan.steps) && Fresh(plan.planId, p.plan.steps, p.start)
    ensures p.start == p.history[0].1 && p.client == p.history[0].0
  {
    var job := Started(NewJob(plan, jobId, now));
    EnvelopeIsProper(plan.budget, service.margin);
    AdmittedPlanIsFresh(brief, plan, jobId, now, rows);
    assert !AnyLaunched(job);
    RecheckOnlyLowers(service.client.wire, p.entry, p.account, plan.steps, |plan.steps|);
    assert plan.steps[..|plan.steps|] == plan.steps;
    RecheckedPlanIsFresh(plan.planId, plan.steps, p.plan.steps, p.start);
  }

  /** A run that keeps the invariant was never refused, so it went to its end. */
  lemma GoesToItsEnd<S>(service: PlanService<S>, plan: Plan, job: Job, rows: Rows, p: Passage<S>, client': S)
    requires service.margin.Valid() && service.pace.interval > 0
    requires service.Spent(job, plan, rows, p, client')
    requires RunInv(p.g, p.plan.planId, p.plan.steps, p.end, |p.history| - 1)
    ensures !p.end.refused && |p.history| == |p.plan.steps| + 1
  {
  }

  /** On every platform with fair answers, a created plan that is admitted once and let
      through by the recheck runs to its end within its envelope: every launch passed all
      the guard's checks at a price no higher than planned, spending is bounded, and
      guard, document and ledger name one sum. */
  lemma AdmittedRunIsBounded<S>(service: PlanService<S>, brief: Brief, plan: Plan, jobId: JobId, now: nat, rows: Rows,
                                p: Passage<S>, client': S)
    requires service.margin.Valid() && service.pace.interval > 0 && plan.budget > 0
    requires WellFormed(brief, plan.planId, plan.steps) && NeverClaimed(plan, rows)
    requires service.Spent(Started(NewJob(plan, jobId, now)), plan, rows, p, client')
    requires FairHistory(service.client.wire, service.pace, p.g, p.plan.planId, p.plan.steps, p.history)
    ensures !p.end.refused && |p.history| == |p.plan.steps| + 1
    ensures SpendBounded(p.g, p.end) && AllChecked(p.g, p.plan.steps, p.end.launches)
            && OneSum(plan.planId, p.plan.steps, p.end)
    ensures OnlyCheaper(plan.steps, p.plan.steps) && p.g.spendable <= plan.budget
  {
    var n, steps := |p.history| - 1, p.plan.steps;
    PassageIsFresh(service, brief, plan, jobId, now, rows, p, client');
    FreshKeepsInv(p.g, plan.planId, steps, p.start);
    HistoryKeepsInv(service.client.wire, service.pace, p.g, plan.planId, steps, p.history, n);
    GoesToItsEnd(service, plan, Started(NewJob(plan, jobId, now)), rows, p, client');
    BoundedIsSpendBounded(p.g, p.end, n);
    FinishedRunAddsUp(p.g, plan.planId, steps, p.end);
    HistoryIsRun(service.client.wire, service.pace, p.g, plan.planId, steps, p.history);
    var evs := EventsOf(service.client.wire, service.pace, p.g, plan.planId, steps, p.history);
    EveryLaunchIsChecked(p.g, plan.planId, steps, evs, StatesOf(p.history), n);
  }

  // ---------------------------------------------------------------------------
  // Against the simulated platform
  // ---------------------------------------------------------------------------

  lemma {:induction false} RecheckOnlyReads(c: P.Config, s: P.State, account: Account, steps: seq<PlanStep>, n: nat)
    requires n <= |steps|
    ensures RecheckUpTo(B.MockWire(c), s, account, steps, n).state == s
  {
    if n > 0 {
      RecheckOnlyReads(c, s, account, steps, n - 1);
    }
  }

  /** Against the simulated platform nothing need be assumed of the answers: a created plan,
      admitted once and let through, ends with balance drop, commitment, document and
      ledger in agreement. */
  lemma AdmittedRunBalances(service: PlanService<P.State>, c: P.Config, brief: Brief, plan: Plan, jobId: JobId,
                            now: nat, rows: Rows, p: Passage<P.State>, client': P.State)
    requires service.margin.Valid() && service.pace.interval > 0 && plan.budget > 0
             && service.client.wire == B.MockWire(c)
    requires WellFormed(brief, plan.planId, plan.steps) && NeverClaimed(plan, rows)
    requires service.Spent(Started(NewJob(plan, jobId, now)), plan, rows, p, client')
    requires P.Numbered(p.entry) && forall s :: s in plan.steps ==> s.key !in p.entry.replies
    ensures !p.end.refused && |p.history| == |p.plan.steps| + 1
    ensures B.Balances(plan.planId, p.plan.steps, p.entry, client', p.end)
  {
    var n, steps := |p.history| - 1, p.plan.steps;
    PassageIsFresh(service, brief, plan, jobId, now, rows, p, client');
    RecheckOnlyReads(c, p.entry, p.account, plan.steps, |plan.steps|);
    assert p.client == p.entry;
    forall i | 0 <= i < |steps| ensures steps[i].key !in p.entry.replies {
      assert steps[i] == plan.steps[i].(estimate := steps[i].estimate) && plan.steps[i] in plan.steps;
    }
    B.HonestStart(p.g, plan.planId, steps, p.entry, p.start);
    B.RunIsHonest(c, service.pace, p.g, plan.planId, steps, p.history, n);
    GoesToItsEnd(service, plan, Started(NewJob(plan, jobId, now)), rows, p, client');
    B.HonestEnd(p.g, plan.planId, steps, p.entry, client', p.end);
  }
}
