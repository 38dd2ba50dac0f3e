/** From a queued job to its run: claim, account, recheck or resume, then spend. */
module JobRun {
  import opened Money
  import opened Domain
  import opened Budget
  import opened Ledger
  import opened WireModel
  import opened Execution
  import opened Spending
  import opened PlanBuilder
  import opened Recheck
  import opened Executor

  // ---------------------------------------------------------------------------
  // New jobs
  // ---------------------------------------------------------------------------

  function NewStep(s: PlanStep): JobStep {
    JobStep(s.stepId, s.kind, s.key, StepStatus.Pending, None, false, s.estimate, 0, false, None, None, None, None,
        None, 0)
  }

  function NewSteps(steps: seq<PlanStep>): (js: seq<JobStep>)
    ensures |js| == |steps|
    ensures forall i :: 0 <= i < |steps| ==> js[i] == NewStep(steps[i])
  {
    seq(|steps|, i requires 0 <= i < |steps| => NewStep(steps[i]))
  }

  function NewJob(plan: Plan, jobId: JobId, now: nat): Job {
    Job(jobId, plan.planId, JobStatus.Queued, 0, NewSteps(plan.steps), [], now)
  }

  /** Steps of a well-formed plan differ in id and in key. */
  lemma PlanStepsAreDistinct(brief: Brief, planId: PlanId, steps: seq<PlanStep>)
    requires WellFormed(brief, planId, steps)
    ensures DistinctSteps(steps)
  {
    forall i, j | 0 <= i < j < |steps| ensures steps[i].stepId != steps[j].stepId && steps[i].key != steps[j].key {
      assert steps[i] in steps && steps[j] in steps;
      IdsDiffer(steps[i].format, steps[j].format);
    }
  }

  lemma IdsDiffer(f: Format, g: Format)
    requires f != g
    ensures StepIdOf(f) != StepIdOf(g)
  {
    assert StepIdOf(Text)[0] == 't' && StepIdOf(Image)[0] == 'i' && StepIdOf(Music)[0] == 'm';
    assert StepIdOf(Voice)[..2] == "vo" && StepIdOf(Video)[..2] == "vi";
    assert "vo"[1] == 'o' && "vi"[1] == 'i';
  }

  /** No ledger row of this plan, none under one of its keys. */
  predicate NeverClaimed(plan: Plan, rows: Rows) {
    forall s :: s in plan.steps ==> (plan.planId, s.stepId) !in rows && !KeyInUse(rows, s.key)
  }

  /** A created plan, admitted once, starts the run the spending theorems speak about. */
  lemma AdmittedPlanIsFresh(brief: Brief, plan: Plan, jobId: JobId, now: nat, rows: Rows)
    requires WellFormed(brief, plan.planId, plan.steps) && NeverClaimed(plan, rows)
    ensures Fresh(plan.planId, plan.steps, RunState(Started(NewJob(plan, jobId, now)), 0, rows, [], false, false))
    ensures var job := NewJob(plan, jobId, now);
            && AddsUp(job) && job.jobId == jobId && job.planId == plan.planId && job.status == JobStatus.Queued
            && job.cost == 0 && job.errors == [] && job.createdAt == now && |job.steps| == |plan.steps|
            && forall i :: 0 <= i < |job.steps| ==>
                 var s, ps := job.steps[i], plan.steps[i];
                 && s.stepId == ps.stepId && s.kind == ps.kind && s.key == ps.key && s.estimate == ps.estimate
                 && s.status == StepStatus.Pending && s.attempts == 0 && s.error == None
  {
    PlanStepsAreDistinct(brief, plan.planId, plan.steps);
    var start := RunState(Started(NewJob(plan, jobId, now)), 0, rows, [], false, false);
    forall i | 0 <= i < |plan.steps| ensures NotReached(plan.planId, plan.steps, start, i) {
      assert plan.steps[i] in plan.steps;
    }
    SumOfZeros(Costs(NewSteps(plan.steps)));
  }

  /** The recheck leaves the plan's identity alone, so the run stays fresh. */
  lemma RecheckedPlanIsFresh(planId: PlanId, steps: seq<PlanStep>, priced: seq<PlanStep>, st: RunState)
    requires Fresh(planId, steps, st) && OnlyCheaper(steps, priced)
    ensures Fresh(planId, priced, st)
  {
    forall i | 0 <= i < |priced| ensures NotReached(planId, priced, st, i) {
      assert NotReached(planId, steps, st, i);
      assert priced[i] == steps[i].(estimate := priced[i].estimate);
    }
    forall i, j | 0 <= i < j < |priced| ensures priced[i].stepId != priced[j].stepId && priced[i].key != priced[j].key {
      assert priced[i] == steps[i].(estimate := priced[i].estimate)
             && priced[j] == steps[j].(estimate := priced[j].estimate);
    }
    assert forall i :: 0 <= i < |priced| ==> priced[i].stepId == steps[i].stepId;
  }

  // ---------------------------------------------------------------------------
  // Stopping before the first ruble
  // ---------------------------------------------------------------------------

  function Cancelled(s: JobStep): JobStep {
    if s.status.Pending? then s.(status := StepStatus.Skipped, error := Some(CancelledBeforeSpend)) else s
  }

  function AllCancelled(steps: seq<JobStep>): (r: seq<JobStep>)
    ensures |r| == |steps|
    ensures forall i :: 0 <= i < |steps| ==> r[i] == Cancelled(steps[i])
  {
    seq(|steps|, i requires 0 <= i < |steps| => Cancelled(steps[i]))
  }

  function BlockedBy(blockers: seq<Blocker>): (es: seq<JobError>)
    ensures |es| == |blockers|
    ensures forall i :: 0 <= i < |es| ==> es[i] == JobError(None, Blocked(blockers[i]))
  {
    seq(|blockers|, i requires 0 <= i < |blockers| => JobError(None, Blocked(blockers[i])))
  }

  function AbortedJob(job: Job, blockers: seq<Blocker>): Job {
    job.(status := JobStatus.Aborted, errors := job.errors + BlockedBy(blockers), steps := AllCancelled(job.steps))
  }

  /** Stopping a job spends nothing: it ends aborted, its steps keep their costs, those that
      were pending are skipped and the others left alone, and every blocker is an error. */
  lemma AbortSpendsNothing(job: Job, blockers: seq<Blocker>)
    requires AddsUp(job)
    ensures var after := AbortedJob(job, blockers);
            && AddsUp(after) && after.cost == job.cost && after.status == JobStatus.Aborted
            && after.jobId == job.jobId && after.planId == job.planId
            && ((forall i :: 0 <= i < |job.steps| ==> job.steps[i].cost == 0) ==> after.cost == 0)
    ensures var after := AbortedJob(job, blockers);
            && |after.steps| == |job.steps|
            && forall i :: 0 <= i < |job.steps| ==>
                 after.steps[i] == if job.steps[i].status != StepStatus.Pending then job.steps[i]
                                   else job.steps[i].(status := StepStatus.Skipped,
                                                      error := Some(CancelledBeforeSpend))
    ensures var errors := AbortedJob(job, blockers).errors;
            && |errors| == |job.errors| + |blockers| && errors[..|job.errors|] == job.errors
            && forall i :: 0 <= i < |blockers| ==>
                 errors[|job.errors| + i] == JobError(None, Blocked(blockers[i]))
  {
    assert Costs(AllCancelled(job.steps)) == Costs(job.steps);
    if forall i :: 0 <= i < |job.steps| ==> job.steps[i].cost == 0 {
      SumOfZeros(Costs(job.steps));
    }
  }

  predicate AnyLaunched(job: Job) {
    exists i :: 0 <= i < |job.steps| && job.steps[i].generationId.Some?
  }

  // ---------------------------------------------------------------------------
  // The service
  // ---------------------------------------------------------------------------

  datatype Outcome =
    | NotFound
    | TakenElsewhere(current: Job)  // somebody else has claimed it, or it has ended
    | Stopped(job: Job, blockers: seq<Blocker>)  // aborted before the first ruble
    | Ended(job: Job)
    | LedgerRefused

  /** How a claimed job got to the executor: the limits, the plan as rechecked, and the
      state the run starts and ends in. */
  datatype Passage<S> = Passage(
    entry: S, account: Account, client: S, g: Limits, plan: Plan, start: RunState, end: RunState,
    history: seq<(S, RunState)>)

  /** What a run of a job may touch, besides the platform. */
  datatype Desk = Desk(jobs: map<JobId, Job>, rows: Rows, plans: map<PlanId, Plan>, launches: seq<Body>)

  class PlanService<S> {
    const client: Client<S>
    const repo: JobRepository
    const pace: Pace
    const margin: Margin
    var plans: map<PlanId, Plan>

    constructor (client: Client<S>, repo: JobRepository, pace: Pace, margin: Margin)
      ensures this.client == client && this.repo == repo && this.pace == pace && this.margin == margin && plans == map[]
    {
      this.client, this.repo, this.pace, this.margin := client, repo, pace, margin;
      plans := map[];
    }

    /** Terminal state for a job stopped before the first ruble. */
    method AbortJob(job: Job, blockers: seq<Blocker>) returns (after: Job)
      requires repo.Valid() && AddsUp(job)
      modifies repo`jobs
      ensures after == AbortedJob(job, blockers)
      ensures repo.Valid() && repo.jobs == old(repo.jobs)[job.jobId := after]
    {
      var steps := job.steps;
      for i := 0 to |job.steps|
        invariant |steps| == |job.steps|
        invariant forall k :: 0 <= k < |steps| ==> steps[k] == if k < i then Cancelled(job.steps[k]) else job.steps[k]
      {
        if steps[i].status.Pending? {
          steps := steps[i := steps[i].(status := StepStatus.Skipped, error := Some(CancelledBeforeSpend))];
        }
      }
      assert steps == AllCancelled(job.steps);
      after := job.(status := JobStatus.Aborted, errors := job.errors + BlockedBy(blockers), steps := steps);
      AbortSpendsNothing(job, blockers);
      repo.Save(after);
    }

    /** The recheck found nothing against the job, or the job was already paying. */
    ghost predicate LetThrough(job: Job, plan: Plan, p: Passage<S>)
      requires margin.Valid()
    {
      && p.g.budget == plan.budget && p.g.spendable == Spendable(plan.budget, margin)
      && if exists i :: 0 <= i < |job.steps| && job.steps[i].generationId != None then
           && p.client == p.entry && p.plan == plan && p.g.account == Some(p.account)
           && p.start.committed == TotalCost(job.steps)
         else
           var r := Rechecked(client.wire, p.entry, p.account, plan.steps, Spendable(plan.budget, margin));
           && r.blockers == [] && p.client == r.state && p.plan == plan.(steps := r.steps)
           && p.g.account == Some(r.account) && p.start.committed == 0
    }

    /** The run that followed: let through, then driven to its end. */
    ghost predicate Spent(job: Job, plan: Plan, rows: Rows, p: Passage<S>, client': S)
      requires margin.Valid() && pace.interval > 0
    {
      && LetThrough(job, plan, p)
      && p.start == RunState(Started(job), p.start.committed, rows, [], false, false)
      && IsHistory(client.wire, pace, p.g, p.plan.planId, p.plan.steps, p.history)
      && p.history[0] == (p.client, p.start) && p.history[|p.history| - 1] == (client', p.end)
      && (p.end.refused || |p.history| == |p.plan.steps| + 1)
    }

    /** The tables, the plans and the launches so far. */
    function Here(): Desk
      reads this, client, repo
    {
      Desk(repo.jobs, repo.rows, plans, client.launches)
    }

    /** Stopped before the first ruble: the job is aborted, and nothing else was touched. */
    ghost predicate StoppedAt(job: Job, r: Outcome, a: Desk, b: Desk) {
      && r.Stopped? && r.blockers != [] && r.job == AbortedJob(job, r.blockers)
      && b == a.(jobs := a.jobs[job.jobId := r.job])
    }

    /** Let through and run: the ledger, the launches, the document and the plan are the
        run's. */
    ghost predicate RanTo(job: Job, plan: Plan, r: Outcome, p: Passage<S>, client': S, a: Desk, b: Desk)
      requires margin.Valid() && pace.interval > 0
    {
      && Spent(job, plan, a.rows, p, client')
      && r == (if p.end.refused then LedgerRefused else Ended(FinalJob(p.end)))
      && b == Desk(a.jobs[job.jobId := LastDocument(p.end)], p.end.rows,
                   a.plans[job.planId := p.plan.(jobId := Some(job.jobId), status := Executed)],
                   a.launches + Bodies(p.end.launches))
    }

    /** The claim's own write does not show: the last document replaces it. */
    lemma ClaimIsOverwritten(job: Job, claimed: Job, plan: Plan, r: Outcome, p: Option<Passage<S>>, client': S, a: Desk,
                             b: Desk)
      requires margin.Valid() && pace.interval > 0 && claimed.jobId == job.jobId
      ensures p.Some? && RanTo(job, plan, r, p.value, client', a.(jobs := a.jobs[job.jobId := claimed]), b) ==>
                RanTo(job, plan, r, p.value, client', a, b)
      ensures StoppedAt(job, r, a.(jobs := a.jobs[job.jobId := claimed]), b) ==> StoppedAt(job, r, a, b)
    {
      if p.Some? {
        var last := LastDocument(p.value.end);
        assert a.jobs[job.jobId := claimed][job.jobId := last] == a.jobs[job.jobId := last];
      }
      if r.Stopped? {
        assert a.jobs[job.jobId := claimed][job.jobId := r.job] == a.jobs[job.jobId := r.job];
      }
    }

    /** A claimed job: recheck or resume, then run. */
    method Proceed(job: Job, plan: Plan, snapshot: Account) returns (r: Outcome, ghost p: Option<Passage<S>>)
      requires pace.interval > 0 && margin.Valid() && repo.Valid() && AddsUp(job) && job.status.Running?
      modifies this`plans, client, repo
      ensures repo.Valid()
      ensures p.None? ==>
                && StoppedAt(job, r, old(Here()), Here())
                && (forall i :: 0 <= i < |job.steps| ==> job.steps[i].generationId == None)
                && r.blockers == Rechecked(client.wire, old(client.state), snapshot, plan.steps,
                    Spendable(plan.budget, margin)).blockers
      ensures p.Some? ==>
                && RanTo(job, plan, r, p.value, client.state, old(Here()), Here())
                && p.value.entry == old(client.state) && p.value.account == snapshot
    {
      p := None;
      ghost var entry, before := client.state, Here();
      var guard := new BudgetGuard(plan.budget, margin, Some(snapshot));
      var ready := plan;
      if AnyLaunched(job) {
        // Already paid upstream: pricing it again could only abort money that is gone.
        guard.committed := TotalCost(job.steps);
      } else {
        var steps, blockers := RecheckPrices(client, plan.steps, guard);
        if blockers != [] {
          var stopped := AbortJob(job, blockers);
          return Stopped(stopped, blockers), p;
        }
        ready := plan.(steps := steps);
      }
      plans := plans[job.planId := ready.(jobId := Some(job.jobId), status := Executed)];
      var executor := new Executor(client, repo, pace);
      ghost var s1, g := client.state, guard.Limit();
      ghost var start := RunState(Started(job), guard.committed, repo.rows, [], false, false);
      var outcome;
      ghost var end, history;
      outcome, end, history := executor.Run(ready, job, guard);
      p := Some(Passage(entry, snapshot, s1, g, ready, start, end, history));
      r := if outcome.None? then LedgerRefused else Ended(outcome.value);
    }

    /** Verify prices, then spend. A job is run only by whoever flips it from queued to
        running. Without a launch behind it, it is rechecked first, and any blocker
        stops it: nothing is launched and no ledger row changes. */
    method RunJob(jobId: JobId)
      returns (r: Outcome, ghost entry: S, ghost account: Account, ghost p: Option<Passage<S>>)
      requires pace.interval > 0 && margin.Valid() && repo.Valid()
      modifies this`plans, client, repo
      ensures repo.Valid()
      ensures r.NotFound? <==> jobId !in old(repo.jobs)
      ensures r.TakenElsewhere? <==> jobId in old(repo.jobs) && !old(repo.jobs)[jobId].status.Queued?
      ensures r.NotFound? || r.TakenElsewhere? ==> Here() == old(Here()) && p.None?
      ensures !r.NotFound? && !r.TakenElsewhere? ==>
                var job := Started(old(repo.jobs)[jobId]);
                if p.None? then
                  && StoppedAt(job, r, old(Here()), Here())
                  && if job.planId !in old(plans) then r.blockers == [PlanMissing]
                     else
                       var plan := old(plans)[job.planId];
                       && (forall i :: 0 <= i < |job.steps| ==> job.steps[i].generationId == None)
                       && (entry, account) == Snapshot(client.wire, old(client.state))
                       && r.blockers == Rechecked(client.wire, entry, account, plan.steps,
                           Spendable(plan.budget, margin)).blockers
                else
                  && job.planId in old(plans) && (entry, account) == Snapshot(client.wire, old(client.state))
                  && p.value.entry == entry && p.value.account == account
                  && RanTo(job, old(plans)[job.planId], r, p.value, client.state, old(Here()), Here())
    {
      p, entry, account := None, client.state, Account(None, None, None);
      ghost var desk := Here();
      if jobId !in repo.jobs {
        return NotFound, entry, account, p;
      }
      var claimed := repo.ClaimForExecution(jobId);
      if !claimed {
        return TakenElsewhere(repo.jobs[jobId]), entry, account, p;
      }
      var job := repo.jobs[jobId];
      if job.planId !in plans {
        var stopped := AbortJob(job, [PlanMissing]);
        assert desk.jobs[jobId := job][jobId := stopped] == desk.jobs[jobId := stopped];
        return Stopped(stopped, [PlanMissing]), entry, account, p;
      }
      var snapshot := client.AccountSnapshot();
      account, entry := snapshot, client.state;
      assert Here() == desk.(jobs := desk.jobs[jobId := job]);
      ghost var plan := plans[job.planId];
      r, p := Proceed(job, plans[job.planId], snapshot);
      ClaimIsOverwritten(job, job, plan, r, p, client.state, desk, Here());
    }
  }
}
